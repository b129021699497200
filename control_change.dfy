/**
 * What a MIDI control change does to the controls (`handleMIDIControlChange`,
 * synth.js:499-544): CC 7 sets the master volume, CC 74 the filter cutoff
 * and CC 71 the filter resonance; every other controller number is ignored.
 */
module ControlChange {
  import opened Wrappers
  import opened Mapping
  import opened Midi
  import opened Settings

  /**
   * `cutoffCurve` stands for `20 * Math.pow(15000 / 20, value / 127)`, the
   * exponential CC 74 mapping, which the model leaves to the platform.
   */
  function ApplyControlChange(c: Controls, controller: Option<byte>, value: byte, cutoffCurve: int -> real): (r: Controls)
    ensures controller == Some(7) ==>
              r == c.(masterVolume := r.masterVolume) && 0.0 <= r.masterVolume <= 1.0
              && r.masterVolume == (if value <= 127 then value as real / 127.0 else 1.0)
    ensures controller == Some(74) ==> r == c.(filterCutoff := cutoffCurve(value as int))
    ensures controller == Some(71) ==>
              r == c.(filterResonance := r.filterResonance) && 0.0 <= r.filterResonance <= 30.0
              && r.filterResonance == (if value <= 127 then value as real * 30.0 / 127.0 else 30.0)
    ensures controller !in {Some(7), Some(71), Some(74)} ==> r == c
  {
    match controller
    case Some(7) => c.(masterVolume := MapRange(value as real, 0.0, 127.0, 0.0, 1.0))
    case Some(74) => c.(filterCutoff := cutoffCurve(value as int))
    case Some(71) => c.(filterResonance := MapRange(value as real, 0.0, 127.0, 0.0, 30.0))
    case _ => c
  }
}
