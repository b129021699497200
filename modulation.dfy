/**
 * Oscillator shapes, LFO targets and the LFO depth-scaling table of
 * `LFO.updateDepthGain` (synth.js:127-150).
 */
module Modulation {

  /** The values of the waveform selects ('sine', 'square', 'sawtooth', 'triangle'). */
  datatype Waveform = Sine | Square | Sawtooth | Triangle

  /** The values of an LFO's target select ('none', 'pitch', 'filter', 'amplitude'). */
  datatype Target = NoTarget | Pitch | Filter | Amplitude

  /**
   * Raw depth (the depth slider) scaled into the target's physical unit:
   * cents of detune for pitch, Hz of cutoff for filter, a gain factor for
   * amplitude, nothing for no target.
   */
  function ScaledDepth(depth: real, target: Target): (r: real)
    ensures r == 0.0 <==> target == NoTarget || depth == 0.0
    ensures depth >= 0.0 ==> r >= 0.0
    ensures target == Amplitude ==> r == depth
    ensures target != NoTarget ==> (r > 0.0 <==> depth > 0.0)
  {
    match target
    case Pitch => depth * 1200.0
    case Filter => depth * 5000.0
    case Amplitude => depth
    case NoTarget => 0.0
  }

  /** The value the depth gain is driven to: zero while the LFO is paused. */
  function EffectiveDepth(depth: real, target: Target, paused: bool): (r: real)
    ensures paused ==> r == 0.0
    ensures !paused ==> r == ScaledDepth(depth, target)
    ensures r != 0.0 ==> !paused && target != NoTarget && depth != 0.0
  {
    if paused then 0.0 else ScaledDepth(depth, target)
  }

  /**
   * The scaling table as factors: every target scales the raw depth linearly,
   * by 1200 cents for pitch, 5000 Hz for filter, 1 for amplitude and 0 for
   * no target.
   */
  lemma ScaledDepthIsLinear(depth: real, target: Target)
    ensures ScaledDepth(depth, target) == depth * ScaledDepth(1.0, target)
    ensures ScaledDepth(1.0, Pitch) == 1200.0 && ScaledDepth(1.0, Filter) == 5000.0
    ensures ScaledDepth(1.0, Amplitude) == 1.0 && ScaledDepth(1.0, NoTarget) == 0.0
  {
  }
}
