/**
 * The synthesizer's control plane (synth.js's globals and the functions
 * that drive them): one optional voice (oscillator -> filter -> VCA), the
 * shared tremolo and master gains, the LFOs, the controls and the identity
 * of the sounding note. The state is the one `setupAudioContext` leaves
 * behind; every method is one input event or one function of the source.
 */
module Engine {
  import opened Wrappers
  import opened Mapping
  import opened Midi
  import opened Modulation
  import opened AudioGraph
  import opened Settings
  import opened Keyboard
  import opened Orchestrator
  import opened ControlChange
  import opened Lfo

  class Synth {
    /** The on-screen keys, in document order. */
    const keyboard: seq<Key>
    /** `midiNoteToFrequency` (440 * 2^((n - 69) / 12)), left to the platform. */
    const midiToHz: int -> real
    /** The CC 74 cutoff curve (20 * 750^(v / 127)), left to the platform. */
    const cutoffCurve: int -> real
    const masterGain: GainNode
    const tremoloGain: GainNode
    const lfos: seq<LFO>

    // Controls: master volume slider, oscillator waveform select, filter sliders.
    var masterVolume: real
    var oscWaveform: Waveform
    var filterCutoff: real
    var filterResonance: real

    // The voice and the identity of its note.
    var currentOscillator: OscillatorNode?
    var currentFilter: BiquadFilterNode?
    var currentVCA: GainNode?
    var activeNote: Option<string>
    var activeMIDINote: Option<int>
    /** Whether MIDI started the sounding note (see GlobalMouseUp). */
    var noteFromMIDI: bool

    function LfoSet(): set<LFO> {
      set l | l in lfos
    }

    function VoiceOscs(): set<OscillatorNode>
      reads this`currentOscillator
    {
      if currentOscillator == null then {} else {currentOscillator}
    }

    function VoiceFilters(): set<BiquadFilterNode>
      reads this`currentFilter
    {
      if currentFilter == null then {} else {currentFilter}
    }

    function VoiceVcas(): set<GainNode>
      reads this`currentVCA
    {
      if currentVCA == null then {} else {currentVCA}
    }

    /** The note bookkeeping, as the orchestrator sees it. */
    function Tracked(): Tracking
      reads this`currentOscillator, this`activeNote, this`activeMIDINote, this`noteFromMIDI
    {
      Tracking(currentOscillator != null, activeNote, activeMIDINote, noteFromMIDI)
    }

    /** Every control a settings snapshot covers. */
    function Controls(): Settings.Controls
      reads this`masterVolume, this`oscWaveform, this`filterCutoff, this`filterResonance,
            LfoSet()`rate, LfoSet()`depth, LfoSet()`waveform, LfoSet()`target
    {
      Settings.Controls(masterVolume, oscWaveform, filterCutoff, filterResonance, KnobsOf(lfos))
    }

    /** No LFO holds a connection. */
    predicate Unrouted()
      reads LfoSet()`currentConnections
    {
      forall i :: 0 <= i < |lfos| ==> lfos[i].currentConnections == []
    }

    /** Some LFO holds a connection to the detune of `osc`. */
    predicate DetuneModulated(osc: OscillatorNode?)
      reads LfoSet()`currentConnections
    {
      osc != null && exists i :: 0 <= i < |lfos| && DetuneOf(osc) in lfos[i].currentConnections
    }

    /** Some LFO holds a connection to the tremolo gain. */
    predicate TremoloModulated()
      reads LfoSet()`currentConnections
    {
      exists i :: 0 <= i < |lfos| && GainOf(tremoloGain) in lfos[i].currentConnections
    }

    /** Some LFO targets amplitude with a positive depth (the `lfos.some(...)` test). */
    predicate AmplitudeModulated()
      reads LfoSet()`target, LfoSet()`depth
    {
      exists i :: 0 <= i < |lfos| && lfos[i].target == Amplitude && lfos[i].depth > 0.0
    }

    /** The voice's three nodes exist together, apart from the shared gains. */
    ghost predicate Wired()
      reads this`currentOscillator, this`currentFilter, this`currentVCA
    {
      && masterGain != tremoloGain
      && (currentOscillator == null <==> currentFilter == null)
      && (currentOscillator == null <==> currentVCA == null)
      && (currentVCA != null ==> currentVCA != masterGain && currentVCA != tremoloGain)
    }

    /** The LFOs are distinct objects. */
    ghost predicate LfosDistinct() {
      forall i, j :: 0 <= i < j < |lfos| ==> lfos[i] != lfos[j]
    }

    /**
     * The object invariant. At most one voice exists, and its three nodes
     * come and go together; an identity is tracked exactly while it sounds;
     * each LFO holds at most one connection, only to a parameter of the
     * current voice or to the tremolo gain, and none once the voice is gone.
     */
    ghost predicate Valid()
      reads this`currentOscillator, this`currentFilter, this`currentVCA, this`activeNote, this`activeMIDINote, this`noteFromMIDI,
            LfoSet()`currentConnections, LfoSet()`isPaused
    {
      && Wired()
      && LfosDistinct()
      && Consistent(Tracked())
      && (forall i :: 0 <= i < |lfos| ==> lfos[i].Bound(currentOscillator, currentFilter, tremoloGain))
    }

    /**
     * The state `setupAudioContext` (synth.js:273-329) leaves: master gain at
     * the volume slider, tremolo gain at 1, two fresh LFOs, no voice.
     */
    constructor (keyboard: seq<Key>, midiToHz: int -> real, cutoffCurve: int -> real,
                 panel: Settings.Controls, lfo1HasPause: bool, lfo2HasPause: bool)
      requires |panel.lfos| == 2
      ensures Valid()
      ensures Controls() == panel && Tracked() == Silent && Unrouted()
      ensures masterGain.gain == panel.masterVolume && tremoloGain.gain == 1.0
      ensures this.keyboard == keyboard && this.midiToHz == midiToHz && this.cutoffCurve == cutoffCurve
      ensures |lfos| == 2 && lfos[0].hasPauseButton == lfo1HasPause && lfos[1].hasPauseButton == lfo2HasPause
      ensures forall i :: 0 <= i < 2 ==> lfos[i].depthLevel == 0.0 && !lfos[i].isPaused
      ensures fresh(lfos[0]) && fresh(lfos[1]) && fresh(masterGain) && fresh(tremoloGain)
    {
      this.keyboard := keyboard;
      this.midiToHz := midiToHz;
      this.cutoffCurve := cutoffCurve;
      masterVolume, oscWaveform := panel.masterVolume, panel.oscWaveform;
      filterCutoff, filterResonance := panel.filterCutoff, panel.filterResonance;
      masterGain := new GainNode(panel.masterVolume);
      tremoloGain := new GainNode(1.0);
      var lfo1 := new LFO(lfo1HasPause, panel.lfos[0]);
      var lfo2 := new LFO(lfo2HasPause, panel.lfos[1]);
      lfos := [lfo1, lfo2];
      currentOscillator, currentFilter, currentVCA := null, null, null;
      activeNote, activeMIDINote, noteFromMIDI := None, None, false;
      new;
      assert KnobsOf(lfos) == panel.lfos;
    }

    /**
     * noteOff (synth.js:636-682). With a voice: ramp the VCA to 0, schedule
     * the oscillator's stop, disconnect every LFO (`DisconnectLfos` states
     * the resets), drop the voice and forget the note. Without one the state
     * already is what a stop leaves, and nothing changes: a second noteOff is
     * a no-op.
     */
    method NoteOff()
      requires Valid()
      modifies this`currentOscillator, this`currentFilter, this`currentVCA, this`activeNote, this`activeMIDINote,
               this`noteFromMIDI, LfoSet()`currentConnections, VoiceOscs()`detune, VoiceOscs()`stopScheduled,
               VoiceVcas()`gain, tremoloGain`gain
      ensures Valid()
      ensures Tracked() == Silent && Tracked() == StopNote(old(Tracked()))
      ensures Unrouted() && currentOscillator == null && currentFilter == null && currentVCA == null
      ensures old(currentOscillator) != null ==> old(currentOscillator).stopScheduled && old(currentVCA).gain == 0.0
      ensures old(currentOscillator) == null ==> tremoloGain.gain == old(tremoloGain.gain)
    {
      if currentOscillator == null {
        return;
      }
      var osc, vca := currentOscillator, currentVCA;
      vca.gain := 0.0;
      osc.stopScheduled := true;
      DisconnectLfos(osc, currentFilter);
      currentOscillator, currentFilter, currentVCA := null, null, null;
      activeNote, activeMIDINote, noteFromMIDI := None, None, false;
      SilentValid();
    }

    /** Helper: a step that leaves the voice, the note and the LFO connections alone keeps the invariant. */
    twostate lemma ValidKept()
      requires old(Valid())
      requires unchanged(this`currentOscillator, this`currentFilter, this`currentVCA, this`activeNote,
                         this`activeMIDINote, this`noteFromMIDI, LfoSet()`currentConnections, LfoSet()`isPaused)
      ensures Valid()
    {
    }

    /** Helper: with no voice, no tracked note and every LFO unbound, the synth is valid. */
    lemma SilentValid()
      requires Wired() && LfosDistinct() && Tracked() == Silent && currentOscillator == null && currentFilter == null
      requires forall i :: 0 <= i < |lfos| ==> lfos[i].Bound(null, null, tremoloGain)
      ensures Valid()
    {
    }

    /**
     * The `lfos.forEach(lfo => lfo.disconnect())` of noteOff (synth.js:665-667):
     * every LFO ends unconnected, and the voice's detune and the tremolo gain
     * are back to neutral exactly when some LFO was modulating them.
     */
    method DisconnectLfos(osc: OscillatorNode, filter: BiquadFilterNode)
      requires LfosDistinct()
      requires forall i :: 0 <= i < |lfos| ==> lfos[i].Valid() && lfos[i].RoutedWithin(osc, filter, tremoloGain)
      modifies LfoSet()`currentConnections, osc`detune, tremoloGain`gain
      ensures Unrouted()
      ensures forall i :: 0 <= i < |lfos| ==> lfos[i].Bound(null, null, tremoloGain)
      ensures old(DetuneModulated(osc)) ==> osc.detune == 0.0
      ensures tremoloGain.gain == if old(TremoloModulated()) then 1.0 else old(tremoloGain.gain)
    {
      var i := 0;
      while i < |lfos|
        invariant 0 <= i <= |lfos|
        invariant forall k :: 0 <= k < i ==> lfos[k].currentConnections == []
        invariant forall k :: i <= k < |lfos| ==> lfos[k].currentConnections == old(lfos[k].currentConnections)
        invariant forall k :: 0 <= k < i && DetuneOf(osc) in old(lfos[k].currentConnections) ==> osc.detune == 0.0
        invariant forall k :: 0 <= k < i && GainOf(tremoloGain) in old(lfos[k].currentConnections)
                    ==> tremoloGain.gain == 1.0
        invariant (forall k :: 0 <= k < i ==> GainOf(tremoloGain) !in old(lfos[k].currentConnections))
                    ==> tremoloGain.gain == old(tremoloGain.gain)
      {
        var l := lfos[i];
        assert l.RoutedWithin(osc, filter, tremoloGain);
        assert l.Detunes() <= {osc} && l.Gains() <= {tremoloGain};
        l.Disconnect();
        i := i + 1;
      }
    }

    /**
     * The per-note LFO rebinding pass (synth.js:455-476, 607-628): each LFO
     * connects to the parameter its target names (or stays disconnected when
     * inert), then the tremolo gain goes back to 1 unless some LFO targets
     * amplitude with a positive depth.
     */
    method RebindLfos(osc: OscillatorNode, filter: BiquadFilterNode)
      requires LfosDistinct() && Unrouted() && forall i :: 0 <= i < |lfos| ==> lfos[i].Valid()
      modifies LfoSet()`currentConnections, LfoSet()`depthLevel, tremoloGain`gain
      ensures forall i :: 0 <= i < |lfos| ==>
                lfos[i].currentConnections == Routing(lfos[i].Knobs(), osc, filter, tremoloGain)
      ensures forall i :: 0 <= i < |lfos| ==> lfos[i].Bound(osc, filter, tremoloGain)
      ensures forall i :: 0 <= i < |lfos| ==>
                lfos[i].depthLevel == if lfos[i].Inert() then old(lfos[i].depthLevel) else lfos[i].Effective()
      ensures tremoloGain.gain == if AmplitudeModulated() then old(tremoloGain.gain) else 1.0
    {
      var i := 0;
      while i < |lfos|
        invariant 0 <= i <= |lfos|
        invariant tremoloGain.gain == old(tremoloGain.gain)
        invariant forall k :: 0 <= k < i ==> lfos[k].currentConnections == Routing(lfos[k].Knobs(), osc, filter, tremoloGain)
        invariant forall k :: i <= k < |lfos| ==> lfos[k].currentConnections == []
        invariant forall k :: 0 <= k < i ==>
                    lfos[k].depthLevel == if lfos[k].Inert() then old(lfos[k].depthLevel) else lfos[k].Effective()
        invariant forall k :: i <= k < |lfos| ==> lfos[k].depthLevel == old(lfos[k].depthLevel)
      {
        lfos[i].Rebind(osc, filter, tremoloGain);
        i := i + 1;
      }
      if !AmplitudeModulated() {
        tremoloGain.gain := 1.0;
      }
    }

    /** A sounding voice whose LFOs are routed onto it satisfies the invariant. */
    lemma RoutedVoiceValid()
      requires Wired() && LfosDistinct() && Consistent(Tracked())
      requires forall i :: 0 <= i < |lfos| ==> lfos[i].Bound(currentOscillator, currentFilter, tremoloGain)
      ensures Valid()
    {
    }

    /**
     * The voice chain of a note-on (synth.js:431-449, 585-603): a fresh
     * oscillator with the selected waveform at `frequency`, a fresh filter at
     * the cutoff and resonance sliders, a fresh VCA ramping to `gain`.
     */
    method BuildVoice(frequency: real, gain: real)
      requires Wired() && currentOscillator == null
      modifies this`currentOscillator, this`currentFilter, this`currentVCA
      ensures Wired() && currentOscillator != null
      ensures fresh(currentOscillator) && fresh(currentFilter) && fresh(currentVCA)
      ensures currentOscillator.frequency == frequency && currentOscillator.waveform == oscWaveform
      ensures !currentOscillator.started && !currentOscillator.stopScheduled && currentOscillator.detune == 0.0
      ensures currentFilter.frequency == filterCutoff && currentFilter.q == filterResonance
      ensures currentVCA.gain == gain
    {
      currentOscillator := new OscillatorNode(oscWaveform, frequency);
      currentFilter := new BiquadFilterNode(filterCutoff, filterResonance);
      currentVCA := new GainNode(gain);
    }

    /**
     * The body both note-on paths share (synth.js:431-484, 580-632): track
     * the new note, build oscillator -> filter -> VCA from the controls, ramp
     * the VCA up to `gain`, rebind the LFOs and start the oscillator.
     */
    method StartVoice(note: Option<string>, midi: Option<int>, fromMidi: bool, frequency: real, gain: real)
      requires Wired() && LfosDistinct() && (forall i :: 0 <= i < |lfos| ==> lfos[i].Valid())
      requires Tracked() == Silent && Unrouted()
      requires if fromMidi then midi.Some? else note.Some?
      modifies this`currentOscillator, this`currentFilter, this`currentVCA, this`activeNote, this`activeMIDINote,
               this`noteFromMIDI, LfoSet()`currentConnections, LfoSet()`depthLevel, tremoloGain`gain
      ensures Valid()
      ensures Tracked() == Tracking(true, note, midi, fromMidi)
      ensures fresh(currentOscillator) && fresh(currentFilter) && fresh(currentVCA)
      ensures currentOscillator.frequency == frequency && currentOscillator.waveform == oscWaveform
      ensures currentOscillator.started && !currentOscillator.stopScheduled && currentOscillator.detune == 0.0
      ensures currentFilter.frequency == filterCutoff && currentFilter.q == filterResonance
      ensures currentVCA.gain == gain
      ensures forall i :: 0 <= i < |lfos| ==>
                lfos[i].currentConnections == Routing(lfos[i].Knobs(), currentOscillator, currentFilter, tremoloGain)
      ensures forall i :: 0 <= i < |lfos| ==>
                lfos[i].depthLevel == if lfos[i].Inert() then old(lfos[i].depthLevel) else lfos[i].Effective()
      ensures tremoloGain.gain == if AmplitudeModulated() then old(tremoloGain.gain) else 1.0
    {
      activeNote, activeMIDINote, noteFromMIDI := note, midi, fromMidi;
      BuildVoice(frequency, gain);
      RebindLfos(currentOscillator, currentFilter);
      currentOscillator.started := true;
      RoutedVoiceValid();
    }

    /**
     * noteOn (synth.js:570-634): an unknown name or a retrigger of the
     * sounding note is ignored; otherwise the old voice stops first and a
     * new one plays the name's frequency at full gain.
     */
    method NoteOn(name: string)
      requires Valid()
      modifies this`currentOscillator, this`currentFilter, this`currentVCA, this`activeNote, this`activeMIDINote,
               this`noteFromMIDI, LfoSet()`currentConnections, LfoSet()`depthLevel, VoiceOscs()`detune,
               VoiceOscs()`stopScheduled, VoiceVcas()`gain, tremoloGain`gain
      ensures Valid()
      ensures Tracked() == Step(keyboard, old(Tracked()), UiNoteOn(name))
      ensures name !in NoteFrequencies || (old(activeNote) == Some(name) && old(currentOscillator) != null) ==>
                && unchanged(this) && unchanged(old(VoiceOscs()), old(VoiceFilters()), old(VoiceVcas()), tremoloGain)
                && forall i :: 0 <= i < |lfos| ==> unchanged(lfos[i])
      ensures name in NoteFrequencies && !(old(activeNote) == Some(name) && old(currentOscillator) != null) ==>
                && (old(currentOscillator) != null ==> old(currentOscillator).stopScheduled && old(currentVCA).gain == 0.0)
                && currentOscillator != null && currentFilter != null && currentVCA != null
                && fresh(currentOscillator) && fresh(currentFilter) && fresh(currentVCA)
                && currentOscillator.frequency == NoteFrequencies[name] && currentOscillator.waveform == oscWaveform
                && currentOscillator.started && !currentOscillator.stopScheduled && currentOscillator.detune == 0.0
                && currentFilter.frequency == filterCutoff && currentFilter.q == filterResonance
                && currentVCA.gain == 1.0
                && (forall i :: 0 <= i < |lfos| ==>
                      lfos[i].currentConnections == Routing(lfos[i].Knobs(), currentOscillator, currentFilter, tremoloGain))
                && (forall i :: 0 <= i < |lfos| ==>
                      lfos[i].depthLevel == if lfos[i].Inert() then old(lfos[i].depthLevel) else lfos[i].Effective())
                && (!AmplitudeModulated() ==> tremoloGain.gain == 1.0)
    {
      if name !in NoteFrequencies {
        return;
      }
      var midiNote := MidiOfName(keyboard, name);
      if activeNote == Some(name) && currentOscillator != null {
        return;
      }
      NoteOff();
      StartVoice(Some(name), midiNote, false, NoteFrequencies[name], 1.0);
    }

    /**
     * midiNoteOn (synth.js:420-486): always steals (no retrigger check); the
     * VCA ramps to the velocity mapped onto [0, 1].
     */
    method MidiNoteOn(note: byte, velocity: byte)
      requires Valid()
      modifies this`currentOscillator, this`currentFilter, this`currentVCA, this`activeNote, this`activeMIDINote,
               this`noteFromMIDI, LfoSet()`currentConnections, LfoSet()`depthLevel, VoiceOscs()`detune,
               VoiceOscs()`stopScheduled, VoiceVcas()`gain, tremoloGain`gain
      ensures Valid()
      ensures Tracked() == Step(keyboard, old(Tracked()), NoteEvent.MidiNoteOn(note as int))
      ensures old(currentOscillator) != null ==> old(currentOscillator).stopScheduled && old(currentVCA).gain == 0.0
      ensures currentOscillator != null && currentFilter != null && currentVCA != null
      ensures fresh(currentOscillator) && fresh(currentFilter) && fresh(currentVCA)
      ensures currentOscillator.frequency == midiToHz(note as int) && currentOscillator.waveform == oscWaveform
      ensures currentOscillator.started && !currentOscillator.stopScheduled && currentOscillator.detune == 0.0
      ensures currentFilter.frequency == filterCutoff && currentFilter.q == filterResonance
      ensures currentVCA.gain == MapRange(velocity as real, 0.0, 127.0, 0.0, 1.0) && 0.0 <= currentVCA.gain <= 1.0
      ensures forall i :: 0 <= i < |lfos| ==>
                lfos[i].currentConnections == Routing(lfos[i].Knobs(), currentOscillator, currentFilter, tremoloGain)
      ensures forall i :: 0 <= i < |lfos| ==>
                lfos[i].depthLevel == if lfos[i].Inert() then old(lfos[i].depthLevel) else lfos[i].Effective()
      ensures !AmplitudeModulated() ==> tremoloGain.gain == 1.0
    {
      var frequency := midiToHz(note as int);
      var gain := MapRange(velocity as real, 0.0, 127.0, 0.0, 1.0);
      NoteOff();
      var name := FindNoteNameFromMidi(keyboard, note as int);
      StartVoice(name, Some(note as int), true, frequency, gain);
    }

    /** midiNoteOff (synth.js:488-495): only the tracked MIDI note stops the voice. */
    method MidiNoteOff(note: Option<byte>)
      requires Valid()
      modifies this`currentOscillator, this`currentFilter, this`currentVCA, this`activeNote, this`activeMIDINote,
               this`noteFromMIDI, LfoSet()`currentConnections, VoiceOscs()`detune, VoiceOscs()`stopScheduled,
               VoiceVcas()`gain, tremoloGain`gain
      ensures Valid()
      ensures Tracked() == Step(keyboard, old(Tracked()), NoteEvent.MidiNoteOff(AsInt(note)))
      ensures Tracked() == old(Tracked()) ==>
                && unchanged(this) && unchanged(old(VoiceOscs()), old(VoiceFilters()), old(VoiceVcas()), tremoloGain)
                && forall i :: 0 <= i < |lfos| ==> unchanged(lfos[i])
      ensures Tracked() != old(Tracked()) ==>
                old(currentOscillator) != null && old(currentOscillator).stopScheduled && old(currentVCA).gain == 0.0
    {
      if currentOscillator == null || note.None? || Some(note.value as int) != activeMIDINote {
        return;
      }
      NoteOff();
    }

    /**
     * handleMIDIControlChange (synth.js:499-544): CC 7 sets the master volume
     * slider and gain, CC 74 the cutoff slider through the exponential curve,
     * CC 71 the resonance slider; the sounding filter follows the last two.
     * Any other controller changes nothing.
     */
    method HandleMIDIControlChange(controller: Option<byte>, value: byte)
      requires Valid()
      modifies this`masterVolume, this`filterCutoff, this`filterResonance, masterGain`gain,
               VoiceFilters()`frequency, VoiceFilters()`q
      ensures Valid()
      ensures Tracked() == old(Tracked())
      ensures Controls() == ApplyControlChange(old(Controls()), controller, value, cutoffCurve)
      ensures masterGain.gain == if controller == Some(7) then masterVolume else old(masterGain.gain)
      ensures currentFilter != null ==>
                && currentFilter.frequency == (if controller == Some(74) then filterCutoff else old(currentFilter.frequency))
                && currentFilter.q == (if controller == Some(71) then filterResonance else old(currentFilter.q))
    {
      if controller == Some(7) {
        masterVolume := MapRange(value as real, 0.0, 127.0, 0.0, 1.0);
        masterGain.gain := masterVolume;
      } else if controller == Some(74) {
        filterCutoff := cutoffCurve(value as int);
        if currentFilter != null {
          currentFilter.frequency := filterCutoff;
        }
      } else if controller == Some(71) {
        filterResonance := MapRange(value as real, 0.0, 127.0, 0.0, 30.0);
        if currentFilter != null {
          currentFilter.q := filterResonance;
        }
      }
      ValidKept();
    }

    /**
     * handleMIDIMessage (synth.js:387-417): a decoded note-on starts a note,
     * a note-off (or note-on at velocity 0) stops the matching one, a control
     * change goes to the CC handler, anything else is ignored.
     */
    method HandleMIDIMessage(data: seq<byte>)
      requires Valid()
      modifies this`currentOscillator, this`currentFilter, this`currentVCA, this`activeNote, this`activeMIDINote,
               this`noteFromMIDI, LfoSet()`currentConnections, LfoSet()`depthLevel, VoiceOscs()`detune,
               VoiceOscs()`stopScheduled, VoiceVcas()`gain, tremoloGain`gain,
               this`masterVolume, this`filterCutoff, this`filterResonance, masterGain`gain,
               VoiceFilters()`frequency, VoiceFilters()`q
      ensures Valid()
      ensures Tracked() == match Decode(data)
                           case NoteOnMsg(n, _) => Step(keyboard, old(Tracked()), NoteEvent.MidiNoteOn(n as int))
                           case NoteOffMsg(n) => Step(keyboard, old(Tracked()), NoteEvent.MidiNoteOff(AsInt(n)))
                           case _ => old(Tracked())
      ensures Decode(data).ControlChangeMsg? ==>
                Controls() == ApplyControlChange(old(Controls()), Decode(data).controller, Decode(data).value, cutoffCurve)
      // The LFO controls and the waveform are outside the frame; a message other than a
      // control change leaves the controls the frame does reach as they were.
      ensures !Decode(data).ControlChangeMsg? ==>
                && masterVolume == old(masterVolume) && filterCutoff == old(filterCutoff)
                && filterResonance == old(filterResonance) && masterGain.gain == old(masterGain.gain)
      ensures Decode(data).Ignored? ==>
                && unchanged(this) && unchanged(old(VoiceOscs()), old(VoiceFilters()), old(VoiceVcas()), tremoloGain, masterGain)
                && forall i :: 0 <= i < |lfos| ==> unchanged(lfos[i])
      // A control change moves the master gain and the sounding filter as the CC
      // handler does, and leaves the voice's other nodes, the tremolo and the LFOs alone.
      ensures Decode(data).ControlChangeMsg? ==>
                && masterGain.gain == (if Decode(data).controller == Some(7) then masterVolume else old(masterGain.gain))
                && (currentFilter != null ==>
                      && currentFilter.frequency
                         == (if Decode(data).controller == Some(74) then filterCutoff else old(currentFilter.frequency))
                      && currentFilter.q == (if Decode(data).controller == Some(71) then filterResonance else old(currentFilter.q)))
      ensures Decode(data).ControlChangeMsg? ==>
                && unchanged(this`currentOscillator, this`currentFilter, this`currentVCA)
                && unchanged(old(VoiceOscs()), old(VoiceVcas()), tremoloGain)
                && forall i :: 0 <= i < |lfos| ==> unchanged(lfos[i])
      // A note-on always stops the old voice and sounds a fresh one at the note's
      // frequency, with the velocity mapped onto the VCA gain.
      ensures Decode(data).NoteOnMsg? && old(currentOscillator) != null ==>
                old(currentOscillator).stopScheduled && old(currentVCA).gain == 0.0
      ensures Decode(data).NoteOnMsg? ==>
                && currentOscillator != null && currentFilter != null && currentVCA != null
                && fresh(currentOscillator) && fresh(currentFilter) && fresh(currentVCA)
                && currentOscillator.frequency == midiToHz(Decode(data).note as int)
                && currentOscillator.waveform == oscWaveform
                && currentOscillator.started && !currentOscillator.stopScheduled && currentOscillator.detune == 0.0
                && currentFilter.frequency == filterCutoff && currentFilter.q == filterResonance
                && currentVCA.gain == MapRange(Decode(data).velocity as real, 0.0, 127.0, 0.0, 1.0)
      ensures Decode(data).NoteOnMsg? ==>
                && (forall i :: 0 <= i < |lfos| ==>
                      lfos[i].currentConnections == Routing(lfos[i].Knobs(), currentOscillator, currentFilter, tremoloGain))
                && (forall i :: 0 <= i < |lfos| ==>
                      lfos[i].depthLevel == if lfos[i].Inert() then old(lfos[i].depthLevel) else lfos[i].Effective())
                && (!AmplitudeModulated() ==> tremoloGain.gain == 1.0)
      // A note-off that does not match changes nothing; one that does stops the voice.
      ensures Decode(data).NoteOffMsg? && Tracked() == old(Tracked()) ==>
                && unchanged(this) && unchanged(old(VoiceOscs()), old(VoiceFilters()), old(VoiceVcas()), tremoloGain)
                && forall i :: 0 <= i < |lfos| ==> unchanged(lfos[i])
      ensures Decode(data).NoteOffMsg? && Tracked() != old(Tracked()) ==>
                old(currentOscillator) != null && old(currentOscillator).stopScheduled && old(currentVCA).gain == 0.0
    {
      var m := Decode(data);
      if m.NoteOnMsg? {
        MidiNoteOn(m.note, m.velocity);
      } else if m.NoteOffMsg? {
        MidiNoteOff(m.offNote);
      } else if m.ControlChangeMsg? {
        HandleMIDIControlChange(m.controller, m.value);
      }
    }

    /**
     * A key's mouseup, touchend and touchcancel (synth.js:891-896, 912-923):
     * the voice stops only when that key's note is the active one.
     */
    method KeyRelease(name: string)
      requires Valid()
      modifies this`currentOscillator, this`currentFilter, this`currentVCA, this`activeNote, this`activeMIDINote,
               this`noteFromMIDI, LfoSet()`currentConnections, VoiceOscs()`detune, VoiceOscs()`stopScheduled,
               VoiceVcas()`gain, tremoloGain`gain
      ensures Valid()
      ensures Tracked() == Step(keyboard, old(Tracked()), NoteEvent.KeyRelease(name))
      ensures old(activeNote) == Some(name) <==> Tracked() == Silent && old(Tracked()) != Silent
      ensures Tracked() == old(Tracked()) ==>
                && unchanged(this) && unchanged(old(VoiceOscs()), old(VoiceFilters()), old(VoiceVcas()), tremoloGain)
                && forall i :: 0 <= i < |lfos| ==> unchanged(lfos[i])
      ensures Tracked() != old(Tracked()) ==>
                old(currentOscillator) != null && old(currentOscillator).stopScheduled && old(currentVCA).gain == 0.0
    {
      if activeNote == Some(name) {
        NoteOff();
      }
    }

    /** A key's mouseleave (synth.js:898-903): as a release, but only with no button held. */
    method KeyLeave(name: string, buttons: int)
      requires Valid()
      modifies this`currentOscillator, this`currentFilter, this`currentVCA, this`activeNote, this`activeMIDINote,
               this`noteFromMIDI, LfoSet()`currentConnections, VoiceOscs()`detune, VoiceOscs()`stopScheduled,
               VoiceVcas()`gain, tremoloGain`gain
      ensures Valid()
      ensures Tracked() == Step(keyboard, old(Tracked()), NoteEvent.KeyLeave(name, buttons))
      ensures buttons != 0 ==> Tracked() == old(Tracked())
      ensures Tracked() == old(Tracked()) ==>
                && unchanged(this) && unchanged(old(VoiceOscs()), old(VoiceFilters()), old(VoiceVcas()), tremoloGain)
                && forall i :: 0 <= i < |lfos| ==> unchanged(lfos[i])
      ensures Tracked() != old(Tracked()) ==>
                old(currentOscillator) != null && old(currentOscillator).stopScheduled && old(currentVCA).gain == 0.0
    {
      if buttons == 0 && activeNote == Some(name) {
        NoteOff();
      }
    }

    /**
     * The document's mouseup (synth.js:945-955), with the guard on the origin
     * of the note rather than on `activeMIDINote` (see MouseUpGuard): a note
     * an on-screen key or the computer keyboard started stops; a MIDI note
     * keeps sounding.
     */
    method GlobalMouseUp()
      requires Valid()
      modifies this`currentOscillator, this`currentFilter, this`currentVCA, this`activeNote, this`activeMIDINote,
               this`noteFromMIDI, LfoSet()`currentConnections, VoiceOscs()`detune, VoiceOscs()`stopScheduled,
               VoiceVcas()`gain, tremoloGain`gain
      ensures Valid()
      ensures Tracked() == Step(keyboard, old(Tracked()), NoteEvent.GlobalMouseUp)
      ensures old(noteFromMIDI) ==> Tracked() == old(Tracked())
      ensures !old(noteFromMIDI) ==> Tracked() == Silent
      ensures Tracked() == old(Tracked()) ==>
                && unchanged(this) && unchanged(old(VoiceOscs()), old(VoiceFilters()), old(VoiceVcas()), tremoloGain)
                && forall i :: 0 <= i < |lfos| ==> unchanged(lfos[i])
      ensures Tracked() != old(Tracked()) ==>
                old(currentOscillator) != null && old(currentOscillator).stopScheduled && old(currentVCA).gain == 0.0
    {
      if activeNote.Some? && !noteFromMIDI && currentOscillator != null {
        NoteOff();
      } else if activeNote.Some? && currentOscillator == null {
        // The source's cleanup of a note left without a voice: Valid() rules it out.
        assert false;
      }
    }

    /**
     * The document's keydown (synth.js:957-969): repeats, Ctrl/Alt/Meta
     * chords and typing into an input or select are ignored; otherwise the
     * lower-cased key plays its mapped note.
     */
    method KeyDown(key: string, repeat: bool, modifier: bool, inFormField: bool)
      requires Valid()
      modifies this`currentOscillator, this`currentFilter, this`currentVCA, this`activeNote, this`activeMIDINote,
               this`noteFromMIDI, LfoSet()`currentConnections, LfoSet()`depthLevel, VoiceOscs()`detune,
               VoiceOscs()`stopScheduled, VoiceVcas()`gain, tremoloGain`gain
      ensures Valid()
      ensures Tracked() == if repeat || modifier || inFormField || ToLowerAscii(key) !in KeyNoteMap then old(Tracked())
                           else Step(keyboard, old(Tracked()), UiNoteOn(KeyNoteMap[ToLowerAscii(key)]))
      ensures !repeat && !modifier && !inFormField && ToLowerAscii(key) in KeyNoteMap ==>
                currentOscillator != null && activeNote == Some(KeyNoteMap[ToLowerAscii(key)])
      ensures Tracked() == old(Tracked()) ==>
                && unchanged(this) && unchanged(old(VoiceOscs()), old(VoiceFilters()), old(VoiceVcas()), tremoloGain)
                && forall i :: 0 <= i < |lfos| ==> unchanged(lfos[i])
      ensures Tracked() != old(Tracked()) && old(currentOscillator) != null ==>
                old(currentOscillator).stopScheduled && old(currentVCA).gain == 0.0
      // A key that starts its note sounds it exactly as `NoteOn` does.
      ensures !repeat && !modifier && !inFormField && ToLowerAscii(key) in KeyNoteMap
              && !(old(activeNote) == Some(KeyNoteMap[ToLowerAscii(key)]) && old(currentOscillator) != null) ==>
                && currentOscillator != null && currentFilter != null && currentVCA != null
                && fresh(currentOscillator) && fresh(currentFilter) && fresh(currentVCA)
                && currentOscillator.frequency == NoteFrequencies[KeyNoteMap[ToLowerAscii(key)]]
                && currentOscillator.waveform == oscWaveform
                && currentOscillator.started && !currentOscillator.stopScheduled && currentOscillator.detune == 0.0
                && currentFilter.frequency == filterCutoff && currentFilter.q == filterResonance
                && currentVCA.gain == 1.0
                && (forall i :: 0 <= i < |lfos| ==>
                      lfos[i].currentConnections == Routing(lfos[i].Knobs(), currentOscillator, currentFilter, tremoloGain))
                && (forall i :: 0 <= i < |lfos| ==>
                      lfos[i].depthLevel == if lfos[i].Inert() then old(lfos[i].depthLevel) else lfos[i].Effective())
                && (!AmplitudeModulated() ==> tremoloGain.gain == 1.0)
    {
      if repeat || modifier || inFormField {
        return;
      }
      var lower := ToLowerAscii(key);
      if lower in KeyNoteMap {
        KeyNotesArePlayable();
        NoteOn(KeyNoteMap[lower]);
      }
    }

    /** The document's keyup (synth.js:971-986): releases the mapped note when it is the active one. */
    method KeyUp(key: string, modifier: bool, inFormField: bool)
      requires Valid()
      modifies this`currentOscillator, this`currentFilter, this`currentVCA, this`activeNote, this`activeMIDINote,
               this`noteFromMIDI, LfoSet()`currentConnections, VoiceOscs()`detune, VoiceOscs()`stopScheduled,
               VoiceVcas()`gain, tremoloGain`gain
      ensures Valid()
      ensures Tracked() == if modifier || inFormField || ToLowerAscii(key) !in KeyNoteMap then old(Tracked())
                           else Step(keyboard, old(Tracked()), NoteEvent.KeyRelease(KeyNoteMap[ToLowerAscii(key)]))
      ensures Tracked() == old(Tracked()) ==>
                && unchanged(this) && unchanged(old(VoiceOscs()), old(VoiceFilters()), old(VoiceVcas()), tremoloGain)
                && forall i :: 0 <= i < |lfos| ==> unchanged(lfos[i])
      ensures Tracked() != old(Tracked()) ==>
                old(currentOscillator) != null && old(currentOscillator).stopScheduled && old(currentVCA).gain == 0.0
    {
      if modifier || inFormField {
        return;
      }
      var lower := ToLowerAscii(key);
      if lower in KeyNoteMap {
        KeyRelease(KeyNoteMap[lower]);
      }
    }

    /** LFO `i`'s rate slider (synth.js:86): its oscillator follows the new rate. */
    method LfoRateInput(i: nat, rate: real)
      requires Valid() && i < |lfos|
      modifies {lfos[i]}`rate, {lfos[i]}`oscRate
      ensures Valid()
      ensures Controls() == old(Controls()).(lfos := old(Controls()).lfos[i := old(lfos[i].Knobs()).(rate := rate)])
      ensures lfos[i].oscRate == rate
    {
      lfos[i].rate := rate;
      lfos[i].UpdateRate();
    }

    /**
     * LFO `i`'s depth slider (synth.js:87): the depth gain follows at once;
     * the connections stay as they are, even at depth 0.
     */
    method LfoDepthInput(i: nat, depth: real)
      requires Valid() && i < |lfos|
      modifies {lfos[i]}`depth, {lfos[i]}`depthLevel
      ensures Valid()
      ensures Controls() == old(Controls()).(lfos := old(Controls()).lfos[i := old(lfos[i].Knobs()).(depth := depth)])
      ensures lfos[i].depthLevel == EffectiveDepth(depth, lfos[i].target, lfos[i].isPaused)
      ensures lfos[i].currentConnections == old(lfos[i].currentConnections)
    {
      lfos[i].depth := depth;
      lfos[i].UpdateDepthGain();
    }

    /** LFO `i`'s waveform select (synth.js:88): its oscillator takes the new shape. */
    method LfoWaveformChange(i: nat, waveform: Waveform)
      requires Valid() && i < |lfos|
      modifies {lfos[i]}`waveform, {lfos[i]}`oscWaveform
      ensures Valid()
      ensures Controls() == old(Controls()).(lfos := old(Controls()).lfos[i := old(lfos[i].Knobs()).(waveform := waveform)])
      ensures lfos[i].oscWaveform == waveform
    {
      lfos[i].waveform := waveform;
      lfos[i].UpdateWaveform();
    }

    /**
     * LFO `i`'s target select (synth.js:89): the LFO drops its connections
     * (resetting what they modulated) and recomputes its depth; it is not
     * attached to the new target until the next note.
     */
    method LfoTargetChange(i: nat, target: Target)
      requires Valid() && i < |lfos|
      modifies {lfos[i]}`target, {lfos[i]}`currentConnections, {lfos[i]}`depthLevel, lfos[i].Detunes()`detune,
               lfos[i].Gains()`gain
      ensures Valid()
      ensures Controls() == old(Controls()).(lfos := old(Controls()).lfos[i := old(lfos[i].Knobs()).(target := target)])
      ensures lfos[i].currentConnections == []
      ensures lfos[i].depthLevel == EffectiveDepth(lfos[i].depth, target, lfos[i].isPaused)
    {
      lfos[i].TargetInput(target);
    }

    /** LFO `i`'s pause button (synth.js:90), which only a pausable LFO has. */
    method LfoPauseClick(i: nat)
      requires Valid() && i < |lfos| && lfos[i].hasPauseButton
      modifies {lfos[i]}`isPaused, {lfos[i]}`depthLevel
      ensures Valid()
      ensures lfos[i].isPaused == !old(lfos[i].isPaused)
      ensures lfos[i].depthLevel == if lfos[i].isPaused then 0.0 else ScaledDepth(lfos[i].depth, lfos[i].target)
    {
      lfos[i].TogglePause();
    }

    /**
     * gatherSettings (synth.js:686-704): a complete snapshot of the controls,
     * one entry per LFO, that `ApplySettings` turns back into the same
     * controls.
     */
    function GatherSettings(): (s: SettingsRecord)
      reads this`masterVolume, this`oscWaveform, this`filterCutoff, this`filterResonance,
            LfoSet()`rate, LfoSet()`depth, LfoSet()`waveform, LfoSet()`target
      ensures Complete(s) && |s.lfos.value| == |lfos|
      ensures Apply(Controls(), Some(s)) == Controls()
    {
      SnapshotRoundTrip(Controls());
      Gather(Controls())
    }

    /**
     * applySettings (synth.js:718-765): no record changes nothing; otherwise
     * the global controls take the stored values or their defaults and the
     * master gain follows the volume; when there is one entry per LFO, each
     * LFO is restored from its entry.
     */
    method ApplySettings(settings: Option<SettingsRecord>)
      requires Valid()
      modifies this`masterVolume, this`oscWaveform, this`filterCutoff, this`filterResonance, masterGain`gain,
               LfoSet()`rate, LfoSet()`depth, LfoSet()`waveform, LfoSet()`target, LfoSet()`oscRate,
               LfoSet()`oscWaveform, LfoSet()`depthLevel, LfoSet()`isPaused
      ensures Valid()
      ensures Controls() == Apply(old(Controls()), settings)
      ensures masterGain.gain == if settings.Some? then masterVolume else old(masterGain.gain)
      ensures settings.Some? && LfoEntriesFit(settings.value, |lfos|) ==>
                forall i :: 0 <= i < |lfos| ==>
                  && lfos[i].oscRate == lfos[i].rate && lfos[i].oscWaveform == lfos[i].waveform && !lfos[i].isPaused
                  && lfos[i].depthLevel == EffectiveDepth(lfos[i].depth, lfos[i].target, old(lfos[i].isPaused))
      ensures !(settings.Some? && LfoEntriesFit(settings.value, |lfos|)) ==> forall i :: 0 <= i < |lfos| ==> unchanged(lfos[i])
    {
      if settings.None? {
        return;
      }
      var s := settings.value;
      RestoreGlobals(s);
      if LfoEntriesFit(s, |lfos|) {
        RestoreLfos(s.lfos.value);
      }
    }

    /**
     * The global part of applySettings (synth.js:723-732): each control takes
     * the stored value or its default, and the master gain follows the volume.
     */
    method RestoreGlobals(s: SettingsRecord)
      modifies this`masterVolume, this`oscWaveform, this`filterCutoff, this`filterResonance, masterGain`gain
      ensures masterVolume == s.masterVolume.GetOr(0.7) && oscWaveform == s.oscWaveform.GetOr(Sine)
      ensures filterCutoff == s.filterCutoff.GetOr(5000.0) && filterResonance == s.filterResonance.GetOr(1.0)
      ensures masterGain.gain == masterVolume
    {
      masterVolume, oscWaveform := s.masterVolume.GetOr(0.7), s.oscWaveform.GetOr(Sine);
      filterCutoff, filterResonance := s.filterCutoff.GetOr(5000.0), s.filterResonance.GetOr(1.0);
      masterGain.gain := masterVolume;
    }

    /** The `settings.lfos.forEach` of applySettings (synth.js:738-762): entry `i` restores LFO `i`. */
    method RestoreLfos(es: seq<LfoSettings>)
      requires Valid() && |es| == |lfos|
      modifies LfoSet()`rate, LfoSet()`depth, LfoSet()`waveform, LfoSet()`target, LfoSet()`oscRate,
               LfoSet()`oscWaveform, LfoSet()`depthLevel, LfoSet()`isPaused
      ensures Valid()
      ensures KnobsOf(lfos) == ApplyLfos(es)
      ensures forall i :: 0 <= i < |lfos| ==>
                && lfos[i].oscRate == lfos[i].rate && lfos[i].oscWaveform == lfos[i].waveform && !lfos[i].isPaused
                && lfos[i].depthLevel == EffectiveDepth(lfos[i].depth, lfos[i].target, old(lfos[i].isPaused))
    {
      var i := 0;
      while i < |lfos|
        invariant 0 <= i <= |lfos|
        invariant Valid()
        invariant forall k :: 0 <= k < i ==>
                    && lfos[k].Knobs() == ApplyLfo(es[k])
                    && lfos[k].oscRate == lfos[k].rate && lfos[k].oscWaveform == lfos[k].waveform && !lfos[k].isPaused
                    && lfos[k].depthLevel == EffectiveDepth(lfos[k].depth, lfos[k].target, old(lfos[k].isPaused))
        invariant forall k :: i <= k < |lfos| ==> lfos[k].isPaused == old(lfos[k].isPaused)
      {
        lfos[i].Restore(ApplyLfo(es[i]));
        i := i + 1;
      }
      forall k | 0 <= k < |lfos|
        ensures KnobsOf(lfos)[k] == ApplyLfos(es)[k]
      {
        ApplyLfosAt(es, k);
      }
    }
  }

  /** A MIDI data byte as a note number, keeping `undefined` apart. */
  function AsInt(b: Option<byte>): (r: Option<int>)
    ensures r.Some? <==> b.Some?
    ensures r.Some? ==> r.value == b.value as int
  {
    match b
    case Some(v) => Some(v as int)
    case None => None
  }
}
