/**
 * The `LFO` class (synth.js:55-238): four controls (rate, depth, waveform,
 * target), a pause flag, the LFO's own oscillator and depth gain (reduced to
 * their last scheduled values) and the list of connections it has made.
 */
module Lfo {
  import opened Wrappers
  import opened Modulation
  import opened AudioGraph
  import opened Settings

  class LFO {
    /** Whether the panel has a pause button; `togglePause` is only wired when it does. */
    const hasPauseButton: bool
    // The LFO's controls (its sliders and selects).
    var rate: real
    var depth: real
    var waveform: Waveform
    var target: Target
    // Its audio state.
    var isPaused: bool
    var depthLevel: real        // depthGain.gain
    var oscRate: real           // oscillator.frequency
    var oscWaveform: Waveform   // oscillator.type
    var currentConnections: seq<Connection>

    /** Only an LFO with a pause button can ever be paused. */
    ghost predicate Valid()
      reads this`isPaused
    {
      !hasPauseButton ==> !isPaused
    }

    /** The controls as a value, the slice of a settings snapshot this LFO owns. */
    function Knobs(): LfoControls
      reads this`rate, this`depth, this`waveform, this`target
    {
      LfoControls(rate, depth, waveform, target)
    }

    /** What the depth gain should be driven to for the current controls. */
    function Effective(): real
      reads this`depth, this`target, this`isPaused
    {
      EffectiveDepth(depth, target, isPaused)
    }

    /** The `connect` guard: target 'none' or depth 0 means no modulation. */
    predicate Inert()
      reads this`target, this`depth
    {
      target == NoTarget || depth == 0.0
    }

    /** The oscillator detunes and gains that resetting the current connections would touch. */
    function Detunes(): set<OscillatorNode>
      reads this`currentConnections
    {
      DetuneTargets(currentConnections)
    }

    function Gains(): set<GainNode>
      reads this`currentConnections
    {
      GainTargets(currentConnections)
    }

    /** Every connection goes to one of the given voice parameters or to the shared tremolo gain. */
    predicate RoutedWithin(osc: OscillatorNode, filter: BiquadFilterNode, tremolo: GainNode)
      reads this`currentConnections
    {
      forall c :: c in currentConnections ==> c == DetuneOf(osc) || c == FrequencyOf(filter) || c == GainOf(tremolo)
    }

    /**
     * The LFO's share of the synth's invariant: at most one connection, none
     * while there is no voice, and otherwise only onto the voice's detune or
     * filter frequency or the shared tremolo gain.
     */
    ghost predicate Bound(osc: OscillatorNode?, filter: BiquadFilterNode?, tremolo: GainNode)
      reads this`currentConnections, this`isPaused
    {
      && Valid()
      && |currentConnections| <= 1
      && (osc == null ==> currentConnections == [])
      && (osc != null && filter != null ==> RoutedWithin(osc, filter, tremolo))
    }

    /** `new LFO(...)` followed by `init` (synth.js:56-91): depth gain starts at 0, unpaused, unconnected. */
    constructor (hasPauseButton: bool, controls: LfoControls)
      ensures Valid() && this.hasPauseButton == hasPauseButton && Knobs() == controls
      ensures !isPaused && depthLevel == 0.0 && currentConnections == []
      ensures oscRate == controls.rate && oscWaveform == controls.waveform
    {
      this.hasPauseButton := hasPauseButton;
      rate, depth, waveform, target := controls.rate, controls.depth, controls.waveform, controls.target;
      isPaused := false;
      depthLevel := 0.0;
      oscRate := controls.rate;
      oscWaveform := controls.waveform;
      currentConnections := [];
    }

    /** synth.js:95-114: pausing drives the depth to 0, resuming recomputes it. */
    method TogglePause()
      requires hasPauseButton
      modifies this`isPaused, this`depthLevel
      ensures isPaused == !old(isPaused)
      ensures depthLevel == Effective()
      ensures isPaused ==> depthLevel == 0.0
      ensures !isPaused ==> depthLevel == ScaledDepth(depth, target)
    {
      isPaused := !isPaused;
      if isPaused {
        depthLevel := 0.0;
      } else {
        UpdateDepthGain();
      }
    }

    /** synth.js:116-120: the oscillator follows the rate slider. */
    method UpdateRate()
      modifies this`oscRate
      ensures oscRate == rate
    {
      oscRate := rate;
    }

    /** synth.js:122-125: the oscillator follows the waveform select. */
    method UpdateWaveform()
      modifies this`oscWaveform
      ensures oscWaveform == waveform
    {
      oscWaveform := waveform;
    }

    /** synth.js:127-150: the scaled depth for the selected target, or 0 while paused. */
    method UpdateDepthGain()
      modifies this`depthLevel
      ensures depthLevel == Effective()
      ensures isPaused ==> depthLevel == 0.0
      ensures !isPaused ==> depthLevel == ScaledDepth(depth, target)
    {
      var scaled := match target
        case Pitch => depth * 1200.0
        case Filter => depth * 5000.0
        case Amplitude => depth
        case NoTarget => 0.0;
      if !isPaused {
        depthLevel := scaled;
      } else {
        depthLevel := 0.0;
      }
    }

    /** The target select's change listener (synth.js:89): the select takes `t`, then handleTargetChange runs. */
    method TargetInput(t: Target)
      modifies this`target, this`currentConnections, this`depthLevel, Detunes()`detune, Gains()`gain
      ensures Knobs() == old(Knobs()).(target := t)
      ensures currentConnections == [] && depthLevel == Effective()
      ensures forall o :: o in DetuneTargets(old(currentConnections)) ==> o.detune == 0.0
      ensures forall g :: g in GainTargets(old(currentConnections)) ==> g.gain == 1.0
    {
      target := t;
      HandleTargetChange();
    }

    /**
     * synth.js:152-166: a target change drops every connection (resetting the
     * parameters it modulated) and recomputes the depth, but does not attach
     * to the new target; that waits for the next note.
     */
    method HandleTargetChange()
      modifies this`currentConnections, this`depthLevel, Detunes()`detune, Gains()`gain
      ensures currentConnections == []
      ensures depthLevel == Effective()
      ensures forall o :: o in DetuneTargets(old(currentConnections)) ==> o.detune == 0.0
      ensures forall g :: g in GainTargets(old(currentConnections)) ==> g.gain == 1.0
    {
      if |currentConnections| > 0 {
        Disconnect();
        depthLevel := 0.0;
      }
      UpdateDepthGain();
    }

    /**
     * synth.js:169-205: an inert LFO disconnects instead; otherwise the depth
     * is recomputed and one connection is tracked when the parameter belongs
     * to the node.
     */
    method Connect(node: AudioNode, param: ParamName)
      modifies this`currentConnections, this`depthLevel, Detunes()`detune, Gains()`gain
      ensures Inert() ==> currentConnections == [] && depthLevel == old(depthLevel)
      ensures Inert() ==> forall o :: o in DetuneTargets(old(currentConnections)) ==> o.detune == 0.0
      ensures Inert() ==> forall g :: g in GainTargets(old(currentConnections)) ==> g.gain == 1.0
      ensures !Inert() ==> depthLevel == Effective()
      ensures !Inert() ==> currentConnections == old(currentConnections) + (match Resolve(node, param)
                                                                            case Some(c) => [c]
                                                                            case None => [])
      ensures !Inert() ==> unchanged(DetuneTargets(old(currentConnections)), GainTargets(old(currentConnections)))
    {
      if target == NoTarget || depth == 0.0 {
        Disconnect();
        return;
      }
      UpdateDepthGain();
      match Resolve(node, param)
      case Some(c) =>
        currentConnections := currentConnections + [c];
      case None =>
    }

    /**
     * One stored entry applied by `applySettings` (synth.js:738-761): the
     * four controls take the entry's values, the oscillator and depth gain
     * follow them, and a pausable LFO is unpaused. The depth is recomputed
     * before the pause flag is cleared, so an LFO that was paused comes back
     * unpaused with its depth still at 0.
     */
    method Restore(k: LfoControls)
      requires Valid()
      modifies this`rate, this`depth, this`waveform, this`target, this`oscRate, this`oscWaveform,
               this`depthLevel, this`isPaused
      ensures Valid() && Knobs() == k && !isPaused
      ensures oscRate == k.rate && oscWaveform == k.waveform
      ensures depthLevel == EffectiveDepth(k.depth, k.target, old(isPaused))
    {
      rate, depth, waveform, target := k.rate, k.depth, k.waveform, k.target;
      UpdateRate();
      UpdateWaveform();
      UpdateDepthGain();
      if hasPauseButton {
        isPaused := false;
      }
    }

    /**
     * One LFO's step of the per-note rebinding pass (synth.js:455-471,
     * 607-623): an unconnected LFO connects to the voice parameter its target
     * names, or disconnects when its target is 'none'.
     */
    method Rebind(osc: OscillatorNode, filter: BiquadFilterNode, tremolo: GainNode)
      requires currentConnections == []
      modifies this`currentConnections, this`depthLevel
      ensures currentConnections == Routing(Knobs(), osc, filter, tremolo)
      ensures depthLevel == if Inert() then old(depthLevel) else Effective()
    {
      assert Detunes() == {} && Gains() == {};
      match target {
        case Pitch => Connect(Oscillator(osc), Detune);
        case Filter => Connect(Biquad(filter), Frequency);
        case Amplitude => Connect(Gain(tremolo), GainParam);
        case NoTarget => Disconnect();
      }
    }

    /**
     * synth.js:207-237: forget every connection and put each modulated
     * parameter back to neutral: detune to 0 cents, gain to 1. A filter
     * frequency only has its schedule cancelled, so it is not in the frame.
     */
    method Disconnect()
      modifies this`currentConnections, Detunes()`detune, Gains()`gain
      ensures currentConnections == []
      ensures forall o :: o in DetuneTargets(old(currentConnections)) ==> o.detune == 0.0
      ensures forall g :: g in GainTargets(old(currentConnections)) ==> g.gain == 1.0
    {
      var cs := currentConnections;
      var i := 0;
      while i < |cs|
        invariant 0 <= i <= |cs|
        invariant forall k :: 0 <= k < i && cs[k].DetuneOf? ==> cs[k].osc.detune == 0.0
        invariant forall k :: 0 <= k < i && cs[k].GainOf? ==> cs[k].gainNode.gain == 1.0
      {
        match cs[i] {
          case DetuneOf(o) =>
            o.detune := 0.0;
          case FrequencyOf(_) =>
          case GainOf(g) =>
            g.gain := 1.0;
        }
        i := i + 1;
      }
      currentConnections := [];
    }
  }

  /**
   * The connections one step of the per-note rebinding pass (synth.js:455-471)
   * leaves an unconnected LFO with: none when it is inert, otherwise exactly
   * one, on the parameter its target names.
   */
  function Routing(k: LfoControls, osc: OscillatorNode, filter: BiquadFilterNode, tremolo: GainNode): (cs: seq<Connection>)
    ensures |cs| <= 1
    ensures cs == [] <==> k.target == NoTarget || k.depth == 0.0
    ensures k.target == Amplitude && k.depth != 0.0 <==> cs == [GainOf(tremolo)]
    ensures forall c :: c in cs ==> c == DetuneOf(osc) || c == FrequencyOf(filter) || c == GainOf(tremolo)
  {
    if k.target == NoTarget || k.depth == 0.0 then []
    else
      match k.target
      case Pitch => [DetuneOf(osc)]
      case Filter => [FrequencyOf(filter)]
      case Amplitude => [GainOf(tremolo)]
  }

  /** The controls of each LFO, in order. */
  function KnobsOf(ls: seq<LFO>): (ks: seq<LfoControls>)
    reads (set l | l in ls)`rate, (set l | l in ls)`depth, (set l | l in ls)`waveform, (set l | l in ls)`target
    ensures |ks| == |ls|
    ensures forall i :: 0 <= i < |ls| ==> ks[i] == ls[i].Knobs()
  {
    if ls == [] then [] else [ls[0].Knobs()] + KnobsOf(ls[1..])
  }
}
