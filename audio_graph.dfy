/**
 * The Web Audio nodes the control plane touches, reduced to the last value
 * scheduled on each AudioParam, and the LFO's bookkeeping of its connections
 * (`currentConnections`, synth.js:67 and 169-237).
 */
module AudioGraph {
  import opened Wrappers
  import opened Modulation

  /** An OscillatorNode: shape, frequency (Hz), detune (cents) and its start/stop requests. */
  class OscillatorNode {
    var waveform: Waveform
    var frequency: real
    var detune: real
    var started: bool
    var stopScheduled: bool

    constructor (waveform: Waveform, frequency: real)
      ensures this.waveform == waveform && this.frequency == frequency
      ensures detune == 0.0 && !started && !stopScheduled
    {
      this.waveform := waveform;
      this.frequency := frequency;
      detune := 0.0;
      started := false;
      stopScheduled := false;
    }
  }

  /** A lowpass BiquadFilterNode: cutoff frequency (Hz) and resonance Q. */
  class BiquadFilterNode {
    var frequency: real
    var q: real

    constructor (frequency: real, q: real)
      ensures this.frequency == frequency && this.q == q
    {
      this.frequency := frequency;
      this.q := q;
    }
  }

  /** A GainNode: its gain factor. */
  class GainNode {
    var gain: real

    constructor (gain: real)
      ensures this.gain == gain
    {
      this.gain := gain;
    }
  }

  /** A target node of `LFO.connect`, tagged with its kind (the `instanceof` tests). */
  datatype AudioNode =
    | Oscillator(osc: OscillatorNode)
    | Biquad(filter: BiquadFilterNode)
    | Gain(gainNode: GainNode)

  /** The AudioParam names the source passes to `connect`. */
  datatype ParamName = Detune | Frequency | GainParam

  /** A tracked connection `{ node, param }` whose param belongs to the node. */
  datatype Connection =
    | DetuneOf(osc: OscillatorNode)
    | FrequencyOf(filter: BiquadFilterNode)
    | GainOf(gainNode: GainNode)

  /**
   * The AudioParam that `connect` finds (synth.js:184-191): only detune on an
   * oscillator, frequency on a filter and gain on a gain node.
   */
  function Resolve(node: AudioNode, param: ParamName): (r: Option<Connection>)
    ensures r.Some? <==> (param == Detune && node.Oscillator?) || (param == Frequency && node.Biquad?)
                         || (param == GainParam && node.Gain?)
    ensures r == Some(DetuneOf(node.osc)) <== param == Detune && node.Oscillator?
    ensures r == Some(FrequencyOf(node.filter)) <== param == Frequency && node.Biquad?
    ensures r == Some(GainOf(node.gainNode)) <== param == GainParam && node.Gain?
  {
    match (node, param)
    case (Oscillator(o), Detune) => Some(DetuneOf(o))
    case (Biquad(f), Frequency) => Some(FrequencyOf(f))
    case (Gain(g), GainParam) => Some(GainOf(g))
    case _ => None
  }

  /** Oscillators whose detune some connection in `cs` modulates. */
  function DetuneTargets(cs: seq<Connection>): set<OscillatorNode> {
    set c | c in cs && c.DetuneOf? :: c.osc
  }

  /** Gain nodes whose gain some connection in `cs` modulates. */
  function GainTargets(cs: seq<Connection>): set<GainNode> {
    set c | c in cs && c.GainOf? :: c.gainNode
  }
}
