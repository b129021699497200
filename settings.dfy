/**
 * The settings snapshot: `gatherSettings` (synth.js:686-704) reads every
 * control into a record, `applySettings` (synth.js:718-765) writes a record
 * back, field by field, with a default for each missing field. Pause state
 * is not part of it.
 */
module Settings {
  import opened Wrappers
  import opened Modulation

  /** One LFO panel's controls. */
  datatype LfoControls = LfoControls(rate: real, depth: real, waveform: Waveform, target: Target)

  /** Every control the snapshot covers. */
  datatype Controls = Controls(
    masterVolume: real,
    oscWaveform: Waveform,
    filterCutoff: real,
    filterResonance: real,
    lfos: seq<LfoControls>)

  /** A stored LFO entry; any field may be missing. */
  datatype LfoSettings = LfoSettings(rate: Option<real>, depth: Option<real>, waveform: Option<Waveform>, target: Option<Target>)

  /** A stored snapshot as parsed back; any field may be missing. */
  datatype SettingsRecord = SettingsRecord(
    masterVolume: Option<real>,
    oscWaveform: Option<Waveform>,
    filterCutoff: Option<real>,
    filterResonance: Option<real>,
    lfos: Option<seq<LfoSettings>>)

  /** A record with no missing field, as `gatherSettings` produces. */
  predicate Complete(s: SettingsRecord) {
    && s.masterVolume.Some? && s.oscWaveform.Some? && s.filterCutoff.Some? && s.filterResonance.Some?
    && s.lfos.Some?
    && forall i :: 0 <= i < |s.lfos.value| ==> LfoComplete(s.lfos.value[i])
  }

  predicate LfoComplete(e: LfoSettings) {
    e.rate.Some? && e.depth.Some? && e.waveform.Some? && e.target.Some?
  }

  function GatherLfo(c: LfoControls): LfoSettings {
    LfoSettings(Some(c.rate), Some(c.depth), Some(c.waveform), Some(c.target))
  }

  /** One entry per LFO, in LFO order (the `forEach` / `push` of synth.js:694-702). */
  function GatherLfos(cs: seq<LfoControls>): (ss: seq<LfoSettings>)
    ensures |ss| == |cs|
    ensures forall i :: 0 <= i < |cs| ==> LfoComplete(ss[i])
  {
    if cs == [] then [] else [GatherLfo(cs[0])] + GatherLfos(cs[1..])
  }

  /** gatherSettings: a complete record with one entry per LFO and no pause state. */
  function Gather(c: Controls): (s: SettingsRecord)
    ensures Complete(s)
    ensures |s.lfos.value| == |c.lfos|
  {
    SettingsRecord(Some(c.masterVolume), Some(c.oscWaveform), Some(c.filterCutoff), Some(c.filterResonance),
                   Some(GatherLfos(c.lfos)))
  }

  /** One stored LFO entry applied: each missing field falls back on its own default. */
  function ApplyLfo(e: LfoSettings): (c: LfoControls)
    ensures e.rate.Some? ==> c.rate == e.rate.value
    ensures e.depth.Some? ==> c.depth == e.depth.value
    ensures e.waveform.Some? ==> c.waveform == e.waveform.value
    ensures e.target.Some? ==> c.target == e.target.value
    // a complete entry is taken as it is
    ensures LfoComplete(e) ==> GatherLfo(c) == e
  {
    LfoControls(e.rate.GetOr(5.0), e.depth.GetOr(0.0), e.waveform.GetOr(Sine), e.target.GetOr(NoTarget))
  }

  function ApplyLfos(es: seq<LfoSettings>): (cs: seq<LfoControls>)
    ensures |cs| == |es|
  {
    if es == [] then [] else [ApplyLfo(es[0])] + ApplyLfos(es[1..])
  }

  /** Whether `applySettings` takes the LFO entries: only when there is one per LFO. */
  predicate LfoEntriesFit(s: SettingsRecord, lfoCount: nat) {
    s.lfos.Some? && |s.lfos.value| == lfoCount
  }

  /**
   * applySettings on the controls: no record changes nothing; otherwise every
   * global control takes the stored value or its default, and the LFO
   * controls are replaced only when the entry count matches.
   */
  function Apply(c: Controls, settings: Option<SettingsRecord>): (r: Controls)
    ensures |r.lfos| == |c.lfos|
    ensures settings.Some? && !LfoEntriesFit(settings.value, |c.lfos|) ==> r.lfos == c.lfos
  {
    match settings
    case None => c
    case Some(s) =>
      Controls(
        s.masterVolume.GetOr(0.7),
        s.oscWaveform.GetOr(Sine),
        s.filterCutoff.GetOr(5000.0),
        s.filterResonance.GetOr(1.0),
        if LfoEntriesFit(s, |c.lfos|) then ApplyLfos(s.lfos.value) else c.lfos)
  }

  /** Entry `i` of the applied list comes from stored entry `i`. */
  lemma {:induction false} ApplyLfosAt(es: seq<LfoSettings>, i: nat)
    requires i < |es|
    ensures ApplyLfos(es)[i] == ApplyLfo(es[i])
  {
    if i > 0 {
      ApplyLfosAt(es[1..], i - 1);
    }
  }

  /** Gathering then applying the LFO entries gives the same LFO controls back. */
  lemma {:induction false} LfoRoundTrip(cs: seq<LfoControls>)
    ensures ApplyLfos(GatherLfos(cs)) == cs
  {
    if cs != [] {
      LfoRoundTrip(cs[1..]);
    }
  }

  /**
   * applySettings(gatherSettings()) leaves every control as it was; more
   * generally a snapshot of `d` applied to controls with as many LFOs yields `d`.
   */
  lemma SnapshotTransfer(c: Controls, d: Controls)
    requires |c.lfos| == |d.lfos|
    ensures Apply(c, Some(Gather(d))) == d
  {
    LfoRoundTrip(d.lfos);
  }

  lemma SnapshotRoundTrip(c: Controls)
    ensures Apply(c, Some(Gather(c))) == c
  {
    SnapshotTransfer(c, c);
  }

  /** Applying the same record twice is the same as applying it once. */
  lemma ApplyIdempotent(c: Controls, s: Option<SettingsRecord>)
    ensures Apply(Apply(c, s), s) == Apply(c, s)
  {
  }

  /** An empty record resets every global control to its default and leaves the LFOs alone. */
  lemma EmptyRecordDefaults(c: Controls)
    ensures Apply(c, Some(SettingsRecord(None, None, None, None, None)))
            == Controls(0.7, Sine, 5000.0, 1.0, c.lfos)
  {
  }

  /** An entry with no fields resets an LFO to rate 5, depth 0, sine, no target. */
  lemma EmptyLfoEntryDefaults()
    ensures ApplyLfo(LfoSettings(None, None, None, None)) == LfoControls(5.0, 0.0, Sine, NoTarget)
  {
  }
}
