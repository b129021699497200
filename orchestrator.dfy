/**
 * The monophonic note orchestrator's bookkeeping (synth.js:420-495,
 * 570-682, 887-923, 945-986): whether a voice exists and which note it is
 * playing, by name (`activeNote`) and by MIDI number (`activeMIDINote`).
 * `Step` gives the bookkeeping after each input event; the audio side of the
 * same events is in the Synth class.
 */
module Orchestrator {
  import opened Wrappers
  import opened Keyboard

  /**
   * `voice`: an oscillator/filter/VCA chain exists. `fromMidi`: the sounding
   * note was started by a MIDI note-on (not kept by the source, see
   * MouseUpGuard).
   */
  datatype Tracking = Tracking(voice: bool, activeNote: Option<string>, activeMidi: Option<int>, fromMidi: bool)

  const Silent := Tracking(false, None, None, false)

  /**
   * No identity without a voice, and a voice knows what it plays: its MIDI
   * number when MIDI started it, its name otherwise.
   */
  predicate Consistent(t: Tracking) {
    && (!t.voice ==> t == Silent)
    && (t.voice && t.fromMidi ==> t.activeMidi.Some?)
    && (t.voice && !t.fromMidi ==> t.activeNote.Some?)
  }

  /** The events that start or stop notes. */
  datatype NoteEvent =
    | UiNoteOn(name: string)          // key mousedown / touchstart, computer-key keydown
    | MidiNoteOn(note: int)           // a note-on with velocity > 0
    | MidiNoteOff(offNote: Option<int>)  // a note-off; None is the `undefined` of a short message
    | KeyRelease(name: string)        // key mouseup / touchend / touchcancel, computer-key keyup
    | KeyLeave(name: string, buttons: int)
    | GlobalMouseUp
    | Stop                            // noteOff() itself

  /** noteOff (synth.js:636-682): with no oscillator it returns at once. */
  function StopNote(t: Tracking): (r: Tracking)
    ensures r == Silent || r == t
    ensures Consistent(t) ==> r == Silent
  {
    if t.voice then Silent else t
  }

  /** The global mouseup listener exactly as written (synth.js:945-955). */
  function MouseUpGuardAsWritten(t: Tracking): (r: Tracking)
    // it silences only a sounding note with a name and no MIDI number
    ensures r.voice <==> t.voice && !(t.activeNote.Some? && t.activeMidi.None?)
    ensures r != t ==> r.activeNote.None? && r.activeMidi.None?
  {
    if t.activeNote.Some? && t.activeMidi.None? && t.voice then StopNote(t)
    else if t.activeNote.Some? && !t.voice then Tracking(t.voice, None, None, t.fromMidi)
    else t
  }

  /** The global mouseup as its comment intends: stop a note unless MIDI started it. */
  function MouseUpGuard(t: Tracking): (r: Tracking)
    // it silences every sounding note with a name that MIDI did not start
    ensures r.voice <==> t.voice && !(t.activeNote.Some? && !t.fromMidi)
    ensures r != t ==> r.activeNote.None? && r.activeMidi.None?
  {
    if t.activeNote.Some? && !t.fromMidi && t.voice then StopNote(t)
    else if t.activeNote.Some? && !t.voice then Tracking(t.voice, None, None, t.fromMidi)
    else t
  }

  /** The note bookkeeping that one event leaves behind. */
  function Step(keys: seq<Key>, t: Tracking, e: NoteEvent): (r: Tracking)
    // only a note-on can leave a voice sounding that was not sounding before
    ensures r.voice ==> r == t || e.UiNoteOn? || e.MidiNoteOn?
    // a MIDI note always takes over; a known name sounds, retriggered or not
    ensures e.MidiNoteOn? ==> r.voice && r.fromMidi && r.activeMidi == Some(e.note)
    ensures e.UiNoteOn? ==>
              if e.name in NoteFrequencies then r.voice && r.activeNote == Some(e.name) else r == t
  {
    match e
    case Stop => StopNote(t)
    case UiNoteOn(name) =>
      // unknown names are ignored, and so is a retrigger of the sounding note
      if name !in NoteFrequencies then t
      else if t.activeNote == Some(name) && t.voice then t
      else Tracking(true, Some(name), MidiOfName(keys, name), false)
    case MidiNoteOn(n) => Tracking(true, NameOfMidi(keys, n), Some(n), true)
    case MidiNoteOff(n) =>
      if !t.voice || n.None? || n != t.activeMidi then t else StopNote(t)
    case KeyRelease(name) => if t.activeNote == Some(name) then StopNote(t) else t
    case KeyLeave(name, buttons) => if buttons == 0 && t.activeNote == Some(name) then StopNote(t) else t
    case GlobalMouseUp => MouseUpGuard(t)
  }

  /** The bookkeeping after a whole sequence of events. */
  function Run(keys: seq<Key>, t: Tracking, events: seq<NoteEvent>): (r: Tracking)
    // a voice that was not there at the start was put there by some note-on
    ensures r.voice ==> r == t || exists k :: 0 <= k < |events| && (events[k].UiNoteOn? || events[k].MidiNoteOn?)
    decreases |events|
  {
    if events == [] then t
    else
      var n := |events| - 1;
      assert forall k :: 0 <= k < n ==> events[..n][k] == events[k];
      Step(keys, Run(keys, t, events[..n]), events[n])
  }

  /** Every event keeps the bookkeeping consistent. */
  lemma StepConsistent(keys: seq<Key>, t: Tracking, e: NoteEvent)
    requires Consistent(t)
    ensures Consistent(Step(keys, t, e))
  {
  }

  lemma {:induction false} RunConsistent(keys: seq<Key>, t: Tracking, events: seq<NoteEvent>)
    requires Consistent(t)
    ensures Consistent(Run(keys, t, events))
    decreases |events|
  {
    if events != [] {
      RunConsistent(keys, t, events[..|events| - 1]);
      StepConsistent(keys, Run(keys, t, events[..|events| - 1]), events[|events| - 1]);
    }
  }

  /** Stopping twice is stopping once. */
  lemma StopIdempotent(keys: seq<Key>, t: Tracking)
    ensures Step(keys, Step(keys, t, Stop), Stop) == Step(keys, t, Stop)
  {
  }

  /** A MIDI note-off silences the voice exactly when its number is the tracked one. */
  lemma MidiNoteOffMatches(keys: seq<Key>, t: Tracking, n: Option<int>)
    requires Consistent(t)
    ensures var r := Step(keys, t, MidiNoteOff(n));
            (t.voice && !r.voice <==> t.voice && n.Some? && n == t.activeMidi)
            && (r.voice ==> r == t)
  {
  }

  /** A key release only stops the note of that key. */
  lemma KeyReleaseMatches(keys: seq<Key>, t: Tracking, name: string)
    requires Consistent(t)
    ensures Step(keys, t, KeyRelease(name)) == if t.activeNote == Some(name) then Silent else t
  {
  }

  /** A known note that is not already sounding always takes over, whatever was playing. */
  lemma UiNoteOnSteals(keys: seq<Key>, t: Tracking, name: string)
    requires name in NoteFrequencies && !(t.voice && t.activeNote == Some(name))
    ensures Step(keys, t, UiNoteOn(name)) == Tracking(true, Some(name), MidiOfName(keys, name), false)
  {
  }

  /** Pressing the key of the sounding note again changes nothing (no retrigger). */
  lemma UiNoteOnNoRetrigger(keys: seq<Key>, t: Tracking, name: string)
    requires t.voice && t.activeNote == Some(name)
    ensures Step(keys, t, UiNoteOn(name)) == t
  {
  }

  /** With consistent bookkeeping the listener's clean-up branch never fires. */
  lemma GlobalMouseUpCleanupUnreachable(t: Tracking)
    requires Consistent(t)
    ensures MouseUpGuard(t) == if t.voice && t.activeNote.Some? && !t.fromMidi then Silent else t
    ensures MouseUpGuardAsWritten(t) == if t.voice && t.activeNote.Some? && t.activeMidi.None? then Silent else t
  {
  }

  /**
   * As written, a note started from an on-screen key (which carries a MIDI
   * number) survives a mouse release anywhere outside that key.
   */
  lemma GlobalMouseUpAsWrittenKeepsKeyNote(keys: seq<Key>, name: string)
    requires name in NoteFrequencies && exists k :: 0 <= k < |keys| && keys[k].note == name
    ensures var t := Step(keys, Silent, UiNoteOn(name));
            t.voice && MouseUpGuardAsWritten(t) == t
  {
  }

  /** Corrected: every note not started by MIDI stops on a global mouse release; MIDI notes are left alone. */
  lemma GlobalMouseUpStopsUiNotes(keys: seq<Key>, t: Tracking)
    requires Consistent(t) && t.voice
    ensures !t.fromMidi ==> !Step(keys, t, GlobalMouseUp).voice
    ensures t.fromMidi ==> Step(keys, t, GlobalMouseUp) == t
  {
  }

  /** Whether `e` is a note-on naming the note that `t` tracks. */
  predicate Started(e: NoteEvent, t: Tracking) {
    (e.UiNoteOn? && t.activeNote == Some(e.name) && !t.fromMidi)
    || (e.MidiNoteOn? && t.activeMidi == Some(e.note) && t.fromMidi)
  }

  /**
   * Whether `Step` takes `e`, arriving in `t`, as a new note: every MIDI
   * note-on, and a name note-on for a known note that is not already sounding.
   */
  predicate StartsNote(e: NoteEvent, t: Tracking) {
    e.MidiNoteOn? || (e.UiNoteOn? && e.name in NoteFrequencies && !(t.voice && t.activeNote == Some(e.name)))
  }

  /** An event that does not start a note either keeps a sounding note as it is or silences it. */
  lemma OtherEventsKeepOrSilence(keys: seq<Key>, t: Tracking, e: NoteEvent)
    requires Consistent(t) && !StartsNote(e, t)
    ensures Step(keys, t, e).voice ==> Step(keys, t, e) == t
  {
  }

  /**
   * Last-note priority: from silence, whatever sounds after a sequence of
   * events was started by the last event that `Step` took as a new note.
   */
  /** Helper: the "no later new note" part of `SoundingNoteWasStarted` carries over one more event. */
  lemma NoLaterStartExtends(keys: seq<Key>, events: seq<NoteEvent>, k: nat)
    requires k < |events| - 1
    requires !StartsNote(events[|events| - 1], Run(keys, Silent, events[..|events| - 1]))
    requires var prefix := events[..|events| - 1];
             forall j :: k < j < |prefix| ==> !StartsNote(prefix[j], Run(keys, Silent, prefix[..j]))
    ensures forall j :: k < j < |events| ==> !StartsNote(events[j], Run(keys, Silent, events[..j]))
  {
    var n := |events| - 1;
    var prefix := events[..n];
    forall j | k < j < |events|
      ensures !StartsNote(events[j], Run(keys, Silent, events[..j]))
    {
      if j < n {
        assert events[j] == prefix[j] && events[..j] == prefix[..j];
      } else {
        assert events[..j] == prefix;
      }
    }
  }

  lemma {:induction false} SoundingNoteWasStarted(keys: seq<Key>, events: seq<NoteEvent>)
    ensures var t := Run(keys, Silent, events);
            t.voice ==> exists k :: 0 <= k < |events| && Started(events[k], t)
                                    && StartsNote(events[k], Run(keys, Silent, events[..k]))
                                    && forall j :: k < j < |events| ==> !StartsNote(events[j], Run(keys, Silent, events[..j]))
    decreases |events|
  {
    if events != [] {
      var n := |events| - 1;
      var prefix := events[..n];
      var e := events[n];
      var p := Run(keys, Silent, prefix);
      var t := Step(keys, p, e);
      assert Run(keys, Silent, events) == t;
      if StartsNote(e, p) {
        assert Started(e, t);
      } else if t.voice {
        RunConsistent(keys, Silent, prefix);
        OtherEventsKeepOrSilence(keys, p, e);
        SoundingNoteWasStarted(keys, prefix);
        var k :| 0 <= k < |prefix| && Started(prefix[k], p)
                 && StartsNote(prefix[k], Run(keys, Silent, prefix[..k]))
                 && forall j :: k < j < |prefix| ==> !StartsNote(prefix[j], Run(keys, Silent, prefix[..j]));
        assert events[k] == prefix[k] && events[..k] == prefix[..k];
        NoLaterStartExtends(keys, events, k);
      }
    }
  }
}
