/**
 * The note tables (synth.js:240-257) and the on-screen keyboard, reduced to
 * its keys in document order, each with its `data-note` and `data-midi`.
 */
module Keyboard {
  import opened Wrappers

  /** One on-screen key: its note name and MIDI note number. */
  datatype Key = Key(note: string, midi: int)

  /** `noteFrequencies`: the names `noteOn` can play, C3 to C5, with their pitch in Hz. */
  const NoteFrequencies: map<string, real> := map[
    "C3" := 130.81, "C#3" := 138.59, "D3" := 146.83, "D#3" := 155.56, "E3" := 164.81,
    "F3" := 174.61, "F#3" := 185.00, "G3" := 196.00, "G#3" := 207.65, "A3" := 220.00,
    "A#3" := 233.08, "B3" := 246.94,
    "C4" := 261.63, "C#4" := 277.18, "D4" := 293.66, "D#4" := 311.13, "E4" := 329.63,
    "F4" := 349.23, "F#4" := 369.99, "G4" := 392.00, "G#4" := 415.30, "A4" := 440.00,
    "A#4" := 466.16, "B4" := 493.88,
    "C5" := 523.25]

  /** `keyNoteMap`: computer keys to note names. */
  const KeyNoteMap: map<string, string> := map[
    "a" := "C4", "w" := "C#4", "s" := "D4", "e" := "D#4", "d" := "E4",
    "f" := "F4", "t" := "F#4", "g" := "G4", "y" := "G#4", "h" := "A4",
    "u" := "A#4", "j" := "B4", "k" := "C5"]

  /** Every computer key plays a note that `noteOn` knows. */
  lemma KeyNotesArePlayable()
    ensures forall k :: k in KeyNoteMap ==> KeyNoteMap[k] in NoteFrequencies
  {
  }

  /**
   * `querySelector('.key[data-note="name"]')` then its `data-midi`: the MIDI
   * number of the first key showing `name`, or null when no key shows it.
   */
  function MidiOfName(keys: seq<Key>, name: string): (r: Option<int>)
    ensures r.None? <==> forall k :: 0 <= k < |keys| ==> keys[k].note != name
    ensures r.Some? ==> exists k :: 0 <= k < |keys| && keys[k] == Key(name, r.value)
                                    && forall j :: 0 <= j < k ==> keys[j].note != name
  {
    if keys == [] then None
    else if keys[0].note == name then Some(keys[0].midi)
    else
      MidiOfName(keys[1..], name)
  }

  /** The name of the first key whose MIDI number is `midi`, or null (findNoteNameFromMidi). */
  function NameOfMidi(keys: seq<Key>, midi: int): (r: Option<string>)
    ensures r.None? <==> forall k :: 0 <= k < |keys| ==> keys[k].midi != midi
    ensures r.Some? ==> exists k :: 0 <= k < |keys| && keys[k] == Key(r.value, midi)
                                    && forall j :: 0 <= j < k ==> keys[j].midi != midi
  {
    if keys == [] then None
    else if keys[0].midi == midi then Some(keys[0].note)
    else
      NameOfMidi(keys[1..], midi)
  }

  /** findNoteNameFromMidi (synth.js:547-554): scan the keys in order, stop at the first match. */
  method FindNoteNameFromMidi(keys: seq<Key>, midi: int) returns (r: Option<string>)
    ensures r == NameOfMidi(keys, midi)
  {
    for i := 0 to |keys|
      invariant NameOfMidi(keys, midi) == NameOfMidi(keys[i..], midi)
    {
      assert keys[i..][1..] == keys[i + 1..];
      if keys[i].midi == midi {
        return Some(keys[i].note);
      }
    }
    return None;
  }

  /** `toLowerCase` on the ASCII letters. */
  function ToLowerAscii(s: string): (r: string)
    ensures |r| == |s|
    ensures forall i :: 0 <= i < |s| ==> r[i] == if 'A' <= s[i] <= 'Z' then s[i] - 'A' + 'a' else s[i]
  {
    if s == [] then []
    else [if 'A' <= s[0] <= 'Z' then s[0] - 'A' + 'a' else s[0]] + ToLowerAscii(s[1..])
  }
}
