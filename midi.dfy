/**
 * Decoding of raw MIDI messages as `handleMIDIMessage` does it
 * (synth.js:387-417). Messages arrive as the bytes of a Uint8Array.
 */
module Midi {
  import opened Wrappers

  newtype byte = x: int | 0 <= x < 256

  /** What one message asks the synthesizer to do. */
  datatype MidiMessage =
    | NoteOnMsg(note: byte, velocity: byte)
      /** `offNote` is None when the message has no second byte (JavaScript `undefined`). */
    | NoteOffMsg(offNote: Option<byte>)
    | ControlChangeMsg(controller: Option<byte>, value: byte)
    | Ignored

  /** `data[0] >> 4`; an empty message reads `undefined >> 4`, which is 0. */
  function Command(data: seq<byte>): int {
    if |data| == 0 then 0 else data[0] as int / 16
  }

  /** `data[0] & 0xf`: decoded, but it selects nothing. */
  function Channel(data: seq<byte>): int {
    if |data| == 0 then 0 else data[0] as int % 16
  }

  /** `data[1]`, or undefined. */
  function DataByte1(data: seq<byte>): Option<byte> {
    if |data| > 1 then Some(data[1]) else None
  }

  /** `data.length > 2 ? data[2] : 0`. */
  function DataByte2(data: seq<byte>): byte {
    if |data| > 2 then data[2] else 0
  }

  function Decode(data: seq<byte>): (m: MidiMessage)
    ensures m.NoteOnMsg? <==> Command(data) == 9 && |data| > 2 && data[2] > 0
    ensures m.NoteOnMsg? ==> m.note == data[1] && m.velocity == data[2] && m.velocity > 0
    // Note On with velocity 0, or with no velocity byte, is a Note Off
    ensures m.NoteOffMsg? <==> Command(data) == 8 || (Command(data) == 9 && DataByte2(data) == 0)
    ensures m.NoteOffMsg? ==> m.offNote == DataByte1(data)
    ensures m.ControlChangeMsg? <==> Command(data) == 11
    ensures m.ControlChangeMsg? ==> m.controller == DataByte1(data) && m.value == DataByte2(data)
    ensures m.Ignored? <==> Command(data) !in {8, 9, 11}
  {
    var note, velocity := DataByte1(data), DataByte2(data);
    match Command(data)
    case 9 => if velocity > 0 then NoteOnMsg(note.value, velocity) else NoteOffMsg(note)
    case 8 => NoteOffMsg(note)
    case 11 => ControlChangeMsg(note, velocity)
    case _ => Ignored
  }

  /** The channel nibble never changes what a message means: all channels merge. */
  lemma DecodeIgnoresChannel(data: seq<byte>, channel: byte)
    requires |data| > 0 && channel < 16
    ensures var other := [((data[0] as int / 16) * 16 + channel as int) as byte] + data[1..];
            && Channel(other) == channel as int && Command(other) == Command(data)
            && Decode(other) == Decode(data)
  {
    var status := ((data[0] as int / 16) * 16 + channel as int) as byte;
    var other := [status] + data[1..];
    assert status as int / 16 == data[0] as int / 16;
    assert Command(other) == Command(data);
    assert DataByte1(other) == DataByte1(data);
    assert DataByte2(other) == DataByte2(data);
  }

  /** A message shorter than three bytes never starts a note. */
  lemma ShortMessagesNeverStartNotes(data: seq<byte>)
    requires |data| < 3
    ensures !Decode(data).NoteOnMsg?
    ensures Command(data) == 9 ==> Decode(data) == NoteOffMsg(DataByte1(data))
  {
  }
}
