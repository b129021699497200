# Monophonic synth control plane, in Dafny

This project models the control plane of a browser synthesizer (`synth.js`): what the
program decides and remembers, not the sound it makes. The synthesizer plays one
voice at a time, an oscillator -> lowpass filter -> VCA chain feeding a shared tremolo
gain and a master gain. Two LFOs can modulate the voice's pitch (detune), the filter
cutoff or the tremolo gain (amplitude). Notes come from on-screen keys, the computer
keyboard and MIDI. The controls can be saved as a settings record and restored.

Every Web Audio parameter is reduced to the last value scheduled on it. Ramps, start
times and the audio signal itself are not modelled. Audio nodes are small classes
(`AudioGraph`). An LFO's connections are the list of `{node, param}` pairs it tracks,
modelled as a `Connection` value that can only name a parameter the node really has.

Modules:

- `Midi`: decoding of a raw MIDI message into note-on, note-off, control change or
  nothing. A note-on with velocity 0 is a note-off, as in the MIDI 1.0 Detailed
  Specification (Channel Voice Messages).
- `Mapping`: `mapRange`, which clamps and then maps linearly, over `real`.
- `Modulation`: waveforms, LFO targets and the depth-scaling table.
- `ControlChange`: what CC 7, 74 and 71 do to the controls.
- `Keyboard`: the note-frequency table, the computer-key map and the key lookups.
- `Settings`: `gatherSettings` / `applySettings` as functions on a `Controls` value,
  with the per-field defaults.
- `Orchestrator`: the note bookkeeping (voice present, `activeNote`,
  `activeMIDINote`) as a step function over input events.
- `Lfo`: the `LFO` class, whose methods change its fields in place.
- `Engine`: the `Synth` class, whose fields are the program's globals. Its methods are
  the program's functions and event listeners. Its invariant `Valid()` says:
  - at most one voice exists, and its three nodes come and go together;
  - a note identity is tracked exactly while a voice sounds;
  - each LFO holds at most one connection, only onto the current voice or the tremolo
    gain, and none when there is no voice.

Every note handler is proved to move the bookkeeping exactly as `Orchestrator.Step`
says. The lemmas about `Step` and `Run` then carry over to the class.

The model starts in the state `setupAudioContext` leaves behind: the audio context,
both shared gains and both LFOs exist. Every `!audioContext` guard is therefore false
and is not modelled.

Behaviours the model keeps exactly as the code has them, where a reader might expect otherwise:

- `handleTargetChange` disconnects the LFO but does not attach it to the new target.
  That waits for the next note.
- `midiNoteOn` has no retrigger check. Only `noteOn` (names) ignores the sounding note.
- `disconnect` resets detune to 0 and gain to 1, but only cancels the filter
  frequency's schedule.
- `applySettings` recomputes each LFO's depth before it clears the pause flag. An LFO
  that was paused therefore comes back unpaused with its depth still at 0.
- The global mouseup is the one exception; see Findings. The `Synth` class keeps a
  field `noteFromMIDI` that `synth.js` does not have. It records whether MIDI started
  the sounding note, and the corrected mouseup guard reads it. Every other method
  keeps it in step with the note bookkeeping.

## Model

| member | source | states |
|---|---|---|
| Midi.Decode | synth.js:387-417 | Command 9 with a velocity byte above 0 is a note-on carrying data bytes 1 and 2. Command 8, or 9 with velocity 0 or no velocity byte, is a note-off of byte 1, or of `undefined` when that byte is missing. Command 11 is a control change whose value defaults to 0. Everything else is ignored. |
| Midi.DecodeIgnoresChannel | synth.js:388-389 | A message moved to any channel keeps its command and decodes to the same message: the channel nibble selects nothing. |
| Midi.ShortMessagesNeverStartNotes | synth.js:391-403 | A message under three bytes never starts a note; command 9 then means note-off. |
| Mapping.MapRange | synth.js:266-270 | For an increasing input range: inMin or below gives outMin, inMax or above gives outMax, and every result lies between outMin and outMax. A reversed input range always gives outMin. |
| Mapping.MapRangeMonotone | synth.js:266-270 | With increasing ranges, a larger input never maps lower. |
| Mapping.MidiScaleWithin | synth.js:423 | A MIDI value mapped from 0..127 onto [0, top] stays in [0, top] and hits both ends: velocity gain is in [0,1], CC 7 volume in [0,1], CC 71 resonance in [0,30]. |
| Modulation.ScaledDepth | synth.js:131-141 | The scaled depth is 0 exactly for no target or depth 0. It is non-negative for a non-negative depth, positive for a positive depth on a real target, and equal to the depth for amplitude. |
| Modulation.EffectiveDepth | synth.js:143-150 | A paused LFO drives its depth gain to 0; otherwise it uses the scaled depth. A non-zero value implies unpaused, a target and a non-zero depth. |
| Modulation.ScaledDepthIsLinear | synth.js:134-139 | For every depth and target, the scaled depth is the depth times the target's factor: 1200 cents for pitch, 5000 Hz for filter, 1 for amplitude and 0 for no target. |
| ControlChange.ApplyControlChange | synth.js:506-543 | CC 7 changes only the master volume, to value/127 capped at 1. CC 74 changes only the cutoff, to the exponential curve. CC 71 changes only the resonance, to value*30/127 capped at 30. Any other controller, or a missing one, changes nothing. |
| AudioGraph.Resolve | synth.js:184-191 | A connection is found exactly when the parameter name matches the node kind (detune/oscillator, frequency/filter, gain/gain node), and it names that node. |
| Keyboard.KeyNotesArePlayable | synth.js:242-257 | Every computer key maps to a note that `noteFrequencies` knows. |
| Keyboard.MidiOfName | synth.js:573-574 | The MIDI number of the first key showing the name, or none exactly when no key shows it. |
| Keyboard.NameOfMidi | synth.js:547-554 | The name of the first key with that MIDI number, or none exactly when no key has it. |
| Keyboard.FindNoteNameFromMidi | synth.js:547-554 | The loop over the keys returns what `NameOfMidi` specifies. |
| Keyboard.ToLowerAscii | synth.js:963 | Same length; each letter A-Z becomes its lower-case form and every other character is kept. |
| Settings.GatherLfos | synth.js:694-702 | One complete entry per LFO, in order. |
| Settings.Gather | synth.js:686-704 | A record with no missing field and one LFO entry per LFO. |
| Settings.ApplyLfo | synth.js:740-743 | Each field stored in an entry is taken as it is. A complete entry gives back exactly the controls it records. |
| Settings.ApplyLfos | synth.js:737-762 | One LFO control set per stored entry. |
| Settings.Apply | synth.js:718-765 | The LFO count is kept. LFO controls are left alone unless there is exactly one entry per LFO. |
| Settings.ApplyLfosAt | synth.js:737-740 | Entry `i` of the applied list comes from stored entry `i`. |
| Settings.LfoRoundTrip | synth.js:694-748 | Applying the gathered LFO entries gives back the same LFO controls. |
| Settings.SnapshotTransfer | synth.js:686-765 | A snapshot of controls `d` applied to controls with as many LFOs yields exactly `d`. |
| Settings.SnapshotRoundTrip | synth.js:686-765 | `applySettings(gatherSettings())` leaves every global and per-LFO control as it was. |
| Settings.ApplyIdempotent | synth.js:718-765 | Applying a record twice is applying it once. |
| Settings.EmptyRecordDefaults | synth.js:724-727 | An empty record resets the globals to 0.7, sine, 5000 and 1 and leaves the LFOs alone. |
| Settings.EmptyLfoEntryDefaults | synth.js:741-744 | An empty LFO entry gives rate 5, depth 0, sine and no target. |
| Orchestrator.StopNote | synth.js:636-682 | A stop either leaves the bookkeeping as it was or silences it, and on consistent bookkeeping it always ends silent. |
| Orchestrator.MouseUpGuardAsWritten | synth.js:945-955 | The guard as written silences a sounding note only when it has a name and no MIDI number. Whatever it changes, it leaves with no note name and no MIDI number. |
| Orchestrator.MouseUpGuard | synth.js:945-955 | The corrected guard silences a sounding note exactly when it has a name and MIDI did not start it. Whatever it changes, it leaves with no note name and no MIDI number. |
| Orchestrator.Step | synth.js:420-986 | The note bookkeeping after one event of any handler. Only a note-on can leave sounding a voice that was not sounding before. A MIDI note always takes over. A known name always ends up sounding, whether it is new or retriggered, and an unknown name changes nothing. |
| Orchestrator.Run | synth.js:420-986 | The bookkeeping after a sequence of events. A sounding voice that differs from the start was put there by some note-on in the sequence. |
| Orchestrator.StepConsistent | synth.js:420-682 | Every input event keeps the bookkeeping consistent: no identity without a voice, and a voice knows its note. |
| Orchestrator.RunConsistent | synth.js:420-682 | The same holds after any sequence of events. |
| Orchestrator.StopIdempotent | synth.js:636-637 | Stopping twice is stopping once. |
| Orchestrator.MidiNoteOffMatches | synth.js:488-495 | A MIDI note-off silences the voice exactly when a voice exists and its number is the tracked MIDI note; otherwise nothing changes. |
| Orchestrator.KeyReleaseMatches | synth.js:891-896 | A key release silences exactly when that key's note is the active one. |
| Orchestrator.UiNoteOnSteals | synth.js:570-581 | A known note that is not already sounding always takes over, tracking its name and its key's MIDI number. |
| Orchestrator.UiNoteOnNoRetrigger | synth.js:577 | Playing the sounding note's name again changes nothing. |
| Orchestrator.GlobalMouseUpCleanupUnreachable | synth.js:945-955 | On consistent bookkeeping the listener's clean-up branch never changes anything, under either guard. |
| Orchestrator.GlobalMouseUpAsWrittenKeepsKeyNote | synth.js:947 | As written, a note started from an on-screen key survives a mouse release outside the key. |
| Orchestrator.GlobalMouseUpStopsUiNotes | synth.js:945-955 | Corrected: a global mouse release stops every note that MIDI did not start, and leaves MIDI notes alone. |
| Orchestrator.OtherEventsKeepOrSilence | synth.js:488-986 | Any event that `Step` does not take as a new note either leaves a sounding note exactly as it is or silences it. Such events are a MIDI note-off, a retriggered or unknown name, a key release or leave, the global mouseup and the key-up handler. |
| Orchestrator.SoundingNoteWasStarted | synth.js:420-682 | Last-note priority. Starting from silence, whatever sounds was started by an event `k` that `Step` took as a new note. No later event was taken as a new note. |
| Lfo.LFO.constructor | synth.js:56-84 | A new LFO is unpaused and unconnected, with its depth gain at 0 and its oscillator at the rate and waveform controls. |
| Lfo.LFO.TogglePause | synth.js:95-114 | Flips the pause flag. Pausing drives the depth gain to 0; resuming restores the scaled depth. |
| Lfo.LFO.UpdateRate | synth.js:116-120 | The LFO oscillator's frequency follows the rate control. |
| Lfo.LFO.UpdateWaveform | synth.js:122-125 | The LFO oscillator's shape follows the waveform control. |
| Lfo.LFO.UpdateDepthGain | synth.js:127-150 | The depth gain becomes the effective depth: 0 while paused, the scaled depth otherwise. |
| Lfo.LFO.TargetInput | synth.js:89 | The target control changes and nothing else does. The connections are emptied and the depth is recomputed. Every oscillator it was detuning is back to 0 cents and every gain it was modulating is back to 1. |
| Lfo.LFO.HandleTargetChange | synth.js:152-166 | No connection is left and nothing is re-attached. The depth is recomputed, and the parameters of the old connections are reset to neutral. |
| Lfo.LFO.Connect | synth.js:169-205 | Target none or depth 0: no connection remains, the depth gain is untouched and the old parameters are reset. Otherwise: the depth is recomputed and exactly the resolved connection is appended, or none on a kind mismatch, and nothing is reset. |
| Lfo.LFO.Restore | synth.js:738-761 | The controls take the entry and the oscillator follows, and the LFO ends unpaused. The depth gain uses the pause flag from before the call. |
| Lfo.LFO.Rebind | synth.js:455-471 | An unconnected LFO ends with exactly `Routing` of its controls. The depth is recomputed unless the LFO is inert. |
| Lfo.LFO.Disconnect | synth.js:207-237 | No connection remains. Every detune it held is at 0 and every gain it held is at 1; a filter frequency is not written. |
| Lfo.Routing | synth.js:455-471 | At most one connection, none exactly for target none or depth 0. It is the tremolo gain exactly for amplitude with non-zero depth, and always on the given voice or the tremolo gain. |
| Lfo.KnobsOf | synth.js:694-702 | The LFOs' controls, one per LFO, in order. |
| Engine.Synth.constructor | synth.js:273-329 | The invariant holds. The controls are the panel's, nothing sounds and no LFO is connected. Master gain is at the volume and tremolo gain at 1. The master gain, the tremolo gain and both LFOs are fresh objects. Both LFOs are unpaused, with depth 0. |
| Engine.Synth.NoteOff | synth.js:636-682 | Invariant kept. The bookkeeping ends silent, as `Orchestrator.StopNote` says, with no voice and no LFO connection. A sounding voice has its VCA ramped to 0 and its stop scheduled. Without a voice nothing changes, so a second stop is a no-op. |
| Engine.Synth.DisconnectLfos | synth.js:665-667 | Every LFO ends unconnected and within the invariant. The voice's detune is at 0 if some LFO was detuning it. The tremolo gain is at 1 if some LFO was modulating it, and untouched otherwise. |
| Engine.Synth.RebindLfos | synth.js:455-476 | Each LFO holds exactly `Routing` of its controls on this voice and its depth is recomputed unless inert. The tremolo gain is forced to 1 exactly when no LFO targets amplitude with a positive depth. |
| Engine.Synth.BuildVoice | synth.js:431-445 | Three fresh nodes: the oscillator at the requested frequency with the selected waveform, not yet started; the filter at the cutoff and resonance controls; the VCA at the requested gain. |
| Engine.Synth.StartVoice | synth.js:426-484 | The invariant is re-established and the new note is tracked. There is a started fresh voice built from the controls, and every LFO is routed onto it as `RebindLfos` states. |
| Engine.Synth.NoteOn | synth.js:570-634 | Invariant kept; the bookkeeping moves as `Step` says for a note-on. An unknown name or a retrigger changes no field of the synth, voice node, LFO or tremolo gain. Otherwise: the old voice has its VCA at 0 and its stop scheduled. A fresh oscillator, filter and VCA sound the name's frequency with the selected waveform, the cutoff and resonance controls and full gain, and the oscillator is started at detune 0. The LFOs are routed onto the voice with their depths recomputed, and the tremolo gain is 1 unless some LFO modulates amplitude. |
| Engine.Synth.MidiNoteOn | synth.js:420-486 | Invariant kept; the bookkeeping moves as `Step` says. The old voice always stops, with its VCA at 0 and its stop scheduled. A fresh oscillator, filter and VCA sound the note's frequency with the selected waveform and the cutoff and resonance controls. The VCA's gain is the mapped velocity, within [0,1]. The LFOs are routed with their depths recomputed, and the tremolo gain is 1 unless some LFO modulates amplitude. |
| Engine.Synth.MidiNoteOff | synth.js:488-495 | Invariant kept; the bookkeeping moves as `Step` says. A note that does not match changes no field of the synth, voice node, LFO or tremolo gain. A note that stops the voice leaves its VCA at 0 and its stop scheduled. |
| Engine.Synth.HandleMIDIControlChange | synth.js:499-544 | Invariant and bookkeeping kept. The controls change as `ApplyControlChange` says. CC 7 moves the master gain, and CC 74 and 71 move the sounding filter's cutoff and Q. |
| Engine.Synth.HandleMIDIMessage | synth.js:387-417 | Invariant kept. The bookkeeping follows `Step` for the decoded note-on or note-off. A note-on always stops the old voice, with its VCA at 0 and its stop scheduled. It sounds a fresh voice at the note's frequency, with the mapped velocity as gain and LFO routing and depths as for `MidiNoteOn`. A note-off that does not match changes nothing, and one that matches stops the voice. A control change moves the controls as `ApplyControlChange` says and the master gain and sounding filter as `HandleMIDIControlChange` does. It keeps the voice's nodes, its oscillator and VCA, the tremolo gain and every LFO unchanged. Any other message leaves the volume, cutoff, resonance and master gain as they were, and an ignored command changes nothing at all. |
| Engine.Synth.KeyRelease | synth.js:891-923 | Invariant kept; the bookkeeping follows `Step`. The voice stops, with its VCA at 0 and its stop scheduled, exactly when this key's note was the active one. Otherwise no field of the synth, voice node, LFO or tremolo gain changes. |
| Engine.Synth.KeyLeave | synth.js:899-904 | Invariant kept; the bookkeeping follows `Step`. With a button held the bookkeeping is kept, and whenever it is kept nothing else changes either. A stop leaves the VCA at 0 and the stop scheduled. |
| Engine.Synth.GlobalMouseUp | synth.js:945-955 | Invariant kept; the bookkeeping follows the corrected guard. A note that MIDI did not start is stopped, with its VCA at 0 and its stop scheduled. A MIDI note leaves every field of the synth, voice node, LFO and tremolo gain as it was. |
| Engine.Synth.KeyDown | synth.js:957-969 | Invariant kept. Repeats, modifier chords, typing in a form field, unmapped keys and a retrigger change no field of the synth, voice node, LFO or tremolo gain. Otherwise the mapped note sounds as `NoteOn` sounds it. A fresh oscillator plays the note's frequency with the selected waveform, and the fresh filter has the cutoff and resonance controls. The fresh VCA is at gain 1, the LFOs are routed with their depths recomputed, and the tremolo gain is 1 unless amplitude is modulated. A voice it replaces has its VCA at 0 and its stop scheduled. |
| Engine.Synth.KeyUp | synth.js:971-986 | Invariant kept. Modifier chords, form fields and unmapped keys change nothing, and neither does a key whose note is not active. Otherwise it stops the mapped note, with the VCA at 0 and the stop scheduled. |
| Engine.Synth.LfoRateInput | synth.js:86 | Invariant kept. Only that LFO's rate control changes, and its oscillator follows. |
| Engine.Synth.LfoDepthInput | synth.js:87 | Invariant kept. Only that LFO's depth control changes, its depth gain becomes the effective depth at once, and its connections stay. |
| Engine.Synth.LfoWaveformChange | synth.js:88 | Invariant kept. Only that LFO's waveform control changes, and its oscillator follows. |
| Engine.Synth.LfoTargetChange | synth.js:89 | Invariant kept. Only that LFO's target control changes, it ends unconnected, and its depth gain is the effective depth for the new target. |
| Engine.Synth.LfoPauseClick | synth.js:90-91 | Invariant kept. The pause flag flips, and the depth gain goes to 0 when pausing and back to the scaled depth when resuming. |
| Engine.Synth.GatherSettings | synth.js:686-704 | A complete record with one entry per LFO, which applied back gives the current controls. |
| Engine.Synth.ApplySettings | synth.js:718-765 | Invariant kept. The controls become `Settings.Apply` of the old controls and the record, and the master gain follows the volume whenever a record is given. With one entry per LFO, each LFO oscillator follows its controls and every LFO is unpaused, with its depth gain computed from the old pause flag. Otherwise no LFO field changes. |
| Engine.Synth.RestoreGlobals | synth.js:723-732 | Each global control takes the stored value or its default, and the master gain follows the volume. |
| Engine.Synth.RestoreLfos | synth.js:736-762 | Invariant kept and the LFO controls become the applied entries. Each oscillator follows its controls and every LFO is unpaused, its depth gain computed with the old pause flag. |

## Left out

- Audio timing: ramp durations, `currentTime`, `cancelScheduledValues`, oscillator
  `start`/`stop` times and the `playbackState` checks. Each parameter is its last
  scheduled target.
- The audio signal path: `connect` calls between nodes, the analyser and the
  destination. Only the LFO connections that the program tracks are modelled.
- `midiNoteToFrequency` and the CC 74 exponential curve use `Math.pow`. They are
  parameters of the `Synth` (`midiToHz`, `cutoffCurve`) and are not interpreted.
- Floating point: controls and parameters are `real`, so no rounding is modelled.
  Slider values are numbers, so `parseFloat` of the string and the clamping and
  stepping an HTML range input applies on assignment are not modelled.
- Platform I/O is not modelled: Web MIDI access and hot-plug, `localStorage`, file
  export/import and JSON parsing. A parsed record is a `SettingsRecord` whose fields
  may each be missing.
- The behaviour before the audio context starts is not modelled. This includes
  `applySettings` at page load, while the LFO list is still empty.
- Key highlighting (`updateKeyVisual`), the oscilloscope, console logging and the
  `try`/`catch` around node calls, which never throw in the model.
- The master volume, oscillator waveform and filter slider listeners
  (synth.js:848-881) are not part of this model. They only forward a slider to a
  node parameter and are outside the note and LFO core.
- `LFO.connect`'s `!targetNode` guard is not modelled: every caller passes an
  existing node.
- The rebinding `switch`'s `default` case is not modelled, because a `Target` has
  only four values.
- Keyboard.ToLowerAscii: only A-Z are lowered. JavaScript's `toLowerCase` also maps
  other characters, for example U+212A KELVIN SIGN to `k`, which would play C5.
- Every on-screen key is assumed to carry a numeric `data-midi`, since `Key.midi` is an
  integer. A key without one gives `NaN` from `parseInt` (synth.js:549, 575), and `NaN`
  equals no note number. Such a key is then never found by its number, and once played
  from the screen its note cannot be stopped by a MIDI note-off (synth.js:489).
- The keydown handler's three modifier flags (`ctrlKey`, `altKey`, `metaKey`) are
  one boolean. The focused-element test is another.
- Engine.Synth.NoteOff: its contract does not restate which parameters the LFO
  disconnection resets. `Engine.Synth.DisconnectLfos` states that reset.
- Engine.Synth.LfoTargetChange: the reset of the parameters the LFO was modulating
  is stated on `Lfo.LFO.TargetInput`, not repeated here.
- Engine.Synth.HandleMIDIMessage: for a message other than a control change, only
  the volume, cutoff, resonance and master gain are stated as unchanged. The LFO
  controls and the oscillator waveform are outside the method's `modifies` clause,
  so the frame already keeps them.
- Engine.Synth.NoteOn: that the controls are untouched follows from the `modifies`
  clause and is not repeated as an `ensures`. The same holds for the other note and
  key handlers and for `LfoPauseClick`.

## Findings

| source | as written | input that shows it | evidently intended | confidence | as-written member | corrected member |
|---|---|---|---|---|---|---|
| synth.js:947 | The global mouseup stops the note only when `activeMIDINote === null`. `noteOn` sets `activeMIDINote` from the key's `data-midi` (synth.js:573-581), so a note from an on-screen key never has a null MIDI number. | Press the on-screen C4 key (with a `data-midi` number), then release the button outside it. The note keeps sounding. | Per the listener's own comment, stop every note that MIDI did not start. | high on the reading of the code; not executed | Orchestrator.MouseUpGuardAsWritten (counterexample: Orchestrator.GlobalMouseUpAsWrittenKeepsKeyNote) | Orchestrator.MouseUpGuard (proved: Orchestrator.GlobalMouseUpStopsUiNotes; used by Engine.Synth.GlobalMouseUp) |
