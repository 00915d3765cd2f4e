# BeOS MIDI driver: voice bookkeeping model

A Dafny model of the BeOS MIDI driver of Allegro (`src/beos/bmidiapi.cpp`).
The driver keeps three 17-slot tables (`cur_patch`, `cur_note`, `cur_vol`:
the program last sent to each voice and the note and velocity of its last
note-on; slot 10 is the percussion channel) and reads and writes the
reserved voice range `xmin`..`xmax` of its driver record, which the shared
voice allocator consults. Each entry point is modelled as a pure function
from the state and its arguments to the new state and the commands it
passes to the BMidiSynth object, as a sequence of `Command` values
(`ProgramChange`, `PitchBend`, `ControlChange(Pan)`, `NoteOn`, `NoteOff`,
`ChannelPressure`).

The voice allocator `_midi_allocate_voice(min, max)` is a parameter: a
function from a `Request` (the range asked for together with the reserved
range in force during the call) to an int, negative for "no voice". The
driver indexes the tables with the melodic answer unchecked, so key-on
requires that answer to be below 17.

Files:
- `optional.dfy`: module `Optional`, a value that may be absent.
- `commands.dfy`: the command log, the pitch-bend split and its inverse,
  and "last command of this kind on this channel" queries over a log.
- `voices.dfy`: the tables and `be_midi_key_on`, `be_midi_key_off`,
  `be_midi_set_pitch`, `be_midi_set_pan`, `be_midi_set_volume`.
- `trace.dfy`: runs of calls and the invariants that tie the tables to the
  log: each slot holds the last program and last note-on sent to its voice,
  so a key-off always matches the last note-on. No program change is ever
  redundant. The reserved range is (10, 10) once a percussion key-on has
  happened.
- `lifecycle.dfy`: `be_midi_detect`, `be_midi_init`, `be_midi_exit`, the
  `MID` clamping of the settings, and the description labels.

Three points where the code's behaviour is easy to misread:
- After a percussion key-on the code sets the reserved range to (10, 10),
  and it does so on the failure path too. It does not put back a 1..16
  range, and it does not restore whatever range was there before. So the
  range after a run equals the range before only when the driver started
  with (10, 10). The driver record's initial value is not part of this
  model, so `Voices.Initial` takes it as a parameter.
- `cur_patch` is static storage and so starts at 0, not at a -1 sentinel.
  A melodic key-on of instrument 0 on a fresh voice therefore sends no
  program change.
- A percussion key-on writes `inst - 128` (not `note`) into slot 10. It
  writes slot 10 whichever voice the allocator granted. It pans the granted
  voice but sends the note-on to channel 10.

## Model

| member | source | states |
|---|---|---|
| Commands.SplitBend | src/beos/bmidiapi.cpp:227 | the low half is in 0..127 and `msb*128 + lsb` is the bend value; the high half is in 0..127 exactly when the bend is a 14-bit value |
| Commands.JoinSplitBend | src/beos/bmidiapi.cpp:227 | joining the two halves gives back any bend value |
| Commands.SplitJoinBend | src/beos/bmidiapi.cpp:227 | splitting a joined pair gives back the pair whenever its low half is 7 bits |
| Voices.Initial | src/beos/bmidiapi.cpp:29-31 | the tables start with 17 slots, all zero |
| Voices.SetPan | src/beos/bmidiapi.cpp:235-238 | one pan controller change on the voice, tables untouched |
| Voices.SetVolume | src/beos/bmidiapi.cpp:213-217 | the volume is sent as one channel-pressure message on the voice, tables untouched |
| Voices.SetPitch | src/beos/bmidiapi.cpp:224-228 | one pitch bend on the voice whose halves are 7-bit low part and the rest of the bend value; the note argument has no effect; tables untouched |
| Voices.KeyOff | src/beos/bmidiapi.cpp:203-206 | exactly one note-off on the voice carrying the recorded note and velocity of that voice; tables untouched |
| Voices.Percussion | src/beos/bmidiapi.cpp:165-179 | reserved range becomes (10, 10) on every path and the program table never changes; on failure nothing is sent and nothing recorded; on success slot 10 gets `inst - 128` and the velocity, then pan on the granted voice and note-on on channel 10 |
| Voices.Melodic | src/beos/bmidiapi.cpp:180-195 | on failure nothing changes; on success exactly the voice's three slots change; one program change, first, exactly when the recorded program differs; then a pitch bend whose low half is 7 bits and which recombines to the bend value, pan and note-on, all on that voice |
| Voices.KeyOn | src/beos/bmidiapi.cpp:161-196 | instruments above 127 leave the reserved range at (10, 10), others keep it; a negative allocator answer sends nothing and leaves all three tables as they were |
| Voices.KeyOnRouting | src/beos/bmidiapi.cpp:165-182 | a key-on depends on the allocator only through its answer to (1, 16) with the current reservation for instruments up to 127, and to (10, 10) with no reservation for instruments from 128 |
| Voices.MelodicKeyOn | src/beos/bmidiapi.cpp:182-194 | a successful melodic key-on records the instrument, note and velocity in the granted voice's slots and changes nothing else, and ends with the 7-bit split of the bend, the pan and `NoteOn(voice, note, vol)` on that voice |
| Voices.PercussionKeyOn | src/beos/bmidiapi.cpp:165-179 | a successful percussion key-on sends pan to the granted voice then note-on of sound `inst - 128` on channel 10, and changes only slot 10 of the note and volume tables and the reserved range |
| Voices.MelodicProgramChange | src/beos/bmidiapi.cpp:185-188 | after a melodic key-on the voice's program is `inst`; a program change for it is sent if and only if the recorded program differed; at most one is sent |
| Voices.RepeatedKeyOnOneProgramChange | src/beos/bmidiapi.cpp:185-188 | two key-ons of the same instrument granted the same voice send at most one program change, and the second sends none |
| Trace.Run | src/beos/bmidiapi.cpp:29-31 | any sequence of well-formed calls keeps all three tables at 17 slots |
| Trace.PercussionTracks | src/beos/bmidiapi.cpp:175-178 | after a percussion key-on every slot agrees with the last program and note-on that key-on sent to its voice |
| Trace.MelodicTracks | src/beos/bmidiapi.cpp:185-194 | after a melodic key-on every slot agrees with the last program and note-on that key-on sent to its voice |
| Trace.ApplyTracks | src/beos/bmidiapi.cpp:161-238 | every single entry point keeps every slot in agreement with what it sends |
| Trace.RunTracks | src/beos/bmidiapi.cpp:185-191 | after any run, each voice's program slot is the last program sent to it and its note and volume slots are the last note-on sent to it (initial values when none was sent) |
| Trace.KeyOffMatchesLastNoteOn | src/beos/bmidiapi.cpp:203-206 | after any run, key-off on a voice sends the note and velocity of the last note-on that voice received |
| Trace.ApplyProgramChange | src/beos/bmidiapi.cpp:185-188 | a call sends a program change only as its first command, for a real voice, and only to a different program than the voice held |
| Trace.RunNeverRepeatsProgram | src/beos/bmidiapi.cpp:185-188 | no run ever sends a program change that repeats the program its voice last had |
| Trace.RunReserved | src/beos/bmidiapi.cpp:169-171 | after any run the reserved range is (10, 10) if the run contained a percussion key-on, and the starting range otherwise |
| Lifecycle.Mid | src/beos/bmidiapi.cpp:75 | the setting clamped into the given bounds: unchanged inside, the nearer bound outside |
| Lifecycle.Detect | src/beos/bmidiapi.cpp:38-46 | succeeds exactly for output, and reports input as unsupported |
| Lifecycle.InterpolationFor | src/beos/bmidiapi.cpp:107-119 | setting 0 gives drop-sample with an empty label, 1 two-point with "fast", 2 linear with "linear"; any other value keeps two-point with an empty label |
| Lifecycle.InterpolationLabelsDistinct | src/beos/bmidiapi.cpp:105-119 | within the clamped range 0..2, different settings give different labels and different modes |
| Lifecycle.TruncDiv | src/beos/bmidiapi.cpp:125 | the kHz figure is the sampling rate divided by 1000 rounding toward zero |
| Lifecycle.Init | src/beos/bmidiapi.cpp:53-129 | status is 0 or -1 and 0 exactly without error; input fails before any host call with the handle untouched; a synth that cannot be made gives "not enough memory" with no host call; data that cannot be loaded gives "cannot load instruments" after the one load call; both leave a null handle; the big synth is loaded exactly for quality settings from 1; on success input is enabled and the instrument cache flushed next; then reverb is set to the setting clamped to 5 and then enabled for positive settings, and switched off otherwise; then the rate is set, unclamped; only modes 1..5 are ever passed to SetReverb; the interpolation is set last per the clamped setting; and the description holds "high"/"low", the clamped reverb name, the interpolation label ("" up to 0, "fast" for 1, "linear" from 2) and the reported rate in kHz rounded toward zero |
| Lifecycle.Exit | src/beos/bmidiapi.cpp:136-143 | the handle ends null; an open synth gets exactly one non-abrupt all-notes-off, a null one no call |
| Lifecycle.ExitIdempotent | src/beos/bmidiapi.cpp:136-143 | a second shut-down makes no host call |
| Lifecycle.FailedInitLeavesNothing | src/beos/bmidiapi.cpp:80-86 | after a failed start-up for output, shutting down makes no host call |
| Lifecycle.DetectAgreesWithInit | src/beos/bmidiapi.cpp:40-43 | detection refuses input exactly when start-up refuses it |
| Lifecycle.DefaultInit | src/beos/bmidiapi.cpp:75-120 | with default settings: big synth, reverb off, 22050 Hz, two-point interpolation, description "high"/"fast"/"no" |

## Left out

- be_midi_mixer_volume: the gain is the floating-point `volume / 255.0`; floating point is not modelled.
- The BMidiSynth and BSynth calls are entries of a host-call log, and their answers are the fields of `Host`. That includes whether the object could be made, the two load checks and the reported sampling rate. Sound output is not modelled.
- The internals of `_midi_allocate_voice` and the initial value of the driver record's `xmin`/`xmax` are defined elsewhere and are not part of this model. The allocator is a parameter and the initial range is an argument.
- Error messages (`allegro_error`, `get_config_text`) are reduced to an `InitError` value. The formatted description string is reduced to its four parts.
- `get_config_int` is configuration I/O; the raw setting values are inputs (`Config`, with `DEFAULT_CONFIG` for absent keys).
- The `MID` macro is defined outside this file; it is modelled as `MAX(lo, MIN(v, hi))`.
- The `B_NOW` timing argument, the unused `voices` argument of be_midi_init and the unused `input` argument of be_midi_exit are dropped.
- The voice entry points dereference the synth handle without checking it; calling them with a null handle is undefined and not modelled, so they do not take the handle.
- Voices.SetPitch: `bend >> 7` on a negative int is taken as an arithmetic shift (floor division by 128), which C++ before C++20 leaves to the implementation.
- The command and host-call logs record the driver's int arguments as the driver computes them. The synth's methods take `uchar` parameters, and that conversion to 8 bits is not modelled. So for a bend of 0x4000 or more the log shows a high half of 128 or more, while the synth receives it modulo 256. The synth's header is not part of this model.
- Ints are unbounded in the model; the source's 32-bit `int` arguments are never combined in ways that could overflow except `inst - 128`, which cannot overflow for `inst > 127`.
