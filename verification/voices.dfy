/**
 The per-voice bookkeeping of the BeOS MIDI driver: three 17-slot tables
 holding, per voice, the program last sent, and the note and velocity of the
 last note-on (slot 10 is the percussion channel), together with the
 reserved voice range (`xmin`..`xmax`) of the driver record that the shared
 voice allocator reads. Every entry point is a pure function from the state
 and its arguments to the new state and the synth commands it emits.
 */
module Voices {

  import opened Commands

  /** Number of slots in each table: voices 0..16. */
  const SLOTS: int := 17
  /** The channel percussion notes are always played on. */
  const PERCUSSION: int := 10
  /** Instruments above this are percussion sounds, offset by 128. */
  const LAST_MELODIC: int := 127

  /** An inclusive voice range; (-1, -1) means "none". */
  datatype Range = Range(min: int, max: int)

  /**
   What the allocator `_midi_allocate_voice(min, max)` sees when it is
   called: the range it is asked for and the reserved range in force.
   */
  datatype Request = Request(wanted: Range, reserved: Range)

  /** The allocator: a voice index, or a negative value when none is free. */
  type Allocator = Request -> int

  datatype State = State(patch: seq<int>, note: seq<int>, vol: seq<int>, reserved: Range) {

    predicate Valid() {
      |patch| == SLOTS && |note| == SLOTS && |vol| == SLOTS
    }
  }

  /** The state after an entry point, and the commands it emitted in order. */
  datatype Step = Step(st: State, cmds: seq<Command>)

  /** The driver's tables before the first call: static storage, all zero. */
  function Initial(reserved: Range): (s: State)
    ensures s.Valid() && s.reserved == reserved
    ensures forall v :: 0 <= v < SLOTS ==> s.patch[v] == 0 && s.note[v] == 0 && s.vol[v] == 0
  {
    State(seq(SLOTS, _ => 0), seq(SLOTS, _ => 0), seq(SLOTS, _ => 0), reserved)
  }

  /** be_midi_set_pan: one pan controller change on the voice. */
  function SetPan(st: State, voice: int, pan: int): (r: Step)
    ensures r.st == st
    ensures r.cmds == [ControlChange(voice, Pan, pan)]
  {
    Step(st, [ControlChange(voice, Pan, pan)])
  }

  /** be_midi_set_volume: the volume is forwarded as channel pressure. */
  function SetVolume(st: State, voice: int, vol: int): (r: Step)
    ensures r.st == st
    ensures r.cmds == [ChannelPressure(voice, vol)]
  {
    Step(st, [ChannelPressure(voice, vol)])
  }

  /**
   be_midi_set_pitch: the note argument is ignored; the bend value goes out
   as one pitch bend whose halves are the low seven bits and the rest.
   */
  function SetPitch(st: State, voice: int, note: int, bend: int): (r: Step)
    ensures r.st == st
    ensures |r.cmds| == 1 && r.cmds[0].PitchBend? && r.cmds[0].channel == voice
    ensures 0 <= r.cmds[0].lsb < 128
    ensures r.cmds[0].msb * 128 + r.cmds[0].lsb == bend
  {
    var b := SplitBend(bend);
    Step(st, [PitchBend(voice, b.lsb, b.msb)])
  }

  /**
   be_midi_key_off: a note-off on the voice, with the note and velocity the
   tables recorded for it, whatever they are.
   */
  function KeyOff(st: State, voice: int): (r: Step)
    requires st.Valid() && 0 <= voice < SLOTS
    ensures r.st == st
    ensures r.cmds == [NoteOff(voice, st.note[voice], st.vol[voice])]
  {
    Step(st, [NoteOff(voice, st.note[voice], st.vol[voice])])
  }

  /**
   The percussion half of be_midi_key_on once the allocator has answered:
   the reserved range is left at (10, 10) whatever the answer; on success
   slot 10 records the sound index and velocity, the pan goes to the granted
   voice and the note-on to channel 10.
   */
  function Percussion(st: State, inst: int, vol: int, pan: int, voice: int): (r: Step)
    requires st.Valid() && inst > LAST_MELODIC
    ensures r.st.Valid()
    ensures r.st.reserved == Range(PERCUSSION, PERCUSSION)
    ensures r.st.patch == st.patch
    ensures voice < 0 ==> r.cmds == [] && r.st.note == st.note && r.st.vol == st.vol
    ensures voice >= 0 ==>
      && r.st.note == st.note[PERCUSSION := inst - 128]
      && r.st.vol == st.vol[PERCUSSION := vol]
      && r.cmds == [ControlChange(voice, Pan, pan), NoteOn(PERCUSSION, inst - 128, vol)]
  {
    var narrowed := st.(reserved := Range(PERCUSSION, PERCUSSION));
    if voice < 0 then Step(narrowed, [])
    else
      var recorded := narrowed.(note := st.note[PERCUSSION := inst - 128],
                                vol := st.vol[PERCUSSION := vol]);
      var panned := SetPan(recorded, voice, pan);
      Step(recorded, panned.cmds + [NoteOn(PERCUSSION, inst - 128, vol)])
  }

  /**
   The melodic half of be_midi_key_on once the allocator has answered: on
   success a program change goes out only when the voice's recorded program
   differs, then the bend, the pan and the note-on, and exactly the voice's
   own slots change.
   */
  function Melodic(st: State, inst: int, note: int, bend: int, vol: int, pan: int, voice: int): (r: Step)
    requires st.Valid() && inst <= LAST_MELODIC && voice < SLOTS
    ensures r.st.Valid()
    ensures r.st.reserved == st.reserved
    ensures voice < 0 ==> r.st == st && r.cmds == []
    ensures voice >= 0 ==>
      && r.st.patch == st.patch[voice := inst]
      && r.st.note == st.note[voice := note]
      && r.st.vol == st.vol[voice := vol]
      && ProgramChanges(r.cmds) == (if st.patch[voice] != inst then 1 else 0)
      && (st.patch[voice] != inst ==> r.cmds[0] == ProgramChange(voice, inst))
      && (forall j :: 0 < j < |r.cmds| ==> !r.cmds[j].ProgramChange?)
      && (forall j :: 0 <= j < |r.cmds| ==> r.cmds[j].channel == voice)
      && |r.cmds| == 3 + ProgramChanges(r.cmds)
      && r.cmds[|r.cmds| - 3].PitchBend? && r.cmds[|r.cmds| - 3].channel == voice
      && 0 <= r.cmds[|r.cmds| - 3].lsb < 128
      && JoinBend(BendBytes(r.cmds[|r.cmds| - 3].lsb, r.cmds[|r.cmds| - 3].msb)) == bend
      && r.cmds[|r.cmds| - 2] == ControlChange(voice, Pan, pan)
      && r.cmds[|r.cmds| - 1] == NoteOn(voice, note, vol)
  {
    if voice < 0 then Step(st, [])
    else
      var program := if inst != st.patch[voice] then [ProgramChange(voice, inst)] else [];
      var recorded := st.(patch := st.patch[voice := inst],
                          note := st.note[voice := note],
                          vol := st.vol[voice := vol]);
      var pitch := SetPitch(recorded, voice, note, bend);
      var panned := SetPan(recorded, voice, pan);
      var cmds := program + pitch.cmds + panned.cmds + [NoteOn(voice, note, vol)];
      assert ProgramChanges(cmds) == ProgramChanges(program) by {
        ProgramChangesAppend(program, pitch.cmds + panned.cmds + [NoteOn(voice, note, vol)]);
        assert cmds == program + (pitch.cmds + panned.cmds + [NoteOn(voice, note, vol)]);
      }
      Step(recorded, cmds)
  }

  /** The allocator request of a key-on: percussion asks for channel 10 alone with nothing reserved. */
  function KeyOnRequest(st: State, inst: int): Request {
    if inst > LAST_MELODIC then Request(Range(PERCUSSION, PERCUSSION), Range(-1, -1))
    else Request(Range(1, 16), st.reserved)
  }

  /**
   be_midi_key_on. Instruments up to 127 are melodic and ask the allocator
   for a voice in 1..16 under the current reserved range; instruments from
   128 are percussion and ask for voice 10 with the reservation lifted. The
   tables are indexed with the melodic answer unchecked, hence the
   precondition.
   */
  function KeyOn(st: State, inst: int, note: int, bend: int, vol: int, pan: int, alloc: Allocator): (r: Step)
    requires st.Valid()
    requires inst <= LAST_MELODIC ==> alloc(Request(Range(1, 16), st.reserved)) < SLOTS
    ensures r.st.Valid()
    ensures r.st.reserved == if inst > LAST_MELODIC then Range(PERCUSSION, PERCUSSION) else st.reserved
    ensures alloc(KeyOnRequest(st, inst)) < 0 ==>
      r.cmds == [] && r.st.patch == st.patch && r.st.note == st.note && r.st.vol == st.vol
  {
    var voice := alloc(KeyOnRequest(st, inst));
    if inst > LAST_MELODIC then Percussion(st, inst, vol, pan, voice)
    else Melodic(st, inst, note, bend, vol, pan, voice)
  }

  /**
   Routing: a key-on consults the allocator only at its request, (1, 16)
   under the current reservation for melodic instruments and (10, 10) with
   no reservation for percussion, so two allocators that agree there give
   the same key-on.
   */
  lemma KeyOnRouting(st: State, inst: int, note: int, bend: int, vol: int, pan: int, a: Allocator, b: Allocator)
    requires st.Valid()
    requires inst <= LAST_MELODIC ==> a(Request(Range(1, 16), st.reserved)) < SLOTS
    requires inst <= LAST_MELODIC ==> a(Request(Range(1, 16), st.reserved)) == b(Request(Range(1, 16), st.reserved))
    requires inst > LAST_MELODIC ==>
      a(Request(Range(PERCUSSION, PERCUSSION), Range(-1, -1))) == b(Request(Range(PERCUSSION, PERCUSSION), Range(-1, -1)))
    ensures KeyOn(st, inst, note, bend, vol, pan, a) == KeyOn(st, inst, note, bend, vol, pan, b)
  {
  }

  /**
   A percussion key-on plays sound `inst - 128` on channel 10 and pans the
   granted voice; the program table is untouched.
   */
  lemma PercussionKeyOn(st: State, inst: int, note: int, bend: int, vol: int, pan: int, alloc: Allocator)
    requires st.Valid() && inst > LAST_MELODIC
    requires alloc(Request(Range(PERCUSSION, PERCUSSION), Range(-1, -1))) >= 0
    ensures var voice := alloc(Request(Range(PERCUSSION, PERCUSSION), Range(-1, -1)));
      var r := KeyOn(st, inst, note, bend, vol, pan, alloc);
      && r.cmds == [ControlChange(voice, Pan, pan), NoteOn(PERCUSSION, inst - 128, vol)]
      && r.st == State(st.patch, st.note[PERCUSSION := inst - 128], st.vol[PERCUSSION := vol],
                       Range(PERCUSSION, PERCUSSION))
  {
  }

  /**
   A successful melodic key-on on the granted voice `v` records the
   instrument, note and velocity in `v`'s slots and nothing else, and ends
   with the 7-bit split of the bend, the pan and the note-on, all on `v`.
   */
  lemma MelodicKeyOn(st: State, inst: int, note: int, bend: int, vol: int, pan: int, alloc: Allocator)
    requires st.Valid() && inst <= LAST_MELODIC
    requires 0 <= alloc(Request(Range(1, 16), st.reserved)) < SLOTS
    ensures var v := alloc(Request(Range(1, 16), st.reserved));
      var r := KeyOn(st, inst, note, bend, vol, pan, alloc);
      && r.st == State(st.patch[v := inst], st.note[v := note], st.vol[v := vol], st.reserved)
      && |r.cmds| >= 3
      && r.cmds[|r.cmds| - 1] == NoteOn(v, note, vol)
      && r.cmds[|r.cmds| - 2] == ControlChange(v, Pan, pan)
      && r.cmds[|r.cmds| - 3] == PitchBend(v, SplitBend(bend).lsb, SplitBend(bend).msb)
  {
  }

  /**
   A melodic key-on on voice `v` sends one program change exactly when the
   voice's recorded program differs from `inst`, and records `inst` either
   way.
   */
  lemma MelodicProgramChange(st: State, inst: int, note: int, bend: int, vol: int, pan: int, alloc: Allocator)
    requires st.Valid() && inst <= LAST_MELODIC
    requires 0 <= alloc(Request(Range(1, 16), st.reserved)) < SLOTS
    ensures var v := alloc(Request(Range(1, 16), st.reserved));
      var r := KeyOn(st, inst, note, bend, vol, pan, alloc);
      && r.st.patch[v] == inst
      && (st.patch[v] != inst <==> ProgramChange(v, inst) in r.cmds)
      && ProgramChanges(r.cmds) <= 1
  {
  }

  /**
   Two key-ons of the same instrument granted the same voice send the
   program change at most once between them, and the second sends none.
   */
  lemma RepeatedKeyOnOneProgramChange(st: State, inst: int, n1: int, b1: int, v1: int, p1: int,
                                      n2: int, b2: int, v2: int, p2: int, a1: Allocator, a2: Allocator)
    requires st.Valid() && inst <= LAST_MELODIC
    requires 0 <= a1(Request(Range(1, 16), st.reserved)) < SLOTS
    requires a2(Request(Range(1, 16), st.reserved)) == a1(Request(Range(1, 16), st.reserved))
    ensures var first := KeyOn(st, inst, n1, b1, v1, p1, a1);
      var second := KeyOn(first.st, inst, n2, b2, v2, p2, a2);
      && ProgramChanges(second.cmds) == 0
      && ProgramChanges(first.cmds + second.cmds) <= 1
  {
    var first := KeyOn(st, inst, n1, b1, v1, p1, a1);
    var second := KeyOn(first.st, inst, n2, b2, v2, p2, a2);
    ProgramChangesAppend(first.cmds, second.cmds);
  }
}
