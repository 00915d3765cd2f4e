/**
 Runs of driver calls. A run applies the voice entry points one after the
 other and concatenates what they emit; the lemmas here relate the tables
 at the end of a run to the command log the run produced: the program
 table always holds the program last sent to each voice, the note and
 volume tables hold the last note-on of each voice (so a key-off always
 matches it), no program change is ever redundant, and the reserved voice
 range ends at (10, 10) as soon as one percussion key-on has happened.
 */
module Trace {

  import opened Optional
  import opened Commands
  import opened Voices

  /**
   One call into the driver. A key-on carries the answer the allocator
   gave it, so a run stands for every allocator that could give those
   answers.
   */
  datatype Call =
    | KeyOnCall(inst: int, note: int, bend: int, vol: int, pan: int, granted: int)
    | KeyOffCall(voice: int)
    | SetVolumeCall(voice: int, vol: int)
    | SetPitchCall(voice: int, note: int, bend: int)
    | SetPanCall(voice: int, pan: int)

  /** What the driver demands of a call: table indices in range. */
  predicate WellFormed(c: Call) {
    match c
    case KeyOnCall(inst, _, _, _, _, granted) => inst <= LAST_MELODIC ==> granted < SLOTS
    case KeyOffCall(voice) => 0 <= voice < SLOTS
    case _ => true
  }

  predicate AllWellFormed(calls: seq<Call>) {
    forall i :: 0 <= i < |calls| ==> WellFormed(calls[i])
  }

  predicate IsPercussionKeyOn(c: Call) {
    c.KeyOnCall? && c.inst > LAST_MELODIC
  }

  /** One call: the entry point it names, with the allocator answering `granted`. */
  function Apply(st: State, c: Call): (r: Step)
    requires st.Valid() && WellFormed(c)
    ensures r.st.Valid()
  {
    match c
    case KeyOnCall(inst, note, bend, vol, pan, granted) =>
      KeyOn(st, inst, note, bend, vol, pan, (_: Request) => granted)
    case KeyOffCall(voice) => KeyOff(st, voice)
    case SetVolumeCall(voice, vol) => SetVolume(st, voice, vol)
    case SetPitchCall(voice, note, bend) => SetPitch(st, voice, note, bend)
    case SetPanCall(voice, pan) => SetPan(st, voice, pan)
  }

  /** The calls applied in order, with their commands concatenated. */
  function Run(st: State, calls: seq<Call>): (r: Step)
    requires st.Valid() && AllWellFormed(calls)
    ensures r.st.Valid()
    decreases |calls|
  {
    if calls == [] then Step(st, [])
    else
      var prev := Run(st, calls[..|calls| - 1]);
      var last := Apply(prev.st, calls[|calls| - 1]);
      Step(last.st, prev.cmds + last.cmds)
  }

  /**
   Slot `v` of `r.st` agrees with the log `r.cmds` that led to it from
   `st0`: its program is the last one sent to `v` and its note and volume
   are those of the last note-on on `v`, or the values of `st0` when the
   log sent none.
   */
  predicate Tracks(st0: State, r: Step, v: int)
    requires st0.Valid() && r.st.Valid() && 0 <= v < SLOTS
  {
    && r.st.patch[v] == Otherwise(LastProgram(r.cmds, v), st0.patch[v])
    && Sounding(r.st.note[v], r.st.vol[v]) == Otherwise(LastNoteOn(r.cmds, v), Sounding(st0.note[v], st0.vol[v]))
  }

  lemma LastOfOne<T>(c: Command, pick: Command -> Option<T>)
    ensures Last([c], pick) == pick(c)
  {
  }

  /** A percussion key-on keeps every slot in step with what it emits. */
  lemma PercussionTracks(st: State, inst: int, vol: int, pan: int, granted: int, v: int)
    requires st.Valid() && inst > LAST_MELODIC && 0 <= v < SLOTS
    ensures Tracks(st, Percussion(st, inst, vol, pan, granted), v)
  {
  }

  /** A melodic key-on keeps every slot in step with what it emits. */
  lemma MelodicTracks(st: State, inst: int, note: int, bend: int, vol: int, pan: int, granted: int, v: int)
    requires st.Valid() && inst <= LAST_MELODIC && granted < SLOTS && 0 <= v < SLOTS
    ensures Tracks(st, Melodic(st, inst, note, bend, vol, pan, granted), v)
  {
    var r := Melodic(st, inst, note, bend, vol, pan, granted);
    if granted >= 0 {
      if v != granted {
        assert forall i :: 0 <= i < |r.cmds| ==> ProgramOn(v)(r.cmds[i]).None?;
        assert forall i :: 0 <= i < |r.cmds| ==> NoteOnOn(v)(r.cmds[i]).None?;
      } else {
        if st.patch[v] != inst {
          var rest := r.cmds[1..];
          assert r.cmds == [r.cmds[0]] + rest;
          assert forall i :: 0 <= i < |rest| ==> ProgramOn(v)(rest[i]).None?;
          LastAppend([r.cmds[0]], rest, ProgramOn(v));
          LastOfOne(r.cmds[0], ProgramOn(v));
        } else {
          assert forall i :: 0 <= i < |r.cmds| ==> ProgramOn(v)(r.cmds[i]).None?;
        }
      }
    }
  }

  /** One call keeps every slot in step with the commands it emits. */
  lemma ApplyTracks(st: State, c: Call, v: int)
    requires st.Valid() && WellFormed(c) && 0 <= v < SLOTS
    ensures Tracks(st, Apply(st, c), v)
  {
    var r := Apply(st, c);
    if c.KeyOnCall? {
      if c.inst > LAST_MELODIC {
        PercussionTracks(st, c.inst, c.vol, c.pan, c.granted, v);
      } else {
        MelodicTracks(st, c.inst, c.note, c.bend, c.vol, c.pan, c.granted, v);
      }
    } else {
      assert r.cmds == [r.cmds[0]];
      LastOfOne(r.cmds[0], ProgramOn(v));
      LastOfOne(r.cmds[0], NoteOnOn(v));
    }
  }

  /**
   After any run, every slot of the tables is what the command log says it
   should be: the program table is the last program sent to each voice and
   the note and volume tables the last note-on of each voice.
   */
  lemma {:induction false} RunTracks(st: State, calls: seq<Call>, v: int)
    requires st.Valid() && AllWellFormed(calls) && 0 <= v < SLOTS
    ensures Tracks(st, Run(st, calls), v)
    decreases |calls|
  {
    if calls != [] {
      var prev := Run(st, calls[..|calls| - 1]);
      var last := Apply(prev.st, calls[|calls| - 1]);
      RunTracks(st, calls[..|calls| - 1], v);
      ApplyTracks(prev.st, calls[|calls| - 1], v);
      LastAppend(prev.cmds, last.cmds, ProgramOn(v));
      LastAppend(prev.cmds, last.cmds, NoteOnOn(v));
    }
  }

  /**
   After any run, a key-off on voice `v` sends back the note and velocity
   of the last note-on the run sent to `v` (or the initial slot values if
   it sent none), whatever the calls in between.
   */
  lemma KeyOffMatchesLastNoteOn(st: State, calls: seq<Call>, v: int)
    requires st.Valid() && AllWellFormed(calls) && 0 <= v < SLOTS
    ensures var r := Run(st, calls);
      var on := Otherwise(LastNoteOn(r.cmds, v), Sounding(st.note[v], st.vol[v]));
      KeyOff(r.st, v).cmds == [NoteOff(v, on.note, on.velocity)]
  {
    RunTracks(st, calls, v);
  }

  /**
   The program change at position `i` of a log, if it is one, was needed:
   it addresses a table slot and the program that slot held just before it
   (the last one sent, or the initial one) was a different one.
   */
  predicate ChangesProgram(st0: State, log: seq<Command>, i: int)
    requires st0.Valid() && 0 <= i < |log|
  {
    log[i].ProgramChange? ==>
      && 0 <= log[i].channel < SLOTS
      && Otherwise(LastProgram(log[..i], log[i].channel), st0.patch[log[i].channel]) != log[i].program
  }

  /** Every program change of the log was needed. */
  predicate NoRedundantProgramChange(st0: State, log: seq<Command>)
    requires st0.Valid()
  {
    forall i :: 0 <= i < |log| ==> ChangesProgram(st0, log, i)
  }

  /** Within one call, a program change can only come first and only for a different program. */
  lemma ApplyProgramChange(st: State, c: Call)
    requires st.Valid() && WellFormed(c)
    ensures var r := Apply(st, c);
      forall j :: 0 <= j < |r.cmds| && r.cmds[j].ProgramChange? ==>
        j == 0 && 0 <= r.cmds[j].channel < SLOTS && st.patch[r.cmds[j].channel] != r.cmds[j].program
  {
  }

  /**
   No run ever sends a redundant program change: each one it sends changes
   the program its voice last had.
   */
  lemma {:induction false} RunNeverRepeatsProgram(st: State, calls: seq<Call>)
    requires st.Valid() && AllWellFormed(calls)
    ensures NoRedundantProgramChange(st, Run(st, calls).cmds)
    decreases |calls|
  {
    if calls != [] {
      var front := calls[..|calls| - 1];
      var prev := Run(st, front);
      var last := Apply(prev.st, calls[|calls| - 1]);
      var log := prev.cmds + last.cmds;
      RunNeverRepeatsProgram(st, front);
      ApplyProgramChange(prev.st, calls[|calls| - 1]);
      forall i | 0 <= i < |log|
        ensures ChangesProgram(st, log, i)
      {
        if i < |prev.cmds| {
          assert log[..i] == prev.cmds[..i];
          assert ChangesProgram(st, prev.cmds, i);
        } else if log[i].ProgramChange? {
          assert last.cmds[i - |prev.cmds|] == log[i];
          assert i == |prev.cmds|;
          assert log[..i] == prev.cmds;
          RunTracks(st, front, log[i].channel);
        }
      }
    }
  }

  /**
   The reserved voice range after a run: (10, 10) once any percussion
   key-on has happened, whether its allocation succeeded or not, and the
   starting range otherwise; it is never put back to what it was before.
   */
  lemma {:induction false} RunReserved(st: State, calls: seq<Call>)
    requires st.Valid() && AllWellFormed(calls)
    ensures Run(st, calls).st.reserved ==
      if exists i :: 0 <= i < |calls| && IsPercussionKeyOn(calls[i]) then Range(PERCUSSION, PERCUSSION)
      else st.reserved
    decreases |calls|
  {
    if calls != [] {
      var front := calls[..|calls| - 1];
      RunReserved(st, front);
      if exists i :: 0 <= i < |front| && IsPercussionKeyOn(front[i]) {
        var i :| 0 <= i < |front| && IsPercussionKeyOn(front[i]);
        assert calls[i] == front[i];
      }
      if exists i :: 0 <= i < |calls| && IsPercussionKeyOn(calls[i]) {
        var i :| 0 <= i < |calls| && IsPercussionKeyOn(calls[i]);
        if i < |front| {
          assert front[i] == calls[i];
        }
      } else {
        assert forall i :: 0 <= i < |front| ==> front[i] == calls[i];
      }
    }
  }
}
