/**
 The commands the BeOS MIDI driver sends to its BMidiSynth object. Every
 voice operation of the driver is modelled as a pure function that returns
 the commands it emits, in order, as a sequence of `Command` values; the
 timing argument the driver passes (always "now") is dropped.
 */
module Commands {

  import opened Optional

  /** The only controller the driver uses is the pan controller. */
  datatype Controller = Pan

  datatype Command =
    | ProgramChange(channel: int, program: int)
    | PitchBend(channel: int, lsb: int, msb: int)
    | ControlChange(channel: int, controller: Controller, value: int)
    | NoteOn(channel: int, note: int, velocity: int)
    | NoteOff(channel: int, note: int, velocity: int)
    | ChannelPressure(channel: int, pressure: int)

  /** The note and velocity a note-on started a voice with. */
  datatype Sounding = Sounding(note: int, velocity: int)

  /** The two 7-bit halves a pitch-bend value is sent as. */
  datatype BendBytes = BendBytes(lsb: int, msb: int)

  /**
   `bend & 0x7F` and `bend >> 7` on a two's-complement int: the low seven
   bits, which are never negative, and the arithmetic right shift by seven,
   which rounds toward minus infinity. Dafny's `%` and `/` with a positive
   divisor compute exactly these.
   */
  function SplitBend(bend: int): (b: BendBytes)
    ensures 0 <= b.lsb < 128
    ensures b.msb * 128 + b.lsb == bend
    ensures 0 <= bend < 0x4000 <==> 0 <= b.msb < 128
  {
    BendBytes(bend % 128, bend / 128)
  }

  /** The receiving side of a pitch bend: the 14-bit value the halves stand for. */
  function JoinBend(b: BendBytes): int {
    b.msb * 128 + b.lsb
  }

  /** Splitting then joining gives back every bend value, 14-bit or not. */
  lemma JoinSplitBend(bend: int)
    ensures JoinBend(SplitBend(bend)) == bend
  {
  }

  /** Joining then splitting gives back every pair whose low half is 7 bits. */
  lemma SplitJoinBend(b: BendBytes)
    requires 0 <= b.lsb < 128
    ensures SplitBend(JoinBend(b)) == b
  {
  }

  /**
   The last command of `log` that `pick` selects, mapped through `pick`;
   None when `pick` selects no command of the log.
   */
  function Last<T>(log: seq<Command>, pick: Command -> Option<T>): (r: Option<T>)
    ensures r.Some? <==> exists i :: 0 <= i < |log| && pick(log[i]).Some?
    decreases |log|
  {
    if log == [] then None
    else if pick(log[|log| - 1]).Some? then pick(log[|log| - 1])
    else Last(log[..|log| - 1], pick)
  }

  /** The last command of a concatenation comes from its second part when that has one. */
  lemma {:induction false} LastAppend<T>(a: seq<Command>, b: seq<Command>, pick: Command -> Option<T>)
    ensures Last(a + b, pick) == if Last(b, pick).Some? then Last(b, pick) else Last(a, pick)
    decreases |b|
  {
    if b == [] {
      assert a + b == a;
    } else {
      assert (a + b)[..|a + b| - 1] == a + b[..|b| - 1];
      assert (a + b)[|a + b| - 1] == b[|b| - 1];
      if pick(b[|b| - 1]).None? {
        LastAppend(a, b[..|b| - 1], pick);
      }
    }
  }

  /** Selects the program of a program change on channel `ch`. */
  function ProgramOn(ch: int): Command -> Option<int> {
    (c: Command) => if c.ProgramChange? && c.channel == ch then Some(c.program) else None
  }

  /** Selects the note and velocity of a note-on on channel `ch`. */
  function NoteOnOn(ch: int): Command -> Option<Sounding> {
    (c: Command) => if c.NoteOn? && c.channel == ch then Some(Sounding(c.note, c.velocity)) else None
  }

  /** The program most recently sent to channel `ch` in `log`. */
  function LastProgram(log: seq<Command>, ch: int): Option<int> {
    Last(log, ProgramOn(ch))
  }

  /** The note and velocity of the most recent note-on sent to channel `ch` in `log`. */
  function LastNoteOn(log: seq<Command>, ch: int): Option<Sounding> {
    Last(log, NoteOnOn(ch))
  }

  /** The number of program changes in `log`. */
  function ProgramChanges(log: seq<Command>): (n: nat)
    ensures n <= |log|
    ensures n == 0 <==> forall i :: 0 <= i < |log| ==> !log[i].ProgramChange?
    decreases |log|
  {
    if log == [] then 0
    else ProgramChanges(log[..|log| - 1]) + (if log[|log| - 1].ProgramChange? then 1 else 0)
  }

  /** Program changes of a concatenation add up. */
  lemma {:induction false} ProgramChangesAppend(a: seq<Command>, b: seq<Command>)
    ensures ProgramChanges(a + b) == ProgramChanges(a) + ProgramChanges(b)
    decreases |b|
  {
    if b == [] {
      assert a + b == a;
    } else {
      assert (a + b)[..|a + b| - 1] == a + b[..|b| - 1];
      assert (a + b)[|a + b| - 1] == b[|b| - 1];
      ProgramChangesAppend(a, b[..|b| - 1]);
    }
  }
}
