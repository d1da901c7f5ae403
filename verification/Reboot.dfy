/** Attempt numbering across reboots over retained, never initialised memory
    (benchmarking/firmware/src/main.c, bench_start_attempt, bench_store_next_attempt, main). */
module Reboot {
  const MAGIC := 0x42454e43

  datatype Memory = Memory(magic: int, total: int, next: int)

  datatype Line = Line(index: int, warmup: int)

  predicate Usable(m: Memory, total: int) {
    m.magic == MAGIC && m.total == total && 1 <= m.next <= total
  }

  function Started(m: Memory, total: int): Memory {
    if Usable(m, total) then m else Memory(MAGIC, total, 1)
  }

  function Stored(next: int, total: int): Memory {
    if next > total then Memory(0, 0, 0) else Memory(MAGIC, total, next)
  }

  /** The lines of attempts `first`..`total`, warm-ups flagged. */
  function LinesFrom(first: int, total: int, warmups: int): seq<Line>
    decreases total - first
  {
    if first > total then []
    else [Line(first, if first <= warmups then 1 else 0)] + LinesFrom(first + 1, total, warmups)
  }

  class Board {
    var magic: int
    var totalAttempts: int
    var nextAttempt: int
    const rebootMode: bool

    function Retained(): Memory
      reads this
    {
      Memory(magic, totalAttempts, nextAttempt)
    }

    constructor (memory: Memory, rebootMode: bool)
      ensures Retained() == memory && this.rebootMode == rebootMode
    {
      magic, totalAttempts, nextAttempt := memory.magic, memory.total, memory.next;
      this.rebootMode := rebootMode;
    }

    method StartAttempt(total: int) returns (first: int)
      modifies this
      ensures Retained() == if rebootMode then Started(old(Retained()), total) else old(Retained())
      ensures first == if rebootMode then nextAttempt else 1
    {
      if !rebootMode {
        return 1;
      }
      if magic != MAGIC || totalAttempts != total || nextAttempt < 1 || nextAttempt > total {
        magic := MAGIC;
        totalAttempts := total;
        nextAttempt := 1;
      }
      return nextAttempt;
    }

    method StoreNextAttempt(next: int, total: int)
      modifies this
      ensures Retained() == if rebootMode then Stored(next, total) else old(Retained())
    {
      if !rebootMode {
        return;
      }
      if next > total {
        magic, totalAttempts, nextAttempt := 0, 0, 0;
        return;
      }
      magic := MAGIC;
      totalAttempts := total;
      nextAttempt := next;
    }

    /** One boot of main: in reboot mode one attempt, otherwise all of them. */
    method BootOnce(warmups: int, iterations: int) returns (lines: seq<Line>, rebooted: bool)
      modifies this
      ensures
        var total := warmups + iterations;
        var first := if rebootMode then Started(old(Retained()), total).next else 1;
        && rebooted == (rebootMode && first < total)
        && Retained() == (if rebooted then Memory(MAGIC, total, first + 1)
                          else if rebootMode then Memory(0, 0, 0) else old(Retained()))
        && lines + (if rebooted then LinesFrom(first + 1, total, warmups) else []) == LinesFrom(first, total, warmups)
    {
      var total := warmups + iterations;
      var i := StartAttempt(total);
      ghost var first, started := i, Retained();
      lines := [];
      while i <= total
        invariant first <= i
        invariant rebootMode && i > first ==> first == total && i == total + 1
        invariant !rebootMode || i == first ==> Retained() == started
        invariant lines + LinesFrom(i, total, warmups) == LinesFrom(first, total, warmups)
      {
        ghost var before := lines;
        lines := lines + [Line(i, if i <= warmups then 1 else 0)];
        assert lines + LinesFrom(i + 1, total, warmups) == before + LinesFrom(i, total, warmups);
        if rebootMode {
          StoreNextAttempt(i + 1, total);
          if i < total {
            return lines, true;
          }
        }
        i := i + 1;
      }
      StoreNextAttempt(total + 1, total);
      return lines, false;
    }

    /** Power-on to BENCH_DONE with no stray reset: every attempt from the retained index to the
        last is printed exactly once and in order, and the memory ends cleared. */
    method RunToDone(warmups: int, iterations: int) returns (lines: seq<Line>)
      modifies this
      ensures lines == LinesFrom(if rebootMode then Started(old(Retained()), warmups + iterations).next else 1,
                                 warmups + iterations, warmups)
      ensures rebootMode ==> Retained() == Memory(0, 0, 0)
    {
      var total := warmups + iterations;
      ghost var wanted := LinesFrom(if rebootMode then Started(Retained(), total).next else 1, total, warmups);
      var rebooted;
      lines, rebooted := BootOnce(warmups, iterations);
      while rebooted
        invariant rebooted ==> rebootMode && 1 < nextAttempt <= total && Usable(Retained(), total)
        invariant !rebooted && rebootMode ==> Retained() == Memory(0, 0, 0)
        invariant lines + (if rebooted then LinesFrom(nextAttempt, total, warmups) else []) == wanted
        decreases if rebooted then 1 + total - nextAttempt else 0
      {
        var more;
        ghost var ahead := LinesFrom(nextAttempt, total, warmups);
        more, rebooted := BootOnce(warmups, iterations);
        ghost var left := if rebooted then LinesFrom(nextAttempt, total, warmups) else [];
        assert more + left == ahead;
        assert lines + more + left == lines + ahead;
        lines := lines + more;
      }
    }
  }

  lemma {:induction false} LinesAreAllAttempts(first: int, total: int, warmups: int)
    requires first <= total + 1
    ensures |LinesFrom(first, total, warmups)| == total + 1 - first
    ensures forall k :: 0 <= k < total + 1 - first ==>
      LinesFrom(first, total, warmups)[k] == Line(first + k, if first + k <= warmups then 1 else 0)
    decreases total - first
  {
    if first > total {
    } else {
      LinesAreAllAttempts(first + 1, total, warmups);
    }
  }

  // ----- the same firmware with a reset possible between any two memory words -----

  /** Where the firmware stands; in the Store, Init and Clear phases some words are written. */
  datatype Phase =
    | Booting | InitTotal | InitNext
    | Attempting(i: int) | Printed(i: int) | StoreTotal(i: int) | StoreNext(i: int) | StoredPhase(i: int)
    | ClearTotal | ClearNext | Cleared | Finished

  /** What an observer sees: lines, clearing starting, BENCH_DONE, and stray resets. A reset is
      torn when it falls after a line is printed and before its successor is stored. */
  datatype Mark = Print(i: int) | Clear | BenchDone | TornReset | PlainReset

  datatype State = State(mem: Memory, phase: Phase, marks: seq<Mark>)

  datatype Event = Tick | Reset

  function Step(st: State, event: Event, total: int): State {
    var m := st.mem;
    if event == Reset then
      var torn := st.phase.Printed? || st.phase.StoreTotal? || st.phase.StoreNext?;
      State(m, Booting, st.marks + [if torn then TornReset else PlainReset])
    else match st.phase
      case Booting => if Usable(m, total) then st.(phase := Attempting(m.next)) else st.(mem := m.(magic := MAGIC), phase := InitTotal)
      case InitTotal => st.(mem := m.(total := total), phase := InitNext)
      case InitNext => st.(mem := m.(next := 1), phase := Attempting(1))
      case Attempting(i) => if i <= total then State(m, Printed(i), st.marks + [Print(i)]) else BeginClear(st)
      case Printed(i) => if i + 1 > total then BeginClear(st) else st.(mem := m.(magic := MAGIC), phase := StoreTotal(i))
      case StoreTotal(i) => st.(mem := m.(total := total), phase := StoreNext(i))
      case StoreNext(i) => st.(mem := m.(next := i + 1), phase := StoredPhase(i))
      case StoredPhase(i) => st.(phase := Booting)
      case ClearTotal => st.(mem := m.(total := 0), phase := ClearNext)
      case ClearNext => st.(mem := m.(next := 0), phase := Cleared)
      case Cleared => State(m, Finished, st.marks + [BenchDone])
      case Finished => st
  }

  function BeginClear(st: State): State {
    State(st.mem.(magic := 0), ClearTotal, st.marks + [Clear])
  }

  function Run(memory: Memory, events: seq<Event>, total: int): State {
    if events == [] then State(memory, Booting, [])
    else Step(Run(memory, events[..|events| - 1], total), events[|events| - 1], total)
  }

  /** Without a reset the word-by-word steps compute what StartAttempt and StoreNextAttempt do. */
  lemma StepsRefineCalls(st: State, total: int)
    requires total >= 1
    ensures st.phase == Booting ==>
      var after := if Usable(st.mem, total) then Step(st, Tick, total)
                   else Step(Step(Step(st, Tick, total), Tick, total), Tick, total);
      after == st.(mem := Started(st.mem, total), phase := Attempting(Started(st.mem, total).next))
    ensures st.phase.Printed? && st.phase.i <= total ==>
      var after := Step(Step(Step(st, Tick, total), Tick, total), Tick, total);
      after.mem == Stored(st.phase.i + 1, total)
  {}

  /** The last index printed since the memory was last cleared. */
  function LastPrint(marks: seq<Mark>): int
    ensures LastPrint(marks) == 0 || Print(LastPrint(marks)) in marks
  {
    if marks == [] then 0
    else match marks[|marks| - 1]
      case Print(i) => i
      case Clear => 0
      case _ => LastPrint(marks[..|marks| - 1])
  }

  /** A torn reset since the last print. */
  predicate TornSince(marks: seq<Mark>) {
    marks != [] &&
    match marks[|marks| - 1]
    case Print(_) => false
    case TornReset => true
    case _ => TornSince(marks[..|marks| - 1])
  }

  /** BENCH_DONE since the last print. */
  predicate DoneSince(marks: seq<Mark>) {
    marks != [] &&
    match marks[|marks| - 1]
    case Print(_) => false
    case BenchDone => true
    case _ => DoneSince(marks[..|marks| - 1])
  }

  /** The index an observer expects next, after at least one print since the last clear. */
  function Due(marks: seq<Mark>): int {
    if TornSince(marks) then LastPrint(marks) else LastPrint(marks) + 1
  }

  predicate EpochInv(st: State, total: int) {
    var e := LastPrint(st.marks);
    && (e == 0 ==> !st.phase.Printed? && !st.phase.StoreTotal? && !st.phase.StoreNext? && !st.phase.StoredPhase?)
    && (e != 0 ==>
          && 1 <= e <= total && st.mem.magic == MAGIC && st.mem.total == total
          && match st.phase
             case Printed(i) => i == e == st.mem.next && !TornSince(st.marks)
             case StoreTotal(i) => i == e == st.mem.next && e < total && !TornSince(st.marks)
             case StoreNext(i) => i == e == st.mem.next && e < total && !TornSince(st.marks)
             case StoredPhase(i) => i == e && st.mem.next == e + 1 <= total && !TornSince(st.marks)
             case Booting => st.mem.next == Due(st.marks) <= total
             case Attempting(i) => i == st.mem.next == Due(st.marks) <= total
             case _ => false)
  }

  predicate MemoryInv(st: State, total: int) {
    && (st.phase.Attempting? ==> Usable(st.mem, total) && st.phase.i == st.mem.next)
    && (st.phase.InitNext? ==> st.mem.total == total)
    && (st.phase.InitTotal? || st.phase.InitNext? ==> st.mem.magic == MAGIC)
    && (st.phase.ClearNext? ==> st.mem.magic == 0 && st.mem.total == 0)
    && (st.phase.ClearTotal? ==> st.mem.magic == 0)
    && (st.phase.Cleared? || st.phase.Finished? ==> st.mem == Memory(0, 0, 0))
    && (DoneSince(st.marks) ==>
          || (st.mem.next == 0 && (st.phase.Finished? || st.phase.Booting? || st.phase.InitTotal? || st.phase.InitNext?))
          || (st.mem == Memory(MAGIC, total, 1) && (st.phase.Booting? || st.phase == Attempting(1))))
  }

  lemma StepKeepsInvariant(st: State, event: Event, total: int)
    requires total >= 1 && EpochInv(st, total) && MemoryInv(st, total)
    ensures EpochInv(Step(st, event, total), total) && MemoryInv(Step(st, event, total), total)
  {
    var after := Step(st, event, total);
    if after.marks != st.marks {
      assert after.marks[..|after.marks| - 1] == st.marks;
    }
  }

  lemma {:induction false} RunKeepsInvariant(memory: Memory, events: seq<Event>, total: int)
    requires total >= 1
    ensures EpochInv(Run(memory, events, total), total) && MemoryInv(Run(memory, events, total), total)
  {
    if events == [] {
    } else {
      RunKeepsInvariant(memory, events[..|events| - 1], total);
      StepKeepsInvariant(Run(memory, events[..|events| - 1], total), events[|events| - 1], total);
    }
  }

  /** What every printed line owes to the marks before it. */
  predicate PrintIsDue(before: seq<Mark>, i: int, total: int) {
    && 1 <= i <= total
    && (LastPrint(before) != 0 ==> i == if TornSince(before) then LastPrint(before) else LastPrint(before) + 1)
    && (DoneSince(before) ==> i == 1)
  }

  predicate AllPrintsDue(marks: seq<Mark>, total: int) {
    forall k :: 0 <= k < |marks| && marks[k].Print? ==> PrintIsDue(marks[..k], marks[k].i, total)
  }

  /** From any retained memory and under any placing of resets: every index lies in 1..total;
      until the memory is cleared an index is the previous one again exactly when a reset fell
      between its print and its store, and otherwise one more; after BENCH_DONE it is 1. */
  lemma {:induction false} NumberingSurvivesResets(memory: Memory, events: seq<Event>, total: int)
    requires total >= 1
    ensures AllPrintsDue(Run(memory, events, total).marks, total)
  {
    if events == [] {
    } else {
      var st := Run(memory, events[..|events| - 1], total);
      var after := Step(st, events[|events| - 1], total);
      NumberingSurvivesResets(memory, events[..|events| - 1], total);
      RunKeepsInvariant(memory, events[..|events| - 1], total);
      assert st.marks <= after.marks;
      forall k | 0 <= k < |after.marks| && after.marks[k].Print?
        ensures PrintIsDue(after.marks[..k], after.marks[k].i, total)
      {
        if k < |st.marks| {
          assert after.marks[..k] == st.marks[..k] && after.marks[k] == st.marks[k];
        } else {
          assert after.marks[..k] == st.marks;
        }
      }
    }
  }

  // ----- the exact index of every line -----

  /** Since clearing last began, or since power-on before that, the `next` word has been written by
      clearing or by initialisation. */
  predicate NextRewritten(memory: Memory, events: seq<Event>, total: int) {
    events != [] &&
    var before := Run(memory, events[..|events| - 1], total);
    var after := Run(memory, events, total);
    if events[|events| - 1] == Tick && (before.phase == ClearNext || before.phase == InitNext) then true
    else if after.marks == before.marks + [Clear] then false
    else NextRewritten(memory, events[..|events| - 1], total)
  }

  /** The index that is printed next: the one due; or, when none was printed since clearing began
      (or power-on), 1 if `next` was rewritten and else what it still holds. */
  function Expected(memory: Memory, events: seq<Event>, total: int): int {
    var marks := Run(memory, events, total).marks;
    if LastPrint(marks) != 0 then Due(marks)
    else if NextRewritten(memory, events, total) then 1
    else if Clear in marks then total
    else memory.next
  }

  predicate FreshInv(st: State, rewritten: bool, initial: int, total: int) {
    LastPrint(st.marks) == 0 ==>
      if rewritten then st.mem.next == 0 || st.mem.next == 1
      else st.mem.next == if Clear in st.marks then total else initial
  }

  lemma StepKeepsFresh(st: State, event: Event, rewritten: bool, initial: int, total: int)
    requires total >= 1 && EpochInv(st, total) && MemoryInv(st, total) && FreshInv(st, rewritten, initial, total)
    ensures
      var after := Step(st, event, total);
      var written := event == Tick && (st.phase == ClearNext || st.phase == InitNext);
      FreshInv(after, written || (rewritten && after.marks != st.marks + [Clear]), initial, total)
  {
    var after := Step(st, event, total);
    if after.marks != st.marks {
      assert after.marks[..|after.marks| - 1] == st.marks;
    }
  }

  lemma {:induction false} RunKeepsFresh(memory: Memory, events: seq<Event>, total: int)
    requires total >= 1
    ensures FreshInv(Run(memory, events, total), NextRewritten(memory, events, total), memory.next, total)
  {
    if events == [] {
    } else {
      var before := events[..|events| - 1];
      RunKeepsFresh(memory, before, total);
      RunKeepsInvariant(memory, before, total);
      StepKeepsFresh(Run(memory, before, total), events[|events| - 1], NextRewritten(memory, before, total), memory.next, total);
    }
  }

  /** From any retained memory and under any placing of resets, a line that is printed carries
      exactly the expected index. */
  lemma PrintedIndexExactly(memory: Memory, events: seq<Event>, event: Event, total: int, i: int)
    requires total >= 1
    requires Run(memory, events + [event], total).marks == Run(memory, events, total).marks + [Print(i)]
    ensures i == Expected(memory, events, total)
  {
    var st := Run(memory, events, total);
    RunSnoc(memory, events, st, event, total);
    RunKeepsInvariant(memory, events, total);
    RunKeepsFresh(memory, events, total);
    assert Step(st, event, total).marks[|st.marks|] == Print(i);
    assert st.phase == Attempting(i);
  }

  /** The first index after clearing began is 1 if and only if the `next` word has been written
      since (or there is but one attempt); otherwise the last attempt is taken up again, never
      one in the middle. */
  lemma FirstAfterClear(memory: Memory, events: seq<Event>, event: Event, total: int, i: int)
    requires total >= 1
    requires Clear in Run(memory, events, total).marks && LastPrint(Run(memory, events, total).marks) == 0
    requires Run(memory, events + [event], total).marks == Run(memory, events, total).marks + [Print(i)]
    ensures i == 1 <==> NextRewritten(memory, events, total) || total == 1
    ensures i == 1 || i == total
  {
    PrintedIndexExactly(memory, events, event, total, i);
  }

  lemma RunSnoc(memory: Memory, events: seq<Event>, before: State, event: Event, total: int)
    requires Run(memory, events, total) == before
    ensures Run(memory, events + [event], total) == Step(before, event, total)
  {
    var longer := events + [event];
    assert longer[..|longer| - 1] == events;
  }

  /** An input for the other case: the last attempt is printed and clearing begins, but a reset
      inside it and another inside the boot that follows come before the `next` word is written, and
      the firmware takes up the last attempt again. */
  lemma HalfClearedMemoryResumes(total: int)
    requires total >= 1
    ensures
      var events := [Tick, Tick, Tick] + [Reset] + [Tick] + [Reset] + [Tick];
      Run(Memory(MAGIC, total, total), events, total)
        == State(Memory(MAGIC, total, total), Attempting(total), [Print(total), Clear, PlainReset, PlainReset])
  {
    var m, half := Memory(MAGIC, total, total), Memory(0, total, total);
    var printed := [Print(total), Clear];
    RunSnoc(m, [], State(m, Booting, []), Tick, total);
    assert [] + [Tick] == [Tick] && [Tick] + [Tick] == [Tick, Tick] && [Tick, Tick] + [Tick] == [Tick, Tick, Tick];
    RunSnoc(m, [Tick], State(m, Attempting(total), []), Tick, total);
    RunSnoc(m, [Tick, Tick], State(m, Printed(total), [Print(total)]), Tick, total);
    var events := [Tick, Tick, Tick];
    RunSnoc(m, events, State(half, ClearTotal, printed), Reset, total);
    RunSnoc(m, events + [Reset], State(half, Booting, printed + [PlainReset]), Tick, total);
    RunSnoc(m, events + [Reset] + [Tick], State(m, InitTotal, printed + [PlainReset]), Reset, total);
    RunSnoc(m, events + [Reset] + [Tick] + [Reset], State(m, Booting, printed + [PlainReset] + [PlainReset]), Tick, total);
  }
}
