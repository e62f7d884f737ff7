// The host-side surveys that end the two safety probes.

module HammerCheck {
  import opened Words
  import opened Arm64
  import opened GuestCode
  import opened Passes
  import opened Runs
  import opened Hammer

  // ---- Surveys ----

  // Offsets of the pages that do not read base + offset + sweeps.
  function Lost(mem: Memory, ramSize: nat, sweeps: Word): set<int> {
    set off | 0 <= off < ramSize && Aligned(off) && Read(mem, RAM_GPA + off) != Wrap(RAM_GPA + off + sweeps)
  }

  lemma LostGrows(mem: Memory, n: nat, sweeps: Word)
    requires Aligned(n)
    ensures Lost(mem, n + PAGE, sweeps) ==
      Lost(mem, n, sweeps) + if Read(mem, RAM_GPA + n) != Wrap(RAM_GPA + n + sweeps) then {n} else {}
  {
    forall off ensures 0 <= off < n + PAGE && Aligned(off) <==> (0 <= off < n && Aligned(off)) || off == n {
      NextGrid(0, n, off);
    }
  }

  // The same pages in address order, each with the value found there.
  function LostList(mem: Memory, n: int, sweeps: Word): seq<(int, Word)>
    decreases n
  {
    if n <= 0 then []
    else
      var off, v := n - PAGE, Read(mem, RAM_GPA + n - PAGE);
      LostList(mem, off, sweeps) + if v != Wrap(RAM_GPA + off + sweeps) then [(off, v)] else []
  }

  lemma LostListNext(mem: Memory, n: nat, sweeps: Word)
    ensures var v := Read(mem, RAM_GPA + n);
      LostList(mem, n + PAGE, sweeps) ==
        LostList(mem, n, sweeps) + if v != Wrap(RAM_GPA + n + sweeps) then [(n, v)] else []
  {
  }

  lemma {:induction false} LostListIsLost(mem: Memory, n: nat, sweeps: Word)
    requires Aligned(n)
    ensures |LostList(mem, n, sweeps)| == |Lost(mem, n, sweeps)|
    decreases n
  {
    hide Wrap;
    if n == 0 {
      assert Lost(mem, 0, sweeps) == {};
    } else {
      PageBelow(0, n);
      var m := n - PAGE;
      LostListIsLost(mem, m, sweeps);
      LostListNext(mem, m, sweeps);
      LostGrows(mem, m, sweeps);
      assert m !in Lost(mem, m, sweeps);
    }
  }

  // The list is in address order, and every entry is a lost page with the word found there.
  lemma {:induction false} LostListOrdered(mem: Memory, n: nat, sweeps: Word)
    requires Aligned(n)
    ensures var l := LostList(mem, n, sweeps);
      && (forall i :: 0 <= i < |l| ==> l[i].0 in Lost(mem, n, sweeps) && l[i].1 == Read(mem, RAM_GPA + l[i].0))
      && (forall i, j :: 0 <= i < j < |l| ==> l[i].0 < l[j].0)
    decreases n
  {
    hide Wrap;
    if n != 0 {
      PageBelow(0, n);
      var m := n - PAGE;
      LostListOrdered(mem, m, sweeps);
      LostListNext(mem, m, sweeps);
      LostGrows(mem, m, sweeps);
    }
  }

  // ... and no lost page is missing from it.
  lemma {:induction false} LostListComplete(mem: Memory, n: nat, sweeps: Word, off: int) returns (i: nat)
    requires Aligned(n) && off in Lost(mem, n, sweeps)
    ensures i < |LostList(mem, n, sweeps)| && LostList(mem, n, sweeps)[i].0 == off
    decreases n
  {
    hide Wrap;
    PageBelow(0, n);
    var m := n - PAGE;
    LostListNext(mem, m, sweeps);
    LostGrows(mem, m, sweeps);
    if off == m {
      i := |LostList(mem, n, sweeps)| - 1;
    } else {
      i := LostListComplete(mem, m, sweeps, off);
    }
  }

  function Offsets(l: seq<(int, Word)>): set<int> {
    set i | 0 <= i < |l| :: l[i].0
  }

  // The examples a survey keeps: up to three lost pages, in address order, each with the word
  // found there, and all below the lost pages that are left out.
  ghost predicate FirstLosses(mem: Memory, ramSize: nat, sweeps: Word, l: seq<(int, Word)>) {
    var lost := Lost(mem, ramSize, sweeps);
    && |l| == (if |lost| < 3 then |lost| else 3)
    && (forall i :: 0 <= i < |l| ==> l[i].0 in lost && l[i].1 == Read(mem, RAM_GPA + l[i].0))
    && (forall i, j :: 0 <= i < j < |l| ==> l[i].0 < l[j].0)
    && (forall off, i :: off in lost && off !in Offsets(l) && 0 <= i < |l| ==> l[i].0 < off)
  }

  lemma OffsetOf(l: seq<(int, Word)>, j: nat)
    requires j < |l|
    ensures l[j].0 in Offsets(l)
  {
  }

  // In a list in address order, what is kept lies below what is not.
  lemma BelowTheRest(l: seq<(int, Word)>, i: nat, j: nat)
    requires forall u, v :: 0 <= u < v < |l| ==> l[u].0 < l[v].0
    requires j < |l| && i < |AtMostThree(l)| && l[j].0 !in Offsets(AtMostThree(l))
    ensures AtMostThree(l)[i].0 < l[j].0
  {
    if j < |AtMostThree(l)| {
      OffsetOf(AtMostThree(l), j);
    }
  }

  lemma KeepThree(l: seq<(int, Word)>)
    ensures var few := AtMostThree(l);
      |few| == (if |l| < 3 then |l| else 3) && forall i :: 0 <= i < |few| ==> few[i] == l[i]
  {
  }

  lemma ExamplesAreFirst(mem: Memory, ramSize: nat, sweeps: Word)
    requires Aligned(ramSize)
    ensures FirstLosses(mem, ramSize, sweeps, AtMostThree(LostList(mem, ramSize, sweeps)))
  {
    var l, lost := LostList(mem, ramSize, sweeps), Lost(mem, ramSize, sweeps);
    LostListIsLost(mem, ramSize, sweeps);
    LostListOrdered(mem, ramSize, sweeps);
    hide Lost;
    hide LostList;
    hide Read;
    hide Offsets;
    KeepThree(l);
    hide AtMostThree;
    var few := AtMostThree(l);
    forall off, i | off in lost && off !in Offsets(few) && 0 <= i < |few| ensures few[i].0 < off {
      var j := LostListComplete(mem, ramSize, sweeps, off);
      BelowTheRest(l, i, j);
    }
  }

  function AtMostThree(l: seq<(int, Word)>): seq<(int, Word)> {
    if |l| <= 3 then l else l[..3]
  }

  // The survey at the end of --hammer: every page once, the first three losses kept.
  method SurveyHammer(mem: Memory, ramSize: nat, sweeps: Word)
    returns (intact: nat, lost: nat, examples: seq<(int, Word)>)
    requires Aligned(ramSize)
    ensures lost == |Lost(mem, ramSize, sweeps)| && intact + lost == PageOf(ramSize)
    ensures FirstLosses(mem, ramSize, sweeps, examples)
  {
    hide FirstLosses;
    intact, lost, examples := 0, 0, [];
    var off := 0;
    while off < ramSize
      invariant 0 <= off <= ramSize && Aligned(off)
      invariant lost == |LostList(mem, off, sweeps)| && intact + lost == PageOf(off)
      invariant examples == AtMostThree(LostList(mem, off, sweeps))
    {
      var v := Read(mem, RAM_GPA + off);
      if v == Wrap(RAM_GPA + off + sweeps) {
        intact := intact + 1;
      } else {
        lost := lost + 1;
        if |examples| < 3 {
          examples := examples + [(off, v)];
        }
      }
      LostListNext(mem, off, sweeps);
      off := NextOffset(off, ramSize);
    }
    LostListIsLost(mem, ramSize, sweeps);
    ExamplesAreFirst(mem, ramSize, sweeps);
  }

  // One step of `step_by(PAGE)`.
  function NextOffset(off: nat, end: nat): (r: nat)
    requires Aligned(off) && Aligned(end) && off < end
    ensures r == off + PAGE && r <= end && Aligned(r) && PageOf(r) == PageOf(off) + 1
  {
    off + PAGE
  }

  // The survey of --pressure-check, where every page should still hold its own address.
  method SurveyParked(mem: Memory, ramSize: nat) returns (intact: nat, lost: nat)
    requires Aligned(ramSize) && RAM_GPA + ramSize < TWO64
    ensures lost == |Lost(mem, ramSize, 0)| && intact + lost == PageOf(ramSize)
  {
    intact, lost := 0, 0;
    var off := 0;
    while off < ramSize
      invariant 0 <= off <= ramSize && Aligned(off)
      invariant lost == |LostList(mem, off, 0)| && intact + lost == PageOf(off)
    {
      if Read(mem, RAM_GPA + off) == RAM_GPA + off {
        intact := intact + 1;
      } else {
        lost := lost + 1;
      }
      Unwraps(RAM_GPA + off);
      LostListNext(mem, off, 0);
      off := NextOffset(off, ramSize);
    }
    LostListIsLost(mem, ramSize, 0);
  }

  // ---- The touch pass ----

  // Pages (by first address) the kernel discarded after a touch pass had stored to them.
  function Undone(env: Env, p: Pass, m: Machine, evs: seq<Event>): set<int> {
    if evs == [] then {}
    else
      var before, ev := evs[..|evs| - 1], evs[|evs| - 1];
      Undone(env, p, m, before) +
      if ev.Discard? && ev.page * PAGE < ViewOf(p, Exec(env, m, before).cpu).cursor then {ev.page * PAGE} else {}
  }

  ghost predicate TouchedTo(p: Pass, cursor: int, undone: set<int>, mem: Memory) {
    && (forall a :: a in undone ==> a < cursor)
    && (forall a :: OnGrid(p.lo, cursor, a) ==> Read(mem, a) == if a in undone then 0 else a)
  }

  lemma TouchOne(p: Pass, cursor: int, undone: set<int>, mem: Memory)
    requires TouchedTo(p, cursor, undone, mem) && Aligned(cursor) && p.lo <= cursor < TWO64
    ensures TouchedTo(p, cursor + PAGE, undone, Write(mem, cursor, Wrap(cursor)))
  {
    forall a ensures OnGrid(p.lo, cursor + PAGE, a) <==> OnGrid(p.lo, cursor, a) || a == cursor {
      NextGrid(p.lo, cursor, a);
    }
  }

  lemma UndoOne(p: Pass, cursor: int, undone: set<int>, mem: Memory, page: int)
    requires TouchedTo(p, cursor, undone, mem)
    ensures TouchedTo(p, cursor, undone + if page * PAGE < cursor then {page * PAGE} else {}, DropPage(mem, page))
  {
    forall a | OnGrid(p.lo, cursor, a)
      ensures Read(DropPage(mem, page), a) == if a == page * PAGE then 0 else Read(mem, a)
    {
      DropOther(mem, page, a);
      assert PageOf(a) == page <==> a == page * PAGE;
    }
  }

  lemma {:induction false} TouchRun(env: Env, p: Pass, e: int, cpu0: Cpu, mem0: Memory, evs: seq<Event>)
    requires Loaded(env.code) && EndsAt(p, e) && Granted(p, e, env.mapped) && p.kind == Touch && Resume !in evs
    ensures var start := Machine(Arm(p, cpu0), mem0); var m := Exec(env, start, evs);
      Ctl(p, e, m.cpu) && TouchedTo(p, ViewOf(p, m.cpu).cursor, Undone(env, p, start, evs), m.mem)
    decreases |evs|
  {
    hide Step;
    var start := Machine(Arm(p, cpu0), mem0);
    if evs == [] {
      ArmStarts(p, e, cpu0);
    } else {
      var n := |evs| - 1;
      TouchRun(env, p, e, cpu0, mem0, evs[..n]);
      var m := Exec(env, start, evs[..n]);
      var cursor, undone := ViewOf(p, m.cpu).cursor, Undone(env, p, start, evs[..n]);
      assert evs[n] in evs;
      if evs[n] == Tick {
        StepRefines(env, p, e, m.cpu, m.mem);
        CursorInRange(p, e, m.cpu);
        if !AtBell(Touch, m.cpu) && Acts(p, m.cpu) {
          TouchOne(p, cursor, undone, m.mem);
        }
      } else {
        UndoOne(p, cursor, undone, m.mem, evs[n].page);
      }
    }
  }

  // A page reads its own address after a touch pass if and only if the kernel has not
  // discarded it since its store.
  lemma TouchExact(env: Env, p: Pass, cpu0: Cpu, mem0: Memory, evs: seq<Event>, a: int)
    requires Loaded(env.code) && Valid(p) && Granted(p, EndOf(p), env.mapped) && p.kind == Touch && Resume !in evs
    requires AtBell(Touch, Exec(env, Machine(Arm(p, cpu0), mem0), evs).cpu) && OnGrid(p.lo, EndOf(p), a) && a > 0
    ensures var start := Machine(Arm(p, cpu0), mem0); var w := Read(Exec(env, start, evs).mem, a);
      (w == a <==> a !in Undone(env, p, start, evs)) && (w == a || w == 0)
  {
    hide Step;
    EndOfEnds(p);
    TouchRun(env, p, EndOf(p), cpu0, mem0, evs);
    CursorInRange(p, EndOf(p), Exec(env, Machine(Arm(p, cpu0), mem0), evs).cpu);
  }

  // Every page of RAM reads its own address, or has been lost.
  ghost predicate TouchedOrLost(mem: Memory, ramSize: nat) {
    forall a :: OnGrid(RAM_GPA, RAM_GPA + ramSize, a) ==> Read(mem, a) == a || Read(mem, a) == 0
  }

  // ---- After it ----

  function DropAll(mem: Memory, pages: seq<int>): Memory {
    if pages == [] then mem else DropPage(DropAll(mem, pages[..|pages| - 1]), pages[|pages| - 1])
  }

  lemma {:induction false} DropAllReads(mem: Memory, pages: seq<int>, a: int)
    ensures Read(DropAll(mem, pages), a) == if PageOf(a) in pages then 0 else Read(mem, a)
    decreases |pages|
  {
    if pages != [] {
      var n := |pages| - 1;
      assert pages == pages[..n] + [pages[n]];
      DropAllReads(mem, pages[..n], a);
      DropOther(DropAll(mem, pages[..n]), pages[n], a);
    }
  }

  // Parked form: whatever pages the kernel takes after the touch pass, the survey finds
  // exactly those and the ones that were missing already.
  lemma ParkedSurveyExact(mem: Memory, ramSize: nat, pages: seq<int>)
    requires TouchedOrLost(mem, ramSize) && RAM_GPA + ramSize < TWO64
    ensures TouchedOrLost(DropAll(mem, pages), ramSize)
    ensures Lost(DropAll(mem, pages), ramSize, 0) ==
            set off | 0 <= off < ramSize && Aligned(off) &&
                      (Read(mem, RAM_GPA + off) != RAM_GPA + off || PageOf(RAM_GPA + off) in pages)
  {
    forall a | OnGrid(RAM_GPA, RAM_GPA + ramSize, a)
      ensures Read(DropAll(mem, pages), a) == if PageOf(a) in pages then 0 else Read(mem, a)
    {
      DropAllReads(mem, pages, a);
    }
    forall off | 0 <= off < ramSize && Aligned(off)
      ensures Read(DropAll(mem, pages), RAM_GPA + off) != Wrap(RAM_GPA + off) <==>
              (Read(mem, RAM_GPA + off) != RAM_GPA + off || PageOf(RAM_GPA + off) in pages)
    {
      RamOffset(ramSize, off);
    }
  }

  function RamSweep(ramSize: nat): Pass
    requires RAM_GPA + ramSize < TWO64
  {
    Pass(Sweep, RAM_GPA, RAM_GPA + ramSize, 0)
  }

  lemma RamSweepEnd(ramSize: nat)
    requires RAM_GPA + ramSize < TWO64 && 0 < ramSize && Aligned(ramSize)
    ensures EndOf(RamSweep(ramSize)) == RAM_GPA + ramSize && Valid(RamSweep(ramSize))
  {
  }

  lemma TouchedRoomy(mem0: Memory, ramSize: nat, n: nat)
    requires TouchedOrLost(mem0, ramSize) && RAM_GPA + ramSize + n < TWO64
    ensures Roomy(RamSweep(ramSize), RAM_GPA + ramSize, mem0, n)
  {
  }

  // A hammer run that stands at the doorbell, over memory that was touched and maybe damaged
  // since, with room in the counters.
  ghost predicate HammerStands(env: Env, cpu0: Cpu, mem0: Memory, ramSize: nat, evs: seq<Event>) {
    && Loaded(env.code) && 0 < ramSize && Aligned(ramSize) && RAM_GPA + ramSize + |evs| < TWO64
    && Granted(RamSweep(ramSize), RAM_GPA + ramSize, env.mapped) && TouchedOrLost(mem0, ramSize)
    && AtBell(Sweep, Exec(env, Machine(ArmHammer(RamSweep(ramSize), cpu0), mem0), evs).cpu)
  }

  lemma PageLost(env: Env, cpu0: Cpu, mem0: Memory, ramSize: nat, evs: seq<Event>, off: int)
    requires HammerStands(env, cpu0, mem0, ramSize, evs)
    requires 0 <= off < ramSize && Aligned(off)
    ensures var start := Machine(ArmHammer(RamSweep(ramSize), cpu0), mem0); var m := Exec(env, start, evs);
      (RAM_GPA + off in Struck(env, start, evs) || Read(mem0, RAM_GPA + off) != RAM_GPA + off) <==>
        Read(m.mem, RAM_GPA + off) != Wrap(RAM_GPA + off + m.cpu.x[4])
  {
    hide Step;
    RamSweepEnd(ramSize);
    TouchedRoomy(mem0, ramSize, |evs|);
    RamOffset(ramSize, off);
    var a := RAM_GPA + off;
    HammerExact(env, RamSweep(ramSize), cpu0, mem0, evs, a);
    var m := Exec(env, Machine(ArmHammer(RamSweep(ramSize), cpu0), mem0), evs);
    Unwraps(a + m.cpu.x[4]);
  }

  // Concurrent form: the pages the survey calls lost are exactly those that were missing when
  // the hammer started and those the kernel discarded at least once outside the page's own
  // load-to-store window.
  lemma HammerSurveyExact(env: Env, cpu0: Cpu, mem0: Memory, ramSize: nat, evs: seq<Event>)
    requires HammerStands(env, cpu0, mem0, ramSize, evs)
    ensures var start := Machine(ArmHammer(RamSweep(ramSize), cpu0), mem0); var m := Exec(env, start, evs);
      Lost(m.mem, ramSize, m.cpu.x[4]) ==
        set off | 0 <= off < ramSize && Aligned(off) &&
                  (RAM_GPA + off in Struck(env, start, evs) || Read(mem0, RAM_GPA + off) != RAM_GPA + off)
  {
    hide Step;
    var start := Machine(ArmHammer(RamSweep(ramSize), cpu0), mem0);
    var m, struck := Exec(env, start, evs), Struck(env, start, evs);
    forall off | 0 <= off < ramSize && Aligned(off)
      ensures Read(m.mem, RAM_GPA + off) != Wrap(RAM_GPA + off + m.cpu.x[4]) <==>
              (RAM_GPA + off in struck || Read(mem0, RAM_GPA + off) != RAM_GPA + off)
    {
      PageLost(env, cpu0, mem0, ramSize, evs, off);
    }
    LostIs(m.mem, mem0, ramSize, m.cpu.x[4], struck);
  }

  lemma RamOffset(ramSize: nat, off: int)
    requires 0 <= off < ramSize && Aligned(off)
    ensures OnGrid(RAM_GPA, RAM_GPA + ramSize, RAM_GPA + off)
  {
  }

  lemma LostIs(mem: Memory, mem0: Memory, ramSize: nat, sweeps: Word, struck: set<int>)
    requires forall off :: 0 <= off < ramSize && Aligned(off) ==>
      (Read(mem, RAM_GPA + off) != Wrap(RAM_GPA + off + sweeps) <==>
        (RAM_GPA + off in struck || Read(mem0, RAM_GPA + off) != RAM_GPA + off))
    ensures Lost(mem, ramSize, sweeps) ==
            set off | 0 <= off < ramSize && Aligned(off) &&
                      (RAM_GPA + off in struck || Read(mem0, RAM_GPA + off) != RAM_GPA + off)
  {
  }
}
