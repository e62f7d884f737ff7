// Runs of one vCPU against a kernel that may discard pages between any two instructions.

module Runs {
  import opened Words
  import opened Arm64
  import opened GuestCode
  import opened Passes

  datatype Machine = Machine(cpu: Cpu, mem: Memory)

  // A cancelled hv_vcpu_run leaves the vCPU between two instructions and so is no event.
  datatype Event =
    | Tick                 // the vCPU attempts one instruction
    | Discard(page: int)   // the kernel throws a page away
    | Resume               // the host steps pc past the doorbell store

  function Apply(env: Env, m: Machine, ev: Event): Machine {
    match ev
    case Tick =>
      (match Step(env, m.cpu, m.mem)
       case Retired(cpu, mem) => Machine(cpu, mem)
       case _ => m)
    case Discard(page) => m.(mem := DropPage(m.mem, page))
    case Resume =>
      if Step(env, m.cpu, m.mem) == DataAbort(DOORBELL_GPA) then m.(cpu := Advance(m.cpu, 4)) else m
  }

  function Exec(env: Env, m: Machine, evs: seq<Event>): Machine {
    if evs == [] then m
    else Apply(env, Exec(env, m, evs[..|evs| - 1]), evs[|evs| - 1])
  }

  lemma ExecSnoc(env: Env, m: Machine, evs: seq<Event>, ev: Event)
    ensures Exec(env, m, evs + [ev]) == Apply(env, Exec(env, m, evs), ev)
  {
    assert (evs + [ev])[..|evs|] == evs;
  }

  lemma {:induction false} ExecConcat(env: Env, m: Machine, s: seq<Event>, t: seq<Event>)
    ensures Exec(env, m, s + t) == Exec(env, Exec(env, m, s), t)
    decreases |t|
  {
    if t == [] {
      assert s + t == s;
    } else {
      var n := |t| - 1;
      assert s + t == (s + t[..n]) + [t[n]];
      ExecSnoc(env, m, s + t[..n], t[n]);
      ExecConcat(env, m, s, t[..n]);
    }
  }

  // How many of the attempted instructions retired.
  function Retirements(env: Env, m: Machine, evs: seq<Event>): nat {
    if evs == [] then 0
    else
      var before := evs[..|evs| - 1];
      var at := Exec(env, m, before);
      Retirements(env, m, before) +
      if evs[|evs| - 1] == Tick && Step(env, at.cpu, at.mem).Retired? then 1 else 0
  }

  lemma RetirementsSnoc(env: Env, m: Machine, evs: seq<Event>, ev: Event)
    ensures var at := Exec(env, m, evs);
      Retirements(env, m, evs + [ev]) ==
        Retirements(env, m, evs) + if ev == Tick && Step(env, at.cpu, at.mem).Retired? then 1 else 0
  {
    assert (evs + [ev])[..|evs|] == evs;
  }

  lemma {:induction false} RetirementsConcat(env: Env, m: Machine, s: seq<Event>, t: seq<Event>)
    ensures Retirements(env, m, s + t) == Retirements(env, m, s) + Retirements(env, Exec(env, m, s), t)
    decreases |t|
  {
    hide Step;
    if t == [] {
      assert s + t == s;
    } else {
      var init, last := t[..|t| - 1], t[|t| - 1];
      RetirementsConcat(env, m, s, init);
      ExecConcat(env, m, s, init);
      assert s + t == (s + init) + [last];
      RetirementsSnoc(env, m, s + init, last);
    }
  }

  // How many instructions were attempted.
  function TicksIn(evs: seq<Event>): nat {
    if evs == [] then 0 else TicksIn(evs[..|evs| - 1]) + if evs[|evs| - 1] == Tick then 1 else 0
  }

  lemma {:induction false} TicksConcat(s: seq<Event>, t: seq<Event>)
    ensures TicksIn(s + t) == TicksIn(s) + TicksIn(t)
    decreases |t|
  {
    if t == [] {
      assert s + t == s;
    } else {
      var n := |t| - 1;
      TicksConcat(s, t[..n]);
      assert (s + t)[..|s + t| - 1] == s + t[..n];
    }
  }

  lemma {:induction false} RetiredAtMostTicks(env: Env, m: Machine, evs: seq<Event>)
    ensures Retirements(env, m, evs) <= TicksIn(evs)
    decreases |evs|
  {
    hide Step;
    if evs != [] {
      RetiredAtMostTicks(env, m, evs[..|evs| - 1]);
    }
  }

  // Every attempted instruction retired.
  predicate AllRetire(env: Env, m: Machine, evs: seq<Event>) {
    Retirements(env, m, evs) == TicksIn(evs)
  }

  // ... but the last, with which the events end.
  predicate EndsStuck(env: Env, m: Machine, evs: seq<Event>) {
    && evs != [] && evs[|evs| - 1] == Tick && AllRetire(env, m, evs[..|evs| - 1])
    && var at := Exec(env, m, evs[..|evs| - 1]); !Step(env, at.cpu, at.mem).Retired?
  }

  lemma RetireSnoc(env: Env, m: Machine, evs: seq<Event>, ev: Event)
    requires AllRetire(env, m, evs)
    requires var at := Exec(env, m, evs); ev == Tick ==> Step(env, at.cpu, at.mem).Retired?
    ensures AllRetire(env, m, evs + [ev])
  {
    hide Step;
    RetirementsSnoc(env, m, evs, ev);
    TicksConcat(evs, [ev]);
    assert TicksIn([ev]) == if ev == Tick then 1 else 0 by {
      assert [ev][..0] == [];
    }
  }

  lemma RetireConcat(env: Env, m: Machine, s: seq<Event>, t: seq<Event>)
    requires AllRetire(env, m, s)
    ensures AllRetire(env, Exec(env, m, s), t) ==> AllRetire(env, m, s + t)
    ensures EndsStuck(env, Exec(env, m, s), t) ==> EndsStuck(env, m, s + t)
  {
    hide Step;
    RetirementsConcat(env, m, s, t);
    TicksConcat(s, t);
    if t != [] {
      var init := t[..|t| - 1];
      RetirementsConcat(env, m, s, init);
      TicksConcat(s, init);
      ExecConcat(env, m, s, init);
      assert (s + t)[..|s + t| - 1] == s + init;
    }
  }

  predicate Hit(evs: seq<Event>, a: int) {
    Discard(PageOf(a)) in evs
  }

  // ---- What a pass does to memory ----

  // The word a pass leaves where it found `was`.
  function NewWord(p: Pass, a: int, was: Word): Word {
    match p.kind
    case Touch => Wrap(a)
    case Fill => p.val
    case Sweep => Wrap(was as int + 1)
    case _ => was
  }

  // How many pages of [lo, c) do not hold val.
  function Mismatches(mem: Memory, lo: int, c: int, val: Word): int
    decreases c - lo
  {
    if c <= lo then 0
    else Mismatches(mem, lo, c - PAGE, val) + if Read(mem, c - PAGE) != val then 1 else 0
  }

  // That count is the size of the set of those pages.
  lemma {:induction false} MismatchesIsCardinality(mem: Memory, lo: int, c: int, val: Word)
    requires Aligned(lo) && Aligned(c) && lo <= c
    ensures Mismatches(mem, lo, c, val) == |set a | lo <= a < c && Aligned(a) && Read(mem, a) != val|
    decreases c - lo
  {
    var s := set a | lo <= a < c && Aligned(a) && Read(mem, a) != val;
    if c == lo {
      assert s == {};
    } else {
      PageBelow(lo, c);
      MismatchesIsCardinality(mem, lo, c - PAGE, val);
      MismatchesGrow(mem, lo, c - PAGE, val);
    }
  }

  lemma MismatchesGrow(mem: Memory, lo: int, c: int, val: Word)
    requires Aligned(c) && lo <= c
    ensures (set a | lo <= a < c + PAGE && Aligned(a) && Read(mem, a) != val) ==
            (set a | lo <= a < c && Aligned(a) && Read(mem, a) != val) + if Read(mem, c) != val then {c} else {}
  {
    forall a ensures lo <= a < c + PAGE && Aligned(a) <==> (lo <= a < c && Aligned(a)) || a == c {
      NextGrid(lo, c, a);
    }
  }

  // The state of a pass after the events evs, given memory mem0 when it was armed. Pages the
  // kernel discarded on the way are the only ones about which nothing is promised.
  ghost predicate Underway(p: Pass, e: int, mem0: Memory, evs: seq<Event>, m: Machine) {
    Ctl(p, e, m.cpu) && Advanced(p, ViewOf(p, m.cpu), mem0, evs, m.mem)
  }

  ghost predicate Advanced(p: Pass, v: View, mem0: Memory, evs: seq<Event>, mem: Memory) {
    && (forall a :: !Hit(evs, a) ==>
          Read(mem, a) == if OnGrid(p.lo, v.cursor, a) then NewWord(p, a, Read(mem0, a)) else Read(mem0, a))
    && (v.held.Some? && !Hit(evs, v.cursor) ==> v.held.value == Read(mem0, v.cursor))
    && ((p.kind == Verify && forall a :: OnGrid(p.lo, v.cursor, a) ==> !Hit(evs, a)) ==>
          v.bad == Mismatches(mem0, p.lo, v.cursor, p.val))
  }

  // The cursor of a pass in the loop lies on the page grid, inside the range while an
  // access is due.
  lemma CursorInRange(p: Pass, e: int, cpu: Cpu)
    requires EndsAt(p, e) && Ctl(p, e, cpu)
    ensures var c := ViewOf(p, cpu).cursor; Aligned(c) && p.lo <= c <= e
    ensures Acts(p, cpu) ==> ViewOf(p, cpu).cursor < e
    ensures ViewOf(p, cpu).held.Some? ==> ViewOf(p, cpu).cursor < e
    ensures AtBell(p.kind, cpu) ==> ViewOf(p, cpu).cursor == e && ViewOf(p, cpu).held == None
  {
  }

  lemma NextGrid(lo: int, c: int, a: int)
    requires Aligned(c) && lo <= c
    ensures OnGrid(lo, c + PAGE, a) <==> OnGrid(lo, c, a) || a == c
  {
  }

  lemma HitSnoc(evs: seq<Event>, ev: Event, a: int)
    ensures Hit(evs + [ev], a) <==> Hit(evs, a) || ev == Discard(PageOf(a))
  {
  }

  lemma DropOther(mem: Memory, page: int, a: int)
    ensures Read(DropPage(mem, page), a) == if PageOf(a) == page then 0 else Read(mem, a)
  {
  }

  lemma UnderwayDiscard(p: Pass, e: int, mem0: Memory, evs: seq<Event>, m: Machine, page: int)
    requires Underway(p, e, mem0, evs, m)
    ensures Underway(p, e, mem0, evs + [Discard(page)], m.(mem := DropPage(m.mem, page)))
  {
    var evs' := evs + [Discard(page)];
    forall a ensures Hit(evs', a) <==> Hit(evs, a) || PageOf(a) == page {
      HitSnoc(evs, Discard(page), a);
    }
    forall a | !Hit(evs', a) ensures Read(DropPage(m.mem, page), a) == Read(m.mem, a) {
      DropOther(m.mem, page, a);
    }
  }

  lemma ActionAdvances(p: Pass, v: View, mem0: Memory, evs: seq<Event>, mem: Memory)
    requires Advanced(p, v, mem0, evs, mem) && Aligned(v.cursor) && p.lo <= v.cursor
    requires v.held.Some? ==> p.kind == Sweep
    ensures Advanced(p, Next(p, v, mem).0, mem0, evs, Next(p, v, mem).1)
  {
    forall a ensures OnGrid(p.lo, v.cursor + PAGE, a) <==> OnGrid(p.lo, v.cursor, a) || a == v.cursor {
      NextGrid(p.lo, v.cursor, a);
    }
    assert OnGrid(p.lo, v.cursor + PAGE, v.cursor);
  }

  lemma AdvancedOverTick(p: Pass, v: View, mem0: Memory, evs: seq<Event>, mem: Memory)
    requires Advanced(p, v, mem0, evs, mem)
    ensures Advanced(p, v, mem0, evs + [Tick], mem)
  {
    forall a ensures Hit(evs + [Tick], a) <==> Hit(evs, a) {
      HitSnoc(evs, Tick, a);
    }
  }

  lemma RankNat(p: Pass, e: int, cpu: Cpu)
    requires EndsAt(p, e) && Ctl(p, e, cpu)
    ensures 0 <= Rank(p, e, cpu)
  {
  }

  lemma UnderwayTick(env: Env, p: Pass, e: int, mem0: Memory, evs: seq<Event>, m: Machine)
    requires Loaded(env.code) && EndsAt(p, e) && Granted(p, e, env.mapped)
    requires Underway(p, e, mem0, evs, m)
    ensures Underway(p, e, mem0, evs + [Tick], Apply(env, m, Tick))
    ensures Step(env, m.cpu, m.mem) ==
            if AtBell(p.kind, m.cpu) then DataAbort(DOORBELL_GPA)
            else Retired(Apply(env, m, Tick).cpu, Apply(env, m, Tick).mem)
    ensures !AtBell(p.kind, m.cpu) ==> 0 <= Rank(p, e, Apply(env, m, Tick).cpu) < Rank(p, e, m.cpu)
  {
    StepRefines(env, p, e, m.cpu, m.mem);
    CursorInRange(p, e, m.cpu);
    var v := ViewOf(p, m.cpu);
    if !AtBell(p.kind, m.cpu) && Acts(p, m.cpu) {
      ActionAdvances(p, v, mem0, evs, m.mem);
      AdvancedOverTick(p, Next(p, v, m.mem).0, mem0, evs, Next(p, v, m.mem).1);
    } else {
      AdvancedOverTick(p, v, mem0, evs, m.mem);
    }
  }

  // Whatever the registers held, however the run is cut up and whichever pages the kernel
  // takes, a pass under way is where the cursor says, and its vCPU stops at the doorbell only.
  lemma {:induction false} PassRun(env: Env, p: Pass, e: int, cpu0: Cpu, mem0: Memory, evs: seq<Event>)
    requires Loaded(env.code) && EndsAt(p, e) && Granted(p, e, env.mapped) && Resume !in evs
    ensures var m := Exec(env, Machine(Arm(p, cpu0), mem0), evs);
      && Underway(p, e, mem0, evs, m)
      && Rank(p, e, m.cpu) + Retirements(env, Machine(Arm(p, cpu0), mem0), evs) <= Rank(p, e, Arm(p, cpu0))
    decreases |evs|
  {
    hide Step;
    hide Rank;
    hide Ctl;
    var start := Machine(Arm(p, cpu0), mem0);
    if evs == [] {
      ArmStarts(p, e, cpu0);
    } else {
      var n := |evs| - 1;
      PassRun(env, p, e, cpu0, mem0, evs[..n]);
      var m := Exec(env, start, evs[..n]);
      assert evs == evs[..n] + [evs[n]];
      assert evs[n] in evs;
      if evs[n] == Tick {
        UnderwayTick(env, p, e, mem0, evs[..n], m);
      } else {
        UnderwayDiscard(p, e, mem0, evs[..n], m, evs[n].page);
      }
    }
  }

  // ---- One complete pass ----

  function PagesDiffering(mem: Memory, lo: int, e: int, val: Word): set<int> {
    set a | lo <= a < e && Aligned(a) && Read(mem, a) != val
  }

  // The outcome of a pass that was armed over memory mem0 and ended in machine m at the
  // doorbell. Only pages the kernel discarded on the way (events evs) are not accounted for.
  ghost predicate Completed(p: Pass, mem0: Memory, evs: seq<Event>, m: Machine) {
    var e := EndOf(p);
    && AtBell(p.kind, m.cpu)
    && (forall a :: !Hit(evs, a) ==>
          Read(m.mem, a) == if OnGrid(p.lo, e, a) then NewWord(p, a, Read(mem0, a)) else Read(mem0, a))
    && ((p.kind == Verify && forall a :: OnGrid(p.lo, e, a) ==> !Hit(evs, a)) ==>
          m.cpu.x[4] == |PagesDiffering(mem0, p.lo, e, p.val)|)
  }

  // The five programs, from their raw words to their meaning. A pass never stops but at the
  // doorbell; it gets there within a bounded number of instructions; and it leaves every
  // word whose page the kernel spared as `NewWord` says on the page grid and untouched off it.
  lemma PassResult(env: Env, p: Pass, cpu0: Cpu, mem0: Memory, evs: seq<Event>)
    requires Loaded(env.code) && Valid(p) && Granted(p, EndOf(p), env.mapped) && Resume !in evs
    ensures var m := Exec(env, Machine(Arm(p, cpu0), mem0), evs);
      && (if AtBell(p.kind, m.cpu) then Step(env, m.cpu, m.mem) == DataAbort(DOORBELL_GPA)
          else Step(env, m.cpu, m.mem).Retired?)
      && Retirements(env, Machine(Arm(p, cpu0), mem0), evs) <= Rank(p, EndOf(p), Arm(p, cpu0))
      && (AtBell(p.kind, m.cpu) ==> Completed(p, mem0, evs, m))
  {
    var e := EndOf(p);
    EndOfEnds(p);
    PassRun(env, p, e, cpu0, mem0, evs);
    var m := Exec(env, Machine(Arm(p, cpu0), mem0), evs);
    UnderwayTick(env, p, e, mem0, evs, m);
    CursorInRange(p, e, m.cpu);
    RankNat(p, e, m.cpu);
    MismatchesIsCardinality(mem0, p.lo, e, p.val);
  }

  // The range a pass covers is the one it was given exactly when that range is nonempty and
  // ends on a page boundary. An empty range still has its first page accessed.
  lemma CoversItsRange(p: Pass)
    requires Aligned(p.lo)
    ensures EndOf(p) == p.hi <==> p.lo < p.hi && Aligned(p.hi)
    ensures p.hi <= p.lo ==> OnGrid(p.lo, EndOf(p), p.lo)
  {
  }

  predicate OnlyTicks(evs: seq<Event>) {
    forall i :: 0 <= i < |evs| ==> evs[i] == Tick
  }

  lemma {:induction false} StuckAtBell(env: Env, m: Machine, evs: seq<Event>)
    requires Step(env, m.cpu, m.mem) == DataAbort(DOORBELL_GPA) && OnlyTicks(evs)
    ensures Exec(env, m, evs) == m
    decreases |evs|
  {
    if evs != [] {
      StuckAtBell(env, m, evs[..|evs| - 1]);
    }
  }

  // Cancelled entries only decide how many instructions each hv_vcpu_run retires. However
  // many there were, a vCPU that has reached the doorbell is in one and the same state.
  lemma ScheduleIndependent(env: Env, m: Machine, s: seq<Event>, t: seq<Event>)
    requires OnlyTicks(s) && OnlyTicks(t)
    requires var a := Exec(env, m, s); Step(env, a.cpu, a.mem) == DataAbort(DOORBELL_GPA)
    requires var b := Exec(env, m, t); Step(env, b.cpu, b.mem) == DataAbort(DOORBELL_GPA)
    ensures Exec(env, m, s) == Exec(env, m, t)
  {
    if |s| <= |t| {
      assert t == s + t[|s|..];
      ExecConcat(env, m, s, t[|s|..]);
      StuckAtBell(env, Exec(env, m, s), t[|s|..]);
    } else {
      assert s == t + s[|t|..];
      ExecConcat(env, m, t, s[|t|..]);
      StuckAtBell(env, Exec(env, m, t), s[|t|..]);
    }
  }

  lemma TickNearer(env: Env, p: Pass, e: int, m: Machine)
    requires Loaded(env.code) && EndsAt(p, e) && Granted(p, e, env.mapped) && Ctl(p, e, m.cpu)
    ensures var m' := Apply(env, m, Tick);
      && Ctl(p, e, m'.cpu)
      && (AtBell(p.kind, m.cpu) ==> m' == m)
      && (!AtBell(p.kind, m.cpu) ==> 0 <= Rank(p, e, m'.cpu) < Rank(p, e, m.cpu))
  {
    StepRefines(env, p, e, m.cpu, m.mem);
  }

  // n attempted instructions.
  function Spin(env: Env, m: Machine, n: nat): Machine {
    if n == 0 then m else Apply(env, Spin(env, m, n - 1), Tick)
  }

  lemma {:induction false} BellWithin(env: Env, p: Pass, e: int, m: Machine, n: nat)
    requires Loaded(env.code) && EndsAt(p, e) && Granted(p, e, env.mapped) && Ctl(p, e, m.cpu)
    ensures var m' := Spin(env, m, n);
      Ctl(p, e, m'.cpu) && (AtBell(p.kind, m'.cpu) || 0 <= Rank(p, e, m'.cpu) <= Rank(p, e, m.cpu) - n)
    decreases n
  {
    if n == 0 {
      RankNat(p, e, m.cpu);
    } else {
      BellWithin(env, p, e, m, n - 1);
      TickNearer(env, p, e, Spin(env, m, n - 1));
    }
  }

  // Left alone, a vCPU in a pass gets to the doorbell.
  lemma ToTheBell(env: Env, p: Pass, e: int, m: Machine) returns (t: seq<Event>)
    requires Loaded(env.code) && EndsAt(p, e) && Granted(p, e, env.mapped) && Ctl(p, e, m.cpu)
    ensures OnlyTicks(t) && AllRetire(env, m, t) && AtBell(p.kind, Exec(env, m, t).cpu)
    decreases Rank(p, e, m.cpu)
  {
    hide Step;
    hide Ctl;
    hide Rank;
    t := [];
    if !AtBell(p.kind, m.cpu) {
      StepRefines(env, p, e, m.cpu, m.mem);
      TickNearer(env, p, e, m);
      OneTick(env, m);
      var rest := ToTheBell(env, p, e, Apply(env, m, Tick));
      ExecConcat(env, m, [Tick], rest);
      RetireConcat(env, m, [Tick], rest);
      t := [Tick] + rest;
    }
  }

  lemma OneTick(env: Env, m: Machine)
    ensures Exec(env, m, [Tick]) == Apply(env, m, Tick)
    ensures Step(env, m.cpu, m.mem).Retired? ==> AllRetire(env, m, [Tick])
  {
    hide Step;
    assert [] + [Tick] == [Tick];
    ExecSnoc(env, m, [], Tick);
    if Step(env, m.cpu, m.mem).Retired? {
      RetireSnoc(env, m, [], Tick);
    }
  }

  // ... where its next instruction is stuck.
  lemma AndStop(env: Env, m: Machine, t: seq<Event>)
    requires AllRetire(env, m, t) && OnlyTicks(t)
    requires Step(env, Exec(env, m, t).cpu, Exec(env, m, t).mem) == DataAbort(DOORBELL_GPA)
    ensures EndsStuck(env, m, t + [Tick]) && Exec(env, m, t + [Tick]) == Exec(env, m, t)
    ensures OnlyTicks(t + [Tick]) && Resume !in t + [Tick] && NoDiscards(t + [Tick])
  {
    hide Step;
    ExecSnoc(env, m, t, Tick);
    assert (t + [Tick])[..|t|] == t;
  }

  lemma SpinIsTicks(env: Env, m: Machine, n: nat) returns (t: seq<Event>)
    ensures OnlyTicks(t) && Exec(env, m, t) == Spin(env, m, n)
    decreases n
  {
    hide Step;
    t := [];
    if n > 0 {
      var before := SpinIsTicks(env, m, n - 1);
      ExecSnoc(env, m, before, Tick);
      t := before + [Tick];
    }
  }

  // A pass on a machine nobody interferes with: instructions until it is at the doorbell.
  function Uninterrupted(env: Env, p: Pass, cpu0: Cpu, mem0: Memory): Machine
    requires Valid(p)
  {
    EndOfEnds(p);
    ArmStarts(p, EndOf(p), cpu0);
    RankNat(p, EndOf(p), Arm(p, cpu0));
    Spin(env, Machine(Arm(p, cpu0), mem0), Rank(p, EndOf(p), Arm(p, cpu0)) + 1)
  }

  ghost predicate NoDiscards(t: seq<Event>) {
    forall page :: Discard(page) !in t
  }

  // Cancels only decide where a run is cut, and the pieces put together are one list of
  // attempted instructions. However they fell, a pass the kernel left alone ends in the one
  // state an uninterrupted pass ends in, registers and all.
  lemma CancelsDoNotMatter(env: Env, p: Pass, cpu0: Cpu, mem0: Memory, t: seq<Event>)
    requires Loaded(env.code) && Valid(p) && Granted(p, EndOf(p), env.mapped)
    requires Resume !in t && NoDiscards(t)
    requires AtBell(p.kind, Exec(env, Machine(Arm(p, cpu0), mem0), t).cpu)
    ensures Exec(env, Machine(Arm(p, cpu0), mem0), t) == Uninterrupted(env, p, cpu0, mem0)
  {
    hide Step;
    var e, start := EndOf(p), Machine(Arm(p, cpu0), mem0);
    EndOfEnds(p);
    ArmStarts(p, e, cpu0);
    RankNat(p, e, start.cpu);
    BellWithin(env, p, e, start, Rank(p, e, start.cpu) + 1);
    var u := SpinIsTicks(env, start, Rank(p, e, start.cpu) + 1);
    OnlyTicksLeft(t);
    BellHere(env, p, cpu0, mem0, t);
    BellHere(env, p, cpu0, mem0, u);
    ScheduleIndependent(env, start, t, u);
  }

  lemma OnlyTicksLeft(t: seq<Event>)
    requires Resume !in t && NoDiscards(t)
    ensures OnlyTicks(t)
  {
    forall i | 0 <= i < |t| ensures t[i] == Tick {
      assert t[i] in t;
      match t[i]
      case Tick =>
      case Discard(page) =>
      case Resume =>
    }
  }

  lemma BellHere(env: Env, p: Pass, cpu0: Cpu, mem0: Memory, t: seq<Event>)
    requires Loaded(env.code) && Valid(p) && Granted(p, EndOf(p), env.mapped) && Resume !in t
    requires AtBell(p.kind, Exec(env, Machine(Arm(p, cpu0), mem0), t).cpu)
    ensures var m := Exec(env, Machine(Arm(p, cpu0), mem0), t); Step(env, m.cpu, m.mem) == DataAbort(DOORBELL_GPA)
  {
    hide Step;
    PassResult(env, p, cpu0, mem0, t);
  }

  // ---- Sequences of passes on one vCPU ----

  datatype Call = Call(pass: Pass, evs: seq<Event>)

  // The registers a call finds are whatever the one before it left.
  function RunCalls(env: Env, m: Machine, calls: seq<Call>): Machine {
    if calls == [] then m
    else
      var before := RunCalls(env, m, calls[..|calls| - 1]);
      var c := calls[|calls| - 1];
      Exec(env, Machine(Arm(c.pass, before.cpu), before.mem), c.evs)
  }

  // Each call runs to its doorbell.
  ghost predicate AllComplete(env: Env, m: Machine, calls: seq<Call>) {
    && (forall i :: 0 <= i < |calls| ==>
          && Valid(calls[i].pass) && Granted(calls[i].pass, EndOf(calls[i].pass), env.mapped)
          && Resume !in calls[i].evs)
    && (forall i :: 0 < i <= |calls| ==>
          AtBell(calls[i - 1].pass.kind, RunCalls(env, m, calls[..i]).cpu))
  }

  // The same sequence as a function of the one word at address a.
  function WordAfter(calls: seq<Call>, a: int, w: Word): Word {
    if calls == [] then w
    else
      var p := calls[|calls| - 1].pass;
      var before := WordAfter(calls[..|calls| - 1], a, w);
      if OnGrid(p.lo, EndOf(p), a) then NewWord(p, a, before) else before
  }

  predicate Spared(calls: seq<Call>, a: int) {
    forall i :: 0 <= i < |calls| ==> !Hit(calls[i].evs, a)
  }

  lemma InitComplete(env: Env, m: Machine, calls: seq<Call>)
    requires AllComplete(env, m, calls) && calls != []
    ensures var n := |calls| - 1;
      && AllComplete(env, m, calls[..n])
      && AtBell(calls[n].pass.kind, RunCalls(env, m, calls).cpu)
  {
    var n := |calls| - 1;
    forall i | 0 < i <= n ensures calls[..n][..i] == calls[..i] {}
    assert calls[..|calls|] == calls;
  }

  // Passes are independent of one another's registers: any sequence of them acts on memory
  // as the fold of pure word functions.
  lemma {:induction false} CallsAreAFold(env: Env, m: Machine, calls: seq<Call>)
    requires Loaded(env.code) && AllComplete(env, m, calls)
    ensures forall a :: Spared(calls, a) ==>
              Read(RunCalls(env, m, calls).mem, a) == WordAfter(calls, a, Read(m.mem, a))
    decreases |calls|
  {
    if calls != [] {
      var n := |calls| - 1;
      var c, before := calls[n], RunCalls(env, m, calls[..n]);
      InitComplete(env, m, calls);
      CallsAreAFold(env, m, calls[..n]);
      PassResult(env, c.pass, before.cpu, before.mem, c.evs);
      forall a | Spared(calls, a)
        ensures Read(RunCalls(env, m, calls).mem, a) == WordAfter(calls, a, Read(m.mem, a))
      {
        assert Spared(calls[..n], a) && !Hit(c.evs, a);
      }
    }
  }

  // The pages of p's range on which the fold differs from the expected value.
  function FoldDiffering(calls: seq<Call>, p: Pass, mem: Memory): set<int> {
    set a | p.lo <= a < EndOf(p) && Aligned(a) && WordAfter(calls, a, Read(mem, a)) != p.val
  }

  lemma DifferingAgree(env: Env, m: Machine, calls: seq<Call>, p: Pass)
    requires Loaded(env.code) && AllComplete(env, m, calls)
    requires forall a :: OnGrid(p.lo, EndOf(p), a) ==> Spared(calls, a)
    ensures PagesDiffering(RunCalls(env, m, calls).mem, p.lo, EndOf(p), p.val) == FoldDiffering(calls, p, m.mem)
  {
    CallsAreAFold(env, m, calls);
    forall a | OnGrid(p.lo, EndOf(p), a)
      ensures Read(RunCalls(env, m, calls).mem, a) == WordAfter(calls, a, Read(m.mem, a))
    {
      assert Spared(calls, a);
    }
  }

  // A final Verify reports exactly those pages.
  lemma VerdictOfFold(env: Env, m: Machine, calls: seq<Call>, last: Call)
    requires Loaded(env.code) && AllComplete(env, m, calls + [last]) && last.pass.kind == Verify
    requires forall a :: OnGrid(last.pass.lo, EndOf(last.pass), a) ==> Spared(calls, a) && !Hit(last.evs, a)
    ensures RunCalls(env, m, calls + [last]).cpu.x[4] == |FoldDiffering(calls, last.pass, m.mem)|
  {
    assert (calls + [last])[..|calls|] == calls;
    InitComplete(env, m, calls + [last]);
    DifferingAgree(env, m, calls, last.pass);
    var before := RunCalls(env, m, calls);
    PassResult(env, last.pass, before.cpu, before.mem, last.evs);
  }
}
