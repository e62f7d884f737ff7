// The concurrent-write race probe: RMW sweeps over all of guest RAM, resumed past the
// doorbell after each one, while the kernel discards pages at arbitrary moments.

module Hammer {
  import opened Words
  import opened Arm64
  import opened GuestCode
  import opened Passes
  import opened Runs

  // The registers run_hammer sets; x1 is left to the program's first instruction.
  function ArmHammer(p: Pass, cpu: Cpu): Cpu {
    cpu.(pc := Entry(Sweep), x := cpu.x[2 := p.hi][3 := DOORBELL_GPA][4 := 0][6 := p.lo])
  }

  // Between the load and the store of the increment of the word at a.
  predicate InWindow(cpu: Cpu, a: int) {
    (cpu.pc == Entry(Sweep) + 8 || cpu.pc == Entry(Sweep) + 12) && cpu.x[1] == a
  }

  // Pages (by first address) the kernel discarded outside their own load-to-store window.
  function Struck(env: Env, m: Machine, evs: seq<Event>): set<int> {
    if evs == [] then {}
    else
      var before, ev := evs[..|evs| - 1], evs[|evs| - 1];
      Struck(env, m, before) +
      if ev.Discard? && !InWindow(Exec(env, m, before).cpu, ev.page * PAGE) then {ev.page * PAGE} else {}
  }

  // How often the word at a has been stored so far.
  function Stores(v: View, d: int, a: int): int {
    d + if a < v.cursor then 1 else 0
  }

  // The value the next store of a will be based on.
  function Carried(v: View, mem: Memory, a: int): Word {
    if v.held.Some? && v.cursor == a then v.held.value else Read(mem, a)
  }

  ghost predicate Counting(p: Pass, e: int, v: View, d: int, mem0: Memory, struck: set<int>, mem: Memory) {
    forall a :: OnGrid(p.lo, e, a) ==>
      var w := Carried(v, mem, a);
      if a in struck then w <= Stores(v, d, a) else w == Read(mem0, a) + Stores(v, d, a)
  }

  ghost predicate Hammering(p: Pass, e: int, mem0: Memory, n: nat, struck: set<int>, m: Machine) {
    var v, d := ViewOf(p, m.cpu), SweepsBefore(m.cpu);
    && Ctl(p, e, m.cpu)
    && 0 <= d && d + (if v.cursor > p.lo then 1 else 0) <= n
    && Counting(p, e, v, d, mem0, struck, m.mem)
  }

  // No counter can wrap within a run of n events.
  ghost predicate Roomy(p: Pass, e: int, mem0: Memory, n: nat) {
    n < TWO64 && forall a :: OnGrid(p.lo, e, a) ==> Read(mem0, a) + n < TWO64
  }

  lemma ActionCounts(p: Pass, e: int, v: View, d: int, mem0: Memory, struck: set<int>, mem: Memory, n: nat)
    requires p.kind == Sweep && Aligned(v.cursor) && p.lo <= v.cursor < e
    requires Counting(p, e, v, d, mem0, struck, mem)
    requires Roomy(p, e, mem0, n) && 0 <= d < n
    ensures Counting(p, e, Next(p, v, mem).0, d, mem0, struck, Next(p, v, mem).1)
  {
    var (v', mem') := Next(p, v, mem);
    forall a | OnGrid(p.lo, e, a)
      ensures var w := Carried(v', mem', a);
        if a in struck then w <= Stores(v', d, a) else w == Read(mem0, a) + Stores(v', d, a)
    {
      NextGrid(p.lo, v.cursor, a);
      if v.held == None {
        assert Carried(v', mem', a) == Carried(v, mem, a);
      } else if a == v.cursor {
        assert v.held.value as int <= Read(mem0, a) + d || a in struck;
        Unwraps(v.held.value as int + 1);
      } else {
        assert Carried(v', mem', a) == Read(mem, a) == Carried(v, mem, a);
      }
    }
  }

  lemma DiscardCounts(p: Pass, e: int, v: View, d: int, mem0: Memory, struck: set<int>, mem: Memory, page: int)
    requires Counting(p, e, v, d, mem0, struck, mem) && 0 <= d
    ensures var masked := v.held.Some? && v.cursor == page * PAGE;
      Counting(p, e, v, d, mem0, if masked then struck else struck + {page * PAGE}, DropPage(mem, page))
  {
    forall a ensures Read(DropPage(mem, page), a) == if PageOf(a) == page then 0 else Read(mem, a) {
      DropOther(mem, page, a);
    }
    forall a | Aligned(a) ensures PageOf(a) == page <==> a == page * PAGE {
    }
  }

  lemma WindowIsHeld(p: Pass, e: int, cpu: Cpu, a: int)
    requires p.kind == Sweep && Ctl(p, e, cpu)
    ensures InWindow(cpu, a) <==> ViewOf(p, cpu).held.Some? && ViewOf(p, cpu).cursor == a
  {
  }

  lemma HammerTick(env: Env, p: Pass, e: int, mem0: Memory, n: nat, struck: set<int>, m: Machine)
    requires Loaded(env.code) && EndsAt(p, e) && Granted(p, e, env.mapped) && p.kind == Sweep
    requires Hammering(p, e, mem0, n, struck, m) && Roomy(p, e, mem0, n + 1)
    ensures Hammering(p, e, mem0, n + 1, struck, Apply(env, m, Tick))
    ensures Step(env, m.cpu, m.mem) ==
            if AtBell(Sweep, m.cpu) then DataAbort(DOORBELL_GPA)
            else Retired(Apply(env, m, Tick).cpu, Apply(env, m, Tick).mem)
    ensures !AtBell(Sweep, m.cpu) ==> 0 <= Rank(p, e, Apply(env, m, Tick).cpu) < Rank(p, e, m.cpu)
  {
    StepRefines(env, p, e, m.cpu, m.mem);
    CursorInRange(p, e, m.cpu);
    var v, d := ViewOf(p, m.cpu), SweepsBefore(m.cpu);
    if !AtBell(Sweep, m.cpu) {
      var m' := Apply(env, m, Tick);
      CursorInRange(p, e, m'.cpu);
      if Acts(p, m.cpu) {
        ActionCounts(p, e, v, d, mem0, struck, m.mem, n + 1);
      }
    }
  }

  lemma HammerDiscard(p: Pass, e: int, mem0: Memory, n: nat, struck: set<int>, m: Machine, page: int)
    requires p.kind == Sweep && Hammering(p, e, mem0, n, struck, m)
    ensures var struck' := struck + if InWindow(m.cpu, page * PAGE) then {} else {page * PAGE};
      Hammering(p, e, mem0, n + 1, struck', m.(mem := DropPage(m.mem, page)))
  {
    WindowIsHeld(p, e, m.cpu, page * PAGE);
    DiscardCounts(p, e, ViewOf(p, m.cpu), SweepsBefore(m.cpu), mem0, struck, m.mem, page);
    assert struck + {} == struck;
  }

  // Stepping past the doorbell store turns a finished sweep into the start of the next.
  lemma HammerResume(env: Env, p: Pass, e: int, mem0: Memory, n: nat, struck: set<int>, m: Machine)
    requires Loaded(env.code) && EndsAt(p, e) && Granted(p, e, env.mapped) && p.kind == Sweep
    requires Hammering(p, e, mem0, n, struck, m)
    ensures Hammering(p, e, mem0, n + 1, struck, Apply(env, m, Resume))
    ensures AtBell(Sweep, m.cpu) ==>
      var cpu' := Apply(env, m, Resume).cpu; IndexOf(Sweep, cpu') == 9 && cpu'.x == m.cpu.x
  {
    StepRefines(env, p, e, m.cpu, m.mem);
    CursorInRange(p, e, m.cpu);
    if AtBell(Sweep, m.cpu) {
      IndexAfter(Sweep, m.cpu, 8, 1);
    }
  }

  lemma {:induction false} HammerRun(env: Env, p: Pass, e: int, cpu0: Cpu, mem0: Memory, evs: seq<Event>)
    requires Loaded(env.code) && EndsAt(p, e) && Granted(p, e, env.mapped) && p.kind == Sweep
    requires Roomy(p, e, mem0, |evs|)
    ensures var start := Machine(ArmHammer(p, cpu0), mem0);
      Hammering(p, e, mem0, |evs|, Struck(env, start, evs), Exec(env, start, evs))
    decreases |evs|
  {
    var start := Machine(ArmHammer(p, cpu0), mem0);
    if evs != [] {
      var n := |evs| - 1;
      HammerRun(env, p, e, cpu0, mem0, evs[..n]);
      var m, struck := Exec(env, start, evs[..n]), Struck(env, start, evs[..n]);
      match evs[n]
      case Tick => HammerTick(env, p, e, mem0, n, struck, m);
      case Discard(page) => HammerDiscard(p, e, mem0, n, struck, m, page);
      case Resume => HammerResume(env, p, e, mem0, n, struck, m);
    }
  }

  lemma ArmHammerStarts(p: Pass, e: int, cpu: Cpu)
    requires EndsAt(p, e) && p.kind == Sweep
    ensures Ctl(p, e, ArmHammer(p, cpu)) && SweepsBefore(ArmHammer(p, cpu)) == 0
  {
  }

  lemma ResumeNextSweep(env: Env, p: Pass, e: int, m: Machine)
    requires Loaded(env.code) && EndsAt(p, e) && Granted(p, e, env.mapped) && p.kind == Sweep
    requires Ctl(p, e, m.cpu) && AtBell(Sweep, m.cpu)
    ensures var m' := Apply(env, m, Resume);
      && m' == m.(cpu := Advance(m.cpu, 4))
      && Ctl(p, e, m'.cpu) && SweepsBefore(m'.cpu) == m.cpu.x[4]
  {
    StepRefines(env, p, e, m.cpu, m.mem);
    IndexAfter(Sweep, m.cpu, 8, 1);
  }

  // One leg of a hammer run, between two returns to the host at the doorbell.
  lemma {:induction false} HammerLeg(env: Env, p: Pass, e: int, m: Machine, evs: seq<Event>)
    requires Loaded(env.code) && EndsAt(p, e) && Granted(p, e, env.mapped) && p.kind == Sweep
    requires Ctl(p, e, m.cpu) && SweepsBefore(m.cpu) < TWO64 - 1 && Resume !in evs
    ensures var m' := Exec(env, m, evs);
      && Ctl(p, e, m'.cpu) && SweepsBefore(m'.cpu) == SweepsBefore(m.cpu)
      && Rank(p, e, m'.cpu) + Retirements(env, m, evs) <= Rank(p, e, m.cpu)
    decreases |evs|
  {
    hide Step;
    hide Ctl;
    hide Rank;
    if evs != [] {
      var n := |evs| - 1;
      HammerLeg(env, p, e, m, evs[..n]);
      assert evs[n] in evs;
      var m1 := Exec(env, m, evs[..n]);
      if evs[n] == Tick {
        StepRefines(env, p, e, m1.cpu, m1.mem);
      }
    }
  }

  // How often the host has resumed a vCPU that stood at the doorbell.
  function Laps(env: Env, m: Machine, evs: seq<Event>): nat {
    if evs == [] then 0
    else
      var before := evs[..|evs| - 1];
      var at := Exec(env, m, before);
      Laps(env, m, before) +
      if evs[|evs| - 1] == Resume && Step(env, at.cpu, at.mem) == DataAbort(DOORBELL_GPA) then 1 else 0
  }

  lemma LapsSnoc(env: Env, m: Machine, evs: seq<Event>, ev: Event)
    ensures var at := Exec(env, m, evs);
      Laps(env, m, evs + [ev]) == Laps(env, m, evs) +
        if ev == Resume && Step(env, at.cpu, at.mem) == DataAbort(DOORBELL_GPA) then 1 else 0
  {
    assert (evs + [ev])[..|evs|] == evs;
  }

  lemma {:induction false} LapsOverLeg(env: Env, m: Machine, evs: seq<Event>, leg: seq<Event>)
    requires Resume !in leg
    ensures Laps(env, m, evs + leg) == Laps(env, m, evs)
    decreases |leg|
  {
    hide Step;
    if leg == [] {
      assert evs + leg == evs;
    } else {
      var init, last := leg[..|leg| - 1], leg[|leg| - 1];
      LapsOverLeg(env, m, evs, init);
      assert evs + leg == (evs + init) + [last] && last in leg;
      LapsSnoc(env, m, evs + init, last);
    }
  }

  // The sweep counter of a hammer run is the number of laps: no sweep is skipped or repeated
  // by stepping past the doorbell, wherever the run was cut.
  lemma {:induction false} CounterIsLaps(env: Env, p: Pass, e: int, cpu0: Cpu, mem0: Memory, evs: seq<Event>)
    requires Loaded(env.code) && EndsAt(p, e) && Granted(p, e, env.mapped) && p.kind == Sweep
    requires Laps(env, Machine(ArmHammer(p, cpu0), mem0), evs) < TWO64 - 1
    ensures var start := Machine(ArmHammer(p, cpu0), mem0); var m := Exec(env, start, evs);
      Ctl(p, e, m.cpu) && 0 <= Rank(p, e, m.cpu) && SweepsBefore(m.cpu) == Laps(env, start, evs)
    decreases |evs|
  {
    hide Ctl;
    hide Rank;
    hide Step;
    var start := Machine(ArmHammer(p, cpu0), mem0);
    if evs == [] {
      ArmHammerStarts(p, e, cpu0);
    } else {
      var n := |evs| - 1;
      CounterIsLaps(env, p, e, cpu0, mem0, evs[..n]);
      var m := Exec(env, start, evs[..n]);
      assert evs == evs[..n] + [evs[n]];
      StepRefines(env, p, e, m.cpu, m.mem);
      if evs[n] == Resume && AtBell(Sweep, m.cpu) {
        ResumeNextSweep(env, p, e, m);
      }
    }
    RankNat(p, e, Exec(env, start, evs).cpu);
  }

  // One entry of the vCPU, after the events evs of a hammer run.
  lemma HammerEntry(env: Env, p: Pass, cpu0: Cpu, mem0: Memory, evs: seq<Event>, leg: seq<Event>)
    requires Loaded(env.code) && Valid(p) && Granted(p, EndOf(p), env.mapped) && p.kind == Sweep
    requires Laps(env, Machine(ArmHammer(p, cpu0), mem0), evs) < TWO64 - 1 && Resume !in leg
    ensures var start := Machine(ArmHammer(p, cpu0), mem0);
      var m, m' := Exec(env, start, evs), Exec(env, start, evs + leg);
      && m' == Exec(env, m, leg)
      && Laps(env, start, evs + leg) == Laps(env, start, evs)
      && 0 <= Rank(p, EndOf(p), m'.cpu) <= Rank(p, EndOf(p), m.cpu) - Retirements(env, m, leg)
      && (Step(env, m'.cpu, m'.mem).Retired? || Step(env, m'.cpu, m'.mem) == DataAbort(DOORBELL_GPA))
      && (Step(env, m'.cpu, m'.mem) == DataAbort(DOORBELL_GPA) ==>
            AtBell(Sweep, m'.cpu) && m'.cpu.x[4] == Laps(env, start, evs) + 1)
  {
    var e, start := EndOf(p), Machine(ArmHammer(p, cpu0), mem0);
    EndOfEnds(p);
    ExecConcat(env, start, evs, leg);
    LapsOverLeg(env, start, evs, leg);
    CounterIsLaps(env, p, e, cpu0, mem0, evs);
    CounterIsLaps(env, p, e, cpu0, mem0, evs + leg);
    HammerLeg(env, p, e, Exec(env, start, evs), leg);
    var m' := Exec(env, start, evs + leg);
    StepRefines(env, p, e, m'.cpu, m'.mem);
  }

  lemma HammerResumed(env: Env, p: Pass, cpu0: Cpu, mem0: Memory, evs: seq<Event>)
    requires Loaded(env.code) && Valid(p) && Granted(p, EndOf(p), env.mapped) && p.kind == Sweep
    requires var start := Machine(ArmHammer(p, cpu0), mem0); var m := Exec(env, start, evs);
      Laps(env, start, evs) < TWO64 - 2 && Step(env, m.cpu, m.mem) == DataAbort(DOORBELL_GPA)
    ensures var start := Machine(ArmHammer(p, cpu0), mem0);
      var m, m' := Exec(env, start, evs), Exec(env, start, evs + [Resume]);
      && m' == m.(cpu := Advance(m.cpu, 4))
      && Laps(env, start, evs + [Resume]) == Laps(env, start, evs) + 1
      && 0 <= Rank(p, EndOf(p), m'.cpu)
  {
    var start := Machine(ArmHammer(p, cpu0), mem0);
    EndOfEnds(p);
    ExecSnoc(env, start, evs, Resume);
    LapsSnoc(env, start, evs, Resume);
    CounterIsLaps(env, p, EndOf(p), cpu0, mem0, evs + [Resume]);
  }

  // Exact detection. Take any run of the hammer, cut at a moment when the vCPU stands at the
  // doorbell, in which no counter has room to wrap. A page has advanced by exactly the number
  // of completed sweeps if every discard of it fell between the load and the store of one of
  // its own increments, and if it started nonzero, only then. Otherwise it reads at most the
  // number of sweeps.
  lemma HammerExact(env: Env, p: Pass, cpu0: Cpu, mem0: Memory, evs: seq<Event>, a: int)
    requires Loaded(env.code) && Valid(p) && p.kind == Sweep && Granted(p, EndOf(p), env.mapped)
    requires Roomy(p, EndOf(p), mem0, |evs|)
    requires OnGrid(p.lo, EndOf(p), a)
    requires AtBell(Sweep, Exec(env, Machine(ArmHammer(p, cpu0), mem0), evs).cpu)
    ensures var start := Machine(ArmHammer(p, cpu0), mem0);
      var m := Exec(env, start, evs); var sweeps := m.cpu.x[4];
      && 1 <= sweeps <= |evs|
      && (a !in Struck(env, start, evs) ==> Read(m.mem, a) == Read(mem0, a) + sweeps)
      && (Read(mem0, a) > 0 ==> (Read(m.mem, a) == Read(mem0, a) + sweeps <==> a !in Struck(env, start, evs)))
      && (a in Struck(env, start, evs) ==> Read(m.mem, a) <= sweeps)
  {
    EndOfEnds(p);
    HammerRun(env, p, EndOf(p), cpu0, mem0, evs);
    CursorInRange(p, EndOf(p), Exec(env, Machine(ArmHammer(p, cpu0), mem0), evs).cpu);
  }

  // ---- A discard that leaves no trace ----

  // A run followed by n more instructions.
  function Extend(evs: seq<Event>, n: nat): seq<Event> {
    if n == 0 then evs else Extend(evs, n - 1) + [Tick]
  }

  lemma {:induction false} ExtendShape(evs: seq<Event>, n: nat)
    ensures |Extend(evs, n)| == |evs| + n
    ensures forall i :: 0 <= i < |evs| ==> Extend(evs, n)[i] == evs[i]
  {
    if n != 0 {
      ExtendShape(evs, n - 1);
    }
  }

  // Two instructions, a discard of the first page, and the rest of the sweep.
  function MaskedRun(p: Pass, n: nat): seq<Event> {
    Extend([Tick, Tick, Discard(PageOf(p.lo))], n)
  }

  lemma StruckOverTick(env: Env, start: Machine, evs: seq<Event>)
    ensures Struck(env, start, evs + [Tick]) == Struck(env, start, evs)
  {
    assert (evs + [Tick])[..|evs|] == evs;
  }

  lemma {:induction false} ExtendStrikesNothing(env: Env, start: Machine, evs: seq<Event>, n: nat)
    ensures Struck(env, start, Extend(evs, n)) == Struck(env, start, evs)
    decreases n
  {
    if n != 0 {
      ExtendStrikesNothing(env, start, evs, n - 1);
      StruckOverTick(env, start, Extend(evs, n - 1));
    }
  }

  lemma {:induction false} ExtendIsSpin(env: Env, start: Machine, evs: seq<Event>, n: nat)
    ensures Exec(env, start, Extend(evs, n)) == Spin(env, Exec(env, start, evs), n)
    decreases n
  {
    if n != 0 {
      ExtendIsSpin(env, start, evs, n - 1);
      var m := Exec(env, start, Extend(evs, n - 1));
      ExecSnoc(env, start, Extend(evs, n - 1), Tick);
      assert Spin(env, Exec(env, start, evs), n) == Apply(env, m, Tick);
    }
  }

  lemma MovEffect(cpu: Cpu, mem: Memory, mapped: set<int>)
    ensures Execute(Orr(1, 31, 6), cpu, mem, mapped) == Retired(Advance(SetReg(cpu, 1, cpu.x[6]), 4), mem)
  {
  }

  lemma FirstTick(env: Env, m: Machine)
    requires Loaded(env.code) && m.cpu.pc == Entry(Sweep)
    ensures var m' := Apply(env, m, Tick);
      m'.cpu == Advance(SetReg(m.cpu, 1, m.cpu.x[6]), 4) && m'.cpu.pc == Entry(Sweep) + 4
  {
    StepAt(env, Sweep, 0, m.cpu, m.mem);
    MovEffect(m.cpu, m.mem, env.mapped);
  }

  lemma SecondTick(env: Env, m: Machine)
    requires Loaded(env.code) && m.cpu.pc == Entry(Sweep) + 4
    requires Aligned(m.cpu.x[1]) && PageOf(m.cpu.x[1]) in env.mapped
    ensures InWindow(Apply(env, m, Tick).cpu, m.cpu.x[1])
  {
    StepAt(env, Sweep, 1, m.cpu, m.mem);
    AccessAt(m.cpu, m.mem, env.mapped, 5);
  }

  // The sweep's first two instructions leave it inside the first page's window.
  lemma FirstWindow(env: Env, p: Pass, cpu0: Cpu, mem0: Memory)
    requires Loaded(env.code) && Valid(p) && p.kind == Sweep && Granted(p, EndOf(p), env.mapped)
    ensures InWindow(Exec(env, Machine(ArmHammer(p, cpu0), mem0), [Tick, Tick]).cpu, p.lo)
  {
    var start := Machine(ArmHammer(p, cpu0), mem0);
    EndOfEnds(p);
    assert OnGrid(p.lo, EndOf(p), p.lo);
    FirstTick(env, start);
    SecondTick(env, Apply(env, start, Tick));
    assert [Tick, Tick] == [Tick] + [Tick] && [Tick] == [] + [Tick];
    ExecSnoc(env, start, [Tick], Tick);
    ExecSnoc(env, start, [], Tick);
  }

  // Discarding the first page there strikes nothing.
  lemma WindowDiscard(env: Env, p: Pass, cpu0: Cpu, mem0: Memory)
    requires Loaded(env.code) && Valid(p) && p.kind == Sweep && Granted(p, EndOf(p), env.mapped)
    ensures Struck(env, Machine(ArmHammer(p, cpu0), mem0), [Tick, Tick, Discard(PageOf(p.lo))]) == {}
  {
    var start, two, d := Machine(ArmHammer(p, cpu0), mem0), [Tick, Tick], Discard(PageOf(p.lo));
    FirstWindow(env, p, cpu0, mem0);
    StruckOverTick(env, start, []);
    StruckOverTick(env, start, [Tick]);
    assert two == [Tick] + [Tick] && [Tick] == [] + [Tick];
    assert (two + [d])[..2] == two && [Tick, Tick, d] == two + [d];
    assert PageOf(p.lo) * PAGE == p.lo;
  }

  // The comment on HAMMER_CODE claims that loss shows no matter when it happens. Not so: this
  // run discards a page of live data in the middle of its increment, and the final survey
  // finds that page at the expected counter.
  lemma DiscardCanBeMasked(env: Env, p: Pass, cpu0: Cpu, mem0: Memory, n: nat)
    requires Loaded(env.code) && Valid(p) && p.kind == Sweep && Granted(p, EndOf(p), env.mapped)
    requires n > 16 * PageOf(EndOf(p) - p.lo) + 2 && Roomy(p, EndOf(p), mem0, n + 3) && Read(mem0, p.lo) > 0
    ensures var m := Exec(env, Machine(ArmHammer(p, cpu0), mem0), MaskedRun(p, n));
      && Hit(MaskedRun(p, n), p.lo) && AtBell(Sweep, m.cpu)
      && Read(m.mem, p.lo) == Read(mem0, p.lo) + m.cpu.x[4]
  {
    var e, start, three := EndOf(p), Machine(ArmHammer(p, cpu0), mem0), [Tick, Tick, Discard(PageOf(p.lo))];
    EndOfEnds(p);
    WindowDiscard(env, p, cpu0, mem0);
    assert Roomy(p, e, mem0, |three|);
    HammerRun(env, p, e, cpu0, mem0, three);
    ExtendShape(three, n);
    ExtendIsSpin(env, start, three, n);
    ExtendStrikesNothing(env, start, three, n);
    BellWithin(env, p, e, Exec(env, start, three), n);
    RankBound(p, e, Exec(env, start, three).cpu);
    assert three[2] == MaskedRun(p, n)[2];
    assert OnGrid(p.lo, e, p.lo);
    HammerExact(env, p, cpu0, mem0, MaskedRun(p, n), p.lo);
  }

  lemma RankBound(p: Pass, e: int, cpu: Cpu)
    requires EndsAt(p, e) && Ctl(p, e, cpu)
    ensures Rank(p, e, cpu) <= 16 * PageOf(e - p.lo) + 2
  {
    var i, x1 := IndexOf(p.kind, cpu), cpu.x[1];
    if !(p.kind == Sweep && (i == 0 || i == 9)) && AddIndex(p.kind) < i {
      assert PageOf(e - x1) <= PageOf(e - p.lo) - 1;
    }
  }
}
