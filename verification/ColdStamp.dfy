// The rotating stamp of the soak's cold half: what it tells apart, and what it does not.

module ColdStamp {
  import opened Words
  import opened Arm64
  import opened GuestCode
  import opened Passes
  import opened Runs
  import opened Hammer
  import opened Soak
  import opened SoakWorker
  import opened SoakSystem
  import opened SoakTheorems
  import opened SoakDetection

  // ---- The stamps themselves ----

  // The stamp a cold page carries when cycle c + 1 begins: none before the first cycle.
  function LastStamp(k: nat, c: Word): Word {
    if c == 0 then 0 else Stamp(k, c)
  }

  // ... and after the read-modify-write sweep of that cycle, with nothing lost.
  function SweptStamp(k: nat, c: Word): Word
    requires c >= 1
  {
    Wrap(LastStamp(k, c as int - 1) as int + 1)
  }

  lemma StampFits(k: nat, c: Word)
    requires k < TWO32 && c < TWO32
    ensures 0 <= k * TWO32 + c < TWO64
  {
  }

  // In range, the worker's index and the cycle sit side by side.
  lemma StampValue(k: nat, c: Word)
    requires k < TWO32 && c < TWO32
    ensures Stamp(k, c) == k * TWO32 + c
  {
    StampFits(k, 0);
    Unwraps(k * TWO32);
    Pow2Of64();
    OrOfShifted(k, c, 32);
  }

  // No stamp reads as a discarded page, no two stamps of the soak are equal, and none equals
  // the one before it.
  lemma StampsApart(j: nat, c: Word, k: nat, d: Word)
    requires j < TWO32 && k < TWO32 && 1 <= c < TWO32 && 1 <= d < TWO32
    ensures Stamp(j, c) != 0
    ensures Stamp(j, c) == Stamp(k, d) <==> j == k && c == d
    ensures LastStamp(j, c as int - 1) != Stamp(j, c)
  {
    StampValue(j, c);
    StampValue(k, d);
    StampValue(j, c as int - 1);
  }

  // In cycle 2^32 the stamps of workers 0 and 1 meet.
  lemma StampsCollide()
    ensures Stamp(1, TWO32) == Stamp(0, TWO32)
  {
    Unwraps(TWO32);
    OrSelf(TWO32);
    OrComm(0, TWO32);
    OrWithZero(TWO32);
  }

  // No two stamps given out by n workers in their first `cycles` cycles are equal.
  ghost predicate AllDistinct(n: nat, cycles: Word) {
    forall j: nat, c: Word, k: nat, d: Word ::
      j < n && k < n && 1 <= c <= cycles && 1 <= d <= cycles && Stamp(j, c) == Stamp(k, d) ==> j == k && c == d
  }

  // So the bound on the cycle is sharp: all stamps are distinct exactly as long as there is
  // one worker only, or no cycle has reached 2^32.
  lemma DistinctUntil(n: nat, cycles: Word)
    requires 1 <= n <= TWO32
    ensures AllDistinct(n, cycles) <==> n == 1 || cycles < TWO32
  {
    if n == 1 {
      forall c: Word ensures Stamp(0, c) == c {}
    } else if cycles < TWO32 {
      forall j: nat, c: Word, k: nat, d: Word
        | j < n && k < n && 1 <= c <= cycles && 1 <= d <= cycles && Stamp(j, c) == Stamp(k, d)
        ensures j == k && c == d
      {
        StampsApart(j, c, k, d);
      }
    } else {
      StampsCollide();
      var c: Word := TWO32;
      assert Stamp(1, c) == Stamp(0, c) && c <= cycles;
    }
  }

  lemma {:induction false} OrSelf(a: nat)
    ensures Or(a, a) == a
    decreases a
  {
    if a != 0 {
      OrSelf(a / 2);
    }
  }

  lemma SweptValue(k: nat, c: Word)
    requires k < TWO32 && 2 <= c < TWO32
    ensures SweptStamp(k, c) == k * TWO32 + c
  {
    StampFits(k, c);
    StampValue(k, c as int - 1);
    Unwraps(k * TWO32 + c);
  }

  // The sweep's increment is the stamp's rotation. A page that went through the sweep intact
  // already holds the new stamp in every cycle but the first of a worker other than 0.
  lemma SweepRotates(k: nat, c: Word)
    requires k < TWO32 && 1 <= c < TWO32
    ensures SweptStamp(k, c) == Stamp(k, c) <==> c >= 2 || k == 0
  {
    StampValue(k, c);
    if c == 1 {
      Unwraps(1);
    } else {
      SweptValue(k, c);
    }
  }

  // What became of a cold page between two fills: it came through its increment intact, or
  // the kernel took it before the increment, or after.
  datatype Fate = Intact | LostBeforeSweep | LostAfterSweep

  function LeftOverWord(k: nat, c: Word, fate: Fate): Word
    requires c >= 1
  {
    match fate
    case Intact => SweptStamp(k, c)
    case LostBeforeSweep => 1
    case LostAfterSweep => 0
  }

  // The leftovers that pass for the new stamp, exactly. Of the lost pages none does, apart
  // from one case of the very first stamp, which is 1.
  lemma LeftoverPasses(k: nat, c: Word, fate: Fate)
    requires k < TWO32 && 1 <= c < TWO32
    ensures LeftOverWord(k, c, fate) == Stamp(k, c) <==>
            match fate
            case Intact => c >= 2 || k == 0
            case LostBeforeSweep => c == 1 && k == 0
            case LostAfterSweep => false
  {
    StampValue(k, c);
    SweepRotates(k, c);
  }

  // ---- On the machine ----

  // The cold sweep of a cycle and at once, with no fill between, the verify for its stamp.
  function Unfilled(lo: Word, hi: Word, k: nat, c: Word, s: seq<Event>, t: seq<Event>): seq<Call> {
    [Call(Pass(Sweep, lo, hi, 0), s)] + [Call(Pass(Verify, lo, hi, Stamp(k, c)), t)]
  }

  // The cold range as the previous cycle left it, and no page of it discarded since.
  ghost predicate LeftOver(mem: Memory, lo: Word, hi: Word, k: nat, c: Word, s: seq<Event>, t: seq<Event>)
    requires c >= 1
  {
    forall a :: OnGrid(lo, hi, a) ==> Read(mem, a) == LastStamp(k, c as int - 1) && !Hit(s, a) && !Hit(t, a)
  }

  lemma SweptOnce(lo: Word, hi: Word, s: seq<Event>, a: int, was: Word)
    requires lo < hi && Aligned(lo) && Aligned(hi) && OnGrid(lo, hi, a)
    ensures WordAfter([Call(Pass(Sweep, lo, hi, 0), s)], a, was) == Wrap(was as int + 1)
  {
    var calls := [Call(Pass(Sweep, lo, hi, 0), s)];
    CoversItsRange(calls[0].pass);
    assert calls[..0] == [];
  }

  // The guest's verdict on a range that was left over whole: nothing amiss, except in the
  // first cycle of a worker other than 0, where it reports every page.
  lemma UnfilledVerdict(env: Env, m: Machine, lo: Word, hi: Word, k: nat, c: Word, s: seq<Event>, t: seq<Event>)
    requires Loaded(env.code) && k < TWO32 && 1 <= c < TWO32
    requires lo < hi && Aligned(lo) && Aligned(hi) && LeftOver(m.mem, lo, hi, k, c, s, t)
    requires AllComplete(env, m, Unfilled(lo, hi, k, c, s, t))
    ensures RunCalls(env, m, Unfilled(lo, hi, k, c, s, t)).cpu.x[4] ==
              if c >= 2 || k == 0 then 0 else |set a | lo <= a < hi && Aligned(a)|
  {
    var sweep, q := [Call(Pass(Sweep, lo, hi, 0), s)], Pass(Verify, lo, hi, Stamp(k, c));
    CoversItsRange(q);
    VerdictOfFold(env, m, sweep, Call(q, t));
    SweepRotates(k, c);
    forall a | OnGrid(lo, hi, a) ensures WordAfter(sweep, a, Read(m.mem, a)) == SweptStamp(k, c) {
      SweptOnce(lo, hi, s, a, Read(m.mem, a));
    }
    if c >= 2 || k == 0 {
      assert FoldDiffering(sweep, q, m.mem) == {};
    } else {
      assert FoldDiffering(sweep, q, m.mem) == set a | lo <= a < hi && Aligned(a);
    }
  }

  // ---- In a soak ----

  // What the cold half holds up to the moment it is released, if nothing is lost.
  ghost predicate ColdKept(s: Slot, w: Worker, v: View, mem: Memory) {
    forall a :: InCold(s, a) ==>
      && (!InColdPhase(w) ==> Read(mem, a) == LastStamp(s.k, w.cycle))
      && (w.stage == Running(ColdSweep) && w.cycle >= 1 ==>
            Carried(v, mem, a) == if a < v.cursor then SweptStamp(s.k, w.cycle) else LastStamp(s.k, w.cycle as int - 1))
      && (w.stage in {CountSweep(true), Unmapping, Releasing} && w.cycle >= 1 ==>
            Read(mem, a) == SweptStamp(s.k, w.cycle))
  }

  lemma KeptInPass(s: Slot, w: Worker, v: View, mem: Memory)
    requires SlotOk(s) && w.stage.Running? && ColdKept(s, w, v, mem)
    requires var p := PassFor(s, w, w.stage.job); OnGrid(p.lo, p.hi, v.cursor)
    ensures var p := PassFor(s, w, w.stage.job); ColdKept(s, w, Next(p, v, mem).0, Next(p, v, mem).1)
  {
    RangeOfJob(s, w, w.stage.job);
    if ColdJob(w.stage.job) {
      forall a ensures InCold(s, a) ==> (a < v.cursor + PAGE <==> a <= v.cursor) {
        NextGrid(s.base, v.cursor, a);
      }
    } else {
      assert InHot(s, v.cursor);
    }
  }

  lemma KeptByGuest(code: seq<Word32>, s: Slot, x: Effect)
    requires Loaded(code) && Before(s, x, BLANK) && x.w.stage.Running?
    requires !AtBell(PassFor(s, x.w, x.w.stage.job).kind, x.cpu)
    requires ColdKept(s, x.w, ViewIn(s, x.w, x.cpu), x.mem)
    ensures var o := Step(Env(code, x.mapped), x.cpu, x.mem);
      o.Retired? && ColdKept(s, x.w, ViewIn(s, x.w, o.cpu), o.mem)
  {
    var w, job := x.w, x.w.stage.job;
    var p, v := PassFor(s, w, job), ViewOf(PassFor(s, w, job), x.cpu);
    RangeOfJob(s, w, job);
    GrantedToJob(s, w, job, x.mapped);
    StepRefines(Env(code, x.mapped), p, p.hi, x.cpu, x.mem);
    CursorInRange(p, p.hi, x.cpu);
    if Acts(p, x.cpu) {
      KeptInPass(s, w, v, x.mem);
    }
  }

  lemma KeptAtBell(s: Slot, w: Worker, cpu: Cpu, mem: Memory)
    requires SlotOk(s) && w.stage.Running? && CtlOk(s, w, cpu) && ShapeOk(s, w)
    requires AtBell(PassFor(s, w, w.stage.job).kind, cpu)
    requires ColdKept(s, w, ViewIn(s, w, cpu), mem)
    ensures var (cpu', w') := Finish(s, w, cpu, w.stage.job); ColdKept(s, w', ViewIn(s, w', cpu'), mem)
  {
    AtEnd(s, w, cpu);
    RangeOfJob(s, w, w.stage.job);
  }

  lemma KeptAtColdSweep(s: Slot, w: Worker, v: View, mem: Memory, w': Worker)
    requires SlotOk(s) && w.stage == AddMismatches(HotVerify) && ColdKept(s, w, v, mem)
    requires w'.stage == Running(ColdSweep) && w'.cycle as int == w.cycle as int + 1
    ensures ColdKept(s, w', View(s.base + s.half, None, 0), mem)
  {
  }

  lemma KeptAfterHot(s: Slot, w: Worker, cpu: Cpu, mem: Memory)
    requires SlotOk(s) && w.stage == AddMismatches(HotVerify) && w.cycle < TWO64 - 1
    requires ColdKept(s, w, ViewIn(s, w, cpu), mem)
    ensures var (cpu', w') := Onward(s, w, cpu, HotVerify); ColdKept(s, w', ViewIn(s, w', cpu'), mem)
  {
    if w.iter + 1 >= HOT_SWEEPS_PER_CYCLE {
      var w' := w.(iter := 0, cycle := Wrap(w.cycle as int + 1));
      Unwraps(w.cycle as int + 1);
      StartOk(s, w', cpu, ColdSweep);
      RangeOfJob(s, w', ColdSweep);
      KeptAtColdSweep(s, w, ViewIn(s, w, cpu), mem, w'.(stage := Running(ColdSweep)));
    }
  }

  lemma KeptAfterCold(s: Slot, w: Worker, cpu: Cpu, mem: Memory)
    requires SlotOk(s) && w.stage.AddMismatches? && w.stage.job.ColdVerify? && w.cycle >= 1
    requires ColdOk(s, w, ViewIn(s, w, cpu), mem, BLANK)
    ensures var (cpu', w') := Onward(s, w, cpu, w.stage.job); ColdKept(s, w', ViewIn(s, w', cpu'), mem)
  {
  }

  lemma KeptInSelfTest(code: seq<Word32>, munmap: bool, s: Slot, x: Effect, c: Choice)
    requires SlotOk(s) && ShapeOk(s, x.w) && x.w.stage in {Planting, Corrupting, Restoring}
    requires ColdKept(s, x.w, ViewIn(s, x.w, x.cpu), x.mem)
    ensures var y := Act(code, munmap, s, x, c); ColdKept(s, y.w, ViewIn(s, y.w, y.cpu), y.mem)
  {
    assert InHot(s, Victim(s)) && !InCold(s, Victim(s));
  }

  lemma KeptByHost(code: seq<Word32>, munmap: bool, s: Slot, x: Effect, c: Choice)
    requires SlotOk(s) && ShapeOk(s, x.w) && !x.w.stage.Running? && !x.w.stage.AddMismatches? && !Probing(x.w)
    requires ColdKept(s, x.w, ViewIn(s, x.w, x.cpu), x.mem)
    ensures var y := Act(code, munmap, s, x, c); ColdKept(s, y.w, ViewIn(s, y.w, y.cpu), y.mem)
  {
  }

  lemma KeptByAct(code: seq<Word32>, munmap: bool, s: Slot, x: Effect, c: Choice)
    requires Loaded(code) && Before(s, x, BLANK)
    requires ColdKept(s, x.w, ViewIn(s, x.w, x.cpu), x.mem)
    ensures var y := Act(code, munmap, s, x, c); ColdKept(s, y.w, ViewIn(s, y.w, y.cpu), y.mem)
  {
    if x.w.stage.Running? {
      GuestInstruction(code, s, x, BLANK);
      if AtBell(PassFor(s, x.w, x.w.stage.job).kind, x.cpu) {
        KeptAtBell(s, x.w, x.cpu, x.mem);
      } else {
        KeptByGuest(code, s, x);
      }
    } else if x.w.stage.AddMismatches? {
      if x.w.stage.job == HotVerify {
        KeptAfterHot(s, x.w, x.cpu, x.mem);
      } else {
        KeptAfterCold(s, x.w, x.cpu, x.mem);
      }
    } else if Probing(x.w) {
      KeptInSelfTest(code, munmap, s, x, c);
    } else {
      KeptByHost(code, munmap, s, x, c);
    }
  }

  ghost predicate KeptBy(cfg: Config, x: Watched, k: nat)
    requires Tracked(cfg, x) && k < cfg.vcpus
  {
    var s, t := SlotOf(cfg, k), x.sys.threads[k];
    SlotOk(s) && ColdKept(s, t.w, ViewIn(s, t.w, t.cpu), x.sys.mem)
  }

  lemma KeptUnmoved(s: Slot, w: Worker, v: View, mem: Memory, mem': Memory)
    requires ColdKept(s, w, v, mem) && SlotOk(s)
    requires forall a :: InSlot(s, a) ==> Read(mem', a) == Read(mem, a)
    ensures ColdKept(s, w, v, mem')
  {
    forall a | InCold(s, a) ensures InSlot(s, a) {}
  }

  lemma KeptInTurn(code: seq<Word32>, cfg: Config, x: Watched, j: nat, c: Choice, k: nat)
    requires Tracked(cfg, x) && AllOk(cfg, x) && Loaded(code) && Unwrapped(x.sys) && AllBlank(cfg, x)
    requires j < cfg.vcpus && k < cfg.vcpus && KeptBy(cfg, x, k)
    ensures KeptBy(cfg, Stepped(code, cfg, x, Turn(j, c)), k)
  {
    var s, t := SlotOf(cfg, k), x.sys.threads[k];
    if j == k {
      assert MemberOk(cfg, x, k);
      KeptByAct(code, cfg.munmap, s, EffectOf(x.sys, k), c);
    } else {
      OthersUnmoved(code, cfg, x, j, k, c);
      KeptUnmoved(s, t.w, ViewIn(s, t.w, t.cpu), x.sys.mem, SysStep(code, cfg, x.sys, Turn(j, c)).mem);
    }
  }

  lemma KeptAtBoot(cfg: Config, cpus: seq<Cpu>, mapped: set<int>, k: nat)
    requires ConfigOk(cfg) && |cpus| == cfg.vcpus && k < cfg.vcpus
    ensures KeptBy(cfg, BootWatched(cfg, cpus, mapped), k)
  {
    SlotsOk(cfg, k);
  }

  lemma {:induction false} CleanKeeps(code: seq<Word32>, cfg: Config, cpus: seq<Cpu>, mapped: set<int>,
                                      hs: seq<Happening>, k: nat)
    requires SoakRun(code, cfg, cpus, mapped, hs) && Clean(hs) && k < cfg.vcpus
    ensures KeptBy(cfg, Reached(code, cfg, cpus, mapped, hs), k)
    decreases |hs|
  {
    if hs == [] {
      KeptAtBoot(cfg, cpus, mapped, k);
    } else {
      var n := |hs| - 1;
      CleanKeeps(code, cfg, cpus, mapped, hs[..n], k);
      ReachedOk(code, cfg, cpus, mapped, hs[..n]);
      BootOk(cfg, cpus, mapped);
      CleanStaysBlank(code, cfg, BootWatched(cfg, cpus, mapped), hs[..n]);
      var h := hs[n];
      if h.k < cfg.vcpus {
        KeptInTurn(code, cfg, Reached(code, cfg, cpus, mapped, hs[..n]), h.k, h.c, k);
      }
    }
  }

  // In every run without losses, at every moment a worker is about to hand its cold half
  // back, each of its cold pages holds the stamp that the fill is about to store, except in
  // the first cycle of a worker other than 0. A page that came through the reclaim and that
  // the fill then skipped would not be noticed.
  lemma StampAlreadyThere(code: seq<Word32>, cfg: Config, cpus: seq<Cpu>, mapped: set<int>,
                          hs: seq<Happening>, k: nat, a: int)
    requires SoakRun(code, cfg, cpus, mapped, hs) && Clean(hs) && k < cfg.vcpus && k < TWO32
    requires InCold(SlotOf(cfg, k), a)
    requires var w := Reached(code, cfg, cpus, mapped, hs).sys.threads[k].w; w.stage == Unmapping && w.cycle < TWO32
    ensures var x := Reached(code, cfg, cpus, mapped, hs).sys; var w := x.threads[k].w;
      && w.cycle >= 1
      && (Read(x.mem, a) == Stamp(k, w.cycle) <==> w.cycle >= 2 || k == 0)
  {
    CleanKeeps(code, cfg, cpus, mapped, hs, k);
    ReachedOk(code, cfg, cpus, mapped, hs);
    assert MemberOk(cfg, Reached(code, cfg, cpus, mapped, hs), k);
    SweepRotates(k, Reached(code, cfg, cpus, mapped, hs).sys.threads[k].w.cycle);
  }
}
