// A failed self-test that leaves no trace in the soak's numbers.

module SoakSilent {
  import opened Words
  import opened Arm64
  import opened GuestCode
  import opened Passes
  import opened Runs
  import opened Soak
  import opened SoakWorker
  import opened SoakSystem
  import opened SoakTheorems
  import opened SoakPlay
  import opened SoakThread

  // At no point of the script had the worker's own counters got past its first sweep.
  ghost predicate Young(code: seq<Word32>, munmap: bool, s: Slot, x: Effect, hs: seq<Happening>)
    requires SlotOk(s)
    decreases |hs|
  {
    var w := Play(code, munmap, s, x, hs).w;
    w.hotSweeps <= 1 && w.cycle == 0 && (hs == [] || Young(code, munmap, s, x, hs[..|hs| - 1]))
  }

  lemma YoungSnoc(code: seq<Word32>, munmap: bool, s: Slot, x: Effect, hs: seq<Happening>, h: Happening)
    requires SlotOk(s) && Young(code, munmap, s, x, hs)
    requires var w := Play(code, munmap, s, x, hs + [h]).w; w.hotSweeps <= 1 && w.cycle == 0
    ensures Young(code, munmap, s, x, hs + [h])
  {
    hide Act;
    assert (hs + [h])[..|hs|] == hs;
  }

  lemma {:induction false} YoungInPass(code: seq<Word32>, munmap: bool, s: Slot, x: Effect,
                                       hs: seq<Happening>, evs: seq<Event>)
    requires SlotOk(s) && Young(code, munmap, s, x, hs) && Resume !in evs
    requires var y := Play(code, munmap, s, x, hs);
      y.w.stage.Running? && AllRetire(Env(code, y.mapped), Machine(y.cpu, y.mem), evs)
    ensures Young(code, munmap, s, x, hs + AsTurns(s.k, evs))
    decreases |evs|
  {
    hide Act;
    hide Step;
    var y := Play(code, munmap, s, x, hs);
    if evs == [] {
      assert hs + AsTurns(s.k, evs) == hs;
    } else {
      var n := |evs| - 1;
      AllRetirePrefix(Env(code, y.mapped), Machine(y.cpu, y.mem), evs);
      assert forall ev :: ev in evs[..n] ==> ev in evs;
      YoungInPass(code, munmap, s, x, hs, evs[..n]);
      PassPlays(code, munmap, s, y, s.k, evs);
      PlayConcat(code, munmap, s, x, hs, AsTurns(s.k, evs));
      var before, all := hs + AsTurns(s.k, evs[..n]), hs + AsTurns(s.k, evs);
      assert all == before + [all[|before|]];
      YoungSnoc(code, munmap, s, x, before, all[|before|]);
    }
  }

  // ---- The script ----

  ghost predicate Told(code: seq<Word32>, munmap: bool, s: Slot, p: Script)
    requires SlotOk(s)
  {
    Follows(code, munmap, s, p) && Young(code, munmap, s, p.start, p.hs)
  }

  // An undisturbed pass.
  lemma TellPass(code: seq<Word32>, munmap: bool, s: Slot, p: Script, cpu0: Cpu) returns (p': Script, m: Machine)
    requires SlotOk(s) && Loaded(code) && Granting(p.now.mapped, s)
    requires Told(code, munmap, s, p) && p.now.w.stage.Running?
    requires var q := PassFor(s, p.now.w, p.now.w.stage.job); p.now.cpu == Arm(q, cpu0)
    requires (p.now.w.stage == Running(FirstSweep) && p.now.w.hotSweeps == 0) || p.now.w.stage == Running(ProbePlanted)
    ensures Told(code, munmap, s, p') && p'.start == p.start && p'.now == Done(s, p.now, m)
    ensures var q := PassFor(s, p.now.w, p.now.w.stage.job);
      EndOf(q) == q.hi && exists t :: NoDiscards(t) && Completed(q, p.now.mem, t, m)
  {
    hide Rank;
    hide EndOf;
    hide Aligned;
    hide Ctl;
    hide Act;
    hide Step;
    var x := p.now;
    var env, q := Env(code, x.mapped), PassFor(s, x.w, x.w.stage.job);
    var start := Machine(x.cpu, x.mem);
    PassForFits(s, x.w, x.w.stage.job, x.mapped);
    EndOfEnds(q);
    ArmStarts(q, EndOf(q), cpu0);
    var ticks := ToTheBell(env, q, EndOf(q), start);
    OnlyTicksIn(ticks);
    BellHere(env, q, cpu0, x.mem, ticks);
    AndStop(env, start, ticks);
    var t := ticks + [Tick];
    m := Exec(env, start, t);
    PassResult(env, q, cpu0, x.mem, t);
    p' := ByPass(code, munmap, s, p, cpu0, t, m);
    YoungInPass(code, munmap, s, p.start, p.hs, ticks);
    assert AsTurns(s.k, t) == AsTurns(s.k, ticks) + [Turn(s.k, IDLE)] by {
      assert t[..|t| - 1] == ticks;
    }
    assert p'.hs == (p.hs + AsTurns(s.k, ticks)) + [Turn(s.k, IDLE)];
    YoungSnoc(code, munmap, s, p.start, p.hs + AsTurns(s.k, ticks), Turn(s.k, IDLE));
  }

  lemma OnlyTicksIn(t: seq<Event>)
    requires OnlyTicks(t)
    ensures Resume !in t && NoDiscards(t)
  {
  }

  lemma PassForFits(s: Slot, w: Worker, job: Job, mapped: set<int>)
    requires SlotOk(s) && Granting(mapped, s)
    ensures var q := PassFor(s, w, job); EndOf(q) == q.hi && Valid(q) && Granted(q, EndOf(q), mapped)
  {
    var q := PassFor(s, w, job);
    RangeOfJob(s, w, job);
    PassesFit(s, q.kind, q.val, mapped);
  }

  lemma TellTurn(code: seq<Word32>, munmap: bool, s: Slot, p: Script) returns (p': Script)
    requires SlotOk(s) && Told(code, munmap, s, p)
    requires p.now.w.stage == Planting || p.now.w.stage == Corrupting || p.now.w.stage == Restoring
    ensures Told(code, munmap, s, p') && p'.start == p.start && p'.now == Act(code, munmap, s, p.now, IDLE)
  {
    hide Act;
    p' := ByTurn(code, munmap, s, p, IDLE);
    if p.now.w.stage == Planting {
      PlantingActs(code, munmap, s, p.now, IDLE);
    } else if p.now.w.stage == Corrupting {
      CorruptingActs(code, munmap, s, p.now, IDLE);
    } else {
      RestoringActs(code, munmap, s, p.now, IDLE);
    }
    YoungNow(code, munmap, s, p.start, p.hs);
    YoungSnoc(code, munmap, s, p.start, p.hs, Turn(s.k, IDLE));
  }

  lemma YoungNow(code: seq<Word32>, munmap: bool, s: Slot, x: Effect, hs: seq<Happening>)
    requires SlotOk(s) && Young(code, munmap, s, x, hs)
    ensures var w := Play(code, munmap, s, x, hs).w; w.hotSweeps <= 1 && w.cycle == 0
  {
    hide Act;
  }

  lemma TellLoss(code: seq<Word32>, munmap: bool, s: Slot, p: Script, page: int) returns (p': Script)
    requires SlotOk(s) && Told(code, munmap, s, p)
    ensures Told(code, munmap, s, p') && p'.start == p.start && p'.now == p.now.(mem := DropPage(p.now.mem, page))
  {
    hide Act;
    PlayLoss(code, munmap, s, p.start, p.hs, page);
    p' := Script(p.start, p.hs + [Loss(page)], p.now.(mem := DropPage(p.now.mem, page)));
    YoungNow(code, munmap, s, p.start, p.hs);
    YoungSnoc(code, munmap, s, p.start, p.hs, Loss(page));
  }

  lemma TwoDiffer(mem: Memory, s: Slot, val: Word)
    requires SlotOk(s) && Read(mem, s.base) != val && Read(mem, Victim(s)) != val
    ensures |PagesDiffering(mem, s.base, s.base + s.half, val)| >= 2
  {
    AlignedSum(s.base, PAGE);
    var d := PagesDiffering(mem, s.base, s.base + s.half, val);
    var rest := d - {s.base} - {Victim(s)};
    assert d == rest + {s.base} + {Victim(s)};
    assert |rest + {s.base}| == |rest| + 1;
  }

  // Sweep, lose the first hot page, plant, verify, restore: two pages differ where one was
  // planted, and the worker panics.
  lemma PanicScript(code: seq<Word32>, munmap: bool, s: Slot, cpu: Cpu, mapped: set<int>) returns (p: Script)
    requires SlotOk(s) && s.k == 0 && Loaded(code) && Granting(mapped, s)
    ensures Told(code, munmap, s, p) && p.now.w.stage == Panicked && p.now.stats == Stats(0, 0, 0, 0)
    ensures p.start == Armed(s, Effect(cpu, NEWBORN, map[], mapped, Stats(0, 0, 0, 0)), FirstSweep, cpu)
  {
    hide Act;
    hide Step;
    hide EndOf;
    hide Aligned;
    hide Told;
    var m1, m2;
    p := FirstLine(code, munmap, s, Armed(s, Effect(cpu, NEWBORN, map[], mapped, Stats(0, 0, 0, 0)), FirstSweep, cpu));
    p, m1 := TellPass(code, munmap, s, p, cpu);
    SweptToOne(s, map[], m1);
    p := TellLoss(code, munmap, s, p, PageOf(s.base));
    FirstPageLost(s, m1.mem);
    PlantingActs(code, munmap, s, p.now, IDLE);
    p := TellTurn(code, munmap, s, p);
    CorruptingActs(code, munmap, s, p.now, IDLE);
    p := TellTurn(code, munmap, s, p);
    var planted, cpu2 := p.now.mem, m1.cpu;
    p, m2 := TellPass(code, munmap, s, p, cpu2);
    TwoDiffer(planted, s, 1);
    VerdictOf(s, planted, 1, m2);
    RestoringActs(code, munmap, s, p.now, IDLE);
    p := TellTurn(code, munmap, s, p);
  }

  lemma FirstLine(code: seq<Word32>, munmap: bool, s: Slot, x: Effect) returns (p: Script)
    requires SlotOk(s) && x.w.hotSweeps <= 1 && x.w.cycle == 0
    ensures Told(code, munmap, s, p) && p.start == x && p.now == x
  {
    hide Act;
    p := Script(x, [], x);
  }

  lemma SweptToOne(s: Slot, mem: Memory, m: Machine)
    requires SlotOk(s) && mem == map[]
    requires var q := HotPass(s, Sweep, 0); EndOf(q) == q.hi && exists t :: NoDiscards(t) && Completed(q, mem, t, m)
    ensures HotIs(m.mem, s, 1)
  {
    var q := HotPass(s, Sweep, 0);
    var t :| NoDiscards(t) && Completed(q, mem, t, m);
    forall a | InHot(s, a) ensures Read(m.mem, a) == 1 {
      assert !Hit(t, a);
    }
  }

  lemma FirstPageLost(s: Slot, mem: Memory)
    requires SlotOk(s) && HotIs(mem, s, 1)
    ensures var mem' := DropPage(mem, PageOf(s.base)); Read(mem', s.base) == 0 && Read(mem', Victim(s)) == 1
  {
    AlignedSum(s.base, PAGE);
    assert InHot(s, Victim(s));
    DropOther(mem, PageOf(s.base), s.base);
    DropOther(mem, PageOf(s.base), Victim(s));
  }

  lemma VerdictOf(s: Slot, mem: Memory, val: Word, m: Machine)
    requires SlotOk(s)
    requires var q := HotPass(s, Verify, val); EndOf(q) == q.hi && exists t :: NoDiscards(t) && Completed(q, mem, t, m)
    ensures m.cpu.x[4] == |PagesDiffering(mem, s.base, s.base + s.half, val)|
  {
    var q := HotPass(s, Verify, val);
    var t :| NoDiscards(t) && Completed(q, mem, t, m);
    forall a ensures !Hit(t, a) {}
  }

  // ---- In the system ----

  lemma {:induction false} YoungNeverWraps(code: seq<Word32>, cfg: Config, cpus: seq<Cpu>, mapped: set<int>,
                                           hs: seq<Happening>)
    requires ConfigOk(cfg) && |cpus| == cfg.vcpus && SlotOk(SlotOf(cfg, 0)) && OnlyWorker(hs, 0)
    requires Young(code, cfg.munmap, SlotOf(cfg, 0), EffectOf(Boot(cfg, cpus, mapped), 0), hs)
    ensures NeverWraps(code, cfg, BootWatched(cfg, cpus, mapped), hs)
    decreases |hs|
  {
    hide Act;
    var x := BootWatched(cfg, cpus, mapped);
    if hs != [] {
      YoungNeverWraps(code, cfg, cpus, mapped, hs[..|hs| - 1]);
    }
    PlayIsWatch(code, cfg, x, hs, 0);
    YoungNow(code, cfg.munmap, SlotOf(cfg, 0), EffectOf(x.sys, 0), hs);
    var y := Watch(code, cfg, x, hs).sys;
    forall j | 0 <= j < cfg.vcpus ensures y.threads[j].w.hotSweeps <= 1 && y.threads[j].w.cycle == 0 {
      if j == 0 {
        assert EffectOf(y, 0).w == y.threads[0].w;
      } else {
        SlotsOk(cfg, j);
      }
    }
  }

  lemma BootGrants(cfg: Config, mapped: set<int>)
    requires ConfigOk(cfg) && BootMap(cfg, mapped)
    ensures SlotOk(SlotOf(cfg, 0)) && Granting(mapped, SlotOf(cfg, 0))
  {
    SlotsOk(cfg, 0);
    HalfFacts(cfg);
    SlotFits(0, cfg.vcpus, cfg.slot);
  }

  // Every soak has a run in which the kernel discards one page of live data, worker 0's
  // self-test fails and takes its thread with it, and the numbers the soak ends on show no
  // mismatch: the outcome of the thread is dropped where it is joined.
  lemma SilentPanic(code: seq<Word32>, cfg: Config, cpus: seq<Cpu>, mapped: set<int>) returns (hs: seq<Happening>)
    requires Loaded(code) && ConfigOk(cfg) && |cpus| == cfg.vcpus && BootMap(cfg, mapped)
    ensures SoakRun(code, cfg, cpus, mapped, hs)
    ensures var x := Reached(code, cfg, cpus, mapped, hs);
      x.sys.threads[0].w.stage == Panicked && x.notes[0].probe > 0 && x.sys.stats == Stats(0, 0, 0, 0)
  {
    hide Aligned;
    hide Act;
    hide Step;
    var s := SlotOf(cfg, 0);
    BootGrants(cfg, mapped);
    var p := PanicScript(code, cfg.munmap, s, cpus[0], mapped);
    hs := p.hs;
    ScriptIsRun(code, cfg, cpus, mapped, 0, p);
    assert p.start == EffectOf(Boot(cfg, cpus, mapped), 0);
    YoungNeverWraps(code, cfg, cpus, mapped, hs);
    assert EffectOf(Reached(code, cfg, cpus, mapped, hs).sys, 0) == p.now;
    ReachedOk(code, cfg, cpus, mapped, hs);
    assert MemberOk(cfg, Reached(code, cfg, cpus, mapped, hs), 0);
  }
}
