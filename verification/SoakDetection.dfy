// The soak's verdict: a clean run raises no alarm, and damage that a later verify looks at
// is always counted.

module SoakDetection {
  import opened Words
  import opened Arm64
  import opened GuestCode
  import opened Passes
  import opened Runs
  import opened Hammer
  import opened Soak
  import opened SoakWorker
  import opened SoakSystem
  import opened SoakTheorems

  // ---- No false alarms ----

  predicate Clean(hs: seq<Happening>) {
    forall i :: 0 <= i < |hs| ==> hs[i].Turn?
  }

  ghost predicate AllBlank(cfg: Config, x: Watched)
    requires Tracked(cfg, x)
  {
    forall k :: 0 <= k < cfg.vcpus ==> x.notes[k] == BLANK
  }

  lemma BlankStep(s: Slot, w: Worker, cpu: Cpu, mem: Memory, mapped: set<int>)
    requires ThreadOk(s, w, cpu, mem, mapped, BLANK)
    ensures NoteAct(s, w, cpu, BLANK) == BLANK
  {
    assert {} - {ViewIn(s, w, cpu).cursor} == {};
    assert {} - {Victim(s)} == {};
  }

  lemma {:induction false} CleanStaysBlank(code: seq<Word32>, cfg: Config, x: Watched, hs: seq<Happening>)
    requires Tracked(cfg, x) && AllOk(cfg, x) && Loaded(code) && NeverWraps(code, cfg, x, hs)
    requires AllBlank(cfg, x) && Clean(hs)
    ensures AllBlank(cfg, Watch(code, cfg, x, hs))
    decreases |hs|
  {
    if hs != [] {
      var n := |hs| - 1;
      CleanStaysBlank(code, cfg, x, hs[..n]);
      RunOk(code, cfg, x, hs[..n]);
      var y := Watch(code, cfg, x, hs[..n]);
      assert hs[n].Turn?;
      if hs[n].k < cfg.vcpus {
        var t := y.sys.threads[hs[n].k];
        assert MemberOk(cfg, y, hs[n].k);
        BlankStep(SlotOf(cfg, hs[n].k), t.w, t.cpu, y.sys.mem, y.sys.mapped);
      }
    }
  }

  lemma {:induction false} AllBlankTallied(notes: seq<Note>)
    requires forall k :: 0 <= k < |notes| ==> notes[k] == BLANK
    ensures TotalTallied(notes) == 0
    decreases |notes|
  {
    if notes != [] {
      AllBlankTallied(notes[..|notes| - 1]);
    }
  }

  // If the kernel discards nothing outside the reclaims, the mismatch counter reads zero at
  // every moment, in either reclaim mode; no self-test fails; and every hot word reads the
  // number of sweeps it has had, so the self-test leaves memory as it found it.
  lemma CleanRun(code: seq<Word32>, cfg: Config, cpus: seq<Cpu>, mapped: set<int>, hs: seq<Happening>)
    requires SoakRun(code, cfg, cpus, mapped, hs) && Clean(hs)
    ensures var x := Reached(code, cfg, cpus, mapped, hs).sys;
      && x.stats.mismatches == 0
      && forall k :: 0 <= k < cfg.vcpus ==> CleanThread(SlotOf(cfg, k), x.threads[k].w, x.mem)
  {
    hide Act;
    hide Step;
    hide Ctl;
    BootOk(cfg, cpus, mapped);
    CleanStaysBlank(code, cfg, BootWatched(cfg, cpus, mapped), hs);
    MismatchesExact(code, cfg, cpus, mapped, hs);
    ReachedOk(code, cfg, cpus, mapped, hs);
    var x := Reached(code, cfg, cpus, mapped, hs);
    AllBlankTallied(x.notes);
    forall k | 0 <= k < cfg.vcpus ensures CleanThread(SlotOf(cfg, k), x.sys.threads[k].w, x.sys.mem) {
      assert MemberOk(cfg, x, k) && x.notes[k] == BLANK;
      BlankIsClean(SlotOf(cfg, k), x.sys.threads[k].w, x.sys.threads[k].cpu, x.sys.mem, x.sys.mapped);
    }
  }

  // A thread with nothing damaged: no failed self-test, and the sweeps it has done are in
  // every hot word.
  ghost predicate CleanThread(s: Slot, w: Worker, mem: Memory) {
    && w.stage != Panicked
    && (w.stage == Restoring ==> w.bad == 1)
    && (forall a :: InHot(s, a) && !SweepingHot(w) && !Planted(w) ==> Read(mem, a) == w.hotSweeps)
  }

  lemma BlankIsClean(s: Slot, w: Worker, cpu: Cpu, mem: Memory, mapped: set<int>)
    requires ThreadOk(s, w, cpu, mem, mapped, BLANK)
    ensures CleanThread(s, w, mem)
  {
  }

  // The self-test, with the kernel at work. Only worker 0 runs it. The first verify reports the
  // planted page and one more for every load of another damaged page, the second one for every
  // load of a damaged page. Once it is over, the worker has panicked if and only if there was
  // such a load.
  lemma SelfTestExact(code: seq<Word32>, cfg: Config, cpus: seq<Cpu>, mapped: set<int>, hs: seq<Happening>, k: nat)
    requires SoakRun(code, cfg, cpus, mapped, hs) && k < cfg.vcpus
    ensures var x := Reached(code, cfg, cpus, mapped, hs); var w := x.sys.threads[k].w; var s := SlotOf(cfg, k);
      && (Probing(w) ==> k == 0 && InHot(s, Victim(s)))
      && (w.stage == Restoring ==> w.bad == 1 + x.notes[k].probe)
      && (w.stage == Running(ProbeClean) ==> SlotOk(s) && ViewIn(s, w, x.sys.threads[k].cpu).bad == x.notes[k].probe)
      && (!Probing(w) ==> (w.stage == Panicked <==> x.notes[k].probe > 0))
  {
    hide Ctl;
    hide Act;
    ReachedOk(code, cfg, cpus, mapped, hs);
    SlotsOk(cfg, k);
    assert MemberOk(cfg, Reached(code, cfg, cpus, mapped, hs), k);
  }

  // ---- Detection ----

  // Loads of the hot page a by the worker's hot verifies so far.
  function HotLoads(w: Worker, v: View, a: int): int {
    var ahead :=
      if InColdPhase(w) then 0
      else w.iter + (match w.stage
                     case Running(HotVerify) => if a < v.cursor then 1 else 0
                     case AddChecks(HotVerify) => 1
                     case AddMismatches(HotVerify) => 1
                     case _ => 0);
    4 * w.cycle as int + ahead
  }

  // Loads of the cold page a by its cold verifies so far, two for every completed cycle.
  function ColdLoads(w: Worker, v: View, a: int): int {
    var short :=
      if !InColdPhase(w) then 0
      else
        match w.stage
        case Running(ColdVerify(again)) => (if again then 1 else 2) - (if a < v.cursor then 1 else 0)
        case AddChecks(ColdVerify(again)) => if again then 0 else 1
        case AddMismatches(ColdVerify(again)) => if again then 0 else 1
        case _ => 2;
    2 * w.cycle as int - short
  }

  // Loads of a hot page and of a cold page together are the verifies the worker has counted, and
  // the one it is about to count or is in the middle of.
  lemma LoadsAreVerifies(s: Slot, w: Worker, v: View, hot: int, cold: int)
    requires ShapeOk(s, w)
    ensures HotLoads(w, v, hot) + ColdLoads(w, v, cold) == VerifiesOf(w) +
              match w.stage
              case AddChecks(_) => 1
              case Running(HotVerify) => if hot < v.cursor then 1 else 0
              case Running(ColdVerify(_)) => if cold < v.cursor then 1 else 0
              case _ => 0
  {
  }

  // The worker's current stamp is in place at a, or its cycle has moved on to the hot half.
  predicate Stamped(w: Worker, v: View, a: int) {
    Filled(w, v, a) || !InColdPhase(w)
  }

  // One action, as seen by a page that is already damaged: it stays damaged, and if the
  // action is a verify load of it, it is a hit.
  ghost predicate Caught(s: Slot, w: Worker, v: View, note: Note, w': Worker, v': View, note': Note, a: int) {
    && note'.hits >= note.hits
    && (InHot(s, a) && a in note.damaged ==>
          && a in note'.damaged
          && note'.hits - note.hits >= HotLoads(w', v', a) - HotLoads(w, v, a))
    && w'.cycle >= w.cycle
    && (InCold(s, a) && a in note.damaged && Stamped(w, v, a) && w'.cycle == w.cycle ==>
          && a in note'.damaged && Stamped(w', v', a)
          && note'.hits - note.hits >= ColdLoads(w', v', a) - ColdLoads(w, v, a))
  }

  lemma GuestCaught(code: seq<Word32>, s: Slot, x: Effect, note: Note, a: int)
    requires Loaded(code) && Before(s, x, note) && x.w.stage.Running?
    requires !AtBell(PassFor(s, x.w, x.w.stage.job).kind, x.cpu)
    ensures var o := Step(Env(code, x.mapped), x.cpu, x.mem);
      && o.Retired?
      && Caught(s, x.w, ViewIn(s, x.w, x.cpu), note, x.w, ViewIn(s, x.w, o.cpu), NoteAct(s, x.w, x.cpu, note), a)
  {
    hide Step;
    hide Stamp;
    hide XorWord;
    var w, job := x.w, x.w.stage.job;
    var p, v := PassFor(s, w, job), ViewOf(PassFor(s, w, job), x.cpu);
    RangeOfJob(s, w, job);
    GrantedToJob(s, w, job, x.mapped);
    StepRefines(Env(code, x.mapped), p, p.hi, x.cpu, x.mem);
    CursorInRange(p, p.hi, x.cpu);
    if InHot(s, a) || InCold(s, a) {
      NextGrid(s.base, v.cursor, a);
    }
  }

  lemma FinishCaught(s: Slot, w: Worker, cpu: Cpu, note: Note, a: int)
    requires SlotOk(s) && ShapeOk(s, w) && CtlOk(s, w, cpu) && w.stage.Running?
    requires AtBell(PassFor(s, w, w.stage.job).kind, cpu)
    ensures var (cpu', w') := Finish(s, w, cpu, w.stage.job);
      Caught(s, w, ViewIn(s, w, cpu), note, w', ViewIn(s, w', cpu'), note, a)
  {
    hide Step;
    hide Stamp;
    hide XorWord;
    AtEnd(s, w, cpu);
    RangeOfJob(s, w, w.stage.job);
    StartOk(s, w, cpu, ColdVerify(false));
  }

  lemma ProbeCaught(code: seq<Word32>, munmap: bool, s: Slot, x: Effect, c: Choice, note: Note, a: int)
    requires Before(s, x, note) && Probing(x.w) && !x.w.stage.Running?
    ensures var y := Act(code, munmap, s, x, c);
      Caught(s, x.w, ViewIn(s, x.w, x.cpu), note, y.w, ViewIn(s, y.w, y.cpu), NoteAct(s, x.w, x.cpu, note), a)
  {
    hide Step;
    hide Stamp;
    hide XorWord;
    StartOk(s, x.w.(saved := Read(x.mem, Victim(s))), x.cpu, ProbePlanted);
    StartOk(s, x.w, x.cpu, ProbeClean);
  }

  lemma CountCaught(code: seq<Word32>, munmap: bool, s: Slot, x: Effect, c: Choice, note: Note, a: int)
    requires Before(s, x, note) && (x.w.stage == Deadline || x.w.stage.CountSweep?)
    ensures var y := Act(code, munmap, s, x, c);
      Caught(s, x.w, ViewIn(s, x.w, x.cpu), note, y.w, ViewIn(s, y.w, y.cpu), NoteAct(s, x.w, x.cpu, note), a)
  {
    hide Step;
    hide Stamp;
    hide XorWord;
    StartOk(s, x.w, x.cpu, HotSweep);
    StartOk(s, x.w, x.cpu, HotVerify);
    RangeOfJob(s, x.w, HotVerify);
  }

  lemma CountReclaimCaught(code: seq<Word32>, munmap: bool, s: Slot, x: Effect, c: Choice, note: Note, a: int)
    requires Before(s, x, note) && x.w.stage == CountReclaim
    ensures var y := Act(code, munmap, s, x, c);
      Caught(s, x.w, ViewIn(s, x.w, x.cpu), note, y.w, ViewIn(s, y.w, y.cpu), NoteAct(s, x.w, x.cpu, note), a)
  {
    StartOk(s, x.w, x.cpu, ColdFill);
    RangeOfJob(s, x.w, ColdFill);
  }

  lemma PlainCaught(code: seq<Word32>, munmap: bool, s: Slot, x: Effect, c: Choice, note: Note, a: int)
    requires Before(s, x, note)
    requires x.w.stage.AddChecks? || x.w.stage in {Unmapping, Releasing, Remapping, Finished, Panicked}
    ensures var y := Act(code, munmap, s, x, c);
      Caught(s, x.w, ViewIn(s, x.w, x.cpu), note, y.w, ViewIn(s, y.w, y.cpu), NoteAct(s, x.w, x.cpu, note), a)
  {
    hide Step;
    hide Stamp;
    hide XorWord;
  }

  lemma AddHotCaught(s: Slot, w: Worker, cpu: Cpu, note: Note, a: int)
    requires SlotOk(s) && ShapeOk(s, w) && w.stage == AddMismatches(HotVerify) && w.iter + 1 < HOT_SWEEPS_PER_CYCLE
    ensures var (cpu', w') := Onward(s, w, cpu, HotVerify);
      Caught(s, w, ViewIn(s, w, cpu), note, w', ViewIn(s, w', cpu'), NoteAct(s, w, cpu, note), a)
  {
    hide Step;
    hide Stamp;
    hide XorWord;
    StartOk(s, w.(iter := w.iter + 1), cpu, HotSweep);
  }

  lemma AddLastHotCaught(s: Slot, w: Worker, cpu: Cpu, note: Note, a: int)
    requires SlotOk(s) && ShapeOk(s, w) && w.stage == AddMismatches(HotVerify) && w.cycle < TWO64 - 1
    requires w.iter + 1 >= HOT_SWEEPS_PER_CYCLE
    ensures var (cpu', w') := Onward(s, w, cpu, HotVerify);
      Caught(s, w, ViewIn(s, w, cpu), note, w', ViewIn(s, w', cpu'), NoteAct(s, w, cpu, note), a)
  {
    hide Step;
    hide Stamp;
    hide XorWord;
    StartOk(s, w.(iter := 0, cycle := Wrap(w.cycle as int + 1)), cpu, ColdSweep);
  }

  lemma AddColdCaught(s: Slot, w: Worker, cpu: Cpu, note: Note, a: int)
    requires SlotOk(s) && ShapeOk(s, w) && w.stage.AddMismatches? && w.stage.job.ColdVerify?
    ensures var (cpu', w') := Onward(s, w, cpu, w.stage.job);
      Caught(s, w, ViewIn(s, w, cpu), note, w', ViewIn(s, w', cpu'), NoteAct(s, w, cpu, note), a)
  {
    hide Step;
    hide Stamp;
    hide XorWord;
    StartOk(s, w, cpu, ColdVerify(true));
    RangeOfJob(s, w, ColdVerify(true));
  }

  lemma ActCaught(code: seq<Word32>, munmap: bool, s: Slot, x: Effect, c: Choice, note: Note, a: int)
    requires Loaded(code) && Before(s, x, note)
    ensures var y := Act(code, munmap, s, x, c);
      Caught(s, x.w, ViewIn(s, x.w, x.cpu), note, y.w, ViewIn(s, y.w, y.cpu), NoteAct(s, x.w, x.cpu, note), a)
  {
    hide Step;
    hide Stamp;
    hide XorWord;
    if x.w.stage.Running? {
      GuestInstruction(code, s, x, note);
      if AtBell(PassFor(s, x.w, x.w.stage.job).kind, x.cpu) {
        FinishCaught(s, x.w, x.cpu, note, a);
      } else {
        GuestCaught(code, s, x, note, a);
      }
    } else if x.w.stage == AddMismatches(HotVerify) {
      if x.w.iter + 1 < HOT_SWEEPS_PER_CYCLE {
        AddHotCaught(s, x.w, x.cpu, note, a);
      } else {
        AddLastHotCaught(s, x.w, x.cpu, note, a);
      }
    } else if x.w.stage.AddMismatches? {
      AddColdCaught(s, x.w, x.cpu, note, a);
    } else if Probing(x.w) {
      ProbeCaught(code, munmap, s, x, c, note, a);
    } else if x.w.stage == CountReclaim {
      CountReclaimCaught(code, munmap, s, x, c, note, a);
    } else if x.w.stage == Deadline || x.w.stage.CountSweep? {
      CountCaught(code, munmap, s, x, c, note, a);
    } else {
      PlainCaught(code, munmap, s, x, c, note, a);
    }
  }

  // ---- ... over whole runs ----

  ghost predicate CaughtBetween(cfg: Config, x: Watched, y: Watched, k: nat, a: int)
    requires Tracked(cfg, x) && Tracked(cfg, y) && k < cfg.vcpus
  {
    var s, t, t' := SlotOf(cfg, k), x.sys.threads[k], y.sys.threads[k];
    SlotOk(s) && Caught(s, t.w, ViewIn(s, t.w, t.cpu), x.notes[k], t'.w, ViewIn(s, t'.w, t'.cpu), y.notes[k], a)
  }

  lemma StepCaught(code: seq<Word32>, cfg: Config, x: Watched, h: Happening, k: nat, a: int)
    requires Tracked(cfg, x) && AllOk(cfg, x) && Loaded(code) && Unwrapped(x.sys) && k < cfg.vcpus
    ensures CaughtBetween(cfg, x, Stepped(code, cfg, x, h), k, a)
  {
    hide Step;
    hide Stamp;
    hide XorWord;
    SlotsOk(cfg, k);
    assert MemberOk(cfg, x, k);
    if h.Turn? && h.k == k {
      ActCaught(code, cfg.munmap, SlotOf(cfg, k), EffectOf(x.sys, k), h.c, x.notes[k], a);
    }
  }

  lemma {:induction false} RunCaught(code: seq<Word32>, cfg: Config, x: Watched, hs: seq<Happening>, k: nat, a: int)
    requires Tracked(cfg, x) && AllOk(cfg, x) && Loaded(code) && NeverWraps(code, cfg, x, hs) && k < cfg.vcpus
    ensures CaughtBetween(cfg, x, Watch(code, cfg, x, hs), k, a)
    decreases |hs|
  {
    SlotsOk(cfg, k);
    if hs != [] {
      var n := |hs| - 1;
      RunCaught(code, cfg, x, hs[..n], k, a);
      RunOk(code, cfg, x, hs[..n]);
      StepCaught(code, cfg, Watch(code, cfg, x, hs[..n]), hs[n], k, a);
    }
  }

  // A hot page that has been damaged stays damaged, and every later verify load of it is a
  // hit: with MismatchesExact, one mismatch each.
  lemma HotLossDetected(code: seq<Word32>, cfg: Config, x: Watched, hs: seq<Happening>, k: nat, a: int)
    requires Tracked(cfg, x) && AllOk(cfg, x) && Loaded(code) && NeverWraps(code, cfg, x, hs) && k < cfg.vcpus
    requires InHot(SlotOf(cfg, k), a) && a in x.notes[k].damaged
    ensures var y := Watch(code, cfg, x, hs); var s := SlotOf(cfg, k);
      && SlotOk(s) && a in y.notes[k].damaged
      && y.notes[k].hits - x.notes[k].hits >=
           HotLoads(y.sys.threads[k].w, ViewIn(s, y.sys.threads[k].w, y.sys.threads[k].cpu), a)
         - HotLoads(x.sys.threads[k].w, ViewIn(s, x.sys.threads[k].w, x.sys.threads[k].cpu), a)
  {
    RunCaught(code, cfg, x, hs, k, a);
  }

  // The same for a cold page within one cycle, from the moment its stamp is in place.
  lemma ColdLossDetected(code: seq<Word32>, cfg: Config, x: Watched, hs: seq<Happening>, k: nat, a: int)
    requires Tracked(cfg, x) && AllOk(cfg, x) && Loaded(code) && NeverWraps(code, cfg, x, hs) && k < cfg.vcpus
    requires SlotOk(SlotOf(cfg, k)) && InCold(SlotOf(cfg, k), a) && a in x.notes[k].damaged
    requires var t := x.sys.threads[k]; Filled(t.w, ViewIn(SlotOf(cfg, k), t.w, t.cpu), a)
    requires Watch(code, cfg, x, hs).sys.threads[k].w.cycle == x.sys.threads[k].w.cycle
    ensures var y := Watch(code, cfg, x, hs); var s := SlotOf(cfg, k);
      y.notes[k].hits - x.notes[k].hits >=
           ColdLoads(y.sys.threads[k].w, ViewIn(s, y.sys.threads[k].w, y.sys.threads[k].cpu), a)
         - ColdLoads(x.sys.threads[k].w, ViewIn(s, x.sys.threads[k].w, x.sys.threads[k].cpu), a)
  {
    RunCaught(code, cfg, x, hs, k, a);
  }

  // Loads of a that count towards detection, hot or cold.
  function LoadsOf(s: Slot, t: Thread, a: int): int
    requires SlotOk(s)
  {
    var v := ViewIn(s, t.w, t.cpu);
    if InHot(s, a) then HotLoads(t.w, v, a) else ColdLoads(t.w, v, a)
  }

  lemma {:induction false} TalliedAtLeast(notes: seq<Note>, k: nat)
    requires k < |notes|
    ensures TotalTallied(notes) >= notes[k].tallied
    decreases |notes|
  {
    AllTalliedNat(notes[..|notes| - 1]);
    if k < |notes| - 1 {
      TalliedAtLeast(notes[..|notes| - 1], k);
    }
  }

  // Discarding the page now destroys a word that worker k still expects.
  ghost predicate Spoils(cfg: Config, x: Watched, page: int, k: nat)
    requires Tracked(cfg, x) && k < cfg.vcpus
  {
    var s, t := SlotOf(cfg, k), x.sys.threads[k];
    SlotOk(s) && Harmful(s, t.w, ViewIn(s, t.w, t.cpu), page * PAGE)
  }

  // Between y and z worker k loads a in a verify (of the same cycle, when a is cold), and at z
  // it carries no unreported count.
  ghost predicate LooksAgain(cfg: Config, y: Watched, z: Watched, k: nat, a: int)
    requires Tracked(cfg, y) && Tracked(cfg, z) && k < cfg.vcpus
  {
    var s, t, u := SlotOf(cfg, k), y.sys.threads[k], z.sys.threads[k];
    && SlotOk(s) && LoadsOf(s, u, a) > LoadsOf(s, t, a)
    && (InCold(s, a) ==> u.w.cycle == t.w.cycle)
    && CarriesNothing(cfg, z, k)
  }

  lemma SpoiledIsHit(code: seq<Word32>, cfg: Config, x: Watched, page: int, later: seq<Happening>, k: nat)
    requires Tracked(cfg, x) && AllOk(cfg, x) && Loaded(code) && k < cfg.vcpus && Unwrapped(x.sys)
    requires Spoils(cfg, x, page, k) && NeverWraps(code, cfg, Stepped(code, cfg, x, Loss(page)), later)
    requires var y := Stepped(code, cfg, x, Loss(page)); LooksAgain(cfg, y, Watch(code, cfg, y, later), k, page * PAGE)
    ensures Watch(code, cfg, Stepped(code, cfg, x, Loss(page)), later).notes[k].hits > 0
  {
    var y := Stepped(code, cfg, x, Loss(page));
    StepKeeps(code, cfg, x, Loss(page));
    LossRecorded(code, cfg, x, page, k);
    RunCaught(code, cfg, y, later, k, page * PAGE);
  }

  // End to end. The kernel discards a page at a moment when that destroys a word some worker
  // still expects. Once the worker has loaded the page again in a verify and reported, the
  // shared mismatch counter is not zero.
  lemma LossIsReported(code: seq<Word32>, cfg: Config, cpus: seq<Cpu>, mapped: set<int>,
                       hs: seq<Happening>, page: int, later: seq<Happening>, k: nat)
    requires SoakRun(code, cfg, cpus, mapped, hs) && k < cfg.vcpus
    requires Spoils(cfg, Reached(code, cfg, cpus, mapped, hs), page, k)
    requires var y := Stepped(code, cfg, Reached(code, cfg, cpus, mapped, hs), Loss(page));
      NeverWraps(code, cfg, y, later) && LooksAgain(cfg, y, Watch(code, cfg, y, later), k, page * PAGE)
    ensures Reported(Watch(code, cfg, Stepped(code, cfg, Reached(code, cfg, cpus, mapped, hs), Loss(page)), later))
  {
    var x := Reached(code, cfg, cpus, mapped, hs);
    var y := Stepped(code, cfg, x, Loss(page));
    ReachedOk(code, cfg, cpus, mapped, hs);
    RunAccounts(code, cfg, cpus, mapped, hs);
    SpoiledIsHit(code, cfg, x, page, later, k);
    StepKeeps(code, cfg, x, Loss(page));
    StepStats(code, cfg, x, Loss(page));
    StepFits(code, cfg, x, Loss(page));
    HitIsTallied(code, cfg, y, later, k);
  }

  lemma HitIsTallied(code: seq<Word32>, cfg: Config, y: Watched, later: seq<Happening>, k: nat)
    requires Tracked(cfg, y) && AllOk(cfg, y) && Loaded(code) && NeverWraps(code, cfg, y, later) && k < cfg.vcpus
    requires StatsOk(cfg, y) && AllFit(cfg, y)
    requires Watch(code, cfg, y, later).notes[k].hits > 0 && CarriesNothing(cfg, Watch(code, cfg, y, later), k)
    ensures Reported(Watch(code, cfg, y, later))
  {
    RunOk(code, cfg, y, later);
    RunStats(code, cfg, y, later);
    HitIsReported(cfg, Watch(code, cfg, y, later), k);
  }

  predicate CarriesNothing(cfg: Config, z: Watched, k: nat)
    requires Tracked(cfg, z) && k < cfg.vcpus
  {
    var s, u := SlotOf(cfg, k), z.sys.threads[k];
    SlotOk(s) && Pending(u.w, ViewIn(s, u.w, u.cpu)) == 0
  }

  // The shared counter shows it, unless 2^64 mismatches have been added in all.
  predicate Reported(z: Watched) {
    TotalTallied(z.notes) > 0 && (TotalTallied(z.notes) < TWO64 ==> z.sys.stats.mismatches > 0)
  }

  lemma HitIsReported(cfg: Config, z: Watched, k: nat)
    requires Tracked(cfg, z) && AllOk(cfg, z) && StatsOk(cfg, z) && k < cfg.vcpus
    requires z.notes[k].hits > 0 && CarriesNothing(cfg, z, k)
    ensures Reported(z)
  {
    hide HotOk;
    hide Step;
    hide Act;
    hide ColdOk;
    assert MemberOk(cfg, z, k);
    TalliedAtLeast(z.notes, k);
  }

  lemma LossRecorded(code: seq<Word32>, cfg: Config, x: Watched, page: int, k: nat)
    requires Tracked(cfg, x) && k < cfg.vcpus && SlotOk(SlotOf(cfg, k))
    requires var t := x.sys.threads[k]; Harmful(SlotOf(cfg, k), t.w, ViewIn(SlotOf(cfg, k), t.w, t.cpu), page * PAGE)
    ensures var y := Stepped(code, cfg, x, Loss(page));
      page * PAGE in y.notes[k].damaged && y.sys.threads == x.sys.threads
  {
  }
}
