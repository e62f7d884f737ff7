// What the soak's invariant means to someone reading its output.

module SoakTheorems {
  import opened Words
  import opened Arm64
  import opened GuestCode
  import opened Passes
  import opened Runs
  import opened Hammer
  import opened Soak
  import opened SoakWorker
  import opened SoakSystem

  // ---- Alignment ----

  // Every worker's halves start and end on page boundaries exactly when there is one vCPU or
  // ram_size / vcpus is itself a page multiple. `run` does not check this.
  lemma RangesAligned(cfg: Config)
    requires cfg.vcpus >= 1 && cfg.slot >= 0
    ensures (forall k :: 0 <= k < cfg.vcpus ==> Aligned(SlotOf(cfg, k).base) && Aligned(SlotOf(cfg, k).half))
       <==> cfg.vcpus == 1 || Aligned(cfg.slot)
  {
    assert Aligned(Half(cfg));
    assert SlotOf(cfg, 0).base == RAM_GPA;
    if cfg.vcpus > 1 {
      assert SlotOf(cfg, 1).base == RAM_GPA + cfg.slot;
    }
    if Aligned(cfg.slot) {
      forall k | 0 <= k < cfg.vcpus ensures Aligned(SlotOf(cfg, k).base) {
        MultipleAligned(k, cfg.slot);
      }
    }
  }

  // The halves of a slot fill it but for less than two pages, and a half is so many pages of it.
  lemma HalvesFill(cfg: Config)
    requires cfg.slot >= 0
    ensures 2 * Half(cfg) <= cfg.slot < 2 * Half(cfg) + 2 * PAGE
    ensures PageOf(Half(cfg)) == cfg.slot / (2 * PAGE)
    ensures cfg.slot % (2 * PAGE) == 0 <==> 2 * Half(cfg) == cfg.slot
  {
  }

  // The worker whose slot an address of guest RAM lies in.
  lemma SlotHolding(cfg: Config, a: int) returns (k: nat)
    requires ConfigOk(cfg) && RAM_GPA <= a < RAM_GPA + cfg.vcpus * cfg.slot
    ensures k < cfg.vcpus && SlotOf(cfg, k).base <= a < SlotOf(cfg, k).base + cfg.slot
  {
    k := 0;
    while a >= RAM_GPA + (k + 1) * cfg.slot
      invariant k < cfg.vcpus && RAM_GPA + k * cfg.slot <= a
      decreases cfg.vcpus - k
    {
      k := k + 1;
      if k == cfg.vcpus {
        assert false;
      }
    }
    assert (k + 1) * cfg.slot == k * cfg.slot + cfg.slot;
  }

  // Every page of guest RAM is hot or cold for exactly one worker, and not both, unless it is
  // the odd page at the end of a slot of an odd number of pages.
  lemma EveryPageOwned(cfg: Config, a: int) returns (k: nat)
    requires ConfigOk(cfg) && Aligned(a) && RAM_GPA <= a < RAM_GPA + cfg.vcpus * cfg.slot
    ensures k < cfg.vcpus && !(InHot(SlotOf(cfg, k), a) && InCold(SlotOf(cfg, k), a))
    ensures InHot(SlotOf(cfg, k), a) || InCold(SlotOf(cfg, k), a) <==>
            cfg.slot % (2 * PAGE) == 0 || a != SlotOf(cfg, k).base + cfg.slot - PAGE
    ensures forall j: nat :: j < cfg.vcpus && j != k ==> !InHot(SlotOf(cfg, j), a) && !InCold(SlotOf(cfg, j), a)
  {
    k := SlotHolding(cfg, a);
    SlotsOk(cfg, k);
    HalfFacts(cfg);
    OddPage(cfg, a - SlotOf(cfg, k).base);
    PagesApart(SlotOf(cfg, k).base, a);
    forall j: nat | j < cfg.vcpus && j != k ensures !InHot(SlotOf(cfg, j), a) && !InCold(SlotOf(cfg, j), a) {
      OtherSlot(cfg, j, k);
    }
  }

  lemma PagesApart(a: int, b: int)
    requires Aligned(a) && Aligned(b)
    ensures Aligned(b - a)
  {
  }

  lemma OddPage(cfg: Config, off: int)
    requires ConfigOk(cfg) && Aligned(off) && 0 <= off < cfg.slot
    ensures off < 2 * Half(cfg) <==> cfg.slot % (2 * PAGE) == 0 || off != cfg.slot - PAGE
  {
    HalvesFill(cfg);
    HalfFacts(cfg);
    AlignedSum(Half(cfg), Half(cfg));
    PagesApart(2 * Half(cfg), cfg.slot);
    PagesApart(2 * Half(cfg), off);
    hide Half;
    assert cfg.slot - 2 * Half(cfg) == 0 || cfg.slot - 2 * Half(cfg) == PAGE;
  }

  // Different workers' slots, the odd pages included.
  lemma OtherSlot(cfg: Config, j: nat, k: nat)
    requires ConfigOk(cfg) && j < cfg.vcpus && k < cfg.vcpus && j != k
    ensures var a, b := SlotOf(cfg, j).base, SlotOf(cfg, k).base; a + cfg.slot <= b || b + cfg.slot <= a
  {
    if j < k {
      SlotFits(j, k, cfg.slot);
    } else {
      SlotFits(k, j, cfg.slot);
    }
  }

  // A worker whose slot does not even start on a doubleword faults on the first load of its
  // first sweep.
  lemma UnalignedSlotFaults(env: Env, s: Slot, hi: Word, cpu0: Cpu, mem: Memory)
    requires Loaded(env.code) && 0 <= s.base < TWO64 && s.base % 8 != 0
    ensures var m := Apply(env, Machine(Arm(Pass(Sweep, s.base, hi, 0), cpu0), mem), Tick);
      Step(env, m.cpu, m.mem) == AlignmentFault
  {
    hide Step;
    var start := Machine(Arm(Pass(Sweep, s.base, hi, 0), cpu0), mem);
    FirstTick(env, start);
    var m := Apply(env, start, Tick);
    StepAt(env, Sweep, 1, m.cpu, m.mem);
  }

  lemma ThreeWorkers(munmap: bool)
    ensures var cfg := Config(3, 0x4000_0000 / 3, munmap); var s := SlotOf(cfg, 1);
      && cfg.slot >= 2 * PAGE * 16 && !Aligned(cfg.slot) && s.base % 8 != 0
      && RAM_GPA <= s.base && 0 <= s.half && s.base + s.half < TWO64
  {
    var cfg := Config(3, 0x4000_0000 / 3, munmap);
    assert cfg.slot == 357_913_941;
    assert SlotOf(cfg, 1).base == RAM_GPA + cfg.slot && Half(cfg) <= cfg.slot;
  }

  // 1 GiB over three vCPUs is such a case, and `run` accepts it: worker 1 faults.
  lemma ThreeWorkersFault(env: Env, munmap: bool, cpu0: Cpu, mem: Memory)
    requires Loaded(env.code)
    ensures var cfg := Config(3, 0x4000_0000 / 3, munmap); var s := SlotOf(cfg, 1);
      && cfg.slot >= 2 * PAGE * 16 && !Aligned(cfg.slot) && s.base + s.half < TWO64
      && var m := Apply(env, Machine(Arm(Pass(Sweep, s.base, s.base + s.half, 0), cpu0), mem), Tick);
         Step(env, m.cpu, m.mem) == AlignmentFault
  {
    ThreeWorkers(munmap);
    hide SlotOf;
    hide Aligned;
    hide Step;
    var s := SlotOf(Config(3, 0x4000_0000 / 3, munmap), 1);
    UnalignedSlotFaults(env, s, s.base + s.half, cpu0, mem);
  }

  // ---- Isolation ----

  // A run that starts from boot, over the code page of the five programs.
  ghost predicate SoakRun(code: seq<Word32>, cfg: Config, cpus: seq<Cpu>, mapped: set<int>, hs: seq<Happening>) {
    && Loaded(code) && ConfigOk(cfg) && |cpus| == cfg.vcpus && BootMap(cfg, mapped)
    && NeverWraps(code, cfg, BootWatched(cfg, cpus, mapped), hs)
  }

  ghost function Reached(code: seq<Word32>, cfg: Config, cpus: seq<Cpu>, mapped: set<int>, hs: seq<Happening>): Watched
    requires SoakRun(code, cfg, cpus, mapped, hs)
  {
    Watch(code, cfg, BootWatched(cfg, cpus, mapped), hs)
  }

  lemma ReachedOk(code: seq<Word32>, cfg: Config, cpus: seq<Cpu>, mapped: set<int>, hs: seq<Happening>)
    requires SoakRun(code, cfg, cpus, mapped, hs)
    ensures var x := Reached(code, cfg, cpus, mapped, hs); Tracked(cfg, x) && AllOk(cfg, x) && Unwrapped(x.sys)
  {
    BootOk(cfg, cpus, mapped);
    RunOk(code, cfg, BootWatched(cfg, cpus, mapped), hs);
  }

  // In every reachable state the next instruction of every running vCPU retires or rings the
  // doorbell, so run_to_doorbell never panics; and a worker's turn changes no memory outside
  // its slot and no stage-2 entry outside its cold half.
  lemma Isolation(code: seq<Word32>, cfg: Config, cpus: seq<Cpu>, mapped: set<int>, hs: seq<Happening>,
                  k: nat, c: Choice)
    requires SoakRun(code, cfg, cpus, mapped, hs) && k < cfg.vcpus
    ensures var x := Reached(code, cfg, cpus, mapped, hs).sys; var s := SlotOf(cfg, k);
      && (x.threads[k].w.stage.Running? ==>
            var o := Step(Env(code, x.mapped), x.threads[k].cpu, x.mem);
            o.Retired? || o == DataAbort(DOORBELL_GPA))
      && SameElsewhere(s, x.mem, SysStep(code, cfg, x, Turn(k, c)).mem)
      && (forall page :: !IsColdPage(s, page) ==>
            (page in SysStep(code, cfg, x, Turn(k, c)).mapped <==> page in x.mapped))
  {
    hide Step;
    ReachedOk(code, cfg, cpus, mapped, hs);
    var x, s := Reached(code, cfg, cpus, mapped, hs), SlotOf(cfg, k);
    SlotsOk(cfg, k);
    assert MemberOk(cfg, x, k);
    var e := EffectOf(x.sys, k);
    if e.w.stage.Running? {
      GuestInstruction(code, s, e, x.notes[k]);
    }
    ActOk(code, cfg.munmap, s, e, c, x.notes[k]);
    forall page | !IsColdPage(s, page)
      ensures page in SysStep(code, cfg, x.sys, Turn(k, c)).mapped <==> page in x.sys.mapped
    {
      ActMapped(code, cfg.munmap, s, e, c, page);
    }
  }

  // Guest RAM that is mapped at the start is mapped again whenever no worker is between its
  // unmap and its remap; and a worker that is has unmapped its cold half and nothing else.
  lemma StageTwoRestored(code: seq<Word32>, cfg: Config, cpus: seq<Cpu>, mapped: set<int>,
                         hs: seq<Happening>, k: nat, a: int)
    requires SoakRun(code, cfg, cpus, mapped, hs) && k < cfg.vcpus && InSlot(SlotOf(cfg, k), a)
    ensures var x := Reached(code, cfg, cpus, mapped, hs).sys;
      PageOf(a) in x.mapped <==> !(ColdUnmapped(x.threads[k].w) && InCold(SlotOf(cfg, k), a))
  {
    ReachedOk(code, cfg, cpus, mapped, hs);
    assert MemberOk(cfg, Reached(code, cfg, cpus, mapped, hs), k);
    assert InHot(SlotOf(cfg, k), a) || InCold(SlotOf(cfg, k), a);
    assert InCold(SlotOf(cfg, k), a) ==> !InHot(SlotOf(cfg, k), a);
  }

  // ---- The mismatch counter ----

  function Total(f: Worker -> int, ts: seq<Thread>): int {
    if ts == [] then 0 else Total(f, ts[..|ts| - 1]) + f(ts[|ts| - 1].w)
  }

  function TotalTallied(notes: seq<Note>): int {
    if notes == [] then 0 else TotalTallied(notes[..|notes| - 1]) + notes[|notes| - 1].tallied
  }

  lemma {:induction false} TotalUpdate(f: Worker -> int, ts: seq<Thread>, k: nat, t: Thread)
    requires k < |ts|
    ensures Total(f, ts[k := t]) == Total(f, ts) - f(ts[k].w) + f(t.w)
    decreases |ts|
  {
    var n := |ts| - 1;
    if k == n {
      assert ts[k := t][..n] == ts[..n];
    } else {
      assert ts[k := t][..n] == ts[..n][k := t];
      TotalUpdate(f, ts[..n], k, t);
    }
  }

  lemma {:induction false} TalliedUpdate(notes: seq<Note>, k: nat, note: Note)
    requires k < |notes|
    ensures TotalTallied(notes[k := note]) == TotalTallied(notes) - notes[k].tallied + note.tallied
    decreases |notes|
  {
    var n := |notes| - 1;
    if k == n {
      assert notes[k := note][..n] == notes[..n];
    } else {
      assert notes[k := note][..n] == notes[..n][k := note];
      TalliedUpdate(notes[..n], k, note);
    }
  }

  lemma {:induction false} TalliedSame(a: seq<Note>, b: seq<Note>)
    requires |a| == |b| && forall k :: 0 <= k < |a| ==> a[k].tallied == b[k].tallied
    ensures TotalTallied(a) == TotalTallied(b)
    decreases |a|
  {
    if a != [] {
      TalliedSame(a[..|a| - 1], b[..|b| - 1]);
    }
  }

  // ---- Accounting ----

  // Sweeps, verify passes and reclaims that a worker in this state has counted: 5, 6 and 1
  // for every completed cycle, and the part of the current one that is done.
  function SweepsOf(w: Worker): int {
    if InColdPhase(w) then
      5 * (w.cycle as int - 1) + 4 + if w.stage == Running(ColdSweep) || w.stage == CountSweep(true) then 0 else 1
    else
      5 * w.cycle as int + w.iter +
      if w.stage in {Running(HotVerify), AddChecks(HotVerify), AddMismatches(HotVerify)} then 1 else 0
  }

  function VerifiesOf(w: Worker): int {
    if InColdPhase(w) then
      6 * (w.cycle as int - 1) + 4 +
      if w.stage == AddMismatches(ColdVerify(true)) then 2
      else if w.stage in {AddMismatches(ColdVerify(false)), Running(ColdVerify(true)), AddChecks(ColdVerify(true))}
      then 1
      else 0
    else 6 * w.cycle as int + w.iter + if w.stage == AddMismatches(HotVerify) then 1 else 0
  }

  function ReclaimsOf(w: Worker): int {
    if InColdPhase(w) then
      w.cycle as int - 1 +
      if w.stage in {Running(ColdSweep), CountSweep(true), Unmapping, Releasing, Remapping, CountReclaim} then 0 else 1
    else w.cycle as int
  }

  function WrapAdd(w: Word, d: int): Word {
    Wrap(w as int + d)
  }

  // What one action of one worker adds to the shared counters.
  ghost predicate StatsMove(s: Slot, w: Worker, note: Note, stats: Stats, w': Worker, note': Note, stats': Stats) {
    && stats'.sweeps == WrapAdd(stats.sweeps, SweepsOf(w') - SweepsOf(w))
    && stats'.reclaims == WrapAdd(stats.reclaims, ReclaimsOf(w') - ReclaimsOf(w))
    && 0 <= VerifiesOf(w') - VerifiesOf(w) <= 1
    && stats'.checks == WrapAdd(stats.checks, if VerifiesOf(w') == VerifiesOf(w) then 0 else PageOf(s.half))
    && stats'.mismatches == WrapAdd(stats.mismatches, note'.tallied - note.tallied)
  }

  lemma WrapAddZero(w: Word)
    ensures WrapAdd(w, 0) == w
  {
  }

  ghost predicate Moves(code: seq<Word32>, munmap: bool, s: Slot, x: Effect, c: Choice, note: Note)
    requires SlotOk(s)
  {
    var y := Act(code, munmap, s, x, c);
    StatsMove(s, x.w, note, x.stats, y.w, NoteAct(s, x.w, x.cpu, note), y.stats)
  }

  lemma FinishCounts(s: Slot, w: Worker, cpu: Cpu)
    requires SlotOk(s) && ShapeOk(s, w) && w.stage.Running?
    ensures var w' := Finish(s, w, cpu, w.stage.job).1;
      SweepsOf(w') == SweepsOf(w) && VerifiesOf(w') == VerifiesOf(w) && ReclaimsOf(w') == ReclaimsOf(w)
  {
  }

  lemma QuietMove(s: Slot, w: Worker, note: Note, stats: Stats, w': Worker, note': Note)
    requires SweepsOf(w') == SweepsOf(w) && VerifiesOf(w') == VerifiesOf(w) && ReclaimsOf(w') == ReclaimsOf(w)
    requires note'.tallied == note.tallied
    ensures StatsMove(s, w, note, stats, w', note', stats)
  {
    WrapAddZero(stats.sweeps);
    WrapAddZero(stats.checks);
    WrapAddZero(stats.mismatches);
    WrapAddZero(stats.reclaims);
  }

  lemma MovesRunning(code: seq<Word32>, munmap: bool, s: Slot, x: Effect, c: Choice, note: Note)
    requires Loaded(code) && Before(s, x, note) && x.w.stage.Running?
    ensures Moves(code, munmap, s, x, c, note)
  {
    hide Step;
    GuestInstruction(code, s, x, note);
    FinishCounts(s, x.w, x.cpu);
    var y := Act(code, munmap, s, x, c);
    QuietMove(s, x.w, note, x.stats, y.w, NoteAct(s, x.w, x.cpu, note));
  }

  lemma MovesQuiet(code: seq<Word32>, munmap: bool, s: Slot, x: Effect, c: Choice, note: Note)
    requires Before(s, x, note)
    requires x.w.stage in
               {Planting, Corrupting, Restoring, Deadline, Unmapping, Releasing, Remapping, Finished, Panicked}
    ensures Moves(code, munmap, s, x, c, note)
  {
    hide Stamp;
    hide XorWord;
    hide Ctl;
    hide Step;
    var y := Act(code, munmap, s, x, c);
    QuietMove(s, x.w, note, x.stats, y.w, NoteAct(s, x.w, x.cpu, note));
  }

  lemma MovesCountSweep(code: seq<Word32>, munmap: bool, s: Slot, x: Effect, c: Choice, note: Note)
    requires Before(s, x, note) && x.w.stage.CountSweep?
    ensures Moves(code, munmap, s, x, c, note)
  {
    hide Stamp;
    hide XorWord;
    hide Ctl;
    hide Step;
    var w, w' := x.w, Act(code, munmap, s, x, c).w;
    assert SweepsOf(w') == SweepsOf(w) + 1 && VerifiesOf(w') == VerifiesOf(w) && ReclaimsOf(w') == ReclaimsOf(w);
    WrapAddZero(x.stats.checks);
    WrapAddZero(x.stats.mismatches);
    WrapAddZero(x.stats.reclaims);
  }

  lemma MovesCountReclaim(code: seq<Word32>, munmap: bool, s: Slot, x: Effect, c: Choice, note: Note)
    requires Before(s, x, note) && x.w.stage == CountReclaim
    ensures Moves(code, munmap, s, x, c, note)
  {
    hide Stamp;
    hide XorWord;
    hide Ctl;
    hide Step;
    var w, w' := x.w, Act(code, munmap, s, x, c).w;
    assert SweepsOf(w') == SweepsOf(w) && VerifiesOf(w') == VerifiesOf(w) && ReclaimsOf(w') == ReclaimsOf(w) + 1;
    WrapAddZero(x.stats.sweeps);
    WrapAddZero(x.stats.checks);
    WrapAddZero(x.stats.mismatches);
  }

  lemma AddChecksActs(code: seq<Word32>, munmap: bool, s: Slot, x: Effect, c: Choice)
    requires SlotOk(s) && x.w.stage.AddChecks?
    ensures var y := Act(code, munmap, s, x, c);
      && y.w == x.w.(stage := AddMismatches(x.w.stage.job))
      && y.stats == x.stats.(checks := WrapAdd(x.stats.checks, PageOf(s.half)))
  {
    hide Step;
  }

  lemma AddMismatchesActs(code: seq<Word32>, munmap: bool, s: Slot, x: Effect, c: Choice)
    requires SlotOk(s) && x.w.stage.AddMismatches?
    ensures var y := Act(code, munmap, s, x, c);
      && y.w == Onward(s, x.w, x.cpu, x.w.stage.job).1
      && y.stats == x.stats.(mismatches := WrapAdd(x.stats.mismatches, x.w.bad))
  {
    hide Step;
  }

  lemma MovesAddChecks(code: seq<Word32>, munmap: bool, s: Slot, x: Effect, c: Choice, note: Note)
    requires Before(s, x, note) && x.w.stage.AddChecks?
    ensures Moves(code, munmap, s, x, c, note)
  {
    hide Stamp;
    hide XorWord;
    hide Ctl;
    hide Step;
    hide Act;
    AddChecksActs(code, munmap, s, x, c);
    var w, w' := x.w, Act(code, munmap, s, x, c).w;
    assert w.stage.job == HotVerify || w.stage.job == ColdVerify(true) || w.stage.job == ColdVerify(false);
    assert SweepsOf(w') == SweepsOf(w) && VerifiesOf(w') == VerifiesOf(w) + 1 && ReclaimsOf(w') == ReclaimsOf(w);
    WrapAddZero(x.stats.sweeps);
    WrapAddZero(x.stats.mismatches);
    WrapAddZero(x.stats.reclaims);
  }

  lemma OnwardCounts(s: Slot, w: Worker, cpu: Cpu)
    requires SlotOk(s) && ShapeOk(s, w) && w.stage.AddMismatches? && w.cycle < TWO64 - 1
    ensures var w' := Onward(s, w, cpu, w.stage.job).1;
      SweepsOf(w') == SweepsOf(w) && VerifiesOf(w') == VerifiesOf(w) && ReclaimsOf(w') == ReclaimsOf(w)
  {
  }

  lemma MovesAdd(code: seq<Word32>, munmap: bool, s: Slot, x: Effect, c: Choice, note: Note)
    requires Before(s, x, note) && x.w.stage.AddMismatches?
    ensures Moves(code, munmap, s, x, c, note)
  {
    hide Stamp;
    hide XorWord;
    hide Step;
    AddMismatchesActs(code, munmap, s, x, c);
    OnwardCounts(s, x.w, x.cpu);
    hide Act;
    hide Ctl;
    hide ThreadOk;
    hide Onward;
    hide SweepsOf;
    hide VerifiesOf;
    hide ReclaimsOf;
    WrapAddZero(x.stats.sweeps);
    WrapAddZero(x.stats.checks);
    WrapAddZero(x.stats.reclaims);
  }

  lemma ActMoves(code: seq<Word32>, munmap: bool, s: Slot, x: Effect, c: Choice, note: Note)
    requires Loaded(code) && Before(s, x, note)
    ensures Moves(code, munmap, s, x, c, note)
  {
    hide Step;
    match x.w.stage
    case Running(_) => MovesRunning(code, munmap, s, x, c, note);
    case AddMismatches(_) => MovesAdd(code, munmap, s, x, c, note);
    case AddChecks(_) => MovesAddChecks(code, munmap, s, x, c, note);
    case CountSweep(_) => MovesCountSweep(code, munmap, s, x, c, note);
    case CountReclaim => MovesCountReclaim(code, munmap, s, x, c, note);
    case _ => MovesQuiet(code, munmap, s, x, c, note);
  }

  // The shared counters are the totals over the workers, modulo 2^64.
  ghost predicate StatsOk(cfg: Config, x: Watched)
    requires Tracked(cfg, x)
  {
    var ts, stats := x.sys.threads, x.sys.stats;
    && stats.sweeps == Wrap(Total(SweepsOf, ts))
    && stats.checks == Wrap(PageOf(Half(cfg)) * Total(VerifiesOf, ts))
    && stats.reclaims == Wrap(Total(ReclaimsOf, ts))
    && stats.mismatches == Wrap(TotalTallied(x.notes))
  }

  lemma CounterFollows(before: Word, total: int, d: int, after: Word)
    requires before == Wrap(total) && after == WrapAdd(before, d)
    ensures after == Wrap(total + d)
  {
    WrapAgain(total, d);
  }

  lemma ChecksFollow(before: Word, pages: int, a: int, b: int, after: Word)
    requires before == Wrap(pages * a) && 0 <= b - a <= 1
    requires after == WrapAdd(before, if a == b then 0 else pages)
    ensures after == Wrap(pages * b)
  {
    CounterFollows(before, pages * a, if a == b then 0 else pages, after);
    if a != b {
      assert pages * (a + 1) == pages * a + pages;
    }
  }

  lemma StepStats(code: seq<Word32>, cfg: Config, x: Watched, h: Happening)
    requires Tracked(cfg, x) && AllOk(cfg, x) && Loaded(code) && Unwrapped(x.sys) && StatsOk(cfg, x)
    ensures StatsOk(cfg, Stepped(code, cfg, x, h))
  {
    var y := Stepped(code, cfg, x, h);
    match h
    case Loss(page) => TalliedSame(x.notes, y.notes);
    case Turn(k, c) =>
      if k < cfg.vcpus {
        TurnStats(code, cfg, x, k, c);
      }
  }

  // A turn changes one thread and its note.
  lemma TotalsMove(cfg: Config, x: Watched, k: nat, t: Thread, note: Note)
    requires Tracked(cfg, x) && k < cfg.vcpus
    ensures var ts, w := x.sys.threads, x.sys.threads[k].w; var ts' := ts[k := t];
      && Total(SweepsOf, ts') == Total(SweepsOf, ts) + (SweepsOf(t.w) - SweepsOf(w))
      && Total(VerifiesOf, ts') == Total(VerifiesOf, ts) + (VerifiesOf(t.w) - VerifiesOf(w))
      && Total(ReclaimsOf, ts') == Total(ReclaimsOf, ts) + (ReclaimsOf(t.w) - ReclaimsOf(w))
      && TotalTallied(x.notes[k := note]) == TotalTallied(x.notes) + (note.tallied - x.notes[k].tallied)
  {
    TotalUpdate(SweepsOf, x.sys.threads, k, t);
    TotalUpdate(VerifiesOf, x.sys.threads, k, t);
    TotalUpdate(ReclaimsOf, x.sys.threads, k, t);
    TalliedUpdate(x.notes, k, note);
  }

  lemma MovedStats(cfg: Config, x: Watched, k: nat, t: Thread, note: Note, mem: Memory, mapped: set<int>, stats: Stats)
    requires Tracked(cfg, x) && StatsOk(cfg, x) && k < cfg.vcpus
    requires StatsMove(SlotOf(cfg, k), x.sys.threads[k].w, x.notes[k], x.sys.stats, t.w, note, stats)
    ensures StatsOk(cfg, Watched(Sys(x.sys.threads[k := t], mem, mapped, stats), x.notes[k := note]))
  {
    hide Wrap;
    hide WrapAdd;
    hide PageOf;
    hide Total;
    hide TotalTallied;
    var ts, w, was := x.sys.threads, x.sys.threads[k].w, x.sys.stats;
    TotalsMove(cfg, x, k, t, note);
    CounterFollows(was.sweeps, Total(SweepsOf, ts), SweepsOf(t.w) - SweepsOf(w), stats.sweeps);
    CounterFollows(was.reclaims, Total(ReclaimsOf, ts), ReclaimsOf(t.w) - ReclaimsOf(w), stats.reclaims);
    CounterFollows(was.mismatches, TotalTallied(x.notes), note.tallied - x.notes[k].tallied, stats.mismatches);
    ChecksFollow(was.checks, PageOf(Half(cfg)), Total(VerifiesOf, ts), Total(VerifiesOf, ts[k := t]), stats.checks);
  }

  lemma TurnStats(code: seq<Word32>, cfg: Config, x: Watched, k: nat, c: Choice)
    requires Tracked(cfg, x) && AllOk(cfg, x) && Loaded(code) && Unwrapped(x.sys) && StatsOk(cfg, x) && k < cfg.vcpus
    ensures StatsOk(cfg, Stepped(code, cfg, x, Turn(k, c)))
  {
    var y := Stepped(code, cfg, x, Turn(k, c));
    SlotsOk(cfg, k);
    assert MemberOk(cfg, x, k);
    ActMoves(code, cfg.munmap, SlotOf(cfg, k), EffectOf(x.sys, k), c, x.notes[k]);
    MovedStats(cfg, x, k, y.sys.threads[k], y.notes[k], y.sys.mem, y.sys.mapped, y.sys.stats);
  }

  // ---- Mismatches never outrun checks ----

  // Page checks are added before the mismatches they turned up, so a worker's mismatches fit
  // into the verify passes it has counted.
  predicate TallyFits(s: Slot, w: Worker, note: Note) {
    PAGE * note.tallied <= s.half * (VerifiesOf(w) - if w.stage.AddMismatches? then 1 else 0)
  }

  lemma VerifiesSteps(code: seq<Word32>, munmap: bool, s: Slot, x: Effect, c: Choice, note: Note)
    requires Loaded(code) && Before(s, x, note)
    ensures var w' := Act(code, munmap, s, x, c).w;
      && (w'.stage.AddMismatches? <==> x.w.stage.AddChecks?)
      && VerifiesOf(w') == VerifiesOf(x.w) + if x.w.stage.AddChecks? then 1 else 0
  {
    hide Stamp;
    hide XorWord;
    hide Step;
    if x.w.stage.Running? {
      RunningVerifies(code, munmap, s, x, c, note);
    } else if x.w.stage.AddMismatches? {
      OnwardCounts(s, x.w, x.cpu);
    }
  }

  lemma RunningVerifies(code: seq<Word32>, munmap: bool, s: Slot, x: Effect, c: Choice, note: Note)
    requires Loaded(code) && Before(s, x, note) && x.w.stage.Running?
    ensures var w' := Act(code, munmap, s, x, c).w; !w'.stage.AddMismatches? && VerifiesOf(w') == VerifiesOf(x.w)
  {
    hide Step;
    GuestInstruction(code, s, x, note);
    FinishCounts(s, x.w, x.cpu);
  }

  lemma TallyArith(half: int, t: int, bad: int, v: int, adding: bool, checking: bool)
    requires PAGE * t <= half * (v - if adding then 1 else 0)
    requires adding ==> PAGE * bad <= half && !checking
    ensures PAGE * (t + if adding then bad else 0) <= half * v
  {
    if adding {
      assert half * (v - 1) + half == half * v;
      assert PAGE * (t + bad) == PAGE * t + PAGE * bad;
    }
  }

  lemma TallyStep(code: seq<Word32>, munmap: bool, s: Slot, x: Effect, c: Choice, note: Note)
    requires Loaded(code) && Before(s, x, note) && TallyFits(s, x.w, note)
    ensures TallyFits(s, Act(code, munmap, s, x, c).w, NoteAct(s, x.w, x.cpu, note))
  {
    var w', note' := Act(code, munmap, s, x, c).w, NoteAct(s, x.w, x.cpu, note);
    var adding, checking := x.w.stage.AddMismatches?, x.w.stage.AddChecks?;
    VerifiesSteps(code, munmap, s, x, c, note);
    TallyArith(s.half, note.tallied, x.w.bad, VerifiesOf(x.w), adding, checking);
    TalliedChange(s, x.w, x.cpu, note);
    assert VerifiesOf(w') - (if w'.stage.AddMismatches? then 1 else 0) == VerifiesOf(x.w);
  }

  lemma TalliedChange(s: Slot, w: Worker, cpu: Cpu, note: Note)
    requires SlotOk(s)
    ensures NoteAct(s, w, cpu, note).tallied == note.tallied + if w.stage.AddMismatches? then w.bad else 0
  {
  }

  ghost predicate AllFit(cfg: Config, x: Watched)
    requires Tracked(cfg, x)
  {
    forall k :: 0 <= k < cfg.vcpus ==> TallyFits(SlotOf(cfg, k), x.sys.threads[k].w, x.notes[k])
  }

  lemma StepFits(code: seq<Word32>, cfg: Config, x: Watched, h: Happening)
    requires Tracked(cfg, x) && AllOk(cfg, x) && Loaded(code) && Unwrapped(x.sys) && AllFit(cfg, x)
    ensures AllFit(cfg, Stepped(code, cfg, x, h))
  {
    if h.Turn? && h.k < cfg.vcpus {
      assert MemberOk(cfg, x, h.k);
      TallyStep(code, cfg.munmap, SlotOf(cfg, h.k), EffectOf(x.sys, h.k), h.c, x.notes[h.k]);
    }
  }

  lemma Distributes(c: int, a: int, b: int)
    ensures c * (a + b) == c * a + c * b
  {
  }

  lemma {:induction false} TalliedWithinChecks(cfg: Config, ts: seq<Thread>, notes: seq<Note>)
    requires |ts| == |notes|
    requires forall k :: 0 <= k < |ts| ==> PAGE * notes[k].tallied <= Half(cfg) * VerifiesOf(ts[k].w)
    ensures PAGE * TotalTallied(notes) <= Half(cfg) * Total(VerifiesOf, ts)
    decreases |ts|
  {
    if ts != [] {
      var n := |ts| - 1;
      TalliedWithinChecks(cfg, ts[..n], notes[..n]);
      Distributes(Half(cfg), Total(VerifiesOf, ts[..n]), VerifiesOf(ts[n].w));
    }
  }

  // ---- Whole runs ----

  lemma {:induction false} RunStats(code: seq<Word32>, cfg: Config, x: Watched, hs: seq<Happening>)
    requires Tracked(cfg, x) && AllOk(cfg, x) && Loaded(code) && NeverWraps(code, cfg, x, hs)
    requires StatsOk(cfg, x) && AllFit(cfg, x)
    ensures StatsOk(cfg, Watch(code, cfg, x, hs)) && AllFit(cfg, Watch(code, cfg, x, hs))
    decreases |hs|
  {
    if hs != [] {
      var n := |hs| - 1;
      RunStats(code, cfg, x, hs[..n]);
      RunOk(code, cfg, x, hs[..n]);
      StepStats(code, cfg, Watch(code, cfg, x, hs[..n]), hs[n]);
      StepFits(code, cfg, Watch(code, cfg, x, hs[..n]), hs[n]);
    }
  }

  lemma {:induction false} TotalZero(f: Worker -> int, ts: seq<Thread>)
    requires forall k :: 0 <= k < |ts| ==> f(ts[k].w) == 0
    ensures Total(f, ts) == 0
    decreases |ts|
  {
    if ts != [] {
      TotalZero(f, ts[..|ts| - 1]);
    }
  }

  lemma {:induction false} BlankTallied(n: nat)
    ensures TotalTallied(seq(n, _ => BLANK)) == 0
    decreases n
  {
    if n > 0 {
      assert seq(n, _ => BLANK)[..n - 1] == seq(n - 1, _ => BLANK);
      BlankTallied(n - 1);
    }
  }

  lemma BootStats(cfg: Config, cpus: seq<Cpu>, mapped: set<int>)
    requires ConfigOk(cfg) && |cpus| == cfg.vcpus
    ensures StatsOk(cfg, BootWatched(cfg, cpus, mapped)) && AllFit(cfg, BootWatched(cfg, cpus, mapped))
  {
    hide Half;
    hide PageOf;
    var x := BootWatched(cfg, cpus, mapped);
    forall k | 0 <= k < cfg.vcpus
      ensures x.sys.threads[k].w == Worker(Running(FirstSweep), 0, 0, 0, 0, 0)
    {
      SlotsOk(cfg, k);
    }
    TotalZero(SweepsOf, x.sys.threads);
    TotalZero(VerifiesOf, x.sys.threads);
    TotalZero(ReclaimsOf, x.sys.threads);
    BlankTallied(cfg.vcpus);
  }

  // Verify loads of a worker that found a damaged page are the mismatches it has added plus
  // those it is still carrying.
  predicate HitsAccounted(cfg: Config, x: Watched, k: nat)
    requires Tracked(cfg, x) && k < cfg.vcpus
  {
    var t, s := x.sys.threads[k], SlotOf(cfg, k);
    SlotsOk(cfg, k);
    x.notes[k].hits == x.notes[k].tallied + Pending(t.w, ViewIn(s, t.w, t.cpu))
  }

  lemma FitsWhole(s: Slot, w: Worker, note: Note)
    requires SlotOk(s) && TallyFits(s, w, note)
    ensures PAGE * note.tallied <= s.half * VerifiesOf(w)
  {
    var v := VerifiesOf(w);
    assert s.half * (v - 1) + s.half == s.half * v;
  }

  lemma TalliedBound(cfg: Config, x: Watched)
    requires Tracked(cfg, x) && AllFit(cfg, x)
    ensures TotalTallied(x.notes) <= PageOf(Half(cfg)) * Total(VerifiesOf, x.sys.threads)
  {
    HalfFacts(cfg);
    forall k | 0 <= k < cfg.vcpus
      ensures PAGE * x.notes[k].tallied <= Half(cfg) * VerifiesOf(x.sys.threads[k].w)
    {
      SlotsOk(cfg, k);
      FitsWhole(SlotOf(cfg, k), x.sys.threads[k].w, x.notes[k]);
    }
    TalliedWithinChecks(cfg, x.sys.threads, x.notes);
    PerPage(TotalTallied(x.notes), Half(cfg), Total(VerifiesOf, x.sys.threads));
  }

  // Page checks of the verifies the workers have counted.
  function ChecksOf(cfg: Config, x: Watched): int {
    PageOf(Half(cfg)) * Total(VerifiesOf, x.sys.threads)
  }

  lemma {:induction false} AllTalliedNat(notes: seq<Note>)
    ensures TotalTallied(notes) >= 0
    decreases |notes|
  {
    if notes != [] {
      AllTalliedNat(notes[..|notes| - 1]);
    }
  }

  // The mismatch counter is exact. It equals, modulo 2^64, what the workers have added, and
  // the check counter the pages of the verifies they have counted; every verify load that found
  // a damaged page is accounted for; and at no moment are there more mismatches than checks, nor
  // does the one counter read more than the other until checks reach 2^64.
  lemma MismatchesExact(code: seq<Word32>, cfg: Config, cpus: seq<Cpu>, mapped: set<int>, hs: seq<Happening>)
    requires SoakRun(code, cfg, cpus, mapped, hs)
    ensures var x := Reached(code, cfg, cpus, mapped, hs);
      && x.sys.stats.mismatches == Wrap(TotalTallied(x.notes))
      && x.sys.stats.checks == Wrap(ChecksOf(cfg, x))
      && (forall k :: 0 <= k < cfg.vcpus ==> HitsAccounted(cfg, x, k))
      && TotalTallied(x.notes) <= ChecksOf(cfg, x)
      && (ChecksOf(cfg, x) < TWO64 ==> x.sys.stats.mismatches <= x.sys.stats.checks)
  {
    var x := Reached(code, cfg, cpus, mapped, hs);
    RunAccounts(code, cfg, cpus, mapped, hs);
    TalliedBound(cfg, x);
    AllTalliedNat(x.notes);
    if ChecksOf(cfg, x) < TWO64 {
      Unwraps(ChecksOf(cfg, x));
      Unwraps(TotalTallied(x.notes));
    }
    forall k | 0 <= k < cfg.vcpus ensures HitsAccounted(cfg, x, k) {
      assert MemberOk(cfg, x, k);
    }
  }

  lemma RunAccounts(code: seq<Word32>, cfg: Config, cpus: seq<Cpu>, mapped: set<int>, hs: seq<Happening>)
    requires SoakRun(code, cfg, cpus, mapped, hs)
    ensures var x := Reached(code, cfg, cpus, mapped, hs);
      AllOk(cfg, x) && StatsOk(cfg, x) && AllFit(cfg, x)
  {
    BootOk(cfg, cpus, mapped);
    BootStats(cfg, cpus, mapped);
    ReachedOk(code, cfg, cpus, mapped, hs);
    RunStats(code, cfg, BootWatched(cfg, cpus, mapped), hs);
  }

  lemma PerPage(m: int, half: int, v: int)
    requires Aligned(half) && PAGE * m <= half * v
    ensures m <= PageOf(half) * v
  {
    assert half == PageOf(half) * PAGE;
    assert half * v == PAGE * (PageOf(half) * v);
  }

  function CycleOf(w: Worker): int {
    w.cycle as int
  }

  // The worker is at the top of its loop, or done.
  predicate BetweenCycles(w: Worker) {
    w.stage == Deadline || w.stage == Finished || w.stage == Panicked
  }

  lemma {:induction false} WholeCycles(ts: seq<Thread>)
    requires forall k :: 0 <= k < |ts| ==> BetweenCycles(ts[k].w) && ts[k].w.iter == 0
    ensures Total(SweepsOf, ts) == 5 * Total(CycleOf, ts)
    ensures Total(VerifiesOf, ts) == 6 * Total(CycleOf, ts)
    ensures Total(ReclaimsOf, ts) == Total(CycleOf, ts)
    decreases |ts|
  {
    if ts != [] {
      WholeCycles(ts[..|ts| - 1]);
    }
  }

  // Conservation: once every worker is between cycles, the shared counters are 5 sweeps, 6
  // verifies of half a slot, and one reclaim for every cycle any worker has completed. Half a
  // slot is slot / (2 * PAGE) pages.
  lemma SoakAccounting(code: seq<Word32>, cfg: Config, cpus: seq<Cpu>, mapped: set<int>, hs: seq<Happening>)
    requires SoakRun(code, cfg, cpus, mapped, hs)
    requires forall k :: 0 <= k < cfg.vcpus ==> BetweenCycles(Reached(code, cfg, cpus, mapped, hs).sys.threads[k].w)
    ensures var x := Reached(code, cfg, cpus, mapped, hs).sys; var cycles := Total(CycleOf, x.threads);
      && x.stats.sweeps == Wrap(5 * cycles)
      && x.stats.checks == Wrap(cfg.slot / (2 * PAGE) * (6 * cycles))
      && x.stats.reclaims == Wrap(cycles)
  {
    var x := Reached(code, cfg, cpus, mapped, hs);
    RunAccounts(code, cfg, cpus, mapped, hs);
    HalvesFill(cfg);
    forall k | 0 <= k < cfg.vcpus ensures x.sys.threads[k].w.iter == 0 {
      assert MemberOk(cfg, x, k);
    }
    WholeCycles(x.sys.threads);
  }
}
