// All workers together: the interleaved system and its invariant over every run.

module SoakSystem {
  import opened Words
  import opened Arm64
  import opened GuestCode
  import opened Passes
  import opened Runs
  import opened Hammer
  import opened Soak
  import opened SoakWorker

  datatype Thread = Thread(cpu: Cpu, w: Worker)

  datatype Sys = Sys(threads: seq<Thread>, mem: Memory, mapped: set<int>, stats: Stats)

  // What happens next: worker k gets a turn, or the kernel discards a page.
  datatype Happening = Turn(k: nat, c: Choice) | Loss(page: int)

  // ---- Geometry ----

  // The precondition under which every worker's ranges are page ranges; `run` itself asserts
  // the lower bound on the slot.
  predicate ConfigOk(cfg: Config) {
    && cfg.vcpus >= 1 && Aligned(cfg.slot) && cfg.slot >= 2 * PAGE * 16
    && RAM_GPA + cfg.vcpus * cfg.slot < TWO64
  }

  lemma {:induction false} MultipleAligned(k: nat, slot: int)
    requires Aligned(slot)
    ensures Aligned(k * slot)
    decreases k
  {
    if k > 0 {
      MultipleAligned(k - 1, slot);
      assert k * slot == (k - 1) * slot + slot;
      AlignedSum((k - 1) * slot, slot);
    }
  }

  lemma HalfFacts(cfg: Config)
    requires ConfigOk(cfg)
    ensures Aligned(Half(cfg)) && 2 * PAGE <= Half(cfg) && 2 * Half(cfg) <= cfg.slot
  {
  }

  lemma SlotsOk(cfg: Config, k: nat)
    requires ConfigOk(cfg) && k < cfg.vcpus
    ensures SlotOk(SlotOf(cfg, k))
  {
    HalfFacts(cfg);
    MultipleAligned(k, cfg.slot);
    AlignedSum(RAM_GPA, k * cfg.slot);
    SlotFits(k, cfg.vcpus, cfg.slot);
  }

  lemma {:induction false} SlotFits(k: nat, vcpus: nat, slot: nat)
    requires k < vcpus
    ensures 0 <= k * slot && k * slot + slot <= vcpus * slot
    decreases vcpus
  {
    if vcpus == k + 1 {
      assert vcpus * slot == k * slot + slot;
    } else {
      SlotFits(k, vcpus - 1, slot);
      assert vcpus * slot == (vcpus - 1) * slot + slot;
    }
  }

  // Slots do not overlap.
  lemma SlotsApart(cfg: Config, j: nat, k: nat)
    requires ConfigOk(cfg) && j < cfg.vcpus && k < cfg.vcpus && j != k
    ensures var a, b := SlotOf(cfg, j), SlotOf(cfg, k);
      a.base + 2 * a.half <= b.base || b.base + 2 * b.half <= a.base
  {
    HalfFacts(cfg);
    if j < k {
      assert (j + 1) * cfg.slot <= k * cfg.slot;
    } else {
      assert (k + 1) * cfg.slot <= j * cfg.slot;
    }
  }

  // ---- Runs ----

  function EffectOf(x: Sys, k: nat): Effect
    requires k < |x.threads|
  {
    Effect(x.threads[k].cpu, x.threads[k].w, x.mem, x.mapped, x.stats)
  }

  predicate Formed(cfg: Config, x: Sys) {
    ConfigOk(cfg) && |x.threads| == cfg.vcpus
  }

  function SysStep(code: seq<Word32>, cfg: Config, x: Sys, h: Happening): (y: Sys)
    requires Formed(cfg, x)
    ensures Formed(cfg, y)
  {
    match h
    case Loss(page) => x.(mem := DropPage(x.mem, page))
    case Turn(k, c) =>
      if k < |x.threads| then
        SlotsOk(cfg, k);
        var e := Act(code, cfg.munmap, SlotOf(cfg, k), EffectOf(x, k), c);
        Sys(x.threads[k := Thread(e.cpu, e.w)], e.mem, e.mapped, e.stats)
      else x
  }

  function NotesStep(cfg: Config, x: Sys, notes: seq<Note>, h: Happening): seq<Note>
    requires Formed(cfg, x) && |notes| == |x.threads|
  {
    match h
    case Loss(page) =>
      seq(|notes|, k requires 0 <= k < |notes| =>
        SlotsOk(cfg, k);
        NoteDiscard(SlotOf(cfg, k), x.threads[k].w, x.threads[k].cpu, notes[k], page))
    case Turn(k, c) =>
      if k < |notes| then
        SlotsOk(cfg, k);
        notes[k := NoteAct(SlotOf(cfg, k), x.threads[k].w, x.threads[k].cpu, notes[k])]
      else notes
  }

  // Every worker about to run its first hot sweep on a vCPU with arbitrary registers, over
  // fresh memory with all of guest RAM mapped.
  function Boot(cfg: Config, cpus: seq<Cpu>, mapped: set<int>): Sys
    requires ConfigOk(cfg) && |cpus| == cfg.vcpus
  {
    Sys(seq(cfg.vcpus, k requires 0 <= k < cfg.vcpus => BootThread(cfg, cpus[k], k)),
        map[], mapped, Stats(0, 0, 0, 0))
  }

  function BootThread(cfg: Config, cpu: Cpu, k: nat): Thread
    requires ConfigOk(cfg) && k < cfg.vcpus
  {
    SlotsOk(cfg, k);
    var (c, w) := Start(SlotOf(cfg, k), Worker(Deadline, 0, 0, 0, 0, 0), cpu, FirstSweep);
    Thread(c, w)
  }

  const BLANK: Note := Note({}, 0, 0, 0)

  // The system and the history kept beside it. The first never depends on the second.
  datatype Watched = Watched(sys: Sys, notes: seq<Note>)

  predicate Tracked(cfg: Config, x: Watched) {
    Formed(cfg, x.sys) && |x.notes| == |x.sys.threads|
  }

  function Watch(code: seq<Word32>, cfg: Config, x: Watched, hs: seq<Happening>): (y: Watched)
    requires Tracked(cfg, x)
    ensures Tracked(cfg, y)
  {
    if hs == [] then x
    else
      var before, h := Watch(code, cfg, x, hs[..|hs| - 1]), hs[|hs| - 1];
      Watched(SysStep(code, cfg, before.sys, h), NotesStep(cfg, before.sys, before.notes, h))
  }

  function BootWatched(cfg: Config, cpus: seq<Cpu>, mapped: set<int>): Watched
    requires ConfigOk(cfg) && |cpus| == cfg.vcpus
  {
    Watched(Boot(cfg, cpus, mapped), seq(cfg.vcpus, _ => BLANK))
  }

  // ---- The invariant ----

  ghost predicate MemberOk(cfg: Config, x: Watched, k: nat)
    requires Tracked(cfg, x) && k < cfg.vcpus
  {
    ThreadOk(SlotOf(cfg, k), x.sys.threads[k].w, x.sys.threads[k].cpu, x.sys.mem, x.sys.mapped, x.notes[k])
  }

  ghost predicate AllOk(cfg: Config, x: Watched)
    requires Tracked(cfg, x)
  {
    forall k :: 0 <= k < cfg.vcpus ==> MemberOk(cfg, x, k)
  }

  // No worker's own 64-bit counters are about to wrap.
  predicate Unwrapped(x: Sys) {
    forall k :: 0 <= k < |x.threads| ==> x.threads[k].w.hotSweeps < TWO64 - 1 && x.threads[k].w.cycle < TWO64 - 1
  }

  // ... at any time during the run.
  predicate NeverWraps(code: seq<Word32>, cfg: Config, x: Watched, hs: seq<Happening>)
    requires Tracked(cfg, x)
  {
    Unwrapped(Watch(code, cfg, x, hs).sys) && (hs == [] || NeverWraps(code, cfg, x, hs[..|hs| - 1]))
  }

  ghost predicate BootMap(cfg: Config, mapped: set<int>) {
    && (forall a :: RAM_GPA <= a < RAM_GPA + cfg.vcpus * cfg.slot ==> PageOf(a) in mapped)
    && PageOf(DOORBELL_GPA) !in mapped
  }

  lemma BootOk(cfg: Config, cpus: seq<Cpu>, mapped: set<int>)
    requires ConfigOk(cfg) && |cpus| == cfg.vcpus && BootMap(cfg, mapped)
    ensures AllOk(cfg, BootWatched(cfg, cpus, mapped))
  {
    var x := BootWatched(cfg, cpus, mapped);
    forall k | 0 <= k < cfg.vcpus ensures MemberOk(cfg, x, k) {
      BootThreadOk(cfg, cpus[k], mapped, k);
    }
  }

  lemma BootData(s: Slot, w: Worker)
    requires SlotOk(s) && w == Worker(Running(FirstSweep), 0, 0, 0, 0, 0)
    ensures DataOk(s, w, View(s.base, None, 0), map[], BLANK)
  {
  }

  lemma BootMapOk(cfg: Config, mapped: set<int>, k: nat, w: Worker)
    requires ConfigOk(cfg) && k < cfg.vcpus && BootMap(cfg, mapped) && !ColdUnmapped(w)
    ensures MapOk(SlotOf(cfg, k), w, mapped)
  {
    HalfFacts(cfg);
    SlotFits(k, cfg.vcpus, cfg.slot);
  }

  lemma BootThreadOk(cfg: Config, cpu: Cpu, mapped: set<int>, k: nat)
    requires ConfigOk(cfg) && k < cfg.vcpus && BootMap(cfg, mapped)
    ensures var t := BootThread(cfg, cpu, k); ThreadOk(SlotOf(cfg, k), t.w, t.cpu, map[], mapped, BLANK)
  {
    var s, idle := SlotOf(cfg, k), Worker(Deadline, 0, 0, 0, 0, 0);
    SlotsOk(cfg, k);
    StartOk(s, idle, cpu, FirstSweep);
    RangeOfJob(s, idle, FirstSweep);
    var t := BootThread(cfg, cpu, k);
    BootMapOk(cfg, mapped, k, t.w);
    BootData(s, t.w);
  }

  // A worker's action changes stage 2 in its own cold half only.
  lemma ActMapped(code: seq<Word32>, munmap: bool, s: Slot, x: Effect, c: Choice, page: int)
    requires SlotOk(s) && !IsColdPage(s, page)
    ensures page in Act(code, munmap, s, x, c).mapped <==> page in x.mapped
  {
  }

  lemma OthersUnmoved(code: seq<Word32>, cfg: Config, x: Watched, j: nat, k: nat, c: Choice)
    requires Tracked(cfg, x) && AllOk(cfg, x) && j < cfg.vcpus && k < cfg.vcpus && j != k
    requires Loaded(code) && Unwrapped(x.sys)
    ensures var y := SysStep(code, cfg, x.sys, Turn(j, c)); var s := SlotOf(cfg, k);
      && (forall a :: InSlot(s, a) ==> Read(y.mem, a) == Read(x.sys.mem, a))
      && (forall a :: InSlot(s, a) ==> (PageOf(a) in y.mapped <==> PageOf(a) in x.sys.mapped))
      && PageOf(DOORBELL_GPA) !in y.mapped
  {
    var sj, sk := SlotOf(cfg, j), SlotOf(cfg, k);
    SlotsOk(cfg, j);
    SlotsApart(cfg, j, k);
    assert MemberOk(cfg, x, j);
    ActOk(code, cfg.munmap, sj, EffectOf(x.sys, j), c, x.notes[j]);
    forall a | InSlot(sk, a)
      ensures !IsColdPage(sj, PageOf(a)) && !(sj.base <= a < sj.base + 2 * sj.half)
    {
      ColdPageOf(sj, a);
    }
    forall a | InSlot(sk, a)
      ensures PageOf(a) in SysStep(code, cfg, x.sys, Turn(j, c)).mapped <==> PageOf(a) in x.sys.mapped
    {
      ActMapped(code, cfg.munmap, sj, EffectOf(x.sys, j), c, PageOf(a));
    }
  }

  function Stepped(code: seq<Word32>, cfg: Config, x: Watched, h: Happening): (y: Watched)
    requires Tracked(cfg, x)
    ensures Tracked(cfg, y)
  {
    Watched(SysStep(code, cfg, x.sys, h), NotesStep(cfg, x.sys, x.notes, h))
  }

  lemma TurnKeeps(code: seq<Word32>, cfg: Config, x: Watched, j: nat, c: Choice, k: nat)
    requires Tracked(cfg, x) && AllOk(cfg, x) && j < cfg.vcpus && k < cfg.vcpus
    requires Loaded(code) && Unwrapped(x.sys)
    ensures MemberOk(cfg, Stepped(code, cfg, x, Turn(j, c)), k)
  {
    assert MemberOk(cfg, x, k);
    SlotsOk(cfg, k);
    if j == k {
      ActOk(code, cfg.munmap, SlotOf(cfg, k), EffectOf(x.sys, k), c, x.notes[k]);
    } else {
      var y, t := SysStep(code, cfg, x.sys, Turn(j, c)), x.sys.threads[k];
      OthersUnmoved(code, cfg, x, j, k, c);
      FrameOk(SlotOf(cfg, k), t.w, t.cpu, x.sys.mem, x.sys.mapped, x.notes[k], y.mem, y.mapped);
    }
  }

  lemma StepKeeps(code: seq<Word32>, cfg: Config, x: Watched, h: Happening)
    requires Tracked(cfg, x) && AllOk(cfg, x) && Loaded(code) && Unwrapped(x.sys)
    ensures AllOk(cfg, Stepped(code, cfg, x, h))
  {
    var y := Stepped(code, cfg, x, h);
    forall k | 0 <= k < cfg.vcpus ensures MemberOk(cfg, y, k) {
      assert MemberOk(cfg, x, k);
      match h
      case Loss(page) =>
        var t := x.sys.threads[k];
        DiscardOk(SlotOf(cfg, k), t.w, t.cpu, x.sys.mem, x.sys.mapped, x.notes[k], page);
      case Turn(j, c) =>
        if j < cfg.vcpus {
          TurnKeeps(code, cfg, x, j, c, k);
        }
    }
  }

  // Every interleaving of any number of workers, instruction by instruction, with any
  // discards in between, keeps every thread's invariant.
  lemma {:induction false} RunOk(code: seq<Word32>, cfg: Config, x: Watched, hs: seq<Happening>)
    requires Tracked(cfg, x) && AllOk(cfg, x) && Loaded(code) && NeverWraps(code, cfg, x, hs)
    ensures AllOk(cfg, Watch(code, cfg, x, hs))
    decreases |hs|
  {
    if hs != [] {
      var n := |hs| - 1;
      RunOk(code, cfg, x, hs[..n]);
      StepKeeps(code, cfg, Watch(code, cfg, x, hs[..n]), hs[n]);
    }
  }
}
