// The soak: one worker thread per vCPU over disjoint slots of guest RAM, each alternating
// between its hot half and a reclaimed cold half, under every interleaving of their
// instructions and host calls with kernel discards.

module Soak {
  import opened Words
  import opened Arm64
  import opened GuestCode
  import opened Passes
  import opened Runs

  // ---- Geometry ----

  // `slot` is ram_size / vcpus.
  datatype Config = Config(vcpus: nat, slot: int, munmap: bool)

  // Half a slot, rounded down to whole pages.
  function Half(cfg: Config): int {
    PageOf(cfg.slot / 2) * PAGE
  }

  // One worker's share: the hot half is [base, base + half), the cold half follows it.
  datatype Slot = Slot(k: nat, base: int, half: int)

  function SlotOf(cfg: Config, k: nat): Slot {
    Slot(k, RAM_GPA + k * cfg.slot, Half(cfg))
  }

  predicate SlotOk(s: Slot) {
    && Aligned(s.base) && Aligned(s.half)
    && RAM_GPA <= s.base && 2 * PAGE <= s.half && s.base + 2 * s.half < TWO64
  }

  predicate InHot(s: Slot, a: int) {
    OnGrid(s.base, s.base + s.half, a)
  }

  predicate InCold(s: Slot, a: int) {
    OnGrid(s.base + s.half, s.base + 2 * s.half, a)
  }

  predicate InSlot(s: Slot, a: int) {
    OnGrid(s.base, s.base + 2 * s.half, a)
  }

  // The page the self-test corrupts: not the first, to catch off-by-one starts.
  function Victim(s: Slot): int {
    s.base + PAGE
  }

  // The cold stamp, `(k as u64) << 32 | cycle`.
  function Stamp(k: nat, cycle: Word): Word {
    OrWord(Wrap(k * TWO32), cycle)
  }

  // ---- A worker thread ----

  // The guest passes of a worker.
  datatype Job =
    | FirstSweep
    | ProbePlanted | ProbeClean
    | HotSweep | HotVerify
    | ColdSweep | ColdFill | ColdVerify(again: bool)

  datatype Stage =
    | Running(job: Job)        // inside run_pass
    | Planting                 // the host is to load the victim
    | Corrupting               // ... to store it, corrupted
    | Restoring                // ... to put it back after the first verify
    | Deadline                 // top of the while loop
    | CountSweep(cold: bool)
    | AddChecks(job: Job)
    | AddMismatches(job: Job)
    | Unmapping | Releasing | Remapping | CountReclaim
    | Finished
    | Panicked

  datatype Worker = Worker(stage: Stage, hotSweeps: Word, cycle: Word, iter: nat, bad: Word, saved: Word)

  const HOT_SWEEPS_PER_CYCLE: nat := 4

  // The atomic counters shared by all workers.
  datatype Stats = Stats(sweeps: Word, checks: Word, mismatches: Word, reclaims: Word)

  function PassFor(s: Slot, w: Worker, job: Job): Pass
    requires SlotOk(s)
  {
    var hot, mid, end := s.base, s.base + s.half, s.base + 2 * s.half;
    match job
    case FirstSweep => Pass(Sweep, hot, mid, 0)
    case HotSweep => Pass(Sweep, hot, mid, 0)
    case ProbePlanted => Pass(Verify, hot, mid, w.hotSweeps)
    case ProbeClean => Pass(Verify, hot, mid, w.hotSweeps)
    case HotVerify => Pass(Verify, hot, mid, w.hotSweeps)
    case ColdSweep => Pass(Sweep, mid, end, 0)
    case ColdFill => Pass(Fill, mid, end, Stamp(s.k, w.cycle))
    case ColdVerify(_) => Pass(Verify, mid, end, Stamp(s.k, w.cycle))
  }

  // What one action of a worker leaves behind.
  datatype Effect = Effect(cpu: Cpu, w: Worker, mem: Memory, mapped: set<int>, stats: Stats)

  // Nondeterminism of a host step: whether the deadline is still ahead, and which pages the
  // kernel drops when it is handed the cold half.
  datatype Choice = Choice(go: bool, dropped: set<int>)

  function Start(s: Slot, w: Worker, cpu: Cpu, job: Job): (Cpu, Worker)
    requires SlotOk(s)
  {
    (Arm(PassFor(s, w, job), cpu), w.(stage := Running(job)))
  }

  // run_pass has returned.
  function Finish(s: Slot, w: Worker, cpu: Cpu, job: Job): (Cpu, Worker)
    requires SlotOk(s)
  {
    var x4 := cpu.x[4];
    match job
    case FirstSweep =>
      (cpu, w.(hotSweeps := Wrap(w.hotSweeps as int + 1), stage := if s.k == 0 then Planting else Deadline))
    case ProbePlanted => (cpu, w.(bad := x4, stage := Restoring))
    case ProbeClean => (cpu, w.(bad := x4, stage := if x4 != 0 then Panicked else Deadline))
    case HotSweep => (cpu, w.(hotSweeps := Wrap(w.hotSweeps as int + 1), stage := CountSweep(false)))
    case HotVerify => (cpu, w.(bad := x4, stage := AddChecks(job)))
    case ColdSweep => (cpu, w.(stage := CountSweep(true)))
    case ColdFill => Start(s, w, cpu, ColdVerify(false))
    case ColdVerify(_) => (cpu, w.(bad := x4, stage := AddChecks(job)))
  }

  // The stage-2 pages of the cold half.
  predicate IsColdPage(s: Slot, page: int) {
    PageOf(s.base + s.half) <= page < PageOf(s.base + 2 * s.half)
  }

  function ColdPages(s: Slot): set<int> {
    set page | PageOf(s.base + s.half) <= page < PageOf(s.base + 2 * s.half) && IsColdPage(s, page)
  }

  // Handing the cold half to the kernel: madvise lets it drop any of the pages, munmap and
  // mmap replace them all.
  function ReleaseCold(s: Slot, mem: Memory, munmap: bool, dropped: set<int>): Memory {
    map a | a in mem && !(IsColdPage(s, PageOf(a)) && (munmap || PageOf(a) in dropped)) :: mem[a]
  }

  // After the mismatches of a verify have been added.
  function Onward(s: Slot, w: Worker, cpu: Cpu, job: Job): (Cpu, Worker)
    requires SlotOk(s)
  {
    match job
    case HotVerify =>
      if w.iter + 1 < HOT_SWEEPS_PER_CYCLE then Start(s, w.(iter := w.iter + 1), cpu, HotSweep)
      else Start(s, w.(iter := 0, cycle := Wrap(w.cycle as int + 1)), cpu, ColdSweep)
    case ColdVerify(false) => Start(s, w, cpu, ColdVerify(true))
    case _ => (cpu, w.(stage := Deadline))
  }

  // One action of worker s.k: an instruction of its vCPU, or a host step.
  function Act(code: seq<Word32>, munmap: bool, s: Slot, x: Effect, c: Choice): Effect
    requires SlotOk(s)
  {
    var w, cpu := x.w, x.cpu;
    match w.stage
    case Running(job) =>
      (match Step(Env(code, x.mapped), cpu, x.mem)
       case Retired(cpu', mem') => x.(cpu := cpu', mem := mem')
       case DataAbort(pa) =>
         if pa == DOORBELL_GPA then
           var (cpu', w') := Finish(s, w, cpu, job);
           x.(cpu := cpu', w := w')
         else x.(w := w.(stage := Panicked))
       case _ => x.(w := w.(stage := Panicked)))
    case Planting => x.(w := w.(saved := Read(x.mem, Victim(s)), stage := Corrupting))
    case Corrupting =>
      var (cpu', w') := Start(s, w, cpu, ProbePlanted);
      x.(cpu := cpu', w := w', mem := Write(x.mem, Victim(s), XorWord(w.saved, 0xDEAD_BEEF)))
    case Restoring =>
      var mem' := Write(x.mem, Victim(s), w.saved);
      if w.bad != 1 then x.(mem := mem', w := w.(stage := Panicked))
      else
        var (cpu', w') := Start(s, w, cpu, ProbeClean);
        x.(cpu := cpu', w := w', mem := mem')
    case Deadline =>
      if c.go then
        var (cpu', w') := Start(s, w, cpu, HotSweep);
        x.(cpu := cpu', w := w')
      else x.(w := w.(stage := Finished))
    case CountSweep(cold) =>
      var stats' := x.stats.(sweeps := Wrap(x.stats.sweeps as int + 1));
      if cold then x.(stats := stats', w := w.(stage := Unmapping))
      else
        var (cpu', w') := Start(s, w, cpu, HotVerify);
        x.(cpu := cpu', w := w', stats := stats')
    case AddChecks(job) =>
      x.(stats := x.stats.(checks := Wrap(x.stats.checks as int + PageOf(s.half))),
         w := w.(stage := AddMismatches(job)))
    case AddMismatches(job) =>
      var (cpu', w') := Onward(s, w, cpu, job);
      x.(cpu := cpu', w := w', stats := x.stats.(mismatches := Wrap(x.stats.mismatches as int + w.bad)))
    case Unmapping => x.(mapped := x.mapped - ColdPages(s), w := w.(stage := Releasing))
    case Releasing => x.(mem := ReleaseCold(s, x.mem, munmap, c.dropped), w := w.(stage := Remapping))
    case Remapping => x.(mapped := x.mapped + ColdPages(s), w := w.(stage := CountReclaim))
    case CountReclaim =>
      var (cpu', w') := Start(s, w, cpu, ColdFill);
      x.(cpu := cpu', w := w', stats := x.stats.(reclaims := Wrap(x.stats.reclaims as int + 1)))
    case Finished => x
    case Panicked => x
  }
}
