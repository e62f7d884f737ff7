// What each worker of the soak can rely on about its own slot, whatever the other workers
// and the kernel do: the invariant of one thread, and its preservation.

module SoakWorker {
  import opened Words
  import opened Arm64
  import opened GuestCode
  import opened Passes
  import opened Runs
  import opened Hammer
  import opened Soak

  // ---- History ----

  // Kept beside a run, never consulted by it. `damaged` are pages whose expected word the
  // kernel has destroyed; `hits` counts the verify loads, outside the self-test, that found a
  // damaged page; `tallied` is what the worker has added to the shared mismatch counter.
  // `probe` counts the loads of damaged pages in the two verifies of the self-test, but for
  // the planted page in the first.
  datatype Note = Note(damaged: set<int>, hits: nat, tallied: nat, probe: nat)

  predicate SweepingHot(w: Worker) {
    w.stage == Running(FirstSweep) || w.stage == Running(HotSweep)
  }

  // The worker holds the victim's word; what is in memory will be overwritten.
  predicate Planted(w: Worker) {
    w.stage == Corrupting || w.stage == Running(ProbePlanted) || w.stage == Restoring
  }

  predicate Probing(w: Worker) {
    Planted(w) || w.stage == Running(ProbeClean) || w.stage == Planting
  }

  // In the second half of a cycle, from the cold sweep on.
  predicate InColdPhase(w: Worker) {
    match w.stage
    case Running(job) => job == ColdSweep || job == ColdFill || job.ColdVerify?
    case CountSweep(cold) => cold
    case AddChecks(job) => job.ColdVerify?
    case AddMismatches(job) => job.ColdVerify?
    case Unmapping => true
    case Releasing => true
    case Remapping => true
    case CountReclaim => true
    case _ => false
  }

  // The cursor of the pass in flight, if any.
  function ViewIn(s: Slot, w: Worker, cpu: Cpu): View
    requires SlotOk(s)
  {
    if w.stage.Running? then ViewOf(PassFor(s, w, w.stage.job), cpu) else View(0, None, 0)
  }

  // Increments of the hot page at a so far.
  function HotDone(w: Worker, v: View, a: int): int {
    w.hotSweeps + if SweepingHot(w) && a < v.cursor then 1 else 0
  }

  // The current cycle's stamp has been stored at the cold page a and is still to be verified.
  predicate Filled(w: Worker, v: View, a: int) {
    match w.stage
    case Running(ColdFill) => a < v.cursor
    case Running(ColdVerify(_)) => true
    case AddChecks(ColdVerify(_)) => true
    case AddMismatches(ColdVerify(_)) => true
    case _ => false
  }

  // The note after one visible guest action at the cursor.
  function NoteAccess(s: Slot, job: Job, v: View, note: Note): Note {
    var hit := v.cursor in note.damaged;
    match job
    case HotVerify => note.(hits := note.hits + if hit then 1 else 0)
    case ColdVerify(_) => note.(hits := note.hits + if hit then 1 else 0)
    case ProbePlanted => note.(probe := note.probe + if hit && v.cursor != Victim(s) then 1 else 0)
    case ProbeClean => note.(probe := note.probe + if hit then 1 else 0)
    case ColdFill => note.(damaged := note.damaged - {v.cursor})
    case _ => note
  }

  // The note after one action of the worker.
  function NoteAct(s: Slot, w: Worker, cpu: Cpu, note: Note): Note
    requires SlotOk(s)
  {
    match w.stage
    case Running(job) =>
      var p := PassFor(s, w, job);
      if !AtBell(p.kind, cpu) && Acts(p, cpu) then NoteAccess(s, job, ViewOf(p, cpu), note) else note
    case AddMismatches(_) => note.(tallied := note.tallied + w.bad)
    case _ => note
  }

  // Does discarding the page at a destroy a word the worker will still look for? Not while
  // an increment of it is between its load and its store, and not before it was written.
  predicate Harmful(s: Slot, w: Worker, v: View, a: int) {
    if InHot(s, a) then
      && !(SweepingHot(w) && v.held.Some? && v.cursor == a)
      && !(Planted(w) && a == Victim(s))
      && HotDone(w, v, a) >= 1
    else InCold(s, a) && Filled(w, v, a)
  }

  function NoteDiscard(s: Slot, w: Worker, cpu: Cpu, note: Note, page: int): Note
    requires SlotOk(s)
  {
    if Harmful(s, w, ViewIn(s, w, cpu), page * PAGE) then note.(damaged := note.damaged + {page * PAGE})
    else note
  }

  // ---- The invariant of one thread ----

  ghost predicate HotOk(s: Slot, w: Worker, v: View, mem: Memory, note: Note) {
    && (forall a :: InHot(s, a) && !(Planted(w) && a == Victim(s)) ==>
          var word := if SweepingHot(w) then Carried(v, mem, a) else Read(mem, a);
          if a in note.damaged then word < HotDone(w, v, a) else word == HotDone(w, v, a))
    && (Planted(w) && w.stage != Corrupting ==> Read(mem, Victim(s)) != w.hotSweeps)
    && (Planted(w) ==> if Victim(s) in note.damaged then w.saved < w.hotSweeps else w.saved == w.hotSweeps)
  }

  ghost predicate ColdOk(s: Slot, w: Worker, v: View, mem: Memory, note: Note) {
    forall a :: InCold(s, a) && Filled(w, v, a) ==>
      Read(mem, a) == if a in note.damaged then 0 else Stamp(s.k, w.cycle)
  }

  // Mismatches seen by the guest but not yet added to the shared counter.
  function Pending(w: Worker, v: View): int {
    match w.stage
    case Running(HotVerify) => v.bad
    case Running(ColdVerify(_)) => v.bad
    case AddChecks(_) => w.bad
    case AddMismatches(_) => w.bad
    case _ => 0
  }

  predicate CountsOk(s: Slot, w: Worker, v: View, note: Note) {
    && note.hits == note.tallied + Pending(w, v)
    && (match w.stage
        case Running(ProbePlanted) => v.bad == note.probe + if Victim(s) < v.cursor then 1 else 0
        case Restoring => w.bad == note.probe + 1
        case Running(ProbeClean) => v.bad == note.probe
        case AddChecks(_) => PAGE * w.bad <= s.half
        case AddMismatches(_) => PAGE * w.bad <= s.half
        case _ => true)
    && (match w.stage
        case Running(ProbePlanted) => true
        case Restoring => true
        case Running(ProbeClean) => true
        case Panicked => note.probe > 0
        case _ => note.probe == 0)
  }

  predicate ShapeOk(s: Slot, w: Worker) {
    var starting := w.stage == Running(FirstSweep) || Probing(w);
    && (w.stage == Running(FirstSweep) <==> w.hotSweeps == 0)
    && (starting || w.stage == Panicked ==> w.cycle == 0)
    && (Probing(w) ==> s.k == 0 && w.hotSweeps == 1)
    && w.iter < HOT_SWEEPS_PER_CYCLE
    && (InColdPhase(w) ==> w.cycle >= 1)
    && (InColdPhase(w) || starting || w.stage == Deadline || w.stage == Finished || w.stage == Panicked ==>
          w.iter == 0)
    && (w.stage.AddChecks? || w.stage.AddMismatches? ==> w.stage.job == HotVerify || w.stage.job.ColdVerify?)
  }

  // The cold half has no stage-2 mapping between the unmap and the remap of its owner.
  predicate ColdUnmapped(w: Worker) {
    w.stage == Releasing || w.stage == Remapping
  }

  ghost predicate MapOk(s: Slot, w: Worker, mapped: set<int>) {
    && (forall a :: InHot(s, a) ==> PageOf(a) in mapped)
    && (forall a :: InCold(s, a) ==> (PageOf(a) in mapped <==> !ColdUnmapped(w)))
    && PageOf(DOORBELL_GPA) !in mapped
  }

  predicate CtlOk(s: Slot, w: Worker, cpu: Cpu)
    requires SlotOk(s)
  {
    w.stage.Running? ==> var p := PassFor(s, w, w.stage.job); Ctl(p, p.hi, cpu)
  }

  ghost predicate DataOk(s: Slot, w: Worker, v: View, mem: Memory, note: Note) {
    && ShapeOk(s, w) && CountsOk(s, w, v, note)
    && (w.stage != Panicked ==> HotOk(s, w, v, mem, note) && ColdOk(s, w, v, mem, note))
  }

  ghost predicate ThreadOk(s: Slot, w: Worker, cpu: Cpu, mem: Memory, mapped: set<int>, note: Note) {
    && SlotOk(s) && CtlOk(s, w, cpu) && MapOk(s, w, mapped)
    && DataOk(s, w, ViewIn(s, w, cpu), mem, note)
  }

  // ---- Guest actions ----

  // The visible action of a hot sweep.
  lemma HotSweepAction(s: Slot, w: Worker, v: View, mem: Memory, note: Note)
    requires SlotOk(s) && SweepingHot(w) && w.hotSweeps < TWO64 - 1
    requires DataOk(s, w, v, mem, note) && InHot(s, v.cursor)
    ensures var p := PassFor(s, w, w.stage.job);
      DataOk(s, w, Next(p, v, mem).0, Next(p, v, mem).1, NoteAccess(s, w.stage.job, v, note))
  {
    hide Step;
    hide XorWord;
    hide Stamp;
    var p := PassFor(s, w, w.stage.job);
    var (v', mem') := Next(p, v, mem);
    forall a | InHot(s, a)
      ensures var word := Carried(v', mem', a);
        if a in note.damaged then word < HotDone(w, v', a) else word == HotDone(w, v', a)
    {
      NextGrid(s.base, v.cursor, a);
    }
  }

  lemma HotVerifyAction(s: Slot, w: Worker, v: View, mem: Memory, note: Note)
    requires SlotOk(s) && w.stage in {Running(ProbePlanted), Running(ProbeClean), Running(HotVerify)}
    requires DataOk(s, w, v, mem, note) && InHot(s, v.cursor)
    ensures var p := PassFor(s, w, w.stage.job);
      DataOk(s, w, Next(p, v, mem).0, Next(p, v, mem).1, NoteAccess(s, w.stage.job, v, note))
  {
    assert Aligned(Victim(s));
    NextGrid(s.base, v.cursor, Victim(s));
  }

  lemma ColdSweepAction(s: Slot, w: Worker, v: View, mem: Memory, note: Note)
    requires SlotOk(s) && w.stage == Running(ColdSweep)
    requires DataOk(s, w, v, mem, note) && InCold(s, v.cursor)
    ensures var p := PassFor(s, w, ColdSweep);
      DataOk(s, w, Next(p, v, mem).0, Next(p, v, mem).1, NoteAccess(s, ColdSweep, v, note))
  {
  }

  lemma ColdFillAction(s: Slot, w: Worker, v: View, mem: Memory, note: Note)
    requires SlotOk(s) && w.stage == Running(ColdFill)
    requires DataOk(s, w, v, mem, note) && InCold(s, v.cursor)
    ensures var p := PassFor(s, w, ColdFill);
      DataOk(s, w, Next(p, v, mem).0, Next(p, v, mem).1, NoteAccess(s, ColdFill, v, note))
  {
    hide Step;
    hide XorWord;
    hide Stamp;
    forall a | InCold(s, a) ensures a < v.cursor + PAGE <==> a <= v.cursor {
      NextGrid(s.base, v.cursor, a);
    }
  }

  lemma ColdVerifyAction(s: Slot, w: Worker, v: View, mem: Memory, note: Note)
    requires SlotOk(s) && w.stage.Running? && w.stage.job.ColdVerify?
    requires DataOk(s, w, v, mem, note) && InCold(s, v.cursor)
    ensures var p := PassFor(s, w, w.stage.job);
      DataOk(s, w, Next(p, v, mem).0, Next(p, v, mem).1, NoteAccess(s, w.stage.job, v, note))
  {
  }

  predicate ColdJob(job: Job) {
    job == ColdSweep || job == ColdFill || job.ColdVerify?
  }

  lemma RangeOfJob(s: Slot, w: Worker, job: Job)
    requires SlotOk(s)
    ensures var p := PassFor(s, w, job);
      && EndsAt(p, p.hi)
      && (if ColdJob(job) then p.lo == s.base + s.half && p.hi == s.base + 2 * s.half
          else p.lo == s.base && p.hi == s.base + s.half)
  {
    AlignedSum(s.base, s.half);
    AlignedSum(s.base + s.half, s.half);
  }

  lemma GrantedToJob(s: Slot, w: Worker, job: Job, mapped: set<int>)
    requires SlotOk(s) && MapOk(s, w, mapped) && !ColdUnmapped(w)
    ensures Granted(PassFor(s, w, job), PassFor(s, w, job).hi, mapped)
  {
    RangeOfJob(s, w, job);
    var p := PassFor(s, w, job);
    forall a | OnGrid(p.lo, p.hi, a) ensures PageOf(a) in mapped {
      assert if ColdJob(job) then InCold(s, a) else InHot(s, a);
    }
  }

  lemma ActionOk(s: Slot, w: Worker, v: View, mem: Memory, note: Note)
    requires SlotOk(s) && w.stage.Running? && w.hotSweeps < TWO64 - 1
    requires DataOk(s, w, v, mem, note)
    requires var p := PassFor(s, w, w.stage.job); OnGrid(p.lo, p.hi, v.cursor)
    ensures var p := PassFor(s, w, w.stage.job);
      DataOk(s, w, Next(p, v, mem).0, Next(p, v, mem).1, NoteAccess(s, w.stage.job, v, note))
  {
    RangeOfJob(s, w, w.stage.job);
    match w.stage.job
    case FirstSweep => HotSweepAction(s, w, v, mem, note);
    case HotSweep => HotSweepAction(s, w, v, mem, note);
    case ProbePlanted => HotVerifyAction(s, w, v, mem, note);
    case ProbeClean => HotVerifyAction(s, w, v, mem, note);
    case HotVerify => HotVerifyAction(s, w, v, mem, note);
    case ColdSweep => ColdSweepAction(s, w, v, mem, note);
    case ColdFill => ColdFillAction(s, w, v, mem, note);
    case ColdVerify(_) => ColdVerifyAction(s, w, v, mem, note);
  }

  // Memory outside a slot is the same.
  ghost predicate SameElsewhere(s: Slot, mem: Memory, mem': Memory) {
    forall a :: !(s.base <= a < s.base + 2 * s.half) ==> Read(mem', a) == Read(mem, a)
  }

  // One instruction of a worker's vCPU: at the doorbell it stops; anywhere else it retires,
  // touches nothing outside the worker's slot, and the thread's invariant carries over.
  lemma GuestInstruction(code: seq<Word32>, s: Slot, x: Effect, note: Note)
    requires Loaded(code) && ThreadOk(s, x.w, x.cpu, x.mem, x.mapped, note)
    requires x.w.stage.Running? && x.w.hotSweeps < TWO64 - 1
    ensures var o := Step(Env(code, x.mapped), x.cpu, x.mem);
      var p := PassFor(s, x.w, x.w.stage.job);
      if AtBell(p.kind, x.cpu) then o == DataAbort(DOORBELL_GPA)
      else
        && o.Retired? && SameElsewhere(s, x.mem, o.mem)
        && ThreadOk(s, x.w, o.cpu, o.mem, x.mapped, NoteAct(s, x.w, x.cpu, note))
  {
    hide DataOk;
    hide Step;
    var w := x.w;
    var job := w.stage.job;
    var p, v := PassFor(s, w, job), ViewOf(PassFor(s, w, job), x.cpu);
    RangeOfJob(s, w, job);
    GrantedToJob(s, w, job, x.mapped);
    StepRefines(Env(code, x.mapped), p, p.hi, x.cpu, x.mem);
    CursorInRange(p, p.hi, x.cpu);
    if !AtBell(p.kind, x.cpu) && Acts(p, x.cpu) {
      ActionOk(s, w, v, x.mem, note);
    }
  }

  // ---- The end of a pass ----

  lemma StartOk(s: Slot, w: Worker, cpu: Cpu, job: Job)
    requires SlotOk(s)
    ensures var (cpu', w') := Start(s, w, cpu, job); var p := PassFor(s, w, job);
      && w' == w.(stage := Running(job)) && PassFor(s, w', job) == p
      && CtlOk(s, w', cpu') && ViewIn(s, w', cpu') == View(p.lo, None, 0)
  {
    RangeOfJob(s, w, job);
    ArmStarts(PassFor(s, w, job), PassFor(s, w, job).hi, cpu);
  }

  // At the doorbell the cursor has reached the end of the range and x4 holds its verdict.
  lemma AtEnd(s: Slot, w: Worker, cpu: Cpu)
    requires SlotOk(s) && w.stage.Running? && CtlOk(s, w, cpu)
    requires AtBell(PassFor(s, w, w.stage.job).kind, cpu)
    ensures var p := PassFor(s, w, w.stage.job); var v := ViewOf(p, cpu);
      && v.cursor == p.hi && v.held == None
      && (p.kind == Verify ==> v.bad == cpu.x[4] && PAGE * v.bad <= s.half)
  {
    RangeOfJob(s, w, w.stage.job);
    CursorInRange(PassFor(s, w, w.stage.job), PassFor(s, w, w.stage.job).hi, cpu);
  }

  ghost predicate FinishGood(s: Slot, w: Worker, cpu: Cpu, mem: Memory, mapped: set<int>, note: Note)
    requires SlotOk(s) && w.stage.Running?
  {
    var (cpu', w') := Finish(s, w, cpu, w.stage.job);
    CtlOk(s, w', cpu') && MapOk(s, w', mapped) && DataOk(s, w', ViewIn(s, w', cpu'), mem, note)
  }

  lemma FinishFirstSweep(s: Slot, w: Worker, cpu: Cpu, mem: Memory, mapped: set<int>, note: Note)
    requires ThreadOk(s, w, cpu, mem, mapped, note) && w.stage == Running(FirstSweep) && AtBell(Sweep, cpu)
    ensures FinishGood(s, w, cpu, mem, mapped, note)
  {
    hide Step;
    hide XorWord;
    hide Stamp;
    AtEnd(s, w, cpu);
    RangeOfJob(s, w, FirstSweep);
  }

  lemma FinishHotSweep(s: Slot, w: Worker, cpu: Cpu, mem: Memory, mapped: set<int>, note: Note)
    requires ThreadOk(s, w, cpu, mem, mapped, note) && w.stage == Running(HotSweep) && w.hotSweeps < TWO64 - 1
    requires AtBell(Sweep, cpu)
    ensures FinishGood(s, w, cpu, mem, mapped, note)
  {
    hide Step;
    hide XorWord;
    hide Stamp;
    AtEnd(s, w, cpu);
    RangeOfJob(s, w, HotSweep);
  }

  lemma FinishProbe(s: Slot, w: Worker, cpu: Cpu, mem: Memory, mapped: set<int>, note: Note)
    requires ThreadOk(s, w, cpu, mem, mapped, note) && AtBell(Verify, cpu)
    requires w.stage == Running(ProbePlanted) || w.stage == Running(ProbeClean)
    ensures FinishGood(s, w, cpu, mem, mapped, note)
  {
    hide Step;
    hide XorWord;
    hide Stamp;
    AtEnd(s, w, cpu);
    RangeOfJob(s, w, w.stage.job);
  }

  lemma FinishHotVerify(s: Slot, w: Worker, cpu: Cpu, mem: Memory, mapped: set<int>, note: Note)
    requires ThreadOk(s, w, cpu, mem, mapped, note) && AtBell(Verify, cpu) && w.stage == Running(HotVerify)
    ensures FinishGood(s, w, cpu, mem, mapped, note)
  {
    hide Step;
    hide XorWord;
    hide Stamp;
    AtEnd(s, w, cpu);
    RangeOfJob(s, w, HotVerify);
  }

  lemma FinishColdSweep(s: Slot, w: Worker, cpu: Cpu, mem: Memory, mapped: set<int>, note: Note)
    requires ThreadOk(s, w, cpu, mem, mapped, note) && w.stage == Running(ColdSweep) && AtBell(Sweep, cpu)
    ensures FinishGood(s, w, cpu, mem, mapped, note)
  {
    hide Step;
    hide XorWord;
    hide Stamp;
    AtEnd(s, w, cpu);
    RangeOfJob(s, w, ColdSweep);
  }

  lemma FinishColdFill(s: Slot, w: Worker, cpu: Cpu, mem: Memory, mapped: set<int>, note: Note)
    requires ThreadOk(s, w, cpu, mem, mapped, note) && w.stage == Running(ColdFill) && AtBell(Fill, cpu)
    ensures FinishGood(s, w, cpu, mem, mapped, note)
  {
    hide Step;
    hide XorWord;
    hide Stamp;
    AtEnd(s, w, cpu);
    RangeOfJob(s, w, ColdFill);
    StartOk(s, w, cpu, ColdVerify(false));
  }

  lemma FinishColdVerify(s: Slot, w: Worker, cpu: Cpu, mem: Memory, mapped: set<int>, note: Note)
    requires ThreadOk(s, w, cpu, mem, mapped, note)
    requires w.stage.Running? && w.stage.job.ColdVerify? && AtBell(Verify, cpu)
    ensures FinishGood(s, w, cpu, mem, mapped, note)
  {
    hide Step;
    hide XorWord;
    hide Stamp;
    AtEnd(s, w, cpu);
    RangeOfJob(s, w, w.stage.job);
  }

  lemma FinishOk(s: Slot, w: Worker, cpu: Cpu, mem: Memory, mapped: set<int>, note: Note)
    requires ThreadOk(s, w, cpu, mem, mapped, note) && w.stage.Running? && w.hotSweeps < TWO64 - 1
    requires AtBell(PassFor(s, w, w.stage.job).kind, cpu)
    ensures FinishGood(s, w, cpu, mem, mapped, note)
  {
    hide FinishGood;
    hide ThreadOk;
    match w.stage.job
    case FirstSweep => FinishFirstSweep(s, w, cpu, mem, mapped, note);
    case HotSweep => FinishHotSweep(s, w, cpu, mem, mapped, note);
    case ProbePlanted => FinishProbe(s, w, cpu, mem, mapped, note);
    case ProbeClean => FinishProbe(s, w, cpu, mem, mapped, note);
    case HotVerify => FinishHotVerify(s, w, cpu, mem, mapped, note);
    case ColdSweep => FinishColdSweep(s, w, cpu, mem, mapped, note);
    case ColdFill => FinishColdFill(s, w, cpu, mem, mapped, note);
    case ColdVerify(_) => FinishColdVerify(s, w, cpu, mem, mapped, note);
  }

  // ---- Host steps ----

  // The invariant after one action of the worker, and that the action keeps to its slot.
  ghost predicate ActGood(code: seq<Word32>, munmap: bool, s: Slot, x: Effect, c: Choice, note: Note)
    requires SlotOk(s)
  {
    var y := Act(code, munmap, s, x, c);
    && SameElsewhere(s, x.mem, y.mem)
    && CtlOk(s, y.w, y.cpu) && MapOk(s, y.w, y.mapped)
    && DataOk(s, y.w, ViewIn(s, y.w, y.cpu), y.mem, NoteAct(s, x.w, x.cpu, note))
  }

  ghost predicate Before(s: Slot, x: Effect, note: Note) {
    ThreadOk(s, x.w, x.cpu, x.mem, x.mapped, note) && x.w.hotSweeps < TWO64 - 1 && x.w.cycle < TWO64 - 1
  }

  lemma PlantedHot(s: Slot, w: Worker, v: View, mem: Memory, note: Note)
    requires SlotOk(s) && w.stage == Corrupting && w.hotSweeps == 1 && HotOk(s, w, v, mem, note)
    ensures HotOk(s, w.(stage := Running(ProbePlanted)), View(s.base, None, 0),
                  Write(mem, Victim(s), XorWord(w.saved, 0xDEAD_BEEF)), note)
  {
    hide Step;
    hide XorWord;
    hide Stamp;
    AlignedSum(s.base, PAGE);
    assert InHot(s, Victim(s)) && HotDone(w, v, Victim(s)) == 1;
  }

  lemma PlantedData(s: Slot, w: Worker, v: View, mem: Memory, note: Note)
    requires SlotOk(s) && w.stage == Corrupting && DataOk(s, w, v, mem, note)
    ensures DataOk(s, w.(stage := Running(ProbePlanted)), View(s.base, None, 0),
                   Write(mem, Victim(s), XorWord(w.saved, 0xDEAD_BEEF)), note)
  {
    PlantedHot(s, w, v, mem, note);
  }

  lemma PlantingOk(code: seq<Word32>, munmap: bool, s: Slot, x: Effect, c: Choice, note: Note)
    requires Before(s, x, note) && x.w.stage == Planting
    ensures ActGood(code, munmap, s, x, c, note)
  {
    hide Step;
    hide XorWord;
    hide Stamp;
    hide Ctl;
    AlignedSum(s.base, PAGE);
    assert InHot(s, Victim(s));
  }

  lemma CorruptingOk(code: seq<Word32>, munmap: bool, s: Slot, x: Effect, c: Choice, note: Note)
    requires Before(s, x, note) && x.w.stage == Corrupting
    ensures ActGood(code, munmap, s, x, c, note)
  {
    hide Step;
    hide XorWord;
    hide Stamp;
    hide Ctl;
    StartOk(s, x.w, x.cpu, ProbePlanted);
    RangeOfJob(s, x.w, ProbePlanted);
    PlantedData(s, x.w, ViewIn(s, x.w, x.cpu), x.mem, note);
  }

  lemma RestoringOk(code: seq<Word32>, munmap: bool, s: Slot, x: Effect, c: Choice, note: Note)
    requires Before(s, x, note) && x.w.stage == Restoring
    ensures ActGood(code, munmap, s, x, c, note)
  {
    hide Step;
    hide XorWord;
    hide Stamp;
    hide Ctl;
    StartOk(s, x.w, x.cpu, ProbeClean);
    RangeOfJob(s, x.w, ProbeClean);
  }

  lemma IdleData(s: Slot, w: Worker, v: View, mem: Memory, note: Note, stage: Stage, v': View)
    requires SlotOk(s) && w.stage == Deadline && DataOk(s, w, v, mem, note)
    requires stage == Finished || (stage == Running(HotSweep) && v' == View(s.base, None, 0))
    ensures DataOk(s, w.(stage := stage), v', mem, note)
  {
  }

  lemma DeadlineOk(code: seq<Word32>, munmap: bool, s: Slot, x: Effect, c: Choice, note: Note)
    requires Before(s, x, note) && x.w.stage == Deadline
    ensures ActGood(code, munmap, s, x, c, note)
  {
    hide Step;
    hide XorWord;
    hide Stamp;
    hide Ctl;
    StartOk(s, x.w, x.cpu, HotSweep);
    RangeOfJob(s, x.w, HotSweep);
    var v := ViewIn(s, x.w, x.cpu);
    IdleData(s, x.w, v, x.mem, note, Running(HotSweep), View(s.base, None, 0));
    IdleData(s, x.w, v, x.mem, note, Finished, View(0, None, 0));
  }

  lemma CountSweepOk(code: seq<Word32>, munmap: bool, s: Slot, x: Effect, c: Choice, note: Note)
    requires Before(s, x, note) && x.w.stage == CountSweep(false)
    ensures ActGood(code, munmap, s, x, c, note)
  {
    hide Step;
    hide XorWord;
    hide Stamp;
    hide Ctl;
    StartOk(s, x.w, x.cpu, HotVerify);
    RangeOfJob(s, x.w, HotVerify);
  }

  lemma CountReclaimOk(code: seq<Word32>, munmap: bool, s: Slot, x: Effect, c: Choice, note: Note)
    requires Before(s, x, note) && x.w.stage == CountReclaim
    ensures ActGood(code, munmap, s, x, c, note)
  {
    hide Step;
    hide XorWord;
    hide Stamp;
    hide Ctl;
    StartOk(s, x.w, x.cpu, ColdFill);
    RangeOfJob(s, x.w, ColdFill);
  }

  lemma AddChecksOk(code: seq<Word32>, munmap: bool, s: Slot, x: Effect, c: Choice, note: Note)
    requires Before(s, x, note) && x.w.stage.AddChecks?
    ensures ActGood(code, munmap, s, x, c, note)
  {
    hide Step;
    hide XorWord;
    hide Stamp;
  }

  lemma AddHotOk(code: seq<Word32>, munmap: bool, s: Slot, x: Effect, c: Choice, note: Note)
    requires Before(s, x, note) && x.w.stage == AddMismatches(HotVerify) && x.w.iter + 1 < HOT_SWEEPS_PER_CYCLE
    ensures ActGood(code, munmap, s, x, c, note)
  {
    hide Step;
    hide XorWord;
    hide Stamp;
    hide Ctl;
    StartOk(s, x.w.(iter := x.w.iter + 1), x.cpu, HotSweep);
    RangeOfJob(s, x.w, HotSweep);
  }

  lemma AddLastHotOk(code: seq<Word32>, munmap: bool, s: Slot, x: Effect, c: Choice, note: Note)
    requires Before(s, x, note) && x.w.stage == AddMismatches(HotVerify) && x.w.iter + 1 >= HOT_SWEEPS_PER_CYCLE
    ensures ActGood(code, munmap, s, x, c, note)
  {
    hide Step;
    hide XorWord;
    hide Stamp;
    hide Ctl;
    StartOk(s, x.w.(iter := 0, cycle := Wrap(x.w.cycle as int + 1)), x.cpu, ColdSweep);
    RangeOfJob(s, x.w, ColdSweep);
  }

  lemma AddColdOk(code: seq<Word32>, munmap: bool, s: Slot, x: Effect, c: Choice, note: Note)
    requires Before(s, x, note) && x.w.stage == AddMismatches(ColdVerify(false))
    ensures ActGood(code, munmap, s, x, c, note)
  {
    hide Step;
    hide XorWord;
    hide Stamp;
    hide Ctl;
    StartOk(s, x.w, x.cpu, ColdVerify(true));
    RangeOfJob(s, x.w, ColdVerify(true));
  }

  lemma AddLastColdOk(code: seq<Word32>, munmap: bool, s: Slot, x: Effect, c: Choice, note: Note)
    requires Before(s, x, note) && x.w.stage == AddMismatches(ColdVerify(true))
    ensures ActGood(code, munmap, s, x, c, note)
  {
    hide Step;
    hide XorWord;
    hide Stamp;
  }

  lemma ColdPageOf(s: Slot, a: int)
    requires SlotOk(s)
    ensures IsColdPage(s, PageOf(a)) <==> s.base + s.half <= a < s.base + 2 * s.half
    ensures InHot(s, a) ==> !IsColdPage(s, PageOf(a))
    ensures InCold(s, a) ==> IsColdPage(s, PageOf(a))
    ensures !IsColdPage(s, PageOf(DOORBELL_GPA))
  {
  }

  // unmap and remap.
  lemma MappingOk(code: seq<Word32>, munmap: bool, s: Slot, x: Effect, c: Choice, note: Note)
    requires Before(s, x, note) && (x.w.stage == Unmapping || x.w.stage == Remapping)
    ensures ActGood(code, munmap, s, x, c, note)
  {
    hide Step;
    hide XorWord;
    hide Stamp;
    forall a ensures (InHot(s, a) ==> !IsColdPage(s, PageOf(a))) && (InCold(s, a) ==> IsColdPage(s, PageOf(a))) {
      ColdPageOf(s, a);
    }
    ColdPageOf(s, 0);
  }

  // release, between them.
  lemma ReleaseOk(code: seq<Word32>, munmap: bool, s: Slot, x: Effect, c: Choice, note: Note)
    requires Before(s, x, note) && x.w.stage == Releasing
    ensures ActGood(code, munmap, s, x, c, note)
  {
    hide Step;
    hide XorWord;
    hide Stamp;
    forall a ensures (IsColdPage(s, PageOf(a)) <==> s.base + s.half <= a < s.base + 2 * s.half) &&
                     (InHot(s, a) ==> !IsColdPage(s, PageOf(a)))
    {
      ColdPageOf(s, a);
    }
  }

  lemma AtRestOk(code: seq<Word32>, munmap: bool, s: Slot, x: Effect, c: Choice, note: Note)
    requires Before(s, x, note) && x.w.stage in {CountSweep(true), Finished, Panicked}
    ensures ActGood(code, munmap, s, x, c, note)
  {
    hide Step;
    hide XorWord;
    hide Stamp;
  }

  // One action of a worker, in any stage.
  lemma ActOk(code: seq<Word32>, munmap: bool, s: Slot, x: Effect, c: Choice, note: Note)
    requires Loaded(code) && Before(s, x, note)
    ensures ActGood(code, munmap, s, x, c, note)
  {
    hide Step;
    hide HotOk;
    hide ColdOk;
    match x.w.stage
    case Running(job) =>
      GuestInstruction(code, s, x, note);
      if AtBell(PassFor(s, x.w, job).kind, x.cpu) {
        FinishOk(s, x.w, x.cpu, x.mem, x.mapped, note);
      }
    case Planting => PlantingOk(code, munmap, s, x, c, note);
    case Corrupting => CorruptingOk(code, munmap, s, x, c, note);
    case Restoring => RestoringOk(code, munmap, s, x, c, note);
    case Deadline => DeadlineOk(code, munmap, s, x, c, note);
    case CountReclaim => CountReclaimOk(code, munmap, s, x, c, note);
    case CountSweep(cold) =>
      if cold { AtRestOk(code, munmap, s, x, c, note); } else { CountSweepOk(code, munmap, s, x, c, note); }
    case AddChecks(_) => AddChecksOk(code, munmap, s, x, c, note);
    case AddMismatches(job) =>
      if job == HotVerify {
        if x.w.iter + 1 < HOT_SWEEPS_PER_CYCLE {
          AddHotOk(code, munmap, s, x, c, note);
        } else {
          AddLastHotOk(code, munmap, s, x, c, note);
        }
      } else if job == ColdVerify(false) {
        AddColdOk(code, munmap, s, x, c, note);
      } else {
        AddLastColdOk(code, munmap, s, x, c, note);
      }
    case Unmapping => MappingOk(code, munmap, s, x, c, note);
    case Releasing => ReleaseOk(code, munmap, s, x, c, note);
    case Remapping => MappingOk(code, munmap, s, x, c, note);
    case Finished => AtRestOk(code, munmap, s, x, c, note);
    case Panicked => AtRestOk(code, munmap, s, x, c, note);
  }

  // ---- The kernel and the other workers ----

  lemma DropAligned(mem: Memory, page: int)
    ensures forall a :: Aligned(a) ==> Read(DropPage(mem, page), a) == if a == page * PAGE then 0 else Read(mem, a)
  {
    forall a | Aligned(a)
      ensures Read(DropPage(mem, page), a) == if a == page * PAGE then 0 else Read(mem, a)
    {
      DropOther(mem, page, a);
      assert PageOf(a) == page <==> a == page * PAGE;
    }
  }

  lemma HotDiscard(s: Slot, w: Worker, v: View, mem: Memory, mem': Memory, note: Note, d: int)
    requires SlotOk(s) && ShapeOk(s, w) && HotOk(s, w, v, mem, note)
    requires forall a :: Aligned(a) ==> Read(mem', a) == if a == d then 0 else Read(mem, a)
    ensures var note' := if Harmful(s, w, v, d) then note.(damaged := note.damaged + {d}) else note;
      HotOk(s, w, v, mem', note')
  {
    assert Aligned(Victim(s));
  }

  lemma ColdDiscard(s: Slot, w: Worker, v: View, mem: Memory, mem': Memory, note: Note, d: int)
    requires SlotOk(s) && ColdOk(s, w, v, mem, note)
    requires forall a :: Aligned(a) ==> Read(mem', a) == if a == d then 0 else Read(mem, a)
    ensures var note' := if Harmful(s, w, v, d) then note.(damaged := note.damaged + {d}) else note;
      ColdOk(s, w, v, mem', note')
  {
    forall a | InCold(s, a) ensures !InHot(s, a) {}
  }

  // A discard anywhere leaves the thread's invariant in force, with the loss on record.
  lemma DiscardOk(s: Slot, w: Worker, cpu: Cpu, mem: Memory, mapped: set<int>, note: Note, page: int)
    requires ThreadOk(s, w, cpu, mem, mapped, note)
    ensures ThreadOk(s, w, cpu, DropPage(mem, page), mapped, NoteDiscard(s, w, cpu, note, page))
  {
    var v := ViewIn(s, w, cpu);
    DropAligned(mem, page);
    if w.stage != Panicked {
      HotDiscard(s, w, v, mem, DropPage(mem, page), note, page * PAGE);
      ColdDiscard(s, w, v, mem, DropPage(mem, page), note, page * PAGE);
    }
  }

  // The invariant of a thread is about its own slot only.
  lemma FrameOk(s: Slot, w: Worker, cpu: Cpu, mem: Memory, mapped: set<int>, note: Note,
                mem': Memory, mapped': set<int>)
    requires ThreadOk(s, w, cpu, mem, mapped, note)
    requires forall a :: InSlot(s, a) ==> Read(mem', a) == Read(mem, a)
    requires forall a :: InSlot(s, a) ==> (PageOf(a) in mapped' <==> PageOf(a) in mapped)
    requires PageOf(DOORBELL_GPA) !in mapped'
    ensures ThreadOk(s, w, cpu, mem', mapped', note)
  {
    forall a | InHot(s, a) || InCold(s, a) ensures InSlot(s, a) {}
    assert InSlot(s, Victim(s)) && InHot(s, Victim(s));
    FrameData(s, w, ViewIn(s, w, cpu), mem, note, mem');
  }

  lemma FrameData(s: Slot, w: Worker, v: View, mem: Memory, note: Note, mem': Memory)
    requires SlotOk(s) && DataOk(s, w, v, mem, note)
    requires forall a :: InSlot(s, a) ==> Read(mem', a) == Read(mem, a)
    ensures DataOk(s, w, v, mem', note)
  {
    forall a | InHot(s, a) || InCold(s, a) ensures InSlot(s, a) {}
    assert InSlot(s, Victim(s)) && InHot(s, Victim(s));
  }
}
