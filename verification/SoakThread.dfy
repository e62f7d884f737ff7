// One soak worker as the loop it is in the program: its passes on its own vCPU, the self-test,
// the reclaim of its cold half, and the shared counters. The kernel may discard pages at any
// instruction; the other workers are the business of SoakSystem.

module SoakThread {
  import opened Words
  import opened Arm64
  import opened GuestCode
  import opened Passes
  import opened Runs
  import opened Vcpu
  import opened Soak
  import opened SoakWorker
  import opened SoakSystem
  import opened SoakPlay

  // No page of the slot was discarded during t.
  ghost predicate Intact(t: seq<Event>, s: Slot) {
    forall a :: InSlot(s, a) ==> !Hit(t, a)
  }

  lemma IntactParts(t: seq<Event>, u: seq<Event>, s: Slot)
    ensures Intact(t + u, s) <==> Intact(t, s) && Intact(u, s)
  {
    forall a ensures Hit(t + u, a) <==> Hit(t, a) || Hit(u, a) {}
  }

  ghost predicate HotIs(mem: Memory, s: Slot, v: Word) {
    forall a :: InHot(s, a) ==> Read(mem, a) == v
  }

  ghost predicate ColdIs(mem: Memory, s: Slot, v: Word) {
    forall a :: InCold(s, a) ==> Read(mem, a) == v
  }

  ghost predicate SameHot(mem: Memory, mem': Memory, s: Slot) {
    forall a :: InHot(s, a) ==> Read(mem', a) == Read(mem, a)
  }

  // Stage 2 grants the whole slot, and not the doorbell.
  ghost predicate Granting(mapped: set<int>, s: Slot) {
    (forall a :: InSlot(s, a) ==> PageOf(a) in mapped) && PageOf(DOORBELL_GPA) !in mapped
  }

  function HotPass(s: Slot, kind: Kind, val: Word): Pass
    requires SlotOk(s)
  {
    Pass(kind, s.base, s.base + s.half, val)
  }

  function ColdPass(s: Slot, kind: Kind, val: Word): Pass
    requires SlotOk(s)
  {
    Pass(kind, s.base + s.half, s.base + 2 * s.half, val)
  }

  lemma PassesFit(s: Slot, kind: Kind, val: Word, mapped: set<int>)
    requires SlotOk(s) && Granting(mapped, s)
    ensures var p := HotPass(s, kind, val); EndOf(p) == p.hi && Valid(p) && Granted(p, EndOf(p), mapped)
    ensures var p := ColdPass(s, kind, val); EndOf(p) == p.hi && Valid(p) && Granted(p, EndOf(p), mapped)
  {
    AlignedSum(s.base, s.half);
    AlignedSum(s.base + s.half, s.half);
    CoversItsRange(HotPass(s, kind, val));
    CoversItsRange(ColdPass(s, kind, val));
    forall a | OnGrid(s.base, s.base + s.half, a) || OnGrid(s.base + s.half, s.base + 2 * s.half, a)
      ensures InSlot(s, a) {}
  }

  // What a finished pass over one half means for the slot, if nothing in it was lost.
  lemma PassOnHalf(s: Slot, p: Pass, mem0: Memory, t: seq<Event>, m: Machine)
    requires SlotOk(s) && Completed(p, mem0, t, m) && Intact(t, s)
    requires EndOf(p) == p.hi && s.base <= p.lo && p.hi <= s.base + 2 * s.half
    ensures forall a :: InSlot(s, a) ==>
              Read(m.mem, a) == if OnGrid(p.lo, p.hi, a) then NewWord(p, a, Read(mem0, a)) else Read(mem0, a)
    ensures forall a :: OnGrid(p.lo, EndOf(p), a) ==> !Hit(t, a)
  {
    forall a | OnGrid(p.lo, p.hi, a) ensures InSlot(s, a) {}
  }

  lemma HalvesApart(s: Slot, a: int)
    requires SlotOk(s)
    ensures InHot(s, a) ==> InSlot(s, a) && !InCold(s, a)
    ensures InCold(s, a) ==> InSlot(s, a) && !InHot(s, a)
  {
  }

  method SweepHot(vm: Vm, s: Slot, ghost v: Word) returns (ghost t: seq<Event>)
    requires SlotOk(s) && Loaded(vm.code) && Granting(vm.mapped, s)
    modifies vm`cpu, vm`mem
    ensures PassRan(vm.World(), HotPass(s, Sweep, 0), old(vm.cpu), old(vm.mem), t, vm.State())
    ensures Intact(t, s) && HotIs(old(vm.mem), s, v) ==> HotIs(vm.mem, s, Wrap(v as int + 1))
  {
    hide Step;
    hide EndOf;
    hide Aligned;
    ghost var mem0 := vm.mem;
    PassesFit(s, Sweep, 0, vm.mapped);
    t := vm.RunSweepRange(s.base - RAM_GPA, s.base + s.half - RAM_GPA);
    if Intact(t, s) {
      PassOnHalf(s, HotPass(s, Sweep, 0), mem0, t, vm.State());
      forall a | InHot(s, a) ensures InSlot(s, a) {}
    }
  }

  // Bad pages of the hot half, counted by the guest.
  method VerifyHot(vm: Vm, s: Slot, expected: Word) returns (bad: Word, ghost t: seq<Event>)
    requires SlotOk(s) && Loaded(vm.code) && Granting(vm.mapped, s)
    modifies vm`cpu, vm`mem
    ensures PassRan(vm.World(), HotPass(s, Verify, expected), old(vm.cpu), old(vm.mem), t, vm.State())
    ensures bad == vm.cpu.x[4]
    ensures Intact(t, s) ==> SameHot(old(vm.mem), vm.mem, s)
    ensures Intact(t, s) ==> bad == |PagesDiffering(old(vm.mem), s.base, s.base + s.half, expected)|
  {
    hide Step;
    hide EndOf;
    hide Aligned;
    ghost var mem0 := vm.mem;
    PassesFit(s, Verify, expected, vm.mapped);
    bad, t := vm.RunVerifyRange(s.base - RAM_GPA, s.base + s.half - RAM_GPA, expected);
    if Intact(t, s) {
      PassOnHalf(s, HotPass(s, Verify, expected), mem0, t, vm.State());
      forall a | InHot(s, a) ensures InSlot(s, a) {}
    }
  }

  ghost predicate ColdSwept(mem: Memory, mem': Memory, s: Slot) {
    forall a :: InCold(s, a) ==> Read(mem', a) == Wrap(Read(mem, a) as int + 1)
  }

  method SweepCold(vm: Vm, s: Slot) returns (ghost t: seq<Event>)
    requires SlotOk(s) && Loaded(vm.code) && Granting(vm.mapped, s)
    modifies vm`cpu, vm`mem
    ensures PassRan(vm.World(), ColdPass(s, Sweep, 0), old(vm.cpu), old(vm.mem), t, vm.State())
    ensures Intact(t, s) ==> SameHot(old(vm.mem), vm.mem, s) && ColdSwept(old(vm.mem), vm.mem, s)
  {
    hide Step;
    hide EndOf;
    hide Aligned;
    ghost var mem0 := vm.mem;
    PassesFit(s, Sweep, 0, vm.mapped);
    t := vm.RunSweepRange(s.base + s.half - RAM_GPA, s.base + 2 * s.half - RAM_GPA);
    if Intact(t, s) {
      PassOnHalf(s, ColdPass(s, Sweep, 0), mem0, t, vm.State());
      forall a ensures (InHot(s, a) ==> InSlot(s, a) && !InCold(s, a)) && (InCold(s, a) ==> InSlot(s, a)) {
        HalvesApart(s, a);
      }
    }
  }

  method FillCold(vm: Vm, s: Slot, stamp: Word) returns (ghost t: seq<Event>)
    requires SlotOk(s) && Loaded(vm.code) && Granting(vm.mapped, s)
    modifies vm`cpu, vm`mem
    ensures PassRan(vm.World(), ColdPass(s, Fill, stamp), old(vm.cpu), old(vm.mem), t, vm.State())
    ensures Intact(t, s) ==> SameHot(old(vm.mem), vm.mem, s) && ColdIs(vm.mem, s, stamp)
  {
    hide Step;
    hide EndOf;
    hide Aligned;
    ghost var mem0 := vm.mem;
    PassesFit(s, Fill, stamp, vm.mapped);
    t := vm.RunFillRange(s.base + s.half - RAM_GPA, s.base + 2 * s.half - RAM_GPA, stamp);
    if Intact(t, s) {
      PassOnHalf(s, ColdPass(s, Fill, stamp), mem0, t, vm.State());
      forall a ensures (InHot(s, a) ==> InSlot(s, a) && !InCold(s, a)) && (InCold(s, a) ==> InSlot(s, a)) {
        HalvesApart(s, a);
      }
    }
  }

  method VerifyCold(vm: Vm, s: Slot, stamp: Word) returns (bad: Word, ghost t: seq<Event>)
    requires SlotOk(s) && Loaded(vm.code) && Granting(vm.mapped, s)
    modifies vm`cpu, vm`mem
    ensures PassRan(vm.World(), ColdPass(s, Verify, stamp), old(vm.cpu), old(vm.mem), t, vm.State())
    ensures bad == vm.cpu.x[4]
    ensures Intact(t, s) ==> SameHot(old(vm.mem), vm.mem, s)
    ensures Intact(t, s) && ColdIs(old(vm.mem), s, stamp) ==> ColdIs(vm.mem, s, stamp) && bad == 0
  {
    hide Step;
    hide EndOf;
    hide Aligned;
    ghost var mem0 := vm.mem;
    PassesFit(s, Verify, stamp, vm.mapped);
    bad, t := vm.RunVerifyRange(s.base + s.half - RAM_GPA, s.base + 2 * s.half - RAM_GPA, stamp);
    if Intact(t, s) {
      PassOnHalf(s, ColdPass(s, Verify, stamp), mem0, t, vm.State());
      forall a ensures (InHot(s, a) ==> InSlot(s, a) && !InCold(s, a)) && (InCold(s, a) ==> InSlot(s, a)) {
        HalvesApart(s, a);
      }
      if ColdIs(mem0, s, stamp) {
        assert PagesDiffering(mem0, s.base + s.half, s.base + 2 * s.half, stamp) == {};
      }
    }
  }

  // ---- The self-test ----

  lemma PlantedOnce(mem: Memory, s: Slot, expected: Word)
    requires SlotOk(s) && HotIs(mem, s, expected)
    ensures var was := Read(mem, Victim(s));
      PagesDiffering(Write(mem, Victim(s), XorWord(was, 0xDEAD_BEEF)), s.base, s.base + s.half, expected) == {Victim(s)}
  {
    AlignedSum(s.base, PAGE);
    assert InHot(s, Victim(s));
    var corrupt := Write(mem, Victim(s), XorWord(Read(mem, Victim(s)), 0xDEAD_BEEF));
    var bad := PagesDiffering(corrupt, s.base, s.base + s.half, expected);
    forall a ensures a in bad <==> a == Victim(s) {
      assert InHot(s, a) ==> Read(mem, a) == expected;
    }
  }

  lemma NoneDiffer(mem: Memory, s: Slot, expected: Word)
    requires HotIs(mem, s, expected)
    ensures PagesDiffering(mem, s.base, s.base + s.half, expected) == {}
  {
  }

  // ---- The reclaim of the cold half ----

  lemma ColdPageInSlot(s: Slot, page: int)
    requires SlotOk(s) && IsColdPage(s, page)
    ensures InSlot(s, page * PAGE) && PageOf(page * PAGE) == page
  {
  }

  lemma ColdPagesMapped(s: Slot, mapped: set<int>)
    requires SlotOk(s) && Granting(mapped, s)
    ensures mapped - ColdPages(s) + ColdPages(s) == mapped
  {
    forall page | page in ColdPages(s) ensures page in mapped {
      ColdPageInSlot(s, page);
      hide InSlot;
      hide PageOf;
      assert PageOf(page * PAGE) in mapped;
    }
  }

  lemma ReleaseSparesHot(s: Slot, mem: Memory, munmap: bool, dropped: set<int>)
    requires SlotOk(s)
    ensures SameHot(mem, ReleaseCold(s, mem, munmap, dropped), s)
  {
    forall a | InHot(s, a) ensures !IsColdPage(s, PageOf(a)) {
      ColdPageOf(s, a);
    }
  }

  // unmap, release, remap. Under madvise the kernel drops whichever pages it likes; a cold
  // page that it keeps still holds what the guest last stored. `seen` is stage 2 after each call.
  method ReclaimCold(vm: Vm, s: Slot, munmap: bool) returns (ghost seen: seq<set<int>>, ghost given: set<int>)
    requires SlotOk(s) && Granting(vm.mapped, s)
    modifies vm`mapped, vm`mem
    ensures vm.mapped == old(vm.mapped) && SameHot(old(vm.mem), vm.mem, s)
    ensures forall a :: InCold(s, a) ==>
              Read(vm.mem, a) == if munmap || PageOf(a) in given then 0 else Read(old(vm.mem), a)
    ensures seen == [old(vm.mapped) - ColdPages(s), old(vm.mapped) - ColdPages(s), old(vm.mapped)]
    ensures vm.mem == ReleaseCold(s, old(vm.mem), munmap, given)
  {
    var dropped: set<int> := *;
    given := dropped;
    ColdPagesMapped(s, vm.mapped);
    ReleaseSparesHot(s, vm.mem, munmap, dropped);
    forall a | InCold(s, a) ensures IsColdPage(s, PageOf(a)) {
      ColdPageOf(s, a);
    }
    vm.mapped := vm.mapped - ColdPages(s);
    seen := [vm.mapped];
    vm.mem := ReleaseCold(s, vm.mem, munmap, dropped);
    seen := seen + [vm.mapped];
    vm.mapped := vm.mapped + ColdPages(s);
    seen := seen + [vm.mapped];
  }

  // ---- The worker ----

  // The shared atomics. Each holds, modulo 2^64, the total of what was ever added to it.
  class Counters {
    var sweeps: Word
    var checks: Word
    var mismatches: Word
    var reclaims: Word
    ghost var allSweeps: nat
    ghost var allChecks: nat
    ghost var allMismatches: nat
    ghost var allReclaims: nat

    ghost predicate Valid()
      reads this
    {
      && sweeps == Wrap(allSweeps) && checks == Wrap(allChecks)
      && mismatches == Wrap(allMismatches) && reclaims == Wrap(allReclaims)
    }

    ghost function Read(): Stats
      reads this
    {
      Stats(sweeps, checks, mismatches, reclaims)
    }

    method CountSweep()
      requires Valid()
      modifies this`sweeps, this`allSweeps
      ensures Valid() && allSweeps == old(allSweeps) + 1
      ensures Read() == old(Read()).(sweeps := Wrap(old(sweeps) as int + 1))
    {
      WrapAgain(allSweeps, 1);
      sweeps, allSweeps := Wrap(sweeps as int + 1), allSweeps + 1;
    }

    method CountVerify(pages: nat, bad: Word)
      requires Valid()
      modifies this`checks, this`allChecks, this`mismatches, this`allMismatches
      ensures Valid() && allChecks == old(allChecks) + pages && allMismatches == old(allMismatches) + bad
      ensures Read() == old(Read()).(checks := Wrap(old(checks) as int + pages),
                                     mismatches := Wrap(old(mismatches) as int + bad))
    {
      WrapAgain(allChecks, pages);
      WrapAgain(allMismatches, bad);
      hide Wrap;
      checks, allChecks := Wrap(checks as int + pages), allChecks + pages;
      mismatches, allMismatches := Wrap(mismatches as int + bad), allMismatches + bad;
    }

    method CountReclaim()
      requires Valid()
      modifies this`reclaims, this`allReclaims
      ensures Valid() && allReclaims == old(allReclaims) + 1
      ensures Read() == old(Read()).(reclaims := Wrap(old(reclaims) as int + 1))
    {
      WrapAgain(allReclaims, 1);
      reclaims, allReclaims := Wrap(reclaims as int + 1), allReclaims + 1;
    }
  }

  ghost predicate Ready(vm: Vm, s: Slot)
    reads vm
  {
    SlotOk(s) && Loaded(vm.code) && Granting(vm.mapped, s)
  }

  // ---- The worker as the soak's state machine sees it ----

  // The worker with control state w, between two passes.
  ghost function Here(vm: Vm, c: Counters, w: Worker): Effect
    reads vm, c
  {
    Effect(vm.cpu, w, vm.mem, vm.mapped, c.Read())
  }

  // ... and about to run the job of w.
  ghost function Set(vm: Vm, c: Counters, s: Slot, w: Worker): Effect
    requires SlotOk(s) && w.stage.Running?
    reads vm, c
  {
    Armed(s, Here(vm, c, w), w.stage.job, vm.cpu)
  }

  lemma PlantingActs(code: seq<Word32>, munmap: bool, s: Slot, x: Effect, c: Choice)
    requires SlotOk(s) && x.w.stage == Planting
    ensures Act(code, munmap, s, x, c) == x.(w := x.w.(saved := Words.Read(x.mem, Victim(s)), stage := Corrupting))
  {
    hide Step;
  }

  lemma CorruptingActs(code: seq<Word32>, munmap: bool, s: Slot, x: Effect, c: Choice)
    requires SlotOk(s) && x.w.stage == Corrupting
    ensures Act(code, munmap, s, x, c) ==
            Armed(s, x.(mem := Write(x.mem, Victim(s), XorWord(x.w.saved, 0xDEAD_BEEF))), ProbePlanted, x.cpu)
  {
    hide Step;
  }

  lemma RestoringActs(code: seq<Word32>, munmap: bool, s: Slot, x: Effect, c: Choice)
    requires SlotOk(s) && x.w.stage == Restoring
    ensures var y := x.(mem := Write(x.mem, Victim(s), x.w.saved));
      Act(code, munmap, s, x, c) ==
        if x.w.bad == 1 then Armed(s, y, ProbeClean, x.cpu) else y.(w := x.w.(stage := Panicked))
  {
    hide Step;
  }

  // Corrupt the victim and have the guest look for it.
  method Plant(vm: Vm, c: Counters, s: Slot, expected: Word, ghost munmap: bool, ghost w: Worker, ghost p: Script)
    returns (saved: Word, found: Word, ghost t: seq<Event>, ghost w': Worker, ghost p': Script)
    requires Ready(vm, s) && Follows(vm.code, munmap, s, p)
    requires w.stage == Planting && w.hotSweeps == expected && p.now == Here(vm, c, w)
    modifies vm`cpu, vm`mem
    ensures saved == Read(old(vm.mem), s.base + PAGE)
    ensures var corrupt := Write(old(vm.mem), s.base + PAGE, XorWord(saved, 0xDEAD_BEEF));
      Intact(t, s) ==>
        SameHot(corrupt, vm.mem, s) && found == |PagesDiffering(corrupt, s.base, s.base + s.half, expected)|
    ensures Follows(vm.code, munmap, s, p') && p'.start == p.start && p'.now == Here(vm, c, w')
    ensures w' == w.(saved := saved, bad := found, stage := Restoring)
  {
    hide Step;
    hide PassRan;
    hide Follows;
    hide Act;
    hide EndOf;
    hide Aligned;
    saved := Read(vm.mem, Victim(s));
    PlantingActs(vm.code, munmap, s, p.now, IDLE);
    p' := ByTurn(vm.code, munmap, s, p, IDLE);
    vm.mem := Write(vm.mem, Victim(s), XorWord(saved, 0xDEAD_BEEF));
    CorruptingActs(vm.code, munmap, s, p'.now, IDLE);
    p' := ByTurn(vm.code, munmap, s, p', IDLE);
    ghost var cpu0 := vm.cpu;
    found, t := VerifyHot(vm, s, expected);
    p' := ByPass(vm.code, munmap, s, p', cpu0, t, vm.State());
    w' := w.(saved := saved, bad := found, stage := Restoring);
  }

  // Have the guest look at clean memory.
  method Recheck(vm: Vm, c: Counters, s: Slot, expected: Word, ghost munmap: bool, ghost w: Worker, ghost p: Script)
    returns (clean: Word, ghost t: seq<Event>, ghost w': Worker, ghost p': Script)
    requires Ready(vm, s) && Follows(vm.code, munmap, s, p)
    requires w.stage == Running(ProbeClean) && w.hotSweeps == expected && p.now == Set(vm, c, s, w)
    modifies vm`cpu, vm`mem
    ensures Intact(t, s) ==>
              && SameHot(old(vm.mem), vm.mem, s)
              && clean == |PagesDiffering(old(vm.mem), s.base, s.base + s.half, expected)|
    ensures Follows(vm.code, munmap, s, p') && p'.start == p.start && p'.now == Here(vm, c, w')
    ensures w' == w.(bad := clean, stage := if clean == 0 then Deadline else Panicked)
  {
    hide Step;
    hide PassRan;
    hide Follows;
    hide Act;
    hide EndOf;
    hide Aligned;
    ghost var cpu0 := vm.cpu;
    clean, t := VerifyHot(vm, s, expected);
    p' := ByPass(vm.code, munmap, s, p, cpu0, t, vm.State());
    w' := w.(bad := clean, stage := if clean == 0 then Deadline else Panicked);
  }

  lemma PutBack(mem: Memory, mem': Memory, s: Slot, expected: Word)
    requires SlotOk(s) && HotIs(mem, s, expected)
    requires SameHot(Write(mem, Victim(s), XorWord(Read(mem, Victim(s)), 0xDEAD_BEEF)), mem', s)
    ensures HotIs(Write(mem', Victim(s), Read(mem, Victim(s))), s, expected)
  {
    AlignedSum(s.base, PAGE);
    assert InHot(s, Victim(s));
  }

  // Plant, verify, restore, verify. False stands for either failed assertion.
  method SelfTest(vm: Vm, c: Counters, s: Slot, expected: Word, ghost munmap: bool, ghost w: Worker, ghost p: Script)
    returns (ok: bool, ghost t: seq<Event>, ghost w': Worker, ghost p': Script)
    requires Ready(vm, s) && Follows(vm.code, munmap, s, p)
    requires w.stage == Planting && w.hotSweeps == expected && p.now == Here(vm, c, w)
    modifies vm`cpu, vm`mem
    ensures Intact(t, s) && HotIs(old(vm.mem), s, expected) ==> ok && HotIs(vm.mem, s, expected)
    ensures Follows(vm.code, munmap, s, p') && p'.start == p.start && p'.now == Here(vm, c, w')
    ensures w' == w.(saved := w'.saved, bad := w'.bad, stage := if ok then Deadline else Panicked)
  {
    hide XorWord;
    hide Step;
    hide PassRan;
    hide Follows;
    hide Act;
    hide EndOf;
    hide Aligned;
    var saved, found;
    saved, found, t, w', p' := Plant(vm, c, s, expected, munmap, w, p);
    if Intact(t, s) && HotIs(old(vm.mem), s, expected) {
      PlantedOnce(old(vm.mem), s, expected);
      PutBack(old(vm.mem), vm.mem, s, expected);
    }
    vm.mem := Write(vm.mem, Victim(s), saved);
    RestoringActs(vm.code, munmap, s, p'.now, IDLE);
    p' := ByTurn(vm.code, munmap, s, p', IDLE);
    if found != 1 {
      w' := w'.(stage := Panicked);
      return false, t, w', p';
    }
    if HotIs(vm.mem, s, expected) {
      NoneDiffer(vm.mem, s, expected);
    }
    ghost var u;
    var clean;
    clean, u, w', p' := Recheck(vm, c, s, expected, munmap, w'.(stage := Running(ProbeClean)), p');
    IntactParts(t, u, s);
    t := t + u;
    ok := clean == 0;
  }

  function Onwards(s: Slot, x: Effect, job: Job): Effect
    requires SlotOk(s)
  {
    var (cpu', w') := Onward(s, x.w, x.cpu, job);
    x.(cpu := cpu', w := w')
  }

  lemma DeadlineActs(code: seq<Word32>, munmap: bool, s: Slot, x: Effect, c: Choice)
    requires SlotOk(s) && x.w.stage == Deadline
    ensures Act(code, munmap, s, x, c) ==
            if c.go then Armed(s, x, HotSweep, x.cpu) else x.(w := x.w.(stage := Finished))
  {
    hide Step;
  }

  lemma CountSweepActs(code: seq<Word32>, munmap: bool, s: Slot, x: Effect, c: Choice)
    requires SlotOk(s) && x.w.stage.CountSweep?
    ensures var y := x.(stats := x.stats.(sweeps := Wrap(x.stats.sweeps as int + 1)));
      Act(code, munmap, s, x, c) ==
        if x.w.stage.cold then y.(w := x.w.(stage := Unmapping)) else Armed(s, y, HotVerify, x.cpu)
  {
    hide Step;
  }

  // The two counter updates after a verify.
  lemma AddActs(code: seq<Word32>, munmap: bool, s: Slot, x: Effect, c: Choice, d: Choice)
    requires SlotOk(s) && x.w.stage.AddChecks?
    ensures var stats := x.stats.(checks := Wrap(x.stats.checks as int + PageOf(s.half)),
                                  mismatches := Wrap(x.stats.mismatches as int + x.w.bad));
      Act(code, munmap, s, Act(code, munmap, s, x, c), d) ==
        Onwards(s, x.(w := x.w.(stage := AddMismatches(x.w.stage.job)), stats := stats), x.w.stage.job)
  {
    hide Step;
  }

  // unmap, release, remap.
  lemma ReclaimActs(code: seq<Word32>, munmap: bool, s: Slot, x: Effect, c: Choice)
    requires SlotOk(s) && x.w.stage == Unmapping
    ensures var y := Act(code, munmap, s, Act(code, munmap, s, x, IDLE), c);
      Act(code, munmap, s, y, IDLE) ==
        x.(w := x.w.(stage := CountReclaim), mem := ReleaseCold(s, x.mem, munmap, c.dropped),
           mapped := x.mapped - ColdPages(s) + ColdPages(s))
  {
    hide Step;
  }

  lemma CountReclaimActs(code: seq<Word32>, munmap: bool, s: Slot, x: Effect, c: Choice)
    requires SlotOk(s) && x.w.stage == CountReclaim
    ensures Act(code, munmap, s, x, c) ==
            Armed(s, x.(stats := x.stats.(reclaims := Wrap(x.stats.reclaims as int + 1))), ColdFill, x.cpu)
  {
    hide Step;
  }

  // Sweep the hot half and count the sweep.
  method SweepAndCount(vm: Vm, c: Counters, s: Slot, hotSweeps: Word, ghost munmap: bool,
                       ghost w: Worker, ghost p: Script)
    returns (swept: Word, ghost t: seq<Event>, ghost p': Script)
    requires Ready(vm, s) && c.Valid() && hotSweeps < TWO64 - 1 && Follows(vm.code, munmap, s, p)
    requires w.stage == Running(HotSweep) && w.hotSweeps == hotSweeps && p.now == Set(vm, c, s, w)
    modifies vm`cpu, vm`mem, c`sweeps, c`allSweeps
    ensures c.Valid() && swept as int == hotSweeps as int + 1 && c.allSweeps == old(c.allSweeps) + 1
    ensures Intact(t, s) && HotIs(old(vm.mem), s, hotSweeps) ==> HotIs(vm.mem, s, swept)
    ensures Follows(vm.code, munmap, s, p') && p'.start == p.start
    ensures p'.now == Set(vm, c, s, w.(hotSweeps := swept, stage := Running(HotVerify)))
  {
    hide Step;
    hide PassRan;
    hide Follows;
    hide Act;
    hide EndOf;
    hide Aligned;
    ghost var cpu0 := vm.cpu;
    t := SweepHot(vm, s, hotSweeps);
    p' := ByPass(vm.code, munmap, s, p, cpu0, t, vm.State());
    swept := Wrap(hotSweeps as int + 1);
    c.CountSweep();
    CountSweepActs(vm.code, munmap, s, p'.now, IDLE);
    p' := ByTurn(vm.code, munmap, s, p', IDLE);
  }

  // Verify it and add up.
  method HotCheck(vm: Vm, c: Counters, s: Slot, swept: Word, ghost munmap: bool, ghost w: Worker, ghost p: Script)
    returns (ghost t: seq<Event>, ghost w': Worker, ghost p': Script)
    requires Ready(vm, s) && c.Valid() && Follows(vm.code, munmap, s, p)
    requires w.stage == Running(HotVerify) && w.hotSweeps == swept && p.now == Set(vm, c, s, w)
    modifies vm`cpu, vm`mem, c`checks, c`allChecks, c`mismatches, c`allMismatches
    ensures c.Valid() && c.allChecks == old(c.allChecks) + PageOf(s.half)
    ensures c.allMismatches == old(c.allMismatches) + w'.bad
    ensures Intact(t, s) && HotIs(old(vm.mem), s, swept) ==> HotIs(vm.mem, s, swept) && w'.bad == 0
    ensures Intact(t, s) ==> w'.bad == |PagesDiffering(old(vm.mem), s.base, s.base + s.half, swept)|
    ensures Follows(vm.code, munmap, s, p') && p'.start == p.start && p'.now == Onwards(s, Here(vm, c, w'), HotVerify)
    ensures w' == w.(bad := w'.bad, stage := AddMismatches(HotVerify))
  {
    hide Step;
    hide PassRan;
    hide Follows;
    hide Act;
    hide EndOf;
    hide Aligned;
    if HotIs(vm.mem, s, swept) {
      NoneDiffer(vm.mem, s, swept);
    }
    ghost var cpu0 := vm.cpu;
    var bad;
    bad, t := VerifyHot(vm, s, swept);
    p' := ByPass(vm.code, munmap, s, p, cpu0, t, vm.State());
    c.CountVerify(PageOf(s.half), bad);
    AddActs(vm.code, munmap, s, p'.now, IDLE, IDLE);
    p' := ByTurn(vm.code, munmap, s, p', IDLE);
    p' := ByTurn(vm.code, munmap, s, p', IDLE);
    w' := w.(bad := bad, stage := AddMismatches(HotVerify));
  }

  // One hot sweep and the verify after it.
  method HotRound(vm: Vm, c: Counters, s: Slot, hotSweeps: Word, ghost munmap: bool, ghost w: Worker, ghost p: Script)
    returns (swept: Word, ghost t: seq<Event>, ghost w': Worker, ghost p': Script)
    requires Ready(vm, s) && c.Valid() && hotSweeps < TWO64 - 1 && Follows(vm.code, munmap, s, p)
    requires w.stage == Running(HotSweep) && w.hotSweeps == hotSweeps && p.now == Set(vm, c, s, w)
    modifies vm`cpu, vm`mem, c
    ensures c.Valid() && swept as int == hotSweeps as int + 1
    ensures c.allSweeps == old(c.allSweeps) + 1 && c.allReclaims == old(c.allReclaims)
    ensures c.allChecks == old(c.allChecks) + PageOf(s.half)
    ensures Intact(t, s) && HotIs(old(vm.mem), s, hotSweeps) ==>
              HotIs(vm.mem, s, swept) && c.allMismatches == old(c.allMismatches)
    ensures Follows(vm.code, munmap, s, p') && p'.start == p.start && p'.now == Onwards(s, Here(vm, c, w'), HotVerify)
    ensures w' == w.(hotSweeps := swept, bad := w'.bad, stage := AddMismatches(HotVerify))
  {
    hide Step;
    hide PassRan;
    hide Follows;
    hide Act;
    hide EndOf;
    hide Aligned;
    swept, t, p' := SweepAndCount(vm, c, s, hotSweeps, munmap, w, p);
    ghost var u;
    u, w', p' := HotCheck(vm, c, s, swept, munmap, w.(hotSweeps := swept, stage := Running(HotVerify)), p');
    IntactParts(t, u, s);
    t := t + u;
  }

  // Touch the cold half and count the sweep.
  method TouchCold(vm: Vm, c: Counters, s: Slot, ghost munmap: bool, ghost w: Worker, ghost p: Script)
    returns (ghost t: seq<Event>, ghost p': Script)
    requires Ready(vm, s) && c.Valid() && Follows(vm.code, munmap, s, p)
    requires w.stage == Running(ColdSweep) && p.now == Set(vm, c, s, w)
    modifies vm`cpu, vm`mem, c`sweeps, c`allSweeps
    ensures c.Valid() && c.allSweeps == old(c.allSweeps) + 1
    ensures Intact(t, s) ==> SameHot(old(vm.mem), vm.mem, s) && ColdSwept(old(vm.mem), vm.mem, s)
    ensures Follows(vm.code, munmap, s, p') && p'.start == p.start && p'.now == Here(vm, c, w.(stage := Unmapping))
  {
    hide Step;
    hide PassRan;
    hide Follows;
    hide Act;
    hide EndOf;
    hide Aligned;
    ghost var cpu0 := vm.cpu;
    t := SweepCold(vm, s);
    p' := ByPass(vm.code, munmap, s, p, cpu0, t, vm.State());
    c.CountSweep();
    CountSweepActs(vm.code, munmap, s, p'.now, IDLE);
    p' := ByTurn(vm.code, munmap, s, p', IDLE);
  }

  // Hand it back and count the reclaim.
  method GiveCold(vm: Vm, c: Counters, s: Slot, munmap: bool, ghost w: Worker, ghost p: Script)
    returns (ghost p': Script)
    requires Ready(vm, s) && c.Valid() && Follows(vm.code, munmap, s, p)
    requires w.stage == Unmapping && p.now == Here(vm, c, w)
    modifies vm`mem, vm`mapped, c`reclaims, c`allReclaims
    ensures c.Valid() && c.allReclaims == old(c.allReclaims) + 1
    ensures vm.mapped == old(vm.mapped) && SameHot(old(vm.mem), vm.mem, s)
    ensures Follows(vm.code, munmap, s, p') && p'.start == p.start
    ensures p'.now == Set(vm, c, s, w.(stage := Running(ColdFill)))
  {
    hide Step;
    hide PassRan;
    hide Follows;
    hide Act;
    hide EndOf;
    hide Aligned;
    ColdPagesMapped(s, vm.mapped);
    ghost var seen, given;
    seen, given := ReclaimCold(vm, s, munmap);
    ReclaimActs(vm.code, munmap, s, p.now, Choice(true, given));
    p' := ByTurn(vm.code, munmap, s, p, IDLE);
    p' := ByTurn(vm.code, munmap, s, p', Choice(true, given));
    p' := ByTurn(vm.code, munmap, s, p', IDLE);
    c.CountReclaim();
    CountReclaimActs(vm.code, munmap, s, p'.now, IDLE);
    p' := ByTurn(vm.code, munmap, s, p', IDLE);
  }

  // Verify the cold half and add up.
  method ColdCheck(vm: Vm, c: Counters, s: Slot, stamp: Word, ghost again: bool, ghost munmap: bool,
                   ghost w: Worker, ghost p: Script)
    returns (ghost t: seq<Event>, ghost w': Worker, ghost p': Script)
    requires Ready(vm, s) && c.Valid() && Follows(vm.code, munmap, s, p)
    requires w.stage == Running(ColdVerify(again)) && stamp == Stamp(s.k, w.cycle) && p.now == Set(vm, c, s, w)
    modifies vm`cpu, vm`mem, c`checks, c`allChecks, c`mismatches, c`allMismatches
    ensures c.Valid() && c.allChecks == old(c.allChecks) + PageOf(s.half)
    ensures c.allMismatches == old(c.allMismatches) + w'.bad
    ensures Intact(t, s) ==> SameHot(old(vm.mem), vm.mem, s)
    ensures Intact(t, s) && ColdIs(old(vm.mem), s, stamp) ==> ColdIs(vm.mem, s, stamp) && w'.bad == 0
    ensures Follows(vm.code, munmap, s, p') && p'.start == p.start
    ensures p'.now == Onwards(s, Here(vm, c, w'), ColdVerify(again))
    ensures w' == w.(bad := w'.bad, stage := AddMismatches(ColdVerify(again)))
  {
    hide Step;
    hide PassRan;
    hide Follows;
    hide Act;
    hide EndOf;
    hide Aligned;
    ghost var cpu0 := vm.cpu;
    var bad;
    bad, t := VerifyCold(vm, s, stamp);
    p' := ByPass(vm.code, munmap, s, p, cpu0, t, vm.State());
    c.CountVerify(PageOf(s.half), bad);
    AddActs(vm.code, munmap, s, p'.now, IDLE, IDLE);
    p' := ByTurn(vm.code, munmap, s, p', IDLE);
    p' := ByTurn(vm.code, munmap, s, p', IDLE);
    w' := w.(bad := bad, stage := AddMismatches(ColdVerify(again)));
  }

  // Take the cold half again: stamp it.
  method TakeCold(vm: Vm, c: Counters, s: Slot, stamp: Word, ghost munmap: bool, ghost w: Worker, ghost p: Script)
    returns (ghost t: seq<Event>, ghost p': Script)
    requires Ready(vm, s) && Follows(vm.code, munmap, s, p)
    requires w.stage == Running(ColdFill) && stamp == Stamp(s.k, w.cycle) && p.now == Set(vm, c, s, w)
    modifies vm`cpu, vm`mem
    ensures Intact(t, s) ==> SameHot(old(vm.mem), vm.mem, s) && ColdIs(vm.mem, s, stamp)
    ensures Follows(vm.code, munmap, s, p') && p'.start == p.start
    ensures p'.now == Set(vm, c, s, w.(stage := Running(ColdVerify(false))))
  {
    hide Step;
    hide PassRan;
    hide Follows;
    hide Act;
    hide EndOf;
    hide Aligned;
    ghost var cpu0 := vm.cpu;
    t := FillCold(vm, s, stamp);
    p' := ByPass(vm.code, munmap, s, p, cpu0, t, vm.State());
  }

  lemma HotSurvives(mem: Memory, mem': Memory, s: Slot, v: Word)
    requires HotIs(mem, s, v) && SameHot(mem, mem', s)
    ensures HotIs(mem', s, v)
  {
  }

  // What the fill wrote is verified twice.
  method TwoColdChecks(vm: Vm, c: Counters, s: Slot, stamp: Word, ghost munmap: bool, ghost w: Worker, ghost p: Script)
    returns (ghost t: seq<Event>, ghost w': Worker, ghost p': Script)
    requires Ready(vm, s) && c.Valid() && Follows(vm.code, munmap, s, p)
    requires w.stage == Running(ColdVerify(false)) && stamp == Stamp(s.k, w.cycle) && p.now == Set(vm, c, s, w)
    modifies vm`cpu, vm`mem, c`checks, c`allChecks, c`mismatches, c`allMismatches
    ensures c.Valid() && c.allChecks == old(c.allChecks) + 2 * PageOf(s.half)
    ensures Intact(t, s) ==> SameHot(old(vm.mem), vm.mem, s)
    ensures Intact(t, s) && ColdIs(old(vm.mem), s, stamp) ==>
              ColdIs(vm.mem, s, stamp) && c.allMismatches == old(c.allMismatches)
    ensures Follows(vm.code, munmap, s, p') && p'.start == p.start && p'.now == Here(vm, c, w')
    ensures w' == w.(bad := w'.bad, stage := Deadline)
  {
    hide Step;
    hide PassRan;
    hide Follows;
    hide Act;
    hide EndOf;
    hide Aligned;
    hide Intact;
    hide SameHot;
    hide ColdIs;
    ghost var m0 := vm.mem;
    t, w', p' := ColdCheck(vm, c, s, stamp, false, munmap, w, p);
    ghost var m1, again := vm.mem, [];
    again, w', p' := ColdCheck(vm, c, s, stamp, true, munmap, w'.(stage := Running(ColdVerify(true))), p');
    w' := w'.(stage := Deadline);
    IntactParts(t, again, s);
    if Intact(t + again, s) {
      SameHotAcross(m0, m1, vm.mem, s);
    }
    t := t + again;
  }

  // Touch the cold half, hand it back, stamp it, verify it twice. `handed` is memory as it was
  // given to the kernel.
  method ColdRound(vm: Vm, c: Counters, s: Slot, munmap: bool, cycle: Word, ghost w: Worker, ghost p: Script)
    returns (ghost t: seq<Event>, ghost handed: Memory, ghost w': Worker, ghost p': Script)
    requires Ready(vm, s) && c.Valid() && Follows(vm.code, munmap, s, p)
    requires w.stage == Running(ColdSweep) && w.cycle == cycle && p.now == Set(vm, c, s, w)
    modifies vm`cpu, vm`mem, vm`mapped, c
    ensures c.Valid() && vm.mapped == old(vm.mapped)
    ensures c.allSweeps == old(c.allSweeps) + 1 && c.allReclaims == old(c.allReclaims) + 1
    ensures c.allChecks == old(c.allChecks) + 2 * PageOf(s.half)
    ensures Intact(t, s) ==> ColdSwept(old(vm.mem), handed, s) && ColdIs(vm.mem, s, Stamp(s.k, cycle))
    ensures Intact(t, s) ==> SameHot(old(vm.mem), vm.mem, s) && c.allMismatches == old(c.allMismatches)
    ensures Follows(vm.code, munmap, s, p') && p'.start == p.start && p'.now == Here(vm, c, w')
    ensures w' == w.(bad := w'.bad, stage := Deadline)
  {
    hide Step;
    hide PassRan;
    hide Follows;
    hide Act;
    hide EndOf;
    hide Aligned;
    hide Intact;
    hide SameHot;
    hide ColdIs;
    hide ColdSwept;
    var stamp := Stamp(s.k, cycle);
    ghost var m0 := vm.mem;
    t, p' := TouchCold(vm, c, s, munmap, w, p);
    handed := vm.mem;
    p' := GiveCold(vm, c, s, munmap, w.(stage := Unmapping), p');
    ghost var m1, fill, m2, checks := vm.mem, [], m0, [];
    fill, p' := TakeCold(vm, c, s, stamp, munmap, w.(stage := Running(ColdFill)), p');
    m2 := vm.mem;
    checks, w', p' := TwoColdChecks(vm, c, s, stamp, munmap, w.(stage := Running(ColdVerify(false))), p');
    IntactParts(t, fill, s);
    IntactParts(t + fill, checks, s);
    if Intact(t + fill + checks, s) {
      SameHotAcross(m0, handed, m1, s);
      SameHotAcross(m0, m1, m2, s);
      SameHotAcross(m0, m2, vm.mem, s);
    }
    t := t + fill + checks;
  }

  lemma SameHotAcross(m0: Memory, m1: Memory, m2: Memory, s: Slot)
    requires SameHot(m0, m1, s) && SameHot(m1, m2, s)
    ensures SameHot(m0, m2, s)
  {
  }

  // Page checks of i hot rounds.
  function RoundChecks(pages: nat, i: nat): nat {
    if i == 0 then 0 else RoundChecks(pages, i - 1) + pages
  }

  // One turn of the worker's loop.
  method Cycle(vm: Vm, c: Counters, s: Slot, munmap: bool, hotSweeps: Word, cycle: Word,
               ghost w: Worker, ghost p: Script)
    returns (swept: Word, cycle': Word, ghost t: seq<Event>, ghost w': Worker, ghost p': Script)
    requires Ready(vm, s) && c.Valid() && hotSweeps < TWO64 - 4 && cycle < TWO64 - 1 && Follows(vm.code, munmap, s, p)
    requires w.stage == Deadline && w.hotSweeps == hotSweeps && w.cycle == cycle && w.iter == 0
    requires p.now == Here(vm, c, w)
    modifies vm`cpu, vm`mem, vm`mapped, c
    ensures c.Valid() && vm.mapped == old(vm.mapped)
    ensures swept as int == hotSweeps as int + 4 && cycle' as int == cycle as int + 1
    ensures c.allSweeps == old(c.allSweeps) + 5 && c.allReclaims == old(c.allReclaims) + 1
    ensures c.allChecks == old(c.allChecks) + 6 * PageOf(s.half)
    ensures Intact(t, s) && HotIs(old(vm.mem), s, hotSweeps) ==>
              && HotIs(vm.mem, s, swept) && ColdIs(vm.mem, s, Stamp(s.k, cycle'))
              && c.allMismatches == old(c.allMismatches)
    ensures Follows(vm.code, munmap, s, p') && p'.start == p.start && p'.now == Here(vm, c, w')
    ensures w' == w.(hotSweeps := swept, cycle := cycle', bad := w'.bad)
  {
    hide Step;
    hide PassRan;
    hide Follows;
    hide Act;
    hide EndOf;
    hide Aligned;
    hide Intact;
    hide HotIs;
    hide ColdIs;
    hide SameHot;
    hide Granting;
    hide Armed;
    hide Onwards;
    ghost var pages := PageOf(s.half);
    ArmedAgain(s, Here(vm, c, w), HotSweep, vm.cpu, Running(HotSweep));
    DeadlineActs(vm.code, munmap, s, p.now, IDLE);
    p' := ByTurn(vm.code, munmap, s, p, IDLE);
    w' := w.(stage := Running(HotSweep));
    swept, t := hotSweeps, [];
    for i := 0 to HOT_SWEEPS_PER_CYCLE
      invariant c.Valid() && vm.mapped == old(vm.mapped) && swept as int == hotSweeps as int + i
      invariant c.allSweeps == old(c.allSweeps) + i && c.allReclaims == old(c.allReclaims)
      invariant c.allChecks == old(c.allChecks) + RoundChecks(pages, i)
      invariant Intact(t, s) && HotIs(old(vm.mem), s, hotSweeps) ==>
                  HotIs(vm.mem, s, swept) && c.allMismatches == old(c.allMismatches)
      invariant w' == InCycle(w, i, swept, w'.bad)
      invariant Follows(vm.code, munmap, s, p') && p'.start == p.start && p'.now == Set(vm, c, s, w')
    {
      ghost var u;
      swept, u, w', p' := HotRound(vm, c, s, swept, munmap, w', p');
      NextRound(s, w, i, Here(vm, c, w'));
      w' := InCycle(w, i + 1, swept, w'.bad);
      IntactParts(t, u, s);
      t := t + u;
    }
    FourRounds(pages);
    cycle' := Wrap(cycle as int + 1);
    ghost var before := vm.mem;
    ghost var u, handed;
    u, handed, w', p' := ColdRound(vm, c, s, munmap, cycle', w', p');
    IntactParts(t, u, s);
    t := t + u;
    if Intact(t, s) && HotIs(old(vm.mem), s, hotSweeps) {
      HotSurvives(before, vm.mem, s, swept);
    }
  }

  // The worker's control state after i hot rounds of a cycle.
  function InCycle(w: Worker, i: nat, swept: Word, bad: Word): Worker {
    if i < HOT_SWEEPS_PER_CYCLE then w.(hotSweeps := swept, bad := bad, iter := i, stage := Running(HotSweep))
    else w.(hotSweeps := swept, bad := bad, iter := 0, cycle := Wrap(w.cycle as int + 1), stage := Running(ColdSweep))
  }

  // Arming does not look at the stage it replaces.
  lemma ArmedAgain(s: Slot, x: Effect, job: Job, cpu: Cpu, stage: Stage)
    requires SlotOk(s)
    ensures Armed(s, x.(w := x.w.(stage := stage)), job, cpu) == Armed(s, x, job, cpu)
  {
  }

  // Adding up after a round arms the vCPU for the next one, or for the cold sweep.
  lemma NextRound(s: Slot, w: Worker, i: nat, x: Effect)
    requires SlotOk(s) && i < HOT_SWEEPS_PER_CYCLE
    requires x.w == InCycle(w, i, x.w.hotSweeps, x.w.bad).(stage := AddMismatches(HotVerify))
    requires w.iter == 0
    ensures var w' := InCycle(w, i + 1, x.w.hotSweeps, x.w.bad);
      w'.stage.Running? && Onwards(s, x, HotVerify) == Armed(s, x.(w := w'), w'.stage.job, x.cpu)
  {
  }

  lemma FourRounds(pages: nat)
    ensures RoundChecks(pages, 4) == 4 * pages
  {
    assert RoundChecks(pages, 1) == pages;
    assert RoundChecks(pages, 2) == 2 * pages;
    assert RoundChecks(pages, 3) == 3 * pages;
  }

  // Page checks of so many cycles.
  function ChecksOf(pages: nat, cycles: nat): nat {
    if cycles == 0 then 0 else ChecksOf(pages, cycles - 1) + 6 * pages
  }

  lemma {:induction false} ChecksOfIs(pages: nat, cycles: nat)
    ensures ChecksOf(pages, cycles) == 6 * pages * cycles
    decreases cycles
  {
    if cycles > 0 {
      ChecksOfIs(pages, cycles - 1);
      assert 6 * pages * cycles == 6 * pages * (cycles - 1) + 6 * pages;
    }
  }

  const NEWBORN: Worker := Worker(Running(FirstSweep), 0, 0, 0, 0, 0)

  // The first sweep and, on worker 0, the self-test.
  method Begin(vm: Vm, c: Counters, s: Slot, ghost munmap: bool)
    returns (ok: bool, hotSweeps: Word, ghost t: seq<Event>, ghost w': Worker, ghost p': Script)
    requires Ready(vm, s) && HotIs(vm.mem, s, 0)
    modifies vm`cpu, vm`mem
    ensures hotSweeps == 1 && (Intact(t, s) ==> ok && HotIs(vm.mem, s, hotSweeps))
    ensures Follows(vm.code, munmap, s, p') && p'.start == old(Set(vm, c, s, NEWBORN)) && p'.now == Here(vm, c, w')
    ensures w' == Worker(if ok then Deadline else Panicked, 1, 0, 0, w'.bad, w'.saved)
  {
    hide Step;
    hide PassRan;
    hide Follows;
    hide Act;
    hide EndOf;
    hide Aligned;
    p' := FromNothing(vm.code, munmap, s, Set(vm, c, s, NEWBORN));
    ghost var cpu0 := vm.cpu;
    hotSweeps, ok := 0, true;
    t := SweepHot(vm, s, 0);
    hotSweeps := Wrap(hotSweeps as int + 1);
    p' := ByPass(vm.code, munmap, s, p', cpu0, t, vm.State());
    w' := NEWBORN.(hotSweeps := 1, stage := if s.k == 0 then Planting else Deadline);
    if s.k == 0 {
      ghost var u;
      ok, u, w', p' := SelfTest(vm, c, s, hotSweeps, munmap, w', p');
      IntactParts(t, u, s);
      t := t + u;
    }
  }

  lemma FromNothing(code: seq<Word32>, munmap: bool, s: Slot, x: Effect) returns (p: Script)
    requires SlotOk(s)
    ensures Follows(code, munmap, s, p) && p.start == x && p.now == x
  {
    p := Script(x, [], x);
  }

  // The worker, from its first sweep until the deadline stops it after `cycles` cycles; it
  // panics when worker 0's self-test fails. Whatever the kernel did, the counters have moved
  // by 5 sweeps, 6 half-slots of checks and 1 reclaim a cycle, and stage 2 is as it was. If
  // the kernel left the slot alone, there was no panic and no mismatch, and each half holds
  // what it should. And all along this was a play of the soak's own state machine: `p'` is the
  // script of it, from the state in which the soak starts a worker.
  method RunWorker(vm: Vm, c: Counters, s: Slot, munmap: bool, cycles: nat)
    returns (ok: bool, hotSweeps: Word, cycle: Word, ghost t: seq<Event>, ghost w': Worker, ghost p': Script)
    requires Ready(vm, s) && c.Valid() && HotIs(vm.mem, s, 0) && 4 * cycles + 5 < TWO64
    modifies vm`cpu, vm`mem, vm`mapped, c
    ensures c.Valid() && vm.mapped == old(vm.mapped)
    ensures ok ==> hotSweeps == 4 * cycles + 1 && cycle == cycles
    ensures ok ==> c.allSweeps == old(c.allSweeps) + 5 * cycles && c.allReclaims == old(c.allReclaims) + cycles
    ensures ok ==> c.allChecks == old(c.allChecks) + 6 * PageOf(s.half) * cycles
    ensures Intact(t, s) ==> ok && c.allMismatches == old(c.allMismatches) && HotIs(vm.mem, s, hotSweeps)
    ensures Intact(t, s) && cycles > 0 ==> ColdIs(vm.mem, s, Stamp(s.k, cycle))
    ensures Follows(vm.code, munmap, s, p') && p'.start == old(Set(vm, c, s, NEWBORN)) && p'.now == Here(vm, c, w')
    ensures w' == Worker(if ok then Finished else Panicked, hotSweeps, cycle, 0, w'.bad, w'.saved)
  {
    hide Step;
    hide PassRan;
    hide Follows;
    hide Act;
    hide EndOf;
    hide Aligned;
    cycle := 0;
    ok, hotSweeps, t, w', p' := Begin(vm, c, s, munmap);
    if !ok {
      return;
    }
    ghost var pages := PageOf(s.half);
    for i := 0 to cycles
      invariant c.Valid() && vm.mapped == old(vm.mapped) && hotSweeps == 4 * i + 1 && cycle == i
      invariant c.allSweeps == old(c.allSweeps) + 5 * i && c.allReclaims == old(c.allReclaims) + i
      invariant c.allChecks == old(c.allChecks) + ChecksOf(pages, i)
      invariant Intact(t, s) ==> c.allMismatches == old(c.allMismatches) && HotIs(vm.mem, s, hotSweeps)
      invariant Intact(t, s) && i > 0 ==> ColdIs(vm.mem, s, Stamp(s.k, cycle))
      invariant Follows(vm.code, munmap, s, p') && p'.start == old(Set(vm, c, s, NEWBORN)) && p'.now == Here(vm, c, w')
      invariant w' == Worker(Deadline, hotSweeps, cycle, 0, w'.bad, w'.saved)
    {
      ghost var u;
      hotSweeps, cycle, u, w', p' := Cycle(vm, c, s, munmap, hotSweeps, cycle, w', p');
      IntactParts(t, u, s);
      t := t + u;
    }
    ChecksOfIs(pages, cycles);
    DeadlineActs(vm.code, munmap, s, p'.now, Choice(false, {}));
    p' := ByTurn(vm.code, munmap, s, p', Choice(false, {}));
    w' := w'.(stage := Finished);
  }

  // ---- In the system ----

  // The script of a worker that starts as the soak starts it is a run of the soak, in which
  // the other workers do not get a turn.
  lemma ScriptIsRun(code: seq<Word32>, cfg: Config, cpus: seq<Cpu>, mapped: set<int>, k: nat, p: Script)
    requires ConfigOk(cfg) && |cpus| == cfg.vcpus && k < cfg.vcpus && SlotOk(SlotOf(cfg, k))
    requires Follows(code, cfg.munmap, SlotOf(cfg, k), p)
    requires p.start ==
             Armed(SlotOf(cfg, k), Effect(cpus[k], NEWBORN, map[], mapped, Stats(0, 0, 0, 0)), FirstSweep, cpus[k])
    ensures var x := BootWatched(cfg, cpus, mapped); var y := Watch(code, cfg, x, p.hs).sys;
      EffectOf(y, k) == p.now && forall j :: 0 <= j < cfg.vcpus && j != k ==> y.threads[j] == x.sys.threads[j]
  {
    hide Act;
    var x := BootWatched(cfg, cpus, mapped);
    assert EffectOf(x.sys, k) == p.start;
    PlayIsWatch(code, cfg, x, p.hs, k);
  }
}
