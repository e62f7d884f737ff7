// The two safety probes from the guest's first stores to the printed verdict.

module Probes {
  import opened Words
  import opened Arm64
  import opened GuestCode
  import opened Passes
  import opened Runs
  import opened Hammer
  import opened Patience
  import opened Vcpu
  import opened HammerCheck

  function TouchAll(ramSize: nat): Pass
    requires RAM_GPA + ramSize < TWO64
  {
    Pass(Touch, RAM_GPA, RAM_GPA + ramSize, 0)
  }

  // The touch pass, from cpu0 and mem0 with the kernel doing t, and then the loss of `pages`:
  // the offsets of the pages that are gone.
  function GoneAfterTouch(env: Env, cpu0: Cpu, mem0: Memory, t: seq<Event>, pages: seq<int>, ramSize: nat): set<int>
    requires RAM_GPA + ramSize < TWO64
  {
    set off | 0 <= off < ramSize && Aligned(off) &&
              (RAM_GPA + off in Undone(env, TouchAll(ramSize), Machine(Arm(TouchAll(ramSize), cpu0), mem0), t)
               || PageOf(RAM_GPA + off) in pages)
  }

  // The hammer, from cpu1 and mem1 with the kernel doing t: the offsets of the pages it struck
  // outside their windows.
  function StruckOffsets(env: Env, cpu1: Cpu, mem1: Memory, t: seq<Event>, ramSize: nat): set<int>
    requires RAM_GPA + ramSize < TWO64
  {
    set off | 0 <= off < ramSize && Aligned(off) &&
              RAM_GPA + off in Struck(env, Machine(ArmHammer(RamSweep(ramSize), cpu1), mem1), t)
  }

  predicate Sized(ramSize: nat) {
    RAM_GPA + ramSize < TWO64 && 0 < ramSize && Aligned(ramSize)
  }

  lemma WholeRam(ramSize: nat)
    requires Sized(ramSize)
    ensures EndOf(TouchAll(ramSize)) == RAM_GPA + ramSize && EndOf(RamSweep(ramSize)) == RAM_GPA + ramSize
  {
    RamSweepEnd(ramSize);
  }

  // What a touch pass leaves, page by page.
  lemma TouchLeaves(env: Env, cpu0: Cpu, mem0: Memory, t: seq<Event>, ramSize: nat, m: Machine)
    requires Sized(ramSize) && Loaded(env.code) && Resume !in t
    requires Granted(TouchAll(ramSize), RAM_GPA + ramSize, env.mapped)
    requires m == Exec(env, Machine(Arm(TouchAll(ramSize), cpu0), mem0), t) && AtBell(Touch, m.cpu)
    ensures TouchedOrLost(m.mem, ramSize)
    ensures forall off :: 0 <= off < ramSize && Aligned(off) ==>
              (Read(m.mem, RAM_GPA + off) != RAM_GPA + off <==>
               RAM_GPA + off in Undone(env, TouchAll(ramSize), Machine(Arm(TouchAll(ramSize), cpu0), mem0), t))
  {
    hide Step;
    var p := TouchAll(ramSize);
    WholeRam(ramSize);
    forall a | OnGrid(RAM_GPA, RAM_GPA + ramSize, a)
      ensures Read(m.mem, a) == a || Read(m.mem, a) == 0
      ensures Read(m.mem, a) == a <==> a !in Undone(env, p, Machine(Arm(p, cpu0), mem0), t)
    {
      TouchExact(env, p, cpu0, mem0, t, a);
    }
    forall off | 0 <= off < ramSize && Aligned(off) ensures OnGrid(RAM_GPA, RAM_GPA + ramSize, RAM_GPA + off) {
      RamOffset(ramSize, off);
    }
  }

  // The machine after the touch pass and the losses.
  function TouchedAndLost(env: Env, cpu0: Cpu, mem0: Memory, t: seq<Event>, pages: seq<int>, ramSize: nat): Machine
    requires RAM_GPA + ramSize < TWO64
  {
    var m := Exec(env, Machine(Arm(TouchAll(ramSize), cpu0), mem0), t);
    Machine(m.cpu, DropAll(m.mem, pages))
  }

  // Touch everything, then let the kernel take these pages.
  method TouchAndLose(vm: Vm, ramSize: nat, pages: seq<int>) returns (ghost t: seq<Event>)
    requires Sized(ramSize) && vm.Runnable(TouchAll(ramSize))
    modifies vm`cpu, vm`mem
    ensures vm.State() == TouchedAndLost(vm.World(), old(vm.cpu), old(vm.mem), t, pages, ramSize)
    ensures TouchedOrLost(vm.mem, ramSize)
    ensures Lost(vm.mem, ramSize, 0) == GoneAfterTouch(vm.World(), old(vm.cpu), old(vm.mem), t, pages, ramSize)
  {
    ghost var cpu0, mem0 := vm.cpu, vm.mem;
    WholeRam(ramSize);
    t := vm.RunTouchRange(0, ramSize);
    ghost var touched := vm.State();
    TouchLeaves(vm.World(), cpu0, mem0, t, ramSize, touched);
    ParkedSurveyExact(touched.mem, ramSize, pages);
    for i := 0 to |pages|
      invariant vm.mem == DropAll(touched.mem, pages[..i]) && vm.cpu == touched.cpu
    {
      assert pages[..i + 1][..i] == pages[..i];
      vm.LosePage(pages[i]);
    }
    assert pages[..|pages|] == pages;
  }

  // --pressure-check: touch everything, park the guest, let the kernel take any pages, survey.
  // The pages reported lost are those it took after their store.
  method ParkedProbe(vm: Vm, ramSize: nat, pages: seq<int>) returns (intact: nat, lost: nat, ghost t: seq<Event>)
    requires Sized(ramSize) && vm.Runnable(TouchAll(ramSize))
    modifies vm`cpu, vm`mem
    ensures lost == |GoneAfterTouch(vm.World(), old(vm.cpu), old(vm.mem), t, pages, ramSize)|
    ensures intact + lost == PageOf(ramSize)
  {
    t := TouchAndLose(vm, ramSize, pages);
    intact, lost := SurveyParked(vm.mem, ramSize);
  }

  // The survey after a hammer that started from memory mem1, in the terms of both runs.
  lemma HammerVerdict(env: Env, cpu1: Cpu, mem1: Memory, ramSize: nat, t: seq<Event>, gone: set<int>)
    requires HammerStands(env, cpu1, mem1, ramSize, t) && Lost(mem1, ramSize, 0) == gone
    ensures var m := Exec(env, Machine(ArmHammer(RamSweep(ramSize), cpu1), mem1), t);
      Lost(m.mem, ramSize, m.cpu.x[4]) == gone + StruckOffsets(env, cpu1, mem1, t, ramSize)
  {
    hide Step;
    HammerSurveyExact(env, cpu1, mem1, ramSize, t);
    forall off | 0 <= off < ramSize && Aligned(off)
      ensures off in gone <==> Read(mem1, RAM_GPA + off) != RAM_GPA + off
    {
      assert Wrap(RAM_GPA + off) == RAM_GPA + off;
    }
  }

  // --hammer: touch everything, lose any pages, hammer until the closure says stop or panics,
  // survey unless it panicked. Whatever the kernel does at any moment of it, the number of
  // pages reported lost is the number of pages it took after their first store, short of those
  // it took between the load and the store of one of their own increments only.
  method HammerProbe(vm: Vm, ramSize: nat, pages: seq<int>, k: KeepGoing, hs: seq<Happening>)
    returns (answer: Answer, sweeps: Word, intact: nat, lost: nat, examples: seq<(int, Word)>,
             ghost touch: seq<Event>, ghost t: seq<Event>, ghost mid: Machine)
    requires Sized(ramSize) && vm.Runnable(TouchAll(ramSize)) && vm.Runnable(RamSweep(ramSize))
    requires k.Captured() == FRESH.s && Finished(hs) && |hs| < TWO64 - 1
    modifies vm`cpu, vm`mem, k
    ensures answer == After(hs).last && sweeps == CallsIn(hs)
    ensures answer == Stop ==> intact + lost == PageOf(ramSize)
    ensures answer == Stop ==> lost == |Lost(vm.mem, ramSize, sweeps)| && FirstLosses(vm.mem, ramSize, sweeps, examples)
    ensures answer == Stop && RAM_GPA + ramSize + |t| < TWO64 ==>
              lost == |GoneAfterTouch(vm.World(), old(vm.cpu), old(vm.mem), touch, pages, ramSize)
                       + StruckOffsets(vm.World(), mid.cpu, mid.mem, t, ramSize)|
    ensures mid == TouchedAndLost(vm.World(), old(vm.cpu), old(vm.mem), touch, pages, ramSize)
    ensures vm.State() == Exec(vm.World(), Machine(ArmHammer(RamSweep(ramSize), mid.cpu), mid.mem), t)
  {
    hide FirstLosses;
    ghost var cpu0, mem0 := vm.cpu, vm.mem;
    touch := TouchAndLose(vm, ramSize, pages);
    mid := vm.State();
    WholeRam(ramSize);
    ghost var reported;
    sweeps, answer, reported, t := vm.RunHammer(ramSize, k, hs);
    if RAM_GPA + ramSize + |t| < TWO64 {
      HammerVerdict(vm.World(), mid.cpu, mid.mem, ramSize, t,
                    GoneAfterTouch(vm.World(), cpu0, mem0, touch, pages, ramSize));
    }
    intact, lost, examples := 0, 0, [];
    if answer == Stop {
      intact, lost, examples := SurveyHammer(vm.mem, ramSize, sweeps);
    }
  }
}
