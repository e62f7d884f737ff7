// The host side of a single-vCPU VM: register access, hv_vcpu_run, and the loops that drive
// the guest programs to their doorbell.

module Vcpu {
  import opened Words
  import opened Arm64
  import opened GuestCode
  import opened Passes
  import opened Runs
  import opened Hammer
  import opened Patience

  // What hv_vcpu_run reports: a cancel, or the exception that stopped the vCPU.
  datatype HvExit = CanceledExit | ExceptionExit(why: Outcome)

  datatype GuestExit = Canceled | Doorbell | Unexpected(why: Outcome)

  // The register writes of run_pass, on top of the caller's, are exactly Arm.
  lemma ArmInSteps(p: Pass, cpu: Cpu)
    requires p.kind == Sweep ==> cpu.x[6] == p.lo
    requires p.kind == Fill || p.kind == Verify ==> cpu.x[5] == p.val
    requires p.kind == Verify ==> cpu.x[4] == 0
    ensures SetReg(SetReg(SetReg(cpu.(pc := Entry(p.kind)), 1, p.lo), 2, p.hi), 3, DOORBELL_GPA) == Arm(p, cpu)
  {
    var x := cpu.x[1 := p.lo][2 := p.hi][3 := DOORBELL_GPA];
    assert Arm(p, cpu).x == x;
  }

  // What the caller of run_pass set beforehand, arming sets again.
  lemma ArmAgain(p: Pass, cpu: Cpu)
    ensures p.kind == Sweep ==> Arm(p, SetReg(cpu, 6, p.lo)) == Arm(p, cpu)
    ensures p.kind == Fill ==> Arm(p, SetReg(cpu, 5, p.val)) == Arm(p, cpu)
    ensures p.kind == Verify ==> Arm(p, SetReg(SetReg(cpu, 4, 0), 5, p.val)) == Arm(p, cpu)
  {
    assert p.kind == Sweep ==> Arm(p, SetReg(cpu, 6, p.lo)).x == Arm(p, cpu).x;
    assert p.kind == Fill ==> Arm(p, SetReg(cpu, 5, p.val)).x == Arm(p, cpu).x;
    assert p.kind == Verify ==> Arm(p, SetReg(SetReg(cpu, 4, 0), 5, p.val)).x == Arm(p, cpu).x;
  }

  // One more entry of the vCPU, after t, in a pass that was armed on cpu0 and mem0.
  lemma Reentered(env: Env, p: Pass, cpu0: Cpu, mem0: Memory, t: seq<Event>, leg: seq<Event>, m: Machine)
    requires Loaded(env.code) && Valid(p) && Granted(p, EndOf(p), env.mapped) && Resume !in t && Resume !in leg
    requires m == Exec(env, Exec(env, Machine(Arm(p, cpu0), mem0), t), leg)
    ensures m == Exec(env, Machine(Arm(p, cpu0), mem0), t + leg)
    ensures var start := Machine(Arm(p, cpu0), mem0);
      && Retirements(env, start, t + leg) == Retirements(env, start, t) + Retirements(env, Exec(env, start, t), leg)
      && Retirements(env, start, t + leg) <= Rank(p, EndOf(p), start.cpu)
    ensures Step(env, m.cpu, m.mem).Retired? || Step(env, m.cpu, m.mem) == DataAbort(DOORBELL_GPA)
    ensures Step(env, m.cpu, m.mem) == DataAbort(DOORBELL_GPA) ==> Completed(p, mem0, t + leg, m)
  {
    ExecConcat(env, Machine(Arm(p, cpu0), mem0), t, leg);
    RetirementsConcat(env, Machine(Arm(p, cpu0), mem0), t, leg);
    PassResult(env, p, cpu0, mem0, t + leg);
  }

  class Vm {
    const code: seq<Word32>
    var cpu: Cpu
    var mem: Memory
    var mapped: set<int>          // pages with a stage-2 data mapping

    constructor (code: seq<Word32>, mapped: set<int>)
      ensures this.code == code && this.mapped == mapped && mem == map[]
    {
      this.code, this.mapped, mem := code, mapped, map[];
      cpu := Cpu(seq(31, _ => 0), 0, Flags(false, false, false, false));
    }

    function World(): Env
      reads this`mapped
    {
      Env(code, mapped)
    }

    function State(): Machine
      reads this`cpu, this`mem
    {
      Machine(cpu, mem)
    }

    // The kernel takes a page of guest RAM.
    method LosePage(page: int)
      modifies this`mem
      ensures State() == Apply(World(), old(State()), Discard(page))
    {
      mem := DropPage(mem, page);
    }

    // The vCPU attempts one instruction.
    method Attempt() returns (o: Outcome)
      modifies this`cpu, this`mem
      ensures State() == Apply(World(), old(State()), Tick)
      ensures o == Step(World(), old(cpu), old(mem))
      ensures !o.Retired? ==> State() == old(State())
    {
      o := Step(World(), cpu, mem);
      if o.Retired? {
        cpu, mem := o.cpu, o.mem;
      }
    }

    // hv_vcpu_run against an adversarial machine: any number of instructions retire, the
    // kernel discards any pages between them, and the entry may be cancelled at any
    // instruction boundary. A cancelled entry has retired at least one instruction.
    method HvVcpuRun() returns (exit: HvExit, ghost t: seq<Event>)
      modifies this`cpu, this`mem
      ensures Resume !in t
      ensures State() == Exec(World(), old(State()), t)
      ensures exit == CanceledExit ==>
                Retirements(World(), old(State()), t) >= 1 && AllRetire(World(), old(State()), t)
      ensures exit.ExceptionExit? ==> EndsStuck(World(), old(State()), t)
      ensures exit.ExceptionExit? ==> exit.why == Step(World(), cpu, mem) && !exit.why.Retired?
    {
      var fuel: nat := *;
      ghost var start := State();
      t := [];
      while fuel > 0
        invariant Resume !in t
        invariant State() == Exec(World(), start, t) && AllRetire(World(), start, t)
        decreases fuel
      {
        var strike: bool, page: int := *, *;
        if strike {
          LosePage(page);
          ExecSnoc(World(), start, t, Discard(page));
          RetireSnoc(World(), start, t, Discard(page));
          t := t + [Discard(page)];
        } else {
          var o := Attempt();
          ExecSnoc(World(), start, t, Tick);
          assert (t + [Tick])[..|t|] == t;
          if o.Retired? {
            RetireSnoc(World(), start, t, Tick);
          }
          t := t + [Tick];
          if !o.Retired? { return ExceptionExit(o), t; }
        }
        fuel := fuel - 1;
      }
      var o := Attempt();
      ExecSnoc(World(), start, t, Tick);
      RetirementsSnoc(World(), start, t, Tick);
      assert (t + [Tick])[..|t|] == t;
      if o.Retired? {
        RetireSnoc(World(), start, t, Tick);
      }
      t := t + [Tick];
      exit := if o.Retired? then CanceledExit else ExceptionExit(o);
    }

    method RunToDoorbell() returns (exit: GuestExit, ghost t: seq<Event>)
      modifies this`cpu, this`mem
      ensures Resume !in t
      ensures State() == Exec(World(), old(State()), t)
      ensures exit == Canceled ==> Retirements(World(), old(State()), t) >= 1 && AllRetire(World(), old(State()), t)
      ensures exit != Canceled ==> EndsStuck(World(), old(State()), t)
      ensures exit == Doorbell ==> Step(World(), cpu, mem) == DataAbort(DOORBELL_GPA)
      ensures exit.Unexpected? ==>
        exit.why == Step(World(), cpu, mem) && !exit.why.Retired? && exit.why != DataAbort(DOORBELL_GPA)
    {
      var info;
      info, t := HvVcpuRun();
      match info
      case CanceledExit => exit := Canceled;
      case ExceptionExit(why) =>
        exit := if why == DataAbort(DOORBELL_GPA) then Doorbell else Unexpected(why);
    }

    // Guest physical address of an offset into guest RAM.
    function Gpa(off: nat): int {
      RAM_GPA + off
    }

    // The range has stage-2 mappings, which run_to_doorbell insists on, and fits the address
    // space.
    ghost predicate Runnable(p: Pass)
      reads this`mapped
    {
      Loaded(code) && Valid(p) && Granted(p, EndOf(p), mapped)
    }

    // The pass p has been run from cpu0 and mem0, the kernel doing as in t: where that leaves
    // the machine, down to the registers, and that it is the same wherever the entries were
    // cancelled.
    ghost predicate Ran(p: Pass, cpu0: Cpu, mem0: Memory, t: seq<Event>)
      reads this
      requires Valid(p)
    {
      && Resume !in t
      && State() == Exec(World(), Machine(Arm(p, cpu0), mem0), t)
      && Completed(p, mem0, t, State())
      && EndsStuck(World(), Machine(Arm(p, cpu0), mem0), t)
      && (NoDiscards(t) ==> State() == Uninterrupted(World(), p, cpu0, mem0))
    }

    // Arm the program and run it to the doorbell. Cancelled entries are simply re-entered;
    // the panic on an unexpected exit is unreachable. The value registers are the caller's.
    method RunPass(kind: Kind, startOff: nat, endOff: nat, ghost p: Pass) returns (ghost t: seq<Event>)
      requires p.kind == kind && p.lo == Gpa(startOff) && p.hi == Gpa(endOff) && Runnable(p)
      requires kind == Sweep ==> cpu.x[6] == p.lo
      requires kind == Fill || kind == Verify ==> cpu.x[5] == p.val
      requires kind == Verify ==> cpu.x[4] == 0
      modifies this`cpu, this`mem
      ensures Ran(p, old(cpu), old(mem), t)
    {
      ghost var cpu0 := cpu;
      cpu := cpu.(pc := Entry(kind));
      cpu := SetReg(cpu, 1, Gpa(startOff));
      cpu := SetReg(cpu, 2, Gpa(endOff));
      cpu := SetReg(cpu, 3, DOORBELL_GPA);
      ArmInSteps(p, cpu0);
      ghost var start, bound := State(), Rank(p, EndOf(p), cpu);
      t := [];
      var exit := Canceled;
      while exit != Doorbell
        invariant Resume !in t
        invariant State() == Exec(World(), start, t)
        invariant exit == Doorbell ==> Completed(p, start.mem, t, State()) && EndsStuck(World(), start, t)
        invariant exit != Doorbell ==> AllRetire(World(), start, t)
        invariant t == [] || Retirements(World(), start, t) <= bound
        decreases exit != Doorbell, bound - Retirements(World(), start, t)
      {
        ghost var leg;
        exit, leg := RunToDoorbell();
        Reentered(World(), p, cpu0, start.mem, t, leg, State());
        RetireConcat(World(), start, t, leg);
        t := t + leg;
      }
      if NoDiscards(t) {
        CancelsDoNotMatter(World(), p, cpu0, start.mem, t);
      }
    }

    method RunTouchRange(startOff: nat, endOff: nat) returns (ghost t: seq<Event>)
      requires Gpa(startOff) < TWO64 && Gpa(endOff) < TWO64
      requires Runnable(Pass(Touch, Gpa(startOff), Gpa(endOff), 0))
      modifies this`cpu, this`mem
      ensures Ran(Pass(Touch, Gpa(startOff), Gpa(endOff), 0), old(cpu), old(mem), t)
    {
      t := RunPass(Touch, startOff, endOff, Pass(Touch, Gpa(startOff), Gpa(endOff), 0));
    }

    method RunReadPass(ramSize: nat) returns (ghost t: seq<Event>)
      requires Gpa(ramSize) < TWO64 && Runnable(Pass(ReadOnly, RAM_GPA, Gpa(ramSize), 0))
      modifies this`cpu, this`mem
      ensures Ran(Pass(ReadOnly, RAM_GPA, Gpa(ramSize), 0), old(cpu), old(mem), t)
    {
      t := RunPass(ReadOnly, 0, ramSize, Pass(ReadOnly, RAM_GPA, Gpa(ramSize), 0));
    }

    method RunSweepRange(startOff: nat, endOff: nat) returns (ghost t: seq<Event>)
      requires Gpa(startOff) < TWO64 && Gpa(endOff) < TWO64
      requires Runnable(Pass(Sweep, Gpa(startOff), Gpa(endOff), 0))
      modifies this`cpu, this`mem
      ensures Ran(Pass(Sweep, Gpa(startOff), Gpa(endOff), 0), old(cpu), old(mem), t)
    {
      ArmAgain(Pass(Sweep, Gpa(startOff), Gpa(endOff), 0), cpu);
      cpu := SetReg(cpu, 6, Gpa(startOff));
      t := RunPass(Sweep, startOff, endOff, Pass(Sweep, Gpa(startOff), Gpa(endOff), 0));
    }

    method RunFillRange(startOff: nat, endOff: nat, value: Word) returns (ghost t: seq<Event>)
      requires Gpa(startOff) < TWO64 && Gpa(endOff) < TWO64
      requires Runnable(Pass(Fill, Gpa(startOff), Gpa(endOff), value))
      modifies this`cpu, this`mem
      ensures Ran(Pass(Fill, Gpa(startOff), Gpa(endOff), value), old(cpu), old(mem), t)
    {
      ArmAgain(Pass(Fill, Gpa(startOff), Gpa(endOff), value), cpu);
      cpu := SetReg(cpu, 5, value);
      t := RunPass(Fill, startOff, endOff, Pass(Fill, Gpa(startOff), Gpa(endOff), value));
    }

    // Returns how many pages do not hold `expected`, counted by the guest itself.
    method RunVerifyRange(startOff: nat, endOff: nat, expected: Word) returns (bad: Word, ghost t: seq<Event>)
      requires Gpa(startOff) < TWO64 && Gpa(endOff) < TWO64
      requires Runnable(Pass(Verify, Gpa(startOff), Gpa(endOff), expected))
      modifies this`cpu, this`mem
      ensures Ran(Pass(Verify, Gpa(startOff), Gpa(endOff), expected), old(cpu), old(mem), t)
      ensures bad == cpu.x[4]
      ensures var p := Pass(Verify, Gpa(startOff), Gpa(endOff), expected);
        (forall a :: OnGrid(p.lo, EndOf(p), a) ==> !Hit(t, a)) ==>
          bad == |PagesDiffering(old(mem), p.lo, EndOf(p), expected)|
    {
      ArmAgain(Pass(Verify, Gpa(startOff), Gpa(endOff), expected), cpu);
      cpu := SetReg(cpu, 4, 0);
      cpu := SetReg(cpu, 5, expected);
      t := RunPass(Verify, startOff, endOff, Pass(Verify, Gpa(startOff), Gpa(endOff), expected));
      bad := Reg(cpu, 4);
    }

    // One entry of the vCPU in a hammer run that began on cpu0 and mem0 and has seen t0.
    method EnterHammer(ghost p: Pass, ghost cpu0: Cpu, ghost mem0: Memory, ghost t0: seq<Event>)
      returns (exit: GuestExit, ghost t: seq<Event>)
      requires Runnable(p) && p.kind == Sweep
      requires State() == Exec(World(), Machine(ArmHammer(p, cpu0), mem0), t0)
      requires Laps(World(), Machine(ArmHammer(p, cpu0), mem0), t0) < TWO64 - 1
      modifies this`cpu, this`mem
      ensures var start := Machine(ArmHammer(p, cpu0), mem0);
        State() == Exec(World(), start, t) && Laps(World(), start, t) == Laps(World(), start, t0)
      ensures exit == Canceled || exit == Doorbell
      ensures exit == Canceled ==> 0 <= Rank(p, EndOf(p), cpu) < Rank(p, EndOf(p), old(cpu))
      ensures exit == Doorbell ==>
        && AtBell(Sweep, cpu) && Step(World(), cpu, mem) == DataAbort(DOORBELL_GPA)
        && cpu.x[4] == Laps(World(), Machine(ArmHammer(p, cpu0), mem0), t0) + 1
    {
      hide Step;
      hide Rank;
      exit, t := RunToDoorbell();
      HammerEntry(World(), p, cpu0, mem0, t0, t);
      t := t0 + t;
    }

    // Data aborts do not advance pc, so the host steps past the doorbell store by hand.
    method StepPastDoorbell(ghost p: Pass, ghost cpu0: Cpu, ghost mem0: Memory, ghost t0: seq<Event>)
      requires Runnable(p) && p.kind == Sweep
      requires var start := Machine(ArmHammer(p, cpu0), mem0);
        State() == Exec(World(), start, t0) && Laps(World(), start, t0) < TWO64 - 2
      requires Step(World(), cpu, mem) == DataAbort(DOORBELL_GPA)
      modifies this`cpu
      ensures var start := Machine(ArmHammer(p, cpu0), mem0);
        && State() == Exec(World(), start, t0 + [Resume])
        && Laps(World(), start, t0 + [Resume]) == Laps(World(), start, t0) + 1
      ensures 0 <= Rank(p, EndOf(p), cpu)
    {
      hide Step;
      hide ArmHammer;
      HammerResumed(World(), p, cpu0, mem0, t0);
      var pc := cpu.pc;
      cpu := cpu.(pc := Wrap(pc as int + 4));
    }

    // Sweeps until the closure no longer answers "continue". `hs` is the record of the session
    // the closure goes through meanwhile; `reported` lists the sweep counts it was called with.
    method RunHammer(ramSize: nat, k: KeepGoing, hs: seq<Happening>)
      returns (sweeps: Word, answer: Answer, ghost reported: seq<Word>, ghost t: seq<Event>)
      requires Gpa(ramSize) < TWO64 && Runnable(Pass(Sweep, RAM_GPA, Gpa(ramSize), 0))
      requires k.Captured() == FRESH.s && Finished(hs) && |hs| < TWO64 - 1
      modifies this`cpu, this`mem, k
      ensures sweeps == CallsIn(hs) && sweeps >= 1
      ensures answer == After(hs).last != Continue && k.Captured() == After(hs).s
      ensures |reported| == sweeps && forall i :: 0 <= i < sweeps ==> reported[i] == i + 1
      ensures var p := Pass(Sweep, RAM_GPA, Gpa(ramSize), 0);
        var start := Machine(ArmHammer(p, old(cpu)), old(mem));
        State() == Exec(World(), start, t) && AtBell(Sweep, cpu) && cpu.x[4] == sweeps
    {
      hide Step;
      ghost var p := Pass(Sweep, RAM_GPA, Gpa(ramSize), 0);
      ghost var cpu0 := cpu;
      cpu := cpu.(pc := Entry(Sweep));
      cpu := SetReg(cpu, 2, Gpa(ramSize));
      cpu := SetReg(cpu, 3, DOORBELL_GPA);
      cpu := SetReg(cpu, 4, 0);
      cpu := SetReg(cpu, 6, RAM_GPA);
      assert cpu == ArmHammer(p, cpu0);
      ghost var start := State();
      t, reported, sweeps, answer := [], [], 0, Continue;
      var i, chan := 0, Silent;
      while answer == Continue
        invariant State() == Exec(World(), start, t)
        invariant i <= |hs| && Session?(hs[..i]) && sweeps == CallsIn(hs[..i])
        invariant Standing(After(hs[..i]), k.Captured(), chan, answer)
        invariant |reported| == sweeps && forall j :: 0 <= j < sweeps ==> reported[j] == j + 1
        invariant Laps(World(), start, t) == sweeps - (if answer == Continue then 0 else 1)
        invariant answer != Continue ==> i == |hs| && AtBell(Sweep, cpu) && cpu.x[4] == sweeps
        decreases |hs| - i, Rank(p, EndOf(p), cpu)
      {
        ghost var before, at := t, i;
        CallsInBound(hs[..i]);
        var exit;
        exit, t := EnterHammer(p, cpu0, start.mem, before);
        if exit == Doorbell {
          sweeps := Reg(cpu, 4);
          reported := reported + [sweeps];
          answer, chan, i := k.Next(hs, i, chan);
          if answer == Continue {
            CallsInBound(hs[..i]);
            StepPastDoorbell(p, cpu0, start.mem, t);
            t := t + [Resume];
          }
        }
      }
      assert hs[..|hs|] == hs;
    }
  }
}
