// A pass: one guest program run over a range of pages. The machine-level run of a pass is
// shown to refine a cursor that moves page by page, whatever the registers held before.

module Passes {
  import opened Words
  import opened Arm64
  import opened GuestCode

  // The range is given by guest physical addresses; `val` is the stamp of Fill and the
  // expected value of Verify.
  datatype Pass = Pass(kind: Kind, lo: Word, hi: Word, val: Word)

  // All five programs test the bound after the access, so the first page is always taken.
  // The range really covered, rounded up to whole pages, ends here.
  function EndOf(p: Pass): int {
    if p.hi <= p.lo then p.lo + PAGE else PageOf(p.hi + PAGE - 1) * PAGE
  }

  predicate Valid(p: Pass) {
    Aligned(p.lo) && EndOf(p) < TWO64
  }

  // The same end, said without division.
  predicate EndsAt(p: Pass, e: int) {
    && Aligned(p.lo) && Aligned(e) && p.lo + PAGE <= e < TWO64
    && (if p.hi <= p.lo then e == p.lo + PAGE else e - PAGE < p.hi <= e)
  }

  lemma EndOfEnds(p: Pass)
    requires Valid(p)
    ensures EndsAt(p, EndOf(p))
  {
  }

  ghost predicate Granted(p: Pass, e: int, mapped: set<int>) {
    && (forall a :: OnGrid(p.lo, e, a) ==> PageOf(a) in mapped)
    && PageOf(DOORBELL_GPA) !in mapped
  }

  // The registers the host sets before it enters the guest. Everything else is left over
  // from earlier passes.
  function Arm(p: Pass, cpu: Cpu): Cpu {
    var c := cpu.(pc := Entry(p.kind),
                  x := cpu.x[1 := p.lo][2 := p.hi][3 := DOORBELL_GPA]);
    match p.kind
    case Sweep => SetReg(c, 6, p.lo)
    case Fill => SetReg(c, 5, p.val)
    case Verify => SetReg(SetReg(c, 4, 0), 5, p.val)
    case _ => c
  }

  // ---- The page cursor ----

  // `cursor` is the next page to be accessed. `held` is the value an increment has loaded
  // and not stored back yet; `bad` counts the mismatches a Verify has seen.
  datatype View = View(cursor: int, held: Option<Word>, bad: int)

  // One visible action of a pass.
  function Next(p: Pass, v: View, mem: Memory): (View, Memory) {
    var a := v.cursor;
    match p.kind
    case Touch => (v.(cursor := a + PAGE), Write(mem, a, Wrap(a)))
    case Fill => (v.(cursor := a + PAGE), Write(mem, a, p.val))
    case ReadOnly => (v.(cursor := a + PAGE), mem)
    case Verify =>
      (v.(cursor := a + PAGE, bad := v.bad + if Read(mem, a) != p.val then 1 else 0), mem)
    case Sweep =>
      match v.held
      case None => (v.(held := Some(Read(mem, a))), mem)
      case Some(w) => (v.(cursor := a + PAGE, held := None), Write(mem, a, Wrap(w + 1)))
  }

  // ---- Where the machine is ----

  function IndexOf(k: Kind, cpu: Cpu): int {
    (cpu.pc - Entry(k)) / 4
  }

  // Index of the `add x1, x1, #4, lsl #12` and of the doorbell store.
  function AddIndex(k: Kind): nat {
    match k
    case Sweep => 4
    case Verify => 4
    case _ => 1
  }

  function BellIndex(k: Kind): nat {
    match k
    case Sweep => 8
    case Verify => 7
    case _ => 4
  }

  predicate AtBell(k: Kind, cpu: Cpu) {
    cpu.pc == Entry(k) + 4 * BellIndex(k)
  }

  function ViewOf(p: Pass, cpu: Cpu): View {
    var i := IndexOf(p.kind, cpu);
    var x1 := cpu.x[1];
    var cursor :=
      if p.kind == Sweep && (i == 0 || i == 9) then p.lo
      else if i == AddIndex(p.kind) then x1 + PAGE
      else if p.kind == Verify && 1 <= i <= 3 then x1 + PAGE
      else x1;
    var held :=
      if p.kind != Sweep then None
      else if i == 2 then Some(cpu.x[5])
      else if i == 3 then Some(Wrap(cpu.x[5] as int - 1))
      else None;
    var bad :=
      if p.kind != Verify then 0
      else if i == 1 then cpu.x[4] as int + (if cpu.x[6] != p.val then 1 else 0)
      else if i == 2 then cpu.x[4] as int + (if cpu.flags.z then 0 else 1)
      else if i == 3 then cpu.x[4] as int + 1
      else cpu.x[4] as int;
    View(cursor, held, bad)
  }

  // The control invariant of a pass that ends at e.
  predicate Ctl(p: Pass, e: int, cpu: Cpu) {
    var i, x1 := IndexOf(p.kind, cpu), cpu.x[1];
    var add, bell := AddIndex(p.kind), BellIndex(p.kind);
    && cpu.pc == Entry(p.kind) + 4 * i
    && (0 <= i <= bell || (p.kind == Sweep && i == 9))
    && cpu.x[2] == p.hi && cpu.x[3] == DOORBELL_GPA
    && (p.kind == Sweep ==> cpu.x[6] == p.lo)
    && (p.kind == Fill || p.kind == Verify ==> cpu.x[5] == p.val)
    && (p.kind == Verify ==> 16384 * ViewOf(p, cpu).bad <= ViewOf(p, cpu).cursor - p.lo)
    && (!(p.kind == Sweep && (i == 0 || i == 9)) ==>
          && Aligned(x1)
          && (i <= add ==> p.lo <= x1 < e)
          && (add < i ==> p.lo < x1 <= e)
          && (i == add + 2 ==> cpu.flags.c == (x1 >= e))
          && (add + 2 < i ==> x1 == e))
  }

  // An upper bound on the instructions left before the doorbell.
  function Rank(p: Pass, e: int, cpu: Cpu): int {
    var i, x1 := IndexOf(p.kind, cpu), cpu.x[1];
    if p.kind == Sweep && (i == 0 || i == 9) then 16 * PageOf(e - p.lo) + (if i == 0 then 1 else 2)
    else 16 * PageOf(e - x1) + if i <= AddIndex(p.kind) then -i else 15 - i
  }

  // Does the next instruction make a visible action (the rest only move registers)?
  predicate Acts(p: Pass, cpu: Cpu) {
    var i := IndexOf(p.kind, cpu);
    if p.kind == Sweep then i == 1 || i == 3 else i == 0
  }

  // What x4 said when the current sweep began.
  function SweepsBefore(cpu: Cpu): int {
    if AtBell(Sweep, cpu) then cpu.x[4] as int - 1 else cpu.x[4] as int
  }

  // The machine agrees with the cursor: at the doorbell it stops there and nowhere else
  // faults; any other instruction retires, keeps the invariant and comes closer to the
  // doorbell, and is either one visible action or invisible.
  predicate Refines(o: Outcome, p: Pass, e: int, cpu: Cpu, mem: Memory) {
    if AtBell(p.kind, cpu) then o == DataAbort(DOORBELL_GPA)
    else
      && o.Retired? && Ctl(p, e, o.cpu) && 0 <= Rank(p, e, o.cpu) < Rank(p, e, cpu)
      && (p.kind == Sweep && cpu.x[4] < TWO64 - 1 ==> SweepsBefore(o.cpu) == SweepsBefore(cpu))
      && (ViewOf(p, o.cpu), o.mem) ==
         if Acts(p, cpu) then Next(p, ViewOf(p, cpu), mem) else (ViewOf(p, cpu), mem)
  }

  ghost predicate Ready(p: Pass, e: int, cpu: Cpu, mapped: set<int>) {
    EndsAt(p, e) && Granted(p, e, mapped) && Ctl(p, e, cpu)
  }

  // Index of the first instruction of the page loop.
  function LoopIndex(k: Kind): nat {
    if k == Sweep then 1 else 0
  }

  lemma IndexAfter(k: Kind, cpu: Cpu, i: nat, d: int)
    requires cpu.pc == Entry(k) + 4 * i && 0 <= i + d <= 10 && i <= 10
    ensures IndexOf(k, cpu) == i
    ensures Advance(cpu, 4 * d).pc == Entry(k) + 4 * (i + d)
    ensures IndexOf(k, Advance(cpu, 4 * d)) == i + d
  {
  }

  lemma NextPageFacts(a: int, e: int)
    requires Aligned(a) && Aligned(e) && 0 <= a < e < TWO64
    ensures a + PAGE <= e && Wrap(a + PAGE) == a + PAGE && Aligned(a + PAGE)
    ensures PageOf(e - (a + PAGE)) == PageOf(e - a) - 1 >= 0
  {
  }

  lemma NextPageStep(p: Pass, e: int, cpu: Cpu, mem: Memory, mapped: set<int>)
    requires Ready(p, e, cpu, mapped) && IndexOf(p.kind, cpu) == AddIndex(p.kind)
    ensures Refines(Execute(NEXT_PAGE, cpu, mem, mapped), p, e, cpu, mem)
  {
    var i := AddIndex(p.kind);
    IndexAfter(p.kind, cpu, i, 1);
    NextPageFacts(cpu.x[1], e);
    var o := Execute(NEXT_PAGE, cpu, mem, mapped);
    assert o.Retired? && o.cpu.x == cpu.x[1 := cpu.x[1] + PAGE] && IndexOf(p.kind, o.cpu) == i + 1;
  }

  lemma CompareEndStep(p: Pass, e: int, cpu: Cpu, mem: Memory, mapped: set<int>)
    requires Ready(p, e, cpu, mapped) && IndexOf(p.kind, cpu) == AddIndex(p.kind) + 1
    ensures Refines(Execute(CMP_END, cpu, mem, mapped), p, e, cpu, mem)
  {
    var i := AddIndex(p.kind) + 1;
    IndexAfter(p.kind, cpu, i, 1);
    UnsignedCompare(cpu.x[1], cpu.x[2]);
    var o := Execute(CMP_END, cpu, mem, mapped);
    assert o.Retired? && o.cpu.x == cpu.x && IndexOf(p.kind, o.cpu) == i + 1;
  }

  lemma LoopStep(p: Pass, e: int, cpu: Cpu, mem: Memory, mapped: set<int>)
    requires Ready(p, e, cpu, mapped) && IndexOf(p.kind, cpu) == AddIndex(p.kind) + 2
    ensures Refines(Execute(BCond(LO, LoopIndex(p.kind) - AddIndex(p.kind) - 2), cpu, mem, mapped), p, e, cpu, mem)
  {
    var i := AddIndex(p.kind) + 2;
    IndexAfter(p.kind, cpu, i, 1);
    IndexAfter(p.kind, cpu, i, LoopIndex(p.kind) - i);
  }

  lemma BellStep(p: Pass, e: int, cpu: Cpu, mem: Memory, mapped: set<int>, rt: nat)
    requires Ready(p, e, cpu, mapped) && IndexOf(p.kind, cpu) == BellIndex(p.kind) && rt < 32
    ensures Refines(Execute(Str(rt, 3, 0), cpu, mem, mapped), p, e, cpu, mem)
  {
  }

  lemma AlignedFacts(a: Word)
    requires Aligned(a)
    ensures Wrap(a) == a && a % 8 == 0
  {
  }

  // A load or store at the cursor hits a granted page.
  lemma AccessAt(cpu: Cpu, mem: Memory, mapped: set<int>, rt: nat)
    requires rt < 32 && Aligned(cpu.x[1]) && PageOf(cpu.x[1]) in mapped
    ensures Execute(Ldr(rt, 1, 0), cpu, mem, mapped)
         == Retired(Advance(SetReg(cpu, rt, Read(mem, cpu.x[1])), 4), mem)
    ensures Execute(Str(rt, 1, 0), cpu, mem, mapped)
         == Retired(Advance(cpu, 4), Write(mem, cpu.x[1], Reg(cpu, rt)))
  {
    AlignedFacts(cpu.x[1]);
  }

  // The access of the three programs that have one instruction per page.
  lemma TouchAccess(p: Pass, e: int, cpu: Cpu, mem: Memory, mapped: set<int>)
    requires Ready(p, e, cpu, mapped) && p.kind == Touch && IndexOf(Touch, cpu) == 0
    ensures Refines(Execute(Str(1, 1, 0), cpu, mem, mapped), p, e, cpu, mem)
  {
    IndexAfter(Touch, cpu, 0, 1);
    assert OnGrid(p.lo, e, cpu.x[1]);
    AccessAt(cpu, mem, mapped, 1);
  }

  lemma ReadAccess(p: Pass, e: int, cpu: Cpu, mem: Memory, mapped: set<int>)
    requires Ready(p, e, cpu, mapped) && p.kind == ReadOnly && IndexOf(ReadOnly, cpu) == 0
    ensures Refines(Execute(Ldr(5, 1, 0), cpu, mem, mapped), p, e, cpu, mem)
  {
    hide Wrap;
    IndexAfter(ReadOnly, cpu, 0, 1);
    assert OnGrid(p.lo, e, cpu.x[1]);
    AccessAt(cpu, mem, mapped, 5);
  }

  lemma FillAccess(p: Pass, e: int, cpu: Cpu, mem: Memory, mapped: set<int>)
    requires Ready(p, e, cpu, mapped) && p.kind == Fill && IndexOf(Fill, cpu) == 0
    ensures Refines(Execute(Str(5, 1, 0), cpu, mem, mapped), p, e, cpu, mem)
  {
    IndexAfter(Fill, cpu, 0, 1);
    assert OnGrid(p.lo, e, cpu.x[1]);
    AccessAt(cpu, mem, mapped, 5);
  }

  // mov x1, x6, and the hammer's b outer that leads back to it.
  lemma SweepStart(p: Pass, e: int, cpu: Cpu, mem: Memory, mapped: set<int>)
    requires Ready(p, e, cpu, mapped) && p.kind == Sweep
    ensures IndexOf(Sweep, cpu) == 0 ==> Refines(Execute(Orr(1, 31, 6), cpu, mem, mapped), p, e, cpu, mem)
    ensures IndexOf(Sweep, cpu) == 9 ==> Refines(Execute(Branch(-9), cpu, mem, mapped), p, e, cpu, mem)
  {
    hide Read;
  }

  lemma SweepLoad(p: Pass, e: int, cpu: Cpu, mem: Memory, mapped: set<int>)
    requires Ready(p, e, cpu, mapped) && p.kind == Sweep && IndexOf(Sweep, cpu) == 1
    ensures Refines(Execute(Ldr(5, 1, 0), cpu, mem, mapped), p, e, cpu, mem)
  {
    IndexAfter(Sweep, cpu, 1, 1);
    assert OnGrid(p.lo, e, cpu.x[1]);
    AccessAt(cpu, mem, mapped, 5);
  }

  lemma SweepIncrement(p: Pass, e: int, cpu: Cpu, mem: Memory, mapped: set<int>)
    requires Ready(p, e, cpu, mapped) && p.kind == Sweep && IndexOf(Sweep, cpu) == 2
    ensures Refines(Execute(AddImm(5, 5, 1, false), cpu, mem, mapped), p, e, cpu, mem)
  {
    IndexAfter(Sweep, cpu, 2, 1);
  }

  lemma SweepStore(p: Pass, e: int, cpu: Cpu, mem: Memory, mapped: set<int>)
    requires Ready(p, e, cpu, mapped) && p.kind == Sweep && IndexOf(Sweep, cpu) == 3
    ensures Refines(Execute(Str(5, 1, 0), cpu, mem, mapped), p, e, cpu, mem)
  {
    IndexAfter(Sweep, cpu, 3, 1);
    assert Wrap(Wrap(cpu.x[5] as int - 1) + 1) == cpu.x[5];
    assert OnGrid(p.lo, e, cpu.x[1]);
    AccessAt(cpu, mem, mapped, 5);
  }

  lemma SweepCount(p: Pass, e: int, cpu: Cpu, mem: Memory, mapped: set<int>)
    requires Ready(p, e, cpu, mapped) && p.kind == Sweep && IndexOf(Sweep, cpu) == 7
    ensures Refines(Execute(AddImm(4, 4, 1, false), cpu, mem, mapped), p, e, cpu, mem)
  {
    IndexAfter(Sweep, cpu, 7, 1);
  }

  lemma VerifyLoad(p: Pass, e: int, cpu: Cpu, mem: Memory, mapped: set<int>)
    requires Ready(p, e, cpu, mapped) && p.kind == Verify && IndexOf(Verify, cpu) == 0
    ensures Refines(Execute(Ldr(6, 1, 0), cpu, mem, mapped), p, e, cpu, mem)
  {
    hide Wrap;
    IndexAfter(Verify, cpu, 0, 1);
    assert OnGrid(p.lo, e, cpu.x[1]);
    AccessAt(cpu, mem, mapped, 6);
  }

  lemma VerifyCompare(p: Pass, e: int, cpu: Cpu, mem: Memory, mapped: set<int>)
    requires Ready(p, e, cpu, mapped) && p.kind == Verify && IndexOf(Verify, cpu) == 1
    ensures Refines(Execute(Subs(31, 6, 5), cpu, mem, mapped), p, e, cpu, mem)
  {
    IndexAfter(Verify, cpu, 1, 1);
    UnsignedCompare(cpu.x[6], cpu.x[5]);
  }

  lemma VerifyBranch(p: Pass, e: int, cpu: Cpu, mem: Memory, mapped: set<int>)
    requires Ready(p, e, cpu, mapped) && p.kind == Verify && IndexOf(Verify, cpu) == 2
    ensures Refines(Execute(BCond(EQ, 2), cpu, mem, mapped), p, e, cpu, mem)
  {
    hide Write;
    hide Read;
    IndexAfter(Verify, cpu, 2, 1);
    IndexAfter(Verify, cpu, 2, 2);
  }

  lemma VerifyCount(p: Pass, e: int, cpu: Cpu, mem: Memory, mapped: set<int>)
    requires Ready(p, e, cpu, mapped) && p.kind == Verify && IndexOf(Verify, cpu) == 3
    ensures Refines(Execute(AddImm(4, 4, 1, false), cpu, mem, mapped), p, e, cpu, mem)
  {
    assert Wrap(cpu.x[4] as int + 1) == cpu.x[4] + 1;
    IndexAfter(Verify, cpu, 3, 1);
  }

  lemma IndexInListing(p: Pass, e: int, cpu: Cpu)
    requires Ctl(p, e, cpu)
    ensures 0 <= IndexOf(p.kind, cpu) < |Listing(p.kind)|
  {
  }

  // What one instruction of a pass does, whichever of the five programs it belongs to.
  lemma StepRefines(env: Env, p: Pass, e: int, cpu: Cpu, mem: Memory)
    requires Loaded(env.code) && Ready(p, e, cpu, env.mapped)
    ensures Refines(Step(env, cpu, mem), p, e, cpu, mem)
  {
    hide Read;
    hide Aligned;
    hide Write;
    var i, add := IndexOf(p.kind, cpu), AddIndex(p.kind);
    IndexInListing(p, e, cpu);
    StepAt(env, p.kind, i, cpu, mem);
    var insn := Listing(p.kind)[i];
    if i == add {
      assert insn == NEXT_PAGE;
      NextPageStep(p, e, cpu, mem, env.mapped);
    } else if i == add + 1 {
      assert insn == CMP_END;
      CompareEndStep(p, e, cpu, mem, env.mapped);
    } else if i == add + 2 {
      assert insn == BCond(LO, LoopIndex(p.kind) - add - 2);
      LoopStep(p, e, cpu, mem, env.mapped);
    } else if i == BellIndex(p.kind) {
      assert insn == Str(4, 3, 0) || insn == Str(31, 3, 0);
      BellStep(p, e, cpu, mem, env.mapped, insn.rt);
    } else if p.kind == Sweep {
      SweepInstruction(p, e, cpu, mem, env.mapped);
    } else if p.kind == Verify {
      VerifyInstruction(p, e, cpu, mem, env.mapped);
    } else {
      assert i == 0;
      match p.kind
      case Touch => TouchAccess(p, e, cpu, mem, env.mapped);
      case ReadOnly => ReadAccess(p, e, cpu, mem, env.mapped);
      case Fill => FillAccess(p, e, cpu, mem, env.mapped);
    }
  }

  lemma SweepInstruction(p: Pass, e: int, cpu: Cpu, mem: Memory, mapped: set<int>)
    requires Ready(p, e, cpu, mapped) && p.kind == Sweep && IndexOf(Sweep, cpu) in {0, 1, 2, 3, 7, 9}
    requires |Listing(Sweep)| == 10 && Encodable(Listing(Sweep)[IndexOf(Sweep, cpu)])
    ensures Refines(Execute(Listing(Sweep)[IndexOf(Sweep, cpu)], cpu, mem, mapped), p, e, cpu, mem)
  {
    hide Refines;
    hide Execute;
    var i := IndexOf(Sweep, cpu);
    if i == 1 { SweepLoad(p, e, cpu, mem, mapped); }
    else if i == 2 { SweepIncrement(p, e, cpu, mem, mapped); }
    else if i == 3 { SweepStore(p, e, cpu, mem, mapped); }
    else if i == 7 { SweepCount(p, e, cpu, mem, mapped); }
    else { SweepStart(p, e, cpu, mem, mapped); }
  }

  lemma VerifyInstruction(p: Pass, e: int, cpu: Cpu, mem: Memory, mapped: set<int>)
    requires Ready(p, e, cpu, mapped) && p.kind == Verify && IndexOf(Verify, cpu) in {0, 1, 2, 3}
    requires |Listing(Verify)| == 10 && Encodable(Listing(Verify)[IndexOf(Verify, cpu)])
    ensures Refines(Execute(Listing(Verify)[IndexOf(Verify, cpu)], cpu, mem, mapped), p, e, cpu, mem)
  {
    hide Refines;
    hide Execute;
    var i := IndexOf(Verify, cpu);
    if i == 0 { VerifyLoad(p, e, cpu, mem, mapped); }
    else if i == 1 { VerifyCompare(p, e, cpu, mem, mapped); }
    else if i == 2 { VerifyBranch(p, e, cpu, mem, mapped); }
    else { VerifyCount(p, e, cpu, mem, mapped); }
  }

  // Arming starts the cursor at the low end, whatever the registers held.
  lemma ArmStarts(p: Pass, e: int, cpu: Cpu)
    requires EndsAt(p, e)
    ensures Ctl(p, e, Arm(p, cpu)) && ViewOf(p, Arm(p, cpu)) == View(p.lo, None, 0)
  {
  }
}
