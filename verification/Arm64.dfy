// The slice of AArch64 that the guest programs use: instruction encoding
// (Arm Architecture Reference Manual, DDI 0487, section C4.1), and the effect of one
// instruction on a vCPU behind a stage-2 table (section C6.2).

module Arm64 {
  import opened Words

  // Register operands 0..30 name X0..X30. Operand 31 is XZR where the manual reads it as
  // the zero register; encodings in which it names SP are outside the slice.
  datatype Insn =
    | Ldr(rt: nat, rn: nat, imm12: nat)              // ldr Xt, [Xn, #imm12*8]
    | Str(rt: nat, rn: nat, imm12: nat)              // str Xt, [Xn, #imm12*8]
    | AddImm(rd: nat, rn: nat, imm12: nat, lsl12: bool)
    | Subs(rd: nat, rn: nat, rm: nat)                // subs Xd, Xn, Xm (cmp when rd is 31)
    | Orr(rd: nat, rn: nat, rm: nat)                 // orr Xd, Xn, Xm (mov when rn is 31)
    | BCond(cond: nat, offset: int)                  // offset in instructions
    | Branch(offset: int)
    | Wfi

  const EQ := 0
  const LO := 3

  predicate Encodable(i: Insn) {
    match i
    case Ldr(rt, rn, imm) => rt < 32 && rn < 31 && imm < 4096
    case Str(rt, rn, imm) => rt < 32 && rn < 31 && imm < 4096
    case AddImm(rd, rn, imm, _) => rd < 31 && rn < 31 && imm < 4096
    case Subs(rd, rn, rm) => rd < 32 && rn < 32 && rm < 32
    case Orr(rd, rn, rm) => rd < 32 && rn < 32 && rm < 32
    case BCond(cond, off) => cond < 16 && -0x4_0000 <= off < 0x4_0000
    case Branch(off) => -0x200_0000 <= off < 0x200_0000
    case Wfi => true
  }

  // The low `size` values of a two's complement field.
  function Unsigned(v: int, size: nat): int {
    if v < 0 then v + size else v
  }

  function Signed(v: int, size: nat): int {
    if 2 * v >= size then v - size else v
  }

  function Encode(i: Insn): Word32
    requires Encodable(i)
  {
    match i
    case Ldr(rt, rn, imm) => 0xF940_0000 + imm * 1024 + rn * 32 + rt
    case Str(rt, rn, imm) => 0xF900_0000 + imm * 1024 + rn * 32 + rt
    case AddImm(rd, rn, imm, sh) =>
      0x9100_0000 + (if sh then 0x40_0000 else 0) + imm * 1024 + rn * 32 + rd
    case Subs(rd, rn, rm) => 0xEB00_0000 + rm * 0x1_0000 + rn * 32 + rd
    case Orr(rd, rn, rm) => 0xAA00_0000 + rm * 0x1_0000 + rn * 32 + rd
    case BCond(cond, off) => 0x5400_0000 + Unsigned(off, 0x8_0000) * 32 + cond
    case Branch(off) => 0x1400_0000 + Unsigned(off, 0x400_0000)
    case Wfi => 0xD503_207F
  }

  // The fields peel off from the low end: w / 32 is w >> 5, r is w >> 10, top is w >> 22.
  function Decode(w: Word32): Option<Insn> {
    var lo, q := w % 32, w / 32;
    var mid, r := q % 32, q / 32;
    var imm12, top := r % 4096, r / 4096;
    var rm, op := r / 64 % 32, r / 64 / 32;
    if w == 0xD503_207F then Some(Wfi)
    else if top == 0x3E5 then if mid == 31 then None else Some(Ldr(lo, mid, imm12))
    else if top == 0x3E4 then if mid == 31 then None else Some(Str(lo, mid, imm12))
    else if top / 2 == 0x122 then
      if mid == 31 || lo == 31 then None else Some(AddImm(lo, mid, imm12, top % 2 == 1))
    else if op == 0x758 && r % 64 == 0 then Some(Subs(lo, mid, rm))
    else if op == 0x550 && r % 64 == 0 then Some(Orr(lo, mid, rm))
    else if q / 0x8_0000 == 0x54 && lo < 16 then
      Some(BCond(lo, Signed(q % 0x8_0000, 0x8_0000)))
    else if w / 0x400_0000 == 5 then Some(Branch(Signed(w % 0x400_0000, 0x400_0000)))
    else None
  }

  lemma Multiple(size: int, d: int)
    requires 0 < size
    ensures d >= 1 ==> size * d >= size
    ensures d <= -1 ==> size * d <= -size
  {
  }

  lemma Split(high: int, low: int, size: int)
    requires 0 <= low < size && 0 <= high
    ensures (high * size + low) / size == high && (high * size + low) % size == low
  {
    var w := high * size + low;
    var d := w / size - high;
    assert w == size * (w / size) + w % size;
    assert size * d == size * (w / size) - size * high;
    Multiple(size, d);
  }

  // The field layout of the load/store and add-immediate classes, low field first.
  lemma Fields12(w: Word32, top: nat, imm: nat, mid: nat, lo: nat)
    requires imm < 4096 && mid < 32 && lo < 32
    requires w == top * 0x40_0000 + imm * 1024 + mid * 32 + lo
    ensures w % 32 == lo && w / 32 % 32 == mid
    ensures w / 32 / 32 == top * 4096 + imm
    ensures w / 32 / 32 % 4096 == imm && w / 32 / 32 / 4096 == top
  {
    Split((top * 4096 + imm) * 32 + mid, lo, 32);
    Split(top * 4096 + imm, mid, 32);
    Split(top, imm, 4096);
  }

  lemma DecodeRegister(i: Insn)
    requires Encodable(i) && (i.Subs? || i.Orr?)
    ensures Decode(Encode(i)) == Some(i)
  {
    var op := if i.Subs? then 0x758 else 0x550;
    var w := Encode(i);
    Fields12(w, op / 2, i.rm * 64, i.rn, i.rd);
    assert w / 32 / 32 == (op * 32 + i.rm) * 64;
    Split(op * 32 + i.rm, 0, 64);
    Split(op, i.rm, 32);
  }

  lemma DecodeBranch(i: Insn)
    requires Encodable(i) && (i.BCond? || i.Branch?)
    ensures Decode(Encode(i)) == Some(i)
  {
    var w := Encode(i);
    if i.BCond? {
      var field := Unsigned(i.offset, 0x8_0000);
      Split(0x54 * 0x8_0000 + field, i.cond, 32);
      Split(0x54, field, 0x8_0000);
      assert 0x150 <= w / 0x40_0000 < 0x154;
      assert w / 32 / 32 / 4096 == w / 0x40_0000;
      assert w / 32 / 32 / 64 / 32 == w / 0x20_0000;
    } else {
      var field := Unsigned(i.offset, 0x400_0000);
      Split(5, field, 0x400_0000);
      assert w / 32 / 32 / 4096 == w / 0x40_0000;
      assert w / 32 / 32 / 64 / 32 == w / 0x20_0000;
      assert w / 32 / 0x8_0000 == w / 0x100_0000;
    }
  }

  // Every instruction of the slice survives assembly and decoding.
  lemma DecodeEncode(i: Insn)
    requires Encodable(i)
    ensures Decode(Encode(i)) == Some(i)
  {
    var w := Encode(i);
    match i
    case Ldr(rt, rn, imm) => Fields12(w, 0x3E5, imm, rn, rt);
    case Str(rt, rn, imm) => Fields12(w, 0x3E4, imm, rn, rt);
    case AddImm(rd, rn, imm, sh) => Fields12(w, 0x244 + (if sh then 1 else 0), imm, rn, rd);
    case Subs(_, _, _) => DecodeRegister(i);
    case Orr(_, _, _) => DecodeRegister(i);
    case BCond(_, _) => DecodeBranch(i);
    case Branch(_) => DecodeBranch(i);
    case Wfi =>
  }

  // A word the decoder accepts is the encoding of what it was decoded to: no two words of
  // the slice mean the same instruction.
  lemma EncodeDecode(w: Word32)
    requires Decode(w).Some?
    ensures Encodable(Decode(w).value) && Encode(Decode(w).value) == w
  {
    var q := w / 32;
    var r := q / 32;
    assert w == 32 * q + w % 32 && q == 32 * r + q % 32;
    assert r == 4096 * (r / 4096) + r % 4096;
    assert r == 64 * (r / 64) + r % 64;
  }

  // ---- Execution ----

  type Regs = r: seq<Word> | |r| == 31 witness seq(31, _ => 0)

  datatype Flags = Flags(n: bool, z: bool, c: bool, v: bool)

  datatype Cpu = Cpu(x: Regs, pc: Word, flags: Flags)

  function Reg(cpu: Cpu, i: nat): Word
    requires i < 32
  {
    if i == 31 then 0 else cpu.x[i]
  }

  function SetReg(cpu: Cpu, i: nat, v: Word): Cpu
    requires i < 32
  {
    if i == 31 then cpu else cpu.(x := cpu.x[i := v])
  }

  function Advance(cpu: Cpu, bytes: int): Cpu {
    cpu.(pc := Wrap(cpu.pc + bytes))
  }

  const TWO63: int := 0x8000_0000_0000_0000

  function AsSigned(w: Word): int {
    Signed(w, TWO64)
  }

  // AddWithCarry(a, NOT(b), '1'), the subtraction with flags of SUBS.
  function Subtract(a: Word, b: Word): (Word, Flags) {
    var notB := TWO64 - 1 - b;
    var unsignedSum := a + notB + 1;
    var signedSum := AsSigned(a) + AsSigned(notB) + 1;
    var r := Wrap(unsignedSum);
    (r, Flags(r >= TWO63, r == 0, unsignedSum != r, signedSum != AsSigned(r)))
  }

  function ConditionHolds(cond: nat, f: Flags): bool
    requires cond < 16
  {
    var base :=
      match cond / 2
      case 0 => f.z
      case 1 => f.c
      case 2 => f.n
      case 3 => f.v
      case 4 => f.c && !f.z
      case 5 => f.n == f.v
      case 6 => f.n == f.v && !f.z
      case _ => true;
    if cond % 2 == 1 && cond != 15 then !base else base
  }

  // What the flags of a compare mean to each ordered condition: 0/1 equality, 2/3 and 8/9
  // the unsigned order, 10..13 the signed order.
  lemma CompareThenBranch(a: Word, b: Word)
    ensures var f := Subtract(a, b).1;
      && (ConditionHolds(EQ, f) <==> a == b) && (ConditionHolds(1, f) <==> a != b)
      && (ConditionHolds(2, f) <==> a >= b) && (ConditionHolds(LO, f) <==> a < b)
      && (ConditionHolds(8, f) <==> a > b) && (ConditionHolds(9, f) <==> a <= b)
      && (ConditionHolds(10, f) <==> AsSigned(a) >= AsSigned(b))
      && (ConditionHolds(11, f) <==> AsSigned(a) < AsSigned(b))
      && (ConditionHolds(12, f) <==> AsSigned(a) > AsSigned(b))
      && (ConditionHolds(13, f) <==> AsSigned(a) <= AsSigned(b))
  {
    var s := a + (TWO64 - 1 - b) + 1;
    assert Wrap(s) == if s >= TWO64 then s - TWO64 else s;
  }

  lemma UnsignedCompare(a: Word, b: Word)
    ensures Subtract(a, b).1.c == (a >= b) && Subtract(a, b).1.z == (a == b)
  {
    CompareThenBranch(a, b);
  }

  // The vCPU fetches from one executable page and accesses data through stage 2. `code` is
  // that page as instruction words, `mapped` the data pages the stage-2 table grants.
  datatype Env = Env(code: seq<Word32>, mapped: set<int>)

  const CODE_GPA: Word := 0x1000_0000
  const RAM_GPA: Word := 0x8000_0000
  const DOORBELL_GPA: Word := 0x0F00_0000

  function Fetch(code: seq<Word32>, pc: Word): Option<Word32> {
    var i := (pc - CODE_GPA) / 4;
    if pc % 4 == 0 && 0 <= i < |code| then Some(code[i]) else None
  }

  datatype Outcome =
    | Retired(cpu: Cpu, mem: Memory)
    | DataAbort(pa: int)        // stage-2 fault: nothing retires and pc stays put
    | AlignmentFault            // with the stage-1 MMU off, data accesses must be aligned
    | FetchFault
    | Undecoded

  function Access(mapped: set<int>, a: int): Option<Outcome> {
    if a % 8 != 0 then Some(AlignmentFault)
    else if PageOf(a) !in mapped then Some(DataAbort(a))
    else None
  }

  function Execute(i: Insn, cpu: Cpu, mem: Memory, mapped: set<int>): Outcome
    requires Encodable(i)
  {
    match i
    case Ldr(rt, rn, imm) =>
      var a := Wrap(Reg(cpu, rn) + imm * 8);
      (match Access(mapped, a)
       case Some(fault) => fault
       case None => Retired(Advance(SetReg(cpu, rt, Read(mem, a)), 4), mem))
    case Str(rt, rn, imm) =>
      var a := Wrap(Reg(cpu, rn) + imm * 8);
      (match Access(mapped, a)
       case Some(fault) => fault
       case None => Retired(Advance(cpu, 4), Write(mem, a, Reg(cpu, rt))))
    case AddImm(rd, rn, imm, sh) =>
      Retired(Advance(SetReg(cpu, rd, Wrap(Reg(cpu, rn) + if sh then imm * 4096 else imm)), 4), mem)
    case Subs(rd, rn, rm) =>
      var (r, f) := Subtract(Reg(cpu, rn), Reg(cpu, rm));
      Retired(Advance(SetReg(cpu, rd, r).(flags := f), 4), mem)
    case Orr(rd, rn, rm) =>
      Retired(Advance(SetReg(cpu, rd, OrWord(Reg(cpu, rn), Reg(cpu, rm))), 4), mem)
    case BCond(cond, off) =>
      Retired(Advance(cpu, if ConditionHolds(cond, cpu.flags) then off * 4 else 4), mem)
    case Branch(off) => Retired(Advance(cpu, off * 4), mem)
    case Wfi => Retired(Advance(cpu, 4), mem)
  }

  // One instruction: fetch, decode, execute.
  function Step(env: Env, cpu: Cpu, mem: Memory): Outcome {
    match Fetch(env.code, cpu.pc)
    case None => FetchFault
    case Some(w) =>
      match Decode(w)
      case None => Undecoded
      case Some(i) => EncodeDecode(w); Execute(i, cpu, mem, env.mapped)
  }
}
