// The five hand-assembled guest programs and the code page they are laid down in.

module GuestCode {
  import opened Words
  import opened Arm64

  // `Sweep` is the HAMMER program: one pass of it increments every page once.
  datatype Kind = Touch | Sweep | ReadOnly | Verify | Fill

  const TOUCH_CODE: seq<Word32> :=
    [0xF900_0021, 0x9140_1021, 0xEB02_003F, 0x54FF_FFA3, 0xF900_007F, 0xD503_207F, 0x17FF_FFFF]

  const HAMMER_CODE: seq<Word32> :=
    [0xAA06_03E1, 0xF940_0025, 0x9100_04A5, 0xF900_0025, 0x9140_1021,
     0xEB02_003F, 0x54FF_FF63, 0x9100_0484, 0xF900_0064, 0x17FF_FFF7]

  const READ_CODE: seq<Word32> :=
    [0xF940_0025, 0x9140_1021, 0xEB02_003F, 0x54FF_FFA3, 0xF900_007F, 0xD503_207F, 0x17FF_FFFF]

  const VERIFY_CODE: seq<Word32> :=
    [0xF940_0026, 0xEB05_00DF, 0x5400_0040, 0x9100_0484, 0x9140_1021,
     0xEB02_003F, 0x54FF_FF43, 0xF900_0064, 0xD503_207F, 0x17FF_FFFF]

  const FILL_CODE: seq<Word32> :=
    [0xF900_0025, 0x9140_1021, 0xEB02_003F, 0x54FF_FFA3, 0xF900_007F, 0xD503_207F, 0x17FF_FFFF]

  function RawWords(k: Kind): seq<Word32> {
    match k
    case Touch => TOUCH_CODE
    case Sweep => HAMMER_CODE
    case ReadOnly => READ_CODE
    case Verify => VERIFY_CODE
    case Fill => FILL_CODE
  }

  // Byte offset of each program in the code page.
  function Offset(k: Kind): nat {
    match k
    case Touch => 0
    case Sweep => 0x80
    case ReadOnly => 0x100
    case Verify => 0x180
    case Fill => 0x200
  }

  function Entry(k: Kind): Word {
    CODE_GPA + Offset(k)
  }

  const NEXT_PAGE: Insn := AddImm(1, 1, 4, true)   // add x1, x1, #4, lsl #12
  const CMP_END: Insn := Subs(31, 1, 2)            // cmp x1, x2
  const RING: Insn := Str(31, 3, 0)                // str xzr, [x3]
  const RING_X4: Insn := Str(4, 3, 0)              // str x4, [x3]

  // The assembly listing that accompanies each array of raw words.
  function Listing(k: Kind): seq<Insn> {
    match k
    case Touch => [Str(1, 1, 0), NEXT_PAGE, CMP_END, BCond(LO, -3), RING, Wfi, Branch(-1)]
    case Sweep =>
      [Orr(1, 31, 6), Ldr(5, 1, 0), AddImm(5, 5, 1, false), Str(5, 1, 0), NEXT_PAGE,
       CMP_END, BCond(LO, -5), AddImm(4, 4, 1, false), RING_X4, Branch(-9)]
    case ReadOnly => [Ldr(5, 1, 0), NEXT_PAGE, CMP_END, BCond(LO, -3), RING, Wfi, Branch(-1)]
    case Verify =>
      [Ldr(6, 1, 0), Subs(31, 6, 5), BCond(EQ, 2), AddImm(4, 4, 1, false), NEXT_PAGE,
       CMP_END, BCond(LO, -6), RING_X4, Wfi, Branch(-1)]
    case Fill => [Str(5, 1, 0), NEXT_PAGE, CMP_END, BCond(LO, -3), RING, Wfi, Branch(-1)]
  }

  // Assembling the listing gives the raw words, so decoding the raw words gives the listing.
  lemma Assembled(k: Kind, i: nat)
    requires i < |Listing(k)|
    ensures |RawWords(k)| == |Listing(k)| && Encodable(Listing(k)[i])
    ensures RawWords(k)[i] == Encode(Listing(k)[i])
    ensures Decode(RawWords(k)[i]) == Some(Listing(k)[i])
  {
    match k {
      case Touch => AssembledTouch(i);
      case Sweep => AssembledSweep(i);
      case ReadOnly => AssembledReadOnly(i);
      case Verify => AssembledVerify(i);
      case Fill => AssembledFill(i);
    }
    DecodeEncode(Listing(k)[i]);
  }

  lemma AssembledTouch(i: nat)
    requires i < 7
    ensures |RawWords(Touch)| == |Listing(Touch)| == 7 && Encodable(Listing(Touch)[i])
    ensures RawWords(Touch)[i] == Encode(Listing(Touch)[i])
  {
    var l, w := Listing(Touch), RawWords(Touch);
    assert Encodable(l[0]) && w[0] == Encode(l[0]);
    assert Encodable(l[1]) && w[1] == Encode(l[1]);
    assert Encodable(l[2]) && w[2] == Encode(l[2]);
    assert Encodable(l[3]) && w[3] == Encode(l[3]);
    assert Encodable(l[4]) && w[4] == Encode(l[4]);
    assert Encodable(l[5]) && w[5] == Encode(l[5]);
    assert Encodable(l[6]) && w[6] == Encode(l[6]);
  }

  lemma AssembledSweepFrom(i: nat)
    requires 5 <= i < 10
    ensures |RawWords(Sweep)| == |Listing(Sweep)| == 10 && Encodable(Listing(Sweep)[i])
    ensures RawWords(Sweep)[i] == Encode(Listing(Sweep)[i])
  {
    var l, w := Listing(Sweep), RawWords(Sweep);
    assert Encodable(l[5]) && w[5] == Encode(l[5]);
    assert Encodable(l[6]) && w[6] == Encode(l[6]);
    assert Encodable(l[7]) && w[7] == Encode(l[7]);
    assert Encodable(l[8]) && w[8] == Encode(l[8]);
    assert Encodable(l[9]) && w[9] == Encode(l[9]);
  }

  lemma AssembledSweep(i: nat)
    requires i < 10
    ensures |RawWords(Sweep)| == |Listing(Sweep)| == 10 && Encodable(Listing(Sweep)[i])
    ensures RawWords(Sweep)[i] == Encode(Listing(Sweep)[i])
  {
    var l, w := Listing(Sweep), RawWords(Sweep);
    if i >= 5 {
      AssembledSweepFrom(i);
    } else {
      assert Encodable(l[0]) && w[0] == Encode(l[0]);
      assert Encodable(l[1]) && w[1] == Encode(l[1]);
      assert Encodable(l[2]) && w[2] == Encode(l[2]);
      assert Encodable(l[3]) && w[3] == Encode(l[3]);
      assert Encodable(l[4]) && w[4] == Encode(l[4]);
    }
  }

  lemma AssembledReadOnly(i: nat)
    requires i < 7
    ensures |RawWords(ReadOnly)| == |Listing(ReadOnly)| == 7 && Encodable(Listing(ReadOnly)[i])
    ensures RawWords(ReadOnly)[i] == Encode(Listing(ReadOnly)[i])
  {
    var l, w := Listing(ReadOnly), RawWords(ReadOnly);
    assert Encodable(l[0]) && w[0] == Encode(l[0]);
    assert Encodable(l[1]) && w[1] == Encode(l[1]);
    assert Encodable(l[2]) && w[2] == Encode(l[2]);
    assert Encodable(l[3]) && w[3] == Encode(l[3]);
    assert Encodable(l[4]) && w[4] == Encode(l[4]);
    assert Encodable(l[5]) && w[5] == Encode(l[5]);
    assert Encodable(l[6]) && w[6] == Encode(l[6]);
  }

  lemma AssembledVerifyFrom(i: nat)
    requires 5 <= i < 10
    ensures |RawWords(Verify)| == |Listing(Verify)| == 10 && Encodable(Listing(Verify)[i])
    ensures RawWords(Verify)[i] == Encode(Listing(Verify)[i])
  {
    var l, w := Listing(Verify), RawWords(Verify);
    assert Encodable(l[5]) && w[5] == Encode(l[5]);
    assert Encodable(l[6]) && w[6] == Encode(l[6]);
    assert Encodable(l[7]) && w[7] == Encode(l[7]);
    assert Encodable(l[8]) && w[8] == Encode(l[8]);
    assert Encodable(l[9]) && w[9] == Encode(l[9]);
  }

  lemma AssembledVerify(i: nat)
    requires i < 10
    ensures |RawWords(Verify)| == |Listing(Verify)| == 10 && Encodable(Listing(Verify)[i])
    ensures RawWords(Verify)[i] == Encode(Listing(Verify)[i])
  {
    var l, w := Listing(Verify), RawWords(Verify);
    if i >= 5 {
      AssembledVerifyFrom(i);
    } else {
      assert Encodable(l[0]) && w[0] == Encode(l[0]);
      assert Encodable(l[1]) && w[1] == Encode(l[1]);
      assert Encodable(l[2]) && w[2] == Encode(l[2]);
      assert Encodable(l[3]) && w[3] == Encode(l[3]);
      assert Encodable(l[4]) && w[4] == Encode(l[4]);
    }
  }

  lemma AssembledFill(i: nat)
    requires i < 7
    ensures |RawWords(Fill)| == |Listing(Fill)| == 7 && Encodable(Listing(Fill)[i])
    ensures RawWords(Fill)[i] == Encode(Listing(Fill)[i])
  {
    var l, w := Listing(Fill), RawWords(Fill);
    assert Encodable(l[0]) && w[0] == Encode(l[0]);
    assert Encodable(l[1]) && w[1] == Encode(l[1]);
    assert Encodable(l[2]) && w[2] == Encode(l[2]);
    assert Encodable(l[3]) && w[3] == Encode(l[3]);
    assert Encodable(l[4]) && w[4] == Encode(l[4]);
    assert Encodable(l[5]) && w[5] == Encode(l[5]);
    assert Encodable(l[6]) && w[6] == Encode(l[6]);
  }

  // ---- The code page ----

  // Number of instruction words in the page.
  const SLOTS: nat := 4096

  predicate Holds(code: seq<Word32>, k: Kind) {
    var base := Offset(k) / 4;
    base + |RawWords(k)| <= |code| && code[base..base + |RawWords(k)|] == RawWords(k)
  }

  predicate Loaded(code: seq<Word32>) {
    |code| == SLOTS && forall k :: Holds(code, k)
  }

  // Does word i of the page belong to one of the programs?
  predicate InProgram(i: nat) {
    exists k :: Offset(k) / 4 <= i < Offset(k) / 4 + |RawWords(k)|
  }

  // Laying the programs down one after the other leaves all five intact and the rest of
  // the page as it was.
  method WriteCodePage(code: array<Word32>)
    requires code.Length == SLOTS
    modifies code
    ensures Loaded(code[..])
    ensures forall i :: 0 <= i < SLOTS && !InProgram(i) ==> code[i] == old(code[i])
  {
    WriteProgram(code, Touch);
    WriteProgram(code, Sweep);
    WriteProgram(code, ReadOnly);
    WriteProgram(code, Verify);
    WriteProgram(code, Fill);
    forall k ensures Holds(code[..], k) {
      match k
      case Touch => case Sweep => case ReadOnly => case Verify => case Fill =>
    }
  }

  method WriteProgram(code: array<Word32>, k: Kind)
    requires code.Length == SLOTS
    modifies code
    ensures Holds(code[..], k)
    ensures forall i :: 0 <= i < Offset(k) / 4 ==> code[i] == old(code[i])
    ensures forall i :: Offset(k) / 4 + |RawWords(k)| <= i < SLOTS ==> code[i] == old(code[i])
  {
    var program := RawWords(k);
    var base := Offset(k) / 4;
    for i := 0 to |program|
      invariant forall j :: 0 <= j < i ==> code[base + j] == program[j]
      invariant forall j :: 0 <= j < base || base + |program| <= j < SLOTS ==> code[j] == old(code[j])
    {
      code[base + i] := program[i];
    }
    assert code[..][base..base + |program|] == program;
  }

  // What a vCPU fetches at instruction i of program k.
  lemma FetchAt(code: seq<Word32>, k: Kind, i: nat)
    requires Holds(code, k) && i < |RawWords(k)|
    ensures Fetch(code, Entry(k) + 4 * i) == Some(RawWords(k)[i])
  {
    var base := Offset(k) / 4;
    assert code[base..base + |RawWords(k)|][i] == code[base + i];
    assert Offset(k) == 4 * base;
  }

  lemma StepDecoded(env: Env, cpu: Cpu, mem: Memory, w: Word32, insn: Insn)
    requires Fetch(env.code, cpu.pc) == Some(w) && Decode(w) == Some(insn)
    ensures Encodable(insn) && Step(env, cpu, mem) == Execute(insn, cpu, mem, env.mapped)
  {
    EncodeDecode(w);
  }

  lemma FetchOf(code: seq<Word32>, k: Kind, i: nat, pc: Word)
    requires Loaded(code) && i < |Listing(k)| && pc == Entry(k) + 4 * i
    ensures |RawWords(k)| == |Listing(k)| && Fetch(code, pc) == Some(RawWords(k)[i])
  {
    assert Holds(code, k);
    FetchAt(code, k, i);
  }

  // A vCPU whose pc is at instruction i of program k executes the listing's instruction i.
  lemma StepAt(env: Env, k: Kind, i: nat, cpu: Cpu, mem: Memory)
    requires Loaded(env.code) && i < |Listing(k)| && cpu.pc == Entry(k) + 4 * i
    ensures Encodable(Listing(k)[i])
    ensures Step(env, cpu, mem) == Execute(Listing(k)[i], cpu, mem, env.mapped)
  {
    FetchOf(env.code, k, i, cpu.pc);
    Assembled(k, i);
    StepDecoded(env, cpu, mem, RawWords(k)[i], Listing(k)[i]);
  }
}
