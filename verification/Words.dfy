// Machine words, the host page size, and demand-zero memory.

module Words {
  const TWO32: int := 0x1_0000_0000
  const TWO64: int := 0x1_0000_0000_0000_0000

  // A 64-bit value held in a guest register or in an aligned doubleword of memory.
  type Word = x: int | 0 <= x < 0x1_0000_0000_0000_0000

  // A 32-bit value: one instruction word.
  type Word32 = x: int | 0 <= x < 0x1_0000_0000

  // The Apple Silicon host page, the stride of every guest program and survey.
  const PAGE: int := 16384

  // Arithmetic on a u64 or an X register wraps.
  function Wrap(x: int): Word {
    x % 0x1_0000_0000_0000_0000
  }

  lemma Unwraps(x: int)
    requires 0 <= x < TWO64
    ensures Wrap(x) == x
  {
  }

  datatype Option<T> = None | Some(value: T)

  // Anonymous memory by doubleword address. A doubleword that was never stored to,
  // or whose page the kernel has thrown away since, reads as zero.
  type Memory = map<int, Word>

  function Read(mem: Memory, a: int): Word {
    if a in mem then mem[a] else 0
  }

  function Write(mem: Memory, a: int, v: Word): Memory {
    mem[a := v]
  }

  // The page that holds address a.
  function PageOf(a: int): int {
    a / 16384
  }

  predicate Aligned(a: int) {
    a % 16384 == 0
  }

  lemma AlignedSum(a: int, b: int)
    requires Aligned(a) && Aligned(b)
    ensures Aligned(a + b)
  {
  }

  // Wrapping on the way does not show in the end.
  lemma WrapAgain(total: int, d: int)
    ensures Wrap(Wrap(total) as int + d) == Wrap(total + d)
  {
  }

  // Two page addresses are a page apart or more.
  lemma PageBelow(lo: int, c: int)
    requires Aligned(lo) && Aligned(c) && lo < c
    ensures Aligned(c - PAGE) && lo <= c - PAGE
  {
  }

  // The kernel discards one page: all of it reads as zero afterwards.
  function DropPage(mem: Memory, page: int): Memory {
    map a | a in mem && PageOf(a) != page :: mem[a]
  }

  // The doublewords the guest programs look at: the first of every page in [lo, hi).
  predicate OnGrid(lo: int, hi: int, a: int) {
    lo <= a < hi && Aligned(a)
  }

  // Bitwise exclusive or, bit by bit.
  function Xor(a: nat, b: nat): nat
    decreases a + b
  {
    if a == 0 && b == 0 then 0
    else (a + b) % 2 + 2 * Xor(a / 2, b / 2)
  }

  lemma {:induction false} XorZeroIffEqual(a: nat, b: nat)
    ensures Xor(a, b) == 0 <==> a == b
    decreases a + b
  {
    if a != 0 || b != 0 {
      XorZeroIffEqual(a / 2, b / 2);
    }
  }

  function Pow2(n: nat): nat {
    if n == 0 then 1 else 2 * Pow2(n - 1)
  }

  // Two n-bit operands give an n-bit result, so the u64 operator never leaves u64.
  lemma {:induction false} XorFits(a: nat, b: nat, n: nat)
    requires a < Pow2(n) && b < Pow2(n)
    ensures Xor(a, b) < Pow2(n)
    decreases n
  {
    if n > 0 {
      XorFits(a / 2, b / 2, n - 1);
    }
  }

  lemma Pow2Of64()
    ensures Pow2(32) == TWO32 && Pow2(64) == TWO64
  {
    assert Pow2(8) == 256;
    assert Pow2(16) == 65536;
    assert Pow2(24) == 16777216;
    assert Pow2(32) == TWO32;
    assert Pow2(40) == 256 * TWO32;
    assert Pow2(48) == 65536 * TWO32;
    assert Pow2(56) == 16777216 * TWO32;
  }

  function XorWord(a: Word, b: Word): (r: Word)
    ensures r != a || b == 0
    ensures a == 0 ==> r == b
  {
    Pow2Of64();
    ZeroXor(b);
    XorFits(a, b, 64);
    XorSame(a, b);
    Xor(a, b)
  }

  lemma {:induction false} ZeroXor(b: nat)
    ensures Xor(0, b) == b
    decreases b
  {
    if b != 0 {
      ZeroXor(b / 2);
    }
  }

  // Flipping the same bits twice restores the value.
  lemma {:induction false} XorTwice(a: nat, b: nat)
    ensures Xor(Xor(a, b), b) == a
    decreases a + b
  {
    if a != 0 || b != 0 {
      XorTwice(a / 2, b / 2);
      XorBits(a, b);
      XorBits(Xor(a, b), b);
      hide Xor;
      ParityTwice(a, b, Xor(a, b));
    }
  }

  lemma XorBits(a: nat, b: nat)
    ensures Xor(a, b) / 2 == Xor(a / 2, b / 2) && Xor(a, b) % 2 == (a + b) % 2
  {
  }

  lemma ParityTwice(a: nat, b: nat, x: nat)
    requires x % 2 == (a + b) % 2
    ensures (x + b) % 2 == a % 2
  {
  }

  lemma {:induction false} XorComm(a: nat, b: nat)
    ensures Xor(a, b) == Xor(b, a)
    decreases a + b
  {
    if a != 0 || b != 0 {
      XorComm(a / 2, b / 2);
    }
  }

  // Flipping a nonempty set of bits always changes the value.
  lemma {:induction false} XorSame(a: nat, b: nat)
    ensures Xor(a, b) == a <==> b == 0
    decreases a + b
  {
    if a != 0 || b != 0 {
      XorSame(a / 2, b / 2);
    }
  }

  // Bitwise inclusive or, bit by bit.
  function Or(a: nat, b: nat): nat
    decreases a + b
  {
    if a == 0 && b == 0 then 0
    else (if a % 2 + b % 2 > 0 then 1 else 0) + 2 * Or(a / 2, b / 2)
  }

  lemma {:induction false} OrZeroIffBothZero(a: nat, b: nat)
    ensures Or(a, b) == 0 <==> a == 0 && b == 0
    decreases a + b
  {
    if a != 0 || b != 0 {
      OrZeroIffBothZero(a / 2, b / 2);
    }
  }

  lemma {:induction false} OrFits(a: nat, b: nat, n: nat)
    requires a < Pow2(n) && b < Pow2(n)
    ensures Or(a, b) < Pow2(n)
    decreases n
  {
    if n > 0 {
      OrFits(a / 2, b / 2, n - 1);
    }
  }

  // Or of disjoint bit fields is their sum.
  lemma {:induction false} OrOfShifted(x: nat, b: nat, n: nat)
    requires b < Pow2(n)
    ensures Or(x * Pow2(n), b) == x * Pow2(n) + b
    decreases n
  {
    if n == 0 {
      OrWithZero(x);
    } else {
      var half := x * Pow2(n - 1);
      assert x * Pow2(n) == 2 * half;
      OrOfShifted(x, b / 2, n - 1);
      if x * Pow2(n) + b != 0 {
        assert (2 * half) / 2 == half && (2 * half) % 2 == 0;
        assert Or(2 * half, b) == b % 2 + 2 * Or(half, b / 2);
      }
    }
  }

  lemma {:induction false} OrWithZero(x: nat)
    ensures Or(x, 0) == x
    decreases x
  {
    if x != 0 {
      OrWithZero(x / 2);
    }
  }

  function OrWord(a: Word, b: Word): (r: Word)
    ensures a == 0 ==> r == b
    ensures b == 0 ==> r == a
    ensures r == 0 <==> a == 0 && b == 0
  {
    Pow2Of64();
    OrFits(a, b, 64);
    OrZeroIffBothZero(a, b);
    OrWithZero(a);
    OrComm(a, b);
    OrWithZero(b);
    Or(a, b)
  }

  lemma {:induction false} OrComm(a: nat, b: nat)
    ensures Or(a, b) == Or(b, a)
    decreases a + b
  {
    if a != 0 || b != 0 {
      OrComm(a / 2, b / 2);
    }
  }
}
