/** Repeated application of a function. */
module Iteration {

  function Iterate<T>(f: T -> T, x: T, n: nat): T
    decreases n
  {
    if n == 0 then x else Iterate(f, f(x), n - 1)
  }

  lemma {:induction false} IterateAdd<T>(f: T -> T, x: T, m: nat, n: nat)
    ensures Iterate(f, x, m + n) == Iterate(f, Iterate(f, x, m), n)
    decreases m
  {
    if m > 0 {
      IterateAdd(f, f(x), m - 1, n);
    }
  }

  lemma {:induction false} IterateHomomorphism<T(!new)>(f: T -> T, op: (T, T) -> T, a: T, b: T, n: nat)
    requires forall x, y :: f(op(x, y)) == op(f(x), f(y))
    ensures Iterate(f, op(a, b), n) == op(Iterate(f, a, n), Iterate(f, b, n))
    decreases n
  {
    if n > 0 {
      IterateHomomorphism(f, op, f(a), f(b), n - 1);
    }
  }

  lemma {:induction false} IterateInjective<T(!new)>(f: T -> T, a: T, b: T, n: nat)
    requires forall x, y :: f(x) == f(y) ==> x == y
    requires Iterate(f, a, n) == Iterate(f, b, n)
    ensures a == b
    decreases n
  {
    if n > 0 {
      IterateInjective(f, f(a), f(b), n - 1);
    }
  }
}

/** The CRC-32 shift register that `src/common/crc32.c` speeds up with a table: it starts at zero
    and its final state is the checksum, with no inversion at either end. */
module ShiftRegister {
  import opened Iteration

  /** The generator without its x^32 term, lowest-order coefficient in the top bit. */
  const POLY: bv32 := 0xedb88320

  function Xor(a: bv32, b: bv32): bv32 {
    a ^ b
  }

  /** One clock of the shift register, with nothing fed in. */
  function Shift(r: bv32): bv32 {
    if r & 1 == 1 then Xor(r >> 1, POLY) else r >> 1
  }

  function Shifts(r: bv32, n: nat): bv32 {
    Iterate(Shift, r, n)
  }

  /** The register after one more message bit. */
  function BitStep(r: bv32, bit: bool): bv32 {
    Shift(Xor(r, if bit then 1 else 0))
  }

  /** The bit-at-a-time register run over a whole bit string. */
  function Serial(r: bv32, bits: seq<bool>): bv32 {
    if bits == [] then r else BitStep(Serial(r, bits[..|bits| - 1]), bits[|bits| - 1])
  }

  /** The low n bits of w, least significant first: the order in which they enter the register. */
  function LowBits(w: bv32, n: nat): seq<bool>
    decreases n
  {
    if n == 0 then [] else [w & 1 == 1] + LowBits(w >> 1, n - 1)
  }

  function ByteBits(b: bv8): seq<bool> {
    LowBits(b as bv32, 8)
  }

  /** The bits of a byte string in the order in which they enter the register. */
  function BitsOf(s: seq<bv8>): seq<bool> {
    if s == [] then [] else BitsOf(s[..|s| - 1]) + ByteBits(s[|s| - 1])
  }

  /** The register after one more byte. */
  function ByteStep(r: bv32, b: bv8): bv32 {
    Shifts(Xor(r, b as bv32), 8)
  }

  function CrcFrom(r: bv32, s: seq<bv8>): bv32 {
    if s == [] then r else ByteStep(CrcFrom(r, s[..|s| - 1]), s[|s| - 1])
  }

  /** The checksum of a byte string. */
  function Crc(s: seq<bv8>): bv32 {
    CrcFrom(0, s)
  }

  // ---------- exclusive or ----------

  lemma XorComm(a: bv32, b: bv32)
    ensures Xor(a, b) == Xor(b, a)
  {
  }

  lemma XorAssoc(a: bv32, b: bv32, c: bv32)
    ensures Xor(Xor(a, b), c) == Xor(a, Xor(b, c))
  {
  }

  lemma XorZero(a: bv32)
    ensures Xor(a, 0) == a && Xor(0, a) == a
  {
  }

  lemma XorSelf(a: bv32)
    ensures Xor(a, a) == 0
  {
  }

  lemma XorCancel(a: bv32, b: bv32, c: bv32)
    requires Xor(a, c) == Xor(b, c)
    ensures a == b
  {
    hide Xor;
    XorAssoc(a, c, c);
    XorAssoc(b, c, c);
    XorSelf(c);
    XorZero(a);
    XorZero(b);
  }

  lemma XorIsZero(a: bv32, b: bv32)
    ensures Xor(a, b) == 0 <==> a == b
  {
    hide Xor;
    XorSelf(b);
    if Xor(a, b) == 0 {
      XorCancel(a, b, b);
    }
  }

  lemma XorShuffle(a: bv32, b: bv32, c: bv32, d: bv32)
    ensures Xor(Xor(a, b), Xor(c, d)) == Xor(Xor(a, c), Xor(b, d))
  {
    hide Xor;
    XorAssoc(a, b, Xor(c, d));
    XorAssoc(b, c, d);
    XorComm(b, c);
    XorAssoc(c, b, d);
    XorAssoc(a, c, Xor(b, d));
  }

  // ---------- the shift register is linear and invertible ----------

  lemma ShiftOdd(r: bv32)
    requires r & 1 == 1
    ensures Shift(r) == Xor(r >> 1, POLY)
  {
  }

  lemma ShiftEven(r: bv32)
    requires r & 1 == 0
    ensures Shift(r) == r >> 1
  {
  }

  lemma LowBits2(a: bv32, b: bv32)
    ensures a & 1 == 0 || a & 1 == 1
    ensures b & 1 == 0 || b & 1 == 1
    ensures Xor(a, b) & 1 == (if a & 1 == b & 1 then 0 else 1)
    ensures Xor(a, b) >> 1 == Xor(a >> 1, b >> 1)
  {
  }

  lemma ShiftXor(a: bv32, b: bv32)
    ensures Shift(Xor(a, b)) == Xor(Shift(a), Shift(b))
  {
    hide Xor, Shift;
    LowBits2(a, b);
    if a & 1 == 1 {
      ShiftOdd(a);
      if b & 1 == 1 {
        ShiftOdd(b);
        ShiftEven(Xor(a, b));
        XorShuffle(a >> 1, POLY, b >> 1, POLY);
        XorSelf(POLY);
        XorZero(Xor(a >> 1, b >> 1));
      } else {
        ShiftEven(b);
        ShiftOdd(Xor(a, b));
        XorAssoc(a >> 1, b >> 1, POLY);
        XorComm(b >> 1, POLY);
        XorAssoc(a >> 1, POLY, b >> 1);
      }
    } else {
      ShiftEven(a);
      if b & 1 == 1 {
        ShiftOdd(b);
        ShiftOdd(Xor(a, b));
        XorAssoc(a >> 1, b >> 1, POLY);
      } else {
        ShiftEven(b);
        ShiftEven(Xor(a, b));
      }
    }
  }

  lemma ShiftHomomorphism()
    ensures forall x, y :: Shift(Xor(x, y)) == Xor(Shift(x), Shift(y))
  {
    forall x, y
      ensures Shift(Xor(x, y)) == Xor(Shift(x), Shift(y))
    {
      ShiftXor(x, y);
    }
  }

  lemma IterateShiftXor(a: bv32, b: bv32, n: nat)
    requires forall x, y :: Shift(Xor(x, y)) == Xor(Shift(x), Shift(y))
    ensures Iterate(Shift, Xor(a, b), n) == Xor(Iterate(Shift, a, n), Iterate(Shift, b, n))
  {
    IterateHomomorphism(Shift, Xor, a, b, n);
  }

  lemma ShiftsXor(a: bv32, b: bv32, n: nat)
    ensures Shifts(Xor(a, b), n) == Xor(Shifts(a, n), Shifts(b, n))
  {
    ShiftHomomorphism();
    IterateShiftXor(a, b, n);
  }

  lemma ShiftInjective(a: bv32, b: bv32)
    requires Shift(a) == Shift(b)
    ensures a == b
  {
  }

  lemma IterateShiftInjective(a: bv32, b: bv32, n: nat)
    requires forall x, y :: Shift(x) == Shift(y) ==> x == y
    requires Shifts(a, n) == Shifts(b, n)
    ensures a == b
  {
    IterateInjective(Shift, a, b, n);
  }

  /** n clocks of the register are a bijection of its states: nothing is lost. */
  lemma ShiftsInjective(a: bv32, b: bv32, n: nat)
    requires Shifts(a, n) == Shifts(b, n)
    ensures a == b
  {
    forall x, y | Shift(x) == Shift(y)
      ensures x == y
    {
      ShiftInjective(x, y);
    }
    IterateShiftInjective(a, b, n);
  }
}
