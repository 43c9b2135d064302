/** The checksum is the remainder of the message polynomial times x^32, modulo the generator. */
module CrcRemainder {
  import opened ShiftRegister
  import opened Crc32
  import opened Gf2

  /** x^32 + x^26 + x^23 + x^22 + x^16 + x^12 + x^11 + x^10 + x^8 + x^7 + x^5 + x^4 + x^2 + x + 1. */
  const GENERATOR_0: Poly := [true, true, true, false, true, true, false, true]
  const GENERATOR_8: Poly := [true, false, true, true, true, false, false, false]
  const GENERATOR_16: Poly := [true, false, false, false, false, false, true, true]
  const GENERATOR_24: Poly := [false, false, true, false, false, false, false, false]
  const GENERATOR: Poly := GENERATOR_0 + GENERATOR_8 + GENERATOR_16 + GENERATOR_24 + [true]

  /** The low n bits of a register, lowest-order coefficient first: bit 0 is the top coefficient. */
  function RegisterPoly(r: bv32, n: nat): (p: Poly)
    ensures |p| == n
    decreases n
  {
    if n == 0 then [] else RegisterPoly(r >> 1, n - 1) + [r & 1 == 1]
  }

  /** The first bit sent is the highest-order coefficient. */
  function MessagePoly(bits: seq<bool>): Poly {
    if bits == [] then [] else [bits[|bits| - 1]] + MessagePoly(bits[..|bits| - 1])
  }

  /** The message polynomial times x^32. */
  function Shifted(p: Poly): Poly {
    seq(32, _ => false) + p
  }

  lemma {:induction false} RegisterXor(a: bv32, b: bv32, n: nat)
    ensures forall i :: 0 <= i < n ==>
              RegisterPoly(Xor(a, b), n)[i] == (RegisterPoly(a, n)[i] != RegisterPoly(b, n)[i])
    decreases n
  {
    hide Xor;
    if n > 0 {
      LowBits2(a, b);
      RegisterXor(a >> 1, b >> 1, n - 1);
    }
  }

  lemma {:induction false} RegisterTop(r: bv32, n: nat)
    requires Fits(r, n)
    ensures RegisterPoly(r, n + 1) == [false] + RegisterPoly(r, n)
    decreases n
  {
    if n > 0 {
      RegisterTop(r >> 1, n - 1);
    }
  }

  lemma FitsByte(w: bv32, n: nat)
    requires Fits(w >> 8, n)
    ensures Fits(w, n + 8)
  {
    assert Fits(w >> 7, n + 1) && Fits(w >> 6, n + 2) && Fits(w >> 5, n + 3) && Fits(w >> 4, n + 4);
    assert Fits(w >> 3, n + 5) && Fits(w >> 2, n + 6) && Fits(w >> 1, n + 7);
  }

  lemma BytesOf(r: bv32) returns (x: bv32, y: bv32, z: bv32)
    ensures x == y >> 8 && y == z >> 8 && z == r >> 8
    ensures Fits(x, 8)
  {
    z := r >> 8;
    y := z >> 8;
    x := y >> 8;
  }

  lemma WordFits(r: bv32)
    ensures Fits(r, 32)
  {
    hide Fits;
    var x, y, z := BytesOf(r);
    FitsByte(y, 8);
    FitsByte(z, 16);
    FitsByte(r, 24);
  }

  /** Moving the register right multiplies its polynomial by x and drops the top term. */
  lemma RegisterShift(r: bv32)
    ensures RegisterPoly(r >> 1, 32) + [r & 1 == 1] == [false] + RegisterPoly(r, 32)
  {
    hide Fits;
    WordFits(r);
    RegisterTop(r, 32);
  }

  /** The low eight bits, most significant first. */
  function LowByteBits(r: bv32): (p: Poly)
    ensures |p| == 8
  {
    [r & 128 == 128, r & 64 == 64, r & 32 == 32, r & 16 == 16, r & 8 == 8, r & 4 == 4, r & 2 == 2, r & 1 == 1]
  }

  ghost predicate IsNext(hi: bv32, r: bv32, b: bool) {
    hi == r >> 1 && b == (r & 1 == 1)
  }

  lemma RegisterBit(hi: bv32, r: bv32, b: bool, n: nat)
    requires IsNext(hi, r, b)
    ensures RegisterPoly(r, n + 1) == RegisterPoly(hi, n) + [b]
  {
  }

  lemma NextBits(r: bv32)
    ensures var b := LowByteBits(r);
            && IsNext(r >> 8, r >> 7, b[0]) && IsNext(r >> 7, r >> 6, b[1]) && IsNext(r >> 6, r >> 5, b[2])
            && IsNext(r >> 5, r >> 4, b[3]) && IsNext(r >> 4, r >> 3, b[4]) && IsNext(r >> 3, r >> 2, b[5])
            && IsNext(r >> 2, r >> 1, b[6]) && IsNext(r >> 1, r, b[7])
  {
  }

  lemma {:induction false} RegisterBits(rs: seq<bv32>, b: seq<bool>, n: nat)
    requires |rs| == |b| + 1
    requires forall k :: 0 <= k < |b| ==> IsNext(rs[k], rs[k + 1], b[k])
    ensures RegisterPoly(rs[|b|], n + |b|) == RegisterPoly(rs[0], n) + b
    decreases |b|
  {
    hide RegisterPoly, IsNext;
    if b == [] {
    } else {
      var k := |b| - 1;
      RegisterBits(rs[..k + 1], b[..k], n);
      RegisterBit(rs[k], rs[k + 1], b[k], n + k);
      assert b == b[..k] + [b[k]];
    }
  }

  lemma RegisterByte(r: bv32, n: nat)
    ensures RegisterPoly(r, n + 8) == RegisterPoly(r >> 8, n) + LowByteBits(r)
  {
    hide RegisterPoly, IsNext, LowByteBits;
    NextBits(r);
    RegisterBits([r >> 8, r >> 7, r >> 6, r >> 5, r >> 4, r >> 3, r >> 2, r >> 1, r], LowByteBits(r), n);
  }

  lemma GeneratorBytes()
    ensures LowByteBits(POLY) == GENERATOR_24 && LowByteBits(POLY >> 8) == GENERATOR_16
    ensures LowByteBits(POLY >> 16) == GENERATOR_8 && LowByteBits(POLY >> 24) == GENERATOR_0
    ensures POLY >> 24 >> 8 == 0 && POLY >> 16 >> 8 == POLY >> 24 && POLY >> 8 >> 8 == POLY >> 16
  {
  }

  lemma RegisterGenerator()
    ensures RegisterPoly(POLY, 32) + [true] == GENERATOR
  {
    hide RegisterPoly, LowByteBits;
    GeneratorBytes();
    RegisterByte(POLY, 24);
    RegisterByte(POLY >> 8, 16);
    RegisterByte(POLY >> 16, 8);
    RegisterByte(POLY >> 24, 0);
    RegisterEmpty(0);
  }

  lemma RegisterEmpty(r: bv32)
    ensures RegisterPoly(r, 0) == []
  {
  }

  lemma {:induction false} RegisterZero(n: nat)
    ensures RegisterPoly(0, n) == seq(n, _ => false)
    decreases n
  {
    if n > 0 {
      RegisterZero(n - 1);
    }
  }

  // ---------- one bit is one step of the division ----------

  function Remainder(r: bv32): Poly {
    RegisterPoly(r, 32)
  }

  lemma FeedOne(r: bv32)
    ensures Xor(r, 1) >> 1 == r >> 1 && (Xor(r, 1) & 1 == 1) == (r & 1 != 1)
  {
  }

  lemma FeedBit(r: bv32, bit: bool, x: bv32)
    requires x == Xor(r, if bit then 1 else 0)
    ensures x >> 1 == r >> 1 && (x & 1 == 1) == ((r & 1 == 1) != bit)
    ensures BitStep(r, bit) == Shift(x)
  {
    hide Xor, Shift;
    if bit {
      FeedOne(r);
    } else {
      XorZero(r);
    }
  }

  lemma RemainderShift(r: bv32)
    ensures Coef(Remainder(r), 31) == (r & 1 == 1)
    ensures forall i :: 0 <= i < 32 ==> Coef(Remainder(r >> 1), i) == Coef(ShiftUp(Remainder(r)), i)
  {
    hide RegisterPoly;
    RegisterShift(r);
    var p, q := RegisterPoly(r >> 1, 32), RegisterPoly(r, 32);
    assert (p + [r & 1 == 1])[32] == ([false] + q)[32] == q[31];
    forall i | 0 <= i < 32
      ensures Coef(p, i) == Coef(ShiftUp(q), i)
    {
      assert (p + [r & 1 == 1])[i] == ([false] + q)[i];
    }
  }

  /** The clock of the register subtracts the generator when the low bit falls off. */
  lemma ShiftPoly(x: bv32)
    ensures forall i :: 0 <= i < 32 ==>
              Coef(Remainder(Shift(x)), i) == (Coef(Remainder(x >> 1), i) != (x & 1 == 1 && Coef(GENERATOR, i)))
  {
    hide Xor, Shift, GENERATOR, RegisterPoly;
    LowBits2(x, x);
    if x & 1 == 1 {
      ShiftOdd(x);
      RegisterXor(x >> 1, POLY, 32);
      RegisterGenerator();
      assert forall i :: 0 <= i < 32 ==> (RegisterPoly(POLY, 32) + [true])[i] == RegisterPoly(POLY, 32)[i];
    } else {
      ShiftEven(x);
    }
  }

  lemma Substitute(p: Poly, h: Poly, q: Poly, b: bool)
    requires forall i :: 0 <= i < 32 ==> Coef(h, i) == Coef(q, i)
    requires forall i :: 0 <= i < 32 ==> Coef(p, i) == (Coef(h, i) != (b && Coef(GENERATOR, i)))
    ensures forall i :: 0 <= i < 32 ==> Coef(p, i) == (Coef(q, i) != (b && Coef(GENERATOR, i)))
  {
    hide GENERATOR, Coef;
  }

  /** The register after one bit: times x, less the generator if the top term and the bit differ. */
  lemma BitStepPoly(r: bv32, bit: bool)
    ensures var t := Coef(Remainder(r), 31) != bit;
            forall i :: 0 <= i < 32 ==>
              Coef(Remainder(BitStep(r, bit)), i)
                == (Coef(ShiftUp(Remainder(r)), i) != (t && Coef(GENERATOR, i)))
  {
    hide Xor, GENERATOR, Remainder, Shift, BitStep, Coef, ShiftUp;
    var x := if bit then Xor(r, 1) else Xor(r, 0);
    FeedBit(r, bit, x);
    RemainderShift(r);
    ShiftPoly(x);
    Substitute(Remainder(Shift(x)), Remainder(x >> 1), ShiftUp(Remainder(r)), x & 1 == 1);
  }

  /** The division after some bits, with its quotient. */
  lemma {:induction false} SerialDivides(bits: seq<bool>) returns (q: Poly)
    ensures Same(Shifted(MessagePoly(bits)), Add(Times(GENERATOR, q), Remainder(Serial(0, bits))))
    decreases |bits|
  {
    hide GENERATOR, RegisterPoly, BitStep;
    if bits == [] {
      q := [];
      RegisterZero(32);
    } else {
      var n := |bits| - 1;
      var bit := bits[n];
      var q0 := SerialDivides(bits[..n]);
      var r := Serial(0, bits[..n]);
      var t := Coef(Remainder(r), 31) != bit;
      q := [t] + q0;
      DivisionStep(MessagePoly(bits[..n]), q0, r, bit, t);
    }
  }

  lemma GeneratorTop()
    ensures |GENERATOR| == 33 && GENERATOR[32]
  {
  }

  lemma DivisionStep(m: Poly, q: Poly, r: bv32, bit: bool, t: bool)
    requires Same(Shifted(m), Add(Times(GENERATOR, q), Remainder(r)))
    requires t == (Coef(Remainder(r), 31) != bit)
    ensures Same(Shifted([bit] + m), Add(Times(GENERATOR, [t] + q), Remainder(BitStep(r, bit))))
  {
    hide GENERATOR, RegisterPoly, BitStep, Shifted, Remainder, Add;
    GeneratorTop();
    BitStepPoly(r, bit);
    ShiftedSnoc(m, bit);
    RemainderShort(r);
    RemainderShort(BitStep(r, bit));
    var g, u := GENERATOR, Times(GENERATOR, q);
    var r0, r1 := Remainder(r), Remainder(BitStep(r, bit));
    assert ([t] + q)[1..] == q;
    forall i: nat
      ensures Coef(Shifted([bit] + m), i) == Coef(Add(Times(g, [t] + q), r1), i)
    {
      assert Coef(Times(g, [t] + q), i) == ((t && Coef(g, i)) != (i > 0 && Coef(u, i - 1)));
      if i > 0 {
        assert Coef(Shifted(m), i - 1) == (Coef(u, i - 1) != Coef(r0, i - 1));
      }
    }
  }

  lemma RemainderShort(r: bv32)
    ensures forall i: nat :: i >= 32 ==> !Coef(Remainder(r), i)
  {
  }

  lemma ShiftedSnoc(m: Poly, bit: bool)
    ensures !Coef(Shifted(m), 31)
    ensures forall i: nat :: Coef(Shifted([bit] + m), i) == if i == 32 then bit else i > 0 && Coef(Shifted(m), i - 1)
  {
  }

  /** The checksum is the remainder, and the only polynomial shorter than the generator that is. */
  lemma CrcIsTheRemainder(s: seq<bv8>, r: Poly)
    requires |r| <= 32
    ensures IsRemainder(Shifted(MessagePoly(BitsOf(s))), GENERATOR, r) <==> Same(r, Remainder(Crc(s)))
  {
    hide GENERATOR, RegisterPoly, Serial;
    GeneratorTop();
    var m := Shifted(MessagePoly(BitsOf(s)));
    SerialBytes(0, s);
    var q := SerialDivides(BitsOf(s));
    assert IsRemainder(m, GENERATOR, Remainder(Crc(s)));
    if IsRemainder(m, GENERATOR, r) {
      RemainderUnique(m, GENERATOR, r, Remainder(Crc(s)));
    }
    if Same(r, Remainder(Crc(s))) {
      assert Same(m, Add(Times(GENERATOR, q), r));
    }
  }
}
