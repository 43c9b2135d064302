/** The table-driven CRC-32 loop of `src/common/crc32.c`, proved equal to the shift register. */
module Crc32 {
  import opened ShiftRegister
  import opened CrcTable

  // ---------- a table entry is eight clocks of its index ----------

  lemma SingleBit(b: bv32, m: bv32, entry: bv32)
    requires b & m == 0 || b & m == m
    requires Shifts(0, 8) == 0 && Shifts(m, 8) == entry
    ensures Shifts(b & m, 8) == (if b & m == m then entry else 0)
  {
    if b & m == m {
    } else {
    }
  }

  lemma PowersOfTwo()
    ensures Shifts(0, 8) == 0
    ensures Shifts(1, 8) == 0x77073096 && Shifts(2, 8) == 0xee0e612c
    ensures Shifts(4, 8) == 0x076dc419 && Shifts(8, 8) == 0x0edb8832
    ensures Shifts(16, 8) == 0x1db71064 && Shifts(32, 8) == 0x3b6e20c8
    ensures Shifts(64, 8) == 0x76dc4190 && Shifts(128, 8) == 0xedb88320
  {
  }

  lemma SplitBits(b: bv32)
    requires b < 256
    ensures b == Xor(Xor(Xor(Xor(Xor(Xor(Xor(b & 1, b & 2), b & 4), b & 8), b & 16), b & 32), b & 64), b & 128)
    ensures (b & 1 == 0 || b & 1 == 1) && (b & 2 == 0 || b & 2 == 2)
    ensures (b & 4 == 0 || b & 4 == 4) && (b & 8 == 0 || b & 8 == 8)
    ensures (b & 16 == 0 || b & 16 == 16) && (b & 32 == 0 || b & 32 == 32)
    ensures (b & 64 == 0 || b & 64 == 64) && (b & 128 == 0 || b & 128 == 128)
  {
  }

  lemma ShiftsOfEight(x0: bv32, x1: bv32, x2: bv32, x3: bv32, x4: bv32, x5: bv32, x6: bv32, x7: bv32)
    ensures Shifts(Xor(Xor(Xor(Xor(Xor(Xor(Xor(x0, x1), x2), x3), x4), x5), x6), x7), 8)
         == Xor(Xor(Xor(Xor(Xor(Xor(Xor(Shifts(x0, 8), Shifts(x1, 8)), Shifts(x2, 8)), Shifts(x3, 8)),
                Shifts(x4, 8)), Shifts(x5, 8)), Shifts(x6, 8)), Shifts(x7, 8))
  {
    var y1 := Xor(x0, x1); ShiftsXor(x0, x1, 8);
    var y2 := Xor(y1, x2); ShiftsXor(y1, x2, 8);
    var y3 := Xor(y2, x3); ShiftsXor(y2, x3, 8);
    var y4 := Xor(y3, x4); ShiftsXor(y3, x4, 8);
    var y5 := Xor(y4, x5); ShiftsXor(y4, x5, 8);
    var y6 := Xor(y5, x6); ShiftsXor(y5, x6, 8);
    ShiftsXor(y6, x7, 8);
  }

  lemma CombineIsShifts(b: bv32)
    requires b < 256
    ensures Combine(b) == Shifts(b, 8)
  {
    hide Shifts;
    SplitBits(b);
    PowersOfTwo();
    ShiftsOfEight(b & 1, b & 2, b & 4, b & 8, b & 16, b & 32, b & 64, b & 128);
    SingleBit(b, 1, 0x77073096); SingleBit(b, 2, 0xee0e612c);
    SingleBit(b, 4, 0x076dc419); SingleBit(b, 8, 0x0edb8832);
    SingleBit(b, 16, 0x1db71064); SingleBit(b, 32, 0x3b6e20c8);
    SingleBit(b, 64, 0x76dc4190); SingleBit(b, 128, 0xedb88320);
  }

  // ---------- eight clocks of a whole register ----------

  predicate Halves(y: bv32, z: bv32) {
    y & 1 == 0 && y >> 1 == z
  }

  /** A register whose low bit is clear just moves right. */
  lemma ShiftHalves(y: bv32, z: bv32, n: nat)
    requires Halves(y, z)
    ensures Shift(y) == z && Shifts(y, n + 1) == Shifts(z, n)
  {
    assert Shift(y) == z;
  }

  lemma EightHalves(h: bv32)
    requires h < 0x100_0000
    ensures Halves(h << 8, h << 7) && Halves(h << 7, h << 6) && Halves(h << 6, h << 5) && Halves(h << 5, h << 4)
    ensures Halves(h << 4, h << 3) && Halves(h << 3, h << 2) && Halves(h << 2, h << 1) && Halves(h << 1, h)
  {
  }

  lemma {:induction false} EvenRun(y: seq<bv32>)
    requires |y| > 0
    requires forall k :: 0 <= k < |y| - 1 ==> Halves(y[k], y[k + 1])
    ensures Shifts(y[0], |y| - 1) == y[|y| - 1]
    decreases |y|
  {
    hide Shift, Halves;
    if |y| > 1 {
      EvenRun(y[1..]);
      ShiftHalves(y[0], y[1], |y| - 2);
    }
  }

  lemma HighPart(h: bv32)
    requires h < 0x100_0000
    ensures Shifts(h << 8, 8) == h
  {
    hide Halves, Shift, Shifts;
    EightHalves(h);
    EvenRun([h << 8, h << 7, h << 6, h << 5, h << 4, h << 3, h << 2, h << 1, h]);
  }

  lemma SplitWord(x: bv32)
    ensures x >> 8 < 0x100_0000 && x & 0xff < 256
    ensures x == Xor(x & 0xff, (x >> 8) << 8)
  {
  }

  /** Eight clocks of a register with low byte lo and the rest hi. */
  lemma EightClocks(x: bv32, lo: bv32, hi: bv32)
    requires lo == x & 0xff && hi == x >> 8
    ensures Shifts(x, 8) == Xor(Shifts(lo, 8), hi)
  {
    SplitWord(x);
    ShiftsXor(lo, hi << 8, 8);
    HighPart(hi);
  }

  // ---------- the loop ----------

  lemma TableEntry(i: bv32)
    requires i < 256
    ensures |TABLE| == 256 && TABLE[i as int] == Shifts(i, 8)
  {
    TableIsCombine(i as int);
    CombineIsShifts(i);
  }

  lemma SplitIndex(c: bv32, b: bv32)
    requires b < 256
    ensures (c & 0xff) ^ b < 256
    ensures Xor(c, b) & 0xff == (c & 0xff) ^ b
    ensures Xor(c, b) >> 8 == c >> 8
  {
  }

  /** One turn of the loop, whatever way the entry was found: the register takes a byte. */
  lemma TableStep(c: bv32, b: bv8, lo: bv32, hi: bv32, entry: bv32)
    requires lo == (c & 0xff) ^ (b as bv32) && hi == c >> 8
    requires entry == Shifts(lo, 8)
    ensures Xor(entry, hi) == ByteStep(c, b)
  {
    hide Xor, Shift;
    SplitIndex(c, b as bv32);
    EightClocks(Xor(c, b as bv32), lo, hi);
  }

  method LookUp(i: bv32) returns (entry: bv32)
    requires i < 256
    ensures entry == Shifts(i, 8)
  {
    TableEntry(i);
    entry := TABLE[i as int];
  }

  /** The checksum of the source: one table look-up for each byte. */
  method Crc32(src: array<bv8>) returns (checksum: bv32)
    ensures checksum == Crc(src[..])
  {
    hide Xor, ByteStep, Shifts;
    checksum := 0;
    for i := 0 to src.Length
      invariant checksum == Crc(src[..i])
    {
      SplitIndex(checksum, src[i] as bv32);
      var entry := LookUp((checksum & 0xff) ^ (src[i] as bv32));
      TableStep(checksum, src[i], (checksum & 0xff) ^ (src[i] as bv32), checksum >> 8, entry);
      assert src[..i + 1][..i] == src[..i];
      checksum := Xor(entry, checksum >> 8);
    }
    assert src[..src.Length] == src[..];
  }

  // ---------- the bit-at-a-time register ----------

  lemma {:induction false} SerialConcat(r: bv32, a: seq<bool>, b: seq<bool>)
    ensures Serial(r, a + b) == Serial(Serial(r, a), b)
    decreases |b|
  {
    hide BitStep;
    if b == [] {
      assert a + b == a;
    } else {
      var n := |b| - 1;
      assert (a + b)[..|a + b| - 1] == a + b[..n] && (a + b)[|a + b| - 1] == b[n];
      SerialConcat(r, a, b[..n]);
    }
  }

  ghost predicate Fits(w: bv32, n: nat)
    decreases n
  {
    if n == 0 then w == 0 else Fits(w >> 1, n - 1)
  }

  lemma SplitLowBit(w: bv32, low: bv32, high: bv32)
    requires low == (if w & 1 == 1 then 1 else 0) && high == (w >> 1) << 1
    ensures w == Xor(low, high) && Halves(high, w >> 1)
  {
  }

  /** Feeding the low bit and clocking once leaves the other bits of w to feed. */
  lemma FeedLowBit(r: bv32, w: bv32)
    ensures Shift(Xor(r, w)) == Xor(BitStep(r, w & 1 == 1), w >> 1)
  {
    hide Xor, Shift, Halves;
    var low: bv32 := if w & 1 == 1 then 1 else 0;
    var high := (w >> 1) << 1;
    SplitLowBit(w, low, high);
    XorAssoc(r, low, high);
    ShiftsXor(Xor(r, low), high, 1);
    ShiftHalves(high, w >> 1, 0);
  }

  lemma {:induction false} SerialLowBits(r: bv32, w: bv32, n: nat)
    requires Fits(w, n)
    ensures Serial(r, LowBits(w, n)) == Shifts(Xor(r, w), n)
    decreases n
  {
    hide Xor, Shift, BitStep;
    if n == 0 {
      XorZero(r);
    } else {
      var bit := w & 1 == 1;
      SerialConcat(r, [bit], LowBits(w >> 1, n - 1));
      assert Serial(r, [bit]) == BitStep(r, bit) by {
        assert [bit][..0] == [];
      }
      SerialLowBits(BitStep(r, bit), w >> 1, n - 1);
      FeedLowBit(r, w);
    }
  }

  lemma SerialByte(r: bv32, b: bv8)
    ensures Serial(r, ByteBits(b)) == ByteStep(r, b)
  {
    hide Serial;
    assert Fits(b as bv32, 8);
    SerialLowBits(r, b as bv32, 8);
  }

  /** The byte-wise checksum is the register fed one bit at a time. */
  lemma {:induction false} SerialBytes(r: bv32, s: seq<bv8>)
    ensures CrcFrom(r, s) == Serial(r, BitsOf(s))
    decreases |s|
  {
    hide BitStep, ByteBits, ByteStep;
    if s != [] {
      var n := |s| - 1;
      SerialBytes(r, s[..n]);
      SerialConcat(r, BitsOf(s[..n]), ByteBits(s[n]));
      SerialByte(Serial(r, BitsOf(s[..n])), s[n]);
    }
  }
}
