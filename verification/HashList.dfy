/** The checksum as a change detector: what `src/uccn.c` relies on when it compares the digest of
    a list of 32-bit resource hashes with the digest it remembered for a peer. */
module HashList {
  import opened Iteration
  import opened ShiftRegister
  import opened Crc32

  type Hash = bv32

  /** A hash as it lies in memory on a little-endian machine. */
  function HashBytes(h: Hash): (b: seq<bv8>)
    ensures |b| == 4
  {
    [(h & 0xff) as bv8, ((h >> 8) & 0xff) as bv8, ((h >> 16) & 0xff) as bv8, ((h >> 24) & 0xff) as bv8]
  }

  function ListBytes(hs: seq<Hash>): seq<bv8> {
    if hs == [] then [] else ListBytes(hs[..|hs| - 1]) + HashBytes(hs[|hs| - 1])
  }

  /** The checksum of the memory of an array of hashes. */
  function ListDigest(hs: seq<Hash>): Hash {
    Crc(ListBytes(hs))
  }

  function XorBytes(a: seq<bv8>, b: seq<bv8>): seq<bv8>
    requires |a| == |b|
  {
    seq(|a|, i requires 0 <= i < |a| => a[i] ^ b[i])
  }

  function XorLists(a: seq<Hash>, b: seq<Hash>): seq<Hash>
    requires |a| == |b|
  {
    seq(|a|, i requires 0 <= i < |a| => Xor(a[i], b[i]))
  }

  // ---------- byte strings ----------

  lemma {:induction false} CrcFromConcat(r: bv32, a: seq<bv8>, b: seq<bv8>)
    ensures CrcFrom(r, a + b) == CrcFrom(CrcFrom(r, a), b)
    decreases |b|
  {
    hide ByteStep;
    if b == [] {
      assert a + b == a;
    } else {
      var n := |b| - 1;
      assert (a + b)[..|a + b| - 1] == a + b[..n] && (a + b)[|a + b| - 1] == b[n];
      CrcFromConcat(r, a, b[..n]);
    }
  }

  lemma XorWiden(x: bv8, y: bv8)
    ensures (x ^ y) as bv32 == Xor(x as bv32, y as bv32)
  {
  }

  lemma ByteStepXor(r1: bv32, r2: bv32, x: bv8, y: bv8)
    ensures ByteStep(Xor(r1, r2), x ^ y) == Xor(ByteStep(r1, x), ByteStep(r2, y))
  {
    hide Xor, Shifts;
    XorWiden(x, y);
    XorShuffle(r1, r2, x as bv32, y as bv32);
    ShiftsXor(Xor(r1, x as bv32), Xor(r2, y as bv32), 8);
  }

  /** The checksum commutes with exclusive or. */
  lemma {:induction false} CrcXor(r1: bv32, r2: bv32, a: seq<bv8>, b: seq<bv8>)
    requires |a| == |b|
    ensures CrcFrom(Xor(r1, r2), XorBytes(a, b)) == Xor(CrcFrom(r1, a), CrcFrom(r2, b))
    decreases |a|
  {
    hide ByteStep, Xor;
    if a != [] {
      var n := |a| - 1;
      assert XorBytes(a, b)[..n] == XorBytes(a[..n], b[..n]);
      CrcXor(r1, r2, a[..n], b[..n]);
      ByteStepXor(CrcFrom(r1, a[..n]), CrcFrom(r2, b[..n]), a[n], b[n]);
    }
  }

  /** Equal suffixes cannot bring two different register states together. */
  lemma {:induction false} CrcFromInjective(r1: bv32, r2: bv32, s: seq<bv8>)
    requires CrcFrom(r1, s) == CrcFrom(r2, s)
    ensures r1 == r2
    decreases |s|
  {
    hide Shifts, Xor;
    if s != [] {
      var n := |s| - 1;
      var b := s[n] as bv32;
      ShiftsInjective(Xor(CrcFrom(r1, s[..n]), b), Xor(CrcFrom(r2, s[..n]), b), 8);
      XorCancel(CrcFrom(r1, s[..n]), CrcFrom(r2, s[..n]), b);
      CrcFromInjective(r1, r2, s[..n]);
    }
  }

  // ---------- one hash is 32 clocks ----------

  /** b is the low byte of h, hi the rest. */
  predicate Splits(h: bv32, b: bv8, hi: bv32) {
    b as bv32 == h & 0xff && hi == h >> 8
  }

  lemma JoinSplit(h: bv32, b: bv8, hi: bv32)
    requires Splits(h, b, hi)
    ensures h == Xor(b as bv32, hi << 8) && hi < 0x100_0000
  {
    SplitWord(h);
  }

  lemma PeelByte(r: bv32, h: bv32, b: bv8, hi: bv32, n: nat)
    requires Splits(h, b, hi)
    ensures Shifts(Xor(r, h), 8 + n) == Shifts(Xor(ByteStep(r, b), hi), n)
  {
    hide Xor, Splits, Shift;
    var lo := b as bv32;
    JoinSplit(h, b, hi);
    XorAssoc(r, lo, hi << 8);
    IterateAdd(Shift, Xor(r, h), 8, n);
    ShiftsXor(Xor(r, lo), hi << 8, 8);
    HighPart(hi);
  }

  lemma FourBytes(h: bv32)
    ensures Splits(h, HashBytes(h)[0], h >> 8)
    ensures Splits(h >> 8, HashBytes(h)[1], h >> 16)
    ensures Splits(h >> 16, HashBytes(h)[2], h >> 24)
    ensures Splits(h >> 24, HashBytes(h)[3], 0)
  {
  }

  /** Four bytes fed one after the other. */
  lemma CrcFromFour(r: bv32, b: seq<bv8>)
    requires |b| == 4
    ensures CrcFrom(r, b) == ByteStep(ByteStep(ByteStep(ByteStep(r, b[0]), b[1]), b[2]), b[3])
  {
    hide ByteStep;
    assert b[..3][..2] == b[..2] && b[..2][..1] == b[..1] && b[..1][..0] == [];
    assert CrcFrom(r, b[..1]) == ByteStep(r, b[0]);
    assert CrcFrom(r, b[..2]) == ByteStep(CrcFrom(r, b[..1]), b[1]);
    assert CrcFrom(r, b[..3]) == ByteStep(CrcFrom(r, b[..2]), b[2]);
  }

  /** Feeding one hash is xoring it into the register and clocking 32 times. */
  lemma HashStep(r: bv32, h: Hash)
    ensures CrcFrom(r, HashBytes(h)) == Shifts(Xor(r, h), 32)
  {
    hide Xor, ByteStep, Splits, HashBytes, Shift;
    var b := HashBytes(h);
    var r1 := ByteStep(r, b[0]);
    var r2 := ByteStep(r1, b[1]);
    var r3 := ByteStep(r2, b[2]);
    var r4 := ByteStep(r3, b[3]);
    CrcFromFour(r, b);
    FourBytes(h);
    PeelByte(r, h, b[0], h >> 8, 24);
    PeelByte(r1, h >> 8, b[1], h >> 16, 16);
    PeelByte(r2, h >> 16, b[2], h >> 24, 8);
    PeelByte(r3, h >> 24, b[3], 0, 0);
    XorZero(r4);
  }

  // ---------- lists of hashes ----------

  lemma DigestSnoc(hs: seq<Hash>, h: Hash)
    ensures ListDigest(hs + [h]) == Shifts(Xor(ListDigest(hs), h), 32)
  {
    hide Xor, Shifts, HashBytes;
    assert (hs + [h])[..|hs|] == hs;
    CrcFromConcat(0, ListBytes(hs), HashBytes(h));
    HashStep(ListDigest(hs), h);
  }

  lemma ShiftsZero(n: nat)
    ensures Shifts(0, n) == 0
  {
    hide Shift, Shifts;
    XorSelf(0);
    ShiftsXor(0, 0, n);
    XorSelf(Shifts(0, n));
  }

  /** Zero, the digest a fresh peer starts with, is the digest of a longer list exactly when its
      last hash equals the digest of what comes before it. */
  lemma DigestZero(hs: seq<Hash>, h: Hash)
    ensures ListDigest(hs + [h]) == 0 <==> h == ListDigest(hs)
  {
    hide Xor, Shifts, ListDigest;
    DigestSnoc(hs, h);
    XorIsZero(ListDigest(hs), h);
    ShiftsZero(32);
    if ListDigest(hs + [h]) == 0 {
      ShiftsInjective(Xor(ListDigest(hs), h), 0, 32);
    }
  }

  /** The list of one hash other than zero never has digest zero; a list of two hashes can. */
  lemma SingletonDigest(h: Hash)
    ensures ListDigest([h]) == 0 <==> h == 0
    ensures ListDigest([h, ListDigest([h])]) == 0
  {
    hide Xor, Shifts;
    DigestZero([], h);
    assert [] + [h] == [h];
    DigestZero([h], ListDigest([h]));
    assert [h] + [ListDigest([h])] == [h, ListDigest([h])];
  }

  lemma {:induction false} DigestTail(s: seq<Hash>, t: seq<Hash>, u: seq<Hash>)
    requires ListDigest(s + u) == ListDigest(t + u)
    ensures ListDigest(s) == ListDigest(t)
    decreases |u|
  {
    hide Xor, Shifts, ListDigest;
    if u == [] {
      assert s + u == s && t + u == t;
    } else {
      var n := |u| - 1;
      assert s + u == (s + u[..n]) + [u[n]] && t + u == (t + u[..n]) + [u[n]];
      DigestSnoc(s + u[..n], u[n]);
      DigestSnoc(t + u[..n], u[n]);
      ShiftsInjective(Xor(ListDigest(s + u[..n]), u[n]), Xor(ListDigest(t + u[..n]), u[n]), 32);
      XorCancel(ListDigest(s + u[..n]), ListDigest(t + u[..n]), u[n]);
      DigestTail(s, t, u[..n]);
    }
  }

  /** Replacing one hash of a list by another always changes the digest. */
  lemma SingleReplacement(hs: seq<Hash>, i: nat, h: Hash)
    requires i < |hs|
    ensures ListDigest(hs[i := h]) == ListDigest(hs) <==> h == hs[i]
  {
    hide Xor, Shifts, ListDigest;
    var p, u := hs[..i], hs[i + 1..];
    assert hs == (p + [hs[i]]) + u && hs[i := h] == (p + [h]) + u;
    if ListDigest(hs[i := h]) == ListDigest(hs) {
      DigestTail(p + [h], p + [hs[i]], u);
      DigestSnoc(p, h);
      DigestSnoc(p, hs[i]);
      ShiftsInjective(Xor(ListDigest(p), h), Xor(ListDigest(p), hs[i]), 32);
      XorComm(ListDigest(p), h);
      XorComm(ListDigest(p), hs[i]);
      XorCancel(h, hs[i], ListDigest(p));
    }
    assert hs[i := hs[i]] == hs;
  }

  lemma {:induction false} DigestXor(a: seq<Hash>, b: seq<Hash>)
    requires |a| == |b|
    ensures ListDigest(XorLists(a, b)) == Xor(ListDigest(a), ListDigest(b))
    decreases |a|
  {
    hide Xor, Shifts, ListDigest;
    if a == [] {
      assert XorLists(a, b) == [] && b == [];
      assert ListDigest([]) == 0 by { EmptyDigest(); }
      XorSelf(0);
    } else {
      var n := |a| - 1;
      var x, y := ListDigest(a[..n]), ListDigest(b[..n]);
      assert XorLists(a, b) == XorLists(a[..n], b[..n]) + [Xor(a[n], b[n])];
      assert a == a[..n] + [a[n]] && b == b[..n] + [b[n]];
      DigestXor(a[..n], b[..n]);
      DigestSnoc(XorLists(a[..n], b[..n]), Xor(a[n], b[n]));
      DigestSnoc(a[..n], a[n]);
      DigestSnoc(b[..n], b[n]);
      XorShuffle(x, y, a[n], b[n]);
      ShiftsXor(Xor(x, a[n]), Xor(y, b[n]), 32);
    }
  }

  lemma EmptyDigest()
    ensures ListDigest([]) == 0
  {
  }

  /** Two lists of one length collide exactly when their difference has digest zero. */
  lemma Collision(a: seq<Hash>, b: seq<Hash>)
    requires |a| == |b|
    ensures ListDigest(a) == ListDigest(b) <==> ListDigest(XorLists(a, b)) == 0
  {
    hide Xor, ListDigest;
    DigestXor(a, b);
    XorIsZero(ListDigest(a), ListDigest(b));
  }
}
