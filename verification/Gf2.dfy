/** Polynomials over the field of two elements, and the checksum as a remainder. */
module Gf2 {

  /** Coefficient i at index i; coefficients past the end are zero. */
  type Poly = seq<bool>

  function Coef(p: Poly, i: nat): bool {
    i < |p| && p[i]
  }

  /** Equal as polynomials, whatever zeros they carry at the top. */
  ghost predicate Same(p: Poly, q: Poly) {
    forall i: nat :: Coef(p, i) == Coef(q, i)
  }

  function Add(p: Poly, q: Poly): (r: Poly)
    ensures forall i: nat :: Coef(r, i) == (Coef(p, i) != Coef(q, i))
  {
    seq(if |p| > |q| then |p| else |q|, i requires 0 <= i => Coef(p, i) != Coef(q, i))
  }

  /** Multiplication by x. */
  function ShiftUp(p: Poly): (r: Poly)
    ensures forall i: nat :: Coef(r, i) == (i > 0 && Coef(p, i - 1))
  {
    [false] + p
  }

  function Scale(b: bool, p: Poly): Poly {
    if b then p else []
  }

  function Times(g: Poly, q: Poly): Poly {
    if q == [] then [] else Add(Scale(q[0], g), ShiftUp(Times(g, q[1..])))
  }

  /** r is the remainder of m divided by g: shorter than g's top term, and off by a multiple of g. */
  ghost predicate IsRemainder(m: Poly, g: Poly, r: Poly) {
    |g| > 0 && |r| < |g| && exists q: Poly :: Same(m, Add(Times(g, q), r))
  }

  // ---------- the remainder is unique ----------

  lemma {:induction false} TimesAdd(g: Poly, p: Poly, q: Poly)
    requires |p| == |q|
    ensures Same(Times(g, Add(p, q)), Add(Times(g, p), Times(g, q)))
    decreases |p|
  {
    if p != [] {
      var s := Add(p, q);
      assert s[1..] == Add(p[1..], q[1..]);
      TimesAdd(g, p[1..], q[1..]);
      assert s[0] == (p[0] != q[0]);
      var tp, tq, ts := Times(g, p[1..]), Times(g, q[1..]), Times(g, s[1..]);
      forall i: nat
        ensures Coef(Times(g, s), i) == Coef(Add(Times(g, p), Times(g, q)), i)
      {
        assert i > 0 ==> Coef(ts, i - 1) == (Coef(tp, i - 1) != Coef(tq, i - 1));
        assert Coef(Scale(s[0], g), i) == (Coef(Scale(p[0], g), i) != Coef(Scale(q[0], g), i));
      }
    }
  }

  lemma {:induction false} TimesPad(g: Poly, q: Poly, n: nat)
    ensures Same(Times(g, q + seq(n, _ => false)), Times(g, q))
    decreases |q|, n
  {
    var z := seq(n, _ => false);
    if q == [] {
      assert q + z == z;
      if n > 0 {
        assert z[1..] == [] + seq(n - 1, _ => false);
        TimesPad(g, [], n - 1);
        assert forall i: nat :: !Coef(Times(g, z), i);
      }
    } else {
      assert (q + z)[1..] == q[1..] + z;
      TimesPad(g, q[1..], n);
    }
  }

  ghost predicate IsZero(p: Poly) {
    forall i: nat :: !Coef(p, i)
  }

  lemma {:induction false} TimesZero(g: Poly, q: Poly)
    requires IsZero(q)
    ensures IsZero(Times(g, q))
    decreases |q|
  {
    if q != [] {
      assert !Coef(q, 0);
      assert IsZero(q[1..]) by {
        forall i: nat ensures !Coef(q[1..], i) { assert !Coef(q, i + 1); }
      }
      TimesZero(g, q[1..]);
    }
  }

  /** The term of degree t is the top one. */
  ghost predicate IsTop(p: Poly, t: nat) {
    Coef(p, t) && forall i: nat :: i > t ==> !Coef(p, i)
  }

  lemma TopOfTail(q: Poly, t: nat)
    requires IsTop(q, t)
    ensures q != []
    ensures if t == 0 then q[0] && IsZero(q[1..]) else IsTop(q[1..], t - 1)
  {
    assert forall i: nat :: Coef(q[1..], i) == Coef(q, i + 1);
  }

  lemma AboveTop(p: Poly, t: nat, i: nat)
    requires IsTop(p, t)
    ensures Coef(p, t + i) <==> i == 0
  {
  }

  lemma TimesCoef(g: Poly, q: Poly, i: nat)
    requires q != []
    ensures Coef(Times(g, q), i) == ((q[0] && Coef(g, i)) != (i > 0 && Coef(Times(g, q[1..]), i - 1)))
  {
  }

  /** A product has a term where the top terms of its factors meet. */
  lemma {:induction false} TopTerm(g: Poly, q: Poly, d: nat, t: nat)
    requires IsTop(g, d) && IsTop(q, t)
    ensures Coef(Times(g, q), d + t)
    decreases t
  {
    hide Times, Coef, IsTop;
    TopOfTail(q, t);
    TimesCoef(g, q, d + t);
    AboveTop(g, d, t);
    if t == 0 {
      TimesZero(g, q[1..]);
    } else {
      TopTerm(g, q[1..], d, t - 1);
    }
  }

  lemma {:induction false} FindTop(q: Poly) returns (t: nat)
    requires !IsZero(q)
    ensures IsTop(q, t)
    decreases |q|
  {
    var n := |q| - 1;
    if q[n] {
      t := n;
    } else {
      forall i: nat ensures Coef(q[..n], i) == Coef(q, i) { }
      t := FindTop(q[..n]);
    }
  }

  /** Two quotients can be brought to one length; their difference is the quotient of the difference. */
  lemma QuotientDifference(g: Poly, p: Poly, q: Poly) returns (u: Poly)
    ensures forall i: nat :: Coef(Times(g, u), i) == (Coef(Times(g, p), i) != Coef(Times(g, q), i))
  {
    hide Times, Coef;
    var p', q' := p + seq(|q|, _ => false), q + seq(|p|, _ => false);
    TimesPad(g, p, |q|);
    TimesPad(g, q, |p|);
    u := Add(p', q');
    TimesAdd(g, p', q');
  }

  /** A multiple of g that is shorter than g is zero. */
  lemma ShortMultiple(g: Poly, u: Poly, d: nat)
    requires |g| == d + 1 && g[d]
    requires forall i: nat :: i >= d ==> !Coef(Times(g, u), i)
    ensures IsZero(Times(g, u))
  {
    hide Times;
    if !IsZero(u) {
      var t := FindTop(u);
      TopTerm(g, u, d, t);
    }
    TimesZero(g, u);
  }

  lemma RemainderDifference(m: Poly, g: Poly, p: Poly, r: Poly, q: Poly, s: Poly)
    requires Same(m, Add(Times(g, p), r)) && Same(m, Add(Times(g, q), s))
    ensures forall i: nat :: (Coef(Times(g, p), i) != Coef(Times(g, q), i)) == (Coef(r, i) != Coef(s, i))
  {
    hide Times;
    var a, b := Add(Times(g, p), r), Add(Times(g, q), s);
    forall i: nat
      ensures (Coef(Times(g, p), i) != Coef(Times(g, q), i)) == (Coef(r, i) != Coef(s, i))
    {
      assert Coef(m, i) == Coef(a, i) && Coef(m, i) == Coef(b, i);
    }
  }

  lemma RemainderUnique(m: Poly, g: Poly, r: Poly, s: Poly)
    requires IsRemainder(m, g, r) && IsRemainder(m, g, s)
    requires g[|g| - 1]
    ensures Same(r, s)
  {
    var p: Poly :| Same(m, Add(Times(g, p), r));
    var q: Poly :| Same(m, Add(Times(g, q), s));
    RemainderDifference(m, g, p, r, q, s);
    hide Times, IsRemainder;
    var u := QuotientDifference(g, p, q);
    ShortMultiple(g, u, |g| - 1);
  }
}
