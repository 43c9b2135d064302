/** Timespec arithmetic (`include/uccn/common/time.h`): a time is a count of nanoseconds or, with a
    negative seconds field, infinity. */
module Time {

  const NS: int := 1_000_000_000

  datatype Timespec = Timespec(sec: int, nsec: int)

  const ZERO := Timespec(0, 0)

  predicate IsZero(t: Timespec) {
    t.sec == 0 && t.nsec == 0
  }

  predicate IsFinite(t: Timespec) {
    t.sec >= 0 && t.nsec >= 0
  }

  /** Infinite, or with less than a second in the nanoseconds field. */
  predicate Normal(t: Timespec) {
    t.sec < 0 || 0 <= t.nsec < NS
  }

  // C division rounds towards zero.

  function Quotient(n: int, d: int): int
    requires d > 0
  {
    if n >= 0 then n / d else -((-n) / d)
  }

  function Remainder(n: int, d: int): int
    requires d > 0
  {
    n - d * Quotient(n, d)
  }

  /** The three-way comparison. */
  function Cmp(a: Timespec, b: Timespec): int {
    if a.sec < 0 && b.sec >= 0 then 1
    else if a.sec >= 0 && b.sec < 0 then -1
    else if a.sec < 0 && b.sec < 0 then 0
    else if a.sec > b.sec then 1
    else if a.sec < b.sec then -1
    else if a.nsec > b.nsec then 1
    else if a.nsec < b.nsec then -1
    else 0
  }

  /** What `timespec_add` leaves in its first argument. */
  function Plus(a: Timespec, b: Timespec): Timespec {
    if a.sec < 0 || b.sec < 0 then Timespec(-1, -1)
    else
      var n := a.nsec + b.nsec;
      Timespec(a.sec + b.sec + Quotient(n, NS), Remainder(n, NS))
  }

  /** What `timespec_diff` leaves in its first argument. */
  function Diff(a: Timespec, b: Timespec): Timespec {
    if a.sec < 0 || b.sec < 0 then Timespec(-1, -1)
    else
      var d := if Cmp(a, b) > 0 then Timespec(a.sec - b.sec, a.nsec - b.nsec)
               else Timespec(b.sec - a.sec, b.nsec - a.nsec);
      if d.nsec < 0 then Timespec(d.sec - 1, d.nsec + NS) else d
  }

  /** A timespec variable, changed in place. */
  class TimespecVar {
    var sec: int
    var nsec: int

    function Value(): Timespec
      reads this
    {
      Timespec(sec, nsec)
    }

    constructor (t: Timespec)
      ensures Value() == t
    {
      sec, nsec := t.sec, t.nsec;
    }

    method SetInfinite()
      modifies this
      ensures Value() == Timespec(-1, -1)
    {
      sec := -1;
      nsec := -1;
    }

    /** The second argument may be the same variable. */
    method Add(b: TimespecVar)
      modifies this
      ensures Value() == Plus(old(Value()), old(b.Value()))
    {
      if sec < 0 || b.sec < 0 {
        SetInfinite();
        return;
      }
      sec := sec + b.sec;
      nsec := nsec + b.nsec;
      sec := sec + Quotient(nsec, NS);
      nsec := Remainder(nsec, NS);
    }

    method Subtract(b: TimespecVar)
      modifies this
      ensures Value() == Diff(old(Value()), old(b.Value()))
    {
      if sec < 0 || b.sec < 0 {
        SetInfinite();
        return;
      }
      if Cmp(Value(), b.Value()) > 0 {
        sec := sec - b.sec;
        nsec := nsec - b.nsec;
      } else {
        sec := b.sec - sec;
        nsec := b.nsec - nsec;
      }
      if nsec < 0 {
        nsec := nsec + NS;
        sec := sec - 1;
      }
    }
  }

  // ---------- what the operations mean ----------

  datatype Instant = Finite(ns: int) | Never

  function Meaning(t: Timespec): Instant {
    if t.sec < 0 then Never else Finite(t.sec * NS + t.nsec)
  }

  predicate AtMost(a: Instant, b: Instant) {
    b.Never? || (a.Finite? && a.ns <= b.ns)
  }

  /** On normal values the comparison is the order of nanosecond counts with infinity on top. */
  lemma CmpIsOrder(a: Timespec, b: Timespec)
    requires Normal(a) && Normal(b)
    ensures Cmp(a, b) <= 0 <==> AtMost(Meaning(a), Meaning(b))
    ensures Cmp(a, b) >= 0 <==> AtMost(Meaning(b), Meaning(a))
    ensures Cmp(a, b) == 0 <==> Meaning(a) == Meaning(b)
  {
  }

  /** The result is normal and exact even when the nanosecond fields hold more than a second, as
      `TIMESPEC_MICROSECONDS_INIT` may leave them. */
  lemma PlusIsExact(a: Timespec, b: Timespec)
    requires (a.sec < 0 || IsFinite(a)) && (b.sec < 0 || IsFinite(b))
    ensures Normal(Plus(a, b))
    ensures if a.sec < 0 || b.sec < 0 then Meaning(Plus(a, b)) == Never
            else Meaning(Plus(a, b)) == Finite(Meaning(a).ns + Meaning(b).ns)
  {
  }

  /** The exact distance, whichever comes first. */
  lemma DiffIsDistance(a: Timespec, b: Timespec)
    requires Normal(a) && Normal(b)
    ensures Normal(Diff(a, b))
    ensures if a.sec < 0 || b.sec < 0 then Meaning(Diff(a, b)) == Never
            else
              var d := Meaning(a).ns - Meaning(b).ns;
              Meaning(Diff(a, b)) == Finite(if d >= 0 then d else -d)
  {
  }

  /** On normal finite values the subtraction undoes the addition. */
  lemma DiffUndoesPlus(a: Timespec, b: Timespec)
    requires Normal(a) && Normal(b) && a.sec >= 0 && b.sec >= 0
    ensures Diff(Plus(a, b), b) == a && Diff(Plus(a, b), a) == b
  {
    PlusIsExact(a, b);
    DiffIsDistance(Plus(a, b), b);
    DiffIsDistance(Plus(a, b), a);
  }

  function PlusAll(t: Timespec, ds: seq<Timespec>): Timespec {
    if ds == [] then t else Plus(PlusAll(t, ds[..|ds| - 1]), ds[|ds| - 1])
  }

  function TotalNs(ds: seq<Timespec>): int {
    if ds == [] then 0 else TotalNs(ds[..|ds| - 1]) + ds[|ds| - 1].sec * NS + ds[|ds| - 1].nsec
  }

  /** Any chain of additions stays normal and adds up exactly; one infinite term makes it infinite. */
  lemma {:induction false} ChainIsExact(t: Timespec, ds: seq<Timespec>)
    requires Normal(t) && forall i :: 0 <= i < |ds| ==> Normal(ds[i])
    ensures Normal(PlusAll(t, ds))
    ensures if t.sec < 0 || exists i :: 0 <= i < |ds| && ds[i].sec < 0 then Meaning(PlusAll(t, ds)) == Never
            else Meaning(PlusAll(t, ds)) == Finite(Meaning(t).ns + TotalNs(ds))
    decreases |ds|
  {
    if ds != [] {
      var n := |ds| - 1;
      ChainIsExact(t, ds[..n]);
      PlusIsExact(PlusAll(t, ds[..n]), ds[n]);
      assert (exists i :: 0 <= i < |ds| && ds[i].sec < 0) <==>
             (ds[n].sec < 0 || exists i :: 0 <= i < n && ds[..n][i].sec < 0) by {
        if i :| 0 <= i < |ds| && ds[i].sec < 0 {
          if i < n {
            assert ds[..n][i].sec < 0;
          }
        }
        if i :| 0 <= i < n && ds[..n][i].sec < 0 {
          assert ds[i].sec < 0;
        }
      }
    }
  }

  // ---------- finite times as integers ----------

  /** A clock reading: finite and normal. */
  predicate Clock(t: Timespec) {
    0 <= t.sec && 0 <= t.nsec < NS
  }

  function Ns(t: Timespec): int {
    t.sec * NS + t.nsec
  }

  function FromMs(ms: nat): (t: Timespec)
    ensures Clock(t) && Ns(t) == 1_000_000 * ms
  {
    Timespec(ms / 1000, 1_000_000 * (ms % 1000))
  }

  lemma ClockArithmetic(a: Timespec, b: Timespec)
    requires Clock(a) && Clock(b)
    ensures Clock(Plus(a, b)) && Ns(Plus(a, b)) == Ns(a) + Ns(b)
    ensures Cmp(a, b) >= 0 <==> Ns(a) >= Ns(b)
    ensures Cmp(a, b) > 0 <==> Ns(a) > Ns(b)
    ensures Ns(a) == Ns(b) <==> a == b
    ensures Ns(a) >= 0 && (Ns(a) == 0 <==> IsZero(a))
  {
  }

  /** The earlier of two deadlines, keeping the first when they compare equal. */
  function Earlier(a: Timespec, b: Timespec): Timespec {
    if Cmp(a, b) > 0 then b else a
  }
}
