/** Facts about sequences that the tables and the protocol share. */
module Sequences {

  ghost predicate Distinct<T>(s: seq<T>) {
    forall i, j :: 0 <= i < j < |s| ==> s[i] != s[j]
  }

  ghost predicate Increasing(s: seq<nat>) {
    forall p, q :: 0 <= p < q < |s| ==> s[p] < s[q]
  }

  lemma IncreasingSnoc(s: seq<nat>, n: nat)
    requires Increasing(s) && forall i :: i in s ==> i < n
    ensures Increasing(s + [n])
    ensures forall i :: i in s + [n] <==> i in s || i == n
  {
    forall p | 0 <= p < |s|
      ensures s[p] < n
    {
      assert s[p] in s;
    }
  }

  predicate Below(s: seq<nat>, n: nat) {
    forall i :: 0 <= i < |s| ==> s[i] < n
  }

  function Reverse<T(!new)>(s: seq<T>): (r: seq<T>)
    ensures |r| == |s|
    ensures forall i :: 0 <= i < |s| ==> r[i] == s[|s| - 1 - i]
  {
    if s == [] then [] else Reverse(s[1..]) + [s[0]]
  }

  function Filter<T(!new)>(s: seq<T>, keep: T -> bool): (r: seq<T>)
    ensures |r| <= |s|
    ensures forall x :: x in r <==> x in s && keep(x)
  {
    if s == [] then []
    else
      var n := |s| - 1;
      assert forall x :: x in s <==> x in s[..n] || x == s[n];
      if keep(s[n]) then Filter(s[..n], keep) + [s[n]] else Filter(s[..n], keep)
  }

  function Except<T(==,!new)>(x: T): T -> bool {
    y => y != x
  }

  lemma BelowSubset(s: seq<nat>, t: seq<nat>, n: nat)
    requires Below(s, n) && forall x :: x in t ==> x in s
    ensures Below(t, n)
  {
    forall i | 0 <= i < |t|
      ensures t[i] < n
    {
      assert t[i] in s;
    }
  }

  /** s without the first occurrence of x. */
  function Remove<T(==,!new)>(s: seq<T>, x: T): seq<T> {
    if s == [] then [] else if s[0] == x then s[1..] else [s[0]] + Remove(s[1..], x)
  }

  lemma {:induction false} FilterDistinct<T(!new)>(s: seq<T>, keep: T -> bool)
    requires Distinct(s)
    ensures Distinct(Filter(s, keep))
    decreases |s|
  {
    if s != [] {
      FilterDistinct(s[..|s| - 1], keep);
    }
  }

  lemma {:induction false} FilterConcat<T(!new)>(s: seq<T>, t: seq<T>, keep: T -> bool)
    ensures Filter(s + t, keep) == Filter(s, keep) + Filter(t, keep)
    decreases |t|
  {
    if t == [] {
      assert s + t == s;
    } else {
      var n := |t| - 1;
      assert (s + t)[..|s + t| - 1] == s + t[..n];
      FilterConcat(s, t[..n], keep);
    }
  }

  lemma {:induction false} FilterAll<T(!new)>(s: seq<T>, keep: T -> bool)
    requires forall x :: x in s ==> keep(x)
    ensures Filter(s, keep) == s
    decreases |s|
  {
    if s != [] {
      FilterAll(s[..|s| - 1], keep);
      assert s[..|s| - 1] + [s[|s| - 1]] == s;
    }
  }

  lemma {:induction false} FilterNone<T(!new)>(s: seq<T>, keep: T -> bool)
    requires forall x :: x in s ==> !keep(x)
    ensures Filter(s, keep) == []
    decreases |s|
  {
    if s != [] {
      FilterNone(s[..|s| - 1], keep);
    }
  }

  lemma {:induction false} FilterSame<T(!new)>(s: seq<T>, p: T -> bool, q: T -> bool)
    requires forall x :: x in s ==> p(x) == q(x)
    ensures Filter(s, p) == Filter(s, q)
    decreases |s|
  {
    if s != [] {
      FilterSame(s[..|s| - 1], p, q);
    }
  }

  lemma {:induction false} FilterShorter<T(!new)>(s: seq<T>, keep: T -> bool, a: nat)
    requires a < |s| && !keep(s[a])
    ensures |Filter(s, keep)| < |s|
    decreases |s|
  {
    if a < |s| - 1 {
      FilterShorter(s[..|s| - 1], keep, a);
    }
  }

  /** Where entry p of a filtered list comes from: no earlier than p, and later if something before
      was left out. */
  lemma {:induction false} FilterOrigin<T(!new)>(s: seq<T>, keep: T -> bool, p: nat) returns (j: nat)
    requires p < |Filter(s, keep)|
    ensures p <= j < |s| && Filter(s, keep)[p] == s[j] && keep(s[j])
    ensures (exists a :: 0 <= a <= p && a < |s| && !keep(s[a])) ==> p < j
    decreases |s|
  {
    var n := |s| - 1;
    if p < |Filter(s[..n], keep)| {
      j := FilterOrigin(s[..n], keep, p);
      if a :| 0 <= a <= p && a < |s| && !keep(s[a]) {
        assert !keep(s[..n][a]);
      }
    } else {
      j := n;
      if a :| 0 <= a <= p && a < |s| && !keep(s[a]) {
        FilterShorter(s[..n], keep, a);
      }
    }
  }

  /** Where in a list its entries that satisfy a condition are. */
  lemma {:induction false} FilterPlaces<T(!new)>(s: seq<T>, keep: T -> bool) returns (at: seq<nat>)
    ensures Increasing(at) && forall i: nat :: i in at <==> i < |s| && keep(s[i])
    ensures |Filter(s, keep)| == |at| && forall q :: 0 <= q < |at| ==> at[q] < |s| && Filter(s, keep)[q] == s[at[q]]
    decreases |s|
  {
    at := [];
    if s != [] {
      var m := |s| - 1;
      var rest := FilterPlaces(s[..m], keep);
      IncreasingSnoc(rest, m);
      at := if keep(s[m]) then rest + [m] else rest;
    }
  }

  lemma ReverseReverse<T(!new)>(s: seq<T>)
    ensures Reverse(Reverse(s)) == s
  {
  }

  lemma ReverseMembers<T(!new)>(s: seq<T>)
    ensures forall x :: x in Reverse(s) <==> x in s
  {
    forall x
      ensures x in Reverse(s) <==> x in s
    {
      if x in s {
        var i :| 0 <= i < |s| && s[i] == x;
        assert Reverse(s)[|s| - 1 - i] == x;
      }
    }
  }

  /** Removing from a list without repetitions is filtering. */
  lemma {:induction false} RemoveIsFilter<T(!new)>(s: seq<T>, x: T)
    requires Distinct(s)
    ensures Remove(s, x) == Filter(s, Except(x))
    ensures |Remove(s, x)| == if x in s then |s| - 1 else |s|
    decreases |s|
  {
    if s != [] {
      var t := s[1..];
      assert s == [s[0]] + t;
      FilterConcat([s[0]], t, Except(x));
      assert Filter([s[0]], Except(x)) == if s[0] != x then [s[0]] else [] by {
        assert [s[0]][..0] == [];
      }
      if s[0] == x {
        assert x !in t;
        FilterAll(t, Except(x));
      } else {
        RemoveIsFilter(t, x);
      }
    }
  }

  lemma {:induction false} RemoveMembers<T(!new)>(s: seq<T>, x: T)
    requires Distinct(s)
    ensures Distinct(Remove(s, x))
    ensures forall y :: y in Remove(s, x) <==> y in s && y != x
  {
    RemoveIsFilter(s, x);
    FilterDistinct(s, Except(x));
  }

  /** A list of distinct numbers below n has at most n entries, and all of them if it has n. */
  lemma {:induction false} Pigeonhole(s: seq<nat>, n: nat)
    requires Distinct(s) && Below(s, n)
    ensures |s| <= n
    ensures |s| == n ==> forall x: nat :: x < n ==> x in s
    decreases n
  {
    hide Filter, Remove, Distinct, Below;
    BelowFirst(s, n);
    if n > 0 {
      RemoveIsFilter<nat>(s, n - 1);
      RemoveMembers<nat>(s, n - 1);
      BelowSubset(s, Remove<nat>(s, n - 1), n);
      BelowExcept(Remove<nat>(s, n - 1), n);
      Pigeonhole(Remove<nat>(s, n - 1), n - 1);
      BelowMembers(s, n);
      assert |s| == n ==> n - 1 in s;
    }
  }

  lemma BelowFirst(s: seq<nat>, n: nat)
    requires Below(s, n)
    ensures s != [] ==> 0 <= s[0] < n
  {
  }

  lemma BelowMembers(s: seq<nat>, n: nat)
    requires Below(s, n)
    ensures forall x :: x in s ==> x < n
  {
  }

  lemma BelowExcept(s: seq<nat>, n: nat)
    requires n > 0 && Below(s, n) && n - 1 !in s
    ensures Below(s, n - 1)
  {
  }

  /** Leaving out one of them leaves fewer. */
  lemma RoomForOne(s: seq<nat>, k: nat, n: nat)
    requires Distinct(s) && Below(s, n) && k < n && k !in s
    ensures |s| < n
  {
    Pigeonhole(s + [k], n);
  }

  // ---------- compaction in place ----------

  /** A buffer whose first num entries are in use, after entry i is overwritten by shifting down:
      what lies past the last used entry stays. */
  function ShiftDown<T(!new)>(s: seq<T>, num: nat, i: nat): (r: seq<T>)
    requires i < num <= |s|
    ensures |r| == |s|
  {
    s[..i] + s[i + 1..num] + s[num - 1..]
  }

  /** Dropping, from entry i on, every used entry that is not to be kept. */
  function Compact<T(!new)>(s: seq<T>, num: nat, i: nat, keep: T -> bool): (r: (seq<T>, nat))
    requires i <= num <= |s|
    ensures |r.0| == |s| && i <= r.1 <= num
    decreases num - i
  {
    if i == num then (s, num)
    else if keep(s[i]) then Compact(s, num, i + 1, keep)
    else Compact(ShiftDown(s, num, i), num - 1, i, keep)
  }

  lemma ShiftDownParts<T(!new)>(s: seq<T>, num: nat, i: nat)
    requires i < num <= |s|
    ensures var t := ShiftDown(s, num, i);
            && t[..i] == s[..i] && t[i..num - 1] == s[i + 1..num]
            && forall j :: num - 1 <= j < |s| ==> t[j] == s[j]
  {
  }

  lemma FilterHead<T(!new)>(s: seq<T>, keep: T -> bool)
    requires s != []
    ensures Filter(s, keep) == (if keep(s[0]) then [s[0]] else []) + Filter(s[1..], keep)
  {
    assert s == [s[0]] + s[1..];
    FilterConcat([s[0]], s[1..], keep);
    assert [s[0]][..0] == [];
  }

  /** The used entries left are those to be kept, in order; entries never in use are untouched. */
  ghost predicate IsCompaction<T(!new)>(s: seq<T>, num: nat, i: nat, keep: T -> bool, r: seq<T>, n: nat) {
    && i <= num <= |s| == |r| && n <= |r|
    && r[..n] == s[..i] + Filter(s[i..num], keep)
    && forall j :: num <= j < |s| ==> r[j] == s[j]
  }

  lemma CompactionKeeps<T(!new)>(s: seq<T>, num: nat, i: nat, keep: T -> bool, r: seq<T>, n: nat)
    requires i < num && IsCompaction(s, num, i + 1, keep, r, n) && keep(s[i])
    ensures IsCompaction(s, num, i, keep, r, n)
  {
    hide Filter;
    FilterHead(s[i..num], keep);
    assert s[i..num][1..] == s[i + 1..num];
    assert s[..i + 1] == s[..i] + [s[i]];
  }

  lemma CompactionDrops<T(!new)>(s: seq<T>, num: nat, i: nat, keep: T -> bool, r: seq<T>, n: nat)
    requires i < num <= |s| && !keep(s[i])
    requires IsCompaction(ShiftDown(s, num, i), num - 1, i, keep, r, n)
    ensures IsCompaction(s, num, i, keep, r, n)
  {
    hide Filter, ShiftDown;
    FilterHead(s[i..num], keep);
    assert s[i..num][1..] == s[i + 1..num];
    ShiftDownParts(s, num, i);
  }

  lemma {:induction false} CompactIsFilter<T(!new)>(s: seq<T>, num: nat, i: nat, keep: T -> bool)
    requires i <= num <= |s|
    ensures IsCompaction(s, num, i, keep, Compact(s, num, i, keep).0, Compact(s, num, i, keep).1)
    decreases num - i
  {
    hide ShiftDown, IsCompaction;
    var (r, n) := Compact(s, num, i, keep);
    if i == num {
      NothingToCompact(s, num, keep);
    } else if keep(s[i]) {
      CompactIsFilter(s, num, i + 1, keep);
      CompactionKeeps(s, num, i, keep, r, n);
    } else {
      CompactIsFilter(ShiftDown(s, num, i), num - 1, i, keep);
      CompactionDrops(s, num, i, keep, r, n);
    }
  }

  lemma NothingToCompact<T(!new)>(s: seq<T>, num: nat, keep: T -> bool)
    requires num <= |s|
    ensures IsCompaction(s, num, num, keep, s, num)
  {
  }
}
