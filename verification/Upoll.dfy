/** Periodic polls (`src/utilities/upoll.c`): each call fires every due poll once and moves its
    next time on by its period. */
module Upoll {
  import opened Time
  import opened Sequences

  datatype Poll = Poll(arg: nat, period: Timespec, next: Timespec)

  predicate IsDue(p: Poll, now: Timespec) {
    Cmp(now, p.next) >= 0
  }

  /** A poll after one call; a next time of zero stands for "now". */
  function Advance(p: Poll, now: Timespec): Poll {
    if IsDue(p, now) then p.(next := Plus(if IsZero(p.next) then now else p.next, p.period)) else p
  }

  function AdvanceAll(ps: seq<Poll>, now: Timespec): (r: seq<Poll>)
    ensures |r| == |ps|
  {
    seq(|ps|, i requires 0 <= i < |ps| => Advance(ps[i], now))
  }

  /** The callback arguments of the due polls, in array order. */
  function DueArgs(ps: seq<Poll>, now: Timespec): seq<nat> {
    if ps == [] then []
    else DueArgs(ps[..|ps| - 1], now) + (if IsDue(ps[|ps| - 1], now) then [ps[|ps| - 1].arg] else [])
  }

  /** The least next time. */
  function Earliest(ps: seq<Poll>): Timespec {
    if ps == [] then Timespec(-1, -1) else Earlier(Earliest(ps[..|ps| - 1]), ps[|ps| - 1].next)
  }

  /** One call. The result is the argument untouched when there is nothing to poll. */
  method Upoll(polls: array<Poll>, now: Timespec, next0: Timespec) returns (next: Timespec, fired: seq<nat>)
    modifies polls
    ensures polls[..] == AdvanceAll(old(polls[..]), now)
    ensures fired == DueArgs(old(polls[..]), now)
    ensures next == if polls.Length == 0 then next0 else Earliest(polls[..])
  {
    next := next0;
    fired := [];
    if polls.Length > 0 {
      next := Timespec(-1, -1);
      for i := 0 to polls.Length
        invariant forall k :: 0 <= k < i ==> polls[k] == Advance(old(polls[k]), now)
        invariant forall k :: i <= k < polls.Length ==> polls[k] == old(polls[k])
        invariant fired == DueArgs(old(polls[..])[..i], now)
        invariant next == Earliest(polls[..i])
      {
        assert old(polls[..])[..i + 1][..i] == old(polls[..])[..i];
        if Cmp(now, polls[i].next) >= 0 {
          fired := fired + [polls[i].arg];
          if IsZero(polls[i].next) {
            polls[i] := polls[i].(next := now);
          }
          polls[i] := polls[i].(next := Plus(polls[i].next, polls[i].period));
        }
        if Cmp(next, polls[i].next) > 0 {
          next := polls[i].next;
        }
        assert polls[..i + 1][..i] == polls[..i];
      }
      assert old(polls[..])[..polls.Length] == old(polls[..]) && polls[..polls.Length] == polls[..];
    }
  }

  /** What a call reports are the arguments, in order and once each, of exactly the polls whose next time is
      finite and not after the reading. */
  lemma {:induction false} FiredExactly(ps: seq<Poll>, now: Timespec) returns (at: seq<nat>)
    requires Clock(now) && forall i :: 0 <= i < |ps| ==> Normal(ps[i].next)
    ensures Increasing(at)
    ensures forall i: nat :: i in at <==> i < |ps| && ps[i].next.sec >= 0 && Ns(ps[i].next) <= Ns(now)
    ensures |DueArgs(ps, now)| == |at|
    ensures forall q :: 0 <= q < |at| ==> at[q] < |ps| && DueArgs(ps, now)[q] == ps[at[q]].arg
    decreases |ps|
  {
    hide Cmp, Ns;
    at := [];
    if ps != [] {
      var n := |ps| - 1;
      var rest := FiredExactly(ps[..n], now);
      DueMeans(ps[n], now);
      IncreasingSnoc(rest, n);
      at := if IsDue(ps[n], now) then rest + [n] else rest;
    }
  }

  lemma DueMeans(p: Poll, now: Timespec)
    requires Clock(now) && Normal(p.next)
    ensures IsDue(p, now) <==> p.next.sec >= 0 && Ns(p.next) <= Ns(now)
  {
    if p.next.sec >= 0 {
      ClockArithmetic(now, p.next);
    }
  }

  /** The result of a call is a lower bound of the next times and, unless all are infinite, one of them. */
  lemma {:induction false} EarliestIsMinimum(ps: seq<Poll>)
    requires forall i :: 0 <= i < |ps| ==> Normal(ps[i].next)
    ensures Normal(Earliest(ps))
    ensures forall i :: 0 <= i < |ps| ==> AtMost(Meaning(Earliest(ps)), Meaning(ps[i].next))
    ensures Meaning(Earliest(ps)) == Never || exists i :: 0 <= i < |ps| && Earliest(ps) == ps[i].next
    decreases |ps|
  {
    if ps != [] {
      var n := |ps| - 1;
      var e := Earliest(ps[..n]);
      EarliestIsMinimum(ps[..n]);
      CmpIsOrder(e, ps[n].next);
      if Cmp(e, ps[n].next) <= 0 && Meaning(e) != Never {
        var i :| 0 <= i < n && e == ps[..n][i].next;
        assert e == ps[i].next;
      }
    }
  }

  // ---------- runs ----------

  /** The polls after calls at the given clock readings. */
  function Run(ps: seq<Poll>, readings: seq<Timespec>): (r: seq<Poll>)
    ensures |r| == |ps|
  {
    if readings == [] then ps else AdvanceAll(Run(ps, readings[..|readings| - 1]), readings[|readings| - 1])
  }

  /** How often poll i has fired in such a run. */
  function Firings(ps: seq<Poll>, readings: seq<Timespec>, i: nat): nat
    requires i < |ps|
  {
    if readings == [] then 0
    else
      var n := |readings| - 1;
      Firings(ps, readings[..n], i) + if IsDue(Run(ps, readings[..n])[i], readings[n]) then 1 else 0
  }

  /** How often calls of such a run report an argument. */
  function Reported(ps: seq<Poll>, readings: seq<Timespec>, arg: nat): nat {
    if readings == [] then 0
    else
      var n := |readings| - 1;
      Reported(ps, readings[..n], arg) + multiset(DueArgs(Run(ps, readings[..n]), readings[n]))[arg]
  }

  ghost predicate DistinctArgs(ps: seq<Poll>) {
    forall i, j :: 0 <= i < j < |ps| ==> ps[i].arg != ps[j].arg
  }

  lemma {:induction false} DueArgsElsewhere(ps: seq<Poll>, now: Timespec, arg: nat)
    requires forall i :: 0 <= i < |ps| ==> ps[i].arg != arg
    ensures multiset(DueArgs(ps, now))[arg] == 0
    decreases |ps|
  {
    if ps != [] {
      DueArgsElsewhere(ps[..|ps| - 1], now, arg);
    }
  }

  lemma {:induction false} ReportedOnce(ps: seq<Poll>, now: Timespec, i: nat)
    requires DistinctArgs(ps) && i < |ps|
    ensures multiset(DueArgs(ps, now))[ps[i].arg] == if IsDue(ps[i], now) then 1 else 0
    decreases |ps|
  {
    hide IsDue;
    var n := |ps| - 1;
    if i < n {
      ReportedOnce(ps[..n], now, i);
    } else {
      DueArgsElsewhere(ps[..n], now, ps[n].arg);
    }
  }

  lemma {:induction false} RunKeepsArgs(ps: seq<Poll>, readings: seq<Timespec>)
    ensures forall i :: 0 <= i < |ps| ==> Run(ps, readings)[i].arg == ps[i].arg
    decreases |readings|
  {
    hide IsDue, Plus;
    if readings != [] {
      RunKeepsArgs(ps, readings[..|readings| - 1]);
    }
  }

  /** The firings of a poll are what calls report of it. */
  lemma {:induction false} FiringsAreReported(ps: seq<Poll>, readings: seq<Timespec>, i: nat)
    requires DistinctArgs(ps) && i < |ps|
    ensures Reported(ps, readings, ps[i].arg) == Firings(ps, readings, i)
    decreases |readings|
  {
    hide IsDue, DueArgs, Run;
    if readings != [] {
      var n := |readings| - 1;
      FiringsAreReported(ps, readings[..n], i);
      RunKeepsArgs(ps, readings[..n]);
      ReportedOnce(Run(ps, readings[..n]), readings[n], i);
    }
  }

  /** The reading at which poll i first fires, if it does. */
  function FirstFiring(ps: seq<Poll>, readings: seq<Timespec>, i: nat): (t: Timespec)
    requires i < |ps| && Firings(ps, readings, i) > 0
    ensures t in readings
  {
    var n := |readings| - 1;
    if Firings(ps, readings[..n], i) > 0 then FirstFiring(ps, readings[..n], i) else readings[n]
  }

  /** Where the schedule of poll i starts: its configured first time or, failing that, its first firing. */
  function Start(ps: seq<Poll>, readings: seq<Timespec>, i: nat): Timespec
    requires i < |ps| && Firings(ps, readings, i) > 0
  {
    if IsZero(ps[i].next) then FirstFiring(ps, readings, i) else ps[i].next
  }

  ghost predicate Readings(ts: seq<Timespec>) {
    && (forall k :: 0 <= k < |ts| ==> Clock(ts[k]))
    && (forall j, k :: 0 <= j <= k < |ts| ==> Ns(ts[j]) <= Ns(ts[k]))
  }

  /** k firings on a schedule of period d from start, the last of them by time now. */
  ghost predicate OnSchedule(start: int, k: int, d: int, next: int, now: int) {
    next == start + k * d && (k - 1) * d <= now - start
  }

  lemma ScheduleStep(start: int, k: int, d: int, next: int, before: int, now: int)
    requires OnSchedule(start, k, d, next, before) && before <= now
    ensures OnSchedule(start, k, d, next, now)
    ensures next <= now ==> OnSchedule(start, k + 1, d, next + d, now)
  {
    assert (k + 1) * d == k * d + d;
  }

  /** One call, for one poll. */
  lemma AdvanceOnce(p: Poll, now: Timespec)
    requires Clock(now) && Clock(p.period) && Ns(p.period) > 0 && Normal(p.next)
    ensures IsDue(p, now) <==> p.next.sec >= 0 && Ns(p.next) <= Ns(now)
    ensures var q := Advance(p, now);
            && q.period == p.period && q.arg == p.arg
            && (!IsDue(p, now) ==> q.next == p.next)
            && (IsDue(p, now) ==>
                  Clock(q.next) && Ns(q.next) > 0
                  && Ns(q.next) == Ns(if IsZero(p.next) then now else p.next) + Ns(p.period))
  {
    ClockArithmetic(now, p.period);
    if p.next.sec >= 0 {
      ClockArithmetic(now, p.next);
      ClockArithmetic(p.next, p.period);
    }
  }

  /** After its k-th firing a poll is due at exactly start + k * period, and it never fires ahead of
      that schedule. */
  lemma {:induction false} NoDrift(ps: seq<Poll>, readings: seq<Timespec>, i: nat)
    requires i < |ps| && Readings(readings)
    requires Clock(ps[i].period) && Ns(ps[i].period) > 0
    requires Normal(ps[i].next)
    ensures var p := Run(ps, readings)[i];
            var k := Firings(ps, readings, i);
            && p.period == ps[i].period && p.arg == ps[i].arg
            && if k == 0 then p.next == ps[i].next
               else
                 && Clock(p.next) && Ns(p.next) > 0
                 && Clock(Start(ps, readings, i))
                 && OnSchedule(Ns(Start(ps, readings, i)), k, Ns(ps[i].period), Ns(p.next),
                               Ns(readings[|readings| - 1]))
    decreases |readings|
  {
    if readings != [] {
      var n := |readings| - 1;
      NoDrift(ps, readings[..n], i);
      var p := Run(ps, readings[..n])[i];
      var k := Firings(ps, readings[..n], i);
      assert Run(ps, readings)[i] == Advance(p, readings[n]);
      hide Cmp, Plus, Advance, IsDue, OnSchedule, Ns;
      AdvanceOnce(p, readings[n]);
      if k > 0 {
        StartStable(ps, readings, i);
        ScheduleStep(Ns(Start(ps, readings, i)), k, Ns(p.period), Ns(p.next), Ns(readings[n - 1]), Ns(readings[n]));
        PositiveIsNonzero(p.next);
      } else if IsDue(p, readings[n]) {
        FirstOnSchedule(Ns(Start(ps, readings, i)), Ns(p.period), Ns(readings[n]));
      }
    }
  }

  lemma FirstOnSchedule(start: int, d: int, now: int)
    requires start <= now
    ensures OnSchedule(start, 1, d, start + d, now)
  {
  }

  lemma PositiveIsNonzero(t: Timespec)
    requires Ns(t) > 0
    ensures !IsZero(t)
  {
  }

  lemma StartStable(ps: seq<Poll>, readings: seq<Timespec>, i: nat)
    requires i < |ps| && |readings| > 0 && Firings(ps, readings[..|readings| - 1], i) > 0
    ensures Firings(ps, readings, i) > 0
    ensures Start(ps, readings, i) == Start(ps, readings[..|readings| - 1], i)
  {
  }

  /** By time t a poll has fired at most floor((t - start) / period) + 1 times, however late or often
      it was called. */
  lemma FiringBound(ps: seq<Poll>, readings: seq<Timespec>, i: nat)
    requires i < |ps| && Readings(readings)
    requires Clock(ps[i].period) && Ns(ps[i].period) > 0
    requires Normal(ps[i].next)
    requires Firings(ps, readings, i) > 0
    ensures Firings(ps, readings, i) <=
            (Ns(readings[|readings| - 1]) - Ns(Start(ps, readings, i))) / Ns(ps[i].period) + 1
  {
    assert readings != [];
    hide Firings, Start, Run, Ns;
    NoDrift(ps, readings, i);
    var x := Ns(readings[|readings| - 1]) - Ns(Start(ps, readings, i));
    var d := Ns(ps[i].period);
    QuotientBound(Firings(ps, readings, i) - 1, x, d);
  }

  /** So nothing is reported more often than that. */
  lemma ReportBound(ps: seq<Poll>, readings: seq<Timespec>, i: nat)
    requires i < |ps| && Readings(readings) && DistinctArgs(ps)
    requires Clock(ps[i].period) && Ns(ps[i].period) > 0
    requires Normal(ps[i].next)
    requires Firings(ps, readings, i) > 0
    ensures Reported(ps, readings, ps[i].arg) <=
            (Ns(readings[|readings| - 1]) - Ns(Start(ps, readings, i))) / Ns(ps[i].period) + 1
  {
    assert readings != [];
    hide Firings, Start, Run, Ns, Reported, DistinctArgs, Readings;
    FiringsAreReported(ps, readings, i);
    FiringBound(ps, readings, i);
  }

  lemma QuotientBound(k: int, x: int, d: int)
    requires d > 0 && k * d <= x
    ensures k <= x / d
  {
    var q := x / d;
    assert x < q * d + d;
    assert q * d + d == (q + 1) * d;
    CancelFactor(k, q + 1, d);
  }

  lemma CancelFactor(k: int, m: int, d: int)
    requires d > 0 && k * d < m * d
    ensures k < m
  {
  }
}
