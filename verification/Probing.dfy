/** Probing: dropping dead peers, and when that leaves the endpoints naming the right ones.

    The peers that stay move down the array, but the endpoints keep the slots they named. */
module Probing {
  import opened Time
  import opened Sequences
  import opened Tables
  import opened Links
  import opened Accounting

  /** No peer that stays sits behind one that goes. */
  ghost predicate NoGap(slots: seq<Peer>, num: nat)
    requires num <= |slots|
  {
    forall a, b :: 0 <= a < b < num && IsRetained(slots[b]) ==> IsRetained(slots[a])
  }

  /** Every entry of an endpoint is a live slot, with the address that slot had before. */
  ghost predicate NamesAsBefore(es: seq<Endpoint>, before: seq<Peer>, after: seq<Peer>, num: nat)
    requires |before| == |after|
  {
    forall i, q :: 0 <= i < |es| && 0 <= q < |es[i].peers| ==>
      var s := es[i].peers[q];
      s < num && s < |before| && after[s].address == before[s].address
  }

  ghost predicate LinksIntact(n: Node, m: Node) {
    && |m.slots| == |n.slots|
    && NamesAsBefore(m.trackers, n.slots, m.slots, m.numPeers)
    && NamesAsBefore(m.providers, n.slots, m.slots, m.numPeers)
  }

  // ---------- filtering the endpoints ----------

  lemma {:induction false} MentionsAlive(es: seq<Endpoint>, slots: seq<Peer>, k: nat)
    requires k < |slots|
    ensures Mentions(DropDead(es, slots), k) == if slots[k].alive then Mentions(es, k) else 0
    decreases |es|
  {
    hide Filter;
    if es != [] {
      assert DropDead(es, slots)[1..] == DropDead(es[1..], slots);
      MentionsAlive(es[1..], slots, k);
    }
  }

  lemma DropDeadOk(es: seq<Endpoint>, slots: seq<Peer>, limit: nat)
    requires EndpointsOk(es, limit)
    ensures EndpointsOk(DropDead(es, slots), limit)
  {
    hide Distinct, Below;
    forall i | 0 <= i < |es|
      ensures Distinct(DropDead(es, slots)[i].peers) && Below(DropDead(es, slots)[i].peers, limit)
    {
      FilterDistinct(es[i].peers, IsAliveIn(slots));
      BelowSubset(es[i].peers, Filter(es[i].peers, IsAliveIn(slots)), limit);
    }
  }

  lemma {:induction false} MentionedBySome(es: seq<Endpoint>, k: nat)
    ensures Mentions(es, k) > 0 <==> exists i :: 0 <= i < |es| && k in es[i].peers
    decreases |es|
  {
    if es != [] {
      MentionedBySome(es[1..], k);
      if Mentions(es, k) > 0 && k !in es[0].peers {
        var i :| 0 <= i < |es[1..]| && k in es[1..][i].peers;
        assert k in es[i + 1].peers;
      }
      if i :| 0 <= i < |es| && k in es[i].peers {
        if i > 0 {
          assert k in es[1..][i - 1].peers;
        }
      }
    }
  }

  // ---------- compacting the peers ----------

  lemma CompactionIs(c: Config, n: Node, now: Timespec)
    requires Shaped(c, n)
    ensures var marked := MarkAlive(n.slots, n.numPeers, now);
            var m := Probe(c, n, now).node;
            && |m.slots| == |n.slots| && m.numPeers <= n.numPeers
            && m.slots[..m.numPeers] == Filter(marked[..n.numPeers], IsRetained)
            && forall j :: n.numPeers <= j < |n.slots| ==> m.slots[j] == n.slots[j]
  {
    hide Filter;
    var marked := MarkAlive(n.slots, n.numPeers, now);
    CompactIsFilter(marked, n.numPeers, 0, IsRetained);
    assert marked[0..n.numPeers] == marked[..n.numPeers];
    assert [] + Filter(marked[..n.numPeers], IsRetained) == Filter(marked[..n.numPeers], IsRetained);
  }

  lemma FirstToGo(s: seq<Peer>, num: nat) returns (m: nat)
    requires num <= |s| && NoGap(s, num)
    ensures m <= num && forall k :: 0 <= k < num ==> (IsRetained(s[k]) <==> k < m)
  {
    m := 0;
    while m < num && IsRetained(s[m])
      invariant m <= num && forall k :: 0 <= k < m ==> IsRetained(s[k])
    {
      m := m + 1;
    }
  }

  lemma FilterPrefix(s: seq<Peer>, num: nat, m: nat)
    requires m <= num <= |s| && forall k :: 0 <= k < num ==> (IsRetained(s[k]) <==> k < m)
    ensures Filter(s[..num], IsRetained) == s[..m]
  {
    hide Filter;
    assert s[..num] == s[..m] + s[m..num];
    FilterConcat(s[..m], s[m..num], IsRetained);
    FilterAll(s[..m], IsRetained);
    FilterNone(s[m..num], IsRetained);
  }

  /** Without a gap the peers that stay are the first ones, and they do not move. */
  lemma StayersStay(c: Config, n: Node, now: Timespec) returns (size: nat)
    requires Shaped(c, n) && NoGap(MarkAlive(n.slots, n.numPeers, now), n.numPeers)
    ensures var marked := MarkAlive(n.slots, n.numPeers, now);
            var m := Probe(c, n, now).node;
            && |m.slots| == |n.slots|
            && m.numPeers == size <= n.numPeers
            && (forall k :: 0 <= k < n.numPeers ==> (IsRetained(marked[k]) <==> k < size))
            && forall k :: 0 <= k < size ==> m.slots[k] == marked[k]
  {
    hide Filter, Compact, IsRetained;
    var marked := MarkAlive(n.slots, n.numPeers, now);
    var m := Probe(c, n, now).node;
    CompactionIs(c, n, now);
    size := FirstToGo(marked, n.numPeers);
    FilterPrefix(marked, n.numPeers, size);
    assert |m.slots[..m.numPeers]| == m.numPeers;
    assert forall k :: 0 <= k < size ==> m.slots[k] == m.slots[..m.numPeers][k];
  }

  // ---------- both directions ----------

  lemma LinkedPeersStay(c: Config, n: Node, now: Timespec, es: seq<Endpoint>, m: nat)
    requires Shaped(c, n) && EndpointsOk(es, n.numPeers)
    requires forall k :: 0 <= k < n.numPeers && Mentions(es, k) > 0 ==> n.slots[k].numLinks != 0
    requires var marked := MarkAlive(n.slots, n.numPeers, now);
             m <= n.numPeers && forall k :: 0 <= k < n.numPeers ==> (IsRetained(marked[k]) <==> k < m)
    ensures EndpointsOk(DropDead(es, MarkAlive(n.slots, n.numPeers, now)), m)
  {
    hide Filter, Distinct, Mentions;
    var marked := MarkAlive(n.slots, n.numPeers, now);
    DropDeadOk(es, marked, n.numPeers);
    forall i, q | 0 <= i < |es| && 0 <= q < |DropDead(es, marked)[i].peers|
      ensures DropDead(es, marked)[i].peers[q] < m
    {
      var k := DropDead(es, marked)[i].peers[q];
      assert k in Filter(es[i].peers, IsAliveIn(marked));
      assert k in es[i].peers && marked[k].alive;
      MentionedBySome(es, k);
    }
  }

  lemma NamedMeansLinks(n: Node)
    requires n.numPeers <= |n.slots| && LinksCounted(n.slots, n.numPeers, n.trackers, n.providers)
    ensures forall k :: 0 <= k < n.numPeers && Mentions(n.trackers, k) > 0 ==> n.slots[k].numLinks != 0
    ensures forall k :: 0 <= k < n.numPeers && Mentions(n.providers, k) > 0 ==> n.slots[k].numLinks != 0
  {
    hide Mentions;
  }

  lemma AliveCounts(n: Node, marked: seq<Peer>, size: nat)
    requires size <= n.numPeers <= |n.slots| == |marked|
    requires LinksCounted(n.slots, n.numPeers, n.trackers, n.providers)
    requires forall k :: 0 <= k < size ==> marked[k].alive && marked[k].numLinks == n.slots[k].numLinks
    ensures LinksCounted(marked, size, DropDead(n.trackers, marked), DropDead(n.providers, marked))
  {
    hide Mentions, DropDead;
    forall k | 0 <= k < size
      ensures marked[k].numLinks == Mentions(DropDead(n.trackers, marked), k) + Mentions(DropDead(n.providers, marked), k)
    {
      MentionsAlive(n.trackers, marked, k);
      MentionsAlive(n.providers, marked, k);
    }
  }

  lemma OkNamesAsBefore(es: seq<Endpoint>, before: seq<Peer>, after: seq<Peer>, num: nat)
    requires |before| == |after| && num <= |before| && EndpointsOk(es, num)
    requires forall k :: 0 <= k < num ==> after[k].address == before[k].address
    ensures NamesAsBefore(es, before, after, num)
  {
  }

  lemma DropDeadHashes(es: seq<Endpoint>, slots: seq<Peer>)
    requires UniqueHashes(es)
    ensures UniqueHashes(DropDead(es, slots))
  {
    hide Filter;
  }

  /** The accounts of some first slots carry over to a table with the same ones. */
  lemma AccountsCarryOver(s: seq<Peer>, num: nat, t: seq<Peer>, size: nat, ts: seq<Endpoint>, ps: seq<Endpoint>)
    requires size <= num <= |s| && size <= |t|
    requires AddressesDistinct(s, num) && LinksCounted(s, size, ts, ps)
    requires forall k :: 0 <= k < size ==> t[k] == s[k]
    ensures AddressesDistinct(t, size) && LinksCounted(t, size, ts, ps)
  {
    hide Mentions;
  }

  lemma MarkAliveKeeps(n: Node, now: Timespec)
    requires n.numPeers <= |n.slots| && AddressesDistinct(n.slots, n.numPeers)
    ensures var marked := MarkAlive(n.slots, n.numPeers, now);
            && AddressesDistinct(marked, n.numPeers)
            && forall k :: 0 <= k < |marked| ==>
                 marked[k].address == n.slots[k].address && marked[k].numLinks == n.slots[k].numLinks
  {
  }

  lemma NoGapKeeps(c: Config, n: Node, now: Timespec)
    requires Accounted(c, n) && NoGap(MarkAlive(n.slots, n.numPeers, now), n.numPeers)
    ensures Accounted(c, Probe(c, n, now).node) && LinksIntact(n, Probe(c, n, now).node)
  {
    var marked := MarkAlive(n.slots, n.numPeers, now);
    var m := Probe(c, n, now).node;
    var size := StayersStay(c, n, now);
    MarkAliveKeeps(n, now);
    assert forall k :: 0 <= k < size ==> marked[k].alive;
    hide Filter, Mentions, Compact, EndpointsOk, NamesAsBefore, LinksCounted, AddressesDistinct, UniqueHashes,
      MarkAlive, DropDead, IsRetained, NoGap;
    NamedMeansLinks(n);
    LinkedPeersStay(c, n, now, n.trackers, size);
    LinkedPeersStay(c, n, now, n.providers, size);
    DropDeadHashes(n.trackers, marked);
    DropDeadHashes(n.providers, marked);
    AliveCounts(n, marked, size);
    AccountsCarryOver(marked, n.numPeers, m.slots, size, m.trackers, m.providers);
    OkNamesAsBefore(m.trackers, n.slots, m.slots, size);
    OkNamesAsBefore(m.providers, n.slots, m.slots, size);
  }

  /** With a gap some peer that stays was in a slot that is no longer used. */
  lemma StayerLeavesSlot(c: Config, n: Node, now: Timespec, a: nat, b: nat) returns (j: nat)
    requires Shaped(c, n) && a < b < n.numPeers
    requires var marked := MarkAlive(n.slots, n.numPeers, now);
             IsRetained(marked[b]) && !IsRetained(marked[a])
    ensures Probe(c, n, now).node.numPeers <= j < n.numPeers
    ensures IsRetained(MarkAlive(n.slots, n.numPeers, now)[j])
  {
    var marked := MarkAlive(n.slots, n.numPeers, now);
    CompactionIs(c, n, now);
    hide Filter, Compact, IsRetained;
    var size := Probe(c, n, now).node.numPeers;
    j := b;
    if a < size {
      assert |Filter(marked[..n.numPeers], IsRetained)| == size;
      assert !IsRetained(marked[..n.numPeers][a]);
      j := FilterOrigin(marked[..n.numPeers], IsRetained, size - 1);
    }
  }

  lemma GapMiscounts(c: Config, n: Node, now: Timespec, a: nat, b: nat)
    requires Accounted(c, n) && a < b < n.numPeers
    requires var marked := MarkAlive(n.slots, n.numPeers, now);
             IsRetained(marked[b]) && !IsRetained(marked[a])
    ensures !Accounted(c, Probe(c, n, now).node)
  {
    var marked := MarkAlive(n.slots, n.numPeers, now);
    var j := StayerLeavesSlot(c, n, now, a, b);
    hide Filter, Compact, Mentions, EndpointsOk, DropDead;
    MarkAliveKeeps(n, now);
    MentionsAlive(n.trackers, marked, j);
    MentionsAlive(n.providers, marked, j);
    var m := Probe(c, n, now).node;
    if Accounted(c, m) {
      MentionsAbove(m.trackers, j, m.numPeers);
      MentionsAbove(m.providers, j, m.numPeers);
    }
  }

  /** The accounting survives a probe exactly when no peer that stays sits behind one that goes. That the
      counts of dead peers are never taken down does no harm: those peers are gone. */
  lemma ProbeKeeps(c: Config, n: Node, now: Timespec)
    requires Accounted(c, n)
    ensures Accounted(c, Probe(c, n, now).node) <==> NoGap(MarkAlive(n.slots, n.numPeers, now), n.numPeers)
  {
    var marked := MarkAlive(n.slots, n.numPeers, now);
    hide Accounted;
    AccountedShape(c, n);
    if NoGap(marked, n.numPeers) {
      NoGapKeeps(c, n, now);
    } else {
      var a, b :| 0 <= a < b < n.numPeers && IsRetained(marked[b]) && !IsRetained(marked[a]);
      GapMiscounts(c, n, now, a, b);
    }
  }

  lemma GapBreaks(c: Config, n: Node, now: Timespec, a: nat, b: nat)
    requires Accounted(c, n) && a < b < n.numPeers
    requires var marked := MarkAlive(n.slots, n.numPeers, now);
             IsRetained(marked[b]) && !IsRetained(marked[a])
    ensures !LinksIntact(n, Probe(c, n, now).node)
  {
    var marked := MarkAlive(n.slots, n.numPeers, now);
    var m := Probe(c, n, now).node;
    CompactionIs(c, n, now);
    hide Filter, Compact;
    if b < m.numPeers {
      var j := FilterOrigin(marked[..n.numPeers], IsRetained, b);
      assert !IsRetained(marked[..n.numPeers][a]);
      assert m.slots[b] == m.slots[..m.numPeers][b] == marked[j];
    }
    MentionsAlive(n.trackers, marked, b);
    MentionsAlive(n.providers, marked, b);
    MentionedBySome(m.trackers, b);
    MentionedBySome(m.providers, b);
    var es := if Mentions(m.trackers, b) > 0 then m.trackers else m.providers;
    var i :| 0 <= i < |es| && b in es[i].peers;
    var q :| 0 <= q < |es[i].peers| && es[i].peers[q] == b;
    assert !NamesAsBefore(es, n.slots, m.slots, m.numPeers);
  }

  /** A probe leaves every link naming the peer it named, dead ones filtered out, exactly when no
      peer that stays sits behind one that goes. */
  lemma ProbeExact(c: Config, n: Node, now: Timespec)
    requires Accounted(c, n)
    ensures LinksIntact(n, Probe(c, n, now).node) <==> NoGap(MarkAlive(n.slots, n.numPeers, now), n.numPeers)
  {
    var marked := MarkAlive(n.slots, n.numPeers, now);
    hide Accounted, LinksIntact;
    AccountedShape(c, n);
    if NoGap(marked, n.numPeers) {
      NoGapKeeps(c, n, now);
    } else {
      var a, b :| 0 <= a < b < n.numPeers && IsRetained(marked[b]) && !IsRetained(marked[a]);
      GapBreaks(c, n, now, a, b);
    }
  }

  // ---------- the time of the next probe ----------

  lemma {:induction false} EarliestRemoteIsMinimum(start: Timespec, ps: seq<Peer>)
    requires Clock(start) && forall i :: 0 <= i < |ps| ==> Clock(ps[i].nextRemote)
    ensures var e := EarliestRemote(start, ps);
            && Clock(e) && Ns(e) <= Ns(start)
            && (forall i :: 0 <= i < |ps| ==> Ns(e) <= Ns(ps[i].nextRemote))
            && (e == start || exists i :: 0 <= i < |ps| && e == ps[i].nextRemote)
    decreases |ps|
  {
    hide Cmp, Ns;
    if ps != [] {
      var n := |ps| - 1;
      var e := EarliestRemote(start, ps[..n]);
      EarliestRemoteIsMinimum(start, ps[..n]);
      ClockArithmetic(e, ps[n].nextRemote);
      if e != start {
        var i :| 0 <= i < n && e == ps[..n][i].nextRemote;
        assert e == ps[i].nextRemote;
      }
    }
  }

  /** The next probe is due at the earliest of one probe timeout from now and the deadlines of the peers
      that stay: never in the past, and later than now, as the event loop asserts, exactly when the
      timeout is positive and no staying peer's deadline is this very instant. */
  lemma NextProbe(c: Config, n: Node, now: Timespec)
    requires Shaped(c, n) && Clock(now)
    requires forall k :: 0 <= k < n.numPeers ==> Clock(n.slots[k].nextRemote)
    ensures var o := Probe(c, n, now);
            && Clock(o.next)
            && Ns(now) <= Ns(o.next) <= Ns(now) + 1_000_000 * c.probeMs
            && (forall k :: 0 <= k < o.node.numPeers ==> Ns(o.next) <= Ns(o.node.slots[k].nextRemote))
            && (Cmp(o.next, now) > 0 <==>
                  c.probeMs > 0 && forall k :: 0 <= k < o.node.numPeers ==> o.node.slots[k].nextRemote != now)
  {
    var o := Probe(c, n, now);
    StayerTimes(c, n, now);
    ClockArithmetic(now, c.ProbeTimeout());
    hide Filter, Compact, Plus, Cmp, Ns, CountActive, DropDead, MarkAlive, IsRetained;
    var kept := o.node.slots[..o.node.numPeers];
    EarliestRemoteIsMinimum(Plus(now, c.ProbeTimeout()), kept);
    ClockArithmetic(o.next, now);
    forall k | 0 <= k < o.node.numPeers
      ensures kept[k] == o.node.slots[k] && (Ns(kept[k].nextRemote) == Ns(now) <==> kept[k].nextRemote == now)
    {
      ClockArithmetic(kept[k].nextRemote, now);
    }
  }

  lemma StayerTimes(c: Config, n: Node, now: Timespec)
    requires Shaped(c, n) && Clock(now)
    requires forall k :: 0 <= k < n.numPeers ==> Clock(n.slots[k].nextRemote)
    ensures var m := Probe(c, n, now).node;
            && m.numPeers <= |m.slots|
            && forall k :: 0 <= k < m.numPeers ==>
                 Clock(m.slots[k].nextRemote) && Ns(m.slots[k].nextRemote) >= Ns(now)
  {
    hide Filter, Compact, Plus, Ns, CountActive, DropDead, EarliestRemote;
    var marked := MarkAlive(n.slots, n.numPeers, now);
    var m := Probe(c, n, now).node;
    CompactionIs(c, n, now);
    forall k | 0 <= k < m.numPeers
      ensures Clock(m.slots[k].nextRemote) && Ns(m.slots[k].nextRemote) >= Ns(now)
    {
      assert m.slots[..m.numPeers][k] in Filter(marked[..n.numPeers], IsRetained);
      var j :| 0 <= j < n.numPeers && m.slots[k] == marked[..n.numPeers][j];
      ClockArithmetic(n.slots[j].nextRemote, now);
    }
  }
}
