/** What a probe answers and leaves behind, in terms of the node before it. */
module ProbeAnswer {
  import opened Time
  import opened Sequences
  import opened Tables
  import opened Probing

  /** Whether a probe finds the peer in a slot alive. Slots that are not in use keep what they say. */
  ghost predicate Alive(n: Node, now: Timespec, k: nat)
    requires n.numPeers <= |n.slots|
  {
    k < |n.slots| && if k < n.numPeers then Ns(now) <= Ns(n.slots[k].nextRemote) else n.slots[k].alive
  }

  ghost predicate RemoteClocks(n: Node)
    requires n.numPeers <= |n.slots|
  {
    forall k :: 0 <= k < n.numPeers ==> Clock(n.slots[k].nextRemote)
  }

  lemma MarkedAlive(n: Node, now: Timespec, k: nat)
    requires n.numPeers <= |n.slots| && Clock(now) && RemoteClocks(n)
    ensures IsAliveIn(MarkAlive(n.slots, n.numPeers, now))(k) <==> Alive(n, now, k)
  {
    if k < n.numPeers {
      ClockArithmetic(n.slots[k].nextRemote, now);
    }
  }

  // ---------- the counts ----------

  /** The endpoints that name a peer that is alive. */
  ghost function Active(n: Node, now: Timespec, es: seq<Endpoint>): set<nat>
    requires n.numPeers <= |n.slots|
  {
    set i: nat | i < |es| && exists k: nat :: k in es[i].peers && Alive(n, now, k)
  }

  lemma {:induction false} CountIsSize(n: Node, now: Timespec, es: seq<Endpoint>)
    requires n.numPeers <= |n.slots| && Clock(now) && RemoteClocks(n)
    ensures CountActive(DropDead(es, MarkAlive(n.slots, n.numPeers, now))) == |Active(n, now, es)|
    decreases |es|
  {
    hide Filter, MarkAlive, Alive;
    var marked := MarkAlive(n.slots, n.numPeers, now);
    var fs := DropDead(es, marked);
    if es == [] {
      assert Active(n, now, es) == {};
    } else {
      var m := |es| - 1;
      CountIsSize(n, now, es[..m]);
      assert fs[..m] == DropDead(es[..m], marked);
      HasLivePeer(n, now, es[m]);
      ActiveLast(n, now, es);
    }
  }

  lemma HasLivePeer(n: Node, now: Timespec, e: Endpoint)
    requires n.numPeers <= |n.slots| && Clock(now) && RemoteClocks(n)
    ensures Filter(e.peers, IsAliveIn(MarkAlive(n.slots, n.numPeers, now))) != [] <==>
              exists k: nat :: k in e.peers && Alive(n, now, k)
  {
    hide Filter, MarkAlive, Alive;
    var marked := MarkAlive(n.slots, n.numPeers, now);
    var live := Filter(e.peers, IsAliveIn(marked));
    if live != [] {
      assert live[0] in live;
      MarkedAlive(n, now, live[0]);
    }
    forall k: nat | k in e.peers && Alive(n, now, k)
      ensures k in live
    {
      MarkedAlive(n, now, k);
    }
  }

  lemma ActiveLast(n: Node, now: Timespec, es: seq<Endpoint>)
    requires n.numPeers <= |n.slots| && es != []
    ensures var m := |es| - 1;
            |Active(n, now, es)| == |Active(n, now, es[..m])|
              + if exists k: nat :: k in es[m].peers && Alive(n, now, k) then 1 else 0
  {
    hide Alive;
    var m: nat := |es| - 1;
    var before := Active(n, now, es[..m]);
    if exists k: nat :: k in es[m].peers && Alive(n, now, k) {
      assert Active(n, now, es) == before + {m};
    } else {
      assert Active(n, now, es) == before;
    }
  }

  // ---------- the endpoints and the peers ----------

  /** An endpoint f after a probe of e: the same, with exactly the entries that name live peers, in order. */
  ghost predicate KeepsLive(n: Node, now: Timespec, e: Endpoint, f: Endpoint, at: seq<nat>)
    requires n.numPeers <= |n.slots|
  {
    && f.resource == e.resource && f.callback == e.callback
    && Increasing(at) && (forall i: nat :: i in at <==> i < |e.peers| && Alive(n, now, e.peers[i]))
    && |f.peers| == |at| && forall q :: 0 <= q < |at| ==> at[q] < |e.peers| && f.peers[q] == e.peers[at[q]]
  }

  lemma EndpointKeepsLive(n: Node, now: Timespec, es: seq<Endpoint>, i: nat) returns (at: seq<nat>)
    requires n.numPeers <= |n.slots| && Clock(now) && RemoteClocks(n) && i < |es|
    ensures KeepsLive(n, now, es[i], DropDead(es, MarkAlive(n.slots, n.numPeers, now))[i], at)
  {
    hide Filter, MarkAlive, Alive, Increasing;
    var marked := MarkAlive(n.slots, n.numPeers, now);
    at := FilterPlaces(es[i].peers, IsAliveIn(marked));
    forall j: nat | j < |es[i].peers|
      ensures IsAliveIn(marked)(es[i].peers[j]) <==> Alive(n, now, es[i].peers[j])
    {
      MarkedAlive(n, now, es[i].peers[j]);
    }
  }

  ghost predicate SomehowKeepsLive(n: Node, now: Timespec, e: Endpoint, f: Endpoint)
    requires n.numPeers <= |n.slots|
  {
    exists at :: KeepsLive(n, now, e, f, at)
  }

  ghost predicate AllKeepLive(n: Node, now: Timespec, es: seq<Endpoint>, fs: seq<Endpoint>)
    requires n.numPeers <= |n.slots|
  {
    |fs| == |es| && forall i :: 0 <= i < |es| ==> SomehowKeepsLive(n, now, es[i], fs[i])
  }

  lemma AllEndpointsKeepLive(n: Node, now: Timespec, es: seq<Endpoint>)
    requires n.numPeers <= |n.slots| && Clock(now) && RemoteClocks(n)
    ensures AllKeepLive(n, now, es, DropDead(es, MarkAlive(n.slots, n.numPeers, now)))
  {
    hide KeepsLive, MarkAlive, DropDead;
    forall i | 0 <= i < |es|
      ensures SomehowKeepsLive(n, now, es[i], DropDead(es, MarkAlive(n.slots, n.numPeers, now))[i])
    {
      var at := EndpointKeepsLive(n, now, es, i);
    }
  }

  /** The peers after a probe: exactly those that are alive and linked to something, in order and unchanged
      but for being marked alive; slots that were not in use stay. */
  lemma PeersKept(c: Config, n: Node, now: Timespec) returns (at: seq<nat>)
    requires Shaped(c, n) && Clock(now) && RemoteClocks(n)
    ensures var m := Probe(c, n, now).node;
            && Increasing(at)
            && (forall k: nat :: k in at <==> k < n.numPeers && Alive(n, now, k) && n.slots[k].numLinks != 0)
            && m.numPeers == |at| <= |m.slots| == |n.slots|
            && (forall q :: 0 <= q < |at| ==> at[q] < n.numPeers && m.slots[q] == n.slots[at[q]].(alive := true))
            && forall j :: n.numPeers <= j < |n.slots| ==> m.slots[j] == n.slots[j]
  {
    var marked := MarkAlive(n.slots, n.numPeers, now);
    var m := Probe(c, n, now).node;
    CompactionIs(c, n, now);
    hide Filter, Compact, CountActive, EarliestRemote, Increasing, Cmp, Ns;
    at := FilterPlaces(marked[..n.numPeers], IsRetained);
    forall k: nat | k < n.numPeers
      ensures IsRetained(marked[..n.numPeers][k]) <==> Alive(n, now, k) && n.slots[k].numLinks != 0
      ensures marked[k] == n.slots[k].(alive := marked[k].alive)
    {
      MarkedAlive(n, now, k);
    }
    forall q | 0 <= q < |at|
      ensures at[q] < n.numPeers && m.slots[q] == n.slots[at[q]].(alive := true)
    {
      assert at[q] in at;
      assert m.slots[q] == m.slots[..m.numPeers][q] == marked[at[q]];
    }
  }

  // ---------- the whole answer ----------

  /** A probe counts the trackers, and the providers, that name a peer that is alive, and is to be repeated
      one probe timeout from now or at the earliest deadline of a peer that stays, whichever is first.
      Resources, the outgoing buffer and what the node is called stay. */
  lemma ProbeExactly(c: Config, n: Node, now: Timespec)
    requires Shaped(c, n) && Clock(now) && RemoteClocks(n)
    ensures var o := Probe(c, n, now);
            && o.activeTrackers == |Active(n, now, n.trackers)|
            && o.activeProviders == |Active(n, now, n.providers)|
            && Clock(o.next)
            && (Ns(o.next) == Ns(now) + 1_000_000 * c.probeMs
                || exists k :: 0 <= k < o.node.numPeers && o.next == o.node.slots[k].nextRemote)
            && Ns(o.next) <= Ns(now) + 1_000_000 * c.probeMs
            && (forall k :: 0 <= k < o.node.numPeers ==> Ns(o.next) <= Ns(o.node.slots[k].nextRemote))
            && o.node.name == n.name && o.node.address == n.address && o.node.outgoing == n.outgoing
            && AllKeepLive(n, now, n.trackers, o.node.trackers) && AllKeepLive(n, now, n.providers, o.node.providers)
  {
    hide AllKeepLive, Active, Cmp, MarkAlive, DropDead, Compact, CountActive, EarliestRemote, Plus, IsRetained;
    CountIsSize(n, now, n.trackers);
    CountIsSize(n, now, n.providers);
    ProbeTime(c, n, now);
    NextProbe(c, n, now);
    AllEndpointsKeepLive(n, now, n.trackers);
    AllEndpointsKeepLive(n, now, n.providers);
  }

  /** The time is attained. */
  lemma ProbeTime(c: Config, n: Node, now: Timespec)
    requires Shaped(c, n) && Clock(now) && RemoteClocks(n)
    ensures var o := Probe(c, n, now);
            && o.node.numPeers <= |o.node.slots|
            && (Ns(o.next) == Ns(now) + 1_000_000 * c.probeMs
                || exists k :: 0 <= k < o.node.numPeers && o.next == o.node.slots[k].nextRemote)
  {
    hide Filter, Compact, Plus, Cmp, Ns, CountActive, DropDead, MarkAlive, IsRetained;
    var o := Probe(c, n, now);
    StayerTimes(c, n, now);
    ClockArithmetic(now, c.ProbeTimeout());
    var kept := o.node.slots[..o.node.numPeers];
    EarliestRemoteIsMinimum(Plus(now, c.ProbeTimeout()), kept);
    if o.next != Plus(now, c.ProbeTimeout()) {
      var k :| 0 <= k < |kept| && o.next == kept[k].nextRemote;
      assert o.next == o.node.slots[k].nextRemote;
    }
  }
}
