/** Keepalive scheduling: when the next deadline that asserting liveliness returns is a sound time to
    wake up. */
module Liveliness {
  import opened Time
  import opened Sequences
  import opened Tokens
  import opened Tables
  import opened Links
  import opened Protocol
  import opened Accounting
  import opened Probing
  import opened Network

  // ---------- the shape of a node, whatever happens to it ----------

  ghost predicate InShape(c: Config, n: Node) {
    Shaped(c, n) && InRange(n.trackers, |n.slots|) && InRange(n.providers, |n.slots|)
  }

  predicate CanHappen(n: Node, e: Event) {
    e.Posts? ==> e.provider < |n.providers|
  }

  lemma AddInRange(es: seq<Endpoint>, resource: Resource, callback: nat, size: nat)
    requires InRange(es, size)
    ensures InRange(AddEndpoint(es, resource, callback).0, size)
  {
    hide Below;
    NothingLinked(size);
  }

  lemma DropDeadInRange(es: seq<Endpoint>, slots: seq<Peer>, size: nat)
    requires InRange(es, size)
    ensures InRange(DropDead(es, slots), size)
  {
    hide Filter, Below;
    forall i | 0 <= i < |es|
      ensures Below(Filter(es[i].peers, IsAliveIn(slots)), size)
    {
      BelowSubset(es[i].peers, Filter(es[i].peers, IsAliveIn(slots)), size);
    }
  }

  /** The deadlines of a peer record. */
  ghost predicate SameDeadlines(p: Peer, q: Peer) {
    p.address == q.address && p.nextRemote == q.nextRemote && p.nextLocal == q.nextLocal
  }

  /** Receiving a packet: its sender gets a new remote deadline, and no local one if it is new. */
  lemma ReceiveDeadlines(c: Config, unpack: Codec, n: Node, origin: Address, p: Packet, now: Timespec)
    requires InShape(c, n)
    ensures var m := ProcessIncoming(c, unpack, n, origin, p, now).node;
            && InShape(c, m) && m.address == n.address && |m.slots| == |n.slots|
            && if n.numPeers >= c.maxPeers then m == n
               else
                 var k := FindPeer(n.slots, n.numPeers, origin);
                 && m.numPeers == (if k < n.numPeers then n.numPeers else n.numPeers + 1)
                 && (forall j :: 0 <= j < m.numPeers && j != k ==> SameDeadlines(n.slots[j], m.slots[j]))
                 && m.slots[k].address == origin
                 && m.slots[k].nextRemote == Plus(now, c.LivelinessTimeout())
                 && m.slots[k].nextLocal == (if k < n.numPeers then n.slots[k].nextLocal else ZERO)
  {
    hide ProcessPacket, InRange, SameButPeers;
    var (m, slot) := Register(c, n, origin, now);
    if slot.Some? {
      PacketStays(c, unpack, m, slot.value, p);
    }
  }

  lemma ProbeDeadlines(c: Config, n: Node, now: Timespec)
    requires InShape(c, n)
    ensures var m := Probe(c, n, now).node;
            && InShape(c, m) && m.address == n.address && |m.slots| == |n.slots|
            && forall k :: 0 <= k < m.numPeers ==>
                 exists j :: 0 <= j < n.numPeers && SameDeadlines(n.slots[j], m.slots[k])
  {
    hide Filter, Compact, InRange;
    var marked := MarkAlive(n.slots, n.numPeers, now);
    var m := Probe(c, n, now).node;
    CompactionIs(c, n, now);
    DropDeadInRange(n.trackers, marked, |n.slots|);
    DropDeadInRange(n.providers, marked, |n.slots|);
    forall k | 0 <= k < m.numPeers
      ensures exists j :: 0 <= j < n.numPeers && SameDeadlines(n.slots[j], m.slots[k])
    {
      var j := FilterOrigin(marked[..n.numPeers], IsRetained, k);
      assert m.slots[..m.numPeers][k] == marked[..n.numPeers][j];
      assert SameDeadlines(n.slots[j], m.slots[k]);
    }
  }

  // ---------- asserting liveliness ----------

  lemma {:induction false} EarliestLocalIsMinimum(start: Timespec, ps: seq<Peer>)
    requires Clock(start) && forall i :: 0 <= i < |ps| ==> Clock(ps[i].nextLocal)
    ensures var e := EarliestLocal(start, ps);
            && Clock(e) && Ns(e) <= Ns(start)
            && (forall i :: 0 <= i < |ps| ==> Ns(e) <= Ns(ps[i].nextLocal))
            && (e == start || exists i :: 0 <= i < |ps| && e == ps[i].nextLocal)
    decreases |ps|
  {
    hide Cmp, Ns;
    if ps != [] {
      var n := |ps| - 1;
      var e := EarliestLocal(start, ps[..n]);
      EarliestLocalIsMinimum(start, ps[..n]);
      ClockArithmetic(e, ps[n].nextLocal);
      if e != start {
        var i :| 0 <= i < n && e == ps[..n][i].nextLocal;
        assert e == ps[i].nextLocal;
      }
    }
  }

  ghost predicate LocalClocks(n: Node)
    requires n.numPeers <= |n.slots|
  {
    forall k :: 0 <= k < n.numPeers ==> Clock(n.slots[k].nextLocal)
  }

  function AssertNs(c: Config): int {
    1_000_000 * c.assertMs
  }

  /** A local deadline after a keepalive check. */
  lemma KeepaliveDeadline(c: Config, p: Peer, now: Timespec)
    requires Clock(now) && Clock(p.nextLocal)
    ensures var q := Keepalive(c, p, now);
            && q.address == p.address && q.nextRemote == p.nextRemote && Clock(q.nextLocal)
            && (MustSend(p, now) <==> Ns(p.nextLocal) <= Ns(now))
            && Ns(q.nextLocal) == (if !MustSend(p, now) then Ns(p.nextLocal)
                                   else (if IsZero(p.nextLocal) then Ns(now) else Ns(p.nextLocal)) + AssertNs(c))
  {
    ClockArithmetic(now, p.nextLocal);
    ClockArithmetic(now, c.AssertTimeout());
    ClockArithmetic(p.nextLocal, c.AssertTimeout());
  }

  /** No deadline is overdue by the assert timeout or more. */
  ghost predicate LagBelowTimeout(c: Config, n: Node, now: Timespec)
    requires n.numPeers <= |n.slots|
  {
    forall k :: 0 <= k < n.numPeers ==>
      IsZero(n.slots[k].nextLocal) || Ns(now) - Ns(n.slots[k].nextLocal) < AssertNs(c)
  }

  /** The deadline returned is the earliest of one assert timeout from now and all local deadlines; and
      it lies after now, as the event loop asserts, exactly when the timeout is positive and no deadline
      is overdue by that much. */
  lemma NextDeadline(c: Config, n: Node, now: Timespec)
    requires Shaped(c, n) && Clock(now) && LocalClocks(n)
    ensures var (m, targets, next) := AssertLiveliness(c, n, now);
            && m.numPeers == n.numPeers && |m.slots| == |n.slots| && LocalClocks(m)
            && (forall k :: 0 <= k < n.numPeers ==> m.slots[k] == Keepalive(c, n.slots[k], now))
            && Clock(next) && Ns(next) <= Ns(now) + AssertNs(c)
            && (forall k :: 0 <= k < m.numPeers ==> Ns(next) <= Ns(m.slots[k].nextLocal))
            && (Ns(next) == Ns(now) + AssertNs(c)
                || exists k :: 0 <= k < m.numPeers && Ns(next) == Ns(m.slots[k].nextLocal))
            && (Cmp(next, now) > 0 <==> c.assertMs > 0 && LagBelowTimeout(c, n, now))
  {
    hide Keepalive, Cmp, Plus, Ns, KeepaliveTargets, MustSend;
    var (m, targets, next) := AssertLiveliness(c, n, now);
    var start := Plus(now, c.AssertTimeout());
    var kept := m.slots[..m.numPeers];
    ClockArithmetic(now, c.AssertTimeout());
    forall k | 0 <= k < n.numPeers
      ensures kept[k] == m.slots[k] == Keepalive(c, n.slots[k], now) && Clock(kept[k].nextLocal)
      ensures Ns(kept[k].nextLocal) > Ns(now) <==>
              (c.assertMs > 0 || Ns(n.slots[k].nextLocal) > Ns(now))
              && (IsZero(n.slots[k].nextLocal) || Ns(now) - Ns(n.slots[k].nextLocal) < AssertNs(c))
    {
      KeepaliveDeadline(c, n.slots[k], now);
      ClockArithmetic(n.slots[k].nextLocal, now);
    }
    EarliestLocalIsMinimum(start, kept);
    ClockArithmetic(next, now);
  }

  // ---------- runs of a node's clockwork ----------

  /** When an event happens; those that read no clock happen at once. */
  function TimeOf(e: Event, clock: Timespec): Timespec {
    match e
    case Posts(_, _, _, now) => now
    case Asserts(_, now) => now
    case Probes(_, now) => now
    case Receives(_, _, now) => now
    case _ => clock
  }

  /** The time to assert liveliness next is not too far ahead, and no local deadline that was ever set
      comes before it. */
  ghost predicate Scheduled(c: Config, n: Node, next: Timespec, clock: Timespec) {
    && InShape(c, n) && LocalClocks(n) && Clock(next) && Clock(clock)
    && Ns(next) <= Ns(clock) + AssertNs(c)
    && forall k :: 0 <= k < n.numPeers ==> IsZero(n.slots[k].nextLocal) || Ns(next) <= Ns(n.slots[k].nextLocal)
  }

  /** The node and its next assert time after an event. */
  function ClockStep(c: Config, unpack: Codec, n: Node, next: Timespec, e: Event): (Node, Timespec)
    requires Shaped(c, n) && InRange(n.providers, |n.slots|) && CanHappen(n, e)
  {
    (NodeStep(c, unpack, n, e).0, if e.Asserts? then AssertLiveliness(c, n, e.now).2 else next)
  }

  lemma TimePasses(c: Config, n: Node, next: Timespec, clock: Timespec, t: Timespec)
    requires Scheduled(c, n, next, clock) && Clock(t) && Ns(clock) <= Ns(t)
    ensures Scheduled(c, n, next, t)
  {
  }

  lemma PostScheduled(c: Config, unpack: Codec, n: Node, next: Timespec, e: Event)
    requires e.Posts? && CanHappen(n, e) && Scheduled(c, n, next, e.now)
    ensures Scheduled(c, NodeStep(c, unpack, n, e).0, next, e.now)
  {
    ClockArithmetic(e.now, c.AssertTimeout());
    hide Ns, Plus, InRange, ContentPacket;
    var n' := NodeStep(c, unpack, n, e).0;
    assert InRange(n.providers, |n.slots|);
    forall k | 0 <= k < n'.numPeers
      ensures Clock(n'.slots[k].nextLocal)
      ensures IsZero(n'.slots[k].nextLocal) || Ns(next) <= Ns(n'.slots[k].nextLocal)
    {
      assert n'.slots[k].nextLocal == n.slots[k].nextLocal || n'.slots[k].nextLocal == Plus(e.now, c.AssertTimeout());
    }
  }

  lemma ReceiveScheduled(c: Config, unpack: Codec, n: Node, next: Timespec, e: Event)
    requires e.Receives? && Scheduled(c, n, next, e.now)
    ensures Scheduled(c, NodeStep(c, unpack, n, e).0, next, e.now)
  {
    hide Ns, InShape, ProcessIncoming;
    assert InShape(c, n) && Shaped(c, n) by { ScheduledShape(c, n, next, e.now); }
    ReceiveDeadlines(c, unpack, n, e.message.source, e.message.packet, e.now);
  }

  lemma ScheduledShape(c: Config, n: Node, next: Timespec, clock: Timespec)
    requires Scheduled(c, n, next, clock)
    ensures InShape(c, n) && Shaped(c, n) && InRange(n.providers, |n.slots|)
  {
  }

  lemma ProbeScheduled(c: Config, n: Node, next: Timespec, now: Timespec)
    requires Scheduled(c, n, next, now)
    ensures Scheduled(c, Probe(c, n, now).node, next, now)
  {
    hide Ns, InShape, Probe;
    ScheduledShape(c, n, next, now);
    ProbeDeadlines(c, n, now);
  }

  lemma AssertScheduled(c: Config, n: Node, next: Timespec, now: Timespec)
    requires Scheduled(c, n, next, now)
    ensures var (m, _, next') := AssertLiveliness(c, n, now);
            Scheduled(c, m, next', now)
  {
    hide Ns, KeepaliveTargets, EarliestLocal;
    NextDeadline(c, n, now);
  }

  lemma EndpointScheduled(c: Config, n: Node, next: Timespec, clock: Timespec, resource: Resource, callback: nat)
    requires Scheduled(c, n, next, clock)
    ensures Scheduled(c, Track(n, resource, callback).0, next, clock)
    ensures Scheduled(c, Advertise(n, resource).0, next, clock)
  {
    hide AddEndpoint, InRange;
    AddInRange(n.trackers, resource, callback, |n.slots|);
    AddInRange(n.providers, resource, CallbackOf(n.providers, resource), |n.slots|);
  }

  lemma StepScheduled(c: Config, unpack: Codec, n: Node, next: Timespec, clock: Timespec, e: Event)
    requires Scheduled(c, n, next, clock) && CanHappen(n, e)
    requires Clock(TimeOf(e, clock)) && Ns(clock) <= Ns(TimeOf(e, clock))
    ensures Shaped(c, n) && InRange(n.providers, |n.slots|)
    ensures var (m, next') := ClockStep(c, unpack, n, next, e);
            Scheduled(c, m, next', TimeOf(e, clock))
  {
    hide Scheduled, ProcessIncoming, Probe, AssertLiveliness, Post, Ns;
    ScheduledShape(c, n, next, clock);
    TimePasses(c, n, next, clock, TimeOf(e, clock));
    match e {
      case Tracks(_, resource, callback) => EndpointScheduled(c, n, next, clock, resource, callback);
      case Advertises(_, resource) => EndpointScheduled(c, n, next, clock, resource, 0);
      case Posts(_, _, _, _) => PostScheduled(c, unpack, n, next, e);
      case Asserts(_, now) => AssertScheduled(c, n, next, now);
      case Discovers(_) => DiscoverScheduled(c, n, next, clock);
      case Probes(_, now) => ProbeScheduled(c, n, next, now);
      case Receives(_, _, _) => ReceiveScheduled(c, unpack, n, next, e);
    }
  }

  lemma DiscoverScheduled(c: Config, n: Node, next: Timespec, clock: Timespec)
    requires Scheduled(c, n, next, clock)
    ensures Scheduled(c, Discover(n), next, clock)
  {
  }

  /** The events of a run that can happen, at times that do not go back. */
  ghost predicate InOrder(n: Node, clock: Timespec, e: Event) {
    CanHappen(n, e) && Clock(TimeOf(e, clock)) && Ns(clock) <= Ns(TimeOf(e, clock))
  }

  ghost function ClockRun(c: Config, unpack: Codec, n: Node, next: Timespec, clock: Timespec, events: seq<Event>)
    : (Node, Timespec, Timespec)
    requires Scheduled(c, n, next, clock)
    decreases |events|
  {
    if events == [] then (n, next, clock)
    else if InOrder(n, clock, events[0]) then
      StepScheduled(c, unpack, n, next, clock, events[0]);
      var (m, next') := ClockStep(c, unpack, n, next, events[0]);
      ClockRun(c, unpack, m, next', TimeOf(events[0], clock), events[1..])
    else ClockRun(c, unpack, n, next, clock, events[1..])
  }

  /** In every run, however posts, packets, probes and keepalives interleave: the time to assert
      liveliness next never comes after a local deadline that was set. And whenever liveliness is then
      asserted with a positive timeout, the assertion of the event loop - the new time lies after now -
      holds if and only if no deadline is overdue by the assert timeout or more. */
  lemma {:induction false} ScheduleSound(c: Config, unpack: Codec, n: Node, next: Timespec, clock: Timespec,
                                         events: seq<Event>, now: Timespec)
    requires Scheduled(c, n, next, clock) && Clock(now) && c.assertMs > 0
    ensures var (m, next', clock') := ClockRun(c, unpack, n, next, clock, events);
            && Scheduled(c, m, next', clock')
            && m.numPeers <= |m.slots|
            && (Cmp(AssertLiveliness(c, m, now).2, now) > 0 <==> LagBelowTimeout(c, m, now))
    decreases |events|
  {
    hide Scheduled, ClockStep, InOrder, Cmp, LagBelowTimeout, AssertLiveliness;
    if events == [] {
      ScheduledShape(c, n, next, clock);
      ScheduledClocks(c, n, next, clock);
      NextDeadline(c, n, now);
    } else if InOrder(n, clock, events[0]) {
      InOrderMeans(n, clock, events[0]);
      StepScheduled(c, unpack, n, next, clock, events[0]);
      var (m, next') := ClockStep(c, unpack, n, next, events[0]);
      ScheduleSound(c, unpack, m, next', TimeOf(events[0], clock), events[1..], now);
    } else {
      ScheduleSound(c, unpack, n, next, clock, events[1..], now);
    }
  }

  lemma InOrderMeans(n: Node, clock: Timespec, e: Event)
    requires InOrder(n, clock, e)
    ensures CanHappen(n, e) && Clock(TimeOf(e, clock)) && Ns(clock) <= Ns(TimeOf(e, clock))
  {
  }

  lemma ScheduledClocks(c: Config, n: Node, next: Timespec, clock: Timespec)
    requires Scheduled(c, n, next, clock)
    ensures n.numPeers <= |n.slots| && LocalClocks(n)
  {
  }

  // ---------- what the event loop waits for ----------

  /** The deadline the event loop waits for: the earliest of four, by the same comparisons. */
  method WaitDeadline(timeout: Timespec, nextAssert: Timespec, nextProbe: Timespec, nextDiscovery: Timespec)
    returns (deadline: Timespec)
    requires Normal(timeout) && Normal(nextAssert) && Normal(nextProbe) && Normal(nextDiscovery)
    ensures deadline in [timeout, nextAssert, nextProbe, nextDiscovery]
    ensures AtMost(Meaning(deadline), Meaning(timeout)) && AtMost(Meaning(deadline), Meaning(nextAssert))
    ensures AtMost(Meaning(deadline), Meaning(nextProbe)) && AtMost(Meaning(deadline), Meaning(nextDiscovery))
    ensures deadline.sec >= 0 <==>
            timeout.sec >= 0 || nextAssert.sec >= 0 || nextProbe.sec >= 0 || nextDiscovery.sec >= 0
  {
    deadline := timeout;
    if Cmp(deadline, nextAssert) > 0 {
      deadline := nextAssert;
    }
    if Cmp(deadline, nextProbe) > 0 {
      deadline := nextProbe;
    }
    if Cmp(deadline, nextDiscovery) > 0 {
      deadline := nextDiscovery;
    }
  }
}
