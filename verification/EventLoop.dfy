/** One turn of the event loop: packets are received, then what is due is done, and the loop asserts that it
    will not be due again at the same instant. */
module EventLoop {
  import opened Time
  import opened Sequences
  import opened Tables
  import opened Protocol
  import opened Accounting
  import opened Probing
  import opened Network
  import opened NodeRuns
  import opened Liveliness
  import opened Receiving
  import opened EndpointGroups
  import opened NodeObjects
  import PacketObjects

  // ---------- what a pass does ----------

  /** The local variables of the loop: when it asserts liveliness, probes and discovers next, and how many
      trackers had peers at the last probe. */
  datatype Agenda = Agenda(nextAssert: Timespec, nextProbe: Timespec, nextDiscovery: Timespec, active: nat)

  /** The clock readings of a pass: that of the loop, which decides what is due and is compared with in its
      assertions; then that of asserting liveliness, if it is due; then that of the probe, if it is. */
  datatype Readings = Readings(loop: Timespec, liveliness: Timespec, probe: Timespec) {
    ghost predicate Valid() {
      Clock(loop) && Clock(liveliness) && Clock(probe) && Ns(loop) <= Ns(liveliness) <= Ns(probe)
    }
  }

  /** What a pass leaves and sends, and whether the assertions it meets hold. */
  datatype Pass = Pass(node: Node, agenda: Agenda, sent: set<Message>, held: bool)

  function AssertDue(c: Config, n: Node, a: Agenda, t: Readings): (p: Pass)
    requires Shaped(c, n)
    ensures Shaped(c, p.node)
  {
    if Cmp(t.loop, a.nextAssert) >= 0 then
      var (m, targets, next) := AssertLiveliness(c, n, t.liveliness);
      Pass(m, a.(nextAssert := next), Unicasts(n.address, targets, m.outgoing), Cmp(next, t.loop) > 0)
    else Pass(n, a, {}, true)
  }

  function ProbeDue(c: Config, n: Node, a: Agenda, t: Readings): (p: Pass)
    requires Shaped(c, n)
    ensures Shaped(c, p.node)
  {
    if Cmp(t.loop, a.nextProbe) >= 0 then
      var o := Probe(c, n, t.probe);
      Pass(o.node, a.(nextProbe := o.next, active := o.activeTrackers), {}, Cmp(o.next, t.loop) > 0)
    else Pass(n, a, {}, true)
  }

  function DiscoverDue(c: Config, n: Node, a: Agenda, t: Readings): (p: Pass)
    requires Shaped(c, n)
    ensures Shaped(c, p.node)
  {
    if Cmp(t.loop, a.nextDiscovery) >= 0 then
      var next := Plus(a.nextDiscovery, c.DiscoveryPeriod());
      var (m, sent) := if a.active < |n.trackers| then (Discover(n), {Message(n.address, Everyone, Discovery(n))})
                       else (n, {});
      Pass(m, a.(nextDiscovery := next), sent, Cmp(next, t.loop) > 0)
    else Pass(n, a, {}, true)
  }

  /** One pass. */
  function OnePass(c: Config, n: Node, a: Agenda, t: Readings): (p: Pass)
    requires Shaped(c, n)
    ensures Shaped(c, p.node)
  {
    var p1 := AssertDue(c, n, a, t);
    var p2 := ProbeDue(c, p1.node, p1.agenda, t);
    var p3 := DiscoverDue(c, p2.node, p2.agenda, t);
    p3.(sent := p1.sent + p2.sent + p3.sent, held := p1.held && p2.held && p3.held)
  }

  datatype Turn = Ended(node: Node, sent: set<Message>) | Turned(pass: Pass)

  /** One turn of the loop: the packets that came, and the pass unless one of them failed. */
  function OneTurn(c: Config, unpack: Codec, n: Node, arrivals: seq<Arrival>, a: Agenda, t: Readings): Turn
    requires Shaped(c, n)
  {
    var r := ReceiveAll(c, unpack, n, arrivals);
    if r.well then
      var p := OnePass(c, r.node, a, t);
      Turned(p.(sent := r.sent + p.sent))
    else Ended(r.node, r.sent)
  }

  /** With a full table the loop ends, the node untouched, at the first packet from somebody else. */
  lemma FullTableEndsLoop(c: Config, unpack: Codec, n: Node, arrivals: seq<Arrival>, a: Agenda, t: Readings)
    requires Shaped(c, n) && n.numPeers == c.maxPeers
    ensures OneTurn(c, unpack, n, arrivals, a, t)
         == if forall i :: 0 <= i < |arrivals| ==> arrivals[i].source == n.address && arrivals[i].broadcast
            then Turned(OnePass(c, n, a, t)) else Ended(n, {})
  {
    hide OnePass, Receive, ReceiveAll;
    FullTableRefuses(c, unpack, n, arrivals);
    assert {} + OnePass(c, n, a, t).sent == OnePass(c, n, a, t).sent;
  }

  // ---------- when its assertions hold ----------

  ghost predicate Times(n: Node, a: Agenda)
    requires n.numPeers <= |n.slots|
  {
    && Clock(a.nextAssert) && Clock(a.nextProbe) && Clock(a.nextDiscovery)
    && LocalClocks(n)
    && forall k :: 0 <= k < n.numPeers ==> Clock(n.slots[k].nextRemote)
  }

  /** No peer that is linked to something falls due at this very instant. */
  ghost predicate NoneFallsDue(n: Node, now: Timespec)
    requires n.numPeers <= |n.slots|
  {
    forall k :: 0 <= k < n.numPeers && n.slots[k].numLinks != 0 ==> n.slots[k].nextRemote != now
  }

  /** A deadline after a keepalive check at one time lies after an earlier time unless it was overdue by the
      assert timeout then. */
  lemma RenewedLater(c: Config, p: Peer, t0: Timespec, t1: Timespec)
    requires Clock(t0) && Clock(t1) && Ns(t0) <= Ns(t1) && Clock(p.nextLocal)
    requires c.assertMs > 0 || Ns(t0) < Ns(t1)
    ensures Clock(Keepalive(c, p, t1).nextLocal)
    ensures Ns(Keepalive(c, p, t1).nextLocal) > Ns(t0) <==>
              IsZero(p.nextLocal) || Ns(t0) - Ns(p.nextLocal) < AssertNs(c)
  {
    KeepaliveDeadline(c, p, t1);
    ClockArithmetic(p.nextLocal, t1);
  }

  /** The time to assert liveliness next lies after an earlier reading exactly when no deadline was overdue
      by the assert timeout at that reading, and the timeout is positive or time has passed. */
  lemma NextAssertLater(c: Config, n: Node, t0: Timespec, t1: Timespec)
    requires Shaped(c, n) && Clock(t0) && Clock(t1) && Ns(t0) <= Ns(t1) && LocalClocks(n)
    ensures var next := AssertLiveliness(c, n, t1).2;
            Clock(next) && (Cmp(next, t0) > 0 <==> (c.assertMs > 0 || Ns(t0) < Ns(t1)) && LagBelowTimeout(c, n, t0))
  {
    hide Protocol.AssertLiveliness, Keepalive, Ns, Cmp;
    NextDeadline(c, n, t1);
    var (m, _, next) := AssertLiveliness(c, n, t1);
    ClockArithmetic(next, t0);
    if c.assertMs > 0 || Ns(t0) < Ns(t1) {
      forall k | 0 <= k < n.numPeers
        ensures m.slots[k] == Keepalive(c, n.slots[k], t1)
        ensures Ns(m.slots[k].nextLocal) > Ns(t0) <==>
                  IsZero(n.slots[k].nextLocal) || Ns(t0) - Ns(n.slots[k].nextLocal) < AssertNs(c)
      {
        RenewedLater(c, n.slots[k], t0, t1);
      }
    }
  }

  lemma AssertHolds(c: Config, n: Node, a: Agenda, t: Readings)
    requires Shaped(c, n) && Times(n, a) && t.Valid()
    ensures var p := AssertDue(c, n, a, t);
            && Times(p.node, p.agenda)
            && (p.held <==> Ns(t.loop) < Ns(a.nextAssert)
                            || ((c.assertMs > 0 || Ns(t.loop) < Ns(t.liveliness)) && LagBelowTimeout(c, n, t.loop)))
            && (p.held ==> Ns(t.loop) < Ns(p.agenda.nextAssert))
            && p.agenda.nextProbe == a.nextProbe && p.agenda.nextDiscovery == a.nextDiscovery
            && (NoneFallsDue(p.node, t.probe) <==> NoneFallsDue(n, t.probe))
  {
    hide Protocol.AssertLiveliness, LagBelowTimeout, Plus, Cmp, Ns;
    ClockArithmetic(t.loop, a.nextAssert);
    if Cmp(t.loop, a.nextAssert) >= 0 {
      NextDeadline(c, n, t.liveliness);
      NextAssertLater(c, n, t.loop, t.liveliness);
      var (m, _, next) := AssertLiveliness(c, n, t.liveliness);
      ClockArithmetic(next, t.loop);
      forall k | 0 <= k < n.numPeers
        ensures m.slots[k].numLinks == n.slots[k].numLinks && m.slots[k].nextRemote == n.slots[k].nextRemote
      {
        assert m.slots[k] == Keepalive(c, n.slots[k], t.liveliness);
      }
    }
  }

  /** A peer that falls due now is still alive, so if it is linked to something it stays. */
  lemma StayersFallingDue(c: Config, n: Node, now: Timespec)
    requires Shaped(c, n) && Clock(now)
    requires forall k :: 0 <= k < n.numPeers ==> Clock(n.slots[k].nextRemote)
    ensures var m := Probe(c, n, now).node;
            && m.numPeers <= |m.slots|
            && ((forall k :: 0 <= k < m.numPeers ==> m.slots[k].nextRemote != now) <==> NoneFallsDue(n, now))
  {
    hide Filter, Compact, Cmp, CountActive, DropDead;
    var marked := MarkAlive(n.slots, n.numPeers, now);
    var m := Probe(c, n, now).node;
    CompactionIs(c, n, now);
    var kept := m.slots[..m.numPeers];
    if NoneFallsDue(n, now) {
      forall k | 0 <= k < m.numPeers
        ensures m.slots[k].nextRemote != now
      {
        assert kept[k] == m.slots[k] && kept[k] in Filter(marked[..n.numPeers], IsRetained);
        var j :| 0 <= j < n.numPeers && m.slots[k] == marked[..n.numPeers][j];
      }
    } else {
      var k :| 0 <= k < n.numPeers && n.slots[k].numLinks != 0 && n.slots[k].nextRemote == now;
      ClockArithmetic(now, now);
      assert marked[..n.numPeers][k] == marked[k] && IsRetained(marked[k]);
      var j :| 0 <= j < m.numPeers && kept[j] == marked[k];
      assert m.slots[j].nextRemote == now;
    }
  }

  /** The assertion after a probe fails exactly when no time has passed since the loop read its clock and
      either the probe timeout is zero or a linked peer falls due at this instant. */
  lemma ProbeHolds(c: Config, n: Node, a: Agenda, t: Readings)
    requires Shaped(c, n) && Times(n, a) && t.Valid()
    ensures var p := ProbeDue(c, n, a, t);
            && Times(p.node, p.agenda)
            && (p.held <==> Ns(t.loop) < Ns(a.nextProbe) || Ns(t.loop) < Ns(t.probe)
                            || (c.probeMs > 0 && NoneFallsDue(n, t.probe)))
            && (p.held ==> Ns(t.loop) < Ns(p.agenda.nextProbe))
            && p.agenda.nextAssert == a.nextAssert && p.agenda.nextDiscovery == a.nextDiscovery
  {
    hide Probe, Plus, Cmp, Ns, NoneFallsDue;
    ClockArithmetic(t.loop, a.nextProbe);
    if Cmp(t.loop, a.nextProbe) >= 0 {
      NextProbe(c, n, t.probe);
      StayersFallingDue(c, n, t.probe);
      StayerClocks(c, n, t.probe);
      ClockArithmetic(Probe(c, n, t.probe).next, t.loop);
      ClockArithmetic(t.loop, t.probe);
    }
  }

  lemma StayerClocks(c: Config, n: Node, now: Timespec)
    requires Shaped(c, n) && LocalClocks(n)
    requires forall k :: 0 <= k < n.numPeers ==> Clock(n.slots[k].nextRemote)
    ensures var m := Probe(c, n, now).node;
            && m.numPeers <= |m.slots| && LocalClocks(m)
            && forall k :: 0 <= k < m.numPeers ==> Clock(m.slots[k].nextRemote)
  {
    hide Filter, Compact, Cmp, CountActive, DropDead, Plus;
    var marked := MarkAlive(n.slots, n.numPeers, now);
    var m := Probe(c, n, now).node;
    CompactionIs(c, n, now);
    forall k | 0 <= k < m.numPeers
      ensures Clock(m.slots[k].nextRemote) && Clock(m.slots[k].nextLocal)
    {
      assert m.slots[..m.numPeers][k] in Filter(marked[..n.numPeers], IsRetained);
      var j :| 0 <= j < n.numPeers && m.slots[k] == marked[..n.numPeers][j];
    }
  }

  lemma DiscoverHolds(c: Config, n: Node, a: Agenda, t: Readings)
    requires Shaped(c, n) && Times(n, a) && t.Valid()
    ensures var p := DiscoverDue(c, n, a, t);
            && Times(p.node, p.agenda)
            && (p.held <==> Ns(t.loop) - Ns(a.nextDiscovery) < 1_000_000 * c.discoveryMs || Ns(t.loop) < Ns(a.nextDiscovery))
            && (p.held ==> Ns(t.loop) < Ns(p.agenda.nextDiscovery))
            && p.agenda.nextAssert == a.nextAssert && p.agenda.nextProbe == a.nextProbe
  {
    hide Plus, Cmp, Ns;
    ClockArithmetic(t.loop, a.nextDiscovery);
    ClockArithmetic(a.nextDiscovery, c.DiscoveryPeriod());
    ClockArithmetic(Plus(a.nextDiscovery, c.DiscoveryPeriod()), t.loop);
  }

  /** All the assertions of a pass hold exactly when: if liveliness is due, no local deadline was overdue by
      the assert timeout when the loop read its clock, and the timeout is positive or time has passed since;
      if a probe is due, time has passed since, or the probe timeout is positive and no linked peer falls due
      at this very instant; and discovery is not overdue by its period. And then nothing is due any more at
      the loop's reading. */
  lemma PassHolds(c: Config, n: Node, a: Agenda, t: Readings)
    requires Shaped(c, n) && Times(n, a) && t.Valid() && c.Valid()
    ensures var p := OnePass(c, n, a, t);
            && Times(p.node, p.agenda)
            && (p.held <==>
                  && (Ns(a.nextAssert) <= Ns(t.loop) ==>
                        (c.assertMs > 0 || Ns(t.loop) < Ns(t.liveliness)) && LagBelowTimeout(c, n, t.loop))
                  && (Ns(a.nextProbe) <= Ns(t.loop) ==>
                        Ns(t.loop) < Ns(t.probe) || (c.probeMs > 0 && NoneFallsDue(n, t.probe)))
                  && Ns(t.loop) - Ns(a.nextDiscovery) < 1_000_000 * c.discoveryMs)
            && (p.held ==> Ns(t.loop) < Ns(p.agenda.nextAssert) && Ns(t.loop) < Ns(p.agenda.nextProbe)
                           && Ns(t.loop) < Ns(p.agenda.nextDiscovery))
  {
    hide AssertDue, ProbeDue, DiscoverDue, Times, Ns, LagBelowTimeout, NoneFallsDue;
    var p1 := AssertDue(c, n, a, t);
    AssertHolds(c, n, a, t);
    var p2 := ProbeDue(c, p1.node, p1.agenda, t);
    ProbeHolds(c, p1.node, p1.agenda, t);
    DiscoverHolds(c, p2.node, p2.agenda, t);
  }

  // ---------- on objects ----------

  /** One pass, on a node object. */
  method Spin(node: UccnNode, a: Agenda, t: Readings) returns (b: Agenda, sent: set<Message>, held: bool)
    requires node.Valid() && InShape(node.c, node.Value())
    modifies node.slots, Members(node.trackers), Buffers(node.trackers), Members(node.providers), Buffers(node.providers)
    modifies node`numPeers, node`outgoing
    ensures node.Valid()
    ensures Pass(node.Value(), b, sent, held) == OnePass(node.c, old(node.Value()), a, t)
  {
    hide UccnNode.Valid, UccnNode.Value, UccnNode.Trackers, UccnNode.Providers;
    hide Cmp, Plus, Probe, InRange, Discovery, KeepaliveAll, KeepaliveTargets, EarliestLocal, Unicasts;
    b, sent, held := a, {}, true;
    ghost var p1 := AssertDue(node.c, node.Value(), a, t);
    if Cmp(t.loop, b.nextAssert) >= 0 {
      var targets, next := node.AssertLiveliness(t.liveliness);
      sent := Unicasts(node.address, targets, node.outgoing);
      b, held := b.(nextAssert := next), held && Cmp(next, t.loop) > 0;
    }
    assert Pass(node.Value(), b, sent, held) == p1;
    ghost var p2 := ProbeDue(node.c, p1.node, b, t);
    if Cmp(t.loop, b.nextProbe) >= 0 {
      var trackers, providers, next := node.ProbeEndpoints(t.probe);
      b, held := b.(nextProbe := next, active := trackers), held && Cmp(next, t.loop) > 0;
    }
    assert Pass(node.Value(), b, sent + {}, held) == p2.(sent := p1.sent + p2.sent, held := p1.held && p2.held);
    if Cmp(t.loop, b.nextDiscovery) >= 0 {
      if b.active < node.numTrackers {
        node.DiscoverPeers();
        sent := sent + {Message(node.address, Everyone, node.outgoing)};
      }
      var next := Plus(b.nextDiscovery, node.c.DiscoveryPeriod());
      b, held := b.(nextDiscovery := next), held && Cmp(next, t.loop) > 0;
    }
    ghost var p3 := DiscoverDue(node.c, p2.node, p2.agenda, t);
    assert sent == p1.sent + p2.sent + p3.sent;
  }

  /** A packet from a socket, on a node object. */
  method TakePacket(node: UccnNode, unpack: Codec, a: Arrival) returns (ret: int, sent: set<Message>)
    requires node.Valid() && InShape(node.c, node.Value())
    modifies node.slots, Members(node.trackers), Buffers(node.trackers), Members(node.providers), Buffers(node.providers)
    modifies node`numPeers, node`outgoing
    ensures node.Valid() && InShape(node.c, node.Value())
    ensures var o := Receive(node.c, unpack, old(node.Value()), a);
            node.Value() == o.node && ret == o.ret && sent == Replies(old(node.Value()), a, o)
  {
    hide UccnNode.Valid, UccnNode.Value, UccnNode.Trackers, UccnNode.Providers, InShape, Protocol.ProcessIncoming;
    if a.source == node.address {
      return if a.broadcast then 0 else -1, {};
    }
    ReceiveDeadlines(node.c, unpack, node.Value(), a.source, a.packet, a.now);
    var reply, delivered, overrun;
    ret, reply, delivered, overrun := PacketObjects.ProcessIncoming(node, unpack, a.source, a.packet, a.now);
    sent := if reply.Some? then {Message(node.address, To(a.source), reply.value)} else {};
  }

  lemma ReceivedNext(c: Config, unpack: Codec, n: Node, arrivals: seq<Arrival>, i: nat)
    requires Shaped(c, n) && i < |arrivals|
    ensures var o := Receive(c, unpack, n, arrivals[i]);
            && Shaped(c, o.node)
            && ReceiveAll(c, unpack, n, arrivals[i..])
                 == if o.ret < 0 then Received(o.node, {}, false)
                    else
                      var rest := ReceiveAll(c, unpack, o.node, arrivals[i + 1..]);
                      rest.(sent := Replies(n, arrivals[i], o) + rest.sent)
  {
    hide Receive;
    ReceiveShaped(c, unpack, n, arrivals[i]);
    assert arrivals[i..][1..] == arrivals[i + 1..];
  }

  /** One turn, on a node object. */
  method TakeTurn(node: UccnNode, unpack: Codec, arrivals: seq<Arrival>, a: Agenda, t: Readings)
    returns (ended: bool, b: Agenda, sent: set<Message>, held: bool)
    requires node.Valid() && InShape(node.c, node.Value())
    modifies node.slots, Members(node.trackers), Buffers(node.trackers), Members(node.providers), Buffers(node.providers)
    modifies node`numPeers, node`outgoing
    ensures node.Valid()
    ensures (if ended then Ended(node.Value(), sent) else Turned(Pass(node.Value(), b, sent, held)))
         == OneTurn(node.c, unpack, old(node.Value()), arrivals, a, t)
  {
    hide UccnNode.Valid, UccnNode.Value, UccnNode.Trackers, UccnNode.Providers, InShape, Receive, ReceiveAll, OnePass;
    ghost var all := ReceiveAll(node.c, unpack, node.Value(), arrivals);
    assert arrivals[0..] == arrivals;
    sent := {};
    for i := 0 to |arrivals|
      invariant node.Valid() && InShape(node.c, node.Value())
      invariant var rest := ReceiveAll(node.c, unpack, node.Value(), arrivals[i..]);
                all == rest.(sent := sent + rest.sent)
    {
      ReceivedNext(node.c, unpack, node.Value(), arrivals, i);
      var ret, reply := TakePacket(node, unpack, arrivals[i]);
      if ret < 0 {
        return true, a, sent, true;
      }
      sent := sent + reply;
    }
    NothingReceived(node.c, unpack, node.Value(), arrivals);
    var due;
    b, due, held := Spin(node, a, t);
    ended, sent := false, sent + due;
  }

  lemma NothingReceived(c: Config, unpack: Codec, n: Node, arrivals: seq<Arrival>)
    requires Shaped(c, n)
    ensures ReceiveAll(c, unpack, n, arrivals[|arrivals|..]) == Received(n, {}, true)
  {
  }

  /** What a caller owes: room for new endpoints, and an existing provider to post on. */
  ghost predicate CallerOk(c: Config, n: Node, e: Event) {
    && CanHappen(n, e)
    && (e.Tracks? ==> CanAdd(n.trackers, e.resource, c.maxTrackers))
    && (e.Advertises? ==> CanAdd(n.providers, e.resource, c.maxProviders))
  }

  /** Whatever happens to a node, its endpoints name slots of its table. */
  lemma StepInShape(c: Config, unpack: Codec, n: Node, e: Event)
    requires InShape(c, n) && CanHappen(n, e)
    ensures Shaped(c, n) && InRange(n.providers, |n.slots|) && InShape(c, NodeStep(c, unpack, n, e).0)
  {
    hide InRange, AddEndpoint, ProcessIncoming, Probe, EarliestLocal, KeepaliveTargets, Plus, Discovery;
    assert InRange(n.providers, |n.slots|);
    match e {
      case Tracks(_, resource, callback) => AddInRange(n.trackers, resource, callback, |n.slots|);
      case Advertises(_, resource) =>
        AddInRange(n.providers, resource, CallbackOf(n.providers, resource), |n.slots|);
      case Probes(_, now) => ProbeDeadlines(c, n, now);
      case Receives(_, m, now) => ReceiveDeadlines(c, unpack, n, m.source, m.packet, now);
      case _ =>
    }
  }

  /** Any event, on a node object: it does and sends what the node as a value does and sends, and when the
      event is permitted its accounting is kept. */
  method Handle(node: UccnNode, unpack: Codec, e: Event) returns (sent: set<Message>)
    requires node.Valid() && InShape(node.c, node.Value()) && CallerOk(node.c, node.Value(), e)
    modifies node.slots, Members(node.trackers), Buffers(node.trackers), Members(node.providers), Buffers(node.providers)
    modifies node`numPeers, node`numTrackers, node`numProviders, node`outgoing
    ensures node.Valid() && InShape(node.c, node.Value())
    ensures old(Accounted(node.c, node.Value()) && Permitted(node.c, unpack, node.Value(), e)) ==>
              Accounted(node.c, node.Value())
    ensures InRange(old(node.Value()).providers, |old(node.Value()).slots|)
    ensures node.Value() == NodeStep(node.c, unpack, old(node.Value()), e).0
    ensures sent == NodeStep(node.c, unpack, old(node.Value()), e).1
  {
    hide UccnNode.Valid, UccnNode.Value, UccnNode.Trackers, UccnNode.Providers;
    hide Accounted, Protocol.Post, Protocol.AssertLiveliness, Probe, InRange, Protocol.Discovery;
    hide Protocol.ProcessIncoming, Unicasts;
    hide Accounting.Track, Accounting.Advertise, Permitted, CanAdd;
    sent := {};
    StepInShape(node.c, unpack, node.Value(), e);
    if Accounted(node.c, node.Value()) && Permitted(node.c, unpack, node.Value(), e) {
      StepAccounted(node.c, unpack, node.Value(), e);
    }
    match e
    case Tracks(_, resource, callback) =>
      var slot := node.Track(resource, callback);
    case Advertises(_, resource) =>
      var slot := node.Advertise(resource);
    case Posts(_, p, blob, now) =>
      PostTargets(node.Value(), p);
      var targets := node.Post(p, blob, now);
      sent := Unicasts(node.address, targets, node.outgoing);
    case Asserts(_, now) =>
      var targets, next := node.AssertLiveliness(now);
      sent := Unicasts(node.address, targets, node.outgoing);
    case Discovers(_) =>
      node.DiscoverPeers();
      sent := {Message(node.address, Everyone, node.outgoing)};
    case Probes(_, now) =>
      var trackers, providers, next := node.ProbeEndpoints(now);
    case Receives(_, m, now) =>
      var ret, reply, delivered, overrun := PacketObjects.ProcessIncoming(node, unpack, m.source, m.packet, now);
      sent := if reply.Some? then {Message(node.address, To(m.source), reply.value)} else {};
  }

  lemma PostTargets(n: Node, p: nat)
    requires InRange(n.providers, |n.slots|) && p < |n.providers|
    ensures Below(n.providers[p].peers, |n.slots|)
  {
  }
}
