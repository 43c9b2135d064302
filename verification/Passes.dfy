/** What a pass of the event loop does to a node and sends, in terms of the node before the pass. */
module Passes {
  import opened Time
  import opened Tokens
  import opened Tables
  import opened Protocol
  import opened RoundTrip
  import opened Network
  import opened ProbeAnswer
  import opened Sending
  import opened EventLoop

  // ---------- the peers that are alive ----------

  /** Whether peers are alive depends on their remote deadlines, which asserting liveliness leaves alone. */
  lemma SameActive(n: Node, m: Node, now: Timespec, es: seq<Endpoint>)
    requires n.numPeers == m.numPeers <= |n.slots| == |m.slots|
    requires forall k :: 0 <= k < |n.slots| ==>
               m.slots[k].nextRemote == n.slots[k].nextRemote && m.slots[k].alive == n.slots[k].alive
    ensures Active(m, now, es) == Active(n, now, es)
  {
    hide Ns;
    assert forall k: nat :: Alive(m, now, k) <==> Alive(n, now, k);
  }

  lemma {:induction false} BelowSize(s: set<nat>, num: nat)
    requires forall i :: i in s ==> i < num
    ensures |s| <= num && (|s| < num <==> exists i: nat :: i < num && i !in s)
    decreases num
  {
    if num > 0 {
      var last: nat := num - 1;
      BelowSize(s - {last}, last);
      if last in s {
        assert |s| == |s - {last}| + 1;
        assert forall i: nat :: i < num && i !in s ==> i < last && i !in s - {last};
        assert forall i: nat :: i < last && i !in s - {last} ==> i !in s;
      } else {
        assert s - {last} == s;
      }
    } else {
      assert s == {};
    }
  }

  /** Fewer trackers than there are have live peers exactly when some tracker has none. */
  lemma SomeTrackerUnlinked(n: Node, now: Timespec)
    requires n.numPeers <= |n.slots|
    ensures |Active(n, now, n.trackers)| < |n.trackers| <==>
              exists i: nat :: i < |n.trackers| && forall k: nat :: k in n.trackers[i].peers ==> !Alive(n, now, k)
  {
    hide Alive;
    var s := Active(n, now, n.trackers);
    BelowSize(s, |n.trackers|);
    if i: nat :| i < |n.trackers| && i !in s {
      assert forall k: nat :: k in n.trackers[i].peers ==> !Alive(n, now, k);
    }
    if i: nat :| i < |n.trackers| && forall k: nat :: k in n.trackers[i].peers ==> !Alive(n, now, k) {
      assert i !in s;
    }
  }

  // ---------- the steps ----------

  lemma AssertEffect(c: Config, n: Node, a: Agenda, t: Readings)
    requires Shaped(c, n) && Times(n, a) && t.Valid()
    ensures var p := AssertDue(c, n, a, t);
            && (if Ns(a.nextAssert) <= Ns(t.loop) then
                  && p.node == AssertLiveliness(c, n, t.liveliness).0
                  && p.agenda == a.(nextAssert := AssertLiveliness(c, n, t.liveliness).2)
                  && p.sent == Keepalives(n, t.liveliness) && p.node.outgoing == [Nil]
                else p.node == n && p.agenda == a && p.sent == {})
            && p.node == n.(slots := p.node.slots, outgoing := p.node.outgoing)
            && Active(p.node, t.probe, n.trackers) == Active(n, t.probe, n.trackers)
  {
    hide AssertLiveliness, Cmp, Ns, Alive, Unicasts;
    ClockArithmetic(t.loop, a.nextAssert);
    if Ns(a.nextAssert) <= Ns(t.loop) {
      AssertsSend(c, n, t.liveliness);
      var at := KeepalivesExactly(c, n, t.liveliness);
      SameActive(n, AssertDue(c, n, a, t).node, t.probe, n.trackers);
    }
  }

  lemma ProbeEffect(c: Config, n: Node, a: Agenda, t: Readings)
    requires Shaped(c, n) && Times(n, a) && t.Valid()
    ensures var p := ProbeDue(c, n, a, t);
            && (if Ns(a.nextProbe) <= Ns(t.loop) then
                  && p.node == Probe(c, n, t.probe).node
                  && p.agenda == a.(nextProbe := Probe(c, n, t.probe).next, active := |Active(n, t.probe, n.trackers)|)
                else p.node == n && p.agenda == a)
            && p.sent == {} && p.node.outgoing == n.outgoing && p.node.name == n.name && p.node.address == n.address
            && |p.node.trackers| == |n.trackers|
  {
    hide Probe, Cmp, Ns, Active, SomehowKeepsLive;
    ClockArithmetic(t.loop, a.nextProbe);
    ProbeExactly(c, n, t.probe);
  }

  lemma DiscoverEffect(c: Config, n: Node, a: Agenda, t: Readings)
    requires Shaped(c, n) && Times(n, a) && t.Valid()
    ensures var p := DiscoverDue(c, n, a, t);
            var due := Ns(a.nextDiscovery) <= Ns(t.loop);
            var packet := LinkPacket(n.name, [Datum(false, UnlinkedHashes(n.trackers))]);
            && (if due && a.active < |n.trackers| then
                  p.node == n.(outgoing := packet) && p.sent == {Message(n.address, Everyone, packet)}
                else p.node == n && p.sent == {})
            && p.agenda == a.(nextDiscovery := p.agenda.nextDiscovery) && Clock(p.agenda.nextDiscovery)
            && Ns(p.agenda.nextDiscovery) == Ns(a.nextDiscovery) + (if due then 1_000_000 * c.discoveryMs else 0)
  {
    hide Cmp, Ns, Plus, LinkPacket, UnlinkedHashes;
    ClockArithmetic(t.loop, a.nextDiscovery);
    ClockArithmetic(a.nextDiscovery, c.DiscoveryPeriod());
    WritersWriteLinkPackets(n.name, UnlinkedHashes(n.trackers), []);
  }

  // ---------- the pass ----------

  /** What is due at the loop's reading is done, in order, and nothing else: keepalives go to the peers that are
      due; a probe leaves its time and the number of trackers with live peers; and a discovery packet, of the
      trackers that then have no peer, goes to everyone exactly when discovery is due and some tracker had no
      live peer at the last probe. The outgoing buffer holds what was made last. */
  lemma PassEffect(c: Config, n: Node, a: Agenda, t: Readings)
    requires Shaped(c, n) && Times(n, a) && t.Valid()
    ensures var p := OnePass(c, n, a, t);
            var keeps, probes := Ns(a.nextAssert) <= Ns(t.loop), Ns(a.nextProbe) <= Ns(t.loop);
            var discovers := Ns(a.nextDiscovery) <= Ns(t.loop);
            var kept := if keeps then AssertLiveliness(c, n, t.liveliness).0 else n;
            var asks := discovers && p.agenda.active < |n.trackers|;
            var packet := LinkPacket(n.name, [Datum(false, UnlinkedHashes(p.node.trackers))]);
            && p.agenda.active == (if probes then |Active(n, t.probe, n.trackers)| else a.active)
            && p.sent == (if keeps then Keepalives(n, t.liveliness) else {})
                         + (if asks then {Message(n.address, Everyone, packet)} else {})
            && p.node.outgoing == (if asks then packet else if keeps then [Nil] else n.outgoing)
            && p.node == (if probes then Probe(c, kept, t.probe).node else kept).(outgoing := p.node.outgoing)
            && p.agenda.nextAssert == (if keeps then AssertLiveliness(c, n, t.liveliness).2 else a.nextAssert)
            && p.agenda.nextProbe == (if probes then Probe(c, kept, t.probe).next else a.nextProbe)
            && Ns(p.agenda.nextDiscovery) == Ns(a.nextDiscovery) + (if discovers then 1_000_000 * c.discoveryMs else 0)
  {
    hide AssertDue, ProbeDue, DiscoverDue, AssertLiveliness, Probe, Times, Ns, Active, LinkPacket, UnlinkedHashes,
      Keepalives;
    AssertEffect(c, n, a, t);
    var p1 := AssertDue(c, n, a, t);
    AssertHolds(c, n, a, t);
    ProbeEffect(c, p1.node, p1.agenda, t);
    var p2 := ProbeDue(c, p1.node, p1.agenda, t);
    ProbeHolds(c, p1.node, p1.agenda, t);
    DiscoverEffect(c, p2.node, p2.agenda, t);
    var p3 := DiscoverDue(c, p2.node, p2.agenda, t);
    assert p1.sent + p2.sent + p3.sent == p1.sent + p3.sent;
  }

  /** The first pass, for which everything is scheduled at the time the loop was entered: a probe comes before
      discovery, so the number of active trackers that the loop starts with, which nothing has set, does not matter. */
  lemma FirstPass(c: Config, n: Node, start: Timespec, active: nat, t: Readings)
    requires Shaped(c, n) && Times(n, Agenda(start, start, start, active)) && t.Valid() && Ns(start) <= Ns(t.loop)
    ensures var p := OnePass(c, n, Agenda(start, start, start, active), t);
            && (forall other: nat :: OnePass(c, n, Agenda(start, start, start, other), t) == p)
            && p.agenda.active == |Active(n, t.probe, n.trackers)|
            && ((exists m :: m in p.sent && m.to == Everyone) <==> p.agenda.active < |n.trackers|)
  {
    hide AssertLiveliness, Probe, Cmp, Plus, Ns, Active, LinkPacket, UnlinkedHashes, Due, DiscoverDue;
    var a := Agenda(start, start, start, active);
    ClockArithmetic(t.loop, start);
    PassEffect(c, n, a, t);
    forall other: nat
      ensures OnePass(c, n, Agenda(start, start, start, other), t) == OnePass(c, n, a, t)
    {
      var p1 := AssertDue(c, n, a, t);
      var q1 := AssertDue(c, n, a.(active := other), t);
      assert q1 == p1.(agenda := p1.agenda.(active := other));
      assert ProbeDue(c, q1.node, q1.agenda, t) == ProbeDue(c, p1.node, p1.agenda, t);
    }
    var p := OnePass(c, n, a, t);
    if p.agenda.active < |n.trackers| {
      assert Message(n.address, Everyone, LinkPacket(n.name, [Datum(false, UnlinkedHashes(p.node.trackers))])) in p.sent;
    }
  }
}
