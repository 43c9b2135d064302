/** What a node sends and to whom, in terms of the node before. */
module Sending {
  import opened Time
  import opened HashList
  import opened Sequences
  import opened Tokens
  import opened Tables
  import opened Protocol
  import opened Accounting
  import opened RoundTrip
  import opened Network
  import opened Liveliness

  // ---------- keepalives ----------

  /** Whether a peer's local deadline has come. */
  ghost predicate Due(n: Node, now: Timespec, k: nat)
    requires n.numPeers <= |n.slots|
  {
    k < n.numPeers && Ns(n.slots[k].nextLocal) <= Ns(now)
  }

  lemma {:induction false} KeepalivePlaces(ps: seq<Peer>, now: Timespec) returns (at: seq<nat>)
    requires Clock(now) && forall i :: 0 <= i < |ps| ==> Clock(ps[i].nextLocal)
    ensures Increasing(at) && forall i: nat :: i in at <==> i < |ps| && Ns(ps[i].nextLocal) <= Ns(now)
    ensures var targets := KeepaliveTargets(ps, now);
            |targets| == |at| && forall q :: 0 <= q < |at| ==> at[q] < |ps| && targets[q] == ps[at[q]].address
    decreases |ps|
  {
    hide Cmp, Ns;
    at := [];
    if ps != [] {
      var m := |ps| - 1;
      var rest := KeepalivePlaces(ps[..m], now);
      ClockArithmetic(now, ps[m].nextLocal);
      IncreasingSnoc(rest, m);
      at := if MustSend(ps[m], now) then rest + [m] else rest;
    }
  }

  /** A while after a peer's local deadline, or after now if that was never set. */
  function LaterBy(p: Peer, now: Timespec, ns: nat): int {
    ns + if Ns(p.nextLocal) == 0 then Ns(now) else Ns(p.nextLocal)
  }

  /** Asserting liveliness sends to exactly the peers that are due, in table order. Their deadlines move on by the
      assert timeout, from now if they had none; nothing else changes but the outgoing buffer, which holds nil. */
  lemma KeepalivesExactly(c: Config, n: Node, now: Timespec) returns (at: seq<nat>)
    requires Shaped(c, n) && Clock(now) && LocalClocks(n)
    ensures Increasing(at) && forall k: nat :: k in at <==> Due(n, now, k)
    ensures var (m, targets, _) := AssertLiveliness(c, n, now);
            && |targets| == |at|
            && (forall q :: 0 <= q < |at| ==> Due(n, now, at[q]) && targets[q] == n.slots[at[q]].address)
            && |m.slots| == |n.slots| && m == n.(slots := m.slots, outgoing := [Nil])
            && forall k: nat :: k < |n.slots| ==>
                 if Due(n, now, k) then
                   && m.slots[k] == n.slots[k].(nextLocal := m.slots[k].nextLocal) && Clock(m.slots[k].nextLocal)
                   && Ns(m.slots[k].nextLocal) == LaterBy(n.slots[k], now, 1_000_000 * c.assertMs)
                 else m.slots[k] == n.slots[k]
  {
    hide Cmp, Plus, Ns, EarliestLocal, KeepaliveTargets;
    at := KeepalivePlaces(n.slots[..n.numPeers], now);
    forall q | 0 <= q < |at|
      ensures Due(n, now, at[q])
    {
      assert at[q] in at;
    }
    forall k: nat | k < n.numPeers
      ensures MustSend(n.slots[k], now) <==> Due(n, now, k)
      ensures Clock(Keepalive(c, n.slots[k], now).nextLocal)
      ensures Due(n, now, k) ==>
                Ns(Keepalive(c, n.slots[k], now).nextLocal) == LaterBy(n.slots[k], now, 1_000_000 * c.assertMs)
    {
      KeepaliveDeadline(c, n.slots[k], now);
      ClockArithmetic(n.slots[k].nextLocal, now);
    }
  }

  /** So an address gets a keepalive exactly when some peer there is due, and only one if no two peers share it. */
  lemma KeepaliveReaches(c: Config, n: Node, now: Timespec)
    requires Shaped(c, n) && Clock(now) && LocalClocks(n)
    ensures var targets := AssertLiveliness(c, n, now).1;
            && (forall a :: a in targets <==> exists k: nat :: Due(n, now, k) && n.slots[k].address == a)
            && (AddressesDistinct(n.slots, n.numPeers) ==> Distinct(targets))
  {
    hide AssertLiveliness, Due;
    DueInTable(n, now);
    var at := KeepalivesExactly(c, n, now);
    var targets := AssertLiveliness(c, n, now).1;
    forall a
      ensures a in targets <==> exists k: nat :: Due(n, now, k) && n.slots[k].address == a
    {
      if k: nat :| Due(n, now, k) && n.slots[k].address == a {
        var q :| 0 <= q < |at| && at[q] == k;
        assert targets[q] == a;
      }
    }
  }

  lemma DueInTable(n: Node, now: Timespec)
    requires n.numPeers <= |n.slots|
    ensures forall k: nat :: Due(n, now, k) ==> k < n.numPeers
  {
  }

  // ---------- content ----------

  /** A post sends to exactly the peers that the provider names, in its order, and resets their local deadlines
      and no others; without peers nothing happens. */
  lemma PostExactly(c: Config, n: Node, i: nat, blob: Blob, now: Timespec)
    requires i < |n.providers| && Below(n.providers[i].peers, |n.slots|) && Clock(now)
    ensures var e := n.providers[i];
            var (m, targets) := Post(c, n, i, blob, now);
            && |targets| == |e.peers| && (forall q :: 0 <= q < |e.peers| ==> targets[q] == n.slots[e.peers[q]].address)
            && (forall a :: a in targets <==> exists k: nat :: k in e.peers && n.slots[k].address == a)
            && (e.peers == [] ==> m == n)
            && (e.peers != [] ==>
                  && |m.slots| == |n.slots|
                  && m == n.(slots := m.slots, outgoing := m.outgoing)
                  && m.outgoing == [Map(1), Uint(0xA5), Map(1), Uint(e.resource.hash), Bin(blob)])
            && forall k: nat :: k < |n.slots| ==>
                 if k in e.peers then
                   && m.slots[k] == n.slots[k].(nextLocal := m.slots[k].nextLocal) && Clock(m.slots[k].nextLocal)
                   && Ns(m.slots[k].nextLocal) == Ns(now) + 1_000_000 * c.assertMs
                 else m.slots[k] == n.slots[k]
  {
    hide Plus, Ns;
    ClockArithmetic(now, c.AssertTimeout());
    var e := n.providers[i];
    var targets := Post(c, n, i, blob, now).1;
    forall a
      ensures a in targets <==> exists k: nat :: k in e.peers && n.slots[k].address == a
    {
      if k: nat :| k in e.peers && n.slots[k].address == a {
        var q :| 0 <= q < |e.peers| && e.peers[q] == k;
        assert targets[q] == a;
      }
    }
  }

  // ---------- discovery ----------

  /** A discovery packet lists the hashes of exactly the trackers without peers, in order. */
  lemma {:induction false} UnlinkedExactly(es: seq<Endpoint>) returns (at: seq<nat>)
    ensures Increasing(at) && forall i: nat :: i in at <==> i < |es| && es[i].peers == []
    ensures var hs := UnlinkedHashes(es);
            |hs| == |at| && forall q :: 0 <= q < |at| ==> at[q] < |es| && hs[q] == es[at[q]].resource.hash
    decreases |es|
  {
    if es == [] {
      at := [];
    } else {
      hide Increasing;
      var m := |es| - 1;
      at := UnlinkedExactly(es[..m]);
      if es[m].peers == [] {
        IncreasingSnoc(at, m);
        at := at + [m];
      }
    }
  }

  // ---------- the messages of every event ----------

  /** A keepalive to every peer that is due. */
  ghost function Keepalives(n: Node, now: Timespec): set<Message>
    requires n.numPeers <= |n.slots|
  {
    set k: nat | k < n.numPeers && Due(n, now, k) :: Message(n.address, To(n.slots[k].address), [Nil])
  }

  /** Content to every peer that an endpoint names. */
  ghost function Contents(n: Node, e: Endpoint, blob: Blob): set<Message>
    requires Below(e.peers, |n.slots|)
  {
    set k | k in e.peers :: Message(n.address, To(n.slots[k].address), ContentPacket(e.resource.hash, blob))
  }

  lemma AssertsSend(c: Config, n: Node, now: Timespec)
    requires Shaped(c, n) && Clock(now) && LocalClocks(n)
    ensures var (m, targets, _) := AssertLiveliness(c, n, now);
            Unicasts(n.address, targets, m.outgoing) == Keepalives(n, now)
  {
    hide AssertLiveliness, Due;
    var at := KeepalivesExactly(c, n, now);
    KeepaliveReaches(c, n, now);
    DueInTable(n, now);
    var (m, targets, _) := AssertLiveliness(c, n, now);
    forall x
      ensures x in Unicasts(n.address, targets, m.outgoing) <==> x in Keepalives(n, now)
    {
      if x in Unicasts(n.address, targets, m.outgoing) {
        assert x.to.address in targets;
      }
    }
  }

  lemma PostsSend(c: Config, n: Node, i: nat, blob: Blob, now: Timespec)
    requires i < |n.providers| && Below(n.providers[i].peers, |n.slots|) && Clock(now)
    ensures var (m, targets) := Post(c, n, i, blob, now);
            Unicasts(n.address, targets, m.outgoing) == Contents(n, n.providers[i], blob)
  {
    hide Protocol.Post, Ns, Plus;
    PostExactly(c, n, i, blob, now);
    var e := n.providers[i];
    var (m, targets) := Post(c, n, i, blob, now);
    forall x
      ensures x in Unicasts(n.address, targets, m.outgoing) <==> x in Contents(n, e, blob)
    {
      if x in Unicasts(n.address, targets, m.outgoing) {
        assert x.to.address in targets;
      }
    }
  }

  /** What a node sends, event by event: keepalives to those due, content to those linked, discovery to everyone,
      and a reply to whoever sent a packet, which is what the outgoing buffer then holds, unless that is nothing
      or the packet failed. Nothing else is ever sent. */
  lemma StepSends(c: Config, unpack: Codec, n: Node, e: Event)
    requires Shaped(c, n) && InRange(n.providers, |n.slots|) && CanHappen(n, e)
    requires Clock(TimeOf(e, ZERO)) && LocalClocks(n)
    ensures e.Posts? ==> Below(n.providers[e.provider].peers, |n.slots|)
    ensures var (m, sent) := NodeStep(c, unpack, n, e);
            match e
            case Posts(_, p, blob, _) => sent == Contents(n, n.providers[p], blob)
            case Asserts(_, now) => sent == Keepalives(n, now)
            case Discovers(_) =>
              var packet := LinkPacket(n.name, [Datum(false, UnlinkedHashes(n.trackers))]);
              m == n.(outgoing := packet) && sent == {Message(n.address, Everyone, packet)}
            case Receives(_, x, now) =>
              sent == (if m.outgoing == [] || ProcessIncoming(c, unpack, n, x.source, x.packet, now).ret < 0 then {}
                       else {Message(n.address, To(x.source), m.outgoing)})
            case _ => sent == {}
  {
    hide ProcessPacket, Protocol.Post, Protocol.AssertLiveliness, Probe, LinkPacket, UnlinkedHashes, Due, Ns;
    match e {
      case Posts(_, p, blob, now) => PostsSend(c, n, p, blob, now);
      case Asserts(_, now) => AssertsSend(c, n, now);
      case Discovers(_) => WritersWriteLinkPackets(n.name, UnlinkedHashes(n.trackers), []);
      case Receives(_, _, _) =>
      case _ =>
    }
  }
}
