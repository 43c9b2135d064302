/** Packets as the event loop takes them from its sockets: when one ends the loop, and what a full table of
    peers makes of them. */
module Receiving {
  import opened Time
  import opened HashList
  import opened Sequences
  import opened Tokens
  import opened Tables
  import opened Links
  import opened Protocol
  import opened Accounting
  import opened Probing
  import opened RoundTrip
  import opened Exchange
  import opened ContentDelivery
  import opened Network

  /** A packet on the node's own socket or on that for broadcasts. */
  datatype Arrival = Arrival(source: Address, broadcast: bool, packet: Packet, now: Timespec)

  /** The node hears its own broadcasts and ignores them; a packet to itself is an error. */
  function Receive(c: Config, unpack: Codec, n: Node, a: Arrival): (o: IncomingOut)
    requires Shaped(c, n)
    ensures |o.node.slots| == |n.slots|
  {
    if a.source == n.address then IncomingOut(n, if a.broadcast then 0 else -1, None, [], false)
    else ProcessIncoming(c, unpack, n, a.source, a.packet, a.now)
  }

  /** A packet from somebody else makes processing fail, and so ends the loop, exactly when the table is
      full or what is in the packet does. The node's own broadcasts do nothing, and a packet to itself fails. */
  lemma ReceiveFails(c: Config, unpack: Codec, n: Node, a: Arrival)
    requires Accounted(c, n)
    ensures Shaped(c, n)
    ensures var o := Receive(c, unpack, n, a);
            if a.source == n.address then
              o.node == n && o.reply == None && o.delivered == [] && !o.overrun && (o.ret < 0 <==> !a.broadcast)
            else
              o.ret < 0 <==>
                n.numPeers == c.maxPeers
                || (var (m, slot) := Register(c, n, a.source, a.now);
                    slot.Some? && slot.value < |m.slots| && ProcessPacket(c, unpack, m, slot.value, a.packet).ret < 0)
  {
    hide Accounted, ProcessPacket, Register;
    RegisterKeeps(c, n, a.source, a.now);
    AccountedShape(c, n);
    AccountedShape(c, Register(c, n, a.source, a.now).0);
  }

  // ---------- the packets that nodes write ----------

  /** A keepalive ends the loop of a node whose table is full, and of no other. */
  lemma KeepaliveEndsLoop(c: Config, unpack: Codec, n: Node, a: Arrival)
    requires Accounted(c, n) && a.source != n.address && a.packet == KeepalivePacket()
    ensures Shaped(c, n)
    ensures Receive(c, unpack, n, a).ret < 0 <==> n.numPeers == c.maxPeers
  {
    hide Accounted, ProcessPacket, Register;
    ReceiveFails(c, unpack, n, a);
    RegisterKeeps(c, n, a.source, a.now);
    var (m, slot) := Register(c, n, a.source, a.now);
    if slot.Some? {
      AccountedShape(c, m);
      KeepaliveRoundTrip(c, unpack, m, slot.value);
    }
  }

  /** A list ends the loop of a node whose table is full; and of every node when zero is in it or its
      sender's name does not fit. */
  lemma LinkPacketEndsLoop(c: Config, unpack: Codec, n: Node, a: Arrival, name: string, d: Datum)
    requires Accounted(c, n) && a.source != n.address && IsLinkList(c, a.packet, name, d)
    ensures Shaped(c, n)
    ensures Receive(c, unpack, n, a).ret < 0 <==>
              n.numPeers == c.maxPeers || 0 in d.hashes || !FitsBuffer(name, c.nameSize)
  {
    hide Accounted, ProcessPacket, Register, LinkPacket, FitsBuffer, Distinct;
    ReceiveFails(c, unpack, n, a);
    RegisterKeeps(c, n, a.source, a.now);
    var (m, slot) := Register(c, n, a.source, a.now);
    if slot.Some? {
      AccountedShape(c, m);
      if 0 in d.hashes || !FitsBuffer(name, c.nameSize) {
        RejectedList(c, unpack, m, slot.value, name, d);
      } else {
        LinkPacketExact(c, unpack, m, slot.value, name, d);
      }
    }
  }

  /** Content ends the loop of a node whose table is full, or whose tracker for it cannot unpack it; and of
      every node when its hash is zero or its blob is empty. */
  lemma ContentEndsLoop(c: Config, unpack: Codec, n: Node, a: Arrival, hash: Hash, blob: Blob)
    requires Accounted(c, n) && a.source != n.address && a.packet == ContentPacket(hash, blob)
    ensures Shaped(c, n)
    ensures Receive(c, unpack, n, a).ret < 0 <==>
              || n.numPeers == c.maxPeers
              || hash == 0 || blob == []
              || exists i :: 0 <= i < |n.trackers| && n.trackers[i].resource.hash == hash
                             && unpack(n.trackers[i].resource, blob) == None
  {
    hide Accounted, ProcessPacket, Register, ContentPacket;
    ReceiveFails(c, unpack, n, a);
    RegisterKeeps(c, n, a.source, a.now);
    SameTrackers(c, n, a.source, a.now);
    var (m, slot) := Register(c, n, a.source, a.now);
    if slot.Some? {
      AccountedShape(c, m);
      if hash == 0 || blob == [] {
        RejectedContent(c, unpack, m, slot.value, hash, blob);
      } else {
        ContentRoundTrip(c, unpack, m, slot.value, hash, blob);
        BlobFails(c, unpack, n, m, slot.value, hash, blob);
      }
    }
  }

  lemma SameTrackers(c: Config, n: Node, origin: Address, now: Timespec)
    requires Shaped(c, n)
    ensures Register(c, n, origin, now).0.trackers == n.trackers
  {
  }

  lemma BlobFails(c: Config, unpack: Codec, n: Node, m: Node, k: nat, hash: Hash, blob: Blob)
    requires Accounted(c, n) && n.numPeers < c.maxPeers && m.trackers == n.trackers && k < |m.slots|
    ensures ProcessContentBlob(c, unpack, m, k, hash, blob).1 < 0 <==>
              exists i :: 0 <= i < |n.trackers| && n.trackers[i].resource.hash == hash
                          && unpack(n.trackers[i].resource, blob) == None
  {
    var i := FindHash(n.trackers, hash);
    if i < |n.trackers| {
      RoomInEndpoint(c, n, i);
      AccountedTrackers(c, n);
    }
  }

  lemma AccountedTrackers(c: Config, n: Node)
    requires Accounted(c, n)
    ensures UniqueHashes(n.trackers)
  {
  }

  // ---------- many packets ----------

  lemma ReceiveShaped(c: Config, unpack: Codec, n: Node, a: Arrival)
    requires Shaped(c, n)
    ensures Shaped(c, Receive(c, unpack, n, a).node)
  {
    hide ProcessPacket;
    var (m, slot) := Register(c, n, a.source, a.now);
    if slot.Some? {
      PacketStays(c, unpack, m, slot.value, a.packet);
    }
  }

  /** The reply that goes out after a packet, if there is one. */
  function Replies(n: Node, a: Arrival, o: IncomingOut): set<Message> {
    if o.reply.Some? then {Message(n.address, To(a.source), o.reply.value)} else {}
  }

  datatype Received = Received(node: Node, sent: set<Message>, well: bool)

  /** Packets one after the other, up to one that fails: the node then, what it sent, and whether none failed. */
  function ReceiveAll(c: Config, unpack: Codec, n: Node, arrivals: seq<Arrival>): (r: Received)
    requires Shaped(c, n)
    ensures Shaped(c, r.node)
    decreases |arrivals|
  {
    if arrivals == [] then Received(n, {}, true)
    else
      var o := Receive(c, unpack, n, arrivals[0]);
      ReceiveShaped(c, unpack, n, arrivals[0]);
      if o.ret < 0 then Received(o.node, {}, false)
      else
        var rest := ReceiveAll(c, unpack, o.node, arrivals[1..]);
        rest.(sent := Replies(n, arrivals[0], o) + rest.sent)
  }

  /** Packets one after the other, the loop being entered again whenever one has ended it. */
  function ReceiveOnAndOn(c: Config, unpack: Codec, n: Node, arrivals: seq<Arrival>): (m: Node)
    requires Shaped(c, n)
    ensures Shaped(c, m)
    decreases |arrivals|
  {
    if arrivals == [] then n
    else
      ReceiveShaped(c, unpack, n, arrivals[0]);
      ReceiveOnAndOn(c, unpack, Receive(c, unpack, n, arrivals[0]).node, arrivals[1..])
  }

  lemma {:induction false} FullTableRefuses(c: Config, unpack: Codec, n: Node, arrivals: seq<Arrival>)
    requires Shaped(c, n) && n.numPeers == c.maxPeers
    ensures ReceiveOnAndOn(c, unpack, n, arrivals) == n
    ensures ReceiveAll(c, unpack, n, arrivals)
         == Received(n, {}, forall i :: 0 <= i < |arrivals| ==> arrivals[i].source == n.address && arrivals[i].broadcast)
    decreases |arrivals|
  {
    if arrivals != [] {
      assert forall i :: 0 < i < |arrivals| ==> arrivals[i] == arrivals[1..][i - 1];
      FullTableRefuses(c, unpack, n, arrivals[1..]);
    }
  }

  /** Whatever arrives at a node whose table is full, a probe empties the table exactly when each peer is
      linked to nothing or past its deadline, which nothing renews; however lively the peers are. */
  lemma FullTableForgets(c: Config, unpack: Codec, n: Node, arrivals: seq<Arrival>, t: Timespec)
    requires Shaped(c, n) && n.numPeers == c.maxPeers
    ensures var m := Probe(c, ReceiveOnAndOn(c, unpack, n, arrivals), t).node;
            && m.numPeers <= |m.slots|
            && (forall p :: p in m.slots[..m.numPeers] ==> p.alive && p.numLinks != 0)
            && (m.numPeers == 0 <==>
                  forall k :: 0 <= k < n.numPeers ==> Cmp(n.slots[k].nextRemote, t) < 0 || n.slots[k].numLinks == 0)
  {
    hide Filter, Compact, Cmp, CountActive, DropDead, ReceiveOnAndOn;
    FullTableRefuses(c, unpack, n, arrivals);
    CompactionIs(c, n, t);
    var marked := MarkAlive(n.slots, n.numPeers, t);
    var m := Probe(c, n, t).node;
    var kept := m.slots[..m.numPeers];
    assert forall p :: p in kept ==> IsRetained(p);
    if m.numPeers == 0 {
      forall k | 0 <= k < n.numPeers
        ensures Cmp(n.slots[k].nextRemote, t) < 0 || n.slots[k].numLinks == 0
      {
        assert marked[..n.numPeers][k] !in kept;
      }
    } else {
      assert kept[0] in Filter(marked[..n.numPeers], IsRetained);
      var k :| 0 <= k < n.numPeers && kept[0] == marked[..n.numPeers][k];
    }
  }
}
