/** Posted content reaches exactly one tracker callback, once, and links its tracker to the sender. */
module ContentDelivery {
  import opened Time
  import opened HashList
  import opened Sequences
  import opened Tokens
  import opened Tables
  import opened Links
  import opened Protocol
  import opened Accounting
  import opened RoundTrip
  import opened Handshake

  lemma FindUnique(es: seq<Endpoint>, j: nat)
    requires j < |es| && UniqueHashes(es)
    ensures FindHash(es, es[j].resource.hash) == j
  {
  }

  lemma BlobDelivered(c: Config, unpack: Codec, n: Node, k: nat, j: nat, blob: Blob, content: Content)
    requires Accounted(c, n) && k < n.numPeers && j < |n.trackers|
    requires unpack(n.trackers[j].resource, blob) == Some(content)
    ensures Shaped(c, n)
    ensures var (m, ret, delivered) := ProcessContentBlob(c, unpack, n, k, n.trackers[j].resource.hash, blob);
            && delivered == [Delivery(n.trackers[j].callback, content)]
            && (ret >= 0 <==> |n.trackers[j].peers| < c.maxPeers)
            && |m.trackers| == |n.trackers|
            && k in m.trackers[j].peers
            && (forall i :: 0 <= i < |n.trackers| && i != j ==> m.trackers[i] == n.trackers[i])
            && m.providers == n.providers
  {
    hide Accounted, OnlySlot, Distinct, Below;
    AccountedShape(c, n);
    AccountedAddresses(c, n);
    FindUnique(n.trackers, j);
    LinkTrackerKeeps(c, n, j, k);
  }

  lemma FoundMeansHas(es: seq<Endpoint>, hash: Hash)
    ensures FindHash(es, hash) < |es| ==> HasHash(es, hash)
  {
    var i := FindHash(es, hash);
    if i < |es| {
      assert es[i].resource.hash == hash;
    }
  }

  lemma NoTrackerNoDelivery(c: Config, unpack: Codec, n: Node, k: nat, hash: Hash, blob: Blob)
    requires k < |n.slots| && !HasHash(n.trackers, hash)
    ensures ProcessContentBlob(c, unpack, n, k, hash, blob) == (n, 0, [])
  {
    FoundMeansHas(n.trackers, hash);
  }

  /** Resources of one hash pack and unpack the same content, and one undoes the other. */
  ghost predicate Inverse(pack: Packer, unpack: Codec) {
    forall p: Resource, q: Resource, content: Content :: p.hash == q.hash ==> unpack(q, pack(p, content)) == Some(content)
  }

  /** A post by s on its provider i, received by r, whose tracker j has the same hash: with unpacking that
      undoes packing, exactly that tracker's callback runs, once, on what was posted, and the tracker is
      linked to s. That holds if and only if r's table of peers is not full; otherwise nothing runs. */
  lemma PostIsDelivered(c: Config, pack: Packer, unpack: Codec, s: Node, i: nat, content: Content, posted: Timespec,
                        r: Node, j: nat, received: Timespec)
    requires i < |s.providers| && Below(s.providers[i].peers, |s.slots|) && s.providers[i].peers != []
    requires Accounted(c, r) && j < |r.trackers|
    requires r.trackers[j].resource.hash == s.providers[i].resource.hash != 0
    requires Inverse(pack, unpack) && pack(s.providers[i].resource, content) != []
    ensures Shaped(c, r)
    ensures var blob := pack(s.providers[i].resource, content);
            var o := ProcessIncoming(c, unpack, r, s.address, Post(c, s, i, blob, posted).0.outgoing, received);
            var k := SlotOf(r, s.address);
            if r.numPeers < c.maxPeers then
              && o.delivered == [Delivery(r.trackers[j].callback, content)]
              && o.ret == 0 && o.reply == None
              && |o.node.trackers| == |r.trackers|
              && k < o.node.numPeers <= |o.node.slots| && o.node.slots[k].address == s.address
              && k in o.node.trackers[j].peers
              && (forall q :: 0 <= q < |r.trackers| && q != j ==> o.node.trackers[q] == r.trackers[q])
              && o.node.providers == r.providers
            else o.delivered == [] && o.node == r
  {
    hide Accounted, OnlySlot, ProcessContentBlob, Register, ProcessPacket, ContentPacket, Distinct, Below;
    AccountedShape(c, r);
    var blob := pack(s.providers[i].resource, content);
    assert unpack(r.trackers[j].resource, blob) == Some(content);
    var packet := ContentPacket(r.trackers[j].resource.hash, blob);
    if r.numPeers < c.maxPeers {
      RegisterSlot(c, r, s.address, received);
      RegisterKeeps(c, r, s.address, received);
      var (m, slot) := Register(c, r, s.address, received);
      var k := slot.value;
      AccountedShape(c, m);
      RoomInEndpoint(c, r, j);
      BlobDelivered(c, unpack, m, k, j, blob, content);
      ContentRoundTrip(c, unpack, m, k, m.trackers[j].resource.hash, blob);
      PacketKeeps(c, unpack, m, k, packet);
      SlotKept(m, ProcessPacket(c, unpack, m, k, packet).node, k);
    } else {
      RegisterKeeps(c, r, s.address, received);
    }
  }

  lemma RoomInEndpoint(c: Config, n: Node, j: nat)
    requires Accounted(c, n) && j < |n.trackers|
    ensures |n.trackers[j].peers| <= n.numPeers
  {
    Pigeonhole(n.trackers[j].peers, n.numPeers);
  }

  lemma SlotKept(n: Node, m: Node, k: nat)
    requires k < |n.slots| && OnlySlot(n, m, k)
    ensures m.numPeers == n.numPeers && |m.slots| == |n.slots| && m.slots[k].address == n.slots[k].address
  {
  }
}
