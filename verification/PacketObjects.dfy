/** Packet processing on node objects: loops over the groups of a packet, the data of a group and the
    hashes of an array, proved to do what the functions on values do. */
module PacketObjects {
  import opened Time
  import opened HashList
  import opened Sequences
  import opened Tokens
  import opened Tables
  import opened Protocol
  import opened EndpointGroups
  import opened NodeObjects
  import Crc32

  // ---------- digests and hashes ----------

  /** The digest of a list of hashes, from its bytes. */
  method Digest(hashes: seq<Hash>) returns (digest: Hash)
    ensures digest == ListDigest(hashes)
  {
    var bytes := ListBytes(hashes);
    var buffer := new bv8[|bytes|](i requires 0 <= i < |bytes| => bytes[i]);
    digest := Crc32.Crc32(buffer);
    assert buffer[..] == bytes;
  }

  /** The same, in the middle of processing a packet: the node stays as it is. */
  method DigestAside(node: UccnNode, hashes: seq<Hash>) returns (digest: Hash)
    requires node.Valid()
    ensures digest == ListDigest(hashes) && node.Valid() && node.Value() == old(node.Value())
  {
    hide ListDigest, Values;
    digest := Digest(hashes);
  }

  /** Reading the hashes of an array behind those read before. */
  method ReadArray(reader: Reader, count: nat, hashes0: seq<Hash>, capacity: nat)
    returns (hashes: seq<Hash>, r: Reader, status: Status)
    ensures HashesOut(hashes, r, status) == ReadHashes(reader, count, hashes0, capacity)
  {
    hashes, r, status := hashes0, reader, Good;
    for j := 0 to count
      invariant ReadHashes(reader, count, hashes0, capacity) == ReadHashes(r, count - j, hashes, capacity)
    {
      var hash, r' := ExpectU32(r).0, ExpectU32(r).1;
      r := r';
      if hash == 0 {
        return hashes, r, Rejected;
      }
      if |hashes| >= capacity {
        return hashes, r, Overrun;
      }
      hashes := hashes + [hash];
    }
  }

  // ---------- link groups ----------

  /** A provided array: unless its digest is the remembered one, the trackers are linked anew, with all
      the hashes read so far in the group. */
  method ApplyProvided(node: UccnNode, k: nat, r: Reader, s: Scratch, code: int)
    returns (t: Scratch, ret: int, status: Status)
    requires node.Valid() && k < node.slots.Length
    modifies node.slots, Members(node.trackers), Buffers(node.trackers)
    ensures node.Valid()
    ensures LinkOutcome(node.Value(), r, t, ret, status) == Protocol.ApplyProvided(node.c, old(node.Value()), k, r, s, code)
  {
    hide UnlinkAll, LinkHashes, ListDigest, AddLinks;
    hide UccnNode.Valid, UccnNode.Value, UccnNode.Trackers, UccnNode.Providers;
    ghost var n := node.Value();
    var digest := DigestAside(node, s.hashes);
    if node.slots[k].providedDigest == digest {
      return s, code, Good;
    }
    var unlinks := node.UnlinkTrackers(k);
    ghost var o := LinkHashes(UnlinkAll(n.trackers, k).0, k, s.hashes, node.c.maxPeers, node.c.maxResources,
                              s.tracked, unlinks);
    var matched;
    matched, ret, status := node.LinkTrackers(k, s.hashes, s.tracked, unlinks);
    MoreLinks(n.slots, k, -unlinks, o.links);
    if status != Good {
      return s, ret, status;
    }
    node.ReplacePeer(k, node.slots[k].(providedDigest := digest));
    return s.(tracked := matched), ret, Good;
  }

  /** A tracked array: the same for the providers, with as many of the hashes read in the group, from the
      first on, as this array had. */
  method ApplyTracked(node: UccnNode, k: nat, r: Reader, s: Scratch, code: int, size: nat)
    returns (t: Scratch, ret: int, status: Status)
    requires node.Valid() && k < node.slots.Length && size <= |s.hashes|
    modifies node.slots, Members(node.providers), Buffers(node.providers)
    ensures node.Valid()
    ensures LinkOutcome(node.Value(), r, t, ret, status)
         == Protocol.ApplyTracked(node.c, old(node.Value()), k, r, s, code, size)
  {
    hide UnlinkAll, LinkHashes, ListDigest, AddLinks;
    hide UccnNode.Valid, UccnNode.Value, UccnNode.Trackers, UccnNode.Providers;
    ghost var n := node.Value();
    var digest := DigestAside(node, s.hashes);
    if node.slots[k].trackedDigest == digest {
      return s, code, Good;
    }
    var unlinks := node.UnlinkProviders(k);
    ghost var o := LinkHashes(UnlinkAll(n.providers, k).0, k, s.hashes[..size], node.c.maxPeers, node.c.maxResources,
                              s.provided, unlinks);
    var matched;
    matched, ret, status := node.LinkProviders(k, s.hashes[..size], s.provided, unlinks);
    MoreLinks(n.slots, k, -unlinks, o.links);
    if status != Good {
      return s, ret, status;
    }
    node.ReplacePeer(k, node.slots[k].(trackedDigest := digest));
    return s.(provided := matched), ret, Good;
  }

  method ProcessArray(node: UccnNode, k: nat, reader: Reader, s: Scratch, code: int, provided: bool)
    returns (r: Reader, t: Scratch, ret: int, status: Status)
    requires node.Valid() && k < node.slots.Length
    modifies node.slots, Members(node.trackers), Buffers(node.trackers), Members(node.providers), Buffers(node.providers)
    ensures node.Valid()
    ensures LinkOutcome(node.Value(), r, t, ret, status)
         == Protocol.ProcessArray(node.c, old(node.Value()), k, reader, s, code, provided)
  {
    hide ReadHashes, ExpectArrayOrNil, Protocol.ApplyProvided, Protocol.ApplyTracked;
    hide UccnNode.Valid, UccnNode.Value, UccnNode.Trackers, UccnNode.Providers;
    ghost var n := node.Value();
    var (isArray, size, r1) := ExpectArrayOrNil(reader, node.c.maxResources);
    if !isArray {
      return r1, s, code, Good;
    }
    ReadHashesGrows(r1, size, s.hashes, node.c.maxResources);
    var hashes, r2, read := ReadArray(r1, size, s.hashes, node.c.maxResources);
    var s' := s.(hashes := hashes, arrays := s.arrays + 1);
    if read != Good {
      return r2, s', -1, read;
    }
    r := r2;
    if provided {
      t, ret, status := ApplyProvided(node, k, r, s', code);
    } else {
      t, ret, status := ApplyTracked(node, k, r, s', code, size);
    }
  }

  method ProcessDatum(node: UccnNode, k: nat, reader: Reader, s: Scratch, code: int)
    returns (r: Reader, t: Scratch, ret: int, status: Status)
    requires node.Valid() && k < node.slots.Length
    modifies node.slots, Members(node.trackers), Buffers(node.trackers), Members(node.providers), Buffers(node.providers)
    ensures node.Valid()
    ensures LinkOutcome(node.Value(), r, t, ret, status)
         == Protocol.ProcessDatum(node.c, old(node.Value()), k, reader, s, code)
  {
    hide ExpectU8, ExpectCstr, Protocol.ProcessArray;
    hide UccnNode.Valid, UccnNode.Value, UccnNode.Trackers, UccnNode.Providers;
    ghost var n := node.Value();
    var (data, r1) := ExpectU8(reader);
    if data == NODE_NAME {
      var (name, r2) := ExpectCstr(r1, node.c.nameSize);
      node.ReplacePeer(k, node.slots[k].(name := name));
      return r2, s, code, Good;
    } else if data == PROVIDED_ARRAY {
      r, t, ret, status := ProcessArray(node, k, r1, s, code, true);
    } else if data == TRACKED_ARRAY {
      r, t, ret, status := ProcessArray(node, k, r1, s, code, false);
    } else {
      return r1, s, -1, Rejected;
    }
  }

  /** The data of a link group, one after the other. */
  method ProcessLinkGroup(node: UccnNode, k: nat, reader: Reader)
    returns (r: Reader, t: Scratch, ret: int, status: Status)
    requires node.Valid() && k < node.slots.Length
    modifies node.slots, Members(node.trackers), Buffers(node.trackers), Members(node.providers), Buffers(node.providers)
    ensures node.Valid()
    ensures LinkOutcome(node.Value(), r, t, ret, status) == Protocol.ProcessLinkGroup(node.c, old(node.Value()), k, reader)
  {
    hide ExpectMapOrNil, ProcessData, Protocol.ProcessDatum;
    hide UccnNode.Valid, UccnNode.Value, UccnNode.Trackers, UccnNode.Providers;
    ghost var n := node.Value();
    var (isMap, size, r1) := ExpectMapOrNil(reader, MAX_NUM_LINK_DATA);
    r, t, ret, status := r1, EMPTY_SCRATCH, 0, Good;
    if isMap {
      ghost var all := ProcessData(node.c, n, k, r1, EMPTY_SCRATCH, 0, size);
      for i := 0 to size
        invariant node.Valid() && status == Good
        invariant all == ProcessData(node.c, node.Value(), k, r, t, ret, size - i)
      {
        DataNext(node.c, node.Value(), k, r, t, ret, size - i);
        r, t, ret, status := ProcessDatum(node, k, r, t, ret);
        if status != Good {
          return;
        }
      }
      DataNext(node.c, node.Value(), k, r, t, ret, 0);
    }
  }

  lemma DataNext(c: Config, n: Node, k: nat, r: Reader, s: Scratch, ret: int, count: nat)
    requires k < |n.slots|
    ensures ProcessData(c, n, k, r, s, ret, count)
         == if count == 0 then LinkOutcome(n, r, s, ret, Good)
            else
              var o := Protocol.ProcessDatum(c, n, k, r, s, ret);
              if o.status != Good then o
              else ProcessData(c, o.node, k, o.reader, o.scratch, o.ret, count - 1)
  {
    hide Protocol.ProcessDatum;
  }

  // ---------- replies ----------

  /** Writing an array of hashes from the last to the first. */
  method WriteArray(packet: Packet, code: bv32, hashes: seq<Hash>) returns (p: Packet)
    ensures p == packet + ArrayData(code, Reverse(hashes))
  {
    hide Reverse;
    p := packet + [Uint(code), Array(|hashes|)];
    ghost var head := p;
    var num := |hashes|;
    while num > 0
      invariant 0 <= num <= |hashes|
      invariant p == head + HashTokens(Reverse(hashes)[..|hashes| - num])
    {
      num := num - 1;
      assert Reverse(hashes)[..|hashes| - num] == Reverse(hashes)[..|hashes| - num - 1] + [hashes[num]];
      p := p + [Uint(hashes[num])];
    }
    assert Reverse(hashes)[..|hashes|] == Reverse(hashes);
  }

  /** The reply to a link group: the hashes that made a link. */
  method WriteReply(name: string, tracked: seq<Hash>, provided: seq<Hash>) returns (p: Packet)
    ensures p == ReplyPacket(name, tracked, provided)
  {
    hide ArrayData, Reverse;
    var groups := 0;
    if |tracked| > 0 {
      groups := groups + 1;
    }
    if |provided| > 0 {
      groups := groups + 1;
    }
    p := [];
    if groups > 0 {
      p := [Map(1), Uint(LINK_GROUP), Map(groups + 1), Uint(NODE_NAME), Str(name)];
      if |tracked| > 0 {
        p := WriteArray(p, TRACKED_ARRAY, tracked);
      }
      if |provided| > 0 {
        p := WriteArray(p, PROVIDED_ARRAY, provided);
      }
    }
  }

  // ---------- content ----------

  method ProcessContentBlob(node: UccnNode, unpack: Codec, k: nat, hash: Hash, blob: Blob)
    returns (ret: int, delivered: seq<Delivery>)
    requires node.Valid() && k < node.slots.Length
    modifies node.slots, Members(node.trackers), Buffers(node.trackers)
    ensures node.Valid()
    ensures var o := Protocol.ProcessContentBlob(node.c, unpack, old(node.Value()), k, hash, blob);
            node.Value() == o.0 && ret == o.1 && delivered == o.2
  {
    hide LinkTracker, FindHash, Values;
    ghost var n := node.Value();
    var i := FindEndpoint(node.trackers, node.numTrackers, node.c.maxPeers, hash);
    if i == node.numTrackers {
      return 0, [];
    }
    assert n.trackers[i] == node.trackers[i].Value();
    match unpack(node.trackers[i].resource, blob)
    case None =>
      return -1, [];
    case Some(content) =>
      delivered := [Delivery(node.trackers[i].callback, content)];
      ret := node.LinkOneTracker(i, k);
  }

  /** The entries of a content group, one after the other; one that makes a new link ends it. */
  method ProcessContentGroup(node: UccnNode, unpack: Codec, k: nat, reader: Reader)
    returns (r: Reader, ret: int, delivered: seq<Delivery>)
    requires node.Valid() && k < node.slots.Length
    modifies node.slots, Members(node.trackers), Buffers(node.trackers)
    ensures node.Valid()
    ensures ContentOut(node.Value(), r, ret, delivered)
         == Protocol.ProcessContentGroup(node.c, unpack, old(node.Value()), k, reader)
  {
    hide ExpectMapOrNil, ExpectU32, ExpectBin, ProcessContents, Protocol.ProcessContentBlob;
    hide UccnNode.Valid, UccnNode.Value, UccnNode.Trackers, UccnNode.Providers;
    ghost var n := node.Value();
    var (isMap, size, r1) := ExpectMapOrNil(reader, MAX_MAP_SIZE);
    r, ret, delivered := r1, 0, [];
    if isMap {
      ghost var all := ProcessContents(node.c, unpack, n, k, r1, size);
      for i := 0 to size
        invariant node.Valid() && ret == 0
        invariant all == After(delivered, ProcessContents(node.c, unpack, node.Value(), k, r, size - i))
      {
        ContentsNext(node.c, unpack, node.Value(), k, r, size - i, delivered);
        var (hash, r2) := ExpectU32(r);
        r := r2;
        if hash == 0 {
          ret := -1;
          return;
        }
        var (blob, r3) := ExpectBin(r);
        r := r3;
        if blob == [] {
          ret := -1;
          return;
        }
        var ds;
        ret, ds := ProcessContentBlob(node, unpack, k, hash, blob);
        delivered := delivered + ds;
        if ret != 0 {
          return;
        }
      }
      ContentsNext(node.c, unpack, node.Value(), k, r, 0, delivered);
    }
  }

  ghost function After(ds: seq<Delivery>, o: ContentOut): ContentOut {
    o.(delivered := ds + o.delivered)
  }

  lemma ContentsNext(c: Config, unpack: Codec, n: Node, k: nat, r: Reader, count: nat, ds: seq<Delivery>)
    requires k < |n.slots|
    ensures ds == [] ==>
              ProcessContents(c, unpack, n, k, r, count) == After(ds, ProcessContents(c, unpack, n, k, r, count))
    ensures After(ds, ProcessContents(c, unpack, n, k, r, count))
         == if count == 0 then ContentOut(n, r, 0, ds)
            else
              var (hash, r1) := ExpectU32(r);
              if hash == 0 then ContentOut(n, r1, -1, ds)
              else
                var (blob, r2) := ExpectBin(r1);
                if blob == [] then ContentOut(n, r2, -1, ds)
                else
                  var (n', ret, d) := Protocol.ProcessContentBlob(c, unpack, n, k, hash, blob);
                  if ret != 0 then ContentOut(n', r2, ret, ds + d)
                  else After(ds + d, ProcessContents(c, unpack, n', k, r2, count - 1))
  {
    hide ExpectU32, ExpectBin, Protocol.ProcessContentBlob;
    if count > 0 {
      var (hash, r1) := ExpectU32(r);
      var (blob, r2) := ExpectBin(r1);
      var (n', ret, d) := Protocol.ProcessContentBlob(c, unpack, n, k, hash, blob);
      var rest := ProcessContents(c, unpack, n', k, r2, count - 1).delivered;
      assert ds + (d + rest) == (ds + d) + rest;
    }
  }

  // ---------- packets ----------

  /** One group; what is to be sent back goes to the outgoing buffer. */
  method ProcessGroup(node: UccnNode, unpack: Codec, k: nat, reader: Reader)
    returns (r: Reader, ret: int, delivered: seq<Delivery>, overrun: bool)
    requires node.Valid() && k < node.slots.Length
    modifies node.slots, Members(node.trackers), Buffers(node.trackers), Members(node.providers), Buffers(node.providers)
    modifies node`outgoing
    ensures node.Valid()
    ensures PacketOut(node.Value(), r, ret, delivered, overrun)
         == Protocol.ProcessGroup(node.c, unpack, old(node.Value()), k, reader)
  {
    hide ExpectU8, ReplyPacket, Protocol.ProcessContentGroup, Protocol.ProcessLinkGroup;
    hide UccnNode.Valid, UccnNode.Value, UccnNode.Trackers, UccnNode.Providers;
    ghost var n := node.Value();
    var (code, r1) := ExpectU8(reader);
    if code == CONTENT_GROUP {
      r, ret, delivered := ProcessContentGroup(node, unpack, k, r1);
      node.SetOutgoing([]);
      overrun := false;
    } else if code == LINK_GROUP {
      var t, status;
      r, t, ret, status := ProcessLinkGroup(node, k, r1);
      var reply := [];
      if status == Good {
        reply := WriteReply(node.name, t.tracked, t.provided);
      }
      node.SetOutgoing(reply);
      delivered, overrun := [], status == Overrun;
    } else {
      return r1, -1, [], false;
    }
  }

  /** A packet; a nil one leaves the outgoing buffer as it was. */
  method ProcessPacket(node: UccnNode, unpack: Codec, k: nat, packet: Packet)
    returns (r: Reader, ret: int, delivered: seq<Delivery>, overrun: bool)
    requires node.Valid() && k < node.slots.Length
    modifies node.slots, Members(node.trackers), Buffers(node.trackers), Members(node.providers), Buffers(node.providers)
    modifies node`outgoing
    ensures node.Valid()
    ensures PacketOut(node.Value(), r, ret, delivered, overrun)
         == Protocol.ProcessPacket(node.c, unpack, old(node.Value()), k, packet)
  {
    hide ExpectMapOrNil, ProcessGroups, Protocol.ProcessGroup;
    hide UccnNode.Valid, UccnNode.Value, UccnNode.Trackers, UccnNode.Providers;
    ghost var n := node.Value();
    var (isMap, size, r1) := ExpectMapOrNil(Reader(packet, true), MAX_NUM_GROUPS);
    r, ret, delivered, overrun := r1, 0, [], false;
    if isMap {
      ghost var all := ProcessGroups(node.c, unpack, n, k, r1, size);
      var i := 0;
      GroupsNext(node.c, unpack, n, k, r1, size, []);
      while i < size && ret == 0 && !overrun
        invariant i <= size && node.Valid()
        invariant all == if ret != 0 || overrun then PacketOut(node.Value(), r, ret, delivered, overrun)
                         else AfterGroups(delivered, ProcessGroups(node.c, unpack, node.Value(), k, r, size - i))
        decreases size - i
      {
        GroupsNext(node.c, unpack, node.Value(), k, r, size - i, delivered);
        var ds;
        r, ret, ds, overrun := ProcessGroup(node, unpack, k, r);
        delivered := delivered + ds;
        i := i + 1;
      }
      GroupsNext(node.c, unpack, node.Value(), k, r, 0, delivered);
    }
    if !r.ok {
      ret := -1;
    }
  }

  ghost function AfterGroups(ds: seq<Delivery>, o: PacketOut): PacketOut {
    o.(delivered := ds + o.delivered)
  }

  lemma GroupsNext(c: Config, unpack: Codec, n: Node, k: nat, r: Reader, count: nat, ds: seq<Delivery>)
    requires k < |n.slots|
    ensures ds == [] ==>
              ProcessGroups(c, unpack, n, k, r, count) == AfterGroups(ds, ProcessGroups(c, unpack, n, k, r, count))
    ensures AfterGroups(ds, ProcessGroups(c, unpack, n, k, r, count))
         == if count == 0 then PacketOut(n, r, 0, ds, false)
            else
              var o := Protocol.ProcessGroup(c, unpack, n, k, r);
              if o.ret != 0 || o.overrun then o.(delivered := ds + o.delivered)
              else AfterGroups(ds + o.delivered, ProcessGroups(c, unpack, o.node, k, o.reader, count - 1))
  {
    hide Protocol.ProcessGroup;
    if count > 0 {
      var o := Protocol.ProcessGroup(c, unpack, n, k, r);
      var rest := ProcessGroups(c, unpack, o.node, k, o.reader, count - 1).delivered;
      assert ds + (o.delivered + rest) == (ds + o.delivered) + rest;
    }
  }

  /** A packet from some address: its sender is registered, the packet processed, and the outgoing buffer
      sent back unless it is empty or processing failed. */
  method ProcessIncoming(node: UccnNode, unpack: Codec, origin: Address, packet: Packet, now: Timespec)
    returns (ret: int, reply: Option<Packet>, delivered: seq<Delivery>, overrun: bool)
    requires node.Valid()
    modifies node.slots, Members(node.trackers), Buffers(node.trackers), Members(node.providers), Buffers(node.providers)
    modifies node`numPeers, node`outgoing
    ensures node.Valid()
    ensures IncomingOut(node.Value(), ret, reply, delivered, overrun)
         == Protocol.ProcessIncoming(node.c, unpack, old(node.Value()), origin, packet, now)
  {
    hide Register, Protocol.ProcessPacket;
    hide UccnNode.Valid, UccnNode.Value, UccnNode.Trackers, UccnNode.Providers;
    ghost var n := node.Value();
    var slot := node.RegisterPeer(origin, now);
    match slot
    case None =>
      return -1, None, [], false;
    case Some(k) =>
      assert k < node.slots.Length by { RegisteredSlot(node.c, n, origin, now); }
      var r;
      r, ret, delivered, overrun := ProcessPacket(node, unpack, k, packet);
      if ret < 0 {
        return ret, None, delivered, overrun;
      }
      ret := 0;
      reply := if node.outgoing != [] then Some(node.outgoing) else None;
  }

  lemma RegisteredSlot(c: Config, n: Node, origin: Address, now: Timespec)
    requires Shaped(c, n)
    ensures var slot := Register(c, n, origin, now).1; slot.Some? ==> slot.value < |n.slots|
  {
  }
}
