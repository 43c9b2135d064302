/** Any number of nodes on a network that loses, duplicates, delays and reorders packets: the arrays that
    link group processing keeps on its stack are never shared by two lists and never overrun. */
module Network {
  import opened Time
  import opened HashList
  import opened Sequences
  import opened Tokens
  import opened Tables
  import opened Links
  import opened Protocol
  import opened Accounting
  import opened RoundTrip
  import opened Handshake

  // ---------- what the nodes send ----------

  ghost predicate IsLinkList(c: Config, p: Packet, name: string, d: Datum) {
    p == LinkPacket(name, [d]) && Distinct(d.hashes) && |d.hashes| <= c.maxResources
  }

  /** A keepalive, a content packet with one entry, or a link packet with one list of at most as many
      hashes as there may be resources, none twice. */
  ghost predicate WellFormed(c: Config, p: Packet) {
    || p == KeepalivePacket()
    || (exists hash, blob :: p == ContentPacket(hash, blob))
    || (exists name, d :: IsLinkList(c, p, name, d))
  }

  // ---------- one list fits ----------

  lemma {:induction false} MatchedFits(es: seq<Endpoint>, k: nat, hs: seq<Hash>, max: nat, capacity: nat,
                                       matched: seq<Hash>, ret: int)
    requires |matched| + |hs| <= capacity
    requires Distinct(matched + hs)
    ensures var o := LinkHashes(es, k, hs, max, capacity, matched, ret);
            && o.status != Overrun
            && |o.matched| <= |matched| + |hs|
            && Distinct(o.matched)
    decreases |hs|
  {
    hide LinkMatching;
    if hs == [] {
      assert matched + hs == matched;
    } else {
      var m := LinkMatching(es, k, hs[0], max);
      assert matched + hs == (matched + [hs[0]]) + hs[1..];
      if m.failed {
        DistinctPrefix(matched, hs);
      } else {
        DistinctSkip(matched, hs);
        MatchedFits(m.es, k, hs[1..], max, capacity, if m.links > 0 then matched + [hs[0]] else matched, m.links);
      }
    }
  }

  lemma DistinctPrefix(s: seq<Hash>, t: seq<Hash>)
    requires Distinct(s + t)
    ensures Distinct(s)
  {
    assert forall i :: 0 <= i < |s| ==> (s + t)[i] == s[i];
  }

  lemma DistinctSkip(s: seq<Hash>, t: seq<Hash>)
    requires t != [] && Distinct(s + t)
    ensures Distinct(s + t[1..])
  {
    forall i, j | 0 <= i < j < |s + t[1..]|
      ensures (s + t[1..])[i] != (s + t[1..])[j]
    {
      var i' := if i < |s| then i else i + 1;
      var j' := if j < |s| then j else j + 1;
      assert (s + t)[i'] != (s + t)[j'];
    }
  }

  /** The scratch arrays of a group that read at most one list. */
  ghost predicate OneList(c: Config, o: LinkOutcome) {
    && o.status != Overrun && o.scratch.arrays <= 1 && |o.scratch.hashes| <= c.maxResources
    && (o.status == Good ==>
          && (o.scratch.tracked == [] || o.scratch.provided == [])
          && Distinct(o.scratch.tracked) && Distinct(o.scratch.provided)
          && |o.scratch.tracked| <= c.maxResources && |o.scratch.provided| <= c.maxResources)
  }

  lemma ApplyFits(c: Config, n: Node, k: nat, d: Datum)
    requires k < |n.slots| && Distinct(d.hashes) && |d.hashes| <= c.maxResources
    ensures OneList(c, ApplyDatum(c, n, k, d, Reader([], true), EMPTY_SCRATCH, 0))
  {
    hide LinkHashes, UnlinkAll, ListDigest;
    assert [] + d.hashes == d.hashes && d.hashes[..|d.hashes|] == d.hashes;
    var (fs, u) := UnlinkAll(if d.provided then n.trackers else n.providers, k);
    MatchedFits(fs, k, d.hashes, c.maxPeers, c.maxResources, [], u);
  }

  lemma {:induction false} ZeroRejected(hs: seq<Hash>, rest: Packet, acc: seq<Hash>, capacity: nat)
    requires 0 in hs && |acc| + |hs| <= capacity
    ensures var o := ReadHashes(Reader(HashTokens(hs) + rest, true), |hs|, acc, capacity);
            o.status == Rejected && |o.hashes| <= capacity
    decreases |hs|
  {
    var p := HashTokens(hs) + rest;
    assert p[0] == Uint(hs[0]) && p[1..] == HashTokens(hs[1..]) + rest;
    if hs[0] != 0 {
      ZeroRejected(hs[1..], rest, acc + [hs[0]], capacity);
    }
  }

  lemma ZeroDatum(c: Config, n: Node, k: nat, d: Datum)
    requires k < |n.slots| && |d.hashes| <= c.maxResources && 0 in d.hashes
    ensures var o := ProcessDatum(c, n, k, Reader(DatumTokens(d), true), EMPTY_SCRATCH, 0);
            o.status == Rejected && OneList(c, o) && o.node == n && o.ret == -1
  {
    hide ApplyProvided, ApplyTracked, ReadHashes, HashTokens;
    var p := DatumTokens(d);
    assert p[0] == Uint(if d.provided then PROVIDED_ARRAY else TRACKED_ARRAY);
    assert p[1..][0] == Array(|d.hashes|) && p[1..][1..] == HashTokens(d.hashes) + [];
    ZeroRejected(d.hashes, [], [], c.maxResources);
  }

  lemma FailedDatum(c: Config, n: Node, k: nat, t: Packet)
    requires k < |n.slots|
    ensures var o := ProcessDatum(c, n, k, Reader(t, false), EMPTY_SCRATCH, 0);
            o.status == Rejected && OneList(c, o) && o.node == n && o.ret == -1
  {
  }

  /** A name that does not fit puts the reader in its error state. */
  lemma BadNameFirst(c: Config, n: Node, k: nat, name: string, t: Packet)
    requires k < |n.slots| && !FitsBuffer(name, c.nameSize)
    ensures var p := [Uint(NODE_NAME), Str(name)] + t;
            ProcessData(c, n, k, Reader(p, true), EMPTY_SCRATCH, 0, 2)
              == ProcessDatum(c, SetPeer(n, k, n.slots[k].(name := "")), k, Reader([Str(name)] + t, false), EMPTY_SCRATCH, 0)
  {
    hide ProcessArray;
    var p := [Uint(NODE_NAME), Str(name)] + t;
    assert p[0] == Uint(NODE_NAME) && p[1..] == [Str(name)] + t && p[1..][0] == Str(name);
  }

  /** Whatever its name and whatever its hashes, a link packet with one list without repetitions
      fills the scratch arrays with that list only, and within bounds. */
  lemma OneListFits(c: Config, n: Node, k: nat, name: string, d: Datum)
    requires k < |n.slots| && Distinct(d.hashes) && |d.hashes| <= c.maxResources
    ensures OneList(c, ProcessLinkGroup(c, n, k, Reader([Map(2), Uint(NODE_NAME), Str(name)] + DatumTokens(d), true)))
  {
    hide ProcessDatum, ApplyDatum, DatumTokens, OneList, ProcessData;
    var t := DatumTokens(d);
    var p := [Map(2), Uint(NODE_NAME), Str(name)] + t;
    assert p[1..] == [Uint(NODE_NAME), Str(name)] + t;
    if FitsBuffer(name, c.nameSize) {
      var m := SetPeer(n, k, n.slots[k].(name := name));
      NameFirst(c, n, k, name, t, 1);
      OneMore(c, m, k, Reader(t, true));
      if 0 in d.hashes {
        ZeroDatum(c, m, k, d);
      } else {
        assert t + [] == t;
        DatumRoundTrip(c, m, k, d, [], EMPTY_SCRATCH, 0);
        ApplyFits(c, m, k, d);
      }
    } else {
      BadNameFirst(c, n, k, name, t);
      FailedDatum(c, SetPeer(n, k, n.slots[k].(name := "")), k, [Str(name)] + t);
    }
  }

  /** The name a peer gets: none when it does not fit. */
  function GivenName(c: Config, name: string): string {
    if FitsBuffer(name, c.nameSize) then name else ""
  }

  lemma RejectedGroup(c: Config, n: Node, k: nat, name: string, d: Datum)
    requires k < |n.slots| && |d.hashes| <= c.maxResources
    requires 0 in d.hashes || !FitsBuffer(name, c.nameSize)
    ensures var o := ProcessLinkGroup(c, n, k, Reader([Map(2), Uint(NODE_NAME), Str(name)] + DatumTokens(d), true));
            o.status == Rejected && o.ret == -1 && o.node == SetPeer(n, k, n.slots[k].(name := GivenName(c, name)))
  {
    hide ProcessDatum, DatumTokens, OneList, ProcessData;
    var t := DatumTokens(d);
    var p := [Map(2), Uint(NODE_NAME), Str(name)] + t;
    assert p[1..] == [Uint(NODE_NAME), Str(name)] + t;
    var m := SetPeer(n, k, n.slots[k].(name := GivenName(c, name)));
    if FitsBuffer(name, c.nameSize) {
      NameFirst(c, n, k, name, t, 1);
      OneMore(c, m, k, Reader(t, true));
      ZeroDatum(c, m, k, d);
    } else {
      BadNameFirst(c, n, k, name, t);
      FailedDatum(c, m, k, [Str(name)] + t);
    }
  }

  /** A written list with a zero in it, or with a name that does not fit, is rejected: processing fails, and
      nothing but the name of its sender and the outgoing buffer changes. */
  lemma RejectedList(c: Config, unpack: Codec, n: Node, k: nat, name: string, d: Datum)
    requires k < |n.slots| && |d.hashes| <= c.maxResources
    requires 0 in d.hashes || !FitsBuffer(name, c.nameSize)
    ensures var o := ProcessPacket(c, unpack, n, k, LinkPacket(name, [d]));
            && o.ret == -1 && o.delivered == [] && !o.overrun
            && o.node == SetPeer(n, k, n.slots[k].(name := GivenName(c, name))).(outgoing := [])
  {
    hide ProcessLinkGroup, DatumTokens, ProcessContentGroup;
    OneDatum(d);
    var q := [Map(2), Uint(NODE_NAME), Str(name)] + DatumTokens(d);
    var p := LinkPacket(name, [d]);
    assert p == [Map(1), Uint(LINK_GROUP)] + q;
    assert p[0] == Map(1) && p[1..][0] == Uint(LINK_GROUP) && p[1..][1..] == q;
    RejectedGroup(c, n, k, name, d);
  }

  /** Content for hash zero, or an empty blob, is rejected. */
  lemma RejectedContent(c: Config, unpack: Codec, n: Node, k: nat, hash: Hash, blob: Blob)
    requires k < |n.slots| && (hash == 0 || blob == [])
    ensures var o := ProcessPacket(c, unpack, n, k, ContentPacket(hash, blob));
            o.ret == -1 && o.delivered == [] && !o.overrun && o.node == n.(outgoing := [])
  {
    hide ProcessContentBlob;
    var p := ContentPacket(hash, blob);
    assert p[1..][0] == Uint(CONTENT_GROUP) && p[1..][1..][0] == Map(1);
    assert p[1..][1..][1..][0] == Uint(hash) && p[1..][1..][1..][1..][0] == Bin(blob);
    RejectedEntry(c, unpack, n, k, hash, blob);
  }

  lemma RejectedEntry(c: Config, unpack: Codec, n: Node, k: nat, hash: Hash, blob: Blob)
    requires k < |n.slots| && (hash == 0 || blob == [])
    ensures var o := ProcessContents(c, unpack, n, k, Reader([Uint(hash), Bin(blob)], true), 1);
            o.ret == -1 && o.node == n && o.delivered == []
  {
    hide ProcessContentBlob;
    var p := [Uint(hash), Bin(blob)];
    assert p[1..][0] == Bin(blob);
  }

  lemma OneMore(c: Config, n: Node, k: nat, r: Reader)
    requires k < |n.slots|
    ensures ProcessData(c, n, k, r, EMPTY_SCRATCH, 0, 1) == ProcessDatum(c, n, k, r, EMPTY_SCRATCH, 0)
  {
    hide ProcessDatum;
  }

  // ---------- what processing leaves alone, in any state of the tables ----------

  ghost predicate InRange(es: seq<Endpoint>, max: nat) {
    forall i :: 0 <= i < |es| ==> Below(es[i].peers, max)
  }

  /** The endpoints are for the same resources, and name slots of the array if they did before. */
  ghost predicate SameEndpoints(es: seq<Endpoint>, fs: seq<Endpoint>, max: nat) {
    SameButPeers(es, fs) && (InRange(es, max) ==> InRange(fs, max))
  }

  /** Processing a packet changes no address and no deadline. */
  ghost predicate Stays(n: Node, m: Node) {
    && m.name == n.name && m.address == n.address && m.numPeers == n.numPeers && |m.slots| == |n.slots|
    && SameEndpoints(n.trackers, m.trackers, |n.slots|)
    && SameEndpoints(n.providers, m.providers, |n.slots|)
    && forall j :: 0 <= j < |n.slots| ==> SamePeerTimes(n.slots[j], m.slots[j])
  }

  lemma LinkEndpointStays(e: Endpoint, k: nat, max: nat, size: nat)
    requires k < size
    ensures var f := LinkEndpoint(e, k, max).0;
            f.resource == e.resource && f.callback == e.callback && (Below(e.peers, size) ==> Below(f.peers, size))
  {
  }

  lemma {:induction false} LinkMatchingStays(es: seq<Endpoint>, k: nat, h: Hash, max: nat, size: nat)
    requires k < size
    ensures SameEndpoints(es, LinkMatching(es, k, h, max).es, size)
    decreases |es|
  {
    hide Below, LinkEndpoint;
    if es != [] {
      LinkMatchingStays(es[1..], k, h, max, size);
      LinkEndpointStays(es[0], k, max, size);
      var o := LinkMatching(es, k, h, max);
      assert o.es == es || o.es[1..] == LinkMatching(es[1..], k, h, max).es;
      assert InRange(es, size) ==> InRange(es[1..], size);
    }
  }

  lemma {:induction false} RemoveBelow(s: seq<nat>, k: nat, n: nat)
    ensures Below(s, n) ==> Below(Remove(s, k), n)
    decreases |s|
  {
    if s != [] && s[0] != k {
      RemoveBelow(s[1..], k, n);
    }
  }

  lemma {:induction false} UnlinkAllStays(es: seq<Endpoint>, k: nat, size: nat)
    ensures SameEndpoints(es, UnlinkAll(es, k).0, size)
    decreases |es|
  {
    hide Remove;
    if es != [] {
      RemoveBelow(es[0].peers, k, size);
      UnlinkAllStays(es[1..], k, size);
      assert UnlinkAll(es, k).0[1..] == UnlinkAll(es[1..], k).0;
      assert InRange(es, size) ==> InRange(es[1..], size);
    }
  }

  lemma {:induction false} LinkHashesStays(es: seq<Endpoint>, k: nat, hs: seq<Hash>, max: nat, capacity: nat,
                                           matched: seq<Hash>, ret: int, size: nat)
    requires k < size
    ensures SameEndpoints(es, LinkHashes(es, k, hs, max, capacity, matched, ret).es, size)
    decreases |hs|
  {
    hide LinkMatching, InRange;
    if hs != [] {
      LinkMatchingStays(es, k, hs[0], max, size);
      var m := LinkMatching(es, k, hs[0], max);
      LinkHashesStays(m.es, k, hs[1..], max, capacity, if m.links > 0 then matched + [hs[0]] else matched, m.links, size);
    }
  }

  lemma RelinkStays(es: seq<Endpoint>, k: nat, hs: seq<Hash>, max: nat, capacity: nat, matched: seq<Hash>, size: nat)
    requires k < size
    ensures var (fs, u) := UnlinkAll(es, k);
            SameEndpoints(es, LinkHashes(fs, k, hs, max, capacity, matched, u).es, size)
  {
    hide LinkHashes, UnlinkAll, InRange;
    var (fs, u) := UnlinkAll(es, k);
    UnlinkAllStays(es, k, size);
    LinkHashesStays(fs, k, hs, max, capacity, matched, u, size);
  }

  lemma StaysRefl(n: Node)
    ensures Stays(n, n)
  {
  }

  lemma StaysTrans(a: Node, b: Node, d: Node)
    requires Stays(a, b) && Stays(b, d)
    ensures Stays(a, d)
  {
    hide InRange;
  }

  lemma ApplyStays(c: Config, n: Node, k: nat, r: Reader, s: Scratch, ret: int, size: nat)
    requires k < |n.slots| && size <= |s.hashes|
    ensures Stays(n, ApplyProvided(c, n, k, r, s, ret).node)
    ensures Stays(n, ApplyTracked(c, n, k, r, s, ret, size).node)
  {
    hide LinkHashes, UnlinkAll, ListDigest, SameEndpoints;
    StaysRefl(n);
    RelinkStays(n.trackers, k, s.hashes, c.maxPeers, c.maxResources, s.tracked, |n.slots|);
    RelinkStays(n.providers, k, s.hashes[..size], c.maxPeers, c.maxResources, s.provided, |n.slots|);
    SameEndpointsRefl(n);
  }

  lemma SameEndpointsRefl(n: Node)
    ensures SameEndpoints(n.trackers, n.trackers, |n.slots|) && SameEndpoints(n.providers, n.providers, |n.slots|)
  {
  }

  lemma DatumStays(c: Config, n: Node, k: nat, r: Reader, s: Scratch, ret: int)
    requires k < |n.slots|
    ensures Stays(n, ProcessDatum(c, n, k, r, s, ret).node)
  {
    hide ApplyProvided, ApplyTracked, ReadHashes, SameEndpoints;
    StaysRefl(n);
    SameEndpointsRefl(n);
    var (code, r1) := ExpectU8(r);
    var (isArray, size, r2) := ExpectArrayOrNil(r1, c.maxResources);
    if isArray {
      var h := ReadHashes(r2, size, s.hashes, c.maxResources);
      ReadHashesGrows(r2, size, s.hashes, c.maxResources);
      if h.status == Good {
        ApplyStays(c, n, k, h.reader, s.(hashes := h.hashes, arrays := s.arrays + 1), ret, size);
      }
    }
  }

  lemma {:induction false} DataStay(c: Config, n: Node, k: nat, r: Reader, s: Scratch, ret: int, count: nat)
    requires k < |n.slots|
    ensures Stays(n, ProcessData(c, n, k, r, s, ret, count).node)
    decreases count
  {
    hide ProcessDatum, Stays;
    StaysRefl(n);
    if count > 0 {
      DatumStays(c, n, k, r, s, ret);
      var o := ProcessDatum(c, n, k, r, s, ret);
      if o.status == Good {
        DataStay(c, o.node, k, o.reader, o.scratch, o.ret, count - 1);
        StaysTrans(n, o.node, ProcessData(c, o.node, k, o.reader, o.scratch, o.ret, count - 1).node);
      }
    }
  }

  lemma BlobStays(c: Config, unpack: Codec, n: Node, k: nat, hash: Hash, blob: Blob)
    requires k < |n.slots|
    ensures Stays(n, ProcessContentBlob(c, unpack, n, k, hash, blob).0)
  {
    StaysRefl(n);
    SameEndpointsRefl(n);
  }

  lemma {:induction false} ContentsStay(c: Config, unpack: Codec, n: Node, k: nat, r: Reader, count: nat)
    requires k < |n.slots|
    ensures Stays(n, ProcessContents(c, unpack, n, k, r, count).node)
    decreases count
  {
    hide ProcessContentBlob, Stays;
    StaysRefl(n);
    if count > 0 {
      var (hash, r1) := ExpectU32(r);
      var (blob, r2) := ExpectBin(r1);
      BlobStays(c, unpack, n, k, hash, blob);
      BlobSlots(c, unpack, n, k, hash, blob);
      var m := ProcessContentBlob(c, unpack, n, k, hash, blob).0;
      ContentsStay(c, unpack, m, k, r2, count - 1);
      StaysTrans(n, m, ProcessContents(c, unpack, m, k, r2, count - 1).node);
    }
  }

  lemma BlobSlots(c: Config, unpack: Codec, n: Node, k: nat, hash: Hash, blob: Blob)
    requires k < |n.slots|
    ensures |ProcessContentBlob(c, unpack, n, k, hash, blob).0.slots| == |n.slots|
  {
  }

  lemma GroupStays(c: Config, unpack: Codec, n: Node, k: nat, r: Reader)
    requires k < |n.slots|
    ensures Stays(n, ProcessGroup(c, unpack, n, k, r).node)
  {
    hide ProcessContents, ProcessData, LinkReply, SameEndpoints;
    StaysRefl(n);
    SameEndpointsRefl(n);
    var (code, r1) := ExpectU8(r);
    ContentsStay(c, unpack, n, k, ExpectMapOrNil(r1, MAX_MAP_SIZE).2, ExpectMapOrNil(r1, MAX_MAP_SIZE).1);
    DataStay(c, n, k, ExpectMapOrNil(r1, MAX_NUM_LINK_DATA).2, EMPTY_SCRATCH, 0, ExpectMapOrNil(r1, MAX_NUM_LINK_DATA).1);
  }

  lemma {:induction false} GroupsStay(c: Config, unpack: Codec, n: Node, k: nat, r: Reader, count: nat)
    requires k < |n.slots|
    ensures Stays(n, ProcessGroups(c, unpack, n, k, r, count).node)
    decreases count
  {
    hide ProcessGroup, Stays;
    StaysRefl(n);
    if count > 0 {
      GroupStays(c, unpack, n, k, r);
      var o := ProcessGroup(c, unpack, n, k, r);
      GroupsStay(c, unpack, o.node, k, o.reader, count - 1);
      StaysTrans(n, o.node, ProcessGroups(c, unpack, o.node, k, o.reader, count - 1).node);
    }
  }

  lemma PacketStays(c: Config, unpack: Codec, n: Node, k: nat, p: Packet)
    requires k < |n.slots|
    ensures Stays(n, ProcessPacket(c, unpack, n, k, p).node)
  {
    hide ProcessGroups, Stays;
    StaysRefl(n);
    var (isMap, size, r) := ExpectMapOrNil(Reader(p, true), MAX_NUM_GROUPS);
    GroupsStay(c, unpack, n, k, r, size);
  }

  // ---------- what processing leaves in the outgoing buffer ----------

  lemma ReplyWellFormed(c: Config, name: string, o: LinkOutcome)
    requires OneList(c, o)
    ensures LinkReply(name, o) == [] || WellFormed(c, LinkReply(name, o))
  {
    if o.status == Good {
      var t, p := o.scratch.tracked, o.scratch.provided;
      WritersWriteLinkPackets(name, t, p);
      hide LinkPacket, Reverse, Distinct;
      ReverseOk(t);
      ReverseOk(p);
      if t != [] {
        assert ReplyData(t, p) == [Datum(false, Reverse(t))];
        assert IsLinkList(c, LinkReply(name, o), name, Datum(false, Reverse(t)));
      } else if p != [] {
        assert ReplyData(t, p) == [Datum(true, Reverse(p))];
        assert IsLinkList(c, LinkReply(name, o), name, Datum(true, Reverse(p)));
      }
    }
  }

  lemma ReverseOk(hs: seq<Hash>)
    requires Distinct(hs)
    ensures Distinct(Reverse(hs)) && |Reverse(hs)| == |hs|
  {
  }

  lemma LinkListOutgoing(c: Config, unpack: Codec, n: Node, k: nat, name: string, d: Datum)
    requires k < |n.slots| && Distinct(d.hashes) && |d.hashes| <= c.maxResources
    ensures var o := ProcessPacket(c, unpack, n, k, LinkPacket(name, [d]));
            !o.overrun && (o.node.outgoing == [] || WellFormed(c, o.node.outgoing))
  {
    hide ProcessLinkGroup, OneList, WellFormed, LinkReply, DatumTokens;
    var p := LinkPacket(name, [d]);
    OneDatum(d);
    var q := [Map(2), Uint(NODE_NAME), Str(name)] + DatumTokens(d);
    assert p[0] == Map(1) && p[1..][0] == Uint(LINK_GROUP) && p[1..][1..] == q;
    OneListFits(c, n, k, name, d);
    var o := ProcessLinkGroup(c, n, k, Reader(q, true));
    ReplyWellFormed(c, n.name, o);
    NotOverrun(c, o);
  }

  lemma NotOverrun(c: Config, o: LinkOutcome)
    requires OneList(c, o)
    ensures o.status != Overrun
  {
  }

  /** A well-formed packet never overruns the scratch arrays, and what is in the outgoing buffer after
      it is well-formed if it was before. */
  lemma WellFormedProcessing(c: Config, unpack: Codec, n: Node, k: nat, p: Packet)
    requires k < |n.slots| && WellFormed(c, p)
    requires n.outgoing == [] || WellFormed(c, n.outgoing)
    ensures var o := ProcessPacket(c, unpack, n, k, p);
            !o.overrun && (o.node.outgoing == [] || WellFormed(c, o.node.outgoing))
  {
    hide ProcessContentGroup, ProcessLinkGroup, LinkPacket;
    if p == KeepalivePacket() {
      KeepaliveRoundTrip(c, unpack, n, k);
    } else if hash, blob :| p == ContentPacket(hash, blob) {
      assert p[0] == Map(1) && p[1..][0] == Uint(CONTENT_GROUP);
    } else {
      hide WellFormed;
      var name, d := LinkListOf(c, p);
      LinkListOutgoing(c, unpack, n, k, name, d);
    }
  }

  lemma LinkListOf(c: Config, p: Packet) returns (name: string, d: Datum)
    requires WellFormed(c, p) && p != KeepalivePacket() && forall hash, blob :: p != ContentPacket(hash, blob)
    ensures IsLinkList(c, p, name, d)
  {
    name, d :| IsLinkList(c, p, name, d);
  }

  // ---------- the network ----------

  datatype Destination = To(address: Address) | Everyone

  datatype Message = Message(source: Address, to: Destination, packet: Packet)

  /** A packet once sent stays in flight: it may be delivered any number of times, in any order, or
      never. */
  datatype Net = Net(nodes: seq<Node>, flight: set<Message>)

  datatype Event =
    | Tracks(node: nat, resource: Resource, callback: nat)
    | Advertises(node: nat, resource: Resource)
    | Posts(node: nat, provider: nat, blob: Blob, now: Timespec)
    | Asserts(node: nat, now: Timespec)
    | Discovers(node: nat)
    | Probes(node: nat, now: Timespec)
    | Receives(node: nat, message: Message, now: Timespec)

  ghost predicate NodeOk(c: Config, n: Node) {
    && Shaped(c, n)
    && UniqueHashes(n.trackers) && |n.trackers| <= c.maxTrackers
    && InRange(n.trackers, |n.slots|) && InRange(n.providers, |n.slots|)
    && (n.outgoing == [] || WellFormed(c, n.outgoing))
  }

  ghost predicate NetOk(c: Config, net: Net) {
    && (forall i :: 0 <= i < |net.nodes| ==> NodeOk(c, net.nodes[i]))
    && (forall m :: m in net.flight ==> WellFormed(c, m.packet))
  }

  ghost predicate Initial(c: Config, net: Net) {
    && net.flight == {}
    && forall i :: 0 <= i < |net.nodes| ==>
         var n := net.nodes[i];
         |n.slots| == c.maxPeers && n.numPeers == 0 && n.trackers == [] && n.providers == [] && n.outgoing == []
  }

  /** A message meant for a node that did not send it. */
  predicate Addressed(n: Node, m: Message) {
    m.source != n.address && (m.to.Everyone? || m.to.address == n.address)
  }

  predicate Enabled(c: Config, net: Net, e: Event) {
    && e.node < |net.nodes|
    && var n := net.nodes[e.node];
       match e
       case Tracks(_, resource, _) => CanAdd(n.trackers, resource, c.maxTrackers)
       case Advertises(_, resource) => CanAdd(n.providers, resource, c.maxProviders)
       case Posts(_, p, _, _) => p < |n.providers|
       case Receives(_, m, _) => m in net.flight && Addressed(n, m)
       case _ => true
  }

  function Unicasts(source: Address, targets: seq<Address>, packet: Packet): set<Message> {
    set a | a in targets :: Message(source, To(a), packet)
  }

  /** What one node does, and what it sends. */
  function NodeStep(c: Config, unpack: Codec, n: Node, e: Event): (Node, set<Message>)
    requires Shaped(c, n) && InRange(n.providers, |n.slots|)
    requires e.Posts? ==> e.provider < |n.providers|
  {
    match e
    case Tracks(_, resource, callback) => (Track(n, resource, callback).0, {})
    case Advertises(_, resource) => (Advertise(n, resource).0, {})
    case Posts(_, p, blob, now) =>
      var (m, targets) := Post(c, n, p, blob, now);
      (m, Unicasts(n.address, targets, m.outgoing))
    case Asserts(_, now) =>
      var (m, targets, _) := AssertLiveliness(c, n, now);
      (m, Unicasts(n.address, targets, m.outgoing))
    case Discovers(_) => (Discover(n), {Message(n.address, Everyone, Discovery(n))})
    case Probes(_, now) => (Probe(c, n, now).node, {})
    case Receives(_, m, now) =>
      var o := ProcessIncoming(c, unpack, n, m.source, m.packet, now);
      (o.node, if o.reply.Some? then {Message(n.address, To(m.source), o.reply.value)} else {})
  }

  ghost function Step(c: Config, unpack: Codec, net: Net, e: Event): Net
    requires NetOk(c, net) && Enabled(c, net, e)
  {
    var (n, sent) := NodeStep(c, unpack, net.nodes[e.node], e);
    Net(net.nodes[e.node := n], net.flight + sent)
  }

  // ---------- every step keeps the network well-formed ----------

  lemma ProbeOk(c: Config, n: Node, now: Timespec)
    requires NodeOk(c, n)
    ensures NodeOk(c, Probe(c, n, now).node)
  {
    hide Filter, WellFormed, Below;
    var marked := MarkAlive(n.slots, n.numPeers, now);
    forall i | 0 <= i < |n.trackers|
      ensures Below(Filter(n.trackers[i].peers, IsAliveIn(marked)), |n.slots|)
    {
      BelowSubset(n.trackers[i].peers, Filter(n.trackers[i].peers, IsAliveIn(marked)), |n.slots|);
    }
    forall i | 0 <= i < |n.providers|
      ensures Below(Filter(n.providers[i].peers, IsAliveIn(marked)), |n.slots|)
    {
      BelowSubset(n.providers[i].peers, Filter(n.providers[i].peers, IsAliveIn(marked)), |n.slots|);
    }
  }

  lemma AddOk(es: seq<Endpoint>, resource: Resource, callback: nat, size: nat, max: nat)
    requires InRange(es, size) && CanAdd(es, resource, max)
    ensures var fs := AddEndpoint(es, resource, callback).0;
            && InRange(fs, size) && (UniqueHashes(es) ==> UniqueHashes(fs))
            && (|es| <= max ==> |fs| <= max)
  {
    hide Below;
    NothingLinked(size);
    var i := FindHash(es, resource.hash);
    if i < |es| {
      assert es[i].resource.hash == resource.hash;
    } else {
      assert !HasHash(es, resource.hash);
    }
  }

  lemma ReceiveOk(c: Config, unpack: Codec, n: Node, origin: Address, p: Packet, now: Timespec)
    requires NodeOk(c, n) && WellFormed(c, p)
    ensures var o := ProcessIncoming(c, unpack, n, origin, p, now);
            NodeOk(c, o.node) && !o.overrun && (o.reply.Some? ==> WellFormed(c, o.reply.value))
  {
    hide ProcessPacket, WellFormed, Below;
    var (m, slot) := Register(c, n, origin, now);
    if slot.Some? {
      PacketStays(c, unpack, m, slot.value, p);
      WellFormedProcessing(c, unpack, m, slot.value, p);
    }
  }

  lemma DiscoveryWellFormed(c: Config, n: Node)
    requires c.Valid() && UniqueHashes(n.trackers) && |n.trackers| <= c.maxTrackers
    ensures WellFormed(c, Discovery(n))
  {
    hide UnlinkedHashes, Distinct, LinkPacket;
    UnlinkedOk(n.trackers);
    WritersWriteLinkPackets(n.name, UnlinkedHashes(n.trackers), []);
    assert IsLinkList(c, Discovery(n), n.name, Datum(false, UnlinkedHashes(n.trackers)));
  }

  lemma NodeStepOk(c: Config, unpack: Codec, net: Net, e: Event)
    requires c.Valid() && NetOk(c, net) && Enabled(c, net, e)
    ensures var (n, sent) := NodeStep(c, unpack, net.nodes[e.node], e);
            NodeOk(c, n) && forall m :: m in sent ==> WellFormed(c, m.packet)
  {
    hide WellFormed, ProcessIncoming, Probe, KeepaliveAll, PostTo, Discovery, UniqueHashes, InRange;
    var n := net.nodes[e.node];
    match e {
      case Tracks(_, resource, callback) => AddOk(n.trackers, resource, callback, |n.slots|, c.maxTrackers);
      case Advertises(_, resource) =>
        AddOk(n.providers, resource, CallbackOf(n.providers, resource), |n.slots|, c.maxProviders);
      case Posts(_, p, blob, now) =>
        ContentIsWellFormed(c, n.providers[p].resource.hash, blob);
      case Asserts(_, now) =>
        KeepaliveIsWellFormed(c);
      case Discovers(_) => DiscoveryWellFormed(c, n);
      case Probes(_, now) => ProbeOk(c, n, now);
      case Receives(_, m, now) => ReceiveOk(c, unpack, n, m.source, m.packet, now);
    }
  }

  lemma ContentIsWellFormed(c: Config, hash: Hash, blob: Blob)
    ensures WellFormed(c, ContentPacket(hash, blob))
  {
  }

  lemma KeepaliveIsWellFormed(c: Config)
    ensures WellFormed(c, KeepalivePacket())
  {
  }

  lemma StepOk(c: Config, unpack: Codec, net: Net, e: Event)
    requires c.Valid() && NetOk(c, net) && Enabled(c, net, e)
    ensures NetOk(c, Step(c, unpack, net, e))
  {
    hide NodeOk, WellFormed, NodeStep, Enabled;
    NodeStepOk(c, unpack, net, e);
    EnabledNode(c, net, e);
  }

  lemma EnabledNode(c: Config, net: Net, e: Event)
    requires Enabled(c, net, e)
    ensures e.node < |net.nodes|
  {
  }

  /** A run; events that cannot happen are passed over. */
  ghost function Run(c: Config, unpack: Codec, net: Net, events: seq<Event>): Net
    requires c.Valid() && NetOk(c, net)
    decreases |events|
  {
    if events == [] then net
    else if Enabled(c, net, events[0]) then
      StepOk(c, unpack, net, events[0]);
      Run(c, unpack, Step(c, unpack, net, events[0]), events[1..])
    else Run(c, unpack, net, events[1..])
  }

  lemma {:induction false} RunOk(c: Config, unpack: Codec, net: Net, events: seq<Event>)
    requires c.Valid() && NetOk(c, net)
    ensures NetOk(c, Run(c, unpack, net, events))
    decreases |events|
  {
    hide NetOk, Enabled, Step;
    if events != [] {
      if Enabled(c, net, events[0]) {
        StepOk(c, unpack, net, events[0]);
        RunOk(c, unpack, Step(c, unpack, net, events[0]), events[1..]);
      } else {
        RunOk(c, unpack, net, events[1..]);
      }
    }
  }

  lemma InitialOk(c: Config, net: Net)
    requires Initial(c, net)
    ensures NetOk(c, net)
  {
    forall i | 0 <= i < |net.nodes|
      ensures NodeOk(c, net.nodes[i])
    {
      EmptyNodeOk(c, net.nodes[i]);
    }
  }

  lemma EmptyNodeOk(c: Config, n: Node)
    requires |n.slots| == c.maxPeers && n.numPeers == 0 && n.trackers == [] && n.providers == [] && n.outgoing == []
    ensures NodeOk(c, n)
  {
  }

  /** In every run of any number of nodes from empty tables: every packet in flight is well-formed - a
      link group carries at most one list, of at most as many hashes as there may be resources and none
      twice - and no delivery overruns the arrays of link group processing. */
  lemma NetworkSafety(c: Config, unpack: Codec, net: Net, events: seq<Event>)
    requires c.Valid() && Initial(c, net)
    ensures NetOk(c, net)
    ensures var f := Run(c, unpack, net, events);
            && (forall m :: m in f.flight ==> WellFormed(c, m.packet))
            && (forall i :: 0 <= i < |f.nodes| ==> Shaped(c, f.nodes[i]))
            && forall i, m, now ::
                 0 <= i < |f.nodes| && m in f.flight ==>
                   !ProcessIncoming(c, unpack, f.nodes[i], m.source, m.packet, now).overrun
  {
    hide NodeOk, WellFormed, Run, ProcessIncoming;
    InitialOk(c, net);
    RunOk(c, unpack, net, events);
    var f := Run(c, unpack, net, events);
    forall i | 0 <= i < |f.nodes|
      ensures Shaped(c, f.nodes[i])
    {
      NodeOkShaped(c, f.nodes[i]);
    }
    forall i, m, now | 0 <= i < |f.nodes| && m in f.flight
      ensures !ProcessIncoming(c, unpack, f.nodes[i], m.source, m.packet, now).overrun
    {
      ReceiveOk(c, unpack, f.nodes[i], m.source, m.packet, now);
    }
  }

  lemma NodeOkShaped(c: Config, n: Node)
    requires NodeOk(c, n)
    ensures Shaped(c, n)
  {
  }
}
