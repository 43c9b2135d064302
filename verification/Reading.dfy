/** How much of a packet is read: groups are read one after the other, whatever follows them; and what a packet
    must begin with in order not to fail. */
module Reading {
  import opened HashList
  import opened Tokens
  import opened Tables
  import opened Protocol

  // ---------- what follows is left alone ----------

  /** A reader with more items behind those it has. */
  function More(r: Reader, t: Packet): Reader {
    Reader(r.tokens + t, r.ok)
  }

  lemma ExpectsLocal(r: Reader, t: Packet, max: nat)
    ensures var o := ExpectMapOrNil(r, max);
            o.2.ok ==> r.ok && ExpectMapOrNil(More(r, t), max) == (o.0, o.1, More(o.2, t))
    ensures var o := ExpectArrayOrNil(r, max);
            o.2.ok ==> r.ok && ExpectArrayOrNil(More(r, t), max) == (o.0, o.1, More(o.2, t))
    ensures var o := ExpectU8(r); o.1.ok ==> r.ok && ExpectU8(More(r, t)) == (o.0, More(o.1, t))
    ensures var o := ExpectU32(r); o.1.ok ==> r.ok && ExpectU32(More(r, t)) == (o.0, More(o.1, t))
    ensures var o := ExpectBin(r); o.1.ok ==> r.ok && ExpectBin(More(r, t)) == (o.0, More(o.1, t))
    ensures var o := ExpectCstr(r, max); o.1.ok ==> r.ok && ExpectCstr(More(r, t), max) == (o.0, More(o.1, t))
  {
    if CanRead(r) {
      assert More(r, t).tokens[0] == r.tokens[0] && More(r, t).tokens[1..] == r.tokens[1..] + t;
    }
  }

  lemma {:induction false} HashesLocal(r: Reader, t: Packet, count: nat, hashes: seq<Hash>, capacity: nat)
    ensures var o := ReadHashes(r, count, hashes, capacity);
            o.reader.ok ==> r.ok && ReadHashes(More(r, t), count, hashes, capacity) == o.(reader := More(o.reader, t))
    decreases count
  {
    hide ExpectU32, More;
    if count > 0 {
      ExpectsLocal(r, t, 0);
      var (hash, r') := ExpectU32(r);
      if hash != 0 && |hashes| < capacity {
        HashesLocal(r', t, count - 1, hashes + [hash], capacity);
      }
    }
  }

  lemma AppliesLocal(c: Config, n: Node, k: nat, r: Reader, t: Packet, s: Scratch, ret: int, size: nat)
    requires k < |n.slots| && size <= |s.hashes|
    ensures var o := ApplyProvided(c, n, k, r, s, ret);
            o.reader == r && ApplyProvided(c, n, k, More(r, t), s, ret) == o.(reader := More(r, t))
    ensures var o := ApplyTracked(c, n, k, r, s, ret, size);
            o.reader == r && ApplyTracked(c, n, k, More(r, t), s, ret, size) == o.(reader := More(r, t))
  {
    hide LinkHashes, UnlinkAll, ListDigest, AddLinks;
  }

  lemma ArrayLocal(c: Config, n: Node, k: nat, r: Reader, t: Packet, s: Scratch, ret: int, provided: bool)
    requires k < |n.slots|
    ensures var o := ProcessArray(c, n, k, r, s, ret, provided);
            o.reader.ok ==> r.ok && ProcessArray(c, n, k, More(r, t), s, ret, provided) == o.(reader := More(o.reader, t))
  {
    hide ExpectArrayOrNil, More, ReadHashes, ApplyProvided, ApplyTracked;
    ExpectsLocal(r, t, c.maxResources);
    var (isArray, size, r1) := ExpectArrayOrNil(r, c.maxResources);
    if isArray {
      HashesLocal(r1, t, size, s.hashes, c.maxResources);
      ReadHashesGrows(r1, size, s.hashes, c.maxResources);
      var h := ReadHashes(r1, size, s.hashes, c.maxResources);
      if h.status == Good {
        AppliesLocal(c, n, k, h.reader, t, s.(hashes := h.hashes, arrays := s.arrays + 1), ret, size);
      }
    }
  }

  lemma DatumLocal(c: Config, n: Node, k: nat, r: Reader, t: Packet, s: Scratch, ret: int)
    requires k < |n.slots|
    ensures var o := ProcessDatum(c, n, k, r, s, ret);
            o.reader.ok ==> r.ok && ProcessDatum(c, n, k, More(r, t), s, ret) == o.(reader := More(o.reader, t))
  {
    hide ExpectU8, ExpectCstr, More, ProcessArray;
    ExpectsLocal(r, t, 0);
    var (code, r1) := ExpectU8(r);
    ExpectsLocal(r1, t, c.nameSize);
    ArrayLocal(c, n, k, r1, t, s, ret, true);
    ArrayLocal(c, n, k, r1, t, s, ret, false);
  }

  lemma {:induction false} DataLocal(c: Config, n: Node, k: nat, r: Reader, t: Packet, s: Scratch, ret: int, count: nat)
    requires k < |n.slots|
    ensures var o := ProcessData(c, n, k, r, s, ret, count);
            o.reader.ok ==> r.ok && ProcessData(c, n, k, More(r, t), s, ret, count) == o.(reader := More(o.reader, t))
    decreases count
  {
    hide More, ProcessDatum;
    if count > 0 {
      DatumLocal(c, n, k, r, t, s, ret);
      var o := ProcessDatum(c, n, k, r, s, ret);
      if o.status == Good {
        DataLocal(c, o.node, k, o.reader, t, o.scratch, o.ret, count - 1);
      }
    }
  }

  lemma {:induction false} ContentsLocal(c: Config, unpack: Codec, n: Node, k: nat, r: Reader, t: Packet, count: nat)
    requires k < |n.slots|
    ensures var o := ProcessContents(c, unpack, n, k, r, count);
            o.reader.ok ==> r.ok && ProcessContents(c, unpack, n, k, More(r, t), count) == o.(reader := More(o.reader, t))
    decreases count
  {
    hide More, ExpectU32, ExpectBin, ProcessContentBlob;
    if count > 0 {
      ExpectsLocal(r, t, 0);
      var (hash, r1) := ExpectU32(r);
      ExpectsLocal(r1, t, 0);
      var (blob, r2) := ExpectBin(r1);
      if hash != 0 && blob != [] {
        var (m, ret, _) := ProcessContentBlob(c, unpack, n, k, hash, blob);
        if ret == 0 {
          ContentsLocal(c, unpack, m, k, r2, t, count - 1);
        }
      }
    }
  }

  /** A group reads as far as it reads, whatever comes behind. */
  lemma GroupLocal(c: Config, unpack: Codec, n: Node, k: nat, r: Reader, t: Packet)
    requires k < |n.slots|
    ensures var o := ProcessGroup(c, unpack, n, k, r);
            o.reader.ok ==> r.ok && ProcessGroup(c, unpack, n, k, More(r, t)) == o.(reader := More(o.reader, t))
  {
    hide More, ExpectU8, ExpectMapOrNil, ProcessData, ProcessContents, LinkReply;
    ExpectsLocal(r, t, 0);
    var (code, r1) := ExpectU8(r);
    ExpectsLocal(r1, t, MAX_MAP_SIZE);
    ExpectsLocal(r1, t, MAX_NUM_LINK_DATA);
    var (_, size, r2) := ExpectMapOrNil(r1, MAX_MAP_SIZE);
    ContentsLocal(c, unpack, n, k, r2, t, size);
    var (_, size', r2') := ExpectMapOrNil(r1, MAX_NUM_LINK_DATA);
    DataLocal(c, n, k, r2', t, EMPTY_SCRATCH, 0, size');
    SameReply(n.name, ProcessLinkGroup(c, n, k, r1), More(ProcessLinkGroup(c, n, k, r1).reader, t));
  }

  lemma SameReply(name: string, o: LinkOutcome, r: Reader)
    ensures LinkReply(name, o.(reader := r)) == LinkReply(name, o)
  {
  }

  // ---------- a packet with two groups ----------

  lemma GroupsOf(c: Config, unpack: Codec, n: Node, k: nat, size: nat, p: Packet)
    requires k < |n.slots| && size <= MAX_NUM_GROUPS
    ensures var o := ProcessGroups(c, unpack, n, k, Reader(p, true), size);
            ProcessPacket(c, unpack, n, k, [Map(size)] + p) == if o.reader.ok then o else o.(ret := -1)
  {
    hide ProcessGroups;
    assert ([Map(size)] + p)[1..] == p;
  }

  lemma OneGroup(c: Config, unpack: Codec, n: Node, k: nat, p: Packet)
    requires k < |n.slots|
    ensures var o := ProcessGroup(c, unpack, n, k, Reader(p, true));
            ProcessPacket(c, unpack, n, k, [Map(1)] + p) == if o.reader.ok then o else o.(ret := -1)
  {
    hide ProcessGroup;
    GroupsOf(c, unpack, n, k, 1, p);
    var o := ProcessGroup(c, unpack, n, k, Reader(p, true));
    assert o.delivered + [] == o.delivered;
  }

  lemma BothGroups(c: Config, unpack: Codec, n: Node, k: nat, r: Reader)
    requires k < |n.slots|
    ensures var first := ProcessGroup(c, unpack, n, k, r);
            ProcessGroups(c, unpack, n, k, r, 2)
              == if first.ret != 0 || first.overrun then first
                 else
                   var second := ProcessGroup(c, unpack, first.node, k, first.reader);
                   second.(delivered := first.delivered + second.delivered)
  {
    hide ProcessGroup;
    var first := ProcessGroup(c, unpack, n, k, r);
    var second := ProcessGroup(c, unpack, first.node, k, first.reader);
    assert second.delivered + [] == second.delivered;
    assert ProcessGroups(c, unpack, first.node, k, first.reader, 1) == second;
  }

  /** A packet with two groups does what its first group does by itself, if that has items for nothing more, and
      then, unless it returned something else than zero, what its second does by itself. */
  lemma TwoGroups(c: Config, unpack: Codec, n: Node, k: nat, p: Packet, q: Packet)
    requires k < |n.slots|
    requires ProcessPacket(c, unpack, n, k, [Map(1)] + p).reader == Reader([], true)
    ensures var first := ProcessPacket(c, unpack, n, k, [Map(1)] + p);
            ProcessPacket(c, unpack, n, k, [Map(2)] + p + q)
              == if first.ret != 0 || first.overrun then first.(reader := Reader(q, true))
                 else
                   var second := ProcessPacket(c, unpack, first.node, k, [Map(1)] + q);
                   second.(delivered := first.delivered + second.delivered)
  {
    hide ProcessGroup, ProcessGroups, ProcessPacket;
    GroupsOf(c, unpack, n, k, 2, p + q);
    OneGroup(c, unpack, n, k, p);
    GroupLocal(c, unpack, n, k, Reader(p, true), q);
    BothGroups(c, unpack, n, k, Reader(p + q, true));
    var o := ProcessGroup(c, unpack, n, k, Reader(p, true));
    OneGroup(c, unpack, o.node, k, q);
    assert [Map(2)] + p + q == [Map(2)] + (p + q) && [] + q == q;
    assert ProcessGroup(c, unpack, n, k, Reader(p + q, true)) == o.(reader := Reader(q, true));
  }

  // ---------- what does not fail ----------

  /** A hash other than zero and some bytes. */
  ghost predicate EntryBegins(p: Packet) {
    |p| >= 2 && p[0].Uint? && p[0].v != 0 && p[1].Bin? && p[1].b != []
  }

  /** A name that fits, or an array, perhaps nil, of no more hashes than there may be resources. */
  ghost predicate DatumBegins(c: Config, p: Packet) {
    && |p| >= 2
    && ((p[0] == Uint(0x8C) && p[1].Str? && |p[1].s| < c.nameSize)
        || ((p[0] == Uint(0x4D) || p[0] == Uint(0xD4)) && (p[1] == Nil || (p[1].Array? && p[1].size <= c.maxResources))))
  }

  ghost predicate GroupBegins(c: Config, p: Packet) {
    && |p| >= 2
    && if p[0] == Uint(0xA5) then p[1] == Nil || (p[1].Map? && (p[1].size > 0 ==> EntryBegins(p[2..])))
       else
         && p[0] == Uint(0x5A)
         && (p[1] == Nil || (p[1].Map? && p[1].size <= 3 && (p[1].size > 0 ==> DatumBegins(c, p[2..]))))
  }

  ghost predicate PacketBegins(c: Config, p: Packet) {
    && p != []
    && (p[0] == Nil || (p[0].Map? && p[0].size <= 2 && (p[0].size > 0 ==> GroupBegins(c, p[1..]))))
  }

  /** Once in its error state a reader stays in it. */
  lemma {:induction false} GroupsFail(c: Config, unpack: Codec, n: Node, k: nat, r: Reader, count: nat)
    requires k < |n.slots| && ProcessGroups(c, unpack, n, k, r, count).reader.ok
    ensures r.ok
    decreases count
  {
    hide ProcessGroup;
    if count > 0 {
      GroupLocal(c, unpack, n, k, r, []);
      var o := ProcessGroup(c, unpack, n, k, r);
      if o.ret == 0 && !o.overrun {
        GroupsFail(c, unpack, o.node, k, o.reader, count - 1);
      }
    }
  }

  lemma DataAccepted(c: Config, n: Node, k: nat, p: Packet, count: nat)
    requires k < |n.slots| && count > 0
    requires var o := ProcessData(c, n, k, Reader(p, true), EMPTY_SCRATCH, 0, count); o.reader.ok && o.status == Good
    ensures DatumBegins(c, p)
  {
    hide ReadHashes, ApplyProvided, ApplyTracked;
    var r := Reader(p, true);
    DatumLocal(c, n, k, r, [], EMPTY_SCRATCH, 0);
    var o := ProcessDatum(c, n, k, r, EMPTY_SCRATCH, 0);
    if o.status == Good {
      DataLocal(c, o.node, k, o.reader, [], o.scratch, o.ret, count - 1);
      var (code, r1) := ExpectU8(r);
      ArrayLocal(c, n, k, r1, [], EMPTY_SCRATCH, 0, true);
      ArrayLocal(c, n, k, r1, [], EMPTY_SCRATCH, 0, false);
    }
  }

  lemma {:induction false} RejectedHashes(es: seq<Endpoint>, k: nat, hs: seq<Hash>, max: nat, capacity: nat,
                                          matched: seq<Hash>, ret: int)
    ensures var o := LinkHashes(es, k, hs, max, capacity, matched, ret); o.status == Rejected ==> o.ret == -1
    decreases |hs|
  {
    hide LinkMatching;
    if hs != [] {
      var m := LinkMatching(es, k, hs[0], max);
      if !m.failed && !(m.links > 0 && |matched| >= capacity) {
        RejectedHashes(m.es, k, hs[1..], max, capacity, if m.links > 0 then matched + [hs[0]] else matched, m.links);
      }
    }
  }

  lemma RejectedDatum(c: Config, n: Node, k: nat, r: Reader, s: Scratch, ret: int)
    requires k < |n.slots|
    ensures var o := ProcessDatum(c, n, k, r, s, ret); o.status == Rejected ==> o.ret == -1
  {
    hide ReadHashes, LinkHashes, UnlinkAll, ListDigest, ExpectU8, ExpectCstr, ExpectArrayOrNil, AddLinks;
    var (code, r1) := ExpectU8(r);
    var (isArray, size, r2) := ExpectArrayOrNil(r1, c.maxResources);
    var h := ReadHashes(r2, size, s.hashes, c.maxResources);
    ReadHashesGrows(r2, size, s.hashes, c.maxResources);
    var (ts, u) := UnlinkAll(n.trackers, k);
    RejectedHashes(ts, k, h.hashes, c.maxPeers, c.maxResources, s.tracked, u);
    if h.status == Good {
      var (ps, v) := UnlinkAll(n.providers, k);
      RejectedHashes(ps, k, h.hashes[..size], c.maxPeers, c.maxResources, s.provided, v);
    }
  }

  lemma {:induction false} RejectedData(c: Config, n: Node, k: nat, r: Reader, s: Scratch, ret: int, count: nat)
    requires k < |n.slots|
    ensures var o := ProcessData(c, n, k, r, s, ret, count); o.status == Rejected ==> o.ret == -1
    decreases count
  {
    hide ProcessDatum;
    if count > 0 {
      RejectedDatum(c, n, k, r, s, ret);
      var o := ProcessDatum(c, n, k, r, s, ret);
      if o.status == Good {
        RejectedData(c, o.node, k, o.reader, o.scratch, o.ret, count - 1);
      }
    }
  }

  lemma LinkGroupAccepted(c: Config, n: Node, k: nat, p: Packet)
    requires k < |n.slots|
    requires var o := ProcessLinkGroup(c, n, k, Reader(p, true)); o.reader.ok && o.ret >= 0 && o.status != Overrun
    ensures p != [] && (p[0] == Nil || (p[0].Map? && p[0].size <= 3 && (p[0].size > 0 ==> DatumBegins(c, p[1..]))))
  {
    hide ProcessData, DatumBegins;
    var (isMap, size, r) := ExpectMapOrNil(Reader(p, true), MAX_NUM_LINK_DATA);
    if !isMap {
    } else if size > 0 {
      RejectedData(c, n, k, r, EMPTY_SCRATCH, 0, size);
      DataAccepted(c, n, k, p[1..], size);
    }
  }

  lemma ContentGroupAccepted(c: Config, unpack: Codec, n: Node, k: nat, p: Packet)
    requires k < |n.slots|
    requires var o := ProcessContentGroup(c, unpack, n, k, Reader(p, true)); o.reader.ok && o.ret >= 0
    ensures p != [] && (p[0] == Nil || (p[0].Map? && (p[0].size > 0 ==> EntryBegins(p[1..]))))
  {
    hide ProcessContentBlob;
    var (isMap, size, r) := ExpectMapOrNil(Reader(p, true), MAX_MAP_SIZE);
    if isMap && size > 0 {
      var (hash, r1) := ExpectU32(r);
      var (blob, r2) := ExpectBin(r1);
      assert hash != 0 && blob != [];
    }
  }

  lemma GroupAccepted(c: Config, unpack: Codec, n: Node, k: nat, p: Packet)
    requires k < |n.slots|
    requires var o := ProcessGroup(c, unpack, n, k, Reader(p, true)); o.reader.ok && o.ret >= 0 && !o.overrun
    ensures GroupBegins(c, p)
  {
    hide ProcessLinkGroup, ProcessContentGroup, LinkReply, EntryBegins, DatumBegins;
    var (code, r1) := ExpectU8(Reader(p, true));
    if code == CONTENT_GROUP {
      ContentGroupAccepted(c, unpack, n, k, p[1..]);
    } else {
      LinkGroupAccepted(c, n, k, p[1..]);
    }
  }

  /** A packet that does not fail, nor make its receiver write past an array, begins as it should: with nil, or with
      at most two groups, the first of content, whose first entry has a hash and some bytes, or of at most three link data,
      the first of which is a name that fits or an array that is not too long. */
  lemma AcceptedBegins(c: Config, unpack: Codec, n: Node, k: nat, p: Packet)
    requires k < |n.slots|
    requires var o := ProcessPacket(c, unpack, n, k, p); o.ret >= 0 && !o.overrun
    ensures PacketBegins(c, p)
  {
    hide ProcessGroup, GroupBegins;
    var (isMap, size, r) := ExpectMapOrNil(Reader(p, true), MAX_NUM_GROUPS);
    if isMap && size > 0 {
      var o := ProcessGroup(c, unpack, n, k, r);
      if o.ret == 0 && !o.overrun {
        GroupsFail(c, unpack, o.node, k, o.reader, size - 1);
      }
      GroupAccepted(c, unpack, n, k, p[1..]);
    }
  }

  /** Nil in place of a map, or an empty map, stands for nothing; but a group of nothing empties the outgoing
      buffer. */
  lemma NoGroups(c: Config, unpack: Codec, n: Node, k: nat, content: bool)
    requires k < |n.slots|
    ensures var code := Uint(if content then CONTENT_GROUP else LINK_GROUP);
            var nothing := PacketOut(n.(outgoing := []), Reader([], true), 0, [], false);
            && ProcessPacket(c, unpack, n, k, [Map(0)]) == PacketOut(n, Reader([], true), 0, [], false)
            && ProcessPacket(c, unpack, n, k, [Map(1), code, Nil]) == nothing
            && ProcessPacket(c, unpack, n, k, [Map(1), code, Map(0)]) == nothing
  {
    hide ProcessPacket, ProcessDatum, ProcessContentBlob;
    var code := Uint(if content then CONTENT_GROUP else LINK_GROUP);
    GroupsOf(c, unpack, n, k, 0, []);
    OneGroup(c, unpack, n, k, [code, Nil]);
    OneGroup(c, unpack, n, k, [code, Map(0)]);
    assert [Map(1)] + [code, Nil] == [Map(1), code, Nil] && [Map(1)] + [code, Map(0)] == [Map(1), code, Map(0)];
    assert [Map(0)] + [] == [Map(0)];
    assert [code, Nil][1..] == [Nil] && [code, Map(0)][1..] == [Map(0)] && [Nil][1..] == [] && [Map(0)][1..] == [];
  }

  /** Nil in place of an array leaves the links as they are, unlike an array of nothing. */
  lemma NoArray(c: Config, unpack: Codec, n: Node, k: nat, provided: bool)
    requires k < |n.slots|
    ensures var code := Uint(if provided then PROVIDED_ARRAY else TRACKED_ARRAY);
            ProcessPacket(c, unpack, n, k, [Map(1), Uint(LINK_GROUP), Map(1), code, Nil])
              == PacketOut(n.(outgoing := []), Reader([], true), 0, [], false)
  {
    hide ProcessPacket, ReadHashes, ApplyProvided, ApplyTracked, ProcessContentGroup;
    var code := Uint(if provided then PROVIDED_ARRAY else TRACKED_ARRAY);
    var p := [Uint(LINK_GROUP), Map(1), code, Nil];
    OneGroup(c, unpack, n, k, p);
    assert [Map(1)] + p == [Map(1), Uint(LINK_GROUP), Map(1), code, Nil];
    assert p[1..] == [Map(1), code, Nil] && p[1..][1..] == [code, Nil] && p[1..][1..][1..] == [Nil];
    assert [Nil][1..] == [];
  }
}
