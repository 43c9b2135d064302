/** Reading what was written: processing a packet applies exactly the name, the hashes in written
    order, or the hash and blob that went into it, and leaves no item over. */
module RoundTrip {
  import opened HashList
  import opened Sequences
  import opened Tokens
  import opened Tables
  import opened Protocol

  /** One array of a link group. */
  datatype Datum = Datum(provided: bool, hashes: seq<Hash>)

  function DatumTokens(d: Datum): Packet {
    ArrayData(if d.provided then PROVIDED_ARRAY else TRACKED_ARRAY, d.hashes)
  }

  function DataTokens(data: seq<Datum>): Packet {
    if data == [] then [] else DatumTokens(data[0]) + DataTokens(data[1..])
  }

  /** A link packet: a name and some arrays. */
  function LinkPacket(name: string, data: seq<Datum>): Packet {
    [Map(1), Uint(LINK_GROUP), Map(|data| + 1), Uint(NODE_NAME), Str(name)] + DataTokens(data)
  }

  function ReplyData(tracked: seq<Hash>, provided: seq<Hash>): seq<Datum> {
    (if tracked != [] then [Datum(false, Reverse(tracked))] else [])
    + (if provided != [] then [Datum(true, Reverse(provided))] else [])
  }

  /** Every packet of hashes the node writes is a link packet. */
  lemma WritersWriteLinkPackets(name: string, tracked: seq<Hash>, provided: seq<Hash>)
    ensures DiscoveryPacket(name, tracked) == LinkPacket(name, [Datum(false, tracked)])
    ensures ReplyPacket(name, tracked, provided)
         == if tracked == [] && provided == [] then [] else LinkPacket(name, ReplyData(tracked, provided))
  {
    var t, p := Datum(false, Reverse(tracked)), Datum(true, Reverse(provided));
    OneDatum(Datum(false, tracked));
    OneDatum(t);
    OneDatum(p);
    assert DatumTokens(Datum(false, tracked)) == ArrayData(TRACKED_ARRAY, tracked);
    assert DatumTokens(t) == ArrayData(TRACKED_ARRAY, Reverse(tracked));
    assert DatumTokens(p) == ArrayData(PROVIDED_ARRAY, Reverse(provided));
    hide Reverse, DataTokens, DatumTokens;
    if tracked != [] && provided != [] {
      assert ReplyData(tracked, provided) == [t, p];
      TwoData(t, p);
    } else if tracked != [] {
      assert ReplyData(tracked, provided) == [t];
    } else if provided != [] {
      assert ReplyData(tracked, provided) == [p];
    }
  }

  lemma TwoData(d: Datum, e: Datum)
    ensures DataTokens([d, e]) == DatumTokens(d) + DatumTokens(e)
  {
    assert [d, e][1..] == [e];
    OneDatum(e);
  }

  lemma OneDatum(d: Datum)
    ensures DataTokens([d]) == DatumTokens(d)
  {
    assert [d][1..] == [];
    assert DatumTokens(d) + [] == DatumTokens(d);
  }

  // ---------- hash lists ----------

  lemma {:induction false} HashesRoundTrip(hs: seq<Hash>, rest: Packet, acc: seq<Hash>, capacity: nat)
    requires 0 !in hs && |acc| + |hs| <= capacity
    ensures ReadHashes(Reader(HashTokens(hs) + rest, true), |hs|, acc, capacity)
         == HashesOut(acc + hs, Reader(rest, true), Good)
    decreases |hs|
  {
    var p := HashTokens(hs) + rest;
    if hs == [] {
      assert p == rest && acc + hs == acc;
    } else {
      assert p[0] == Uint(hs[0]) && p[1..] == HashTokens(hs[1..]) + rest;
      assert (acc + [hs[0]]) + hs[1..] == acc + hs;
      HashesRoundTrip(hs[1..], rest, acc + [hs[0]], capacity);
    }
  }

  /** What the arrays of a link group do, one after the other, without their encoding. */
  function ApplyDatum(c: Config, n: Node, k: nat, d: Datum, r: Reader, s: Scratch, ret: int): (o: LinkOutcome)
    requires k < |n.slots|
    ensures |o.node.slots| == |n.slots|
  {
    var s' := s.(hashes := s.hashes + d.hashes, arrays := s.arrays + 1);
    if d.provided then ApplyProvided(c, n, k, r, s', ret) else ApplyTracked(c, n, k, r, s', ret, |d.hashes|)
  }

  predicate GoodDatum(c: Config, d: Datum) {
    0 !in d.hashes && |d.hashes| <= c.maxResources
  }

  lemma DatumRoundTrip(c: Config, n: Node, k: nat, d: Datum, rest: Packet, s: Scratch, ret: int)
    requires k < |n.slots| && GoodDatum(c, d) && |s.hashes| + |d.hashes| <= c.maxResources
    ensures ProcessDatum(c, n, k, Reader(DatumTokens(d) + rest, true), s, ret)
         == ApplyDatum(c, n, k, d, Reader(rest, true), s, ret)
  {
    hide ApplyProvided, ApplyTracked, ReadHashes;
    var p := DatumTokens(d) + rest;
    assert p[0] == Uint(if d.provided then PROVIDED_ARRAY else TRACKED_ARRAY);
    assert p[1..][0] == Array(|d.hashes|);
    assert p[1..][1..] == HashTokens(d.hashes) + rest;
    HashesRoundTrip(d.hashes, rest, s.hashes, c.maxResources);
  }

  // ---------- whole packets ----------

  function TotalHashes(data: seq<Datum>): nat {
    if data == [] then 0 else |data[0].hashes| + TotalHashes(data[1..])
  }

  ghost predicate GoodData(c: Config, data: seq<Datum>) {
    forall i :: 0 <= i < |data| ==> GoodDatum(c, data[i])
  }

  /** All arrays of a group, as long as they succeed. They share the hashes read. */
  function ApplyData(c: Config, n: Node, k: nat, data: seq<Datum>, s: Scratch, ret: int): (o: LinkOutcome)
    requires k < |n.slots|
    ensures |o.node.slots| == |n.slots|
    decreases |data|
  {
    if data == [] then LinkOutcome(n, Reader([], true), s, ret, Good)
    else
      var o := ApplyDatum(c, n, k, data[0], Reader(DataTokens(data[1..]), true), s, ret);
      if o.status != Good then o else ApplyData(c, o.node, k, data[1..], o.scratch, o.ret)
  }

  lemma ApplyDatumScratch(c: Config, n: Node, k: nat, d: Datum, r: Reader, s: Scratch, ret: int)
    requires k < |n.slots|
    ensures var o := ApplyDatum(c, n, k, d, r, s, ret);
            o.reader == r && o.scratch.hashes == s.hashes + d.hashes
  {
    hide LinkHashes, UnlinkAll, ListDigest;
  }

  lemma {:induction false} DataRoundTrip(c: Config, n: Node, k: nat, data: seq<Datum>, s: Scratch, ret: int)
    requires k < |n.slots| && GoodData(c, data) && |s.hashes| + TotalHashes(data) <= c.maxResources
    ensures ProcessData(c, n, k, Reader(DataTokens(data), true), s, ret, |data|) == ApplyData(c, n, k, data, s, ret)
    decreases |data|
  {
    hide ApplyDatum, ProcessDatum, DatumTokens;
    if data != [] {
      var rest := DataTokens(data[1..]);
      DatumRoundTrip(c, n, k, data[0], rest, s, ret);
      ApplyDatumScratch(c, n, k, data[0], Reader(rest, true), s, ret);
      var o := ApplyDatum(c, n, k, data[0], Reader(rest, true), s, ret);
      if o.status == Good {
        DataRoundTrip(c, o.node, k, data[1..], o.scratch, o.ret);
      }
    }
  }

  lemma {:induction false} ApplyDataReader(c: Config, n: Node, k: nat, data: seq<Datum>, s: Scratch, ret: int)
    requires k < |n.slots|
    ensures var o := ApplyData(c, n, k, data, s, ret);
            o.reader.ok && (o.status == Good || |data| <= 1 ==> o.reader.tokens == [])
    decreases |data|
  {
    hide ApplyDatum;
    if data != [] {
      var r := Reader(DataTokens(data[1..]), true);
      ApplyDatumScratch(c, n, k, data[0], r, s, ret);
      var o := ApplyDatum(c, n, k, data[0], r, s, ret);
      ApplyDataReader(c, o.node, k, data[1..], o.scratch, o.ret);
    }
  }

  /** A name datum, and then the others. */
  lemma NameFirst(c: Config, n: Node, k: nat, name: string, t: Packet, count: nat)
    requires k < |n.slots| && FitsBuffer(name, c.nameSize)
    ensures ProcessData(c, n, k, Reader([Uint(NODE_NAME), Str(name)] + t, true), EMPTY_SCRATCH, 0, count + 1)
         == ProcessData(c, SetPeer(n, k, n.slots[k].(name := name)), k, Reader(t, true), EMPTY_SCRATCH, 0, count)
  {
    hide ProcessArray;
    var p := [Uint(NODE_NAME), Str(name)] + t;
    assert p[0] == Uint(NODE_NAME) && p[1..][0] == Str(name) && p[1..][1..] == t;
  }

  lemma GroupRoundTrip(c: Config, n: Node, k: nat, name: string, data: seq<Datum>)
    requires k < |n.slots| && FitsBuffer(name, c.nameSize)
    requires |data| <= 2 && GoodData(c, data) && TotalHashes(data) <= c.maxResources
    ensures var p := [Map(|data| + 1), Uint(NODE_NAME), Str(name)] + DataTokens(data);
            ProcessLinkGroup(c, n, k, Reader(p, true))
              == ApplyData(c, SetPeer(n, k, n.slots[k].(name := name)), k, data, EMPTY_SCRATCH, 0)
  {
    hide ProcessData, ApplyData, DataTokens;
    var t := DataTokens(data);
    var p := [Map(|data| + 1), Uint(NODE_NAME), Str(name)] + t;
    assert p[1..] == [Uint(NODE_NAME), Str(name)] + t;
    NameFirst(c, n, k, name, t, |data|);
    DataRoundTrip(c, SetPeer(n, k, n.slots[k].(name := name)), k, data, EMPTY_SCRATCH, 0);
  }

  /** Processing a link packet is setting the name and applying the arrays, as long as all the hashes
      together fit the array that they share; all items are read when the arrays succeed. */
  lemma LinkRoundTrip(c: Config, unpack: Codec, n: Node, k: nat, name: string, data: seq<Datum>)
    requires k < |n.slots| && FitsBuffer(name, c.nameSize)
    requires |data| <= 2 && GoodData(c, data) && TotalHashes(data) <= c.maxResources
    ensures var o := ApplyData(c, SetPeer(n, k, n.slots[k].(name := name)), k, data, EMPTY_SCRATCH, 0);
            && (o.status == Good ==> o.reader == Reader([], true))
            && ProcessPacket(c, unpack, n, k, LinkPacket(name, data))
                 == PacketOut(o.node.(outgoing := LinkReply(n.name, o)), o.reader, o.ret, [], o.status == Overrun)
  {
    hide ProcessLinkGroup, ApplyData, LinkReply, DataTokens;
    var p := LinkPacket(name, data);
    var q := [Map(|data| + 1), Uint(NODE_NAME), Str(name)] + DataTokens(data);
    assert p[0] == Map(1) && p[1..][0] == Uint(LINK_GROUP) && p[1..][1..] == q;
    GroupRoundTrip(c, n, k, name, data);
    ApplyDataReader(c, SetPeer(n, k, n.slots[k].(name := name)), k, data, EMPTY_SCRATCH, 0);
  }

  /** A content packet is read back as its hash and blob. */
  lemma ContentRoundTrip(c: Config, unpack: Codec, n: Node, k: nat, hash: Hash, blob: Blob)
    requires k < |n.slots| && hash != 0 && blob != []
    ensures var (m, ret, delivered) := ProcessContentBlob(c, unpack, n, k, hash, blob);
            ProcessPacket(c, unpack, n, k, ContentPacket(hash, blob))
              == PacketOut(m.(outgoing := []), Reader([], true), ret, delivered, false)
  {
    hide ProcessContentBlob;
    var p := ContentPacket(hash, blob);
    assert p[1..][0] == Uint(CONTENT_GROUP) && p[1..][1..][0] == Map(1);
    assert p[1..][1..][1..][0] == Uint(hash) && p[1..][1..][1..][1..][0] == Bin(blob);
    assert p[1..][1..][1..][1..][1..] == [];
    OneContent(c, unpack, n, k, hash, blob);
  }

  lemma OneContent(c: Config, unpack: Codec, n: Node, k: nat, hash: Hash, blob: Blob)
    requires k < |n.slots| && hash != 0 && blob != []
    ensures var (m, ret, delivered) := ProcessContentBlob(c, unpack, n, k, hash, blob);
            ProcessContents(c, unpack, n, k, Reader([Uint(hash), Bin(blob)], true), 1)
              == ContentOut(m, Reader([], true), ret, delivered)
  {
    hide ProcessContentBlob;
    var p := [Uint(hash), Bin(blob)];
    assert p[1..][0] == Bin(blob) && p[1..][1..] == [];
  }

  /** A keepalive changes nothing at all, not even the outgoing buffer: what it holds is sent again. */
  lemma KeepaliveRoundTrip(c: Config, unpack: Codec, n: Node, k: nat)
    requires k < |n.slots|
    ensures ProcessPacket(c, unpack, n, k, KeepalivePacket()) == PacketOut(n, Reader([], true), 0, [], false)
  {
  }
}
