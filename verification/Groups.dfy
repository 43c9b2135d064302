/** Packets with more in them than a node writes: groups with two lists or with many entries, packets with two
    groups, and what is left out or out of place. */
module Groups {
  import opened HashList
  import opened Sequences
  import opened Tokens
  import opened Tables
  import opened Links
  import opened Relink
  import opened Protocol
  import opened Accounting
  import opened RoundTrip
  import opened Exchange
  import opened Overruns

  // ---------- an array behind others ----------

  /** The node after an array of a group in which some hashes were read before. */
  function AfterArray(n: Node, k: nat, before: seq<Hash>, d: Datum): Node
    requires k < |n.slots|
  {
    var digest := ListDigest(before + d.hashes);
    if Remembered(n.slots[k], d) == digest then n
    else
      var m := WithTargets(n, d, RelinkAll(Targets(n, d), k, AppliedHashes(before, d)));
      var p := n.slots[k].(numLinks := Mentions(m.trackers, k) + Mentions(m.providers, k));
      SetPeer(m, k, if d.provided then p.(providedDigest := digest) else p.(trackedDigest := digest))
  }

  /** The hashes that match when it is applied. */
  function ArrayMatches(n: Node, k: nat, before: seq<Hash>, d: Datum): seq<Hash>
    requires k < |n.slots|
  {
    if Remembered(n.slots[k], d) == ListDigest(before + d.hashes) then []
    else Filter(AppliedHashes(before, d), HashOf(Targets(n, d)))
  }

  /** The return code that it leaves, if it is the first: whether its last hash made a link, or, without any, how
      many links were undone. */
  function ArrayCode(n: Node, k: nat, before: seq<Hash>, d: Datum, ret: int): int
    requires k < |n.slots|
  {
    if Remembered(n.slots[k], d) == ListDigest(before + d.hashes) then ret
    else LastCode(Targets(n, d), AppliedHashes(before, d), Mentions(Targets(n, d), k))
  }

  lemma RelinkMore(c: Config, es: seq<Endpoint>, k: nat, hs: seq<Hash>, matched: seq<Hash>, limit: nat)
    requires EndpointsOk(es, limit) && UniqueHashes(es) && k < limit <= c.maxPeers
    requires Distinct(hs) && |matched| + |Filter(hs, HashOf(es))| <= c.maxResources
    ensures var (fs, u) := UnlinkAll(es, k);
            var o := LinkHashes(fs, k, hs, c.maxPeers, c.maxResources, matched, u);
            && o.status == Good && o.es == RelinkAll(es, k, hs) && o.matched == matched + Filter(hs, HashOf(es))
            && o.links - u == Mentions(o.es, k) - Mentions(es, k) && o.ret == LastCode(es, hs, Mentions(es, k))
  {
    hide LinkHashes, UnlinkAll, Mentions, EndpointsOk, UniqueHashes, Filter, Relinked, LastCode;
    var (fs, u) := UnlinkAll(es, k);
    UnlinkAllEffect(es, k, limit);
    RelinkExact(es, k, hs, c.maxPeers, c.maxResources, matched, u, limit);
    RelinkGains(es, k, hs, c.maxPeers, c.maxResources, matched, limit);
    assert LinkHashes(fs, k, hs, c.maxPeers, c.maxResources, matched, u).es == RelinkAll(es, k, hs);
  }

  lemma ArrayExact(c: Config, n: Node, k: nat, d: Datum, r: Reader, s: Scratch, ret: int)
    requires Accounted(c, n) && k < n.numPeers && k < |n.slots| && Distinct(AppliedHashes(s.hashes, d))
    requires |MatchedOf(s, d)| + |ArrayMatches(n, k, s.hashes, d)| <= c.maxResources
    ensures var o := ApplyDatum(c, n, k, d, r, s, ret);
            var found := ArrayMatches(n, k, s.hashes, d);
            && o.status == Good && o.reader == r && o.node == AfterArray(n, k, s.hashes, d)
            && o.scratch == Scratch(s.hashes + d.hashes,
                                    if d.provided then s.tracked + found else s.tracked,
                                    if d.provided then s.provided else s.provided + found, s.arrays + 1)
            && o.ret == ArrayCode(n, k, s.hashes, d, ret)
  {
    hide LinkHashes, UnlinkAll, ListDigest, Filter, RelinkAll, Mentions, LastCode, EndpointsOk, UniqueHashes, Distinct;
    LinkCountOf(c, n, k);
    var es, hs := Targets(n, d), AppliedHashes(s.hashes, d);
    if Remembered(n.slots[k], d) != ListDigest(s.hashes + d.hashes) {
      RelinkMore(c, es, k, hs, MatchedOf(s, d), n.numPeers);
    }
    var links := Mentions(RelinkAll(es, k, hs), k) - Mentions(es, k);
    SetTwice(n.slots, k, links, AfterArray(n, k, s.hashes, d).slots[k]);
    assert s.tracked + [] == s.tracked && s.provided + [] == s.provided;
  }

  // ---------- a group with two lists ----------

  lemma TwoDataApplied(c: Config, n: Node, k: nat, d: Datum, e: Datum)
    requires k < |n.slots|
    ensures var o := ApplyDatum(c, n, k, d, Reader(DataTokens([e]), true), EMPTY_SCRATCH, 0);
            ApplyData(c, n, k, [d, e], EMPTY_SCRATCH, 0)
              == if o.status != Good then o
                 else
                   var q := ApplyDatum(c, o.node, k, e, Reader([], true), o.scratch, o.ret);
                   if q.status != Good then q else LinkOutcome(q.node, Reader([], true), q.scratch, q.ret, Good)
  {
    hide ApplyDatum, DatumTokens;
    assert [d, e][1..] == [e] && [e][1..] == [] && DataTokens([]) == [];
    var o := ApplyDatum(c, n, k, d, Reader(DataTokens([e]), true), EMPTY_SCRATCH, 0);
    LastApplied(c, o.node, k, e, o.scratch, o.ret);
  }

  lemma LastApplied(c: Config, n: Node, k: nat, e: Datum, s: Scratch, ret: int)
    requires k < |n.slots|
    ensures var q := ApplyDatum(c, n, k, e, Reader([], true), s, ret);
            ApplyData(c, n, k, [e], s, ret)
              == if q.status != Good then q else LinkOutcome(q.node, Reader([], true), q.scratch, q.ret, Good)
  {
    hide ApplyDatum, DatumTokens;
    assert [e][1..] == [] && DataTokens([]) == [];
  }

  lemma ArrayKeeps(c: Config, n: Node, k: nat, d: Datum, r: Reader, s: Scratch, ret: int)
    requires Accounted(c, n) && k < n.numPeers && ret >= 0
    ensures k < |n.slots|
    ensures var o := ApplyDatum(c, n, k, d, r, s, ret);
            Accounted(c, o.node) && OnlySlot(n, o.node, k) && (o.status == Good ==> o.ret >= 0)
  {
    hide Accounted, OnlySlot, ApplyProvided, ApplyTracked;
    AccountedShape(c, n);
    var s' := s.(hashes := s.hashes + d.hashes, arrays := s.arrays + 1);
    ApplyProvidedKeeps(c, n, k, r, s', ret);
    ApplyTrackedKeeps(c, n, k, r, s', ret, |d.hashes|);
  }

  /** Two lists such that what each is applied with has no repetitions. */
  ghost predicate GoodPair(c: Config, d: Datum, e: Datum) {
    && GoodList(c, d) && GoodDatum(c, e) && Distinct(AppliedHashes(d.hashes, e))
    && (d.provided == e.provided ==> Distinct(d.hashes + e.hashes))
  }

  lemma PartsOfTwo(d: Datum, e: Datum)
    ensures AppliedHashes([], d) == d.hashes && [] + d.hashes == d.hashes
    ensures TotalHashes([d, e]) == |d.hashes| + |e.hashes|
  {
    assert [d, e][1..] == [e] && [e][1..] == [] && TotalHashes([e]) == |e.hashes|;
  }

  /** An array changes no hash of an endpoint, and leaves its digest. */
  lemma AfterArrayMeans(n: Node, k: nat, before: seq<Hash>, d: Datum, hs: seq<Hash>)
    requires k < |n.slots|
    ensures var m := AfterArray(n, k, before, d);
            && |m.slots| == |n.slots| && Remembered(m.slots[k], d) == ListDigest(before + d.hashes)
            && forall e: Datum :: Filter(hs, HashOf(Targets(m, e))) == Filter(hs, HashOf(Targets(n, e)))
  {
    hide ListDigest, Filter, HashOf, Mentions, Relinked;
    SameFound(Targets(n, d), k, AppliedHashes(before, d), hs);
  }

  lemma SameFound(es: seq<Endpoint>, k: nat, applied: seq<Hash>, hs: seq<Hash>)
    ensures Filter(hs, HashOf(RelinkAll(es, k, applied))) == Filter(hs, HashOf(es))
  {
    hide Filter, LastCode;
    SameHashes(es, RelinkAll(es, k, applied), hs, 0);
  }

  /** What does not overrun fits. */
  lemma RoomForSecond(c: Config, unpack: Codec, n: Node, k: nat, name: string, d: Datum, e: Datum)
    requires Accounted(c, n) && k < n.numPeers && FitsBuffer(name, c.nameSize)
    requires GoodPair(c, d, e) && k < |n.slots| && !ProcessPacket(c, unpack, n, k, LinkPacket(name, [d, e])).overrun
    ensures var m := Named(n, k, name);
            && |d.hashes| + |e.hashes| <= c.maxResources
            && |ArrayMatches(m, k, [], d)| <= c.maxResources
            && (if d.provided == e.provided then |ArrayMatches(m, k, [], d)| else 0)
                 + |ArrayMatches(AfterArray(m, k, [], d), k, d.hashes, e)| <= c.maxResources
  {
    hide ProcessPacket, LinkPacket, Accounted, Filter, ListDigest, AfterArray, HasHash, Distinct;
    PartsOfTwo(d, e);
    TwoListsOverrun(c, unpack, n, k, name, d, e);
    AfterArrayMeans(Named(n, k, name), k, [], d, AppliedHashes(d.hashes, e));
  }

  function TrackedMatches(d: Datum, f1: seq<Hash>, e: Datum, f2: seq<Hash>): seq<Hash> {
    (if d.provided then f1 else []) + (if e.provided then f2 else [])
  }

  function ProvidedMatches(d: Datum, f1: seq<Hash>, e: Datum, f2: seq<Hash>): seq<Hash> {
    (if d.provided then [] else f1) + (if e.provided then [] else f2)
  }

  lemma TwoArraysExact(c: Config, n: Node, k: nat, d: Datum, e: Datum)
    requires Accounted(c, n) && k < n.numPeers && k < |n.slots| && GoodPair(c, d, e)
    requires |ArrayMatches(n, k, [], d)| <= c.maxResources
    requires (if d.provided == e.provided then |ArrayMatches(n, k, [], d)| else 0)
               + |ArrayMatches(AfterArray(n, k, [], d), k, d.hashes, e)| <= c.maxResources
    ensures var m := AfterArray(n, k, [], d);
            var f1, f2 := ArrayMatches(n, k, [], d), ArrayMatches(m, k, d.hashes, e);
            ApplyData(c, n, k, [d, e], EMPTY_SCRATCH, 0)
              == LinkOutcome(AfterArray(m, k, d.hashes, e), Reader([], true),
                             Scratch(d.hashes + e.hashes, TrackedMatches(d, f1, e, f2), ProvidedMatches(d, f1, e, f2), 2),
                             ArrayCode(m, k, d.hashes, e, ArrayCode(n, k, [], d, 0)), Good)
  {
    hide ApplyDatum, ApplyData, Accounted, DataTokens, AfterArray, ArrayMatches, ArrayCode, OnlySlot, Distinct;
    PartsOfTwo(d, e);
    TwoDataApplied(c, n, k, d, e);
    var r := Reader(DataTokens([e]), true);
    ArrayExact(c, n, k, d, r, EMPTY_SCRATCH, 0);
    ArrayKeeps(c, n, k, d, r, EMPTY_SCRATCH, 0);
    var o := ApplyDatum(c, n, k, d, r, EMPTY_SCRATCH, 0);
    OnlySlotShape(n, o.node, k);
    ArrayExact(c, o.node, k, e, Reader([], true), o.scratch, o.ret);
    var f1, f2 := ArrayMatches(n, k, [], d), ArrayMatches(o.node, k, d.hashes, e);
    assert [] + f1 == f1 && f1 + [] == f1 && [] + f2 == f2;
  }

  /** A packet with two lists that writes past no array: the first is applied with its hashes; the second with
      those of both if it is provided, and with as many from the first on as it has itself if it is tracked, and
      its digest is that of both. The reply lists all that matched, tracked before provided, reversed. */
  lemma TwoListsExact(c: Config, unpack: Codec, n: Node, k: nat, name: string, d: Datum, e: Datum)
    requires Accounted(c, n) && k < n.numPeers && FitsBuffer(name, c.nameSize)
    requires GoodPair(c, d, e) && k < |n.slots| && !ProcessPacket(c, unpack, n, k, LinkPacket(name, [d, e])).overrun
    ensures var m := Named(n, k, name);
            var m1 := AfterArray(m, k, [], d);
            var m2 := AfterArray(m1, k, d.hashes, e);
            var f1, f2 := ArrayMatches(m, k, [], d), ArrayMatches(m1, k, d.hashes, e);
            ProcessPacket(c, unpack, n, k, LinkPacket(name, [d, e]))
              == PacketOut(m2.(outgoing := ReplyPacket(n.name, TrackedMatches(d, f1, e, f2),
                                                       ProvidedMatches(d, f1, e, f2))),
                           Reader([], true),
                           ArrayCode(m1, k, d.hashes, e, ArrayCode(m, k, [], d, 0)), [], false)
  {
    hide ProcessPacket, LinkPacket, ApplyData, Accounted, DataTokens, AfterArray, ArrayMatches, ArrayCode, ReplyPacket,
      TrackedMatches, ProvidedMatches, Distinct;
    SetPeerKeeps(c, n, k, n.slots[k].(name := name));
    PartsOfTwo(d, e);
    RoomForSecond(c, unpack, n, k, name, d, e);
    LinkRoundTrip(c, unpack, n, k, name, [d, e]);
    TwoArraysExact(c, Named(n, k, name), k, d, e);
  }

  /** The return code of a packet with one list. */
  lemma OneListCode(c: Config, unpack: Codec, n: Node, k: nat, name: string, d: Datum)
    requires Accounted(c, n) && k < n.numPeers && k < |n.slots| && FitsBuffer(name, c.nameSize) && GoodList(c, d)
    ensures ProcessPacket(c, unpack, n, k, LinkPacket(name, [d])).ret
         == if Remembered(n.slots[k], d) == ListDigest(d.hashes) then 0
            else LastCode(Targets(n, d), d.hashes, Mentions(Targets(n, d), k))
  {
    hide ProcessPacket, LinkPacket, ApplyDatum, ApplyData, Accounted, Filter, ListDigest, LastCode, Mentions, HasHash;
    var m := Named(n, k, name);
    SetPeerKeeps(c, n, k, n.slots[k].(name := name));
    assert TotalHashes([d]) == |d.hashes| by {
      assert [d][1..] == [];
    }
    LinkRoundTrip(c, unpack, n, k, name, [d]);
    assert [] + d.hashes == d.hashes && AppliedHashes([], d) == d.hashes;
    ArrayExact(c, m, k, d, Reader([], true), EMPTY_SCRATCH, 0);
    OneDatumApplied(c, m, k, d);
  }

  // ---------- a group of many entries ----------

  datatype Entry = Entry(hash: Hash, blob: Blob)

  function EntryTokens(es: seq<Entry>): Packet {
    if es == [] then [] else [Uint(es[0].hash), Bin(es[0].blob)] + EntryTokens(es[1..])
  }

  function EntriesPacket(es: seq<Entry>): Packet {
    [Map(1), Uint(CONTENT_GROUP), Map(|es|)] + EntryTokens(es)
  }

  /** What an entry makes the trackers of a node be called with. */
  function DeliveryOf(unpack: Codec, n: Node, e: Entry): seq<Delivery> {
    var i := FindHash(n.trackers, e.hash);
    if i == |n.trackers| then []
    else match unpack(n.trackers[i].resource, e.blob)
      case None => []
      case Some(content) => [Delivery(n.trackers[i].callback, content)]
  }

  function DeliveriesOf(unpack: Codec, n: Node, es: seq<Entry>): seq<Delivery> {
    if es == [] then [] else DeliveryOf(unpack, n, es[0]) + DeliveriesOf(unpack, n, es[1..])
  }

  /** An entry that ends its group: one for a tracker that cannot unpack it, is full, or is not linked yet. */
  ghost predicate Stops(c: Config, unpack: Codec, n: Node, k: nat, e: Entry) {
    exists i :: 0 <= i < |n.trackers| && n.trackers[i].resource.hash == e.hash
                && (unpack(n.trackers[i].resource, e.blob) == None || |n.trackers[i].peers| >= c.maxPeers
                    || k !in n.trackers[i].peers)
  }

  lemma EntryEffect(c: Config, unpack: Codec, n: Node, k: nat, e: Entry)
    requires k < |n.slots| && UniqueHashes(n.trackers)
    ensures var (m, ret, delivered) := ProcessContentBlob(c, unpack, n, k, e.hash, e.blob);
            && delivered == DeliveryOf(unpack, n, e)
            && (ret != 0 <==> Stops(c, unpack, n, k, e))
            && (ret == 0 ==> m == n)
  {
    var i := FindHash(n.trackers, e.hash);
    if i < |n.trackers| {
      assert n.trackers[i].resource.hash == e.hash;
      assert n.trackers[i := n.trackers[i]] == n.trackers;
    }
  }

  lemma FirstEntry(c: Config, unpack: Codec, n: Node, k: nat, es: seq<Entry>)
    requires k < |n.slots| && es != [] && es[0].hash != 0 && es[0].blob != []
    ensures var (m, ret, delivered) := ProcessContentBlob(c, unpack, n, k, es[0].hash, es[0].blob);
            var r := Reader(EntryTokens(es[1..]), true);
            && |m.slots| == |n.slots|
            && ProcessContents(c, unpack, n, k, Reader(EntryTokens(es), true), |es|)
                 == if ret != 0 then ContentOut(m, r, ret, delivered)
                    else
                      var rest := ProcessContents(c, unpack, m, k, r, |es| - 1);
                      rest.(delivered := delivered + rest.delivered)
  {
    hide ProcessContentBlob;
    var p := EntryTokens(es);
    assert p[0] == Uint(es[0].hash) && p[1..][0] == Bin(es[0].blob) && p[1..][1..] == EntryTokens(es[1..]);
  }

  lemma NoEntries(c: Config, unpack: Codec, n: Node, k: nat)
    requires k < |n.slots|
    ensures ProcessContents(c, unpack, n, k, Reader(EntryTokens([]), true), 0) == ContentOut(n, Reader([], true), 0, [])
  {
  }

  /** The entries of a group are taken in order, each calling its tracker, up to the first that stops: what it does
      is all that changes, and the entries behind it are not even read. */
  lemma {:induction false} EntriesExact(c: Config, unpack: Codec, n: Node, k: nat, es: seq<Entry>) returns (j: nat)
    requires k < |n.slots| && UniqueHashes(n.trackers)
    requires forall i :: 0 <= i < |es| ==> es[i].hash != 0 && es[i].blob != []
    ensures j <= |es| && (forall i :: 0 <= i < j ==> !Stops(c, unpack, n, k, es[i]))
    ensures j < |es| ==> Stops(c, unpack, n, k, es[j])
    ensures var o := ProcessContents(c, unpack, n, k, Reader(EntryTokens(es), true), |es|);
            if j == |es| then o == ContentOut(n, Reader([], true), 0, DeliveriesOf(unpack, n, es))
            else
              var (m, ret, delivered) := ProcessContentBlob(c, unpack, n, k, es[j].hash, es[j].blob);
              o == ContentOut(m, Reader(EntryTokens(es[j + 1..]), true), ret,
                              DeliveriesOf(unpack, n, es[..j]) + DeliveryOf(unpack, n, es[j]))
    decreases |es|
  {
    hide ProcessContentBlob, ProcessContents, EntryTokens, Stops, DeliveryOf, UniqueHashes;
    j := 0;
    NoEntries(c, unpack, n, k);
    if es != [] {
      EntryEffect(c, unpack, n, k, es[0]);
      FirstEntry(c, unpack, n, k, es);
      if !Stops(c, unpack, n, k, es[0]) {
        var rest := EntriesExact(c, unpack, n, k, es[1..]);
        j := rest + 1;
        if j < |es| {
          assert es[..j][0] == es[0] && es[..j][1..] == es[1..][..rest] && es[1..][rest + 1..] == es[j + 1..];
        }
      }
    }
  }

  /** A packet of entries does what they do, and leaves the outgoing buffer empty. */
  lemma EntriesRoundTrip(c: Config, unpack: Codec, n: Node, k: nat, es: seq<Entry>)
    requires k < |n.slots| && |es| <= MAX_MAP_SIZE
    ensures var o := ProcessContents(c, unpack, n, k, Reader(EntryTokens(es), true), |es|);
            ProcessPacket(c, unpack, n, k, EntriesPacket(es))
              == PacketOut(o.node.(outgoing := []), o.reader, if o.reader.ok then o.ret else -1, o.delivered, false)
  {
    hide ProcessContents, EntryTokens;
    var p := EntriesPacket(es);
    assert p[1..][0] == Uint(CONTENT_GROUP) && p[1..][1..][0] == Map(|es|) && p[1..][1..][1..] == EntryTokens(es);
  }

  /** So a packet of entries is processed up to the first that stops, and not answered. */
  lemma ManyEntries(c: Config, unpack: Codec, n: Node, k: nat, es: seq<Entry>) returns (j: nat)
    requires k < |n.slots| && UniqueHashes(n.trackers) && |es| <= MAX_MAP_SIZE
    requires forall i :: 0 <= i < |es| ==> es[i].hash != 0 && es[i].blob != []
    ensures j <= |es| && (forall i :: 0 <= i < j ==> !Stops(c, unpack, n, k, es[i]))
    ensures j < |es| ==> Stops(c, unpack, n, k, es[j])
    ensures var o := ProcessPacket(c, unpack, n, k, EntriesPacket(es));
            if j == |es| then
              o == PacketOut(n.(outgoing := []), Reader([], true), 0, DeliveriesOf(unpack, n, es), false)
            else
              var (m, ret, delivered) := ProcessContentBlob(c, unpack, n, k, es[j].hash, es[j].blob);
              o == PacketOut(m.(outgoing := []), Reader(EntryTokens(es[j + 1..]), true), ret,
                             DeliveriesOf(unpack, n, es[..j]) + DeliveryOf(unpack, n, es[j]), false)
  {
    hide ProcessContentBlob, ProcessContents, ProcessPacket, EntryTokens, Stops, DeliveryOf, UniqueHashes;
    j := EntriesExact(c, unpack, n, k, es);
    EntriesRoundTrip(c, unpack, n, k, es);
  }
}
