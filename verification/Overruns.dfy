/** When a link packet would make its receiver write past the arrays of link group processing, which hold as
    many hashes as there may be resources. */
module Overruns {
  import opened HashList
  import opened Sequences
  import opened Tokens
  import opened Tables
  import opened Links
  import opened Relink
  import opened Protocol
  import opened Accounting
  import opened RoundTrip
  import opened Exchange

  // ---------- the array of matches ----------

  /** Gathering matches overruns an array exactly when an array with room for all would end up with more
      matches than it holds. */
  lemma {:induction false} MatchesOverrun(es: seq<Endpoint>, k: nat, hs: seq<Hash>, max: nat, capacity: nat, room: nat,
                                          matched: seq<Hash>, ret: int)
    requires |matched| <= capacity && |matched| + |hs| <= room
    ensures |matched| <= |LinkHashes(es, k, hs, max, room, matched, ret).matched| <= |matched| + |hs|
    ensures LinkHashes(es, k, hs, max, capacity, matched, ret).status == Overrun <==>
              |LinkHashes(es, k, hs, max, room, matched, ret).matched| > capacity
    decreases |hs|
  {
    hide LinkMatching;
    if hs != [] {
      var m := LinkMatching(es, k, hs[0], max);
      if !m.failed {
        var matched' := if m.links > 0 then matched + [hs[0]] else matched;
        if m.links > 0 && |matched| >= capacity {
          MatchesOnlyGrow(m.es, k, hs[1..], max, room, matched', m.links);
        } else {
          MatchesOverrun(m.es, k, hs[1..], max, capacity, room, matched', m.links);
        }
      }
    }
  }

  lemma {:induction false} MatchesOnlyGrow(es: seq<Endpoint>, k: nat, hs: seq<Hash>, max: nat, room: nat,
                                           matched: seq<Hash>, ret: int)
    ensures |matched| <= |LinkHashes(es, k, hs, max, room, matched, ret).matched| <= |matched| + |hs|
    decreases |hs|
  {
    hide LinkMatching;
    if hs != [] {
      var m := LinkMatching(es, k, hs[0], max);
      if !m.failed && !(m.links > 0 && |matched| >= room) {
        MatchesOnlyGrow(m.es, k, hs[1..], max, room, if m.links > 0 then matched + [hs[0]] else matched, m.links);
      }
    }
  }

  /** Relinking with a list without repetitions overruns exactly when its matches and those before are too
      many. */
  lemma RelinkOverruns(es: seq<Endpoint>, k: nat, hs: seq<Hash>, max: nat, capacity: nat, matched: seq<Hash>, ret: int,
                       limit: nat)
    requires EndpointsOk(es, limit) && k < limit <= max
    requires UniqueHashes(es) && Distinct(hs) && |matched| <= capacity
    ensures LinkHashes(UnlinkAll(es, k).0, k, hs, max, capacity, matched, ret).status == Overrun <==>
              |matched| + |Filter(hs, HashOf(es))| > capacity
  {
    hide UnlinkAll, LinkHashes, Filter, AllLinked, Mentions, EndpointsOk, Distinct, UniqueHashes, HasHash, SameButPeers,
      LastCode;
    var fs := UnlinkAll(es, k).0;
    UnlinkAllEffect(es, k, limit);
    UnlinkMakesRoom(es, k, max, limit);
    SameHashes(es, fs, hs, ret);
    NoneLinked(fs, k);
    LinkHashesExact(fs, k, [], hs, max, |matched| + |hs|, matched, ret);
    MatchesOverrun(fs, k, hs, max, capacity, |matched| + |hs|, matched, ret);
  }

  // ---------- one array ----------

  /** The matches gathered for the kind of list in d. */
  function MatchedOf(s: Scratch, d: Datum): seq<Hash> {
    if d.provided then s.tracked else s.provided
  }

  /** The hashes an array is applied with: all that were read when it is provided, and as many of them as it
      has itself when it is tracked. */
  function AppliedHashes(before: seq<Hash>, d: Datum): seq<Hash> {
    if d.provided then before + d.hashes else (before + d.hashes)[..|d.hashes|]
  }

  lemma DatumOverruns(c: Config, n: Node, k: nat, d: Datum, r: Reader, s: Scratch, ret: int)
    requires Accounted(c, n) && k < n.numPeers && Distinct(s.hashes + d.hashes) && |MatchedOf(s, d)| <= c.maxResources
    ensures Shaped(c, n)
    ensures ApplyDatum(c, n, k, d, r, s, ret).status == Overrun <==>
              Remembered(n.slots[k], d) != ListDigest(s.hashes + d.hashes)
              && |MatchedOf(s, d)| + |Filter(AppliedHashes(s.hashes, d), HashOf(Targets(n, d)))| > c.maxResources
  {
    hide UnlinkAll, LinkHashes, Filter, Mentions, EndpointsOk, UniqueHashes, HasHash, ListDigest;
    var es := Targets(n, d);
    DistinctStart(s.hashes + d.hashes, |d.hashes|);
    RelinkOverruns(es, k, AppliedHashes(s.hashes, d), c.maxPeers, c.maxResources, MatchedOf(s, d), UnlinkAll(es, k).1,
                   n.numPeers);
  }

  /** Where nothing has matched yet there is room for all the hashes read, with repetitions or without. */
  lemma NoMatchesNoOverrun(c: Config, n: Node, k: nat, d: Datum, r: Reader, s: Scratch, ret: int)
    requires k < |n.slots| && MatchedOf(s, d) == [] && |s.hashes| + |d.hashes| <= c.maxResources
    ensures ApplyDatum(c, n, k, d, r, s, ret).status != Overrun
  {
    hide UnlinkAll, LinkHashes, ListDigest;
    var (es, u) := UnlinkAll(Targets(n, d), k);
    var hs := AppliedHashes(s.hashes, d);
    MatchesOverrun(es, k, hs, c.maxPeers, c.maxResources, |hs|, [], u);
  }

  lemma DistinctStart(hs: seq<Hash>, m: nat)
    requires Distinct(hs) && m <= |hs|
    ensures Distinct(hs[..m])
  {
  }

  /** The first array of a group. */
  lemma FirstDatum(c: Config, n: Node, k: nat, d: Datum, r: Reader)
    requires Accounted(c, n) && k < n.numPeers && GoodList(c, d)
    ensures Shaped(c, n)
    ensures var o := ApplyDatum(c, n, k, d, r, EMPTY_SCRATCH, 0);
            var found := if Remembered(n.slots[k], d) == ListDigest(d.hashes) then []
                         else Filter(d.hashes, HashOf(Targets(n, d)));
            && o.status == Good && o.reader == r && Accounted(c, o.node) && o.node.numPeers == n.numPeers
            && |o.node.slots| == |n.slots|
            && o.scratch.hashes == d.hashes
            && o.scratch.tracked == (if d.provided then found else [])
            && o.scratch.provided == (if d.provided then [] else found)
            && Remembered(o.node.slots[k], d) == ListDigest(d.hashes)
            && SameButPeers(n.trackers, o.node.trackers) && SameButPeers(n.providers, o.node.providers)
  {
    hide UnlinkAll, LinkHashes, Filter, Mentions, ListDigest, Accounted, RelinkAll, SameButPeers, AddLinks;
    assert [] + d.hashes == d.hashes && d.hashes[..|d.hashes|] == d.hashes;
    LinkCountOf(c, n, k);
    TargetsRelink(c, n, k, d);
    var s := Scratch(d.hashes, [], [], 1);
    if d.provided {
      ApplyProvidedKeeps(c, n, k, r, s, 0);
    } else {
      ApplyTrackedKeeps(c, n, k, r, s, 0, |d.hashes|);
    }
  }

  // ---------- reading ----------

  lemma {:induction false} ReadOverruns(hs: seq<Hash>, rest: Packet, acc: seq<Hash>, capacity: nat)
    requires 0 !in hs && |acc| <= capacity < |acc| + |hs|
    ensures ReadHashes(Reader(HashTokens(hs) + rest, true), |hs|, acc, capacity).status == Overrun
    decreases |hs|
  {
    var p := HashTokens(hs) + rest;
    assert p[0] == Uint(hs[0]) && p[1..] == HashTokens(hs[1..]) + rest;
    if |acc| < capacity {
      ReadOverruns(hs[1..], rest, acc + [hs[0]], capacity);
    }
  }

  lemma ArrayOverruns(c: Config, n: Node, k: nat, d: Datum, rest: Packet, s: Scratch, ret: int)
    requires k < |n.slots| && GoodDatum(c, d) && |s.hashes| <= c.maxResources < |s.hashes| + |d.hashes|
    ensures ProcessDatum(c, n, k, Reader(DatumTokens(d) + rest, true), s, ret).status == Overrun
  {
    hide ApplyProvided, ApplyTracked, ReadHashes;
    var p := DatumTokens(d) + rest;
    assert p[0] == Uint(if d.provided then PROVIDED_ARRAY else TRACKED_ARRAY);
    assert p[1..][0] == Array(|d.hashes|);
    assert p[1..][1..] == HashTokens(d.hashes) + rest;
    ReadOverruns(d.hashes, rest, s.hashes, c.maxResources);
  }

  // ---------- packets ----------

  lemma ProcessTwo(c: Config, n: Node, k: nat, r: Reader)
    requires k < |n.slots|
    ensures var o := ProcessDatum(c, n, k, r, EMPTY_SCRATCH, 0);
            ProcessData(c, n, k, r, EMPTY_SCRATCH, 0, 2).status
              == if o.status != Good then o.status
                 else ProcessDatum(c, o.node, k, o.reader, o.scratch, o.ret).status
  {
    hide ProcessDatum;
  }

  lemma PacketIsGroup(c: Config, unpack: Codec, n: Node, k: nat, q: Packet)
    requires k < |n.slots|
    ensures ProcessPacket(c, unpack, n, k, [Map(1), Uint(LINK_GROUP)] + q).overrun <==>
              ProcessLinkGroup(c, n, k, Reader(q, true)).status == Overrun
  {
    hide ProcessLinkGroup, LinkReply, ProcessContentGroup;
    var p := [Map(1), Uint(LINK_GROUP)] + q;
    assert p[0] == Map(1) && p[1..][0] == Uint(LINK_GROUP) && p[1..][1..] == q;
  }

  /** A link packet overruns exactly when its arrays do. */
  lemma PacketOfGroup(c: Config, unpack: Codec, n: Node, k: nat, name: string, data: seq<Datum>)
    requires k < |n.slots| && FitsBuffer(name, c.nameSize) && |data| <= 2
    ensures ProcessPacket(c, unpack, n, k, LinkPacket(name, data)).overrun <==>
              ProcessData(c, Named(n, k, name), k, Reader(DataTokens(data), true), EMPTY_SCRATCH, 0, |data|).status
                == Overrun
  {
    hide ProcessData, DataTokens, ProcessPacket;
    var t := DataTokens(data);
    var q := [Map(|data| + 1), Uint(NODE_NAME), Str(name)] + t;
    assert LinkPacket(name, data) == [Map(1), Uint(LINK_GROUP)] + q;
    assert q[1..] == [Uint(NODE_NAME), Str(name)] + t;
    PacketIsGroup(c, unpack, n, k, q);
    NameFirst(c, n, k, name, t, |data|);
  }

  /** One list, with repetitions or without, never overruns. */
  lemma OneListNeverOverruns(c: Config, unpack: Codec, n: Node, k: nat, name: string, d: Datum)
    requires k < |n.slots| && FitsBuffer(name, c.nameSize) && GoodDatum(c, d)
    ensures !ProcessPacket(c, unpack, n, k, LinkPacket(name, [d])).overrun
  {
    hide ProcessPacket, LinkPacket, LinkHashes, UnlinkAll, ListDigest, DatumTokens;
    PacketOfGroup(c, unpack, n, k, name, [d]);
    var m := Named(n, k, name);
    OneDatum(d);
    assert DatumTokens(d) + [] == DatumTokens(d);
    DatumRoundTrip(c, m, k, d, [], EMPTY_SCRATCH, 0);
    assert [] + d.hashes == d.hashes && d.hashes[..|d.hashes|] == d.hashes;
    var (es, u) := UnlinkAll(Targets(m, d), k);
    MatchesOverrun(es, k, d.hashes, c.maxPeers, c.maxResources, |d.hashes|, [], u);
  }

  /** A packet with two lists overruns exactly when together they are longer than the array they share; or
      when they are of one kind, the second changes the digest, and the hashes that match, those of the first
      counted once for each time they are applied, are more than an array holds. Hashes may not repeat in the
      first list, nor in both if they are of one kind. */
  lemma TwoListsOverrun(c: Config, unpack: Codec, n: Node, k: nat, name: string, d: Datum, e: Datum)
    requires Accounted(c, n) && k < n.numPeers && FitsBuffer(name, c.nameSize)
    requires GoodList(c, d) && GoodDatum(c, e) && (d.provided == e.provided ==> Distinct(d.hashes + e.hashes))
    ensures Shaped(c, n)
    ensures var es := Targets(n, d);
            var first := if Remembered(n.slots[k], d) == ListDigest(d.hashes) then 0 else |Filter(d.hashes, HashOf(es))|;
            ProcessPacket(c, unpack, n, k, LinkPacket(name, [d, e])).overrun <==>
              || |d.hashes| + |e.hashes| > c.maxResources
              || (d.provided == e.provided && ListDigest(d.hashes + e.hashes) != ListDigest(d.hashes)
                  && first + |Filter(AppliedHashes(d.hashes, e), HashOf(es))| > c.maxResources)
  {
    hide ProcessPacket, LinkPacket, ProcessDatum, ProcessData, ApplyDatum, Accounted, Filter, ListDigest, DatumTokens,
      SameButPeers, HasHash;
    LinkCountOf(c, n, k);
    PacketOfGroup(c, unpack, n, k, name, [d, e]);
    var m := Named(n, k, name);
    SetPeerKeeps(c, n, k, n.slots[k].(name := name));
    TwoData(d, e);
    ProcessTwo(c, m, k, Reader(DatumTokens(d) + DatumTokens(e), true));
    DatumRoundTrip(c, m, k, d, DatumTokens(e), EMPTY_SCRATCH, 0);
    var r := Reader(DatumTokens(e), true);
    assert [] + d.hashes == d.hashes && DatumTokens(e) + [] == DatumTokens(e);
    FirstDatum(c, m, k, d, r);
    var o := ApplyDatum(c, m, k, d, r, EMPTY_SCRATCH, 0);
    SameHashes(m.trackers, o.node.trackers, AppliedHashes(d.hashes, e), 0);
    SameHashes(m.providers, o.node.providers, AppliedHashes(d.hashes, e), 0);
    if |d.hashes| + |e.hashes| > c.maxResources {
      ArrayOverruns(c, o.node, k, e, [], o.scratch, o.ret);
    } else {
      DatumRoundTrip(c, o.node, k, e, [], o.scratch, o.ret);
      if d.provided == e.provided {
        DatumOverruns(c, o.node, k, e, Reader([], true), o.scratch, o.ret);
      } else {
        NoMatchesNoOverrun(c, o.node, k, e, Reader([], true), o.scratch, o.ret);
      }
    }
  }
}
