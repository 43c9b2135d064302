/** What one link packet with one array does to a node, exactly. */
module Exchange {
  import opened HashList
  import opened Sequences
  import opened Tokens
  import opened Tables
  import opened Links
  import opened Relink
  import opened Protocol
  import opened Accounting
  import opened RoundTrip

  function RelinkAll(es: seq<Endpoint>, k: nat, hs: seq<Hash>): (r: seq<Endpoint>)
    ensures |r| == |es|
  {
    seq(|es|, i requires 0 <= i < |es| => Relinked(es[i], k, hs))
  }

  /** The peer record after a list was applied. */
  function Updated(p: Peer, name: string, d: Datum, links: int): Peer {
    if d.provided then p.(name := name, providedDigest := ListDigest(d.hashes), numLinks := links)
    else p.(name := name, trackedDigest := ListDigest(d.hashes), numLinks := links)
  }

  /** The digest remembered for the kind of list in d. */
  function Remembered(p: Peer, d: Datum): Hash {
    if d.provided then p.providedDigest else p.trackedDigest
  }

  /** The endpoints a list relinks: trackers to what a peer provides, providers to what it tracks. */
  function Targets(n: Node, d: Datum): seq<Endpoint> {
    if d.provided then n.trackers else n.providers
  }

  function WithTargets(n: Node, d: Datum, es: seq<Endpoint>): Node {
    if d.provided then n.(trackers := es) else n.(providers := es)
  }

  /** The node after a link packet with one array. */
  function Applied(n: Node, k: nat, name: string, d: Datum): Node
    requires k < |n.slots|
  {
    if Remembered(n.slots[k], d) == ListDigest(d.hashes) then
      SetPeer(n, k, n.slots[k].(name := name)).(outgoing := [])
    else
      var es := Targets(n, d);
      var m := WithTargets(n, d, RelinkAll(es, k, d.hashes));
      var found := Filter(d.hashes, HashOf(es));
      SetPeer(m, k, Updated(n.slots[k], name, d, Mentions(m.trackers, k) + Mentions(m.providers, k)))
        .(outgoing := if d.provided then ReplyPacket(n.name, found, []) else ReplyPacket(n.name, [], found))
  }

  ghost predicate GoodList(c: Config, d: Datum) {
    GoodDatum(c, d) && Distinct(d.hashes)
  }

  lemma RelinkOutcome(c: Config, es: seq<Endpoint>, k: nat, hs: seq<Hash>, limit: nat)
    requires EndpointsOk(es, limit) && UniqueHashes(es) && k < limit <= c.maxPeers
    requires Distinct(hs) && |hs| <= c.maxResources
    ensures var (fs, u) := UnlinkAll(es, k);
            var o := LinkHashes(fs, k, hs, c.maxPeers, c.maxResources, [], u);
            && o.status == Good && o.ret >= 0
            && o.es == RelinkAll(es, k, hs)
            && o.matched == Filter(hs, HashOf(es))
            && Mentions(o.es, k) - Mentions(es, k) == o.links - u
  {
    hide LinkHashes, UnlinkAll, Mentions, EndpointsOk, UniqueHashes, Filter, Relinked;
    var (fs, u) := UnlinkAll(es, k);
    RelinkExact(es, k, hs, c.maxPeers, c.maxResources, [], u, limit);
    assert [] + Filter(hs, HashOf(es)) == Filter(hs, HashOf(es));
    RelinkGains(es, k, hs, c.maxPeers, c.maxResources, [], limit);
  }

  lemma TargetsRelink(c: Config, n: Node, k: nat, d: Datum)
    requires Accounted(c, n) && k < n.numPeers && GoodList(c, d)
    ensures var es := Targets(n, d);
            var (fs, u) := UnlinkAll(es, k);
            var o := LinkHashes(fs, k, d.hashes, c.maxPeers, c.maxResources, [], u);
            && o.status == Good && o.ret >= 0
            && o.es == RelinkAll(es, k, d.hashes)
            && o.matched == Filter(d.hashes, HashOf(es))
            && Mentions(o.es, k) - Mentions(es, k) == o.links - u
  {
    hide LinkHashes, UnlinkAll, Mentions, RelinkAll, Filter, EndpointsOk, UniqueHashes;
    RelinkOutcome(c, Targets(n, d), k, d.hashes, n.numPeers);
  }

  lemma LinkCountOf(c: Config, n: Node, k: nat)
    requires Accounted(c, n) && k < n.numPeers
    ensures Shaped(c, n) && n.slots[k].numLinks == Mentions(n.trackers, k) + Mentions(n.providers, k)
  {
  }

  lemma ApplySame(c: Config, n: Node, k: nat, d: Datum)
    requires k < |n.slots| && Remembered(n.slots[k], d) == ListDigest(d.hashes)
    ensures var o := ApplyDatum(c, n, k, d, Reader([], true), EMPTY_SCRATCH, 0);
            && o.status == Good && o.ret >= 0
            && o.node.(outgoing := LinkReply(n.name, o)) == Applied(n, k, n.slots[k].name, d)
  {
    hide LinkHashes, UnlinkAll, Mentions, ListDigest, RelinkAll, Filter;
    assert [] + d.hashes == d.hashes;
    assert SetPeer(n, k, n.slots[k]) == n;
  }

  lemma SetTwice(s: seq<Peer>, k: nat, d: int, p: Peer)
    requires k < |s|
    ensures AddLinks(s, k, d)[k := p] == s[k := p]
    ensures AddLinks(s, k, d)[k] == s[k].(numLinks := s[k].numLinks + d)
  {
  }

  /** Applying a provided list whose digest is new, in terms of what relinking does. */
  lemma ProvidedOutcome(c: Config, n: Node, k: nat, hs: seq<Hash>, fs: seq<Endpoint>, u: nat, o: RelinkOut)
    requires k < |n.slots| && n.slots[k].providedDigest != ListDigest(hs)
    requires (fs, u) == UnlinkAll(n.trackers, k)
    requires o == LinkHashes(fs, k, hs, c.maxPeers, c.maxResources, [], u) && o.status == Good
    ensures ApplyDatum(c, n, k, Datum(true, hs), Reader([], true), EMPTY_SCRATCH, 0)
         == LinkOutcome(
              n.(trackers := o.es,
                 slots := n.slots[k := Updated(n.slots[k], n.slots[k].name, Datum(true, hs),
                                               n.slots[k].numLinks + o.links - u)]),
              Reader([], true), Scratch(hs, o.matched, [], 1), o.ret, Good)
  {
    hide LinkHashes, UnlinkAll, ListDigest, AddLinks;
    assert [] + hs == hs;
    SetTwice(n.slots, k, o.links - u,
             Updated(n.slots[k], n.slots[k].name, Datum(true, hs), n.slots[k].numLinks + o.links - u));
  }

  lemma TrackedOutcome(c: Config, n: Node, k: nat, hs: seq<Hash>, fs: seq<Endpoint>, u: nat, o: RelinkOut)
    requires k < |n.slots| && n.slots[k].trackedDigest != ListDigest(hs)
    requires (fs, u) == UnlinkAll(n.providers, k)
    requires o == LinkHashes(fs, k, hs, c.maxPeers, c.maxResources, [], u) && o.status == Good
    ensures ApplyDatum(c, n, k, Datum(false, hs), Reader([], true), EMPTY_SCRATCH, 0)
         == LinkOutcome(
              n.(providers := o.es,
                 slots := n.slots[k := Updated(n.slots[k], n.slots[k].name, Datum(false, hs),
                                               n.slots[k].numLinks + o.links - u)]),
              Reader([], true), Scratch(hs, [], o.matched, 1), o.ret, Good)
  {
    hide LinkHashes, UnlinkAll, ListDigest, AddLinks;
    assert [] + hs == hs && hs[..|hs|] == hs;
    SetTwice(n.slots, k, o.links - u,
             Updated(n.slots[k], n.slots[k].name, Datum(false, hs), n.slots[k].numLinks + o.links - u));
  }

  lemma AppliedProvided(n: Node, k: nat, hs: seq<Hash>, o: LinkOutcome, ts: seq<Endpoint>, found: seq<Hash>, links: int)
    requires k < |n.slots| && n.slots[k].providedDigest != ListDigest(hs)
    requires ts == RelinkAll(n.trackers, k, hs) && found == Filter(hs, HashOf(n.trackers))
    requires links == Mentions(ts, k) + Mentions(n.providers, k)
    requires o.status == Good && o.scratch == Scratch(hs, found, [], 1)
    requires o.node == n.(trackers := ts,
                             slots := n.slots[k := Updated(n.slots[k], n.slots[k].name, Datum(true, hs), links)])
    ensures o.node.(outgoing := LinkReply(n.name, o)) == Applied(n, k, n.slots[k].name, Datum(true, hs))
  {
    hide ListDigest, RelinkAll, Filter, Mentions, ReplyPacket;
  }

  lemma AppliedTracked(n: Node, k: nat, hs: seq<Hash>, o: LinkOutcome, ps: seq<Endpoint>, found: seq<Hash>, links: int)
    requires k < |n.slots| && n.slots[k].trackedDigest != ListDigest(hs)
    requires ps == RelinkAll(n.providers, k, hs) && found == Filter(hs, HashOf(n.providers))
    requires links == Mentions(n.trackers, k) + Mentions(ps, k)
    requires o.status == Good && o.scratch == Scratch(hs, [], found, 1)
    requires o.node == n.(providers := ps,
                             slots := n.slots[k := Updated(n.slots[k], n.slots[k].name, Datum(false, hs), links)])
    ensures o.node.(outgoing := LinkReply(n.name, o)) == Applied(n, k, n.slots[k].name, Datum(false, hs))
  {
    hide ListDigest, RelinkAll, Filter, Mentions, ReplyPacket;
  }

  lemma ApplyNewProvided(c: Config, n: Node, k: nat, hs: seq<Hash>)
    requires Accounted(c, n) && k < n.numPeers && GoodList(c, Datum(true, hs))
    requires n.slots[k].providedDigest != ListDigest(hs)
    ensures var d := Datum(true, hs);
            var o := ApplyDatum(c, n, k, d, Reader([], true), EMPTY_SCRATCH, 0);
            && o.status == Good && o.ret >= 0
            && o.node.(outgoing := LinkReply(n.name, o)) == Applied(n, k, n.slots[k].name, d)
  {
    hide Accounted, LinkHashes, UnlinkAll, Mentions, ListDigest, RelinkAll, Filter, LinkReply, ApplyDatum, GoodList, Applied,
      Updated;
    var d := Datum(true, hs);
    TargetsRelink(c, n, k, d);
    LinkCountOf(c, n, k);
    var (fs, u) := UnlinkAll(n.trackers, k);
    var o := LinkHashes(fs, k, hs, c.maxPeers, c.maxResources, [], u);
    ProvidedOutcome(c, n, k, hs, fs, u, o);
    AppliedProvided(n, k, hs, ApplyDatum(c, n, k, d, Reader([], true), EMPTY_SCRATCH, 0), o.es, o.matched,
              n.slots[k].numLinks + o.links - u);
  }

  lemma ApplyNewTracked(c: Config, n: Node, k: nat, hs: seq<Hash>)
    requires Accounted(c, n) && k < n.numPeers && GoodList(c, Datum(false, hs))
    requires n.slots[k].trackedDigest != ListDigest(hs)
    ensures var d := Datum(false, hs);
            var o := ApplyDatum(c, n, k, d, Reader([], true), EMPTY_SCRATCH, 0);
            && o.status == Good && o.ret >= 0
            && o.node.(outgoing := LinkReply(n.name, o)) == Applied(n, k, n.slots[k].name, d)
  {
    hide Accounted, LinkHashes, UnlinkAll, Mentions, ListDigest, RelinkAll, Filter, LinkReply, ApplyDatum, GoodList, Applied,
      Updated;
    var d := Datum(false, hs);
    TargetsRelink(c, n, k, d);
    LinkCountOf(c, n, k);
    var (fs, u) := UnlinkAll(n.providers, k);
    var o := LinkHashes(fs, k, hs, c.maxPeers, c.maxResources, [], u);
    TrackedOutcome(c, n, k, hs, fs, u, o);
    AppliedTracked(n, k, hs, ApplyDatum(c, n, k, d, Reader([], true), EMPTY_SCRATCH, 0), o.es, o.matched,
              n.slots[k].numLinks + o.links - u);
  }

  lemma ApplyExact(c: Config, n: Node, k: nat, d: Datum)
    requires Accounted(c, n) && k < n.numPeers && GoodList(c, d)
    ensures Shaped(c, n)
    ensures var o := ApplyDatum(c, n, k, d, Reader([], true), EMPTY_SCRATCH, 0);
            && o.status == Good && o.ret >= 0
            && o.node.(outgoing := LinkReply(n.name, o)) == Applied(n, k, n.slots[k].name, d)
  {
    LinkCountOf(c, n, k);
    hide Accounted, ApplyDatum, Applied, ListDigest, GoodList;
    if Remembered(n.slots[k], d) == ListDigest(d.hashes) {
      ApplySame(c, n, k, d);
    } else if d.provided {
      ApplyNewProvided(c, n, k, d.hashes);
    } else {
      ApplyNewTracked(c, n, k, d.hashes);
    }
  }

  // ---------- the packet ----------

  function Named(n: Node, k: nat, name: string): Node
    requires k < |n.slots|
  {
    SetPeer(n, k, n.slots[k].(name := name))
  }

  lemma NamedApplied(n: Node, k: nat, name: string, d: Datum)
    requires k < |n.slots|
    ensures Applied(Named(n, k, name), k, name, d) == Applied(n, k, name, d)
  {
    hide ListDigest, RelinkAll, Filter, Mentions, ReplyPacket;
    var p := n.slots[k];
    var es := Targets(n, d);
    var m := WithTargets(n, d, RelinkAll(es, k, d.hashes));
    var q := Updated(p, name, d, Mentions(m.trackers, k) + Mentions(m.providers, k));
    assert n.slots[k := p.(name := name)][k := q] == n.slots[k := q];
    assert n.slots[k := p.(name := name)][k := p.(name := name)] == n.slots[k := p.(name := name)];
  }

  lemma OneDatumApplied(c: Config, n: Node, k: nat, d: Datum)
    requires k < |n.slots|
    ensures ApplyDatum(c, n, k, d, Reader([], true), EMPTY_SCRATCH, 0).status == Good ==>
              ApplyData(c, n, k, [d], EMPTY_SCRATCH, 0) == ApplyDatum(c, n, k, d, Reader([], true), EMPTY_SCRATCH, 0)
  {
    hide ApplyDatum;
    assert [d][1..] == [];
    ApplyDatumScratch(c, n, k, d, Reader([], true), EMPTY_SCRATCH, 0);
  }

  /** A packet with one list without repetitions: its sender ends up linked to exactly the endpoints
      whose hash is in the list, everybody else's links stay as they were, and the reply holds exactly
      the hashes that matched. A list with the remembered digest changes nothing and has no reply. */
  lemma LinkPacketExact(c: Config, unpack: Codec, n: Node, k: nat, name: string, d: Datum)
    requires Accounted(c, n) && k < n.numPeers && GoodList(c, d) && FitsBuffer(name, c.nameSize)
    ensures Shaped(c, n)
    ensures var o := ProcessPacket(c, unpack, n, k, LinkPacket(name, [d]));
            && o.node == Applied(n, k, name, d)
            && o.ret >= 0 && o.reader == Reader([], true) && o.delivered == [] && !o.overrun
  {
    hide Accounted, ApplyDatum, ApplyData, Applied, LinkReply, ProcessPacket, LinkPacket;
    LinkCountOf(c, n, k);
    var named := Named(n, k, name);
    SetPeerKeeps(c, n, k, n.slots[k].(name := name));
    assert TotalHashes([d]) == |d.hashes| by {
      assert [d][1..] == [];
    }
    LinkRoundTrip(c, unpack, n, k, name, [d]);
    ApplyExact(c, named, k, d);
    OneDatumApplied(c, named, k, d);
    NamedApplied(n, k, name, d);
  }

  /** The reply to a list: what matched, reversed, as a list of the other kind; nothing if nothing matched. */
  lemma ReplyIsLinkPacket(n: Node, k: nat, name: string, d: Datum)
    requires k < |n.slots|
    ensures var found := Filter(d.hashes, HashOf(Targets(n, d)));
            Applied(n, k, name, d).outgoing
              == if Remembered(n.slots[k], d) == ListDigest(d.hashes) || found == [] then []
                 else LinkPacket(n.name, [Datum(!d.provided, Reverse(found))])
  {
    hide ListDigest, RelinkAll, Filter, Mentions, Reverse, ReplyPacket, LinkPacket;
    var found := Filter(d.hashes, HashOf(Targets(n, d)));
    WritersWriteLinkPackets(n.name, found, []);
    WritersWriteLinkPackets(n.name, [], found);
    assert ReplyData(found, []) == if found == [] then [] else [Datum(false, Reverse(found))];
    assert ReplyData([], found) == if found == [] then [] else [Datum(true, Reverse(found))];
  }
}
