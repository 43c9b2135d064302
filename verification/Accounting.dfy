/** The link accounting of a node, and that packet processing keeps it. */
module Accounting {
  import opened Time
  import opened HashList
  import opened Sequences
  import opened Tokens
  import opened Tables
  import opened Links
  import opened Protocol

  ghost predicate AddressesDistinct(slots: seq<Peer>, num: nat)
    requires num <= |slots|
  {
    forall i, j :: 0 <= i < j < num ==> slots[i].address != slots[j].address
  }

  ghost predicate LinksCounted(slots: seq<Peer>, num: nat, ts: seq<Endpoint>, ps: seq<Endpoint>)
    requires num <= |slots|
  {
    forall k :: 0 <= k < num ==> slots[k].numLinks == Mentions(ts, k) + Mentions(ps, k)
  }

  /** Endpoints name live slots, none twice; each peer's link count is the number of endpoints that
      name it; peers have different addresses, trackers different hashes, providers too. */
  ghost predicate Accounted(c: Config, n: Node) {
    && Shaped(c, n)
    && EndpointsOk(n.trackers, n.numPeers) && EndpointsOk(n.providers, n.numPeers)
    && LinksCounted(n.slots, n.numPeers, n.trackers, n.providers)
    && AddressesDistinct(n.slots, n.numPeers)
    && UniqueHashes(n.trackers) && UniqueHashes(n.providers)
    && |n.trackers| <= c.maxTrackers && |n.providers| <= c.maxProviders
  }

  ghost predicate SamePeerTimes(p: Peer, q: Peer) {
    p.address == q.address && p.alive == q.alive && p.nextRemote == q.nextRemote && p.nextLocal == q.nextLocal
  }

  /** Only slot k differs, in its name, digests and link count, and where the endpoints name it. */
  ghost predicate OnlySlot(n: Node, m: Node, k: nat)
    requires k < |n.slots|
  {
    && m.name == n.name && m.address == n.address && m.numPeers == n.numPeers
    && |m.slots| == |n.slots|
    && (forall j :: 0 <= j < |n.slots| && j != k ==> m.slots[j] == n.slots[j])
    && SamePeerTimes(n.slots[k], m.slots[k])
    && SameOthers(n.trackers, m.trackers, k) && SameOthers(n.providers, m.providers, k)
  }

  lemma OnlySlotTrans(a: Node, b: Node, d: Node, k: nat)
    requires k < |a.slots| && |b.slots| == |a.slots|
    requires OnlySlot(a, b, k) && OnlySlot(b, d, k)
    ensures OnlySlot(a, d, k)
  {
    SameOthersTrans(a.trackers, b.trackers, d.trackers, k);
    SameOthersTrans(a.providers, b.providers, d.providers, k);
  }

  lemma {:induction false} MentionsAbove(es: seq<Endpoint>, k: nat, limit: nat)
    requires EndpointsOk(es, limit) && k >= limit
    ensures Mentions(es, k) == 0
    decreases |es|
  {
    if es != [] {
      assert k !in es[0].peers;
      MentionsAbove(es[1..], k, limit);
    }
  }

  lemma {:induction false} MentionsConcat(es: seq<Endpoint>, fs: seq<Endpoint>, k: nat)
    ensures Mentions(es + fs, k) == Mentions(es, k) + Mentions(fs, k)
    decreases |es|
  {
    if es == [] {
      assert es + fs == fs;
    } else {
      assert (es + fs)[1..] == es[1..] + fs;
      MentionsConcat(es[1..], fs, k);
    }
  }

  lemma {:induction false} MentionsUpdate(es: seq<Endpoint>, i: nat, e: Endpoint, k: nat)
    requires i < |es|
    ensures Mentions(es[i := e], k) + (if k in es[i].peers then 1 else 0)
         == Mentions(es, k) + (if k in e.peers then 1 else 0)
    decreases |es|
  {
    if i > 0 {
      assert es[i := e][1..] == es[1..][i - 1 := e];
      MentionsUpdate(es[1..], i - 1, e, k);
    } else {
      assert es[i := e][1..] == es[1..];
    }
  }

  // ---------- where nodes start, and what adds to the tables ----------

  lemma EmptyNodeAccounted(c: Config, n: Node)
    requires |n.slots| == c.maxPeers && n.numPeers == 0 && n.trackers == [] && n.providers == []
    ensures Accounted(c, n)
  {
  }

  /** A known peer keeps its record but for the remote deadline; an unknown one gets a record of its own, with no
      name of its own yet, no local deadline, no digests and no links. Nothing else changes. */
  ghost predicate RegisteredAt(n: Node, m: Node, k: nat) {
    && k < |m.slots| == |n.slots| && m == n.(slots := m.slots, numPeers := m.numPeers)
    && if exists j: nat :: j < n.numPeers && j < |n.slots| && n.slots[j].address == m.slots[k].address then
         m.numPeers == n.numPeers && m.slots[k] == n.slots[k].(nextRemote := m.slots[k].nextRemote)
       else
         && k == n.numPeers && m.numPeers == n.numPeers + 1
         && m.slots[k] == Peer(m.slots[k].address, "anon", true, m.slots[k].nextRemote, Timespec(0, 0), 0, 0, 0)
  }

  lemma RegisterKeeps(c: Config, n: Node, address: Address, now: Timespec)
    requires Accounted(c, n)
    ensures var (m, slot) := Register(c, n, address, now);
            && Accounted(c, m)
            && (slot.None? <==> n.numPeers == c.maxPeers)
            && (slot.None? ==> m == n)
            && (slot.Some? ==>
                  && slot.value < m.numPeers && m.slots[slot.value].address == address
                  && m.slots[slot.value].nextRemote == Plus(now, c.LivelinessTimeout())
                  && (forall j :: 0 <= j < |n.slots| && j != slot.value ==> m.slots[j] == n.slots[j]))
            && (slot.Some? ==> RegisteredAt(n, m, slot.value))
  {
    if n.numPeers < c.maxPeers {
      var k := FindPeer(n.slots, n.numPeers, address);
      if k == n.numPeers {
        MentionsAbove(n.trackers, k, k);
        MentionsAbove(n.providers, k, k);
        EndpointsWiden(n.trackers, k);
        EndpointsWiden(n.providers, k);
      }
    }
  }

  lemma EndpointsWiden(es: seq<Endpoint>, limit: nat)
    requires EndpointsOk(es, limit)
    ensures EndpointsOk(es, limit + 1)
  {
  }

  /** Adding a tracker or a provider: the index of the one with that resource, which is new exactly
      when its hash is; a colliding hash changes nothing. */
  lemma AddEndpointKeeps(es: seq<Endpoint>, resource: Resource, callback: nat, limit: nat)
    requires EndpointsOk(es, limit) && UniqueHashes(es)
    ensures var (fs, r) := AddEndpoint(es, resource, callback);
            && EndpointsOk(fs, limit) && UniqueHashes(fs)
            && |fs| == (if HasHash(es, resource.hash) then |es| else |es| + 1)
            && (forall i :: 0 <= i < |es| ==> fs[i].resource == es[i].resource && fs[i].peers == es[i].peers)
            && (r.Some? ==> r.value < |fs| && fs[r.value].resource == resource && fs[r.value].callback == callback)
            && (forall i :: 0 <= i < |es| && r != Some(i) ==> fs[i].callback == es[i].callback)
            && (r.Some? && r.value == |es| ==> fs[r.value].peers == [])
            && (r.None? <==> exists i :: 0 <= i < |es| && es[i].resource.hash == resource.hash && es[i].resource != resource)
            && (r.None? ==> fs == es)
  {
    hide Distinct, Below;
    var i := FindHash(es, resource.hash);
    if i < |es| {
      assert es[i].resource.hash == resource.hash;
    } else {
      NothingLinked(limit);
    }
  }

  lemma NothingLinked(limit: nat)
    ensures Distinct<nat>([]) && Below([], limit)
  {
  }

  lemma AddEndpointMentions(es: seq<Endpoint>, resource: Resource, callback: nat, k: nat)
    ensures Mentions(AddEndpoint(es, resource, callback).0, k) == Mentions(es, k)
  {
    var i := FindHash(es, resource.hash);
    if i == |es| {
      MentionsConcat(es, [Endpoint(resource, callback, [])], k);
    } else if es[i].resource == resource {
      MentionsUpdate(es, i, es[i].(callback := callback), k);
    }
  }

  function Track(n: Node, resource: Resource, callback: nat): (Node, Option<nat>) {
    var (ts, r) := AddEndpoint(n.trackers, resource, callback);
    (n.(trackers := ts), r)
  }

  /** A provider has no callback: what stands in its place stays. */
  function CallbackOf(es: seq<Endpoint>, resource: Resource): nat {
    var i := FindHash(es, resource.hash);
    if i < |es| then es[i].callback else 0
  }

  function Advertise(n: Node, resource: Resource): (Node, Option<nat>) {
    var (ps, r) := AddEndpoint(n.providers, resource, CallbackOf(n.providers, resource));
    (n.(providers := ps), r)
  }

  /** There is room for the endpoint, or it needs none. */
  predicate CanAdd(es: seq<Endpoint>, resource: Resource, max: nat) {
    |es| < max || HasHash(es, resource.hash)
  }

  /** The tracker for the resource, unless its hash collides, has the callback given; the others stay, and so
      does everything else. */
  lemma TrackKeeps(c: Config, n: Node, resource: Resource, callback: nat)
    requires Accounted(c, n) && CanAdd(n.trackers, resource, c.maxTrackers)
    ensures var (m, r) := Track(n, resource, callback);
            && Accounted(c, m) && m == n.(trackers := m.trackers) && |n.trackers| <= |m.trackers|
            && (r.Some? ==>
                  && r.value < |m.trackers|
                  && m.trackers[r.value].resource == resource && m.trackers[r.value].callback == callback)
            && forall i :: 0 <= i < |n.trackers| && r != Some(i) ==> m.trackers[i] == n.trackers[i]
  {
    AddEndpointKeeps(n.trackers, resource, callback, n.numPeers);
    hide AddEndpoint, Mentions;
    forall k: nat
      ensures Mentions(Track(n, resource, callback).0.trackers, k) == Mentions(n.trackers, k)
    {
      AddEndpointMentions(n.trackers, resource, callback, k);
    }
  }

  /** All providers stay as they are, and there is one for the resource unless its hash collides. */
  lemma AdvertiseKeeps(c: Config, n: Node, resource: Resource)
    requires Accounted(c, n) && CanAdd(n.providers, resource, c.maxProviders)
    ensures var (m, r) := Advertise(n, resource);
            && Accounted(c, m) && m == n.(providers := m.providers) && n.providers <= m.providers
            && (r.Some? ==> r.value < |m.providers| && m.providers[r.value].resource == resource)
  {
    var callback := CallbackOf(n.providers, resource);
    AddEndpointKeeps(n.providers, resource, callback, n.numPeers);
    hide AddEndpoint, Mentions;
    forall k: nat
      ensures Mentions(Advertise(n, resource).0.providers, k) == Mentions(n.providers, k)
    {
      AddEndpointMentions(n.providers, resource, callback, k);
    }
  }

  // ---------- content ----------

  /** How new endpoints es must relate to old ones when slot k gains d links. */
  ghost predicate GainsLinks(es: seq<Endpoint>, fs: seq<Endpoint>, k: nat, d: int, limit: nat) {
    && EndpointsOk(fs, limit)
    && SameOthers(es, fs, k)
    && Mentions(fs, k) == Mentions(es, k) + d
    && forall j :: j != k ==> Mentions(fs, j) == Mentions(es, j)
  }

  lemma ReplaceTrackers(c: Config, n: Node, fs: seq<Endpoint>, k: nat, d: int)
    requires Accounted(c, n) && k < n.numPeers && GainsLinks(n.trackers, fs, k, d, n.numPeers)
    ensures var m := n.(trackers := fs, slots := AddLinks(n.slots, k, d));
            Accounted(c, m) && OnlySlot(n, m, k)
  {
    hide EndpointsOk, Filter, Mentions;
    SameOthersRefl(n.providers, k);
  }

  lemma ReplaceProviders(c: Config, n: Node, fs: seq<Endpoint>, k: nat, d: int)
    requires Accounted(c, n) && k < n.numPeers && GainsLinks(n.providers, fs, k, d, n.numPeers)
    ensures var m := n.(providers := fs, slots := AddLinks(n.slots, k, d));
            Accounted(c, m) && OnlySlot(n, m, k)
  {
    hide EndpointsOk, Filter, Mentions;
    SameOthersRefl(n.trackers, k);
  }

  lemma ReplaceEndpoint(es: seq<Endpoint>, i: nat, f: Endpoint, k: nat, limit: nat)
    requires EndpointsOk(es, limit) && i < |es|
    requires Distinct(f.peers) && Below(f.peers, limit)
    requires f.resource == es[i].resource && f.callback == es[i].callback
    requires Filter(f.peers, Except(k)) == Filter(es[i].peers, Except(k))
    ensures EndpointsOk(es[i := f], limit) && SameOthers(es, es[i := f], k)
  {
    hide Filter, Distinct, Below;
  }

  lemma MentionsSwap(es: seq<Endpoint>, i: nat, f: Endpoint, k: nat)
    requires i < |es|
    requires forall j :: j != k ==> (j in f.peers <==> j in es[i].peers)
    ensures Mentions(es[i := f], k)
         == Mentions(es, k) + (if k in f.peers then 1 else 0) - (if k in es[i].peers then 1 else 0)
    ensures forall j :: j != k ==> Mentions(es[i := f], j) == Mentions(es, j)
  {
    hide Mentions;
    MentionsUpdate(es, i, f, k);
    forall j | j != k
      ensures Mentions(es[i := f], j) == Mentions(es, j)
    {
      MentionsUpdate(es, i, f, j);
    }
  }

  lemma LinkOneGains(es: seq<Endpoint>, i: nat, k: nat, max: nat, limit: nat)
    requires EndpointsOk(es, limit) && i < |es| && k < limit
    ensures var (f, code) := LinkEndpoint(es[i], k, max);
            GainsLinks(es, es[i := f], k, if code > 0 then code else 0, limit)
  {
    var (f, code) := LinkEndpoint(es[i], k, max);
    LinkEndpointEffect(es[i], k, max, limit);
    hide LinkEndpoint, Filter, Distinct, Below, Mentions, EndpointsOk, SameOthers;
    ReplaceEndpoint(es, i, f, k, limit);
    MentionsSwap(es, i, f, k);
  }

  lemma LinkTrackerKeeps(c: Config, n: Node, i: nat, k: nat)
    requires Accounted(c, n) && i < |n.trackers| && k < n.numPeers
    ensures var (m, code) := LinkTracker(c, n, i, k);
            && Accounted(c, m) && OnlySlot(n, m, k)
            && k in m.trackers[i].peers
            && m.providers == n.providers
            && forall j :: 0 <= j < |n.trackers| && j != i ==> m.trackers[j] == n.trackers[j]
  {
    hide Filter, Distinct, Below, Mentions;
    var (f, code) := LinkEndpoint(n.trackers[i], k, c.maxPeers);
    var d := if code > 0 then code else 0;
    LinkEndpointEffect(n.trackers[i], k, c.maxPeers, n.numPeers);
    FullMeansLinked(n.trackers[i], k, n.numPeers, c.maxPeers);
    LinkOneGains(n.trackers, i, k, c.maxPeers, n.numPeers);
    ReplaceTrackers(c, n, n.trackers[i := f], k, d);
    hide Accounted, OnlySlot, LinkEndpoint;
    assert AddLinks(n.slots, k, 0) == n.slots;
  }

  lemma ContentBlobKeeps(c: Config, unpack: Codec, n: Node, k: nat, hash: Hash, blob: Blob)
    requires Accounted(c, n) && k < n.numPeers
    ensures var m := ProcessContentBlob(c, unpack, n, k, hash, blob).0;
            Accounted(c, m) && OnlySlot(n, m, k) && m.providers == n.providers
  {
    hide Accounted, OnlySlot, LinkTracker;
    AccountedShape(c, n);
    OnlySlotRefl(n, k);
    var i := FindHash(n.trackers, hash);
    if i < |n.trackers| {
      LinkTrackerKeeps(c, n, i, k);
    }
  }

  lemma OnlySlotRefl(n: Node, k: nat)
    requires k < |n.slots|
    ensures OnlySlot(n, n, k)
  {
    SameOthersRefl(n.trackers, k);
    SameOthersRefl(n.providers, k);
  }

  lemma {:induction false} ContentsKeep(c: Config, unpack: Codec, n: Node, k: nat, r: Reader, count: nat)
    requires Accounted(c, n) && k < n.numPeers
    ensures var m := ProcessContents(c, unpack, n, k, r, count).node;
            Accounted(c, m) && OnlySlot(n, m, k) && m.providers == n.providers
    decreases count
  {
    hide Accounted, OnlySlot, ProcessContentBlob;
    assert n.numPeers <= |n.slots| by { AccountedShape(c, n); }
    OnlySlotRefl(n, k);
    if count > 0 {
      var (hash, r1) := ExpectU32(r);
      var (blob, r2) := ExpectBin(r1);
      if hash != 0 && blob != [] {
        var (n', ret, d) := ProcessContentBlob(c, unpack, n, k, hash, blob);
        ContentBlobKeeps(c, unpack, n, k, hash, blob);
        OnlySlotShape(n, n', k);
        if ret == 0 {
          ContentsKeep(c, unpack, n', k, r2, count - 1);
          OnlySlotTrans(n, n', ProcessContents(c, unpack, n', k, r2, count - 1).node, k);
        }
      }
    }
  }

  lemma AccountedShape(c: Config, n: Node)
    requires Accounted(c, n)
    ensures Shaped(c, n)
  {
  }

  lemma OnlySlotShape(n: Node, m: Node, k: nat)
    requires k < |n.slots| && OnlySlot(n, m, k)
    ensures |m.slots| == |n.slots| && m.numPeers == n.numPeers
  {
  }

  // ---------- link groups ----------

  /** Unlinking and then linking gains as many links as it reports, whatever the list. */
  lemma RelinkGains(es: seq<Endpoint>, k: nat, hs: seq<Hash>, max: nat, capacity: nat, matched: seq<Hash>, limit: nat)
    requires EndpointsOk(es, limit) && k < limit
    ensures var (fs, u) := UnlinkAll(es, k);
            var o := LinkHashes(fs, k, hs, max, capacity, matched, u);
            && GainsLinks(es, o.es, k, o.links - u, limit)
            && (o.status == Good ==> o.ret >= 0)
  {
    hide UnlinkAll, LinkHashes, Mentions, EndpointsOk, SameOthers;
    var (fs, u) := UnlinkAll(es, k);
    UnlinkAllEffect(es, k, limit);
    LinkHashesEffect(fs, k, hs, max, capacity, matched, u, limit);
    SameOthersTrans(es, fs, LinkHashes(fs, k, hs, max, capacity, matched, u).es, k);
    NoHashesRet(fs, k, max, capacity, matched, u);
  }

  lemma NoHashesRet(es: seq<Endpoint>, k: nat, max: nat, capacity: nat, matched: seq<Hash>, ret: int)
    ensures LinkHashes(es, k, [], max, capacity, matched, ret).ret == ret
  {
  }

  /** Names and digests do not matter to the accounting. */
  lemma SetPeerKeeps(c: Config, n: Node, k: nat, p: Peer)
    requires Accounted(c, n) && k < n.numPeers
    requires SamePeerTimes(n.slots[k], p) && p.numLinks == n.slots[k].numLinks
    ensures Accounted(c, SetPeer(n, k, p)) && OnlySlot(n, SetPeer(n, k, p), k)
  {
    hide EndpointsOk, Mentions, Filter;
    SameOthersRefl(n.trackers, k);
    SameOthersRefl(n.providers, k);
  }

  lemma ApplyProvidedKeeps(c: Config, n: Node, k: nat, r: Reader, s: Scratch, ret: int)
    requires Accounted(c, n) && k < n.numPeers && ret >= 0
    ensures var o := ApplyProvided(c, n, k, r, s, ret);
            && Accounted(c, o.node) && OnlySlot(n, o.node, k) && o.node.providers == n.providers
            && (o.status == Good ==> o.ret >= 0)
  {
    var digest := ListDigest(s.hashes);
    hide LinkHashes, UnlinkAll, ListDigest, OnlySlot, GainsLinks;
    OnlySlotRefl(n, k);
    if n.slots[k].providedDigest != digest {
      RelinkGains(n.trackers, k, s.hashes, c.maxPeers, c.maxResources, s.tracked, n.numPeers);
      var (es, u) := UnlinkAll(n.trackers, k);
      var o := LinkHashes(es, k, s.hashes, c.maxPeers, c.maxResources, s.tracked, u);
      ReplaceTrackers(c, n, o.es, k, o.links - u);
      hide Accounted;
      var m := n.(trackers := o.es, slots := AddLinks(n.slots, k, o.links - u));
      SetPeerKeeps(c, m, k, m.slots[k].(providedDigest := digest));
      OnlySlotTrans(n, m, SetPeer(m, k, m.slots[k].(providedDigest := digest)), k);
    }
  }

  lemma ApplyTrackedKeeps(c: Config, n: Node, k: nat, r: Reader, s: Scratch, ret: int, size: nat)
    requires Accounted(c, n) && k < n.numPeers && ret >= 0 && size <= |s.hashes|
    ensures var o := ApplyTracked(c, n, k, r, s, ret, size);
            && Accounted(c, o.node) && OnlySlot(n, o.node, k) && o.node.trackers == n.trackers
            && (o.status == Good ==> o.ret >= 0)
  {
    var digest := ListDigest(s.hashes);
    hide LinkHashes, UnlinkAll, ListDigest, OnlySlot, GainsLinks;
    OnlySlotRefl(n, k);
    if n.slots[k].trackedDigest != digest {
      RelinkGains(n.providers, k, s.hashes[..size], c.maxPeers, c.maxResources, s.provided, n.numPeers);
      var (es, u) := UnlinkAll(n.providers, k);
      var o := LinkHashes(es, k, s.hashes[..size], c.maxPeers, c.maxResources, s.provided, u);
      ReplaceProviders(c, n, o.es, k, o.links - u);
      hide Accounted;
      var m := n.(providers := o.es, slots := AddLinks(n.slots, k, o.links - u));
      SetPeerKeeps(c, m, k, m.slots[k].(trackedDigest := digest));
      OnlySlotTrans(n, m, SetPeer(m, k, m.slots[k].(trackedDigest := digest)), k);
    }
  }

  lemma DatumKeeps(c: Config, n: Node, k: nat, r: Reader, s: Scratch, ret: int)
    requires Accounted(c, n) && k < n.numPeers && ret >= 0
    ensures var o := ProcessDatum(c, n, k, r, s, ret);
            Accounted(c, o.node) && OnlySlot(n, o.node, k) && (o.status == Good ==> o.ret >= 0)
  {
    hide Accounted, OnlySlot, ApplyProvided, ApplyTracked, ReadHashes;
    AccountedShape(c, n);
    OnlySlotRefl(n, k);
    var (code, r1) := ExpectU8(r);
    if code == NODE_NAME {
      SetPeerKeeps(c, n, k, n.slots[k].(name := ExpectCstr(r1, c.nameSize).0));
    } else if code == PROVIDED_ARRAY || code == TRACKED_ARRAY {
      var (isArray, size, r2) := ExpectArrayOrNil(r1, c.maxResources);
      if isArray {
        var h := ReadHashes(r2, size, s.hashes, c.maxResources);
        ReadHashesGrows(r2, size, s.hashes, c.maxResources);
        var s' := s.(hashes := h.hashes, arrays := s.arrays + 1);
        if h.status == Good {
          ApplyProvidedKeeps(c, n, k, h.reader, s', ret);
          ApplyTrackedKeeps(c, n, k, h.reader, s', ret, size);
        }
      }
    }
  }

  lemma {:induction false} DataKeep(c: Config, n: Node, k: nat, r: Reader, s: Scratch, ret: int, count: nat)
    requires Accounted(c, n) && k < n.numPeers && ret >= 0
    ensures var o := ProcessData(c, n, k, r, s, ret, count);
            Accounted(c, o.node) && OnlySlot(n, o.node, k) && (o.status == Good ==> o.ret >= 0)
    decreases count
  {
    hide Accounted, OnlySlot, ProcessDatum;
    AccountedShape(c, n);
    OnlySlotRefl(n, k);
    if count > 0 {
      DatumKeeps(c, n, k, r, s, ret);
      var o := ProcessDatum(c, n, k, r, s, ret);
      OnlySlotShape(n, o.node, k);
      if o.status == Good {
        DataKeep(c, o.node, k, o.reader, o.scratch, o.ret, count - 1);
        OnlySlotTrans(n, o.node, ProcessData(c, o.node, k, o.reader, o.scratch, o.ret, count - 1).node, k);
      }
    }
  }

  lemma SetOutgoingKeeps(c: Config, n: Node, m: Node, k: nat, packet: Packet)
    requires Accounted(c, m) && k < |n.slots| && OnlySlot(n, m, k)
    ensures Accounted(c, m.(outgoing := packet)) && OnlySlot(n, m.(outgoing := packet), k)
  {
  }

  lemma GroupKeeps(c: Config, unpack: Codec, n: Node, k: nat, r: Reader)
    requires Accounted(c, n) && k < n.numPeers
    ensures var m := ProcessGroup(c, unpack, n, k, r).node;
            Accounted(c, m) && OnlySlot(n, m, k)
  {
    hide Accounted, OnlySlot, ProcessContents, ProcessData, LinkReply;
    AccountedShape(c, n);
    OnlySlotRefl(n, k);
    var (code, r1) := ExpectU8(r);
    if code == CONTENT_GROUP {
      var (isMap, size, r2) := ExpectMapOrNil(r1, MAX_MAP_SIZE);
      ContentsKeep(c, unpack, n, k, r2, size);
      SetOutgoingKeeps(c, n, ProcessContentGroup(c, unpack, n, k, r1).node, k, []);
    } else if code == LINK_GROUP {
      var (isMap, size, r2) := ExpectMapOrNil(r1, MAX_NUM_LINK_DATA);
      DataKeep(c, n, k, r2, EMPTY_SCRATCH, 0, size);
      var o := ProcessLinkGroup(c, n, k, r1);
      SetOutgoingKeeps(c, n, o.node, k, LinkReply(n.name, o));
    }
  }

  lemma {:induction false} GroupsKeep(c: Config, unpack: Codec, n: Node, k: nat, r: Reader, count: nat)
    requires Accounted(c, n) && k < n.numPeers
    ensures var m := ProcessGroups(c, unpack, n, k, r, count).node;
            Accounted(c, m) && OnlySlot(n, m, k)
    decreases count
  {
    hide Accounted, OnlySlot, ProcessGroup;
    AccountedShape(c, n);
    OnlySlotRefl(n, k);
    if count > 0 {
      GroupKeeps(c, unpack, n, k, r);
      var o := ProcessGroup(c, unpack, n, k, r);
      OnlySlotShape(n, o.node, k);
      if o.ret == 0 && !o.overrun {
        GroupsKeep(c, unpack, o.node, k, o.reader, count - 1);
        OnlySlotTrans(n, o.node, ProcessGroups(c, unpack, o.node, k, o.reader, count - 1).node, k);
      }
    }
  }

  /** Whatever a packet holds, well-formed or not, processing it keeps the accounting and touches the
      links of nobody but its sender. */
  lemma PacketKeeps(c: Config, unpack: Codec, n: Node, k: nat, packet: Packet)
    requires Accounted(c, n) && k < n.numPeers
    ensures var m := ProcessPacket(c, unpack, n, k, packet).node;
            Accounted(c, m) && OnlySlot(n, m, k)
  {
    hide Accounted, OnlySlot, ProcessGroups;
    AccountedShape(c, n);
    OnlySlotRefl(n, k);
    var (isMap, size, r) := ExpectMapOrNil(Reader(packet, true), MAX_NUM_GROUPS);
    GroupsKeep(c, unpack, n, k, r, size);
  }

  lemma IncomingKeeps(c: Config, unpack: Codec, n: Node, origin: Address, packet: Packet, now: Timespec)
    requires Accounted(c, n)
    ensures Accounted(c, ProcessIncoming(c, unpack, n, origin, packet, now).node)
  {
    RegisterKeeps(c, n, origin, now);
    hide Accounted, OnlySlot, ProcessPacket, Register;
    var (m, slot) := Register(c, n, origin, now);
    if slot.Some? {
      PacketKeeps(c, unpack, m, slot.value, packet);
    }
  }

  // ---------- deadlines ----------

  ghost predicate SameAccounts(s: seq<Peer>, t: seq<Peer>) {
    |s| == |t| && forall i :: 0 <= i < |s| ==> s[i].address == t[i].address && s[i].numLinks == t[i].numLinks
  }

  /** Keepalives and posts change deadlines only. */
  lemma DeadlinesKeep(c: Config, n: Node, slots: seq<Peer>, outgoing: Packet)
    requires Accounted(c, n) && SameAccounts(n.slots, slots)
    ensures Accounted(c, n.(slots := slots, outgoing := outgoing))
  {
    hide EndpointsOk, Mentions;
  }
}
