/** Operations on all the trackers, or all the providers, of a node: loops over endpoint objects, proved
    to do what the functions on values do. */
module EndpointGroups {
  import opened HashList
  import opened Sequences
  import opened Tables
  import opened Protocol
  import opened EndpointObjects

  // ---------- groups of endpoints ----------

  /** Endpoints that share no storage. */
  ghost predicate Separate(es: seq<ContentEndpoint>) {
    forall i, j :: 0 <= i < j < |es| ==> es[i] != es[j] && es[i].peers != es[j].peers
  }

  ghost function Buffers(es: seq<ContentEndpoint>): (r: set<array<nat>>)
    ensures forall i :: 0 <= i < |es| ==> es[i].peers in r
  {
    set e | e in es :: e.peers
  }

  ghost function Members(es: seq<ContentEndpoint>): set<ContentEndpoint> {
    set e | e in es
  }

  ghost predicate Group(es: seq<ContentEndpoint>, max: nat)
    reads es
  {
    Separate(es) && forall i :: 0 <= i < |es| ==> es[i].Valid() && es[i].peers.Length == max
  }

  /** The first endpoints of a group as values: those in use. */
  ghost function Values(es: seq<ContentEndpoint>, num: nat, max: nat): (r: seq<Endpoint>)
    requires Group(es, max) && num <= |es|
    reads es, Buffers(es)
    ensures |r| == num && forall i :: 0 <= i < num ==> es[i].Valid() && r[i] == es[i].Value()
  {
    if num == 0 then [] else Values(es, num - 1, max) + [es[num - 1].Value()]
  }

  ghost function Prepend(prefix: seq<Endpoint>, links: nat, o: LinkOut): LinkOut {
    LinkOut(prefix + o.es, links + o.links, o.failed)
  }

  lemma LinkMatchingStep(es: seq<Endpoint>, i: nat, k: nat, hash: Hash, max: nat, prefix: seq<Endpoint>, links: nat)
    requires i < |es|
    ensures var o := LinkMatching(es[i..], k, hash, max);
            var (f, code) := LinkEndpoint(es[i], k, max);
            Prepend(prefix, links, o)
              == if es[i].resource.hash != hash then
                   Prepend(prefix + [es[i]], links, LinkMatching(es[i + 1..], k, hash, max))
                 else if code < 0 then LinkOut(prefix + es[i..], links, true)
                 else Prepend(prefix + [f], links + code, LinkMatching(es[i + 1..], k, hash, max))
  {
    assert es[i..][1..] == es[i + 1..];
    var rest := LinkMatching(es[i + 1..], k, hash, max).es;
    var f := LinkEndpoint(es[i], k, max).0;
    assert prefix + ([f] + rest) == (prefix + [f]) + rest;
    assert prefix + ([es[i]] + rest) == (prefix + [es[i]]) + rest;
  }

  /** Linking a peer to one endpoint, and counting the link. */
  method LinkOne(es: seq<ContentEndpoint>, num: nat, max: nat, slots: array<Peer>, k: nat, i: nat) returns (code: int)
    requires Group(es, max) && num <= |es| && k < slots.Length && i < num
    modifies es[i], es[i].peers, slots
    ensures Group(es, max)
    ensures var (f, c) := LinkEndpoint(old(es[i].Value()), k, max);
            && code == c && Values(es, num, max) == old(Values(es, num, max))[i := f]
            && slots[..] == if c > 0 then AddLinks(old(slots[..]), k, c) else old(slots[..])
  {
    hide LinkEndpoint, Values;
    code := es[i].Link(k);
    assert Values(es, num, max) == old(Values(es, num, max))[i := es[i].Value()];
    if code > 0 {
      slots[k] := slots[k].(numLinks := slots[k].numLinks + code);
    }
  }

  /** Linking is done for the first i endpoints of before, with so many links, and not yet begun for the
      others. */
  ghost predicate LinkedUpTo(before: seq<Endpoint>, now: seq<Endpoint>, i: nat, k: nat, hash: Hash, max: nat, links: nat) {
    && i <= |before| == |now|
    && now[i..] == before[i..]
    && LinkMatching(before, k, hash, max) == Prepend(now[..i], links, LinkMatching(before[i..], k, hash, max))
  }

  lemma LinkedNext(before: seq<Endpoint>, now: seq<Endpoint>, i: nat, k: nat, hash: Hash, max: nat, links: nat)
    requires LinkedUpTo(before, now, i, k, hash, max, links) && i < |before|
    ensures var (f, code) := LinkEndpoint(now[i], k, max);
            if now[i].resource.hash != hash then LinkedUpTo(before, now, i + 1, k, hash, max, links)
            else if code < 0 then LinkMatching(before, k, hash, max) == LinkOut(now, links, true) && code == -1
            else LinkedUpTo(before, now[i := f], i + 1, k, hash, max, links + code)
  {
    hide LinkMatching, LinkEndpoint, Prepend;
    assert now[i] == now[i..][0] == before[i];
    LinkMatchingStep(before, i, k, hash, max, now[..i], links);
    LinkEndpointRefused(before[i], k, max);
    var f := LinkEndpoint(now[i], k, max).0;
    assert now[..i + 1] == now[..i] + [before[i]];
    assert now[i := f][..i + 1] == now[..i] + [f];
    assert now[i + 1..] == now[i..][1..] == before[i + 1..] && now[i := f][i + 1..] == now[i + 1..];
    assert now == now[..i] + now[i..];
  }

  lemma LinkedNone(before: seq<Endpoint>, k: nat, hash: Hash, max: nat)
    ensures LinkedUpTo(before, before, 0, k, hash, max, 0)
  {
    assert before[0..] == before;
    assert before[..0] + LinkMatching(before, k, hash, max).es == LinkMatching(before, k, hash, max).es;
  }

  lemma LinkedAll(before: seq<Endpoint>, now: seq<Endpoint>, k: nat, hash: Hash, max: nat, links: nat)
    requires LinkedUpTo(before, now, |before|, k, hash, max, links)
    ensures LinkMatching(before, k, hash, max) == LinkOut(now, links, false)
  {
    assert now[..|before|] == now;
  }

  /** Linking a peer to the endpoints of a hash, in order, counting the links. */
  method LinkEndpoints(es: seq<ContentEndpoint>, num: nat, max: nat, slots: array<Peer>, k: nat, hash: Hash)
    returns (ret: int)
    requires Group(es, max) && num <= |es| && k < slots.Length
    modifies Members(es), Buffers(es), slots
    ensures Group(es, max)
    ensures var o := LinkMatching(old(Values(es, num, max)), k, hash, max);
            && Values(es, num, max) == o.es
            && slots[..] == AddLinks(old(slots[..]), k, o.links)
            && ret == if o.failed then -1 else o.links
  {
    hide LinkMatching, LinkEndpoint, Values, Group, AddLinks, LinkedUpTo;
    ghost var before := Values(es, num, max);
    ghost var s := slots[..];
    ret := 0;
    LinkedNone(before, k, hash, max);
    NoLinks(s, k);
    for i := 0 to num
      invariant ret >= 0 && Group(es, max)
      invariant LinkedUpTo(before, Values(es, num, max), i, k, hash, max, ret)
      invariant slots[..] == AddLinks(s, k, ret)
    {
      ghost var now := Values(es, num, max);
      LinkedNext(before, now, i, k, hash, max, ret);
      if es[i].resource.hash == hash {
        var code := LinkOne(es, num, max, slots, k, i);
        if code < 0 {
          SameValue(now, i, k, max);
          return code;
        }
        MoreLinks(s, k, ret, code);
        ret := ret + code;
      }
    }
    LinkedAll(before, Values(es, num, max), k, hash, max, ret);
  }

  lemma SameValue(es: seq<Endpoint>, i: nat, k: nat, max: nat)
    requires i < |es| && LinkEndpoint(es[i], k, max).1 < 0
    ensures es[i := LinkEndpoint(es[i], k, max).0] == es
  {
  }

  lemma NoLinks(s: seq<Peer>, k: nat)
    requires k < |s|
    ensures AddLinks(s, k, 0) == s
  {
  }

  lemma MoreLinks(s: seq<Peer>, k: nat, a: int, b: int)
    requires k < |s|
    ensures AddLinks(AddLinks(s, k, a), k, b) == AddLinks(s, k, a + b)
    ensures AddLinks(AddLinks(s, k, a), k, 0) == AddLinks(s, k, a)
  {
  }

  lemma LinkEndpointRefused(e: Endpoint, k: nat, max: nat)
    ensures LinkEndpoint(e, k, max).1 < 0 ==> LinkEndpoint(e, k, max) == (e, -1)
    ensures LinkEndpoint(e, k, max).1 in [-1, 0, 1]
  {
  }

  // ---------- unlinking ----------

  ghost predicate UnlinkedUpTo(before: seq<Endpoint>, now: seq<Endpoint>, i: nat, k: nat, count: nat) {
    && i <= |before| == |now|
    && now[i..] == before[i..]
    && UnlinkAll(before, k) == (now[..i] + UnlinkAll(before[i..], k).0, count + UnlinkAll(before[i..], k).1)
  }

  lemma UnlinkedNone(before: seq<Endpoint>, k: nat)
    ensures UnlinkedUpTo(before, before, 0, k, 0)
  {
    assert before[0..] == before;
    assert before[..0] + UnlinkAll(before, k).0 == UnlinkAll(before, k).0;
  }

  lemma UnlinkedNext(before: seq<Endpoint>, now: seq<Endpoint>, i: nat, k: nat, count: nat)
    requires UnlinkedUpTo(before, now, i, k, count) && i < |before|
    ensures var (f, u) := UnlinkEndpoint(now[i], k);
            UnlinkedUpTo(before, now[i := f], i + 1, k, count + u)
  {
    var (f, u) := UnlinkEndpoint(before[i], k);
    assert now[i] == now[i..][0] == before[i];
    assert before[i..][1..] == before[i + 1..];
    assert UnlinkAll(before[i..], k) == ([f] + UnlinkAll(before[i + 1..], k).0, u + UnlinkAll(before[i + 1..], k).1);
    hide UnlinkEndpoint, UnlinkAll;
    assert now[i := f][..i + 1] == now[..i] + [f];
    assert now[i + 1..] == now[i..][1..] == before[i + 1..] && now[i := f][i + 1..] == now[i + 1..];
    assert now[..i] + ([f] + UnlinkAll(before[i + 1..], k).0) == (now[..i] + [f]) + UnlinkAll(before[i + 1..], k).0;
  }

  lemma UnlinkedAll(before: seq<Endpoint>, now: seq<Endpoint>, k: nat, count: nat)
    requires UnlinkedUpTo(before, now, |before|, k, count)
    ensures UnlinkAll(before, k) == (now, count)
  {
    assert now[..|before|] + [] == now;
  }

  /** Unlinking a peer from one endpoint, and taking the link off its count. */
  method UnlinkOne(es: seq<ContentEndpoint>, num: nat, max: nat, slots: array<Peer>, k: nat, i: nat) returns (code: int)
    requires Group(es, max) && num <= |es| && k < slots.Length && i < num
    modifies es[i], es[i].peers, slots
    ensures Group(es, max)
    ensures var (f, u) := UnlinkEndpoint(old(es[i].Value()), k);
            && code == u >= 0 && Values(es, num, max) == old(Values(es, num, max))[i := f]
            && slots[..] == AddLinks(old(slots[..]), k, -code)
  {
    hide UnlinkEndpoint, Values;
    code := es[i].Unlink(k);
    assert Values(es, num, max) == old(Values(es, num, max))[i := es[i].Value()];
    slots[k] := slots[k].(numLinks := slots[k].numLinks - code);
  }

  /** Unlinking a peer from all endpoints. */
  method UnlinkEndpoints(es: seq<ContentEndpoint>, num: nat, max: nat, slots: array<Peer>, k: nat) returns (count: int)
    requires Group(es, max) && num <= |es| && k < slots.Length
    modifies Members(es), Buffers(es), slots
    ensures Group(es, max)
    ensures var (fs, u) := UnlinkAll(old(Values(es, num, max)), k);
            Values(es, num, max) == fs && count == u
    ensures slots[..] == AddLinks(old(slots[..]), k, -count)
  {
    hide UnlinkAll, UnlinkEndpoint, Values, Group, AddLinks, UnlinkedUpTo;
    ghost var before := Values(es, num, max);
    ghost var s := slots[..];
    count := 0;
    UnlinkedNone(before, k);
    NoLinks(s, k);
    for i := 0 to num
      invariant Group(es, max) && count >= 0
      invariant UnlinkedUpTo(before, Values(es, num, max), i, k, count)
      invariant slots[..] == AddLinks(s, k, -count)
    {
      UnlinkedNext(before, Values(es, num, max), i, k, count);
      var code := UnlinkOne(es, num, max, slots, k, i);
      MoreLinks(s, k, -count, -code);
      count := count + code;
    }
    UnlinkedAll(before, Values(es, num, max), k, count);
  }

  // ---------- linking a list of hashes ----------

  ghost function AddToLinks(links: nat, o: RelinkOut): RelinkOut {
    o.(links := links + o.links)
  }

  lemma LinkHashesNext(es: seq<Endpoint>, k: nat, hs: seq<Hash>, j: nat, max: nat, capacity: nat, matched: seq<Hash>,
                       ret: int, links: nat)
    requires j < |hs|
    ensures var m := LinkMatching(es, k, hs[j], max);
            AddToLinks(links, LinkHashes(es, k, hs[j..], max, capacity, matched, ret))
              == if m.failed then RelinkOut(m.es, links + m.links, matched, -1, Rejected)
                 else if m.links > 0 && |matched| >= capacity then
                   RelinkOut(m.es, links + m.links, matched, m.links, Overrun)
                 else AddToLinks(links + m.links,
                                 LinkHashes(m.es, k, hs[j + 1..], max, capacity,
                                            if m.links > 0 then matched + [hs[j]] else matched, m.links))
  {
    hide LinkMatching;
    assert hs[j..][1..] == hs[j + 1..];
  }

  /** Linking a peer to the endpoints of each hash of a list, and gathering the hashes that made a link
      behind those already gathered. Finding no room for one stops with an overrun, where the source
      would write past the end of an array. */
  method LinkHashList(es: seq<ContentEndpoint>, num: nat, max: nat, slots: array<Peer>, k: nat, hashes: seq<Hash>,
                      capacity: nat, matched0: seq<Hash>, code: int)
    returns (matched: seq<Hash>, ret: int, status: Status)
    requires Group(es, max) && num <= |es| && k < slots.Length
    modifies Members(es), Buffers(es), slots
    ensures Group(es, max)
    ensures var o := LinkHashes(old(Values(es, num, max)), k, hashes, max, capacity, matched0, code);
            && Values(es, num, max) == o.es
            && slots[..] == AddLinks(old(slots[..]), k, o.links)
            && matched == o.matched && ret == o.ret && status == o.status
  {
    hide LinkHashes, LinkMatching, Values, Group, AddLinks, AddToLinks;
    ghost var s := slots[..];
    ghost var links: nat := 0;
    ghost var all := LinkHashes(Values(es, num, max), k, hashes, max, capacity, matched0, code);
    matched, ret, status := matched0, code, Good;
    NoLinks(s, k);
    FromTheStart(all, hashes);
    for j := 0 to |hashes|
      invariant Group(es, max)
      invariant all == AddToLinks(links, LinkHashes(Values(es, num, max), k, hashes[j..], max, capacity, matched, ret))
      invariant slots[..] == AddLinks(s, k, links)
    {
      LinkHashesNext(Values(es, num, max), k, hashes, j, max, capacity, matched, ret, links);
      ghost var m := LinkMatching(Values(es, num, max), k, hashes[j], max);
      ret := LinkEndpoints(es, num, max, slots, k, hashes[j]);
      MoreLinks(s, k, links, m.links);
      links := links + m.links;
      if ret < 0 {
        status := Rejected;
        return;
      }
      if ret > 0 {
        if |matched| >= capacity {
          status := Overrun;
          return;
        }
        matched := matched + [hashes[j]];
      }
    }
    NoMoreHashes(Values(es, num, max), k, hashes, max, capacity, matched, ret, links);
  }

  lemma FromTheStart(o: RelinkOut, hs: seq<Hash>)
    ensures AddToLinks(0, o) == o && hs[0..] == hs
  {
  }

  lemma NoMoreHashes(es: seq<Endpoint>, k: nat, hs: seq<Hash>, max: nat, capacity: nat, matched: seq<Hash>,
                     ret: int, links: nat)
    ensures AddToLinks(links, LinkHashes(es, k, hs[|hs|..], max, capacity, matched, ret))
         == RelinkOut(es, links, matched, ret, Good)
  {
  }

  // ---------- probing and discovery ----------

  ghost predicate DroppedUpTo(before: seq<Endpoint>, now: seq<Endpoint>, i: nat, slots: seq<Peer>) {
    && i <= |before| == |now|
    && now[..i] == DropDead(before, slots)[..i]
    && now[i..] == before[i..]
  }

  lemma DroppedNext(before: seq<Endpoint>, now: seq<Endpoint>, i: nat, slots: seq<Peer>)
    requires DroppedUpTo(before, now, i, slots) && i < |before|
    ensures now[i] == before[i]
    ensures var f := now[i].(peers := Filter(now[i].peers, IsAliveIn(slots)));
            DroppedUpTo(before, now[i := f], i + 1, slots) && now[i := f][..i] == now[..i]
  {
    hide Filter;
    assert now[i] == now[i..][0] == before[i];
    var f := now[i].(peers := Filter(now[i].peers, IsAliveIn(slots)));
    assert now[i := f][..i + 1] == now[..i] + [f];
    assert now[i + 1..] == now[i..][1..] == before[i + 1..] && now[i := f][i + 1..] == now[i + 1..];
  }

  lemma ActiveNext(es: seq<Endpoint>, i: nat)
    requires i < |es|
    ensures CountActive(es[..i + 1]) == CountActive(es[..i]) + if es[i].peers != [] then 1 else 0
  {
    assert es[..i + 1][..i] == es[..i];
  }

  /** Dropping the dead peers of one endpoint. */
  method DropDeadOne(es: seq<ContentEndpoint>, num: nat, max: nat, slots: array<Peer>, i: nat)
    requires Group(es, max) && num <= |es| && max < SIZE_MODULUS && i < num
    requires Below(es[i].peers[..es[i].numPeers], slots.Length)
    modifies es[i], es[i].peers
    ensures Group(es, max)
    ensures var e := old(es[i].Value());
            Values(es, num, max) == old(Values(es, num, max))[i := e.(peers := Filter(e.peers, IsAliveIn(slots[..])))]
    ensures es[i].numPeers == |Values(es, num, max)[i].peers|
  {
    hide Filter, Values;
    es[i].UnlinkDeadPeers(slots);
    assert Values(es, num, max) == old(Values(es, num, max))[i := es[i].Value()];
  }

  /** Dropping the dead peers of all endpoints, and counting those that have peers left. */
  method DropDeadPeers(es: seq<ContentEndpoint>, num: nat, max: nat, slots: array<Peer>) returns (active: nat)
    requires Group(es, max) && num <= |es| && max < SIZE_MODULUS
    requires forall i :: 0 <= i < num ==> Below(Values(es, num, max)[i].peers, slots.Length)
    modifies Members(es), Buffers(es)
    ensures Group(es, max)
    ensures Values(es, num, max) == DropDead(old(Values(es, num, max)), slots[..])
    ensures active == CountActive(Values(es, num, max))
  {
    hide Filter, Values, Group, DroppedUpTo, CountActive, DropDead, Below;
    ghost var before := Values(es, num, max);
    ghost var s := slots[..];
    active := 0;
    DroppedNone(before, s);
    for i := 0 to num
      invariant Group(es, max) && slots[..] == s
      invariant DroppedUpTo(before, Values(es, num, max), i, s)
      invariant active == CountActive(Values(es, num, max)[..i])
    {
      ghost var now := Values(es, num, max);
      DroppedNext(before, now, i, s);
      DropDeadOne(es, num, max, slots, i);
      ActiveNext(Values(es, num, max), i);
      if es[i].numPeers > 0 {
        active := active + 1;
      }
    }
    DroppedAll(before, Values(es, num, max), s);
  }

  lemma DroppedNone(before: seq<Endpoint>, slots: seq<Peer>)
    ensures DroppedUpTo(before, before, 0, slots) && CountActive(before[..0]) == 0
  {
  }

  lemma DroppedAll(before: seq<Endpoint>, now: seq<Endpoint>, slots: seq<Peer>)
    requires DroppedUpTo(before, now, |before|, slots)
    ensures now == DropDead(before, slots) && now[..|before|] == now
  {
    hide Filter;
    assert DropDead(before, slots)[..|before|] == DropDead(before, slots);
    assert now[..|before|] == now;
  }

  /** The hashes of the endpoints without peers. */
  method CollectUnlinked(es: seq<ContentEndpoint>, num: nat, max: nat) returns (hashes: seq<Hash>)
    requires Group(es, max) && num <= |es|
    ensures hashes == UnlinkedHashes(Values(es, num, max))
  {
    hide Values, Group;
    ghost var all := Values(es, num, max);
    hashes := [];
    for i := 0 to num
      invariant hashes == UnlinkedHashes(all[..i])
    {
      assert all[..i + 1][..i] == all[..i];
      assert all[i] == es[i].Value();
      if es[i].numPeers == 0 {
        hashes := hashes + [es[i].resource.hash];
      }
    }
    assert all[..num] == all;
  }

  /** The first endpoint with a hash. */
  method FindEndpoint(es: seq<ContentEndpoint>, num: nat, max: nat, hash: Hash) returns (i: nat)
    requires Group(es, max) && num <= |es|
    ensures i == FindHash(Values(es, num, max), hash)
  {
    hide Values, Group;
    i := 0;
    while i < num && es[i].resource.hash != hash
      invariant i <= num
      invariant FindHash(Values(es, num, max), hash) == FindHash(Values(es, num, max), hash, i)
    {
      i := i + 1;
    }
  }

  /** The first endpoint of a resource, or of another one with the same hash; and which of the two. */
  method FindResource(es: seq<ContentEndpoint>, num: nat, max: nat, resource: Resource) returns (i: nat, same: bool)
    requires Group(es, max) && num <= |es|
    ensures i == FindHash(Values(es, num, max), resource.hash) <= num
    ensures same <==> i < num && Values(es, num, max)[i].resource == resource
  {
    hide Values, Group;
    i := 0;
    while i < num
      invariant i <= num
      invariant FindHash(Values(es, num, max), resource.hash) == FindHash(Values(es, num, max), resource.hash, i)
    {
      if es[i].resource == resource {
        return i, true;
      }
      if es[i].resource.hash == resource.hash {
        return i, false;
      }
      i := i + 1;
    }
    same := false;
  }

  /** Changing the callback of an endpoint. */
  method SetCallback(es: seq<ContentEndpoint>, num: nat, max: nat, i: nat, callback: nat)
    requires Group(es, max) && num <= |es| && i < num
    modifies es[i]
    ensures Group(es, max)
    ensures Values(es, num, max) == old(Values(es, num, max))[i := old(es[i].Value()).(callback := callback)]
  {
    hide Values;
    es[i].callback := callback;
    assert Values(es, num, max) == old(Values(es, num, max))[i := es[i].Value()];
  }

  /** Setting up the first endpoint that is not in use yet. */
  method SetUpNext(es: seq<ContentEndpoint>, num: nat, max: nat, resource: Resource, callback: nat)
    requires Group(es, max) && num < |es|
    modifies es[num]
    ensures Group(es, max)
    ensures Values(es, num + 1, max) == old(Values(es, num, max)) + [Endpoint(resource, callback, [])]
  {
    es[num].resource := resource;
    es[num].callback := callback;
    es[num].numPeers := 0;
    hide Values;
    assert Values(es, num + 1, max)[num] == es[num].Value() == Endpoint(resource, callback, []);
  }

  /** Endpoints that are not in use yet. */
  method Allocate(count: nat, max: nat) returns (es: seq<ContentEndpoint>)
    ensures |es| == count && Group(es, max)
    ensures fresh(Members(es)) && fresh(Buffers(es))
  {
    es := [];
    while |es| < count
      invariant |es| <= count && Group(es, max)
      invariant fresh(Members(es)) && fresh(Buffers(es))
      decreases count - |es|
    {
      var e := new ContentEndpoint(max);
      es := es + [e];
    }
  }
}
