/** Replacing the links of one peer by those a list of hashes asks for. */
module Relink {
  import opened HashList
  import opened Sequences
  import opened Tables
  import opened Links

  /** An endpoint after slot k was linked to the endpoints of some hashes. */
  function Linked(e: Endpoint, k: nat, hs: seq<Hash>): Endpoint {
    if e.resource.hash in hs then e.(peers := e.peers + [k]) else e
  }

  function AllLinked(es: seq<Endpoint>, k: nat, hs: seq<Hash>): (r: seq<Endpoint>)
    ensures |r| == |es|
  {
    seq(|es|, i requires 0 <= i < |es| => Linked(es[i], k, hs))
  }

  /** Slot k is named nowhere, and everywhere there is room for it. */
  ghost predicate HasRoom(es: seq<Endpoint>, k: nat, max: nat) {
    forall i :: 0 <= i < |es| ==> k !in es[i].peers && |es[i].peers| < max
  }

  lemma {:induction false} LinkMatchingOne(es: seq<Endpoint>, k: nat, done: seq<Hash>, h: Hash, max: nat)
    requires UniqueHashes(es) && HasRoom(es, k, max) && h !in done
    ensures LinkMatching(AllLinked(es, k, done), k, h, max)
         == LinkOut(AllLinked(es, k, done + [h]), if HasHash(es, h) then 1 else 0, false)
    decreases |es|
  {
    var before, after := AllLinked(es, k, done), AllLinked(es, k, done + [h]);
    if es != [] {
      var rest := es[1..];
      assert before[1..] == AllLinked(rest, k, done);
      assert after == [after[0]] + AllLinked(rest, k, done + [h]);
      LinkMatchingOne(rest, k, done, h, max);
      assert HasHash(es, h) <==> es[0].resource.hash == h || HasHash(rest, h) by {
        if HasHash(rest, h) {
          var i :| 0 <= i < |rest| && rest[i].resource.hash == h;
          assert es[i + 1].resource.hash == h;
        }
      }
      if es[0].resource.hash == h {
        assert !HasHash(rest, h);
      }
    }
  }

  function LastCode(es: seq<Endpoint>, hs: seq<Hash>, ret: int): int {
    if hs == [] then ret else if HasHash(es, hs[|hs| - 1]) then 1 else 0
  }

  lemma {:induction false} LinkHashesExact(es: seq<Endpoint>, k: nat, done: seq<Hash>, hs: seq<Hash>, max: nat,
                                           capacity: nat, matched: seq<Hash>, ret: int)
    requires UniqueHashes(es) && HasRoom(es, k, max)
    requires Distinct(hs) && (forall h :: h in hs ==> h !in done)
    requires |matched| + |Filter(hs, HashOf(es))| <= capacity
    ensures var found := Filter(hs, HashOf(es));
            LinkHashes(AllLinked(es, k, done), k, hs, max, capacity, matched, ret)
              == RelinkOut(AllLinked(es, k, done + hs), |found|, matched + found, LastCode(es, hs, ret), Good)
    decreases |hs|
  {
    hide LinkMatching, AllLinked, HasHash, UniqueHashes, HasRoom, Filter;
    if hs == [] {
      assert done + hs == done;
      FilterNone(hs, HashOf(es));
      assert matched + [] == matched;
    } else {
      var h, rest := hs[0], hs[1..];
      LinkMatchingOne(es, k, done, h, max);
      FilterHead(hs, HashOf(es));
      assert (done + [h]) + rest == done + hs;
      var matched' := if HasHash(es, h) then matched + [h] else matched;
      var links := if HasHash(es, h) then 1 else 0;
      LinkHashesExact(es, k, done + [h], rest, max, capacity, matched', links);
      assert matched' + Filter(rest, HashOf(es)) == matched + Filter(hs, HashOf(es));
    }
  }

  /** What relinking makes of an endpoint: the peer is linked if its hash was asked for and not
      otherwise; the other peers stay, in order. */
  function Relinked(e: Endpoint, k: nat, hs: seq<Hash>): Endpoint {
    e.(peers := Filter(e.peers, Except(k)) + if e.resource.hash in hs then [k] else [])
  }

  lemma FilterExcept(k: nat)
    ensures forall s: seq<nat> :: k !in Filter(s, Except(k))
  {
  }

  lemma UnlinkMakesRoom(es: seq<Endpoint>, k: nat, max: nat, limit: nat)
    requires EndpointsOk(es, limit) && k < limit <= max
    ensures HasRoom(UnlinkAll(es, k).0, k, max)
  {
    hide Filter, Mentions, UnlinkAll;
    UnlinkAllEffect(es, k, limit);
    var fs := UnlinkAll(es, k).0;
    FilterExcept(k);
    forall i | 0 <= i < |fs|
      ensures k !in fs[i].peers && |fs[i].peers| < max
    {
      assert k !in fs[i].peers;
      RoomForOne(fs[i].peers, k, limit);
    }
  }

  /** Relinking with a list without repetitions is exact, and succeeds when there is room for the matches: the
      endpoints linked are those whose hash is in the list, and the hashes that matched come out in list order,
      once each, behind those that matched before. */
  lemma RelinkExact(es: seq<Endpoint>, k: nat, hs: seq<Hash>, max: nat, capacity: nat, matched: seq<Hash>, ret: int,
                    limit: nat)
    requires EndpointsOk(es, limit) && k < limit <= max
    requires UniqueHashes(es) && Distinct(hs) && |matched| + |Filter(hs, HashOf(es))| <= capacity
    ensures var o := LinkHashes(UnlinkAll(es, k).0, k, hs, max, capacity, matched, ret);
            && o.status == Good
            && |o.es| == |es|
            && (forall i :: 0 <= i < |es| ==> o.es[i] == Relinked(es[i], k, hs))
            && o.matched == matched + Filter(hs, HashOf(es))
            && o.links == |Filter(hs, HashOf(es))|
            && o.ret == LastCode(es, hs, ret)
  {
    hide UnlinkAll, LinkHashes, Filter, AllLinked, Relinked, Mentions, EndpointsOk, Distinct, UniqueHashes, HasHash,
      SameButPeers, LastCode;
    var fs := UnlinkAll(es, k).0;
    UnlinkAllEffect(es, k, limit);
    UnlinkMakesRoom(es, k, max, limit);
    SameHashes(es, fs, hs, ret);
    NoneLinked(fs, k);
    LinkHashesExact(fs, k, [], hs, max, capacity, matched, ret);
    assert [] + hs == hs;
    LinkedIsRelinked(es, fs, k, hs);
  }

  lemma SameHashes(es: seq<Endpoint>, fs: seq<Endpoint>, hs: seq<Hash>, ret: int)
    requires SameButPeers(es, fs)
    ensures UniqueHashes(es) <==> UniqueHashes(fs)
    ensures Filter(hs, HashOf(fs)) == Filter(hs, HashOf(es)) && LastCode(fs, hs, ret) == LastCode(es, hs, ret)
  {
    hide Filter;
    assert forall h :: HasHash(fs, h) == HasHash(es, h);
    FilterSame(hs, HashOf(fs), HashOf(es));
  }

  lemma NoneLinked(es: seq<Endpoint>, k: nat)
    ensures AllLinked(es, k, []) == es
  {
  }

  lemma LinkedIsRelinked(es: seq<Endpoint>, fs: seq<Endpoint>, k: nat, hs: seq<Hash>)
    requires SameButPeers(es, fs)
    requires forall i :: 0 <= i < |es| ==> fs[i].peers == Filter(es[i].peers, Except(k))
    ensures |fs| == |es| && forall i :: 0 <= i < |es| ==> AllLinked(fs, k, hs)[i] == Relinked(es[i], k, hs)
  {
    hide Filter;
    forall i | 0 <= i < |es|
      ensures AllLinked(fs, k, hs)[i] == Relinked(es[i], k, hs)
    {
      assert Filter(es[i].peers, Except(k)) + [] == Filter(es[i].peers, Except(k));
    }
  }
}
