/** Linking and unlinking: what they do to every endpoint, and to the count of links of every peer. */
module Links {
  import opened HashList
  import opened Sequences
  import opened Tables

  /** How many endpoints name slot k. */
  function Mentions(es: seq<Endpoint>, k: nat): nat {
    if es == [] then 0 else (if k in es[0].peers then 1 else 0) + Mentions(es[1..], k)
  }

  /** Every endpoint names slots below the limit, none twice. */
  ghost predicate EndpointsOk(es: seq<Endpoint>, limit: nat) {
    forall i :: 0 <= i < |es| ==> Distinct(es[i].peers) && Below(es[i].peers, limit)
  }

  ghost predicate UniqueHashes(es: seq<Endpoint>) {
    forall i, j :: 0 <= i < j < |es| ==> es[i].resource.hash != es[j].resource.hash
  }

  predicate HasHash(es: seq<Endpoint>, h: Hash) {
    exists i :: 0 <= i < |es| && es[i].resource.hash == h
  }

  function HashOf(es: seq<Endpoint>): Hash -> bool {
    h => HasHash(es, h)
  }

  ghost predicate SameButPeers(es: seq<Endpoint>, fs: seq<Endpoint>) {
    && |es| == |fs|
    && forall i :: 0 <= i < |es| ==> es[i].resource == fs[i].resource && es[i].callback == fs[i].callback
  }

  /** What linking and unlinking slot k leave of the other slots: the same, in the same order. */
  ghost predicate SameOthers(es: seq<Endpoint>, fs: seq<Endpoint>, k: nat) {
    && SameButPeers(es, fs)
    && forall i :: 0 <= i < |es| ==> Filter(es[i].peers, Except(k)) == Filter(fs[i].peers, Except(k))
  }

  // ---------- the table of peers is big enough ----------

  /** "Too many peers" is only ever said of an endpoint that has the peer already. */
  lemma FullMeansLinked(e: Endpoint, k: nat, limit: nat, max: nat)
    requires Distinct(e.peers) && Below(e.peers, limit) && k < limit <= max
    ensures |e.peers| <= limit
    ensures LinkEndpoint(e, k, max).1 < 0 ==> k in e.peers
  {
    Pigeonhole(e.peers, limit);
  }

  // ---------- one endpoint ----------

  lemma LinkEndpointEffect(e: Endpoint, k: nat, max: nat, limit: nat)
    requires Distinct(e.peers) && Below(e.peers, limit) && k < limit
    ensures var (f, code) := LinkEndpoint(e, k, max);
            && Distinct(f.peers) && Below(f.peers, limit)
            && f.resource == e.resource && f.callback == e.callback
            && Filter(f.peers, Except(k)) == Filter(e.peers, Except(k))
            && (code >= 0 ==> k in f.peers)
            && (code <= 0 ==> f == e)
            && (code == 1 <==> |e.peers| < max && k !in e.peers)
            && (code == -1 <==> |e.peers| >= max)
            && (code == 0 || code == 1 || code == -1)
            && forall j :: j != k ==> (j in f.peers <==> j in e.peers)
  {
    assert (e.peers + [k])[..|e.peers|] == e.peers;
  }

  lemma UnlinkEndpointEffect(e: Endpoint, k: nat, limit: nat)
    requires Distinct(e.peers) && Below(e.peers, limit)
    ensures var (f, u) := UnlinkEndpoint(e, k);
            && f.peers == Filter(e.peers, Except(k))
            && Distinct(f.peers) && Below(f.peers, limit)
            && f.resource == e.resource && f.callback == e.callback
            && Filter(f.peers, Except(k)) == Filter(e.peers, Except(k))
            && k !in f.peers
            && u == (if k in e.peers then 1 else 0)
            && |f.peers| == |e.peers| - u
            && forall j :: j != k ==> (j in f.peers <==> j in e.peers)
  {
    hide Filter, Remove, Distinct, Below;
    RemoveIsFilter(e.peers, k);
    RemoveMembers(e.peers, k);
    var f := Remove(e.peers, k);
    BelowSubset(e.peers, f, limit);
    FilterAll(f, Except(k));
    if k !in e.peers {
      FilterAll(e.peers, Except(k));
    }
  }

  // ---------- all endpoints ----------

  lemma {:induction false} LinkMatchingEffect(es: seq<Endpoint>, k: nat, h: Hash, max: nat, limit: nat)
    requires EndpointsOk(es, limit) && k < limit
    ensures var o := LinkMatching(es, k, h, max);
            && EndpointsOk(o.es, limit)
            && SameOthers(es, o.es, k)
            && Mentions(o.es, k) == Mentions(es, k) + o.links
            && forall j :: j != k ==> Mentions(o.es, j) == Mentions(es, j)
    decreases |es|
  {
    hide Filter, Except, Distinct, Below, LinkEndpoint;
    if es != [] {
      var o := LinkMatching(es, k, h, max);
      LinkEndpointEffect(es[0], k, max, limit);
      LinkMatchingEffect(es[1..], k, h, max, limit);
      var rest := LinkMatching(es[1..], k, h, max);
      assert o.es == es || (o.es[1..] == rest.es && |o.es| == |es|);
    }
  }

  lemma {:induction false} UnlinkAllEffect(es: seq<Endpoint>, k: nat, limit: nat)
    requires EndpointsOk(es, limit)
    ensures var (fs, u) := UnlinkAll(es, k);
            && EndpointsOk(fs, limit)
            && SameOthers(es, fs, k)
            && Mentions(fs, k) == 0
            && Mentions(es, k) == u
            && (forall j :: j != k ==> Mentions(fs, j) == Mentions(es, j))
            && forall i :: 0 <= i < |es| ==> fs[i].peers == Filter(es[i].peers, Except(k))
    decreases |es|
  {
    hide Filter, Distinct, Below, UnlinkEndpoint;
    if es != [] {
      var fs := UnlinkAll(es, k).0;
      UnlinkEndpointEffect(es[0], k, limit);
      UnlinkAllEffect(es[1..], k, limit);
      assert fs[1..] == UnlinkAll(es[1..], k).0;
    }
  }

  lemma SameOthersTrans(es: seq<Endpoint>, fs: seq<Endpoint>, gs: seq<Endpoint>, k: nat)
    requires SameOthers(es, fs, k) && SameOthers(fs, gs, k)
    ensures SameOthers(es, gs, k)
  {
  }

  lemma {:induction false} LinkHashesEffect(es: seq<Endpoint>, k: nat, hs: seq<Hash>, max: nat, capacity: nat,
                                            matched: seq<Hash>, ret: int, limit: nat)
    requires EndpointsOk(es, limit) && k < limit
    ensures var o := LinkHashes(es, k, hs, max, capacity, matched, ret);
            && EndpointsOk(o.es, limit)
            && SameOthers(es, o.es, k)
            && Mentions(o.es, k) == Mentions(es, k) + o.links
            && (forall j :: j != k ==> Mentions(o.es, j) == Mentions(es, j))
            && (o.status == Good && hs != [] ==> o.ret >= 0)
    decreases |hs|
  {
    hide LinkMatching, EndpointsOk, SameOthers, Mentions;
    if hs == [] {
      SameOthersRefl(es, k);
    } else {
      LinkMatchingEffect(es, k, hs[0], max, limit);
      var m := LinkMatching(es, k, hs[0], max);
      if !m.failed && !(m.links > 0 && |matched| >= capacity) {
        var matched' := if m.links > 0 then matched + [hs[0]] else matched;
        LinkHashesEffect(m.es, k, hs[1..], max, capacity, matched', m.links, limit);
        SameOthersTrans(es, m.es, LinkHashes(m.es, k, hs[1..], max, capacity, matched', m.links).es, k);
      }
    }
  }

  lemma SameOthersRefl(es: seq<Endpoint>, k: nat)
    ensures SameOthers(es, es, k)
  {
  }
}
