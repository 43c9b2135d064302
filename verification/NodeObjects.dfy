/** A node as an object whose tables and buffers are changed in place. */
module NodeObjects {
  import opened Time
  import opened HashList
  import opened Sequences
  import opened Tokens
  import opened Tables
  import opened Links
  import opened Protocol
  import opened Accounting
  import opened EndpointObjects
  import opened EndpointGroups
  import opened Network

  /** Groups of endpoints that share no storage with each other. */
  ghost predicate Apart(es: seq<ContentEndpoint>, fs: seq<ContentEndpoint>) {
    Members(es) !! Members(fs) && Buffers(es) !! Buffers(fs)
  }

  class UccnNode {
    const c: Config
    const name: string
    const address: Address
    const slots: array<Peer>
    var numPeers: nat
    const trackers: seq<ContentEndpoint>
    var numTrackers: nat
    const providers: seq<ContentEndpoint>
    var numProviders: nat
    var outgoing: Packet

    ghost predicate Valid()
      reads this, trackers, providers
    {
      && numPeers <= slots.Length == c.maxPeers < SIZE_MODULUS
      && numTrackers <= |trackers| == c.maxTrackers
      && numProviders <= |providers| == c.maxProviders
      && Group(trackers, c.maxPeers) && Group(providers, c.maxPeers) && Apart(trackers, providers)
    }

    ghost function Trackers(): seq<Endpoint>
      requires Valid()
      reads this, slots, trackers, providers, Buffers(trackers), Buffers(providers)
    {
      Values(trackers, numTrackers, c.maxPeers)
    }

    ghost function Providers(): seq<Endpoint>
      requires Valid()
      reads this, slots, trackers, providers, Buffers(trackers), Buffers(providers)
    {
      Values(providers, numProviders, c.maxPeers)
    }

    /** The node as a value. */
    ghost function Value(): (n: Node)
      requires Valid()
      reads this, slots, trackers, providers, Buffers(trackers), Buffers(providers)
      ensures Shaped(c, n) && n.slots == slots[..] && n.numPeers == numPeers && n.outgoing == outgoing
      ensures n.name == name && n.address == address
      ensures n.trackers == Trackers() && |n.trackers| == numTrackers
      ensures n.providers == Providers() && |n.providers| == numProviders
    {
      Node(name, address, slots[..], numPeers, Trackers(), Providers(), outgoing)
    }

    /** A node with empty tables. */
    constructor (config: Config, nodeName: string, own: Address)
      requires config.maxPeers < SIZE_MODULUS
      ensures Valid() && c == config
      ensures var n := Value();
              && n.name == nodeName && n.address == own && n.outgoing == []
              && n.numPeers == 0 && n.trackers == [] && n.providers == []
      ensures fresh(slots) && fresh(Members(trackers)) && fresh(Buffers(trackers))
      ensures fresh(Members(providers)) && fresh(Buffers(providers))
    {
      c, name, address := config, nodeName, own;
      slots := new Peer[config.maxPeers];
      var ts := Allocate(config.maxTrackers, config.maxPeers);
      var ps := Allocate(config.maxProviders, config.maxPeers);
      trackers, providers := ts, ps;
      numPeers, numTrackers, numProviders, outgoing := 0, 0, 0, [];
    }

    // ---------- peers and endpoints ----------

    /** The first peer with an address. */
    method LookUpPeer(origin: Address) returns (i: nat)
      requires numPeers <= slots.Length
      ensures i == FindPeer(slots[..], numPeers, origin)
    {
      i := 0;
      while i < numPeers && slots[i].address != origin
        invariant i <= numPeers
        invariant FindPeer(slots[..], numPeers, origin) == FindPeer(slots[..], numPeers, origin, i)
      {
        i := i + 1;
      }
    }

    /** Filling in the record of a new peer, field by field. */
    method SetUpPeer(i: nat, origin: Address, now: Timespec)
      requires i < slots.Length
      modifies slots
      ensures slots[..] == old(slots[..])[i := FreshPeer(c, origin, now)]
    {
      hide Plus;
      slots[i] := slots[i].(address := origin, name := "anon", alive := true);
      slots[i] := slots[i].(nextRemote := now);
      slots[i] := slots[i].(nextRemote := Plus(slots[i].nextRemote, c.LivelinessTimeout()));
      slots[i] := slots[i].(nextLocal := ZERO, providedDigest := 0, trackedDigest := 0, numLinks := 0);
    }

    /** The slot of a known or new peer, if the table has room left. */
    method RegisterPeer(origin: Address, now: Timespec) returns (slot: Option<nat>)
      requires Valid()
      modifies this`numPeers, slots
      ensures Valid() && Value() == Register(c, old(Value()), origin, now).0
      ensures slot == Register(c, old(Value()), origin, now).1
    {
      hide Values, Group, Plus, FreshPeer, Apart, FindPeer;
      ghost var n := Value();
      if numPeers >= c.maxPeers {
        return None;
      }
      var i := LookUpPeer(origin);
      if i < numPeers {
        slots[i] := slots[i].(nextRemote := now);
        slots[i] := slots[i].(nextRemote := Plus(slots[i].nextRemote, c.LivelinessTimeout()));
      } else {
        SetUpPeer(i, origin, now);
        numPeers := numPeers + 1;
      }
      assert slots[..] == n.slots[i := slots[i]];
      return Some(i);
    }

    /** A tracker for a resource: the one there is, with a new callback, or a new one. */
    method Track(resource: Resource, callback: nat) returns (slot: Option<nat>)
      requires Valid() && CanAdd(Trackers(), resource, c.maxTrackers)
      modifies this`numTrackers, Members(trackers)
      ensures Valid() && (Value(), slot) == Accounting.Track(old(Value()), resource, callback)
    {
      hide Values, HasHash, FindHash, AddEndpoint, CanAdd, Group;
      var i, same := FindResource(trackers, numTrackers, c.maxPeers, resource);
      AddEndpointCases(Trackers(), resource, callback, i, same);
      if same {
        SetCallback(trackers, numTrackers, c.maxPeers, i, callback);
        return Some(i);
      }
      if i < numTrackers {
        return None;
      }
      RoomToAdd(Trackers(), resource, c.maxTrackers);
      NextTracker(resource, callback);
      return Some(i);
    }

    method NextTracker(resource: Resource, callback: nat)
      requires Valid() && numTrackers < c.maxTrackers
      modifies this`numTrackers, Members(trackers)
      ensures Valid()
      ensures Value() == old(Value()).(trackers := old(Trackers()) + [Endpoint(resource, callback, [])])
    {
      hide Values, Group;
      SetUpNext(trackers, numTrackers, c.maxPeers, resource, callback);
      numTrackers := numTrackers + 1;
    }

    /** A provider for a resource: the one there is, as it is, or a new one. */
    method Advertise(resource: Resource) returns (slot: Option<nat>)
      requires Valid() && CanAdd(Providers(), resource, c.maxProviders)
      modifies this`numProviders, Members(providers)
      ensures Valid() && (Value(), slot) == Accounting.Advertise(old(Value()), resource)
    {
      hide Values, HasHash, FindHash, AddEndpoint, CallbackOf, CanAdd, Group;
      var i, same := FindResource(providers, numProviders, c.maxPeers, resource);
      AdvertiseCases(Providers(), resource, i, same);
      if same {
        return Some(i);
      }
      if i < numProviders {
        return None;
      }
      RoomToAdd(Providers(), resource, c.maxProviders);
      NextProvider(resource);
      return Some(i);
    }

    method NextProvider(resource: Resource)
      requires Valid() && numProviders < c.maxProviders
      modifies this`numProviders, Members(providers)
      ensures Valid()
      ensures Value() == old(Value()).(providers := old(Providers()) + [Endpoint(resource, 0, [])])
    {
      hide Values, Group;
      SetUpNext(providers, numProviders, c.maxPeers, resource, 0);
      numProviders := numProviders + 1;
    }

    // ---------- linking ----------

    /** Unlinking a peer from all trackers. */
    method UnlinkTrackers(k: nat) returns (count: int)
      requires Valid() && k < slots.Length
      modifies slots, Members(trackers), Buffers(trackers)
      ensures Valid()
      ensures var n := old(Value());
              var (es, u) := UnlinkAll(n.trackers, k);
              count == u && Value() == n.(trackers := es, slots := AddLinks(n.slots, k, -count))
    {
      hide UnlinkAll, AddLinks, Values;
      count := UnlinkEndpoints(trackers, numTrackers, c.maxPeers, slots, k);
    }

    /** Unlinking a peer from all providers. */
    method UnlinkProviders(k: nat) returns (count: int)
      requires Valid() && k < slots.Length
      modifies slots, Members(providers), Buffers(providers)
      ensures Valid()
      ensures var n := old(Value());
              var (es, u) := UnlinkAll(n.providers, k);
              count == u && Value() == n.(providers := es, slots := AddLinks(n.slots, k, -count))
    {
      hide UnlinkAll, AddLinks, Values;
      count := UnlinkEndpoints(providers, numProviders, c.maxPeers, slots, k);
    }

    /** Linking a peer to the trackers of each hash of a list. */
    method LinkTrackers(k: nat, hashes: seq<Hash>, matched0: seq<Hash>, code: int)
      returns (matched: seq<Hash>, ret: int, status: Status)
      requires Valid() && k < slots.Length
      modifies slots, Members(trackers), Buffers(trackers)
      ensures Valid()
      ensures var n := old(Value());
              var o := LinkHashes(n.trackers, k, hashes, c.maxPeers, c.maxResources, matched0, code);
              && Value() == n.(trackers := o.es, slots := AddLinks(n.slots, k, o.links))
              && matched == o.matched && ret == o.ret && status == o.status
    {
      hide LinkHashes, AddLinks, Values;
      matched, ret, status :=
        LinkHashList(trackers, numTrackers, c.maxPeers, slots, k, hashes, c.maxResources, matched0, code);
    }

    /** Linking a peer to the providers of each hash of a list. */
    method LinkProviders(k: nat, hashes: seq<Hash>, matched0: seq<Hash>, code: int)
      returns (matched: seq<Hash>, ret: int, status: Status)
      requires Valid() && k < slots.Length
      modifies slots, Members(providers), Buffers(providers)
      ensures Valid()
      ensures var n := old(Value());
              var o := LinkHashes(n.providers, k, hashes, c.maxPeers, c.maxResources, matched0, code);
              && Value() == n.(providers := o.es, slots := AddLinks(n.slots, k, o.links))
              && matched == o.matched && ret == o.ret && status == o.status
    {
      hide LinkHashes, AddLinks, Values;
      matched, ret, status :=
        LinkHashList(providers, numProviders, c.maxPeers, slots, k, hashes, c.maxResources, matched0, code);
    }

    /** Linking a peer to one tracker. */
    method LinkOneTracker(i: nat, k: nat) returns (code: int)
      requires Valid() && k < slots.Length && i < numTrackers
      modifies slots, Members(trackers), Buffers(trackers)
      ensures Valid() && (Value(), code) == LinkTracker(c, old(Value()), i, k)
    {
      hide LinkEndpoint, AddLinks, Values;
      assert Trackers()[i] == trackers[i].Value();
      code := LinkOne(trackers, numTrackers, c.maxPeers, slots, k, i);
    }

    /** Replacing the record of a peer. */
    method ReplacePeer(k: nat, p: Peer)
      requires Valid() && k < slots.Length
      modifies slots
      ensures Valid() && Value() == SetPeer(old(Value()), k, p)
    {
      hide Values, Group, Apart;
      slots[k] := p;
    }

    // ---------- probing ----------

    /** Marking every peer as alive or dead. */
    method MarkPeers(now: Timespec)
      requires Valid()
      modifies slots
      ensures Valid() && Value() == old(Value()).(slots := MarkAlive(old(slots[..]), numPeers, now))
    {
      hide Cmp, Values, Group;
      ghost var before := slots[..];
      for i := 0 to numPeers
        invariant slots[..i] == MarkAlive(before, numPeers, now)[..i] && slots[i..] == before[i..]
      {
        assert slots[i] == slots[i..][0] == before[i];
        slots[i] := slots[i].(alive := Cmp(slots[i].nextRemote, now) >= 0);
        assert slots[i + 1..] == before[i..][1..];
      }
      assert slots[..] == MarkAlive(before, numPeers, now);
    }

    /** Dropping peers that are dead or linked to nothing, by moving the others down, and finding the
        earliest deadline of those that stay. The index wraps around below zero. */
    method CompactPeers(start: Timespec) returns (next: Timespec)
      requires Valid()
      modifies this`numPeers, slots
      ensures Valid()
      ensures var n := old(Value());
              var (s, num) := Compact(n.slots, n.numPeers, 0, IsRetained);
              Value() == n.(slots := s, numPeers := num) && next == EarliestRemote(start, s[..num])
    {
      hide Cmp, Values, Group, ShiftDown, Compact, EarliestRemote, IsRetained;
      ghost var s, num := slots[..], numPeers;
      next := start;
      NoRemotes(start);
      var i: nat := 0;
      while i < numPeers
        invariant i <= numPeers <= num
        invariant Compact(s, num, 0, IsRetained) == Compact(slots[..], numPeers, i, IsRetained)
        invariant next == EarliestRemote(start, slots[..i])
        decreases numPeers - i
      {
        CompactStep(slots[..], numPeers, i, IsRetained);
        RetainedMeans(slots[i]);
        if !slots[i].alive || slots[i].numLinks == 0 {
          ShiftDownKeepsFirst(slots[..], numPeers, i);
          ShiftDownInPlace(slots, numPeers, i);
          numPeers := numPeers - 1;
          i := (i - 1) % SIZE_MODULUS;
        } else {
          NextRemote(start, slots[..], i);
          if Cmp(next, slots[i].nextRemote) > 0 {
            next := slots[i].nextRemote;
          }
        }
        i := (i + 1) % SIZE_MODULUS;
      }
      CompactDone(slots[..], numPeers, IsRetained);
    }

    /** Dropping the dead peers of all trackers, and counting those that have peers left. */
    method DropDeadOfTrackers() returns (active: nat)
      requires Valid() && InRange(Trackers(), slots.Length)
      modifies Members(trackers), Buffers(trackers)
      ensures Valid()
      ensures var ts := DropDead(old(Trackers()), slots[..]);
              Value() == old(Value()).(trackers := ts) && active == CountActive(ts)
    {
      hide Values, Below, DropDead, CountActive;
      active := DropDeadPeers(trackers, numTrackers, c.maxPeers, slots);
    }

    /** Dropping the dead peers of all providers, and counting those that have peers left. */
    method DropDeadOfProviders() returns (active: nat)
      requires Valid() && InRange(Providers(), slots.Length)
      modifies Members(providers), Buffers(providers)
      ensures Valid()
      ensures var ps := DropDead(old(Providers()), slots[..]);
              Value() == old(Value()).(providers := ps) && active == CountActive(ps)
    {
      hide Values, Below, DropDead, CountActive;
      active := DropDeadPeers(providers, numProviders, c.maxPeers, slots);
    }

    /** The periodic probe: dead peers leave the endpoints, then peers that are dead or linked to nothing
        leave the table. */
    method ProbeEndpoints(now: Timespec) returns (activeTrackers: nat, activeProviders: nat, next: Timespec)
      requires Valid() && InRange(Trackers(), slots.Length) && InRange(Providers(), slots.Length)
      modifies this`numPeers, slots, Members(trackers), Buffers(trackers), Members(providers), Buffers(providers)
      ensures Valid()
      ensures ProbeOut(Value(), activeTrackers, activeProviders, next) == Probe(c, old(Value()), now)
    {
      hide Valid, Value, Trackers, Providers, Below, InRange, DropDead, CountActive;
      hide MarkAlive, Compact, Plus, EarliestRemote, IsRetained;
      MarkPeers(now);
      activeTrackers := DropDeadOfTrackers();
      activeProviders := DropDeadOfProviders();
      next := CompactPeers(Plus(now, c.ProbeTimeout()));
    }

    // ---------- sending ----------

    /** What the outgoing buffer holds. */
    method SetOutgoing(packet: Packet)
      requires Valid()
      modifies this`outgoing
      ensures Valid() && Value() == old(Value()).(outgoing := packet)
    {
      outgoing := packet;
    }

    /** A discovery packet, listing the trackers without peers, to be broadcast. */
    method DiscoverPeers()
      requires Valid()
      modifies this`outgoing
      ensures Valid() && Value() == Discover(old(Value()))
    {
      hide Values, UnlinkedHashes;
      var hashes := CollectUnlinked(trackers, numTrackers, c.maxPeers);
      outgoing := DiscoveryPacket(name, hashes);
    }

    /** Keepalives to the peers that are due, and the time when the next one will be. */
    method AssertLiveliness(now: Timespec) returns (targets: seq<Address>, next: Timespec)
      requires Valid()
      modifies slots, this`outgoing
      ensures Valid()
      ensures var o := Protocol.AssertLiveliness(c, old(Value()), now);
              Value() == o.0 && targets == o.1 && next == o.2
    {
      hide Values, Group, Apart, Keepalive, MustSend, Plus, Cmp, IsZero, EarliestLocal;
      hide KeepaliveTargets, KeepaliveAll, KeptUpTo;
      outgoing := KeepalivePacket();
      ghost var before := slots[..];
      ghost var start := Plus(now, c.AssertTimeout());
      targets, next := [], Plus(now, c.AssertTimeout());
      NoneKept(c, before, now, start);
      for i := 0 to numPeers
        invariant outgoing == KeepalivePacket()
        invariant KeptUpTo(c, before, slots[..], now, i, start, targets, next)
      {
        ghost var was := slots[..];
        KeepNext(c, before, was, now, i, start, targets, next);
        KeepaliveMeans(c, slots[i], now);
        if Cmp(now, slots[i].nextLocal) >= 0 {
          targets := targets + [slots[i].address];
          if IsZero(slots[i].nextLocal) {
            slots[i] := slots[i].(nextLocal := now);
          }
          slots[i] := slots[i].(nextLocal := Plus(slots[i].nextLocal, c.AssertTimeout()));
        }
        assert slots[..] == was[i := slots[i]];
        if Cmp(next, slots[i].nextLocal) > 0 {
          next := slots[i].nextLocal;
        }
      }
      AllKept(c, before, slots[..], now, numPeers, start, targets, next);
    }

    /** Content to all peers of a provider, if it has any. */
    method Post(i: nat, blob: Blob, now: Timespec) returns (targets: seq<Address>)
      requires Valid() && i < numProviders && Below(Providers()[i].peers, slots.Length)
      modifies slots, this`outgoing
      ensures Valid()
      ensures var o := Protocol.Post(c, old(Value()), i, blob, now);
              Value() == o.0 && targets == o.1
    {
      hide Values, Group, Plus, PostTo, AddressesOf, Apart;
      var e := providers[i];
      assert Providers()[i] == e.Value();
      targets := [];
      if e.numPeers > 0 {
        outgoing := ContentPacket(e.resource.hash, blob);
        ghost var before := slots[..];
        ghost var all := e.peers[..e.numPeers];
        PostedToNone(c, before, now);
        for j := 0 to e.numPeers
          invariant all == e.peers[..e.numPeers] && outgoing == ContentPacket(e.resource.hash, blob)
          invariant Below(all[..j], |before|) && slots[..] == PostTo(c, before, all[..j], now)
          invariant targets == AddressesOf(before, all[..j])
        {
          PostNext(c, before, all, j, now);
          var k := e.peers[j];
          assert k == all[j];
          targets := targets + [slots[k].address];
          slots[k] := slots[k].(nextLocal := Plus(now, c.AssertTimeout()));
        }
        assert all[..e.numPeers] == all;
      }
    }
  }

  // ---------- steps of the loops ----------

  /** The peers below i have been looked at. */
  ghost predicate KeptUpTo(c: Config, before: seq<Peer>, slots: seq<Peer>, now: Timespec, i: nat, start: Timespec,
                           targets: seq<Address>, next: Timespec)
  {
    && i <= |before| == |slots|
    && slots == KeepaliveAll(c, before, i, now)
    && targets == KeepaliveTargets(before[..i], now)
    && next == EarliestLocal(start, slots[..i])
  }

  lemma NoneKept(c: Config, before: seq<Peer>, now: Timespec, start: Timespec)
    ensures KeptUpTo(c, before, before, now, 0, start, [], start)
  {
  }

  lemma KeepaliveMeans(c: Config, p: Peer, now: Timespec)
    ensures MustSend(p, now) <==> Cmp(now, p.nextLocal) >= 0
    ensures Keepalive(c, p, now)
         == if Cmp(now, p.nextLocal) < 0 then p
            else p.(nextLocal := Plus(if IsZero(p.nextLocal) then now else p.nextLocal, c.AssertTimeout()))
  {
  }

  lemma KeepNext(c: Config, before: seq<Peer>, slots: seq<Peer>, now: Timespec, i: nat, start: Timespec,
                 targets: seq<Address>, next: Timespec)
    requires KeptUpTo(c, before, slots, now, i, start, targets, next) && i < |before|
    ensures |slots| == |before|
    ensures var p := Keepalive(c, slots[i], now);
            KeptUpTo(c, before, slots[i := p], now, i + 1, start,
                     if MustSend(slots[i], now) then targets + [slots[i].address] else targets,
                     if Cmp(next, p.nextLocal) > 0 then p.nextLocal else next)
  {
    hide Keepalive, MustSend, Cmp;
    assert slots[i] == before[i];
    var p := Keepalive(c, slots[i], now);
    var slots' := slots[i := p];
    assert slots' == KeepaliveAll(c, before, i + 1, now);
    assert before[..i + 1][..i] == before[..i];
    assert slots'[..i + 1][..i] == slots[..i];
  }

  lemma AllKept(c: Config, before: seq<Peer>, slots: seq<Peer>, now: Timespec, num: nat, start: Timespec,
                targets: seq<Address>, next: Timespec)
    requires KeptUpTo(c, before, slots, now, num, start, targets, next)
    ensures |slots| == |before| && slots == KeepaliveAll(c, before, num, now)
    ensures targets == KeepaliveTargets(before[..num], now) && next == EarliestLocal(start, slots[..num])
  {
  }

  lemma PostedToNone(c: Config, before: seq<Peer>, now: Timespec)
    ensures Below([], |before|) && before == PostTo(c, before, [], now) && AddressesOf(before, []) == []
  {
  }

  lemma PostNext(c: Config, before: seq<Peer>, all: seq<nat>, j: nat, now: Timespec)
    requires j < |all| && Below(all, |before|)
    ensures all[j] < |before| && Below(all[..j], |before|) && Below(all[..j + 1], |before|)
    ensures var s := PostTo(c, before, all[..j], now);
            && s[all[j]].address == before[all[j]].address
            && PostTo(c, before, all[..j + 1], now)
                 == s[all[j] := s[all[j]].(nextLocal := Plus(now, c.AssertTimeout()))]
    ensures AddressesOf(before, all[..j + 1]) == AddressesOf(before, all[..j]) + [before[all[j]].address]
  {
    hide Plus;
    assert all[..j + 1] == all[..j] + [all[j]];
  }

  lemma AddEndpointCases(es: seq<Endpoint>, resource: Resource, callback: nat, i: nat, same: bool)
    requires i == FindHash(es, resource.hash) && (same <==> i < |es| && es[i].resource == resource)
    ensures AddEndpoint(es, resource, callback)
         == if same then (es[i := es[i].(callback := callback)], Some(i))
            else if i < |es| then (es, None)
            else (es + [Endpoint(resource, callback, [])], Some(i))
  {
  }

  lemma AdvertiseCases(es: seq<Endpoint>, resource: Resource, i: nat, same: bool)
    requires i == FindHash(es, resource.hash) && (same <==> i < |es| && es[i].resource == resource)
    ensures AddEndpoint(es, resource, CallbackOf(es, resource))
         == if i == |es| then (es + [Endpoint(resource, 0, [])], Some(i)) else (es, if same then Some(i) else None)
  {
    if same {
      assert es[i := es[i].(callback := es[i].callback)] == es;
    }
  }

  lemma RoomToAdd(es: seq<Endpoint>, resource: Resource, max: nat)
    requires CanAdd(es, resource, max) && FindHash(es, resource.hash) == |es|
    ensures |es| < max
  {
  }

  lemma NoRemotes(start: Timespec)
    ensures EarliestRemote(start, []) == start
  {
  }

  lemma RetainedMeans(p: Peer)
    ensures IsRetained(p) <==> p.alive && p.numLinks != 0
  {
  }

  lemma NextRemote(start: Timespec, s: seq<Peer>, i: nat)
    requires i < |s|
    ensures EarliestRemote(start, s[..i + 1]) == Earlier(EarliestRemote(start, s[..i]), s[i].nextRemote)
  {
    hide Cmp;
    assert s[..i + 1][..i] == s[..i];
  }

  lemma ShiftDownKeepsFirst<T(!new)>(s: seq<T>, num: nat, i: nat)
    requires i < num <= |s|
    ensures ShiftDown(s, num, i)[..i] == s[..i]
  {
  }
}
