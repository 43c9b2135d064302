/** The digest cache: a node skips relinking when the digest of a list is the one it remembers. Beside
    the node we keep, for each peer, the tracked list it applied last and how many providers there were
    then, and show that the links are always those of that list; so a skip loses nothing unless digests
    collide or providers were added. */
module DigestCache {
  import opened Time
  import opened HashList
  import opened Sequences
  import opened Tokens
  import opened Tables
  import opened Links
  import opened Relink
  import opened Protocol
  import opened Accounting
  import opened Probing
  import opened RoundTrip
  import opened Exchange
  import opened Handshake
  import opened Network
  import opened NodeRuns

  /** The last tracked list applied for a peer, and the number of providers at the time. */
  datatype Record = Record(list: seq<Hash>, count: nat)

  type History = map<Address, Record>

  /** What may reach the node: all that nodes write - lists without repetitions, one to a packet, content,
      keepalives - and what the node does by itself. */
  datatype Input =
    | ListFrom(origin: Address, name: string, d: Datum, now: Timespec)
    | ContentFrom(origin: Address, hash: Hash, blob: Blob, now: Timespec)
    | KeepaliveFrom(origin: Address, now: Timespec)
    | Local(event: Event)

  ghost predicate Acceptable(c: Config, n: Node, i: Input)
    requires n.numPeers <= |n.slots|
  {
    match i
    case ListFrom(_, _, d, _) => Distinct(d.hashes) && |d.hashes| <= c.maxResources
    case ContentFrom(_, _, _, _) => true
    case KeepaliveFrom(_, _) => true
    case Local(e) => !e.Receives? && MayDo(c, n, e)
  }

  function InputPacket(i: Input): Packet
    requires !i.Local?
  {
    match i
    case ListFrom(_, name, d, _) => LinkPacket(name, [d])
    case ContentFrom(_, hash, blob, _) => ContentPacket(hash, blob)
    case KeepaliveFrom(_, _) => KeepalivePacket()
  }

  function InputStep(c: Config, unpack: Codec, n: Node, i: Input): Node
    requires Shaped(c, n) && InRange(n.providers, |n.slots|)
    requires i.Local? && i.event.Posts? ==> i.event.provider < |n.providers|
  {
    match i
    case Local(e) => NodeStep(c, unpack, n, e).0
    case _ => ProcessIncoming(c, unpack, n, i.origin, InputPacket(i), i.now).node
  }

  /** The record of a peer when it is about to be heard of. */
  function RecordOf(n: Node, g: History, origin: Address): Record
    requires n.numPeers <= |n.slots|
  {
    if SlotOf(n, origin) < n.numPeers && origin in g then g[origin] else Record([], |n.providers|)
  }

  /** Lists with a zero in them, or with a name that does not fit, are rejected. */
  predicate Rejects(c: Config, name: string, d: Datum) {
    0 in d.hashes || !FitsBuffer(name, c.nameSize)
  }

  /** The history after an input: a peer starts with the empty list, and a tracked list is recorded unless it
      is rejected or its digest is that of the last one. */
  function HistoryStep(c: Config, n: Node, g: History, i: Input): History
    requires n.numPeers <= |n.slots|
  {
    if i.Local? || n.numPeers >= c.maxPeers then g
    else
      var r := RecordOf(n, g, i.origin);
      if i.ListFrom? && !i.d.provided && !Rejects(c, i.name, i.d) && ListDigest(i.d.hashes) != ListDigest(r.list) then
        g[i.origin := Record(i.d.hashes, |n.providers|)]
      else g[i.origin := r]
  }

  /** The providers registered when the list was applied are linked to the peer if and only if their
      hash is in it; those registered since are not linked. */
  ghost predicate Explains(r: Record, p: Peer, ps: seq<Endpoint>, k: nat) {
    && p.trackedDigest == ListDigest(r.list)
    && r.count <= |ps|
    && forall i :: 0 <= i < |ps| ==> (k in ps[i].peers <==> i < r.count && ps[i].resource.hash in r.list)
  }

  ghost predicate Explained(n: Node, g: History)
    requires n.numPeers <= |n.slots|
  {
    forall k :: 0 <= k < n.numPeers ==>
      n.slots[k].address in g && Explains(g[n.slots[k].address], n.slots[k], n.providers, k)
  }

  // ---------- packets ----------

  /** An input that leaves the providers' links and the remembered digests alone. */
  lemma UntouchedExplained(n: Node, m: Node, g: History)
    requires n.numPeers <= |n.slots| && m.numPeers <= |m.slots| && m.numPeers <= n.numPeers
    requires Explained(n, g)
    requires |m.providers| >= |n.providers|
    requires forall k :: 0 <= k < m.numPeers ==>
               m.slots[k].address == n.slots[k].address && m.slots[k].trackedDigest == n.slots[k].trackedDigest
    requires forall i, k: nat :: 0 <= i < |n.providers| && k < m.numPeers ==>
               (k in m.providers[i].peers <==> k in n.providers[i].peers)
    requires forall i :: 0 <= i < |n.providers| ==> m.providers[i].resource == n.providers[i].resource
    requires forall i :: |n.providers| <= i < |m.providers| ==> m.providers[i].peers == []
    ensures Explained(m, g)
  {
    hide ListDigest;
  }

  lemma NewSlotUnnamed(es: seq<Endpoint>, k: nat, limit: nat)
    requires EndpointsOk(es, limit) && k >= limit
    ensures forall i :: 0 <= i < |es| ==> k !in es[i].peers
  {
  }

  lemma RegisterExplained(c: Config, n: Node, g: History, origin: Address, now: Timespec)
    requires Accounted(c, n) && Explained(n, g) && n.numPeers < c.maxPeers
    ensures var (m, slot) := Register(c, n, origin, now);
            && m.numPeers <= |m.slots| && Accounted(c, m)
            && slot == Some(SlotOf(n, origin)) && slot.value < m.numPeers
            && SlotOf(m, origin) == slot.value && m.slots[slot.value].address == origin
            && m.providers == n.providers
            && Explained(m, g[origin := RecordOf(n, g, origin)])
  {
    RegisterSlot(c, n, origin, now);
    RegisterKeeps(c, n, origin, now);
    AccountedAddresses(c, n);
    AccountedEndpoints(c, n);
    EmptyDigest();
    hide ListDigest, Accounted;
    var k := SlotOf(n, origin);
    var (m, slot) := Register(c, n, origin, now);
    var g' := g[origin := RecordOf(n, g, origin)];
    forall j | 0 <= j < m.numPeers
      ensures m.slots[j].address in g' && Explains(g'[m.slots[j].address], m.slots[j], m.providers, j)
    {
      if j == k && k == n.numPeers {
        NewSlotUnnamed(n.providers, k, k);
      }
    }
  }

  lemma RelinkedMembers(e: Endpoint, k: nat, hs: seq<Hash>)
    ensures forall j :: j != k ==> (j in Relinked(e, k, hs).peers <==> j in e.peers)
    ensures k in Relinked(e, k, hs).peers <==> e.resource.hash in hs
  {
  }

  lemma RelinkedResource(e: Endpoint, k: nat, hs: seq<Hash>)
    ensures Relinked(e, k, hs).resource == e.resource
  {
  }

  /** The providers after relinking for slot k. */
  lemma RelinkAllMembers(es: seq<Endpoint>, k: nat, hs: seq<Hash>)
    ensures var fs := RelinkAll(es, k, hs);
            forall i :: 0 <= i < |es| ==>
              && fs[i].resource == es[i].resource
              && (forall j :: j != k ==> (j in fs[i].peers <==> j in es[i].peers))
              && (k in fs[i].peers <==> es[i].resource.hash in hs)
  {
    hide Relinked;
    forall i | 0 <= i < |es|
      ensures var f := Relinked(es[i], k, hs);
              && f.resource == es[i].resource
              && (forall j :: j != k ==> (j in f.peers <==> j in es[i].peers))
              && (k in f.peers <==> es[i].resource.hash in hs)
    {
      RelinkedMembers(es[i], k, hs);
      RelinkedResource(es[i], k, hs);
    }
  }

  /** A tracked list with a new digest takes the place of the one recorded. */
  lemma RelinkedExplained(n: Node, m: Node, g: History, k: nat, hs: seq<Hash>)
    requires n.numPeers <= |n.slots| == |m.slots| && k < n.numPeers == m.numPeers && Explained(n, g)
    requires AddressesDistinct(n.slots, n.numPeers)
    requires m.providers == RelinkAll(n.providers, k, hs)
    requires forall j :: 0 <= j < n.numPeers && j != k ==> m.slots[j] == n.slots[j]
    requires m.slots[k].address == n.slots[k].address && m.slots[k].trackedDigest == ListDigest(hs)
    ensures Explained(m, g[n.slots[k].address := Record(hs, |n.providers|)])
  {
    hide ListDigest, RelinkAll;
    RelinkAllMembers(n.providers, k, hs);
  }

  lemma AppliedElsewhere(n: Node, k: nat, name: string, d: Datum)
    requires k < |n.slots|
    ensures var m := Applied(n, k, name, d);
            && |m.slots| == |n.slots| && m.numPeers == n.numPeers
            && (forall j :: 0 <= j < |n.slots| && j != k ==> m.slots[j] == n.slots[j])
            && m.slots[k].address == n.slots[k].address
            && (d.provided || Remembered(n.slots[k], d) == ListDigest(d.hashes) ==>
                  m.slots[k].trackedDigest == n.slots[k].trackedDigest && m.providers == n.providers)
            && (!d.provided && Remembered(n.slots[k], d) != ListDigest(d.hashes) ==>
                  m.slots[k].trackedDigest == ListDigest(d.hashes) && m.providers == RelinkAll(n.providers, k, d.hashes))
  {
    hide ListDigest, Filter, Mentions, ReplyPacket, RelinkAll;
  }

  /** One packet with one list. */
  lemma ListExplained(c: Config, unpack: Codec, n: Node, g: History, k: nat, name: string, d: Datum)
    requires Accounted(c, n) && n.numPeers <= |n.slots| && k < n.numPeers && Explained(n, g)
    requires GoodList(c, d) && FitsBuffer(name, c.nameSize)
    ensures var origin := n.slots[k].address;
            var m := ProcessPacket(c, unpack, n, k, LinkPacket(name, [d])).node;
            && m.numPeers <= |m.slots|
            && Explained(m, if !d.provided && ListDigest(d.hashes) != n.slots[k].trackedDigest
                            then g[origin := Record(d.hashes, |n.providers|)] else g)
  {
    hide ListDigest, Accounted, ProcessPacket, Applied, GoodList, RelinkAll, Explained, AddressesDistinct;
    AccountedAddresses(c, n);
    LinkPacketExact(c, unpack, n, k, name, d);
    AppliedElsewhere(n, k, name, d);
    var m := Applied(n, k, name, d);
    if !d.provided && ListDigest(d.hashes) != n.slots[k].trackedDigest {
      RelinkedExplained(n, m, g, k, d.hashes);
    } else {
      UntouchedExplained(n, m, g);
    }
  }

  /** One that is rejected. */
  lemma RejectedExplained(c: Config, unpack: Codec, n: Node, g: History, k: nat, name: string, d: Datum)
    requires n.numPeers <= |n.slots| && k < n.numPeers && Explained(n, g)
    requires |d.hashes| <= c.maxResources && Rejects(c, name, d)
    ensures var m := ProcessPacket(c, unpack, n, k, LinkPacket(name, [d])).node;
            m.numPeers <= |m.slots| && Explained(m, g)
  {
    hide ProcessPacket, LinkPacket, Explained, FitsBuffer;
    RejectedList(c, unpack, n, k, name, d);
    UntouchedExplained(n, ProcessPacket(c, unpack, n, k, LinkPacket(name, [d])).node, g);
  }

  lemma BlobDigests(c: Config, unpack: Codec, n: Node, k: nat, hash: Hash, blob: Blob)
    requires k < |n.slots|
    ensures var m := ProcessContentBlob(c, unpack, n, k, hash, blob).0;
            && |m.slots| == |n.slots| && m.numPeers == n.numPeers && m.providers == n.providers
            && forall j :: 0 <= j < |n.slots| ==>
                 m.slots[j].address == n.slots[j].address && m.slots[j].trackedDigest == n.slots[j].trackedDigest
  {
  }

  lemma ContentExplained(c: Config, unpack: Codec, n: Node, g: History, k: nat, hash: Hash, blob: Blob)
    requires n.numPeers <= |n.slots| && k < n.numPeers && Explained(n, g)
    ensures var m := ProcessPacket(c, unpack, n, k, ContentPacket(hash, blob)).node;
            m.numPeers <= |m.slots| && Explained(m, g)
  {
    hide ProcessContentBlob, ProcessPacket, Explained;
    if hash == 0 || blob == [] {
      RejectedContent(c, unpack, n, k, hash, blob);
    } else {
      ContentRoundTrip(c, unpack, n, k, hash, blob);
      BlobDigests(c, unpack, n, k, hash, blob);
    }
    UntouchedExplained(n, ProcessPacket(c, unpack, n, k, ContentPacket(hash, blob)).node, g);
  }

  lemma MapTwice(g: History, a: Address, r: Record, q: Record)
    ensures g[a := r][a := q] == g[a := q]
  {
  }

  lemma PacketInputExplained(c: Config, unpack: Codec, n: Node, g: History, i: Input)
    requires Accounted(c, n) && Shaped(c, n) && InRange(n.providers, |n.slots|)
    requires Explained(n, g) && Acceptable(c, n, i) && !i.Local?
    ensures var m := InputStep(c, unpack, n, i);
            m.numPeers <= |m.slots| && Explained(m, HistoryStep(c, n, g, i))
  {
    hide Accounted, Register, ProcessPacket, Explained, ListDigest, LinkPacket, RecordOf, FitsBuffer, Distinct;
    if n.numPeers < c.maxPeers {
      var r := RecordOf(n, g, i.origin);
      var g1 := g[i.origin := r];
      RegisterExplained(c, n, g, i.origin, i.now);
      var (m, slot) := Register(c, n, i.origin, i.now);
      var k := slot.value;
      match i {
        case ListFrom(origin, name, d, now) =>
          if Rejects(c, name, d) {
            RejectedExplained(c, unpack, m, g1, k, name, d);
          } else {
            ListExplained(c, unpack, m, g1, k, name, d);
            ExplainedDigest(m, g1, k);
            MapTwice(g, origin, r, Record(d.hashes, |n.providers|));
          }
        case ContentFrom(origin, hash, blob, now) => ContentExplained(c, unpack, m, g1, k, hash, blob);
        case KeepaliveFrom(origin, now) => KeepaliveRoundTrip(c, unpack, m, k);
      }
    } else {
      RegisterKeeps(c, n, i.origin, i.now);
    }
  }

  lemma ExplainedDigest(n: Node, g: History, k: nat)
    requires k < n.numPeers <= |n.slots| && Explained(n, g)
    ensures n.slots[k].address in g && n.slots[k].trackedDigest == ListDigest(g[n.slots[k].address].list)
  {
  }

  // ---------- what the node does by itself ----------

  lemma ProbeExplained(c: Config, n: Node, g: History, now: Timespec)
    requires Shaped(c, n) && Explained(n, g) && NoGap(MarkAlive(n.slots, n.numPeers, now), n.numPeers)
    ensures var m := Probe(c, n, now).node;
            m.numPeers <= |m.slots| && Explained(m, g)
  {
    hide Filter, Compact, Explained, NoGap;
    var size := StayersStay(c, n, now);
    var m := Probe(c, n, now).node;
    UntouchedExplained(n, m, g);
  }

  lemma AdvertiseExplained(c: Config, n: Node, g: History, resource: Resource)
    requires Accounted(c, n) && n.numPeers <= |n.slots| && Explained(n, g)
    ensures Explained(Advertise(n, resource).0, g)
  {
    AddEndpointKeeps(n.providers, resource, CallbackOf(n.providers, resource), n.numPeers);
    hide AddEndpoint, Explained, Distinct, Below;
    UntouchedExplained(n, Advertise(n, resource).0, g);
  }

  lemma LocalExplained(c: Config, unpack: Codec, n: Node, g: History, e: Event)
    requires Accounted(c, n) && Shaped(c, n) && InRange(n.providers, |n.slots|)
    requires Explained(n, g) && MayDo(c, n, e) && !e.Receives?
    ensures var m := NodeStep(c, unpack, n, e).0;
            m.numPeers <= |m.slots| && Explained(m, g)
  {
    hide Accounted, Explained, NoGap, Probe, AddEndpoint;
    if e.Advertises? {
      AdvertiseExplained(c, n, g, e.resource);
    } else if e.Probes? {
      ProbeExplained(c, n, g, e.now);
    } else {
      UntouchedExplained(n, NodeStep(c, unpack, n, e).0, g);
    }
  }

  // ---------- every run ----------

  lemma InputKeeps(c: Config, unpack: Codec, n: Node, g: History, i: Input)
    requires Accounted(c, n) && Shaped(c, n) && InRange(n.providers, |n.slots|)
    requires Explained(n, g) && Acceptable(c, n, i)
    ensures var m := InputStep(c, unpack, n, i);
            Accounted(c, m) && m.numPeers <= |m.slots| && Explained(m, HistoryStep(c, n, g, i))
  {
    hide Accounted, Explained, NodeStep, ProcessIncoming, MayDo;
    match i {
      case Local(e) =>
        LocalExplained(c, unpack, n, g, e);
        StepAccounted(c, unpack, n, e);
      case _ =>
        PacketInputExplained(c, unpack, n, g, i);
        IncomingKeeps(c, unpack, n, i.origin, InputPacket(i), i.now);
    }
  }

  /** A probe that leaves a gap. */
  ghost predicate Ends(n: Node, i: Input)
    requires n.numPeers <= |n.slots|
  {
    i.Local? && LeavesGap(n, i.event)
  }

  /** A run of a node together with its history, up to the first probe that leaves a gap. Inputs that are not
      acceptable - lists with repetitions or too long, which no node writes, and calls that are not permitted
      - are passed over. */
  ghost function CacheRun(c: Config, unpack: Codec, n: Node, g: History, inputs: seq<Input>): (Node, History)
    requires Accounted(c, n) && n.numPeers <= |n.slots| && Explained(n, g)
    decreases |inputs|
  {
    if inputs == [] then (n, g)
    else
      CanStep(c, n);
      if Ends(n, inputs[0]) then (n, g)
      else if Acceptable(c, n, inputs[0]) then
        InputKeeps(c, unpack, n, g, inputs[0]);
        CacheRun(c, unpack, InputStep(c, unpack, n, inputs[0]), HistoryStep(c, n, g, inputs[0]), inputs[1..])
      else CacheRun(c, unpack, n, g, inputs[1..])
  }

  /** In every run up to the first probe that leaves a gap, for every peer: the remembered digest is that of
      the last tracked list applied for it, and a provider registered by then is linked to it if and only if
      its hash is in that list. */
  lemma {:induction false} CacheAgrees(c: Config, unpack: Codec, n: Node, g: History, inputs: seq<Input>)
    requires Accounted(c, n) && n.numPeers <= |n.slots| && Explained(n, g)
    ensures var (m, h) := CacheRun(c, unpack, n, g, inputs);
            Accounted(c, m) && m.numPeers <= |m.slots| && Explained(m, h)
    decreases |inputs|
  {
    hide Accounted, Explained, InputStep, HistoryStep, Acceptable, Ends;
    if inputs != [] {
      CanStep(c, n);
      if !Ends(n, inputs[0]) && Acceptable(c, n, inputs[0]) {
        StepDefined(c, n, inputs[0]);
        InputKeeps(c, unpack, n, g, inputs[0]);
        CacheAgrees(c, unpack, InputStep(c, unpack, n, inputs[0]), HistoryStep(c, n, g, inputs[0]), inputs[1..]);
      } else if !Ends(n, inputs[0]) {
        CacheAgrees(c, unpack, n, g, inputs[1..]);
      }
    }
  }

  lemma StepDefined(c: Config, n: Node, i: Input)
    requires n.numPeers <= |n.slots| && Acceptable(c, n, i)
    ensures i.Local? && i.event.Posts? ==> i.event.provider < |n.providers|
  {
  }

  lemma EmptyExplained(n: Node)
    requires n.numPeers == 0
    ensures Explained(n, map[])
  {
  }

  /** So from an empty node on: for every peer there is a list - the empty one at first - whose digest is the
      remembered one, and the providers there at the time are linked to the peer exactly for its hashes. */
  lemma CacheAgreesFromStart(c: Config, unpack: Codec, n: Node, inputs: seq<Input>)
    requires |n.slots| == c.maxPeers && n.numPeers == 0 && n.trackers == [] && n.providers == []
    ensures Accounted(c, n) && Explained(n, map[])
    ensures var (m, h) := CacheRun(c, unpack, n, map[], inputs);
            && m.numPeers <= |m.slots|
            && forall k :: 0 <= k < m.numPeers ==>
                 && m.slots[k].address in h
                 && var r := h[m.slots[k].address];
                    && m.slots[k].trackedDigest == ListDigest(r.list)
                    && forall i :: 0 <= i < |m.providers| ==>
                         (k in m.providers[i].peers <==> i < r.count && m.providers[i].resource.hash in r.list)
  {
    hide CacheRun, ListDigest;
    EmptyNodeAccounted(c, n);
    EmptyExplained(n);
    CacheAgrees(c, unpack, n, map[], inputs);
  }

  // ---------- skipping ----------

  /** The same peers are linked to the same providers, in whatever order. */
  ghost predicate SameLinks(ps: seq<Endpoint>, qs: seq<Endpoint>) {
    && |ps| == |qs|
    && forall i :: 0 <= i < |ps| ==> forall j: nat :: j in ps[i].peers <==> j in qs[i].peers
  }

  /** When a list is skipped because its digest is the remembered one, the links are those relinking
      would have made exactly when every provider is asked for by the new list if and only if it was
      there for the old one and asked for by it. */
  lemma SkipIsRelinking(n: Node, g: History, k: nat, hs: seq<Hash>)
    requires k < n.numPeers <= |n.slots| && Explained(n, g)
    ensures n.slots[k].address in g
    ensures var r := g[n.slots[k].address];
            SameLinks(n.providers, RelinkAll(n.providers, k, hs)) <==>
              forall i :: 0 <= i < |n.providers| ==>
                (n.providers[i].resource.hash in hs <==> i < r.count && n.providers[i].resource.hash in r.list)
  {
    hide ListDigest, RelinkAll;
    RelinkAllMembers(n.providers, k, hs);
    var fs := RelinkAll(n.providers, k, hs);
    var r := g[n.slots[k].address];
    forall i | 0 <= i < |n.providers|
      ensures (forall j: nat :: j in n.providers[i].peers <==> j in fs[i].peers)
              <==> (k in n.providers[i].peers <==> k in fs[i].peers)
    {
    }
  }

  /** So, unless the list collides with the one recorded or a provider was added since, a skip loses
      nothing. */
  lemma SkipLosesNothing(n: Node, g: History, k: nat, hs: seq<Hash>)
    requires k < n.numPeers <= |n.slots| && Explained(n, g)
    requires n.slots[k].trackedDigest == ListDigest(hs)
    requires n.slots[k].address in g && g[n.slots[k].address].count == |n.providers|
    requires var r := g[n.slots[k].address]; ListDigest(r.list) == ListDigest(hs) ==> r.list == hs
    ensures SameLinks(n.providers, RelinkAll(n.providers, k, hs))
  {
    hide ListDigest, RelinkAll, Explained;
    SkipIsRelinking(n, g, k, hs);
    ExplainedDigest(n, g, k);
  }
}
