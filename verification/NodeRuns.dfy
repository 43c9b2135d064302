/** The accounting holds in every reachable state of a node, whatever packets reach it. */
module NodeRuns {
  import opened Time
  import opened Sequences
  import opened Tokens
  import opened Tables
  import opened Links
  import opened Protocol
  import opened Accounting
  import opened Probing
  import opened RoundTrip
  import opened Handshake
  import opened Network

  /** The callers' part: room for new endpoints, and existing providers to post on. A probe may happen when
      no peer that stays sits behind one that goes; by ProbeKeeps no other keeps the accounting. */
  ghost predicate MayDo(c: Config, n: Node, e: Event)
    requires n.numPeers <= |n.slots|
  {
    match e
    case Tracks(_, resource, _) => CanAdd(n.trackers, resource, c.maxTrackers)
    case Advertises(_, resource) => CanAdd(n.providers, resource, c.maxProviders)
    case Posts(_, p, _, _) => p < |n.providers|
    case Probes(_, now) => NoGap(MarkAlive(n.slots, n.numPeers, now), n.numPeers)
    case _ => true
  }

  /** A packet that makes the node write past its arrays: what the program does then is not defined.
      TwoListsOverrun says which link packets do. */
  ghost predicate Breaks(c: Config, unpack: Codec, n: Node, e: Event)
    requires Shaped(c, n)
  {
    e.Receives? && ProcessIncoming(c, unpack, n, e.message.source, e.message.packet, e.now).overrun
  }

  /** A probe after which some peer that stays would be behind one that goes. It moves peers away from under
      the links that name them, so by ProbeKeeps the accounting does not survive it. */
  ghost predicate LeavesGap(n: Node, e: Event)
    requires n.numPeers <= |n.slots|
  {
    e.Probes? && !NoGap(MarkAlive(n.slots, n.numPeers, e.now), n.numPeers)
  }

  /** Any other packet may be received, from anywhere. */
  ghost predicate Permitted(c: Config, unpack: Codec, n: Node, e: Event)
    requires Shaped(c, n)
  {
    MayDo(c, n, e) && !Breaks(c, unpack, n, e)
  }

  lemma OkInRange(es: seq<Endpoint>, limit: nat, size: nat)
    requires EndpointsOk(es, limit) && limit <= size
    ensures InRange(es, size)
  {
  }

  lemma CanStep(c: Config, n: Node)
    requires Accounted(c, n)
    ensures Shaped(c, n) && InRange(n.trackers, |n.slots|) && InRange(n.providers, |n.slots|)
  {
    OkInRange(n.trackers, n.numPeers, |n.slots|);
    OkInRange(n.providers, n.numPeers, |n.slots|);
  }

  lemma KeepaliveAccounts(c: Config, slots: seq<Peer>, num: nat, now: Timespec)
    requires num <= |slots|
    ensures SameAccounts(slots, KeepaliveAll(c, slots, num, now))
  {
  }

  lemma PostAccounts(c: Config, slots: seq<Peer>, targets: seq<nat>, now: Timespec)
    requires Below(targets, |slots|)
    ensures SameAccounts(slots, PostTo(c, slots, targets, now))
  {
  }

  lemma StepAccounted(c: Config, unpack: Codec, n: Node, e: Event)
    requires Accounted(c, n) && Shaped(c, n) && InRange(n.providers, |n.slots|) && Permitted(c, unpack, n, e)
    ensures Accounted(c, NodeStep(c, unpack, n, e).0)
  {
    hide Accounted, ProcessIncoming, Probe, KeepaliveAll, PostTo, NoGap, AddEndpoint, Below, MarkAlive;
    match e {
      case Tracks(_, resource, callback) => TrackKeeps(c, n, resource, callback);
      case Advertises(_, resource) => AdvertiseKeeps(c, n, resource);
      case Posts(_, p, blob, now) =>
        var targets := n.providers[p].peers;
        PostAccounts(c, n.slots, targets, now);
        DeadlinesKeep(c, n, PostTo(c, n.slots, targets, now), ContentPacket(n.providers[p].resource.hash, blob));
      case Asserts(_, now) =>
        KeepaliveAccounts(c, n.slots, n.numPeers, now);
        DeadlinesKeep(c, n, KeepaliveAll(c, n.slots, n.numPeers, now), KeepalivePacket());
      case Discovers(_) => DeadlinesKeep(c, n, n.slots, Discovery(n));
      case Probes(_, now) => ProbeKeeps(c, n, now);
      case Receives(_, m, now) => IncomingKeeps(c, unpack, n, m.source, m.packet, now);
    }
  }

  /** A run of one node up to the first probe that leaves a gap or packet that breaks it. Calls that are not
      permitted - a new endpoint without room for it, a post on no provider - are passed over. */
  ghost function NodeRun(c: Config, unpack: Codec, n: Node, events: seq<Event>): Node
    requires Accounted(c, n)
    decreases |events|
  {
    if events == [] then n
    else
      CanStep(c, n);
      if Breaks(c, unpack, n, events[0]) || LeavesGap(n, events[0]) then n
      else if Permitted(c, unpack, n, events[0]) then
        StepAccounted(c, unpack, n, events[0]);
        NodeRun(c, unpack, NodeStep(c, unpack, n, events[0]).0, events[1..])
      else NodeRun(c, unpack, n, events[1..])
  }

  /** An endpoint that refuses a live peer as one too many has it already. */
  ghost predicate RefusesOnlyLinked(c: Config, es: seq<Endpoint>, num: nat) {
    forall i, k: nat :: 0 <= i < |es| && k < num ==>
      (LinkEndpoint(es[i], k, c.maxPeers).1 < 0 ==> k in es[i].peers)
  }

  /** In every state up to the first probe that leaves a gap, or packet that breaks the node, each peer's link
      count is the number of endpoints that name it, all entries are live slots named once, and addresses are
      distinct; so "too many peers" never loses a link. */
  lemma {:induction false} RunAccounted(c: Config, unpack: Codec, n: Node, events: seq<Event>)
    requires Accounted(c, n)
    ensures var m := NodeRun(c, unpack, n, events);
            && Accounted(c, m)
            && RefusesOnlyLinked(c, m.trackers, m.numPeers) && RefusesOnlyLinked(c, m.providers, m.numPeers)
    decreases |events|
  {
    hide Accounted, NodeStep, RefusesOnlyLinked, NoGap, MarkAlive, ProcessIncoming;
    if events == [] {
      AccountedRefusals(c, n);
    } else {
      CanStep(c, n);
      if Breaks(c, unpack, n, events[0]) || LeavesGap(n, events[0]) {
        AccountedRefusals(c, n);
      } else if Permitted(c, unpack, n, events[0]) {
        StepAccounted(c, unpack, n, events[0]);
        RunAccounted(c, unpack, NodeStep(c, unpack, n, events[0]).0, events[1..]);
      } else {
        RunAccounted(c, unpack, n, events[1..]);
      }
    }
  }

  lemma AccountedRefusals(c: Config, n: Node)
    requires Accounted(c, n)
    ensures RefusesOnlyLinked(c, n.trackers, n.numPeers) && RefusesOnlyLinked(c, n.providers, n.numPeers)
  {
    hide LinkEndpoint, Distinct, Below;
    forall i, k: nat | 0 <= i < |n.trackers| && k < n.numPeers
      ensures LinkEndpoint(n.trackers[i], k, c.maxPeers).1 < 0 ==> k in n.trackers[i].peers
    {
      FullMeansLinked(n.trackers[i], k, n.numPeers, c.maxPeers);
    }
    forall i, k: nat | 0 <= i < |n.providers| && k < n.numPeers
      ensures LinkEndpoint(n.providers[i], k, c.maxPeers).1 < 0 ==> k in n.providers[i].peers
    {
      FullMeansLinked(n.providers[i], k, n.numPeers, c.maxPeers);
    }
  }

  // ---------- keepalives that are answered ----------

  /** A keepalive is answered with whatever the outgoing buffer holds, and not answered exactly when it
      is empty. */
  lemma KeepaliveReply(c: Config, unpack: Codec, n: Node, origin: Address, now: Timespec)
    requires Accounted(c, n) && n.numPeers < c.maxPeers
    ensures Shaped(c, n)
    ensures var o := ProcessIncoming(c, unpack, n, origin, KeepalivePacket(), now);
            && o.reply == (if n.outgoing == [] then None else Some(n.outgoing))
            && o.node.outgoing == n.outgoing && o.node.address == n.address
            && o.node.numPeers == (if SlotOf(n, origin) < n.numPeers then n.numPeers else n.numPeers + 1)
            && o.node.numPeers <= |o.node.slots| && SlotOf(o.node, origin) < o.node.numPeers
            && Accounted(c, o.node)
  {
    hide Accounted, Register, ProcessPacket;
    AccountedShape(c, n);
    RegisterSlot(c, n, origin, now);
    var (m, slot) := Register(c, n, origin, now);
    KeepaliveRoundTrip(c, unpack, m, slot.value);
  }

  /** Two nodes whose outgoing buffers both hold a keepalive answer one keepalive with another for as
      long as packets arrive: this exchange never ends. */
  lemma {:induction false} KeepalivesEcho(c: Config, unpack: Codec, a: Node, b: Node, toB: bool, times: seq<Timespec>)
    requires Accounted(c, a) && Accounted(c, b) && Shaped(c, a) && Shaped(c, b)
    requires AcceptsFrom(c, a, b.address) && AcceptsFrom(c, b, a.address)
    requires a.outgoing == KeepalivePacket() && b.outgoing == KeepalivePacket()
    ensures var t := Converse(c, unpack, a, b, toB, KeepalivePacket(), times);
            t.pending == Some(KeepalivePacket()) && |t.sent| == |times| + 1
    decreases |times|
  {
    hide Accounted, ProcessIncoming;
    if times != [] {
      if toB {
        KeepaliveReply(c, unpack, b, a.address, times[0]);
        var o := ProcessIncoming(c, unpack, b, a.address, KeepalivePacket(), times[0]);
        AccountedShape(c, o.node);
        KeepalivesEcho(c, unpack, a, o.node, false, times[1..]);
      } else {
        KeepaliveReply(c, unpack, a, b.address, times[0]);
        var o := ProcessIncoming(c, unpack, a, b.address, KeepalivePacket(), times[0]);
        AccountedShape(c, o.node);
        KeepalivesEcho(c, unpack, o.node, b, true, times[1..]);
      }
    }
  }
}
