/** The tables of a node and the operations on them (`src/uccn.c`), as functions of values. A pointer
    to a peer is the index of its slot in the peer array. */
module Tables {
  import opened Time
  import opened HashList
  import opened Sequences
  import opened Tokens

  /** The compile-time configuration (`include/uccn/config.h`). */
  datatype Config = Config(
    maxPeers: nat,
    maxResources: nat,
    maxTrackers: nat,
    maxProviders: nat,
    nameSize: nat,
    livelinessMs: nat,
    assertMs: nat,
    discoveryMs: nat,
    probeMs: nat
  ) {
    /** The guards of the header. Nothing bounds the number of providers: the guard meant for it
        checks the trackers again. */
    predicate Valid() {
      maxTrackers <= maxResources && assertMs < livelinessMs && probeMs < discoveryMs
    }

    function LivelinessTimeout(): Timespec { FromMs(livelinessMs) }
    function AssertTimeout(): Timespec { FromMs(assertMs) }
    function ProbeTimeout(): Timespec { FromMs(probeMs) }
    function DiscoveryPeriod(): Timespec { FromMs(discoveryMs) }
  }

  datatype Address = Address(ip: nat, port: nat)

  /** A resource; the identity stands for its address in memory. */
  datatype Resource = Resource(id: nat, hash: Hash)

  datatype Peer = Peer(
    address: Address,
    name: string,
    alive: bool,
    nextRemote: Timespec,
    nextLocal: Timespec,
    providedDigest: Hash,
    trackedDigest: Hash,
    numLinks: int
  )

  /** A tracker or a provider. Only a tracker uses the callback. */
  datatype Endpoint = Endpoint(resource: Resource, callback: nat, peers: seq<nat>)

  /** The slots are the whole peer array: the first numPeers hold peers, the others leftovers. The
      outgoing packet is what the outgoing buffer holds; it is empty when its length is zero. */
  datatype Node = Node(
    name: string,
    address: Address,
    slots: seq<Peer>,
    numPeers: nat,
    trackers: seq<Endpoint>,
    providers: seq<Endpoint>,
    outgoing: Packet
  )

  /** The slots and their number fit the array, as they do in any node. */
  predicate Shaped(c: Config, n: Node) {
    n.numPeers <= |n.slots| == c.maxPeers
  }

  // ---------- registering ----------

  function FindPeer(slots: seq<Peer>, num: nat, address: Address, from: nat := 0): (k: nat)
    requires from <= num <= |slots|
    ensures from <= k <= num
    ensures k < num ==> slots[k].address == address
    ensures forall j :: from <= j < k ==> slots[j].address != address
    decreases num - from
  {
    if from == num || slots[from].address == address then from else FindPeer(slots, num, address, from + 1)
  }

  function FreshPeer(c: Config, address: Address, now: Timespec): Peer {
    Peer(address, "anon", true, Plus(now, c.LivelinessTimeout()), ZERO, 0, 0, 0)
  }

  datatype Option<T> = None | Some(value: T)

  /** The slot of a known or new peer; nothing when the table is full, even for a known one. */
  function Register(c: Config, n: Node, address: Address, now: Timespec): (Node, Option<nat>)
    requires n.numPeers <= |n.slots| == c.maxPeers
  {
    if n.numPeers >= c.maxPeers then (n, None)
    else
      var k := FindPeer(n.slots, n.numPeers, address);
      if k < n.numPeers then
        (n.(slots := n.slots[k := n.slots[k].(nextRemote := Plus(now, c.LivelinessTimeout()))]), Some(k))
      else
        (n.(slots := n.slots[k := FreshPeer(c, address, now)], numPeers := n.numPeers + 1), Some(k))
  }

  function FindHash(es: seq<Endpoint>, hash: Hash, from: nat := 0): (i: nat)
    requires from <= |es|
    ensures from <= i <= |es|
    ensures i < |es| ==> es[i].resource.hash == hash
    ensures forall j :: from <= j < i ==> es[j].resource.hash != hash
    decreases |es| - from
  {
    if from == |es| || es[from].resource.hash == hash then from else FindHash(es, hash, from + 1)
  }

  /** Adding an endpoint, or finding it; nothing when the hash of another resource collides. */
  function AddEndpoint(es: seq<Endpoint>, resource: Resource, callback: nat): (r: (seq<Endpoint>, Option<nat>)) {
    var i := FindHash(es, resource.hash);
    if i == |es| then (es + [Endpoint(resource, callback, [])], Some(i))
    else if es[i].resource == resource then (es[i := es[i].(callback := callback)], Some(i))
    else (es, None)
  }

  // ---------- linking ----------

  /** One endpoint; the code is 1 for a new link, 0 for an old one and -1 when the endpoint is full. */
  function LinkEndpoint(e: Endpoint, k: nat, max: nat): (Endpoint, int) {
    if |e.peers| >= max then (e, -1)
    else if k in e.peers then (e, 0)
    else (e.(peers := e.peers + [k]), 1)
  }

  datatype LinkOut = LinkOut(es: seq<Endpoint>, links: nat, failed: bool)

  /** All endpoints with a hash, in order, up to the first that is full. */
  function LinkMatching(es: seq<Endpoint>, k: nat, hash: Hash, max: nat): LinkOut {
    if es == [] then LinkOut([], 0, false)
    else if es[0].resource.hash != hash then
      var rest := LinkMatching(es[1..], k, hash, max);
      rest.(es := [es[0]] + rest.es)
    else
      var (e, code) := LinkEndpoint(es[0], k, max);
      if code < 0 then LinkOut(es, 0, true)
      else
        var rest := LinkMatching(es[1..], k, hash, max);
        LinkOut([e] + rest.es, code + rest.links, rest.failed)
  }

  function UnlinkEndpoint(e: Endpoint, k: nat): (Endpoint, nat) {
    if k in e.peers then (e.(peers := Remove(e.peers, k)), 1) else (e, 0)
  }

  function UnlinkAll(es: seq<Endpoint>, k: nat): (seq<Endpoint>, nat) {
    if es == [] then ([], 0)
    else
      var (e, u) := UnlinkEndpoint(es[0], k);
      var (rest, v) := UnlinkAll(es[1..], k);
      ([e] + rest, u + v)
  }

  datatype Status = Good | Rejected | Overrun

  /** The endpoints after linking; how many links were made; the hashes that made one, behind those
      given; the last return code. */
  datatype RelinkOut = RelinkOut(es: seq<Endpoint>, links: nat, matched: seq<Hash>, ret: int, status: Status)

  /** Linking every hash of a list. The matched hashes go to an array of the given capacity; writing
      past its end would be an overrun. */
  function LinkHashes(es: seq<Endpoint>, k: nat, hs: seq<Hash>, max: nat, capacity: nat, matched: seq<Hash>, ret: int)
    : RelinkOut
    decreases |hs|
  {
    if hs == [] then RelinkOut(es, 0, matched, ret, Good)
    else
      var m := LinkMatching(es, k, hs[0], max);
      if m.failed then RelinkOut(m.es, m.links, matched, -1, Rejected)
      else if m.links > 0 && |matched| >= capacity then RelinkOut(m.es, m.links, matched, m.links, Overrun)
      else
        var rest := LinkHashes(m.es, k, hs[1..], max, capacity,
                               if m.links > 0 then matched + [hs[0]] else matched, m.links);
        rest.(links := m.links + rest.links)
  }

  function AddLinks(slots: seq<Peer>, k: nat, d: int): (r: seq<Peer>)
    requires k < |slots|
    ensures |r| == |slots|
  {
    slots[k := slots[k].(numLinks := slots[k].numLinks + d)]
  }

  // ---------- probing ----------

  function MarkAlive(slots: seq<Peer>, num: nat, now: Timespec): (r: seq<Peer>)
    requires num <= |slots|
    ensures |r| == |slots|
  {
    seq(|slots|, i requires 0 <= i < |slots| =>
      if i < num then slots[i].(alive := Cmp(slots[i].nextRemote, now) >= 0) else slots[i])
  }

  function IsAliveIn(slots: seq<Peer>): nat -> bool {
    (k: nat) => k < |slots| && slots[k].alive
  }

  function DropDead(es: seq<Endpoint>, slots: seq<Peer>): (r: seq<Endpoint>)
    ensures |r| == |es|
  {
    seq(|es|, i requires 0 <= i < |es| => es[i].(peers := Filter(es[i].peers, IsAliveIn(slots))))
  }

  function CountActive(es: seq<Endpoint>): nat {
    if es == [] then 0 else CountActive(es[..|es| - 1]) + if es[|es| - 1].peers != [] then 1 else 0
  }

  predicate IsRetained(p: Peer) {
    p.alive && p.numLinks != 0
  }

  /** The earliest of a time and the remote deadlines of some peers. */
  function EarliestRemote(start: Timespec, ps: seq<Peer>): Timespec {
    if ps == [] then start else Earlier(EarliestRemote(start, ps[..|ps| - 1]), ps[|ps| - 1].nextRemote)
  }

  datatype ProbeOut = ProbeOut(node: Node, activeTrackers: nat, activeProviders: nat, next: Timespec)

  function Probe(c: Config, n: Node, now: Timespec): ProbeOut
    requires n.numPeers <= |n.slots|
  {
    var marked := MarkAlive(n.slots, n.numPeers, now);
    var ts := DropDead(n.trackers, marked);
    var ps := DropDead(n.providers, marked);
    var (slots, num) := Compact(marked, n.numPeers, 0, IsRetained);
    ProbeOut(n.(slots := slots, numPeers := num, trackers := ts, providers := ps),
             CountActive(ts), CountActive(ps),
             EarliestRemote(Plus(now, c.ProbeTimeout()), slots[..num]))
  }

  // ---------- liveliness ----------

  predicate MustSend(p: Peer, now: Timespec) {
    Cmp(now, p.nextLocal) >= 0
  }

  /** A peer record after its keepalive check; a local deadline of zero stands for "now". */
  function Keepalive(c: Config, p: Peer, now: Timespec): Peer {
    if MustSend(p, now) then
      p.(nextLocal := Plus(if IsZero(p.nextLocal) then now else p.nextLocal, c.AssertTimeout()))
    else p
  }

  function KeepaliveAll(c: Config, slots: seq<Peer>, num: nat, now: Timespec): (r: seq<Peer>)
    requires num <= |slots|
    ensures |r| == |slots|
  {
    seq(|slots|, i requires 0 <= i < |slots| => if i < num then Keepalive(c, slots[i], now) else slots[i])
  }

  /** The addresses that get a keepalive. */
  function KeepaliveTargets(ps: seq<Peer>, now: Timespec): seq<Address> {
    if ps == [] then []
    else KeepaliveTargets(ps[..|ps| - 1], now) + if MustSend(ps[|ps| - 1], now) then [ps[|ps| - 1].address] else []
  }

  function EarliestLocal(start: Timespec, ps: seq<Peer>): Timespec {
    if ps == [] then start else Earlier(EarliestLocal(start, ps[..|ps| - 1]), ps[|ps| - 1].nextLocal)
  }

  // ---------- posting ----------

  /** The slots after content went to some of them: each gets a new local deadline. */
  function PostTo(c: Config, slots: seq<Peer>, targets: seq<nat>, now: Timespec): (r: seq<Peer>)
    requires Below(targets, |slots|)
    ensures |r| == |slots|
  {
    seq(|slots|, i requires 0 <= i < |slots| =>
      if i in targets then slots[i].(nextLocal := Plus(now, c.AssertTimeout())) else slots[i])
  }

  function AddressesOf(slots: seq<Peer>, targets: seq<nat>): seq<Address>
    requires Below(targets, |slots|)
  {
    seq(|targets|, i requires 0 <= i < |targets| => slots[targets[i]].address)
  }
}
