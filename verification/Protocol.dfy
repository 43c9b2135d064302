/** Processing packets (`src/uccn.c`): content groups, link groups, and the reply they call for. */
module Protocol {
  import opened Time
  import opened HashList
  import opened Sequences
  import opened Tokens
  import opened Tables

  /** How resources turn blobs into content; a failure is None. */
  type Content = seq<int>
  type Codec = (Resource, Blob) -> Option<Content>
  type Packer = (Resource, Content) -> Blob

  /** A tracker callback that was run, and with what. */
  datatype Delivery = Delivery(callback: nat, content: Content)

  // ---------- content ----------

  datatype ContentOut = ContentOut(node: Node, reader: Reader, ret: int, delivered: seq<Delivery>)

  function LinkTracker(c: Config, n: Node, i: nat, k: nat): (Node, int)
    requires i < |n.trackers| && k < |n.slots|
  {
    var (e, code) := LinkEndpoint(n.trackers[i], k, c.maxPeers);
    (n.(trackers := n.trackers[i := e], slots := if code > 0 then AddLinks(n.slots, k, code) else n.slots), code)
  }

  function ProcessContentBlob(c: Config, unpack: Codec, n: Node, k: nat, hash: Hash, blob: Blob)
    : (o: (Node, int, seq<Delivery>))
    requires k < |n.slots|
    ensures |o.0.slots| == |n.slots|
  {
    var i := FindHash(n.trackers, hash);
    if i == |n.trackers| then (n, 0, [])
    else match unpack(n.trackers[i].resource, blob)
      case None => (n, -1, [])
      case Some(content) =>
        var (n', code) := LinkTracker(c, n, i, k);
        (n', code, [Delivery(n.trackers[i].callback, content)])
  }

  /** The entries of a content group. An entry that makes a new link ends the group early. */
  function ProcessContents(c: Config, unpack: Codec, n: Node, k: nat, r: Reader, count: nat): (o: ContentOut)
    requires k < |n.slots|
    ensures |o.node.slots| == |n.slots|
    decreases count
  {
    if count == 0 then ContentOut(n, r, 0, [])
    else
      var (hash, r1) := ExpectU32(r);
      if hash == 0 then ContentOut(n, r1, -1, [])
      else
        var (blob, r2) := ExpectBin(r1);
        if blob == [] then ContentOut(n, r2, -1, [])
        else
          var (n', ret, d) := ProcessContentBlob(c, unpack, n, k, hash, blob);
          if ret != 0 then ContentOut(n', r2, ret, d)
          else
            var rest := ProcessContents(c, unpack, n', k, r2, count - 1);
            rest.(delivered := d + rest.delivered)
  }

  function ProcessContentGroup(c: Config, unpack: Codec, n: Node, k: nat, r: Reader): (o: ContentOut)
    requires k < |n.slots|
    ensures |o.node.slots| == |n.slots|
  {
    var (isMap, size, r') := ExpectMapOrNil(r, MAX_MAP_SIZE);
    if isMap then ProcessContents(c, unpack, n, k, r', size) else ContentOut(n, r', 0, [])
  }

  // ---------- link groups ----------

  /** The local arrays of link group processing. The hashes read are shared by all the arrays of a
      group and never reset; the arrays count how many were read, for the statements below. */
  datatype Scratch = Scratch(hashes: seq<Hash>, tracked: seq<Hash>, provided: seq<Hash>, arrays: nat)

  datatype HashesOut = HashesOut(hashes: seq<Hash>, reader: Reader, status: Status)

  /** Reading hashes behind those already read. Zero is no hash. */
  function ReadHashes(r: Reader, count: nat, hashes: seq<Hash>, capacity: nat): HashesOut
    decreases count
  {
    if count == 0 then HashesOut(hashes, r, Good)
    else
      var (hash, r') := ExpectU32(r);
      if hash == 0 then HashesOut(hashes, r', Rejected)
      else if |hashes| >= capacity then HashesOut(hashes, r', Overrun)
      else ReadHashes(r', count - 1, hashes + [hash], capacity)
  }

  datatype LinkOutcome = LinkOutcome(node: Node, reader: Reader, scratch: Scratch, ret: int, status: Status)

  function SetPeer(n: Node, k: nat, p: Peer): Node
    requires k < |n.slots|
  {
    n.(slots := n.slots[k := p])
  }

  /** A provided array: unless its digest is the remembered one, the trackers are linked anew, with
      all the hashes read so far in the group. */
  function ApplyProvided(c: Config, n: Node, k: nat, r: Reader, s: Scratch, ret: int): (o: LinkOutcome)
    requires k < |n.slots|
    ensures |o.node.slots| == |n.slots|
  {
    var digest := ListDigest(s.hashes);
    if n.slots[k].providedDigest == digest then LinkOutcome(n, r, s, ret, Good)
    else
      var (es, unlinks) := UnlinkAll(n.trackers, k);
      var o := LinkHashes(es, k, s.hashes, c.maxPeers, c.maxResources, s.tracked, unlinks);
      var n' := n.(trackers := o.es, slots := AddLinks(n.slots, k, o.links - unlinks));
      if o.status != Good then LinkOutcome(n', r, s, o.ret, o.status)
      else LinkOutcome(SetPeer(n', k, n'.slots[k].(providedDigest := digest)), r, s.(tracked := o.matched), o.ret, Good)
  }

  /** A tracked array: the same for the providers, with as many of the hashes read in the group, from
      the first on, as this array had. */
  function ApplyTracked(c: Config, n: Node, k: nat, r: Reader, s: Scratch, ret: int, size: nat): (o: LinkOutcome)
    requires k < |n.slots| && size <= |s.hashes|
    ensures |o.node.slots| == |n.slots|
  {
    var digest := ListDigest(s.hashes);
    if n.slots[k].trackedDigest == digest then LinkOutcome(n, r, s, ret, Good)
    else
      var (es, unlinks) := UnlinkAll(n.providers, k);
      var o := LinkHashes(es, k, s.hashes[..size], c.maxPeers, c.maxResources, s.provided, unlinks);
      var n' := n.(providers := o.es, slots := AddLinks(n.slots, k, o.links - unlinks));
      if o.status != Good then LinkOutcome(n', r, s, o.ret, o.status)
      else LinkOutcome(SetPeer(n', k, n'.slots[k].(trackedDigest := digest)), r, s.(provided := o.matched), o.ret, Good)
  }

  lemma {:induction false} ReadHashesGrows(r: Reader, count: nat, hashes: seq<Hash>, capacity: nat)
    ensures var o := ReadHashes(r, count, hashes, capacity);
            && |o.hashes| <= |hashes| + count
            && (o.status == Good ==> |o.hashes| == |hashes| + count)
            && (|hashes| <= capacity ==> |o.hashes| <= capacity)
    decreases count
  {
    if count > 0 {
      var (hash, r') := ExpectU32(r);
      if hash != 0 && |hashes| < capacity {
        ReadHashesGrows(r', count - 1, hashes + [hash], capacity);
      }
    }
  }

  function ProcessArray(c: Config, n: Node, k: nat, r: Reader, s: Scratch, ret: int, provided: bool): (o: LinkOutcome)
    requires k < |n.slots|
    ensures |o.node.slots| == |n.slots|
  {
    var (isArray, size, r1) := ExpectArrayOrNil(r, c.maxResources);
    if !isArray then LinkOutcome(n, r1, s, ret, Good)
    else
      var h := ReadHashes(r1, size, s.hashes, c.maxResources);
      ReadHashesGrows(r1, size, s.hashes, c.maxResources);
      var s' := s.(hashes := h.hashes, arrays := s.arrays + 1);
      if h.status != Good then LinkOutcome(n, h.reader, s', -1, h.status)
      else if provided then ApplyProvided(c, n, k, h.reader, s', ret)
      else ApplyTracked(c, n, k, h.reader, s', ret, size)
  }

  function ProcessDatum(c: Config, n: Node, k: nat, r: Reader, s: Scratch, ret: int): (o: LinkOutcome)
    requires k < |n.slots|
    ensures |o.node.slots| == |n.slots|
  {
    var (code, r1) := ExpectU8(r);
    if code == NODE_NAME then
      var (name, r2) := ExpectCstr(r1, c.nameSize);
      LinkOutcome(SetPeer(n, k, n.slots[k].(name := name)), r2, s, ret, Good)
    else if code == PROVIDED_ARRAY then ProcessArray(c, n, k, r1, s, ret, true)
    else if code == TRACKED_ARRAY then ProcessArray(c, n, k, r1, s, ret, false)
    else LinkOutcome(n, r1, s, -1, Rejected)
  }

  function ProcessData(c: Config, n: Node, k: nat, r: Reader, s: Scratch, ret: int, count: nat): (o: LinkOutcome)
    requires k < |n.slots|
    ensures |o.node.slots| == |n.slots|
    decreases count
  {
    if count == 0 then LinkOutcome(n, r, s, ret, Good)
    else
      var o := ProcessDatum(c, n, k, r, s, ret);
      if o.status != Good then o
      else ProcessData(c, o.node, k, o.reader, o.scratch, o.ret, count - 1)
  }

  const EMPTY_SCRATCH := Scratch([], [], [], 0)

  function ProcessLinkGroup(c: Config, n: Node, k: nat, r: Reader): (o: LinkOutcome)
    requires k < |n.slots|
    ensures |o.node.slots| == |n.slots|
  {
    var (isMap, size, r') := ExpectMapOrNil(r, MAX_NUM_LINK_DATA);
    if isMap then ProcessData(c, n, k, r', EMPTY_SCRATCH, 0, size) else LinkOutcome(n, r', EMPTY_SCRATCH, 0, Good)
  }

  /** What a link group leaves in the outgoing buffer. */
  function LinkReply(name: string, o: LinkOutcome): Packet {
    if o.status == Good then ReplyPacket(name, o.scratch.tracked, o.scratch.provided) else []
  }

  // ---------- packets ----------

  datatype PacketOut = PacketOut(node: Node, reader: Reader, ret: int, delivered: seq<Delivery>, overrun: bool)

  function ProcessGroup(c: Config, unpack: Codec, n: Node, k: nat, r: Reader): (o: PacketOut)
    requires k < |n.slots|
    ensures |o.node.slots| == |n.slots|
  {
    var (code, r1) := ExpectU8(r);
    if code == CONTENT_GROUP then
      var o := ProcessContentGroup(c, unpack, n, k, r1);
      PacketOut(o.node.(outgoing := []), o.reader, o.ret, o.delivered, false)
    else if code == LINK_GROUP then
      var o := ProcessLinkGroup(c, n, k, r1);
      PacketOut(o.node.(outgoing := LinkReply(n.name, o)), o.reader, o.ret, [], o.status == Overrun)
    else PacketOut(n, r1, -1, [], false)
  }

  /** The groups of a packet, as long as they return zero. */
  function ProcessGroups(c: Config, unpack: Codec, n: Node, k: nat, r: Reader, count: nat): (o: PacketOut)
    requires k < |n.slots|
    ensures |o.node.slots| == |n.slots|
    decreases count
  {
    if count == 0 then PacketOut(n, r, 0, [], false)
    else
      var o := ProcessGroup(c, unpack, n, k, r);
      if o.ret != 0 || o.overrun then o
      else
        var rest := ProcessGroups(c, unpack, o.node, k, o.reader, count - 1);
        rest.(delivered := o.delivered + rest.delivered)
  }

  /** A nil packet leaves the outgoing buffer as it was. */
  function ProcessPacket(c: Config, unpack: Codec, n: Node, k: nat, packet: Packet): (o: PacketOut)
    requires k < |n.slots|
    ensures |o.node.slots| == |n.slots|
  {
    var (isMap, size, r) := ExpectMapOrNil(Reader(packet, true), MAX_NUM_GROUPS);
    var o := if isMap then ProcessGroups(c, unpack, n, k, r, size) else PacketOut(n, r, 0, [], false);
    if o.reader.ok then o else o.(ret := -1)
  }

  datatype IncomingOut = IncomingOut(node: Node, ret: int, reply: Option<Packet>, delivered: seq<Delivery>, overrun: bool)

  /** A packet from some address: its sender is registered, the packet processed, and the outgoing
      buffer sent back unless it is empty or processing failed. */
  function ProcessIncoming(c: Config, unpack: Codec, n: Node, origin: Address, packet: Packet, now: Timespec)
    : (o: IncomingOut)
    requires Shaped(c, n)
    ensures |o.node.slots| == |n.slots|
  {
    var (n', slot) := Register(c, n, origin, now);
    match slot
    case None => IncomingOut(n', -1, None, [], false)
    case Some(k) =>
      var o := ProcessPacket(c, unpack, n', k, packet);
      if o.ret < 0 then IncomingOut(o.node, o.ret, None, o.delivered, o.overrun)
      else IncomingOut(o.node, 0, if o.node.outgoing != [] then Some(o.node.outgoing) else None, o.delivered, o.overrun)
  }

  /** The hashes of the trackers without a peer, as a discovery packet lists them. */
  function UnlinkedHashes(es: seq<Endpoint>): seq<Hash> {
    if es == [] then []
    else UnlinkedHashes(es[..|es| - 1]) + if es[|es| - 1].peers == [] then [es[|es| - 1].resource.hash] else []
  }

  function Discovery(n: Node): Packet {
    DiscoveryPacket(n.name, UnlinkedHashes(n.trackers))
  }

  // ---------- sending ----------

  /** A broadcast discovery packet goes out and stays in the outgoing buffer. */
  function Discover(n: Node): Node {
    n.(outgoing := Discovery(n))
  }

  /** Keepalives go to the peers that are due; the next deadline is returned. */
  function AssertLiveliness(c: Config, n: Node, now: Timespec): (Node, seq<Address>, Timespec)
    requires n.numPeers <= |n.slots|
  {
    var slots := KeepaliveAll(c, n.slots, n.numPeers, now);
    (n.(slots := slots, outgoing := KeepalivePacket()),
     KeepaliveTargets(n.slots[..n.numPeers], now),
     EarliestLocal(Plus(now, c.AssertTimeout()), slots[..n.numPeers]))
  }

  /** Content, packed into a blob, goes to the peers of a provider; without any, nothing happens. */
  function Post(c: Config, n: Node, i: nat, blob: Blob, now: Timespec): (Node, seq<Address>)
    requires i < |n.providers| && Below(n.providers[i].peers, |n.slots|)
  {
    var e := n.providers[i];
    if e.peers == [] then (n, [])
    else
      (n.(slots := PostTo(c, n.slots, e.peers, now), outgoing := ContentPacket(e.resource.hash, blob)),
       AddressesOf(n.slots, e.peers))
  }
}
