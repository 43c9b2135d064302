/** Inputs on which the code does not do what one might expect of it; the conditions for it to do so are
    proved elsewhere. */
module Witnesses {
  import opened Time
  import opened Iteration
  import opened ShiftRegister
  import opened CrcTable
  import opened HashList
  import opened Sequences
  import opened Tokens
  import opened Tables
  import opened Links
  import opened Protocol
  import opened Accounting
  import opened Probing
  import opened RoundTrip
  import opened Exchange
  import opened Handshake
  import opened Receiving
  import opened Overruns
  import opened EventLoop
  import opened DigestCache
  import Crc32

  /** The configuration that the header gives by default. */
  const DEFAULTS := Config(5, 10, 10, 10, 64, 2000, 1000, 1000, 500)

  const NOW := Timespec(1, 0)
  const LATER := Timespec(3, 0)

  // ---------- a probe that breaks a link ----------

  function PeerAt(port: nat, links: int, deadline: Timespec): Peer {
    Peer(Address(1, port), "anon", true, deadline, ZERO, 0, 0, links)
  }

  /** Two peers, of which only the second is linked, to a tracker. */
  function Gapped(): Node {
    Node("n", Address(0, 0), [PeerAt(0, 0, LATER), PeerAt(1, 1, LATER),
         PeerAt(2, 0, ZERO), PeerAt(3, 0, ZERO), PeerAt(4, 0, ZERO)],
         2, [Endpoint(Resource(0, 7), 0, [1])], [], [])
  }

  /** The first peer goes, the second moves down, and the tracker's link is left naming nobody. */
  lemma ProbeCanBreakLinks()
    ensures Accounted(DEFAULTS, Gapped()) && Shaped(DEFAULTS, Gapped())
    ensures !LinksIntact(Gapped(), Probe(DEFAULTS, Gapped(), NOW).node)
  {
    GappedAccounted();
    GapBreaks(DEFAULTS, Gapped(), NOW, 0, 1);
  }

  lemma GappedAccounted()
    ensures Accounted(DEFAULTS, Gapped()) && Shaped(DEFAULTS, Gapped())
  {
  }

  // ---------- a pass of the event loop whose assertion fails ----------

  /** One linked peer whose deadline is this very instant. */
  function Falling(): Node {
    Node("n", Address(0, 0), [PeerAt(0, 1, NOW), PeerAt(1, 0, ZERO),
         PeerAt(2, 0, ZERO), PeerAt(3, 0, ZERO), PeerAt(4, 0, ZERO)],
         1, [Endpoint(Resource(0, 7), 0, [0])], [], [])
  }

  /** When the probe reads the same time as the loop. */
  lemma PassCanFail()
    ensures Shaped(DEFAULTS, Falling())
    ensures !OnePass(DEFAULTS, Falling(), Agenda(LATER, NOW, LATER, 0), Readings(NOW, NOW, NOW)).held
  {
    PassHolds(DEFAULTS, Falling(), Agenda(LATER, NOW, LATER, 0), Readings(NOW, NOW, NOW));
    assert Falling().slots[0].nextRemote == NOW;
  }

  // ---------- a handshake after which the two ends disagree ----------

  /** The digest of the list of the hash 1. */
  const FIRST: Hash := 0xb8bc6765

  /** The digest of the list of that hash. */
  const SECOND: Hash := 0xccaa009e

  /** Eight clocks at a time, by the table. */
  lemma EightMore(r: bv32, n: nat, lo: bv32, hi: bv32, v: bv32, w: bv32)
    requires lo == r & 0xff && hi == r >> 8 && lo < 256
    requires v == Xor(Combine(lo), hi) && Shifts(v, n) == w
    ensures Shifts(r, n + 8) == w
  {
    hide Combine, Shift, Xor;
    Crc32.CombineIsShifts(lo);
    Crc32.EightClocks(r, lo, hi);
    IterateAdd(Shift, r, 8, n);
  }

  lemma FirstShifts()
    ensures Shifts(1, 32) == FIRST
  {
    hide Shift;
    EightMore(0x1c26a37, 0, 0x37, 0x1c26a, 0xb8bc6765, 0xb8bc6765);
    EightMore(0x191b3141, 8, 0x41, 0x191b31, 0x1c26a37, 0xb8bc6765);
    EightMore(0x77073096, 16, 0x96, 0x770730, 0x191b3141, 0xb8bc6765);
    EightMore(0x1, 24, 0x1, 0x0, 0x77073096, 0xb8bc6765);
  }

  lemma SecondShifts()
    ensures Shifts(FIRST, 32) == SECOND
  {
    hide Shift;
    EightMore(0xa6770bb4, 0, 0xb4, 0xa6770b, 0xccaa009e, 0xccaa009e);
    EightMore(0xcb5cd3a5, 8, 0xa5, 0xcb5cd3, 0xa6770bb4, 0xccaa009e);
    EightMore(0x3d6029b0, 16, 0xb0, 0x3d6029, 0xcb5cd3a5, 0xccaa009e);
    EightMore(0xb8bc6765, 24, 0x65, 0xb8bc67, 0x3d6029b0, 0xccaa009e);
  }

  lemma SingleDigest(h: Hash)
    ensures ListDigest([h]) == Shifts(h, 32)
  {
    hide Shifts, ListDigest;
    DigestSnoc([], h);
    EmptyDigest();
    assert [] + [h] == [h] && Xor(0, h) == h;
  }

  function Tracking(): Node {
    Node("a", Address(0, 0), seq(5, i requires 0 <= i < 5 => PeerAt(i, 0, ZERO)), 0,
         [Endpoint(Resource(0, FIRST), 0, []), Endpoint(Resource(1, 1), 0, [])], [], [])
  }

  function Providing(): Node {
    Node("b", Address(0, 1), seq(5, i requires 0 <= i < 5 => PeerAt(i, 0, ZERO)), 0,
         [], [Endpoint(Resource(0, FIRST), 0, []), Endpoint(Resource(1, 1), 0, [])], [])
  }

  lemma WhatIsAsked()
    ensures Asked(Tracking()) == [FIRST, 1]
  {
    var ts := Tracking().trackers;
    assert ts[..2][..1] == ts[..1] && ts[..1][..0] == [];
    assert UnlinkedHashes(ts[..1]) == [FIRST];
  }

  lemma Reversed(x: Hash, y: Hash)
    ensures Reverse([x, y]) == [y, x]
  {
  }

  lemma WhatMatches()
    ensures Asked(Tracking()) == [FIRST, 1] && Matched(Tracking(), Providing()) == [FIRST, 1]
  {
    hide Asked, Filter, UnlinkedHashes;
    WhatIsAsked();
    var ps := Providing().providers;
    assert ps[0].resource.hash == FIRST && ps[1].resource.hash == 1;
    assert HasHash(ps, FIRST) && HasHash(ps, 1);
    FilterAll([FIRST, 1], HashOf(ps));
  }

  /** Two strangers that share two resources. The answer of the provider lists a hash and its digest,
      which together have the digest a fresh peer starts with: the tracker takes it for old news. */
  lemma HandshakeCanDisagree(unpack: Codec, times: seq<Timespec>)
    requires |times| >= 4
    ensures CanTalk(DEFAULTS, Tracking(), Providing())
    ensures var t := Converse(DEFAULTS, unpack, Tracking(), Providing(), true, Discovery(Tracking()), times);
            !forall h :: LinkedFor(t.a.trackers, 0, h) <==> LinkedFor(t.b.providers, 0, h)
  {
    hide Shifts, Shift, Xor, ListDigest, Converse, Matched, Asked, LinkedFor;
    var a, b := Tracking(), Providing();
    WhatMatches();
    Reversed(FIRST, 1);
    StrangersReady();
    FirstShifts();
    SecondShifts();
    SingleDigest(1);
    SingleDigest(FIRST);
    DigestZero([1], FIRST);
    DigestZero([FIRST], 1);
    assert [1] + [FIRST] == [1, FIRST] && [FIRST] + [1] == [FIRST, 1];
    HandshakeSymmetry(DEFAULTS, unpack, a, b, times);
  }

  lemma StrangersReady()
    ensures CanStart(DEFAULTS, Tracking(), Providing()) && Strangers(Tracking(), Providing())
  {
    hide Asked;
    var a, b := Tracking(), Providing();
    WhatIsAsked();
    NobodyKnown(a, b.address);
    NobodyKnown(b, a.address);
    EmptyAccounted(a);
    EmptyAccounted(b);
  }

  lemma NobodyKnown(n: Node, address: Address)
    requires n.numPeers == 0
    ensures SlotOf(n, address) == 0
  {
  }

  lemma EmptyAccounted(n: Node)
    requires n == Tracking() || n == Providing()
    ensures Accounted(DEFAULTS, n) && Shaped(DEFAULTS, n)
  {
  }

  // ---------- a list that is skipped although it is new ----------

  function Known(): Node {
    Providing().(numPeers := 1)
  }

  lemma KnownAccounted()
    ensures Accounted(DEFAULTS, Known()) && Shaped(DEFAULTS, Known())
  {
  }

  /** The first list of a new peer, of a hash and its digest, changes nothing, although both hashes are
      provided: relinking would have linked the peer to both. */
  lemma SkipCanLoseLinks(unpack: Codec)
    ensures var n := Known();
            var m := ProcessPacket(DEFAULTS, unpack, n, 0, LinkPacket("a", [Datum(false, [1, FIRST])])).node;
            m.providers == n.providers && !SameLinks(n.providers, RelinkAll(n.providers, 0, [1, FIRST]))
  {
    hide Shifts, Shift, ListDigest, ProcessPacket, LinkPacket;
    var d := Datum(false, [1, FIRST]);
    KnownAccounted();
    FirstShifts();
    SingleDigest(1);
    DigestZero([1], FIRST);
    assert [1] + [FIRST] == [1, FIRST];
    assert Known().slots[0].trackedDigest == 0;
    LinkPacketExact(DEFAULTS, unpack, Known(), 0, "a", d);
    var ps := Known().providers;
    assert 0 !in ps[0].peers && 0 in RelinkAll(ps, 0, d.hashes)[0].peers;
  }

  // ---------- a full table whose lively peers all die ----------

  /** As many peers as there may be, all linked to one tracker, and all due in two seconds. */
  function Full(): Node {
    Node("n", Address(0, 0), seq(5, i requires 0 <= i < 5 => PeerAt(i, 1, LATER)), 5,
         [Endpoint(Resource(0, 7), 0, [0, 1, 2, 3, 4])], [], [])
  }

  const JUST_BEFORE := Timespec(2, 999_999_999)
  const MUCH_LATER := Timespec(3, 1)

  /** A keepalive from every peer. */
  function KeepalivesFromAll(): seq<Arrival> {
    seq(5, i requires 0 <= i < 5 => Arrival(Address(1, i), false, KeepalivePacket(), JUST_BEFORE))
  }

  /** A probe two nanoseconds after all peers were heard from forgets them all. */
  lemma FullTableCanForgetAll(unpack: Codec)
    ensures Shaped(DEFAULTS, Full()) && Accounted(DEFAULTS, Full())
    ensures forall i :: 0 <= i < 5 ==> KeepalivesFromAll()[i].source == Full().slots[i].address
    ensures Probe(DEFAULTS, ReceiveOnAndOn(DEFAULTS, unpack, Full(), KeepalivesFromAll()), MUCH_LATER).node.numPeers == 0
  {
    hide ReceiveOnAndOn, Probe, Accounted;
    FullAccounted();
    FullTableForgets(DEFAULTS, unpack, Full(), KeepalivesFromAll(), MUCH_LATER);
  }

  lemma FullAccounted()
    ensures Shaped(DEFAULTS, Full()) && Accounted(DEFAULTS, Full())
  {
    var es := Full().trackers;
    assert es[1..] == [];
  }

  // ---------- two lists that are too long together ----------

  /** Room for one resource. */
  const SMALL := Config(5, 1, 1, 1, 64, 2000, 1000, 1000, 500)

  function Met(): Node {
    Node("n", Address(0, 0), seq(5, i requires 0 <= i < 5 => PeerAt(i, 0, ZERO)), 1, [], [], [])
  }

  /** A tracked and a provided list of one hash each do not fit the array that they share. */
  lemma TwoListsCanOverrun(unpack: Codec)
    ensures Accounted(SMALL, Met()) && Shaped(SMALL, Met())
    ensures ProcessPacket(SMALL, unpack, Met(), 0, LinkPacket("a", [Datum(false, [1]), Datum(true, [2])])).overrun
  {
    hide ProcessPacket, LinkPacket, ListDigest, Shifts, Shift, Filter;
    MetAccounted();
    TwoListsOverrun(SMALL, unpack, Met(), 0, "a", Datum(false, [1]), Datum(true, [2]));
  }

  lemma MetAccounted()
    ensures Accounted(SMALL, Met()) && Shaped(SMALL, Met())
  {
  }

  // ---------- packets that end the loop of everybody who hears them ----------

  /** The hash of the empty path. */
  const NO_PATH: Hash := Crc([])

  /** A node that tracks the resource with the empty path. */
  function TracksNothing(): Node {
    Node("a", Address(0, 0), seq(5, i requires 0 <= i < 5 => PeerAt(i, 0, ZERO)), 0,
         [Endpoint(Resource(0, NO_PATH), 0, [])], [], [])
  }

  /** A node with a provider that is linked to the peer at some address. */
  function Posting(): Node {
    Node("a", Address(0, 0), [Peer(Address(0, 1), "b", true, LATER, ZERO, 0, 0, 1)]
                             + seq(4, i requires 0 <= i < 4 => PeerAt(i, 0, ZERO)),
         1, [], [Endpoint(Resource(0, 7), 0, [0])], [])
  }

  function Listening(): Node {
    Node("b", Address(0, 1), seq(5, i requires 0 <= i < 5 => PeerAt(i, 0, ZERO)), 0, [], [], [])
  }

  /** The discovery packet of a node that tracks the empty path, and a post of nothing. */
  lemma WrittenPacketsCanEndLoops(unpack: Codec)
    ensures Accounted(DEFAULTS, Listening()) && Shaped(DEFAULTS, Listening())
    ensures Receive(DEFAULTS, unpack, Listening(), Arrival(Address(0, 0), true, Discovery(TracksNothing()), NOW)).ret < 0
    ensures Below(Posting().providers[0].peers, |Posting().slots|)
    ensures var (s, targets) := Post(DEFAULTS, Posting(), 0, [], NOW);
            && targets == [Listening().address]
            && Receive(DEFAULTS, unpack, Listening(), Arrival(Address(0, 0), false, s.outgoing, NOW)).ret < 0
  {
    hide Receive, LinkPacket, ContentPacket, FitsBuffer, Crc, Plus;
    ListeningAccounted();
    AsksForNothing();
    LinkPacketEndsLoop(DEFAULTS, unpack, Listening(), Arrival(Address(0, 0), true, Discovery(TracksNothing()), NOW), "a",
                       Datum(false, [0]));
    ContentEndsLoop(DEFAULTS, unpack, Listening(), Arrival(Address(0, 0), false, ContentPacket(7, []), NOW), 7, []);
  }

  lemma AsksForNothing()
    ensures Discovery(TracksNothing()) == LinkPacket("a", [Datum(false, [0])])
  {
    var ts := TracksNothing().trackers;
    assert ts[..0] == [] && Crc([]) == 0;
    assert UnlinkedHashes(ts) == [0];
    WritersWriteLinkPackets("a", [0], []);
  }

  lemma ListeningAccounted()
    ensures Accounted(DEFAULTS, Listening()) && Shaped(DEFAULTS, Listening())
  {
  }
}
