/** The link handshake of two nodes: one discovery packet, at most three replies, then silence; and
    when both ends come out of it linked alike. */
module Handshake {
  import opened Time
  import opened HashList
  import opened Sequences
  import opened Tokens
  import opened Tables
  import opened Links
  import opened Relink
  import opened Protocol
  import opened Accounting
  import opened RoundTrip
  import opened Exchange

  /** Two nodes that answer each other: what was sent, what is still under way when the clock readings
      run out, and the nodes then. */
  datatype Talk = Talk(sent: seq<Packet>, pending: Option<Packet>, a: Node, b: Node)

  function Converse(c: Config, unpack: Codec, a: Node, b: Node, toB: bool, packet: Packet, times: seq<Timespec>): Talk
    requires Shaped(c, a) && Shaped(c, b)
    requires Accounted(c, a) && Accounted(c, b)
    decreases |times|
  {
    if times == [] then Talk([packet], Some(packet), a, b)
    else
      var o := if toB then ProcessIncoming(c, unpack, b, a.address, packet, times[0])
               else ProcessIncoming(c, unpack, a, b.address, packet, times[0]);
      var (a', b') := if toB then (a, o.node) else (o.node, b);
      match o.reply
      case None => Talk([packet], None, a', b')
      case Some(p) =>
        IncomingKeeps(c, unpack, b, a.address, packet, times[0]);
        IncomingKeeps(c, unpack, a, b.address, packet, times[0]);
        AccountedShape(c, o.node);
        var t := Converse(c, unpack, a', b', !toB, p, times[1..]);
        t.(sent := [packet] + t.sent)
  }

  function SlotOf(n: Node, address: Address): nat
    requires n.numPeers <= |n.slots|
  {
    FindPeer(n.slots, n.numPeers, address)
  }

  /** The digest remembered for a peer; zero for one not yet registered. */
  function KnownDigest(n: Node, address: Address, d: Datum): Hash
    requires n.numPeers <= |n.slots|
  {
    var k := SlotOf(n, address);
    if k < n.numPeers then Remembered(n.slots[k], d) else 0
  }

  function Opposite(d: Datum): Datum {
    Datum(!d.provided, d.hashes)
  }

  lemma SlotIsUnique(n: Node, k: nat, address: Address)
    requires k < n.numPeers <= |n.slots| && AddressesDistinct(n.slots, n.numPeers) && n.slots[k].address == address
    ensures SlotOf(n, address) == k
  {
  }

  lemma RegisterSlot(c: Config, n: Node, address: Address, now: Timespec)
    requires Accounted(c, n) && n.numPeers < c.maxPeers
    ensures var (m, slot) := Register(c, n, address, now);
            var k := SlotOf(n, address);
            && slot == Some(k) && k < m.numPeers <= |m.slots| && Accounted(c, m)
            && SlotOf(m, address) == k
            && m.numPeers == (if k < n.numPeers then n.numPeers else n.numPeers + 1)
            && m.trackers == n.trackers && m.providers == n.providers
            && m.name == n.name && m.address == n.address && m.outgoing == n.outgoing
            && forall d :: Remembered(m.slots[k], d) == KnownDigest(n, address, d)
  {
    RegisterKeeps(c, n, address, now);
    var (m, slot) := Register(c, n, address, now);
    SlotIsUnique(m, slot.value, address);
  }

  /** What stays of the table of peers when slot k changes. */
  lemma AppliedSlots(n: Node, k: nat, name: string, d: Datum)
    requires k < n.numPeers <= |n.slots| && AddressesDistinct(n.slots, n.numPeers)
    ensures var m := Applied(n, k, name, d);
            var changed := Remembered(n.slots[k], d) != ListDigest(d.hashes);
            && m.name == n.name && m.address == n.address && m.numPeers == n.numPeers && |m.slots| == |n.slots|
            && SlotOf(m, n.slots[k].address) == k
            && Remembered(m.slots[k], d) == ListDigest(d.hashes)
            && Remembered(m.slots[k], Opposite(d)) == Remembered(n.slots[k], Opposite(d))
            && Targets(m, d) == (if changed then RelinkAll(Targets(n, d), k, d.hashes) else Targets(n, d))
            && Targets(m, Opposite(d)) == Targets(n, Opposite(d))
  {
    hide ListDigest, RelinkAll, Filter, Mentions, ReplyPacket;
    SlotIsUnique(Applied(n, k, name, d), k, n.slots[k].address);
  }

  lemma AccountedAddresses(c: Config, n: Node)
    requires Accounted(c, n)
    ensures Shaped(c, n) && AddressesDistinct(n.slots, n.numPeers)
    ensures UniqueHashes(n.trackers) && UniqueHashes(n.providers)
    ensures |n.trackers| <= c.maxTrackers
  {
  }

  /** Receiving a list, from the caller's side. */
  lemma ReceiveList(c: Config, unpack: Codec, n: Node, origin: Address, name: string, d: Datum, now: Timespec)
    requires Accounted(c, n) && n.numPeers < c.maxPeers && GoodList(c, d) && FitsBuffer(name, c.nameSize)
    ensures Shaped(c, n)
    ensures var k := SlotOf(n, origin);
            var o := ProcessIncoming(c, unpack, n, origin, LinkPacket(name, [d]), now);
            var changed := KnownDigest(n, origin, d) != ListDigest(d.hashes);
            var found := Filter(d.hashes, HashOf(Targets(n, d)));
            && Accounted(c, o.node)
            && o.node.name == n.name && o.node.address == n.address
            && o.node.numPeers == (if k < n.numPeers then n.numPeers else n.numPeers + 1)
            && o.node.numPeers <= |o.node.slots|
            && SlotOf(o.node, origin) == k
            && KnownDigest(o.node, origin, d) == ListDigest(d.hashes)
            && KnownDigest(o.node, origin, Opposite(d)) == KnownDigest(n, origin, Opposite(d))
            && Targets(o.node, d) == (if changed then RelinkAll(Targets(n, d), k, d.hashes) else Targets(n, d))
            && Targets(o.node, Opposite(d)) == Targets(n, Opposite(d))
            && o.reply == (if changed && found != [] then Some(LinkPacket(n.name, [Datum(!d.provided, Reverse(found))]))
                           else None)
  {
    hide Accounted, ListDigest, RelinkAll, Filter, Reverse, Applied, Register, ProcessPacket, LinkPacket, GoodList,
      HashOf, FitsBuffer, Remembered, AddressesDistinct;
    AccountedAddresses(c, n);
    RegisterSlot(c, n, origin, now);
    var (m, slot) := Register(c, n, origin, now);
    var k := slot.value;
    AccountedAddresses(c, m);
    LinkPacketExact(c, unpack, m, k, name, d);
    IncomingKeeps(c, unpack, n, origin, LinkPacket(name, [d]), now);
    AppliedSlots(m, k, name, d);
    ReplyIsLinkPacket(m, k, name, d);
    LinkPacketNotEmpty(n.name, [Datum(!d.provided, Reverse(Filter(d.hashes, HashOf(Targets(n, d)))))]);
  }

  lemma LinkPacketNotEmpty(name: string, data: seq<Datum>)
    ensures LinkPacket(name, data) != []
  {
  }

  // ---------- at most four packets ----------

  /** The hashes a asks for: those of its trackers without a peer. */
  function Asked(a: Node): seq<Hash> {
    UnlinkedHashes(a.trackers)
  }

  /** Those b can provide. */
  function Matched(a: Node, b: Node): seq<Hash> {
    Filter(Asked(a), HashOf(b.providers))
  }

  function TrackedMessage(n: Node, hs: seq<Hash>): Packet {
    LinkPacket(n.name, [Datum(false, hs)])
  }

  function ProvidedMessage(n: Node, hs: seq<Hash>): Packet {
    LinkPacket(n.name, [Datum(true, hs)])
  }

  /** Packets from that address will not be refused, however many: a full table refuses even a peer
      it holds. */
  predicate AcceptsFrom(c: Config, n: Node, address: Address)
    requires n.numPeers <= |n.slots|
  {
    n.numPeers + 1 < c.maxPeers || (n.numPeers < c.maxPeers && SlotOf(n, address) < n.numPeers)
  }

  ghost predicate Ready(c: Config, n: Node, peer: Address) {
    Accounted(c, n) && Shaped(c, n) && AcceptsFrom(c, n, peer) && FitsBuffer(n.name, c.nameSize)
  }

  ghost predicate AllIn(hs: seq<Hash>, es: seq<Endpoint>) {
    forall h :: h in hs ==> HasHash(es, h)
  }

  lemma {:induction false} UnlinkedMembers(es: seq<Endpoint>)
    ensures forall h :: h in UnlinkedHashes(es) <==>
                        exists i :: 0 <= i < |es| && es[i].resource.hash == h && es[i].peers == []
    decreases |es|
  {
    if es != [] {
      var n := |es| - 1;
      var rest := es[..n];
      UnlinkedMembers(rest);
      forall h
        ensures h in UnlinkedHashes(es) <==> exists i :: 0 <= i < |es| && es[i].resource.hash == h && es[i].peers == []
      {
        if h in UnlinkedHashes(rest) {
          var i :| 0 <= i < |rest| && rest[i].resource.hash == h && rest[i].peers == [];
          assert es[i].resource.hash == h && es[i].peers == [];
        }
        if i :| 0 <= i < |es| && es[i].resource.hash == h && es[i].peers == [] {
          assert i < n ==> rest[i].resource.hash == h && rest[i].peers == [];
        }
      }
    }
  }

  lemma DistinctSnoc(hs: seq<Hash>, h: Hash)
    requires Distinct(hs) && forall g :: g in hs ==> g != h
    ensures Distinct(hs + [h])
  {
    forall i | 0 <= i < |hs|
      ensures hs[i] != h
    {
      assert hs[i] in hs;
    }
  }

  lemma {:induction false} UnlinkedOk(es: seq<Endpoint>)
    requires UniqueHashes(es)
    ensures var hs := UnlinkedHashes(es);
            && Distinct(hs) && |hs| <= |es|
            && forall h :: h in hs <==> exists i :: 0 <= i < |es| && es[i].resource.hash == h && es[i].peers == []
    decreases |es|
  {
    UnlinkedMembers(es);
    if es != [] {
      var n := |es| - 1;
      var rest := es[..n];
      UnlinkedOk(rest);
      hide Distinct;
      forall h | h in UnlinkedHashes(rest)
        ensures h != es[n].resource.hash
      {
        var i :| 0 <= i < |rest| && rest[i].resource.hash == h && rest[i].peers == [];
        assert es[i] == rest[i];
      }
      DistinctSnoc(UnlinkedHashes(rest), es[n].resource.hash);
    }
  }

  lemma AllFound(hs: seq<Hash>, es: seq<Endpoint>)
    requires AllIn(hs, es)
    ensures Filter(hs, HashOf(es)) == hs
  {
    FilterAll(hs, HashOf(es));
  }

  lemma RelinkAllHashes(es: seq<Endpoint>, k: nat, hs: seq<Hash>)
    ensures forall h :: HasHash(RelinkAll(es, k, hs), h) == HasHash(es, h)
  {
    hide Filter;
    forall h
      ensures HasHash(RelinkAll(es, k, hs), h) == HasHash(es, h)
    {
      if i :| 0 <= i < |es| && es[i].resource.hash == h {
        assert RelinkAll(es, k, hs)[i].resource.hash == h;
      }
    }
  }

  /** What holds of the two ends once b has sent the hashes hs that it provides. */
  ghost predicate Agreed(c: Config, a: Node, b: Node, hs: seq<Hash>) {
    && Ready(c, a, b.address) && Ready(c, b, a.address)
    && AllIn(hs, a.trackers) && AllIn(hs, b.providers)
    && Distinct(hs) && 0 !in hs && |hs| <= c.maxResources && hs != []
  }

  lemma ReverseGood(hs: seq<Hash>, es: seq<Endpoint>)
    ensures Distinct(hs) ==> Distinct(Reverse(hs))
    ensures 0 !in hs ==> 0 !in Reverse(hs)
    ensures AllIn(hs, es) ==> AllIn(Reverse(hs), es)
    ensures Reverse(Reverse(hs)) == hs
    ensures hs != [] ==> Reverse(hs) != []
  {
    ReverseMembers(hs);
    ReverseReverse(hs);
  }

  /** b's node after a tracked list. */
  function AfterTracked(c: Config, unpack: Codec, a: Node, b: Node, hs: seq<Hash>, now: Timespec): IncomingOut
    requires Shaped(c, b)
  {
    ProcessIncoming(c, unpack, b, a.address, TrackedMessage(a, hs), now)
  }

  function AfterProvided(c: Config, unpack: Codec, a: Node, b: Node, hs: seq<Hash>, now: Timespec): IncomingOut
    requires Shaped(c, a)
  {
    ProcessIncoming(c, unpack, a, b.address, ProvidedMessage(b, hs), now)
  }

  lemma TrackedStep(c: Config, unpack: Codec, a: Node, b: Node, hs: seq<Hash>, now: Timespec)
    requires Agreed(c, a, b, hs)
    ensures var o := AfterTracked(c, unpack, a, b, hs, now);
            && Agreed(c, a, o.node, hs) && o.node.name == b.name
            && (o.reply == None || o.reply == Some(ProvidedMessage(b, Reverse(hs))))
  {
    hide Accounted, ListDigest, RelinkAll, Filter, Reverse, LinkPacket, HashOf, HasHash, FitsBuffer, Remembered, Distinct,
      ProcessIncoming;
    ReceiveList(c, unpack, b, a.address, a.name, Datum(false, hs), now);
    AllFound(hs, b.providers);
    RelinkAllHashes(b.providers, SlotOf(b, a.address), hs);
    AccountedShape(c, AfterTracked(c, unpack, a, b, hs, now).node);
  }

  lemma ProvidedStep(c: Config, unpack: Codec, a: Node, b: Node, hs: seq<Hash>, now: Timespec)
    requires Agreed(c, a, b, hs)
    ensures var d := Datum(true, Reverse(hs));
            var o := AfterProvided(c, unpack, a, b, Reverse(hs), now);
            && Agreed(c, o.node, b, hs) && o.node.name == a.name
            && KnownDigest(o.node, b.address, d) == ListDigest(Reverse(hs))
            && o.reply == (if KnownDigest(a, b.address, d) == ListDigest(Reverse(hs)) then None
                           else Some(TrackedMessage(a, hs)))
  {
    hide Accounted, ListDigest, RelinkAll, Filter, Reverse, LinkPacket, HashOf, HasHash, FitsBuffer, Remembered, Distinct,
      ProcessIncoming;
    ReverseGood(hs, a.trackers);
    ReceiveList(c, unpack, a, b.address, b.name, Datum(true, Reverse(hs)), now);
    AllFound(Reverse(hs), a.trackers);
    RelinkAllHashes(a.trackers, SlotOf(a, b.address), Reverse(hs));
    AccountedShape(c, AfterProvided(c, unpack, a, b, Reverse(hs), now).node);
  }

  ghost predicate CanTalk(c: Config, a: Node, b: Node) {
    Shaped(c, a) && Shaped(c, b) && Accounted(c, a) && Accounted(c, b)
  }

  lemma AgreedCanTalk(c: Config, a: Node, b: Node, hs: seq<Hash>)
    requires Agreed(c, a, b, hs)
    ensures CanTalk(c, a, b)
  {
  }

  lemma FourthQuiets(c: Config, unpack: Codec, a: Node, b: Node, hs: seq<Hash>, times: seq<Timespec>)
    requires Agreed(c, a, b, hs)
    requires KnownDigest(a, b.address, Datum(true, Reverse(hs))) == ListDigest(Reverse(hs))
    ensures CanTalk(c, a, b)
    ensures var t := Converse(c, unpack, a, b, false, ProvidedMessage(b, Reverse(hs)), times);
            t.sent == [ProvidedMessage(b, Reverse(hs))] && (|times| >= 1 ==> t.pending == None)
  {
    hide Accounted, ListDigest, Reverse, ProvidedMessage, ProcessIncoming, KnownDigest, Agreed;
    AgreedCanTalk(c, a, b, hs);
    if times != [] {
      ProvidedStep(c, unpack, a, b, hs, times[0]);
    }
  }

  lemma ThirdQuiets(c: Config, unpack: Codec, a: Node, b: Node, hs: seq<Hash>, times: seq<Timespec>)
    requires Agreed(c, a, b, hs)
    requires KnownDigest(a, b.address, Datum(true, Reverse(hs))) == ListDigest(Reverse(hs))
    ensures CanTalk(c, a, b)
    ensures var t := Converse(c, unpack, a, b, true, TrackedMessage(a, hs), times);
            t.sent <= [TrackedMessage(a, hs), ProvidedMessage(b, Reverse(hs))] && (|times| >= 2 ==> t.pending == None)
  {
    hide Accounted, ListDigest, Reverse, LinkPacket, ProcessIncoming, KnownDigest, Agreed, HasHash;
    AgreedCanTalk(c, a, b, hs);
    if times != [] {
      TrackedStep(c, unpack, a, b, hs, times[0]);
      SameAddress(c, unpack, b, a.address, TrackedMessage(a, hs), times[0]);
      var b' := AfterTracked(c, unpack, a, b, hs, times[0]).node;
      FourthQuiets(c, unpack, a, b', hs, times[1..]);
    }
  }

  lemma SameAddress(c: Config, unpack: Codec, n: Node, origin: Address, packet: Packet, now: Timespec)
    requires Accounted(c, n) && Shaped(c, n)
    ensures ProcessIncoming(c, unpack, n, origin, packet, now).node.address == n.address
  {
    hide Accounted, ProcessPacket;
    RegisterKeeps(c, n, origin, now);
    var (m, slot) := Register(c, n, origin, now);
    if slot.Some? {
      PacketKeeps(c, unpack, m, slot.value, packet);
    }
  }

  /** One packet of a conversation and then the rest of it. */
  lemma Answered(c: Config, unpack: Codec, a: Node, b: Node, toB: bool, packet: Packet, times: seq<Timespec>)
    requires CanTalk(c, a, b) && times != []
    ensures var o := if toB then ProcessIncoming(c, unpack, b, a.address, packet, times[0])
                     else ProcessIncoming(c, unpack, a, b.address, packet, times[0]);
            var (a', b') := if toB then (a, o.node) else (o.node, b);
            var t := Converse(c, unpack, a, b, toB, packet, times);
            && CanTalk(c, a', b')
            && match o.reply
               case None => t == Talk([packet], None, a', b')
               case Some(p) =>
                 var rest := Converse(c, unpack, a', b', !toB, p, times[1..]);
                 t == rest.(sent := [packet] + rest.sent)
  {
    hide Accounted, ProcessIncoming;
    IncomingKeeps(c, unpack, b, a.address, packet, times[0]);
    IncomingKeeps(c, unpack, a, b.address, packet, times[0]);
    AccountedShape(c, ProcessIncoming(c, unpack, b, a.address, packet, times[0]).node);
    AccountedShape(c, ProcessIncoming(c, unpack, a, b.address, packet, times[0]).node);
  }

  lemma NotDelivered(c: Config, unpack: Codec, a: Node, b: Node, toB: bool, packet: Packet)
    requires CanTalk(c, a, b)
    ensures Converse(c, unpack, a, b, toB, packet, []) == Talk([packet], Some(packet), a, b)
  {
  }

  lemma SecondQuiets(c: Config, unpack: Codec, a: Node, b: Node, hs: seq<Hash>, times: seq<Timespec>)
    requires Agreed(c, a, b, hs)
    ensures CanTalk(c, a, b)
    ensures var t := Converse(c, unpack, a, b, false, ProvidedMessage(b, Reverse(hs)), times);
            && t.sent <= [ProvidedMessage(b, Reverse(hs)), TrackedMessage(a, hs), ProvidedMessage(b, Reverse(hs))]
            && (|times| >= 3 ==> t.pending == None)
  {
    hide Accounted, Shaped, ListDigest, Reverse, LinkPacket, ProvidedMessage, TrackedMessage, ProcessIncoming, KnownDigest,
      Agreed, HasHash, Converse;
    AgreedCanTalk(c, a, b, hs);
    if times == [] {
      NotDelivered(c, unpack, a, b, false, ProvidedMessage(b, Reverse(hs)));
    } else {
      Answered(c, unpack, a, b, false, ProvidedMessage(b, Reverse(hs)), times);
      ProvidedStep(c, unpack, a, b, hs, times[0]);
      SameAddress(c, unpack, a, b.address, ProvidedMessage(b, Reverse(hs)), times[0]);
      var a' := AfterProvided(c, unpack, a, b, Reverse(hs), times[0]).node;
      SameName(a, a', hs);
      ThirdQuiets(c, unpack, a', b, hs, times[1..]);
      PrefixBehind(ProvidedMessage(b, Reverse(hs)),
                   Converse(c, unpack, a', b, true, TrackedMessage(a, hs), times[1..]).sent,
                   [TrackedMessage(a, hs), ProvidedMessage(b, Reverse(hs))]);
    }
  }

  lemma SameName(n: Node, m: Node, hs: seq<Hash>)
    requires n.name == m.name
    ensures TrackedMessage(n, hs) == TrackedMessage(m, hs)
  {
  }

  lemma PrefixBehind(p: Packet, s: seq<Packet>, t: seq<Packet>)
    requires s <= t
    ensures [p] + s <= [p] + t
  {
  }

  /** Who may start: a's trackers without a peer have hashes other than zero. */
  ghost predicate CanStart(c: Config, a: Node, b: Node) {
    && c.Valid()
    && Ready(c, a, b.address) && Ready(c, b, a.address)
    && 0 !in Asked(a)
  }

  lemma AskedOk(c: Config, a: Node, b: Node)
    requires CanStart(c, a, b)
    ensures CanTalk(c, a, b)
    ensures Distinct(Asked(a)) && |Asked(a)| <= c.maxResources && AllIn(Asked(a), a.trackers)
    ensures var hs := Matched(a, b);
            Distinct(hs) && 0 !in hs && |hs| <= c.maxResources && AllIn(hs, a.trackers) && AllIn(hs, b.providers)
  {
    AccountedAddresses(c, a);
    UnlinkedOk(a.trackers);
    FilterDistinct(Asked(a), HashOf(b.providers));
    hide Accounted, Filter, Distinct, UnlinkedHashes;
    forall h | h in Asked(a)
      ensures HasHash(a.trackers, h)
    {
      var i :| 0 <= i < |a.trackers| && a.trackers[i].resource.hash == h && a.trackers[i].peers == [];
    }
  }

  lemma FirstStep(c: Config, unpack: Codec, a: Node, b: Node, now: Timespec)
    requires CanStart(c, a, b)
    ensures CanTalk(c, a, b)
    ensures var o := AfterTracked(c, unpack, a, b, Asked(a), now);
            var hs := Matched(a, b);
            && o.node.name == b.name && o.node.address == b.address
            && (o.reply == None || (o.reply == Some(ProvidedMessage(b, Reverse(hs))) && Agreed(c, a, o.node, hs)))
  {
    hide Accounted, ListDigest, RelinkAll, Filter, Reverse, LinkPacket, HashOf, HasHash, FitsBuffer, Remembered, Distinct,
      ProcessIncoming, UnlinkedHashes;
    AskedOk(c, a, b);
    ReceiveList(c, unpack, b, a.address, a.name, Datum(false, Asked(a)), now);
    RelinkAllHashes(b.providers, SlotOf(b, a.address), Asked(a));
    AccountedShape(c, AfterTracked(c, unpack, a, b, Asked(a), now).node);
  }

  /** However many more clock readings there are, at most four packets flow: what a asks for, what of
      it b provides in reverse, that reversed back, and what b provides again. After four both are
      silent. */
  lemma HandshakeConverges(c: Config, unpack: Codec, a: Node, b: Node, times: seq<Timespec>)
    requires CanStart(c, a, b)
    ensures CanTalk(c, a, b)
    ensures var hs := Matched(a, b);
            var t := Converse(c, unpack, a, b, true, Discovery(a), times);
            && t.sent <= [Discovery(a), ProvidedMessage(b, Reverse(hs)), TrackedMessage(a, hs),
                          ProvidedMessage(b, Reverse(hs))]
            && (|times| >= 4 ==> t.pending == None)
  {
    hide Accounted, ListDigest, Reverse, LinkPacket, ProcessIncoming, KnownDigest, Agreed, Matched, UnlinkedHashes, CanStart;
    FirstIsTracked(a);
    StartCanTalk(c, a, b);
    if times != [] {
      FirstStep(c, unpack, a, b, times[0]);
      var o := AfterTracked(c, unpack, a, b, Asked(a), times[0]);
      if o.reply.Some? {
        SecondQuiets(c, unpack, a, o.node, Matched(a, b), times[1..]);
      }
    }
  }

  lemma StartCanTalk(c: Config, a: Node, b: Node)
    requires CanStart(c, a, b)
    ensures CanTalk(c, a, b)
  {
  }

  lemma FirstIsTracked(a: Node)
    ensures Discovery(a) == TrackedMessage(a, Asked(a))
  {
    WritersWriteLinkPackets(a.name, Asked(a), []);
  }

  // ---------- who is linked in the end ----------

  /** Some endpoint for hash h names slot k. */
  ghost predicate LinkedFor(es: seq<Endpoint>, k: nat, h: Hash) {
    exists i :: 0 <= i < |es| && es[i].resource.hash == h && k in es[i].peers
  }

  /** The endpoints that name slot k are those of the hashes hs. */
  ghost predicate LinkedExactly(es: seq<Endpoint>, k: nat, hs: seq<Hash>) {
    forall h :: LinkedFor(es, k, h) <==> h in hs
  }

  lemma RelinkAllLinks(es: seq<Endpoint>, k: nat, hs: seq<Hash>, found: seq<Hash>)
    requires forall h :: h in found <==> HasHash(es, h) && h in hs
    ensures LinkedExactly(RelinkAll(es, k, hs), k, found)
  {
    hide Filter;
    FilterExcept(k);
    var fs := RelinkAll(es, k, hs);
    forall h
      ensures LinkedFor(fs, k, h) <==> h in found
    {
      if LinkedFor(fs, k, h) {
        var i :| 0 <= i < |fs| && fs[i].resource.hash == h && k in fs[i].peers;
        assert es[i].resource.hash == h;
      }
      if h in found {
        var i :| 0 <= i < |es| && es[i].resource.hash == h;
        assert fs[i].resource.hash == h && k in fs[i].peers;
      }
    }
  }

  lemma NewSlotUnlinked(es: seq<Endpoint>, k: nat, limit: nat)
    requires EndpointsOk(es, limit) && k >= limit
    ensures LinkedExactly(es, k, [])
  {
  }

  lemma ReverseSame(hs: seq<Hash>, es: seq<Endpoint>)
    requires AllIn(hs, es)
    ensures forall h :: h in hs <==> HasHash(es, h) && h in Reverse(hs)
  {
    ReverseMembers(hs);
  }

  lemma TrackedStepLinks(c: Config, unpack: Codec, a: Node, b: Node, hs: seq<Hash>, now: Timespec)
    requires Agreed(c, a, b, hs) && LinkedExactly(b.providers, SlotOf(b, a.address), hs)
    ensures var m := AfterTracked(c, unpack, a, b, hs, now).node;
            m.numPeers <= |m.slots| && SlotOf(m, a.address) == SlotOf(b, a.address)
            && LinkedExactly(m.providers, SlotOf(b, a.address), hs)
  {
    hide Accounted, ListDigest, RelinkAll, Filter, Reverse, LinkPacket, HashOf, HasHash, FitsBuffer, Remembered, Distinct,
      ProcessIncoming, LinkedExactly;
    ReceiveList(c, unpack, b, a.address, a.name, Datum(false, hs), now);
    RelinkAllLinks(b.providers, SlotOf(b, a.address), hs, hs);
  }

  lemma ProvidedStepLinks(c: Config, unpack: Codec, a: Node, b: Node, hs: seq<Hash>, now: Timespec)
    requires Agreed(c, a, b, hs)
    ensures var k := SlotOf(a, b.address);
            var m := AfterProvided(c, unpack, a, b, Reverse(hs), now).node;
            && m.numPeers <= |m.slots| && SlotOf(m, b.address) == k
            && if KnownDigest(a, b.address, Datum(true, Reverse(hs))) == ListDigest(Reverse(hs)) then m.trackers == a.trackers
               else LinkedExactly(m.trackers, k, hs)
  {
    hide Accounted, ListDigest, RelinkAll, Filter, Reverse, LinkPacket, HashOf, HasHash, FitsBuffer, Remembered, Distinct,
      ProcessIncoming, LinkedExactly;
    ReverseGood(hs, a.trackers);
    ReverseSame(hs, a.trackers);
    ReceiveList(c, unpack, a, b.address, b.name, Datum(true, Reverse(hs)), now);
    RelinkAllLinks(a.trackers, SlotOf(a, b.address), Reverse(hs), hs);
  }

  lemma FourthLinks(c: Config, unpack: Codec, a: Node, b: Node, hs: seq<Hash>, times: seq<Timespec>)
    requires Agreed(c, a, b, hs)
    requires KnownDigest(a, b.address, Datum(true, Reverse(hs))) == ListDigest(Reverse(hs))
    requires |times| >= 1
    ensures CanTalk(c, a, b)
    ensures var t := Converse(c, unpack, a, b, false, ProvidedMessage(b, Reverse(hs)), times);
            t.a.trackers == a.trackers && t.b == b
  {
    hide Accounted, ListDigest, Reverse, LinkPacket, ProcessIncoming, KnownDigest, Agreed, LinkedExactly;
    AgreedCanTalk(c, a, b, hs);
    ProvidedStep(c, unpack, a, b, hs, times[0]);
    ProvidedStepLinks(c, unpack, a, b, hs, times[0]);
  }

  lemma ThirdLinks(c: Config, unpack: Codec, a: Node, b: Node, hs: seq<Hash>, times: seq<Timespec>)
    requires Agreed(c, a, b, hs)
    requires KnownDigest(a, b.address, Datum(true, Reverse(hs))) == ListDigest(Reverse(hs))
    requires LinkedExactly(b.providers, SlotOf(b, a.address), hs) && |times| >= 2
    ensures CanTalk(c, a, b)
    ensures var t := Converse(c, unpack, a, b, true, TrackedMessage(a, hs), times);
            t.a.trackers == a.trackers && LinkedExactly(t.b.providers, SlotOf(b, a.address), hs)
  {
    hide Accounted, ListDigest, Reverse, LinkPacket, ProcessIncoming, KnownDigest, Agreed, LinkedExactly;
    AgreedCanTalk(c, a, b, hs);
    TrackedStep(c, unpack, a, b, hs, times[0]);
    TrackedStepLinks(c, unpack, a, b, hs, times[0]);
    SameAddress(c, unpack, b, a.address, TrackedMessage(a, hs), times[0]);
    var b' := AfterTracked(c, unpack, a, b, hs, times[0]).node;
    FourthLinks(c, unpack, a, b', hs, times[1..]);
  }

  lemma SecondLinks(c: Config, unpack: Codec, a: Node, b: Node, hs: seq<Hash>, times: seq<Timespec>)
    requires Agreed(c, a, b, hs)
    requires KnownDigest(a, b.address, Datum(true, Reverse(hs))) == 0
    requires LinkedExactly(a.trackers, SlotOf(a, b.address), [])
    requires LinkedExactly(b.providers, SlotOf(b, a.address), hs) && |times| >= 3
    ensures CanTalk(c, a, b)
    ensures var t := Converse(c, unpack, a, b, false, ProvidedMessage(b, Reverse(hs)), times);
            && LinkedExactly(t.a.trackers, SlotOf(a, b.address), if ListDigest(Reverse(hs)) == 0 then [] else hs)
            && LinkedExactly(t.b.providers, SlotOf(b, a.address), hs)
  {
    hide Accounted, ListDigest, Reverse, LinkPacket, ProcessIncoming, KnownDigest, Agreed, LinkedExactly;
    AgreedCanTalk(c, a, b, hs);
    ProvidedStep(c, unpack, a, b, hs, times[0]);
    ProvidedStepLinks(c, unpack, a, b, hs, times[0]);
    SameAddress(c, unpack, a, b.address, ProvidedMessage(b, Reverse(hs)), times[0]);
    var a' := AfterProvided(c, unpack, a, b, Reverse(hs), times[0]).node;
    if ListDigest(Reverse(hs)) != 0 {
      ThirdLinks(c, unpack, a', b, hs, times[1..]);
    }
  }

  /** Neither node has the other in its table. */
  ghost predicate Strangers(a: Node, b: Node)
    requires a.numPeers <= |a.slots| && b.numPeers <= |b.slots|
  {
    SlotOf(a, b.address) == a.numPeers && SlotOf(b, a.address) == b.numPeers
  }

  lemma FirstLinks(c: Config, unpack: Codec, a: Node, b: Node, now: Timespec)
    requires CanStart(c, a, b) && Strangers(a, b)
    ensures var o := AfterTracked(c, unpack, a, b, Asked(a), now);
            var hs := Matched(a, b);
            && (o.reply == None <==> ListDigest(Asked(a)) == 0 || hs == [])
            && o.node.numPeers <= |o.node.slots| && SlotOf(o.node, a.address) == b.numPeers
            && LinkedExactly(o.node.providers, b.numPeers, if ListDigest(Asked(a)) == 0 then [] else hs)
            && LinkedExactly(a.trackers, a.numPeers, [])
  {
    hide Accounted, ListDigest, RelinkAll, Filter, Reverse, LinkPacket, HashOf, HasHash, FitsBuffer, Remembered, Distinct,
      ProcessIncoming, UnlinkedHashes, LinkedExactly, EndpointsOk;
    AskedOk(c, a, b);
    AccountedEndpoints(c, a);
    AccountedEndpoints(c, b);
    NewSlotUnlinked(a.trackers, a.numPeers, a.numPeers);
    NewSlotUnlinked(b.providers, b.numPeers, b.numPeers);
    ReceiveList(c, unpack, b, a.address, a.name, Datum(false, Asked(a)), now);
    MatchedMeans(a, b);
    RelinkAllLinks(b.providers, b.numPeers, Asked(a), Matched(a, b));
  }

  lemma AccountedEndpoints(c: Config, n: Node)
    requires Accounted(c, n)
    ensures EndpointsOk(n.trackers, n.numPeers) && EndpointsOk(n.providers, n.numPeers)
  {
  }

  lemma MatchedMeans(a: Node, b: Node)
    ensures forall h :: h in Matched(a, b) <==> HasHash(b.providers, h) && h in Asked(a)
  {
  }

  /** Where two strangers end up: b is linked for what matched, unless what a asked for had the digest
      a fresh peer starts with; a is linked for the same, unless b's answer had it. */
  lemma HandshakeLinks(c: Config, unpack: Codec, a: Node, b: Node, times: seq<Timespec>)
    requires CanStart(c, a, b) && Strangers(a, b) && |times| >= 4
    ensures CanTalk(c, a, b)
    ensures var hs := Matched(a, b);
            var t := Converse(c, unpack, a, b, true, Discovery(a), times);
            var asked := ListDigest(Asked(a)) != 0;
            && LinkedExactly(t.b.providers, b.numPeers, if asked then hs else [])
            && LinkedExactly(t.a.trackers, a.numPeers, if asked && ListDigest(Reverse(hs)) != 0 then hs else [])
  {
    hide Accounted, ListDigest, Reverse, LinkPacket, ProcessIncoming, Agreed, Matched, UnlinkedHashes, CanStart,
      LinkedExactly;
    FirstIsTracked(a);
    StartCanTalk(c, a, b);
    FirstStep(c, unpack, a, b, times[0]);
    FirstLinks(c, unpack, a, b, times[0]);
    var o := AfterTracked(c, unpack, a, b, Asked(a), times[0]);
    var hs := Matched(a, b);
    var expected := if ListDigest(Asked(a)) != 0 && ListDigest(Reverse(hs)) != 0 then hs else [];
    if o.reply.Some? {
      SecondLinks(c, unpack, a, o.node, hs, times[1..]);
      assert expected == if ListDigest(Reverse(hs)) == 0 then [] else hs;
    } else {
      assert expected == [];
    }
    assert LinkedExactly(Converse(c, unpack, a, b, true, Discovery(a), times).a.trackers, a.numPeers, expected);
  }

  /** After the handshake of two strangers the two ends agree - a's tracker for a hash is linked to b
      exactly when b's provider for it is linked to a - if and only if nothing matched, or b's answer
      does not have digest zero, or a's question does. */
  lemma HandshakeSymmetry(c: Config, unpack: Codec, a: Node, b: Node, times: seq<Timespec>)
    requires CanStart(c, a, b) && Strangers(a, b) && |times| >= 4
    ensures CanTalk(c, a, b)
    ensures var hs := Matched(a, b);
            var t := Converse(c, unpack, a, b, true, Discovery(a), times);
            (forall h :: LinkedFor(t.a.trackers, a.numPeers, h) <==> LinkedFor(t.b.providers, b.numPeers, h))
              <==> (hs == [] || ListDigest(Reverse(hs)) != 0 || ListDigest(Asked(a)) == 0)
  {
    hide Accounted, ListDigest, Reverse, LinkPacket, ProcessIncoming, Matched, UnlinkedHashes, CanStart, LinkedFor, Converse;
    StartCanTalk(c, a, b);
    HandshakeLinks(c, unpack, a, b, times);
    var hs := Matched(a, b);
    var t := Converse(c, unpack, a, b, true, Discovery(a), times);
    if hs != [] {
      var h := hs[0];
      assert h in hs;
      assert LinkedFor(t.b.providers, b.numPeers, h) <==> ListDigest(Asked(a)) != 0;
      assert LinkedFor(t.a.trackers, a.numPeers, h) <==> ListDigest(Asked(a)) != 0 && ListDigest(Reverse(hs)) != 0;
    }
  }
}
