# μCCN in Dafny

A model of the logic of a μCCN node, a small peer-to-peer publisher and subscriber, with proofs. A node
has a fixed table of peers, and trackers and providers, each with a list of the peers it is linked to.
Nodes exchange four kinds of packets: discovery, replies to it, content, and keepalives. Silent peers
are dropped by a periodic probe.

`dafny verify dfyconfig.toml` verifies everything.

## How it is organised

There are two layers. The lower one describes every operation as a function on values: a `Node` is a
record of tables, a pointer to a peer is the index of its slot, a packet is a sequence of MessagePack
items. The theorems are about these functions. The upper one is the program in its own form: classes with
arrays and counters that are changed in place, loops over them, an unsigned index that wraps around below
zero. Every method of it is proved to do what its function says, and the theorems carry over through
`EventLoop.Handle`.

| file | subject |
|---|---|
| `ShiftRegister`, `CrcTable`, `Crc32`, `Gf2`, `CrcRemainder` | the checksum: table, shift register, polynomial division |
| `HashList` | digests of lists of hashes |
| `Time`, `Upoll` | times, finite or infinite; periodic polling |
| `Sequences` | filters, compaction in place, the pigeonhole principle |
| `Tokens`, `RoundTrip` | the grammar of packets, written and read |
| `Tables`, `Protocol` | the tables of a node and all operations, as functions |
| `Links`, `Relink`, `Accounting`, `Exchange` | what linking does to the tables |
| `Probing`, `ProbeAnswer` | what a probe does, and what it answers |
| `Sending` | what is sent, to whom, and when |
| `Handshake`, `ContentDelivery`, `DigestCache` | two nodes talking |
| `Groups`, `Reading` | packets with more in them than nodes write; what is read, and what fails |
| `Network`, `NodeRuns`, `Overruns` | whole runs of many nodes, and of one; what overruns the arrays of a node |
| `Liveliness`, `FalseDeath`, `WakingLoop` | deadlines, and when a peer is taken for dead |
| `Receiving`, `EventLoop`, `Passes` | packets that end the event loop; its passes, what it asserts, and what a pass does |
| `EndpointObjects`, `EndpointGroups`, `NodeObjects`, `PacketObjects` | the program on objects |
| `Witnesses` | inputs on which the code does not do what one might expect |

## Where the code and the expectation part

The model does what the code does. Where a property one would expect fails, there is an input that shows
it in `Witnesses`, or a theorem says what happens instead, and the exact condition is proved.

- A probe moves peers down the table but not the links that point at them (`src/uccn.c:955-957`). Links
  survive, and so does the accounting, if and only if no peer that stays sits behind one that goes:
  `Probing.ProbeExact`, `Probing.ProbeKeeps`. That the link counts of dead peers are never taken down
  (`src/uccn.c:873-886`) does no harm.
- A list whose digest is zero, that of a fresh peer, is taken for old news (`src/uccn.c:369-370`,
  `src/uccn.c:1192`, `src/uccn.c:1224`). This is so for a list of a hash and its own digest:
  `HashList.DigestZero`. A handshake may then leave its two ends linked differently, and exactly then:
  `Handshake.HandshakeSymmetry`.
- A keepalive leaves the outgoing buffer as it was, and what it holds is sent back (`src/uccn.c:1304`,
  `src/uccn.c:680`). After a keepalive round the buffer holds a keepalive, so two such nodes answer each
  other for ever: `NodeRuns.KeepalivesEcho`.
- A full table refuses even peers it knows (`src/uccn.c:336`), so nothing renews their deadlines, and a probe
  after these forgets peers that were heard from just before: `Receiving.FullTableForgets`,
  `Witnesses.FullTableCanForgetAll`. Whether a probe finds a peer alive depends exactly on when the last
  packet of it found room: `FalseDeath.AliveExactly`. Nor is content delivered then:
  `ContentDelivery.PostIsDelivered`. And a packet that is refused ends the event loop
  (`src/uccn.c:760-777`): `EventLoop.FullTableEndsLoop`.
- A node writes whatever hash a resource has and whatever its content packs to (`src/uccn.c:268-288`,
  `src/uccn.c:492-500`), but a node that reads a zero hash or an empty blob gives up (`src/uccn.c:1021-1031`,
  `src/uccn.c:1183-1186`, `src/uccn.c:1215-1218`), which ends its event loop. The hash of the empty path is
  zero. Exactly which written packets end the loop is in `Receiving.KeepaliveEndsLoop`,
  `Receiving.LinkPacketEndsLoop` and `Receiving.ContentEndsLoop`; `Witnesses.WrittenPacketsCanEndLoops` has
  two that end everybody's.
- The loop reads its clock, and asserting liveliness and probing read it again; the loop's assertions compare
  with its own reading. The one after a probe (`src/uccn.c:808`) fails if and only if the probe reads the same
  time and either the probe timeout is zero or a linked peer's deadline is that very instant. The one after
  asserting liveliness (`src/uccn.c:796`) fails if and only if a deadline was overdue by the assert timeout at
  the loop's reading, or the timeout is zero and no time has passed. The one after discovery
  (`src/uccn.c:822`) fails if and only if discovery is overdue by its period. All this is
  `EventLoop.PassHolds`, with `Witnesses.PassCanFail`.
- An entry of a content group that makes a new link ends the group, and the packet, early
  (`src/uccn.c:1039-1042`): `Groups.ManyEntries`, `Reading.TwoGroups`. Written packets hold one entry, so nothing
  is lost.
- The array of hashes is shared by the arrays of a link group and never reset (`src/uccn.c:1187`,
  `src/uccn.c:1219`); a second array, if tracked, applies the first hashes of all (`src/uccn.c:1230`):
  `Groups.TwoListsExact`. In
  no run of nodes does a packet with two arrays arise: `Network.NetworkSafety`. Other packets with two arrays
  may be too much for it; for lists of different kinds, or of one kind without repetitions,
  `Overruns.TwoListsOverrun` says exactly which are (`Witnesses.TwoListsCanOverrun` is one). What the program
  does then is not defined, and runs of a node are followed up to there.
- The second guard of the configuration checks trackers again where its message speaks of providers
  (`include/uccn/config.h:36-38`); nothing here relies on a bound on providers.
- `TIMESPEC_INF` and `TIMESPEC_INF_INIT` differ in nanoseconds; the comparison treats them alike:
  `Time.CmpIsOrder`.
- The label at `src/uccn.c:183` is read as the one at the end of the function.

## Model

The main theorems come first in each group.

| member | source | states |
|---|---|---|
| `Handshake.HandshakeConverges` | src/uccn.c:659-692 | from one discovery packet of non-zero hashes between two nodes with room for each other, whatever they know of each other, at most four packets flow: what is asked for, what of it is provided in reverse, that reversed back, and the provided part again; after four deliveries both are silent |
| `Handshake.HandshakeLinks` | src/uccn.c:1147-1288 | for two strangers, which links each end has afterwards: exactly those that matched, unless what was asked for, or the answer, had digest zero |
| `Handshake.HandshakeSymmetry` | src/uccn.c:1147-1288 | afterwards a tracker for a hash is linked if and only if the provider for it is, exactly when nothing matched, or the answer does not have digest zero, or the question does |
| `Handshake.ReceiveList` | src/uccn.c:659-692 | receiving one list: which endpoints are relinked, which digest is remembered, what stays, and the reply - the hashes that matched, reversed, as a list of the other kind, and only if the digest was new and something matched |
| `Witnesses.HandshakeCanDisagree` | src/uccn.c:1223-1224 | two nodes with the default configuration and two resources whose ends disagree after the handshake |
| `Network.NetworkSafety` | src/uccn.c:1172-1242 | in every run of any number of nodes with loss, duplication, reordering and re-sent buffers: every packet in flight is well-formed, with at most one list, free of repetitions and within the maximum, and no delivery writes past the arrays of link group processing |
| `Network.WellFormedProcessing` | src/uccn.c:1290-1340 | a well-formed packet causes no overrun and leaves the outgoing buffer empty or well-formed |
| `Network.OneListFits` | src/uccn.c:1172-1242 | processing a group with one list reads one array only, so the shared hashes are those of that list, and all arrays stay within bounds |
| `Network.StepOk` | src/uccn.c:463-514 | every event of any node keeps the network well-formed |
| `Network.PacketStays` | src/uccn.c:1290-1340 | whatever a packet holds, up to the first write past an array if it makes one, the resources of the endpoints, the number of peers and their addresses and deadlines stay |
| `NodeRuns.RunAccounted` | src/uccn.c:326-374 | in every run up to the first probe that leaves a gap, or packet that overruns an array, whatever else happens as long as callers add no endpoint without room: link counts are the numbers of endpoints that name the peer, all entries are live slots named once, addresses are distinct, and "too many peers" is only said of a peer that is linked already |
| `NodeRuns.StepAccounted` | src/uccn.c:888-971 | every permitted event keeps that accounting; a packet is permitted unless it overruns an array, a probe exactly when it keeps the accounting |
| `NodeRuns.AccountedRefusals` | src/uccn.c:1053-1056 | under the accounting an endpoint that refuses a live peer has it already |
| `NodeRuns.KeepaliveReply` | src/uccn.c:677-688 | a keepalive is answered with what the outgoing buffer holds, and not answered exactly when that is empty |
| `NodeRuns.KeepalivesEcho` | src/uccn.c:1304-1331 | two nodes whose outgoing buffers hold keepalives answer each other as long as packets arrive |
| `Links.FullMeansLinked` | src/uccn.c:1049-1066 | an endpoint with distinct live entries never holds more than there are peers, and refuses only peers it has |
| `Links.LinkEndpointEffect` | src/uccn.c:1049-1066 | which of the three results linking has, and when; all other entries stay, in order |
| `Links.UnlinkEndpointEffect` | src/uccn.c:1068-1083 | unlinking takes out exactly that peer, keeps the order of the others, and reports whether it was there |
| `Links.LinkMatchingEffect` | src/uccn.c:1085-1121 | linking by hash changes the number of endpoints that name the peer by what it returns, and nobody else's |
| `Links.UnlinkAllEffect` | src/uccn.c:1123-1145 | unlinking from all endpoints returns how many named the peer, and leaves none |
| `Links.LinkHashesEffect` | src/uccn.c:1198-1206 | linking a list, even one that fails midway, keeps endpoints sound and counts its links |
| `Relink.RelinkExact` | src/uccn.c:1194-1206 | unlinking and relinking with a list without repetitions succeeds if there is room for the matches; the endpoints linked are exactly those whose hash is listed; the matches come out once each in list order; the last return code is known |
| `Relink.LinkMatchingOne` | src/uccn.c:1085-1121 | one more hash links exactly the endpoint with it |
| `Exchange.LinkPacketExact` | src/uccn.c:1147-1288 | what a packet with one list does to the whole node: the sender's links, name, digest and link count, everybody else's links unchanged, the reply in the outgoing buffer |
| `Exchange.ApplyExact` | src/uccn.c:1191-1208 | the same for one array, provided or tracked |
| `Exchange.ReplyIsLinkPacket` | src/uccn.c:1244-1285 | the reply is a packet with one list of the other kind: the matches in reverse; nothing if the digest was remembered or nothing matched |
| `Accounting.RegisterKeeps` | src/uccn.c:326-374 | registering keeps the accounting; it fails, and changes nothing, exactly when the table is full; otherwise the slot is the one with that address, with a new deadline; a known peer keeps the rest of its record, a new one gets the last slot and a fresh record, and no other slot changes |
| `Accounting.AddEndpointKeeps` | src/uccn.c:170-192 | a new hash adds an endpoint without peers, a known resource gets the new callback, a colliding hash changes nothing and is refused, and hashes stay distinct |
| `Accounting.TrackKeeps` | src/uccn.c:154-198 | tracking keeps the accounting; the tracker for the resource, unless its hash collides, has the callback given, and all others, and everything else, stay |
| `Accounting.AdvertiseKeeps` | src/uccn.c:200-237 | advertising keeps the accounting; there is a provider for the resource unless its hash collides, and those there were stay as they are |
| `Accounting.LinkTrackerKeeps` | src/uccn.c:994-1000 | linking a tracker on content keeps the accounting and leaves the tracker linked, and the other endpoints as they were |
| `Accounting.PacketKeeps` | src/uccn.c:1290-1340 | any packet, well-formed or not, up to the first write past an array if it makes one, keeps the accounting and touches nobody's links but the sender's |
| `Accounting.IncomingKeeps` | src/uccn.c:659-692 | the same for any packet from anywhere, with the registration of its sender |
| `Groups.TwoListsExact` | src/uccn.c:1172-1285 | what any packet with two lists that overruns nothing does, to the node, the reply and the return code: the second list is applied with the hashes of both if it is provided, and with as many of them from the first on as it has itself if it is tracked |
| `Groups.ArrayExact` | src/uccn.c:1191-1208 | one such array behind others |
| `Groups.OneListCode` | src/uccn.c:1147-1288 | the return code of a packet with one list: whether its last hash made a link; for a list of nothing, how many links were undone; zero if its digest was known |
| `Groups.ManyEntries` | src/uccn.c:1006-1047 | a packet of many content entries calls the trackers in order up to the first entry whose tracker cannot unpack it, is full, or is not linked yet; that entry does what it does by itself, the others change nothing, and those behind it are not read |
| `Reading.TwoGroups` | src/uccn.c:1304-1333 | a packet with two groups does what the first does by itself and then, exactly if that returned zero, what the second does |
| `Reading.GroupLocal` | src/uccn.c:1305-1331 | what a group does depends on its own items only |
| `Reading.AcceptedBegins` | src/uccn.c:1290-1340 | a packet that does not fail is nil or holds at most two groups; the first is of content or links; of links it holds at most three data, the first a name that fits or an array, or nil, of at most as many hashes as there may be resources; of content, its first entry has a non-zero hash and some bytes |
| `Reading.NoGroups` | src/uccn.c:1304-1331 | a packet of nothing changes nothing, and a group of nothing the outgoing buffer only |
| `Reading.NoArray` | src/uccn.c:1180-1212 | nil in place of an array leaves all links as they are |
| `Overruns.TwoListsOverrun` | src/uccn.c:1172-1242 | a packet with two lists, the first without repetitions and so both together if they are of one kind, writes past an array exactly when together they are longer than the array they share, or they are of one kind, the second changes the digest, and the matches, those of the first counted each time they are applied, are more than an array holds |
| `Overruns.OneListNeverOverruns` | src/uccn.c:1172-1242 | a packet with one list never does, with repetitions or without |
| `Overruns.MatchesOverrun` | src/uccn.c:1198-1206 | gathering matches overruns an array exactly when one with room for all would end up with more |
| `Witnesses.TwoListsCanOverrun` | src/uccn.c:1219 | two lists of one hash each that overrun an array for one |
| `Accounting.DeadlinesKeep` | src/uccn.c:541-565 | what changes deadlines only keeps the accounting |
| `Accounting.EmptyNodeAccounted` | src/uccn.c:33-152 | empty tables are accounted for |
| `Probing.ProbeExact` | src/uccn.c:888-971 | a probe leaves every link naming the peer it named, dead ones filtered out, if and only if no peer that stays sits behind one that goes |
| `Probing.ProbeKeeps` | src/uccn.c:888-971 | the accounting survives a probe if and only if no peer that stays sits behind one that goes, although counts of dead peers are not taken down |
| `Probing.GapBreaks` | src/uccn.c:955-957 | any peer that stays behind one that goes breaks a link |
| `Witnesses.ProbeCanBreakLinks` | src/uccn.c:952-960 | a node with the default configuration whose only link is broken by a probe |
| `Probing.CompactionIs` | src/uccn.c:949-960 | the peers after a probe are the alive and linked ones, in order |
| `Probing.MentionsAlive` | src/uccn.c:873-886 | dropping dead peers takes all mentions of dead peers and none of live ones |
| `Probing.NextProbe` | src/uccn.c:943-968 | the next probe time is at most a probe timeout away, no later than any staying peer's deadline, never in the past, and after now exactly when the timeout is positive and no staying peer's deadline is now |
| `ProbeAnswer.ProbeExactly` | src/uccn.c:888-971 | the whole answer of a probe, from the node before it: the active trackers, and the active providers, are those with an entry for a peer whose deadline has not passed; the next time is one probe timeout from now or the deadline of a peer that stays, whichever is first; every endpoint keeps exactly its entries for live peers, in order |
| `ProbeAnswer.PeersKept` | src/uccn.c:949-960 | the peers after a probe are exactly those alive and linked before it, in order, and their records change only in that they are marked alive |
| `Probing.EarliestRemoteIsMinimum` | src/uccn.c:962-967 | the loop over deadlines yields their minimum |
| `DigestCache.CacheAgrees` | src/uccn.c:1223-1240 | in every run up to the first probe that leaves a gap, with any packets that nodes write: the remembered digest is that of the last tracked list applied, and a provider there at the time is linked if and only if its hash is in that list |
| `DigestCache.CacheAgreesFromStart` | src/uccn.c:369-371 | the same spelt out for such runs from an empty node: each peer has a list, the empty one at first, that explains its digest and its links |
| `DigestCache.InputKeeps` | src/uccn.c:369-371 | every input keeps that, new peers starting with the empty list |
| `DigestCache.SkipIsRelinking` | src/uccn.c:1224-1226 | a skip leaves the links relinking would make exactly when each provider is in the new list if and only if it was there for the old one and in it |
| `DigestCache.SkipLosesNothing` | src/uccn.c:1224-1226 | so a skip loses nothing without a collision or a provider added since |
| `Witnesses.SkipCanLoseLinks` | src/uccn.c:1224 | a fresh peer's first list that is skipped although both its hashes are provided |
| `ContentDelivery.PostIsDelivered` | src/uccn.c:239-324 | content that packs to something, posted by a node for a non-zero hash, received by one with a matching tracker whose unpacking undoes the packing, runs exactly that tracker's callback, once, on what was posted, and links that tracker and nothing else to the sender; and nothing happens exactly when the receiver's table is full |
| `ContentDelivery.BlobDelivered` | src/uccn.c:973-1004 | one content entry: one callback, the tracker linked afterwards even when linking reports that it is full |
| `ContentDelivery.NoTrackerNoDelivery` | src/uccn.c:973-1004 | without a matching tracker nothing changes |
| `RoundTrip.LinkRoundTrip` | src/uccn.c:1147-1242 | reading a written link packet, whose lists together fit the array they share, is setting the name and applying the lists in order; no items are left over |
| `RoundTrip.WritersWriteLinkPackets` | src/uccn.c:479-507 | discovery and reply packets are link packets: which lists, in which order |
| `RoundTrip.HashesRoundTrip` | src/uccn.c:1213-1220 | written non-zero hashes are read back in order behind those read before, and the rest is left for later |
| `RoundTrip.DataRoundTrip` | src/uccn.c:1172-1242 | the arrays of a group are read back one after the other, as long as they fit |
| `RoundTrip.ContentRoundTrip` | src/uccn.c:1006-1047 | a written content packet is read back as its hash and blob, with no items left over |
| `RoundTrip.KeepaliveRoundTrip` | src/uccn.c:1304 | a keepalive changes nothing, not even the outgoing buffer |
| `WakingLoop.LoopKeepsAlive` | src/uccn.c:788-797 | in every run of a sender whose event loop asserts liveliness within a service time of when it is scheduled, with packets that arrive within a delay, both with the assert timeout not exceeding the liveliness timeout: no probe marks dead a sender that keeps the receiver registered, if the packet sent last among those that arrived found room in the receiver's table |
| `WakingLoop.LoopKeepsAliveFromStart` | src/uccn.c:366-371 | so from when the sender has just registered the receiver, whose first keepalive may wait for a whole assert timeout |
| `WakingLoop.AwakeIsTimely` | src/uccn.c:788-796 | a loop that wakes within the service time of its scheduled assert time serves every deadline in time |
| `FalseDeath.NoFalseDeath` | src/uccn.c:915-920 | in every run, however slow the loop and late the packets, and whether they find room or not: a probe finds the sender alive exactly when the last packet of it that found room is no older than the liveliness timeout; and, when assert timeout, service time and delay together do not exceed that timeout, it does if the packet sent last among those that arrived found room |
| `FalseDeath.AliveExactly` | src/uccn.c:345-353 | the first half, from the invariant |
| `FalseDeath.SenderIsAlive` | src/uccn.c:915-920 | the second half, at any time the assumptions let come |
| `FalseDeath.DuoStepOk` | src/uccn.c:541-565 | every step of either node, and every arrival, whether it finds room or not, keeps the invariant |
| `Receiving.FullTableForgets` | src/uccn.c:336-339 | whatever arrives at a node whose table is full, a probe empties the table exactly when each peer is linked to nothing or past its deadline, which nothing renews |
| `Receiving.FullTableRefuses` | src/uccn.c:336-339 | no packet changes a node whose table is full, and any from somebody else fails |
| `Witnesses.FullTableCanForgetAll` | src/uccn.c:336-339 | five peers, each heard from just before a probe that forgets them all |
| `Receiving.ReceiveFails` | src/uccn.c:596-656 | receiving somebody else's packet fails exactly when the table is full or processing what is in it fails; the node's own broadcasts do nothing, whatever the table, and its own packets to itself fail |
| `Receiving.KeepaliveEndsLoop` | src/uccn.c:760-777 | a keepalive ends the event loop exactly when the table is full |
| `Receiving.LinkPacketEndsLoop` | src/uccn.c:1183-1218 | a written list ends it exactly when the table is full, zero is in the list, or the name of its sender does not fit |
| `Receiving.ContentEndsLoop` | src/uccn.c:1006-1047 | content ends it exactly when the table is full, the hash is zero, the blob is empty, or the tracker for it cannot unpack it |
| `Witnesses.WrittenPacketsCanEndLoops` | src/uccn.c:387-395 | the discovery packet of a node that tracks the empty path, and a post of nothing, each ending the loop of a fresh node |
| `Network.RejectedList` | src/uccn.c:1213-1218 | a list with a zero in it, or with a name that does not fit, changes nothing but the name of its sender and the outgoing buffer |
| `Network.RejectedContent` | src/uccn.c:1021-1031 | content for hash zero or of no bytes changes nothing but the outgoing buffer |
| `EventLoop.FullTableEndsLoop` | src/uccn.c:760-777 | with a full table the loop ends, the node untouched, unless only its own broadcasts came |
| `FalseDeath.EventFollows` | src/uccn.c:311-315 | whatever a node does, a peer's local deadline stays, or is unset, or a packet went to the peer and the deadline is at most an assert timeout after it |
| `FalseDeath.StartOk` | src/uccn.c:366-368 | a sender that has just registered the receiver satisfies the invariant |
| `Liveliness.NextDeadline` | src/uccn.c:516-568 | the deadline returned is the earliest of an assert timeout from now and all local deadlines, and lies after now exactly when the timeout is positive and no deadline is overdue by it |
| `Liveliness.ScheduleSound` | src/uccn.c:788-797 | in every run, with posts, packets and probes in between, the time to assert liveliness next is no later than any local deadline set, and the event loop's assertion holds exactly when no deadline is overdue by the timeout |
| `Liveliness.StepScheduled` | src/uccn.c:788-797 | every event keeps that |
| `Liveliness.KeepaliveDeadline` | src/uccn.c:541-558 | the check for one peer: due exactly when its local deadline has come, and then its new deadline is one timeout after the old one, or after now if there was none |
| `Sending.KeepalivesExactly` | src/uccn.c:541-558 | asserting liveliness sends to exactly the peers whose local deadline has come, in table order, moves their deadlines on and no others, and leaves nil in the outgoing buffer |
| `Sending.KeepaliveReaches` | src/uccn.c:544-547 | an address gets a keepalive if and only if a peer there is due, and one only if addresses are distinct |
| `Sending.PostExactly` | src/uccn.c:258-317 | a post sends to exactly the peers its provider names, in its order, resets their local deadlines and no others, and does nothing without peers |
| `Sending.UnlinkedExactly` | src/uccn.c:490-495 | a discovery packet lists the hashes of exactly the trackers without peers, in order |
| `Sending.StepSends` | src/uccn.c:300-305 | what every event sends, exactly: content to those linked, keepalives to those due, discovery to everyone, a reply to whoever sent the packet if the outgoing buffer holds one and the packet did not fail, and nothing else |
| `Liveliness.ReceiveDeadlines` | src/uccn.c:345-368 | a packet renews the remote deadline of its sender and no other deadline; a new peer has no local one |
| `Liveliness.ProbeDeadlines` | src/uccn.c:949-968 | a probe changes no deadline |
| `Liveliness.WaitDeadline` | src/uccn.c:837-848 | the loop waits for the minimum of its four deadlines, which is finite if one of them is |
| `EventLoop.PassHolds` | src/uccn.c:780-823 | with the clock readings of the loop, of asserting liveliness and of the probe: all assertions of a pass hold if and only if (when liveliness is due) no local deadline was overdue by the assert timeout at the loop's reading and the timeout is positive or time has passed, (when a probe is due) time has passed or the probe timeout is positive and no linked peer falls due at this instant, and discovery is not overdue by its period; and then nothing is due any more |
| `Passes.PassEffect` | src/uccn.c:788-823 | what a pass does and sends, from the node before it: keepalives to those due if liveliness is; after a probe the number of trackers with live peers; a discovery packet of the trackers then unlinked, to everyone, exactly when discovery is due and fewer trackers than there are had live peers at the last probe; the outgoing buffer holds what was made last, and what is not due is not done |
| `Passes.SomeTrackerUnlinked` | src/uccn.c:812 | that is so exactly when some tracker had no live peer |
| `Passes.FirstPass` | src/uccn.c:727-729 | in the first pass everything is due, and the number of active trackers, which nothing has set by then, does not matter |
| `EventLoop.NextAssertLater` | src/uccn.c:796 | the condition for asserting liveliness by itself |
| `EventLoop.ProbeHolds` | src/uccn.c:808 | the condition for the probe by itself |
| `EventLoop.StayersFallingDue` | src/uccn.c:919-968 | a staying peer falls due now exactly when some linked peer does |
| `EventLoop.Spin` | src/uccn.c:788-823 | the pass on objects is the pass on values, with the same clock readings, and sends the same |
| `EventLoop.TakeTurn` | src/uccn.c:744-823 | a turn of the loop on objects, packets first: it ends exactly when it does on values, and otherwise is the same pass; either way it sends the same |
| `EventLoop.Handle` | src/uccn.c:708-871 | any event on a node object whose links point into its table, which every event keeps so, does and sends what the node as a value does and sends; a permitted one keeps the accounting |
| `EventLoop.StepInShape` | src/uccn.c:708-871 | every event, gaps and overruns or not, keeps the links pointing into the table |
| `Witnesses.PassCanFail` | src/uccn.c:808 | a pass whose assertion fails, the probe reading the same time as the loop |
| `CrcRemainder.CrcIsTheRemainder` | src/common/crc32.c:7-34 | a polynomial of at most 32 coefficients is the remainder of the message times x^32 divided by the generator if and only if it is the one the checksum stands for |
| `Gf2.RemainderUnique` | src/common/crc32.c:7-34 | remainders are unique |
| `Crc32.SerialBytes` | src/common/crc32.c:79-81 | taking bytes is the same as taking bits one at a time |
| `Crc32.Crc32` | src/common/crc32.c:74-84 | the table-driven loop computes that checksum |
| `Crc32.TableEntry` | src/common/crc32.c:38-72 | every entry of the table is eight clocks of the register with its index |
| `CrcTable.TableIsCombine` | src/common/crc32.c:38-72 | every entry is the sum of the entries of its bits |
| `ShiftRegister.ShiftsInjective` | src/common/crc32.c:80 | clocking the register loses nothing |
| `ShiftRegister.ShiftsXor` | src/common/crc32.c:80 | clocking the register is linear |
| `HashList.CrcXor` | src/common/crc32.c:74-84 | the checksum is linear in messages of one length |
| `HashList.CrcFromInjective` | src/common/crc32.c:74-84 | equal bytes do not bring two states together |
| `HashList.SingleReplacement` | src/uccn.c:1191-1192 | replacing one hash of a list leaves its digest the same if and only if it is the same hash |
| `HashList.DigestZero` | src/uccn.c:1223-1224 | a list has the digest of a fresh peer exactly when its last hash is the digest of the rest |
| `HashList.SingletonDigest` | src/uccn.c:1223-1224 | the digest of one hash is zero exactly when the hash is; that of a hash and its digest is |
| `HashList.DigestSnoc` | src/uccn.c:1223 | one more hash is xored into the digest and clocked 32 times |
| `HashList.DigestXor` | src/uccn.c:1223 | digests are linear in lists of one length |
| `HashList.Collision` | src/uccn.c:1223-1224 | two lists of one length collide exactly when their difference has digest zero |
| `Upoll.Upoll` | src/utilities/upoll.c:7-36 | one call reports and reschedules the due polls, as the functions on values do, and yields the earliest next time |
| `Upoll.FiredExactly` | src/utilities/upoll.c:20-28 | what it reports are the arguments, in order and once each, of exactly the polls whose next time is finite and not after the reading |
| `Upoll.FiringsAreReported` | src/utilities/upoll.c:20-28 | in every run of calls, how often a poll has fired is how often its argument was reported |
| `Upoll.NoDrift` | src/utilities/upoll.c:20-32 | after its k-th firing a poll is due at exactly start + k * period, whatever the calls in between |
| `Upoll.FiringBound` | src/utilities/upoll.c:20-32 | by time t it has fired at most floor((t - start) / period) + 1 times |
| `Upoll.ReportBound` | src/utilities/upoll.c:20-32 | nor has its argument been reported more often |
| `Upoll.EarliestIsMinimum` | src/utilities/upoll.c:29-31 | the result is a lower bound of all next times and one of them |
| `Time.CmpIsOrder` | include/uccn/common/time.h:22-32 | the comparison is the order of nanoseconds with infinity on top |
| `Time.PlusIsExact` | include/uccn/common/time.h:34-43 | addition is exact and normalised, infinity absorbing |
| `Time.ChainIsExact` | include/uccn/common/time.h:34-43 | so is any chain of additions |
| `Time.DiffIsDistance` | include/uccn/common/time.h:45-61 | subtraction is the exact distance |
| `Time.DiffUndoesPlus` | include/uccn/common/time.h:45-61 | on finite values subtraction undoes addition |
| `Time.TimespecVar.Add` | include/uccn/common/time.h:34-43 | the addition in place is that addition, even of a variable to itself |
| `Time.TimespecVar.Subtract` | include/uccn/common/time.h:45-61 | the subtraction in place is that subtraction |
| `Sequences.CompactIsFilter` | src/uccn.c:949-960 | the shift loop keeps exactly the entries to be kept, in order |
| `Sequences.Pigeonhole` | src/uccn.c:1053-1056 | distinct slots below n are at most n |
| `EndpointObjects.ShiftDownInPlace` | src/uccn.c:955-957 | the inner loop moves the entries behind one down by one |
| `EndpointObjects.ContentEndpoint.Link` | src/uccn.c:1049-1066 | linking in place is linking on values, with the same code |
| `EndpointObjects.ContentEndpoint.Unlink` | src/uccn.c:1068-1083 | unlinking in place, too |
| `EndpointObjects.ContentEndpoint.UnlinkDeadPeers` | src/uccn.c:873-886 | the nested loops, with an index that wraps around below zero, terminate and leave the live peers in order |
| `EndpointGroups.LinkEndpoints` | src/uccn.c:1085-1121 | the loop over endpoints links and counts as the function does, and stops where it does |
| `EndpointGroups.UnlinkEndpoints` | src/uccn.c:1123-1145 | the loop over endpoints unlinks and counts |
| `EndpointGroups.LinkHashList` | src/uccn.c:1198-1206 | the loop over hashes links, gathers the matches, and stops where the function does |
| `EndpointGroups.DropDeadPeers` | src/uccn.c:922-941 | dead peers leave every endpoint, and those with peers left are counted |
| `EndpointGroups.CollectUnlinked` | src/uccn.c:490-495 | the hashes of the endpoints without peers, in order |
| `EndpointGroups.FindEndpoint` | src/uccn.c:984-988 | the first endpoint with the hash |
| `EndpointGroups.FindResource` | src/uccn.c:170-185 | the first endpoint that matches either way, and which way |
| `NodeObjects.UccnNode.RegisterPeer` | src/uccn.c:326-374 | registering in place is registering on values |
| `NodeObjects.UccnNode.Track` | src/uccn.c:154-198 | tracking in place is tracking on values |
| `NodeObjects.UccnNode.Advertise` | src/uccn.c:200-237 | advertising in place is advertising on values; a provider found is left as it is |
| `NodeObjects.UccnNode.CompactPeers` | src/uccn.c:943-968 | the loop that drops peers in place, its index wrapping around below zero, terminates; it leaves the alive and linked peers in order and finds their earliest deadline |
| `NodeObjects.UccnNode.ProbeEndpoints` | src/uccn.c:888-971 | the probe in place is the probe on values, with its counts and its next time |
| `NodeObjects.UccnNode.AssertLiveliness` | src/uccn.c:516-568 | the loop over peers sends to those that are due, renews their deadlines and finds the earliest |
| `NodeObjects.UccnNode.DiscoverPeers` | src/uccn.c:463-514 | the discovery packet in the outgoing buffer |
| `NodeObjects.UccnNode.Post` | src/uccn.c:239-324 | posting in place is posting on values: who is sent to, and whose deadlines change |
| `PacketObjects.ProcessLinkGroup` | src/uccn.c:1147-1242 | the loop over the data of a link group does what the function does |
| `PacketObjects.WriteReply` | src/uccn.c:1244-1285 | the reply is written backwards from the matches |
| `PacketObjects.ReadArray` | src/uccn.c:1213-1220 | the loop over an array appends its hashes to those read before, up to a zero |
| `PacketObjects.Digest` | src/uccn.c:1223 | the checksum of the bytes of the hashes |
| `PacketObjects.ProcessContentGroup` | src/uccn.c:1006-1047 | the loop over content entries stops where the function does, with the same deliveries |
| `PacketObjects.ProcessPacket` | src/uccn.c:1290-1340 | the loop over groups does what the function does |
| `PacketObjects.ProcessIncoming` | src/uccn.c:659-692 | registering, processing and replying in place are those on values |

## Left out

- Sockets, binding, selecting, and failures of them, of clocks and of sending: sending adds a packet, receiving takes one, time passes.
- Mutexes and multithreading: a locked region is one step. That `uccn_advertise` does not unlock when hashes collide (`src/uccn.c:217-221`) is therefore not seen.
- Starting and ending a node, its stop event, logging, and the printed location of a peer: `uccn_node_init` appears only as the empty tables it leaves.
- The MessagePack library in `vendor/mpack`: packets are sequences of items, not bytes; an unexpected item puts the reader into an error state in which every read yields a default, and the checks of its debug builds at the end of arrays and maps are not modelled.
- Failing to build a packet for want of buffer space, and failing to pack content: building succeeds.
- Serialisation of resources: packing and unpacking are parameters, and delivery assumes that one undoes the other. The run of a callback is an entry in a list; callbacks do not call back into the node.
- The order in which one step sends its packets, and their number when they are the same: what a step sends is a set. `Sending.KeepalivesExactly` and `Sending.PostExactly` do have the order of the targets.
- The numeric result of `uccn_post`, which the clock calls overwrite.
- The C++ wrappers, examples and type support generators.
- The bytes of a hash in memory are those of a little-endian machine.
- A post reads the clock once, not once for each peer. Counts of links and seconds are unbounded integers.
- Writing past the end of the arrays of link group processing is not followed further: it ends processing with a status of its own, which no run of nodes reaches.
- Symmetry of links in the long run: discovery lists only trackers without peers while the receiver replaces its whole list, so symmetry is claimed for one handshake.
- FalseDeath.NoFalseDeath: is about senders that keep the receiver registered; one that forgets it sends it nothing.
- NodeRuns.RunAccounted: ends at the first probe that leaves a gap, since by ProbeKeeps the accounting does not survive it; what links do after that is not followed. NetworkSafety, NoFalseDeath, LoopKeepsAlive and ScheduleSound do go on.
- DigestCache.CacheAgrees: ends there too; and it covers lists without repetitions, one to a packet, which are those that nodes send.
- Overruns.TwoListsOverrun: for two lists of one kind with repetitions there is only MatchesOverrun, array by array.
- Handshake.HandshakeConverges: assumes reliable delivery and no other steps in between.
- PacketObjects.ReadArray: the arrays local to link group processing are sequences with a capacity, not memory.
