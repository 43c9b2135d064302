/** No false death: two nodes with everything else they may do going on. When a probe of the receiver finds
    the sender alive is known exactly, from when the receiver last had room for a packet of it. And under
    three timing assumptions it does whenever the packet sent last among those that arrived found room: the
    event loop of the sender asserts liveliness within a service time of when it is scheduled; packets
    arrive within a delay; and assert timeout, service time and delay together do not exceed the liveliness
    timeout. */
module FalseDeath {
  import opened Time
  import opened Sequences
  import opened Tokens
  import opened Tables
  import opened Protocol
  import opened Accounting
  import opened Probing
  import opened Handshake
  import opened Network
  import opened Liveliness

  /** A packet from the sender to the receiver, with the time it was sent. */
  datatype Flying = Flying(sent: int, packet: Packet)

  /** The sender keeps the receiver registered since some time. Beside the nodes: the packets under way; the
      times of all sends; the latest send time among the packets that arrived, and among those that found
      room in the receiver's table; and when the last of these arrived (-1 before). */
  datatype Duo = Duo(s: Node, r: Node, clock: Timespec, pending: set<Flying>, since: int, sends: seq<int>,
                     latest: int, heard: int, accepted: int)

  datatype Bounds = Bounds(service: nat, delay: nat)

  datatype DuoEvent = SenderDoes(event: Event) | ReceiverDoes(event: Event) | Arrives(flying: Flying, now: Timespec)

  function LivelinessNs(c: Config): int {
    1_000_000 * c.livelinessMs
  }

  function EventTime(d: Duo, e: DuoEvent): Timespec {
    match e
    case SenderDoes(event) => TimeOf(event, d.clock)
    case ReceiverDoes(event) => TimeOf(event, d.clock)
    case Arrives(_, now) => now
  }

  /** Time may reach t as far as packets go: none would be late. */
  ghost predicate NoneLate(b: Bounds, d: Duo, t: Timespec) {
    Clock(t) && Ns(d.clock) <= Ns(t) && forall f :: f in d.pending ==> Ns(t) <= f.sent + b.delay
  }

  /** Time may reach t: no packet would be late, and no deadline for the receiver overdue by more than the
      service time. A new peer waits for the next time liveliness is asserted, an assert timeout at most. */
  ghost predicate Timely(c: Config, b: Bounds, d: Duo, t: Timespec)
    requires d.s.numPeers <= |d.s.slots|
  {
    && NoneLate(b, d, t)
    && forall k :: 0 <= k < d.s.numPeers && d.s.slots[k].address == d.r.address ==>
         Ns(t) <= (if IsZero(d.s.slots[k].nextLocal) then d.since + AssertNs(c) else Ns(d.s.slots[k].nextLocal))
                  + b.service
  }

  /** The sender still has the receiver in its table. */
  predicate KeepsRegistered(s: Node, r: Address)
    requires s.numPeers <= |s.slots|
  {
    SlotOf(s, r) < s.numPeers
  }

  function ToReceiver(sent: set<Message>, r: Node, time: int): set<Flying> {
    set m | m in sent && Addressed(r, m) :: Flying(time, m.packet)
  }

  /** What may happen, its time aside: anything at the sender that keeps the receiver registered; anything at
      the receiver but packets from the sender; and the arrival of those, whether there is room or not. */
  ghost predicate Allowed(c: Config, unpack: Codec, d: Duo, e: DuoEvent)
    requires InShape(c, d.s) && InShape(c, d.r)
  {
    match e
    case SenderDoes(event) =>
      && CanHappen(d.s, event)
      && var m := NodeStep(c, unpack, d.s, event).0;
         m.numPeers <= |m.slots| && KeepsRegistered(m, d.r.address)
    case ReceiverDoes(event) => CanHappen(d.r, event) && (event.Receives? ==> event.message.source != d.s.address)
    case Arrives(f, _) => f in d.pending
  }

  ghost predicate Possible(c: Config, unpack: Codec, b: Bounds, d: Duo, e: DuoEvent)
    requires InShape(c, d.s) && InShape(c, d.r)
  {
    Timely(c, b, d, EventTime(d, e)) && Allowed(c, unpack, d, e)
  }

  function Later(a: int, b: int): int {
    if a > b then a else b
  }

  function DuoStep(c: Config, unpack: Codec, d: Duo, e: DuoEvent): Duo
    requires Shaped(c, d.s) && InRange(d.s.providers, |d.s.slots|)
    requires Shaped(c, d.r) && InRange(d.r.providers, |d.r.slots|)
    requires e.SenderDoes? ==> CanHappen(d.s, e.event)
    requires e.ReceiverDoes? ==> CanHappen(d.r, e.event)
  {
    var t := EventTime(d, e);
    match e
    case SenderDoes(event) =>
      var (m, sent) := NodeStep(c, unpack, d.s, event);
      var flying := ToReceiver(sent, d.r, Ns(t));
      d.(s := m, clock := t, pending := d.pending + flying, sends := if flying == {} then d.sends else d.sends + [Ns(t)])
    case ReceiverDoes(event) =>
      d.(r := NodeStep(c, unpack, d.r, event).0, clock := t)
    case Arrives(f, _) =>
      var room := d.r.numPeers < c.maxPeers;
      d.(r := ProcessIncoming(c, unpack, d.r, d.s.address, f.packet, t).node, clock := t,
         pending := d.pending - {f}, latest := Later(d.latest, f.sent),
         heard := if room then Later(d.heard, f.sent) else d.heard, accepted := if room then Ns(t) else d.accepted)
  }

  // ---------- the invariant ----------

  /** A local deadline for the receiver is unset, or at most one assert timeout after the last send. */
  ghost predicate SenderInvariant(c: Config, s: Node, r: Address, sends: seq<int>)
    requires s.numPeers <= |s.slots|
  {
    forall k :: 0 <= k < s.numPeers && s.slots[k].address == r ==>
      && Clock(s.slots[k].nextLocal)
      && (IsZero(s.slots[k].nextLocal) || (sends != [] && Ns(s.slots[k].nextLocal) <= sends[|sends| - 1] + AssertNs(c)))
  }

  /** Sends are never further apart than assert timeout and service time. */
  ghost predicate SendsInvariant(c: Config, b: Bounds, since: int, sends: seq<int>, now: int) {
    && since <= now
    && (forall i :: 0 <= i < |sends| ==> since <= sends[i] <= now)
    && (forall i, j :: 0 <= i <= j < |sends| ==> sends[i] <= sends[j])
    && (forall i :: 0 < i < |sends| ==> sends[i] <= sends[i - 1] + AssertNs(c) + b.service)
  }

  /** Whatever was sent after the latest arrival is still under way. */
  ghost predicate FlightInvariant(pending: set<Flying>, sends: seq<int>, latest: int, now: int) {
    && (latest >= 0 ==> sends != [] && sends[0] <= latest <= now)
    && (forall f :: f in pending ==> 0 <= f.sent <= now && sends != [] && sends[0] <= f.sent)
    && (forall i :: 0 <= i < |sends| && sends[i] > latest ==> exists f :: f in pending && f.sent == sends[i])
  }

  /** The receiver's deadline for the sender is one liveliness timeout after the last packet of it that
      found room. */
  ghost predicate ReceiverInvariant(c: Config, r: Node, s: Address, accepted: int)
    requires r.numPeers <= |r.slots|
  {
    && AddressesDistinct(r.slots, r.numPeers)
    && forall k :: 0 <= k < r.numPeers && r.slots[k].address == s ==>
         accepted >= 0 && Clock(r.slots[k].nextRemote) && Ns(r.slots[k].nextRemote) == accepted + LivelinessNs(c)
  }

  ghost predicate HeardInvariant(latest: int, heard: int, accepted: int, now: int) {
    && heard <= latest && heard <= accepted <= now
    && (accepted >= 0 ==> heard >= 0)
  }

  ghost predicate DuoOk(c: Config, b: Bounds, d: Duo) {
    && InShape(c, d.s) && InShape(c, d.r) && Clock(d.clock) && d.s.address != d.r.address
    && KeepsRegistered(d.s, d.r.address)
    && SenderInvariant(c, d.s, d.r.address, d.sends)
    && SendsInvariant(c, b, d.since, d.sends, Ns(d.clock))
    && FlightInvariant(d.pending, d.sends, d.latest, Ns(d.clock))
    && ReceiverInvariant(c, d.r, d.s.address, d.accepted)
    && HeardInvariant(d.latest, d.heard, d.accepted, Ns(d.clock))
  }

  // ---------- the invariant is enough ----------

  /** At any time that may be reached, the last send is no older than assert timeout and service time. */
  lemma LastSendIsRecent(c: Config, b: Bounds, d: Duo, t: Timespec)
    requires DuoOk(c, b, d) && Timely(c, b, d, t) && d.sends != []
    ensures Ns(t) <= d.sends[|d.sends| - 1] + AssertNs(c) + b.service
  {
    var k := SlotOf(d.s, d.r.address);
    assert d.s.slots[k].address == d.r.address;
  }

  lemma FirstAfter(sends: seq<int>, latest: int, i: nat) returns (first: nat)
    requires i < |sends| && sends[i] > latest && sends[0] <= latest
    ensures 0 < first < |sends| && sends[first] > latest && sends[first - 1] <= latest
    decreases i
  {
    if sends[i - 1] > latest {
      first := FirstAfter(sends, latest, i - 1);
    } else {
      first := i;
    }
  }

  /** Whether a probe of the receiver finds the peer at some address alive. */
  ghost predicate FoundAlive(r: Node, s: Address, t: Timespec)
    requires r.numPeers <= |r.slots|
  {
    forall k :: 0 <= k < r.numPeers && r.slots[k].address == s ==> MarkAlive(r.slots, r.numPeers, t)[k].alive
  }

  /** A probe finds a sender that is in the table alive exactly when the last packet of it that found room
      is no older than the liveliness timeout. */
  lemma AliveExactly(c: Config, b: Bounds, d: Duo, t: Timespec)
    requires DuoOk(c, b, d) && Clock(t) && KeepsRegistered(d.r, d.s.address)
    ensures FoundAlive(d.r, d.s.address, t) <==> Ns(t) <= d.accepted + LivelinessNs(c)
  {
    var k := SlotOf(d.r, d.s.address);
    assert d.r.slots[k].address == d.s.address;
    ClockArithmetic(d.r.slots[k].nextRemote, t);
    if Ns(t) <= d.accepted + LivelinessNs(c) {
      forall j | 0 <= j < d.r.numPeers && d.r.slots[j].address == d.s.address
        ensures MarkAlive(d.r.slots, d.r.numPeers, t)[j].alive
      {
        ClockArithmetic(d.r.slots[j].nextRemote, t);
      }
    } else {
      assert !MarkAlive(d.r.slots, d.r.numPeers, t)[k].alive;
    }
  }

  /** When the packet sent last among those that arrived found room, a probe finds the sender alive,
      whenever it happens. */
  lemma SenderIsAlive(c: Config, b: Bounds, d: Duo, t: Timespec)
    requires DuoOk(c, b, d) && Timely(c, b, d, t) && d.heard == d.latest
    requires AssertNs(c) + b.service + b.delay <= LivelinessNs(c)
    ensures FoundAlive(d.r, d.s.address, t)
  {
    forall k | 0 <= k < d.r.numPeers && d.r.slots[k].address == d.s.address
      ensures MarkAlive(d.r.slots, d.r.numPeers, t)[k].alive
    {
      ClockArithmetic(d.r.slots[k].nextRemote, t);
      if i :| 0 <= i < |d.sends| && d.sends[i] > d.latest {
        var first := FirstAfter(d.sends, d.latest, i);
        var f :| f in d.pending && f.sent == d.sends[first];
      } else {
        LastSendIsRecent(c, b, d, t);
      }
    }
  }

  // ---------- what an event of the sender does to its deadline for the receiver ----------

  /** Unchanged, or pushed back to at most one assert timeout from now by a packet to a. */
  ghost predicate DeadlineFollows(c: Config, n: Node, m: Node, sent: set<Message>, a: Address, t: Timespec)
    requires n.numPeers <= |n.slots| && m.numPeers <= |m.slots|
  {
    forall k :: 0 <= k < m.numPeers && m.slots[k].address == a ==>
      exists j :: 0 <= j < n.numPeers && n.slots[j].address == a && DeadlineFrom(c, n, j, m.slots[k].nextLocal, sent, a, t)
  }

  ghost predicate DeadlineFrom(c: Config, n: Node, j: nat, deadline: Timespec, sent: set<Message>, a: Address, t: Timespec)
    requires j < |n.slots|
  {
    || deadline == n.slots[j].nextLocal
    || (Clock(deadline) && Ns(deadline) <= Ns(t) + AssertNs(c) && SentTo(n, sent, a)
        && (IsZero(deadline) ==> Ns(t) + AssertNs(c) == 0))
  }

  ghost predicate SentTo(n: Node, sent: set<Message>, a: Address) {
    exists m :: m in sent && m.source == n.address && m.to == To(a)
  }

  lemma ProviderTargets(c: Config, n: Node, p: nat)
    requires InShape(c, n) && p < |n.providers|
    ensures InRange(n.providers, |n.slots|) && Below(n.providers[p].peers, |n.slots|)
  {
  }

  lemma DeadlineFromNow(c: Config, now: Timespec)
    requires Clock(now)
    ensures var q := Plus(now, c.AssertTimeout());
            Clock(q) && Ns(q) == Ns(now) + AssertNs(c) && (IsZero(q) ==> Ns(now) + AssertNs(c) == 0)
  {
    ClockArithmetic(now, c.AssertTimeout());
  }

  /** After a keepalive check a deadline is only unset at the beginning of time. */
  lemma KeepaliveNotZero(c: Config, p: Peer, now: Timespec)
    requires Clock(now) && Clock(p.nextLocal)
    ensures IsZero(Keepalive(c, p, now).nextLocal) ==> Ns(now) + AssertNs(c) == 0
  {
    KeepaliveDeadline(c, p, now);
    ClockArithmetic(p.nextLocal, now);
    ClockArithmetic(Keepalive(c, p, now).nextLocal, now);
  }

  lemma PostFollows(c: Config, unpack: Codec, n: Node, e: Event, a: Address)
    requires InShape(c, n) && e.Posts? && CanHappen(n, e) && Clock(e.now)
    ensures var (m, sent) := NodeStep(c, unpack, n, e);
            InShape(c, m) && m.address == n.address && DeadlineFollows(c, n, m, sent, a, e.now)
  {
    hide Plus, InRange, ContentPacket, Ns;
    DeadlineFromNow(c, e.now);
    var (m, sent) := NodeStep(c, unpack, n, e);
    var targets := n.providers[e.provider].peers;
    assert InRange(n.providers, |n.slots|) && Below(targets, |n.slots|) by {
      ProviderTargets(c, n, e.provider);
    }
    forall k | 0 <= k < m.numPeers && m.slots[k].address == a
      ensures DeadlineFrom(c, n, k, m.slots[k].nextLocal, sent, a, e.now)
    {
      if m.slots[k].nextLocal != n.slots[k].nextLocal {
        assert targets != [] && k in targets;
        var q :| 0 <= q < |targets| && targets[q] == k;
        assert AddressesOf(n.slots, targets)[q] == a;
        assert Message(n.address, To(a), m.outgoing) in sent;
      }
    }
  }

  lemma {:induction false} TargetsReached(ps: seq<Peer>, now: Timespec, k: nat)
    requires k < |ps| && MustSend(ps[k], now)
    ensures ps[k].address in KeepaliveTargets(ps, now)
    decreases |ps|
  {
    if k < |ps| - 1 {
      TargetsReached(ps[..|ps| - 1], now, k);
    }
  }

  lemma AssertFollows(c: Config, unpack: Codec, n: Node, e: Event, a: Address)
    requires InShape(c, n) && e.Asserts? && Clock(e.now)
    requires forall k :: 0 <= k < n.numPeers && n.slots[k].address == a ==> Clock(n.slots[k].nextLocal)
    ensures var (m, sent) := NodeStep(c, unpack, n, e);
            InShape(c, m) && m.address == n.address && DeadlineFollows(c, n, m, sent, a, e.now)
  {
    hide Plus, InRange, EarliestLocal, Ns, KeepaliveTargets, Keepalive, MustSend;
    var (m, sent) := NodeStep(c, unpack, n, e);
    forall k | 0 <= k < m.numPeers && m.slots[k].address == a
      ensures n.slots[k].address == a && DeadlineFrom(c, n, k, m.slots[k].nextLocal, sent, a, e.now)
    {
      KeepaliveAddress(c, n.slots[k], e.now);
      KeepaliveDeadline(c, n.slots[k], e.now);
      KeepaliveNotZero(c, n.slots[k], e.now);
      ClockArithmetic(n.slots[k].nextLocal, e.now);
      if MustSend(n.slots[k], e.now) {
        TargetsReached(n.slots[..n.numPeers], e.now, k);
        assert Message(n.address, To(a), KeepalivePacket()) in sent;
      } else {
        KeepaliveIdle(c, n.slots[k], e.now);
      }
    }
  }

  lemma KeepaliveAddress(c: Config, p: Peer, now: Timespec)
    ensures Keepalive(c, p, now).address == p.address
  {
  }

  lemma KeepaliveIdle(c: Config, p: Peer, now: Timespec)
    requires !MustSend(p, now)
    ensures Keepalive(c, p, now) == p
  {
  }

  lemma ReceiveFollows(c: Config, unpack: Codec, n: Node, e: Event, a: Address)
    requires InShape(c, n) && e.Receives? && SlotOf(n, a) < n.numPeers
    ensures var (m, sent) := NodeStep(c, unpack, n, e);
            InShape(c, m) && m.address == n.address && DeadlineFollows(c, n, m, sent, a, e.now)
  {
    hide InShape, ProcessIncoming, InRange;
    ShapeOf(c, n);
    ReceiveDeadlines(c, unpack, n, e.message.source, e.message.packet, e.now);
    var (m, sent) := NodeStep(c, unpack, n, e);
    ShapeOf(c, m);
    forall k | 0 <= k < m.numPeers && m.slots[k].address == a
      ensures k < n.numPeers && n.slots[k].address == a && m.slots[k].nextLocal == n.slots[k].nextLocal
    {
    }
  }

  lemma ShapeOf(c: Config, n: Node)
    requires InShape(c, n)
    ensures Shaped(c, n) && InRange(n.providers, |n.slots|) && InRange(n.trackers, |n.slots|)
  {
  }

  lemma ProbeFollows(c: Config, unpack: Codec, n: Node, e: Event, a: Address)
    requires InShape(c, n) && e.Probes?
    ensures var (m, sent) := NodeStep(c, unpack, n, e);
            InShape(c, m) && m.address == n.address && DeadlineFollows(c, n, m, sent, a, e.now)
  {
    hide InShape, Probe, InRange;
    ShapeOf(c, n);
    ProbeDeadlines(c, n, e.now);
    var (m, sent) := NodeStep(c, unpack, n, e);
    ShapeOf(c, m);
    forall k | 0 <= k < m.numPeers && m.slots[k].address == a
      ensures exists j :: 0 <= j < n.numPeers && n.slots[j].address == a
                          && DeadlineFrom(c, n, j, m.slots[k].nextLocal, sent, a, e.now)
    {
      var j :| 0 <= j < n.numPeers && SameDeadlines(n.slots[j], m.slots[k]);
      assert DeadlineFrom(c, n, j, m.slots[k].nextLocal, sent, a, e.now);
    }
  }

  lemma OtherFollows(c: Config, unpack: Codec, n: Node, e: Event, a: Address, t: Timespec)
    requires InShape(c, n) && (e.Tracks? || e.Advertises? || e.Discovers?)
    ensures var (m, sent) := NodeStep(c, unpack, n, e);
            InShape(c, m) && m.address == n.address && m.slots == n.slots && m.numPeers == n.numPeers
            && DeadlineFollows(c, n, m, sent, a, t)
  {
    hide AddEndpoint, InRange, Discovery;
    if e.Tracks? {
      AddInRange(n.trackers, e.resource, e.callback, |n.slots|);
    } else if e.Advertises? {
      AddInRange(n.providers, e.resource, CallbackOf(n.providers, e.resource), |n.slots|);
    }
    var (m, sent) := NodeStep(c, unpack, n, e);
    assert forall k :: 0 <= k < m.numPeers ==> DeadlineFrom(c, n, k, m.slots[k].nextLocal, sent, a, t);
  }

  lemma EventFollows(c: Config, unpack: Codec, n: Node, e: Event, a: Address, clock: Timespec)
    requires InShape(c, n) && CanHappen(n, e) && SlotOf(n, a) < n.numPeers && Clock(TimeOf(e, clock))
    requires forall k :: 0 <= k < n.numPeers && n.slots[k].address == a ==> Clock(n.slots[k].nextLocal)
    ensures Shaped(c, n) && InRange(n.providers, |n.slots|)
    ensures var (m, sent) := NodeStep(c, unpack, n, e);
            && InShape(c, m) && m.numPeers <= |m.slots| && m.address == n.address
            && DeadlineFollows(c, n, m, sent, a, TimeOf(e, clock))
  {
    hide InShape, NodeStep, DeadlineFollows;
    ShapeOf(c, n);
    var t := TimeOf(e, clock);
    if e.Posts? {
      PostFollows(c, unpack, n, e, a);
    } else if e.Asserts? {
      AssertFollows(c, unpack, n, e, a);
    } else if e.Receives? {
      ReceiveFollows(c, unpack, n, e, a);
    } else if e.Probes? {
      ProbeFollows(c, unpack, n, e, a);
    } else {
      OtherFollows(c, unpack, n, e, a, t);
    }
    ShapeOf(c, NodeStep(c, unpack, n, e).0);
  }

  // ---------- sender steps ----------

  lemma SentIsFlying(n: Node, sent: set<Message>, r: Node, time: int)
    requires n.address != r.address
    ensures SentTo(n, sent, r.address) ==> ToReceiver(sent, r, time) != {}
    ensures forall f :: f in ToReceiver(sent, r, time) ==> f.sent == time
  {
    if SentTo(n, sent, r.address) {
      var m :| m in sent && m.source == n.address && m.to == To(r.address);
      assert Flying(time, m.packet) in ToReceiver(sent, r, time);
    }
  }

  lemma SenderKeepsInvariant(c: Config, s: Node, m: Node, sent: set<Message>, r: Address, sends: seq<int>,
                             sends': seq<int>, t: Timespec)
    requires s.numPeers <= |s.slots| && m.numPeers <= |m.slots|
    requires SenderInvariant(c, s, r, sends) && DeadlineFollows(c, s, m, sent, r, t)
    requires sends' == sends + [Ns(t)] || (sends' == sends && !SentTo(s, sent, r))
    requires sends != [] ==> sends[|sends| - 1] <= Ns(t)
    ensures SenderInvariant(c, m, r, sends')
  {
    hide SentTo, Ns;
    forall k | 0 <= k < m.numPeers && m.slots[k].address == r
      ensures Clock(m.slots[k].nextLocal)
      ensures IsZero(m.slots[k].nextLocal)
              || (sends' != [] && Ns(m.slots[k].nextLocal) <= sends'[|sends'| - 1] + AssertNs(c))
    {
      var j :| 0 <= j < s.numPeers && s.slots[j].address == r && DeadlineFrom(c, s, j, m.slots[k].nextLocal, sent, r, t);
    }
  }

  lemma SendsKeepInvariant(c: Config, b: Bounds, since: int, sends: seq<int>, before: int, now: int)
    requires SendsInvariant(c, b, since, sends, before) && before <= now
    requires sends != [] ==> now <= sends[|sends| - 1] + AssertNs(c) + b.service
    ensures SendsInvariant(c, b, since, sends, now) && SendsInvariant(c, b, since, sends + [now], now)
  {
  }

  lemma FlightKeepsInvariant(pending: set<Flying>, sends: seq<int>, latest: int, before: int, now: int, flying: set<Flying>)
    requires FlightInvariant(pending, sends, latest, before) && before <= now && 0 <= now
    requires forall i :: 0 <= i < |sends| ==> sends[i] <= now
    requires forall f :: f in flying ==> f.sent == now
    ensures flying == {} ==> FlightInvariant(pending + flying, sends, latest, now)
    ensures flying != {} ==> FlightInvariant(pending + flying, sends + [now], latest, now)
  {
    if flying == {} {
      assert pending + flying == pending;
    } else {
      var g :| g in flying;
      var all := sends + [now];
      forall i | 0 <= i < |all| && all[i] > latest
        ensures exists f :: f in pending + flying && f.sent == all[i]
      {
        if i < |sends| {
          var f :| f in pending && f.sent == sends[i];
          assert f in pending + flying;
        } else {
          assert g in pending + flying;
        }
      }
    }
  }

  lemma SenderStepOk(c: Config, unpack: Codec, b: Bounds, d: Duo, e: DuoEvent)
    requires DuoOk(c, b, d) && e.SenderDoes? && Possible(c, unpack, b, d, e)
    ensures Shaped(c, d.s) && InRange(d.s.providers, |d.s.slots|)
    ensures Shaped(c, d.r) && InRange(d.r.providers, |d.r.slots|)
    ensures DuoOk(c, b, DuoStep(c, unpack, d, e))
  {
    hide InShape, NodeStep, InRange, Addressed, Ns, ReceiverInvariant, SendsInvariant, FlightInvariant, SenderInvariant,
      DeadlineFollows, SentTo, ToReceiver;
    ShapeOf(c, d.s);
    ShapeOf(c, d.r);
    var t := EventTime(d, e);
    var r := d.r.address;
    SenderClocks(c, d.s, r, d.sends);
    EventFollows(c, unpack, d.s, e.event, r, d.clock);
    if d.sends != [] {
      LastSendIsRecent(c, b, d, t);
    }
    var (m, sent) := NodeStep(c, unpack, d.s, e.event);
    var flying := ToReceiver(sent, d.r, Ns(t));
    SentIsFlying(d.s, sent, d.r, Ns(t));
    SendsAreBefore(c, b, d.since, d.sends, Ns(d.clock));
    SenderKeepsInvariant(c, d.s, m, sent, r, d.sends, if flying == {} then d.sends else d.sends + [Ns(t)], t);
    SendsKeepInvariant(c, b, d.since, d.sends, Ns(d.clock), Ns(t));
    ClockNotNegative(t);
    FlightKeepsInvariant(d.pending, d.sends, d.latest, Ns(d.clock), Ns(t), flying);
  }

  lemma ClockNotNegative(t: Timespec)
    requires Clock(t)
    ensures Ns(t) >= 0
  {
  }

  lemma SenderClocks(c: Config, s: Node, r: Address, sends: seq<int>)
    requires s.numPeers <= |s.slots| && SenderInvariant(c, s, r, sends)
    ensures forall k :: 0 <= k < s.numPeers && s.slots[k].address == r ==> Clock(s.slots[k].nextLocal)
  {
  }

  lemma SendsAreBefore(c: Config, b: Bounds, since: int, sends: seq<int>, now: int)
    requires SendsInvariant(c, b, since, sends, now)
    ensures forall i :: 0 <= i < |sends| ==> sends[i] <= now
  {
  }

  // ---------- receiver steps ----------

  lemma RemoteFrom(c: Config, r: Node, m: Node, s: Address, accepted: int)
    requires r.numPeers <= |r.slots| && m.numPeers <= |m.slots|
    requires ReceiverInvariant(c, r, s, accepted) && AddressesDistinct(m.slots, m.numPeers)
    requires forall k :: 0 <= k < m.numPeers && m.slots[k].address == s ==>
               exists j :: 0 <= j < r.numPeers && r.slots[j].address == s && r.slots[j].nextRemote == m.slots[k].nextRemote
    ensures ReceiverInvariant(c, m, s, accepted)
  {
    hide Ns, AddressesDistinct;
  }

  lemma {:induction false} FilterAddresses(ps: seq<Peer>, keep: Peer -> bool)
    requires AddressesDistinct(ps, |ps|)
    ensures AddressesDistinct(Filter(ps, keep), |Filter(ps, keep)|)
    decreases |ps|
  {
    if ps != [] {
      var n := |ps| - 1;
      FilterAddresses(ps[..n], keep);
      var kept := Filter(ps[..n], keep);
      forall i | 0 <= i < |kept|
        ensures kept[i].address != ps[n].address
      {
        assert kept[i] in ps[..n];
      }
    }
  }

  lemma ProbeAddresses(c: Config, n: Node, now: Timespec)
    requires Shaped(c, n) && AddressesDistinct(n.slots, n.numPeers)
    ensures var m := Probe(c, n, now).node;
            m.numPeers <= |m.slots| && AddressesDistinct(m.slots, m.numPeers)
  {
    hide Filter, Compact;
    var marked := MarkAlive(n.slots, n.numPeers, now);
    var m := Probe(c, n, now).node;
    CompactionIs(c, n, now);
    FilterAddresses(marked[..n.numPeers], IsRetained);
    assert forall k :: 0 <= k < m.numPeers ==> m.slots[k] == m.slots[..m.numPeers][k];
  }

  lemma ProbeRemote(c: Config, r: Node, s: Address, accepted: int, now: Timespec)
    requires InShape(c, r) && r.numPeers <= |r.slots| && ReceiverInvariant(c, r, s, accepted)
    ensures var m := Probe(c, r, now).node;
            InShape(c, m) && m.numPeers <= |m.slots| && m.address == r.address && ReceiverInvariant(c, m, s, accepted)
  {
    hide InShape, Probe, AddressesDistinct, Ns;
    ShapeOf(c, r);
    ProbeAddresses(c, r, now);
    ProbeDeadlines(c, r, now);
    var m := Probe(c, r, now).node;
    forall k | 0 <= k < m.numPeers && m.slots[k].address == s
      ensures exists j :: 0 <= j < r.numPeers && r.slots[j].address == s && r.slots[j].nextRemote == m.slots[k].nextRemote
    {
      var j :| 0 <= j < r.numPeers && SameDeadlines(r.slots[j], m.slots[k]);
    }
    RemoteFrom(c, r, m, s, accepted);
  }

  lemma ReceiveAddresses(c: Config, unpack: Codec, n: Node, origin: Address, p: Packet, now: Timespec)
    requires InShape(c, n) && n.numPeers <= |n.slots| && AddressesDistinct(n.slots, n.numPeers)
    ensures Shaped(c, n)
    ensures var m := ProcessIncoming(c, unpack, n, origin, p, now).node;
            m.numPeers <= |m.slots| && AddressesDistinct(m.slots, m.numPeers)
  {
    hide InShape, ProcessIncoming;
    ShapeOf(c, n);
    ReceiveDeadlines(c, unpack, n, origin, p, now);
    ShapeOf(c, ProcessIncoming(c, unpack, n, origin, p, now).node);
  }

  /** A packet from somebody else. */
  lemma OtherPacketRemote(c: Config, unpack: Codec, r: Node, s: Address, accepted: int, origin: Address, p: Packet,
                          now: Timespec)
    requires InShape(c, r) && r.numPeers <= |r.slots| && ReceiverInvariant(c, r, s, accepted) && origin != s
    ensures Shaped(c, r)
    ensures var m := ProcessIncoming(c, unpack, r, origin, p, now).node;
            InShape(c, m) && m.numPeers <= |m.slots| && m.address == r.address && ReceiverInvariant(c, m, s, accepted)
  {
    hide InShape, ProcessIncoming, AddressesDistinct, Ns;
    ShapeOf(c, r);
    ReceiveAddresses(c, unpack, r, origin, p, now);
    ReceiveDeadlines(c, unpack, r, origin, p, now);
    var m := ProcessIncoming(c, unpack, r, origin, p, now).node;
    forall k | 0 <= k < m.numPeers && m.slots[k].address == s
      ensures k < r.numPeers && r.slots[k].address == s && r.slots[k].nextRemote == m.slots[k].nextRemote
    {
    }
    RemoteFrom(c, r, m, s, accepted);
  }

  /** A packet from the sender, which may or may not find room. */
  lemma OwnPacketRemote(c: Config, unpack: Codec, r: Node, s: Address, accepted: int, p: Packet, now: Timespec)
    requires InShape(c, r) && r.numPeers <= |r.slots| && ReceiverInvariant(c, r, s, accepted) && Clock(now)
    ensures Shaped(c, r)
    ensures var m := ProcessIncoming(c, unpack, r, s, p, now).node;
            InShape(c, m) && m.numPeers <= |m.slots| && m.address == r.address
            && ReceiverInvariant(c, m, s, if r.numPeers < c.maxPeers then Ns(now) else accepted)
  {
    hide InShape, ProcessIncoming, Ns, Plus;
    ShapeOf(c, r);
    ReceiveAddresses(c, unpack, r, s, p, now);
    ReceiveDeadlines(c, unpack, r, s, p, now);
    if r.numPeers < c.maxPeers {
      ClockNotNegative(now);
      ClockArithmetic(now, c.LivelinessTimeout());
      var m := ProcessIncoming(c, unpack, r, s, p, now).node;
      var k := FindPeer(r.slots, r.numPeers, s);
      assert m.slots[k].address == s && k < m.numPeers;
    }
  }

  lemma QuietRemote(c: Config, unpack: Codec, r: Node, s: Address, accepted: int, e: Event)
    requires InShape(c, r) && r.numPeers <= |r.slots| && ReceiverInvariant(c, r, s, accepted)
    requires CanHappen(r, e) && !e.Receives? && !e.Probes?
    ensures Shaped(c, r) && InRange(r.providers, |r.slots|)
    ensures var m := NodeStep(c, unpack, r, e).0;
            InShape(c, m) && m.numPeers <= |m.slots| && m.address == r.address && ReceiverInvariant(c, m, s, accepted)
  {
    hide Ns, AddEndpoint, InRange, EarliestLocal, KeepaliveTargets, Plus;
    assert InRange(r.providers, |r.slots|);
    if e.Tracks? {
      AddInRange(r.trackers, e.resource, e.callback, |r.slots|);
    } else if e.Advertises? {
      AddInRange(r.providers, e.resource, CallbackOf(r.providers, e.resource), |r.slots|);
    }
  }

  lemma ReceiverEventOk(c: Config, unpack: Codec, r: Node, s: Address, accepted: int, e: Event)
    requires InShape(c, r) && r.numPeers <= |r.slots| && ReceiverInvariant(c, r, s, accepted)
    requires CanHappen(r, e) && (e.Receives? ==> e.message.source != s)
    ensures Shaped(c, r) && InRange(r.providers, |r.slots|)
    ensures var m := NodeStep(c, unpack, r, e).0;
            InShape(c, m) && m.numPeers <= |m.slots| && m.address == r.address && ReceiverInvariant(c, m, s, accepted)
  {
    hide InShape, Probe, ProcessIncoming, ReceiverInvariant, Post, AssertLiveliness;
    ShapeOf(c, r);
    if e.Receives? {
      OtherPacketRemote(c, unpack, r, s, accepted, e.message.source, e.message.packet, e.now);
    } else if e.Probes? {
      ProbeRemote(c, r, s, accepted, e.now);
    } else {
      QuietRemote(c, unpack, r, s, accepted, e);
    }
  }

  lemma TimeMovesOn(c: Config, b: Bounds, d: Duo, t: Timespec)
    requires DuoOk(c, b, d) && Clock(t) && Ns(d.clock) <= Ns(t)
    ensures DuoOk(c, b, d.(clock := t))
  {
    hide InShape, Ns, ReceiverInvariant, SenderInvariant;
  }

  lemma ReceiverStepOk(c: Config, unpack: Codec, b: Bounds, d: Duo, e: DuoEvent)
    requires DuoOk(c, b, d) && e.ReceiverDoes? && Possible(c, unpack, b, d, e)
    ensures Shaped(c, d.s) && InRange(d.s.providers, |d.s.slots|)
    ensures Shaped(c, d.r) && InRange(d.r.providers, |d.r.slots|)
    ensures DuoOk(c, b, DuoStep(c, unpack, d, e))
  {
    hide InShape, NodeStep, Ns, ReceiverInvariant, SendsInvariant, FlightInvariant, SenderInvariant, InRange;
    ShapeOf(c, d.s);
    ShapeOf(c, d.r);
    TimeMovesOn(c, b, d, EventTime(d, e));
    ReceiverEventOk(c, unpack, d.r, d.s.address, d.accepted, e.event);
  }

  lemma ArrivalKeepsFlight(pending: set<Flying>, sends: seq<int>, latest: int, now: int, f: Flying)
    requires FlightInvariant(pending, sends, latest, now) && f in pending
    ensures FlightInvariant(pending - {f}, sends, Later(latest, f.sent), now)
  {
    forall i | 0 <= i < |sends| && sends[i] > Later(latest, f.sent)
      ensures exists g :: g in pending - {f} && g.sent == sends[i]
    {
      var g :| g in pending && g.sent == sends[i];
      assert g in pending - {f};
    }
  }

  lemma ArrivalOk(c: Config, unpack: Codec, b: Bounds, d: Duo, e: DuoEvent)
    requires DuoOk(c, b, d) && e.Arrives? && Possible(c, unpack, b, d, e)
    ensures Shaped(c, d.s) && InRange(d.s.providers, |d.s.slots|)
    ensures Shaped(c, d.r) && InRange(d.r.providers, |d.r.slots|)
    ensures DuoOk(c, b, DuoStep(c, unpack, d, e))
  {
    hide InShape, ProcessIncoming, Ns, ReceiverInvariant, SendsInvariant, SenderInvariant, InRange;
    ShapeOf(c, d.s);
    ShapeOf(c, d.r);
    TimeMovesOn(c, b, d, e.now);
    OwnPacketRemote(c, unpack, d.r, d.s.address, d.accepted, e.flying.packet, e.now);
    ArrivalKeepsFlight(d.pending, d.sends, d.latest, Ns(e.now), e.flying);
  }

  // ---------- runs ----------

  lemma DuoStepOk(c: Config, unpack: Codec, b: Bounds, d: Duo, e: DuoEvent)
    requires DuoOk(c, b, d) && Possible(c, unpack, b, d, e)
    ensures Shaped(c, d.s) && InRange(d.s.providers, |d.s.slots|)
    ensures Shaped(c, d.r) && InRange(d.r.providers, |d.r.slots|)
    ensures DuoOk(c, b, DuoStep(c, unpack, d, e))
  {
    hide DuoOk, Possible, DuoStep;
    match e {
      case SenderDoes(_) => SenderStepOk(c, unpack, b, d, e);
      case ReceiverDoes(_) => ReceiverStepOk(c, unpack, b, d, e);
      case Arrives(_, _) => ArrivalOk(c, unpack, b, d, e);
    }
  }

  /** A run; events that are not possible are passed over. */
  ghost function DuoRun(c: Config, unpack: Codec, b: Bounds, d: Duo, events: seq<DuoEvent>): Duo
    requires DuoOk(c, b, d)
    decreases |events|
  {
    if events == [] then d
    else if Possible(c, unpack, b, d, events[0]) then
      DuoStepOk(c, unpack, b, d, events[0]);
      DuoRun(c, unpack, b, DuoStep(c, unpack, d, events[0]), events[1..])
    else DuoRun(c, unpack, b, d, events[1..])
  }

  /** Where runs start: the sender has just registered the receiver, the receiver does not know the
      sender, and nothing is under way. */
  ghost predicate DuoStart(c: Config, d: Duo) {
    && InShape(c, d.s) && InShape(c, d.r) && Clock(d.clock) && d.s.address != d.r.address
    && KeepsRegistered(d.s, d.r.address)
    && (forall k :: 0 <= k < d.s.numPeers && d.s.slots[k].address == d.r.address ==> d.s.slots[k].nextLocal == ZERO)
    && AddressesDistinct(d.r.slots, d.r.numPeers) && !KeepsRegistered(d.r, d.s.address)
    && d.pending == {} && d.sends == [] && d.since == Ns(d.clock) && d.latest == d.heard == d.accepted == -1
  }

  lemma StartOk(c: Config, b: Bounds, d: Duo)
    requires DuoStart(c, d)
    ensures DuoOk(c, b, d)
  {
    hide InShape;
    ShapeOf(c, d.r);
    var k := SlotOf(d.r, d.s.address);
    assert forall j :: 0 <= j < d.r.numPeers ==> d.r.slots[j].address != d.s.address;
  }

  /** In every run, however slow the loop and late the packets, and whether they find room or not: a probe
      finds a sender that is in the table alive exactly when the last packet that found room is no older than
      the liveliness timeout. And when assert timeout, service time and delay together do not exceed that
      timeout, it does if the packet sent last among those that arrived found room: then the only cause of a
      false death is a full table. */
  lemma {:induction false} NoFalseDeath(c: Config, unpack: Codec, b: Bounds, d: Duo, events: seq<DuoEvent>, t: Timespec)
    requires DuoOk(c, b, d) && Clock(t)
    ensures var f := DuoRun(c, unpack, b, d, events);
            && DuoOk(c, b, f)
            && (KeepsRegistered(f.r, f.s.address) ==>
                  (FoundAlive(f.r, f.s.address, t) <==> Ns(t) <= f.accepted + LivelinessNs(c)))
            && (AssertNs(c) + b.service + b.delay <= LivelinessNs(c) && Timely(c, b, f, t) && f.heard == f.latest ==>
                  FoundAlive(f.r, f.s.address, t))
    decreases |events|
  {
    hide DuoOk, Possible, DuoStep, FoundAlive, Timely;
    DuoShapes(c, b, d);
    if events == [] {
      if KeepsRegistered(d.r, d.s.address) {
        AliveExactly(c, b, d, t);
      }
      if AssertNs(c) + b.service + b.delay <= LivelinessNs(c) && Timely(c, b, d, t) && d.heard == d.latest {
        SenderIsAlive(c, b, d, t);
      }
    } else if Possible(c, unpack, b, d, events[0]) {
      DuoStepOk(c, unpack, b, d, events[0]);
      PossibleMeans(c, unpack, b, d, events[0]);
      NoFalseDeath(c, unpack, b, DuoStep(c, unpack, d, events[0]), events[1..], t);
    } else {
      NoFalseDeath(c, unpack, b, d, events[1..], t);
    }
  }

  lemma PossibleMeans(c: Config, unpack: Codec, b: Bounds, d: Duo, e: DuoEvent)
    requires InShape(c, d.s) && InShape(c, d.r) && Possible(c, unpack, b, d, e)
    ensures e.SenderDoes? ==> CanHappen(d.s, e.event)
    ensures e.ReceiverDoes? ==> CanHappen(d.r, e.event)
  {
  }

  lemma DuoShapes(c: Config, b: Bounds, d: Duo)
    requires DuoOk(c, b, d)
    ensures InShape(c, d.s) && InShape(c, d.r) && d.s.numPeers <= |d.s.slots| && d.r.numPeers <= |d.r.slots|
  {
  }
}
