/** What the sender's event loop contributes to there being no false death: when it wakes in time, it serves
    all deadlines in time, also that of a peer it has only just registered. */
module WakingLoop {
  import opened Time
  import opened Tables
  import opened Protocol
  import opened Network
  import opened Liveliness
  import opened FalseDeath

  /** The sender's event loop is to assert liveliness next no later than any deadline for the receiver asks
      for it, and for one that is unset no later than an assert timeout after the beginning. */
  ghost predicate Punctual(c: Config, d: Duo, next: Timespec) {
    && Scheduled(c, d.s, next, d.clock) && d.since >= 0
    && forall k :: 0 <= k < d.s.numPeers && d.s.slots[k].address == d.r.address && IsZero(d.s.slots[k].nextLocal) ==>
         Ns(next) <= d.since + AssertNs(c)
  }

  /** The loop wakes within the service time of when it is to. */
  ghost predicate Awake(b: Bounds, d: Duo, next: Timespec, t: Timespec) {
    NoneLate(b, d, t) && Ns(t) <= Ns(next) + b.service
  }

  /** A loop that wakes in time serves all deadlines in time. */
  lemma AwakeIsTimely(c: Config, b: Bounds, d: Duo, next: Timespec, t: Timespec)
    requires Punctual(c, d, next) && Awake(b, d, next, t)
    ensures d.s.numPeers <= |d.s.slots| && Timely(c, b, d, t)
  {
    hide Ns;
  }

  function NextAssert(c: Config, d: Duo, next: Timespec, e: DuoEvent): Timespec
    requires Shaped(c, d.s)
  {
    if e.SenderDoes? && e.event.Asserts? then AssertLiveliness(c, d.s, e.event.now).2 else next
  }

  /** A deadline that is unset after an event was unset before, unless time has only begun. */
  lemma UnsetBefore(c: Config, d: Duo, m: Node, next: Timespec, sent: set<Message>, t: Timespec)
    requires Punctual(c, d, next) && d.s.numPeers <= |d.s.slots| && m.numPeers <= |m.slots|
    requires DeadlineFollows(c, d.s, m, sent, d.r.address, t)
    requires Ns(next) <= Ns(t) + AssertNs(c)
    ensures forall k :: 0 <= k < m.numPeers && m.slots[k].address == d.r.address && IsZero(m.slots[k].nextLocal) ==>
              Ns(next) <= d.since + AssertNs(c)
  {
    hide Ns, SentTo, Scheduled;
  }

  /** Asserting liveliness leaves no deadline unset, unless time has only begun. */
  lemma AssertSets(c: Config, n: Node, now: Timespec)
    requires Shaped(c, n) && LocalClocks(n) && Clock(now)
    ensures var (m, _, next) := AssertLiveliness(c, n, now);
            && m.numPeers <= |m.slots|
            && forall k :: 0 <= k < m.numPeers && IsZero(m.slots[k].nextLocal) ==> Ns(next) <= 0
  {
    hide Ns, Keepalive, EarliestLocal, KeepaliveTargets, Plus;
    NextDeadline(c, n, now);
    var m := AssertLiveliness(c, n, now).0;
    forall k | 0 <= k < m.numPeers && IsZero(m.slots[k].nextLocal)
      ensures Ns(AssertLiveliness(c, n, now).2) <= 0
    {
      KeepaliveNotZero(c, n.slots[k], now);
    }
  }

  lemma PunctualShape(c: Config, d: Duo, next: Timespec)
    requires Punctual(c, d, next)
    ensures Shaped(c, d.s) && LocalClocks(d.s) && InRange(d.s.providers, |d.s.slots|)
  {
  }

  lemma SenderStaysPunctual(c: Config, unpack: Codec, b: Bounds, d: Duo, next: Timespec, e: DuoEvent)
    requires DuoOk(c, b, d) && Punctual(c, d, next) && e.SenderDoes? && Possible(c, unpack, b, d, e)
    ensures Shaped(c, d.s) && InRange(d.s.providers, |d.s.slots|)
    ensures Shaped(c, d.r) && InRange(d.r.providers, |d.r.slots|)
    ensures Punctual(c, DuoStep(c, unpack, d, e), NextAssert(c, d, next, e))
  {
    hide InShape, Scheduled, NodeStep, InRange, Ns, DeadlineFollows, ToReceiver, AssertLiveliness, LocalClocks;
    PunctualShape(c, d, next);
    DuoShapes(c, b, d);
    ShapeOf(c, d.r);
    var t := EventTime(d, e);
    SenderClocks(c, d.s, d.r.address, d.sends);
    StepScheduled(c, unpack, d.s, next, d.clock, e.event);
    var (m, sent) := NodeStep(c, unpack, d.s, e.event);
    if e.event.Asserts? {
      AssertSets(c, d.s, t);
      AssertIsStep(c, unpack, d.s, e.event);
    } else {
      EventFollows(c, unpack, d.s, e.event, d.r.address, d.clock);
      NextIsNear(c, m, next, t);
      UnsetBefore(c, d, m, next, sent, t);
    }
  }

  lemma AssertIsStep(c: Config, unpack: Codec, n: Node, e: Event)
    requires Shaped(c, n) && InRange(n.providers, |n.slots|) && e.Asserts?
    ensures NodeStep(c, unpack, n, e).0 == AssertLiveliness(c, n, e.now).0
  {
  }

  lemma NextIsNear(c: Config, n: Node, next: Timespec, clock: Timespec)
    requires Scheduled(c, n, next, clock)
    ensures Ns(next) <= Ns(clock) + AssertNs(c)
  {
  }

  lemma StaysPunctual(c: Config, unpack: Codec, b: Bounds, d: Duo, next: Timespec, e: DuoEvent)
    requires DuoOk(c, b, d) && Punctual(c, d, next) && Possible(c, unpack, b, d, e)
    ensures Shaped(c, d.s) && InRange(d.s.providers, |d.s.slots|)
    ensures Shaped(c, d.r) && InRange(d.r.providers, |d.r.slots|)
    ensures Punctual(c, DuoStep(c, unpack, d, e), NextAssert(c, d, next, e))
  {
    if e.SenderDoes? {
      hide DuoOk, Punctual, Possible, DuoStep, NextAssert;
      SenderStaysPunctual(c, unpack, b, d, next, e);
    } else {
      OthersStayPunctual(c, unpack, b, d, next, e);
    }
  }

  lemma OthersStayPunctual(c: Config, unpack: Codec, b: Bounds, d: Duo, next: Timespec, e: DuoEvent)
    requires DuoOk(c, b, d) && Punctual(c, d, next) && !e.SenderDoes? && Possible(c, unpack, b, d, e)
    ensures Shaped(c, d.s) && InRange(d.s.providers, |d.s.slots|)
    ensures Shaped(c, d.r) && InRange(d.r.providers, |d.r.slots|)
    ensures Punctual(c, DuoStep(c, unpack, d, e), NextAssert(c, d, next, e))
  {
    hide InShape, NodeStep, ProcessIncoming, InRange, Ns, Punctual, ReceiverInvariant;
    PunctualShape(c, d, next);
    DuoShapes(c, b, d);
    ShapeOf(c, d.r);
    if e.ReceiverDoes? {
      ReceiverEventOk(c, unpack, d.r, d.s.address, d.accepted, e.event);
    } else {
      OwnPacketRemote(c, unpack, d.r, d.s.address, d.accepted, e.flying.packet, e.now);
    }
    TimeGoesBy(c, d, DuoStep(c, unpack, d, e), next);
  }

  lemma TimeGoesBy(c: Config, d: Duo, f: Duo, next: Timespec)
    requires Punctual(c, d, next) && f.s == d.s && f.r.address == d.r.address && f.since == d.since
    requires Clock(f.clock) && Ns(d.clock) <= Ns(f.clock)
    ensures Punctual(c, f, next)
  {
    hide Ns;
    TimePasses(c, d.s, next, d.clock, f.clock);
  }

  /** A run under the sender's event loop: events come while it is awake, and the time to assert liveliness
      next is what asserting it last said. */
  ghost function LoopRun(c: Config, unpack: Codec, b: Bounds, d: Duo, next: Timespec, events: seq<DuoEvent>)
    : (Duo, Timespec)
    requires DuoOk(c, b, d) && Punctual(c, d, next)
    decreases |events|
  {
    if events == [] then (d, next)
    else
      DuoShapes(c, b, d);
      var e := events[0];
      if Awake(b, d, next, EventTime(d, e)) && Allowed(c, unpack, d, e) then
        AwakeIsTimely(c, b, d, next, EventTime(d, e));
        DuoStepOk(c, unpack, b, d, e);
        StaysPunctual(c, unpack, b, d, next, e);
        LoopRun(c, unpack, b, DuoStep(c, unpack, d, e), NextAssert(c, d, next, e), events[1..])
      else LoopRun(c, unpack, b, d, next, events[1..])
  }

  /** Where a loop starts, liveliness is asserted next within an assert timeout. */
  lemma StartIsPunctual(c: Config, d: Duo, next: Timespec)
    requires DuoStart(c, d) && Scheduled(c, d.s, next, d.clock)
    ensures Punctual(c, d, next)
  {
    hide InShape;
    ClockNotNegative(d.clock);
  }

  /** In every run of a sender whose event loop wakes in time, and of packets that arrive in time, whenever
      the receiver probes: it finds the sender alive if the packet sent last among those that arrived found
      room in its table. */
  lemma {:induction false} LoopKeepsAlive(c: Config, unpack: Codec, b: Bounds, d: Duo, next: Timespec,
                                          events: seq<DuoEvent>, t: Timespec)
    requires DuoOk(c, b, d) && Punctual(c, d, next) && AssertNs(c) + b.service + b.delay <= LivelinessNs(c)
    ensures var (f, next') := LoopRun(c, unpack, b, d, next, events);
            && DuoOk(c, b, f) && Punctual(c, f, next')
            && (Awake(b, f, next', t) && f.heard == f.latest ==> FoundAlive(f.r, f.s.address, t))
    decreases |events|
  {
    hide DuoOk, Punctual, Awake, Allowed, Timely, DuoStep, NextAssert, FoundAlive, EventTime;
    DuoShapes(c, b, d);
    if events == [] {
      if Awake(b, d, next, t) && d.heard == d.latest {
        AwakeIsTimely(c, b, d, next, t);
        SenderIsAlive(c, b, d, t);
      }
    } else {
      var e := events[0];
      if Awake(b, d, next, EventTime(d, e)) && Allowed(c, unpack, d, e) {
        AwakeIsTimely(c, b, d, next, EventTime(d, e));
        DuoStepOk(c, unpack, b, d, e);
        StaysPunctual(c, unpack, b, d, next, e);
        PossibleMeans(c, unpack, b, d, e);
        LoopKeepsAlive(c, unpack, b, DuoStep(c, unpack, d, e), NextAssert(c, d, next, e), events[1..], t);
      } else {
        LoopKeepsAlive(c, unpack, b, d, next, events[1..], t);
      }
    }
  }

  /** So from when the sender has just registered the receiver. */
  lemma LoopKeepsAliveFromStart(c: Config, unpack: Codec, b: Bounds, d: Duo, next: Timespec, events: seq<DuoEvent>,
                                t: Timespec)
    requires DuoStart(c, d) && Scheduled(c, d.s, next, d.clock)
    requires AssertNs(c) + b.service + b.delay <= LivelinessNs(c)
    ensures DuoOk(c, b, d) && Punctual(c, d, next)
    ensures var (f, next') := LoopRun(c, unpack, b, d, next, events);
            && f.r.numPeers <= |f.r.slots|
            && (Awake(b, f, next', t) && f.heard == f.latest ==> FoundAlive(f.r, f.s.address, t))
  {
    hide DuoStart, DuoOk, Punctual, Awake, LoopRun, FoundAlive;
    StartOk(c, b, d);
    StartIsPunctual(c, d, next);
    LoopKeepsAlive(c, unpack, b, d, next, events, t);
    DuoShapes(c, b, LoopRun(c, unpack, b, d, next, events).0);
  }
}
