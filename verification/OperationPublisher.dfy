/**
 The durable event stream and the publisher that numbers events before it persists them
 (services/room-orchestrator/src/events.ts).
 */
module OperationPublisher {
  import opened OperationEvents
  import opened Wrappers

  /** What the publisher's counters promise about a log: numbered upwards per operation and
      never beyond the reserved positions, identities unique, and each event's cause no older
      than every earlier event of its operation. */
  ghost predicate Numbered(log: Log, last: map<string, nat>, tail: map<string, nat>, nextId: nat) {
    && Ordered(log)
    && last.Keys == tail.Keys
    && (forall o | o in tail :: tail[o] < nextId)
    && (forall e | e in log :: e.sequence >= 1 && e.id < nextId)
    && (forall e | e in log && e.operation in last :: e.sequence <= last[e.operation] && e.id <= tail[e.operation])
    && (forall i, j :: 0 <= i < j < |log| ==> log[i].id < log[j].id)
    && Caused(log)
  }

  ghost predicate CausedSince(e: Event, e': Event) {
    e'.causation.Some? && e.id <= e'.causation.value < e'.id
  }

  /** The gate hands out an operation id only when the log holds none of its events. */
  predicate Publishable(log: Log, last: map<string, nat>, operation: string) {
    operation in last || forall e | e in log :: e.operation != operation
  }

  function LastOf(last: map<string, nat>, operation: string): nat {
    if operation in last then last[operation] else 0
  }

  function TailOf(tail: map<string, nat>, operation: string): Option<nat> {
    if operation in tail then Some(tail[operation]) else None
  }

  /** The event that takes the next position. */
  ghost predicate Next(log: Log, last: map<string, nat>, tail: map<string, nat>, nextId: nat, e: Event) {
    && Numbered(log, last, tail, nextId) && Publishable(log, last, e.operation)
    && e.id == nextId && e.sequence == LastOf(last, e.operation) + 1 && e.causation == TailOf(tail, e.operation)
  }

  /** An event at the next position comes after everything logged. */
  lemma NextPositionIsLast(log: Log, last: map<string, nat>, tail: map<string, nat>, nextId: nat, e: Event)
    requires Next(log, last, tail, nextId, e)
    ensures forall i | 0 <= i < |log| :: log[i].id < e.id
    ensures forall i | 0 <= i < |log| && log[i].operation == e.operation ::
              log[i].sequence < e.sequence && CausedSince(log[i], e)
  {
    forall i | 0 <= i < |log|
      ensures log[i].id < e.id
      ensures log[i].operation == e.operation ==> log[i].sequence < e.sequence && CausedSince(log[i], e)
    {
      assert log[i] in log;
    }
  }

  lemma AppendedIsOrdered(log: Log, e: Event)
    requires Ordered(log)
    requires forall i | 0 <= i < |log| && log[i].operation == e.operation :: log[i].sequence < e.sequence
    ensures Ordered(log + [e])
  {
  }

  ghost predicate Caused(log: Log) {
    forall i, j ::
      0 <= i < j < |log| && log[i].operation == log[j].operation ==> CausedSince(log[i], log[j])
  }

  lemma AppendedIsCaused(log: Log, e: Event)
    requires Caused(log)
    requires forall i | 0 <= i < |log| && log[i].operation == e.operation :: CausedSince(log[i], e)
    ensures Caused(log + [e])
  {
  }

  /** A reserved position may stay unused. */
  lemma ReservedUnused(log: Log, last: map<string, nat>, tail: map<string, nat>, nextId: nat, e: Event)
    requires Next(log, last, tail, nextId, e)
    ensures Numbered(log, last[e.operation := e.sequence], tail[e.operation := e.id], nextId + 1)
  {
  }

  /** Reserving the next position keeps the promise whether or not the event reaches the log. */
  lemma ReservationKeepsNumbering(log: Log, last: map<string, nat>, tail: map<string, nat>, nextId: nat, e: Event)
    requires Next(log, last, tail, nextId, e)
    ensures var last', tail' := last[e.operation := e.sequence], tail[e.operation := e.id];
            Numbered(log, last', tail', nextId + 1) && Numbered(log + [e], last', tail', nextId + 1)
  {
    ReservedUnused(log, last, tail, nextId, e);
    NextPositionIsLast(log, last, tail, nextId, e);
    AppendedIsOrdered(log, e);
    AppendedIsCaused(log, e);
  }

  /** An event of a numbered operation takes nobody else's chance to publish. */
  lemma StillPublishable(log: Log, last: map<string, nat>, e: Event, operation: string)
    requires Publishable(log, last, operation) && e.operation in last
    ensures Publishable(log + [e], last, operation)
  {
  }

  /** A reported success was accepted; a reported failure may have been. */
  ghost predicate PersistOutcome(before: Log, after: Log, e: Event, ok: bool) {
    (after == before || after == before + [e]) && (ok ==> after == before + [e])
  }

  /** RedisOperationEventTransport: append, then trim; a failed trim is not a failed append. */
  class RedisStream {
    var entries: Log
    const maxEntries: nat
    /** Everything ever accepted, trimmed or not. */
    var accepted: Log

    ghost predicate Valid()
      reads this
    {
      && |entries| <= |accepted| && entries == accepted[|accepted| - |entries|..]
      && (|accepted| <= maxEntries ==> entries == accepted)
    }

    constructor (retained: Log, maxEntries: nat)
      ensures Valid() && entries == accepted == retained && this.maxEntries == maxEntries
    {
      entries, accepted := retained, retained;
      this.maxEntries := maxEntries;
    }

    method Persist(e: Event) returns (ok: bool)
      requires Valid()
      modifies this
      ensures Valid()
      ensures PersistOutcome(old(accepted), accepted, e, ok)
      ensures accepted == old(accepted) ==> entries == old(entries)
      ensures accepted != old(accepted) ==> |entries| == |old(entries)| + 1 || maxEntries <= |entries| <= |old(entries)|
    {
      var connected: bool, appended: bool, answered: bool := *, *, *;
      if !connected || !appended {
        return false;
      }
      entries, accepted := entries + [e], accepted + [e];
      if !answered {
        return false;
      }
      var kept: nat := *;
      if maxEntries <= kept < |entries| {
        entries := entries[|entries| - kept..];
      }
      return true;
    }

    method Read(query: Query) returns (page: Page)
      ensures page == SelectEvents(entries, query)
    {
      page := SelectEvents(entries, query);
    }
  }

  // --- the chain of publish calls ------------------------------------------------------------

  datatype Request = Request(operation: string, subject: Subject, payload: Payload)

  /** The publisher, and everything the stream ever accepted. */
  datatype Chain = Chain(
    waiting: seq<Request>,       // publish calls behind the tail
    persisting: Option<Event>,   // the event whose append is pending
    last: map<string, nat>,      // each operation's last reserved position
    tail: map<string, nat>,      // and the event that took it
    nextId: nat,                 // the next event identity never used before
    accepted: Log,
    notified: Log)               // what a subscribed listener has been shown

  datatype Callback =
    | Call(request: Request)              // a publish call joins the chain
    | Turn(now: int)                      // the chain's next call reserves its position
    | Persisted(logged: bool, ok: bool)   // its append took effect or not, and was answered or failed

  predicate Enabled(c: Chain, b: Callback) {
    match b
    case Call(request) => Publishable(c.accepted, c.last, request.operation)
    case Turn(_) => c.persisting == None && c.waiting != []
    case Persisted(logged, ok) => c.persisting.Some? && (ok ==> logged)
  }

  function NextEvent(c: Chain, now: int): Event
    requires c.waiting != []
  {
    var r := c.waiting[0];
    Event(c.nextId, r.subject, r.operation, TailOf(c.tail, r.operation), LastOf(c.last, r.operation) + 1, now,
        r.payload)
  }

  function Step(c: Chain, b: Callback): Chain
    requires Enabled(c, b)
  {
    match b
    case Call(request) => c.(waiting := c.waiting + [request])
    case Turn(now) =>
      var e := NextEvent(c, now);
      c.(waiting := c.waiting[1..], persisting := Some(e), nextId := c.nextId + 1,
         last := c.last[e.operation := e.sequence], tail := c.tail[e.operation := e.id])
    case Persisted(logged, ok) =>
      var e := c.persisting.value;
      c.(persisting := None, accepted := c.accepted + OneIf(e, logged), notified := c.notified + OneIf(e, ok))
  }

  datatype Clause = Numbering | Pending | Callers | Listeners

  ghost predicate Holds(c: Chain, clause: Clause) {
    match clause
    case Numbering => Numbered(c.accepted, c.last, c.tail, c.nextId)
    case Pending =>
      c.persisting.Some? ==>
        && c.persisting.value.operation in c.last
        && Numbered(c.accepted + [c.persisting.value], c.last, c.tail, c.nextId)
    case Callers => forall r | r in c.waiting :: Publishable(c.accepted, c.last, r.operation)
    case Listeners => forall e | e in c.notified :: e in c.accepted
  }

  /** The log is numbered as promised, and stays so whether or not the pending event reaches it. */
  ghost predicate Sound(c: Chain) {
    forall clause: Clause :: Holds(c, clause)
  }

  lemma CallKeepsSound(c: Chain, request: Request)
    requires Sound(c) && Enabled(c, Call(request))
    ensures Sound(Step(c, Call(request)))
  {
    assert Holds(c, Numbering) && Holds(c, Pending) && Holds(c, Callers) && Holds(c, Listeners);
  }

  lemma TurnKeepsSound(c: Chain, now: int)
    requires Sound(c) && Enabled(c, Turn(now))
    ensures Sound(Step(c, Turn(now)))
  {
    var e := NextEvent(c, now);
    assert Holds(c, Numbering) && Holds(c, Callers) && Holds(c, Listeners);
    assert c.waiting[0] in c.waiting;
    ReservationKeepsNumbering(c.accepted, c.last, c.tail, c.nextId, e);
  }

  lemma PersistedKeepsSound(c: Chain, logged: bool, ok: bool)
    requires Sound(c) && Enabled(c, Persisted(logged, ok))
    ensures Sound(Step(c, Persisted(logged, ok)))
  {
    var e := c.persisting.value;
    assert Holds(c, Numbering) && Holds(c, Pending) && Holds(c, Callers) && Holds(c, Listeners);
    if logged {
      forall r | r in c.waiting
        ensures Publishable(c.accepted + [e], c.last, r.operation)
      {
        StillPublishable(c.accepted, c.last, e, r.operation);
      }
    } else {
      assert c.accepted + [] == c.accepted;
    }
  }

  lemma StepKeepsSound(c: Chain, b: Callback)
    requires Sound(c) && Enabled(c, b)
    ensures Sound(Step(c, b))
  {
    match b
    case Call(request) => CallKeepsSound(c, request);
    case Turn(now) => TurnKeepsSound(c, now);
    case Persisted(logged, ok) => PersistedKeepsSound(c, logged, ok);
  }

  /** What has come of the calls: all of them in order, the events begun for the first ones and
      what the clock showed then, and, of those that are over, which reached the log and which
      were answered. */
  datatype Record = Record(calls: seq<Request>, begun: Log, readings: seq<int>, logged: seq<bool>, answered: seq<bool>)

  const BLANK := Record([], [], [], [], [])

  ghost function Note(c: Chain, r: Record, b: Callback): Record
    requires Enabled(c, b)
  {
    match b
    case Call(request) => r.(calls := r.calls + [request])
    case Turn(now) => r.(begun := r.begun + [NextEvent(c, now)], readings := r.readings + [now])
    case Persisted(logged, ok) => r.(logged := r.logged + [logged], answered := r.answered + [ok])
  }

  ghost predicate Idle(c: Chain) {
    c.waiting == [] && c.persisting == None && Sound(c)
  }

  datatype Served = Served(chain: Chain, record: Record)

  /** Where a run of callbacks leads from an idle start, if it can be run at all. */
  ghost function Trace(start: Chain, run: seq<Callback>): Option<Served>
    decreases |run|
  {
    if run == [] then
      if Idle(start) then Some(Served(start, BLANK)) else None
    else
      var n := |run| - 1;
      var before := Trace(start, run[..n]);
      if before == None || !Enabled(before.value.chain, run[n]) then None
      else Some(Served(Step(before.value.chain, run[n]), Note(before.value.chain, before.value.record, run[n])))
  }

  function Requests(events: Log): (r: seq<Request>)
    ensures |r| == |events|
  {
    seq(|events|, k requires 0 <= k < |events| =>
      Request(events[k].operation, events[k].subject, events[k].payload))
  }

  /** The events of which a mask says so. */
  function Kept(events: Log, mask: seq<bool>): Log
    requires |mask| <= |events|
    decreases |mask|
  {
    if mask == [] then []
    else
      var n := |mask| - 1;
      Kept(events, mask[..n]) + OneIf(events[n], mask[n])
  }

  lemma {:induction false} KeptOfLonger(events: Log, e: Event, mask: seq<bool>)
    requires |mask| <= |events|
    ensures Kept(events + [e], mask) == Kept(events, mask)
    decreases |mask|
  {
    if mask != [] {
      KeptOfLonger(events, e, mask[..|mask| - 1]);
    }
  }

  lemma KeptOneMore(events: Log, mask: seq<bool>, b: bool)
    requires |mask| < |events|
    ensures Kept(events, mask + [b]) == Kept(events, mask) + OneIf(events[|mask|], b)
  {
    var longer := mask + [b];
    assert longer[..|longer| - 1] == mask;
  }

  /** A log has grown by the begun events that the mask keeps. */
  ghost predicate Delivered(before: Log, log: Log, begun: Log, mask: seq<bool>) {
    |mask| <= |begun| && log == before + Kept(begun, mask)
  }

  lemma DeliveredOneMore(before: Log, log: Log, begun: Log, mask: seq<bool>, b: bool)
    requires Delivered(before, log, begun, mask) && |mask| < |begun|
    ensures Delivered(before, log + OneIf(begun[|mask|], b), begun, mask + [b])
  {
    KeptOneMore(begun, mask, b);
    Associate(before, Kept(begun, mask), OneIf(begun[|mask|], b));
  }

  lemma DeliveredBeforeTurn(before: Log, log: Log, begun: Log, mask: seq<bool>, e: Event)
    requires Delivered(before, log, begun, mask)
    ensures Delivered(before, log, begun + [e], mask)
  {
    KeptOfLonger(begun, e, mask);
  }

  /** The last event begun for an operation. */
  function LastBegun(begun: Log, operation: string): Option<Event> {
    if begun == [] then None
    else
      var e := begun[|begun| - 1];
      if e.operation == operation then Some(e) else LastBegun(begun[..|begun| - 1], operation)
  }

  lemma LastBegunOneMore(begun: Log, e: Event, operation: string)
    ensures LastBegun(begun + [e], operation) ==
            if e.operation == operation then Some(e) else LastBegun(begun, operation)
  {
    var longer := begun + [e];
    assert longer[..|longer| - 1] == begun;
  }

  function SequenceBefore(start: Chain, begun: Log, operation: string): nat {
    var e := LastBegun(begun, operation);
    if e.Some? then e.value.sequence else LastOf(start.last, operation)
  }

  function CauseBefore(start: Chain, begun: Log, operation: string): Option<nat> {
    var e := LastBegun(begun, operation);
    if e.Some? then Some(e.value.id) else TailOf(start.tail, operation)
  }

  /** Each event takes the very next position of its operation, and names as its cause the
      operation's event before it. */
  ghost predicate Consecutive(start: Chain, begun: Log) {
    forall k | 0 <= k < |begun| ::
      && begun[k].sequence == SequenceBefore(start, begun[..k], begun[k].operation) + 1
      && begun[k].causation == CauseBefore(start, begun[..k], begun[k].operation)
  }

  /** The counters hold the last positions begun. */
  ghost predicate CountersAt(start: Chain, begun: Log, last: map<string, nat>, tail: map<string, nat>) {
    forall o :: LastOf(last, o) == SequenceBefore(start, begun, o) && TailOf(tail, o) == CauseBefore(start, begun, o)
  }

  lemma CountersOneMore(start: Chain, begun: Log, last: map<string, nat>, tail: map<string, nat>, e: Event)
    requires CountersAt(start, begun, last, tail)
    ensures CountersAt(start, begun + [e], last[e.operation := e.sequence], tail[e.operation := e.id])
  {
    forall o
      ensures LastOf(last[e.operation := e.sequence], o) == SequenceBefore(start, begun + [e], o)
      ensures TailOf(tail[e.operation := e.id], o) == CauseBefore(start, begun + [e], o)
    {
      LastBegunOneMore(begun, e, o);
      assert LastOf(last, o) == SequenceBefore(start, begun, o);
    }
  }

  lemma ConsecutiveOneMore(start: Chain, begun: Log, e: Event)
    requires Consecutive(start, begun)
    requires e.sequence == SequenceBefore(start, begun, e.operation) + 1
    requires e.causation == CauseBefore(start, begun, e.operation)
    ensures Consecutive(start, begun + [e])
  {
    var longer := begun + [e];
    forall k | 0 <= k < |longer|
      ensures longer[..k] == begun[..k]
    {
    }
    assert begun[..|begun|] == begun;
  }

  /** Every event bears the time at which it took its position. */
  ghost predicate Stamped(begun: Log, readings: seq<int>) {
    |readings| == |begun| && forall k | 0 <= k < |begun| :: begun[k].createdAt == readings[k]
  }

  /** All events begun are over but the pending one; an answered one reached the log. */
  ghost predicate Aligned(c: Chain, r: Record) {
    && |r.begun| == |r.logged| + (if c.persisting.Some? then 1 else 0)
    && |r.answered| == |r.logged|
    && (c.persisting.Some? ==> r.begun[|r.logged|] == c.persisting.value)
    && (forall k | 0 <= k < |r.answered| :: r.answered[k] ==> r.logged[k])
  }

  /** Calls are served in the order they were made; their events reach the log and the
      listeners in that order, each at most once; and positions are consecutive. */
  ghost predicate InOrder(start: Chain, c: Chain, r: Record) {
    && Aligned(c, r)
    && Requests(r.begun) + c.waiting == r.calls && Stamped(r.begun, r.readings)
    && Delivered(start.accepted, c.accepted, r.begun, r.logged)
    && Delivered(start.notified, c.notified, r.begun, r.answered)
    && Consecutive(start, r.begun) && CountersAt(start, r.begun, c.last, c.tail)
  }

  lemma CallKeepsOrder(start: Chain, c: Chain, r: Record, request: Request)
    requires InOrder(start, c, r) && Enabled(c, Call(request))
    ensures InOrder(start, Step(c, Call(request)), Note(c, r, Call(request)))
  {
    assert Requests(r.begun) + (c.waiting + [request]) == (Requests(r.begun) + c.waiting) + [request];
  }

  lemma BegunFirst(begun: Log, waiting: seq<Request>, e: Event)
    requires waiting != [] && waiting[0] == Request(e.operation, e.subject, e.payload)
    ensures Requests(begun + [e]) + waiting[1..] == Requests(begun) + waiting
  {
    assert Requests(begun + [e]) == Requests(begun) + [waiting[0]];
  }

  lemma TurnKeepsOrder(start: Chain, c: Chain, r: Record, now: int)
    requires InOrder(start, c, r) && Enabled(c, Turn(now))
    ensures InOrder(start, Step(c, Turn(now)), Note(c, r, Turn(now)))
  {
    var e := NextEvent(c, now);
    DeliveredBeforeTurn(start.accepted, c.accepted, r.begun, r.logged, e);
    DeliveredBeforeTurn(start.notified, c.notified, r.begun, r.answered, e);
    BegunFirst(r.begun, c.waiting, e);
    assert LastOf(c.last, e.operation) == SequenceBefore(start, r.begun, e.operation);
    ConsecutiveOneMore(start, r.begun, e);
    CountersOneMore(start, r.begun, c.last, c.tail, e);
  }

  lemma PersistedKeepsOrder(start: Chain, c: Chain, r: Record, logged: bool, ok: bool)
    requires InOrder(start, c, r) && Enabled(c, Persisted(logged, ok))
    ensures InOrder(start, Step(c, Persisted(logged, ok)), Note(c, r, Persisted(logged, ok)))
  {
    DeliveredOneMore(start.accepted, c.accepted, r.begun, r.logged, logged);
    DeliveredOneMore(start.notified, c.notified, r.begun, r.answered, ok);
  }

  lemma StepKeepsOrder(start: Chain, c: Chain, r: Record, b: Callback)
    requires InOrder(start, c, r) && Enabled(c, b)
    ensures InOrder(start, Step(c, b), Note(c, r, b))
  {
    match b
    case Call(request) => CallKeepsOrder(start, c, r, request);
    case Turn(now) => TurnKeepsOrder(start, c, r, now);
    case Persisted(logged, ok) => PersistedKeepsOrder(start, c, r, logged, ok);
  }

  /** What the clock showed at the turns of a run. */
  ghost function Clock(run: seq<Callback>): seq<int>
    decreases |run|
  {
    if run == [] then []
    else
      var n := |run| - 1;
      Clock(run[..n]) + if run[n].Turn? then [run[n].now] else []
  }

  /** The requests made in a run. */
  ghost function Made(run: seq<Callback>): seq<Request>
    decreases |run|
  {
    if run == [] then []
    else
      var n := |run| - 1;
      Made(run[..n]) + if run[n].Call? then [run[n].request] else []
  }

  /** Over every interleaving of calls, turns and answers, whichever of them fail: the log is
      numbered as promised, and everything goes in the order of the calls. */
  lemma {:induction false} ChainIsSerial(start: Chain, run: seq<Callback>)
    requires Trace(start, run).Some?
    ensures var served := Trace(start, run).value;
            && Sound(served.chain) && InOrder(start, served.chain, served.record)
            && served.record.readings == Clock(run) && served.record.calls == Made(run)
    decreases |run|
  {
    if run == [] {
      assert start.accepted + [] == start.accepted && start.notified + [] == start.notified;
    } else {
      var n := |run| - 1;
      var before := Trace(start, run[..n]).value;
      ChainIsSerial(start, run[..n]);
      StepKeepsSound(before.chain, run[n]);
      StepKeepsOrder(start, before.chain, before.record, run[n]);
    }
  }

  // --- what one operation sees of it -------------------------------------------------------------

  /** One operation's part: its events in the log, its last position and whether it has one. */
  datatype View = View(events: Log, last: nat, tail: Option<nat>, numbered: bool)

  function ViewOf(c: Chain, operation: string): View {
    View(Of(c.accepted, operation), LastOf(c.last, operation), TailOf(c.tail, operation), operation in c.last)
  }

  datatype Concern = Part | Growth | Soundness | Freedom

  ghost predicate Spared(c: Chain, c': Chain, operation: string, concern: Concern) {
    match concern
    case Part => ViewOf(c', operation) == ViewOf(c, operation)
    case Growth => c.accepted <= c'.accepted && c.nextId <= c'.nextId
    case Soundness => Sound(c) ==> Sound(c')
    case Freedom => Publishable(c.accepted, c.last, operation) ==> Publishable(c'.accepted, c'.last, operation)
  }

  /** What has happened in between concerns other operations only. */
  ghost predicate Unseen(c: Chain, c': Chain, operation: string) {
    forall concern: Concern :: Spared(c, c', operation, concern)
  }

  lemma NothingUnseen(c: Chain, operation: string)
    ensures Unseen(c, c, operation)
  {
  }

  lemma UnseenOn(c: Chain, m: Chain, c': Chain, operation: string)
    requires Unseen(c, m, operation) && Unseen(m, c', operation)
    ensures Unseen(c, c', operation)
  {
    forall concern: Concern
      ensures Spared(c, c', operation, concern)
    {
      assert Spared(c, m, operation, concern) && Spared(m, c', operation, concern);
    }
  }

  /** A callback that concerns another operation. */
  predicate Foreign(c: Chain, b: Callback, operation: string)
    requires Enabled(c, b)
  {
    match b
    case Call(request) => request.operation != operation
    case Turn(_) => c.waiting[0].operation != operation
    case Persisted(_, _) => c.persisting.value.operation != operation
  }

  lemma ForeignIsUnseen(c: Chain, b: Callback, operation: string)
    requires Enabled(c, b) && Foreign(c, b, operation)
    ensures Unseen(c, Step(c, b), operation)
  {
    if Sound(c) {
      StepKeepsSound(c, b);
    }
    if b.Persisted? {
      OfOneMore(c.accepted, c.persisting.value, operation);
      NothingAppended(c.accepted, operation);
    }
  }

  /** The operation's own turn, others joining the chain behind it meanwhile. */
  lemma OwnIsSeen(c: Chain, now: int, c': Chain, logged: bool, ok: bool, operation: string)
    requires Sound(c) && Enabled(c, Turn(now)) && c.waiting[0].operation == operation && (ok ==> logged)
    requires c' == Step(c, Turn(now)).(waiting := c'.waiting) && Unseen(Step(c, Turn(now)), c', operation)
    ensures var e := NextEvent(c, now);
            var after := Step(c', Persisted(logged, ok));
            && Sound(after) && c.accepted <= after.accepted
            && ViewOf(after, operation) ==
                View(ViewOf(c, operation).events + OneIf(e, logged), e.sequence, Some(e.id), true)
  {
    StepKeepsSound(c, Turn(now));
    assert Spared(Step(c, Turn(now)), c', operation, Soundness);
    StepKeepsSound(c', Persisted(logged, ok));
    OfOneMore(c.accepted, NextEvent(c, now), operation);
    NothingAppended(c.accepted, operation);
  }

  lemma NothingAppended(log: Log, operation: string)
    ensures log + [] == log && Of(log, operation) + [] == Of(log, operation)
  {
  }

  class OperationEventPublisher {
    const transport: RedisStream
    var waiting: seq<Request>
    var persisting: Option<Event>
    var sequenceByOperation: map<string, nat>
    var tailByOperation: map<string, nat>
    var nextId: nat
    var notified: Log

    function State(): Chain
      reads this, transport
    {
      Chain(waiting, persisting, sequenceByOperation, tailByOperation, nextId, transport.accepted, notified)
    }

    ghost predicate Valid()
      reads this, transport
    {
      transport.Valid() && Sound(State())
    }

    constructor (transport: RedisStream, nextId: nat)
      requires transport.Valid() && Numbered(transport.accepted, map[], map[], nextId)
      ensures Valid() && this.transport == transport
      ensures State() == Chain([], None, map[], map[], nextId, transport.accepted, [])
    {
      this.transport, this.nextId := transport, nextId;
      waiting, persisting, sequenceByOperation, tailByOperation, notified := [], None, map[], map[], [];
    }

    method OnCall(request: Request)
      requires Enabled(State(), Call(request))
      modifies this`waiting
      ensures State() == Step(old(State()), Call(request))
    {
      waiting := waiting + [request];
    }

    /** Reserves the position before the append. */
    method OnTurn(now: int)
      requires Enabled(State(), Turn(now))
      modifies this
      ensures State() == Step(old(State()), Turn(now))
      // the event of the head of the chain, as it was asked for, stamped with the clock
      ensures waiting == old(waiting)[1..] && persisting.Some?
      ensures var (e, r) := (persisting.value, old(waiting)[0]);
              && e.operation == r.operation && e.subject == r.subject && e.payload == r.payload
              && e.createdAt == now && e.id == old(nextId) && nextId == e.id + 1
    {
      var event := NextEvent(State(), now);
      waiting, persisting, nextId := waiting[1..], Some(event), nextId + 1;
      sequenceByOperation := sequenceByOperation[event.operation := event.sequence];
      tailByOperation := tailByOperation[event.operation := event.id];
    }

    /** Appends, and only then shows listeners. A failure that the stream accepted all the same
        leaves a used position behind, never a reused one. */
    method OnPersist() returns (ok: bool, ghost logged: bool)
      requires transport.Valid() && persisting.Some?
      modifies this, transport
      ensures transport.Valid() && (ok ==> logged)
      ensures State() == Step(old(State()), Persisted(logged, ok))
    {
      ghost var c := State();
      var event := persisting.value;
      ok := transport.Persist(event);
      logged := transport.accepted != c.accepted;
      assert c.accepted + [] == c.accepted && c.notified + [] == c.notified;
      persisting := None;
      if ok {
        notified := notified + [event];
      }
    }

    /** Any one thing that may happen to the publisher. */
    method Proceed()
      requires Valid()
      modifies this, transport
      ensures Valid() && old(transport.accepted) <= transport.accepted
    {
      ghost var c := State();
      var call: bool, request: Request, now: int := *, *, *;
      if call && Enabled(State(), Call(request)) {
        StepKeepsSound(c, Call(request));
        OnCall(request);
      } else if persisting.Some? {
        var ok;
        ghost var logged;
        ok, logged := OnPersist();
        StepKeepsSound(c, Persisted(logged, ok));
      } else if waiting != [] {
        StepKeepsSound(c, Turn(now));
        OnTurn(now);
      }
    }

    // --- what others do meanwhile ---------------------------------------------------------

    /** No call of this operation is under way. */
    predicate Clear(operation: string)
      reads this
    {
      && (forall r | r in waiting :: r.operation != operation)
      && (persisting.Some? ==> persisting.value.operation != operation)
    }

    /** Perhaps another operation's publish call joins the chain. */
    method OtherCall(operation: string)
      modifies this`waiting
      ensures Unseen(old(State()), State(), operation)
      ensures old(waiting) <= waiting && forall k | |old(waiting)| <= k < |waiting| :: waiting[k].operation != operation
    {
      var request: Request := *;
      NothingUnseen(State(), operation);
      if request.operation != operation && Enabled(State(), Call(request)) {
        ForeignIsUnseen(State(), Call(request), operation);
        OnCall(request);
      }
    }

    /** Other operations' publish calls join the chain. */
    method OthersCall(operation: string)
      modifies this`waiting
      ensures Unseen(old(State()), State(), operation) && old(waiting) <= waiting
      ensures forall k | |old(waiting)| <= k < |waiting| :: waiting[k].operation != operation
    {
      var calls: nat := *;
      ghost var c := State();
      NothingUnseen(c, operation);
      while calls > 0
        invariant Unseen(c, State(), operation) && old(waiting) <= waiting
        invariant forall k | |old(waiting)| <= k < |waiting| :: waiting[k].operation != operation
      {
        ghost var m := State();
        OtherCall(operation);
        UnseenOn(c, m, State(), operation);
        calls := calls - 1;
      }
    }

    /** The chain's next callback, which concerns another operation. */
    method OthersTurn(operation: string)
      requires transport.Valid()
      requires if persisting.Some? then persisting.value.operation != operation
               else waiting != [] && waiting[0].operation != operation
      modifies this, transport
      ensures transport.Valid() && Unseen(old(State()), State(), operation)
      ensures waiting == if old(persisting).Some? then old(waiting) else old(waiting)[1..]
      ensures persisting.Some? <==> old(persisting) == None
      ensures persisting.Some? ==> persisting.value.operation != operation
    {
      ghost var c := State();
      if persisting.Some? {
        var ok;
        ghost var logged;
        ok, logged := OnPersist();
        ForeignIsUnseen(c, Persisted(logged, ok), operation);
      } else {
        var now: int := *;
        OnTurn(now);
        ForeignIsUnseen(c, Turn(now), operation);
      }
    }

    method OthersRound(operation: string)
      requires transport.Valid() && Clear(operation)
      modifies this, transport
      ensures transport.Valid() && Clear(operation) && Unseen(old(State()), State(), operation)
    {
      ghost var c := State();
      OthersCall(operation);
      if persisting.Some? || waiting != [] {
        ghost var m := State();
        OthersTurn(operation);
        UnseenOn(c, m, State(), operation);
      }
    }

    /** Whatever other operations do with the publisher meanwhile. */
    method OthersProceed(operation: string)
      requires transport.Valid() && Clear(operation)
      modifies this, transport
      ensures transport.Valid() && Clear(operation) && Unseen(old(State()), State(), operation)
    {
      var rounds: nat := *;
      ghost var c := State();
      NothingUnseen(c, operation);
      while rounds > 0
        invariant transport.Valid() && Clear(operation) && Unseen(c, State(), operation)
      {
        ghost var m := State();
        OthersRound(operation);
        UnseenOn(c, m, State(), operation);
        rounds := rounds - 1;
      }
    }

    /** The one call of this operation stands at this place of the chain. */
    ghost predicate Queued(operation: string, place: nat)
      reads this
    {
      && place < |waiting| && waiting[place].operation == operation
      && (forall k | 0 <= k < |waiting| && k != place :: waiting[k].operation != operation)
    }

    /** The next of the calls ahead begins or is over, while more may join behind. */
    method Approach(operation: string, ghost place: nat)
      requires transport.Valid() && Queued(operation, place)
      requires if persisting.Some? then persisting.value.operation != operation else place > 0
      modifies this, transport
      ensures transport.Valid() && Unseen(old(State()), State(), operation)
      ensures persisting.Some? <==> old(persisting) == None
      ensures persisting.Some? ==> persisting.value.operation != operation
      ensures var place' := if persisting.Some? then place - 1 else place;
              Queued(operation, place') && waiting[place'] == old(waiting[place])
    {
      ghost var c := State();
      OthersCall(operation);
      ghost var m := State();
      OthersTurn(operation);
      UnseenOn(c, m, State(), operation);
    }

    /** The calls ahead are served. */
    method AwaitTurn(operation: string, ghost place: nat)
      requires transport.Valid() && Queued(operation, place)
      requires persisting.Some? ==> persisting.value.operation != operation
      modifies this, transport
      ensures transport.Valid() && Unseen(old(State()), State(), operation)
      ensures persisting == None && Queued(operation, 0) && waiting[0] == old(waiting[place])
    {
      ghost var c, ahead: nat := State(), place;
      NothingUnseen(c, operation);
      while persisting.Some? || waiting[0].operation != operation
        invariant transport.Valid() && Unseen(c, State(), operation)
        invariant Queued(operation, ahead) && waiting[ahead] == old(waiting[place])
        invariant persisting.Some? ==> persisting.value.operation != operation
        decreases ahead, persisting.Some?
      {
        ghost var m := State();
        Approach(operation, ahead);
        UnseenOn(c, m, State(), operation);
        ahead := if persisting.Some? then ahead - 1 else ahead;
      }
    }

    /** The operation's call joins the chain and comes to its head. */
    method Join(request: Request)
      requires Valid() && Clear(request.operation)
      requires Publishable(transport.accepted, sequenceByOperation, request.operation)
      modifies this, transport
      ensures Valid() && persisting == None && Queued(request.operation, 0) && waiting[0] == request
      ensures ViewOf(State(), request.operation) == old(ViewOf(State(), request.operation))
      ensures old(transport.accepted) <= transport.accepted && old(nextId) <= nextId
    {
      var operation := request.operation;
      ghost var c := State();
      OthersProceed(operation);
      ghost var m := State();
      assert Spared(c, m, operation, Part) && Spared(c, m, operation, Growth);
      assert Spared(c, m, operation, Soundness) && Spared(c, m, operation, Freedom);
      StepKeepsSound(m, Call(request));
      OnCall(request);
      ghost var m' := State();
      AwaitTurn(operation, |waiting| - 1);
      assert Spared(m', State(), operation, Part) && Spared(m', State(), operation, Growth);
      assert Spared(m', State(), operation, Soundness);
    }

    /** The turn of the operation's own call, while more may join behind. */
    method ServeOwn(operation: string, now: int)
      returns (event: Option<Event>, ghost attempted: Event, ghost logged: bool)
      requires Valid() && persisting == None && Queued(operation, 0)
      modifies this, transport
      ensures Valid() && Clear(operation) && old(transport.accepted) <= transport.accepted
      ensures attempted == NextEvent(old(State()), now)
      ensures ViewOf(State(), operation) ==
              View(old(ViewOf(State(), operation)).events + OneIf(attempted, logged), attempted.sequence,
                  Some(attempted.id), true)
      ensures event.Some? ==> logged && event.value == attempted
    {
      ghost var c := State();
      OnTurn(now);
      var e := persisting.value;
      attempted := e;
      OthersCall(operation);
      ghost var c' := State();
      var ok;
      ok, logged := OnPersist();
      OwnIsSeen(c, now, c', logged, ok, operation);
      event := if ok then Some(e) else None;
    }

    /** An awaited publish, other operations' publishes before, during and after its own turn.
        now is what the clock shows at its own turn; attempted is the event handed to the
        stream, and logged says whether it reached the log. */
    method Publish(operation: string, subject: Subject, payload: Payload, now: int)
      returns (event: Option<Event>, ghost attempted: Event, ghost logged: bool)
      requires Valid() && Clear(operation) && Publishable(transport.accepted, sequenceByOperation, operation)
      modifies this, transport
      ensures Valid() && Clear(operation) && old(transport.accepted) <= transport.accepted
      ensures attempted.subject == subject && attempted.operation == operation && attempted.payload == payload
      ensures attempted.sequence == old(ViewOf(State(), operation)).last + 1 && attempted.id >= old(nextId)
      ensures attempted.causation == old(ViewOf(State(), operation)).tail && attempted.createdAt == now
      ensures ViewOf(State(), operation) ==
              View(old(ViewOf(State(), operation)).events + OneIf(attempted, logged), attempted.sequence,
                  Some(attempted.id), true)
      ensures event.Some? ==> logged && event.value == attempted
    {
      Join(Request(operation, subject, payload));
      event, attempted, logged := ServeOwn(operation, now);
    }
  }

  lemma StillCaughtUp(f: Follower, before: Log, log: Log, operation: string, limit: nat)
    requires operation != ""
    requires CaughtUpTo(f, before, operation) && before <= log && 1 <= limit <= 500
    requires Ordered(log) && (forall e | e in log :: e.sequence >= 1)
    ensures CaughtUpTo(f, log, operation) && CaughtUpTo(Poll(f, log, operation, limit), log, operation)
  {
    CaughtUpSurvivesGrowth(f, before, log, operation);
    PollIsExact(f, log, operation, limit);
  }

  /** As long as the log fits its retention window, a client has received exactly the first of
      the operation's accepted events. */
  ghost predicate InStep(f: Follower, stream: RedisStream, operation: string)
    reads stream
  {
    |stream.accepted| <= stream.maxEntries ==> CaughtUpTo(f, stream.accepted, operation)
  }

  /** One thing happens to the publisher, after which the client may read once. */
  method FollowOnce(publisher: OperationEventPublisher, f: Follower, operation: string, limit: nat)
    returns (g: Follower)
    requires operation != ""
    requires publisher.Valid() && 1 <= limit <= 500 && InStep(f, publisher.transport, operation)
    modifies publisher, publisher.transport
    ensures publisher.Valid() && old(publisher.transport.accepted) <= publisher.transport.accepted
    ensures InStep(g, publisher.transport, operation)
  {
    ghost var before := publisher.transport.accepted;
    publisher.Proceed();
    assert Holds(publisher.State(), Numbering);
    if |publisher.transport.accepted| <= publisher.transport.maxEntries {
      StillCaughtUp(f, before, publisher.transport.accepted, operation, limit);
    }
    g := f;
    var asks: bool := *;
    if asks {
      var page := publisher.transport.Read(Query(Some(operation), Some(f.cursor), Some(limit)));
      g := Receive(f, page);
    }
  }

  /** A client of the unfiltered event route reads after its last sequence at any moments,
      while operations keep publishing, failures included. As long as the log fits its
      retention window the client holds exactly the operation's accepted events, in order, up
      to its cursor. */
  method FollowWhilePublishing(publisher: OperationEventPublisher, operation: string, limit: nat) returns (f: Follower)
    requires operation != ""
    requires publisher.Valid() && 1 <= limit <= 500
    modifies publisher, publisher.transport
    ensures publisher.Valid() && old(publisher.transport.accepted) <= publisher.transport.accepted
    ensures |publisher.transport.accepted| <= publisher.transport.maxEntries ==>
              CaughtUpTo(f, publisher.transport.accepted, operation)
  {
    f := FOLLOWER;
    var turns: nat := *;
    while turns > 0
      invariant publisher.Valid() && old(publisher.transport.accepted) <= publisher.transport.accepted
      invariant InStep(f, publisher.transport, operation)
    {
      f := FollowOnce(publisher, f, operation, limit);
      turns := turns - 1;
    }
  }
}
