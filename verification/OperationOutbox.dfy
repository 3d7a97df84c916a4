/**
 The outbox that relays locally durable events to the remote authority
 (services/room-orchestrator/src/events.ts): one drain loop, a retry timer and a backoff,
 run by callbacks that interleave in any order.
 */
module OperationOutbox {
  import opened OperationEvents
  import opened Wrappers

  /** Where a drain loop waits: for the relay's answer, or, having returned, for its
      finally callback to run. */
  datatype Drain = Relaying(entry: Event) | Returned

  /** pending is an insertion-ordered map from event id to event. */
  datatype Outbox = Outbox(
    pending: seq<Event>, relayRunning: bool, timer: Option<nat>, retryDelayMs: nat, drains: seq<Drain>)

  /** Submit stands for a persist that returned, or for a replay. */
  datatype Callback =
    | Submit(events: seq<Event>) | RelayAccepted(k: nat) | RelayFailed(k: nat) | DrainReturned(k: nat) | TimerFired

  const INITIAL := Outbox([], false, None, 1000, [])

  ghost function Ids(events: seq<Event>): seq<nat> {
    if events == [] then [] else [events[0].id] + Ids(events[1..])
  }

  // --- the steps -------------------------------------------------------------------

  /** Map.set: an existing key keeps its place. */
  function Put(pending: seq<Event>, e: Event): seq<Event> {
    if pending == [] then [e]
    else if pending[0].id == e.id then [e] + pending[1..]
    else [pending[0]] + Put(pending[1..], e)
  }

  function PutAll(pending: seq<Event>, events: seq<Event>): seq<Event>
    decreases |events|
  {
    if events == [] then pending else PutAll(Put(pending, events[0]), events[1..])
  }

  /** Map.delete. */
  function Remove(pending: seq<Event>, id: nat): seq<Event> {
    if pending == [] then []
    else if pending[0].id == id then pending[1..]
    else [pending[0]] + Remove(pending[1..], id)
  }

  function Kick(s: Outbox): Outbox {
    if s.relayRunning || s.timer.Some? || s.pending == [] then s
    else s.(relayRunning := true, drains := s.drains + [Relaying(s.pending[0])])
  }

  predicate Enabled(s: Outbox, c: Callback) {
    match c
    case Submit(_) => true
    case RelayAccepted(k) => k < |s.drains| && s.drains[k].Relaying?
    case RelayFailed(k) => k < |s.drains| && s.drains[k].Relaying?
    case DrainReturned(k) => k < |s.drains| && s.drains[k].Returned?
    case TimerFired => s.timer.Some?
  }

  function Step(s: Outbox, c: Callback): Outbox
    requires Enabled(s, c)
  {
    match c
    case Submit(events) => Kick(s.(pending := PutAll(s.pending, events)))
    case RelayAccepted(k) =>
      var left := Remove(s.pending, s.drains[k].entry.id);
      s.(pending := left, retryDelayMs := 1000,
         drains := s.drains[k := if left == [] then Returned else Relaying(left[0])])
    case RelayFailed(k) =>
      s.(retryDelayMs := Min(s.retryDelayMs * 2, 30000), timer := Some(s.retryDelayMs),
         drains := s.drains[k := Returned])
    case DrainReturned(k) => Kick(s.(relayRunning := false, drains := s.drains[..k] + s.drains[k + 1..]))
    case TimerFired => Kick(s.(timer := None))
  }

  // --- what an observer sees ----------------------------------------------------------

  /** Identities in the order they joined the queue, those acknowledged, in order, and the
      failures since the last acknowledgement. */
  datatype Record = Record(submitted: seq<nat>, acknowledged: seq<nat>, failures: nat)

  const UNUSED := Record([], [], 0)

  ghost function Join(submitted: seq<nat>, pending: seq<Event>, events: seq<Event>): seq<nat>
    decreases |events|
  {
    if events == [] then submitted
    else Join(if events[0].id in Ids(pending) then submitted else submitted + [events[0].id],
              Put(pending, events[0]), events[1..])
  }

  ghost function Observe(r: Record, s: Outbox, c: Callback): Record
    requires Enabled(s, c)
  {
    match c
    case Submit(events) => r.(submitted := Join(r.submitted, s.pending, events))
    case RelayAccepted(k) => r.(acknowledged := r.acknowledged + [s.drains[k].entry.id], failures := 0)
    case RelayFailed(_) => r.(failures := r.failures + 1)
    case _ => r
  }

  /** The wait after the k-th consecutive failure, counting from zero. */
  ghost function Backoff(k: nat): nat {
    Min(1000 * Pow2(k), 30000)
  }

  lemma {:induction false} PowGrows(k: nat)
    ensures Pow2(k) >= 1
    ensures Backoff(k + 1) == Min(Backoff(k) * 2, 30000)
  {
    if k > 0 {
      PowGrows(k - 1);
    }
  }

  // --- the invariant ----------------------------------------------------------------------

  ghost predicate Distinct(ids: seq<nat>) {
    forall i, j :: 0 <= i < j < |ids| ==> ids[i] != ids[j]
  }

  ghost predicate Inv(s: Outbox, r: Record) {
    && Distinct(Ids(s.pending))
    // at most one drain, and the flag says whether there is one
    && |s.drains| == (if s.relayRunning then 1 else 0)
    // nothing is stranded
    && (s.pending != [] ==> s.relayRunning || s.timer.Some?)
    // the event being relayed is the oldest pending one
    && (forall k | 0 <= k < |s.drains| && s.drains[k].Relaying? ::
          s.pending != [] && s.pending[0].id == s.drains[k].entry.id && s.timer == None)
    // first in, first out, nothing lost, nothing invented
    && r.acknowledged + Ids(s.pending) == r.submitted
    && s.retryDelayMs == Backoff(r.failures)
    && (s.timer.Some? ==> r.failures > 0 && s.timer.value == Backoff(r.failures - 1))
  }

  lemma {:induction false} PutIds(pending: seq<Event>, e: Event)
    ensures Ids(Put(pending, e)) == if e.id in Ids(pending) then Ids(pending) else Ids(pending) + [e.id]
    ensures Put(pending, e) != [] && (pending != [] ==> Put(pending, e)[0].id == pending[0].id)
  {
    if pending != [] {
      PutIds(pending[1..], e);
      assert Ids(pending) == [pending[0].id] + Ids(pending[1..]);
    }
  }

  lemma {:induction false} PutAllIds(submitted: seq<nat>, acknowledged: seq<nat>, pending: seq<Event>,
                                     events: seq<Event>)
    requires Distinct(Ids(pending)) && acknowledged + Ids(pending) == submitted
    ensures Distinct(Ids(PutAll(pending, events)))
    ensures acknowledged + Ids(PutAll(pending, events)) == Join(submitted, pending, events)
    ensures pending != [] ==> PutAll(pending, events) != [] && PutAll(pending, events)[0].id == pending[0].id
    decreases |events|
  {
    if events != [] {
      var e := events[0];
      PutIds(pending, e);
      var joined := if e.id in Ids(pending) then submitted else submitted + [e.id];
      assert acknowledged + Ids(Put(pending, e)) == joined;
      PutAllIds(joined, acknowledged, Put(pending, e), events[1..]);
    }
  }

  lemma {:induction false} IdsAt(events: seq<Event>)
    ensures |Ids(events)| == |events| && forall k | 0 <= k < |events| :: Ids(events)[k] == events[k].id
  {
    if events != [] {
      IdsAt(events[1..]);
    }
  }

  /** Setting a key replaces its event and touches no other. */
  lemma {:induction false} PutContents(pending: seq<Event>, e: Event, x: Event)
    requires Distinct(Ids(pending))
    ensures x in Put(pending, e) <==> x == e || (x in pending && x.id != e.id)
  {
    if pending != [] {
      var rest := pending[1..];
      IdsAt(pending);
      assert Ids(pending)[1..] == Ids(rest);
      assert pending == [pending[0]] + rest;
      if pending[0].id == e.id {
        assert forall k | 1 <= k < |pending| :: Ids(pending)[k] != Ids(pending)[0];
        assert forall y | y in rest :: y.id != e.id;
      } else {
        PutContents(rest, e, x);
      }
    }
  }

  /** Among some events, x is the last of its identity. */
  ghost predicate LastOfItsId(events: seq<Event>, x: Event) {
    exists k | 0 <= k < |events| :: events[k] == x && forall j | k < j < |events| :: events[j].id != x.id
  }

  /** The queue holds the newest event of every identity it was given, and what it held before
      of the others. */
  ghost predicate Refreshed(before: seq<Event>, events: seq<Event>, pending: seq<Event>) {
    forall x :: x in pending <==>
      LastOfItsId(events, x) || (x in before && forall k | 0 <= k < |events| :: events[k].id != x.id)
  }

  lemma LastOfRest(e: Event, events: seq<Event>, x: Event)
    ensures LastOfItsId([e] + events, x) <==>
            LastOfItsId(events, x) || (x == e && forall k | 0 <= k < |events| :: events[k].id != x.id)
  {
    var longer := [e] + events;
    assert forall k | 0 <= k < |events| :: longer[k + 1] == events[k];
    if LastOfItsId(longer, x) {
      var k :| 0 <= k < |longer| && longer[k] == x && forall j | k < j < |longer| :: longer[j].id != x.id;
      forall j | k <= j < |events|
        ensures events[j].id != x.id
      {
        assert longer[j + 1] == events[j];
      }
      assert k > 0 ==> events[k - 1] == x;
    }
    if LastOfItsId(events, x) {
      var k :| 0 <= k < |events| && events[k] == x && forall j | k < j < |events| :: events[j].id != x.id;
      assert longer[k + 1] == x;
    }
    if x == e && forall k | 0 <= k < |events| :: events[k].id != x.id {
      assert longer[0] == x;
    }
  }

  lemma {:induction false} PutAllContents(pending: seq<Event>, events: seq<Event>, x: Event)
    requires Distinct(Ids(pending))
    ensures x in PutAll(pending, events) <==>
            LastOfItsId(events, x) || (x in pending && forall k | 0 <= k < |events| :: events[k].id != x.id)
    decreases |events|
  {
    if events != [] {
      var e, rest := events[0], events[1..];
      assert events == [e] + rest;
      PutIds(pending, e);
      PutContents(pending, e, x);
      PutAllContents(Put(pending, e), rest, x);
      LastOfRest(e, rest, x);
      assert (forall k | 0 <= k < |events| :: events[k].id != x.id) <==>
             (e.id != x.id && forall k | 0 <= k < |rest| :: rest[k].id != x.id) by {
        assert forall k | 0 <= k < |rest| :: rest[k] == events[k + 1];
      }
    }
  }

  lemma SubmitRefreshes(pending: seq<Event>, events: seq<Event>)
    requires Distinct(Ids(pending))
    ensures Refreshed(pending, events, PutAll(pending, events))
  {
    forall x
      ensures x in PutAll(pending, events) <==>
                LastOfItsId(events, x) || (x in pending && forall k | 0 <= k < |events| :: events[k].id != x.id)
    {
      PutAllContents(pending, events, x);
    }
  }

  /** Every callback, in whatever order they interleave, keeps the invariant. */
  lemma StepKeepsInv(s: Outbox, r: Record, c: Callback)
    requires Inv(s, r) && Enabled(s, c)
    ensures Inv(Step(s, c), Observe(r, s, c))
  {
    match c
    case Submit(events) =>
      PutAllIds(r.submitted, r.acknowledged, s.pending, events);
      assert s.drains == [] || s.drains == [s.drains[0]];
    case RelayAccepted(k) =>
      assert s.pending == [s.pending[0]] + s.pending[1..];
      assert Ids(s.pending) == [s.pending[0].id] + Ids(s.pending[1..]);
      assert Remove(s.pending, s.drains[k].entry.id) == s.pending[1..];
      assert Distinct(Ids(s.pending[1..])) by {
        assert Ids(s.pending)[1..] == Ids(s.pending[1..]);
      }
    case RelayFailed(k) =>
      PowGrows(r.failures);
    case DrainReturned(k) =>
      assert s.drains[..k] + s.drains[k + 1..] == [];
    case TimerFired =>
  }

  ghost predicate Runnable(s: Outbox, run: seq<Callback>)
    decreases |run|
  {
    run != [] ==> Enabled(s, run[0]) && Runnable(Step(s, run[0]), run[1..])
  }

  ghost function RunFrom(s: Outbox, r: Record, run: seq<Callback>): (Outbox, Record)
    requires Runnable(s, run)
    decreases |run|
  {
    if run == [] then (s, r) else RunFrom(Step(s, run[0]), Observe(r, s, run[0]), run[1..])
  }

  /** So every reachable outbox satisfies it. */
  lemma {:induction false} RunKeepsInv(s: Outbox, r: Record, run: seq<Callback>)
    requires Inv(s, r) && Runnable(s, run)
    ensures Inv(RunFrom(s, r, run).0, RunFrom(s, r, run).1)
    decreases |run|
  {
    if run != [] {
      StepKeepsInv(s, r, run[0]);
      RunKeepsInv(Step(s, run[0]), Observe(r, s, run[0]), run[1..]);
    }
  }

  /** From the start, over any interleaving: at most one drain; something pending is being
      relayed or waits for an armed timer; acknowledgements are the first submissions, in
      order, and the rest is still pending. */
  lemma OutboxNeverStrandsOrReorders(run: seq<Callback>)
    requires Runnable(INITIAL, run)
    ensures var (s, r) := RunFrom(INITIAL, UNUSED, run);
            && |s.drains| <= 1
            && (s.pending != [] ==> s.drains != [] || s.timer.Some?)
            && r.submitted == r.acknowledged + Ids(s.pending)
            && (s.timer.Some? ==> r.failures > 0 && s.timer.value == Backoff(r.failures - 1))
  {
    RunKeepsInv(INITIAL, UNUSED, run);
  }

  /** Repeated relay success empties the outbox: with n events pending and one being relayed,
      n acceptances in a row acknowledge them all in order. */
  lemma {:induction false} AcceptancesDrain(s: Outbox, r: Record)
    requires Inv(s, r) && |s.drains| == 1 && s.drains[0].Relaying?
    ensures var accept := seq(|s.pending|, _ => RelayAccepted(0));
            Runnable(s, accept) && RunFrom(s, r, accept).0.pending == []
            && RunFrom(s, r, accept).1.acknowledged == r.submitted
    decreases |s.pending|
  {
    var accept := seq(|s.pending|, _ => RelayAccepted(0));
    var s', r' := Step(s, RelayAccepted(0)), Observe(r, s, RelayAccepted(0));
    StepKeepsInv(s, r, RelayAccepted(0));
    assert s'.pending == s.pending[1..];
    assert accept[1..] == seq(|s'.pending|, _ => RelayAccepted(0));
    assert r'.submitted == r.submitted;
    if s'.pending == [] {
      assert accept[1..] == [];
      assert r'.acknowledged == r'.submitted;
    } else {
      AcceptancesDrain(s', r');
    }
  }

  /** From every reachable outbox with something pending there is a way on in which nothing new
      is submitted, everything is acknowledged, and in order: the drain's return and the timer
      first, where they are due, and then acceptances. */
  lemma {:induction false} OutboxCanDrain(s: Outbox, r: Record) returns (run: seq<Callback>)
    requires Inv(s, r) && s.pending != []
    ensures Runnable(s, run) && forall k | 0 <= k < |run| :: !run[k].Submit?
    ensures RunFrom(s, r, run).0.pending == [] && RunFrom(s, r, run).1.acknowledged == r.submitted
    decreases if s.drains == [] then 1 else if s.drains[0].Relaying? then 0 else 2
  {
    if s.drains != [] && s.drains[0].Relaying? {
      AcceptancesDrain(s, r);
      run := seq(|s.pending|, _ => RelayAccepted(0));
    } else {
      var c := if s.drains == [] then TimerFired else DrainReturned(0);
      StepKeepsInv(s, r, c);
      assert s.drains != [] ==> s.drains[..0] + s.drains[1..] == [];
      var rest := OutboxCanDrain(Step(s, c), Observe(r, s, c));
      run := [c] + rest;
      assert run[1..] == rest;
    }
  }

  // --- the class that does it in place --------------------------------------------------------

  class OutboxOperationEventTransport {
    var pending: seq<Event>
    var relayRunning: bool
    var retryTimer: Option<nat>
    var retryDelayMs: nat
    var drains: seq<Drain>
    ghost var record: Record

    function State(): Outbox
      reads this
    {
      Outbox(pending, relayRunning, retryTimer, retryDelayMs, drains)
    }

    ghost predicate Valid()
      reads this
    {
      Inv(State(), record)
    }

    constructor ()
      ensures Valid() && State() == INITIAL && record == UNUSED
    {
      pending, relayRunning, retryTimer, retryDelayMs, drains := [], false, None, 1000, [];
      record := UNUSED;
      new;
      assert Backoff(0) == 1000;
    }

    method KickRelay()
      modifies this`relayRunning, this`drains
      // whatever is pending is now being relayed or waits for an armed timer
      ensures pending != [] ==> relayRunning || retryTimer.Some?
      // a drain starts on the oldest event, and only when none ran and no timer was armed
      ensures
        || (relayRunning == old(relayRunning) && drains == old(drains))
        || (!old(relayRunning) && relayRunning && retryTimer == None && pending != []
            && drains == old(drains) + [Relaying(pending[0])])
    {
      if relayRunning || retryTimer.Some? || pending == [] {
        return;
      }
      relayRunning := true;
      drains := drains + [Relaying(pending[0])];
    }

    /** A persist whose durable append was accepted, and a replay after a restart. */
    method Replay(events: seq<Event>)
      requires Valid()
      modifies this
      ensures Valid() && State() == Step(old(State()), Submit(events))
      ensures record == Observe(old(record), old(State()), Submit(events))
      ensures Refreshed(old(pending), events, pending)
    {
      StepKeepsInv(State(), record, Submit(events));
      SubmitRefreshes(pending, events);
      record := Observe(record, State(), Submit(events));
      var k := 0;
      while k < |events|
        invariant 0 <= k <= |events|
        invariant PutAll(pending, events[k..]) == PutAll(old(pending), events)
        invariant State() == old(State()).(pending := pending)
        invariant record == Observe(old(record), old(State()), Submit(events))
      {
        pending := Put(pending, events[k]);
        k := k + 1;
      }
      KickRelay();
    }

    method Persist(event: Event) returns (ok: bool)
      requires Valid()
      modifies this
      ensures Valid()
      ensures State() == if ok then Step(old(State()), Submit([event])) else old(State())
      ensures record == if ok then Observe(old(record), old(State()), Submit([event])) else old(record)
      ensures ok ==> event in pending && Refreshed(old(pending), [event], pending)
    {
      ok := *;
      if ok {
        Replay([event]);
        assert [event][0] == event && LastOfItsId([event], event);
      }
    }

    /** The relay accepted the entry drain k was waiting on. */
    method OnRelayAccepted(k: nat)
      requires Valid() && Enabled(State(), RelayAccepted(k))
      modifies this
      ensures Valid() && State() == Step(old(State()), RelayAccepted(k))
      ensures record == Observe(old(record), old(State()), RelayAccepted(k))
      // the oldest event is done, and the next one, if any, is relayed
      ensures pending == old(pending)[1..] && retryDelayMs == 1000 && retryTimer == None
      ensures drains == [if pending == [] then Returned else Relaying(pending[0])]
    {
      StepKeepsInv(State(), record, RelayAccepted(k));
      record := Observe(record, State(), RelayAccepted(k));
      pending := Remove(pending, drains[k].entry.id);
      retryDelayMs := 1000;
      if pending == [] {
        drains := drains[k := Returned];
      } else {
        drains := drains[k := Relaying(pending[0])];
      }
    }

    method OnRelayFailed(k: nat)
      requires Valid() && Enabled(State(), RelayFailed(k))
      modifies this
      ensures Valid() && State() == Step(old(State()), RelayFailed(k))
      ensures record == Observe(old(record), old(State()), RelayFailed(k))
      // nothing is lost; the timer is armed, and the wait after it doubles up to 30 seconds
      ensures pending == old(pending) && drains == [Returned] && retryTimer == Some(old(retryDelayMs))
      ensures retryDelayMs == if old(retryDelayMs) < 15000 then 2 * old(retryDelayMs) else 30000
    {
      StepKeepsInv(State(), record, RelayFailed(k));
      record := Observe(record, State(), RelayFailed(k));
      var delay := retryDelayMs;
      retryDelayMs := Min(retryDelayMs * 2, 30000);
      retryTimer := Some(delay);
      drains := drains[k := Returned];
    }

    /** The finally callback: an event may have joined after the drain saw an empty map. */
    method OnDrainReturned(k: nat)
      requires Valid() && Enabled(State(), DrainReturned(k))
      modifies this
      ensures Valid() && State() == Step(old(State()), DrainReturned(k))
      ensures record == Observe(old(record), old(State()), DrainReturned(k))
      ensures pending == old(pending) && retryTimer == old(retryTimer)
      ensures drains == if pending == [] || retryTimer.Some? then [] else [Relaying(pending[0])]
    {
      StepKeepsInv(State(), record, DrainReturned(k));
      relayRunning := false;
      drains := drains[..k] + drains[k + 1..];
      KickRelay();
    }

    method OnTimerFired()
      requires Valid() && Enabled(State(), TimerFired)
      modifies this
      ensures Valid() && State() == Step(old(State()), TimerFired)
      ensures record == Observe(old(record), old(State()), TimerFired)
      ensures pending == old(pending) && retryTimer == None
      ensures pending != [] ==> drains != []
    {
      StepKeepsInv(State(), record, TimerFired);
      retryTimer := None;
      KickRelay();
    }
  }
}
