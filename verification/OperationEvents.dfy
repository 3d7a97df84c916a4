/**
 The durable operation log and its cursor reads
 (services/room-orchestrator/src/events.ts).
 */
module OperationEvents {
  import opened Wrappers

  datatype Subject =
    | ReleasePolicyEvaluated
    | CanaryScheduled
    | CanaryReady
    | ValidationLoadStarted
    | MetricGateEvaluated
    | PromotionBlocked
    | PromotionApproved
    | SnapshotBacklogDetected
    | MemoryPressureObserved
    | ContainerOOMKilled
    | EvidenceBundleSealed
    | PostVerificationCompleted

  /** The payload fields that decisions are made on. */
  datatype Payload = Payload(
    room: string,
    revision: string,
    completed: bool,
    imageDigest: Option<string>,
    evidenceIds: seq<EvidenceId>,
    bundleId: string,
    complete: bool,
    gate: Option<Gate>)

  /** A gate as it is recorded. Observed value and threshold may be unavailable. */
  datatype Gate = Gate(metricName: string, observed: Option<real>, threshold: Option<real>, comparator: Comparator,
      passed: bool)
  datatype Comparator = AtMost | AtLeast | Available

  /** Evidence is an event of this log, or something named elsewhere. */
  datatype EvidenceId = EventId(id: nat) | External(name: string)

  datatype Event = Event(
    id: nat,
    subject: Subject,
    operation: string,
    causation: Option<nat>,
    sequence: nat,
    createdAt: int,
    payload: Payload)

  type Log = seq<Event>

  // --- reading -------------------------------------------------------------------

  /** The events of one operation, in log order. */
  function Of(log: Log, operation: string): Log {
    if log == [] then []
    else (if log[0].operation == operation then [log[0]] else []) + Of(log[1..], operation)
  }

  /** The events beyond a cursor, in log order. */
  function After(log: Log, cursor: nat): Log {
    if log == [] then []
    else (if log[0].sequence > cursor then [log[0]] else []) + After(log[1..], cursor)
  }

  function Take(log: Log, limit: nat): Log {
    if |log| <= limit then log else log[..limit]
  }

  datatype Query = Query(operation: Option<string>, afterSequence: Option<int>, limit: Option<int>)
  datatype Page = InvalidCursor | InvalidLimit | Events(events: Log)

  /** An empty name asks for every operation. */
  function Named(log: Log, operation: Option<string>): Log {
    if operation.Some? && operation.value != "" then Of(log, operation.value) else log
  }

  function SelectEvents(log: Log, query: Query): Page {
    var after := if query.afterSequence.Some? then query.afterSequence.value else 0;
    var limit := if query.limit.Some? then query.limit.value else 200;
    if after < 0 then InvalidCursor
    else if limit < 1 || limit > 500 then InvalidLimit
    else Events(Take(After(Named(log, query.operation), after), limit))
  }

  /** Each operation's events were numbered strictly upwards in the order they were logged. */
  ghost predicate Ordered(log: Log) {
    forall i, j :: 0 <= i < j < |log| && log[i].operation == log[j].operation ==> log[i].sequence < log[j].sequence
  }

  ghost predicate Increasing(log: Log) {
    forall i, j :: 0 <= i < j < |log| ==> log[i].sequence < log[j].sequence
  }

  lemma {:induction false} OfConcat(a: Log, b: Log, operation: string)
    ensures Of(a + b, operation) == Of(a, operation) + Of(b, operation)
  {
    if a == [] {
      assert a + b == b;
    } else {
      var first := if a[0].operation == operation then [a[0]] else [];
      var whole := a + b;
      assert whole[0] == a[0] && whole[1..] == a[1..] + b;
      OfConcat(a[1..], b, operation);
      assert first + (Of(a[1..], operation) + Of(b, operation)) == (first + Of(a[1..], operation)) + Of(b, operation);
    }
  }

  function OneIf(e: Event, b: bool): Log {
    if b then [e] else []
  }

  lemma OfOneMore(log: Log, e: Event, operation: string)
    ensures Of(log + [e], operation) == Of(log, operation) + OneIf(e, e.operation == operation)
  {
    OfConcat(log, [e], operation);
    assert [e][1..] == [];
  }

  lemma Associate(a: Log, b: Log, c: Log)
    ensures (a + b) + c == a + (b + c)
  {
  }

  lemma {:induction false} OfMembers(log: Log, operation: string)
    ensures forall e :: e in Of(log, operation) <==> e in log && e.operation == operation
  {
    if log != [] {
      OfMembers(log[1..], operation);
      assert log == [log[0]] + log[1..];
    }
  }

  lemma {:induction false} OfIncreasing(log: Log, operation: string)
    requires Ordered(log)
    ensures Increasing(Of(log, operation))
  {
    if log != [] {
      OfIncreasing(log[1..], operation);
      OfMembers(log[1..], operation);
      var rest := Of(log[1..], operation);
      forall k | 0 <= k < |rest|
        ensures log[0].operation == operation ==> log[0].sequence < rest[k].sequence
      {
        assert rest[k] in log[1..];
      }
    }
  }

  lemma {:induction false} AfterConcat(a: Log, b: Log, cursor: nat)
    ensures After(a + b, cursor) == After(a, cursor) + After(b, cursor)
  {
    if a == [] {
      assert a + b == b;
    } else {
      var first := if a[0].sequence > cursor then [a[0]] else [];
      var whole := a + b;
      assert whole[0] == a[0] && whole[1..] == a[1..] + b;
      AfterConcat(a[1..], b, cursor);
      assert first + (After(a[1..], cursor) + After(b, cursor)) == (first + After(a[1..], cursor)) + After(b, cursor);
    }
  }

  lemma {:induction false} AfterAll(log: Log, cursor: nat)
    requires forall e | e in log :: e.sequence > cursor
    ensures After(log, cursor) == log
  {
    if log != [] {
      AfterAll(log[1..], cursor);
    }
  }

  lemma {:induction false} AfterNone(log: Log, cursor: nat)
    requires forall e | e in log :: e.sequence <= cursor
    ensures After(log, cursor) == []
  {
    if log != [] {
      AfterNone(log[1..], cursor);
    }
  }

  lemma HiddenUpTo(log: Log, k: nat, cursor: nat)
    requires Increasing(log) && k <= |log|
    requires if k == 0 then forall e | e in log :: e.sequence > cursor else cursor == log[k - 1].sequence
    ensures forall e | e in log[..k] :: e.sequence <= cursor
    ensures forall e | e in log[k..] :: e.sequence > cursor
  {
    forall i | 0 <= i < |log|
      ensures log[i].sequence <= cursor <==> i < k
    {
      assert log[i] in log;
    }
  }

  /** In an increasing log, a cursor that is the k-th event's sequence hides exactly the
      first k events. */
  lemma AfterIsSuffix(log: Log, k: nat, cursor: nat)
    requires Increasing(log) && k <= |log|
    requires if k == 0 then forall e | e in log :: e.sequence > cursor else cursor == log[k - 1].sequence
    ensures After(log, cursor) == log[k..]
  {
    assert log == log[..k] + log[k..];
    AfterConcat(log[..k], log[k..], cursor);
    HiddenUpTo(log, k, cursor);
    AfterNone(log[..k], cursor);
    AfterAll(log[k..], cursor);
    assert [] + log[k..] == log[k..];
  }

  // --- a page, written out --------------------------------------------------------------

  /** The query asks for this event: it is beyond the cursor, which is 0 if none is given, and
      of the operation named, if one is; an empty name is none. */
  ghost predicate AsksFor(query: Query, e: Event) {
    && (query.operation.Some? && |query.operation.value| > 0 ==> e.operation == query.operation.value)
    && (query.afterSequence.Some? ==> e.sequence > query.afterSequence.value)
    && (query.afterSequence == None ==> e.sequence > 0)
  }

  /** Where the events stand that a query asks for. */
  ghost function AskedAt(log: Log, query: Query): seq<nat> {
    if log == [] then []
    else
      var last := |log| - 1;
      AskedAt(log[..last], query) + if AsksFor(query, log[last]) then [last] else []
  }

  /** The events stand in the log at these places, in order, and the query asks for them. */
  ghost predicate StandAt(events: Log, log: Log, query: Query, places: seq<nat>) {
    && |places| == |events|
    && (forall i | 0 <= i < |places| ::
          places[i] < |log| && log[places[i]] == events[i] && AsksFor(query, log[places[i]]))
    && forall i, j | 0 <= i < j < |places| :: places[i] < places[j]
  }

  /** What the query asks for stands at these places, or behind all of them. */
  ghost predicate LeavesNoneOut(log: Log, query: Query, places: seq<nat>, orBehind: bool) {
    forall j: nat | j < |log| && AsksFor(query, log[j]) :: j in places || (orBehind && BeyondAll(places, j))
  }

  ghost predicate BeyondAll(places: seq<nat>, j: nat) {
    forall i | 0 <= i < |places| :: places[i] < j
  }

  /** The page holds the first events of the log that the query asks for, in order: as many as
      the limit allows, and 200 if none is given; nothing in between is left out. */
  ghost predicate IsPage(events: Log, log: Log, query: Query) {
    var limit := if query.limit.Some? then query.limit.value else 200;
    && |events| <= limit
    && exists places: seq<nat> ::
         StandAt(events, log, query, places) && LeavesNoneOut(log, query, places, |events| == limit)
  }

  lemma NamedOneMore(log: Log, e: Event, operation: Option<string>)
    ensures Named(log + [e], operation) ==
            Named(log, operation) +
              OneIf(e, operation.Some? && operation.value != "" ==> e.operation == operation.value)
  {
    if operation.Some? && operation.value != "" {
      OfOneMore(log, e, operation.value);
    }
  }

  lemma AfterOneMore(log: Log, e: Event, b: bool, cursor: nat)
    ensures After(log + OneIf(e, b), cursor) == After(log, cursor) + OneIf(e, b && e.sequence > cursor)
  {
    AfterConcat(log, OneIf(e, b), cursor);
    assert [e][1..] == [];
  }

  lemma StandOneMore(events: Log, log: Log, query: Query, places: seq<nat>, e: Event)
    requires StandAt(events, log, query, places)
    ensures AsksFor(query, e) ==> StandAt(events + [e], log + [e], query, places + [|log|])
    ensures StandAt(events, log + [e], query, places)
  {
  }

  lemma FilterOneMore(log: Log, e: Event, query: Query, after: nat)
    requires after == if query.afterSequence.Some? then query.afterSequence.value else 0
    ensures After(Named(log + [e], query.operation), after) ==
            After(Named(log, query.operation), after) + OneIf(e, AsksFor(query, e))
  {
    NamedOneMore(log, e, query.operation);
    AfterOneMore(Named(log, query.operation), e,
                 query.operation.Some? && query.operation.value != "" ==> e.operation == query.operation.value, after);
  }

  lemma AskedAtOneMore(log: Log, e: Event, query: Query)
    ensures AskedAt(log + [e], query) == AskedAt(log, query) + if AsksFor(query, e) then [|log|] else []
  {
    assert (log + [e])[..|log|] == log;
  }

  /** What passes the filter stands where the query asks for it, and nothing else is asked for. */
  lemma {:induction false} FilterWrittenOut(log: Log, query: Query, after: nat)
    requires after == if query.afterSequence.Some? then query.afterSequence.value else 0
    ensures StandAt(After(Named(log, query.operation), after), log, query, AskedAt(log, query))
    ensures LeavesNoneOut(log, query, AskedAt(log, query), false)
    decreases |log|
  {
    if log != [] {
      var before, e := log[..|log| - 1], log[|log| - 1];
      assert log == before + [e];
      FilterWrittenOut(before, query, after);
      FilterOneMore(before, e, query, after);
      AskedAtOneMore(before, e, query);
      StandOneMore(After(Named(before, query.operation), after), before, query, AskedAt(before, query), e);
      forall j: nat | j < |log| && AsksFor(query, log[j])
        ensures j in AskedAt(log, query)
      {
        assert j < |before| ==> before[j] == log[j];
      }
    } else {
      assert query.operation.Some? && query.operation.value != "" ==> Of([], query.operation.value) == [];
    }
  }

  lemma FirstPlaces(all: Log, log: Log, query: Query, places: seq<nat>, n: nat)
    requires StandAt(all, log, query, places) && LeavesNoneOut(log, query, places, false) && n <= |all|
    ensures StandAt(all[..n], log, query, places[..n]) && LeavesNoneOut(log, query, places[..n], true)
  {
    var taken := places[..n];
    forall j: nat | j < |log| && AsksFor(query, log[j])
      ensures j in taken || BeyondAll(taken, j)
    {
      var k :| 0 <= k < |places| && places[k] == j;
      assert k < n ==> taken[k] == j;
    }
  }

  lemma TakeIsPage(all: Log, log: Log, query: Query, places: seq<nat>, limit: nat)
    requires StandAt(all, log, query, places) && LeavesNoneOut(log, query, places, false)
    requires limit == if query.limit.Some? then query.limit.value else 200
    ensures IsPage(Take(all, limit), log, query)
  {
    if |all| > limit {
      FirstPlaces(all, log, query, places, limit);
      assert StandAt(Take(all, limit), log, query, places[..limit]);
    } else {
      assert StandAt(Take(all, limit), log, query, places);
      assert LeavesNoneOut(log, query, places, |all| == limit);
    }
  }

  /** A read fails exactly for a cursor below 0, and then for a limit outside 1 to 500;
      otherwise it gives the page. */
  lemma PageWrittenOut(log: Log, query: Query)
    ensures SelectEvents(log, query) == InvalidCursor <==> query.afterSequence.Some? && query.afterSequence.value < 0
    ensures SelectEvents(log, query) == InvalidLimit <==>
            !(query.afterSequence.Some? && query.afterSequence.value < 0)
            && query.limit.Some? && !(1 <= query.limit.value <= 500)
    ensures SelectEvents(log, query).Events? ==> IsPage(SelectEvents(log, query).events, log, query)
  {
    if SelectEvents(log, query).Events? {
      var after := if query.afterSequence.Some? then query.afterSequence.value else 0;
      var limit := if query.limit.Some? then query.limit.value else 200;
      FilterWrittenOut(log, query, after);
      TakeIsPage(After(Named(log, query.operation), after), log, query, AskedAt(log, query), limit);
    }
  }

  // --- following an operation ---------------------------------------------------------

  /** A client that reads a page, then reads again after the last sequence it saw. */
  datatype Follower = Follower(received: Log, cursor: nat)

  const FOLLOWER := Follower([], 0)

  function Receive(f: Follower, page: Page): Follower {
    match page
    case Events(events) =>
      Follower(f.received + events, if events == [] then f.cursor else events[|events| - 1].sequence)
    case _ => f
  }

  function Poll(f: Follower, log: Log, operation: string, limit: nat): Follower {
    Receive(f, SelectEvents(log, Query(Some(operation), Some(f.cursor), Some(limit))))
  }

  /** One read against each of the logs in turn. */
  function Follow(f: Follower, logs: seq<Log>, operation: string, limits: seq<nat>): Follower
    requires |logs| == |limits|
    decreases |logs|
  {
    if logs == [] then f
    else Follow(Poll(f, logs[0], operation, limits[0]), logs[1..], operation, limits[1..])
  }

  /** f has received exactly the first events of the operation, and its cursor says so. */
  ghost predicate CaughtUpTo(f: Follower, log: Log, operation: string) {
    && |f.received| <= |Of(log, operation)|
    && f.received == Of(log, operation)[..|f.received|]
    && f.cursor == (if f.received == [] then 0 else f.received[|f.received| - 1].sequence)
  }

  /** The log only grows, its operations stay ordered, and sequences start at one. */
  ghost predicate Growing(logs: seq<Log>) {
    && (forall i :: 0 <= i < |logs| ==> Ordered(logs[i]) && forall e | e in logs[i] :: e.sequence >= 1)
    && (forall i, j :: 0 <= i < j < |logs| ==> logs[i] <= logs[j])
  }

  /** The cursor hides exactly what was received. */
  lemma BeyondCursor(f: Follower, log: Log, operation: string)
    requires Ordered(log) && (forall e | e in log :: e.sequence >= 1)
    requires CaughtUpTo(f, log, operation)
    ensures After(Of(log, operation), f.cursor) == Of(log, operation)[|f.received|..]
  {
    var evs, k := Of(log, operation), |f.received|;
    OfIncreasing(log, operation);
    OfMembers(log, operation);
    assert k > 0 ==> f.received[k - 1] == evs[k - 1];
    AfterIsSuffix(evs, k, f.cursor);
  }

  lemma TakeIsSlice(log: Log, k: nat, limit: nat)
    requires k <= |log|
    ensures Take(log[k..], limit) == log[k..Min(k + limit, |log|)]
    ensures log[..k] + log[k..Min(k + limit, |log|)] == log[..Min(k + limit, |log|)]
  {
  }

  lemma NextPage(f: Follower, log: Log, operation: string, limit: nat)
    requires operation != ""
    requires Ordered(log) && (forall e | e in log :: e.sequence >= 1)
    requires CaughtUpTo(f, log, operation) && 1 <= limit <= 500
    ensures SelectEvents(log, Query(Some(operation), Some(f.cursor), Some(limit))) ==
            Events(Of(log, operation)[|f.received|..Min(|f.received| + limit, |Of(log, operation)|)])
  {
    BeyondCursor(f, log, operation);
    TakeIsSlice(Of(log, operation), |f.received|, limit);
  }

  /** A read hands over exactly the next events, as many as the limit allows. */
  lemma PollIsExact(f: Follower, log: Log, operation: string, limit: nat)
    requires operation != ""
    requires Ordered(log) && (forall e | e in log :: e.sequence >= 1)
    requires CaughtUpTo(f, log, operation) && 1 <= limit <= 500
    ensures CaughtUpTo(Poll(f, log, operation, limit), log, operation)
    ensures |Poll(f, log, operation, limit).received| == Min(|f.received| + limit, |Of(log, operation)|)
    ensures f.received <= Poll(f, log, operation, limit).received
  {
    var evs, k := Of(log, operation), |f.received|;
    var n, g := Min(k + limit, |evs|), Poll(f, log, operation, limit);
    NextPage(f, log, operation, limit);
    ReceivesNext(f, evs, n);
    assert g.received == evs[..n] && |g.received| == n;
    assert n > 0 ==> g.received[n - 1] == evs[n - 1];
  }

  /** A page of the very next events brings the follower up to its end. */
  lemma ReceivesNext(f: Follower, evs: Log, n: nat)
    requires |f.received| <= n <= |evs| && f.received == evs[..|f.received|]
    requires f.cursor == (if f.received == [] then 0 else f.received[|f.received| - 1].sequence)
    ensures var g := Receive(f, Events(evs[|f.received|..n]));
            && g.received == evs[..n] && f.received <= g.received
            && g.cursor == (if n == 0 then 0 else evs[n - 1].sequence)
  {
    var k := |f.received|;
    assert evs[..k] + evs[k..n] == evs[..n];
    assert n > k ==> evs[k..n][n - k - 1] == evs[n - 1];
  }

  lemma CaughtUpSurvivesGrowth(f: Follower, log: Log, log': Log, operation: string)
    requires CaughtUpTo(f, log, operation) && log <= log'
    ensures CaughtUpTo(f, log', operation)
    ensures Of(log, operation) <= Of(log', operation)
  {
    assert log' == log + log'[|log|..];
    OfConcat(log, log'[|log|..], operation);
  }

  /** Reading after the last sequence seen yields every event of the operation exactly once
      and in order, whatever the limits and however the log grows between reads. */
  lemma {:induction false} FollowIsExact(f: Follower, logs: seq<Log>, operation: string, limits: seq<nat>)
    requires operation != ""
    requires |logs| == |limits| && |logs| > 0
    requires Growing(logs) && forall k | 0 <= k < |limits| :: 1 <= limits[k] <= 500
    requires CaughtUpTo(f, logs[0], operation)
    ensures CaughtUpTo(Follow(f, logs, operation, limits), logs[|logs| - 1], operation)
    ensures f.received <= Follow(f, logs, operation, limits).received
    decreases |logs|
  {
    var g := Poll(f, logs[0], operation, limits[0]);
    PollIsExact(f, logs[0], operation, limits[0]);
    if |logs| > 1 {
      CaughtUpSurvivesGrowth(g, logs[0], logs[1], operation);
      FollowIsExact(g, logs[1..], operation, limits[1..]);
    } else {
      assert Follow(g, logs[1..], operation, limits[1..]) == g;
    }
  }

  function Sum(limits: seq<nat>): nat {
    if limits == [] then 0 else limits[0] + Sum(limits[1..])
  }

  /** Once the log has stopped growing, reads receive everything as soon as their limits add
      up to what is left. */
  lemma {:induction false} FollowCompletes(f: Follower, logs: seq<Log>, log: Log, operation: string, limits: seq<nat>)
    requires operation != ""
    requires Ordered(log) && (forall e | e in log :: e.sequence >= 1)
    requires CaughtUpTo(f, log, operation)
    requires |logs| == |limits| && (forall k | 0 <= k < |logs| :: logs[k] == log)
    requires forall k | 0 <= k < |limits| :: 1 <= limits[k] <= 500
    ensures |Follow(f, logs, operation, limits).received| == Min(|f.received| + Sum(limits), |Of(log, operation)|)
    decreases |logs|
  {
    if logs != [] {
      var g := Poll(f, log, operation, limits[0]);
      PollIsExact(f, log, operation, limits[0]);
      assert forall k | 0 <= k < |logs[1..]| :: logs[1..][k] == logs[k + 1];
      FollowCompletes(g, logs[1..], log, operation, limits[1..]);
      assert logs[0] == log;
      assert Follow(f, logs, operation, limits) == Follow(g, logs[1..], operation, limits[1..]);
      assert Sum(limits) == limits[0] + Sum(limits[1..]);
    }
  }

  /** Reading a trimmed log is as good as reading the whole one exactly when nothing beyond
      the cursor has been trimmed. */
  lemma TrimmedReadIffNothingLost(dropped: Log, kept: Log, operation: string, cursor: nat)
    ensures After(Of(kept, operation), cursor) == After(Of(dropped + kept, operation), cursor)
       <==> (forall e | e in dropped && e.operation == operation :: e.sequence <= cursor)
  {
    OfConcat(dropped, kept, operation);
    AfterConcat(Of(dropped, operation), Of(kept, operation), cursor);
    OfMembers(dropped, operation);
    if forall e | e in dropped && e.operation == operation :: e.sequence <= cursor {
      AfterNone(Of(dropped, operation), cursor);
      assert [] + After(Of(kept, operation), cursor) == After(Of(kept, operation), cursor);
    } else {
      var e :| e in dropped && e.operation == operation && e.sequence > cursor;
      AfterKeeps(Of(dropped, operation), cursor, e);
      assert |After(Of(dropped, operation), cursor)| > 0;
    }
  }

  lemma {:induction false} AfterKeeps(log: Log, cursor: nat, e: Event)
    requires e in log && e.sequence > cursor
    ensures e in After(log, cursor)
  {
    if e != log[0] {
      AfterKeeps(log[1..], cursor, e);
    }
  }
}
