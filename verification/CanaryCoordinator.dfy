/**
 A canary validation run that writes an event log
 (services/room-orchestrator/src/canary.ts).
 */
module CanaryCoordinator {
  import opened OperationEvents
  import opened OperationPublisher
  import opened ReleaseApproval
  import opened CanaryPolicy
  import opened Wrappers

  datatype Validation = Decided(approved: bool, imageDigest: Option<string>) | PublishError | Refused(reason: Refusal)
  datatype Refusal = TargetIdentityRequired | LiveRoomForbidden | AlreadyRunning

  datatype Unavailable =
    | OomEventUidMissing | LoadUnavailable | ObservationUnavailable | MetricMissing | MemoryLimitMissing
    | CleanupUnavailable | ReadinessUnavailable

  function Reasons(missing: seq<Metric>): (r: seq<Unavailable>)
    ensures |r| == |missing|
  {
    seq(|missing|, _ => MetricMissing)
  }

  predicate Backlogged(o: Observation, options: Options) {
    SnapshotInflight in o && SnapshotPending in o
    && (o[SnapshotInflight] > options.maxSnapshotInflight || o[SnapshotPending] > options.maxSnapshotPending)
  }

  predicate Pressed(o: Observation, limit: Option<nat>, options: Options) {
    MemoryWorkingSetBytes in o && limit.Some? && limit.value > 0
    && o[MemoryWorkingSetBytes] / (limit.value as real) >= options.memoryPressureRatio
  }

  /** Some observation showed more snapshot writes running or waiting than are allowed. */
  ghost predicate AnyBacklogged(observations: seq<Observation>, options: Options) {
    exists k | 0 <= k < |observations| :: Overloaded(observations[k], options)
  }

  ghost predicate Overloaded(o: Observation, options: Options) {
    && SnapshotInflight in o && SnapshotPending in o
    && (o[SnapshotInflight] > options.maxSnapshotInflight || o[SnapshotPending] > options.maxSnapshotPending)
  }

  /** Some observation showed memory under pressure, each against the limit of the pod it was
      taken from. */
  ghost predicate AnyPressed(observations: seq<Observation>, polls: seq<Poll>, options: Options) {
    exists k | 0 <= k < |observations| && k < |polls| && polls[k].Polled? ::
      ShortOfMemory(observations[k], polls[k].pod.memoryLimit, options)
  }

  ghost predicate ShortOfMemory(o: Observation, limit: Option<nat>, options: Options) {
    && MemoryWorkingSetBytes in o && limit.Some? && limit.value > 0
    && o[MemoryWorkingSetBytes] / (limit.value as real) >= options.memoryPressureRatio
  }

  lemma OneMoreObservation(observations: seq<Observation>, o: Observation, polls: seq<Poll>, options: Options)
    requires |observations| < |polls| && polls[|observations|].Polled?
    ensures AnyBacklogged(observations + [o], options) ==
            (AnyBacklogged(observations, options) || Backlogged(o, options))
    ensures AnyPressed(observations + [o], polls, options) ==
            (AnyPressed(observations, polls, options) || Pressed(o, polls[|observations|].pod.memoryLimit, options))
  {
    var n, longer := |observations|, observations + [o];
    assert forall k | 0 <= k < n :: longer[k] == observations[k];
    if Backlogged(o, options) {
      assert Overloaded(longer[n], options);
    }
    if Pressed(o, polls[n].pod.memoryLimit, options) {
      assert ShortOfMemory(longer[n], polls[n].pod.memoryLimit, options);
    }
    if AnyBacklogged(observations, options) {
      var k :| 0 <= k < n && Overloaded(observations[k], options);
      assert Overloaded(longer[k], options);
    }
    if AnyPressed(observations, polls, options) {
      var k :| 0 <= k < n && polls[k].Polled? && ShortOfMemory(observations[k], polls[k].pod.memoryLimit, options);
      assert ShortOfMemory(longer[k], polls[k].pod.memoryLimit, options);
    }
  }

  ghost function Subjects(log: Log): (r: seq<Subject>)
    ensures |r| == |log|
  {
    seq(|log|, k requires 0 <= k < |log| => log[k].subject)
  }

  ghost predicate Covered(observations: seq<Observation>, metrics: seq<Metric>) {
    forall m, k | 0 <= m < |metrics| && 0 <= k < |observations| :: metrics[m] in observations[k]
  }

  /** The gates of these metrics. */
  function MetricGates(observations: seq<Observation>, metrics: seq<Metric>, limit: nat,
                       options: Options): (r: seq<Gate>)
    requires observations != [] && limit > 0 && Covered(observations, metrics)
    ensures |r| == |metrics|
    ensures forall m | 0 <= m < |metrics| :: r[m] == MetricGate(observations, metrics[m], limit, options)
  {
    seq(|metrics|, m requires 0 <= m < |metrics| => MetricGate(observations, metrics[m], limit, options))
  }

  ghost predicate RecordsGate(e: Event, gate: Gate) {
    e.subject == MetricGateEvaluated && e.payload.gate == Some(gate) && e.payload.completed == gate.passed
  }

  /** The log has gained one event for each of these gates, and perhaps more after them. */
  ghost predicate RecordedFirst(before: Log, after: Log, gates: seq<Gate>) {
    && |before| + |gates| <= |after| && before <= after
    && forall k | 0 <= k < |gates| :: RecordsGate(after[|before| + k], gates[k])
  }

  ghost predicate Recorded(before: Log, after: Log, gates: seq<Gate>) {
    RecordedFirst(before, after, gates) && |after| == |before| + |gates|
  }

  lemma RecordedOneMore(before: Log, middle: Log, after: Log, gates: seq<Gate>, gate: Gate)
    requires Recorded(before, middle, gates) && Recorded(middle, after, [gate])
    ensures Recorded(before, after, gates + [gate])
  {
    assert RecordsGate(after[|middle|], [gate][0]);
  }

  /** These gates, then the closing events. */
  ghost predicate ClosedAfter(before: Log, after: Log, gates: seq<Gate>) {
    RecordedFirst(before, after, gates) && |after| == |before| + |gates| + 2
  }

  lemma ClosedAfterGates(before: Log, gated: Log, after: Log, gates: seq<Gate>)
    requires Recorded(before, gated, gates) && gated <= after && |after| == |gated| + 2
    ensures ClosedAfter(before, after, gates)
  {
    forall k | 0 <= k < |gates|
      ensures RecordsGate(after[|before| + k], gates[k])
    {
      assert after[|before| + k] == gated[|before| + k];
    }
  }

  ghost predicate AllPassed(gates: seq<Gate>) {
    forall k | 0 <= k < |gates| :: gates[k].passed
  }

  lemma OneMorePassed(gates: seq<Gate>, gate: Gate)
    ensures AllPassed(gates + [gate]) == (AllPassed(gates) && gate.passed)
  {
    var longer := gates + [gate];
    assert longer[|gates|] == gate;
    if AllPassed(longer) {
      forall k | 0 <= k < |gates|
        ensures gates[k].passed
      {
        assert longer[k].passed;
      }
    }
  }

  lemma OneMoreGate(observations: seq<Observation>, metrics: seq<Metric>, n: nat, limit: nat, options: Options)
    requires observations != [] && limit > 0 && Covered(observations, metrics) && n < |metrics|
    ensures MetricGates(observations, metrics[..n + 1], limit, options) ==
            MetricGates(observations, metrics[..n], limit, options) +
                [MetricGate(observations, metrics[n], limit, options)]
  {
  }

  /** All gates pass exactly when every single observation passes every one of them. */
  lemma GatesDecide(observations: seq<Observation>, metrics: seq<Metric>, limit: nat, options: Options)
    requires observations != [] && limit > 0 && Covered(observations, metrics)
    ensures AllPassed(MetricGates(observations, metrics, limit, options)) <==>
            forall k, m | 0 <= k < |observations| && m in metrics :: Passes(m, observations[k][m], limit, options)
  {
    var gates := MetricGates(observations, metrics, limit, options);
    forall m | 0 <= m < |metrics|
      ensures gates[m].passed <==>
              forall k | 0 <= k < |observations| :: Passes(metrics[m], observations[k][metrics[m]], limit, options)
    {
      GateIsPerObservation(observations, metrics[m], limit, options);
    }
    if AllPassed(gates) {
      forall k, metric | 0 <= k < |observations| && metric in metrics
        ensures Passes(metric, observations[k][metric], limit, options)
      {
        var m :| 0 <= m < |metrics| && metrics[m] == metric;
        assert gates[m].passed;
      }
    } else {
      var m :| 0 <= m < |gates| && !gates[m].passed;
      var k :| 0 <= k < |observations| && !Passes(metrics[m], observations[k][metrics[m]], limit, options);
      assert metrics[m] in metrics;
    }
  }

  /** All gates pass exactly when every observation is within the nine limits. */
  lemma PassingWrittenOut(observations: seq<Observation>, limit: nat, options: Options)
    requires limit > 0 && Covered(observations, REQUIRED)
    ensures (forall k, m | 0 <= k < |observations| && m in REQUIRED :: Passes(m, observations[k][m], limit, options))
       <==> forall k | 0 <= k < |observations| :: WithinLimits(observations[k], limit, options)
  {
    forall k | 0 <= k < |observations|
      ensures Complete(observations[k])
      ensures WithinLimits(observations[k], limit, options) <==> MeetsThresholds(observations[k], limit, options)
    {
      assert forall m | m in REQUIRED :: m in observations[k] by {
        forall m | m in REQUIRED
          ensures m in observations[k]
        {
          var j :| 0 <= j < |REQUIRED| && REQUIRED[j] == m;
        }
      }
      LimitsWrittenOut(observations[k], limit, options);
    }
  }

  /** A gate under this name that keeps the greatest of some values at or below a bound. */
  ghost predicate Caps(gate: Gate, name: string, values: seq<real>, bound: real) {
    && gate.metricName == name && gate.comparator == AtMost && gate.threshold == Some(bound)
    && gate.observed.Some? && gate.observed.value in values
    && (forall v | v in values :: v <= gate.observed.value)
    && (gate.passed <==> gate.observed.value <= bound)
  }

  /** A gate under this name that keeps the least of some values at or above a bound. */
  ghost predicate Floors(gate: Gate, name: string, values: seq<real>, bound: real) {
    && gate.metricName == name && gate.comparator == AtLeast && gate.threshold == Some(bound)
    && gate.observed.Some? && gate.observed.value in values
    && (forall v | v in values :: gate.observed.value <= v)
    && (gate.passed <==> gate.observed.value >= bound)
  }

  /** One metric as a share of the memory limit, over all observations. */
  ghost function Shares(observations: seq<Observation>, limit: nat): seq<real>
    requires limit > 0 && forall k | 0 <= k < |observations| :: MemoryWorkingSetBytes in observations[k]
  {
    seq(|observations|, k requires 0 <= k < |observations| => observations[k][MemoryWorkingSetBytes] / (limit as real))
  }

  lemma CoversAll(observations: seq<Observation>)
    requires Covered(observations, REQUIRED)
    ensures forall m: Metric, k | 0 <= k < |observations| :: m in observations[k]
  {
    forall m: Metric, k | 0 <= k < |observations|
      ensures m in observations[k]
    {
      var j: nat := match m
        case SnapshotInflight => 0
        case SnapshotPending => 1
        case SnapshotWriteDurationSeconds => 2
        case SnapshotFailuresTotal => 3
        case SnapshotTimeoutsTotal => 4
        case SnapshotCircuitOpen => 5
        case SnapshotHandoffEnabled => 6
        case TickRate => 7
        case MemoryWorkingSetBytes => 8;
      assert REQUIRED[j] == m && REQUIRED[j] in observations[k];
    }
  }

  lemma MemoryGateWrittenOut(observations: seq<Observation>, limit: nat, o: Options)
    requires observations != [] && limit > 0
    requires forall k | 0 <= k < |observations| :: MemoryWorkingSetBytes in observations[k]
    ensures Caps(MetricGate(observations, MemoryWorkingSetBytes, limit, o), "canary_memory_working_set_ratio",
                 Shares(observations, limit), o.maxMemoryRatio)
  {
    var values, shares := Values(observations, MemoryWorkingSetBytes), Shares(observations, limit);
    var worst := Maximum(values);
    var j :| 0 <= j < |values| && values[j] == worst;
    assert shares[j] == worst / (limit as real);
    forall v | v in shares
      ensures v <= worst / (limit as real)
    {
      var k :| 0 <= k < |shares| && shares[k] == v;
      assert values[k] in values;
      ShareIsMonotone(values[k], worst, limit);
    }
  }

  /** What the gate of each metric is called, and what it holds the metric to. */
  ghost predicate Judges(gate: Gate, m: Metric, observations: seq<Observation>, limit: nat, o: Options)
    requires limit > 0 && forall k | 0 <= k < |observations| :: m in observations[k]
  {
    var values := Values(observations, m);
    match m
    case SnapshotInflight => Caps(gate, "game_snapshot_inflight", values, o.maxSnapshotInflight)
    case SnapshotPending => Caps(gate, "game_snapshot_pending", values, o.maxSnapshotPending)
    case SnapshotWriteDurationSeconds =>
      Caps(gate, "game_snapshot_write_duration_seconds", values, o.maxSnapshotWriteDurationSeconds)
    case SnapshotFailuresTotal => Caps(gate, "game_snapshot_failures_total", values, o.maxSnapshotFailuresTotal)
    case SnapshotTimeoutsTotal => Caps(gate, "game_snapshot_timeouts_total", values, o.maxSnapshotTimeoutsTotal)
    case SnapshotCircuitOpen => Caps(gate, "game_snapshot_circuit_open", values, 0.0)
    case SnapshotHandoffEnabled => Floors(gate, "game_snapshot_handoff_enabled", values, 1.0)
    case TickRate => Floors(gate, "game_tick_rate", values, o.minimumTickRate)
    case MemoryWorkingSetBytes =>
      Caps(gate, "canary_memory_working_set_ratio", Shares(observations, limit), o.maxMemoryRatio)
  }

  lemma GateWrittenOut(observations: seq<Observation>, m: Metric, limit: nat, o: Options)
    requires observations != [] && limit > 0 && forall k | 0 <= k < |observations| :: m in observations[k]
    ensures Judges(MetricGate(observations, m, limit, o), m, observations, limit, o)
  {
    if m == MemoryWorkingSetBytes {
      MemoryGateWrittenOut(observations, limit, o);
    }
  }

  /** The nine metrics, in the order their gates are recorded. */
  ghost function NineMetrics(): (r: seq<Metric>)
    ensures |r| == 9
  {
    [SnapshotInflight, SnapshotPending, SnapshotWriteDurationSeconds, SnapshotFailuresTotal, SnapshotTimeoutsTotal,
     SnapshotCircuitOpen, SnapshotHandoffEnabled, TickRate, MemoryWorkingSetBytes]
  }

  /** Nine gates, one for each metric. */
  ghost predicate JudgesAll(gates: seq<Gate>, observations: seq<Observation>, limit: nat, o: Options)
    requires limit > 0
  {
    && |gates| == 9
    && (forall m: Metric, k | 0 <= k < |observations| :: m in observations[k])
    && forall i | 0 <= i < 9 :: Judges(gates[i], NineMetrics()[i], observations, limit, o)
  }

  lemma GatesWrittenOut(observations: seq<Observation>, limit: nat, o: Options)
    requires observations != [] && limit > 0 && Covered(observations, REQUIRED)
    ensures JudgesAll(MetricGates(observations, REQUIRED, limit, o), observations, limit, o)
  {
    CoversAll(observations);
    assert REQUIRED == NineMetrics();
    forall i | 0 <= i < 9
      ensures Judges(MetricGates(observations, REQUIRED, limit, o)[i], NineMetrics()[i], observations, limit, o)
    {
      GateWrittenOut(observations, REQUIRED[i], limit, o);
    }
  }

  /** The gate of a pod that was ruled out under load. */
  function HaltGate(pod: Pod, digest: string, target: Target, policy: Policy): Gate {
    if pod.imageDigest != digest || !Isolated(pod, target, policy) then ISOLATION_GATE
    else if OomObserved(pod) then OOM_GATE
    else ReadinessGate(pod, AtLeast)
  }

  /** The gate of a pod that was not found ready in time; an OOM kill has its gate already. */
  function UnreadyGates(r: Readiness): seq<Gate> {
    match r
    case Ready(_, _) => []
    case OomKilled(_) => []
    case IsolationFailure(_) => [ISOLATION_GATE]
    case NotReady(latest, failed) =>
      if latest == None then [UnavailableGate("canary_readiness")]
      else [ReadinessGate(latest.value, if failed then Available else AtLeast)]
  }

  /** What is recorded about a pod that was ruled out under load. */
  lemma HaltWrittenOut(pod: Pod, digest: string, target: Target, policy: Policy)
    ensures HaltGate(pod, digest, target, policy) ==
            if pod.imageDigest != digest || !CutOff(pod, target, policy) then
              Gate("canary_isolation_policy", Some(0.0), Some(1.0), AtLeast, false)
            else if WasKilled(pod) then Gate("container_oom_killed", Some(1.0), Some(0.0), AtMost, false)
            else
              Gate("canary_readiness", Some(pod.readyReplicas as real), Some(pod.desiredReplicas as real), AtLeast,
                   false)
  {
    PodWrittenOut(pod, target, policy);
  }

  /** What is recorded about a pod that was not found ready in time, or isolated. */
  lemma UnreadyWrittenOut(r: Readiness)
    requires r.IsolationFailure? || r.NotReady?
    ensures UnreadyGates(r) ==
            [if r.IsolationFailure? then Gate("canary_isolation_policy", Some(0.0), Some(1.0), AtLeast, false)
             else if r.latest == None then Gate("canary_readiness", None, None, Available, false)
             else
               Gate("canary_readiness", Some(r.latest.value.readyReplicas as real),
                    Some(r.latest.value.desiredReplicas as real), if r.failed then Available else AtLeast, false)]
  {
  }

  lemma OneMoreSubject(log: Log, e: Event)
    ensures Subjects(log + [e]) == Subjects(log) + [e.subject]
  {
  }

  /** The events that report what was seen under load. */
  ghost function Notes(backlog: bool, pressure: bool, oom: bool): seq<Subject> {
    (if backlog then [SnapshotBacklogDetected] else []) + (if pressure then [MemoryPressureObserved] else [])
    + (if oom then [ContainerOOMKilled] else [])
  }

  /** The pod in question, isolated as it should be, was killed for memory. */
  predicate KilledUnderLoad(pod: Pod, digest: string, target: Target, policy: Policy) {
    pod.imageDigest == digest && Isolated(pod, target, policy) && OomObserved(pod)
  }

  /** The pod is of the image in question, cut off as it should be, and was killed for memory. */
  ghost predicate FoundKilled(pod: Pod, digest: string, target: Target, policy: Policy) {
    pod.imageDigest == digest && CutOff(pod, target, policy) && WasKilled(pod)
  }

  /** So many gates, the decision, the bundle. */
  ghost function Ending(gates: nat, approved: bool): seq<Subject> {
    seq(gates, _ => MetricGateEvaluated) +
    [if approved then PromotionApproved else PromotionBlocked, EvidenceBundleSealed]
  }

  /** Some poll found memory under pressure. */
  ghost predicate PressureSeen(polls: seq<Poll>, options: Options) {
    exists k | 0 <= k < |polls| && polls[k].Polled? && polls[k].scrape.Some? ::
      ShortOfMemory(polls[k].scrape.value, polls[k].pod.memoryLimit, options)
  }

  /** What an approved run reports once its load is announced. */
  ghost function Approving(polls: seq<Poll>, options: Options): seq<Subject> {
    (if PressureSeen(polls, options) then [MemoryPressureObserved] else []) + Ending(9, true)
  }

  /** The subjects of a run when nothing failed to publish. */
  ghost predicate Narrated(log: Log, approved: bool, s: Script, readiness: Readiness, options: Options) {
    && (approved ==>
          Subjects(log) == [CanaryScheduled, CanaryReady, ValidationLoadStarted] + Approving(s.polls, options))
    && (readiness.Ready? ==> [CanaryScheduled, CanaryReady] <= Subjects(log))
    && (readiness.Ready? && ValidLoad(s.load, options) ==>
          [CanaryScheduled, CanaryReady, ValidationLoadStarted] <= Subjects(log))
    && (readiness.OomKilled? ==>
          Subjects(log) == [CanaryScheduled, ContainerOOMKilled, MetricGateEvaluated] + Ending(0, false))
    && (!readiness.Ready? && !readiness.OomKilled? ==> Subjects(log) == [CanaryScheduled] + Ending(1, false))
  }

  /** Events that are neither a decision nor a seal. */
  ghost predicate Quiet(e: Event) {
    e.subject !in {PromotionApproved, PromotionBlocked, EvidenceBundleSealed}
  }

  /** A decision, and the bundle after it, name every event of the run before them. */
  ghost predicate EvidenceComplete(log: Log) {
    forall i, j | 0 <= i < j < |log| && !Quiet(log[j]) :: EventId(log[i].id) in log[j].payload.evidenceIds
  }

  lemma EvidenceOneMore(log: Log, e: Event, logged: bool)
    requires EvidenceComplete(log)
    requires !Quiet(e) ==> forall k | 0 <= k < |log| :: EventId(log[k].id) in e.payload.evidenceIds
    ensures EvidenceComplete(log + OneIf(e, logged))
  {
  }

  ghost predicate NothingDecided(log: Log) {
    forall e | e in log :: Quiet(e)
  }

  ghost predicate NeverApproved(log: Log) {
    forall e | e in log :: e.subject != PromotionApproved
  }

  /** A run's events when nothing failed to publish: quiet ones, the decision, and a bundle
      that contains the decision and repeats its digest. */
  ghost predicate Closed(log: Log, approved: bool, digest: Option<string>, complete: bool) {
    && |log| >= 2
    && NothingDecided(log[..|log| - 2])
    && (var d := log[|log| - 2];
        && d.subject == (if approved then PromotionApproved else PromotionBlocked)
        && d.payload.imageDigest == digest)
    && (var b := log[|log| - 1];
        && b.subject == EvidenceBundleSealed && b.payload.completed && b.payload.complete == complete
        && b.payload.imageDigest == digest && b.payload.bundleId == "bundle_" + b.operation
        && EventId(log[|log| - 2].id) in b.payload.evidenceIds)
  }

  /** A run's events whatever was answered: quiet ones, perhaps the decision, and only then
      perhaps the bundle. */
  ghost predicate Ended(log: Log, approved: bool, digest: Option<string>, complete: bool) {
    || NothingDecided(log)
    || (&& log != [] && NothingDecided(log[..|log| - 1])
        && log[|log| - 1].subject == (if approved then PromotionApproved else PromotionBlocked)
        && log[|log| - 1].payload.imageDigest == digest)
    || Closed(log, approved, digest, complete)
  }

  /** The log holds no approval, or one of this digest that only its own complete bundle follows. */
  ghost predicate MayProject(log: Log, digest: Option<string>) {
    NeverApproved(log) || Ended(log, true, digest, true)
  }

  /** Both the approval and a bundle reached the log. */
  ghost predicate ApprovalSealed(log: Log) {
    (exists e :: e in log && e.subject == PromotionApproved) &&
        (exists e :: e in log && e.subject == EvidenceBundleSealed)
  }

  lemma UnreadyIsNarrated(log: Log, s: Script, r: Readiness, options: Options)
    requires !r.Ready?
    requires Subjects(log) ==
             (if r.OomKilled? then [CanaryScheduled, ContainerOOMKilled, MetricGateEvaluated] else [CanaryScheduled])
             + Ending(if r.OomKilled? then 0 else 1, false)
    ensures Narrated(log, false, s, r, options)
  {
  }

  lemma LoadIsNarrated(log: Log, approved: bool, s: Script, r: Readiness, options: Options)
    requires r.Ready?
    requires [CanaryScheduled] + [CanaryReady] + (if ValidLoad(s.load, options) then [ValidationLoadStarted] else [])
             <= Subjects(log)
    requires approved ==>
               Subjects(log) ==
                   [CanaryScheduled] + [CanaryReady] + [ValidationLoadStarted] + Approving(s.polls, options)
    ensures Narrated(log, approved, s, r, options)
  {
    var two, three := [CanaryScheduled, CanaryReady], [CanaryScheduled, CanaryReady, ValidationLoadStarted];
    assert [CanaryScheduled] + [CanaryReady] == two && two + [ValidationLoadStarted] == three;
    assert two <= Subjects(log);
  }

  lemma ClosedSubjects(before: Log, after: Log, gates: seq<Gate>, approved: bool, digest: Option<string>,
                       complete: bool)
    requires ClosedAfter(before, after, gates) && Closed(after, approved, digest, complete)
    ensures Subjects(after) == Subjects(before) + Ending(|gates|, approved)
  {
    var n := |before| + |gates|;
    forall k | |before| <= k < n
      ensures after[k].subject == MetricGateEvaluated
    {
      assert RecordsGate(after[|before| + (k - |before|)], gates[k - |before|]);
    }
    assert Subjects(after)[..n] == Subjects(before) + seq(|gates|, _ => MetricGateEvaluated);
    assert Subjects(after) == Subjects(after)[..n] + [after[n].subject, after[n + 1].subject];
  }

  lemma SubjectsGrow(before: Log, after: Log)
    requires before <= after
    ensures Subjects(before) <= Subjects(after)
  {
  }

  lemma DecidedOnce(log: Log, approved: bool, digest: Option<string>, complete: bool)
    requires Closed(log, approved, digest, complete)
    ensures NeverApproved(log) <==> !approved
  {
    var n := |log| - 2;
    assert log[n] in log && log == log[..n] + [log[n], log[n + 1]];
  }

  lemma DecisionEnds(quiet: Log, d: Event, approved: bool, digest: Option<string>, complete: bool)
    requires NothingDecided(quiet)
    requires d.subject == (if approved then PromotionApproved else PromotionBlocked) && d.payload.imageDigest == digest
    ensures Ended(quiet + [d], approved, digest, complete) && !Closed(quiet + [d], approved, digest, complete)
    ensures !approved ==> NeverApproved(quiet + [d])
  {
    var log := quiet + [d];
    assert log[..|log| - 1] == quiet;
  }

  lemma QuietIsNotClosed(log: Log, approved: bool, digest: Option<string>, complete: bool)
    requires NothingDecided(log)
    ensures !Closed(log, approved, digest, complete)
  {
    assert log != [] ==> log[|log| - 1] in log;
  }

  lemma ClosedByBundle(quiet: Log, d: Event, b: Event, approved: bool, digest: Option<string>, complete: bool)
    requires NothingDecided(quiet)
    requires d.subject == (if approved then PromotionApproved else PromotionBlocked) && d.payload.imageDigest == digest
    requires b.subject == EvidenceBundleSealed && b.payload.completed && b.payload.complete == complete
    requires b.payload.imageDigest == digest && b.payload.bundleId == "bundle_" + b.operation
    requires EventId(d.id) in b.payload.evidenceIds
    ensures Closed(quiet + [d] + [b], approved, digest, complete)
    ensures !approved ==> NeverApproved(quiet + [d] + [b])
  {
    var log := quiet + [d] + [b];
    assert log[..|log| - 2] == quiet;
  }

  lemma {:induction false} QuietHasNoApproval(log: Log, revision: string)
    requires NeverApproved(log)
    ensures LastApproval(log, revision) == None
    decreases |log|
  {
    if log != [] {
      QuietHasNoApproval(log[..|log| - 1], revision);
    }
  }

  lemma LastOfClosing(quiet: Log, d: Event, b: Event, revision: string)
    requires NeverApproved(quiet) && b.subject != PromotionApproved
    ensures LastApproval(quiet + [d, b], revision) ==
            if d.subject == PromotionApproved && ForCanary(d, revision) then Some(d) else None
  {
    LastApprovalOfConcat(quiet, [d, b], revision);
    QuietHasNoApproval(quiet, revision);
    var pair, single := [d, b], [d];
    assert pair[..|pair| - 1] == single;
    assert LastApproval(pair, revision) == LastApproval(single, revision);
    assert single[..|single| - 1] == [];
    assert LastApproval([], revision) == None;
  }

  lemma ClosingQualifies(quiet: Log, d: Event, b: Event, revision: string)
    requires NothingDecided(quiet) && Increasing(quiet + [d, b])
    requires b.subject == EvidenceBundleSealed && ForCanary(d, revision) && ForCanary(b, revision)
    requires d.subject in {PromotionApproved, PromotionBlocked}
    ensures QualifySorted(quiet + [d, b], revision) ==
            if d.subject == PromotionApproved && SealsFor(b, revision) then Bind(b, d, revision) else None
  {
    var evs := quiet + [d, b];
    LastOfClosing(quiet, d, b, revision);
    assert evs[|quiet|] == d && evs[|quiet| + 1] == b;
    assert Mentions(evs, revision);
    assert !BlockedAfter(evs, d.sequence) by {
      forall k | 0 <= k < |evs| && evs[k].sequence > d.sequence
        ensures evs[k].subject != PromotionBlocked
      {
        assert k == |quiet| + 1;
      }
    }
  }

  /** The projection gives back exactly the decision: a closed run's log, however it is
      interleaved with other operations, amounts to an approval of the observed digest when the
      run approved, and to nothing when it blocked. */
  lemma ProjectionGivesBackDecision(log: Log, operation: string, revision: string, prior: Log, written: Log,
                                    approved: bool, digest: Option<string>, complete: bool)
    requires Ordered(log) && Of(log, operation) == prior + written
    requires NothingDecided(prior) && Closed(written, approved, digest, complete)
    requires forall e | e in written :: e.payload.room == "canary-room" && e.payload.revision == revision
    requires approved ==> complete && digest.Some? && WellFormedDigest(digest.value)
    ensures approved ==> Qualify(Of(log, operation), revision).Some?
    ensures approved ==> Qualify(Of(log, operation), revision).value.imageDigest == digest.value
    ensures approved ==> Qualify(Of(log, operation), revision).value.operation == operation
    ensures !approved ==> Qualify(Of(log, operation), revision) == None
  {
    var evs := Of(log, operation);
    var d, b := written[|written| - 2], written[|written| - 1];
    var quiet := prior + written[..|written| - 2];
    assert evs == quiet + [d, b];
    assert Increasing(evs) && Qualify(evs, revision) == QualifySorted(evs, revision) by {
      OfIncreasing(log, operation);
      SortedStays(evs);
    }
    assert b.operation == operation by {
      OfMembers(log, operation);
      assert evs[|quiet| + 1] == b;
    }
    assert d in written && b in written;
    ClosingQualifies(quiet, d, b, revision);
  }

  /** An operation whose log holds no approval event never projects to one. */
  lemma NoApprovalNoProjection(log: Log, operation: string, revision: string)
    requires Ordered(log) && NeverApproved(Of(log, operation))
    ensures Qualify(Of(log, operation), revision) == None
  {
    OfIncreasing(log, operation);
    SortedStays(Of(log, operation));
    QuietHasNoApproval(Of(log, operation), revision);
  }

  lemma UnsealedQualifiesNot(quiet: Log, d: Event, revision: string)
    requires d.subject != EvidenceBundleSealed
    ensures QualifySorted(quiet + [d], revision) == None
  {
  }

  lemma SealedOnlyIfClosed(written: Log, digest: Option<string>)
    requires MayProject(written, digest)
    ensures ApprovalSealed(written) <==> !NeverApproved(written) && Closed(written, true, digest, true)
  {
    if Closed(written, true, digest, true) {
      assert written[|written| - 2] in written && written[|written| - 1] in written;
    } else if !NeverApproved(written) {
      var n := |written| - 1;
      DecisionIsNoSeal(written[..n], written[n]);
      assert written == written[..n] + [written[n]];
    }
  }

  lemma DecisionIsNoSeal(quiet: Log, d: Event)
    requires NothingDecided(quiet) && d.subject != EvidenceBundleSealed
    ensures !ApprovalSealed(quiet + [d])
  {
  }

  /** The decision without its bundle amounts to nothing. */
  lemma UnsealedRunProjectsNot(log: Log, prior: Log, written: Log, operation: string, revision: string)
    requires Ordered(log) && Of(log, operation) == prior + written
    requires written != [] && written[|written| - 1].subject != EvidenceBundleSealed
    ensures Qualify(Of(log, operation), revision) == None
  {
    OfIncreasing(log, operation);
    SortedStays(Of(log, operation));
    SplitLast(prior, written);
    UnsealedQualifiesNot(prior + written[..|written| - 1], written[|written| - 1], revision);
  }

  lemma SplitLast(a: Log, b: Log)
    requires b != []
    ensures a + b == (a + b[..|b| - 1]) + [b[|b| - 1]]
  {
    assert b == b[..|b| - 1] + [b[|b| - 1]];
  }

  /** A run for one revision amounts to nothing for any other. */
  lemma OnlyForItsRevision(log: Log, prior: Log, written: Log, operation: string, revision: string)
    requires Of(log, operation) == prior + written && NothingDecided(prior)
    requires forall e | e in written :: e.payload.room == "canary-room" && e.payload.revision == revision
    ensures forall other | other != revision :: Qualify(Of(log, operation), other) == None
  {
    forall other | other != revision
      ensures Qualify(Of(log, operation), other) == None
    {
      ApprovalWrittenOut(log, operation, other);
      assert forall e | e in prior + written :: !Approves(e, other);
      if a: nat, b: nat :| SealedIn(log, a, b, operation, other) {
        SealedIsOwn(log, a, b, operation, other);
      }
    }
  }

  /** Whatever was answered to its publications, and however other operations' events are
      interleaved with its own, a run projects to an approval exactly when the approval and its
      bundle both reached the log, and then of the run's own digest. */
  lemma RunIsProjected(log: Log, prior: Log, written: Log, operation: string, revision: string, digest: Option<string>)
    requires Ordered(log) && Of(log, operation) == prior + written && NothingDecided(prior)
    requires forall e | e in written :: e.payload.room == "canary-room" && e.payload.revision == revision
    requires MayProject(written, digest) && (!NeverApproved(written) ==> digest.Some? && WellFormedDigest(digest.value))
    ensures var projected := Qualify(Of(log, operation), revision);
            && (projected.Some? <==> ApprovalSealed(written))
            && (projected.Some? ==> digest.Some? && projected.value.imageDigest == digest.value
                                    && projected.value.operation == operation)
    ensures forall other | other != revision :: Qualify(Of(log, operation), other) == None
  {
    OnlyForItsRevision(log, prior, written, operation, revision);
    SealedOnlyIfClosed(written, digest);
    if NeverApproved(written) {
      NeverApprovedTogether(prior, written);
      NoApprovalNoProjection(log, operation, revision);
    } else if Closed(written, true, digest, true) {
      ProjectionGivesBackDecision(log, operation, revision, prior, written, true, digest, true);
    } else {
      UnsealedRunProjectsNot(log, prior, written, operation, revision);
    }
  }

  lemma NeverApprovedTogether(a: Log, b: Log)
    requires NothingDecided(a) && NeverApproved(b)
    ensures NeverApproved(a + b)
  {
  }

  function SomeDigest(): (digest: string)
    ensures WellFormedDigest(digest)
  {
    "sha256:" + seq(64, _ => '0')
  }

  const APPROVAL := Event(1, PromotionApproved, "op", None, 1, 0,
                          Payload(CANARY_ROOM, "r1", true, Some(SomeDigest()), [], "", false, None))
  const BUNDLE := Event(2, EvidenceBundleSealed, "op", Some(1), 2, 0,
                        Payload(CANARY_ROOM, "r1", true, Some(SomeDigest()), [EventId(1)], "bundle_op", true, None))

  lemma ApprovalAloneIsNothing(d: Event, revision: string)
    requires d.subject == PromotionApproved
    ensures Qualify([d], revision) == None
  {
    SortedStays([d]);
    Unprefixed([d]);
    UnsealedQualifiesNot([], d, revision);
  }

  lemma SealedApprovalQualifies(d: Event, b: Event, revision: string)
    requires d.subject == PromotionApproved && SealsFor(b, revision) && ForCanary(d, revision) &&
               d.sequence < b.sequence
    requires Bind(b, d, revision).Some?
    ensures Qualify([d, b], revision).Some?
  {
    assert Increasing([d, b]);
    SortedStays([d, b]);
    Unprefixed([d, b]);
    ClosingQualifies([], d, b, revision);
  }

  /** A bundle that was accepted and reported failed: the validation throws, and the log it
      leaves projects to an approval all the same. */
  lemma AcceptedYetReportedFailed()
    ensures PersistOutcome([APPROVAL], [APPROVAL, BUNDLE], BUNDLE, false)
    ensures Qualify([APPROVAL], "r1") == None && Qualify([APPROVAL, BUNDLE], "r1").Some?
  {
    assert [APPROVAL, BUNDLE] == [APPROVAL] + [BUNDLE];
    ApprovalAloneIsNothing(APPROVAL, "r1");
    SealedApprovalQualifies(APPROVAL, BUNDLE, "r1");
  }

  lemma Unprefixed(log: Log)
    ensures [] + log == log
  {
  }

  // --- the loops, poll by poll -----------------------------------------------------------

  ghost predicate SameOutcome(polls: seq<Sighting>, k: nat, refused: nat, more: nat, w: Waiting, target: Target,
                              policy: Policy)
    requires k <= |polls|
  {
    AwaitReady(polls, Begin(refused + more), target, policy) ==
        AwaitReady(polls[k..], w.(unreported := more), target, policy)
  }

  /** The readiness loop, at poll k with refused reports behind it, still has the outcome it
      set out for, however many more reports are going to be refused. */
  ghost predicate PollsOn(polls: seq<Sighting>, k: nat, refused: nat, w: Waiting, target: Target, policy: Policy) {
    k <= |polls| && forall more: nat :: SameOutcome(polls, k, refused, more, w, target, policy)
  }

  lemma Unroll(polls: seq<Sighting>, k: nat, w: Waiting, target: Target, policy: Policy)
    requires k < |polls|
    ensures AwaitReady(polls[k..], w, target, policy) ==
            match LookAt(polls[k], w, target, policy) {
              case Stop(readiness) => readiness
              case Go(w') => AwaitReady(polls[k + 1..], w', target, policy)
            }
  {
    assert polls[k..][1..] == polls[k + 1..];
  }

  /** Reports that will be refused later do not matter to a poll that needs none now. */
  lemma MoreRefusals(s: Sighting, w: Waiting, more: nat, target: Target, policy: Policy)
    ensures LookAt(s, w, target, policy).Go? && !(s.Seen? && OomObserved(s.pod)) ==>
              LookAt(s, w.(unreported := more), target, policy)
              == Go(LookAt(s, w, target, policy).waiting.(unreported := more))
    ensures LookAt(s, w.(unreported := 1), target, policy).Go? && s.Seen? && OomObserved(s.pod) ==>
              LookAt(s, w.(unreported := more + 1), target, policy)
              == Go(LookAt(s, w.(unreported := 1), target, policy).waiting.(unreported := more))
  {
  }

  /** One more poll, of which the report was refused or not. */
  lemma PollsOnLook(polls: seq<Sighting>, k: nat, refused: nat, w: Waiting, now: bool, target: Target, policy: Policy)
    requires k < |polls| && w.unreported == 0 && PollsOn(polls, k, refused, w, target, policy)
    requires now ==>
               polls[k].Seen? && OomObserved(polls[k].pod) && LookAt(polls[k], w.(unreported := 1), target, policy).Go?
    ensures var look := LookAt(polls[k], w.(unreported := if now then 1 else 0), target, policy);
            match look {
              case Stop(readiness) => AwaitReady(polls, Begin(refused), target, policy) == readiness
              case Go(w') => PollsOn(polls, k + 1, if now then refused + 1 else refused, w', target, policy)
            }
  {
    var s := polls[k];
    var look := LookAt(s, w.(unreported := if now then 1 else 0), target, policy);
    if look.Stop? {
      assert SameOutcome(polls, k, refused, 0, w, target, policy);
      Unroll(polls, k, w, target, policy);
    } else {
      var refused', k' := if now then refused + 1 else refused, k + 1;
      forall more: nat
        ensures SameOutcome(polls, k', refused', more, look.waiting, target, policy)
      {
        var before := if now then more + 1 else more;
        assert SameOutcome(polls, k, refused, before, w, target, policy);
        Unroll(polls, k, w.(unreported := before), target, policy);
        MoreRefusals(s, w, more, target, policy);
      }
    }
  }

  /** What the metric polls leave behind: clean before and after, and not halted, exactly when
      every poll was good, and then one observation each. */
  ghost predicate Gathered(polls: seq<Poll>, observations: seq<Observation>, halted: bool, clean: bool, clean': bool,
                           latest: Option<Pod>, digest: string, target: Target, policy: Policy)
    requires |polls| >= 1
  {
    && ((!halted && clean') == (clean && forall k | 0 <= k < |polls| :: GoodPoll(polls[k], digest, target, policy)))
    && (!halted && clean' ==>
          && |observations| == |polls|
          && (forall k | 0 <= k < |polls| :: polls[k].scrape == Some(observations[k]))
          && latest == Some(polls[|polls| - 1].pod))
  }

  /** The latest pod is the one before the polls, or one of theirs. */
  ghost predicate KeptOrPolled(before: Option<Pod>, latest: Option<Pod>, polls: seq<Poll>) {
    latest == before || exists k :: 0 <= k < |polls| && polls[k].Polled? && latest == Some(polls[k].pod)
  }

  ghost predicate Judgeable(observations: seq<Observation>, latest: Option<Pod>) {
    && observations != [] && (forall k | 0 <= k < |observations| :: Complete(observations[k]))
    && latest.Some? && latest.value.memoryLimit.Some? && latest.value.memoryLimit.value > 0
  }

  ghost predicate AllWithin(observations: seq<Observation>, latest: Option<Pod>, options: Options) {
    Judgeable(observations, latest)
    && forall k | 0 <= k < |observations| :: MeetsThresholds(observations[k], latest.value.memoryLimit.value, options)
  }

  /** Something was measured, and every observation is within the nine limits, memory against
      the last limit observed. */
  ghost predicate AllWithinLimits(observations: seq<Observation>, latest: Option<Pod>, options: Options) {
    && observations != [] && latest.Some? && latest.value.memoryLimit.Some? && latest.value.memoryLimit.value > 0
    && forall k | 0 <= k < |observations| :: WithinLimits(observations[k], latest.value.memoryLimit.value, options)
  }

  lemma AllWithinWrittenOut(observations: seq<Observation>, latest: Option<Pod>, options: Options)
    ensures AllWithin(observations, latest, options) <==> AllWithinLimits(observations, latest, options)
  {
    if latest.Some? && latest.value.memoryLimit.Some? && latest.value.memoryLimit.value > 0 {
      var limit := latest.value.memoryLimit.value;
      forall k | 0 <= k < |observations|
        ensures Complete(observations[k]) && MeetsThresholds(observations[k], limit, options)
           <==> WithinLimits(observations[k], limit, options)
      {
        LimitsWrittenOut(observations[k], limit, options);
      }
    }
  }

  /** An approved run saw no backlog, and saw pressure exactly if one of its polls did. */
  lemma NotesOfApproved(polls: seq<Poll>, observations: seq<Observation>, latest: Option<Pod>, options: Options)
    requires |observations| == |polls| && AllWithinLimits(observations, latest, options)
    requires forall k | 0 <= k < |polls| :: polls[k].Polled? && polls[k].scrape == Some(observations[k])
    ensures Notes(AnyBacklogged(observations, options), AnyPressed(observations, polls, options), false)
            + Ending(9, true) == Approving(polls, options)
  {
    forall k | 0 <= k < |observations|
      ensures observations[k][SnapshotInflight] <= options.maxSnapshotInflight
      ensures observations[k][SnapshotPending] <= options.maxSnapshotPending
    {
      assert WithinLimits(observations[k], latest.value.memoryLimit.value, options);
    }
    assert AnyPressed(observations, polls, options) <==> PressureSeen(polls, options);
  }

  lemma ApprovedTells(told: seq<Subject>, polls: seq<Poll>, observations: seq<Observation>, latest: Option<Pod>,
                      digest: string, target: Target, policy: Policy, options: Options)
    requires |polls| >= 1 && AllWithinLimits(observations, latest, options)
    requires Gathered(polls, observations, false, true, true, latest, digest, target, policy)
    ensures told + Notes(AnyBacklogged(observations, options), AnyPressed(observations, polls, options), false)
            + Ending(9, true) == told + Approving(polls, options)
  {
    forall k | 0 <= k < |polls|
      ensures polls[k].Polled? && polls[k].scrape == Some(observations[k])
    {
      assert GoodPoll(polls[k], digest, target, policy);
    }
    NotesOfApproved(polls, observations, latest, options);
    var notes := Notes(AnyBacklogged(observations, options), AnyPressed(observations, polls, options), false);
    assert told + notes + Ending(9, true) == told + (notes + Ending(9, true));
  }

  lemma GatheredIsEarned(s: Script, observations: seq<Observation>, halted: bool, clean: bool, clean': bool,
                         latest: Option<Pod>, digest: string, target: Target, policy: Policy, o: Options)
    requires |s.polls| >= 1 && ValidLoad(s.load, o)
    requires Gathered(s.polls, observations, halted, clean, clean', latest, digest, target, policy)
    ensures !halted && clean' ==> Judgeable(observations, latest)
    ensures (!halted && clean' && s.cleanup && AllWithin(observations, latest, o)) <==>
            (clean && EarnedUnderLoad(s, digest, target, policy, o))
  {
    if !halted && clean' {
      forall k | 0 <= k < |s.polls|
        ensures Complete(observations[k]) && s.polls[k].scrape.value == observations[k]
      {
        assert GoodPoll(s.polls[k], digest, target, policy);
      }
      assert GoodPoll(s.polls[|s.polls| - 1], digest, target, policy);
    }
  }

  datatype Concern = Publishing | Tracking | Ownership | Collecting | Binding

  class CanaryValidationCoordinator {
    const publisher: OperationEventPublisher
    const options: Options
    const policy: Policy
    var activeOperation: Option<string>

    // the run in progress
    var target: Target
    var operation: string
    var evidenceIds: seq<EvidenceId>
    var unavailable: seq<Unavailable>
    var latestPod: Option<Pod>
    /** How many load starts returned a run, and how often the load runner was asked to stop. */
    var starts: nat
    var stops: nat
    /** The operation's events before this run, those the log has accepted from this run, and
        how many publishes were reported failed. */
    ghost var base: Log
    ghost var written: Log
    ghost var failures: nat

    ghost predicate Keeps(concern: Concern)
      reads `written, `base, `operation, `target, `evidenceIds, `failures, publisher, publisher.transport
    {
      match concern
      case Publishing =>
        && publisher.Valid() && publisher.Clear(operation)
        && Publishable(publisher.transport.accepted, publisher.sequenceByOperation, operation)
      case Tracking => Of(publisher.transport.accepted, operation) == base + written
      case Ownership => forall e | e in written ::
          e.operation == operation && e.payload.room == "canary-room" && e.payload.revision == target.revision
      case Collecting => failures == 0 ==> forall e | e in written :: EventId(e.id) in evidenceIds
      case Binding => failures == 0 ==> EvidenceComplete(written)
    }

    ghost predicate Valid()
      reads `written, `base, `operation, `target, `evidenceIds, `failures, publisher, publisher.transport
    {
      forall concern: Concern :: Keeps(concern)
    }

    constructor (publisher: OperationEventPublisher, options: Options, policy: Policy)
      ensures this.publisher == publisher && this.options == options && this.policy == policy
      ensures activeOperation == None
    {
      this.publisher, this.options, this.policy := publisher, options, policy;
      activeOperation, operation, evidenceIds, unavailable, latestPod, starts, stops := None, "", [], [], None, 0, 0;
      target := Target("", "", "");
      written, base, failures := [], [], 0;
    }

    /** Hands an event to the publisher. */
    method Send(subject: Subject, payload: Payload)
      returns (event: Option<Event>, ghost attempted: Event, ghost logged: bool)
      requires Keeps(Publishing) && Keeps(Tracking) && Keeps(Ownership)
      requires payload.room == CANARY_ROOM && payload.revision == target.revision
      modifies this`written, publisher, publisher.transport
      ensures Keeps(Publishing) && Keeps(Tracking) && Keeps(Ownership)
      ensures attempted.subject == subject && attempted.operation == operation && attempted.payload == payload
      ensures written == old(written) + OneIf(attempted, logged)
      ensures event.Some? ==> logged && event.value == attempted
    {
      var now: int := *;
      event, attempted, logged := publisher.Publish(operation, subject, payload, now);
      Associate(base, written, OneIf(attempted, logged));
      written := written + OneIf(attempted, logged);
    }

    /** attempted is the event handed to the log, which may hold it even if not ok. */
    method Publish(subject: Subject, payload: Payload) returns (ok: bool, ghost attempted: Event)
      requires Valid() && payload.room == CANARY_ROOM && payload.revision == target.revision
      requires subject in {PromotionApproved, PromotionBlocked, EvidenceBundleSealed} ==>
                 payload.evidenceIds == evidenceIds
      modifies this`evidenceIds, this`written, this`failures, publisher, publisher.transport
      ensures Valid() && failures == old(failures) + (if ok then 0 else 1)
      ensures attempted.subject == subject && attempted.operation == operation && attempted.payload == payload
      ensures written == old(written) + [attempted] || (!ok && written == old(written))
      ensures evidenceIds == old(evidenceIds) + (if ok then [EventId(attempted.id)] else [])
    {
      assert Keeps(Collecting) && Keeps(Binding);
      var event;
      ghost var logged;
      event, attempted, logged := Send(subject, payload);
      ok := event.Some?;
      evidenceIds := evidenceIds + (if ok then [EventId(event.value.id)] else []);
      failures := failures + (if ok then 0 else 1);
      if failures == 0 {
        EvidenceOneMore(old(written), attempted, logged);
      }
    }

    function Common(completed: bool): Payload
      reads `target
    {
      Payload(CANARY_ROOM, target.revision, completed, None, [], "", false, None)
    }

    /** A gate, evidence only. */
    method PublishGate(gate: Gate) returns (ok: bool)
      requires Valid() && NothingDecided(written)
      modifies this`evidenceIds, this`written, this`failures, publisher, publisher.transport
      ensures Valid() && NothingDecided(written) && failures == old(failures) + (if ok then 0 else 1)
      ensures ok ==> Recorded(old(written), written, [gate])
      ensures ok ==> Subjects(written) == Subjects(old(written)) + [MetricGateEvaluated]
      ensures ok ==>
                written != [] && written[|written| - 1].payload ==
                  Payload("canary-room", target.revision, gate.passed, None, [], "", false, Some(gate))
    {
      ghost var e;
      ok, e := Publish(MetricGateEvaluated, Common(gate.passed).(gate := Some(gate)));
      if ok {
        OneMoreSubject(old(written), e);
      }
    }

    method PublishNote(subject: Subject, completed: bool) returns (ok: bool)
      requires Valid() && NothingDecided(written)
      requires subject in {CanaryScheduled, CanaryReady, ValidationLoadStarted, SnapshotBacklogDetected,
                           MemoryPressureObserved, ContainerOOMKilled}
      modifies this`evidenceIds, this`written, this`failures, publisher, publisher.transport
      ensures Valid() && NothingDecided(written) && failures == old(failures) + (if ok then 0 else 1)
      ensures ok ==> Subjects(written) == Subjects(old(written)) + [subject]
      ensures ok ==>
                written != [] && written[|written| - 1].payload ==
                  Payload("canary-room", target.revision, completed, None, [], "", false, None)
    {
      ghost var e;
      ok, e := Publish(subject, Common(completed));
      if ok {
        OneMoreSubject(old(written), e);
      }
    }

    function LatestDigest(): Option<string>
      reads `latestPod
    {
      if latestPod.Some? then Some(latestPod.value.imageDigest) else None
    }

    /** The bundle that closes a run, once the decision is published. The run is closed exactly
        when the bundle reached the log, whether or not that was reported. */
    method Seal(approved: bool, ghost quiet: Log, ghost decision: Event) returns (ok: bool)
      requires Valid() && NothingDecided(quiet) && written == quiet + [decision]
      requires decision.subject == (if approved then PromotionApproved else PromotionBlocked)
      requires decision.payload.imageDigest == LatestDigest() && EventId(decision.id) in evidenceIds
      modifies this`evidenceIds, this`written, this`failures, publisher, publisher.transport
      ensures Valid() && failures == old(failures) + (if ok then 0 else 1)
      ensures old(written) <= written && |written| <= |old(written)| + 1 && (ok ==> written != old(written))
      ensures |written| == |old(written)| + 1 <==> Closed(written, approved, LatestDigest(), unavailable == [])
      ensures Ended(written, approved, LatestDigest(), unavailable == [])
      ensures !approved ==> NeverApproved(written)
    {
      ghost var bundle;
      ok, bundle := Publish(EvidenceBundleSealed,
                            Common(true).(imageDigest := LatestDigest(), evidenceIds := evidenceIds,
                                          bundleId := "bundle_" + operation, complete := unavailable == []));
      ClosedByBundle(quiet, decision, bundle, approved, LatestDigest(), unavailable == []);
      DecisionEnds(quiet, decision, approved, LatestDigest(), unavailable == []);
    }

    /** Publishes the decision, then the bundle that contains it. Whatever is reported, the run
        is closed exactly when both reached the log. */
    method Finalize(approved: bool) returns (v: Validation)
      requires Valid() && NothingDecided(written)
      modifies this`evidenceIds, this`written, this`failures, publisher, publisher.transport
      ensures Valid() && failures >= old(failures)
      ensures !approved ==> NeverApproved(written)
      ensures v == if failures == old(failures) then Decided(approved, LatestDigest()) else PublishError
      ensures old(written) <= written && |written| <= |old(written)| + 2
      ensures |written| == |old(written)| + 2 <==> Closed(written, approved, LatestDigest(), unavailable == [])
      ensures Ended(written, approved, LatestDigest(), unavailable == [])
      ensures v.Decided? ==> Closed(written, approved, LatestDigest(), unavailable == [])
      ensures v.Decided? ==>
                var decision := written[|written| - 2].payload;
                decision.completed == approved && !decision.complete && decision.bundleId == ""
    {
      ghost var quiet := written;
      var ok, decision := Publish(if approved then PromotionApproved else PromotionBlocked,
                                  Common(approved).(imageDigest := LatestDigest(), evidenceIds := evidenceIds));
      if !ok {
        if written == quiet {
          QuietIsNotClosed(quiet, approved, LatestDigest(), unavailable == []);
        } else {
          DecisionEnds(quiet, decision, approved, LatestDigest(), unavailable == []);
        }
        return PublishError;
      }
      ok := Seal(approved, quiet, decision);
      v := if ok then Decided(approved, LatestDigest()) else PublishError;
    }

    /** Gives up without approval: one gate, then the closing events. */
    method Block(gate: Gate) returns (v: Validation)
      requires Valid() && NothingDecided(written)
      modifies this`evidenceIds, this`written, this`failures, publisher, publisher.transport
      ensures Valid() && failures >= old(failures) && NeverApproved(written)
      ensures v == if failures == old(failures) then Decided(false, LatestDigest()) else PublishError
      ensures v.Decided? ==>
                Closed(written, false, LatestDigest(), unavailable == []) && ClosedAfter(old(written), written, [gate])
    {
      var ok := PublishGate(gate);
      if !ok {
        return PublishError;
      }
      ghost var gated := written;
      v := Finalize(false);
      if v.Decided? {
        ClosedAfterGates(old(written), gated, written, [gate]);
      }
    }

    /** The report of an OOM kill met while waiting: its gate is published only if the note was. */
    method ReportOomKill() returns (ok: bool)
      requires Valid() && NothingDecided(written)
      modifies this`evidenceIds, this`written, this`failures, publisher, publisher.transport
      ensures Valid() && NothingDecided(written) && failures == old(failures) + (if ok then 0 else 1)
      ensures ok ==> Subjects(written) == Subjects(old(written)) + [ContainerOOMKilled, MetricGateEvaluated]
      ensures ok ==>
                written != [] && RecordsGate(written[|written| - 1],
                                             Gate("container_oom_killed", Some(1.0), Some(0.0), AtMost, false))
    {
      ok := PublishNote(ContainerOOMKilled, false);
      if ok {
        ghost var noted := written;
        ok := PublishGate(OOM_GATE);
        assert ok ==> RecordsGate(written[|noted| + 0], [OOM_GATE][0]);
      }
    }

    /** Gives up because something was not to be had. */
    method BlockFor(reason: Unavailable, gate: Gate) returns (v: Validation)
      requires Valid() && NothingDecided(written)
      modifies this`unavailable, this`evidenceIds, this`written, this`failures, publisher, publisher.transport
      ensures Valid() && failures >= old(failures) && NeverApproved(written)
      ensures v == if failures == old(failures) then Decided(false, LatestDigest()) else PublishError
      ensures v.Decided? ==>
                Closed(written, false, LatestDigest(), unavailable == []) && ClosedAfter(old(written), written, [gate])
      ensures unavailable == old(unavailable) + [reason]
    {
      unavailable := unavailable + [reason];
      v := Block(gate);
    }

    /** One readiness poll; refused says that an OOM kill was met and its report not published. */
    method PollReadiness(s: Sighting, failed: bool) returns (look: Look, refused: bool)
      requires Valid() && NothingDecided(written)
      modifies this`latestPod, this`unavailable, this`evidenceIds, this`written, this`failures
      modifies publisher, publisher.transport
      ensures Valid() && NothingDecided(written) && failures == old(failures) + (if refused then 1 else 0)
      ensures look == LookAt(s, Waiting(old(latestPod), failed, if refused then 1 else 0, old(unavailable) != []),
                target, policy)
      ensures look.Go? ==> look.waiting == Waiting(latestPod, look.waiting.failed, 0, unavailable != [])
      ensures look.Stop? && look.readiness.Ready? ==>
                latestPod == Some(look.readiness.pod) && unavailable == old(unavailable)
                && look.readiness.flawed == (unavailable != [])
      ensures latestPod == old(latestPod) || (s.Seen? && latestPod == Some(s.pod))
      ensures refused ==> look.Go? && s.Seen? && OomObserved(s.pod)
      ensures !refused && !(look.Stop? && look.readiness.OomKilled?) ==> written == old(written)
      ensures look.Stop? && look.readiness.OomKilled? ==>
                Subjects(written) == Subjects(old(written)) + [ContainerOOMKilled, MetricGateEvaluated]
    {
      refused := false;
      if s.DeadlinePassed? {
        return Stop(NotReady(latestPod, failed)), false;
      }
      if s.Unobserved? {
        return Go(Waiting(latestPod, true, 0, unavailable != [])), false;
      }
      var pod := s.pod;
      var digest := LatestDigest();
      latestPod := Some(pod);
      if digest.Some? && pod.imageDigest != digest.value {
        return Stop(IsolationFailure(pod)), false;
      }
      if !Isolated(pod, target, policy) {
        return Stop(IsolationFailure(pod)), false;
      }
      if !OomObserved(pod) {
        look := if PodReady(pod) then Stop(Ready(pod, unavailable != []))
                else Go(Waiting(latestPod, false, 0, unavailable != []));
        return;
      }
      unavailable := unavailable + (if pod.oomEventFound then [] else [OomEventUidMissing]);
      var reported := ReportOomKill();
      refused := !reported;
      look := if reported then Stop(OomKilled(pod)) else Go(Waiting(latestPod, true, 0, unavailable != []));
    }

    /** Polls until the pod is ready, the deadline passes, or something rules it out. refused
        counts the OOM reports that could not be published. */
    method AwaitReadiness(polls: seq<Sighting>) returns (r: Readiness, ghost refused: nat)
      requires Valid() && NothingDecided(written) && latestPod == None && unavailable == []
      modifies this`latestPod, this`unavailable, this`evidenceIds, this`written, this`failures
      modifies publisher, publisher.transport
      ensures Valid() && NothingDecided(written) && failures == old(failures) + refused
      ensures r == AwaitReady(polls, Begin(refused), target, policy)
      ensures r.Ready? ==> latestPod == Some(r.pod) && r.flawed == (unavailable != [])
      ensures latestPod.Some? ==> Seen(latestPod.value) in polls
      ensures refused == 0 && !r.OomKilled? ==> written == old(written)
      ensures refused == 0 && r.OomKilled? ==>
                Subjects(written) == Subjects(old(written)) + [ContainerOOMKilled, MetricGateEvaluated]
    {
      var k, failed := 0, false;
      refused := 0;
      while k < |polls|
        invariant 0 <= k <= |polls|
        invariant Valid() && NothingDecided(written) && failures == old(failures) + refused
        invariant PollsOn(polls, k, refused, Waiting(latestPod, failed, 0, unavailable != []), target, policy)
        invariant latestPod.Some? ==> Seen(latestPod.value) in polls
        invariant refused == 0 ==> written == old(written)
      {
        ghost var before := Waiting(latestPod, failed, 0, unavailable != []);
        var look, now := PollReadiness(polls[k], failed);
        PollsOnLook(polls, k, refused, before, now, target, policy);
        if look.Stop? {
          return look.readiness, refused;
        }
        failed := look.waiting.failed;
        refused := if now then refused + 1 else refused;
        k := k + 1;
      }
      assert SameOutcome(polls, k, refused, 0, Waiting(latestPod, failed, 0, unavailable != []), target, policy);
      return NotReady(latestPod, failed), refused;
    }

    /** What an observation lacks. */
    method NoteGaps(o: Observation, pod: Pod)
      modifies this`unavailable
      ensures (unavailable == []) ==
              (old(unavailable) == [] && Complete(o) && pod.memoryLimit.Some? && pod.memoryLimit.value > 0)
    {
      MissingIsExact(o, REQUIRED);
      unavailable := unavailable + Reasons(Missing(o));
      if pod.memoryLimit == None || pod.memoryLimit.value == 0 {
        unavailable := unavailable + [MemoryLimitMissing];
      }
    }

    /** One validation poll: an observation, or the reason to stop. */
    method PollOnce(p: Poll, digest: string) returns (observation: Option<Observation>, halted: bool, oom: bool)
      modifies this`latestPod, this`unavailable
      ensures latestPod == if p.Polled? then Some(p.pod) else old(latestPod)
      ensures halted <==> p.Polled? && !StillSound(p.pod, digest, target, policy)
      ensures oom <==> halted && FoundKilled(p.pod, digest, target, policy)
      ensures observation == if p.Polled? && !halted then p.scrape else None
      ensures (!halted && unavailable == []) == (old(unavailable) == [] && GoodPoll(p, digest, target, policy))
      // an OOM kill without its Kubernetes event is evidence missing
      ensures oom ==> unavailable == old(unavailable) + if p.pod.oomEventFound then [] else [OomEventUidMissing]
    {
      observation, halted, oom := None, false, false;
      if p.PodUnobserved? {
        unavailable := unavailable + [ObservationUnavailable];
        return;
      }
      latestPod := Some(p.pod);
      PodWrittenOut(p.pod, target, policy);
      if !StillSound(p.pod, digest, target, policy) {
        halted := true;
        oom := KilledUnderLoad(p.pod, digest, target, policy);
        unavailable := unavailable + (if oom && !p.pod.oomEventFound then [OomEventUidMissing] else []);
        return;
      }
      if p.scrape == None {
        unavailable := unavailable + [ObservationUnavailable];
        return;
      }
      NoteGaps(p.scrape.value, p.pod);
      observation := p.scrape;
    }

    /** The validation polls; halted says one of them ruled the pod out. */
    method PollMetrics(polls: seq<Poll>, digest: string)
      returns (observations: seq<Observation>, halted: bool, oom: bool, backlog: bool, pressure: bool)
      requires latestPod.Some? && |polls| >= 1
      modifies this`latestPod, this`unavailable
      ensures latestPod.Some?
      ensures Gathered(polls, observations, halted, old(unavailable) == [], unavailable == [], latestPod,
                       digest, target, policy)
      ensures KeptOrPolled(old(latestPod), latestPod, polls)
      ensures backlog == AnyBacklogged(observations, options) && pressure == AnyPressed(observations, polls, options)
      ensures oom <==> halted && FoundKilled(latestPod.value, digest, target, policy)
      ensures oom && !latestPod.value.oomEventFound ==> unavailable != []
    {
      observations, halted, oom, backlog, pressure := [], false, false, false, false;
      var k := 0;
      while k < |polls|
        invariant 0 <= k <= |polls| && |observations| == k && latestPod.Some? && !halted && !oom
        invariant forall j | 0 <= j < k :: polls[j].Polled? && polls[j].scrape == Some(observations[j])
        invariant latestPod == if k == 0 then old(latestPod) else Some(polls[k - 1].pod)
        invariant backlog == AnyBacklogged(observations, options) &&
                    pressure == AnyPressed(observations, polls, options)
        invariant (unavailable == []) ==
                  (old(unavailable) == [] && forall j | 0 <= j < k :: GoodPoll(polls[j], digest, target, policy))
      {
        var observation;
        observation, halted, oom := PollOnce(polls[k], digest);
        if observation == None {
          return;
        }
        var o := observation.value;
        OneMoreObservation(observations, o, polls, options);
        observations := observations + [o];
        backlog := backlog || Backlogged(o, options);
        pressure := pressure || Pressed(o, polls[k].pod.memoryLimit, options);
        k := k + 1;
      }
    }

    /** Judges the worst of every metric, publishing one gate each with its own verdict. */
    method JudgeMetrics(observations: seq<Observation>, limit: nat) returns (published: bool, passed: bool)
      requires Valid() && NothingDecided(written)
      requires observations != [] && limit > 0 && Covered(observations, REQUIRED)
      modifies this`evidenceIds, this`written, this`failures, publisher, publisher.transport
      ensures Valid() && NothingDecided(written)
      ensures failures >= old(failures) && (published <==> failures == old(failures))
      ensures published ==>
                (passed <==>
                   forall k, m | 0 <= k < |observations| && m in REQUIRED ::
                     Passes(m, observations[k][m], limit, options))
      ensures published ==> Recorded(old(written), written, MetricGates(observations, REQUIRED, limit, options))
      ensures published ==>
                (passed <==> forall k | 0 <= k < |observations| :: WithinLimits(observations[k], limit, options))
    {
      published, passed := true, true;
      var metrics, m := REQUIRED, 0;
      ghost var gates := [];
      while m < |metrics|
        invariant 0 <= m <= |metrics| && metrics == REQUIRED
        invariant Valid() && NothingDecided(written) && failures == old(failures)
        invariant gates == MetricGates(observations, metrics[..m], limit, options)
        invariant passed == AllPassed(gates) && Recorded(old(written), written, gates)
      {
        var gate := MetricGate(observations, metrics[m], limit, options);
        ghost var middle := written;
        OneMoreGate(observations, metrics, m, limit, options);
        OneMorePassed(gates, gate);
        passed := passed && gate.passed;
        published := PublishGate(gate);
        if !published {
          return;
        }
        RecordedOneMore(old(written), middle, written, gates, gate);
        gates := gates + [gate];
        m := m + 1;
      }
      assert metrics[..m] == metrics;
      GatesDecide(observations, metrics, limit, options);
      PassingWrittenOut(observations, limit, options);
    }

    /** Asks the load runner for a run; an answer has to be cleaned up, valid or not. */
    method StartLoad(load: LoadStart) returns (valid: bool)
      requires Valid()
      modifies this`starts, this`evidenceIds
      ensures Valid() && evidenceIds == old(evidenceIds) + (if valid && load.LoadStarted? then load.evidence else [])
      ensures starts == old(starts) + (if load.LoadStarted? then 1 else 0)
      ensures valid <==> ValidLoad(load, options)
    {
      if load.LoadStarted? {
        starts := starts + 1;
      }
      valid := ValidLoad(load, options);
      if valid {
        evidenceIds := evidenceIds + load.evidence;
      }
      assert old(Keeps(Publishing) && Keeps(Tracking) && Keeps(Ownership) && Keeps(Collecting) && Keeps(Binding));
    }

    /** The load runner is asked to stop; whether it managed to is its answer. */
    method StopLoad()
      modifies this`stops
      ensures stops == old(stops) + 1
    {
      stops := stops + 1;
    }

    method PublishNoteIf(seen: bool, subject: Subject) returns (ok: bool)
      requires Valid() && NothingDecided(written)
      requires subject in {SnapshotBacklogDetected, MemoryPressureObserved, ContainerOOMKilled}
      modifies this`evidenceIds, this`written, this`failures, publisher, publisher.transport
      ensures Valid() && NothingDecided(written) && failures == old(failures) + (if ok then 0 else 1)
      ensures ok ==> Subjects(written) == Subjects(old(written)) + (if seen then [subject] else [])
    {
      ok := true;
      if seen {
        ok := PublishNote(subject, false);
      }
    }

    /** What was seen under load, in this order, up to the first refusal. */
    method PublishNotes(backlog: bool, pressure: bool, oom: bool) returns (ok: bool)
      requires Valid() && NothingDecided(written)
      modifies this`evidenceIds, this`written, this`failures, publisher, publisher.transport
      ensures Valid() && NothingDecided(written) && failures >= old(failures) && (ok <==> failures == old(failures))
      ensures ok ==> Subjects(written) == Subjects(old(written)) + Notes(backlog, pressure, oom)
    {
      ok := PublishNoteIf(backlog, SnapshotBacklogDetected);
      if ok {
        ok := PublishNoteIf(pressure, MemoryPressureObserved);
      }
      if ok {
        ok := PublishNoteIf(oom, ContainerOOMKilled);
      }
    }

    /** The polls and what is published about them, up to the point where cleanup is due. */
    method Observe(polls: seq<Poll>, digest: string)
      returns (published: bool, observations: seq<Observation>, halted: bool)
      requires Valid() && NothingDecided(written) && latestPod.Some? && |polls| >= 1
      modifies this`evidenceIds, this`written, this`failures, this`latestPod, this`unavailable, publisher,
                 publisher.transport
      ensures Valid() && NothingDecided(written) && latestPod.Some?
      ensures failures >= old(failures) && (published <==> failures == old(failures))
      ensures Gathered(polls, observations, halted, old(unavailable) == [], unavailable == [], latestPod,
                       digest, target, policy)
      ensures KeptOrPolled(old(latestPod), latestPod, polls)
      ensures published ==>
                Subjects(written) == Subjects(old(written)) + Notes(AnyBacklogged(observations, options),
                  AnyPressed(observations, polls, options),
                  halted && FoundKilled(latestPod.value, digest, target, policy))
      ensures halted && FoundKilled(latestPod.value, digest, target, policy) && !latestPod.value.oomEventFound ==>
                unavailable != []
    {
      var oom, backlog, pressure;
      observations, halted, oom, backlog, pressure := PollMetrics(polls, digest);
      published := PublishNotes(backlog, pressure, oom);
    }

    /** From cleaned-up observations to the decision. */
    method Decide(observations: seq<Observation>, halted: bool, digest: string) returns (v: Validation)
      requires Valid() && NothingDecided(written) && latestPod.Some?
      requires !halted && unavailable == [] ==> Judgeable(observations, latestPod)
      modifies this`evidenceIds, this`written, this`failures, publisher, publisher.transport
      ensures Valid() && failures >= old(failures)
      ensures v.PublishError? || v.Decided?
      ensures v.Decided? <==> failures == old(failures)
      ensures v.Decided? ==>
                v.imageDigest == LatestDigest() && Closed(written, v.approved, v.imageDigest, unavailable == [])
      ensures v.Decided? && v.approved ==> unavailable == []
      ensures v.Decided? ==>
                (v.approved <==> !halted && unavailable == [] && AllWithin(observations, latestPod, options))
      ensures !NeverApproved(written) ==> !halted && unavailable == [] && AllWithin(observations, latestPod, options)
      ensures MayProject(written, LatestDigest())
      ensures v.Decided? ==>
                ClosedAfter(old(written), written,
                  if halted then [HaltGate(latestPod.value, digest, target, policy)]
                  else if unavailable != [] then [UnavailableGate("metrics_availability")]
                  else MetricGates(observations, REQUIRED, latestPod.value.memoryLimit.value, options))
      ensures v.Decided? ==>
                (v.approved <==> !halted && unavailable == [] && AllWithinLimits(observations, latestPod, options))
      ensures v.Decided? && !halted && unavailable == [] ==>
                var limit := latestPod.value.memoryLimit.value;
                exists gates :: JudgesAll(gates, observations, limit, options) &&
                    ClosedAfter(old(written), written, gates)
      ensures v.Decided? ==>
                Subjects(written) ==
                    Subjects(old(written)) + Ending(if halted || unavailable != [] then 1 else 9, v.approved)
    {
      if halted {
        var gate := HaltGate(latestPod.value, digest, target, policy);
        v := Block(gate);
        if v.Decided? {
          ClosedSubjects(old(written), written, [gate], false, LatestDigest(), unavailable == []);
        }
        return;
      }
      if unavailable != [] {
        var gate := UnavailableGate("metrics_availability");
        v := Block(gate);
        if v.Decided? {
          ClosedSubjects(old(written), written, [gate], false, LatestDigest(), unavailable == []);
        }
        return;
      }
      var published, passed := JudgeMetrics(observations, latestPod.value.memoryLimit.value);
      AllWithinWrittenOut(observations, latestPod, options);
      GatesWrittenOut(observations, latestPod.value.memoryLimit.value, options);
      if !published {
        return PublishError;
      }
      ghost var gated := written;
      v := Finalize(passed);
      if v.Decided? {
        ghost var gates := MetricGates(observations, REQUIRED, latestPod.value.memoryLimit.value, options);
        ClosedAfterGates(old(written), gated, written, gates);
        ClosedSubjects(old(written), written, gates, passed, LatestDigest(), unavailable == []);
      }
    }

    /** What follows the polls: cleanup, then the decision. */
    method Conclude(s: Script, digest: string, observations: seq<Observation>, halted: bool, ghost clean: bool,
                    ghost told: seq<Subject>)
      returns (v: Validation)
      requires Valid() && NothingDecided(written) && latestPod.Some? && |s.polls| >= 1 && ValidLoad(s.load, options)
      requires Gathered(s.polls, observations, halted, clean, unavailable == [], latestPod, digest, target, policy)
      requires Subjects(written) == told + Notes(AnyBacklogged(observations, options),
                 AnyPressed(observations, s.polls, options),
                 halted && FoundKilled(latestPod.value, digest, target, policy))
      modifies this`evidenceIds, this`written, this`failures, this`unavailable, this`stops, publisher,
                 publisher.transport
      ensures Valid() && failures >= old(failures) && stops == old(stops) + 1
      ensures v.PublishError? || v.Decided?
      ensures v.Decided? <==> failures == old(failures)
      ensures v.Decided? ==>
                v.imageDigest == LatestDigest() && Closed(written, v.approved, v.imageDigest, unavailable == [])
      ensures v.Decided? && v.approved ==> unavailable == []
      ensures v.Decided? ==> (v.approved <==> clean && EarnedUnderLoad(s, digest, target, policy, options))
      ensures !NeverApproved(written) ==> clean && EarnedUnderLoad(s, digest, target, policy, options)
      ensures MayProject(written, LatestDigest())
      ensures v.Decided? ==> Subjects(old(written)) <= Subjects(written)
      ensures v.Decided? && v.approved ==> Subjects(written) == told + Approving(s.polls, options)
      ensures !NeverApproved(written) ==> latestPod == Some(s.polls[|s.polls| - 1].pod)
    {
      StopLoad();
      GatheredIsEarned(s, observations, halted, clean, unavailable == [], latestPod, digest, target, policy, options);
      if !s.cleanup {
        unavailable := unavailable + [CleanupUnavailable];
      }
      if clean && !halted && unavailable == [] && AllWithinLimits(observations, latestPod, options) {
        ApprovedTells(told, s.polls, observations, latestPod, digest, target, policy, options);
      }
      v := Decide(observations, halted, digest);
    }

    /** What the load came to, for a run that was clean before it and had so many failures. */
    ghost predicate Loaded(v: Validation, s: Script, digest: string, clean: bool, before: nat)
      requires |s.polls| >= 1
      reads `failures, `written, `target, `unavailable, `latestPod
    {
      && (v.PublishError? || v.Decided?)
      && (v.PublishError? ==> failures > before)
      && (v.Decided? ==>
          v.imageDigest == LatestDigest() && Closed(written, v.approved, v.imageDigest, unavailable == []))
      && (v.Decided? && v.approved ==> unavailable == [])
      && (v.Decided? && failures == before ==>
          v.approved == (clean && EarnedUnderLoad(s, digest, target, policy, options)))
      && (!NeverApproved(written) ==> clean && EarnedUnderLoad(s, digest, target, policy, options))
      && (!NeverApproved(written) ==> latestPod == Some(s.polls[|s.polls| - 1].pod))
      && MayProject(written, LatestDigest())
    }

    /** The announced load: polls, cleanup, decision. */
    method RunLoad(s: Script, digest: string) returns (v: Validation)
      requires Valid() && NothingDecided(written) && latestPod.Some? && |s.polls| >= 1 && ValidLoad(s.load, options)
      modifies this`evidenceIds, this`written, this`failures, this`latestPod, this`unavailable, this`stops
      modifies publisher, publisher.transport
      ensures Valid() && failures >= old(failures) && stops == old(stops) + 1
      ensures v.PublishError? || v.Decided?
      ensures v.Decided? <==> failures == old(failures)
      ensures v.Decided? ==>
                v.imageDigest == LatestDigest() && Closed(written, v.approved, v.imageDigest, unavailable == [])
      ensures v.Decided? && v.approved ==> unavailable == []
      ensures v.Decided? ==>
                v.approved == (old(unavailable) == [] && EarnedUnderLoad(s, digest, target, policy, options))
      ensures !NeverApproved(written) ==> old(unavailable) == [] && EarnedUnderLoad(s, digest, target, policy, options)
      ensures KeptOrPolled(old(latestPod), latestPod, s.polls)
      ensures MayProject(written, LatestDigest())
      ensures v.Decided? ==> Subjects(old(written)) <= Subjects(written)
      ensures v.Decided? && v.approved ==>
                Subjects(written) == Subjects(old(written)) + Approving(s.polls, options)
      ensures !NeverApproved(written) ==> latestPod == Some(s.polls[|s.polls| - 1].pod)
    {
      ghost var clean := unavailable == [];
      var published, observations, halted := Observe(s.polls, digest);
      if !published {
        StopLoad();
        return PublishError;
      }
      v := Conclude(s, digest, observations, halted, clean, Subjects(old(written)));
    }

    /** Everything after a load start returned: the announcement, whose failure counts as the
        load's, then the load. However it ends, the load was stopped once. */
    method UnderLoad(s: Script, digest: string, valid: bool) returns (v: Validation)
      requires Valid() && NothingDecided(written) && latestPod.Some? && |s.polls| >= 1
      requires valid == ValidLoad(s.load, options)
      modifies this`evidenceIds, this`written, this`failures, this`latestPod, this`unavailable, this`stops
      modifies publisher, publisher.transport
      ensures Valid() && failures >= old(failures) && stops == old(stops) + 1
      ensures Loaded(v, s, digest, old(unavailable) == [], old(failures))
      ensures KeptOrPolled(old(latestPod), latestPod, s.polls)
      ensures v.Decided? && failures == old(failures) ==>
                Subjects(old(written)) + (if valid then [ValidationLoadStarted] else []) <= Subjects(written)
      ensures v.Decided? && failures == old(failures) && v.approved ==>
                Subjects(written) == Subjects(old(written)) + [ValidationLoadStarted] + Approving(s.polls, options)
    {
      var announced := valid;
      if valid {
        announced := PublishNote(ValidationLoadStarted, false);
      }
      if announced {
        v := RunLoad(s, digest);
        return;
      }
      v := BlockFor(LoadUnavailable, UnavailableGate("validation_load"));
      if v.Decided? && !valid {
        SubjectsGrow(old(written), written);
      }
      StopLoad();
    }

    /** The load start, and the load if there is one. */
    method StartAndRun(s: Script, digest: string) returns (v: Validation)
      requires Valid() && NothingDecided(written) && latestPod.Some? && |s.polls| >= 1
      modifies this`evidenceIds, this`written, this`failures, this`latestPod, this`unavailable, this`starts, this`stops
      modifies publisher, publisher.transport
      ensures Valid() && failures >= old(failures)
      ensures stops - old(stops) == starts - old(starts)
      ensures starts == old(starts) || starts == old(starts) + 1
      ensures starts > old(starts) <==> s.load.LoadStarted?
      ensures Loaded(v, s, digest, old(unavailable) == [], old(failures))
      ensures KeptOrPolled(old(latestPod), latestPod, s.polls)
      ensures v.Decided? && failures == old(failures) ==>
                Subjects(old(written)) + (if ValidLoad(s.load, options) then [ValidationLoadStarted] else [])
                  <= Subjects(written)
      ensures v.Decided? && failures == old(failures) && v.approved ==>
                Subjects(written) == Subjects(old(written)) + [ValidationLoadStarted] + Approving(s.polls, options)
    {
      var valid := StartLoad(s.load);
      if s.load.LoadStarted? {
        v := UnderLoad(s, digest, valid);
      } else {
        v := BlockFor(LoadUnavailable, UnavailableGate("validation_load"));
        if v.Decided? {
          SubjectsGrow(old(written), written);
        }
      }
    }

    /** From a ready pod on: the announcement, the load start, the load. */
    method Load(s: Script, digest: string) returns (v: Validation)
      requires Valid() && NothingDecided(written) && latestPod.Some? && |s.polls| >= 1
      modifies this`evidenceIds, this`written, this`failures, this`latestPod, this`unavailable, this`starts, this`stops
      modifies publisher, publisher.transport
      ensures Valid() && failures >= old(failures)
      ensures stops - old(stops) == starts - old(starts)
      ensures starts == old(starts) || starts == old(starts) + 1
      ensures failures == old(failures) ==> (starts > old(starts) <==> s.load.LoadStarted?)
      ensures Loaded(v, s, digest, old(unavailable) == [], old(failures))
      ensures KeptOrPolled(old(latestPod), latestPod, s.polls)
      ensures v.Decided? && failures == old(failures) ==>
                Subjects(old(written)) + [CanaryReady] +
                  (if ValidLoad(s.load, options) then [ValidationLoadStarted] else []) <= Subjects(written)
      ensures v.Decided? && failures == old(failures) && v.approved ==>
                Subjects(written) ==
                  Subjects(old(written)) + [CanaryReady] + [ValidationLoadStarted] + Approving(s.polls, options)
    {
      var ok := PublishNote(CanaryReady, true);
      v := PublishError;
      if ok {
        v := StartAndRun(s, digest);
      }
    }

    /** A pod that was not found ready in time: only a failed poll, or never having seen a pod,
        counts as something unavailable. */
    method Unready(r: Readiness) returns (v: Validation)
      requires Valid() && NothingDecided(written) && !r.Ready?
      modifies this`evidenceIds, this`written, this`failures, this`unavailable, publisher, publisher.transport
      ensures Valid() && failures >= old(failures) && NeverApproved(written)
      ensures v == if failures == old(failures) then Decided(false, LatestDigest()) else PublishError
      ensures v.Decided? ==>
                Closed(written, false, v.imageDigest, unavailable == []) &&
                ClosedAfter(old(written), written, UnreadyGates(r))
      ensures v.Decided? ==> Subjects(written) == Subjects(old(written)) + Ending(if r.OomKilled? then 0 else 1, false)
      ensures unavailable ==
              old(unavailable) + if r.NotReady? && (r.failed || r.latest == None) then [ReadinessUnavailable] else []
    {
      if r.OomKilled? {
        v := Finalize(false);
        if v.Decided? {
          ClosedSubjects(old(written), written, [], false, LatestDigest(), unavailable == []);
        }
        return;
      }
      var gate := UnreadyGates(r)[0];
      if r.NotReady? && (r.failed || r.latest == None) {
        v := BlockFor(ReadinessUnavailable, gate);
      } else {
        v := Block(gate);
      }
      if v.Decided? {
        ClosedSubjects(old(written), written, [gate], false, LatestDigest(), unavailable == []);
      }
    }

    /** What the run came to, given how many OOM reports met before readiness were refused. */
    ghost predicate Concluded(v: Validation, s: Script, refused: nat)
      requires |s.polls| >= 1
      reads `failures, `written, `target, `unavailable, `latestPod
    {
      && (v.Decided? || v.PublishError?)
      && refused <= failures && (v.PublishError? ==> failures > 0)
      && (v.Decided? && failures == refused ==> v.approved == DeservesDespite(s, refused, target, policy, options))
      && (!NeverApproved(written) ==> DeservesDespite(s, refused, target, policy, options))
      && (!NeverApproved(written) ==> latestPod == Some(s.polls[|s.polls| - 1].pod))
      && (v.Decided? ==>
          v.imageDigest == LatestDigest() && Closed(written, v.approved, v.imageDigest, unavailable == []))
      && (v.Decided? && v.approved ==> unavailable == [])
      && MayProject(written, LatestDigest())
      && (!NeverApproved(written) ==> LatestDigest().Some? && WellFormedDigest(LatestDigest().value))
    }

    /** From the readiness poll that found the pod to the end. */
    method AfterReadiness(s: Script, r: Readiness, ghost refused: nat) returns (v: Validation)
      requires Valid() && NothingDecided(written) && failures == refused && ValidScript(s)
      requires r == AwaitReady(s.readiness, Begin(refused), target, policy)
      requires r.Ready? ==> latestPod == Some(r.pod) && r.flawed == (unavailable != [])
      requires latestPod.Some? ==> Seen(latestPod.value) in s.readiness
      requires refused == 0 && !r.OomKilled? ==> Subjects(written) == [CanaryScheduled]
      requires refused == 0 && r.OomKilled? ==>
                 Subjects(written) == [CanaryScheduled, ContainerOOMKilled, MetricGateEvaluated]
      modifies this`evidenceIds, this`written, this`failures, this`latestPod, this`unavailable, this`starts, this`stops
      modifies publisher, publisher.transport
      ensures Valid() && Concluded(v, s, refused)
      ensures stops - old(stops) == starts - old(starts)
      ensures starts == old(starts) || starts == old(starts) + 1
      ensures failures == refused ==> (starts > old(starts) <==> r.Ready? && s.load.LoadStarted?)
      ensures failures == 0 ==> Narrated(written, v.Decided? && v.approved, s, r, options)
    {
      if !r.Ready? {
        v := Unready(r);
        if failures == 0 {
          UnreadyIsNarrated(written, s, r, options);
        }
        return;
      }
      assert ValidObservation(r.pod) by {
        var k :| 0 <= k < |s.readiness| && s.readiness[k] == Seen(r.pod);
      }
      v := Load(s, r.pod.imageDigest);
      if failures == 0 {
        LoadIsNarrated(written, v.approved, s, r, options);
      }
    }

    /** The whole run. */
    method Conduct(s: Script) returns (v: Validation, ghost refused: nat)
      requires Valid() && written == [] && failures == 0 && unavailable == [] && latestPod == None && ValidScript(s)
      modifies this`evidenceIds, this`written, this`failures, this`latestPod, this`unavailable, this`starts, this`stops
      modifies publisher, publisher.transport
      ensures Valid() && Concluded(v, s, refused)
      ensures stops - old(stops) == starts - old(starts)
      ensures starts == old(starts) || starts == old(starts) + 1
      ensures failures == 0 ==>
                (starts > old(starts) <==>
                    AwaitReady(s.readiness, Begin(0), target, policy).Ready? && s.load.LoadStarted?)
      ensures failures == 0 ==>
                Narrated(written, v.Decided? && v.approved, s, AwaitReady(s.readiness, Begin(0), target, policy),
                         options)
    {
      refused := 0;
      var ok := PublishNote(CanaryScheduled, false);
      if !ok {
        return PublishError, 0;
      }
      var r;
      r, refused := AwaitReadiness(s.readiness);
      v := AfterReadiness(s, r, refused);
    }

    lemma FreshRunIsValid()
      requires publisher.Valid() && publisher.Clear(operation) && written == []
      requires Publishable(publisher.transport.accepted, publisher.sequenceByOperation, operation)
      requires base == Of(publisher.transport.accepted, operation)
      ensures Valid()
    {
      NothingAppended(publisher.transport.accepted, operation);
    }

    /** A fresh run for an admitted target. */
    method Admit(target: Target, operation: string)
      requires publisher.Valid() && publisher.Clear(operation)
      requires Publishable(publisher.transport.accepted, publisher.sequenceByOperation, operation)
      modifies this`target, this`operation, this`activeOperation, this`evidenceIds, this`unavailable, this`latestPod
      modifies this`written, this`base, this`failures
      ensures Valid() && this.target == target && this.operation == operation && activeOperation == Some(operation)
      ensures written == [] && base == Of(publisher.transport.accepted, operation) && failures == 0 &&
                unavailable == [] && latestPod == None
    {
      this.target, this.operation, activeOperation := target, operation, Some(operation);
      evidenceIds, unavailable, latestPod := [], [], None;
      written, base, failures := [], Of(publisher.transport.accepted, operation), 0;
      FreshRunIsValid();
    }

    /** An admitted run, from a fresh start. */
    method RunAlone(target: Target, operation: string, s: Script) returns (v: Validation, ghost refused: nat)
      requires publisher.Valid() && publisher.Clear(operation) && ValidScript(s)
      requires Publishable(publisher.transport.accepted, publisher.sequenceByOperation, operation)
      modifies this`target, this`operation, this`activeOperation, this`evidenceIds, this`unavailable, this`latestPod
      modifies this`written, this`base, this`failures, this`starts, this`stops, publisher, publisher.transport
      ensures Valid() && base == old(Of(publisher.transport.accepted, operation))
      ensures this.target == target && this.operation == operation && Concluded(v, s, refused)
      ensures stops - old(stops) == starts - old(starts)
      ensures starts == old(starts) || starts == old(starts) + 1
      ensures failures == 0 ==>
                (starts > old(starts) <==>
                    AwaitReady(s.readiness, Begin(0), target, policy).Ready? && s.load.LoadStarted?)
      ensures failures == 0 ==>
                Narrated(written, v.Decided? && v.approved, s, AwaitReady(s.readiness, Begin(0), target, policy),
                         options)
    {
      Admit(target, operation);
      v, refused := Conduct(s);
    }

    /** What an operation that has just run amounts to in the log. */
    ghost predicate ProjectsAsRun(v: Validation, operation: string, s: Script, refused: nat)
      requires |s.polls| >= 1
      reads `failures, `written, `target, `latestPod, publisher, publisher.transport
    {
      var projected := Qualify(Of(publisher.transport.accepted, operation), target.revision);
      && (projected.Some? <==> ApprovalSealed(written))
      && (projected.Some? ==>
            && DeservesDespite(s, refused, target, policy, options)
            && Some(projected.value.imageDigest) == LatestDigest() && projected.value.operation == operation)
      && (failures == 0 ==> v.Decided?)
      && (v.Decided? ==>
            && (projected.Some? <==> v.approved)
            && (v.approved ==> v.imageDigest == Some(projected.value.imageDigest)))
      && forall other | other != target.revision :: Qualify(Of(publisher.transport.accepted, operation), other) == None
    }

    lemma RunProjects(v: Validation, s: Script, refused: nat)
      requires Valid() && NothingDecided(base) && |s.polls| >= 1 && Concluded(v, s, refused)
      ensures ProjectsAsRun(v, operation, s, refused)
    {
      assert Keeps(Publishing) && Keeps(Tracking) && Keeps(Ownership);
      assert Holds(publisher.State(), Numbering);
      RunIsProjected(publisher.transport.accepted, base, written, operation, target.revision, LatestDigest());
      SealedOnlyIfClosed(written, LatestDigest());
      if v.Decided? {
        assert written[|written| - 2] in written;
        DecidedOnce(written, v.approved, v.imageDigest, unavailable == []);
      }
    }

    /** An admitted run, from a fresh start to no run, and what it left in the log. */
    method RunToEnd(target: Target, operation: string, s: Script) returns (v: Validation, ghost refused: nat)
      requires publisher.Valid() && publisher.Clear(operation) && ValidScript(s)
      requires Publishable(publisher.transport.accepted, publisher.sequenceByOperation, operation)
      modifies this`target, this`operation, this`activeOperation, this`evidenceIds, this`unavailable, this`latestPod
      modifies this`written, this`base, this`failures, this`starts, this`stops, publisher, publisher.transport
      ensures Valid() && base == old(Of(publisher.transport.accepted, operation)) && activeOperation == None
      ensures this.target == target && this.operation == operation && Concluded(v, s, refused)
      ensures stops - old(stops) == starts - old(starts)
      ensures starts == old(starts) || starts == old(starts) + 1
      ensures failures == 0 ==>
                (starts > old(starts) <==>
                    AwaitReady(s.readiness, Begin(0), target, policy).Ready? && s.load.LoadStarted?)
      ensures NothingDecided(Of(old(publisher.transport.accepted), operation)) ==>
                ProjectsAsRun(v, operation, s, refused)
      ensures failures == 0 ==>
                Narrated(written, v.Decided? && v.approved, s, AwaitReady(s.readiness, Begin(0), target, policy),
                         options)
    {
      v, refused := RunAlone(target, operation, s);
      activeOperation := None;
      if NothingDecided(base) {
        RunProjects(v, s, refused);
      }
    }

    /** What a run came to, with the criteria written out. */
    lemma EarnedAsConcluded(v: Validation, s: Script, refused: nat)
      requires |s.polls| >= 1 && Concluded(v, s, refused)
      ensures failures == 0 ==> v.Decided? && (v.approved <==> EarnsApproval(s, 0, target, policy, options))
      ensures (exists e :: e in written && e.subject == PromotionApproved) ==>
                EarnsApproval(s, refused, target, policy, options) && latestPod == Some(s.polls[|s.polls| - 1].pod)
      ensures v.Decided? && v.approved ==> v.imageDigest == Some(s.polls[|s.polls| - 1].pod.imageDigest)
    {
      CriteriaWrittenOut(s, 0, target, policy, options);
      CriteriaWrittenOut(s, refused, target, policy, options);
      if v.Decided? {
        DecidedOnce(written, v.approved, v.imageDigest, unavailable == []);
      }
    }

    /** Validates a target. One validation runs at a time, and on every exit none is running.
        The load is stopped exactly as often as it was started. When every publish succeeded,
        the run approved exactly what deserves it. Whatever was reported, an operation about
        which nothing was decided before now projects to an approval exactly when its approval
        and bundle both reached the log, which takes a deserving run; and when every publish
        succeeded that is exactly when the run approved, with the same digest. */
    method Validate(target: Target, operation: string, s: Script) returns (v: Validation, ghost refused: nat)
      requires publisher.Valid() && publisher.Clear(operation) && ValidScript(s)
      requires Publishable(publisher.transport.accepted, publisher.sequenceByOperation, operation)
      modifies this, publisher, publisher.transport
      ensures publisher.Valid() && activeOperation == old(activeOperation)
      ensures v.Refused? <==>
                target.canaryId == "" || target.revision == "" || target.room != CANARY_ROOM ||
                old(activeOperation).Some?
      ensures v.Refused? ==>
                publisher.transport.accepted == old(publisher.transport.accepted) &&
                starts == old(starts) && stops == old(stops)
      ensures stops - old(stops) == starts - old(starts) <= 1
      ensures !v.Refused? ==>
                && this.target == target && Concluded(v, s, refused)
                && (failures == 0 ==>
                      v.approved == Deserves(s, target, policy, options)
                      && (starts > old(starts) <==>
                          AwaitReady(s.readiness, Begin(0), target, policy).Ready? && s.load.LoadStarted?))
                && Of(publisher.transport.accepted, operation) ==
                    old(Of(publisher.transport.accepted, operation)) + written
                && (forall e | e in written ::
                      e.operation == operation && e.payload.room == "canary-room"
                      && e.payload.revision == target.revision)
      ensures !v.Refused? && NothingDecided(Of(old(publisher.transport.accepted), operation)) ==>
                ProjectsAsRun(v, operation, s, refused)
      ensures !v.Refused? ==>
                && (failures == 0 ==> (v.approved <==> EarnsApproval(s, 0, target, policy, options)))
                && ((exists e :: e in written && e.subject == PromotionApproved) ==>
                      EarnsApproval(s, refused, target, policy, options)
                      && latestPod == Some(s.polls[|s.polls| - 1].pod))
                && (v.Decided? && v.approved ==> v.imageDigest == Some(s.polls[|s.polls| - 1].pod.imageDigest))
      ensures !v.Refused? && failures == 0 ==>
                && Narrated(written, v.approved, s, AwaitReady(s.readiness, Begin(0), target, policy), options)
                && EvidenceComplete(written)
    {
      refused := 0;
      if target.canaryId == "" || target.revision == "" {
        return Refused(TargetIdentityRequired), 0;
      }
      if target.room != CANARY_ROOM {
        return Refused(LiveRoomForbidden), 0;
      }
      if activeOperation.Some? {
        return Refused(AlreadyRunning), 0;
      }
      v, refused := RunToEnd(target, operation, s);
      EarnedAsConcluded(v, s, refused);
      assert Keeps(Publishing) && Keeps(Tracking) && Keeps(Ownership) && Keeps(Binding);
    }
  }
}
