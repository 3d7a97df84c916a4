/**
 The decisions of a canary validation, as functions of what was observed
 (services/room-orchestrator/src/canary.ts).
 */
module CanaryPolicy {
  import opened OperationEvents
  import opened ReleaseApproval
  import opened Wrappers

  datatype Container = Container(ready: bool, oomKilledNow: bool, oomKilledBefore: bool)

  datatype Isolation = Isolation(
    room: string, fleet: string, publicEnabled: bool, matchmakingEnabled: bool,
    redisKeyPrefix: string, redisDatabase: int)

  /** A pod observation that passed validation. */
  datatype Pod = Pod(
    canaryId: string, revision: string, imageDigest: string, phase: string,
    readyReplicas: nat, desiredReplicas: nat, containers: seq<Container>, oomEventFound: bool,
    isolation: Isolation, memoryLimit: Option<nat>)

  ghost predicate ValidObservation(pod: Pod) {
    && WellFormedDigest(pod.imageDigest)
    && pod.readyReplicas <= pod.desiredReplicas
    && (pod.memoryLimit.Some? ==> pod.memoryLimit.value > 0)
  }

  datatype Target = Target(canaryId: string, room: string, revision: string)
  datatype Policy = Policy(redisKeyPrefix: string, redisDatabase: int, liveRedisDatabases: seq<int>)

  predicate PodReady(pod: Pod) {
    && pod.phase == "Running"
    && pod.desiredReplicas > 0
    && pod.readyReplicas == pod.desiredReplicas
    && |pod.containers| > 0
    && forall k | 0 <= k < |pod.containers| :: pod.containers[k].ready
  }

  predicate OomObserved(pod: Pod) {
    exists k | 0 <= k < |pod.containers| :: pod.containers[k].oomKilledNow || pod.containers[k].oomKilledBefore
  }

  predicate Isolated(pod: Pod, target: Target, policy: Policy) {
    && pod.canaryId == target.canaryId
    && pod.revision == target.revision
    && pod.isolation.room == CANARY_ROOM && pod.isolation.room == target.room
    && pod.isolation.fleet == "canary"
    && !pod.isolation.publicEnabled
    && !pod.isolation.matchmakingEnabled
    && pod.isolation.redisKeyPrefix == policy.redisKeyPrefix
    && pod.isolation.redisDatabase == policy.redisDatabase
    && pod.isolation.redisDatabase !in policy.liveRedisDatabases
  }

  // --- readiness ---------------------------------------------------------------------

  /** What one readiness poll meets: the deadline, a failed observation, or a pod. */
  datatype Sighting = DeadlinePassed | Unobserved | Seen(pod: Pod)

  /** flawed: an OOM kill was met that has no Kubernetes event to show for it. */
  datatype Readiness =
    | Ready(pod: Pod, flawed: bool)
    | OomKilled(pod: Pod)
    | IsolationFailure(pod: Pod)   // including a digest that changed between polls
    | NotReady(latest: Option<Pod>, failed: bool)

  /** Where the readiness loop stands: the last pod seen, whose digest every later one must
      have; whether the last poll failed; and how many OOM kills are still to be met whose
      report the event log will refuse. */
  datatype Waiting = Waiting(latest: Option<Pod>, failed: bool, unreported: nat, flawed: bool)

  function Begin(unreported: nat): Waiting {
    Waiting(None, false, unreported, false)
  }

  datatype Look = Stop(readiness: Readiness) | Go(waiting: Waiting)

  predicate Flawed(pod: Pod) {
    OomObserved(pod) && !pod.oomEventFound
  }

  /** One poll. A refused OOM report lands in the loop's own catch block, which takes it for a
      failed observation and polls on. */
  function LookAt(s: Sighting, w: Waiting, target: Target, policy: Policy): Look {
    match s
    case DeadlinePassed => Stop(NotReady(w.latest, w.failed))
    case Unobserved => Go(w.(failed := true))
    case Seen(pod) =>
      if w.latest.Some? && pod.imageDigest != w.latest.value.imageDigest then Stop(IsolationFailure(pod))
      else if !Isolated(pod, target, policy) then Stop(IsolationFailure(pod))
      else if OomObserved(pod) && w.unreported > 0 then
        Go(Waiting(Some(pod), true, w.unreported - 1, w.flawed || Flawed(pod)))
      else if OomObserved(pod) then Stop(OomKilled(pod))
      else if PodReady(pod) then Stop(Ready(pod, w.flawed))
      else Go(w.(latest := Some(pod), failed := false))
  }

  function AwaitReady(polls: seq<Sighting>, w: Waiting, target: Target, policy: Policy): Readiness
    decreases |polls|
  {
    if polls == [] then NotReady(w.latest, w.failed)
    else
      match LookAt(polls[0], w, target, policy)
      case Stop(readiness) => readiness
      case Go(w') => AwaitReady(polls[1..], w', target, policy)
  }

  /** A poll the readiness loop may wait through on the way to a pod of this digest. */
  predicate WaitedThrough(s: Sighting, digest: string, target: Target, policy: Policy) {
    || s.Unobserved?
    || (s.Seen? && s.pod.imageDigest == digest && Isolated(s.pod, target, policy)
        && (OomObserved(s.pod) || !PodReady(s.pod)))
  }

  predicate BecomesReadyAt(polls: seq<Sighting>, k: int, target: Target, policy: Policy) {
    && 0 <= k < |polls| && polls[k].Seen?
    && Isolated(polls[k].pod, target, policy) && !OomObserved(polls[k].pod) && PodReady(polls[k].pod)
    && forall j | 0 <= j < k :: WaitedThrough(polls[j], polls[k].pod.imageDigest, target, policy)
  }

  /** The OOM kills among some polls. */
  function Kills(polls: seq<Sighting>): nat {
    if polls == [] then 0
    else (if polls[0].Seen? && OomObserved(polls[0].pod) then 1 else 0) + Kills(polls[1..])
  }

  predicate AnyFlawed(polls: seq<Sighting>) {
    exists j | 0 <= j < |polls| :: polls[j].Seen? && Flawed(polls[j].pod)
  }

  ghost predicate ReadyVia(polls: seq<Sighting>, k: int, w: Waiting, target: Target, policy: Policy) {
    && BecomesReadyAt(polls, k, target, policy)
    && (w.latest.Some? ==> w.latest.value.imageDigest == polls[k].pod.imageDigest)
    && Kills(polls[..k]) <= w.unreported
  }

  lemma ReadyViaRest(polls: seq<Sighting>, k: int, w: Waiting, target: Target, policy: Policy)
    requires polls != [] && k > 0
    ensures ReadyVia(polls, k, w, target, policy) <==>
            var look := LookAt(polls[0], w, target, policy);
            look.Go? && ReadyVia(polls[1..], k - 1, look.waiting, target, policy)
    ensures k <= |polls| ==> (AnyFlawed(polls[..k]) <==>
              (polls[0].Seen? && Flawed(polls[0].pod)) || AnyFlawed(polls[1..][..k - 1]))
  {
    if k <= |polls| {
      assert polls[..k][1..] == polls[1..][..k - 1];
      assert polls[..k] == [polls[0]] + polls[1..][..k - 1];
    }
    if BecomesReadyAt(polls, k, target, policy) {
      assert WaitedThrough(polls[0], polls[k].pod.imageDigest, target, policy);
      forall j | 0 <= j < k - 1
        ensures WaitedThrough(polls[1..][j], polls[k].pod.imageDigest, target, policy)
      {
        assert WaitedThrough(polls[j + 1], polls[k].pod.imageDigest, target, policy);
      }
    }
    if BecomesReadyAt(polls[1..], k - 1, target, policy)
       && WaitedThrough(polls[0], polls[k].pod.imageDigest, target, policy) {
      forall j | 0 <= j < k
        ensures WaitedThrough(polls[j], polls[k].pod.imageDigest, target, policy)
      {
        assert j > 0 ==> WaitedThrough(polls[1..][j - 1], polls[k].pod.imageDigest, target, policy);
      }
    }
  }

  /** The loop reports a pod ready exactly when it is the first acceptable one, every earlier
      poll before the deadline failed or saw the same image starting up or killed, and the
      reports of all those kills were refused. */
  lemma {:induction false} ReadyExactlyWhen(polls: seq<Sighting>, w: Waiting, target: Target, policy: Policy, pod: Pod,
                                            flawed: bool)
    ensures (AwaitReady(polls, w, target, policy) == Ready(pod, flawed)) ==
            (exists k :: ReadyVia(polls, k, w, target, policy) && polls[k].pod == pod
                         && flawed == (w.flawed || AnyFlawed(polls[..k])))
    decreases |polls|
  {
    if polls != [] {
      var look := LookAt(polls[0], w, target, policy);
      forall k | k > 0
        ensures ReadyVia(polls, k, w, target, policy) <==>
                  look.Go? && ReadyVia(polls[1..], k - 1, look.waiting, target, policy)
        ensures k <= |polls| ==>
                  (AnyFlawed(polls[..k]) <==>
                      (polls[0].Seen? && Flawed(polls[0].pod)) || AnyFlawed(polls[1..][..k - 1]))
      {
        ReadyViaRest(polls, k, w, target, policy);
      }
      if look.Go? {
        ReadyExactlyWhen(polls[1..], look.waiting, target, policy, pod, flawed);
        if k :| ReadyVia(polls[1..], k, look.waiting, target, policy) && polls[1..][k].pod == pod
                && flawed == (look.waiting.flawed || AnyFlawed(polls[1..][..k])) {
          assert ReadyVia(polls, k + 1, w, target, policy);
        }
      } else {
        assert polls[..0] == [];
        if look == Stop(Ready(pod, flawed)) {
          assert ReadyVia(polls, 0, w, target, policy);
        }
      }
    }
  }

  // --- load and metrics ------------------------------------------------------------------

  datatype Metric =
    | SnapshotInflight | SnapshotPending | SnapshotWriteDurationSeconds | SnapshotFailuresTotal | SnapshotTimeoutsTotal
    | SnapshotCircuitOpen | SnapshotHandoffEnabled | TickRate | MemoryWorkingSetBytes

  const REQUIRED := [SnapshotInflight, SnapshotPending, SnapshotWriteDurationSeconds, SnapshotFailuresTotal,
                     SnapshotTimeoutsTotal, SnapshotCircuitOpen, SnapshotHandoffEnabled, TickRate,
                     MemoryWorkingSetBytes]

  /** One scrape: the metrics it exposed. */
  type Observation = map<Metric, real>

  datatype Options = Options(
    botCount: nat,
    maxSnapshotInflight: real, maxSnapshotPending: real, maxSnapshotWriteDurationSeconds: real,
    maxSnapshotFailuresTotal: real, maxSnapshotTimeoutsTotal: real, minimumTickRate: real,
    memoryPressureRatio: real, maxMemoryRatio: real)

  function Missing(o: Observation): seq<Metric> {
    MissingFrom(o, REQUIRED)
  }

  function MissingFrom(o: Observation, required: seq<Metric>): seq<Metric> {
    if required == [] then []
    else (if required[0] in o then [] else [required[0]]) + MissingFrom(o, required[1..])
  }

  predicate Complete(o: Observation) {
    forall m | m in REQUIRED :: m in o
  }

  lemma {:induction false} MissingIsExact(o: Observation, required: seq<Metric>)
    ensures MissingFrom(o, required) == [] <==> forall m | m in required :: m in o
  {
    if required != [] {
      MissingIsExact(o, required[1..]);
      assert required == [required[0]] + required[1..];
    }
  }

  /** Gates that bound a metric from below; the others bound it from above. */
  predicate LowerBounded(m: Metric) {
    m == SnapshotHandoffEnabled || m == TickRate
  }

  function Threshold(m: Metric, o: Options): real {
    match m
    case SnapshotInflight => o.maxSnapshotInflight
    case SnapshotPending => o.maxSnapshotPending
    case SnapshotWriteDurationSeconds => o.maxSnapshotWriteDurationSeconds
    case SnapshotFailuresTotal => o.maxSnapshotFailuresTotal
    case SnapshotTimeoutsTotal => o.maxSnapshotTimeoutsTotal
    case SnapshotCircuitOpen => 0.0
    case SnapshotHandoffEnabled => 1.0
    case TickRate => o.minimumTickRate
    case MemoryWorkingSetBytes => o.maxMemoryRatio
  }

  /** What a gate compares: memory as a share of the limit, anything else as it is. */
  function Compared(m: Metric, value: real, limit: nat): real
    requires limit > 0
  {
    if m == MemoryWorkingSetBytes then value / (limit as real) else value
  }

  predicate Passes(m: Metric, value: real, limit: nat, o: Options)
    requires limit > 0
  {
    if LowerBounded(m) then Compared(m, value, limit) >= Threshold(m, o)
    else Compared(m, value, limit) <= Threshold(m, o)
  }

  function Maximum(values: seq<real>): (r: real)
    requires values != []
    ensures r in values && forall v | v in values :: v <= r
  {
    if |values| == 1 then values[0]
    else
      assert values == [values[0]] + values[1..];
      var rest := Maximum(values[1..]);
      if values[0] <= rest then rest else values[0]
  }

  function Minimum(values: seq<real>): (r: real)
    requires values != []
    ensures r in values && forall v | v in values :: r <= v
  {
    if |values| == 1 then values[0]
    else
      assert values == [values[0]] + values[1..];
      var rest := Minimum(values[1..]);
      if values[0] <= rest then values[0] else rest
  }

  /** One metric over all observations. */
  function Values(observations: seq<Observation>, m: Metric): (r: seq<real>)
    requires forall k | 0 <= k < |observations| :: m in observations[k]
    ensures |r| == |observations|
    ensures forall k | 0 <= k < |r| :: r[k] == observations[k][m]
  {
    seq(|observations|, k requires 0 <= k < |observations| => observations[k][m])
  }

  /** The name a gate is recorded under. */
  function MetricName(m: Metric): string {
    match m
    case SnapshotInflight => "game_snapshot_inflight"
    case SnapshotPending => "game_snapshot_pending"
    case SnapshotWriteDurationSeconds => "game_snapshot_write_duration_seconds"
    case SnapshotFailuresTotal => "game_snapshot_failures_total"
    case SnapshotTimeoutsTotal => "game_snapshot_timeouts_total"
    case SnapshotCircuitOpen => "game_snapshot_circuit_open"
    case SnapshotHandoffEnabled => "game_snapshot_handoff_enabled"
    case TickRate => "game_tick_rate"
    case MemoryWorkingSetBytes => "canary_memory_working_set_ratio"
  }

  const OOM_GATE := Gate("container_oom_killed", Some(1.0), Some(0.0), AtMost, false)
  const ISOLATION_GATE := Gate("canary_isolation_policy", Some(0.0), Some(1.0), AtLeast, false)

  function ReadinessGate(pod: Pod, comparator: Comparator): Gate {
    Gate("canary_readiness", Some(pod.readyReplicas as real), Some(pod.desiredReplicas as real), comparator, false)
  }

  function UnavailableGate(metricName: string): Gate {
    Gate(metricName, None, None, Available, false)
  }

  /** A gate judges the worst value seen. */
  function MetricGate(observations: seq<Observation>, m: Metric, limit: nat, o: Options): Gate
    requires observations != [] && limit > 0
    requires forall k | 0 <= k < |observations| :: m in observations[k]
  {
    var worst := if LowerBounded(m) then Minimum(Values(observations, m)) else Maximum(Values(observations, m));
    Gate(MetricName(m), Some(Compared(m, worst, limit)), Some(Threshold(m, o)),
         if LowerBounded(m) then AtLeast else AtMost, Passes(m, worst, limit, o))
  }

  lemma ShareIsMonotone(a: real, b: real, limit: nat)
    requires limit > 0 && a <= b
    ensures a / (limit as real) <= b / (limit as real)
  {
  }

  /** A gate over the folds passes exactly when every single observation passes. */
  lemma GateIsPerObservation(observations: seq<Observation>, m: Metric, limit: nat, o: Options)
    requires observations != [] && limit > 0
    requires forall k | 0 <= k < |observations| :: m in observations[k]
    ensures MetricGate(observations, m, limit, o).passed
       <==> forall k | 0 <= k < |observations| :: Passes(m, observations[k][m], limit, o)
  {
    var values := Values(observations, m);
    forall k | 0 <= k < |values|
      ensures Minimum(values) <= values[k] <= Maximum(values)
    {
      assert values[k] in values;
    }
    if m == MemoryWorkingSetBytes {
      forall k | 0 <= k < |values|
        ensures Compared(m, values[k], limit) <= Compared(m, Maximum(values), limit)
      {
        ShareIsMonotone(values[k], Maximum(values), limit);
      }
    }
    if LowerBounded(m) {
      var k :| 0 <= k < |values| && values[k] == Minimum(values);
      assert observations[k][m] == Minimum(values);
    } else {
      var k :| 0 <= k < |values| && values[k] == Maximum(values);
      assert observations[k][m] == Maximum(values);
    }
  }

  // --- the whole decision ---------------------------------------------------------------------

  datatype LoadStart = LoadFailed | LoadStarted(jobId: string, botCount: int, sessionCount: int,
      evidence: seq<EvidenceId>)

  predicate ValidLoad(load: LoadStart, o: Options) {
    load.LoadStarted? && load.jobId != "" && load.botCount >= 1 && load.botCount == o.botCount
    && load.sessionCount == load.botCount
  }

  /** What one validation poll meets: no pod, or a pod and perhaps a scrape. */
  datatype Poll = PodUnobserved | Polled(pod: Pod, scrape: Option<Observation>)

  /** Everything the outside world would answer to one validation. */
  datatype Script = Script(readiness: seq<Sighting>, load: LoadStart, polls: seq<Poll>, cleanup: bool)

  ghost predicate ValidScript(s: Script) {
    && (forall k | 0 <= k < |s.readiness| && s.readiness[k].Seen? :: ValidObservation(s.readiness[k].pod))
    && (forall k | 0 <= k < |s.polls| && s.polls[k].Polled? :: ValidObservation(s.polls[k].pod))
    && |s.polls| >= 1
  }

  /** The pod is still the one that became ready, isolated, alive and ready. */
  predicate StillSound(pod: Pod, digest: string, target: Target, policy: Policy) {
    pod.imageDigest == digest && Isolated(pod, target, policy) && !OomObserved(pod) && PodReady(pod)
  }

  predicate GoodPoll(p: Poll, digest: string, target: Target, policy: Policy) {
    && p.Polled? && StillSound(p.pod, digest, target, policy)
    && p.pod.memoryLimit.Some? && p.pod.memoryLimit.value > 0
    && p.scrape.Some? && Complete(p.scrape.value)
  }

  predicate MeetsThresholds(o: Observation, limit: nat, options: Options)
    requires Complete(o) && limit > 0
  {
    forall m | m in REQUIRED :: Passes(m, o[m], limit, options)
  }

  /** Good polls throughout, and every single observation within every threshold (memory
      against the last limit observed). */
  predicate GoodThroughout(polls: seq<Poll>, digest: string, target: Target, policy: Policy, o: Options)
    requires |polls| >= 1
  {
    && (forall k | 0 <= k < |polls| :: GoodPoll(polls[k], digest, target, policy))
    && (forall k | 0 <= k < |polls| ::
          MeetsThresholds(polls[k].scrape.value, polls[|polls| - 1].pod.memoryLimit.value, o))
  }

  /** What the load phase has to show: a valid load, nothing wrong throughout, and a cleaned-up
      load. */
  predicate EarnedUnderLoad(s: Script, digest: string, target: Target, policy: Policy, o: Options)
    requires |s.polls| >= 1
  {
    ValidLoad(s.load, o) && GoodThroughout(s.polls, digest, target, policy, o) && s.cleanup
  }

  /** Every criterion of an approval, poll by poll and metric by metric, when the reports of
      the first so many OOM kills met before readiness are refused. */
  predicate DeservesDespite(s: Script, refused: nat, target: Target, policy: Policy, o: Options)
    requires |s.polls| >= 1
  {
    var readiness := AwaitReady(s.readiness, Begin(refused), target, policy);
    readiness.Ready? && !readiness.flawed && EarnedUnderLoad(s, readiness.pod.imageDigest, target, policy, o)
  }

  /** What an approval is meant to stand for. */
  predicate Deserves(s: Script, target: Target, policy: Policy, o: Options)
    requires |s.polls| >= 1
  {
    DeservesDespite(s, 0, target, policy, o)
  }

  lemma FirstReadyIsUnique(polls: seq<Sighting>, j: int, k: int, target: Target, policy: Policy)
    requires BecomesReadyAt(polls, j, target, policy) && BecomesReadyAt(polls, k, target, policy)
    ensures j == k
  {
    assert j < k ==> WaitedThrough(polls[j], polls[k].pod.imageDigest, target, policy);
    assert k < j ==> WaitedThrough(polls[k], polls[j].pod.imageDigest, target, policy);
  }

  /** A run whose OOM reports were refused may reach approval all the same; it is deserved
      exactly when no OOM kill was met before the pod became ready. */
  lemma DespiteIsDeserved(s: Script, refused: nat, target: Target, policy: Policy, o: Options) returns (k: int)
    requires |s.polls| >= 1 && DeservesDespite(s, refused, target, policy, o)
    ensures BecomesReadyAt(s.readiness, k, target, policy)
    ensures Deserves(s, target, policy, o) <==> Kills(s.readiness[..k]) == 0
  {
    var ready := AwaitReady(s.readiness, Begin(refused), target, policy);
    ReadyExactlyWhen(s.readiness, Begin(refused), target, policy, ready.pod, ready.flawed);
    k :| ReadyVia(s.readiness, k, Begin(refused), target, policy) && s.readiness[k].pod == ready.pod
         && ready.flawed == AnyFlawed(s.readiness[..k]);
    if Kills(s.readiness[..k]) == 0 {
      assert ReadyVia(s.readiness, k, Begin(0), target, policy);
      ReadyExactlyWhen(s.readiness, Begin(0), target, policy, ready.pod, ready.flawed);
    }
    if Deserves(s, target, policy, o) {
      var plain := AwaitReady(s.readiness, Begin(0), target, policy);
      ReadyExactlyWhen(s.readiness, Begin(0), target, policy, plain.pod, plain.flawed);
      var j :| ReadyVia(s.readiness, j, Begin(0), target, policy);
      FirstReadyIsUnique(s.readiness, j, k, target, policy);
    }
  }

  lemma KilledThenHealthy(polls: seq<Sighting>, killed: Pod, healthy: Pod, target: Target, policy: Policy)
    requires polls == [Seen(killed), Seen(healthy)] && killed.imageDigest == healthy.imageDigest
    requires Isolated(killed, target, policy) && OomObserved(killed) && killed.oomEventFound
    requires Isolated(healthy, target, policy) && !OomObserved(healthy) && PodReady(healthy)
    ensures AwaitReady(polls, Begin(0), target, policy) == OomKilled(killed)
    ensures AwaitReady(polls, Begin(1), target, policy) == Ready(healthy, false)
  {
    assert polls[1..] == [Seen(healthy)];
    assert LookAt(polls[0], Begin(1), target, policy) == Go(Waiting(Some(killed), true, 0, false));
    assert AwaitReady(polls[1..], Waiting(Some(killed), true, 0, false), target, policy) == Ready(healthy, false);
  }

  function Pristine(): (o: Observation)
    ensures Complete(o)
  {
    map[SnapshotInflight := 0.0, SnapshotPending := 0.0, SnapshotWriteDurationSeconds := 0.0,
        SnapshotFailuresTotal := 0.0, SnapshotTimeoutsTotal := 0.0, SnapshotCircuitOpen := 0.0,
        SnapshotHandoffEnabled := 1.0, TickRate := 60.0, MemoryWorkingSetBytes := 50.0]
  }

  lemma PristineMeetsThresholds(o: Options)
    requires o == Options(1, 1.0, 1.0, 1.0, 0.0, 0.0, 60.0, 0.7, 0.9)
    ensures MeetsThresholds(Pristine(), 100, o)
  {
  }

  /** One refused report is enough: a pod killed for memory, then healthy again, is approved. */
  lemma RefusedReportHidesOomKill() returns (s: Script, target: Target, policy: Policy, o: Options)
    ensures ValidScript(s)
    ensures DeservesDespite(s, 1, target, policy, o) && !Deserves(s, target, policy, o)
  {
    target, policy := Target("canary-1", CANARY_ROOM, "r1"), Policy("room:canary-room:", 15, [0]);
    o := Options(1, 1.0, 1.0, 1.0, 0.0, 0.0, 60.0, 0.7, 0.9);
    var digest := "sha256:" + seq(64, _ => '0');
    var isolation := Isolation(CANARY_ROOM, "canary", false, false, "room:canary-room:", 15);
    var killed := Pod("canary-1", "r1", digest, "Running", 1, 1, [Container(true, false, true)], true, isolation,
        Some(100));
    var healthy := killed.(containers := [Container(true, false, false)], oomEventFound := false);
    s := Script([Seen(killed), Seen(healthy)], LoadStarted("job", 1, 1, []), [Polled(healthy, Some(Pristine()))], true);
    assert killed.containers[0].oomKilledBefore;
    KilledThenHealthy(s.readiness, killed, healthy, target, policy);
    PristineMeetsThresholds(o);
    assert GoodPoll(s.polls[0], digest, target, policy);
  }

  // --- the criteria, written out -----------------------------------------------------------------

  /** One observation within the nine limits. */
  ghost predicate WithinLimits(o: Observation, memoryLimit: nat, options: Options)
    requires memoryLimit > 0
  {
    && SnapshotInflight in o && o[SnapshotInflight] <= options.maxSnapshotInflight
    && SnapshotPending in o && o[SnapshotPending] <= options.maxSnapshotPending
    && SnapshotWriteDurationSeconds in o && o[SnapshotWriteDurationSeconds] <= options.maxSnapshotWriteDurationSeconds
    && SnapshotFailuresTotal in o && o[SnapshotFailuresTotal] <= options.maxSnapshotFailuresTotal
    && SnapshotTimeoutsTotal in o && o[SnapshotTimeoutsTotal] <= options.maxSnapshotTimeoutsTotal
    && SnapshotCircuitOpen in o && o[SnapshotCircuitOpen] <= 0.0
    && SnapshotHandoffEnabled in o && o[SnapshotHandoffEnabled] >= 1.0
    && TickRate in o && o[TickRate] >= options.minimumTickRate
    && MemoryWorkingSetBytes in o && o[MemoryWorkingSetBytes] / (memoryLimit as real) <= options.maxMemoryRatio
  }

  lemma LimitsWrittenOut(o: Observation, memoryLimit: nat, options: Options)
    requires memoryLimit > 0
    ensures Complete(o) && MeetsThresholds(o, memoryLimit, options) <==> WithinLimits(o, memoryLimit, options)
  {
    assert SnapshotInflight in REQUIRED && SnapshotPending in REQUIRED && SnapshotWriteDurationSeconds in REQUIRED;
    assert SnapshotFailuresTotal in REQUIRED && SnapshotTimeoutsTotal in REQUIRED && SnapshotCircuitOpen in REQUIRED;
    assert SnapshotHandoffEnabled in REQUIRED && TickRate in REQUIRED && MemoryWorkingSetBytes in REQUIRED;
  }

  /** The pod is the canary that was asked for, cut off from players and from live data. */
  ghost predicate CutOff(pod: Pod, target: Target, policy: Policy) {
    && pod.canaryId == target.canaryId && pod.revision == target.revision
    && target.room == "canary-room" && pod.isolation.room == "canary-room" && pod.isolation.fleet == "canary"
    && pod.isolation.publicEnabled == false && pod.isolation.matchmakingEnabled == false
    && pod.isolation.redisKeyPrefix == policy.redisKeyPrefix && pod.isolation.redisDatabase == policy.redisDatabase
    && policy.redisDatabase !in policy.liveRedisDatabases
  }

  /** Some container of the pod was killed for memory, now or before. */
  ghost predicate WasKilled(pod: Pod) {
    exists c | c in pod.containers :: c.oomKilledNow || c.oomKilledBefore
  }

  /** Every replica and container of the pod runs. */
  ghost predicate AllUp(pod: Pod) {
    && pod.phase == "Running" && 0 < pod.desiredReplicas == pod.readyReplicas
    && pod.containers != [] && forall c | c in pod.containers :: c.ready
  }

  lemma PodWrittenOut(pod: Pod, target: Target, policy: Policy)
    ensures Isolated(pod, target, policy) <==> CutOff(pod, target, policy)
    ensures OomObserved(pod) <==> WasKilled(pod)
    ensures PodReady(pod) <==> AllUp(pod)
  {
    if WasKilled(pod) {
      var c :| c in pod.containers && (c.oomKilledNow || c.oomKilledBefore);
      var k :| 0 <= k < |pod.containers| && pod.containers[k] == c;
    }
    if PodReady(pod) {
      forall c | c in pod.containers
        ensures c.ready
      {
        var k :| 0 <= k < |pod.containers| && pod.containers[k] == c;
      }
    }
    if AllUp(pod) {
      assert forall k | 0 <= k < |pod.containers| :: pod.containers[k] in pod.containers;
    }
  }

  ghost function KilledPolls(polls: seq<Sighting>): nat {
    if polls == [] then 0
    else (if polls[0].Seen? && WasKilled(polls[0].pod) then 1 else 0) + KilledPolls(polls[1..])
  }

  lemma {:induction false} KillsWrittenOut(polls: seq<Sighting>, target: Target, policy: Policy)
    ensures Kills(polls) == KilledPolls(polls)
  {
    if polls != [] {
      KillsWrittenOut(polls[1..], target, policy);
      if polls[0].Seen? {
        PodWrittenOut(polls[0].pod, target, policy);
      }
    }
  }

  /** The k-th readiness poll finds a pod fit for validation; the polls before it failed or saw
      the same image starting up or killed, so many of them killed and each with its
      Kubernetes event. */
  ghost predicate FitAt(polls: seq<Sighting>, k: int, refused: nat, target: Target, policy: Policy) {
    && 0 <= k < |polls| && polls[k].Seen?
    && CutOff(polls[k].pod, target, policy) && !WasKilled(polls[k].pod) && AllUp(polls[k].pod)
    && (forall j | 0 <= j < k ::
          || polls[j].Unobserved?
          || (polls[j].Seen? && polls[j].pod.imageDigest == polls[k].pod.imageDigest
              && CutOff(polls[j].pod, target, policy)
              && (WasKilled(polls[j].pod) || !AllUp(polls[j].pod))
              && (WasKilled(polls[j].pod) ==> polls[j].pod.oomEventFound)))
    && KilledPolls(polls[..k]) <= refused
  }

  /** A validation poll that saw the same pod, fit, and measured it. */
  ghost predicate FitPoll(p: Poll, digest: string, target: Target, policy: Policy) {
    && p.Polled? && p.scrape.Some? && p.pod.imageDigest == digest
    && CutOff(p.pod, target, policy) && !WasKilled(p.pod) && AllUp(p.pod)
    && p.pod.memoryLimit.Some? && p.pod.memoryLimit.value > 0
  }

  lemma PollWrittenOut(p: Poll, digest: string, target: Target, policy: Policy)
    ensures GoodPoll(p, digest, target, policy) <==> FitPoll(p, digest, target, policy) && Complete(p.scrape.value)
  {
    if p.Polled? {
      PodWrittenOut(p.pod, target, policy);
    }
  }

  ghost predicate FitAndWithin(polls: seq<Poll>, digest: string, target: Target, policy: Policy, o: Options)
    requires polls != []
  {
    && (forall i | 0 <= i < |polls| :: FitPoll(polls[i], digest, target, policy))
    && forall i | 0 <= i < |polls| ::
         WithinLimits(polls[i].scrape.value, polls[|polls| - 1].pod.memoryLimit.value, o)
  }

  lemma FitPollsAreGood(polls: seq<Poll>, digest: string, target: Target, policy: Policy, o: Options)
    requires |polls| >= 1 && FitAndWithin(polls, digest, target, policy, o)
    ensures GoodThroughout(polls, digest, target, policy, o)
  {
    var limit := polls[|polls| - 1].pod.memoryLimit.value;
    forall i | 0 <= i < |polls|
      ensures GoodPoll(polls[i], digest, target, policy) && MeetsThresholds(polls[i].scrape.value, limit, o)
    {
      assert WithinLimits(polls[i].scrape.value, limit, o);
      LimitsWrittenOut(polls[i].scrape.value, limit, o);
      PollWrittenOut(polls[i], digest, target, policy);
    }
  }

  lemma GoodPollsAreFit(polls: seq<Poll>, digest: string, target: Target, policy: Policy, o: Options)
    requires |polls| >= 1 && GoodThroughout(polls, digest, target, policy, o)
    ensures FitAndWithin(polls, digest, target, policy, o)
  {
    forall i | 0 <= i < |polls|
      ensures FitPoll(polls[i], digest, target, policy)
    {
      PollWrittenOut(polls[i], digest, target, policy);
    }
    var limit := polls[|polls| - 1].pod.memoryLimit.value;
    forall i | 0 <= i < |polls|
      ensures WithinLimits(polls[i].scrape.value, limit, o)
    {
      assert GoodPoll(polls[i], digest, target, policy);
      LimitsWrittenOut(polls[i].scrape.value, limit, o);
    }
  }

  /** A valid load, and throughout it the same pod, fit, measured, and within every limit; the
      last memory limit observed counts. */
  ghost predicate SoundUnderLoad(s: Script, digest: string, target: Target, policy: Policy, o: Options)
    requires |s.polls| >= 1
  {
    && s.load.LoadStarted? && s.load.jobId != "" && s.load.botCount >= 1
    && s.load.botCount == o.botCount && s.load.sessionCount == s.load.botCount
    && FitAndWithin(s.polls, digest, target, policy, o)
    && s.cleanup
  }

  lemma UnderLoadWrittenOut(s: Script, digest: string, target: Target, policy: Policy, o: Options)
    requires |s.polls| >= 1
    ensures EarnedUnderLoad(s, digest, target, policy, o) <==> SoundUnderLoad(s, digest, target, policy, o)
  {
    if EarnedUnderLoad(s, digest, target, policy, o) {
      GoodPollsAreFit(s.polls, digest, target, policy, o);
    }
    if SoundUnderLoad(s, digest, target, policy, o) {
      FitPollsAreGood(s.polls, digest, target, policy, o);
    }
  }

  /** Every criterion of an approval in terms of what was observed, when so many OOM reports
      are refused. */
  ghost predicate EarnsApproval(s: Script, refused: nat, target: Target, policy: Policy, o: Options)
    requires |s.polls| >= 1
  {
    exists k :: FitAt(s.readiness, k, refused, target, policy)
                && SoundUnderLoad(s, s.readiness[k].pod.imageDigest, target, policy, o)
  }

  lemma FitIsReadyVia(polls: seq<Sighting>, k: int, refused: nat, target: Target, policy: Policy)
    ensures FitAt(polls, k, refused, target, policy) <==>
            ReadyVia(polls, k, Begin(refused), target, policy) && !AnyFlawed(polls[..k])
  {
    if 0 <= k < |polls| && polls[k].Seen? {
      PodWrittenOut(polls[k].pod, target, policy);
      KillsWrittenOut(polls[..k], target, policy);
      forall j | 0 <= j < k && polls[j].Seen?
        ensures Isolated(polls[j].pod, target, policy) <==> CutOff(polls[j].pod, target, policy)
        ensures OomObserved(polls[j].pod) <==> WasKilled(polls[j].pod)
        ensures PodReady(polls[j].pod) <==> AllUp(polls[j].pod)
      {
        PodWrittenOut(polls[j].pod, target, policy);
      }
      if FitAt(polls, k, refused, target, policy) {
        assert forall j | 0 <= j < k :: WaitedThrough(polls[j], polls[k].pod.imageDigest, target, policy);
        assert forall j | 0 <= j < k :: polls[..k][j] == polls[j];
      }
      if ReadyVia(polls, k, Begin(refused), target, policy) && !AnyFlawed(polls[..k]) {
        forall j | 0 <= j < k
          ensures WaitedThrough(polls[j], polls[k].pod.imageDigest, target, policy)
          ensures !(polls[j].Seen? && Flawed(polls[j].pod))
        {
          assert polls[..k][j] == polls[j];
        }
      }
    }
  }

  /** The decision's criteria are the ones written out. */
  lemma CriteriaWrittenOut(s: Script, refused: nat, target: Target, policy: Policy, o: Options)
    requires |s.polls| >= 1
    ensures DeservesDespite(s, refused, target, policy, o) <==> EarnsApproval(s, refused, target, policy, o)
  {
    var ready := AwaitReady(s.readiness, Begin(refused), target, policy);
    if DeservesDespite(s, refused, target, policy, o) {
      ReadyExactlyWhen(s.readiness, Begin(refused), target, policy, ready.pod, ready.flawed);
      var k :| ReadyVia(s.readiness, k, Begin(refused), target, policy) && s.readiness[k].pod == ready.pod
               && ready.flawed == (Begin(refused).flawed || AnyFlawed(s.readiness[..k]));
      FitIsReadyVia(s.readiness, k, refused, target, policy);
      UnderLoadWrittenOut(s, ready.pod.imageDigest, target, policy, o);
    }
    if EarnsApproval(s, refused, target, policy, o) {
      var k :| FitAt(s.readiness, k, refused, target, policy)
               && SoundUnderLoad(s, s.readiness[k].pod.imageDigest, target, policy, o);
      FitIsReadyVia(s.readiness, k, refused, target, policy);
      ReadyExactlyWhen(s.readiness, Begin(refused), target, policy, s.readiness[k].pod, false);
      UnderLoadWrittenOut(s, s.readiness[k].pod.imageDigest, target, policy, o);
    }
  }
}
