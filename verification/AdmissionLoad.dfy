/**
 The admission load controller and its jobs, in place
 (services/ops-console/src/admission-load.ts). Every turn of a job's loop, every answer to
 a request and every call from outside is one atomic callback.
 */
module AdmissionLoad {
  import opened AdmissionRamp
  import opened Wrappers

  datatype Phase = Ramping | Saturated | Stopped | SafetyTimeout | Failed

  predicate Over(phase: Phase) {
    phase in {Stopped, SafetyTimeout, Failed}
  }

  /** The readings of the clock that one evaluation takes, in order. */
  datatype Readings = Readings(due: int, measured: int, counted: int, later: int)

  /** What a job keeps right, separately. */
  datatype Concern = Counting | Climbing | Trimming

  ghost function Lesser(a: int, b: int): int {
    if a <= b then a else b
  }

  class AdmissionJob {
    const jobId: nat
    const roomId: string
    const options: Accepted
    const startedAtMs: int
    const expiresAtMs: int
    /** The first clock reading of the loop. */
    const loopStart: int
    var phase: Phase
    var targetRps: nat
    var requests: nat
    var issued: nat
    var accepted: nat
    var rateLimited: nat
    var rejected: nat
    var nextRampAtMs: int
    var consecutiveFailureWindows: nat
    var saturationReason: Option<Reason>
    var samples: seq<Sample>
    var aborted: bool
    // the loop's own variables, and the requests it has not heard back from
    var carry: real
    var previous: int
    var inFlight: nat
    // what happened so far
    ghost var ticks: seq<Tick>
    ghost var breaches: seq<bool>
    /** The samples dropped so far; those kept come after them. */
    ghost var trimmed: seq<Sample>
    /** No sample at or after this moment has been trimmed. */
    ghost var horizon: int
    /** The latest time the clock has shown to a settling request. */
    ghost var latest: int

    function Ramped(): Ramp
      reads `targetRps, `consecutiveFailureWindows, `saturationReason
    {
      Ramp(targetRps, consecutiveFailureWindows, saturationReason)
    }

    /** The counters add up; the loop stops exactly when the job is over. */
    ghost predicate Counted()
      reads `requests, `accepted, `rateLimited, `rejected, `inFlight, `issued, `aborted, `phase, `carry, `previous,
              `ticks
    {
      && requests == accepted + rateLimited + rejected
      && requests + inFlight <= issued
      && (!aborted ==> requests + inFlight == issued)
      && issued == IssuedBy(loopStart, ticks)
      && Pacer(carry, previous) == PacerAfter(loopStart, ticks)
      && (aborted <==> Over(phase))
    }

    /** Target and phase are where the effective evaluations took them. */
    ghost predicate OnRamp()
      reads `targetRps, `consecutiveFailureWindows, `saturationReason, `phase, `breaches
    {
      && Ramped() == RampAfter(options, breaches)
      && (breaches != [] ==> RampAfter(options, breaches[..|breaches| - 1]).reason == None)
      && (phase == Ramping ==> saturationReason == None)
      && (phase == Saturated ==> saturationReason.Some?)
    }

    /** Every sample ever taken. */
    ghost function History(): seq<Sample>
      reads `samples, `trimmed
    {
      trimmed + samples
    }

    /** What was dropped is older than anything an evaluation may still read. */
    ghost predicate Retains()
      reads `trimmed, `horizon, `latest
    {
      horizon <= latest - 6 * options.metricWindowMs && forall s | s in trimmed :: s.at < horizon
    }

    ghost predicate Keeps(concern: Concern)
      reads this
    {
      match concern
      case Counting => Counted()
      case Climbing => OnRamp()
      case Trimming => Retains()
    }

    ghost predicate Valid()
      reads this
    {
      forall concern: Concern :: Keeps(concern)
    }

    lemma ValidParts()
      requires Valid()
      ensures Counted() && OnRamp() && Retains()
    {
      assert Keeps(Counting) && Keeps(Climbing) && Keeps(Trimming);
    }

    constructor (jobId: nat, roomId: string, options: Options, now: int, loopStart: int)
      requires Accepts(options)
      ensures Valid() && phase == Ramping && this.jobId == jobId && this.roomId == roomId && this.options == options
      ensures ticks == [] && breaches == [] && inFlight == 0 && this.loopStart == loopStart
      ensures targetRps == options.initialRps
      ensures expiresAtMs == now + options.safetyTtlMs && nextRampAtMs == now + options.rampIntervalMs
    {
      this.jobId, this.roomId, this.options, this.loopStart := jobId, roomId, options, loopStart;
      startedAtMs, expiresAtMs, nextRampAtMs := now, now + options.safetyTtlMs, now + options.rampIntervalMs;
      phase, targetRps, aborted := Ramping, options.initialRps, false;
      requests, issued, accepted, rateLimited, rejected, inFlight := 0, 0, 0, 0, 0, 0;
      consecutiveFailureWindows, saturationReason, samples := 0, None, [];
      carry, previous := 0.0, loopStart;
      ticks, breaches, trimmed, horizon, latest := [], [], [], now - 6 * options.metricWindowMs, now;
    }

    /** A tick's requests go out; none waits for another. */
    method IssueAll(count: nat)
      requires !aborted
      modifies this`issued, this`inFlight
      ensures issued == old(issued) + count && inFlight == old(inFlight) + count
    {
      for index := 0 to count
        invariant issued == old(issued) + index && inFlight == old(inFlight) + index
      {
        issued := issued + 1;
        inFlight := inFlight + 1;
      }
    }

    /** What the clock and the target entitle the loop to, capped. */
    method Earn(now: int)
      modifies this`carry, this`previous
      ensures carry == Credit(Pacer(old(carry), old(previous)), Tick(now, targetRps)) && previous == now
    {
      var elapsedMs := if now - previous >= 1 then now - previous else 1;
      previous := now;
      if Stalled(elapsedMs) {
        carry := 0.0;
      }
      var effectiveElapsedMs := if Stalled(elapsedMs) then LOOP_INTERVAL_MS else elapsedMs;
      carry := carry + (targetRps * effectiveElapsedMs) as real / 1000.0;
      if PerTickLimit(targetRps) as real < carry {
        carry := PerTickLimit(targetRps) as real;
      }
    }

    /** One turn's worth of requests, which is now owed. */
    method TakeDue(now: int) returns (count: nat)
      requires Pacer(carry, previous) == PacerAfter(loopStart, ticks)
      modifies this`carry, this`previous, this`ticks
      ensures Pacer(carry, previous) == PacerAfter(loopStart, ticks) && ticks == old(ticks) + [Tick(now, targetRps)]
      ensures IssuedBy(loopStart, ticks) == IssuedBy(loopStart, old(ticks)) + count && count <= PerTickLimit(targetRps)
    {
      ghost var t, p := Tick(now, targetRps), PacerAfter(loopStart, ticks);
      OneMoreTick(loopStart, ticks, t);
      Earn(now);
      assert carry == Credit(p, t);
      count := carry.Floor;
      carry := carry - count as real;
      assert count == Count(p, t) && Pacer(carry, previous) == Advance(p, t);
      ticks := ticks + [Tick(now, targetRps)];
    }

    method Pace(now: int)
      requires Counted() && !aborted
      modifies this`carry, this`previous, this`issued, this`inFlight, this`ticks
      ensures Counted() && ticks == old(ticks) + [Tick(now, targetRps)]
      ensures old(issued) <= issued <= old(issued) + PerTickLimit(targetRps)
    {
      var count := TakeDue(now);
      IssueAll(count);
    }

    /** What one window does: a breach leaves the target and counts towards the confirmations;
        a window that held raises the target by a step, up to the maximum, and ends the ramp
        there. */
    method Climb(breached: bool)
      requires phase == Ramping && saturationReason == None
      modifies this`phase, this`targetRps, this`consecutiveFailureWindows, this`saturationReason
      ensures Ramped() == Evaluate(old(Ramped()), breached, options)
      ensures phase == if saturationReason == None then Ramping else Saturated
      ensures breached ==>
                targetRps == old(targetRps) && consecutiveFailureWindows == old(consecutiveFailureWindows) + 1
      ensures !breached ==>
                && consecutiveFailureWindows == 0
                && (old(targetRps) >= options.maximumRps ==> targetRps == old(targetRps))
                && (old(targetRps) < options.maximumRps <= old(targetRps) + options.rampStepRps ==>
                      targetRps == options.maximumRps)
                && (old(targetRps) + options.rampStepRps < options.maximumRps ==>
                      targetRps == old(targetRps) + options.rampStepRps)
      ensures saturationReason == Some(FailureThreshold) <==>
                breached && consecutiveFailureWindows >= options.failureConfirmations
      ensures saturationReason == Some(MaximumLoad) <==> !breached && old(targetRps) >= options.maximumRps
    {
      if breached {
        consecutiveFailureWindows := consecutiveFailureWindows + 1;
        if consecutiveFailureWindows >= options.failureConfirmations {
          phase, saturationReason := Saturated, Some(FailureThreshold);
        }
        return;
      }
      consecutiveFailureWindows := 0;
      if targetRps >= options.maximumRps {
        phase, saturationReason := Saturated, Some(MaximumLoad);
        return;
      }
      targetRps := if options.maximumRps <= targetRps + options.rampStepRps then options.maximumRps
                   else targetRps + options.rampStepRps;
    }

    /** Where a window took the ramp from a target and so many breaches in a row. */
    ghost predicate Moved(breached: bool, target: nat, failures: nat)
      reads `phase, `targetRps, `consecutiveFailureWindows
    {
      && targetRps == (if !breached && target < options.maximumRps
                       then Lesser(target + options.rampStepRps, options.maximumRps) else target)
      && consecutiveFailureWindows == (if breached then failures + 1 else 0)
      && (phase == Saturated <==>
            if breached then failures + 1 >= options.failureConfirmations else target >= options.maximumRps)
    }

    /** The ramp's next move. */
    method Move(breached: bool, later: int)
      requires OnRamp() && phase == Ramping
      modifies this`phase, this`targetRps, this`nextRampAtMs, this`consecutiveFailureWindows, this`saturationReason
      modifies this`breaches
      ensures OnRamp() && phase in {Ramping, Saturated}
      ensures Moved(breached, old(targetRps), old(consecutiveFailureWindows))
      ensures breaches == old(breaches) + [breached] && nextRampAtMs == later + options.rampIntervalMs
    {
      ghost var before := breaches;
      RampAfterOneMore(options, before, breached);
      breaches := breaches + [breached];
      assert breaches[..|breaches| - 1] == before;
      nextRampAtMs := later + options.rampIntervalMs;
      Climb(breached);
    }

    /** Whether the window breached. */
    ghost function Verdict(at: Readings): bool
      reads `samples
    {
      Breached(Since(samples, at.measured - options.metricWindowMs),
               Since(samples, at.counted - options.metricWindowMs), options)
    }

    /** The evaluation that is due, if one is: whether its window breached. */
    ghost function Due(at: Readings): seq<bool>
      reads `phase, `nextRampAtMs, `samples
    {
      if phase == Ramping && at.due >= nextRampAtMs then [Verdict(at)] else []
    }

    /** The evaluation judges the samples of the last window: those for the rate as read
        first, those counted as read next. */
    ghost predicate Judged(breached: bool, samples: seq<Sample>, at: Readings) {
      exists measured: seq<Sample>, counted: seq<Sample> ::
        && IsWindow(measured, samples, at.measured - options.metricWindowMs)
        && IsWindow(counted, samples, at.counted - options.metricWindowMs)
        && breached == Breached(measured, counted, options)
    }

    /** An evaluation is due while ramping, once its time has come, and then there is one. */
    lemma DueIsJudged(at: Readings)
      ensures Due(at) != [] <==> phase == Ramping && at.due >= nextRampAtMs
      ensures Due(at) != [] ==> |Due(at)| == 1 && Judged(Due(at)[0], samples, at)
    {
      SinceIsWindow(samples, at.measured - options.metricWindowMs);
      SinceIsWindow(samples, at.counted - options.metricWindowMs);
    }

    /** An evaluation that is due. */
    method MoveOn(at: Readings)
      requires OnRamp() && phase == Ramping
      modifies this`phase, this`targetRps, this`nextRampAtMs, this`consecutiveFailureWindows, this`saturationReason
      modifies this`breaches
      ensures OnRamp() && !Over(phase) && nextRampAtMs == at.later + options.rampIntervalMs
      ensures breaches == old(breaches) + [Verdict(at)]
      ensures Moved(breaches[|old(breaches)|], old(targetRps), old(consecutiveFailureWindows))
    {
      var measured := Since(samples, at.measured - options.metricWindowMs);
      var counted := Since(samples, at.counted - options.metricWindowMs);
      Move(Breached(measured, counted, options), at.later);
    }

    /** The ramp moves when it is due, on what its window shows. */
    method EvaluateRamp(at: Readings)
      requires Valid() && !aborted
      modifies this`phase, this`targetRps, this`nextRampAtMs, this`consecutiveFailureWindows, this`saturationReason
      modifies this`breaches
      ensures Valid() && !Over(phase) && breaches == old(breaches) + old(Due(at))
      ensures old(Due(at)) == [] ==>
                Ramped() == old(Ramped()) && phase == old(phase) && nextRampAtMs == old(nextRampAtMs)
      ensures old(Due(at)) != [] ==> nextRampAtMs == at.later + options.rampIntervalMs
      // in full: nothing moves outside the ramp or before its time; then one window decides
      ensures old(phase) != Ramping || at.due < old(nextRampAtMs) ==> breaches == old(breaches)
      ensures old(phase) == Ramping && at.due >= old(nextRampAtMs) ==>
                && |breaches| == |old(breaches)| + 1
                && Moved(breaches[|old(breaches)|], old(targetRps), old(consecutiveFailureWindows))
    {
      ValidParts();
      if phase == Ramping && at.due >= nextRampAtMs {
        MoveOn(at);
        assert Counted() && Retains();
      }
    }

    /** One turn of the loop. */
    method Turn(now: int, at: Readings)
      requires Valid() && !aborted
      modifies this`phase, this`aborted, this`carry, this`previous, this`issued, this`inFlight, this`ticks
      modifies this`targetRps, this`nextRampAtMs, this`consecutiveFailureWindows, this`saturationReason, this`breaches
      ensures Valid()
      ensures if now >= expiresAtMs then phase == SafetyTimeout else !Over(phase)
      ensures old(issued) <= issued <= old(issued) + (if now < expiresAtMs then PerTickLimit(old(targetRps)) else 0)
      ensures ticks == old(ticks) + (if now < expiresAtMs then [Tick(now, old(targetRps))] else [])
      ensures breaches == old(breaches) + (if now < expiresAtMs then old(Due(at)) else [])
    {
      ValidParts();
      if now >= expiresAtMs {
        phase, aborted := SafetyTimeout, true;
        return;
      }
      ghost var due := Due(at);
      Pace(now);
      assert Due(at) == due;
      EvaluateRamp(at);
    }

    method DropFirst()
      requires Retains() && samples != [] && samples[0].at < horizon
      modifies this`samples, this`trimmed
      ensures Retains() && History() == old(History()) && trimmed == old(trimmed) + [old(samples)[0]]
    {
      assert samples == [samples[0]] + samples[1..];
      trimmed := trimmed + [samples[0]];
      samples := samples[1..];
    }

    /** Samples more than six windows old at the front of the list are dropped. */
    method Trim(now: int)
      requires Retains()
      modifies this`samples, this`trimmed, this`horizon, this`latest
      ensures Retains() && latest == (if now >= old(latest) then now else old(latest))
      ensures samples != [] ==> samples[0].at >= now - 6 * options.metricWindowMs
      ensures old(trimmed) <= trimmed && History() == old(History())
    {
      var cutoff := now - options.metricWindowMs * 6;
      latest := if now >= latest then now else latest;
      horizon := if cutoff >= horizon then cutoff else horizon;
      while samples != [] && samples[0].at < cutoff
        invariant Retains() && cutoff <= horizon && latest == (if now >= old(latest) then now else old(latest))
        invariant old(trimmed) <= trimmed && History() == old(History())
        decreases |samples|
      {
        ghost var before := samples;
        DropFirst();
        assert |samples| == |before| - 1;
      }
    }

    method Tally(ok: bool, tooMany: bool)
      requires Counted() && inFlight > 0 && !(ok && tooMany) && !aborted
      modifies this`inFlight, this`requests, this`accepted, this`rateLimited, this`rejected
      ensures Counted() && inFlight == old(inFlight) - 1 && requests == old(requests) + 1
      ensures accepted == old(accepted) + (if ok then 1 else 0)
      ensures rateLimited == old(rateLimited) + (if tooMany then 1 else 0)
    {
      inFlight, requests := inFlight - 1, requests + 1;
      if ok {
        accepted := accepted + 1;
      } else if tooMany {
        rateLimited := rateLimited + 1;
      } else {
        rejected := rejected + 1;
      }
    }

    method Keep(sample: Sample, now: int)
      requires Retains()
      modifies this`samples, this`trimmed, this`horizon, this`latest
      ensures Retains() && History() == old(History()) + [sample]
      ensures latest == (if now >= old(latest) then now else old(latest))
    {
      assert (trimmed + samples) + [sample] == trimmed + (samples + [sample]);
      samples := samples + [sample];
      Trim(now);
    }

    /** A request is answered, or times out; nothing is counted once the job is over. The clock
        is read for the sample and once more for what may be trimmed. */
    method Settle(ok: bool, tooMany: bool, at: int, now: int)
      requires Valid() && inFlight > 0 && !(ok && tooMany)
      modifies this`inFlight, this`requests, this`accepted, this`rateLimited, this`rejected
      modifies this`samples, this`trimmed, this`horizon, this`latest
      ensures Valid() && inFlight == old(inFlight) - 1
      ensures requests == old(requests) + (if aborted then 0 else 1)
      ensures accepted == old(accepted) + (if !aborted && ok then 1 else 0)
      ensures rateLimited == old(rateLimited) + (if !aborted && tooMany then 1 else 0)
      ensures History() == old(History()) + (if aborted then [] else [Sample(at, ok, tooMany)])
      ensures latest == (if aborted || now < old(latest) then old(latest) else now)
    {
      ValidParts();
      if aborted {
        inFlight := inFlight - 1;
        return;
      }
      Tally(ok, tooMany);
      Keep(Sample(at, ok, tooMany), now);
    }

    /** The job is over, for the given reason. */
    method End(last: Phase)
      requires Valid() && Over(last)
      modifies this`phase, this`aborted
      ensures Valid() && aborted && phase == last
    {
      ValidParts();
      phase, aborted := last, true;
    }

    /** A window that has not been trimmed into reads the same as on the full history. */
    lemma WindowIsExact(after: int)
      requires Valid() && after >= horizon
      ensures Since(samples, after) == Since(History(), after)
    {
      ValidParts();
      TrimmedWindow(trimmed, samples, after);
    }

    lemma WindowIsRetained(at: int)
      requires Valid() && at >= latest
      ensures Since(samples, at - options.metricWindowMs) == Since(History(), at - options.metricWindowMs)
    {
      assert at - options.metricWindowMs >= horizon by {
        ValidParts();
      }
      WindowIsExact(at - options.metricWindowMs);
    }

    /** As long as the clock has not fallen behind what a settling request last read, the ramp
        decides on the retained samples as it would on every sample ever taken. */
    lemma DueIsExact(at: Readings)
      requires Valid() && at.measured >= latest && at.counted >= latest
      ensures Verdict(at) == Breached(Since(History(), at.measured - options.metricWindowMs),
                Since(History(), at.counted - options.metricWindowMs), options)
    {
      WindowIsRetained(at.measured);
      WindowIsRetained(at.counted);
    }

    /** A job counts no more requests than it issued, and issues no more than it owes for its
        targets and its time, nor, if its loop kept up, as much as one less. */
    lemma WithinBudget()
      requires Valid()
      ensures 0.0 <= carry < 1.0
      ensures 1000 * requests <= 1000 * issued <= Owed(loopStart, ticks)
      ensures KeepsUp(loopStart, ticks) ==> 1000 * issued > Owed(loopStart, ticks) - 1000
    {
      ValidParts();
      IssuedWithinBudget(loopStart, ticks);
      IssuedIsOwed(loopStart, ticks);
    }

    /** The ramp has taken no more evaluations than it can, and never exceeds the maximum. */
    lemma WithinBound()
      requires Valid()
      ensures |breaches| <= Bound(options) && options.initialRps <= targetRps <= options.maximumRps
      ensures |breaches| == Bound(options) ==> phase != Ramping
    {
      ValidParts();
      RampSpendsBound(options, breaches);
      EvaluationsAreBounded(options, breaches);
    }
  }

  // --- the controller ------------------------------------------------------------------------

  datatype StartResult = RoomInvalid | AlreadyRunning | Existing(id: nat) | Started(id: nat)

  class AdmissionLoadController {
    const options: Accepted
    var jobs: map<nat, AdmissionJob>
    var activeJobId: Option<nat>
    /** The next job id never used before. */
    var nextId: nat

    /** The active job is the one and only job that is not over. */
    ghost predicate Valid()
      reads this, jobs.Values
    {
      && (forall id | id in jobs :: id < nextId && jobs[id].jobId == id && jobs[id].Valid())
      && (forall id | id in jobs && !Over(jobs[id].phase) :: activeJobId == Some(id))
      && (activeJobId.Some? ==> activeJobId.value in jobs && !Over(jobs[activeJobId.value].phase))
    }

    constructor (options: Options)
      requires Accepts(options)
      ensures Valid() && this.options == options && jobs == map[] && activeJobId == None
    {
      this.options := options;
      jobs, activeJobId, nextId := map[], None, 0;
    }

    /** A second start for the same room is the first one's job; for another room it is refused. */
    method Start(roomId: string, now: int, loopStart: int) returns (r: StartResult)
      requires Valid()
      modifies this
      ensures Valid()
      ensures r.RoomInvalid? <==> !NamesRoom(roomId)
      ensures !r.Started? ==> jobs == old(jobs) && activeJobId == old(activeJobId)
      ensures r.AlreadyRunning? ==> activeJobId.Some? && jobs[activeJobId.value].roomId != roomId
      ensures r.Existing? ==> activeJobId == Some(r.id) && jobs[r.id].roomId == roomId
      ensures r.Started? <==> NamesRoom(roomId) && old(activeJobId) == None
      ensures r.Started? ==>
                && r.id !in old(jobs) && r.id in jobs && jobs == old(jobs)[r.id := jobs[r.id]]
                && activeJobId == Some(r.id)
                && fresh(jobs[r.id]) && jobs[r.id].roomId == roomId && jobs[r.id].phase == Ramping
                && jobs[r.id].ticks == [] && jobs[r.id].breaches == [] && jobs[r.id].loopStart == loopStart
                && jobs[r.id].options == options && jobs[r.id].targetRps == options.initialRps
                && jobs[r.id].expiresAtMs == now + options.safetyTtlMs
                && jobs[r.id].nextRampAtMs == now + options.rampIntervalMs
    {
      RoomNameWrittenOut(roomId);
      if !RoomName(roomId) {
        return RoomInvalid;
      }
      if activeJobId.Some? && activeJobId.value in jobs && !Over(jobs[activeJobId.value].phase) {
        return if jobs[activeJobId.value].roomId == roomId then Existing(activeJobId.value) else AlreadyRunning;
      }
      var id := nextId;
      var job := new AdmissionJob(id, roomId, options, now, loopStart);
      jobs, activeJobId, nextId := jobs[id := job], Some(id), nextId + 1;
      return Started(id);
    }

    method Forget(jobId: nat)
      modifies this`activeJobId
      ensures activeJobId == if old(activeJobId) == Some(jobId) then None else old(activeJobId)
    {
      if activeJobId == Some(jobId) {
        activeJobId := None;
      }
    }

    method Finish(jobId: nat, last: Phase)
      requires Valid() && jobId in jobs && Over(last)
      modifies this`activeJobId, jobs[jobId]
      ensures Valid() && jobs[jobId].phase == last && jobs[jobId].aborted
      ensures activeJobId == if old(activeJobId) == Some(jobId) then None else old(activeJobId)
    {
      var job := jobs[jobId];
      job.End(last);
      forall id | id in jobs && id != jobId
        ensures jobs[id].Valid() && jobs[id].phase == old(jobs[id].phase)
      {
        assert jobs[id] != job;
      }
      Forget(jobId);
    }

    /** Stops a job, however it stands; an unknown id is an error. */
    method Stop(jobId: nat) returns (ok: bool)
      requires Valid()
      modifies this`activeJobId, if jobId in jobs then {jobs[jobId]} else {}
      ensures Valid() && (ok <==> jobId in jobs)
      ensures ok ==> jobs[jobId].phase == Stopped && jobs[jobId].aborted
      ensures activeJobId == if old(activeJobId) == Some(jobId) then None else old(activeJobId)
    {
      ok := jobId in jobs;
      if ok {
        Finish(jobId, Stopped);
      }
    }

    /** A job's loop wakes up; exited says it will not wake again. */
    method Wake(jobId: nat, now: int, at: Readings) returns (exited: bool)
      requires Valid() && jobId in jobs
      modifies this`activeJobId, jobs[jobId]
      ensures Valid() && (exited <==> jobs[jobId].aborted)
      ensures old(jobs[jobId].aborted) ==>
                jobs[jobId].issued == old(jobs[jobId].issued) && jobs[jobId].phase == old(jobs[jobId].phase)
      ensures jobs[jobId].issued - old(jobs[jobId].issued) <= PerTickLimit(old(jobs[jobId].targetRps))
      ensures now >= jobs[jobId].expiresAtMs ==> exited && jobs[jobId].issued == old(jobs[jobId].issued)
      ensures jobs[jobId].ticks == old(jobs[jobId].ticks) +
                if old(jobs[jobId].aborted) || now >= jobs[jobId].expiresAtMs then []
                else [Tick(now, old(jobs[jobId].targetRps))]
      ensures jobs[jobId].breaches == old(jobs[jobId].breaches) +
                if old(jobs[jobId].aborted) || now >= jobs[jobId].expiresAtMs then [] else old(jobs[jobId].Due(at))
      ensures activeJobId == if exited && old(activeJobId) == Some(jobId) then None else old(activeJobId)
    {
      var job := jobs[jobId];
      job.ValidParts();
      if job.aborted {
        return true;
      }
      job.Turn(now, at);
      job.ValidParts();
      forall id | id in jobs && id != jobId
        ensures jobs[id].Valid() && jobs[id].phase == old(jobs[id].phase)
      {
        assert jobs[id] != job;
      }
      if job.aborted {
        Forget(jobId);
      }
      return job.aborted;
    }

    /** A job's loop threw. */
    method Crash(jobId: nat)
      requires Valid() && jobId in jobs
      modifies this`activeJobId, jobs[jobId]
      ensures Valid() && jobs[jobId].phase == Failed && jobs[jobId].aborted
      ensures activeJobId == if old(activeJobId) == Some(jobId) then None else old(activeJobId)
    {
      Finish(jobId, Failed);
    }

    /** One of a job's requests is answered, or times out. */
    method Answer(jobId: nat, ok: bool, tooMany: bool, at: int, now: int)
      requires Valid() && jobId in jobs && jobs[jobId].inFlight > 0 && !(ok && tooMany)
      modifies jobs[jobId]
      ensures Valid() && jobs[jobId].phase == old(jobs[jobId].phase)
      ensures old(jobs[jobId].aborted) ==>
                jobs[jobId].requests == old(jobs[jobId].requests) && jobs[jobId].accepted == old(jobs[jobId].accepted)
      ensures !old(jobs[jobId].aborted) ==>
                && jobs[jobId].requests == old(jobs[jobId].requests) + 1
                && jobs[jobId].accepted == old(jobs[jobId].accepted) + (if ok then 1 else 0)
                && jobs[jobId].History() == old(jobs[jobId].History()) + [Sample(at, ok, tooMany)]
    {
      var job := jobs[jobId];
      job.Settle(ok, tooMany, at, now);
      forall id | id in jobs && id != jobId
        ensures jobs[id].Valid() && jobs[id].phase == old(jobs[id].phase)
      {
        assert jobs[id] != job;
      }
    }
  }

  /** The options a controller is built with are checked first. */
  method NewController(options: Options) returns (controller: Option<AdmissionLoadController>)
    ensures controller.Some? <==> InBounds(options)
    ensures controller.Some? ==>
              controller.value.Valid() && controller.value.jobs == map[] && controller.value.options == options
  {
    if !Accepts(options) {
      return None;
    }
    var built := new AdmissionLoadController(options);
    return Some(built);
  }
}
