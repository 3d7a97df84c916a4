/**
 The coordinator of one room's handoff (services/room-orchestrator/src/handoff.ts): the
 forward path, and the catch block that must choose between abort, rollback, retain and
 discard without knowing whether a failed call took effect.
 */
module HandoffCoordinator {
  import opened HandoffWorld
  import opened HandoffCluster
  import opened HandoffDriver
  import opened Wrappers

  datatype Stage =
    | Schedule | Ready | Freeze | Snapshot | Journal | CompareChecksum | Activate | Cutover | Verify | Drain

  datatype Rollback =
    | ActivePreserved
    | ActiveResumed
    | GatewayAbortFailed
    | GatewayRolledBack
    | RollbackFailedCandidateRetained
    | CandidateRetainedAfterDrainFailure

  /** What the coordinator believes about the run; the catch block has nothing else to go by. */
  datatype Progress = Progress(
    stage: Stage,
    candidateKnown: bool,
    gatewayFrozen: bool,
    transferStarted: bool,
    authorityCommitted: bool,
    cutoverCommitted: bool,
    committedEpoch: nat)

  /** discarded: the coordinator asked the driver to give up the candidate. */
  datatype Report = Report(stage: Stage, epoch: nat, rollback: Rollback, discarded: bool)

  /** The epoch last granted to a leader. */
  function LeaseEpoch(w: World): nat {
    if w.oldPod.Leads() then w.oldPod.epoch
    else if w.newPod.Leads() then w.newPod.epoch
    else if w.oldPod.epoch <= w.newPod.epoch then w.newPod.epoch else w.oldPod.epoch
  }

  /** What the coordinator's beliefs, right or lagging, say about the world when it fails. */
  ghost predicate Consistent(p: Progress, w: World, e: nat) {
    && (!p.transferStarted ==>
          Serving(w, e) && !p.authorityCommitted && !p.cutoverCommitted && p.committedEpoch == e && p.stage != Drain)
    && (p.transferStarted && !p.authorityCommitted ==>
          (Serving(w, e) || OldReleased(w, e) || AwaitingCutover(w, e)) && p.committedEpoch == e && p.stage != Drain)
    && (p.transferStarted && p.authorityCommitted && p.stage != Drain ==>
          (AwaitingCutover(w, e) || CutOver(w, e)) && p.committedEpoch == e + 1)
    && (p.stage == Drain ==> (CutOver(w, e) || Drained(w, e)) && p.authorityCommitted && p.committedEpoch == e + 1)
    && (p.transferStarted <==> p.stage in {Activate, Cutover, Verify, Drain})
    && (p.transferStarted ==> w.newPod.alive)
    && (!p.transferStarted ==> (p.gatewayFrozen <==> p.stage in {Snapshot, Journal, CompareChecksum}))
  }

  /** Where each reported way out leaves the room. */
  ghost predicate Settled(r: Report, w: World, e: nat) {
    && r.epoch <= LeaseEpoch(w)
    && (r.discarded ==> r.rollback in {ActivePreserved, ActiveResumed, GatewayRolledBack} && OldServes(w))
    && match r.rollback
       case ActivePreserved => Serving(w, e) && r.stage in {Schedule, Ready, Freeze}
       case ActiveResumed => Serving(w, e) && r.stage in {Snapshot, Journal, CompareChecksum}
       case GatewayAbortFailed => Serving(w, e) && r.stage in {Snapshot, Journal, CompareChecksum}
       case GatewayRolledBack => OldServes(w) && r.epoch == w.oldPod.epoch && r.stage in {Activate, Cutover, Verify}
       case RollbackFailedCandidateRetained =>
         && r.stage in {Activate, Cutover, Verify} && w.newPod.alive
         && (Serving(w, e) || OldReleased(w, e) || AwaitingCutover(w, e) || CutOver(w, e)
             || NewReleased(w, e) || AwaitingReturn(w, e) || RolledBack(w, e))
       case CandidateRetainedAfterDrainFailure =>
         (CutOver(w, e) || Drained(w, e)) && r.stage == Drain && r.epoch == e + 1
  }

  /** The events of a handoff. */
  datatype Subject =
    | RolloutWaveStarted | RoomCandidateScheduled | RoomCandidateReady
    | RoomSnapshotSeeded | RoomJournalCaughtUp | RoomChecksumMatched | RoomChecksumMismatched
    | RoomEpochFenced | RoomGatewayCutover | RoomInputReplayCompleted
    | RoomPostVerificationCompleted | RoomOldPodDrained | RolloutWaveCompleted
    | RoomHandoffFailed | RolloutWaveBlocked

  const LAUNCHED := [RolloutWaveStarted, RoomCandidateScheduled] + [RoomCandidateReady]
  const REPLICATED := [RoomSnapshotSeeded] + [RoomJournalCaughtUp]
  const TRANSFERRED := [RoomEpochFenced] + [RoomGatewayCutover, RoomInputReplayCompleted]
  const COMPLETED := [RoomPostVerificationCompleted] + [RoomOldPodDrained, RolloutWaveCompleted]
  const PREPARED := LAUNCHED + (REPLICATED + [RoomChecksumMatched])
  const MISMATCHED := LAUNCHED + (REPLICATED + [RoomChecksumMismatched])
  const FORWARD := PREPARED + (TRANSFERRED + COMPLETED)

  /** The story went on by the first events of a script, or by all of them. */
  ghost predicate Told(before: seq<Subject>, after: seq<Subject>, script: seq<Subject>, whole: bool) {
    && |before| <= |after| <= |before| + |script|
    && after == before + script[..|after| - |before|]
    && (whole ==> |after| == |before| + |script|)
  }

  /** Up to a point of the forward path, or of the path on which the checksums differ. */
  ghost predicate Interrupted(before: seq<Subject>, after: seq<Subject>, forward: seq<Subject>,
                              mismatch: seq<Subject>) {
    Told(before, after, forward, false) || Told(before, after, mismatch, false)
  }

  lemma ToldOn(a: seq<Subject>, b: seq<Subject>, c: seq<Subject>, first: seq<Subject>, second: seq<Subject>,
               whole: bool)
    requires Told(a, b, first, true) && Told(b, c, second, whole)
    ensures Told(a, c, first + second, whole)
  {
    assert first[..|first|] == first;
    assert (first + second)[..|c| - |a|] == first + second[..|c| - |b|];
  }

  lemma ToldLess(a: seq<Subject>, b: seq<Subject>, first: seq<Subject>, second: seq<Subject>)
    requires Told(a, b, first, false)
    ensures Told(a, b, first + second, false)
  {
    assert (first + second)[..|b| - |a|] == first[..|b| - |a|];
  }

  /** A failed run is told up to where it was interrupted, and then that it failed. */
  ghost predicate FailureTold(before: seq<Subject>, after: seq<Subject>) {
    exists middle :: Interrupted(before, middle, FORWARD, MISMATCHED)
                     && Told(middle, after, [RoomHandoffFailed, RolloutWaveBlocked], false)
  }

  lemma InTurn(before: seq<Deed>, first: seq<Deed>, second: seq<Deed>, third: seq<Deed>)
    ensures before + first + second + third == before + (first + (second + third))
  {
  }

  class RoomHandoffCoordinator {
    const driver: KubernetesRoomHandoffDriver
    const totalWaves: nat
    var activeOperation: Option<OperationId>
    var progress: Progress
    var report: Option<Report>
    /** The events the authority was reported to have accepted. */
    ghost var announced: seq<Subject>

    constructor (driver: KubernetesRoomHandoffDriver, totalWaves: nat)
      ensures this.driver == driver && this.totalWaves == totalWaves && activeOperation == None
    {
      this.driver := driver;
      this.totalWaves := totalWaves;
      activeOperation, report := None, None;
      progress := Progress(Schedule, false, false, false, false, false, 0);
      announced := [];
    }

    /** What is done beyond the world to schedule a candidate. */
    ghost function Scheduling(): seq<Deed> {
      [TemplateRead, TemplatePatched] + driver.Labels(driver.currentEpoch)
    }

    /** And in a whole handoff that succeeds. */
    ghost function WholeHandoff(operationId: OperationId): seq<Deed> {
      Scheduling() + ([SnapshotSaved(OldPod)] + HandingOver(operationId))
    }

    /** In moving the lease and the route, and confirming it. */
    ghost function HandingOver(operationId: OperationId): seq<Deed> {
      driver.Swapped(driver.currentEpoch) + [Finalized(operationId, driver.currentEpoch + 1)]
    }

    /** The event authority may reject any event. */
    method Publish(subject: Subject) returns (r: Answer<()>)
      modifies this`announced, driver.cluster`setbacks
      ensures r.Err? ==> r.error == PublishFailed
      ensures announced == old(announced) + (if r.Ok? then [subject] else [])
      ensures driver.cluster.setbacks == old(driver.cluster.setbacks) + (if r.Ok? then 0 else 1)
    {
      var rejected := driver.cluster.Chance();
      r := if rejected then Err(PublishFailed) else Ok(());
      announced := announced + (if rejected then [] else [subject]);
    }

    /** Two events in a row, up to the first refusal. */
    method PublishBoth(first: Subject, second: Subject) returns (r: Answer<()>)
      modifies this`announced, driver.cluster`setbacks
      ensures r.Err? ==> r.error == PublishFailed
      ensures Told(old(announced), announced, [first, second], r.Ok?)
      ensures driver.cluster.setbacks == old(driver.cluster.setbacks) + (if r.Ok? then 0 else 1)
    {
      r := Publish(first);
      if r.Ok? {
        r := Publish(second);
      }
    }

    /** The wave is announced and a candidate scheduled. */
    method StartWave(operationId: OperationId) returns (r: Answer<()>)
      requires driver.cluster.Valid() && Serving(driver.cluster.w, driver.currentEpoch)
      modifies this`announced, driver, driver.cluster
      ensures driver.cluster.Valid() && Quietly(old(driver.cluster.run), driver.cluster.run)
      ensures Serving(driver.cluster.w, driver.currentEpoch)
      ensures r.Ok? ==> driver.cluster.w.newPod.alive && driver.Serves(operationId)
      ensures r.Err? ==> !r.error.CutoverCommitted?
      ensures driver.cluster.setbacks >= old(driver.cluster.setbacks)
      ensures driver.cluster.setbacks == old(driver.cluster.setbacks) ==> (old(driver.context) == None ==> r.Ok?)
      ensures Told(old(announced), announced, [RolloutWaveStarted], r.Ok?)
      ensures r.Ok? ==> driver.cluster.deeds == old(driver.cluster.deeds) + Scheduling()
    {
      var _ :- Publish(RolloutWaveStarted);
      r := driver.ScheduleCandidate(operationId);
    }

    /** A candidate of the right revision is scheduled. */
    method Announce(operationId: OperationId) returns (r: Answer<()>)
      requires driver.cluster.Valid() && Serving(driver.cluster.w, driver.currentEpoch)
      requires !progress.candidateKnown
      modifies this`progress, this`announced, driver, driver.cluster
      ensures driver.cluster.Valid() && Quietly(old(driver.cluster.run), driver.cluster.run)
      ensures Serving(driver.cluster.w, driver.currentEpoch)
      ensures progress == old(progress).(candidateKnown := progress.candidateKnown)
      ensures r.Ok? ==> progress.candidateKnown && driver.cluster.w.newPod.alive && driver.Serves(operationId)
      ensures r.Err? ==> !r.error.CutoverCommitted?
      ensures driver.cluster.setbacks >= old(driver.cluster.setbacks)
      ensures driver.cluster.setbacks == old(driver.cluster.setbacks) ==> (old(driver.context) == None ==> r.Ok?)
      ensures Told(old(announced), announced, [RolloutWaveStarted, RoomCandidateScheduled], r.Ok?)
      ensures r.Ok? ==> driver.cluster.deeds == old(driver.cluster.deeds) + Scheduling()
    {
      var _ :- StartWave(operationId);
      progress := progress.(candidateKnown := true);
      var mismatch := driver.cluster.Chance();
      if mismatch {
        return Err(CandidateRevisionMismatch);
      }
      r := Publish(RoomCandidateScheduled);
    }

    /** A candidate that is up, of the right revision, and not yet leading. */
    method Launch(operationId: OperationId) returns (r: Answer<()>)
      requires driver.cluster.Valid() && Serving(driver.cluster.w, driver.currentEpoch)
      requires progress == Progress(Schedule, false, false, false, false, false, driver.currentEpoch)
      modifies this`progress, this`announced, driver, driver.cluster
      ensures driver.cluster.Valid() && Quietly(old(driver.cluster.run), driver.cluster.run)
      ensures Serving(driver.cluster.w, driver.currentEpoch)
      ensures progress == old(progress).(stage := progress.stage, candidateKnown := progress.candidateKnown)
      ensures progress.stage in {Schedule, Ready} && (r.Ok? ==> progress.stage == Ready)
      ensures r.Ok? ==> progress.candidateKnown && driver.cluster.w.newPod.alive
      ensures r.Err? ==> !r.error.CutoverCommitted?
      ensures r.Ok? ==> driver.Serves(operationId)
      ensures driver.cluster.setbacks >= old(driver.cluster.setbacks)
      ensures driver.cluster.setbacks == old(driver.cluster.setbacks) ==> (old(driver.context) == None ==> r.Ok?)
      ensures Told(old(announced), announced, LAUNCHED, r.Ok?)
      ensures r.Ok? ==> driver.cluster.deeds == old(driver.cluster.deeds) + Scheduling()
    {
      ghost var start := driver.cluster.run;
      var _ :- Announce(operationId);
      ghost var announced := driver.cluster.run;
      progress := progress.(stage := Ready);
      r := driver.WaitUntilReady();
      QuietlyTwice(start, announced, driver.cluster.run);
      if r.Ok? {
        r := Publish(RoomCandidateReady);
      }
    }

    /** Seeds the candidate, with the gateway frozen. */
    method TakeSnapshot() returns (r: Answer<()>)
      requires driver.cluster.Valid() && Serving(driver.cluster.w, driver.currentEpoch)
      modifies this`progress, this`announced, driver, driver.cluster
      ensures driver.cluster.Valid() && old(driver.cluster.run) <= driver.cluster.run
      ensures Serving(driver.cluster.w, driver.currentEpoch)
      ensures progress == old(progress).(stage := Snapshot)
      ensures r.Err? ==> !r.error.CutoverCommitted?
      ensures driver.cluster.w.preparations == old(driver.cluster.w).preparations
      ensures old(driver.cluster.w).newPod.alive ==> driver.cluster.w.newPod.alive
      ensures old(driver.KnowsCandidate()) ==> driver.KnowsCandidate() && SameRun(old(driver.context), driver.context)
      ensures driver.cluster.setbacks >= old(driver.cluster.setbacks)
      ensures driver.cluster.setbacks == old(driver.cluster.setbacks) ==> (old(driver.KnowsCandidate()) ==> r.Ok?)
      ensures Told(old(announced), announced, [RoomSnapshotSeeded], r.Ok?)
      ensures r.Ok? ==> driver.cluster.deeds == old(driver.cluster.deeds) + [SnapshotSaved(OldPod)]
    {
      progress := progress.(stage := Snapshot);
      var _ :- driver.SeedSnapshot();
      r := Publish(RoomSnapshotSeeded);
    }

    /** Lets the candidate catch up. */
    method CatchUp() returns (r: Answer<Checksum>)
      requires driver.cluster.Valid() && Serving(driver.cluster.w, driver.currentEpoch)
      modifies this`progress, this`announced, driver, driver.cluster
      ensures driver.cluster.Valid() && old(driver.cluster.run) <= driver.cluster.run
      ensures Serving(driver.cluster.w, driver.currentEpoch)
      ensures progress == old(progress).(stage := Journal)
      ensures r.Err? ==> !r.error.CutoverCommitted?
      ensures driver.cluster.w.preparations == old(driver.cluster.w).preparations
      ensures old(driver.cluster.w).newPod.alive ==> driver.cluster.w.newPod.alive
      ensures old(driver.KnowsCandidate()) ==> SameRun(old(driver.context), driver.context)
      ensures driver.cluster.setbacks >= old(driver.cluster.setbacks)
      ensures driver.cluster.setbacks == old(driver.cluster.setbacks) ==>
                (old(driver.KnowsCandidate()) ==> r.Ok? && driver.cluster.w.newPod.state == r.value.of)
      ensures Told(old(announced), announced, [RoomJournalCaughtUp], r.Ok?)
      ensures r.Ok? ==> driver.ReportedCaughtUp(r.value)
      ensures driver.cluster.deeds == old(driver.cluster.deeds)
    {
      progress := progress.(stage := Journal);
      var expectedChecksum :- driver.CatchUpJournal();
      var _ :- Publish(RoomJournalCaughtUp);
      return Ok(expectedChecksum);
    }

    /** Seeds the candidate and lets it catch up, with the gateway frozen. */
    method Replicate() returns (r: Answer<Checksum>)
      requires driver.cluster.Valid() && Serving(driver.cluster.w, driver.currentEpoch)
      modifies this`progress, this`announced, driver, driver.cluster
      ensures driver.cluster.Valid() && old(driver.cluster.run) <= driver.cluster.run
      ensures Serving(driver.cluster.w, driver.currentEpoch)
      ensures progress == old(progress).(stage := progress.stage) && progress.stage in {Snapshot, Journal}
      ensures r.Err? ==> !r.error.CutoverCommitted?
      ensures driver.cluster.w.preparations == old(driver.cluster.w).preparations
      ensures old(driver.cluster.w).newPod.alive ==> driver.cluster.w.newPod.alive
      ensures old(driver.KnowsCandidate()) ==> SameRun(old(driver.context), driver.context)
      ensures driver.cluster.setbacks >= old(driver.cluster.setbacks)
      ensures driver.cluster.setbacks == old(driver.cluster.setbacks) ==>
                (old(driver.KnowsCandidate()) ==> r.Ok? && driver.cluster.w.newPod.state == r.value.of)
      ensures Told(old(announced), announced, REPLICATED, r.Ok?)
      ensures r.Ok? ==> driver.ReportedCaughtUp(r.value)
      ensures r.Ok? ==> driver.cluster.deeds == old(driver.cluster.deeds) + [SnapshotSaved(OldPod)]
    {
      var _ :- TakeSnapshot();
      r := CatchUp();
    }

    /** At its last answer the candidate was ready, caught up and at this checksum. */
    ghost predicate Matched(checksum: Checksum)
      reads driver.cluster
    {
      && NewPod in driver.cluster.reported
      && var status := driver.cluster.reported[NewPod];
      && status.ready && status.caughtUp && status.checksum == Some(checksum)
    }

    method CompareChecksums(expectedChecksum: Checksum) returns (r: Answer<()>)
      requires driver.cluster.Valid() && Serving(driver.cluster.w, driver.currentEpoch)
      modifies this`progress, this`announced, driver.cluster
      ensures driver.cluster.Valid() && old(driver.cluster.run) <= driver.cluster.run
      ensures Serving(driver.cluster.w, driver.currentEpoch)
      ensures progress == old(progress).(stage := CompareChecksum)
      ensures r.Err? ==> !r.error.CutoverCommitted?
      ensures driver.cluster.w.preparations == old(driver.cluster.w).preparations
      ensures old(driver.cluster.w).newPod.alive ==> driver.cluster.w.newPod.alive
      ensures driver.cluster.setbacks >= old(driver.cluster.setbacks)
      ensures driver.cluster.setbacks == old(driver.cluster.setbacks) ==>
                (old(driver.cluster.w).newPod.state == expectedChecksum.of ==> r.Ok?)
      // only a candidate that reported the expected checksum, ready and caught up, goes on
      ensures r.Ok? ==> Matched(expectedChecksum)
      ensures if r.Ok? then Told(old(announced), announced, [RoomChecksumMatched], true)
              else Interrupted(old(announced), announced, [RoomChecksumMatched], [RoomChecksumMismatched])
      ensures driver.cluster.deeds == old(driver.cluster.deeds)
      // a mismatch is announced before it is reported
      ensures driver.cluster.setbacks == old(driver.cluster.setbacks) && r.Err? ==>
                announced == old(announced) + [RoomChecksumMismatched]
    {
      progress := progress.(stage := CompareChecksum);
      var candidateChecksum :- driver.CandidateChecksum();
      if candidateChecksum != expectedChecksum {
        var _ :- Publish(RoomChecksumMismatched);
        return Err(ChecksumMismatch);
      }
      r := Publish(RoomChecksumMatched);
    }

    /** The candidate is brought level with the serving pod, or found not to be. */
    method Match() returns (r: Answer<Checksum>)
      requires driver.cluster.Valid() && Serving(driver.cluster.w, driver.currentEpoch)
      modifies this`progress, this`announced, driver, driver.cluster
      ensures driver.cluster.Valid() && old(driver.cluster.run) <= driver.cluster.run
      ensures Serving(driver.cluster.w, driver.currentEpoch)
      ensures progress == old(progress).(stage := progress.stage)
      ensures progress.stage in {Snapshot, Journal, CompareChecksum}
      ensures r.Err? ==> !r.error.CutoverCommitted?
      ensures driver.cluster.w.preparations == old(driver.cluster.w).preparations
      ensures old(driver.cluster.w).newPod.alive ==> driver.cluster.w.newPod.alive
      ensures old(driver.KnowsCandidate()) ==> SameRun(old(driver.context), driver.context)
      ensures driver.cluster.setbacks >= old(driver.cluster.setbacks)
      ensures driver.cluster.setbacks == old(driver.cluster.setbacks) ==> (old(driver.KnowsCandidate()) ==> r.Ok?)
      ensures r.Ok? ==> Matched(r.value)
      ensures if r.Ok? then Told(old(announced), announced, REPLICATED + [RoomChecksumMatched], true)
              else Interrupted(old(announced), announced, REPLICATED + [RoomChecksumMatched],
                               REPLICATED + [RoomChecksumMismatched])
      ensures r.Ok? ==> driver.cluster.deeds == old(driver.cluster.deeds) + [SnapshotSaved(OldPod)]
    {
      ghost var before := announced;
      var replicated := Replicate();
      if replicated.Err? {
        ToldLess(before, announced, REPLICATED, [RoomChecksumMatched]);
        return Err(replicated.error);
      }
      ghost var middle := announced;
      var compared := CompareChecksums(replicated.value);
      if Told(middle, announced, [RoomChecksumMatched], compared.Ok?) {
        ToldOn(before, middle, announced, REPLICATED, [RoomChecksumMatched], compared.Ok?);
      } else {
        ToldOn(before, middle, announced, REPLICATED, [RoomChecksumMismatched], false);
      }
      r := if compared.Ok? then replicated else Err(compared.error);
    }

    /** A candidate, and the gateway frozen for it. A freeze that took effect unanswered stays. */
    method LaunchAndFreeze(operationId: OperationId) returns (r: Answer<()>)
      requires driver.cluster.Valid() && Serving(driver.cluster.w, driver.currentEpoch)
      requires progress == Progress(Schedule, false, false, false, false, false, driver.currentEpoch)
      modifies this`progress, this`announced, driver, driver.cluster
      ensures driver.cluster.Valid() && old(driver.cluster.run) <= driver.cluster.run
      ensures Serving(driver.cluster.w, driver.currentEpoch)
      ensures progress == old(progress).(stage := progress.stage, candidateKnown := progress.candidateKnown)
      ensures progress.stage in {Schedule, Ready, Freeze}
      ensures progress.stage in {Schedule, Ready} ==> Quietly(old(driver.cluster.run), driver.cluster.run)
      ensures progress.stage == Freeze ==> FreezeStays(old(driver.cluster.run), driver.cluster.run, operationId)
      ensures r.Ok? ==>
                progress.stage == Freeze && progress.candidateKnown && operationId in driver.cluster.w.preparations
      ensures r.Ok? ==> driver.cluster.w.newPod.alive && driver.Serves(operationId)
      ensures r.Err? ==> !r.error.CutoverCommitted?
      ensures driver.cluster.setbacks >= old(driver.cluster.setbacks)
      ensures driver.cluster.setbacks == old(driver.cluster.setbacks) ==> (old(driver.context) == None ==> r.Ok?)
      ensures Told(old(announced), announced, LAUNCHED, r.Ok?)
      ensures r.Ok? ==> driver.cluster.deeds == old(driver.cluster.deeds) + Scheduling()
    {
      ghost var start := driver.cluster.run;
      var _ :- Launch(operationId);
      progress := progress.(stage := Freeze);
      ghost var launched := driver.cluster.run;
      r := driver.FreezeGateway(operationId);
      FreezeOutcomeStays(launched, driver.cluster.run, operationId, r.Ok?);
      FreezeStaysQuietly(start, launched, driver.cluster.run, driver.cluster.run, operationId);
    }

    /** Schedule to checksum: everything before authority moves. */
    method Prepare(operationId: OperationId) returns (r: Answer<Checksum>)
      requires driver.cluster.Valid() && Serving(driver.cluster.w, driver.currentEpoch)
      requires progress == Progress(Schedule, false, false, false, false, false, driver.currentEpoch)
      modifies this`progress, this`announced, driver, driver.cluster
      ensures driver.cluster.Valid() && old(driver.cluster.run) <= driver.cluster.run
      ensures Consistent(progress, driver.cluster.w, driver.currentEpoch) && !progress.transferStarted
      ensures progress.stage in {Schedule, Ready} ==> Quietly(old(driver.cluster.run), driver.cluster.run)
      ensures progress.stage == Freeze ==> FreezeStays(old(driver.cluster.run), driver.cluster.run, operationId)
      ensures r.Ok? ==> progress.candidateKnown && progress.gatewayFrozen
      ensures r.Err? ==> !r.error.CutoverCommitted?
      ensures r.Ok? ==> operationId in driver.cluster.w.preparations && driver.cluster.w.newPod.alive
      ensures r.Ok? ==> driver.Serves(operationId)
      ensures driver.cluster.setbacks >= old(driver.cluster.setbacks)
      ensures driver.cluster.setbacks == old(driver.cluster.setbacks) ==> (old(driver.context) == None ==> r.Ok?)
      ensures r.Ok? ==> Matched(r.value)
      ensures if r.Ok? then Told(old(announced), announced, PREPARED, true)
              else Interrupted(old(announced), announced, PREPARED, MISMATCHED)
      ensures r.Ok? ==> driver.cluster.deeds == old(driver.cluster.deeds) + Scheduling() + [SnapshotSaved(OldPod)]
    {
      ghost var before := announced;
      var launched := LaunchAndFreeze(operationId);
      if launched.Err? {
        ToldLess(before, announced, LAUNCHED, REPLICATED + [RoomChecksumMatched]);
        return Err(launched.error);
      }
      progress := progress.(gatewayFrozen := true);
      ghost var middle := announced;
      r := Match();
      if Told(middle, announced, REPLICATED + [RoomChecksumMatched], r.Ok?) {
        ToldOn(before, middle, announced, LAUNCHED, REPLICATED + [RoomChecksumMatched], r.Ok?);
      } else {
        ToldOn(before, middle, announced, LAUNCHED, REPLICATED + [RoomChecksumMismatched], false);
      }
    }

    /** The lease moves to the candidate. */
    method MoveLease(preflight: Checksum) returns (r: Answer<Checksum>)
      requires driver.cluster.Valid() && Serving(driver.cluster.w, driver.currentEpoch)
      requires !progress.transferStarted && Consistent(progress, driver.cluster.w, driver.currentEpoch)
      requires driver.cluster.w.newPod.alive
      modifies this`progress, this`announced, driver, driver.cluster
      ensures driver.cluster.Valid() && old(driver.cluster.run) <= driver.cluster.run
      ensures Consistent(progress, driver.cluster.w, driver.currentEpoch)
      ensures progress.transferStarted && progress.stage == Activate &&
                progress.candidateKnown == old(progress).candidateKnown
      ensures SameRun(old(driver.context), driver.context)
      ensures r.Ok? ==>
                && progress.authorityCommitted && AwaitingCutover(driver.cluster.w, driver.currentEpoch)
                && (driver.KnowsCandidate() ==> driver.ProvenTransfer(driver.currentEpoch + 1, r.value))
      ensures r.Err? ==> !r.error.CutoverCommitted?
      ensures driver.cluster.setbacks >= old(driver.cluster.setbacks)
      ensures driver.cluster.setbacks == old(driver.cluster.setbacks) ==> (old(driver.KnowsCandidate()) ==> r.Ok?)
      ensures Told(old(announced), announced, [RoomEpochFenced], r.Ok?)
      ensures !CutOver(driver.cluster.w, driver.currentEpoch)
      ensures r.Ok? ==> driver.cluster.deeds == old(driver.cluster.deeds) + driver.Swapped(driver.currentEpoch)
    {
      progress := progress.(stage := Activate, transferStarted := true);
      var checksum :- driver.ActivateCandidate(driver.currentEpoch + 1, preflight);
      progress := progress.(authorityCommitted := true, committedEpoch := driver.currentEpoch + 1);
      var _ :- Publish(RoomEpochFenced);
      return Ok(checksum);
    }

    /** The route follows the lease. */
    method Reroute(operationId: OperationId, checksum: Checksum) returns (r: Answer<()>)
      requires driver.cluster.Valid() && Consistent(progress, driver.cluster.w, driver.currentEpoch)
      requires progress.transferStarted && progress.authorityCommitted && progress.stage == Activate
      requires AwaitingCutover(driver.cluster.w, driver.currentEpoch)
      modifies this`progress, this`announced, driver, driver.cluster
      ensures driver.cluster.Valid() && old(driver.cluster.run) <= driver.cluster.run
      ensures Consistent(progress, driver.cluster.w, driver.currentEpoch)
      ensures progress.transferStarted && progress.authorityCommitted && progress.stage == Cutover
      ensures progress.candidateKnown == old(progress).candidateKnown && SameRun(old(driver.context), driver.context)
      ensures r.Ok? ==> progress.cutoverCommitted && driver.context == old(driver.context)
      ensures r.Err? && r.error.CutoverCommitted? ==> r.error.epoch == driver.currentEpoch + 1
      ensures driver.cluster.setbacks >= old(driver.cluster.setbacks)
      ensures driver.cluster.setbacks == old(driver.cluster.setbacks) ==>
                (old(driver.Serves(operationId) && driver.ProvenTransfer(driver.currentEpoch + 1, checksum)) ==>
                   r.Ok? && CutOver(driver.cluster.w, driver.currentEpoch))
      ensures Told(old(announced), announced, [RoomGatewayCutover, RoomInputReplayCompleted], r.Ok?)
      ensures CutOver(driver.cluster.w, driver.currentEpoch) ==> operationId !in driver.cluster.w.preparations
      ensures driver.cluster.deeds == old(driver.cluster.deeds)
    {
      progress := progress.(stage := Cutover);
      var _ :- driver.CutoverGateway(operationId, driver.currentEpoch + 1, checksum);
      assert AwaitingCutover(driver.cluster.w, driver.currentEpoch) || CutOver(driver.cluster.w, driver.currentEpoch);
      progress := progress.(cutoverCommitted := true, gatewayFrozen := false);
      r := PublishBoth(RoomGatewayCutover, RoomInputReplayCompleted);
    }

    /** Activation, then the route. */
    method Transfer(operationId: OperationId, preflight: Checksum) returns (r: Answer<Checksum>)
      requires driver.cluster.Valid() && Serving(driver.cluster.w, driver.currentEpoch)
      requires !progress.transferStarted && Consistent(progress, driver.cluster.w, driver.currentEpoch)
      requires driver.cluster.w.newPod.alive && driver.Serves(operationId)
      modifies this`progress, this`announced, driver, driver.cluster
      ensures driver.cluster.Valid() && old(driver.cluster.run) <= driver.cluster.run
      ensures Consistent(progress, driver.cluster.w, driver.currentEpoch)
      ensures progress.transferStarted && progress.stage in {Activate, Cutover}
      ensures progress.candidateKnown == old(progress).candidateKnown
      ensures r.Ok? ==> progress.authorityCommitted && progress.cutoverCommitted && progress.stage == Cutover
      ensures r.Ok? ==> driver.ProvenTransfer(driver.currentEpoch + 1, r.value)
      ensures r.Err? && r.error.CutoverCommitted? ==>
                progress.authorityCommitted && r.error.epoch == driver.currentEpoch + 1
      ensures driver.cluster.setbacks >= old(driver.cluster.setbacks)
      ensures driver.cluster.setbacks == old(driver.cluster.setbacks) ==>
                r.Ok? && CutOver(driver.cluster.w, driver.currentEpoch)
      ensures Told(old(announced), announced, TRANSFERRED, r.Ok?)
      ensures CutOver(driver.cluster.w, driver.currentEpoch) ==> operationId !in driver.cluster.w.preparations
      ensures r.Ok? ==> driver.cluster.deeds == old(driver.cluster.deeds) + driver.Swapped(driver.currentEpoch)
    {
      var checksum :- MoveLease(preflight);
      var _ :- Reroute(operationId, checksum);
      return Ok(checksum);
    }

    /** The cutover is announced, and the gateway told that it is final. */
    method ConfirmToGateway(operationId: OperationId) returns (r: Answer<()>)
      requires driver.cluster.Valid()
      modifies this`announced, driver.cluster`w, driver.cluster`run, driver.cluster`setbacks
      modifies driver.cluster`deeds
      ensures driver.cluster.Valid() && Idle(old(driver.cluster.w), driver.cluster.w)
      ensures old(driver.cluster.run) <= driver.cluster.run
      ensures r.Err? ==> !r.error.CutoverCommitted?
      ensures driver.cluster.setbacks >= old(driver.cluster.setbacks)
      ensures driver.cluster.setbacks == old(driver.cluster.setbacks) ==> r.Ok?
      ensures Told(old(announced), announced, [RoomPostVerificationCompleted], r.Ok?)
      ensures r.Ok? ==>
                driver.cluster.deeds == old(driver.cluster.deeds) + [Finalized(operationId, driver.currentEpoch + 1)]
    {
      var _ :- Publish(RoomPostVerificationCompleted);
      r := driver.FinalizeGateway(operationId, driver.currentEpoch + 1);
    }

    /** Proof that the candidate leads, is routed to and has kept its sessions. */
    method Confirm(operationId: OperationId, checksum: Checksum) returns (r: Answer<()>)
      requires driver.cluster.Valid() && Consistent(progress, driver.cluster.w, driver.currentEpoch)
      requires progress.transferStarted && progress.authorityCommitted && progress.stage == Cutover
      modifies this`progress, this`announced, driver.cluster
      ensures driver.cluster.Valid() && old(driver.cluster.run) <= driver.cluster.run
      ensures progress == old(progress).(stage := Verify)
      ensures Consistent(progress, driver.cluster.w, driver.currentEpoch)
      ensures r.Ok? ==> CutOver(driver.cluster.w, driver.currentEpoch)
      ensures r.Err? ==> !r.error.CutoverCommitted?
      ensures driver.cluster.setbacks >= old(driver.cluster.setbacks)
      ensures driver.cluster.setbacks == old(driver.cluster.setbacks) ==>
                (CutOver(old(driver.cluster.w), driver.currentEpoch)
                 && driver.ProvenTransfer(driver.currentEpoch + 1, checksum) ==>
                   r.Ok?)
      ensures Told(old(announced), announced, [RoomPostVerificationCompleted], r.Ok?)
      ensures r.Ok? ==> driver.ReportedServing(NewPod, driver.currentEpoch + 1)
      ensures driver.cluster.w.preparations == old(driver.cluster.w).preparations
      ensures CutOver(driver.cluster.w, driver.currentEpoch) ==> CutOver(old(driver.cluster.w), driver.currentEpoch)
      ensures r.Ok? ==>
                driver.cluster.deeds == old(driver.cluster.deeds) + [Finalized(operationId, driver.currentEpoch + 1)]
    {
      progress := progress.(stage := Verify);
      var verified :- driver.Verify(checksum);
      if !verified {
        return Err(PostVerificationFailed);
      }
      r := ConfirmToGateway(operationId);
    }

    /** The old pod goes. */
    method Retire() returns (r: Answer<()>)
      requires driver.cluster.Valid() && CutOver(driver.cluster.w, driver.currentEpoch)
      requires progress.transferStarted && progress.authorityCommitted && progress.stage == Verify
      requires Consistent(progress, driver.cluster.w, driver.currentEpoch)
      modifies this`progress, this`announced, driver, driver.cluster
      ensures driver.cluster.Valid() && old(driver.cluster.run) <= driver.cluster.run
      ensures progress == old(progress).(stage := Drain)
      ensures Consistent(progress, driver.cluster.w, driver.currentEpoch)
      ensures r.Ok? ==> Drained(driver.cluster.w, driver.currentEpoch)
      ensures r.Err? ==> !r.error.CutoverCommitted?
      ensures driver.cluster.setbacks >= old(driver.cluster.setbacks)
      ensures driver.cluster.setbacks == old(driver.cluster.setbacks) ==> r.Ok?
      ensures Told(old(announced), announced, [RoomOldPodDrained, RolloutWaveCompleted], r.Ok?)
      ensures driver.cluster.w.preparations == old(driver.cluster.w).preparations
      ensures old(driver.ReportedServing(NewPod, driver.currentEpoch + 1)) ==>
                driver.ReportedServing(NewPod, driver.currentEpoch + 1)
      ensures driver.cluster.deeds == old(driver.cluster.deeds)
    {
      progress := progress.(stage := Drain);
      var _ :- driver.DrainOldPod();
      r := PublishBoth(RoomOldPodDrained, RolloutWaveCompleted);
    }

    /** Post-cutover proof, and only then the old pod's removal. */
    method Complete(operationId: OperationId, checksum: Checksum) returns (r: Answer<()>)
      requires driver.cluster.Valid() && Consistent(progress, driver.cluster.w, driver.currentEpoch)
      requires progress.transferStarted && progress.authorityCommitted && progress.stage == Cutover
      modifies this`progress, this`announced, driver, driver.cluster
      ensures driver.cluster.Valid() && old(driver.cluster.run) <= driver.cluster.run
      ensures Consistent(progress, driver.cluster.w, driver.currentEpoch)
      ensures progress == old(progress).(stage := progress.stage) && progress.stage in {Verify, Drain}
      ensures r.Ok? ==> Drained(driver.cluster.w, driver.currentEpoch)
      ensures r.Err? ==> !r.error.CutoverCommitted?
      ensures driver.cluster.setbacks >= old(driver.cluster.setbacks)
      ensures driver.cluster.setbacks == old(driver.cluster.setbacks) ==>
                (CutOver(old(driver.cluster.w), driver.currentEpoch)
                 && old(driver.ProvenTransfer(driver.currentEpoch + 1, checksum)) ==>
                   r.Ok?)
      ensures Told(old(announced), announced, COMPLETED, r.Ok?)
      ensures r.Ok? ==> driver.ReportedServing(NewPod, driver.currentEpoch + 1)
      ensures driver.cluster.w.preparations == old(driver.cluster.w).preparations
      ensures r.Ok? ==> CutOver(old(driver.cluster.w), driver.currentEpoch)
      ensures r.Ok? ==>
                driver.cluster.deeds == old(driver.cluster.deeds) + [Finalized(operationId, driver.currentEpoch + 1)]
    {
      var _ :- Confirm(operationId, checksum);
      r := Retire();
    }

    /** From the match on: the transfer, and once it is proven the old pod's removal. */
    method HandOver(operationId: OperationId, preflight: Checksum) returns (r: Answer<()>)
      requires driver.cluster.Valid() && Serving(driver.cluster.w, driver.currentEpoch)
      requires !progress.transferStarted && Consistent(progress, driver.cluster.w, driver.currentEpoch)
      requires driver.cluster.w.newPod.alive && driver.Serves(operationId)
      modifies this`progress, this`announced, driver, driver.cluster
      ensures driver.cluster.Valid() && old(driver.cluster.run) <= driver.cluster.run
      ensures Consistent(progress, driver.cluster.w, driver.currentEpoch)
      ensures progress.stage in {Activate, Cutover, Verify, Drain}
      ensures r.Ok? ==> Drained(driver.cluster.w, driver.currentEpoch)
      ensures r.Err? && r.error.CutoverCommitted? ==>
                progress.authorityCommitted && progress.stage != Drain && r.error.epoch == driver.currentEpoch + 1
      ensures driver.cluster.setbacks >= old(driver.cluster.setbacks)
      ensures driver.cluster.setbacks == old(driver.cluster.setbacks) ==> r.Ok?
      ensures Told(old(announced), announced, TRANSFERRED + COMPLETED, r.Ok?)
      ensures r.Ok? ==> driver.ReportedServing(NewPod, driver.currentEpoch + 1)
      ensures r.Ok? ==> operationId !in driver.cluster.w.preparations
      ensures r.Ok? ==> driver.cluster.deeds == old(driver.cluster.deeds) + HandingOver(operationId)
    {
      ghost var before := announced;
      var moved := Transfer(operationId, preflight);
      ghost var middle := announced;
      if moved.Err? {
        ToldLess(before, announced, TRANSFERRED, COMPLETED);
        return Err(moved.error);
      }
      r := Complete(operationId, moved.value);
      ToldOn(before, middle, announced, TRANSFERRED, COMPLETED, r.Ok?);
    }

    /** The forward path. */
    method Advance(operationId: OperationId) returns (r: Answer<()>)
      requires driver.cluster.Valid() && Serving(driver.cluster.w, driver.currentEpoch)
      requires progress == Progress(Schedule, false, false, false, false, false, driver.currentEpoch)
      modifies this`progress, this`announced, driver, driver.cluster
      ensures driver.cluster.Valid() && old(driver.cluster.run) <= driver.cluster.run
      ensures Consistent(progress, driver.cluster.w, driver.currentEpoch)
      ensures progress.stage in {Schedule, Ready} ==> Quietly(old(driver.cluster.run), driver.cluster.run)
      ensures progress.stage == Freeze ==> FreezeStays(old(driver.cluster.run), driver.cluster.run, operationId)
      ensures r.Ok? ==> Drained(driver.cluster.w, driver.currentEpoch)
      ensures r.Err? && r.error.CutoverCommitted? ==>
                progress.authorityCommitted && progress.stage != Drain && r.error.epoch == driver.currentEpoch + 1
      ensures driver.cluster.setbacks >= old(driver.cluster.setbacks)
      ensures driver.cluster.setbacks == old(driver.cluster.setbacks) ==> (old(driver.context) == None ==> r.Ok?)
      ensures if r.Ok? then Told(old(announced), announced, FORWARD, true)
              else Interrupted(old(announced), announced, FORWARD, MISMATCHED)
      ensures r.Ok? ==> driver.ReportedServing(NewPod, driver.currentEpoch + 1)
      ensures r.Ok? ==> operationId !in driver.cluster.w.preparations
      ensures r.Ok? ==> driver.cluster.deeds == old(driver.cluster.deeds) + WholeHandoff(operationId)
    {
      var preflight :- Prepare(operationId);
      r := HandOver(operationId, preflight);
      InTurn(old(driver.cluster.deeds), Scheduling(), [SnapshotSaved(OldPod)], HandingOver(operationId));
    }

    /** Lifts the freeze this run is known to have placed. */
    method AbortPreparation(operationId: OperationId) returns (aborted: bool)
      requires driver.cluster.Valid() && Serving(driver.cluster.w, driver.currentEpoch)
      modifies this`progress, driver.cluster
      ensures driver.cluster.Valid() && old(driver.cluster.run) <= driver.cluster.run
      ensures Serving(driver.cluster.w, driver.currentEpoch)
      ensures progress == old(progress).(gatewayFrozen := old(progress).gatewayFrozen && !aborted)
      ensures aborted ==> operationId !in driver.cluster.w.preparations
      ensures driver.cluster.setbacks >= old(driver.cluster.setbacks)
      ensures driver.cluster.setbacks == old(driver.cluster.setbacks) ==> aborted
      ensures driver.cluster.deeds == old(driver.cluster.deeds)
    {
      var answer := driver.AbortGatewayPreparation(operationId);
      aborted := answer.Ok?;
      if aborted {
        progress := progress.(gatewayFrozen := false);
      }
    }

    /** Once transfer has started any failure is ambiguous, so authority and route are observed
        and reconciled before the candidate can be given up. */
    method ReconcileAuthority(operationId: OperationId) returns (recovered: Answer<nat>)
      requires driver.cluster.Valid() && Consistent(progress, driver.cluster.w, driver.currentEpoch)
      requires progress.transferStarted && progress.stage != Drain
      modifies driver, driver.cluster
      ensures driver.cluster.Valid() && old(driver.cluster.run) <= driver.cluster.run
      ensures recovered.Ok? ==> OldServes(driver.cluster.w) && recovered.value == driver.cluster.w.oldPod.epoch
      ensures driver.cluster.w.newPod.alive
      ensures recovered.Err? ==>
                var w, e := driver.cluster.w, driver.currentEpoch;
                Serving(w, e) || OldReleased(w, e) || AwaitingCutover(w, e) || CutOver(w, e)
                || NewReleased(w, e) || AwaitingReturn(w, e) || RolledBack(w, e)
      ensures progress.committedEpoch <= LeaseEpoch(driver.cluster.w)
      ensures driver.cluster.setbacks >= old(driver.cluster.setbacks)
      ensures recovered.Ok? ==> operationId !in driver.cluster.w.preparations
      ensures driver.cluster.setbacks == old(driver.cluster.setbacks) ==>
                (old(driver.Serves(operationId)
                     && (Serving(driver.cluster.w, driver.currentEpoch) ||
                         CutOver(driver.cluster.w, driver.currentEpoch))) ==>
                   recovered.Ok?)
      ensures SameRun(old(driver.context), driver.context)
    {
      recovered := driver.RollbackGateway(operationId, progress.committedEpoch);
    }

    /** Gives up the candidate; a failure to do so is ignored. */
    method Discard()
      requires driver.cluster.Valid() && OldServes(driver.cluster.w)
      modifies driver, driver.cluster
      ensures driver.cluster.Valid() && Quietly(old(driver.cluster.run), driver.cluster.run)
      ensures OldServes(driver.cluster.w) && driver.cluster.w.oldPod.epoch == old(driver.cluster.w).oldPod.epoch
      ensures driver.cluster.w.newPod.epoch == old(driver.cluster.w).newPod.epoch
      ensures driver.cluster.w.newPod.role == old(driver.cluster.w).newPod.role
      ensures driver.cluster.setbacks >= old(driver.cluster.setbacks)
      ensures driver.cluster.setbacks == old(driver.cluster.setbacks) && old(driver.KnowsCandidate()) ==>
                !driver.cluster.w.newPod.alive
      ensures old(driver.KnowsCandidate()) ==> driver.cluster.deeds == old(driver.cluster.deeds) + [TemplateRestored]
    {
      var _ := driver.DiscardCandidate();
    }

    /** The catch block: what to undo, and whether the candidate may go, from beliefs alone. */
    method Recover(operationId: OperationId, fault: Fault)
      requires driver.cluster.Valid() && Consistent(progress, driver.cluster.w, driver.currentEpoch)
      requires fault.CutoverCommitted? ==>
                 progress.authorityCommitted && progress.stage != Drain && fault.epoch == driver.currentEpoch + 1
      modifies this`progress, this`report, driver, driver.cluster
      ensures driver.cluster.Valid() && old(driver.cluster.run) <= driver.cluster.run
      ensures report.Some? && report.value.stage == old(progress).stage
      ensures report.value.discarded ==
                (old(progress).candidateKnown &&
                    report.value.rollback in {ActivePreserved, ActiveResumed, GatewayRolledBack})
      ensures Settled(report.value, driver.cluster.w, driver.currentEpoch)
      ensures report.value.rollback in {ActiveResumed, GatewayRolledBack} ==>
                operationId !in driver.cluster.w.preparations
      ensures old(progress).stage in {Schedule, Ready, Freeze} ==> Quietly(old(driver.cluster.run), driver.cluster.run)
      ensures driver.cluster.setbacks >= old(driver.cluster.setbacks)
      // what can be undone is undone when nothing further goes wrong
      ensures driver.cluster.setbacks == old(driver.cluster.setbacks) ==>
                && (old(progress.gatewayFrozen && !progress.transferStarted) && !fault.CutoverCommitted? ==>
                      report.value.rollback == ActiveResumed)
                && (old(progress.transferStarted && progress.stage != Drain && driver.Serves(operationId)
                        && (Serving(driver.cluster.w, driver.currentEpoch)
                            || CutOver(driver.cluster.w, driver.currentEpoch))) ==>
                      report.value.rollback == GatewayRolledBack)
                && (report.value.discarded && old(driver.KnowsCandidate()) ==> !driver.cluster.w.newPod.alive)
      // a candidate that is given up has its template put back first
      ensures report.value.discarded && old(driver.KnowsCandidate()) ==>
                driver.cluster.deeds != [] && driver.cluster.deeds[|driver.cluster.deeds| - 1] == TemplateRestored
      // the epoch reported is the rollback's, or the last one believed committed
      ensures report.value.rollback != GatewayRolledBack ==>
                report.value.epoch == if fault.CutoverCommitted? then fault.epoch else old(progress).committedEpoch
    {
      if fault.CutoverCommitted? {
        progress := progress.(cutoverCommitted := true, gatewayFrozen := false, committedEpoch := fault.epoch);
      }
      var rollback, epoch := ActivePreserved, progress.committedEpoch;
      var mayDiscard := !progress.transferStarted && !progress.cutoverCommitted;

      if progress.gatewayFrozen && !progress.transferStarted && !progress.cutoverCommitted {
        var aborted := AbortPreparation(operationId);
        rollback := if aborted then ActiveResumed else GatewayAbortFailed;
        mayDiscard := aborted;
      }

      if (progress.transferStarted || progress.cutoverCommitted || progress.authorityCommitted)
         && progress.stage != Drain {
        var recovered := ReconcileAuthority(operationId);
        rollback := if recovered.Ok? then GatewayRolledBack else RollbackFailedCandidateRetained;
        epoch := if recovered.Ok? then recovered.value else epoch;
        mayDiscard := recovered.Ok?;
      } else if progress.cutoverCommitted || progress.authorityCommitted {
        rollback := CandidateRetainedAfterDrainFailure;
      }

      var discard := progress.candidateKnown && mayDiscard && progress.stage != Drain;
      if discard {
        Discard();
      }
      report := Some(Report(progress.stage, epoch, rollback, discard));
    }

    /** The two events about a failed run; if one is refused, that is the failure reported. */
    method AnnounceFailure(fault: Fault) returns (reported: Fault)
      modifies this`announced, driver.cluster`setbacks
      ensures driver.cluster.setbacks >= old(driver.cluster.setbacks)
      ensures reported == fault || reported == PublishFailed
      ensures Told(old(announced), announced, [RoomHandoffFailed, RolloutWaveBlocked], false)
      ensures reported == fault ==>
                announced == old(announced) + [RoomHandoffFailed, RolloutWaveBlocked] || fault == PublishFailed
    {
      var published := PublishBoth(RoomHandoffFailed, RolloutWaveBlocked);
      reported := if published.Ok? then fault else PublishFailed;
    }

    /** A failed run: the catch block and its two events. */
    method Fail(operationId: OperationId, fault: Fault, ghost start: seq<World>) returns (r: Answer<nat>)
      requires driver.cluster.Valid() && Consistent(progress, driver.cluster.w, driver.currentEpoch)
      requires fault.CutoverCommitted? ==>
                 progress.authorityCommitted && progress.stage != Drain && fault.epoch == driver.currentEpoch + 1
      requires progress.stage in {Schedule, Ready} ==> Quietly(start, driver.cluster.run)
      requires progress.stage == Freeze ==> FreezeStays(start, driver.cluster.run, operationId)
      modifies this`progress, this`announced, this`report, driver, driver.cluster
      ensures driver.cluster.Valid() && old(driver.cluster.run) <= driver.cluster.run
      ensures r.Err? && report.Some? && Settled(report.value, driver.cluster.w, driver.currentEpoch)
      ensures report.value.rollback in {ActiveResumed, GatewayRolledBack} ==>
                operationId !in driver.cluster.w.preparations
      ensures report.value.stage in {Schedule, Ready} ==> Quietly(start, driver.cluster.run)
      ensures report.value.stage == Freeze ==> FreezeStays(start, driver.cluster.run, operationId)
      ensures driver.cluster.setbacks >= old(driver.cluster.setbacks)
      ensures Told(old(announced), announced, [RoomHandoffFailed, RolloutWaveBlocked], false)
    {
      ghost var advanced := driver.cluster.run;
      Recover(operationId, fault);
      if report.value.stage in {Schedule, Ready} {
        QuietlyTwice(start, advanced, driver.cluster.run);
      } else if report.value.stage == Freeze {
        FreezeStaysQuietly(start, start, advanced, driver.cluster.run, operationId);
      }
      var reported := AnnounceFailure(fault);
      r := Err(reported);
    }

    /** An admitted run, during which no other is admitted: forward, and on any failure the
        catch block and its two events. */
    method Attempt(operationId: OperationId) returns (r: Answer<nat>)
      requires driver.cluster.Valid() && Serving(driver.cluster.w, driver.currentEpoch)
      requires activeOperation == Some(operationId)
      modifies this`progress, this`announced, this`report, driver, driver.cluster
      ensures driver.cluster.Valid() && old(driver.cluster.run) <= driver.cluster.run
      ensures r.Ok? ==> r.value == driver.currentEpoch + 1 && Drained(driver.cluster.w, driver.currentEpoch)
      ensures r.Err? ==> report.Some? && Settled(report.value, driver.cluster.w, driver.currentEpoch)
      ensures r.Err? && report.value.rollback in {ActiveResumed, GatewayRolledBack} ==>
                operationId !in driver.cluster.w.preparations
      ensures r.Err? && report.value.stage in {Schedule, Ready} ==> Quietly(old(driver.cluster.run), driver.cluster.run)
      ensures r.Err? && report.value.stage == Freeze ==>
                FreezeStays(old(driver.cluster.run), driver.cluster.run, operationId)
      ensures driver.cluster.setbacks >= old(driver.cluster.setbacks)
      ensures driver.cluster.setbacks == old(driver.cluster.setbacks) ==> (old(driver.context) == None ==> r.Ok?)
      ensures r.Ok? ==> announced == old(announced) + FORWARD
      ensures r.Err? ==> FailureTold(old(announced), announced)
      ensures r.Ok? ==> driver.ReportedServing(NewPod, driver.currentEpoch + 1)
      ensures r.Ok? ==> operationId !in driver.cluster.w.preparations
      ensures r.Ok? ==> driver.cluster.deeds == old(driver.cluster.deeds) + WholeHandoff(operationId)
    {
      progress := Progress(Schedule, false, false, false, false, false, driver.currentEpoch);
      ghost var start := driver.cluster.run;
      var outcome := Advance(operationId);
      if outcome.Ok? {
        return Ok(driver.currentEpoch + 1);
      }
      r := Fail(operationId, outcome.error, start);
    }

    predicate Admits(roomOrdinal: Option<nat>)
      reads this
    {
      activeOperation == None && roomOrdinal.Some? && roomOrdinal.value < totalWaves
    }

    /** One room's handoff, whatever calls fail and however. The run stays sound; success
        leaves the new pod alone, leading and routed to; every failure is settled as the report
        says; and the coordinator is free for the next wave. A freeze that took effect but
        whose answer was lost stays in place, because the coordinator does not know of it. */
    method Handoff(roomOrdinal: Option<nat>, operationId: OperationId) returns (r: Answer<nat>)
      requires driver.cluster.Valid() && Serving(driver.cluster.w, driver.currentEpoch)
      modifies this, driver, driver.cluster
      ensures driver.cluster.Valid() && old(driver.cluster.run) <= driver.cluster.run
      ensures activeOperation == old(activeOperation)
      ensures !old(Admits(roomOrdinal)) ==> r.Err? && r.error in {WaveAlreadyRunning, InvalidWaveRoom}
      ensures !old(Admits(roomOrdinal)) ==>
                driver.cluster.w == old(driver.cluster.w) && driver.context == old(driver.context)
      ensures r.Ok? ==> r.value == driver.currentEpoch + 1 && Drained(driver.cluster.w, driver.currentEpoch)
      ensures old(Admits(roomOrdinal)) && r.Err? ==>
                && report.Some? && Settled(report.value, driver.cluster.w, driver.currentEpoch)
                && (report.value.rollback in {ActiveResumed, GatewayRolledBack} ==>
                      operationId !in driver.cluster.w.preparations)
                && (report.value.stage in {Schedule, Ready} ==> Quietly(old(driver.cluster.run), driver.cluster.run))
                && (report.value.stage == Freeze ==>
                    FreezeStays(old(driver.cluster.run), driver.cluster.run, operationId))
      ensures driver.cluster.setbacks >= old(driver.cluster.setbacks)
      ensures driver.cluster.setbacks == old(driver.cluster.setbacks) ==>
                (old(Admits(roomOrdinal)) && old(driver.context) == None ==> r.Ok?)
      // what was published: the whole story, or its beginning and then the failure
      ensures r.Ok? ==> announced == old(announced) + FORWARD
      ensures old(Admits(roomOrdinal)) && r.Err? ==> FailureTold(old(announced), announced)
      ensures !old(Admits(roomOrdinal)) ==> announced == old(announced)
      // success was proven by the last readings, and leaves nothing frozen
      ensures r.Ok? ==> driver.ReportedServing(NewPod, driver.currentEpoch + 1)
      ensures r.Ok? ==> operationId !in driver.cluster.w.preparations
      ensures r.Ok? ==> driver.cluster.deeds == old(driver.cluster.deeds) + WholeHandoff(operationId)
    {
      if activeOperation.Some? {
        return Err(WaveAlreadyRunning);
      }
      if roomOrdinal == None || roomOrdinal.value >= totalWaves {
        return Err(InvalidWaveRoom);
      }
      activeOperation := Some(operationId);
      r := Attempt(operationId);
      activeOperation := None;
    }
  }
}
