/**
 The driver of one room's rollout (services/room-orchestrator/src/handoff-driver.ts).
 Its contracts place the world in one of eight phases before and after each operation,
 relative to e, the epoch the room had when the rollout's target was resolved.
 */
module HandoffDriver {
  import opened HandoffWorld
  import opened HandoffCluster
  import opened Wrappers

  // --- the phases of a run ------------------------------------------------------

  /** The old pod leads and is routed to; nothing has been transferred. */
  ghost predicate Serving(w: World, e: nat) {
    && w.oldPod.Leads() && w.oldPod.epoch == e
    && w.newPod.role == Candidate && w.newPod.epoch <= e
    && w.route == Route(OldPod, e)
  }

  /** The old pod has given up the lease; nobody leads. */
  ghost predicate OldReleased(w: World, e: nat) {
    && w.oldPod.alive && w.oldPod.role == Candidate && w.oldPod.epoch == e && w.oldPod.state == w.sealed
    && w.newPod.role == Candidate && w.newPod.epoch <= e
    && w.route == Route(OldPod, e)
  }

  ghost predicate NewLeads(w: World, e: nat) {
    && w.oldPod.role == Candidate && w.oldPod.epoch <= e + 1
    && w.newPod.Leads() && w.newPod.epoch == e + 1
  }

  /** The new pod leads, but players are still routed to the old one. */
  ghost predicate AwaitingCutover(w: World, e: nat) {
    NewLeads(w, e) && w.oldPod.alive && w.route == Route(OldPod, e)
  }

  /** The new pod leads and is routed to. */
  ghost predicate CutOver(w: World, e: nat) {
    NewLeads(w, e) && w.oldPod.alive && w.route == Route(NewPod, e + 1)
  }

  /** As CutOver, with the old pod deleted. */
  ghost predicate Drained(w: World, e: nat) {
    NewLeads(w, e) && !w.oldPod.alive && w.route == Route(NewPod, e + 1)
  }

  /** A rollback has taken the lease from the new pod; nobody leads. */
  ghost predicate NewReleased(w: World, e: nat) {
    && w.newPod.alive && w.newPod.role == Candidate && w.newPod.epoch == e + 1 && w.newPod.state == w.sealed
    && w.oldPod.alive && w.oldPod.role == Candidate && w.oldPod.epoch <= e + 1
    && w.route == Route(NewPod, e + 1)
  }

  ghost predicate OldLeadsAgain(w: World, e: nat) {
    && w.oldPod.Leads() && w.oldPod.epoch == e + 2
    && w.newPod.role == Candidate && w.newPod.epoch == e + 1
  }

  /** A rollback has promoted the old pod, but players are still routed to the new one. */
  ghost predicate AwaitingReturn(w: World, e: nat) {
    OldLeadsAgain(w, e) && w.newPod.alive && w.route == Route(NewPod, e + 1)
  }

  /** The old pod leads and is routed to again, two epochs on. */
  ghost predicate RolledBack(w: World, e: nat) {
    OldLeadsAgain(w, e) && w.route == Route(OldPod, e + 2)
  }

  /** The old pod leads and players are routed to it at its own epoch. */
  ghost predicate OldServes(w: World) {
    w.oldPod.Leads() && w.route == Route(OldPod, w.oldPod.epoch)
  }

  // --- the driver -----------------------------------------------------------------

  datatype DriverContext = DriverContext(
    operationId: OperationId,
    candidateKnown: bool,
    checksum: Option<Checksum>,
    committedEpoch: Option<nat>)

  /** The driver still remembers the same run, whatever it has learnt since. */
  predicate SameRun(c: Option<DriverContext>, c': Option<DriverContext>) {
    && c.Some? == c'.Some?
    && (c.Some? ==> c'.value == c.value.(checksum := c'.value.checksum, committedEpoch := c'.value.committedEpoch))
  }

  /** The larger of two epochs, where the second may not have been reported. */
  function Newer(a: nat, b: Option<nat>): nat {
    if b.Some? && a < b.value then b.value else a
  }

  /** The part of a status that time alone cannot make stale. */
  predicate Authority(s: Status, pod: Pod) {
    s.role == pod.role && (s.epoch.Some? ==> s.epoch.value == pod.epoch)
  }

  datatype RollbackDecision =
    | Resume(epoch: nat)          // the old pod still serves: nothing to undo
    | Reclaim(rollbackEpoch: nat) // the candidate serves: take authority and route back
    | Refuse(fault: Fault)

  function DecideRollback(oldStatus: Status, candidate: Status, listed: Option<Route>, expectedEpoch: nat)
    : RollbackDecision
  {
    if listed == None then Refuse(RollbackRouteUnavailable)
    else if oldStatus.role == Active && candidate.role == Active then Refuse(SplitBrain)
    else
      var route := listed.value;
      if oldStatus.role == Active && oldStatus.epoch == Some(route.epoch) && route.endpoint == OldPod then
        Resume(route.epoch)
      else if oldStatus.role != Active && candidate.role != Active then Refuse(RollbackAuthorityUnavailable)
      else
        var authority := if oldStatus.role == Active then oldStatus else candidate;
        var at := if oldStatus.role == Active then OldPod else NewPod;
        if authority.epoch != Some(route.epoch) || at != route.endpoint then Refuse(RollbackAuthorityRouteMismatch)
        else if authority.checksum == None then Refuse(ChecksumUnavailable)
        else
          Reclaim(Newer(Newer(Newer(route.epoch, oldStatus.epoch), candidate.epoch), Some(expectedEpoch)) + 1)
  }

  /** Read truthfully in a safe world, the rollback resumes exactly when the old pod serves,
      reclaims exactly when the new pod serves, and a reclaim's epoch is above every epoch
      either pod, the route or the coordinator's belief holds. */
  lemma RollbackDecisionIsExact(w: World, oldStatus: Status, candidate: Status, expectedEpoch: nat)
    requires Safe(w) && w.oldPod.alive && w.newPod.alive
    requires Truthful(oldStatus, w.oldPod) && oldStatus.epoch.Some?
    requires Truthful(candidate, w.newPod) && candidate.epoch.Some? && candidate.checksum.Some?
    ensures var d := DecideRollback(oldStatus, candidate, Some(w.route), expectedEpoch);
            && (d.Resume? <==> OldServes(w))
            && (d.Reclaim? <==> MayDelete(w, OldPod))
            && (d.Resume? ==> d.epoch == w.oldPod.epoch)
            && (d.Reclaim? ==> w.Ceiling() < d.rollbackEpoch && expectedEpoch < d.rollbackEpoch)
            && (d.Reclaim? ==> d.rollbackEpoch == w.Ceiling() + 1 || d.rollbackEpoch == expectedEpoch + 1)
  {
  }

  /** During a run, a resume is decided only while the old pod still serves, and a reclaim
      only after the cutover and at epoch e + 2, even when the coordinator's belief lags. */
  lemma RollbackDecisionInRun(w: World, e: nat, oldStatus: Status, candidate: Status, listed: Option<Route>,
                              expectedEpoch: nat)
    requires Serving(w, e) || OldReleased(w, e) || AwaitingCutover(w, e) || CutOver(w, e)
    requires Authority(oldStatus, w.oldPod) && Authority(candidate, w.newPod)
    requires listed.Some? ==> listed.value == w.route
    requires expectedEpoch <= e + 1
    ensures var d := DecideRollback(oldStatus, candidate, listed, expectedEpoch);
            && (d.Resume? ==> Serving(w, e) && d.epoch == e)
            && (d.Reclaim? ==> CutOver(w, e) && d.rollbackEpoch == e + 2)
  {
  }

  /** What a candidate has to report before it is promoted on a checksum. */
  predicate ReportsCheckpoint(candidate: Status, checksum: Checksum) {
    candidate.role == Candidate && candidate.ready && candidate.caughtUp && candidate.checksum == Some(checksum)
  }

  /** A retry's one unsound case, concretely. The old pod simulated one more step before its
      release, and the candidate still holds the preflight checkpoint and reports it truthfully.
      Asked to activate on the preflight checksum, the driver sees an old pod that no longer
      leads and a candidate that passes its check, and promotes. */
  lemma StaleRetryForks() returns (w: World, w': World, oldStatus: Status, candidate: Status, preflight: Checksum)
    ensures Safe(w) && OldReleased(w, 1)
    ensures Truthful(oldStatus, w.oldPod) && Truthful(candidate, w.newPod)
    ensures oldStatus.role != Active && ReportsCheckpoint(candidate, preflight)
    ensures Promoted(w, w', NewPod, 2) && preflight == Sha256(w'.newPod.state)
    ensures preflight != Sha256(w.sealed) && !Step(w, w') && !(w.History() <= w'.History())
  {
    var early, final: GameState := [7], [7, 8];
    preflight := Sha256(early);
    w := World(Pod(true, Candidate, 1, final), Pod(true, Candidate, 1, early), Route(OldPod, 1), {}, final);
    w' := w.(newPod := Pod(true, Active, 2, early));
    oldStatus := Status(Candidate, true, true, Some(1), Some(2), Some(Sha256(final)));
    candidate := Status(Candidate, true, true, Some(1), Some(1), Some(preflight));
    assert !(w.History() <= w'.History());
  }

  /** A rollback's key is not the key of what it rolls back. */
  lemma {:induction false} OwnKey(operation: OperationId, epoch: nat)
    ensures operation != RollbackOf(operation, epoch)
  {
    if operation.RollbackOf? && operation.epoch == epoch {
      OwnKey(operation.operation, epoch);
    }
  }

  class KubernetesRoomHandoffDriver {
    const cluster: Cluster
    const currentEpoch: nat
    var context: Option<DriverContext>

    constructor (cluster: Cluster, currentEpoch: nat)
      ensures this.cluster == cluster && this.currentEpoch == currentEpoch && context == None
    {
      this.cluster := cluster;
      this.currentEpoch := currentEpoch;
      context := None;
    }

    predicate KnowsCandidate()
      reads this
    {
      context.Some? && context.value.candidateKnown
    }

    /** A scheduled candidate's labels, and the old pod's. */
    ghost function Labels(epoch: nat): seq<Deed> {
      [Labelled(OldPod, Active, epoch), Labelled(NewPod, Candidate, epoch)]
    }

    /** The labels after the lease has moved on from an epoch. */
    ghost function Swapped(epoch: nat): seq<Deed> {
      [Labelled(OldPod, Candidate, epoch), Labelled(NewPod, Active, epoch + 1)]
    }

    /** What a return of the authority does beyond the world, from checkpoint to confirmation. */
    ghost function Returned(operationId: OperationId): seq<Deed> {
      [SnapshotSaved(NewPod), Labelled(NewPod, Candidate, currentEpoch + 1)] +
      [Labelled(OldPod, Active, currentEpoch + 2), Labelled(NewPod, Candidate, currentEpoch + 1)] +
      [Finalized(RollbackOf(operationId, currentEpoch + 2), currentEpoch + 2)]
    }

    /** Both pods' labels are patched, neither waiting for the other. */
    method LabelBoth(oldRole: Role, oldEpoch: nat, newRole: Role, newEpoch: nat) returns (r: Answer<()>)
      requires cluster.Valid()
      modifies cluster`w, cluster`run, cluster`setbacks, cluster`deeds
      ensures cluster.Valid() && Idle(old(cluster.w), cluster.w) && Quietly(old(cluster.run), cluster.run)
      ensures r.Err? ==> !r.error.CutoverCommitted?
      ensures cluster.setbacks >= old(cluster.setbacks)
      ensures cluster.setbacks == old(cluster.setbacks) ==> r.Ok?
      ensures cluster.deeds ==
              old(cluster.deeds) + [Labelled(OldPod, oldRole, oldEpoch), Labelled(NewPod, newRole, newEpoch)]
    {
      ghost var before, start := cluster.w, cluster.run;
      var first := cluster.Call(Labelled(OldPod, oldRole, oldEpoch));
      ghost var between, middle := cluster.w, cluster.run;
      var second := cluster.Call(Labelled(NewPod, newRole, newEpoch));
      IdleTwice(before, between, cluster.w);
      QuietlyTwice(start, middle, cluster.run);
      r := if first.Err? then first else second;
    }

    method RestoreDeployment() returns (r: Answer<()>)
      requires cluster.Valid()
      modifies cluster`w, cluster`run, cluster`setbacks, cluster`deeds
      ensures cluster.Valid() && Idle(old(cluster.w), cluster.w) && Quietly(old(cluster.run), cluster.run)
      ensures r.Err? ==> !r.error.CutoverCommitted?
      ensures cluster.setbacks >= old(cluster.setbacks)
      ensures cluster.setbacks == old(cluster.setbacks) ==> r.Ok?
      ensures cluster.deeds == old(cluster.deeds) + [TemplateRestored]
    {
      r := cluster.Call(TemplateRestored);
    }

    /** Patches the Deployment and waits for the rollout's pod. A failure restores the
        template, deletes the pod if one was seen, and forgets the run. */
    method ScheduleCandidate(operationId: OperationId) returns (r: Answer<()>)
      requires cluster.Valid() && Serving(cluster.w, currentEpoch)
      modifies this, cluster
      ensures cluster.Valid() && Serving(cluster.w, currentEpoch) && Quietly(old(cluster.run), cluster.run)
      ensures r.Ok? ==> context == Some(DriverContext(operationId, true, None, None)) && cluster.w.newPod.alive
      ensures r.Err? ==> context == old(context)
      ensures old(context).Some? ==> r.Err?
      ensures r.Err? ==> !r.error.CutoverCommitted?
      ensures cluster.setbacks >= old(cluster.setbacks)
      ensures cluster.setbacks == old(cluster.setbacks) ==> (old(context) == None ==> r.Ok?)
      // a template that was patched is restored on any failure
      ensures r.Ok? ==> cluster.deeds == old(cluster.deeds) + [TemplateRead, TemplatePatched] + Labels(currentEpoch)
      ensures r.Err? ==>
                cluster.deeds in {old(cluster.deeds), old(cluster.deeds) + [TemplateRead]}
                || (cluster.deeds != [] && cluster.deeds[|cluster.deeds| - 1] == TemplateRestored)
    {
      if context.Some? {
        return Err(AlreadyScheduled);
      }
      var _ :- cluster.Call(TemplateRead);
      var unavailable := cluster.Chance();
      if unavailable {
        return Err(DeploymentUnavailable);
      }
      context := Some(DriverContext(operationId, false, None, None));
      r := AwaitCandidate();
      if r.Err? {
        UndoSchedule();
      }
    }

    /** The template is restored, the pod deleted if one was seen, and the run forgotten. */
    method UndoSchedule()
      requires cluster.Valid() && Serving(cluster.w, currentEpoch)
      modifies this, cluster
      ensures cluster.Valid() && Serving(cluster.w, currentEpoch) && Quietly(old(cluster.run), cluster.run)
      ensures context == None
      ensures cluster.setbacks >= old(cluster.setbacks)
      ensures cluster.deeds == old(cluster.deeds) + [TemplateRestored]
    {
      var _ := RestoreDeployment();
      if KnowsCandidate() {
        var _ := cluster.DeletePod(NewPod);
      }
      context := None;
    }

    /** The rollout's pod is up: its image is checked, it is remembered, its labels are patched. */
    method AdoptCandidate() returns (r: Answer<()>)
      requires cluster.Valid() && context.Some? && !context.value.candidateKnown
      modifies this, cluster
      ensures cluster.Valid() && Idle(old(cluster.w), cluster.w) && Quietly(old(cluster.run), cluster.run)
      ensures context == old(context) || context == Some(old(context).value.(candidateKnown := true))
      ensures r.Ok? ==> KnowsCandidate()
      ensures r.Err? ==> !r.error.CutoverCommitted?
      ensures cluster.setbacks >= old(cluster.setbacks)
      ensures cluster.setbacks == old(cluster.setbacks) ==> r.Ok?
      ensures cluster.deeds in {old(cluster.deeds), old(cluster.deeds) + Labels(currentEpoch)}
      ensures r.Ok? ==> cluster.deeds == old(cluster.deeds) + Labels(currentEpoch)
    {
      var mismatch := cluster.Chance();
      if mismatch {
        return Err(CandidateImageMismatch);
      }
      context := Some(context.value.(candidateKnown := true));
      r := LabelBoth(Active, currentEpoch, Candidate, currentEpoch);
    }

    /** Looks for the rollout's pod; one that runs is adopted. */
    method SeekCandidate() returns (r: Answer<bool>)
      requires cluster.Valid() && Serving(cluster.w, currentEpoch)
      requires context.Some? && !context.value.candidateKnown
      modifies this, cluster
      ensures cluster.Valid() && Serving(cluster.w, currentEpoch) && Quietly(old(cluster.run), cluster.run)
      ensures context == old(context) ||
                (r != Ok(false) && context == Some(old(context).value.(candidateKnown := true)))
      ensures r == Ok(true) ==> KnowsCandidate() && cluster.w.newPod.alive
      ensures r.Err? ==> !r.error.CutoverCommitted?
      ensures cluster.setbacks >= old(cluster.setbacks)
      ensures cluster.setbacks == old(cluster.setbacks) ==> r == Ok(true)
      ensures r == Ok(true) ==> cluster.deeds == old(cluster.deeds) + Labels(currentEpoch)
      ensures r == Ok(false) ==> cluster.deeds == old(cluster.deeds)
    {
      var running :- cluster.CandidateRunning();
      if !running {
        return Ok(false);
      }
      ghost var before := cluster.run;
      var adopted := AdoptCandidate();
      QuietlyTwice(old(cluster.run), before, cluster.run);
      r := if adopted.Ok? then Ok(true) else Err(adopted.error);
    }

    method AwaitCandidate() returns (r: Answer<()>)
      requires cluster.Valid() && Serving(cluster.w, currentEpoch)
      requires context.Some? && !context.value.candidateKnown
      modifies this, cluster
      ensures cluster.Valid() && Serving(cluster.w, currentEpoch) && Quietly(old(cluster.run), cluster.run)
      ensures context == old(context) || context == Some(old(context).value.(candidateKnown := true))
      ensures r.Ok? ==> KnowsCandidate() && cluster.w.newPod.alive
      ensures r.Err? ==> !r.error.CutoverCommitted?
      ensures cluster.setbacks >= old(cluster.setbacks)
      ensures cluster.setbacks == old(cluster.setbacks) ==> r.Ok?
      ensures r.Ok? ==> cluster.deeds == old(cluster.deeds) + [TemplatePatched] + Labels(currentEpoch)
    {
      var _ :- cluster.Call(TemplatePatched);
      var polls: nat := *;
      while polls > 0
        invariant cluster.setbacks >= old(cluster.setbacks)
        invariant cluster.Valid() && Serving(cluster.w, currentEpoch) && Quietly(old(cluster.run), cluster.run)
        invariant context == old(context) && cluster.deeds == old(cluster.deeds) + [TemplatePatched]
      {
        ghost var before := cluster.run;
        var sought := SeekCandidate();
        QuietlyTwice(old(cluster.run), before, cluster.run);
        var found :- sought;
        if found {
          return Ok(());
        }
        polls := polls - 1;
      }
      cluster.Setback();
      return Err(CandidateScheduleTimeout);
    }

    method WaitUntilReady() returns (r: Answer<()>)
      requires cluster.Valid()
      modifies cluster`w, cluster`run, cluster`setbacks, cluster`reported
      ensures cluster.Valid() && Idle(old(cluster.w), cluster.w) && Quietly(old(cluster.run), cluster.run)
      ensures r.Ok? ==> cluster.w.newPod.role == Candidate
      ensures r.Err? ==> !r.error.CutoverCommitted?
      ensures cluster.setbacks >= old(cluster.setbacks)
      ensures cluster.setbacks == old(cluster.setbacks) ==> (old(cluster.w).newPod.role == Candidate ==> r.Ok?)
    {
      var polls: nat := *;
      while polls > 0
        invariant cluster.setbacks >= old(cluster.setbacks)
        invariant cluster.Valid() && Idle(old(cluster.w), cluster.w) && Quietly(old(cluster.run), cluster.run)
      {
        var status := cluster.HandoffStatus(NewPod);
        if status.Ok? {
          if status.value.role == Active {
            return Err(CandidateAcquiredAuthority);
          }
          return Ok(());
        }
        polls := polls - 1;
      }
      cluster.Setback();
      return Err(CandidateReadyTimeout);
    }

    /** Reads a complete checkpoint from the pod that must be leading at expectedEpoch. */
    method PollActiveSnapshot(p: Endpoint, expectedEpoch: nat) returns (r: Answer<Status>)
      requires cluster.Valid()
      modifies cluster`w, cluster`run, cluster`setbacks, cluster`reported
      ensures cluster.Valid() && Idle(old(cluster.w), cluster.w) && old(cluster.run) <= cluster.run
      ensures r.Ok? ==> r.value.tick.Some? && r.value.checksum.Some? && Truthful(r.value, cluster.w.At(p))
      ensures r.Ok? ==> cluster.w.At(p).Leads() && cluster.w.At(p).epoch == expectedEpoch
      ensures r.Err? ==> !r.error.CutoverCommitted?
      ensures cluster.setbacks >= old(cluster.setbacks)
      ensures cluster.setbacks == old(cluster.setbacks) ==>
                (old(cluster.w).At(p).Leads() && old(cluster.w).At(p).epoch == expectedEpoch ==> r.Ok?)
      ensures r.Ok? ==> p in cluster.reported && cluster.reported[p] == r.value
    {
      var polls: nat := *;
      while polls > 0
        invariant cluster.setbacks >= old(cluster.setbacks)
        invariant cluster.Valid() && Idle(old(cluster.w), cluster.w) && old(cluster.run) <= cluster.run
      {
        var answer := cluster.HandoffStatus(p);
        if answer.Err? {
          return Err(Transport);
        }
        var status := answer.value;
        if status.role != Active {
          return Err(AuthorityLost);
        }
        if status.epoch != Some(expectedEpoch) {
          return Err(EpochChanged);
        }
        if status.tick.Some? && status.checksum.Some? {
          return Ok(status);
        }
        polls := polls - 1;
      }
      cluster.Setback();
      return Err(SnapshotTimeout);
    }

    /** Has p save a snapshot, then reads it as the checkpoint. */
    method SaveSnapshot(p: Endpoint, expectedEpoch: nat) returns (r: Answer<Status>)
      requires cluster.Valid()
      modifies cluster
      ensures cluster.Valid() && Idle(old(cluster.w), cluster.w) && old(cluster.run) <= cluster.run
      ensures r.Ok? ==> r.value.tick.Some? && r.value.checksum.Some? && Truthful(r.value, cluster.w.At(p))
      ensures r.Ok? ==> cluster.w.At(p).Leads() && cluster.w.At(p).epoch == expectedEpoch
      ensures r.Err? ==> !r.error.CutoverCommitted?
      ensures cluster.setbacks >= old(cluster.setbacks)
      ensures cluster.setbacks == old(cluster.setbacks) ==>
                (old(cluster.w).At(p).Leads() && old(cluster.w).At(p).epoch == expectedEpoch ==> r.Ok?)
      ensures r.Ok? ==> p in cluster.reported && cluster.reported[p] == r.value
      ensures cluster.deeds == old(cluster.deeds) + [SnapshotSaved(p)]
    {
      var _ :- cluster.Call(SnapshotSaved(p));
      r := PollActiveSnapshot(p, expectedEpoch);
    }

    method FreezeGateway(operationId: OperationId) returns (r: Answer<()>)
      requires cluster.Valid()
      modifies cluster`w, cluster`run, cluster`setbacks
      ensures cluster.Valid() && old(cluster.run) <= cluster.run
      ensures GatewayMoved(old(cluster.w), cluster.w) && cluster.w.route == old(cluster.w).route
      ensures FreezeOutcome(old(cluster.run), cluster.run, operationId, {}, r.Ok?)
      ensures r.Err? ==> !r.error.CutoverCommitted?
      ensures cluster.setbacks >= old(cluster.setbacks)
      ensures cluster.setbacks == old(cluster.setbacks) ==> r.Ok?
    {
      r := cluster.Freeze(operationId, {});
    }

    method AbortGatewayPreparation(operationId: OperationId) returns (r: Answer<()>)
      requires cluster.Valid()
      modifies cluster`w, cluster`run, cluster`setbacks
      ensures cluster.Valid() && old(cluster.run) <= cluster.run
      ensures GatewayMoved(old(cluster.w), cluster.w) && cluster.w.route == old(cluster.w).route
      ensures cluster.w.preparations == old(cluster.w).preparations
           || cluster.w.preparations == old(cluster.w).preparations - {operationId}
      ensures r.Ok? ==> operationId !in cluster.w.preparations
      ensures r.Err? ==> !r.error.CutoverCommitted?
      ensures cluster.setbacks >= old(cluster.setbacks)
      ensures cluster.setbacks == old(cluster.setbacks) ==> r.Ok?
    {
      r := cluster.Abort(operationId);
    }

    /** Seeds the candidate from a checkpoint of the serving pod. */
    method SeedSnapshot() returns (r: Answer<Checksum>)
      requires cluster.Valid() && Serving(cluster.w, currentEpoch)
      modifies this, cluster
      ensures cluster.Valid() && Serving(cluster.w, currentEpoch) && old(cluster.run) <= cluster.run
      ensures cluster.w.preparations == old(cluster.w).preparations
      ensures r.Err? ==> context == old(context)
      ensures r.Ok? ==> old(context).Some? && context == Some(old(context).value.(checksum := Some(r.value)))
      ensures r.Err? ==> !r.error.CutoverCommitted?
      ensures old(cluster.w).newPod.alive ==> cluster.w.newPod.alive
      ensures cluster.setbacks >= old(cluster.setbacks)
      ensures cluster.setbacks == old(cluster.setbacks) ==> (old(KnowsCandidate()) ==> r.Ok?)
      // the checkpoint is one the serving pod saved and reported, and the candidate stayed one
      ensures r.Ok? ==>
                && cluster.deeds == old(cluster.deeds) + [SnapshotSaved(OldPod)]
                && OldPod in cluster.reported && cluster.reported[OldPod].checksum == Some(r.value)
                && NewPod in cluster.reported && cluster.reported[NewPod].role == Candidate
    {
      if !KnowsCandidate() {
        return Err(ContextNotFound);
      }
      var active :- SaveSnapshot(OldPod, currentEpoch);
      assert Serving(cluster.w, currentEpoch);
      var status :- cluster.Seed(NewPod, currentEpoch, active.checksum.value);
      if status.role != Candidate {
        return Err(AuthorityStateConflict);
      }
      context := Some(context.value.(checksum := active.checksum));
      return Ok(active.checksum.value);
    }

    /** At their last answers the candidate called itself ready and caught up, and stood at the
        serving pod's own tick and checksum. */
    ghost predicate ReportedCaughtUp(checksum: Checksum)
      reads cluster
    {
      && OldPod in cluster.reported && NewPod in cluster.reported
      && var active, candidate := cluster.reported[OldPod], cluster.reported[NewPod];
      && candidate.ready && candidate.caughtUp
      && active.tick.Some? && candidate.tick == active.tick
      && active.checksum == candidate.checksum == Some(checksum)
    }

    /** One more seed; the checkpoint it came from, if the candidate reports just that one. */
    method CatchUpOnce() returns (r: Answer<Option<Checksum>>)
      requires cluster.Valid() && Serving(cluster.w, currentEpoch)
      modifies cluster`w, cluster`run, cluster`setbacks, cluster`reported
      ensures cluster.Valid() && Serving(cluster.w, currentEpoch) && old(cluster.run) <= cluster.run
      ensures cluster.w.preparations == old(cluster.w).preparations
      ensures r.Err? ==> !r.error.CutoverCommitted?
      ensures old(cluster.w).newPod.alive ==> cluster.w.newPod.alive
      ensures cluster.setbacks >= old(cluster.setbacks)
      ensures cluster.setbacks == old(cluster.setbacks) ==>
                r.Ok? && (r.value.Some? ==> cluster.w.newPod.state == r.value.value.of)
      ensures r.Ok? && r.value.Some? ==> ReportedCaughtUp(r.value.value)
    {
      var active :- PollActiveSnapshot(OldPod, currentEpoch);
      var candidate :- cluster.Seed(NewPod, currentEpoch, active.checksum.value);
      var same := candidate.ready && candidate.caughtUp && candidate.tick == active.tick
        && candidate.checksum == active.checksum;
      return Ok(if same then active.checksum else None);
    }

    /** Re-seeds the candidate until it reports the serving pod's own tick and checksum. */
    method CatchUpJournal() returns (r: Answer<Checksum>)
      requires cluster.Valid() && Serving(cluster.w, currentEpoch)
      modifies this, cluster`w, cluster`run, cluster`setbacks, cluster`reported
      ensures cluster.Valid() && Serving(cluster.w, currentEpoch) && old(cluster.run) <= cluster.run
      ensures cluster.w.preparations == old(cluster.w).preparations
      ensures r.Err? ==> context == old(context)
      ensures r.Ok? ==> old(context).Some? && context == Some(old(context).value.(checksum := Some(r.value)))
      ensures r.Err? ==> !r.error.CutoverCommitted?
      ensures old(cluster.w).newPod.alive ==> cluster.w.newPod.alive
      ensures cluster.setbacks >= old(cluster.setbacks)
      ensures cluster.setbacks == old(cluster.setbacks) ==>
                (old(KnowsCandidate()) ==> r.Ok? && cluster.w.newPod.state == r.value.of)
      ensures r.Ok? ==> ReportedCaughtUp(r.value)
    {
      if !KnowsCandidate() {
        return Err(ContextNotFound);
      }
      var polls: nat := *;
      while polls > 0
        invariant cluster.setbacks >= old(cluster.setbacks)
        invariant cluster.Valid() && Serving(cluster.w, currentEpoch) && old(cluster.run) <= cluster.run
        invariant cluster.w.preparations == old(cluster.w).preparations
        invariant context == old(context) && (old(cluster.w).newPod.alive ==> cluster.w.newPod.alive)
      {
        var caughtUp :- CatchUpOnce();
        if caughtUp.Some? {
          context := Some(context.value.(checksum := caughtUp));
          return Ok(caughtUp.value);
        }
        var final := cluster.Chance();
        if final {
          return Err(CandidateNotCaughtUp);
        }
        polls := polls - 1;
      }
      cluster.Setback();
      return Err(CandidateNotCaughtUp);
    }

    method CandidateChecksum() returns (r: Answer<Checksum>)
      requires cluster.Valid()
      modifies cluster`w, cluster`run, cluster`setbacks, cluster`reported
      ensures cluster.Valid() && Idle(old(cluster.w), cluster.w) && old(cluster.run) <= cluster.run
      ensures r.Ok? ==> r.value == Sha256(cluster.w.newPod.state)
      ensures r.Err? ==> !r.error.CutoverCommitted?
      ensures cluster.setbacks >= old(cluster.setbacks)
      ensures cluster.setbacks == old(cluster.setbacks) ==>
                r.Ok? && (!old(cluster.w).newPod.Leads() ==> cluster.w.newPod == old(cluster.w).newPod)
      ensures r.Ok? ==>
                NewPod in cluster.reported && cluster.reported[NewPod].ready && cluster.reported[NewPod].caughtUp
                && cluster.reported[NewPod].checksum == Some(r.value)
    {
      var status :- cluster.HandoffStatus(NewPod);
      if !status.ready || !status.caughtUp || status.checksum == None {
        return Err(ChecksumUnavailable);
      }
      return Ok(status.checksum.value);
    }

    /** One attempt; any but the first sends the checksum the pod has just reported. */
    method TryRelease(expected: Checksum, ghost again: bool) returns (r: Answer<Status>)
      requires cluster.Valid() && Serving(cluster.w, currentEpoch)
      requires again ==> OldPod in cluster.reported && cluster.reported[OldPod].checksum == Some(expected)
      modifies cluster`w, cluster`run, cluster`setbacks, cluster`reported
      ensures cluster.Valid() && old(cluster.run) <= cluster.run
      ensures Serving(cluster.w, currentEpoch) || OldReleased(cluster.w, currentEpoch)
      ensures r.Ok? ==> Truthful(r.value, cluster.w.oldPod)
      ensures r.Err? ==> !r.error.CutoverCommitted?
      ensures r.Err? && r.error == ChecksumConflict ==> Serving(cluster.w, currentEpoch)
      ensures old(cluster.w).newPod.alive ==> cluster.w.newPod.alive
      ensures cluster.setbacks >= old(cluster.setbacks)
      ensures cluster.setbacks == old(cluster.setbacks) ==>
                r.Ok? && Full(r.value) && OldReleased(cluster.w, currentEpoch)
    {
      r := cluster.Release(OldPod, expected);
    }

    /** Asks the serving pod to release, again with a fresh checksum after each conflict. */
    method ReleaseOldPod(checksum: Checksum) returns (r: Answer<Status>)
      requires cluster.Valid() && Serving(cluster.w, currentEpoch)
      modifies cluster`w, cluster`run, cluster`setbacks, cluster`reported
      ensures cluster.Valid() && old(cluster.run) <= cluster.run
      ensures Serving(cluster.w, currentEpoch) || OldReleased(cluster.w, currentEpoch)
      ensures r.Ok? ==> Truthful(r.value, cluster.w.oldPod)
      ensures r.Err? ==> !r.error.CutoverCommitted?
      ensures old(cluster.w).newPod.alive ==> cluster.w.newPod.alive
      ensures cluster.setbacks >= old(cluster.setbacks)
      ensures cluster.setbacks == old(cluster.setbacks) ==>
                r.Ok? && Full(r.value) && OldReleased(cluster.w, currentEpoch)
    {
      var polls: nat := *;
      var expected := checksum;
      ghost var again := false;
      while true
        invariant cluster.setbacks >= old(cluster.setbacks)
        invariant cluster.Valid() && Serving(cluster.w, currentEpoch) && old(cluster.run) <= cluster.run
        invariant old(cluster.w).newPod.alive ==> cluster.w.newPod.alive
        invariant again ==> OldPod in cluster.reported && cluster.reported[OldPod].checksum == Some(expected)
        decreases polls
      {
        r := TryRelease(expected, again);
        if r.Ok? || r.error != ChecksumConflict || polls == 0 {
          return;
        }
        polls := polls - 1;
        again := true;
        var refreshed :- PollActiveSnapshot(OldPod, currentEpoch);
        expected := refreshed.checksum.value;
      }
    }

    /** Takes the lease from the serving pod and seeds the candidate with the state that was
        released: the simulation may have advanced since the last comparison. */
    method TransferFinalCheckpoint(checksum: Checksum) returns (r: Answer<(Checksum, Status)>)
      requires cluster.Valid() && Serving(cluster.w, currentEpoch)
      modifies cluster
      ensures cluster.Valid() && old(cluster.run) <= cluster.run
      ensures Serving(cluster.w, currentEpoch) || OldReleased(cluster.w, currentEpoch)
      ensures r.Ok? ==> OldReleased(cluster.w, currentEpoch)
      ensures r.Ok? ==> r.value.0 == Sha256(cluster.w.sealed) && Truthful(r.value.1, cluster.w.newPod)
      ensures r.Err? ==> !r.error.CutoverCommitted?
      ensures old(cluster.w).newPod.alive ==> cluster.w.newPod.alive
      ensures cluster.setbacks >= old(cluster.setbacks)
      ensures cluster.setbacks == old(cluster.setbacks) ==> r.Ok? && ReportsCheckpoint(r.value.1, r.value.0)
      ensures r.Ok? ==> cluster.deeds == old(cluster.deeds) + [Labelled(OldPod, Candidate, currentEpoch)]
    {
      var released :- ReleaseOldPod(checksum);
      if released.role != Candidate || released.checksum == None || released.tick == None {
        return Err(FinalCheckpointUnavailable);
      }
      assert OldReleased(cluster.w, currentEpoch);
      var _ :- cluster.Call(Labelled(OldPod, Candidate, currentEpoch));
      assert OldReleased(cluster.w, currentEpoch);
      var candidate :- cluster.Seed(NewPod, currentEpoch, released.checksum.value);
      return Ok((released.checksum.value, candidate));
    }

    /** Promotes the candidate once it has reported exactly the checkpoint asked for. The run
        stays sound exactly if that is the released one or the promotion took no effect. */
    method PromoteCandidate(candidate: Status, roomEpoch: nat, checksum: Checksum) returns (r: Answer<()>)
      requires cluster.Valid() && OldReleased(cluster.w, currentEpoch) && roomEpoch == currentEpoch + 1
      requires Truthful(candidate, cluster.w.newPod)
      modifies cluster`w, cluster`run, cluster`setbacks, cluster`reported
      ensures cluster.Tracked() && old(cluster.run) <= cluster.run
      ensures cluster.Valid() <==> checksum == Sha256(old(cluster.w).sealed) || !cluster.w.newPod.Leads()
      ensures OldReleased(cluster.w, currentEpoch) || AwaitingCutover(cluster.w, currentEpoch)
      ensures r.Ok? ==> AwaitingCutover(cluster.w, currentEpoch) && cluster.w.newPod.state == checksum.of
      ensures r.Err? ==> !r.error.CutoverCommitted?
      ensures old(cluster.w).newPod.alive ==> cluster.w.newPod.alive
      ensures cluster.setbacks >= old(cluster.setbacks)
      ensures cluster.setbacks == old(cluster.setbacks) ==> (ReportsCheckpoint(candidate, checksum) ==> r.Ok?)
      // nothing is promoted that did not report itself ready, caught up and at the checksum
      ensures cluster.w.newPod.Leads() ==>
                candidate.role == Candidate && candidate.ready && candidate.caughtUp &&
                    candidate.checksum == Some(checksum)
      ensures r.Ok? ==>
                NewPod in cluster.reported && cluster.reported[NewPod].role == Active
                && cluster.reported[NewPod].epoch == Some(roomEpoch)
                && cluster.reported[NewPod].checksum == Some(checksum)
    {
      if !ReportsCheckpoint(candidate, checksum) {
        return Err(FinalCheckpointMismatch);
      }
      var promoted :- cluster.Promote(NewPod, roomEpoch);
      if promoted.role != Active || promoted.epoch != Some(roomEpoch) || promoted.checksum != Some(checksum) {
        return Err(PromoteNotAuthoritative);
      }
      return Ok(());
    }

    /** The candidate already leads: an earlier promotion whose answer was lost. */
    method AdoptPromotion(candidate: Status, roomEpoch: nat) returns (r: Answer<Checksum>)
      requires cluster.Valid() && KnowsCandidate() && roomEpoch == currentEpoch + 1
      requires AwaitingCutover(cluster.w, currentEpoch) && Truthful(candidate, cluster.w.newPod)
      modifies this, cluster
      ensures cluster.Valid() && old(cluster.run) <= cluster.run && AwaitingCutover(cluster.w, currentEpoch)
      ensures SameRun(old(context), context)
      ensures r.Ok? ==> r.value.of <= cluster.w.newPod.state && context.value.checksum == Some(r.value)
      ensures r.Ok? ==> context.value.committedEpoch == Some(roomEpoch)
      ensures r.Err? ==> !r.error.CutoverCommitted?
      ensures cluster.setbacks >= old(cluster.setbacks)
      ensures r.Ok? ==> cluster.deeds == old(cluster.deeds) + Swapped(currentEpoch)
    {
      if candidate.epoch != Some(roomEpoch) || candidate.checksum == None {
        return Err(AuthorityStateConflict);
      }
      context := Some(context.value.(checksum := candidate.checksum, committedEpoch := Some(roomEpoch)));
      var _ :- LabelBoth(Candidate, currentEpoch, Active, roomEpoch);
      return Ok(candidate.checksum.value);
    }

    /** The checksum to promote on and the candidate's report of it: the released state's, or
        what the caller and the candidate say when the old pod no longer leads. */
    method PromotionCheckpoint(oldStatus: Status, observed: Status, checksum: Checksum)
      returns (r: Answer<(Checksum, Status)>)
      requires cluster.Valid() && (Serving(cluster.w, currentEpoch) || OldReleased(cluster.w, currentEpoch))
      requires oldStatus.role == cluster.w.oldPod.role && Truthful(observed, cluster.w.newPod)
      modifies cluster
      ensures cluster.Valid() && old(cluster.run) <= cluster.run
      ensures Serving(cluster.w, currentEpoch) || OldReleased(cluster.w, currentEpoch)
      ensures old(OldReleased(cluster.w, currentEpoch)) ==> cluster.w == old(cluster.w) && r == Ok((checksum, observed))
      ensures r.Ok? ==> OldReleased(cluster.w, currentEpoch) && Truthful(r.value.1, cluster.w.newPod)
      ensures r.Ok? && old(Serving(cluster.w, currentEpoch)) ==> r.value.0 == Sha256(cluster.w.sealed)
      ensures r.Err? ==> !r.error.CutoverCommitted?
      ensures old(cluster.w).newPod.alive ==> cluster.w.newPod.alive
      ensures cluster.setbacks >= old(cluster.setbacks)
      ensures cluster.setbacks == old(cluster.setbacks) && old(Serving(cluster.w, currentEpoch)) ==>
                (oldStatus.epoch == Some(currentEpoch) ==> r.Ok? && ReportsCheckpoint(r.value.1, r.value.0))
      ensures r.Ok? && old(Serving(cluster.w, currentEpoch)) ==>
                cluster.deeds == old(cluster.deeds) + [Labelled(OldPod, Candidate, currentEpoch)]
      ensures old(OldReleased(cluster.w, currentEpoch)) ==> cluster.deeds == old(cluster.deeds)
    {
      if oldStatus.role != Active {
        return Ok((checksum, observed));
      }
      if oldStatus.epoch != Some(currentEpoch) {
        return Err(EpochChanged);
      }
      r := TransferFinalCheckpoint(checksum);
    }

    /** Moves the lease to a candidate that does not lead yet. */
    method TransferAuthority(oldStatus: Status, observed: Status, roomEpoch: nat, checksum: Checksum)
      returns (r: Answer<Checksum>)
      requires cluster.Valid() && KnowsCandidate() && roomEpoch == currentEpoch + 1
      requires Serving(cluster.w, currentEpoch) || OldReleased(cluster.w, currentEpoch)
      requires oldStatus.role == cluster.w.oldPod.role && Truthful(observed, cluster.w.newPod)
      modifies this, cluster
      ensures cluster.Tracked() && old(cluster.run) <= cluster.run
      ensures cluster.Valid() <==>
              old(Serving(cluster.w, currentEpoch)) || checksum == Sha256(old(cluster.w).sealed) ||
                  !cluster.w.newPod.Leads()
      ensures Serving(cluster.w, currentEpoch) || OldReleased(cluster.w, currentEpoch)
           || AwaitingCutover(cluster.w, currentEpoch)
      ensures r.Ok? ==> AwaitingCutover(cluster.w, currentEpoch) && r.value.of <= cluster.w.newPod.state
      ensures SameRun(old(context), context)
      ensures r.Ok? ==> context.value.checksum == Some(r.value)
      ensures r.Ok? ==> context.value.committedEpoch == Some(roomEpoch)
      ensures r.Err? ==> !r.error.CutoverCommitted?
      ensures old(cluster.w).newPod.alive ==> cluster.w.newPod.alive
      ensures cluster.setbacks >= old(cluster.setbacks)
      ensures cluster.setbacks == old(cluster.setbacks) ==>
                (old(Serving(cluster.w, currentEpoch)) && oldStatus.epoch == Some(currentEpoch) ==> r.Ok?)
      ensures r.Ok? ==>
                cluster.deeds == old(cluster.deeds) +
                  if old(Serving(cluster.w, currentEpoch)) then Swapped(currentEpoch)
                  else [Labelled(NewPod, Active, roomEpoch)]
    {
      var checkpoint :- PromotionCheckpoint(oldStatus, observed, checksum);
      var (promotionChecksum, candidate) := checkpoint;
      var _ :- PromoteCandidate(candidate, roomEpoch, promotionChecksum);
      context := Some(context.value.(checksum := Some(promotionChecksum), committedEpoch := Some(roomEpoch)));
      var _ :- cluster.Call(Labelled(NewPod, Active, roomEpoch));
      return Ok(promotionChecksum);
    }

    /** Moves the lease to the candidate at roomEpoch. The call may be a retry: the old pod
        may already have released, or the candidate may already lead. The run stays sound in
        every case but one: a retry that finds the old pod released and promotes on a checksum
        that is not the released state's. */
    method ActivateCandidate(roomEpoch: nat, checksum: Checksum) returns (r: Answer<Checksum>)
      requires cluster.Valid() && roomEpoch == currentEpoch + 1
      requires Serving(cluster.w, currentEpoch) || OldReleased(cluster.w, currentEpoch)
            || AwaitingCutover(cluster.w, currentEpoch)
      modifies this, cluster
      ensures cluster.Tracked() && old(cluster.run) <= cluster.run
      ensures cluster.Valid() <==>
              !old(OldReleased(cluster.w, currentEpoch)) || checksum == Sha256(old(cluster.w).sealed) ||
                  !cluster.w.newPod.Leads()
      ensures Serving(cluster.w, currentEpoch) || OldReleased(cluster.w, currentEpoch)
           || AwaitingCutover(cluster.w, currentEpoch)
      ensures r.Ok? ==> AwaitingCutover(cluster.w, currentEpoch) && r.value.of <= cluster.w.newPod.state
      ensures SameRun(old(context), context)
      ensures r.Ok? ==> context.Some? && context.value.checksum == Some(r.value)
      ensures r.Ok? ==> context.value.committedEpoch == Some(roomEpoch)
      ensures r.Err? ==> !r.error.CutoverCommitted?
      ensures old(cluster.w).newPod.alive ==> cluster.w.newPod.alive
      ensures cluster.setbacks >= old(cluster.setbacks)
      ensures cluster.setbacks == old(cluster.setbacks) ==>
                (old(KnowsCandidate()) && old(Serving(cluster.w, currentEpoch)) ==> r.Ok?)
      // the labels follow the lease
      ensures r.Ok? ==>
                cluster.deeds == old(cluster.deeds) +
                  if old(OldReleased(cluster.w, currentEpoch)) then [Labelled(NewPod, Active, roomEpoch)]
                  else Swapped(currentEpoch)
    {
      if !KnowsCandidate() {
        return Err(ContextNotFound);
      }
      var pods :- ReadForActivation();
      var oldStatus, candidate := pods.0, pods.1;
      if oldStatus.role == Active && candidate.role == Active {
        return Err(SplitBrain);
      }
      if candidate.role == Active {
        r := AdoptPromotion(candidate, roomEpoch);
      } else {
        r := TransferAuthority(oldStatus, candidate, roomEpoch, checksum);
      }
    }

    /** Both pods' reports, the candidate's being the later one. */
    method ReadForActivation() returns (r: Answer<(Status, Status)>)
      requires cluster.Valid()
      modifies cluster`w, cluster`run, cluster`setbacks, cluster`reported
      ensures cluster.Valid() && Idle(old(cluster.w), cluster.w) && old(cluster.run) <= cluster.run
      ensures r.Ok? ==> r.value.0.role == cluster.w.oldPod.role && Truthful(r.value.1, cluster.w.newPod)
      ensures r.Err? ==> !r.error.CutoverCommitted?
      ensures cluster.setbacks >= old(cluster.setbacks)
      ensures cluster.setbacks == old(cluster.setbacks) ==> r.Ok? && r.value.0.epoch == Some(cluster.w.oldPod.epoch)
    {
      var oldStatus :- cluster.HandoffStatus(OldPod);
      var candidate :- cluster.HandoffStatus(NewPod);
      return Ok((oldStatus, candidate));
    }

    /** Asks the gateway to cut over; when the answer is lost, consults its durable record. */
    method GatewayCutover(operationId: OperationId, p: Endpoint, nextEpoch: nat) returns (r: Answer<()>)
      requires cluster.Valid() && MayRoute(cluster.w, p, nextEpoch)
      modifies cluster`w, cluster`run, cluster`setbacks
      ensures cluster.Valid() && old(cluster.run) <= cluster.run
      ensures GatewayMoved(old(cluster.w), cluster.w)
      ensures cluster.w.route == old(cluster.w).route || cluster.w.route == Route(p, nextEpoch)
      ensures r.Err? && r.error.CutoverCommitted? ==> r.error.epoch == nextEpoch
      ensures cluster.setbacks >= old(cluster.setbacks)
      ensures cluster.setbacks == old(cluster.setbacks) ==> r.Ok? && cluster.w.route == Route(p, nextEpoch)
      ensures cluster.w.preparations in {old(cluster.w).preparations, old(cluster.w).preparations - {operationId}}
      ensures cluster.w.route != old(cluster.w).route ==> operationId !in cluster.w.preparations
    {
      r := cluster.Cutover(operationId, p, nextEpoch);
      if r.Err? {
        var record := cluster.Operation();
        if record.Some? && record.value.nextEpoch == nextEpoch && record.value.endpoint == p {
          if record.value.status == Committed {
            return Ok(());
          }
          if record.value.status == RegistryCommitted {
            return Err(CutoverCommitted(record.value.nextEpoch));
          }
        }
      }
    }

    /** The driver remembers this run's transfer at this epoch and checksum. */
    predicate ProvenTransfer(epoch: nat, checksum: Checksum)
      reads this
    {
      KnowsCandidate() && context.value.checksum == Some(checksum) && context.value.committedEpoch == Some(epoch)
    }

    /** The driver still has a candidate for this operation. */
    predicate Serves(operationId: OperationId)
      reads this
    {
      KnowsCandidate() && context.value.operationId == operationId
    }

    method CutoverGateway(operationId: OperationId, nextEpoch: nat, checksum: Checksum) returns (r: Answer<()>)
      requires cluster.Valid() && AwaitingCutover(cluster.w, currentEpoch)
      modifies this, cluster`w, cluster`run, cluster`setbacks, cluster`reported
      ensures cluster.Valid() && old(cluster.run) <= cluster.run
      ensures AwaitingCutover(cluster.w, currentEpoch) || CutOver(cluster.w, currentEpoch)
      ensures r.Err? && r.error.CutoverCommitted? ==> r.error.epoch == currentEpoch + 1
      ensures SameRun(old(context), context)
      ensures r.Ok? ==> context == old(context)
      ensures cluster.setbacks >= old(cluster.setbacks)
      ensures cluster.setbacks == old(cluster.setbacks) ==>
                (old(Serves(operationId) && ProvenTransfer(nextEpoch, checksum)) && nextEpoch == currentEpoch + 1 ==>
                   r.Ok? && CutOver(cluster.w, currentEpoch))
      // the route moves only on a proven transfer, and onto a candidate that reported itself fit
      ensures cluster.w.route != old(cluster.w).route ==>
                && old(context).Some? && old(context).value.operationId == operationId
                && old(context).value.checksum == Some(checksum)
                && old(context).value.committedEpoch == Some(nextEpoch)
                && NewPod in cluster.reported && cluster.reported[NewPod].role == Active
                && cluster.reported[NewPod].ready
                && cluster.reported[NewPod].caughtUp && cluster.reported[NewPod].epoch == Some(nextEpoch)
                && cluster.reported[NewPod].checksum.Some?
      ensures cluster.w.route != old(cluster.w).route ==> operationId !in cluster.w.preparations
      ensures cluster.w.preparations <= old(cluster.w).preparations
    {
      if context == None || context.value.operationId != operationId {
        return Err(ContextNotFound);
      }
      var authority :- cluster.HandoffStatus(NewPod);
      if context.value.checksum != Some(checksum) || context.value.committedEpoch != Some(nextEpoch)
        || authority.role != Active || !authority.ready || authority.epoch != Some(nextEpoch)
        || authority.checksum == None || !authority.caughtUp {
        return Err(CutoverProofFailed);
      }
      var _ :- GatewayCutover(operationId, NewPod, nextEpoch);
      context := Some(context.value.(checksum := Some(checksum), committedEpoch := Some(nextEpoch)));
      return Ok(());
    }

    /** At their last answers a pod led at an epoch, ready and with a checksum, and the gateway
        routed to it there with complete evidence of continuous sessions. */
    ghost predicate ReportedServing(p: Endpoint, epoch: nat)
      reads cluster
    {
      && p in cluster.reported && cluster.reported[p].role == Active && cluster.reported[p].ready
      && cluster.reported[p].epoch == Some(epoch) && cluster.reported[p].checksum.Some?
      && ReportedRoute(p, epoch)
    }

    ghost predicate ReportedRoute(p: Endpoint, epoch: nat)
      reads cluster
    {
      && cluster.listing.Some? && cluster.listing.value.route == Some(Route(p, epoch))
      && cluster.listing.value.continuous
    }

    /** One reading of the candidate and the gateway: the candidate leads at expectedEpoch,
        is routed to at that epoch, and its sessions are continuous. */
    method ReadAfterCutover(expectedEpoch: nat) returns (r: Answer<bool>)
      requires cluster.Valid()
      modifies cluster`w, cluster`run, cluster`setbacks, cluster`reported, cluster`listing
      ensures cluster.Valid() && Idle(old(cluster.w), cluster.w) && old(cluster.run) <= cluster.run
      ensures r.Ok? && r.value ==> MayDelete(cluster.w, OldPod)
      ensures r.Err? ==> !r.error.CutoverCommitted?
      ensures cluster.setbacks >= old(cluster.setbacks)
      ensures cluster.setbacks == old(cluster.setbacks) ==>
                (MayDelete(old(cluster.w), OldPod) && old(cluster.w).newPod.epoch == expectedEpoch ==> r == Ok(true))
      ensures r.Ok? && r.value ==> ReportedServing(NewPod, expectedEpoch)
      ensures r.Ok? && r.value ==> cluster.w.newPod.epoch == expectedEpoch
    {
      var status :- cluster.HandoffStatus(NewPod);
      var gateway :- cluster.Rooms();
      var healthy := status.role == Active && status.ready && status.epoch == Some(expectedEpoch)
                  && status.checksum.Some?;
      return Ok(healthy && gateway.route == Some(Route(NewPod, expectedEpoch)) && gateway.continuous);
    }

    /** Re-reads candidate and gateway until both prove the cutover, or the deadline passes. */
    method Verify(expectedChecksum: Checksum) returns (r: Answer<bool>)
      requires cluster.Valid()
      modifies cluster`w, cluster`run, cluster`setbacks, cluster`reported, cluster`listing
      ensures cluster.Valid() && Idle(old(cluster.w), cluster.w) && old(cluster.run) <= cluster.run
      ensures r.Ok? && r.value ==> KnowsCandidate() && MayDelete(cluster.w, OldPod)
      ensures r.Err? ==> !r.error.CutoverCommitted?
      ensures cluster.setbacks >= old(cluster.setbacks)
      ensures cluster.setbacks == old(cluster.setbacks) ==>
                (CutOver(old(cluster.w), currentEpoch) && ProvenTransfer(currentEpoch + 1, expectedChecksum) ==>
                    r == Ok(true))
      ensures r.Ok? && r.value ==>
                && context.value.checksum == Some(expectedChecksum) && context.value.committedEpoch.Some?
                && ReportedServing(NewPod, context.value.committedEpoch.value)
                && cluster.w.newPod.epoch == context.value.committedEpoch.value
    {
      if !KnowsCandidate() {
        return Err(ContextNotFound);
      }
      var expectedEpoch := if context.value.committedEpoch.Some? then context.value.committedEpoch.value
                           else currentEpoch + 1;
      var transferProofMatches := context.value.checksum == Some(expectedChecksum)
                               && context.value.committedEpoch == Some(expectedEpoch);
      var polls: nat := *;
      while true
        invariant cluster.setbacks >= old(cluster.setbacks)
        invariant cluster.Valid() && Idle(old(cluster.w), cluster.w) && old(cluster.run) <= cluster.run
        decreases polls
      {
        ghost var before := cluster.w;
        var proved := ReadAfterCutover(expectedEpoch);
        IdleTwice(old(cluster.w), before, cluster.w);
        if proved.Err? {
          return Err(proved.error);
        }
        if transferProofMatches && proved.value {
          return Ok(true);
        }
        if polls == 0 {
          return Ok(false);
        }
        polls := polls - 1;
      }
    }

    method FinalizeGateway(operationId: OperationId, roomEpoch: nat) returns (r: Answer<()>)
      requires cluster.Valid()
      modifies cluster`w, cluster`run, cluster`setbacks, cluster`deeds
      ensures cluster.Valid() && Idle(old(cluster.w), cluster.w) && old(cluster.run) <= cluster.run
      ensures r.Err? ==> !r.error.CutoverCommitted?
      ensures cluster.setbacks >= old(cluster.setbacks)
      ensures cluster.setbacks == old(cluster.setbacks) ==> r.Ok?
      ensures cluster.deeds == old(cluster.deeds) + [Finalized(operationId, roomEpoch)]
    {
      r := cluster.Call(Finalized(operationId, roomEpoch));
    }

    method DrainOldPod() returns (r: Answer<()>)
      requires cluster.Valid() && CutOver(cluster.w, currentEpoch)
      modifies this, cluster`w, cluster`run, cluster`setbacks
      ensures cluster.Valid() && old(cluster.run) <= cluster.run
      ensures CutOver(cluster.w, currentEpoch) || Drained(cluster.w, currentEpoch)
      ensures r.Ok? ==> Drained(cluster.w, currentEpoch) && context == None
      ensures r.Err? ==> context == old(context)
      ensures r.Err? ==> !r.error.CutoverCommitted?
      ensures cluster.setbacks >= old(cluster.setbacks)
      ensures cluster.setbacks == old(cluster.setbacks) ==> r.Ok?
      ensures cluster.w.preparations == old(cluster.w).preparations
    {
      var _ :- cluster.DeletePod(OldPod);
      context := None;
      return Ok(());
    }

    method DiscardCandidate() returns (r: Answer<()>)
      requires cluster.Valid() && OldServes(cluster.w)
      modifies this, cluster`w, cluster`run, cluster`setbacks, cluster`deeds
      ensures cluster.Valid() && Quietly(old(cluster.run), cluster.run)
      ensures Idle(old(cluster.w), cluster.w) || Deleted(old(cluster.w), cluster.w, NewPod)
      ensures r.Ok? ==> !cluster.w.newPod.alive && context == None
      ensures r.Err? ==> context == old(context)
      ensures r.Err? ==> !r.error.CutoverCommitted?
      ensures cluster.setbacks >= old(cluster.setbacks)
      ensures cluster.setbacks == old(cluster.setbacks) ==> (old(KnowsCandidate()) ==> r.Ok?)
      // before the pod goes its template is put back
      ensures cluster.deeds == old(cluster.deeds) + if old(KnowsCandidate()) then [TemplateRestored] else []
    {
      if !KnowsCandidate() {
        return Err(ContextNotFound);
      }
      var _ :- RestoreDeployment();
      var _ :- cluster.DeletePod(NewPod);
      context := None;
      return Ok(());
    }

    // --- rollback -----------------------------------------------------------------

    /** Takes the lease back from the serving candidate and seeds the old pod with the state
        released; the old pod's own memory is never taken as proof. */
    method ReclaimCheckpoint() returns (r: Answer<Status>)
      requires cluster.Valid() && CutOver(cluster.w, currentEpoch)
      modifies cluster
      ensures cluster.Valid() && old(cluster.run) <= cluster.run
      ensures CutOver(cluster.w, currentEpoch) || NewReleased(cluster.w, currentEpoch)
      ensures r.Ok? ==> NewReleased(cluster.w, currentEpoch) && r.value.tick.Some?
      ensures r.Ok? ==> r.value.checksum == Some(Sha256(cluster.w.sealed))
      ensures r.Err? ==> !r.error.CutoverCommitted?
      ensures cluster.setbacks >= old(cluster.setbacks)
      ensures r.Ok? ==> r.value.role == Candidate && r.value.epoch == Some(currentEpoch + 1)
      ensures cluster.w.preparations == old(cluster.w).preparations
      ensures cluster.setbacks == old(cluster.setbacks) ==> r.Ok? && r.value.tick == Some(|cluster.w.sealed|)
      ensures r.Ok? ==>
                cluster.deeds ==
                old(cluster.deeds) + [SnapshotSaved(NewPod), Labelled(NewPod, Candidate, currentEpoch + 1)]
    {
      var authorityEpoch := currentEpoch + 1;
      var checkpoint :- SaveSnapshot(NewPod, authorityEpoch);
      var released :- cluster.Release(NewPod, checkpoint.checksum.value);
      if released.role != Candidate || released.epoch != Some(authorityEpoch) || released.tick == None
        || released.checksum == None {
        return Err(RollbackReleaseInvalid);
      }
      assert NewReleased(cluster.w, currentEpoch);
      var _ :- cluster.Call(Labelled(NewPod, Candidate, authorityEpoch));
      return Ok(released);
    }

    /** Seeds the old pod with the released checkpoint and insists on an exact answer. */
    method ReseedOldPod(tick: nat, checksum: Checksum) returns (r: Answer<()>)
      requires cluster.Valid() && NewReleased(cluster.w, currentEpoch)
      requires checksum == Sha256(cluster.w.sealed)
      modifies cluster`w, cluster`run, cluster`setbacks, cluster`reported
      ensures cluster.Valid() && old(cluster.run) <= cluster.run
      ensures NewReleased(cluster.w, currentEpoch) && cluster.w.sealed == old(cluster.w).sealed
      ensures r.Ok? ==> cluster.w.oldPod.state == cluster.w.sealed
      ensures r.Err? ==> !r.error.CutoverCommitted?
      ensures cluster.setbacks >= old(cluster.setbacks)
      ensures r.Ok? ==>
                OldPod in cluster.reported
                && cluster.reported[OldPod] ==
                    Status(Candidate, true, true, Some(currentEpoch + 1), Some(tick), Some(checksum))
      ensures cluster.w.preparations == old(cluster.w).preparations
      ensures cluster.setbacks == old(cluster.setbacks) ==> (tick == |cluster.w.sealed| ==> r.Ok?)
    {
      var reseeded :- cluster.Seed(OldPod, currentEpoch + 1, checksum);
      if reseeded.checksum != Some(checksum) || reseeded.role != Candidate || !reseeded.ready
        || !reseeded.caughtUp || reseeded.epoch != Some(currentEpoch + 1) || reseeded.tick != Some(tick) {
        return Err(RollbackReseedProofFailed);
      }
      return Ok(());
    }

    method PromoteOldPod(rollbackEpoch: nat, checksum: Checksum) returns (r: Answer<()>)
      requires cluster.Valid() && NewReleased(cluster.w, currentEpoch)
      requires cluster.w.oldPod.state == cluster.w.sealed && rollbackEpoch == currentEpoch + 2
      modifies cluster
      ensures cluster.Valid() && old(cluster.run) <= cluster.run
      ensures NewReleased(cluster.w, currentEpoch) || AwaitingReturn(cluster.w, currentEpoch)
      ensures r.Ok? ==> AwaitingReturn(cluster.w, currentEpoch)
      ensures r.Err? ==> !r.error.CutoverCommitted?
      ensures cluster.setbacks >= old(cluster.setbacks)
      ensures r.Ok? ==>
                OldPod in cluster.reported && cluster.reported[OldPod].role == Active && cluster.reported[OldPod].ready
                && cluster.reported[OldPod].epoch == Some(rollbackEpoch)
                && cluster.reported[OldPod].checksum == Some(checksum)
      ensures cluster.w.preparations == old(cluster.w).preparations
      ensures cluster.setbacks == old(cluster.setbacks) ==> (checksum == Sha256(old(cluster.w).sealed) ==> r.Ok?)
      ensures r.Ok? ==>
                cluster.deeds == old(cluster.deeds) +
                  [Labelled(OldPod, Active, rollbackEpoch), Labelled(NewPod, Candidate, currentEpoch + 1)]
    {
      var promoted :- cluster.Promote(OldPod, rollbackEpoch);
      if promoted.role != Active || !promoted.ready || promoted.epoch != Some(rollbackEpoch)
        || promoted.checksum != Some(checksum) {
        return Err(RollbackNotPromoted);
      }
      assert AwaitingReturn(cluster.w, currentEpoch);
      r := LabelBoth(Active, rollbackEpoch, Candidate, currentEpoch + 1);
    }

    /** Lifts the run's own preparation and freezes under the rollback's key. */
    method FreezeForReturn(operationId: OperationId, rollbackId: OperationId, prepared: bool) returns (r: Answer<()>)
      requires cluster.Valid() && operationId != rollbackId && (prepared <==> operationId in cluster.w.preparations)
      modifies cluster`w, cluster`run, cluster`setbacks
      ensures cluster.Valid() && old(cluster.run) <= cluster.run
      ensures GatewayMoved(old(cluster.w), cluster.w) && cluster.w.route == old(cluster.w).route
      ensures r.Ok? ==> rollbackId in cluster.w.preparations && operationId !in cluster.w.preparations
      ensures cluster.setbacks >= old(cluster.setbacks)
      ensures cluster.setbacks == old(cluster.setbacks) ==> r.Ok?
    {
      if prepared {
        var _ :- AbortGatewayPreparation(operationId);
      }
      r := cluster.Freeze(rollbackId, {operationId});
    }

    /** Moves the gateway back onto the old pod under the rollback's own key, and proves it by
        re-reading the gateway. */
    method ReturnRoute(operationId: OperationId, rollbackEpoch: nat, prepared: bool) returns (r: Answer<()>)
      requires cluster.Valid() && AwaitingReturn(cluster.w, currentEpoch) && rollbackEpoch == currentEpoch + 2
      requires prepared <==> operationId in cluster.w.preparations
      modifies cluster
      ensures cluster.Valid() && old(cluster.run) <= cluster.run
      ensures AwaitingReturn(cluster.w, currentEpoch) || RolledBack(cluster.w, currentEpoch)
      ensures r.Ok? ==> RolledBack(cluster.w, currentEpoch)
      ensures old(cluster.w).newPod.alive ==> cluster.w.newPod.alive
      ensures cluster.setbacks >= old(cluster.setbacks)
      ensures r.Ok? ==> ReportedRoute(OldPod, rollbackEpoch)
      ensures r.Ok? ==>
                operationId !in cluster.w.preparations &&
                    RollbackOf(operationId, rollbackEpoch) !in cluster.w.preparations
      ensures cluster.setbacks == old(cluster.setbacks) ==> r.Ok?
      ensures r.Ok? ==>
                cluster.deeds == old(cluster.deeds) + [Finalized(RollbackOf(operationId, rollbackEpoch), rollbackEpoch)]
      ensures cluster.reported == old(cluster.reported)
    {
      var rollbackId := RollbackOf(operationId, rollbackEpoch);
      OwnKey(operationId, rollbackEpoch);
      var _ :- FreezeForReturn(operationId, rollbackId, prepared);
      var _ :- GatewayCutover(rollbackId, OldPod, rollbackEpoch);
      var proof :- cluster.Rooms();
      if proof.route != Some(Route(OldPod, rollbackEpoch)) || !proof.continuous {
        return Err(RollbackContinuityFailed);
      }
      r := FinalizeGateway(rollbackId, rollbackEpoch);
    }

    /** Carries the authority from the serving candidate back to the old pod at an epoch above
        every one observed. */
    method ReturnAuthority(operationId: OperationId, rollbackEpoch: nat, prepared: bool)
      returns (r: Answer<Checksum>)
      requires cluster.Valid() && CutOver(cluster.w, currentEpoch) && rollbackEpoch == currentEpoch + 2
      requires prepared <==> operationId in cluster.w.preparations
      modifies cluster
      ensures cluster.Valid() && old(cluster.run) <= cluster.run
      ensures CutOver(cluster.w, currentEpoch) || NewReleased(cluster.w, currentEpoch)
           || AwaitingReturn(cluster.w, currentEpoch) || RolledBack(cluster.w, currentEpoch)
      ensures r.Ok? ==> RolledBack(cluster.w, currentEpoch)
      ensures old(cluster.w).newPod.alive ==> cluster.w.newPod.alive
      ensures cluster.setbacks >= old(cluster.setbacks)
      ensures r.Ok? ==> ReportedRoute(OldPod, rollbackEpoch)
      ensures r.Ok? ==>
                operationId !in cluster.w.preparations &&
                    RollbackOf(operationId, rollbackEpoch) !in cluster.w.preparations
      ensures cluster.setbacks == old(cluster.setbacks) ==> r.Ok?
      ensures r.Ok? ==> cluster.deeds == old(cluster.deeds) + Returned(operationId)
      ensures r.Ok? ==> OldPod in cluster.reported && cluster.reported[OldPod].checksum == Some(r.value)
    {
      var released :- ReclaimCheckpoint();
      var checksum := released.checksum.value;
      var _ :- ReseedOldPod(released.tick.value, checksum);
      var _ :- PromoteOldPod(rollbackEpoch, checksum);
      var _ :- ReturnRoute(operationId, rollbackEpoch, prepared);
      return Ok(checksum);
    }

    /** Both pods' roles and epochs; nothing but this run changes either. */
    method ReadBothPods() returns (r: Answer<(Status, Status)>)
      requires cluster.Valid()
      modifies cluster`w, cluster`run, cluster`setbacks, cluster`reported
      ensures cluster.Valid() && Idle(old(cluster.w), cluster.w) && old(cluster.run) <= cluster.run
      ensures r.Ok? ==> Authority(r.value.0, cluster.w.oldPod) && Authority(r.value.1, cluster.w.newPod)
      ensures cluster.setbacks >= old(cluster.setbacks)
      ensures cluster.setbacks == old(cluster.setbacks) ==>
                r.Ok? && r.value.0.epoch.Some? && r.value.1.epoch.Some? && r.value.1.checksum.Some?
    {
      var oldStatus :- cluster.HandoffStatus(OldPod);
      var candidate :- cluster.HandoffStatus(NewPod);
      return Ok((oldStatus, candidate));
    }

    /** Reads both pods and the gateway, and decides; also whether operationId is prepared. */
    method ObserveForRollback(operationId: OperationId, expectedEpoch: nat)
      returns (r: Answer<(RollbackDecision, bool)>)
      requires cluster.Valid() && expectedEpoch <= currentEpoch + 1
      requires Serving(cluster.w, currentEpoch) || OldReleased(cluster.w, currentEpoch)
            || AwaitingCutover(cluster.w, currentEpoch) || CutOver(cluster.w, currentEpoch)
      modifies cluster`w, cluster`run, cluster`setbacks, cluster`reported, cluster`listing
      ensures cluster.Valid() && Idle(old(cluster.w), cluster.w) && old(cluster.run) <= cluster.run
      ensures r.Ok? && r.value.0.Resume? ==> Serving(cluster.w, currentEpoch) && r.value.0.epoch == currentEpoch
      ensures r.Ok? && r.value.0.Reclaim? ==>
                CutOver(cluster.w, currentEpoch) && r.value.0.rollbackEpoch == currentEpoch + 2
      ensures cluster.setbacks >= old(cluster.setbacks)
      ensures r.Ok? ==> (r.value.1 <==> operationId in cluster.w.preparations)
      ensures cluster.setbacks == old(cluster.setbacks) ==>
                && r.Ok?
                && (old(Serving(cluster.w, currentEpoch)) ==> r.value.0.Resume?)
                && (old(CutOver(cluster.w, currentEpoch)) ==> r.value.0.Reclaim?)
    {
      var pods :- ReadBothPods();
      var oldStatus, candidate := pods.0, pods.1;
      var gateway :- cluster.Rooms();
      var decision := DecideRollback(oldStatus, candidate, gateway.route, expectedEpoch);
      RollbackDecisionInRun(cluster.w, currentEpoch, oldStatus, candidate, gateway.route, expectedEpoch);
      return Ok((decision, operationId in gateway.preparations));
    }

    /** Reconciles whatever authority and route are observed. It succeeds only with the old pod
        leading and routed to, at the epoch it returns. The coordinator's next epoch is always
        expectedEpoch + 1. */
    method RollbackGateway(operationId: OperationId, expectedEpoch: nat) returns (r: Answer<nat>)
      requires cluster.Valid() && expectedEpoch <= currentEpoch + 1
      requires Serving(cluster.w, currentEpoch) || OldReleased(cluster.w, currentEpoch)
            || AwaitingCutover(cluster.w, currentEpoch) || CutOver(cluster.w, currentEpoch)
      modifies this, cluster
      ensures cluster.Valid() && old(cluster.run) <= cluster.run
      ensures SameRun(old(context), context)
      ensures r.Ok? ==> OldServes(cluster.w) && r.value == cluster.w.oldPod.epoch
      ensures old(Serving(cluster.w, currentEpoch)) ==> Serving(cluster.w, currentEpoch)
      ensures old(OldReleased(cluster.w, currentEpoch)) ==> r.Err? && OldReleased(cluster.w, currentEpoch)
      ensures old(AwaitingCutover(cluster.w, currentEpoch)) ==> r.Err? && AwaitingCutover(cluster.w, currentEpoch)
      ensures old(CutOver(cluster.w, currentEpoch)) ==>
                CutOver(cluster.w, currentEpoch) || NewReleased(cluster.w, currentEpoch) ||
                AwaitingReturn(cluster.w, currentEpoch) || RolledBack(cluster.w, currentEpoch)
      ensures old(cluster.w).newPod.alive ==> cluster.w.newPod.alive
      ensures cluster.setbacks >= old(cluster.setbacks)
      // a rollback that succeeds leaves nothing frozen under this operation's keys
      ensures r.Ok? ==> operationId !in cluster.w.preparations
      ensures r.Ok? && old(CutOver(cluster.w, currentEpoch)) ==>
                && RollbackOf(operationId, currentEpoch + 2) !in cluster.w.preparations
                && ReportedRoute(OldPod, currentEpoch + 2)
      // and it succeeds whenever the authority was whole and nothing goes wrong
      ensures cluster.setbacks == old(cluster.setbacks) ==>
                (old(Serves(operationId) && (Serving(cluster.w, currentEpoch) || CutOver(cluster.w, currentEpoch))) ==>
                    r.Ok?)
      // what is remembered and done: a resume does nothing more, a return is the whole of it
      ensures r.Ok? ==> context.Some? && context.value.committedEpoch == Some(r.value)
      ensures r.Ok? && old(Serving(cluster.w, currentEpoch)) ==>
                cluster.deeds == old(cluster.deeds) && context.value.checksum == old(context).value.checksum
      ensures r.Ok? && old(CutOver(cluster.w, currentEpoch)) ==>
                && cluster.deeds == old(cluster.deeds) + Returned(operationId)
                && OldPod in cluster.reported && context.value.checksum == cluster.reported[OldPod].checksum
                && context.value.checksum.Some?
    {
      if context == None || context.value.operationId != operationId || !context.value.candidateKnown {
        return Err(ContextNotFound);
      }
      var observed :- ObserveForRollback(operationId, expectedEpoch);
      var prepared := observed.1;
      match observed.0
      case Refuse(fault) =>
        r := Err(fault);
      case Resume(epoch) =>
        if prepared {
          var _ :- AbortGatewayPreparation(operationId);
        }
        context := Some(context.value.(committedEpoch := Some(epoch)));
        r := Ok(epoch);
      case Reclaim(rollbackEpoch) =>
        var checksum :- ReturnAuthority(operationId, rollbackEpoch, prepared);
        context := Some(context.value.(committedEpoch := Some(rollbackEpoch), checksum := Some(checksum)));
        r := Ok(rollbackEpoch);
    }
  }
}
