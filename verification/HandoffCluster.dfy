/**
 The pods, the session gateway and the Kubernetes API as the handoff driver sees them:
 a set of remote calls, each of which may fail before its effect, take effect and lose
 its answer, or answer. Between any two effects the leading pod may simulate further.

 The servers are modelled at their weakest. They report their own role, epoch and state
 truthfully, but they never refuse a call because its expected epoch or checksum is
 wrong, and the gateway may answer a cutover that it did not perform. What keeps a run
 sound is therefore the driver's own checks.
 */
module HandoffCluster {
  import opened HandoffWorld
  import opened Wrappers

  datatype Fault =
    | Transport
    | ChecksumConflict
    | AlreadyScheduled
    | DeploymentUnavailable
    | CandidateImageMismatch
    | CandidateScheduleTimeout
    | CandidateAcquiredAuthority
    | CandidateReadyTimeout
    | ContextNotFound
    | AuthorityLost
    | EpochChanged
    | SnapshotTimeout
    | CandidateNotCaughtUp
    | ChecksumUnavailable
    | CandidateTickLag
    | ChecksumMismatch
    | SplitBrain
    | AuthorityStateConflict
    | FinalCheckpointUnavailable
    | FinalCheckpointMismatch
    | PromoteNotAuthoritative
    | CutoverProofFailed
    | CutoverCommitted(epoch: nat)
    | PostVerificationFailed
    | RollbackRouteUnavailable
    | RollbackAuthorityUnavailable
    | RollbackAuthorityRouteMismatch
    | RollbackReleaseInvalid
    | RollbackReseedProofFailed
    | RollbackNotPromoted
    | RollbackContinuityFailed
    | PublishFailed
    | WaveAlreadyRunning
    | InvalidWaveRoom
    | CandidateRevisionMismatch

  /** What a call came back with. */
  type Answer<T> = Result<T, Fault>

  datatype Status = Status(
    role: Role, ready: bool, caughtUp: bool,
    epoch: Option<nat>, tick: Option<nat>, checksum: Option<Checksum>)

  /** A pod reports its role, and its epoch, tick and checksum when it reports them at all.
      Whether it calls itself ready or caught up is its own affair. */
  predicate Truthful(s: Status, pod: Pod) {
    && s.role == pod.role
    && (s.epoch.Some? ==> s.epoch.value == pod.epoch)
    && (s.tick.Some? ==> s.tick.value == |pod.state|)
    && (s.checksum.Some? ==> s.checksum.value == Sha256(pod.state))
  }

  /** A report with nothing missing, from a pod that is ready and caught up. */
  predicate Full(s: Status) {
    s.ready && s.caughtUp && s.epoch.Some? && s.tick.Some? && s.checksum.Some?
  }

  /** What the gateway lists: its route and preparations, and whether it holds complete
      continuity evidence (committed operation, live and upstream sessions) for an
      operation at an endpoint and epoch. */
  datatype Listing = Listing(route: Option<Route>, preparations: set<OperationId>, continuous: bool)

  datatype OperationStatus = Preparing | RegistryCommitted | Committed | Failed
  datatype OperationRecord = OperationRecord(status: OperationStatus, endpoint: Endpoint, nextEpoch: nat)

  // --- effects -----------------------------------------------------------------

  /** Time passed for p: a leader may have simulated further; a candidate whose peer leads
      may have loaded anything from the journal; otherwise p is as it was. */
  ghost predicate Ticked(w: World, w': World, p: Endpoint) {
    && w'.At(p) == w.At(p).(state := w'.At(p).state)
    && (w.At(p).Leads() ==> w.At(p).state <= w'.At(p).state)
    && (!w.At(p).Leads() && !w.At(p.Peer()).Leads() ==> w'.At(p) == w.At(p))
  }

  ghost predicate Idle(w: World, w': World) {
    && Ticked(w, w', OldPod)
    && Ticked(w, w', NewPod)
    && w' == w.(oldPod := w'.oldPod, newPod := w'.newPod)
  }

  /** A run went on without the gateway's preparations changing. */
  ghost predicate Quietly(before: seq<World>, after: seq<World>) {
    && before != [] && before <= after
    && forall i | |before| <= i < |after| :: after[i].preparations == before[|before| - 1].preparations
  }

  lemma QuietlyTwice(a: seq<World>, b: seq<World>, c: seq<World>)
    requires Quietly(a, b) && Quietly(b, c)
    ensures Quietly(a, c)
  {
    assert b[|b| - 1].preparations == a[|a| - 1].preparations by {
      assert |b| == |a| ==> b == a;
    }
    forall i | |a| <= i < |c|
      ensures c[i].preparations == a[|a| - 1].preparations
    {
      if i < |b| {
        assert c[i] == b[i];
      }
    }
  }

  /** What a freeze may do to a run: place the preparation, with or without an answer. */
  ghost predicate FreezeOutcome(before: seq<World>, after: seq<World>, operation: OperationId,
                                supersedes: set<OperationId>, answered: bool) {
    && before != [] && before <= after
    && (var was, now := before[|before| - 1].preparations, after[|after| - 1].preparations;
        && (now == was || now == was - supersedes + {operation})
        && (answered ==> operation in now)
        && forall i | |before| <= i < |after| :: after[i].preparations == was || after[i].preparations == now)
  }

  /** Since the run was that of before, the operation's preparation was in place at some moment. */
  ghost predicate WasPrepared(before: seq<World>, after: seq<World>, operation: OperationId) {
    exists i :: |before| <= i < |after| && operation in after[i].preparations
  }

  /** The operation's preparation, if it was ever placed, is there to stay, and nothing else changed. */
  ghost predicate FreezeStays(before: seq<World>, after: seq<World>, operation: OperationId) {
    && before != [] && before <= after
    && after[|after| - 1].preparations ==
       before[|before| - 1].preparations + (if WasPrepared(before, after, operation) then {operation} else {})
  }

  lemma FreezeOutcomeStays(before: seq<World>, frozen: seq<World>, operation: OperationId, answered: bool)
    requires FreezeOutcome(before, frozen, operation, {}, answered)
    ensures FreezeStays(before, frozen, operation)
  {
    var last := |frozen| - 1;
    assert |frozen| == |before| ==> frozen == before;
    assert |frozen| > |before| && operation in frozen[last].preparations ==> WasPrepared(before, frozen, operation);
  }

  /** Quiet time before or after a freeze changes nothing about it. */
  lemma FreezeStaysQuietly(a: seq<World>, b: seq<World>, c: seq<World>, d: seq<World>, operation: OperationId)
    requires Quietly(a, b) && FreezeStays(b, c, operation) && Quietly(c, d)
    ensures FreezeStays(a, d, operation)
  {
    var was := a[|a| - 1].preparations;
    assert b[|b| - 1].preparations == was by {
      assert |b| == |a| ==> b == a;
    }
    assert d[|d| - 1].preparations == c[|c| - 1].preparations by {
      assert |d| == |c| ==> d == c;
    }
    if WasPrepared(b, c, operation) {
      var i :| |b| <= i < |c| && operation in c[i].preparations;
      assert d[i] == c[i];
    }
    forall i | |a| <= i < |d| && operation in d[i].preparations
      ensures operation in was || WasPrepared(b, c, operation)
    {
      if i < |b| {
        assert d[i] == b[i];
      } else if i < |c| {
        assert d[i] == c[i] && operation in c[i].preparations;
      }
    }
  }

  /** A freeze that took effect and whose answer was lost: the preparation is in place, the run
      is sound, and only a further call to the gateway can lift it. */
  lemma LostFreezeStays(w: World, operation: OperationId) returns (run: seq<World>)
    requires Safe(w) && operation !in w.preparations
    ensures [w] <= run && Sound(run) && FreezeOutcome([w], run, operation, {}, false)
    ensures FreezeStays([w], run, operation) && operation in run[|run| - 1].preparations
  {
    run := [w, w.(preparations := w.preparations + {operation})];
    assert run == [w] + [run[1]];
    SoundOneMore([w], run[1]);
    FreezeOutcomeStays([w], run, operation, false);
  }

  /** Only a leader changed. */
  predicate Undisturbed(w: World, w': World) {
    (!w.oldPod.Leads() ==> w'.oldPod == w.oldPod) && (!w.newPod.Leads() ==> w'.newPod == w.newPod)
  }

  lemma IdleTwice(w: World, w': World, w'': World)
    requires Idle(w, w') && Idle(w', w'')
    ensures Idle(w, w'')
  {
  }

  /** p gave up the lease; the final checkpoint it sealed may be newer than before. */
  ghost predicate Released(w: World, w': World, p: Endpoint) {
    && w.At(p).Leads()
    && w.At(p).state <= w'.At(p).state
    && w'.At(p) == w.At(p).(role := Candidate, state := w'.At(p).state)
    && w'.At(p.Peer()) == w.At(p.Peer()).(state := w'.At(p.Peer()).state)
    && w' == w.(oldPod := w'.oldPod, newPod := w'.newPod, sealed := w'.At(p).state)
  }

  /** p, which does not lead, loaded some state; nothing says which. */
  ghost predicate Seeded(w: World, w': World, p: Endpoint, expectedEpoch: nat) {
    && !w.At(p).Leads()
    && Ticked(w, w', p.Peer())
    && w'.At(p) == w.At(p).(state := w'.At(p).state, epoch := w'.At(p).epoch)
    && (w'.At(p).epoch == w.At(p).epoch || w'.At(p).epoch == expectedEpoch)
    && w' == w.(oldPod := w'.oldPod, newPod := w'.newPod)
  }

  ghost predicate Promoted(w: World, w': World, p: Endpoint, nextEpoch: nat) {
    && w.At(p).alive && w.At(p).role == Candidate
    && Ticked(w, w', p.Peer())
    && w'.At(p) == w.At(p).(role := Active, epoch := nextEpoch, state := w'.At(p).state)
    && (!w.At(p.Peer()).Leads() ==> w'.At(p).state == w.At(p).state)
    && w' == w.(oldPod := w'.oldPod, newPod := w'.newPod)
  }

  /** Apart from time passing, only the gateway's route and preparations changed. */
  ghost predicate GatewayMoved(w: World, w': World) {
    && Ticked(w, w', OldPod)
    && Ticked(w, w', NewPod)
    && w' == w.(oldPod := w'.oldPod, newPod := w'.newPod, route := w'.route, preparations := w'.preparations)
  }

  ghost predicate Deleted(w: World, w': World, p: Endpoint) {
    && Ticked(w, w', p.Peer())
    && w'.At(p) == w.At(p).(alive := false, state := w'.At(p).state)
    && w' == w.(oldPod := w'.oldPod, newPod := w'.newPod)
  }

  ghost predicate Appeared(w: World, w': World) {
    && !w.newPod.alive && w'.newPod.alive && w'.newPod.role == Candidate
    && w.newPod.epoch <= w'.newPod.epoch
    && w'.newPod.epoch <= w.Ceiling()
    && Ticked(w, w', OldPod)
    && w' == w.(oldPod := w'.oldPod, newPod := w'.newPod)
  }

  // --- when an effect keeps a run sound ------------------------------------------

  /** p may be handed the lease at nextEpoch. */
  ghost predicate MayLead(w: World, p: Endpoint, nextEpoch: nat) {
    !w.At(p.Peer()).Leads() && w.At(p).state == w.sealed && w.Ceiling() < nextEpoch
  }

  /** Nobody leads and the epoch is fresh, but p does not hold the state last released. */
  ghost predicate OnlyStale(w: World, p: Endpoint, nextEpoch: nat) {
    && !w.oldPod.Leads() && !w.newPod.Leads()
    && w.At(p).state != w.sealed && w.Ceiling() < nextEpoch
  }

  /** p's memory may be overwritten: its peer still holds the authoritative state. */
  ghost predicate MayForget(w: World, p: Endpoint, expectedEpoch: nat) {
    && w.At(p).epoch <= expectedEpoch
    && w.At(p.Peer()).alive
    && (w.At(p.Peer()).Leads() || w.At(p.Peer()).state == w.sealed)
  }

  ghost predicate MayRoute(w: World, p: Endpoint, epoch: nat) {
    w.At(p).Leads() && w.At(p).epoch == epoch && w.route.epoch <= epoch
  }

  ghost predicate MayDelete(w: World, p: Endpoint) {
    w.At(p.Peer()).Leads() && w.route == Route(p.Peer(), w.At(p.Peer()).epoch)
  }

  /** Promoting a pod while nobody leads is a fenced step exactly when the pod holds the state
      last released, and it keeps what was played exactly when that state is a prefix of the
      pod's: a stale checkpoint truncates or forks the room. */
  lemma StalePromotionForks(w: World, p: Endpoint, nextEpoch: nat)
    requires Safe(w) && !w.oldPod.Leads() && !w.newPod.Leads()
    requires w.At(p).alive && w.At(p).role == Candidate && w.Ceiling() < nextEpoch
    ensures var w' := w.With(p, w.At(p).(role := Active, epoch := nextEpoch));
            && (Step(w, w') && Safe(w') <==> w.At(p).state == w.sealed)
            && (w.History() <= w'.History() <==> w.sealed <= w.At(p).state)
  {
  }

  /** The world after p, which alone leads, simulated some steps and its peer loaded a state. */
  function PlayedOn(w: World, p: Endpoint, played: seq<nat>, loaded: GameState): World {
    w.With(p, w.At(p).(state := w.At(p).state + played)).With(p.Peer(), w.At(p.Peer()).(state := loaded))
  }

  lemma PlayIsLawful(w: World, p: Endpoint, played: seq<nat>, loaded: GameState)
    requires w.At(p).Leads() && !w.At(p.Peer()).Leads()
    ensures var w' := PlayedOn(w, p, played, loaded);
            && Idle(w, w') && w'.preparations == w.preparations && w'.At(p.Peer()).state == loaded
            && (Safe(w) ==> Safe(w') && Step(w, w'))
  {
  }

  // --- the remote calls -----------------------------------------------------------

  /** Requests to Kubernetes, to a pod or to the gateway that change neither lease nor route:
      a Deployment's template is read, patched or put back, a pod labelled with a role and an
      epoch or told to save a snapshot, a finished operation confirmed to the gateway. */
  datatype Deed =
    | TemplateRead | TemplatePatched | TemplateRestored
    | Labelled(p: Endpoint, role: Role, epoch: nat)
    | SnapshotSaved(p: Endpoint)
    | Finalized(operation: OperationId, epoch: nat)


  class Cluster {
    var w: World
    /** Every world this run has been in, oldest first. */
    ghost var run: seq<World>
    /** What went wrong so far: calls that failed or were not answered, reports and proofs that
        were not complete, deadlines that passed. */
    ghost var setbacks: nat
    /** The last answer of each pod about itself, and of the gateway. */
    ghost var reported: map<Endpoint, Status>
    ghost var listing: Option<Listing>
    /** What was asked for that does not show in the world, answered or not. */
    ghost var deeds: seq<Deed>

    ghost predicate Tracked()
      reads `w, `run
    {
      |run| > 0 && run[|run| - 1] == w
    }

    ghost predicate Valid()
      reads `w, `run
    {
      Tracked() && Sound(run)
    }

    constructor (initial: World)
      requires Safe(initial)
      ensures Valid() && w == initial && run == [initial]
    {
      w := initial;
      run, setbacks, reported, listing, deeds := [initial], 0, map[], None, [];
    }

    /** Something that need not go wrong may. */
    method Chance() returns (wrong: bool)
      modifies this`setbacks
      ensures setbacks == old(setbacks) + (if wrong then 1 else 0)
    {
      wrong := *;
      if wrong {
        Setback();
      }
    }

    ghost method Setback()
      modifies this`setbacks
      ensures setbacks == old(setbacks) + 1
    {
      setbacks := setbacks + 1;
    }

    /** One atomic effect. A run that was sound stays so exactly if the effect is a sound step;
        one that was not never becomes so. */
    method Advance(w': World)
      requires Tracked()
      modifies this`w, this`run
      ensures Tracked() && w == w' && run == old(run) + [w']
      ensures Valid() <==> old(Valid()) && Safe(w') && Step(old(w), w')
    {
      SoundOneMore(run, w');
      w := w';
      run := run + [w'];
    }

    /** p, which alone leads, simulates some steps, and its peer has some state loaded. */
    method Play(p: Endpoint, played: seq<nat>, loaded: GameState)
      requires Tracked() && w.At(p).Leads() && !w.At(p.Peer()).Leads()
      modifies this`w, this`run, this`setbacks
      ensures Tracked() && Idle(old(w), w) && Quietly(old(run), run)
      ensures Valid() <==> old(Valid())
      ensures setbacks >= old(setbacks)
      ensures setbacks == old(setbacks) ==> Undisturbed(old(w), w)
    {
      assert Valid() ==> Lawful(run, |run| - 1);
      if loaded != w.At(p.Peer()).state {
        Setback();
      }
      PlayIsLawful(w, p, played, loaded);
      Advance(PlayedOn(w, p, played, loaded));
    }

    /** Time passes: the leading pod may simulate any number of further steps, and the other
        may load anything. */
    method Elapse()
      requires Tracked()
      modifies this`w, this`run, this`setbacks
      ensures Tracked() && Idle(old(w), w) && Quietly(old(run), run)
      ensures Valid() <==> old(Valid())
      ensures setbacks >= old(setbacks)
      ensures setbacks == old(setbacks) ==> Undisturbed(old(w), w)
    {
      var played: seq<nat>, loaded: GameState := *, *;
      if w.oldPod.Leads() && !w.newPod.Leads() {
        Play(OldPod, played, loaded);
      } else if w.newPod.Leads() && !w.oldPod.Leads() {
        Play(NewPod, played, loaded);
      }
    }

    /** A call that reads or records something outside the world: it may fail. */
    method Call(deed: Deed) returns (r: Answer<()>)
      requires Tracked()
      modifies this`w, this`run, this`setbacks, this`deeds
      ensures deeds == old(deeds) + [deed]
      ensures Tracked() && Idle(old(w), w) && Quietly(old(run), run)
      ensures Valid() <==> old(Valid())
      ensures r.Err? ==> r.error == Transport
      ensures setbacks >= old(setbacks)
      ensures setbacks == old(setbacks) ==> r.Ok? && Undisturbed(old(w), w)
    {
      deeds := deeds + [deed];
      Elapse();
      var lost := Chance();
      r := if lost then Err(Transport) else Ok(());
    }

    /** What pod p answers about itself, if it answers. */
    method Report(p: Endpoint) returns (r: Answer<Status>)
      modifies this`setbacks, this`reported
      ensures reported == if r.Ok? then old(reported)[p := r.value] else old(reported)
      ensures r.Ok? ==> w.At(p).alive && Truthful(r.value, w.At(p))
      ensures r.Err? ==> r.error == Transport
      ensures setbacks >= old(setbacks)
      ensures setbacks == old(setbacks) ==> r.Ok? && Full(r.value)
    {
      var lost := Chance();
      var partial := Chance();
      if lost {
        return Err(Transport);
      }
      if !w.At(p).alive {
        Setback();
        return Err(Transport);
      }
      var ready: bool, caughtUp: bool, hasEpoch: bool, hasTick: bool, hasChecksum: bool := true, true, true, true, true;
      if partial {
        ready, caughtUp, hasEpoch, hasTick, hasChecksum := *, *, *, *, *;
      }
      r := Ok(Status(w.At(p).role, ready, caughtUp,
                     if hasEpoch then Some(w.At(p).epoch) else None,
                     if hasTick then Some(|w.At(p).state|) else None,
                     if hasChecksum then Some(Sha256(w.At(p).state)) else None));
      reported := reported[p := r.value];
    }

    method HandoffStatus(p: Endpoint) returns (r: Answer<Status>)
      requires Valid()
      modifies this`w, this`run, this`setbacks, this`reported
      ensures reported == if r.Ok? then old(reported)[p := r.value] else old(reported)
      ensures Valid() && Idle(old(w), w) && Quietly(old(run), run)
      ensures r.Ok? ==> w.At(p).alive && Truthful(r.value, w.At(p))
      ensures r.Err? ==> r.error == Transport
      ensures setbacks >= old(setbacks)
      ensures setbacks == old(setbacks) ==> r.Ok? && Full(r.value) && Undisturbed(old(w), w)
    {
      Elapse();
      r := Report(p);
    }

    /** p gives up the lease after simulating the steps still played. */
    method Surrender(p: Endpoint, played: seq<nat>)
      requires Valid() && w.At(p).Leads()
      modifies this`w, this`run
      ensures Valid() && old(run) <= run
      ensures Released(old(w), w, p)
    {
      assert Lawful(run, |run| - 1);
      var final := w.At(p).state + played;
      Advance(w.With(p, w.At(p).(role := Candidate, state := final)).(sealed := final));
    }

    /** expected is sent along; the pod may or may not insist on it. */
    method Release(p: Endpoint, expected: Checksum) returns (r: Answer<Status>)
      requires Valid()
      modifies this`w, this`run, this`setbacks, this`reported
      ensures reported == if r.Ok? then old(reported)[p := r.value] else old(reported)
      ensures Valid() && old(run) <= run
      ensures Idle(old(w), w) || Released(old(w), w, p)
      ensures r.Ok? ==> w.At(p).alive && Truthful(r.value, w.At(p))
      ensures r.Err? ==> r.error == Transport || (r.error == ChecksumConflict && Idle(old(w), w))
      ensures setbacks >= old(setbacks)
      ensures setbacks == old(setbacks) ==> r.Ok? && Full(r.value) && (old(w).At(p).Leads() ==> Released(old(w), w, p))
    {
      Elapse();
      var played: seq<nat> := *;
      var conflict := Chance();
      if conflict {
        return Err(ChecksumConflict);
      }
      var ineffective := Chance();
      if !ineffective && w.At(p).Leads() {
        Surrender(p, played);
      }
      r := Report(p);
    }

    /** p, which does not lead, forgets its state for another. */
    method Overwrite(p: Endpoint, loaded: GameState, epoch: nat)
      requires Valid() && w.At(p).alive && !w.At(p).Leads()
      modifies this`w, this`run
      ensures Tracked() && old(run) <= run
      ensures w == old(w).With(p, old(w).At(p).(state := loaded, epoch := epoch))
      ensures MayForget(old(w), p, epoch) ==> Valid()
    {
      Advance(w.With(p, w.At(p).(state := loaded, epoch := epoch)));
    }

    method Seed(p: Endpoint, expectedEpoch: nat, expected: Checksum) returns (r: Answer<Status>)
      requires Valid()
      modifies this`w, this`run, this`setbacks, this`reported
      ensures reported == if r.Ok? then old(reported)[p := r.value] else old(reported)
      ensures old(run) <= run
      ensures Idle(old(w), w) || Seeded(old(w), w, p, expectedEpoch)
      ensures old(w).At(p).Leads() || MayForget(old(w), p, expectedEpoch) ==> Valid()
      ensures r.Ok? ==> w.At(p).alive && Truthful(r.value, w.At(p))
      ensures r.Err? ==> r.error == Transport
      ensures setbacks >= old(setbacks)
      ensures setbacks == old(setbacks) ==>
                r.Ok? && Full(r.value) && (!old(w).At(p).Leads() ==> w.At(p).state == expected.of)
      ensures setbacks == old(setbacks) ==> (!old(w).At(p).Leads() ==> w.At(p).epoch == expectedEpoch)
    {
      Elapse();
      var loaded := expected.of;
      var ineffective := Chance();
      var unfenced := Chance();
      var wrong := Chance();
      if wrong {
        loaded := *;
      }
      if !ineffective && w.At(p).alive && !w.At(p).Leads() {
        Overwrite(p, loaded, if unfenced then w.At(p).epoch else expectedEpoch);
      }
      r := Report(p);
    }

    /** p takes the lease, on whatever state it holds. */
    method Lead(p: Endpoint, nextEpoch: nat)
      requires Valid() && w.At(p).alive && w.At(p).role == Candidate
      modifies this`w, this`run
      ensures Tracked() && old(run) <= run
      ensures w == old(w).With(p, old(w).At(p).(role := Active, epoch := nextEpoch))
      ensures MayLead(old(w), p, nextEpoch) ==> Valid()
      ensures OnlyStale(old(w), p, nextEpoch) ==> !Valid()
    {
      assert Lawful(run, |run| - 1);
      Advance(w.With(p, w.At(p).(role := Active, epoch := nextEpoch)));
    }

    method Promote(p: Endpoint, nextEpoch: nat) returns (r: Answer<Status>)
      requires Valid()
      modifies this`w, this`run, this`setbacks, this`reported
      ensures reported == if r.Ok? then old(reported)[p := r.value] else old(reported)
      ensures old(run) <= run
      ensures Idle(old(w), w) || Promoted(old(w), w, p, nextEpoch)
      ensures Tracked() && (MayLead(old(w), p, nextEpoch) ==> Valid())
      ensures OnlyStale(old(w), p, nextEpoch) ==> (Valid() <==> !w.At(p).Leads())
      ensures r.Ok? ==> w.At(p).alive && Truthful(r.value, w.At(p))
      ensures r.Err? ==> r.error == Transport
      ensures setbacks >= old(setbacks)
      ensures setbacks == old(setbacks) ==>
                r.Ok? && Full(r.value) && (old(w).At(p).role == Candidate ==> Promoted(old(w), w, p, nextEpoch))
    {
      Elapse();
      var ineffective := Chance();
      if !ineffective && w.At(p).alive && w.At(p).role == Candidate {
        Lead(p, nextEpoch);
      }
      r := Report(p);
    }

    /** The gateway's preparations change, and nothing else. */
    method Prepare(preparations: set<OperationId>)
      requires Valid()
      modifies this`w, this`run
      ensures Valid() && w == old(w).(preparations := preparations) && run == old(run) + [w]
    {
      assert Lawful(run, |run| - 1);
      Advance(w.(preparations := preparations));
    }

    /** Freezes player input for operation, taking over what a superseded one had frozen. */
    method Freeze(operation: OperationId, supersedes: set<OperationId>) returns (r: Answer<()>)
      requires Valid()
      modifies this`w, this`run, this`setbacks
      ensures Valid() && old(run) <= run
      ensures GatewayMoved(old(w), w) && w.route == old(w).route
      ensures FreezeOutcome(old(run), run, operation, supersedes, r.Ok?)
      ensures r.Err? ==> r.error == Transport
      ensures setbacks >= old(setbacks)
      ensures setbacks == old(setbacks) ==> r.Ok?
    {
      Elapse();
      var ineffective := Chance();
      var lost := Chance();
      if !ineffective {
        Prepare(w.preparations - supersedes + {operation});
      }
      r := if ineffective || lost then Err(Transport) else Ok(());
    }

    method Abort(operation: OperationId) returns (r: Answer<()>)
      requires Valid()
      modifies this`w, this`run, this`setbacks
      ensures Valid() && old(run) <= run
      ensures GatewayMoved(old(w), w) && w.route == old(w).route
      ensures w.preparations == old(w).preparations || w.preparations == old(w).preparations - {operation}
      ensures r.Ok? ==> operation !in w.preparations
      ensures r.Err? ==> r.error == Transport
      ensures setbacks >= old(setbacks)
      ensures setbacks == old(setbacks) ==> r.Ok?
    {
      Elapse();
      var ineffective := Chance();
      var lost := Chance();
      if !ineffective {
        Prepare(w.preparations - {operation});
      }
      r := if ineffective || lost then Err(Transport) else Ok(());
    }

    /** The route moves, and the preparation it was frozen for is over. */
    method Commit(operation: OperationId, p: Endpoint, nextEpoch: nat)
      requires Valid()
      modifies this`w, this`run
      ensures Tracked() && old(run) <= run
      ensures w == old(w).(route := Route(p, nextEpoch), preparations := old(w).preparations - {operation})
      ensures MayRoute(old(w), p, nextEpoch) ==> Valid()
    {
      assert Lawful(run, |run| - 1);
      Advance(w.(route := Route(p, nextEpoch), preparations := w.preparations - {operation}));
    }

    /** The answer says nothing about the effect. */
    method Cutover(operation: OperationId, p: Endpoint, nextEpoch: nat) returns (r: Answer<()>)
      requires Valid()
      modifies this`w, this`run, this`setbacks
      ensures old(run) <= run
      ensures GatewayMoved(old(w), w)
      ensures w.route == old(w).route || w.route == Route(p, nextEpoch)
      ensures w.preparations <= old(w).preparations
      ensures MayRoute(old(w), p, nextEpoch) ==> Valid()
      ensures r.Err? ==> r.error == Transport
      ensures setbacks >= old(setbacks)
      ensures setbacks == old(setbacks) ==> r.Ok? && w.route == Route(p, nextEpoch)
      ensures w.preparations in {old(w).preparations, old(w).preparations - {operation}}
      ensures w.route != old(w).route ==> operation !in w.preparations
    {
      Elapse();
      var ineffective := Chance();
      var lost := Chance();
      if !ineffective {
        Commit(operation, p, nextEpoch);
      }
      r := if lost then Err(Transport) else Ok(());
    }

    /** The gateway's durable record of a cutover: absent, or anything at all. */
    method Operation() returns (r: Option<OperationRecord>)
      requires Valid()
      modifies this`w, this`run, this`setbacks
      ensures Valid() && Idle(old(w), w) && old(run) <= run
      ensures setbacks >= old(setbacks)
    {
      Elapse();
      var found: bool, record: OperationRecord := *, *;
      r := if found then Some(record) else None;
    }

    method Rooms() returns (r: Answer<Listing>)
      requires Valid()
      modifies this`w, this`run, this`setbacks, this`listing
      ensures listing == if r.Ok? then Some(r.value) else old(listing)
      ensures Valid() && Idle(old(w), w) && old(run) <= run
      ensures r.Ok? && r.value.route.Some? ==> r.value.route.value == w.route
      ensures r.Ok? ==> r.value.preparations == w.preparations
      ensures r.Err? ==> r.error == Transport
      ensures setbacks >= old(setbacks)
      ensures setbacks == old(setbacks) ==> r.Ok? && r.value.route.Some? && r.value.continuous && Undisturbed(old(w), w)
    {
      Elapse();
      var lost := Chance();
      var partial := Chance();
      var listed: bool, continuous: bool := true, true;
      if partial {
        listed, continuous := *, *;
      }
      r := if lost then Err(Transport)
           else Ok(Listing(if listed then Some(w.route) else None, w.preparations, continuous));
      listing := if r.Ok? then Some(r.value) else listing;
    }

    method Terminate(p: Endpoint)
      requires Valid()
      modifies this`w, this`run
      ensures Quietly(old(run), run) && w == old(w).With(p, old(w).At(p).(alive := false))
      ensures MayDelete(old(w), p) ==> Valid()
    {
      assert Lawful(run, |run| - 1);
      Advance(w.With(p, w.At(p).(alive := false)));
    }

    method DeletePod(p: Endpoint) returns (r: Answer<()>)
      requires Valid()
      modifies this`w, this`run, this`setbacks
      ensures Quietly(old(run), run)
      ensures Idle(old(w), w) || Deleted(old(w), w, p)
      ensures MayDelete(old(w), p) ==> Valid()
      ensures r.Ok? ==> !w.At(p).alive
      ensures r.Err? ==> r.error == Transport
      ensures setbacks >= old(setbacks)
      ensures setbacks == old(setbacks) ==> r.Ok?
    {
      Elapse();
      var ineffective := Chance();
      var lost := Chance();
      if !ineffective {
        Terminate(p);
      }
      r := if ineffective || lost then Err(Transport) else Ok(());
    }

    /** The rollout's pod comes up, with any memory. */
    method Appear(memory: GameState, epoch: nat)
      requires Valid() && !w.newPod.alive && w.newPod.epoch <= epoch <= w.Ceiling()
      modifies this`w, this`run
      ensures Valid() && Quietly(old(run), run) && Appeared(old(w), w)
    {
      assert Lawful(run, |run| - 1);
      Advance(w.(newPod := Pod(true, Candidate, epoch, memory)));
    }

    /** Lists the room's pods; the rollout's pod may have come up meanwhile. It joins
        without the lease and at no higher epoch than the room has seen. */
    method CandidateRunning() returns (r: Answer<bool>)
      requires Valid()
      modifies this`w, this`run, this`setbacks
      ensures Valid() && Quietly(old(run), run)
      ensures Idle(old(w), w) || Appeared(old(w), w)
      ensures r.Ok? && r.value ==> w.newPod.alive
      ensures r.Err? ==> r.error == Transport
      ensures setbacks >= old(setbacks)
      ensures setbacks == old(setbacks) ==> r == Ok(true)
    {
      Elapse();
      var memory: GameState, atCeiling: bool := *, *;
      var absent := Chance();
      var hidden := Chance();
      var lost := Chance();
      if !absent && !w.newPod.alive {
        Appear(memory, if atCeiling then w.Ceiling() else w.newPod.epoch);
      }
      r := if lost then Err(Transport) else Ok(!hidden && w.newPod.alive);
    }
  }
}
