/**
 The world a planned room handoff runs in: two pods that may hold authority over
 one room, and the session gateway that routes players to one of them.

 A run is a sequence of worlds, one per atomic effect. Safe says what must hold in
 every world, Step what must hold between two consecutive ones, and Sound that a
 whole run has both.
 */
module HandoffWorld {

  /** Every simulation step the room has taken since it opened. */
  type GameState = seq<nat>

  /** A collision-free digest of a game state. */
  datatype Checksum = Sha256(of: GameState)

  datatype Role = Active | Candidate

  datatype Pod = Pod(alive: bool, role: Role, epoch: nat, state: GameState) {
    /** The pod holds the room's lease and simulates it. */
    predicate Leads() {
      alive && role == Active
    }
  }

  datatype Endpoint = OldPod | NewPod {
    function Peer(): Endpoint {
      if this == OldPod then NewPod else OldPod
    }
  }

  datatype Route = Route(endpoint: Endpoint, epoch: nat)

  /** sealed is the final state of the last pod that gave up the lease. */
  datatype World = World(oldPod: Pod, newPod: Pod, route: Route, preparations: set<OperationId>, sealed: GameState) {

    function At(p: Endpoint): Pod {
      if p == OldPod then oldPod else newPod
    }

    function With(p: Endpoint, pod: Pod): World {
      if p == OldPod then this.(oldPod := pod) else this.(newPod := pod)
    }

    /** The authoritative state: the leader's, or the one last released when nobody leads. */
    function History(): GameState {
      if oldPod.Leads() then oldPod.state else if newPod.Leads() then newPod.state else sealed
    }

    /** The highest epoch either pod or the route holds. */
    function Ceiling(): (m: nat)
      ensures oldPod.epoch <= m && newPod.epoch <= m && route.epoch <= m
      ensures m == oldPod.epoch || m == newPod.epoch || m == route.epoch
    {
      var pods := if oldPod.epoch <= newPod.epoch then newPod.epoch else oldPod.epoch;
      if pods <= route.epoch then route.epoch else pods
    }
  }

  /** A rollback runs under its own idempotency key. */
  datatype OperationId = Rollout(name: string) | RollbackOf(operation: OperationId, epoch: nat)

  // --- what a run must keep ---------------------------------------------------

  /** Never two leaders, players never routed to a deleted pod, and some live pod
      holds the authoritative state. */
  ghost predicate Safe(w: World) {
    && !(w.oldPod.Leads() && w.newPod.Leads())
    && w.At(w.route.endpoint).alive
    && Holder(w)
  }

  ghost predicate Holder(w: World) {
    (w.oldPod.alive && w.oldPod.state == w.History()) || (w.newPod.alive && w.newPod.state == w.History())
  }

  /** p takes the lease: from exactly the authoritative state, under a fresh epoch. */
  ghost predicate FencedPromotion(w: World, w': World, p: Endpoint) {
    !w.At(p).Leads() && w'.At(p).Leads() ==>
      && w'.At(p).state == w.History()
      && w.Ceiling() < w'.At(p).epoch
  }

  /** p is deleted: only while its peer leads and is the routed pod, epochs agreeing. */
  ghost predicate HarmlessDeletion(w: World, w': World, p: Endpoint) {
    w.At(p).alive && !w'.At(p).alive ==>
      && w.At(p.Peer()).Leads()
      && w.route == Route(p.Peer(), w.At(p.Peer()).epoch)
  }

  ghost predicate EpochsGrow(w: World, w': World) {
    w.oldPod.epoch <= w'.oldPod.epoch && w.newPod.epoch <= w'.newPod.epoch && w.route.epoch <= w'.route.epoch
  }

  /** The route only ever moves onto the pod that leads, at that pod's own epoch. */
  ghost predicate RouteFollowsLease(w: World, w': World) {
    w.route != w'.route ==>
      w'.At(w'.route.endpoint).Leads() && w'.route.epoch == w'.At(w'.route.endpoint).epoch
  }

  /** A lease is taken at one epoch and kept at it. */
  ghost predicate LeasePinned(w: World, w': World, p: Endpoint) {
    w.At(p).Leads() && w'.At(p).Leads() ==> w.At(p).epoch == w'.At(p).epoch
  }

  ghost predicate Step(w: World, w': World) {
    && w.History() <= w'.History()
    && FencedPromotion(w, w', OldPod) && FencedPromotion(w, w', NewPod)
    && HarmlessDeletion(w, w', OldPod) && HarmlessDeletion(w, w', NewPod)
    && EpochsGrow(w, w')
    && LeasePinned(w, w', OldPod) && LeasePinned(w, w', NewPod)
    && RouteFollowsLease(w, w')
  }

  /** The i-th world of a run, if it has one, is safe, and came about by a lawful step. */
  ghost predicate Lawful(run: seq<World>, i: nat) {
    i < |run| ==> Safe(run[i]) && (i > 0 ==> Step(run[i - 1], run[i]))
  }

  ghost predicate Sound(run: seq<World>) {
    |run| > 0 && forall i: nat :: Lawful(run, i)
  }

  lemma SoundOneMore(run: seq<World>, w: World)
    requires |run| > 0
    ensures Sound(run + [w]) <==> Sound(run) && Safe(w) && Step(run[|run| - 1], w)
  {
    var longer := run + [w];
    forall i: nat | i < |run|
      ensures Lawful(longer, i) <==> Lawful(run, i)
    {
      assert longer[i] == run[i];
    }
    if Sound(longer) {
      assert Lawful(longer, |run|);
      forall i: nat
        ensures Lawful(run, i)
      {
        assert Lawful(longer, i);
      }
    }
    if Sound(run) && Safe(w) && Step(run[|run| - 1], w) {
      forall i: nat
        ensures Lawful(longer, i)
      {
        assert Lawful(run, i);
      }
    }
  }

  // --- what soundness says about whole runs -----------------------------------

  /** The room's history is one line: whatever was authoritative earlier is a prefix
      of whatever is authoritative later, across promotions, rollbacks and deletions. */
  lemma {:induction false} HistoryIsLinear(run: seq<World>, i: nat, j: nat)
    requires Sound(run) && i <= j < |run|
    ensures run[i].History() <= run[j].History()
    decreases j - i
  {
    if i < j {
      HistoryIsLinear(run, i, j - 1);
      assert Lawful(run, j);
    }
  }

  lemma {:induction false} EpochsNeverFall(run: seq<World>, i: nat, j: nat)
    requires Sound(run) && i <= j < |run|
    ensures EpochsGrow(run[i], run[j])
    decreases j - i
  {
    if i < j {
      EpochsNeverFall(run, i, j - 1);
      assert Lawful(run, j);
    }
  }

  /** A promotion's epoch exceeds every epoch a pod or the route has held before it. */
  lemma PromotionsAreFenced(run: seq<World>, i: nat, j: nat, p: Endpoint)
    requires Sound(run) && i < j < |run|
    requires !run[j - 1].At(p).Leads() && run[j].At(p).Leads()
    ensures run[i].Ceiling() < run[j].At(p).epoch
    ensures run[j].At(p).state == run[j - 1].History()
  {
    assert Lawful(run, j);
    EpochsNeverFall(run, i, j - 1);
    assert FencedPromotion(run[j - 1], run[j], p);
  }

  /** No gameplay is ever lost: at any later time some live pod holds an extension of
      what was authoritative at time i. */
  lemma GameplaySurvives(run: seq<World>, i: nat, j: nat)
    requires Sound(run) && i <= j < |run|
    ensures exists p: Endpoint :: run[j].At(p).alive && run[i].History() <= run[j].At(p).state
  {
    HistoryIsLinear(run, i, j);
    assert Lawful(run, j);
    if run[j].oldPod.alive && run[j].oldPod.state == run[j].History() {
      assert run[j].At(OldPod).alive;
    } else {
      assert run[j].At(NewPod).alive;
    }
  }

  /** Whoever leads at two moments of a run with the same epoch is the same pod. */
  lemma {:induction false} OneLeaderPerEpoch(run: seq<World>, i: nat, j: nat, p: Endpoint, q: Endpoint)
    requires Sound(run) && i <= j < |run|
    requires run[i].At(p).Leads() && run[j].At(q).Leads()
    requires run[i].At(p).epoch == run[j].At(q).epoch
    ensures p == q
    decreases j - i
  {
    assert Lawful(run, j);
    if i < j {
      if run[j - 1].At(q).Leads() {
        assert LeasePinned(run[j - 1], run[j], q);
        OneLeaderPerEpoch(run, i, j - 1, p, q);
      } else {
        assert run[i].At(p).epoch <= run[i].Ceiling();
        PromotionsAreFenced(run, i, j, q);
      }
    }
  }

  /** A pod that has gone was deleted at some moment when its peer led and was routed to at
      its own epoch: no deletion removes the authority or the routed endpoint. */
  lemma {:induction false} DeletedOnlyWhenRedundant(run: seq<World>, i: nat, j: nat, p: Endpoint) returns (k: nat)
    requires Sound(run) && i < j < |run|
    requires run[i].At(p).alive && !run[j].At(p).alive
    ensures i <= k < j && run[k].At(p).alive && !run[k + 1].At(p).alive
    ensures run[k].At(p.Peer()).Leads()
    ensures run[k].route == Route(p.Peer(), run[k].At(p.Peer()).epoch)
    decreases j - i
  {
    if run[j - 1].At(p).alive {
      k := j - 1;
      assert Lawful(run, j);
      assert HarmlessDeletion(run[j - 1], run[j], p);
    } else {
      k := DeletedOnlyWhenRedundant(run, i, j - 1, p);
    }
  }
}
