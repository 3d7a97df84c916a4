/**
 The gate that admits one canary or live handoff at a time
 (services/room-orchestrator/src/release-control.ts), and the fleet rollout that holds it
 (services/room-orchestrator/src/main.ts). Reserve calls are chained one behind the other
 and yield at their durable check; release and abort may run at any moment.
 */
module ReleaseGate {
  import opened Wrappers

  datatype Kind = Canary | Handoff
  datatype Request = Request(kind: Kind, operation: string)
  datatype Reservation = Reservation(request: Request, token: nat)

  datatype Gate = Gate(
    waiting: seq<Request>,       // reserve calls behind the tail
    checking: Option<Request>,   // the one whose durable check is pending
    active: Option<Reservation>,
    known: set<string>,
    granted: seq<Request>,       // the token of a grant is its index
    settled: set<nat>)

  const OPEN := Gate([], None, None, {}, [], {})

  datatype Rejection = AlreadyRunning(kind: Kind, operation: string) | AlreadyExists | CheckFailed

  datatype Outcome = Pending | Granted(token: nat) | Rejected(reason: Rejection)

  datatype Callback =
    | Reserve(request: Request)                // a reserve call joins the chain
    | Begin                                    // the chain's next call runs up to its durable check
    | Checked(found: Option<bool>)           // the durable check answers, or throws
    | Finish(token: nat, abort: bool)          // release or abort of a handed-out reservation

  predicate Enabled(g: Gate, c: Callback) {
    match c
    case Reserve(_) => true
    case Begin => g.checking == None && g.waiting != []
    case Checked(_) => g.checking.Some?
    case Finish(token, _) => token < |g.granted|
  }

  /** The gate after a callback, and what the reserve call it concerns is told. */
  function Step(g: Gate, c: Callback): (Gate, Outcome)
    requires Enabled(g, c)
  {
    match c
    case Reserve(request) => (g.(waiting := g.waiting + [request]), Pending)
    case Begin =>
      var request := g.waiting[0];
      var rest := g.(waiting := g.waiting[1..]);
      if g.active.Some? then
        (rest, Rejected(AlreadyRunning(g.active.value.request.kind, g.active.value.request.operation)))
      else if request.operation in g.known then (rest, Rejected(AlreadyExists))
      else (rest.(checking := Some(request)), Pending)
    case Checked(found) =>
      var request := g.checking.value;
      var done := g.(checking := None);
      if found == None then (done, Rejected(CheckFailed))
      else if found.value then (done, Rejected(AlreadyExists))
      else
        (done.(active := Some(Reservation(request, |g.granted|)), known := g.known + {request.operation},
               granted := g.granted + [request]),
         Granted(|g.granted|))
    case Finish(token, abort) =>
      if token in g.settled then (g, Pending)
      else
        (g.(settled := g.settled + {token},
            active := if g.active.Some? && g.active.value.token == token then None else g.active,
            known := if abort then g.known - {g.granted[token].operation} else g.known),
         Pending)
  }

  /** aborted: the grants whose first finish was an abort. */
  function Aborted(g: Gate, aborted: set<nat>, c: Callback): set<nat> {
    if c.Finish? && c.abort && c.token !in g.settled then aborted + {c.token} else aborted
  }

  ghost predicate Inv(g: Gate, aborted: set<nat>) {
    // the only reservation not yet finished is the active one
    && (forall t | 0 <= t < |g.granted| && t !in g.settled :: g.active == Some(Reservation(g.granted[t], t)))
    && (g.active.Some? ==> g.active.value.token < |g.granted| && g.active.value.token !in g.settled)
    && (forall t | t in g.settled :: t < |g.granted|)
    // a pending check has nothing to race with
    && (g.checking.Some? ==> g.active == None && g.checking.value.operation !in g.known)
    // an operation id is known exactly when some grant of it was not aborted
    && aborted <= g.settled
    && (forall t | 0 <= t < |g.granted| && t !in aborted :: g.granted[t].operation in g.known)
    && (forall o | o in g.known :: exists t :: 0 <= t < |g.granted| && t !in aborted && g.granted[t].operation == o)
    && (forall t, u | 0 <= t < u < |g.granted| && g.granted[t].operation == g.granted[u].operation :: t in aborted)
  }

  lemma GrantKeepsInv(g: Gate, aborted: set<nat>)
    requires Inv(g, aborted) && g.checking.Some?
    ensures Inv(Step(g, Checked(Some(false))).0, aborted)
  {
    var g' := Step(g, Checked(Some(false))).0;
    forall o | o in g'.known
      ensures exists t :: 0 <= t < |g'.granted| && t !in aborted && g'.granted[t].operation == o
    {
      if o in g.known {
        var t :| 0 <= t < |g.granted| && t !in aborted && g.granted[t].operation == o;
        assert g'.granted[t].operation == o;
      } else {
        assert g'.granted[|g.granted|].operation == o;
      }
    }
  }

  lemma FinishKeepsInv(g: Gate, aborted: set<nat>, token: nat, abort: bool)
    requires Inv(g, aborted) && Enabled(g, Finish(token, abort))
    ensures Inv(Step(g, Finish(token, abort)).0, Aborted(g, aborted, Finish(token, abort)))
  {
    var g', aborted' := Step(g, Finish(token, abort)).0, Aborted(g, aborted, Finish(token, abort));
    forall o | o in g'.known
      ensures exists t :: 0 <= t < |g'.granted| && t !in aborted' && g'.granted[t].operation == o
    {
      var t :| 0 <= t < |g.granted| && t !in aborted && g.granted[t].operation == o;
      assert g'.granted[t].operation == o;
    }
  }

  lemma StepKeepsInv(g: Gate, aborted: set<nat>, c: Callback)
    requires Inv(g, aborted) && Enabled(g, c)
    ensures Inv(Step(g, c).0, Aborted(g, aborted, c))
  {
    match c
    case Reserve(_) =>
    case Begin =>
    case Checked(found) =>
      if found == Some(false) {
        GrantKeepsInv(g, aborted);
      }
    case Finish(token, abort) =>
      FinishKeepsInv(g, aborted, token, abort);
  }

  predicate Runnable(g: Gate, run: seq<Callback>)
    decreases |run|
  {
    run != [] ==> Enabled(g, run[0]) && Runnable(Step(g, run[0]).0, run[1..])
  }

  function RunFrom(g: Gate, aborted: set<nat>, run: seq<Callback>): (Gate, set<nat>)
    requires Runnable(g, run)
    decreases |run|
  {
    if run == [] then (g, aborted) else RunFrom(Step(g, run[0]).0, Aborted(g, aborted, run[0]), run[1..])
  }

  lemma {:induction false} RunKeepsInv(g: Gate, aborted: set<nat>, run: seq<Callback>)
    requires Inv(g, aborted) && Runnable(g, run)
    ensures Inv(RunFrom(g, aborted, run).0, RunFrom(g, aborted, run).1)
    decreases |run|
  {
    if run != [] {
      StepKeepsInv(g, aborted, run[0]);
      RunKeepsInv(Step(g, run[0]).0, Aborted(g, aborted, run[0]), run[1..]);
    }
  }

  /** Over every interleaving: at most one unfinished reservation, and it is the active one;
      and of two grants of one operation id the earlier was aborted. */
  lemma GateIsExclusive(run: seq<Callback>, t: nat, u: nat)
    requires Runnable(OPEN, run)
    requires var g := RunFrom(OPEN, {}, run).0; t < u < |g.granted|
    ensures var (g, aborted) := RunFrom(OPEN, {}, run);
            && (t in g.settled || u in g.settled)
            && (u !in g.settled ==> g.active == Some(Reservation(g.granted[u], u)))
            && (g.granted[t].operation == g.granted[u].operation ==> t in aborted)
  {
    RunKeepsInv(OPEN, {}, run);
  }

  /** A repeated or stale release or abort changes nothing at all. */
  lemma StaleFinishIsInert(g: Gate, aborted: set<nat>, token: nat, abort: bool)
    requires Inv(g, aborted) && Enabled(g, Finish(token, abort))
    requires g.active == None || g.active.value.token != token
    ensures Step(g, Finish(token, abort)).0 == g
  {
  }

  /** A granted reservation is held against everything but its own finish: until then nobody
      else is granted. */
  lemma {:induction false} HeldUntilFinished(g: Gate, aborted: set<nat>, run: seq<Callback>, token: nat)
    requires Inv(g, aborted) && Runnable(g, run)
    requires g.active.Some? && g.active.value.token == token
    requires forall k | 0 <= k < |run| :: !(run[k].Finish? && run[k].token == token)
    ensures var g' := RunFrom(g, aborted, run).0; g'.active == g.active && g'.granted == g.granted
    decreases |run|
  {
    if run != [] {
      StepKeepsInv(g, aborted, run[0]);
      if run[0].Finish? {
        StaleFinishIsInert(g, aborted, run[0].token, run[0].abort);
      }
      HeldUntilFinished(Step(g, run[0]).0, Aborted(g, aborted, run[0]), run[1..], token);
    }
  }

  // --- the answers, over every run ---------------------------------------------------------

  /** The gate has just granted the request under this token. */
  ghost predicate GrantedNow(g: Gate, g': Gate, request: Request, token: nat) {
    && token == |g.granted| && g'.granted == g.granted + [request]
    && g.active == None && g'.active == Some(Reservation(request, token)) && request.operation in g'.known
  }

  lemma {:induction false} PrefixRuns(g: Gate, run: seq<Callback>, k: nat)
    requires Runnable(g, run) && k < |run|
    ensures Runnable(g, run[..k]) && Enabled(RunFrom(g, {}, run[..k]).0, run[k])
    ensures Runnable(g, run[..k + 1])
    ensures RunFrom(g, {}, run[..k + 1]).0 == Step(RunFrom(g, {}, run[..k]).0, run[k]).0
    decreases |run|
  {
    if k > 0 {
      var next := Step(g, run[0]).0;
      assert run[..k][1..] == run[1..][..k - 1] && run[..k + 1][1..] == run[1..][..k];
      PrefixRuns(next, run[1..], k - 1);
      AbortsDoNotMatter(next, Aborted(g, {}, run[0]), {}, run[1..][..k - 1]);
      AbortsDoNotMatter(next, Aborted(g, {}, run[0]), {}, run[1..][..k]);
    } else {
      assert run[..1][1..] == [];
    }
  }

  lemma {:induction false} AbortsDoNotMatter(g: Gate, a: set<nat>, b: set<nat>, run: seq<Callback>)
    requires Runnable(g, run)
    ensures RunFrom(g, a, run).0 == RunFrom(g, b, run).0
    decreases |run|
  {
    if run != [] {
      AbortsDoNotMatter(Step(g, run[0]).0, Aborted(g, a, run[0]), Aborted(g, b, run[0]), run[1..]);
    }
  }

  /** The gate before the k-th callback of a run. */
  ghost function GateAt(run: seq<Callback>, k: nat): Gate
    requires k <= |run| && Runnable(OPEN, run)
  {
    assert k < |run| ==> Runnable(OPEN, run[..k]) by {
      if k < |run| {
        PrefixRuns(OPEN, run, k);
      }
    }
    assert run[..|run|] == run;
    RunFrom(OPEN, {}, run[..k]).0
  }

  /** What the k-th callback of a run answers. */
  ghost function AnswerAt(run: seq<Callback>, k: nat): Outcome
    requires k < |run| && Runnable(OPEN, run)
  {
    PrefixRuns(OPEN, run, k);
    Step(GateAt(run, k), run[k]).1
  }

  lemma GateAtNext(run: seq<Callback>, k: nat)
    requires k < |run| && Runnable(OPEN, run)
    ensures Enabled(GateAt(run, k), run[k]) && GateAt(run, k + 1) == Step(GateAt(run, k), run[k]).0
    ensures exists aborted: set<nat> :: Inv(GateAt(run, k), aborted)
  {
    PrefixRuns(OPEN, run, k);
    RunKeepsInv(OPEN, {}, run[..k]);
  }

  /** A callback answers with a token exactly when it is the one that grants: a durable check
      that found nothing, with no reservation active, for the request that was being checked.
      The token is the number of grants before. */
  lemma GrantIsAnswered(run: seq<Callback>, k: nat)
    requires k < |run| && Runnable(OPEN, run)
    ensures var g, g' := GateAt(run, k), GateAt(run, k + 1);
            && (AnswerAt(run, k).Granted? <==> run[k] == Checked(Some(false)))
            && (AnswerAt(run, k).Granted? <==> g'.granted != g.granted)
            && (AnswerAt(run, k).Granted? ==>
                  g.checking.Some? && GrantedNow(g, g', g.checking.value, AnswerAt(run, k).token))
  {
    GateAtNext(run, k);
  }

  lemma {:induction false} GrantsGrow(run: seq<Callback>, i: nat, j: nat)
    requires i <= j <= |run| && Runnable(OPEN, run)
    ensures GateAt(run, i).granted <= GateAt(run, j).granted
    decreases j - i
  {
    if i < j {
      GateAtNext(run, i);
      GrantsGrow(run, i + 1, j);
    }
  }

  /** No token is handed out twice. */
  lemma TokensAreUnique(run: seq<Callback>, i: nat, j: nat)
    requires i < j < |run| && Runnable(OPEN, run)
    requires AnswerAt(run, i).Granted? && AnswerAt(run, j).Granted?
    ensures AnswerAt(run, i).token < AnswerAt(run, j).token
  {
    GrantIsAnswered(run, i);
    GrantIsAnswered(run, j);
    GrantsGrow(run, i + 1, j);
  }

  /** A callback refuses a request exactly when it is the head of the chain and a reservation
      is active or its operation id is known, or its durable check found it or threw; and it
      says which. */
  lemma RefusalHasItsReason(run: seq<Callback>, k: nat)
    requires k < |run| && Runnable(OPEN, run)
    ensures var g, answer := GateAt(run, k), AnswerAt(run, k);
            && (answer.Rejected? <==>
                  || (run[k] == Begin && g.waiting != []
                      && (g.active.Some? || g.waiting[0].operation in g.known))
                  || (run[k].Checked? && run[k].found != Some(false)))
            && (answer.Rejected? ==>
                  match answer.reason {
                    case AlreadyRunning(kind, operation) =>
                      run[k] == Begin && g.active.Some? && g.active.value.request == Request(kind, operation)
                    case AlreadyExists =>
                      || (run[k] == Begin && g.active == None && g.waiting != []
                          && g.waiting[0].operation in g.known)
                      || run[k] == Checked(Some(true))
                    case CheckFailed => run[k] == Checked(None)
                  })
  {
    GateAtNext(run, k);
  }

  // --- the class that does it in place ---------------------------------------------------

  class ReleaseOperationGate {
    var waiting: seq<Request>
    var checking: Option<Request>
    var active: Option<Reservation>
    var knownOperationIds: set<string>
    var granted: seq<Request>
    var settled: set<nat>
    ghost var aborted: set<nat>

    function State(): Gate
      reads this
    {
      Gate(waiting, checking, active, knownOperationIds, granted, settled)
    }

    ghost predicate Valid()
      reads this
    {
      Inv(State(), aborted)
    }

    constructor ()
      ensures Valid() && State() == OPEN && aborted == {}
    {
      waiting, checking, active, knownOperationIds, granted, settled, aborted := [], None, None, {}, [], {}, {};
    }

    method OnReserve(request: Request)
      requires Valid()
      modifies this
      ensures Valid() && State() == Step(old(State()), Reserve(request)).0 && aborted == old(aborted)
      ensures waiting == old(waiting) + [request] && checking == old(checking) && active == old(active)
      ensures knownOperationIds == old(knownOperationIds) && granted == old(granted) && settled == old(settled)
    {
      StepKeepsInv(State(), aborted, Reserve(request));
      waiting := waiting + [request];
    }

    method OnBegin() returns (outcome: Outcome)
      requires Valid() && Enabled(State(), Begin)
      modifies this
      ensures Valid() && (State(), outcome) == Step(old(State()), Begin) && aborted == old(aborted)
      // it never grants, and refuses exactly for an active reservation or a known id
      ensures !outcome.Granted? && granted == old(granted) && active == old(active) && settled == old(settled)
      ensures knownOperationIds == old(knownOperationIds) && waiting == old(waiting)[1..]
      ensures outcome.Rejected? <==> active.Some? || old(waiting)[0].operation in knownOperationIds
      ensures active.Some? ==>
                outcome == Rejected(AlreadyRunning(active.value.request.kind, active.value.request.operation))
      ensures active == None && outcome.Rejected? ==> outcome == Rejected(AlreadyExists)
      ensures checking == if outcome == Pending then Some(old(waiting)[0]) else None
    {
      StepKeepsInv(State(), aborted, Begin);
      var request := waiting[0];
      waiting := waiting[1..];
      if active.Some? {
        return Rejected(AlreadyRunning(active.value.request.kind, active.value.request.operation));
      }
      if request.operation in knownOperationIds {
        return Rejected(AlreadyExists);
      }
      checking := Some(request);
      return Pending;
    }

    method OnChecked(found: Option<bool>) returns (outcome: Outcome)
      requires Valid() && Enabled(State(), Checked(found))
      modifies this
      ensures Valid() && (State(), outcome) == Step(old(State()), Checked(found)) && aborted == old(aborted)
      // it grants exactly if the check found nothing, under a token nobody had before
      ensures outcome == match found {
                           case None => Rejected(CheckFailed)
                           case Some(true) => Rejected(AlreadyExists)
                           case Some(false) => Granted(|old(granted)|)
                         }
      ensures checking == None && waiting == old(waiting) && settled == old(settled) && old(active) == None
      ensures outcome.Granted? ==>
                granted == old(granted) + [old(checking).value]
                && active == Some(Reservation(old(checking).value, |old(granted)|))
                && knownOperationIds == old(knownOperationIds) + {old(checking).value.operation}
      ensures !outcome.Granted? ==>
                granted == old(granted) && active == None && knownOperationIds == old(knownOperationIds)
    {
      StepKeepsInv(State(), aborted, Checked(found));
      var request := checking.value;
      checking := None;
      if found == None {
        return Rejected(CheckFailed);
      }
      if found.value {
        return Rejected(AlreadyExists);
      }
      var token := |granted|;
      active := Some(Reservation(request, token));
      knownOperationIds := knownOperationIds + {request.operation};
      granted := granted + [request];
      return Granted(token);
    }

    method Finish(token: nat, abort: bool)
      requires Valid() && token < |granted|
      modifies this
      ensures Valid() && State() == Step(old(State()), Callback.Finish(token, abort)).0
      ensures aborted == Aborted(old(State()), old(aborted), Callback.Finish(token, abort))
      // only the first finish does anything, and only its own reservation is freed
      ensures settled == old(settled) + {token} && granted == old(granted)
      ensures waiting == old(waiting) && checking == old(checking)
      ensures active == if old(active).Some? && old(active).value.token == token then None else old(active)
      ensures knownOperationIds ==
              if abort && token !in old(settled) then old(knownOperationIds) - {granted[token].operation}
              else old(knownOperationIds)
    {
      StepKeepsInv(State(), aborted, Callback.Finish(token, abort));
      if token in settled {
        return;
      }
      aborted := if abort then aborted + {token} else aborted;
      settled := settled + {token};
      if active.Some? && active.value.token == token {
        active := None;
      }
      if abort {
        knownOperationIds := knownOperationIds - {granted[token].operation};
      }
    }

    /** Whatever else the process does with the gate meanwhile. */
    method Interleave(run: seq<Callback>)
      requires Valid() && Runnable(State(), run)
      modifies this
      ensures Valid() && (State(), aborted) == RunFrom(old(State()), old(aborted), run)
    {
      var k := 0;
      while k < |run|
        invariant 0 <= k <= |run|
        invariant Valid() && Runnable(State(), run[k..])
        invariant RunFrom(State(), aborted, run[k..]) == RunFrom(old(State()), old(aborted), run)
      {
        assert run[k..][1..] == run[k + 1..];
        match run[k] {
        case Reserve(request) => OnReserve(request);
        case Begin => var _ := OnBegin();
        case Checked(found) => var _ := OnChecked(found);
        case Finish(token, abort) => Finish(token, abort);
        }
        k := k + 1;
      }
    }

    /** Any number of callbacks of other requests, none of them finishing token. */
    method OthersProceed(token: nat)
      requires Valid() && active.Some? && active.value.token == token
      modifies this
      ensures Valid() && active == old(active) && granted == old(granted) && settled >= old(settled)
    {
      var run: seq<Callback> := *;
      if Runnable(State(), run) && forall k | 0 <= k < |run| :: !(run[k].Finish? && run[k].token == token) {
        HeldUntilFinished(State(), aborted, run, token);
        SettledGrows(State(), aborted, run);
        Interleave(run);
      }
    }
  }

  lemma {:induction false} SettledGrows(g: Gate, aborted: set<nat>, run: seq<Callback>)
    requires Runnable(g, run)
    ensures g.settled <= RunFrom(g, aborted, run).0.settled
    decreases |run|
  {
    if run != [] {
      SettledGrows(Step(g, run[0]).0, Aborted(g, aborted, run[0]), run[1..]);
    }
  }

  datatype FleetStatus = NotStarted | Completed | Failed

  /** What the preflight finds: whether an approval is demanded, whether one was found, and
      the active rooms in order. A read that throws yields none. */
  datatype Preflight = Preflight(approvalRequired: bool, approved: Option<bool>, rooms: Option<seq<string>>)

  predicate MayStart(p: Preflight) {
    && (p.approvalRequired ==> p.approved == Some(true))
    && p.rooms.Some? && p.rooms.value != []
    && forall k | 0 <= k < |p.rooms.value| :: RoomName(p.rooms.value[k])
  }

  /** What a preflight has to find: an approval if one is demanded, and active rooms, each
      named as a room of the fleet. */
  ghost predicate Cleared(p: Preflight) {
    && (p.approvalRequired ==> p.approved.Some? && p.approved.value)
    && p.rooms.Some? && |p.rooms.value| > 0 && forall room | room in p.rooms.value :: NamesRoom(room)
  }

  lemma MayStartWrittenOut(p: Preflight)
    ensures MayStart(p) <==> Cleared(p)
  {
    if p.rooms.Some? {
      forall room | room in p.rooms.value
        ensures RoomName(room) <==> NamesRoom(room)
      {
        RoomNameWrittenOut(room);
      }
    }
  }

  /** A fleet rollout under a granted reservation: preflight, then one room after the other,
      then the closing event, while other requests come and go at every suspension.
      handovers and published are the answers it gets. */
  method FleetRollout(gate: ReleaseOperationGate, token: nat, preflight: Preflight, handovers: seq<bool>,
                      published: bool)
    returns (status: FleetStatus, completedRooms: seq<string>)
    requires gate.Valid() && gate.active.Some? && gate.active.value.token == token
    requires preflight.rooms.Some? ==> |handovers| == |preflight.rooms.value|
    modifies gate
    ensures gate.Valid()
    // nobody else was admitted, and the reservation is given up at the end
    ensures gate.granted == old(gate.granted) && gate.active == None && token in gate.settled
    // rooms are done in order, up to the first failure
    ensures status == NotStarted <==> !Cleared(preflight)
    ensures status == NotStarted ==> completedRooms == []
    ensures status != NotStarted ==>
              var n := |completedRooms|;
              && completedRooms <= preflight.rooms.value
              && (forall k | 0 <= k < n :: handovers[k])
              && (n < |handovers| ==> !handovers[n])
              && (status == Completed <==> n == |preflight.rooms.value| && published)
    // a failed preflight frees the operation id; a rollout that started keeps it
    ensures (gate.granted[token].operation in gate.knownOperationIds) <==> status != NotStarted
  {
    completedRooms := [];
    MayStartWrittenOut(preflight);
    if preflight.approvalRequired {
      gate.OthersProceed(token);
      if preflight.approved != Some(true) {
        gate.Finish(token, true);
        return NotStarted, [];
      }
    }
    gate.OthersProceed(token);
    if !MayStart(preflight) {
      gate.Finish(token, true);
      return NotStarted, [];
    }
    var rooms, failed := preflight.rooms.value, false;
    while |completedRooms| < |rooms| && !failed
      invariant gate.Valid() && gate.active == old(gate.active) && gate.granted == old(gate.granted)
      invariant completedRooms <= rooms && forall k | 0 <= k < |completedRooms| :: handovers[k]
      invariant failed ==> |completedRooms| < |rooms| && !handovers[|completedRooms|]
      decreases |rooms| - |completedRooms|, !failed
    {
      gate.OthersProceed(token);
      if handovers[|completedRooms|] {
        completedRooms := completedRooms + [rooms[|completedRooms|]];
      } else {
        failed := true;
      }
    }
    gate.OthersProceed(token);
    status := if failed || !published then Failed else Completed;
    gate.Finish(token, false);
  }
}
