# Verification of the room handoff and its control plane

A Dafny model of the parts of the game server repository that decide who may run a room and
who may release a new version of it, with proofs about every run of them.

* **Planned handoff** (`HandoffWorld`, `HandoffCluster`, `HandoffDriver`, `HandoffCoordinator`).
  Authority over one room moves from an old pod to a candidate. The world is two pods, each with
  a role, an epoch and a game state, and a gateway with a route. Every remote call may fail before
  its effect, take effect and lose its answer, or answer; the leading pod may simulate between any
  two effects. A *run* is the sequence of all worlds passed through. Every driver and coordinator
  method is proved to extend a *sound* run by a sound run, and lemmas say what soundness of a
  run means: one leader at a time and per epoch, one linear history, fenced promotions, and no
  deletion of the pod that leads or is routed to. The servers are modelled at their weakest: they
  report truthfully, but never refuse a call because its expected epoch or checksum is wrong, so
  the safety comes from the driver's own checks. A ghost count of setbacks, things that need not go
  wrong and did, lets the coordinator also promise success when there was none.
* **Event authority** (`OperationEvents`, `OperationPublisher`, `OperationOutbox`). A chain that
  serialises publish calls, cursor reads, and an outbox, each under any pattern of failures and
  any interleaving of their callbacks.
* **Promotion authority** (`CanaryPolicy`, `CanaryCoordinator`, `ReleaseApproval`, `ReleaseGate`).
  A validation run that writes a log, the projection that reads an approval back from the log,
  and the gate that admits one release operation at a time.
* **Rate and ramp control** (`AdmissionRamp`, `AdmissionLoad`, `Matchmaker`). A ramp with an exact
  bound on its length, a request pacer that never outruns its budget, and an admission window that
  forgets without being wrong.
* **Compact algorithms** (`DetectEdges`, `BindCodec`, `InputBinds`). Tight bounding boxes by
  shrinking scans, and the codec and index of key bindings.

Where an invariant has several parts that rarely matter together, it is stated as a quantifier over
the parts' names (`Holds`, `Keeps`, `Spared`, `Lawful`), and a proof names the part it uses.

What a decision means is also said without the functions it is computed with: lemmas whose names
end in `WrittenOut`, and ghost predicates that only contracts use, give it in fields and numbers.

`Wrappers` holds the types and functions that every module shares.

Objects that the program updates in place are classes; their methods are proved against functions
of the old state, and the lemmas are about those functions. Asynchronous code is cut into the
atomic callbacks between its suspension points.

## What the proofs found

* A freeze whose answer is lost stays in place: the coordinator does not know of it, and the catch
  block neither aborts nor rolls back. After a failed freeze the preparation is in place exactly if
  it was ever placed (`Handoff`, clause for stage `Freeze`; `LostFreezeStays` is a case).
* A release or promotion whose answer is lost is never undone automatically: the rollback refuses
  (`RollbackGateway`, clauses for `OldReleased` and `AwaitingCutover`), and the candidate is alive and
  retained (`Settled`, case `RollbackFailedCandidateRetained`).
* A failed drain, and a failed publication after the drain, retain the candidate without any
  rollback (`Settled`, case `CandidateRetainedAfterDrainFailure`).
* A retry of `activateCandidate` that finds the old pod already released promotes on the checksum it
  is given. The run then stays sound if and only if that is the released state's checksum or the
  promotion takes no effect (`ActivateCandidate`, clause on `Valid`; `StaleRetryForks` is a concrete
  case). The coordinator calls it once per run, before any release, so its own runs never get there.
* The readiness loop's catch block also catches a failed publication of an OOM report, takes it for
  a failed observation and polls on. An approval can therefore follow an observed OOM kill
  (`RefusedReportHidesOomKill`); it is deserved exactly when no OOM kill was met before readiness
  (`DespiteIsDeserved`). With every publication accepted this cannot happen (`Validate`).
* A validation whose last publication is reported failed but was accepted throws, although the log
  projects to an approval (`AcceptedYetReportedFailed`). In general the operation projects exactly
  when the approval and its bundle both reached the log, whatever other operations publish in
  between, and only a run that met the criteria, refused OOM reports aside, gets there (`Validate`,
  `ProjectsAsRun`).
* The admission window can be wrong exactly when the clock falls back and the capacity is at least
  two (`FallingClockExceeds`, `ClockConditionIsExact`, `NoWindowExceeds`, `SingleSlotNeverExceeds`).
* Bindings survive saving exactly when every type is one of the three named ones and every code is
  below 256 (`RestoresIffEncodable`).

## Model

| member | source | states |
|---|---|---|
| `HandoffWorld.HistoryIsLinear` | services/room-orchestrator/src/handoff-driver.ts:756-822 | In every sound run the authoritative state at any time is a prefix of the authoritative state at any later time, across transfer, rollback and deletion |
| `HandoffWorld.PromotionsAreFenced` | services/room-orchestrator/src/handoff-driver.ts:585-611 | A promotion's epoch is above every epoch either pod or the route ever held, and the pod starts from exactly the state then authoritative |
| `HandoffWorld.OneLeaderPerEpoch` | services/room-orchestrator/src/handoff-driver.ts:724-823 | Two leaders at any two moments of a run with the same epoch are the same pod |
| `HandoffWorld.EpochsNeverFall` | services/room-orchestrator/src/handoff-driver.ts:1033-1067 | Pod and route epochs never decrease over a run |
| `HandoffWorld.GameplaySurvives` | services/room-orchestrator/src/handoff-driver.ts:556-583 | At any later time some live pod holds an extension of what was authoritative before: no gameplay is lost |
| `HandoffWorld.DeletedOnlyWhenRedundant` | services/room-orchestrator/src/handoff.ts:315-335 | A pod that is gone was deleted at a moment when its peer led and was routed to at its own epoch |
| `HandoffCluster.StalePromotionForks` | services/room-orchestrator/src/handoff-driver.ts:756-806 | Promoting a pod while nobody leads is a fenced step if and only if it holds the state last released, and keeps everything played if and only if that state is a prefix of the pod's |
| `HandoffCluster.LostFreezeStays` | services/room-orchestrator/src/handoff.ts:206-212 | A sound run in which a freeze took effect and its answer was lost: the preparation is in place and stays |
| `HandoffCluster.FreezeOutcomeStays` | services/room-orchestrator/src/handoff.ts:206-212 | A freeze, answered or not, leaves its preparation in place exactly if it ever placed it, and changes nothing else |
| `HandoffCluster.Cluster.Release` | services/room-orchestrator/src/handoff-driver.ts:765-777 | A release may fail before its effect, lose its answer, conflict, or seal a state newer than any checksum seen |
| `HandoffCluster.Cluster.Seed` | services/room-orchestrator/src/handoff-driver.ts:1008-1014 | Seeding a pod that does not lead may load anything; the run stays sound when the peer holds the authoritative state |
| `HandoffCluster.Cluster.Promote` | services/room-orchestrator/src/handoff-driver.ts:802-813 | A promotion may take effect with its answer lost; it keeps the run sound when the pod holds the released state and the epoch is fresh |
| `HandoffCluster.Cluster.Cutover` | services/room-orchestrator/src/handoff-driver.ts:1033-1041 | The gateway may move the route without answering and answer without moving it |
| `HandoffCluster.Cluster.DeletePod` | services/room-orchestrator/src/handoff-driver.ts:948-963 | A deletion may take effect with its answer lost; it keeps the run sound when the peer leads and is routed to |
| `HandoffDriver.StaleRetryForks` | services/room-orchestrator/src/handoff-driver.ts:756-806 | Concretely: an old pod found released and a candidate that truthfully reports the preflight checkpoint pass every check of a retried activation, and the promotion loses the last released step |
| `HandoffDriver.RollbackDecisionIsExact` | services/room-orchestrator/src/handoff-driver.ts:508-554 | On truthful readings the rollback resumes exactly when the old pod serves, reclaims exactly when the new pod serves, and reclaims above every epoch seen or believed |
| `HandoffDriver.RollbackDecisionInRun` | services/room-orchestrator/src/handoff-driver.ts:508-594 | During a run a resume implies nothing was transferred and a reclaim implies the cutover happened, even if the coordinator's epoch belief lags |
| `HandoffDriver.KubernetesRoomHandoffDriver.ScheduleCandidate` | services/room-orchestrator/src/handoff-driver.ts:258-357 | Success leaves a live candidate and one remembered run, its template patched and both pods labelled; any failure restores the old context, and the template if it was patched, and the old pod keeps serving |
| `HandoffDriver.KubernetesRoomHandoffDriver.WaitUntilReady` | services/room-orchestrator/src/handoff-driver.ts:359-379 | Ready only if the pod still reports itself a candidate; nothing but time passes |
| `HandoffDriver.KubernetesRoomHandoffDriver.FreezeGateway` | services/room-orchestrator/src/handoff-driver.ts:381-386 | The preparation may be placed even when the call fails, and once placed is not removed again; the route does not move |
| `HandoffDriver.KubernetesRoomHandoffDriver.AbortGatewayPreparation` | services/room-orchestrator/src/handoff-driver.ts:388-393 | Only a successful answer proves that the preparation is gone |
| `HandoffDriver.KubernetesRoomHandoffDriver.SeedSnapshot` | services/room-orchestrator/src/handoff-driver.ts:395-421 | Seeds from a checkpoint that the pod leading at the expected epoch has just saved and reported, and remembers its checksum; the old pod keeps serving |
| `HandoffDriver.KubernetesRoomHandoffDriver.CatchUpJournal` | services/room-orchestrator/src/handoff-driver.ts:423-459 | Remembers the serving pod's checksum only when the candidate reports the same tick and checksum |
| `HandoffDriver.KubernetesRoomHandoffDriver.CandidateChecksum` | services/room-orchestrator/src/handoff-driver.ts:461-467 | The checksum returned is the candidate's own current state's |
| `HandoffDriver.KubernetesRoomHandoffDriver.PollActiveSnapshot` | services/room-orchestrator/src/handoff-driver.ts:995-1006 | A checkpoint is taken only from a pod leading at exactly the expected epoch |
| `HandoffDriver.KubernetesRoomHandoffDriver.ReleaseOldPod` | services/room-orchestrator/src/handoff-driver.ts:756-776 | Retries after checksum conflicts; afterwards the old pod still serves or has released, and a status returned is truthful |
| `HandoffDriver.KubernetesRoomHandoffDriver.TransferFinalCheckpoint` | services/room-orchestrator/src/handoff-driver.ts:777-797 | Success means the old pod released and the checksum is of the state it sealed, not of the preflight one |
| `HandoffDriver.KubernetesRoomHandoffDriver.PromoteCandidate` | services/room-orchestrator/src/handoff-driver.ts:798-819 | Promotes only a candidate that reported exactly the checkpoint asked for, ready and caught up; the run stays sound exactly if that is the released one or the promotion took no effect |
| `HandoffDriver.KubernetesRoomHandoffDriver.AdoptPromotion` | services/room-orchestrator/src/handoff-driver.ts:738-754 | A candidate found already leading is adopted at the run's own epoch, without a second release |
| `HandoffDriver.KubernetesRoomHandoffDriver.TransferAuthority` | services/room-orchestrator/src/handoff-driver.ts:756-823 | From any truthfully observed roles the world ends before, between or after release and promotion; soundness is kept exactly as for the whole activation |
| `HandoffDriver.KubernetesRoomHandoffDriver.ActivateCandidate` | services/room-orchestrator/src/handoff-driver.ts:724-823 | Called first or as a retry, whatever fails: the run stays sound if and only if it is not the one case of a retry that finds the old pod released and promotes on another checksum than the released state's; success means the candidate leads at the next epoch |
| `HandoffDriver.KubernetesRoomHandoffDriver.GatewayCutover` | services/room-orchestrator/src/handoff-driver.ts:1033-1067 | The route moves at most onto the requested endpoint and epoch; a lost answer is settled by the durable record, which may report a committed epoch |
| `HandoffDriver.KubernetesRoomHandoffDriver.CutoverGateway` | services/room-orchestrator/src/handoff-driver.ts:469-494 | The route only ever moves onto the candidate after it was seen leading, ready and caught up at the new epoch |
| `HandoffDriver.KubernetesRoomHandoffDriver.Verify` | services/room-orchestrator/src/handoff-driver.ts:677-722 | A positive verdict proves that the candidate leads and is routed to at its own epoch and last reported itself so; the verdict is positive when the transfer is proven, the cutover done and no reading goes wrong |
| `HandoffDriver.KubernetesRoomHandoffDriver.DrainOldPod` | services/room-orchestrator/src/handoff-driver.ts:832-836 | Deletes the old pod only after the cutover; success leaves the candidate alone, leading and routed to |
| `HandoffDriver.KubernetesRoomHandoffDriver.DiscardCandidate` | services/room-orchestrator/src/handoff-driver.ts:838-851 | Deletes the candidate only while the old pod leads and is routed to, its template put back first |
| `HandoffDriver.KubernetesRoomHandoffDriver.ReclaimCheckpoint` | services/room-orchestrator/src/handoff-driver.ts:556-577 | The rollback takes its checkpoint from the serving candidate's own release, never from the old pod's memory |
| `HandoffDriver.KubernetesRoomHandoffDriver.ReseedOldPod` | services/room-orchestrator/src/handoff-driver.ts:570-583 | Success means the old pod holds exactly the released state |
| `HandoffDriver.KubernetesRoomHandoffDriver.PromoteOldPod` | services/room-orchestrator/src/handoff-driver.ts:585-611 | The old pod is promoted at two above the run's starting epoch, from the released state |
| `HandoffDriver.KubernetesRoomHandoffDriver.ReturnRoute` | services/room-orchestrator/src/handoff-driver.ts:621-670 | Success means the route is back on the old pod at the rollback's epoch and neither the run's nor the rollback's preparation is left |
| `HandoffDriver.KubernetesRoomHandoffDriver.ReturnAuthority` | services/room-orchestrator/src/handoff-driver.ts:556-674 | A rollback after the cutover ends in one of four named phases, and succeeds only with the old pod leading and routed to, no preparation left, and exactly the snapshot, labels and confirmation of a return asked for |
| `HandoffDriver.KubernetesRoomHandoffDriver.RollbackGateway` | services/room-orchestrator/src/handoff-driver.ts:496-675 | Succeeds only with the old pod leading and routed to at the returned epoch, which is remembered, and the run's own freeze lifted, resumed or reclaimed; from those two phases it succeeds if nothing goes wrong; a lost release or a lost promotion is always refused and leaves phase and candidate as they are |
| `HandoffCoordinator.RoomHandoffCoordinator.LaunchAndFreeze` | services/room-orchestrator/src/handoff.ts:176-212 | Up to the freeze: preparations are untouched before it, and a freeze that took effect unanswered stays, whatever follows |
| `HandoffCoordinator.RoomHandoffCoordinator.Prepare` | services/room-orchestrator/src/handoff.ts:176-262 | Everything before activation leaves the old pod serving; success means the freeze is in place and the candidate known and alive, and comes when nothing goes wrong |
| `HandoffCoordinator.RoomHandoffCoordinator.StartWave` | services/room-orchestrator/src/handoff.ts:176-189 | Announces the wave, then schedules: success leaves a live candidate and the run remembered, and the old pod serving |
| `HandoffCoordinator.RoomHandoffCoordinator.CompareChecksums` | services/room-orchestrator/src/handoff.ts:240-262 | Goes on only with a candidate that last reported itself ready, caught up and at exactly the expected checksum; what is announced says which |
| `HandoffCoordinator.RoomHandoffCoordinator.Match` | services/room-orchestrator/src/handoff.ts:215-262 | Seeds, catches up and compares: success means the candidate last reported the checksum returned, and the events say how far it came |
| `HandoffCoordinator.RoomHandoffCoordinator.MoveLease` | services/room-orchestrator/src/handoff.ts:263-286 | Activation leaves beliefs consistent with the true phase, lost answers included, and the candidate alive |
| `HandoffCoordinator.RoomHandoffCoordinator.Reroute` | services/room-orchestrator/src/handoff.ts:288-313 | The route moves or not, and a reported commit carries the run's own epoch |
| `HandoffCoordinator.RoomHandoffCoordinator.Transfer` | services/room-orchestrator/src/handoff.ts:263-313 | The coordinator's beliefs stay consistent with the true phase through activation and cutover, lost answers included |
| `HandoffCoordinator.RoomHandoffCoordinator.Confirm` | services/room-orchestrator/src/handoff.ts:315-332 | Success proves the cutover |
| `HandoffCoordinator.RoomHandoffCoordinator.Complete` | services/room-orchestrator/src/handoff.ts:315-349 | The old pod is drained only after a positive post-cutover proof |
| `HandoffCoordinator.RoomHandoffCoordinator.HandOver` | services/room-orchestrator/src/handoff.ts:263-349 | From the match on: beliefs stay consistent through transfer, proof and removal; success leaves the new pod alone, its labels swapped and the operation confirmed to the gateway |
| `HandoffCoordinator.RoomHandoffCoordinator.Advance` | services/room-orchestrator/src/handoff.ts:144-357 | The forward path ends drained or with beliefs consistent with one of the phases; its believed epoch never runs ahead |
| `HandoffCoordinator.RoomHandoffCoordinator.ReconcileAuthority` | services/room-orchestrator/src/handoff.ts:385-413 | After an ambiguous failure the rollback either restores the old pod as server with the run's freeze lifted or leaves the room in one of seven named phases with the candidate alive |
| `HandoffCoordinator.RoomHandoffCoordinator.Recover` | services/room-orchestrator/src/handoff.ts:359-419 | Which of abort, rollback, retain and discard the catch block takes and which epoch it reports, that a discard happens only while the old pod serves and after the template is put back, that a run reported resumed or rolled back has lifted its freeze, and where each outcome leaves lease, route and candidate; with nothing further going wrong what can be undone is undone |
| `HandoffCoordinator.RoomHandoffCoordinator.Attempt` | services/room-orchestrator/src/handoff.ts:176-438 | An admitted run succeeds drained or is settled as reported, keeping the run sound; after a failed freeze the preparation is in place exactly if it was ever placed |
| `HandoffCoordinator.RoomHandoffCoordinator.Handoff` | services/room-orchestrator/src/handoff.ts:144-441 | For every failure pattern of every call: the run stays sound; success leaves the new pod alone in charge, last reported leading, with no preparation left, the events of the wave published in order and exactly the wave's patches, labels, snapshot and confirmation asked for; failure is settled as reported, with the freeze lifted whenever the old pod is reported resumed or rolled back; the coordinator is free again; with nothing going wrong it succeeds |
| `OperationEvents.NextPage` | services/room-orchestrator/src/events.ts:80-90 | A cursor read returns exactly the next events of the operation, as many as the limit allows |
| `OperationEvents.PollIsExact` | services/room-orchestrator/src/events.ts:80-90 | One read after the last sequence extends what was received by exactly the next events |
| `OperationEvents.FollowIsExact` | services/room-orchestrator/src/main.ts:625-637 | Repeated reads with any limits from 1 to 500, the log growing in between, yield every event of the operation once and in order |
| `OperationEvents.FollowCompletes` | services/room-orchestrator/src/main.ts:625-637 | Once the log stands still, everything is received as soon as the limits add up to what is left |
| `OperationEvents.TrimmedReadIffNothingLost` | services/room-orchestrator/src/events.ts:269-285 | Reading a trimmed log equals reading the whole one if and only if nothing beyond the cursor was trimmed |
| `OperationEvents.OfIncreasing` | services/room-orchestrator/src/events.ts:436-490 | In a log numbered upwards per operation each operation's events are strictly increasing |
| `OperationEvents.PageWrittenOut` | services/room-orchestrator/src/events.ts:73-90 | In terms of places in the log: a page is the first events beyond the cursor, 0 if none is given, of the operation named, or of all if none is; as many as the limit, 200 if none is given; it fails exactly for a cursor below 0 or a limit outside 1 to 500 |
| `OperationPublisher.ReservationKeepsNumbering` | services/room-orchestrator/src/events.ts:447-471 | Reserving the next position keeps the log's numbering whether or not the event reaches it |
| `OperationPublisher.RedisStream.Persist` | services/room-orchestrator/src/events.ts:269-285 | Append, then trim: a reported success was accepted, a reported failure may have been, and a failed trim is not a failed append |
| `OperationPublisher.StepKeepsSound` | services/room-orchestrator/src/events.ts:443-490 | Every callback of the chain keeps the log numbered and causally chained, whether or not the pending event reaches it |
| `OperationPublisher.ChainIsSerial` | services/room-orchestrator/src/events.ts:443-490 | Over every interleaving of publish calls, turns and answers, whichever fail: calls are served in the order they were made, log and listeners receive subsequences in that order, and each event takes exactly the next position of its operation, names its predecessor as cause and bears the clock's reading at its turn |
| `OperationPublisher.ForeignIsUnseen` | services/room-orchestrator/src/events.ts:443-490 | A callback of another operation changes nothing an operation sees of the log and its counters, nor its right to publish |
| `OperationPublisher.OperationEventPublisher.OnCall` | services/room-orchestrator/src/events.ts:443-447 | A publish call joins the chain |
| `OperationPublisher.OperationEventPublisher.OnTurn` | services/room-orchestrator/src/events.ts:447-471 | The chain's next call reserves its position before any I/O; its event is what was asked for, stamped with the clock |
| `OperationPublisher.OperationEventPublisher.OnPersist` | services/room-orchestrator/src/events.ts:472-489 | The append may fail, take effect unanswered, or be answered; only an answered event is shown to listeners |
| `OperationPublisher.OperationEventPublisher.Publish` | services/room-orchestrator/src/events.ts:436-490 | An awaited publish with any number of other operations' publishes before, during and after its turn: the operation's part of the log gains its event, with the time of its turn, or nothing, at the next position, and success means it gained it |
| `OperationPublisher.FollowWhilePublishing` | services/room-orchestrator/src/main.ts:625-637 | A client reading at any moments of any interleaving of publishes, failures included, holds exactly the accepted prefix as long as the log fits its retention window |
| `OperationOutbox.StepKeepsInv` | services/room-orchestrator/src/events.ts:343-403 | Every callback keeps the outbox invariant: one drain, nothing stranded, oldest event being relayed, first in first out, exact backoff |
| `OperationOutbox.OutboxNeverStrandsOrReorders` | services/room-orchestrator/src/events.ts:343-403 | Over every interleaving: at most one drain, pending events have a drain or an armed timer, acknowledgements are the submissions in order, the wait is the capped power of two |
| `OperationOutbox.AcceptancesDrain` | services/room-orchestrator/src/events.ts:382-403 | From a relaying drain, consecutive acceptances acknowledge everything pending, in order |
| `OperationOutbox.OutboxCanDrain` | services/room-orchestrator/src/events.ts:343-403 | From every reachable outbox with something pending there is a way to acknowledge everything in order without a new submission |
| `OperationOutbox.PowGrows` | services/room-orchestrator/src/events.ts:391-401 | Doubling with a cap computes min(1000 * 2^k, 30000) after the k-th consecutive failure |
| `OperationOutbox.SubmitRefreshes` | services/room-orchestrator/src/events.ts:355-368 | After any submissions the queue holds the newest event of each identity submitted and, of the others, what it held before |
| `OperationOutbox.OutboxOperationEventTransport.KickRelay` | services/room-orchestrator/src/events.ts:370-373 | Afterwards pending events have a drain or an armed timer; a drain starts on the oldest event, and only if none ran and no timer was armed |
| `OperationOutbox.OutboxOperationEventTransport.Replay` | services/room-orchestrator/src/events.ts:365-368 | Re-enqueued events keep an existing place or join at the end; the queue then holds the newest event of every identity given and what it held of the others |
| `OperationOutbox.OutboxOperationEventTransport.Persist` | services/room-orchestrator/src/events.ts:355-359 | An event joins the outbox exactly when its durable append was reported accepted |
| `OperationOutbox.OutboxOperationEventTransport.OnRelayAccepted` | services/room-orchestrator/src/events.ts:386-390 | An acknowledgement removes exactly the oldest entry, relays the next one and resets the backoff |
| `OperationOutbox.OutboxOperationEventTransport.OnRelayFailed` | services/room-orchestrator/src/events.ts:391-400 | A failure loses nothing, arms the timer with the current delay and doubles the next one up to 30 seconds |
| `OperationOutbox.OutboxOperationEventTransport.OnDrainReturned` | services/room-orchestrator/src/events.ts:373-379 | The drain's end re-checks for events that joined after it saw an empty map |
| `OperationOutbox.OutboxOperationEventTransport.OnTimerFired` | services/room-orchestrator/src/events.ts:395-398 | The timer disarms and starts a drain if one is needed |
| `ReleaseGate.StepKeepsInv` | services/room-orchestrator/src/release-control.ts:25-70 | Every callback keeps the gate invariant: one unfinished grant, which is the active one; an id is known exactly if some grant of it was not aborted |
| `ReleaseGate.GateIsExclusive` | services/room-orchestrator/src/release-control.ts:30-63 | Over every interleaving of reservations with yielding checks: of two grants one is finished, and an id is granted twice only after an abort |
| `ReleaseGate.StaleFinishIsInert` | services/room-orchestrator/src/release-control.ts:50-55 | A repeated or stale release or abort changes nothing |
| `ReleaseGate.HeldUntilFinished` | services/room-orchestrator/src/release-control.ts:35-49 | Until a granted reservation is finished nobody else is granted |
| `ReleaseGate.GrantIsAnswered` | services/room-orchestrator/src/release-control.ts:42-62 | Over every run: a callback answers with a token exactly when it is a durable check that found nothing; then no reservation was active, the request checked is the one granted and active, and the token is the number of grants before |
| `ReleaseGate.TokensAreUnique` | services/room-orchestrator/src/release-control.ts:46-49 | Over every run no token is handed out twice |
| `ReleaseGate.RefusalHasItsReason` | services/room-orchestrator/src/release-control.ts:36-44 | Over every run: a request is refused exactly if a reservation is active or its id is known when it comes to the head of the chain, or its durable check found it or threw, and the refusal says which |
| `ReleaseGate.ReleaseOperationGate.OnReserve` | services/room-orchestrator/src/release-control.ts:65-69 | A reserve call joins the chain |
| `ReleaseGate.ReleaseOperationGate.OnBegin` | services/room-orchestrator/src/release-control.ts:35-44 | The next call is refused exactly while a reservation is active, which the refusal names, or its id is known, and otherwise goes on to its durable check; it is never granted here |
| `ReleaseGate.ReleaseOperationGate.OnChecked` | services/room-orchestrator/src/release-control.ts:42-62 | Grants exactly if the check found nothing, under a token nobody had before, which becomes the active reservation |
| `ReleaseGate.ReleaseOperationGate.Finish` | services/room-orchestrator/src/release-control.ts:50-55 | Only the first release or abort does anything; it frees its own reservation only, and only an abort frees the id |
| `ReleaseGate.FleetRollout` | services/room-orchestrator/src/main.ts:502-600 | With other requests interleaving at every suspension the reservation is held until the last room or the first failure; the rollout starts exactly if an approval was found where one is demanded and there are active rooms, all of the fleet; the rooms before the first failed handover are done, in order; it completes exactly if all are and the closing event is published; and the id stays taken exactly if it started |
| `ReleaseApproval.QualifyAfterTrim` | services/room-orchestrator/src/release-control.ts:101-133 | A suffix of an operation's events qualifies as the whole does if it still holds the approval event, and never otherwise |
| `ReleaseApproval.TrimmingNeverInvents` | services/room-orchestrator/src/release-control.ts:89-133 | Whatever an operation amounts to over a suffix of the log it amounts to over the whole log |
| `ReleaseApproval.GroupByOperation` | services/room-orchestrator/src/release-control.ts:93-98 | The map holds, for each operation of the log, exactly its events in log order |
| `ReleaseApproval.ApprovalWrittenOut` | services/room-orchestrator/src/release-control.ts:101-133 | An operation qualifies for a revision if and only if one of its events approves it and another seals that approval, told by subject, room, revision, digest, evidence and order alone, and then as those two say |
| `ReleaseApproval.SortIsRising` | services/room-orchestrator/src/release-control.ts:102 | Sorting by sequence permutes the events and puts them in order |
| `ReleaseApproval.SealedCanaryApprovalForRevision` | services/room-orchestrator/src/release-control.ts:89-139 | In fields of events, for any log: an approval is returned exactly when some operation approved this revision for the canary room and its last event is a complete bundle that contains that approval and repeats its digest, nothing blocked in between; it names exactly those two events, no other such pair was sealed later, and of those sealed at the same instant its operation appears first in the log |
| `CanaryPolicy.ReadyExactlyWhen` | services/room-orchestrator/src/canary.ts:955-996 | The readiness loop reports a pod exactly when it is the first acceptable one and every earlier poll could be waited through |
| `CanaryPolicy.DespiteIsDeserved` | services/room-orchestrator/src/canary.ts:967-992 | An approval reached although OOM reports could not be published is deserved if and only if no OOM kill was met before readiness |
| `CanaryPolicy.RefusedReportHidesOomKill` | services/room-orchestrator/src/canary.ts:967-992 | A concrete run: one OOM kill whose report is refused, then a healthy pod, is approved though it does not deserve it |
| `CanaryPolicy.MissingIsExact` | services/room-orchestrator/src/canary.ts:1151-1154 | Nothing is reported missing exactly when every required metric was exposed |
| `CanaryPolicy.GateIsPerObservation` | services/room-orchestrator/src/canary.ts:1348-1429 | A gate over the max or min fold passes exactly when every single observation passes it |
| `CanaryPolicy.LimitsWrittenOut` | services/room-orchestrator/src/canary.ts:1348-1429 | An observation is complete and passes every gate exactly if it meets nine inequalities between the metrics and the configured limits |
| `CanaryPolicy.CriteriaWrittenOut` | services/room-orchestrator/src/canary.ts:910-1346 | The decision's criteria equal the ones written out in fields of pods, containers, load and metrics: the first fit pod, waited for only through failed polls and the same image, then the same pod fit and within the nine limits at every poll, a valid load and a cleanup |
| `CanaryPolicy.Maximum` | services/room-orchestrator/src/canary.ts:1352-1353 | The fold's result is one of the values and no value is above it |
| `CanaryPolicy.Minimum` | services/room-orchestrator/src/canary.ts:1354-1355 | The fold's result is one of the values and none is below it |
| `CanaryCoordinator.ProjectionGivesBackDecision` | services/room-orchestrator/src/canary.ts:1504-1560 | A closed run's log, however interleaved with other operations, projects to an approval with its digest if it approved and to nothing if it blocked |
| `CanaryCoordinator.RunIsProjected` | services/room-orchestrator/src/canary.ts:1504-1560 | Whatever was answered to its publications and however other operations' events are interleaved with its own, a run projects exactly when its approval and bundle both reached the log, with the run's digest, and to nothing for any other revision |
| `CanaryCoordinator.AcceptedYetReportedFailed` | services/room-orchestrator/src/events.ts:466-471 | Concretely: a bundle accepted and reported failed turns a log that projects to nothing into one that projects to an approval |
| `CanaryCoordinator.NoApprovalNoProjection` | services/room-orchestrator/src/release-control.ts:112-115 | An operation whose log holds no approval event never projects to one |
| `CanaryCoordinator.GatheredIsEarned` | services/room-orchestrator/src/canary.ts:1117-1208 | The loop's own bookkeeping equals the poll-by-poll criteria |
| `CanaryCoordinator.GatesDecide` | services/room-orchestrator/src/canary.ts:1316-1340 | All gates pass exactly when every single observation passes every one of them |
| `CanaryCoordinator.GatesWrittenOut` | services/room-orchestrator/src/canary.ts:1348-1429 | The nine gates in their order: name, comparator, threshold, the worst value observed, and passed exactly if that is within the threshold |
| `CanaryCoordinator.HaltWrittenOut` | services/room-orchestrator/src/canary.ts:1254-1311 | Which gate records a pod ruled out under load: isolation if it is another image or not cut off, OOM if it was killed, else readiness |
| `CanaryCoordinator.UnreadyWrittenOut` | services/room-orchestrator/src/canary.ts:998-1026 | Which gate records a pod that was isolated or not ready in time |
| `CanaryCoordinator.NotesOfApproved` | services/room-orchestrator/src/canary.ts:1210-1242 | An approved run reports no backlog, and reports memory pressure exactly if some poll was at or above the ratio |
| `CanaryCoordinator.PollsOnLook` | services/room-orchestrator/src/canary.ts:955-996 | The readiness loop's outcome is independent of reports that will be refused later |
| `CanaryCoordinator.CanaryValidationCoordinator.Publish` | services/room-orchestrator/src/canary.ts:931-938 | An event is evidence only if reported accepted; the log may hold it either way |
| `CanaryCoordinator.CanaryValidationCoordinator.Finalize` | services/room-orchestrator/src/canary.ts:1504-1560 | The decision, then a bundle that contains it and repeats its digest; whatever is reported, the run is closed exactly when both reached the log, and success means it is |
| `CanaryCoordinator.CanaryValidationCoordinator.PollReadiness` | services/room-orchestrator/src/canary.ts:956-992 | One readiness poll in place, with the catch block that swallows a failed OOM report |
| `CanaryCoordinator.CanaryValidationCoordinator.AwaitReadiness` | services/room-orchestrator/src/canary.ts:950-996 | The loop's result is the specified one for the number of OOM reports refused |
| `CanaryCoordinator.CanaryValidationCoordinator.PollMetrics` | services/room-orchestrator/src/canary.ts:1117-1208 | Clean and unhalted exactly when every poll was good, with one observation per poll; backlog and pressure flags as observed |
| `CanaryCoordinator.CanaryValidationCoordinator.PollOnce` | services/room-orchestrator/src/canary.ts:1118-1203 | One validation poll either yields its observation or stops the loop, and leaves the run clean exactly if it was good |
| `CanaryCoordinator.CanaryValidationCoordinator.JudgeMetrics` | services/room-orchestrator/src/canary.ts:1316-1329 | Passes exactly when every single observation is within the nine limits; once published, the operation has gained one gate event per metric, in order, each with its own name, figures and verdict |
| `CanaryCoordinator.CanaryValidationCoordinator.Observe` | services/room-orchestrator/src/canary.ts:1117-1244 | The polls before cleanup; once published, exactly the backlog, pressure and OOM events that the observations call for, in this order |
| `CanaryCoordinator.CanaryValidationCoordinator.Decide` | services/room-orchestrator/src/canary.ts:1254-1340 | Approves exactly when nothing halted, nothing is missing and every observation is within the nine limits, memory against the last limit observed; a published decision stands behind exactly the gates its cause calls for |
| `CanaryCoordinator.CanaryValidationCoordinator.Unready` | services/room-orchestrator/src/canary.ts:998-1042 | A pod not found ready in time blocks, behind the gate for isolation, readiness or availability that the reason calls for |
| `CanaryCoordinator.CanaryValidationCoordinator.Conclude` | services/room-orchestrator/src/canary.ts:1246-1340 | Cleanup is attempted once and its failure forbids approval |
| `CanaryCoordinator.CanaryValidationCoordinator.UnderLoad` | services/room-orchestrator/src/canary.ts:1056-1345 | After a load start returned, every exit has stopped it exactly once |
| `CanaryCoordinator.CanaryValidationCoordinator.Load` | services/room-orchestrator/src/canary.ts:1044-1097 | Starts and stops balance on every path, an invalid answer or a refused announcement included |
| `CanaryCoordinator.CanaryValidationCoordinator.Conduct` | services/room-orchestrator/src/canary.ts:910-1346 | The whole run against its criteria, up to the OOM reports refused |
| `CanaryCoordinator.CanaryValidationCoordinator.Validate` | services/room-orchestrator/src/canary.ts:898-908 | While other operations publish throughout: no run stays active; starts equal stops; the operation projects to an approval exactly when approval and bundle reached the log, which takes a run that met the criteria as written out, OOM reports refused aside, and to nothing for any other revision; a decided run projects exactly if it approved, with the digest of the last pod measured; with every publish accepted it decides, approves exactly what meets the criteria, publishes exactly the subjects its course calls for, and its decision and bundle name every event before them |
| `AdmissionRamp.RampEnds` | services/ops-console/src/admission-load.ts:322-348 | For every failure pattern the ramp is over after confirmations * (ceil((maximum - initial) / step) + 1) effective evaluations |
| `AdmissionRamp.RampMayNeedBound` | services/ops-console/src/admission-load.ts:322-348 | That bound is exact: some pattern still ramps one evaluation earlier |
| `AdmissionRamp.RampSpendsBound` | services/ops-console/src/admission-load.ts:322-348 | Every effective evaluation spends some of the bound, and the target stays between initial and maximum |
| `AdmissionRamp.StepsLeftIsCeiling` | services/ops-console/src/admission-load.ts:346 | The number of steps left is the ceiling of the remaining distance over the step |
| `AdmissionRamp.TargetNeverFalls` | services/ops-console/src/admission-load.ts:322-348 | The target is monotone over the evaluations and never above the maximum |
| `AdmissionRamp.EndsForItsReason` | services/ops-console/src/admission-load.ts:326-345 | A ramp ends as a failure exactly when the last windows, as many as confirmations, all breached; otherwise at the maximum on a window that held |
| `AdmissionRamp.IssuedWithinBudget` | services/ops-console/src/admission-load.ts:229-257 | Over any run and any stalls the carry stays in [0, 1), requests never exceed the sum of target times effective time, and keep exactly to it iff no tick gave anything up |
| `AdmissionRamp.IssuedIsOwed` | services/ops-console/src/admission-load.ts:229-257 | In requests per second and milliseconds: a thousand times the requests issued is at most the sum over the ticks of target times clock difference, at least 1 and 100 if above 250, and more than that sum minus 1000 if no tick stalled or was owed more than its cap |
| `AdmissionRamp.TickIsPaced` | services/ops-console/src/admission-load.ts:239-257 | One tick issues at most its cap and conserves credit exactly when it neither stalls nor hits the cap |
| `AdmissionRamp.BreachWrittenOut` | services/ops-console/src/admission-load.ts:325-326 | Fewer samples than the minimum never count as a failure, nor does a window without samples; otherwise the one-decimal rate decides like the exact share of failed admissions up to a twentieth of a percent |
| `AdmissionRamp.SinceIsWindow` | services/ops-console/src/admission-load.ts:350-352 | A window holds each sample no older than its start as often as it was taken, and no other |
| `AdmissionRamp.TrimmedWindow` | services/ops-console/src/admission-load.ts:318-319 | Dropping samples older than a window does not change the window |
| `AdmissionLoad.AdmissionJob.Pace` | services/ops-console/src/admission-load.ts:241-258 | A tick's requests in place, tied to the history of ticks, at most the cap |
| `AdmissionLoad.AdmissionJob.EvaluateRamp` | services/ops-console/src/admission-load.ts:322-348 | The ramp moves only while ramping and when due, by one window: a breach keeps the target and counts towards the confirmations, a window that held raises the target by a step up to the maximum or ends the ramp there |
| `AdmissionLoad.AdmissionJob.DueIsJudged` | services/ops-console/src/admission-load.ts:322-326 | An evaluation is due exactly while ramping once its time has come, and judges the samples of the last window |
| `AdmissionLoad.AdmissionJob.Turn` | services/ops-console/src/admission-load.ts:233-260 | One turn of the loop: the safety timeout ends the job without a request, otherwise pace and ramp |
| `AdmissionLoad.AdmissionJob.Settle` | services/ops-console/src/admission-load.ts:307-319 | Counters add up and nothing is counted after an abort |
| `AdmissionLoad.AdmissionJob.Trim` | services/ops-console/src/admission-load.ts:318-319 | Only samples older than the cutoff are dropped, from the front |
| `AdmissionLoad.AdmissionJob.WindowIsExact` | services/ops-console/src/admission-load.ts:350-352 | The retained samples give the same window as the full history |
| `AdmissionLoad.AdmissionJob.DueIsExact` | services/ops-console/src/admission-load.ts:318-348 | With a clock that has not fallen behind the last settled request, the ramp decides as it would on every sample ever taken |
| `AdmissionLoad.AdmissionJob.WithinBudget` | services/ops-console/src/admission-load.ts:229-320 | A job counts no more requests than it issued, and issues no more than target times time entitles it to, nor, if its loop kept up, as much as one less |
| `AdmissionLoad.AdmissionJob.WithinBound` | services/ops-console/src/admission-load.ts:322-348 | A job takes no more evaluations than the bound and no longer ramps once it is reached |
| `AdmissionLoad.AdmissionLoadController.Start` | services/ops-console/src/admission-load.ts:179-216 | At most one job is not over; a second start for its room returns it, for another room it is refused; a new job starts at the initial rate with its expiry and first evaluation set from the clock |
| `AdmissionLoad.AdmissionLoadController.Stop` | services/ops-console/src/admission-load.ts:221-227 | A known job ends stopped and is no longer active; an unknown one is an error |
| `AdmissionLoad.AdmissionLoadController.Wake` | services/ops-console/src/admission-load.ts:229-263 | A finished job's loop issues nothing; otherwise one tick is paced and the evaluation that is due is made; a timed-out job gives up being active |
| `AdmissionLoad.AdmissionLoadController.Crash` | services/ops-console/src/admission-load.ts:264-269 | A loop that throws ends its job |
| `AdmissionLoad.AdmissionLoadController.Answer` | services/ops-console/src/admission-load.ts:307-319 | An answer is counted and sampled while the job runs; answers after its end change none of its counters |
| `AdmissionLoad.NewController` | services/ops-console/src/admission-load.ts:126-177 | A controller exists exactly for options within their bounds |
| `Matchmaker.PrunedAgrees` | services/api-server/src/matchmaker.ts:178-186 | With a non-decreasing clock the list that forgets equals the recent part of the full history |
| `Matchmaker.LimitedIffWindowFull` | services/api-server/src/matchmaker.ts:178-182 | A request is rate-limited exactly when the last 1000 ms hold as many reservations as there is capacity |
| `Matchmaker.NoWindowExceeds` | services/api-server/src/matchmaker.ts:172-186 | No 1000 ms, wherever they end, hold more reservations than there is capacity |
| `Matchmaker.FallingClockExceeds` | services/api-server/src/matchmaker.ts:178-186 | For every capacity of two or more and every pair of readings that falls, a run that admits one more than the capacity within a second |
| `Matchmaker.ClockConditionIsExact` | services/api-server/src/matchmaker.ts:178-186 | After a reading, whatever came before without falling, the capacity is safe at the next reading if and only if that one is not lower |
| `Matchmaker.SingleSlotNeverExceeds` | services/api-server/src/matchmaker.ts:178-186 | With a capacity of one no clock, however wrong, admits two within a second |
| `Matchmaker.ChoosesFirstBest` | services/api-server/src/matchmaker.ts:201-219 | Without a requested room the joinable one with the fewest players, then the lowest ordinal, then listed first, is chosen; none exactly if none is running, unlocked and with a free place, of 100 where no limit is set |
| `Matchmaker.ChoosesRequested` | services/api-server/src/matchmaker.ts:217-230 | A requested room is given exactly if a joinable room bears the name |
| `Matchmaker.ChoiceWrittenOut` | services/api-server/src/matchmaker.ts:201-219 | For any request, an empty name asking for none: the chosen room is the one that fits, and there is one whenever any fits |
| `Matchmaker.Matchmaker.Arrive` | services/api-server/src/matchmaker.ts:172-186 | The synchronous part of a request in place: the attempt, the pruned lists and the reservation, rejected requests consuming nothing |
| `Matchmaker.Matchmaker.Complete` | services/api-server/src/matchmaker.ts:187-251 | Admits to exactly the room that fits the listing and the request; otherwise the rejection says whether the directory, every room or the requested room was missing, and marks the attempt failed |
| `Matchmaker.Matchmaker.NeverOverCapacity` | services/api-server/src/matchmaker.ts:172-186 | The matchmaker in place keeps every second within capacity under a non-decreasing clock |
| `DetectEdges.IsTransparent` | upstream-survev/client/atlas-builder/detectEdges.ts:11-17 | The early-stopping loop is true exactly when every fourth byte is within the tolerance |
| `DetectEdges.ClearIsClearArea` | upstream-survev/client/atlas-builder/detectEdges.ts:57 | The bytes of a rectangle are clear exactly when it shows no opaque pixel, outside the canvas counting as clear |
| `DetectEdges.ScanTop` | upstream-survev/client/atlas-builder/detectEdges.ts:54-62 | Fails exactly when the image is blank, otherwise finds the first row with an opaque pixel |
| `DetectEdges.ScanLeft` | upstream-survev/client/atlas-builder/detectEdges.ts:64-69 | Terminates on the first column with an opaque pixel, looking only below the top edge |
| `DetectEdges.ScanBottom` | upstream-survev/client/atlas-builder/detectEdges.ts:71-76 | Terminates on the last row with an opaque pixel, looking only right of the left edge |
| `DetectEdges.ScanRight` | upstream-survev/client/atlas-builder/detectEdges.ts:78-88 | Terminates on the last column with an opaque pixel, looking only between top and bottom |
| `DetectEdges.TightIsUnique` | upstream-survev/client/atlas-builder/detectEdges.ts:90-95 | Only one box is tight |
| `DetectEdges.TightIsFullScans` | upstream-survev/client/atlas-builder/detectEdges.ts:39-96 | The tight box is what four scans of the whole image find |
| `DetectEdges.Detect` | upstream-survev/client/atlas-builder/detectEdges.ts:39-96 | Throws exactly when no pixel is opaque; otherwise the exact tight box, with left + right < width and top + bottom < height, equal to four full scans |
| `BindCodec.EntriesSurvivePadding` | upstream-survev/client/src/inputBinds.ts:115-122 | Fewer than ten bits behind the slots never read as one more entry |
| `BindCodec.PayloadReadsBack` | upstream-survev/client/src/inputBinds.ts:75-95 | Version and slots read back from the saved bytes as they were written |
| `BindCodec.LoadsPrefix` | upstream-survev/client/src/inputBinds.ts:115-122 | Restoring slot by slot never disturbs a slot already restored, because values are distinct |
| `BindCodec.RestoresIffEncodable` | upstream-survev/client/src/inputBinds.ts:75-128 | Distinct bindings are restored from what was saved if and only if every type is 1 to 3 and every code fits a byte |
| `BindCodec.PayloadIsLaidOut` | upstream-survev/client/src/inputBinds.ts:75-87 | Bit by bit, lowest first: the version 1 in eight bits, then each slot's type in two and its code in eight, cut off to that size, then zeros up to the end of the byte |
| `BindCodec.EntriesWrittenOut` | upstream-survev/client/src/inputBinds.ts:115-118 | As many entries are read as ten bits fit behind the version, each the numbers in its own two and eight bits |
| `BindCodec.LoadWrittenOut` | upstream-survev/client/src/inputBinds.ts:114-122 | A restored slot holds what its entry says, unless that has no type or a later slot's entry says the same |
| `BindCodec.BytesCarryBits` | upstream-survev/shared/lib/bitBuffer.ts:314-390 | Packing bits into bytes and back loses nothing |
| `BindCodec.WithBindKeepsDistinct` | upstream-survev/client/src/inputBinds.ts:183-200 | Giving a slot a value keeps all values distinct |
| `InputBinds.BitStream.WriteBits` | upstream-survev/shared/lib/bitBuffer.ts:106-137 | Writing bit by bit appends exactly the value's low bits and leaves the rest |
| `InputBinds.BitStream.ReadEntry` | upstream-survev/client/src/inputBinds.ts:116-118 | Reading a slot consumes exactly ten bits |
| `InputBinds.InputBinds.SetBind` | upstream-survev/client/src/inputBinds.ts:183-200 | The value moves to the slot from wherever it was and nothing else changes; slots stay distinct, the index of bound keys agrees with a scan, and a key given to a slot is bound |
| `InputBinds.InputBinds.ClearAllBinds` | upstream-survev/client/src/inputBinds.ts:176-181 | Every slot and the index are empty |
| `InputBinds.InputBinds.ToArray` | upstream-survev/client/src/inputBinds.ts:75-95 | The saved form: version, slots and padding as laid out, then the checksum of those bytes, high byte first |
| `InputBinds.InputBinds.ReadAll` | upstream-survev/client/src/inputBinds.ts:115-122 | Reads entries while ten bits are left, ignoring those for no slot or of no type |
| `InputBinds.InputBinds.FromArray` | upstream-survev/client/src/inputBinds.ts:96-128 | Refused exactly if shorter than three bytes or not ending in the checksum of the rest, changing nothing; otherwise every slot holds what its entry says and a version byte of 0 saves it again |
| `InputBinds.IndexFollows` | upstream-survev/client/src/inputBinds.ts:183-200 | Which keys are bound after a slot changes |
| `InputBinds.SaveAndRestore` | upstream-survev/client/src/inputBinds.ts:75-128 | For any checksum function, saving and restoring succeeds and gives the bindings back exactly when they are encodable |

## Left out

- ReleaseGate.FleetRollout: a room's handoff is its success or its failure; what either means for the room is stated by `Handoff`
- OperationEvents.NextPage: the operation has a name, as every operation has; an empty one reads the events of all (`PageWrittenOut`)
- Deadlines, sleeps and request timeouts of the handoff: polls are repeated an arbitrary number of times; a call that times out and takes effect only after later calls is not modelled
- HTTP, Kubernetes and Redis transport, tokens, JSON and label parsing: each call is its possible outcomes
- Kubernetes Deployment behaviour and image tags: a patch of a template or a label is recorded as asked for and may fail, what it says beyond role and epoch is not; the candidate pod appears without authority at an epoch the room has already seen
- `resolveTarget` and `reconcileGatewayEpoch`: the handoff starts where they leave the room, the old pod leading and routed to at one epoch
- Several rooms in one driver: the two context maps are one context, since the gate and the coordinator admit one handoff at a time
- Session counts, replayed inputs and the fields of handoff events: continuity evidence is one truth value reported by the gateway
- The game server, session gateway and bot runner themselves: only what the driver and coordinator can observe of them
- An append that takes effect after its failure was reported and a later event was appended, and a listener that throws
- Restarts of the orchestrator: the publisher numbers an operation that is new to it and absent from the log
- Event payload fields other than gates that no decision reads, a gate's free-form details, and the names of missing metrics and unavailable reasons
- Malformed entries of the Redis stream, and the room-filtered event route
- `HttpBotValidationStarter`, which leaves before its cleanup block on a bad start response
- Durations of the canary's bounded calls: a call that times out is a failed call, and a load start that times out returned nothing
- A canary target's endpoint, Redis prefix and database: checked before a run like the room, by comparison only
- Rounding of binary floating point: ratios, carries and percentages are real numbers
- `incidentTriggered` of a load job, which equals having ended on the failure threshold, and the statistics of its public status
- The turn of a load job's loop in which the clock itself would throw: a crash happens between turns
- Failure ratio gauges, histograms, logs and other telemetry
- The writing of several bits of a byte at once in the bit buffer: bits are written one by one, to the same effect
- The polynomial of `crc16`: the codec is proved for any 16-bit checksum function
- Base64, default bindings, the bindings' menu and the upgrade list, which is empty
- Browser rendering of a canvas: an image is its pixels, transparent outside its bounds
- `registry.ts`, `scaler.ts`, `recovery.ts`, room profiles and the rest of the operations console
- The client, account, Discord and map code of the game
