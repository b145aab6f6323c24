# A verified model of the daemon's delivery custody and its concurrency components

This project models, in Dafny, how the desktop daemon hands message delivery for an agent from one
durable authority to another, and the small concurrent components around that. It proves properties of
the model over every input, every interleaving and every run.

- **Delivery custody.** Two journals share one database: polling activations with their chains of
  cursor offers, and delivery drains that move an agent between the daemon inbox and custodial polling.
  `CustodyTables` holds the rows; `PollingActivations`, `PollingOffers` and `DeliveryDrains` give every
  exported operation as one transaction on a snapshot, with the CHECK clauses, unique indexes and
  triggers that apply; `PollingOfferLog` and `PollingOfferCursor` relate the compacted chain to the
  unbounded log it stands for; `CustodyRuns` interleaves all transactions with arbitrary changes of the
  surrounding tables; `CustodyInvariant` and `CustodyTheorems` hold what every run keeps, also from a
  migrated database (`CustodyMigration`) and under what other writers must leave alone
  (`CustodyConditions`); `CustodyAnswers` says, from the tables before and after, what each transaction
  answers and writes; `CustodyProgress` shows that activations and drains can run to their end
  and that repeated requests are answered;
  `CustodyDatabase` is the same database updated in place, proved to take exactly those steps and to meet
  those answers.
- **Entry gate** (`EntryGate`, `EntryGateTheorems`, `EntryConcurrencyGate`): the promise-chain lane of
  each entry with cancellable waiters, and lifecycle, turn-control and room-move exclusion.
- **Legacy cutover** (`LegacyCutover`): the saga that fences a legacy polling turn.
- **Effects** (`EffectCoordinator`): shared live executions over the durable effect journal.
- **Waking, coalescing, buffering** (`StateWatch`, `AgentStream`, `SingleFlight`, `BoundedExecutor`,
  `SseFrames`, `SseClient`, and `SseMeaning`, which tells what a frame means by its lines).
- **Orchestrator** (`Orchestrator`): the scheduling loop over dependent tasks.

Each stateful component has a specification on values (a state and a step for every piece of code that
runs between two awaits, or every transaction) and a class with the program's own fields whose methods
are proved to take exactly that step, refusals included. What is proved about steps and runs therefore
holds for sequences of calls. Clocks, identifiers, authority checks, provider replies and callbacks are
parameters.

Where the code meets less than one might expect, the project keeps the code, shows a failing input and
states exactly when the property holds: a repeated release in the entry gate (`TwiceReleasedMayOverlap`,
`GrantsExactUnlessStale`), an excluded room move that still runs later (`ExcludedCallerMayStillRun`,
`QueuedMoveRunsExactlyWhenLetIn`), an error reported for an effect that succeeded
(`ReportMayFailSuccess`, `SucceededRowFailsExactlyByReport`), a zero-sized stream buffer or batch
(`ZeroBufferRepeatsItself`, `CursorConserves`), a stream cursor kept past the deletion of its feed
(`StaleCursorEndsEarly`, `EndReportsEverything`), an empty room id in the cursor map
(`EmptyRoomOverflows`, `RememberIsBounded`), and a provider that acknowledges another turn than it
checkpointed (`UntruthfulProviderSwitchesEarly`, `AnchoredUnlessUntruthful`).

Verify with `dafny verify dfyconfig.toml`.

## Model

| member | source | states |
|---|---|---|
| `CustodyTheorems.RowsAreLastWindow` | apps/desktop/daemon/custodial-polling-activation.ts:354-405 | From empty journals, after every run the rows of an activation are exactly the last min(n, 256) offers ever recorded, in order, with one root, one tail and the anchor naming the entry before the root |
| `CustodyTheorems.FirstRecordCompacts` | apps/desktop/daemon/custodial-polling-activation.ts:512-519 | Whatever uncompacted chain a migration left, the first new offer reaches the same window, and no constraint or trigger stops the deletion loop |
| `CustodyMigration.UncompactedChainHasLog` | apps/desktop/daemon/custodial-polling-activation.ts:428-449 | Every chain written under the insert trigger and never compacted lists its rows in one order, from its root to its tail, as a log the rows refine |
| `CustodyMigration.MigratedDatabaseHasHistory` | apps/desktop/daemon/custodial-polling-activation.ts:428-449 | Every migrated database has a history under which the invariant of all runs holds, so runs may start from it |
| `CustodyTheorems.RecordRefusedByConstraint` | apps/desktop/daemon/custodial-polling-activation.ts:508-512 | Past its guards, a new offer is refused by the table exactly for a blank or already used offer id |
| `CustodyTheorems.ReplayAddsNothing` | apps/desktop/daemon/custodial-polling-activation.ts:494-503 | Replaying a retained invocation is answered by its own row, still the tail, or refused; the journal and its history do not change |
| `CustodyTheorems.TailMeetsWorkerCursor` | apps/desktop/daemon/custodial-polling-activation.ts:521-544 | While nobody else moved the worker cursor of an unresolved activation, it equals the input of an unacknowledged tail or the frontier of an acknowledged one |
| `CustodyTheorems.AcknowledgeNeverDisagrees` | apps/desktop/daemon/custodial-polling-activation.ts:536-540 | An acknowledgement never meets a constraint, and while nobody else moved the worker cursor both disagreement errors are unreachable |
| `CustodyTheorems.InputFollowsPredecessor` | apps/desktop/daemon/custodial-polling-activation.ts:502-508 | While nobody else moved the worker cursor, each offer's input is its predecessor's frontier if that was acknowledged, and its predecessor's input otherwise |
| `CustodyConditions.RunKeepsAccounted` | apps/desktop/daemon/custodial-polling-activation.ts:484-545 | Over every run in which nobody else moves one worker cursor, every offer of that agent was recorded where the acknowledgements before it had led, and the cursor stands where they lead |
| `CustodyTheorems.ReadinessAgreesWithAdmission` | apps/desktop/daemon/delivery-drain.ts:356-381 | For an unresolved drain: `queued` exactly when the admission gate refuses some unfinished item, `ready` exactly when nothing is unfinished or unsettled, `waiting` otherwise |
| `CustodyTheorems.RunIsLater` | apps/desktop/daemon/custodial-polling-activation.ts:48-77 | Over every run, whatever the other writers do outside the three journal tables: a turn id is written at most once, terminal activations and cutovers never change, and superseded offers never change |
| `CustodyTheorems.RunCursorsLater` | apps/desktop/daemon/delivery-drain.ts:426-453 | Over every run in which no other writer moves an agent back, its delivery position never goes back, by acknowledgements or by any sequence of reverse and forward commits |
| `CustodyTheorems.RunIngressLater` | apps/desktop/daemon/delivery-drain.ts:440-442 | Over every run in which no other writer lowers the ingress cursor of an agent, no sequence of reverse and forward commits lowers it, whatever becomes of the worker in between |
| `CustodyTheorems.CommitConservesPosition` | apps/desktop/daemon/delivery-drain.ts:434-449 | A committed drain hands delivery over at the position it stands at, never behind it |
| `CustodyTheorems.EveryActivationRowIsAccepted` | apps/desktop/daemon/custodial-polling-activation.ts:34-78 | In every reachable state each activation row passes all CHECKs and the native-turn index; an outcome is set exactly when complete, a completion without a turn is lost, and an agent has at most one unresolved row |
| `CustodyTheorems.PrepareRefusedByConstraint` | apps/desktop/daemon/custodial-polling-activation.ts:222-269 | Once every guard of a preparation passed, the table refuses exactly a missing process number or identity or an unrevised configuration |
| `CustodyTheorems.NeverBothUnresolved` | apps/desktop/daemon/delivery-drain.ts:146-147 | In every reachable state no agent has both an unresolved drain and an unresolved activation |
| `CustodyTheorems.ForwardOnlyBeforeDispatch` | apps/desktop/daemon/delivery-drain.ts:283-315 | A forward cutover commits only if no activation under its reverse predecessor, nor any of the same agent and work in that generation or a later one, was ever dispatched before |
| `CustodyTheorems.StoppedStaysUntilCommit` | apps/desktop/daemon/delivery-drain.ts:426-453 | Every step but its own commit leaves a stopped drain stopped |
| `CustodyTheorems.StoppedUntilCommitted` | apps/desktop/daemon/delivery-drain.ts:391-453 | From the stop intent to its own commit, over every run: ingress is closed and the drain cannot be cancelled; and while every writer of the inbox of that agent goes through the gates it has no unfinished item |
| `CustodyConditions.RunKeepsQuiet` | apps/desktop/daemon/delivery-drain.ts:50-79 | Over every run whose writers of the inbox of one agent go through the ingress and admission gates, that agent has no unfinished inbox item while it is stopped |
| `CustodyTheorems.NeverReadmitted` | apps/desktop/daemon/delivery-drain.ts:63-79 | An item of the drained agent without a turn that is not being dispatched stays so, and the admission gate refuses it for as long as the same drain stays unresolved |
| `CustodyInvariant.RunKeepsInv` | apps/desktop/daemon/custodial-polling-activation.ts:183-220 | The joint invariant of both journals, their constraints, logs and exclusion holds in every state of every run, whatever the other writers do outside the three journal tables |
| `CustodyInvariant.StepChanges` | apps/desktop/daemon/delivery-drain.ts:426-453 | Every transaction is one of seven row changes, any other step leaves the journals alone, and only the commit transaction of a cutover completes it |
| `CustodyAnswers.TailFrontierAcknowledges` | apps/desktop/daemon/custodial-polling-activation.ts:524-545 | In table terms: the answer is acknowledged if and only if the caller holds the authority, the worker stands where the tail left it and the given cursor is the frontier of the tail. If that tail was outstanding, its row is then acknowledged and the worker cursor is that frontier; in every other case nothing changes |
| `CustodyAnswers.RequestsAreAnsweredOnce` | apps/desktop/daemon/custodial-polling-activation.ts:484-520 | A retained request is answered by its own row if and only if that row is still the tail with the same cursors and epoch; any other is published, as given, exactly from the cursor the worker stands at under an unused id, and is then the tail |
| `CustodyAnswers.OffersNeedLiveWorker` | apps/desktop/daemon/custodial-polling-activation.ts:461-482 | Offers are published and acknowledged only for an active activation, through its bound worker in its newest execution, under a session that has not expired |
| `CustodyAnswers.PreparationIsExact` | apps/desktop/daemon/custodial-polling-activation.ts:222-269 | A created row has the ids, the runtime and the worker cursor of the request, under a live worker at native idle; a repeated request is answered with its own row, and nothing else is written |
| `CustodyAnswers.DispatchIsExact` | apps/desktop/daemon/custodial-polling-activation.ts:271-285 | An answered dispatch leaves the row dispatching, without a turn, at the idle runtime it was prepared for and under its live worker |
| `CustodyAnswers.CheckpointIsExact` | apps/desktop/daemon/custodial-polling-activation.ts:287-303 | The turn of an answered checkpoint is the one named, and the row had no other before |
| `CustodyAnswers.UncertaintyIsExact` | apps/desktop/daemon/custodial-polling-activation.ts:310-315 | Uncertainty is refused exactly outside the dispatching, active and uncertain phases, and keeps the turn |
| `CustodyAnswers.CancellationIsExact` | apps/desktop/daemon/custodial-polling-activation.ts:317-323 | Cancellation is refused exactly once the activation left `prepared` |
| `CustodyAnswers.CompletionIsExact` | apps/desktop/daemon/custodial-polling-activation.ts:325-338 | A completed row holds the very outcome and turn given, `lost` alone without a turn, and is confirmed without a change |
| `CustodyProgress.PreparedActivationCanRun` | apps/desktop/daemon/custodial-polling-activation.ts:222-338 | A prepared activation can be dispatched, record an unused turn and complete with any outcome, one transaction after the other |
| `CustodyProgress.DoubtfulActivationCanRun` | apps/desktop/daemon/custodial-polling-activation.ts:287-338 | An active one can fall into doubt, and then complete or become active again by the same turn |
| `CustodyProgress.RepeatedPreparationAnswers` | apps/desktop/daemon/custodial-polling-activation.ts:222-269 | Over every run the request of an activation, made again, is answered by the row it created, as that stands by then, and writes nothing |
| `CustodyAnswers.PreparationDrafts` | apps/desktop/daemon/delivery-drain.ts:92-195 | A created drain has the ids and runtime of the request and admits the head of the queue if and only if that was in flight, on a turn of that runtime or dispatching without turn and outcome; otherwise nothing is written |
| `CustodyAnswers.DraftedDrainAdmitsItsHeadAlone` | apps/desktop/daemon/delivery-drain.ts:63-79 | Right after its preparation the admission gate lets the in-flight head through and no other item of the agent |
| `CustodyAnswers.AdmissionOverRuns` | apps/desktop/daemon/delivery-drain.ts:63-79 | After any run, while the drain is unresolved, the gate lets an item through if and only if the drain is not stopped and the item is that head under its own ids, dispatching without a turn or on a turn bound to the drained runtime |
| `CustodyAnswers.ReadinessOverRuns` | apps/desktop/daemon/delivery-drain.ts:356-381 | After any run an open drain is `queued` if and only if some unfinished item of its agent is not the one it let continue |
| `CustodyAnswers.FinishedItemNeedsRecord` | apps/desktop/daemon/delivery-drain.ts:254-281 | Once the admitted item finished with no other work left, readiness has an answer if and only if how it ended is on record for a turn of the drained runtime: a native failure, a cancellation by the user, a result without a reply, or a published reply |
| `CustodyAnswers.StopIntentIsExact` | apps/desktop/daemon/delivery-drain.ts:391-412 | An answered stop intent is recorded once, under the authority of the drained runtime at native idle, with nothing of the agent unfinished or unsettled and the end of the admitted item on record |
| `CustodyAnswers.CommitHandsOver` | apps/desktop/daemon/delivery-drain.ts:426-453 | In table terms, an answered commit leaves the agent configured for the mode it moves to, custodial exactly for polling, at the next revision, with the position the stopped drain stood at as the last checkpoint and in the receiving table; every other agent is untouched, and a refusal changes nothing |
| `CustodyAnswers.CommittedContractSwitched` | apps/desktop/daemon/delivery-drain.ts:439-451 | The same for every step of a run that completes a cutover |
| `CustodyProgress.IdleDrainCanCommit` | apps/desktop/daemon/delivery-drain.ts:92-453 | A drain that finds nothing to wait for can be stopped at once and then committed, and delivery runs under the mode it was drafted for |
| `CustodyProgress.RepeatedDrainAnswers` | apps/desktop/daemon/delivery-drain.ts:92-195 | Over every run the request of a drain, made again, is answered by the row it created, as that stands by then, and writes nothing |
| `PollingOfferLog.TailIsLast` | apps/desktop/daemon/custodial-polling-activation.ts:451-454 | The row no other row names as predecessor is the newest offer of the log |
| `PollingOfferLog.DeleteRootsAdvance` | apps/desktop/daemon/custodial-polling-activation.ts:386-404 | Any number of root deletions beyond the window satisfies the delete, detach and anchor triggers, and shortens the chain from its oldest end only |
| `PollingOfferLog.RecordAppends` | apps/desktop/daemon/custodial-polling-activation.ts:484-520 | A recorded offer becomes the last log entry and leaves the last 256 entries as rows, whatever the chain looked like |
| `PollingOfferCursor.ReachedMonotone` | apps/desktop/daemon/custodial-polling-activation.ts:484-545 | The cursor reached by acknowledgements never goes back numerically along the log |
| `PollingOfferCursor.AcknowledgeAdvances` | apps/desktop/daemon/custodial-polling-activation.ts:541-544 | Acknowledging the tail moves the reached cursor to exactly its frontier, and only the tail can |
| `CustodyDatabase.CustodyDatabase.PreparePollingActivation` | apps/desktop/daemon/custodial-polling-activation.ts:222-269 | Inserts one prepared row under exact authority, answers a known request with its own row, or refuses; exactly the step of the runs, keeping their invariant |
| `CustodyDatabase.CustodyDatabase.AnswerActivation` | apps/desktop/daemon/custodial-polling-activation.ts:222-269 | A new row is accepted by the table, prepared without a turn, under a completed reverse, at the worker cursor, and its agent has neither journal unresolved; any other answer is the specified one |
| `CustodyDatabase.CustodyDatabase.MarkPollingActivationDispatch` | apps/desktop/daemon/custodial-polling-activation.ts:271-285 | Records the dispatch of a prepared activation under exact authority, once; a repeated call returns the row unchanged |
| `CustodyDatabase.CustodyDatabase.CheckpointPollingActivationTurn` | apps/desktop/daemon/custodial-polling-activation.ts:287-303 | Writes the turn id once under exact authority; the known turn may only resolve uncertainty; any other is refused |
| `CustodyDatabase.CustodyDatabase.MarkPollingActivationUncertain` | apps/desktop/daemon/custodial-polling-activation.ts:310-315 | Moves a dispatching or active row to uncertain, idempotently |
| `CustodyDatabase.CustodyDatabase.CancelPollingActivation` | apps/desktop/daemon/custodial-polling-activation.ts:317-323 | Cancels only a prepared row, idempotently |
| `CustodyDatabase.CustodyDatabase.CompletePollingActivation` | apps/desktop/daemon/custodial-polling-activation.ts:325-338 | Completes with the very outcome of the very turn, or `lost` without one; a completed row only confirms its own outcome |
| `CustodyDatabase.CustodyDatabase.GetPollingOfferTail` | apps/desktop/daemon/custodial-polling-activation.ts:451-454 | The one tail of a chain, or none |
| `CustodyDatabase.CustodyDatabase.DeleteRootRow` | apps/desktop/daemon/custodial-polling-activation.ts:386-404 | Deletes the one root with its cascade; both triggers are shown to let it through |
| `CustodyDatabase.CustodyDatabase.TrimRoots` | apps/desktop/daemon/custodial-polling-activation.ts:513-518 | The deletion loop equals the specified number of root deletions and never meets a trigger |
| `CustodyDatabase.CustodyDatabase.AnswerRecord` | apps/desktop/daemon/custodial-polling-activation.ts:484-512 | Which requests are answered or refused before anything is written, and what holds when one is published |
| `CustodyDatabase.CustodyDatabase.RecordPollingOffer` | apps/desktop/daemon/custodial-polling-activation.ts:484-520 | Insert, deletion loop and new tail, equal to the recorded step; a retained request is answered by its own row, a new one published as given |
| `CustodyDatabase.CustodyDatabase.AcknowledgePollingOffer` | apps/desktop/daemon/custodial-polling-activation.ts:524-545 | Equal to the step of the runs; acknowledges exactly when the given cursor is the frontier of the tail, moving row and worker cursor together, or changes nothing |
| `CustodyDatabase.CustodyDatabase.DeliveryDrainIngressAllowed` | apps/desktop/daemon/delivery-drain.ts:55-60 | The ingress gate over the one unresolved drain and the custodial contract |
| `CustodyDatabase.CustodyDatabase.DeliveryDrainAllowsAdmission` | apps/desktop/daemon/delivery-drain.ts:63-79 | The admission gate over the one unresolved drain, which `AdmissionOverRuns` ties to the item the drain found in flight |
| `CustodyDatabase.CustodyDatabase.QueueHead` | apps/desktop/daemon/delivery-drain.ts:154-156 | The unfinished item of least sequence, or none when the queue is empty |
| `CustodyDatabase.CustodyDatabase.DraftCutover` | apps/desktop/daemon/delivery-drain.ts:126-191 | A drafted drain is draining in its exact shape, its agent has neither journal unresolved, it admits only an in-flight head, and a forward one has its pre-activation proof, its exact cursor and nothing pending |
| `CustodyDatabase.CustodyDatabase.PrepareOwnedDrain` | apps/desktop/daemon/delivery-drain.ts:92-195 | Inserts one draining row for an agent with neither journal unresolved, answers a known request with its own row, or refuses |
| `CustodyDatabase.CustodyDatabase.CancelDeliveryDrain` | apps/desktop/daemon/delivery-drain.ts:197-207 | Cancels if and only if no stop intent was recorded, idempotently |
| `CustodyDatabase.CustodyDatabase.DeliveryDrainReadiness` | apps/desktop/daemon/delivery-drain.ts:356-381 | Computes readiness as specified and changes nothing |
| `CustodyDatabase.CustodyDatabase.RequireReadyCursor` | apps/desktop/daemon/delivery-drain.ts:383-388 | A returned cursor is numeric, and then no item of the agent is unfinished, no effect is unsettled and the end of the admitted item is on record |
| `CustodyDatabase.CustodyDatabase.MarkDeliveryDrainDispatch` | apps/desktop/daemon/delivery-drain.ts:391-412 | Records the durable stop intent under exact authority, an idle boundary and a ready cursor, once |
| `CustodyDatabase.CustodyDatabase.MarkDeliveryDrainUncertain` | apps/desktop/daemon/delivery-drain.ts:414-422 | Moves a stopped drain to uncertain, idempotently; refused exactly without a stop intent |
| `CustodyDatabase.CustodyDatabase.HandOver` | apps/desktop/daemon/delivery-drain.ts:439-451 | Cursor, checkpoint, delivery contract and phase written table by table, equal to the handover that `CommitHandsOver` describes |
| `CustodyDatabase.CustodyDatabase.CommitDeliveryDrain` | apps/desktop/daemon/delivery-drain.ts:426-453 | Commits a stopped, ready drain under authority: mode, contract, revision, checkpoint and receiving cursor as `CommitHandsOver` says, or nothing changes |
| `EntryGateTheorems.SettledMeansAllGone` | apps/desktop/daemon/entry-concurrency-gate.ts:24-28 | A tail promise settles exactly when its caller and every earlier one of the entry are gone |
| `EntryGateTheorems.MayEnterMeansAlone` | apps/desktop/daemon/entry-concurrency-gate.ts:31-47 | A waiting caller may enter exactly when every earlier one of its entry is gone |
| `EntryGateTheorems.RunKeepsInv` | apps/desktop/daemon/entry-concurrency-gate.ts:22-58 | Lane, room-move, waiter and exclusion invariants hold in every state of every run |
| `EntryGateTheorems.AtMostOneInside` | apps/desktop/daemon/entry-concurrency-gate.ts:22-58 | Under any callers and aborts two callers of an entry are never inside together, and none may enter while one is |
| `EntryGateTheorems.EntersInArrivalOrder` | apps/desktop/daemon/entry-concurrency-gate.ts:22-58 | A caller enters only after every earlier one of its entry left or abandoned its wait |
| `EntryGateTheorems.KeyFollowsTickets` | apps/desktop/daemon/entry-concurrency-gate.ts:50-57 | An absent key means nobody is inside or waiting; once all are gone every cleanup may run and removes the key |
| `EntryGateTheorems.SomeoneMayEnter` | apps/desktop/daemon/entry-concurrency-gate.ts:36-45 | With somebody waiting and nobody inside, the first in line may enter |
| `EntryGateTheorems.LifecycleExcludesRoomMoves` | apps/desktop/daemon/entry-concurrency-gate.ts:86-91 | After a lifecycle action waited for the active room move, no room move of the entry is inside its critical section while the action is held |
| `EntryGateTheorems.UpdateDrainsMoves` | apps/desktop/daemon/entry-concurrency-gate.ts:181-186 | Under a scheduled update no room move joins the active ones |
| `EntryGateTheorems.UpdateAdmitsNothing` | apps/desktop/daemon/entry-concurrency-gate.ts:86-125 | Over every run under a scheduled update no room move is queued, no lifecycle action and no turn control begins, and no room move joins the active ones |
| `EntryGateTheorems.DrainingEndsWithActiveMoves` | apps/desktop/daemon/entry-concurrency-gate.ts:181-186 | Under a scheduled update the active room moves are drained exactly when those active at the start have finished |
| `EntryGateTheorems.ActiveMoveCanFinish` | apps/desktop/daemon/entry-concurrency-gate.ts:142-148 | An active room move can always finish, and then leaves the active ones |
| `EntryGateTheorems.ExcludedCallersMayReturn` | apps/desktop/daemon/entry-concurrency-gate.ts:119-159 | A caller excluded by a lifecycle action can always return: no wake is lost |
| `EntryGateTheorems.WakeReachesEveryCaller` | apps/desktop/daemon/entry-concurrency-gate.ts:167-175 | Waking one entry or all tells exactly the callers of that scope that have not returned, and each of them may then return |
| `EntryGateTheorems.NeverEnteredTwice` | apps/desktop/daemon/entry-concurrency-gate.ts:137-139 | The entered-twice error is unreachable |
| `EntryGateTheorems.ExcludedCallerMayStillRun` | apps/desktop/daemon/entry-concurrency-gate.ts:114-159 | A run in which a caller was told it is excluded and its queued work ran after the exclusion ended |
| `EntryGateTheorems.QueuedMoveRunsUnlessFenced` | apps/desktop/daemon/entry-concurrency-gate.ts:131-140 | When a room move comes up its operation runs if and only if no update is scheduled and no lifecycle action is held at that moment |
| `EntryGateTheorems.QueuedMoveRunsExactlyWhenLetIn` | apps/desktop/daemon/entry-concurrency-gate.ts:119-149 | Over every run the work of a room move, excluded caller or not, runs if and only if no update and no lifecycle action was in force when its turn came |
| `EntryGateTheorems.GrantsExactUnlessStale` | apps/desktop/daemon/entry-concurrency-gate.ts:86-107 | Marks and owners of lifecycle and turn control stay exact through a step if and only if it is not a repeated release of a mark somebody else took |
| `EntryGateTheorems.OneExclusionAtATime` | apps/desktop/daemon/entry-concurrency-gate.ts:86-107 | With each release called at most once, an entry never has two exclusions in force |
| `EntryGateTheorems.TwiceReleasedMayOverlap` | apps/desktop/daemon/entry-concurrency-gate.ts:93-106 | A release called twice can leave a lifecycle action and a turn control in force together |
| `EntryConcurrencyGate.EntryConcurrencyGate.Run` | apps/desktop/daemon/entry-concurrency-gate.ts:22-28 | A new caller queues behind the current tail, or behind nothing, and becomes the tail |
| `EntryConcurrencyGate.EntryConcurrencyGate.Enter` | apps/desktop/daemon/entry-concurrency-gate.ts:131-140 | The operation starts; a room move is refused under a fence or registered; the second-entry branch is proved dead |
| `EntryConcurrencyGate.EntryConcurrencyGate.AbandonWait` | apps/desktop/daemon/entry-concurrency-gate.ts:32-42 | An aborted waiter leaves without entering and without touching the tail |
| `EntryConcurrencyGate.EntryConcurrencyGate.Leave` | apps/desktop/daemon/entry-concurrency-gate.ts:48-51 | The caller leaves and removes the key only while it is still the tail |
| `EntryConcurrencyGate.EntryConcurrencyGate.CleanUp` | apps/desktop/daemon/entry-concurrency-gate.ts:52-56 | An abandoned tail removes its key once everything before it settled |
| `EntryConcurrencyGate.EntryConcurrencyGate.BeginLifecycle` | apps/desktop/daemon/entry-concurrency-gate.ts:86-94 | Marks the entry and wakes all its registered callers; refused exactly under a scheduled update or another exclusion |
| `EntryConcurrencyGate.EntryConcurrencyGate.BeginTurnControl` | apps/desktop/daemon/entry-concurrency-gate.ts:97-107 | Marks the entry; refused exactly under a scheduled update or another exclusion |
| `EntryConcurrencyGate.EntryConcurrencyGate.ReleaseGrant` | apps/desktop/daemon/entry-concurrency-gate.ts:93-93 | Clears the mark of the entry, whoever holds it by then |
| `EntryConcurrencyGate.EntryConcurrencyGate.RunRoomMove` | apps/desktop/daemon/entry-concurrency-gate.ts:114-131 | Refuses at once under a fence; otherwise registers the caller and queues its work |
| `EntryConcurrencyGate.EntryConcurrencyGate.FinishRoomMove` | apps/desktop/daemon/entry-concurrency-gate.ts:143-148 | Leaves the critical section and the active room moves |
| `EntryConcurrencyGate.EntryConcurrencyGate.ReturnRoomMove` | apps/desktop/daemon/entry-concurrency-gate.ts:151-158 | Removes the caller, and its set when it was the last one |
| `EntryConcurrencyGate.EntryConcurrencyGate.WakeRoomMoveWaiters` | apps/desktop/daemon/entry-concurrency-gate.ts:167-175 | Wakes exactly the registered callers of one entry, or of all |
| `LegacyCutover.StepIsLater` | apps/desktop/daemon/delivery-cutover-execution-coordinator.ts:594-662 | One step: the turn of a cutover is write-once, its phase never leaves a recorded dispatch, and a new cutover appears only after the old one is gone |
| `LegacyCutover.RunIsLater` | apps/desktop/daemon/delivery-cutover-execution-coordinator.ts:475-709 | The same over every run, through restarts and repeated drives |
| `LegacyCutover.EverySwitchIsBacked` | apps/desktop/daemon/delivery-cutover-execution-coordinator.ts:711-754 | The mode becomes `daemon_inbox` only with a recorded switch, and the run itself holds the event behind every switch, taken for the very cutover it ended: a durable terminal record, a terminal inspection of the target of the drive, or a control outcome without an active turn |
| `LegacyCutover.AnchoredUnlessUntruthful` | apps/desktop/daemon/delivery-cutover-execution-coordinator.ts:668-682 | The turn a drive completes on is the journal's target if and only if an acknowledged interrupt names the checkpointed turn |
| `LegacyCutover.SwitchEndsInspectedTurn` | apps/desktop/daemon/delivery-cutover-execution-coordinator.ts:668-682 | With such a provider a switch on an inspected turn ends the cutover whose persisted target that turn is |
| `LegacyCutover.UntruthfulProviderSwitchesEarly` | apps/desktop/daemon/delivery-cutover-execution-coordinator.ts:668-677 | A run from a polling entry in which the provider reports another turn than it checkpointed, and the saga completes on that turn |
| `LegacyCutover.DispatchIsInspectedFirst` | apps/desktop/daemon/delivery-cutover-execution-coordinator.ts:578-596 | Over every run, through restarts, native control of a cutover whose dispatch is on record begins only with an inspection that found its persisted turn active |
| `LegacyCutover.DoubtIsRecorded` | apps/desktop/daemon/delivery-cutover-execution-coordinator.ts:578-709 | A drive that cannot tell whether its turn is over ends with the cutover uncertain; a control call that failed without doubt leaves it retryable |
| `LegacyCutover.TerminalRecordEnds` | apps/desktop/daemon/delivery-cutover-execution-coordinator.ts:495-516 | The durable end of a generation ends exactly the cutover saved for it; the entry switches to the daemon inbox if and only if no successor runtime is there |
| `LegacyCutover.DriveWritesItsOwn` | apps/desktop/daemon/delivery-cutover-execution-coordinator.ts:542-754 | A drive writes to no other runtime than the one it set out to fence |
| `LegacyCutover.CreationPrepares` | apps/desktop/daemon/delivery-cutover-execution-coordinator.ts:549-570 | A new cutover names the runtime the drive found, prepared and without a turn |
| `LegacyCutover.TargetThenDispatch` | apps/desktop/daemon/delivery-cutover-execution-coordinator.ts:597-659 | A control call under its own runtime records its target and then its dispatch |
| `LegacyCutover.CompletionSwitches` | apps/desktop/daemon/delivery-cutover-execution-coordinator.ts:711-754 | A drive that reached its end under its own runtime switches the mode to the daemon inbox and clears the cutover |
| `LegacyCutover.DeliveryCutoverSaga.ConvergeTerminal` | apps/desktop/daemon/delivery-cutover-execution-coordinator.ts:495-516 | Clears exactly the saved cutover of a terminal generation; the mode switches unless a successor runtime is there |
| `LegacyCutover.DeliveryCutoverSaga.CreateCutover` | apps/desktop/daemon/delivery-cutover-execution-coordinator.ts:542-570 | Prepares a cutover without a turn for the exact current runtime, never over another cutover |
| `LegacyCutover.DeliveryCutoverSaga.CheckpointTargetTurn` | apps/desktop/daemon/delivery-cutover-execution-coordinator.ts:597-627 | Only for the exact current runtime, and never over another turn: the persisted turn is the named one whenever it was written |
| `LegacyCutover.DeliveryCutoverSaga.MarkDispatchedTurn` | apps/desktop/daemon/delivery-cutover-execution-coordinator.ts:628-659 | Only for the exact current runtime: dispatch is recorded only with a turn |
| `LegacyCutover.DeliveryCutoverSaga.CompleteCutover` | apps/desktop/daemon/delivery-cutover-execution-coordinator.ts:711-754 | Switches the mode and clears the cutover only for the exact current runtime, with the evidence of the drive |
| `LegacyCutover.DeliveryCutoverSaga.ControlFailed` | apps/desktop/daemon/delivery-cutover-execution-coordinator.ts:683-708 | Retryable only while no dispatch was recorded, uncertain otherwise |
| `EffectCoordinator.OneLiveFlightPerKey` | apps/desktop/daemon/bounded-effect-coordinator.ts:175-197 | At most one execution of a request key is alive in every reachable state |
| `EffectCoordinator.RetriesShareUntilFinished` | apps/desktop/daemon/bounded-effect-coordinator.ts:180-196 | A live retry of the same effect shares the flight, a different effect is refused, and the key is held through the checkpoint |
| `EffectCoordinator.LaunchNeedsDurableGrant` | apps/desktop/daemon/bounded-effect-coordinator.ts:393-411 | A tool is launched only by the flight holding the durable grant of its row |
| `EffectCoordinator.MutatingToolRunsAtMostOnce` | apps/desktop/daemon/bounded-effect-coordinator.ts:199-285 | Over every run, restarts and concurrent callers included, the tool of a mutating effect is launched at most once |
| `EffectCoordinator.SuccessIsNeverAnError` | apps/desktop/daemon/bounded-effect-coordinator.ts:250-284 | A mutating effect whose tool call succeeded is never journalled as failed, unless a direct caller reports an error while the row has no outcome yet |
| `EffectCoordinator.SucceededRowFailsExactlyByReport` | apps/desktop/daemon/bounded-effect-coordinator.ts:262-284 | Over every run a mutating effect whose tool call succeeded is journalled as failed if and only if a direct caller reported an error while its row had no outcome yet |
| `EffectCoordinator.CheckpointRecordsOutcome` | apps/desktop/daemon/bounded-effect-coordinator.ts:262-284 | A reached checkpoint leaves an executing or uncertain row `completed` exactly when the tool succeeded and `failed` otherwise, and answers just that; an unreached one writes nothing |
| `EffectCoordinator.CheckpointedSuccessIsFinal` | apps/desktop/daemon/supervised-agent-inbox-store.ts:1634-1672 | Over every run after a success was checkpointed into such a row, restarts and reports included, the row is `completed` and no later request for it launches a tool |
| `EffectCoordinator.CompletedRowAnswers` | apps/desktop/daemon/supervised-agent-inbox-store.ts:1178-1190 | A request for a completed effect is answered from its row without a grant, and one that reuses its coordinates for another effect is refused |
| `EffectCoordinator.RowDecidesRequest` | apps/desktop/daemon/bounded-effect-coordinator.ts:199-231 | The row found decides how a request goes on: a settled one answers it, an interrupted mutation becomes uncertain and answers it, an interrupted read may run again |
| `EffectCoordinator.RestartRecovers` | apps/desktop/daemon/supervised-agent-inbox-store.ts:2345-2369 | A restart makes interrupted mutations uncertain and interrupted reads repeatable, and leaves every other row as it was |
| `EffectCoordinator.GrantedRowFailsExactlyByReport` | apps/desktop/daemon/bounded-effect-coordinator.ts:414-447 | One step fails a granted row, short of its own failed checkpoint, if and only if it is such a report and the row is not completed |
| `EffectCoordinator.ReportMayFailSuccess` | apps/desktop/daemon/supervised-agent-inbox-store.ts:1634-1664 | A run in which a direct report fails an effect whose tool call had just succeeded |
| `EffectCoordinator.TransactionsMove` | apps/desktop/daemon/supervised-agent-inbox-store.ts:1178-1220 | No journal transaction returns a mutating row to `prepared` or grants it twice |
| `EffectCoordinator.RunKeepsInv` | apps/desktop/daemon/supervised-agent-inbox-store.ts:1329-1393 | Journal and coordinator invariants hold in every state of every run |
| `EffectCoordinator.BoundedEffectCoordinator.ExecuteRequest` | apps/desktop/daemon/bounded-effect-coordinator.ts:175-197 | Shares the live flight of the same effect, refuses a different one, or starts one |
| `EffectCoordinator.BoundedEffectCoordinator.PrepareRowOf` | apps/desktop/daemon/bounded-effect-coordinator.ts:347-392 | Finds or creates the row; a terminal or uncertain row ends the flight without execution |
| `EffectCoordinator.BoundedEffectCoordinator.MarkRowOf` | apps/desktop/daemon/bounded-effect-coordinator.ts:393-405 | Grants execution only from `prepared`; lost authority fails the row |
| `EffectCoordinator.BoundedEffectCoordinator.LaunchTool` | apps/desktop/daemon/bounded-effect-coordinator.ts:233-251 | Launches only under authority resolved again after the grant |
| `EffectCoordinator.BoundedEffectCoordinator.CheckpointResult` | apps/desktop/daemon/bounded-effect-coordinator.ts:262-284 | A row without an outcome becomes completed exactly when the tool succeeded and failed otherwise; an unwritten checkpoint changes nothing |
| `EffectCoordinator.BoundedEffectCoordinator.FinishFlight` | apps/desktop/daemon/bounded-effect-coordinator.ts:192-194 | Releases the key of a flight that is over |
| `StateWatch.ReturnedSnapshotIsFresh` | apps/desktop/daemon/daemon-state-watch.ts:133-165 | A returned snapshot numbered s was read after every change up to s, and s is no older than the counter the poll found |
| `StateWatch.OneProjectionAtATime` | apps/desktop/daemon/daemon-state-watch.ts:139-163 | At most one projection is unsettled |
| `StateWatch.ReturnedSequencesNeverGoDown` | apps/desktop/daemon/daemon-state-watch.ts:95-131 | A poll made after another returned never returns an older snapshot |
| `StateWatch.WaiterBehindHasPendingRelease` | apps/desktop/daemon/daemon-state-watch.ts:67-93 | A waiter behind the counter has a pending window whose end releases it; without a window none is ever behind |
| `StateWatch.RunIsLater` | apps/desktop/daemon/daemon-state-watch.ts:67-165 | The counter never goes down, settled projections and finished polls never change |
| `StateWatch.NotificationReleasesOrCoalesces` | apps/desktop/daemon/daemon-state-watch.ts:67-78 | A change wakes every sleeping poll at once, unless the watch coalesces, is open and no update is scheduled; then a window is pending whenever somebody sleeps or a projection is in flight |
| `StateWatch.OnlyCurrentPollsSleep` | apps/desktop/daemon/daemon-state-watch.ts:95-121 | A poll falls asleep if and only if it may wait, knows the current generation and the latest change, and no end or update is near |
| `StateWatch.ChecksLeadToWindow` | apps/desktop/daemon/daemon-state-watch.ts:122-137 | After its authority check a poll sits out the pending window if and only if it is patient, did not time out and named the current generation |
| `StateWatch.ExpiredPollIsNeverHeld` | apps/desktop/daemon/daemon-state-watch.ts:116-137 | Over every run a poll whose wait expired is never held back by a window again |
| `StateWatch.SharesOnlyCurrent` | apps/desktop/daemon/daemon-state-watch.ts:138-158 | A poll shares the projection in flight if and only if that was begun for the current generation and after the latest change |
| `StateWatch.ReturnsCurrentGeneration` | apps/desktop/daemon/daemon-state-watch.ts:122-131 | A poll returns if and only if its last authority check passed and its projection is of the generation current at that moment |
| `StateWatch.DaemonStateWatch.NotifyChange` | apps/desktop/daemon/daemon-state-watch.ts:67-78 | Bumps the counter, then releases at once, joins the pending window, or opens one when somebody waits or reads |
| `StateWatch.DaemonStateWatch.ReleaseWaiters` | apps/desktop/daemon/daemon-state-watch.ts:85-93 | Ends the window and empties the waiters |
| `StateWatch.DaemonStateWatch.BeginPoll` | apps/desktop/daemon/daemon-state-watch.ts:95-121 | A poll sleeps exactly when it is up to date with an open, current watch and may wait |
| `StateWatch.DaemonStateWatch.DecideProjection` | apps/desktop/daemon/daemon-state-watch.ts:138-158 | Shares a projection no older than the counter, outlasts an older one, or creates its own |
| `StateWatch.DaemonStateWatch.FinishOwn` | apps/desktop/daemon/daemon-state-watch.ts:158-162 | The owner clears the flight it still holds, then takes the outcome |
| `AgentStream.PollDeliversNext` | apps/desktop/daemon/agent-stream-registry.ts:149-181 | A poll delivers the next retained events in a row, each with the content pushed under its number |
| `AgentStream.CursorConserves` | apps/desktop/daemon/agent-stream-registry.ts:160-171 | New cursor = old effective cursor + dropped + delivered if and only if both limits are positive or nothing past the cursor was evicted |
| `AgentStream.ZeroBufferRepeatsItself` | apps/desktop/daemon/agent-stream-registry.ts:160-171 | With a buffer of size zero a poll reports the same event as dropped again and again, and the cursor stays |
| `AgentStream.EndedMeansDrained` | apps/desktop/daemon/agent-stream-registry.ts:172-174 | `ended` is reported exactly when the generation ended and nothing lies past the cursor handed back; the report accounts for everything past the given cursor if and only if that cursor is not ahead of the feed |
| `AgentStream.StreamConserves` | apps/desktop/daemon/agent-stream-registry.ts:63-111 | Under any interleaving of pushes and polls each event is delivered at most once, in order, and the account of dropped and delivered is exact |
| `AgentStream.EndReportsEverything` | apps/desktop/daemon/agent-stream-registry.ts:149-181 | When the end is reported, everything pushed past the starting cursor was delivered once or counted as dropped, if and only if that cursor was not ahead of the feed |
| `AgentStream.StaleCursorEndsEarly` | apps/desktop/daemon/agent-stream-registry.ts:114-118 | A run in which a deleted feed starts over and a consumer with its cursor from before is told the end without the new event |
| `AgentStream.NoPollSleepsPastNews` | apps/desktop/daemon/agent-stream-registry.ts:120-147 | In every reachable registry at most one poll sleeps on an entry, and none while its feed has something to return |
| `AgentStream.ChangesWakeTheSleeper` | apps/desktop/daemon/agent-stream-registry.ts:183-188 | Every change of a feed wakes its sleeping poll |
| `AgentStream.NumbersAreNeverReused` | apps/desktop/daemon/agent-stream-registry.ts:63-111 | Over every run without a deletion a feed numbers its events upwards through all its generations, each starts past the one before, and an ended one never changes |
| `AgentStream.AgentStreamRegistry.PushOne` | apps/desktop/daemon/agent-stream-registry.ts:63-86 | Appends under the next number, trims to the limit and wakes the entry; an ended feed takes nothing |
| `AgentStream.AgentStreamRegistry.ResetOne` | apps/desktop/daemon/agent-stream-registry.ts:89-103 | Starts an empty generation after everything numbered so far and wakes the entry |
| `AgentStream.AgentStreamRegistry.EndOne` | apps/desktop/daemon/agent-stream-registry.ts:106-111 | Ends a live feed once and wakes the entry |
| `AgentStream.AgentStreamRegistry.Delete` | apps/desktop/daemon/agent-stream-registry.ts:114-118 | Wakes the entry, then forgets its feed and waiters |
| `AgentStream.AgentStreamRegistry.WatchOnce` | apps/desktop/daemon/agent-stream-registry.ts:120-147 | Returns the snapshot, or replaces the poll sleeping on the entry; it sleeps only with nothing to return |
| `AgentStream.AgentStreamRegistry.NotifyWaiters` | apps/desktop/daemon/agent-stream-registry.ts:183-188 | Resolves exactly the waiters of the entry |
| `SingleFlight.EveryRequestSettlesOnce` | src/api/single-flight.ts:34-62 | A request waits exactly while no pass started after it has ended; then it is answered exactly once, by the first such pass |
| `SingleFlight.IdleMeansDone` | src/api/single-flight.ts:26-32 | Without an active drain there are no waiters and every generation is complete |
| `SingleFlight.ArrivalsShareOnePass` | src/api/single-flight.ts:50-62 | Requests made between the same two pass starts are answered by the same pass |
| `SingleFlight.AnsweredWithinTwoPasses` | src/api/single-flight.ts:26-62 | Whatever else happens, the second pass to end after a request answers it |
| `SingleFlight.AnsweredAsItsPassEnded` | src/api/single-flight.ts:34-62 | Over every run a request is answered with an error if and only if the pass that answers it failed; each pass ends once |
| `SingleFlight.SettleConsecutive` | src/api/single-flight.ts:34-48 | The backward splice settles exactly the waiters the pass reached, newest first, and keeps the rest in order |
| `SingleFlight.TrailingSingleFlight.SettleThrough` | src/api/single-flight.ts:34-48 | The backward splice loop, equal to its specification |
| `SingleFlight.TrailingSingleFlight.AskForPass` | src/api/single-flight.ts:64-71 | Takes the next generation, waits for it and starts a drain when none is active |
| `SingleFlight.TrailingSingleFlight.PassEnded` | src/api/single-flight.ts:50-62 | Settles what the pass reached, waiters alone and as the pass ended, and starts the trailing pass exactly when something is left |
| `SingleFlight.TrailingSingleFlight.DrainCompleted` | src/api/single-flight.ts:28-31 | Goes idle, or starts over for a request that arrived in between |
| `BoundedExecutor.DrainStartsOldest` | src/api/bounded-async.ts:39-46 | Draining starts exactly as many of the oldest queued items as there are free slots |
| `BoundedExecutor.AlwaysBounded` | src/api/bounded-async.ts:39-102 | Active and queued work stay within their bounds and no slot is idle while work waits, over every run |
| `BoundedExecutor.StartsInOrder` | src/api/bounded-async.ts:39-66 | Work starts in submission order except what its deadline removed, and each consumer is answered exactly once |
| `BoundedExecutor.TimedOutNeverStarts` | src/api/bounded-async.ts:89-97 | Work removed by its deadline is never started |
| `BoundedExecutor.DependencyAnswers` | src/api/bounded-async.ts:52-66 | An unanswered consumer gets the value of a dependency that fulfilled and the failure of one that did not; an answered one hears nothing |
| `BoundedExecutor.DeadlineAnswers` | src/api/bounded-async.ts:89-97 | A consumer whose deadline came first is told so, and keeps that answer over every later run |
| `BoundedExecutor.AnswersComeFromEvents` | src/api/bounded-async.ts:52-97 | Over every run each answer was given by one event of its own item: a value or a failure as its dependency ended, a time-out as its deadline came first |
| `BoundedExecutor.SlotKeptUntilFreed` | src/api/bounded-async.ts:67-72 | Only the settlement of its dependency gives a slot back |
| `BoundedExecutor.FreedSlotGoesToOldest` | src/api/bounded-async.ts:67-72 | A freed slot goes to the oldest waiting item at once |
| `BoundedExecutor.BoundedExecutor.Drain` | src/api/bounded-async.ts:39-74 | The drain loop, equal to its specification |
| `BoundedExecutor.BoundedExecutor.RunBounded` | src/api/bounded-async.ts:76-102 | Rejects exactly at capacity; otherwise queues the work and starts what fits |
| `BoundedExecutor.BoundedExecutor.DependencySettled` | src/api/bounded-async.ts:52-66 | Answers the consumer with the value or the failure of its dependency unless it is settled already; the slot stays taken |
| `BoundedExecutor.BoundedExecutor.GiveSlotBack` | src/api/bounded-async.ts:67-72 | Gives the slot back and drains the queue |
| `BoundedExecutor.BoundedExecutor.DeadlineReached` | src/api/bounded-async.ts:89-97 | Answers an unsettled consumer; queued work is removed, running work keeps its slot |
| `SseFrames.FramesDecompose` | src/mcp/sse-client.ts:242-246 | The frames and the rest are a decomposition of the text at its leftmost separators |
| `SseFrames.DecompositionIsUnique` | src/mcp/sse-client.ts:242-246 | There is only one such decomposition |
| `SseFrames.FramesOfMore` | src/mcp/sse-client.ts:219-265 | What is already cut stays cut, whatever text follows |
| `SseClient.FeedAllProcessesWholeText` | src/mcp/sse-client.ts:214-265 | However the text arrives, the stream ends where handling the greedy frames of the whole text leaves it, up to the first malformed one |
| `SseClient.ChunkingDoesNotMatter` | src/mcp/sse-client.ts:214-285 | Two ways of cutting the same text make the same callbacks in order and leave the same cursor and map, malformed and trailing frames included |
| `SseClient.RememberIsBounded` | src/mcp/sse-client.ts:339-348 | One update exceeds the 32-room limit exactly when the map is full, the room is new and the oldest room has the empty id |
| `SseClient.EmptyRoomOverflows` | src/mcp/sse-client.ts:343-347 | From an empty map, 33 rooms of which the first has the empty id all stay |
| `SseClient.RememberUpdatesOneRoom` | src/mcp/sse-client.ts:339-348 | A room remembers its latest cursor; every other keeps its own unless it is the oldest of a full map |
| `SseClient.CursorsStayBounded` | src/mcp/sse-client.ts:339-348 | Over every run with non-empty room ids the map never exceeds 32 rooms |
| `SseClient.SseClient.RememberEventCursor` | src/mcp/sse-client.ts:339-348 | The eviction loop, equal to its specification |
| `SseClient.SseClient.HandleFrame` | src/mcp/sse-client.ts:245-262 | One frame: the same cursor, callback and map as the step that `SseMeaning.FrameLeaves` describes |
| `SseClient.SseClient.ReadChunk` | src/mcp/sse-client.ts:219-265 | The framing loop, equal to its specification |
| `SseClient.SseClient.EndOfBody` | src/mcp/sse-client.ts:269-285 | The trailing frame, equal to its specification |
| `SseMeaning.FrameIsReadable` | src/mcp/sse-client.ts:293-299 | Every frame can be read as lines, in exactly one way, with exactly one list of data values |
| `SseMeaning.FrameMeans` | src/mcp/sse-client.ts:287-330 | What the handler does with any frame, told by its lines alone: the cursor is the trimmed id of the first `id:` line unless that is blank, else the old one; a `room_sync` payload overrides it; without data there is no callback, a `room_sync` gap announces a gap and every other payload is a message; the parser is given the data values, one to a line |
| `SseMeaning.FrameLeaves` | src/mcp/sse-client.ts:245-262 | A malformed frame ends the stream with a repair and no cursor, any other moves it to that cursor and makes that callback, and the map holds the cursor of the room accordingly |
| `SseMeaning.LastIdWins` | src/mcp/sse-client.ts:243-264 | After message frames the cursor is the id of the last frame that has one |
| `SseMeaning.StreamEndsAtLastId` | src/mcp/sse-client.ts:214-285 | However a body of message frames is cut into chunks, trailing frame included, the client reconnects from the id of the last frame that has one, and from where it was if none has |
| `Orchestrator.StartsOnlyAfterDependencies` | src/orchestrator/cli.ts:23-36 | Whatever the workers answer, a task starts only in a round before which all its dependencies are done |
| `Orchestrator.EveryStartHasItsRound` | src/orchestrator/cli.ts:70-121 | Every task that is running, done or failed in the end started in some round of the loop, after its dependencies were done |
| `Orchestrator.RoundsAreTheLoops` | src/orchestrator/cli.ts:70-121 | The statuses before each round are those of the loop: from any of them it goes on to the outcome of the plan |
| `Orchestrator.EndsInLinearRounds` | src/orchestrator/cli.ts:70-121 | The loop ends within two rounds for each task and one more |
| `Orchestrator.EndTellsStatuses` | src/orchestrator/cli.ts:70-121 | The plan finished exactly when every task is done or failed, stopped for a failure exactly when one failed while another was left, and is deadlocked exactly when none failed and one is left, then waiting or done all of them |
| `Orchestrator.VerdictsAreTheWorkers` | src/orchestrator/cli.ts:97-118 | Every final verdict is what the worker of that task answered in some round |
| `Orchestrator.FailureStopsThePlan` | src/orchestrator/cli.ts:74-77 | A worker that fails ends the plan in that round or the next, unfinished unless nothing else was left |
| `Orchestrator.FinishesExactlyWhenSchedulable` | src/orchestrator/cli.ts:70-121 | When no worker fails, every task is done if and only if the dependencies are resolvable and acyclic; otherwise it reports a deadlock |
| `Orchestrator.NoDeadlockRound` | src/orchestrator/cli.ts:81-87 | A schedulable plan never reaches the deadlock branch |
| `Orchestrator.FailureFreeNeverFails` | src/orchestrator/cli.ts:74-77 | Without a failed worker the loop never stops for a failure |
| `Orchestrator.Plan.UpdateTaskStatuses` | src/orchestrator/cli.ts:23-36 | The in-place pass computes the simultaneous update |
| `Orchestrator.Plan.DispatchReady` | src/orchestrator/cli.ts:108-120 | Starts every ready task and applies direct results |
| `Orchestrator.Plan.RunPlan` | src/orchestrator/cli.ts:70-121 | The main loop, equal to its specification |

## Left out

- The SQL engine, schema validation and migration statements; only the constraints and triggers they declare are modelled.
- The digest of a native connection is the connection itself; authority rows are Codex rows; identifiers, hashes and clocks are parameters.
- Unresolved turn controls, room moves and continuation repairs are one set of agents in conflict, which the journals only read.
- Other writers of the surrounding tables are arbitrary. Each property names what it needs of them, for one agent: a quiet inbox and no second admission need every writer of that inbox to go through the gates with finished items staying finished; the worker-cursor accounting needs nobody else to move that worker's cursor while its activation is unresolved; an ingress cursor, or a delivery position, that never goes back needs no other writer to move it back. The rollback of an item cancelled by a room move falls outside the first.
- `driveDrain`, polling observation and the activation route, which call the journals and keep no state of their own.
- The control epoch of the entry gate, a counter read by launch code that is not part of this model.
- Direct room-move preparation, `set_reply_thread` and `complete_room_turn` in the effect journal, and its pruning: rows of a live turn are never removed here.
- The reservation sets of the effect coordinator and their two drains, which only wait for flights that are modelled.
- Other writers of a manifest entry never touch its legacy cutover nor switch it to the daemon inbox, and one drive of an entry is alive at a time; a detached one no longer writes.
- The legacy cutover's observed state, liveness and activity projection, and its retry timers.
- Fractional or negative stream limits, long-poll durations and timers: a timer may fire at any time.
- Byte limits, UTF-8 decoding, reconnection and HTTP in the event-stream client; JSON parsing is a parameter.
- Chat polling and lost completion messages in the orchestrator: a wait returns some result for its task.
- Synchronous re-entrance of user callbacks, and a rejection with `undefined`, in the single flight and the executor.
- Counters are unbounded integers.
