/**
  * What each transaction answers and leaves behind, read off the tables before and after it.
  */
module CustodyAnswers {
  import opened CustodyInvariant
  import opened CustodyRuns
  import opened CustodyTables
  import opened CustodyTheorems
  import opened DeliveryDrains
  import opened PollingActivations
  import opened PollingOfferCursor
  import opened PollingOfferLog
  import opened PollingOffers
  import opened Text
  import opened Wrappers

  function Answer<T>(tx: Tx<T>): Result<T, Refusal> { if tx.Commit? then Ok(tx.reply) else Err(tx.refusal) }

  /** The tables after a transaction. */
  function After<T>(db: Db, tx: Tx<T>): Db { if tx.Commit? then tx.db else db }

  /** A refusal changes nothing; an answer is the row as it now stands, moved on under its own identity. */
  predicate ActivationAnswered(db: Db, next: Db, id: Id, agent: Id, reply: Result<Activation, Refusal>) {
    if reply.Err? then next == db
    else
      && id in db.activations && db.activations[id].identity.agentId == agent
      && next == db.(activations := db.activations[id := reply.value])
      && reply.value.identity == db.activations[id].identity
      && reply.value.compactedThrough == db.activations[id].compactedThrough
  }

  lemma RowsAreAccepted(w: World, id: Id)
    requires Inv(w) && id in w.db.activations
    ensures RowAccepted(id, w.db.activations[id]) && NativeTurnFree(w.db, id, w.db.activations[id])
  {
    assert RowAccepted(id, w.db.activations[id]) && NativeTurnFree(w.db, id, w.db.activations[id]);
  }

  /** The phase of a row says whether it has a turn and an outcome. */
  lemma PhaseTellsTurn(w: World, id: Id)
    requires Inv(w) && id in w.db.activations
    ensures var row := w.db.activations[id];
            && (row.phase in {Prepared, Dispatching, Cancelled} ==> row.turnId.None?)
            && (row.phase == Active ==> row.turnId.Some?)
            && (row.outcome.Some? <==> row.phase == Complete)
  {
    RowsAreAccepted(w, id);
  }

  predicate CutoverAnswered(db: Db, next: Db, id: Id, agent: Id, reply: Result<Cutover, Refusal>) {
    if reply.Err? then next == db
    else
      && id in db.cutovers && db.cutovers[id].agentId == agent
      && next == db.(cutovers := db.cutovers[id := reply.value])
      && reply.value == db.cutovers[id].(phase := reply.value.phase, updatedAt := reply.value.updatedAt)
  }

  // ----- authority -----

  /** No later execution of the same work exists. */
  predicate NewestExecution(db: Db, attempt: Id, generationId: Id) {
    && (attempt, generationId) in db.context.executions
    && forall key :: key in db.context.executions && key.0 == attempt ==>
         db.context.executions[key].generation <= db.context.executions[(attempt, generationId)].generation
  }

  /** The entry still runs this agent's work in this room under this contract. */
  predicate EntryRuns(current: Option<Entry>, agent: Id, room: Id, attempt: Id, mode: Mode) {
    && current.Some? && current.value.id == agent && current.value.roomId == room && current.value.provider == Codex
    && current.value.running && current.value.conditionNone && current.value.workAttemptId == Some(attempt)
    && ModeOf(current.value) == mode && !current.value.cutoverPresent
  }

  /** The worker of the activation is bound exactly as when it was prepared, its execution is the newest and
    * has not ended, and nothing else controls the agent. */
  predicate WorkerHolds(db: Db, a: ActivationIdentity, current: Option<Entry>) {
    && EntryRuns(current, a.agentId, a.roomId, a.native.workAttemptId, McpPolling)
    && NewestExecution(db, a.native.workAttemptId, a.generationId)
    && !db.context.executions[(a.native.workAttemptId, a.generationId)].terminal
    && a.agentId in db.configs && db.configs[a.agentId].custodial
    && db.configs[a.agentId].revision == a.configRevision && db.configs[a.agentId].runtimeRevision == Some(a.configRevision)
    && a.agentId in db.bindings
    && (var b := db.bindings[a.agentId];
        b.roomId == a.roomId && b.workAttemptId == a.native.workAttemptId && b.generationId == a.generationId && b.sessionId == a.sessionId)
    && !HasUnresolvedDrain(db, a.agentId) && a.agentId !in db.context.conflicts
  }

  lemma AuthorityHoldsWorker(db: Db, a: Activation, current: Option<Entry>)
    requires CurrentAuthority(db, a, current, false)
    ensures WorkerHolds(db, a.identity, current)
  {
    hide NativeIdentity;
    var newest := db.context.executions[(a.identity.native.workAttemptId, a.identity.generationId)].generation;
    forall key | key in db.context.executions && key.0 == a.identity.native.workAttemptId
      ensures db.context.executions[key].generation <= newest
    {
      assert !HasSuccessor(db, a.identity.native.workAttemptId, newest);
    }
  }

  /** Whoever publishes or acknowledges an offer does so for an active activation of the agent, through its
    * bound worker, under a worker session that has not expired. */
  lemma OffersNeedLiveWorker(db: Db, scope: Scope, current: Option<Entry>, now: nat)
    requires OfferAuthority(db, scope, current, now).None?
    ensures && scope.operationId in db.activations && db.activations[scope.operationId].phase == Active
            && db.activations[scope.operationId].identity.agentId == scope.agentId
            && WorkerHolds(db, db.activations[scope.operationId].identity, current)
            && IsUuid(scope.incarnation)
            && scope.agentId in db.context.sessions
            && (var session := db.context.sessions[scope.agentId]; var b := db.bindings[scope.agentId];
                && session.credential == b.credential && session.sessionId == b.sessionId
                && session.roomId == b.roomId && session.generationId == b.generationId
                && session.expiresAt.Some? && now < session.expiresAt.value)
  {
    AuthorityHoldsWorker(db, db.activations[scope.operationId], current);
    hide CurrentAuthority, WorkerHolds, IsUuid;
  }

  // ----- activations -----

  /** The row a request creates, as the request and the tables give it. */
  predicate PreparedAs(db: Db, input: PrepareInput, row: Activation) {
    && row.identity.requestId == input.requestId && row.identity.agentId == input.agentId
    && row.identity.roomId == input.roomId && row.identity.generationId == input.generationId
    && row.identity.reverseOperationId == input.reverseOperationId
    && NativeIdentity(input.handle) == Some(row.identity.native)
    && row.phase == Prepared && row.turnId.None? && row.outcome.None? && row.compactedThrough.None?
    && input.agentId in db.bindings && db.bindings[input.agentId].cursor == Some(row.identity.roomCursor)
  }

  ghost predicate PreparedLaw(
    db: Db, next: Db, input: PrepareInput, current: Option<Entry>, reply: Result<PrepareReply, Refusal>)
  {
    if reply.Ok? && reply.value.created then
      && input.operationId !in db.activations
      && next == db.(activations := db.activations[input.operationId := reply.value.activation])
      && PreparedAs(db, input, reply.value.activation) && WorkerHolds(db, reply.value.activation.identity, current)
      && IdleAt(input.boundary, reply.value.activation.identity.native)
      && !HasUnresolvedActivation(db, input.agentId)
    else
      && next == db
      && (reply.Ok? ==>
            && input.operationId in db.activations && reply.value.activation == db.activations[input.operationId]
            && reply.value.activation.identity.requestId == input.requestId
            && reply.value.activation.identity.agentId == input.agentId)
  }

  /** A preparation creates exactly the row that was asked for, under the agent's live worker, answers a
    * repeated request with its own row, or changes nothing. */
  lemma PreparationIsExact(db: Db, input: PrepareInput, current: Option<Entry>, now: nat)
    ensures var tx := Prepare(db, input, current, now);
            PreparedLaw(db, After(db, tx), input, current, Answer(tx))
  {
    var tx := Prepare(db, input, current, now);
    if tx.Commit? && tx.reply.created { AuthorityHoldsWorker(db, tx.reply.activation, current); }
    hide CurrentAuthority, MatchesRuntime, WorkerHolds, RowAccepted, CompletedReverse, SuccessorRuntime;
  }

  /** An answered dispatch leaves the row dispatching, without a turn, at the idle runtime it was prepared
    * for and under its live worker. */
  predicate DispatchLaw(
    db: Db, next: Db, id: Id, agent: Id, handle: Handle, boundary: Boundary, current: Option<Entry>,
    reply: Result<Activation, Refusal>)
  {
    && ActivationAnswered(db, next, id, agent, reply)
    && (reply.Ok? ==>
          && WorkerHolds(db, reply.value.identity, current)
          && NativeIdentity(handle) == Some(reply.value.identity.native) && IdleAt(boundary, reply.value.identity.native)
          && db.activations[id].phase in {Prepared, Dispatching} && reply.value.phase == Dispatching
          && reply.value.turnId.None? && reply.value.outcome.None?)
  }

  /** The turn of an answered checkpoint is the one named, and it was not another one before. */
  predicate TurnLaw(
    db: Db, next: Db, id: Id, agent: Id, turn: Id, current: Option<Entry>, reply: Result<Activation, Refusal>)
  {
    && ActivationAnswered(db, next, id, agent, reply)
    && (reply.Ok? ==>
          var row := db.activations[id];
          && NonBlank(turn) && row.turnId in {None, Some(turn)} && reply.value.turnId == Some(turn)
          && reply.value.phase == (if row.phase == Complete then Complete else Active)
          && (row.phase != Complete ==> WorkerHolds(db, row.identity, current))
          && reply.value.outcome == row.outcome)
  }

  predicate UncertaintyLaw(db: Db, next: Db, id: Id, agent: Id, reply: Result<Activation, Refusal>) {
    && ActivationAnswered(db, next, id, agent, reply)
    && (reply.Ok? <==> OwnedActivation(db, id, agent) && db.activations[id].phase in {Dispatching, Active, Uncertain})
    && (reply.Ok? ==> reply.value.phase == Uncertain && reply.value.turnId == db.activations[id].turnId)
  }

  predicate CancellationLaw(db: Db, next: Db, id: Id, agent: Id, reply: Result<Activation, Refusal>) {
    && ActivationAnswered(db, next, id, agent, reply)
    && (reply.Ok? <==> OwnedActivation(db, id, agent) && db.activations[id].phase in {Prepared, Cancelled})
    && (reply.Ok? ==> reply.value.phase == Cancelled && reply.value.turnId.None? && reply.value.outcome.None?)
  }

  /** The row of an answered completion holds the very outcome given, of the very turn given. */
  predicate CompletionLaw(
    db: Db, next: Db, id: Id, agent: Id, turn: Option<Id>, outcome: Outcome, reply: Result<Activation, Refusal>)
  {
    && ActivationAnswered(db, next, id, agent, reply)
    && (reply.Ok? ==>
          var row := db.activations[id];
          && reply.value.phase == Complete && reply.value.outcome == Some(outcome) && reply.value.turnId == turn
          && row.turnId == turn && (turn.None? ==> outcome == Lost)
          && row.phase !in {Prepared, Cancelled} && (row.phase == Complete ==> next == db))
  }

  /** A dispatch writes what it was given; what refuses it changes nothing. */
  lemma DispatchIsExact(
    w: World, id: Id, agent: Id, handle: Handle, boundary: Boundary, current: Option<Entry>, now: nat)
    requires Inv(w)
    ensures var tx := MarkDispatch(w.db, id, agent, handle, boundary, current, now);
            DispatchLaw(w.db, After(w.db, tx), id, agent, handle, boundary, current, Answer(tx))
  {
    if id in w.db.activations {
      PhaseTellsTurn(w, id);
      if MarkDispatch(w.db, id, agent, handle, boundary, current, now).Commit? { AuthorityHoldsWorker(w.db, w.db.activations[id], current); }
    }
    hide Inv, NativeTurnFree, NativeIdentity, IdleAt, WorkerHolds;
  }

  lemma CheckpointIsExact(w: World, id: Id, agent: Id, turn: Id, current: Option<Entry>, now: nat)
    requires Inv(w)
    ensures var tx := CheckpointTurn(w.db, id, agent, turn, current, now);
            TurnLaw(w.db, After(w.db, tx), id, agent, turn, current, Answer(tx))
  {
    if id in w.db.activations {
      PhaseTellsTurn(w, id);
      if CurrentAuthority(w.db, w.db.activations[id], current, false) { AuthorityHoldsWorker(w.db, w.db.activations[id], current); }
    }
    hide Inv, CurrentAuthority, NativeTurnFree, NonBlank, WorkerHolds;
  }

  lemma CompletionIsExact(w: World, id: Id, agent: Id, turn: Option<Id>, outcome: Outcome, current: Option<Entry>, now: nat)
    requires Inv(w)
    ensures var tx := CompleteWith(w.db, id, agent, turn, outcome, current, now);
            CompletionLaw(w.db, After(w.db, tx), id, agent, turn, outcome, Answer(tx))
  {
    hide Inv, CurrentAuthority, NativeTurnFree;
  }

  /** Uncertainty is refused exactly outside its phases. */
  lemma UncertaintyIsExact(w: World, id: Id, agent: Id, now: nat)
    requires Inv(w)
    ensures var tx := MarkUncertain(w.db, id, agent, now); UncertaintyLaw(w.db, After(w.db, tx), id, agent, Answer(tx))
  {
    if id in w.db.activations { TurnStaysFree(w, id, Moved(w.db.activations[id], Uncertain, now)); }
    hide Inv, NativeTurnFree;
  }

  /** Cancellation is refused exactly once the activation was dispatched. */
  lemma CancellationIsExact(w: World, id: Id, agent: Id, now: nat)
    requires Inv(w)
    ensures var tx := Cancel(w.db, id, agent, now); CancellationLaw(w.db, After(w.db, tx), id, agent, Answer(tx))
  {
    if id in w.db.activations {
      PhaseTellsTurn(w, id);
      TurnStaysFree(w, id, Moved(w.db.activations[id], Cancelled, now));
    }
    hide Inv, NativeTurnFree;
  }

  /** A row that keeps its turn keeps it to itself. */
  lemma TurnStaysFree(w: World, id: Id, row: Activation)
    requires Inv(w) && id in w.db.activations
    requires row.identity == w.db.activations[id].identity && row.turnId == w.db.activations[id].turnId
    ensures NativeTurnFree(w.db, id, row)
  {
    RowsAreAccepted(w, id);
    hide Inv, RowAccepted;
  }

  // ----- acknowledgements -----

  /** The offer is this process's own under the current binding, and the worker stands where the offer
    * left it: at its input until it is acknowledged, at its frontier afterwards. */
  predicate InOrder(db: Db, scope: Scope, tail: Id) {
    && tail in db.offers && scope.agentId in db.bindings
    && var offer := db.offers[tail]; var binding := db.bindings[scope.agentId];
       && 1 <= binding.epoch <= MAX_SAFE_INTEGER
       && offer.incarnation == scope.incarnation && offer.epoch == binding.epoch
       && binding.cursor == Some(if offer.acknowledgedAt.None? then offer.input else offer.frontier)
  }

  /** The caller holds the authority of the chain and names the frontier of its tail. */
  predicate NamesTail(db: Db, scope: Scope, cursor: Option<string>, current: Option<Entry>, now: nat, tail: Id) {
    && OfferAuthority(db, scope, current, now).None?
    && IsTail(db.offers, scope.operationId, tail) && InOrder(db, scope, tail)
    && cursor == Some(db.offers[tail].frontier)
  }

  /** The first acknowledgement of a tail: the row and the worker cursor move together, nothing else does. */
  predicate TailAcknowledged(db: Db, next: Db, agent: Id, tail: Id, now: nat)
    requires tail in db.offers && agent in db.bindings
  {
    var offer := db.offers[tail];
    next == db.(offers := db.offers[tail := offer.(acknowledgedAt := Some(Max(now, offer.createdAt)))],
                bindings := db.bindings[agent := db.bindings[agent].(cursor := Some(offer.frontier))])
  }

  ghost predicate AcknowledgementLaw(
    db: Db, next: Db, scope: Scope, cursor: Option<string>, current: Option<Entry>, now: nat, reply: Result<AckReply, Refusal>)
  {
    && (reply.Ok? && reply.value.acknowledged <==> exists tail :: NamesTail(db, scope, cursor, current, now, tail))
    && (forall tail :: NamesTail(db, scope, cursor, current, now, tail) ==>
          if db.offers[tail].acknowledgedAt.None? then TailAcknowledged(db, next, scope.agentId, tail, now) else next == db)
    && (next != db ==> reply.Ok? && reply.value.acknowledged)
    && (reply.Ok? ==>
          && scope.agentId in next.bindings
          && next.bindings[scope.agentId].cursor == Some(reply.value.roomCursor)
          && next.bindings[scope.agentId].epoch == reply.value.epoch
          && (reply.value.offer.Some? ==> IsTail(next.offers, scope.operationId, reply.value.offer.value))
          && (reply.value.offer.None? ==> forall id :: !IsTail(next.offers, scope.operationId, id)))
  }

  /** The cursors of a tail row are numeric. */
  lemma TailRowAccepted(w: World, a: Id, tail: Id)
    requires Inv(w) && IsTail(w.db.offers, a, tail)
    ensures a in w.db.activations && Tail(w.db.offers, a) == Some(tail)
    ensures IsCursor(w.db.offers[tail].input) && IsCursor(w.db.offers[tail].frontier)
  {
    var log := w.logs[a];
    assert LogRefined(w.db, a, log);
    TailIsLast(w.db, a, log);
    var i :| Retained(log, i) && log.entries[i].id == tail;
    TailCharacter(w.db, a, log, i);
    ShownFacts(w.db.offers, a, log, i);
    assert RecordableAt(log.entries[i]);
  }

  /** Acknowledging marks the row and leaves the chain as it was. */
  lemma AcknowledgedTailStaysTail(db: Db, next: Db, agent: Id, a: Id, tail: Id, now: nat)
    requires tail in db.offers && agent in db.bindings && TailAcknowledged(db, next, agent, tail, now)
    ensures forall id :: IsTail(next.offers, a, id) <==> IsTail(db.offers, a, id)
  {
    forall id | id in db.offers
      ensures HasSuccessorOffer(next.offers, id) <==> HasSuccessorOffer(db.offers, id)
    {
      if s :| s in db.offers && db.offers[s].predecessor == Some(id) { assert next.offers[s].predecessor == Some(id); }
      if s :| s in next.offers && next.offers[s].predecessor == Some(id) { assert db.offers[s].predecessor == Some(id); }
    }
  }

  lemma AuthorityNeedsBinding(db: Db, scope: Scope, current: Option<Entry>, now: nat)
    requires OfferAuthority(db, scope, current, now).None?
    ensures scope.agentId in db.bindings
  {
  }

  lemma NamedTailAnswers(w: World, scope: Scope, cursor: Option<string>, current: Option<Entry>, now: nat, tail: Id)
    requires Inv(w) && NamesTail(w.db, scope, cursor, current, now, tail)
    ensures var tx := Acknowledge(w.db, scope, cursor, current, now);
            && tx.Commit? && tx.reply.acknowledged
            && if w.db.offers[tail].acknowledgedAt.None? then TailAcknowledged(w.db, tx.db, scope.agentId, tail, now) else tx.db == w.db
  {
    TailRowAccepted(w, scope.operationId, tail);
    AuthorityNeedsBinding(w.db, scope, current, now);
    hide Inv, OfferAuthority, IsCursor;
  }

  lemma AnswersForTail(db: Db, scope: Scope, cursor: Option<string>, current: Option<Entry>, now: nat)
    requires Acknowledge(db, scope, cursor, current, now).Commit?
    ensures var tx := Acknowledge(db, scope, cursor, current, now); var tail := Tail(db.offers, scope.operationId);
            && scope.agentId in db.bindings && tx.reply.offer == tail
            && (if tx.reply.acknowledged
                then tail.Some? && NamesTail(db, scope, cursor, current, now, tail.value) else tx.db == db)
            && (tx.db == db || (tail.Some? && TailAcknowledged(db, tx.db, scope.agentId, tail.value, now)))
            && scope.agentId in tx.db.bindings
            && tx.db.bindings[scope.agentId].cursor == Some(tx.reply.roomCursor)
            && tx.db.bindings[scope.agentId].epoch == tx.reply.epoch
  {
    AuthorityNeedsBinding(db, scope, current, now);
    hide OfferAuthority, IsCursor;
  }

  /** An acknowledgement answers true if and only if its cursor is the frontier of the tail, and moves the
    * worker exactly when that tail was still outstanding. */
  lemma TailFrontierAcknowledges(w: World, scope: Scope, cursor: Option<string>, current: Option<Entry>, now: nat)
    requires Inv(w)
    ensures var tx := Acknowledge(w.db, scope, cursor, current, now);
            AcknowledgementLaw(w.db, After(w.db, tx), scope, cursor, current, now, Answer(tx))
  {
    var tx := Acknowledge(w.db, scope, cursor, current, now);
    hide Inv, Acknowledge, OfferAuthority, TailAcknowledged;
    forall tail | NamesTail(w.db, scope, cursor, current, now, tail)
      ensures tx.Commit? && tx.reply.acknowledged
      ensures if w.db.offers[tail].acknowledgedAt.None? then TailAcknowledged(w.db, tx.db, scope.agentId, tail, now) else tx.db == w.db
    {
      NamedTailAnswers(w, scope, cursor, current, now, tail);
    }
    if tx.Commit? {
      AnswersForTail(w.db, scope, cursor, current, now);
      if tx.db != w.db {
        AcknowledgedTailStaysTail(w.db, tx.db, scope.agentId, scope.operationId, Tail(w.db.offers, scope.operationId).value, now);
      }
    }
  }

  // ----- published offers -----

  /** The caller runs under the live worker of an active activation, and asks to move forward. */
  predicate MayPublish(db: Db, input: RecordInput, current: Option<Entry>, now: nat) {
    && OfferAuthority(db, input.scope, current, now).None? && SafeRequest(input.request)
    && IsCursor(input.input) && IsCursor(input.frontier) && CursorValue(input.input) <= CursorValue(input.frontier)
    && input.scope.agentId in db.bindings
    && 1 <= input.expectedEpoch == db.bindings[input.scope.agentId].epoch <= MAX_SAFE_INTEGER
  }

  /** The retained row is the answer to this very request: the same cursors, under the current binding,
    * and nothing was offered since. */
  predicate StillAnswers(db: Db, input: RecordInput, retained: Id)
    requires retained in db.offers && input.scope.agentId in db.bindings
  {
    var offer := db.offers[retained];
    && IsTail(db.offers, input.scope.operationId, retained)
    && offer.input == input.input && offer.frontier == input.frontier && offer.epoch == db.bindings[input.scope.agentId].epoch
  }

  predicate Retains(db: Db, input: RecordInput, id: Id) {
    id in db.offers && SameInvocation(db.offers[id], input.scope.operationId, input.scope.incarnation, input.request)
  }

  /** The published row, as the request and the binding give it. */
  predicate PublishedAs(db: Db, next: Db, input: RecordInput, offerId: Id, now: nat)
    requires input.scope.agentId in db.bindings
  {
    && offerId !in db.offers && offerId in next.offers
    && var offer := next.offers[offerId];
       && offer.activation == input.scope.operationId && offer.incarnation == input.scope.incarnation
       && offer.request == input.request && offer.epoch == db.bindings[input.scope.agentId].epoch
       && offer.input == input.input && offer.frontier == input.frontier
       && offer.createdAt >= now && offer.acknowledgedAt.None?
  }

  ghost predicate PublicationLaw(
    db: Db, next: Db, input: RecordInput, current: Option<Entry>, offerId: Id, now: nat, reply: Result<Option<Id>, Refusal>)
  {
    && (reply.Ok? ==> MayPublish(db, input, current, now))
    && (next != db ==> reply.Ok? && reply.value.Some?)
    && next.bindings == db.bindings
    && (MayPublish(db, input, current, now) ==>
          && (forall id :: Retains(db, input, id) ==>
                && next == db && (reply.Ok? <==> StillAnswers(db, input, id)) && (reply.Ok? ==> reply.value == Some(id)))
          && ((forall id :: !Retains(db, input, id)) ==>
                && var unmoved := db.bindings[input.scope.agentId].cursor == Some(input.input);
                   && (reply == Ok(None) <==> unmoved && input.frontier == input.input)
                   && (reply == Ok(Some(offerId)) <==> unmoved && input.frontier != input.input && NonBlank(offerId) && offerId !in db.offers)
                   && (reply.Ok? ==> reply.value in {None, Some(offerId)})
                   && (reply.Ok? && reply.value.Some? ==>
                         PublishedAs(db, next, input, offerId, now) && IsTail(next.offers, input.scope.operationId, offerId))))
  }

  lemma GuardMeansMayPublish(db: Db, input: RecordInput, current: Option<Entry>, now: nat)
    ensures RecordGuard(db, input, current, now).None? <==> MayPublish(db, input, current, now)
  {
    if OfferAuthority(db, input.scope, current, now).None? { AuthorityNeedsBinding(db, input.scope, current, now); }
    hide OfferAuthority, IsCursor, CursorValue;
  }

  lemma RefusedWithoutGuard(db: Db, input: RecordInput, current: Option<Entry>, offerId: Id, now: nat)
    requires !MayPublish(db, input, current, now)
    ensures Record(db, input, current, offerId, now).Abort?
  {
    GuardMeansMayPublish(db, input, current, now);
    hide RecordGuard, MayPublish;
  }

  lemma RetainedAnswers(w: World, input: RecordInput, current: Option<Entry>, offerId: Id, now: nat, id: Id)
    requires Inv(w) && MayPublish(w.db, input, current, now) && Retains(w.db, input, id)
    ensures Record(w.db, input, current, offerId, now) == if StillAnswers(w.db, input, id) then Commit(w.db, Some(id)) else Abort(Superseded)
  {
    GuardMeansMayPublish(w.db, input, current, now);
    if StillAnswers(w.db, input, id) { TailRowAccepted(w, input.scope.operationId, id); }
    var prior := Prior(w.db.offers, input.scope.operationId, input.scope.incarnation, input.request);
    assert Clash(w.db.offers, prior.value, id);
    hide RecordGuard, MayPublish, InvocationsUnique;
  }

  lemma FreshAnswers(w: World, input: RecordInput, current: Option<Entry>, offerId: Id, now: nat)
    requires Inv(w) && MayPublish(w.db, input, current, now)
    requires forall id :: !Retains(w.db, input, id)
    ensures var tx := Record(w.db, input, current, offerId, now);
            var unmoved := w.db.bindings[input.scope.agentId].cursor == Some(input.input);
            && (tx.Commit? <==> unmoved && (input.frontier == input.input || (NonBlank(offerId) && offerId !in w.db.offers)))
            && (tx.Commit? && input.frontier == input.input ==> tx == Commit(w.db, None))
            && (tx.Commit? && input.frontier != input.input ==>
                  && tx.reply == Some(offerId) && tx.db.bindings == w.db.bindings
                  && PublishedAs(w.db, tx.db, input, offerId, now) && IsTail(tx.db.offers, input.scope.operationId, offerId))
  {
    GuardMeansMayPublish(w.db, input, current, now);
    var a := input.scope.operationId;
    var prior := Prior(w.db.offers, a, input.scope.incarnation, input.request);
    assert prior.None? || !Retains(w.db, input, prior.value);
    hide MayPublish, RecordGuard, Prior;
    if w.db.bindings[input.scope.agentId].cursor == Some(input.input) && input.frontier != input.input {
      RecordRefusedByConstraint(w, input, current, offerId, now);
      if NonBlank(offerId) && offerId !in w.db.offers { FreshOfferLands(w, input, current, offerId, now); }
    }
  }

  lemma FreshOfferLands(w: World, input: RecordInput, current: Option<Entry>, offerId: Id, now: nat)
    requires Inv(w) && MayPublish(w.db, input, current, now) && RecordGuard(w.db, input, current, now).None?
    requires Prior(w.db.offers, input.scope.operationId, input.scope.incarnation, input.request).None?
    requires w.db.bindings[input.scope.agentId].cursor == Some(input.input) && input.frontier != input.input
    requires NonBlank(offerId) && offerId !in w.db.offers
    ensures var tx := Record(w.db, input, current, offerId, now);
            && tx.Commit? && tx.reply == Some(offerId) && tx.db.bindings == w.db.bindings
            && PublishedAs(w.db, tx.db, input, offerId, now) && IsTail(tx.db.offers, input.scope.operationId, offerId)
  {
    var a := input.scope.operationId;
    FirstRecordCompacts(w, input, current, offerId, now);
    PublicationKeepsBindings(w, input, current, offerId, now);
    hide Record, RecordGuard, Prior, Inv, MayPublish, IsTail, WindowStart, Window;
    var entries := w.logs[a].entries + [Logged(offerId, NewOffer(w.db, input, Tail(w.db.offers, a), now))];
    NewestOfWindow(Record(w.db, input, current, offerId, now).db, a, entries, WindowStart(|entries|));
  }

  lemma NewestOfWindow(db: Db, a: Id, entries: seq<Logged>, start: nat)
    requires start < |entries| && Window(db, a, entries, start)
    ensures var last := entries[|entries| - 1];
            && last.id in db.offers && IsTail(db.offers, a, last.id)
            && db.offers[last.id] == last.offer.(predecessor := db.offers[last.id].predecessor)
  {
    hide IsTail, IsRoot;
    var i := |entries| - 1;
    assert db.offers[entries[i].id] == entries[i].offer.(predecessor := if i == start then None else Some(entries[i - 1].id));
  }

  lemma PublicationKeepsBindings(w: World, input: RecordInput, current: Option<Entry>, offerId: Id, now: nat)
    requires Inv(w) && Record(w.db, input, current, offerId, now).Commit? && offerId !in w.db.offers
    requires Record(w.db, input, current, offerId, now).reply == Some(offerId)
    requires input.scope.operationId in w.logs && input.scope.agentId in w.db.bindings
    ensures Record(w.db, input, current, offerId, now).db.bindings == w.db.bindings
  {
    RecordChanges(w, input, current, offerId, now);
    hide Record, Inv, Refines, Closed;
  }

  /** A request that is retained is answered by its own row if and only if that row is still the tail with
    * the same cursors; any other is published exactly from the worker's own cursor under an unused id. */
  lemma RequestsAreAnsweredOnce(w: World, input: RecordInput, current: Option<Entry>, offerId: Id, now: nat)
    requires Inv(w)
    ensures var tx := Record(w.db, input, current, offerId, now);
            PublicationLaw(w.db, After(w.db, tx), input, current, offerId, now, Answer(tx))
  {
    hide Record, Inv, OfferAuthority, IsCursor, CursorValue, SameInvocation, PublishedAs, StillAnswers, IsTail;
    if !MayPublish(w.db, input, current, now) {
      RefusedWithoutGuard(w.db, input, current, offerId, now);
    } else if id :| Retains(w.db, input, id) {
      forall id | Retains(w.db, input, id)
        ensures Record(w.db, input, current, offerId, now) == if StillAnswers(w.db, input, id) then Commit(w.db, Some(id)) else Abort(Superseded)
      {
        RetainedAnswers(w, input, current, offerId, now, id);
      }
    } else {
      FreshAnswers(w, input, current, offerId, now);
    }
  }

  // ----- committed cutovers -----

  predicate SameConfigs(db: Db, next: Db, agent: Id) {
    && next.configs.Keys == db.configs.Keys
    && forall other :: other in db.configs && other != agent ==> next.configs[other] == db.configs[other]
  }

  predicate SameBindings(db: Db, next: Db, agent: Id) {
    && next.bindings.Keys == db.bindings.Keys
    && forall other :: other in db.bindings && other != agent ==> next.bindings[other] == db.bindings[other]
  }

  predicate SameIngress(db: Db, next: Db, agent: Id) {
    && next.ingress.Keys == db.ingress.Keys
    && forall other :: other in db.ingress && other != agent ==> next.ingress[other] == db.ingress[other]
  }

  /** The delivery contract of the agent is the one the cutover leads to, under its next revision. */
  predicate ContractSwitched(db: Db, next: Db, c: Cutover) {
    && c.agentId in db.configs && c.agentId in next.configs
    && next.configs[c.agentId].mode == c.toMode
    && (next.configs[c.agentId].custodial <==> c.toMode == McpPolling)
    && next.configs[c.agentId].revision == db.configs[c.agentId].revision + 1
    && next.configs[c.agentId].runtimeRevision == db.configs[c.agentId].runtimeRevision
  }

  /** The newest checkpoint of the attempt is the cursor; nothing older is lost. */
  predicate CursorCheckpointed(db: Db, next: Db, attempt: Id, cursor: string) {
    && next.checkpoints.Keys == db.checkpoints.Keys + {attempt}
    && (forall other :: other in db.checkpoints && other != attempt ==> next.checkpoints[other] == db.checkpoints[other])
    && var saved := if attempt in db.checkpoints then db.checkpoints[attempt] else [];
       && |next.checkpoints[attempt]| == |saved| + 1 && saved <= next.checkpoints[attempt]
       && next.checkpoints[attempt][|saved|] == Some(cursor)
  }

  /** The table that delivers from now on stands at the cursor: the ingress row for a return to the daemon
    * inbox, the worker's binding, if there is one, for custodial polling. The other one is left alone. */
  predicate CursorReceived(db: Db, next: Db, c: Cutover, cursor: string)
    requires c.owned.Some?
  {
    if c.toMode == DaemonInbox then
      && next.bindings == db.bindings
      && c.agentId in next.ingress && next.ingress[c.agentId] == Ingress(c.owned.value.roomId, Some(cursor))
    else
      && next.ingress == db.ingress
      && (c.agentId in db.bindings ==>
            c.agentId in next.bindings && next.bindings[c.agentId] == db.bindings[c.agentId].(cursor := Some(cursor)))
  }

  predicate HandedOver(db: Db, next: Db, id: Id, cursor: string) {
    && id in db.cutovers && db.cutovers[id].owned.Some?
    && var c := db.cutovers[id];
       && SameConfigs(db, next, c.agentId) && SameBindings(db, next, c.agentId) && SameIngress(db, next, c.agentId)
       && ContractSwitched(db, next, c)
       && CursorCheckpointed(db, next, c.owned.value.native.workAttemptId, cursor)
       && CursorReceived(db, next, c, cursor)
       && next.cutovers.Keys == db.cutovers.Keys
       && next.cutovers[id] == c.(phase := CutComplete, updatedAt := next.cutovers[id].updatedAt)
       && (forall other :: other in db.cutovers && other != id ==> next.cutovers[other] == db.cutovers[other])
       && next.activations == db.activations && next.offers == db.offers && next.context == db.context
  }

  /** The drained runtime is still the agent's own and its newest, under the applied contract the cutover
    * leaves, and nothing else controls the agent. A detached runtime has no deployment to compare. */
  predicate DrainHolds(db: Db, c: Cutover, current: Option<Entry>, mayBeDetached: bool)
    requires c.owned.Some?
  {
    var native := c.owned.value.native;
    && EntryRuns(current, c.agentId, c.owned.value.roomId, native.workAttemptId, c.fromMode)
    && (match current.value.ref
        case None => mayBeDetached && c.toMode == McpPolling
        case Some(ref) =>
          && ref.workAttemptId == native.workAttemptId && ref.generationId == c.generationId
          && ref.continuationId == native.continuationId
          && ref.connection == Some(Connection(CodexAppServer, native.url, Some(native.pid), Some(native.processIdentity))))
    && NewestExecution(db, native.workAttemptId, c.generationId)
    && c.agentId in db.configs && (db.configs[c.agentId].custodial <==> c.fromMode == McpPolling)
    && db.configs[c.agentId].runtimeRevision == Some(db.configs[c.agentId].revision)
    && c.agentId !in db.context.conflicts
  }

  lemma DrainAuthorityHolds(db: Db, c: Cutover, current: Option<Entry>, mayBeDetached: bool)
    requires OwnedShape(c) && DrainAuthority(db, c, current, mayBeDetached)
    ensures DrainHolds(db, c, current, mayBeDetached)
  {
    hide PreActivation, AckCursor;
    var newest := GenerationOf(db, c.owned.value.native.workAttemptId, c.generationId).value;
    forall key | key in db.context.executions && key.0 == c.owned.value.native.workAttemptId
      ensures db.context.executions[key].generation <= newest
    {
      assert !HasSuccessor(db, c.owned.value.native.workAttemptId, newest);
    }
  }

  /** The position a ready drain stands at: the worker's own cursor on the way back to the daemon inbox,
    * the ingress cursor on the way to custodial polling. */
  predicate StandsAt(db: Db, c: Cutover, cursor: string) {
    && IsCursor(cursor)
    && if c.toMode == DaemonInbox then c.agentId in db.bindings && db.bindings[c.agentId].cursor == Some(cursor)
       else c.agentId in db.ingress && db.ingress[c.agentId].cursor == Some(cursor)
  }

  /** The result of the item's turn is on record for the drained runtime, as the item itself has it. */
  predicate ResultOnRecord(db: Db, c: Cutover, id: Id, item: Item, kind: string) {
    && item.outcome.Some? && item.outcome.value.ItemOutcome? && item.outcome.value.kind == kind
    && id in db.context.terminals
    && db.context.terminals[id] == TerminalResult(c.agentId, c.generationId, item.turnId, item.outcome.value)
  }

  /** The item was acknowledged on a turn of the drained runtime, and how it ended is on record: a native
    * failure, a cancellation by the user, a result without a reply, or a reply that was published. */
  predicate EndedOnRecord(db: Db, c: Cutover, id: Id)
    requires c.owned.Some?
  {
    && id in db.context.inbox
    && var item := db.context.inbox[id]; var native := c.owned.value.native;
       && item.turnId.Some? && id in db.context.turnBindings
       && db.context.turnBindings[id] ==
          TurnBinding(c.agentId, c.owned.value.roomId, item.turnId.value, native.workAttemptId, c.generationId, native.continuationId)
       && item.acknowledgedAt.Some? && item.terminalReason.None?
       && (item.state == AcknowledgedFailed <==> id in db.context.nativeFailures)
       && match item.state
          case AcknowledgedFailed => true
          case CancelledByUser => true
          case AcknowledgedNoReply => ResultOnRecord(db, c, id, item, "no_reply") && item.outcome.value.text == None
          case Acknowledged =>
            && ResultOnRecord(db, c, id, item, "reply") && item.outcome.value.text.Some? && NonBlank(item.outcome.value.text.value)
            && id in db.context.publications
            && var p := db.context.publications[id];
               && p.agentId == c.agentId && p.roomId == c.owned.value.roomId && p.clientMessageId == item.replyId
               && NonBlank(p.canonicalMessageId)
          case _ => false
  }

  /** What the drain let continue, if anything, ended on record. */
  predicate AdmittedEnded(db: Db, c: Cutover) {
    c.owned.Some? && (c.owned.value.admitted.Some? ==> EndedOnRecord(db, c, c.owned.value.admitted.value.itemId))
  }

  /** Either nothing changed, or the stopped drain of the agent was handed over where it stood, with
    * nothing of its agent unfinished or unsettled. */
  ghost predicate CommitLaw(db: Db, next: Db, id: Id, agent: Id, current: Option<Entry>, reply: Result<Cutover, Refusal>) {
    if reply.Err? then next == db
    else
      && id in db.cutovers && db.cutovers[id].agentId == agent && BlocksRuntime(db.cutovers[id])
      && OwnedShape(db.cutovers[id]) && DrainHolds(db, db.cutovers[id], current, true)
      && (exists cursor :: StandsAt(db, db.cutovers[id], cursor) && HandedOver(db, next, id, cursor))
      && reply.value == next.cutovers[id] && AdmittedEnded(db, db.cutovers[id])
      && !UnsettledEffects(db, agent) && forall item :: item in db.context.inbox ==> !Awaits(db, agent, item)
  }

  lemma TransferReceived(db: Db, c: Cutover, cursor: string)
    requires OwnedShape(c)
    requires IsForward(c) ==> c.agentId in db.ingress && db.ingress[c.agentId].roomId == c.owned.value.roomId
    ensures var next := Transferred(db, c, cursor);
            && CursorReceived(db, next, c, cursor) && SameBindings(db, next, c.agentId) && SameIngress(db, next, c.agentId)
            && next == db.(ingress := next.ingress, bindings := next.bindings)
  {
  }

  lemma CheckpointAppended(db: Db, attempt: Id, cursor: string)
    ensures var next := Checkpointed(db, attempt, cursor);
            CursorCheckpointed(db, next, attempt, cursor) && next == db.(checkpoints := next.checkpoints)
  {
  }

  lemma ContractWritten(db: Db, c: Cutover)
    requires c.agentId in db.configs
    ensures var next := Switched(db, c);
            ContractSwitched(db, next, c) && SameConfigs(db, next, c.agentId) && next == db.(configs := next.configs)
  {
  }

  /** The handover leaves every table as the new contract needs it. */
  lemma WritesHandOver(db: Db, id: Id, cursor: string, now: nat)
    requires id in db.cutovers && OwnedShape(db.cutovers[id]) && db.cutovers[id].agentId in db.configs
    requires IsForward(db.cutovers[id]) ==>
               db.cutovers[id].agentId in db.ingress
               && db.ingress[db.cutovers[id].agentId].roomId == db.cutovers[id].owned.value.roomId
    ensures var c := db.cutovers[id];
            HandedOver(db, SetCutover(Switched(Checkpointed(Transferred(db, c, cursor), c.owned.value.native.workAttemptId, cursor), c),
                                      id, MovedTo(c, CutComplete, now)), id, cursor)
  {
    var c := db.cutovers[id];
    var moved := Transferred(db, c, cursor);
    var saved := Checkpointed(moved, c.owned.value.native.workAttemptId, cursor);
    TransferReceived(db, c, cursor);
    CheckpointAppended(moved, c.owned.value.native.workAttemptId, cursor);
    ContractWritten(saved, c);
    hide Transferred, Checkpointed, Switched, OwnedShape, IsForward;
  }

  lemma CommittedStandsAt(w: World, next: World, id: Id, cursor: string)
    requires CutoverCommitted(w, next, id, cursor)
    ensures StandsAt(w.db, w.db.cutovers[id], cursor)
    ensures var c := w.db.cutovers[id];
            IsForward(c) ==> c.agentId in w.db.ingress && w.db.ingress[c.agentId].roomId == c.owned.value.roomId
  {
    hide PreActivation, Switched, Checkpointed, Transferred;
    var c := w.db.cutovers[id];
    if IsForward(c) { assert AckCursor(w.db, c) == Ok(cursor); }
  }

  /** A committed cutover leaves the delivery contract it was made for, and delivery where it stood. */
  lemma CommittedContractSwitched(w: World, next: World, id: Id, cursor: string)
    requires CutoverCommitted(w, next, id, cursor)
    ensures HandedOver(w.db, next.db, id, cursor) && StandsAt(w.db, w.db.cutovers[id], cursor)
  {
    CommittedStandsAt(w, next, id, cursor);
    var c := w.db.cutovers[id];
    var now :| next == w.(db := SetCutover(
      Switched(Checkpointed(Transferred(w.db, c, cursor), c.owned.value.native.workAttemptId, cursor), c),
      id, MovedTo(c, CutComplete, now)));
    WritesHandOver(w.db, id, cursor, now);
  }

  /** A drain whose admitted item is finished, with no other work left, has an answer if and only if that
    * item ended on record; it is then ready exactly when the effects of its agent are settled. */
  lemma FinishedItemNeedsRecord(db: Db, id: Id)
    requires OwnedDrain(db, id) && TransferCursor(db, db.cutovers[id]).Ok? && !OtherWork(db, db.cutovers[id])
    requires db.cutovers[id].owned.value.admitted.Some? && AdmittedIntact(db, db.cutovers[id])
    requires !Unfinished(db.context.inbox[db.cutovers[id].owned.value.admitted.value.itemId])
    ensures var c := db.cutovers[id];
            if EndedOnRecord(db, c, c.owned.value.admitted.value.itemId)
            then ReadinessOf(db, id).Ok? && ReadinessOf(db, id).value.status == (if UnsettledEffects(db, c.agentId) then Waiting else Ready)
            else ReadinessOf(db, id) == Err(ReceiptMissing)
  {
    hide TransferCursor, OtherWork, UnsettledEffects, AllowsAdmission, OwnedShape;
  }

  /** A ready drain has nothing left to wait for, and what it let continue ended on record. */
  lemma ReadyMeansSettled(db: Db, id: Id)
    ensures ReadyCursor(db, id).Ok? ==>
              && OwnedDrain(db, id) && !UnsettledEffects(db, db.cutovers[id].agentId)
              && AdmittedEnded(db, db.cutovers[id])
              && forall item :: item in db.context.inbox ==> !Awaits(db, db.cutovers[id].agentId, item)
  {
    hide PreActivation, AckCursor;
    if ReadyCursor(db, id).Ok? { NothingAwaitsWhenReady(db, id); }
  }

  /** An answered stop intent is recorded once, over an agent with nothing unfinished or unsettled. */
  ghost predicate StopLaw(
    db: Db, next: Db, id: Id, agent: Id, boundary: Boundary, current: Option<Entry>, reply: Result<Cutover, Refusal>)
  {
    && CutoverAnswered(db, next, id, agent, reply)
    && (reply.Ok? ==>
          && CutoverUnresolved(db.cutovers[id]) && BlocksRuntime(reply.value)
          && OwnedShape(reply.value) && DrainHolds(db, db.cutovers[id], current, false)
          && IdleAt(boundary, reply.value.owned.value.native)
          && (BlocksRuntime(db.cutovers[id]) ==> next == db) && AdmittedEnded(db, db.cutovers[id])
          && !UnsettledEffects(db, agent) && forall item :: item in db.context.inbox ==> !Awaits(db, agent, item))
  }

  lemma StopIntentIsExact(
    db: Db, id: Id, agent: Id, handle: Handle, boundary: Boundary, current: Option<Entry>, now: nat)
    ensures var tx := DispatchDrain(db, id, agent, handle, boundary, current, now);
            StopLaw(db, After(db, tx), id, agent, boundary, current, Answer(tx))
  {
    ReadyMeansSettled(db, id);
    if DispatchDrain(db, id, agent, handle, boundary, current, now).Commit? { DrainAuthorityHolds(db, db.cutovers[id], current, false); }
    hide ReadyCursor, UnsettledEffects, Awaits, IdleAt, DrainHolds, PreActivation, AckCursor, AdmittedEnded;
  }

  /** A commit hands an agent over completely, or not at all. */
  lemma CommitHandsOver(w: World, id: Id, agent: Id, current: Option<Entry>, now: nat)
    ensures var tx := CommitDrain(w.db, id, agent, current, now);
            CommitLaw(w.db, After(w.db, tx), id, agent, current, Answer(tx))
  {
    var tx := CommitDrain(w.db, id, agent, current, now);
    if tx.Commit? {
      CommitCutoverChanges(w, id, agent, current, now);
      CommittedContractSwitched(w, Landed(w, tx), id, ReadyCursor(w.db, id).value);
      ReadyMeansSettled(w.db, id);
      DrainAuthorityHolds(w.db, w.db.cutovers[id], current, true);
    }
    hide CutoverCommitted, ReadyCursor, HandedOver, StandsAt, DrainAuthority, DrainHolds, AdmittedEnded;
  }

  // ----- admission under a drain -----

  /** The item was in flight at the head of the queue when the drain was drafted. */
  predicate WasInFlight(drafted: Db, head: Option<Id>, id: Id) {
    && head == Some(id) && id in drafted.context.inbox
    && (drafted.context.inbox[id].turnId.Some? || drafted.context.inbox[id].state == ItemDispatching)
  }

  /** Nothing shows that the head of the queue has left it. */
  predicate StillQueued(drafted: Db, head: Option<Id>) {
    head.Some? && head.value in drafted.context.inbox ==>
      var item := drafted.context.inbox[head.value];
      && item.turnId.None? && item.outcome.None?
      && item.state !in {ItemDispatching, AwaitingResult, ResultRecovery, Publishing}
  }

  /** The item's turn is durably bound to the runtime the drain was requested for. */
  predicate TurnOfDrained(db: Db, input: DrainInput, id: Id, turn: Id) {
    && id in db.context.turnBindings && input.handle.continuationId.Some?
    && db.context.turnBindings[id] ==
       TurnBinding(input.agentId, input.roomId, turn, input.handle.workAttemptId, input.generationId, input.handle.continuationId.value)
  }

  /** The item is the one that was in flight, under its own ids, still dispatching or on a turn of the
    * drained runtime. */
  predicate MayContinue(drafted: Db, db: Db, input: DrainInput, head: Option<Id>, id: Id, item: Item) {
    && WasInFlight(drafted, head, id)
    && var was := drafted.context.inbox[id];
       && item.roomId == was.roomId && item.sourceId == was.sourceId && item.actionId == was.actionId
       && match item.turnId
          case None => item.state == ItemDispatching
          case Some(turn) => TurnOfDrained(db, input, id, turn)
  }

  /** The row a request creates, field by field. */
  ghost predicate DraftedAs(db: Db, input: DrainInput, reverse: Option<Id>, head: Option<Id>, c: Cutover) {
    && OwnedShape(c) && c.phase == Draining && c.requestId == input.requestId && c.agentId == input.agentId
    && c.generationId == input.generationId && c.predecessor == reverse && (reverse.Some? <==> c.toMode == DaemonInbox)
    && NativeIdentity(input.handle) == Some(c.owned.value.native) && c.owned.value.roomId == input.roomId
    && match c.owned.value.admitted
       case Some(admitted) =>
         && WasInFlight(db, head, admitted.itemId)
         && var was := db.context.inbox[admitted.itemId];
            && admitted.sourceId == was.sourceId && admitted.actionId == was.actionId && was.roomId == input.roomId
            && c.owned.value.nativeTarget == was.turnId
            && (match was.turnId
                case Some(turn) => TurnOfDrained(db, input, admitted.itemId, turn)
                case None => was.outcome.None?)
       case None => StillQueued(db, head) && c.owned.value.nativeTarget.None?
  }

  lemma DraftIsExact(
    db: Db, input: DrainInput, native: Native, current: Option<Entry>, reverse: Option<Id>, head: Option<Id>, now: nat)
    requires HeadChoice(db, input.agentId, head) && NativeIdentity(input.handle) == Some(native)
    requires Draft(db, input, native, current, reverse, head, now).Ok?
    ensures DraftedAs(db, input, reverse, head, Draft(db, input, native, current, reverse, head, now).value)
    ensures !HasUnresolvedDrain(db, input.agentId)
  {
    hide PreActivation, AckCursor, UnsettledEffects;
  }

  /** A request creates its row beside the others, or changes nothing. */
  ghost predicate PreparationLaw(
    db: Db, next: Db, input: DrainInput, reverse: Option<Id>, head: Option<Id>, reply: Result<DrainReply, Refusal>)
  {
    if reply.Ok? && reply.value.created then
      && DraftedAs(db, input, reverse, head, reply.value.cutover)
      && input.operationId !in db.cutovers
      && next == db.(cutovers := db.cutovers[input.operationId := reply.value.cutover])
    else next == db
  }

  lemma PreparationDrafts(
    db: Db, input: DrainInput, current: Option<Entry>, reverse: Option<Id>, head: Option<Id>, now: nat)
    requires HeadChoice(db, input.agentId, head)
    ensures var tx := PrepareDrain(db, input, current, reverse, head, now);
            PreparationLaw(db, After(db, tx), input, reverse, head, Answer(tx))
  {
    var tx := PrepareDrain(db, input, current, reverse, head, now);
    if tx.Commit? && tx.reply.created {
      DraftIsExact(db, input, NativeIdentity(input.handle).value, current, reverse, head, now);
    }
    hide Draft, DraftedAs;
  }

  lemma FirstStep(w: World, input: DrainInput, current: Option<Entry>, reverse: Option<Id>, head: Option<Id>, now: nat)
    requires HeadChoice(w.db, input.agentId, head)
    requires var tx := PrepareDrain(w.db, input, current, reverse, head, now); tx.Commit? && tx.reply.created
    ensures var c := PrepareDrain(w.db, input, current, reverse, head, now).reply.cutover;
            && Step(w, PrepareCutover(input, current, reverse, head, now)) ==
               w.(db := w.db.(cutovers := w.db.cutovers[input.operationId := c]))
            && DraftedAs(w.db, input, reverse, head, c)
  {
    PreparationDrafts(w.db, input, current, reverse, head, now);
    hide Draft, DraftedAs;
  }

  /** The drain created by a request, after any run. */
  lemma DrainAfterRun(
    w: World, input: DrainInput, current: Option<Entry>, reverse: Option<Id>, head: Option<Id>, now: nat, events: seq<Event>)
      returns (c: Cutover)
    requires Inv(w) && HeadChoice(w.db, input.agentId, head)
    requires var tx := PrepareDrain(w.db, input, current, reverse, head, now); tx.Commit? && tx.reply.created
    ensures DraftedAs(w.db, input, reverse, head, c)
    ensures var end := Run(Step(w, PrepareCutover(input, current, reverse, head, now)), events);
            && Inv(end) && input.operationId in end.db.cutovers
            && end.db.cutovers[input.operationId] ==
               c.(phase := end.db.cutovers[input.operationId].phase, updatedAt := end.db.cutovers[input.operationId].updatedAt)
  {
    FirstStep(w, input, current, reverse, head, now);
    c := PrepareDrain(w.db, input, current, reverse, head, now).reply.cutover;
    hide Step, Inv, PrepareDrain, DraftedAs, HeadChoice;
    var e := PrepareCutover(input, current, reverse, head, now);
    var first := Step(w, e);
    StepKeepsInv(w, e);
    RunIsLater(first, events);
    assert CutoverLater(first.db.cutovers[input.operationId], Run(first, events).db.cutovers[input.operationId]);
  }

  lemma GateOfDrain(drafted: Db, db: Db, input: DrainInput, reverse: Option<Id>, head: Option<Id>, c: Cutover, id: Id, item: Item)
    requires DraftedAs(drafted, input, reverse, head, c) && item.agentId == input.agentId
    requires OneUnresolvedDrain(db) && input.operationId in db.cutovers
    requires var now := db.cutovers[input.operationId];
             CutoverUnresolved(now) && now == c.(phase := now.phase, updatedAt := now.updatedAt)
    ensures AllowsAdmission(db, id, item) <==>
              !BlocksRuntime(db.cutovers[input.operationId]) && MayContinue(drafted, db, input, head, id, item)
  {
    assert HasUnresolvedDrain(db, input.agentId);
    assert OpenDrain(db, input.agentId) == Some(input.operationId);
    hide OneUnresolvedDrain, HasUnresolvedDrain, OpenDrain;
    var native := c.owned.value.native;
    assert native.workAttemptId == input.handle.workAttemptId && Some(native.continuationId) == input.handle.continuationId;
    var row := db.cutovers[input.operationId];
    assert BlocksRuntime(row) || row.phase.CutPrepared? || row.phase.Draining?;
    if c.owned.value.admitted.None? { assert !WasInFlight(drafted, head, id); }
  }

  /** After any run the gate of a drain that is still open lets exactly the item through that was in
    * flight at the head of the queue when the drain was drafted, for as long as it keeps its ids and is
    * dispatching without a turn or on a turn bound to the drained runtime; a stopped drain lets nothing
    * through. */
  lemma AdmissionOverRuns(
    w: World, input: DrainInput, current: Option<Entry>, reverse: Option<Id>, head: Option<Id>, now: nat, events: seq<Event>,
    id: Id, item: Item)
    requires Inv(w) && HeadChoice(w.db, input.agentId, head) && item.agentId == input.agentId
    requires var tx := PrepareDrain(w.db, input, current, reverse, head, now); tx.Commit? && tx.reply.created
    ensures var end := Run(Step(w, PrepareCutover(input, current, reverse, head, now)), events);
            && input.operationId in end.db.cutovers
            && (CutoverUnresolved(end.db.cutovers[input.operationId]) ==>
                  (AllowsAdmission(end.db, id, item) <==>
                     !BlocksRuntime(end.db.cutovers[input.operationId]) && MayContinue(w.db, end.db, input, head, id, item)))
  {
    var c := DrainAfterRun(w, input, current, reverse, head, now, events);
    var end := Run(Step(w, PrepareCutover(input, current, reverse, head, now)), events);
    hide Run, Step, PrepareDrain, HeadChoice, DraftedAs, AllowsAdmission, MayContinue;
    if CutoverUnresolved(end.db.cutovers[input.operationId]) { GateOfDrain(w.db, end.db, input, reverse, head, c, id, item); }
  }

  /** Right after it was drafted a drain admits its in-flight head and no other item of the agent. */
  lemma DraftedDrainAdmitsItsHeadAlone(
    w: World, input: DrainInput, current: Option<Entry>, reverse: Option<Id>, head: Option<Id>, now: nat, id: Id)
    requires Inv(w) && HeadChoice(w.db, input.agentId, head)
    requires var tx := PrepareDrain(w.db, input, current, reverse, head, now); tx.Commit? && tx.reply.created
    requires id in w.db.context.inbox && w.db.context.inbox[id].agentId == input.agentId
    ensures var after := Step(w, PrepareCutover(input, current, reverse, head, now)).db;
            && after.context == w.db.context
            && (AllowsAdmission(after, id, w.db.context.inbox[id]) <==> WasInFlight(w.db, head, id))
  {
    FirstStep(w, input, current, reverse, head, now);
    hide Step, PrepareDrain, HeadChoice, AllowsAdmission, Inv, TurnOfDrained;
    AdmissionOverRuns(w, input, current, reverse, head, now, [], id, w.db.context.inbox[id]);
  }

  lemma QueuedBehindDrain(drafted: Db, db: Db, input: DrainInput, reverse: Option<Id>, head: Option<Id>, c: Cutover)
    requires DraftedAs(drafted, input, reverse, head, c)
    requires OneUnresolvedDrain(db) && input.operationId in db.cutovers
    requires var now := db.cutovers[input.operationId];
             now.phase in {CutPrepared, Draining} && now == c.(phase := now.phase, updatedAt := now.updatedAt)
    requires ReadinessOf(db, input.operationId).Ok?
    ensures ReadinessOf(db, input.operationId).value.status == Queued <==>
              exists id :: id in db.context.inbox && Awaits(db, input.agentId, id)
                           && !MayContinue(drafted, db, input, head, id, db.context.inbox[id])
  {
    assert db.cutovers[input.operationId].agentId == input.agentId;
    hide AllowsAdmission, MayContinue, ReadinessOf, DraftedAs, OneUnresolvedDrain;
    ReadinessAgreesWithAdmission(db, input.operationId);
    forall id | id in db.context.inbox && Awaits(db, input.agentId, id)
      ensures AllowsAdmission(db, id, db.context.inbox[id]) <==>
                MayContinue(drafted, db, input, head, id, db.context.inbox[id])
    {
      GateOfDrain(drafted, db, input, reverse, head, c, id, db.context.inbox[id]);
    }
  }

  /** After any run an open drain is `queued` exactly when some unfinished item of its agent is not the one
    * it let continue. */
  lemma ReadinessOverRuns(
    w: World, input: DrainInput, current: Option<Entry>, reverse: Option<Id>, head: Option<Id>, now: nat, events: seq<Event>)
    requires Inv(w) && HeadChoice(w.db, input.agentId, head)
    requires var tx := PrepareDrain(w.db, input, current, reverse, head, now); tx.Commit? && tx.reply.created
    requires var end := Run(Step(w, PrepareCutover(input, current, reverse, head, now)), events);
             && input.operationId in end.db.cutovers && end.db.cutovers[input.operationId].phase in {CutPrepared, Draining}
             && ReadinessOf(end.db, input.operationId).Ok?
    ensures var end := Run(Step(w, PrepareCutover(input, current, reverse, head, now)), events);
            ReadinessOf(end.db, input.operationId).value.status == Queued <==>
              exists id :: id in end.db.context.inbox && Awaits(end.db, input.agentId, id)
                           && !MayContinue(w.db, end.db, input, head, id, end.db.context.inbox[id])
  {
    var c := DrainAfterRun(w, input, current, reverse, head, now, events);
    var end := Run(Step(w, PrepareCutover(input, current, reverse, head, now)), events);
    hide Run, Step, PrepareDrain, HeadChoice, DraftedAs, AllowsAdmission, MayContinue, ReadinessOf;
    assert OneUnresolvedDrain(end.db);
    hide Inv;
    QueuedBehindDrain(w.db, end.db, input, reverse, head, c);
  }
}
