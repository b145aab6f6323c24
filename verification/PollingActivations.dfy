/**
  * The custodial polling activation journal: one row per explicit operator activation, from
  * `Prepared` through a dispatched native turn to a terminal outcome.
  * Every exported operation is one transaction on a snapshot of the tables.
  */
module PollingActivations {
  import opened CustodyTables
  import opened Text
  import opened Wrappers

  // ----- the constraints declared with the table -----

  /** The CHECK clauses over the identity columns. */
  predicate IdentityAccepted(id: Id, i: ActivationIdentity) {
    && NonBlank(id) && NonBlank(i.requestId) && NonBlank(i.agentId) && NonBlank(i.roomId)
    && NonBlank(i.generationId) && NonBlank(i.reverseOperationId) && NonBlank(i.sessionId)
    && NonBlank(i.native.workAttemptId) && NonBlank(i.native.continuationId)
    && NonBlank(i.native.processIdentity) && i.native.pid > 0
    && i.configRevision > 0
    && IsCursor(i.roomCursor)
  }

  /** The CHECK clauses of the table. */
  predicate RowAccepted(id: Id, a: Activation) {
    && IdentityAccepted(id, a.identity)
    && (a.turnId.Some? ==> NonBlank(a.turnId.value))
    && a.identity.createdAt <= a.updatedAt
    && (a.compactedThrough.Some? ==> NonBlank(a.compactedThrough.value))
    && (a.phase == Complete <==> a.outcome.Some?)
    && (a.phase in {Prepared, Dispatching, Cancelled} ==> a.turnId.None?)
    && (a.phase == Active ==> a.turnId.Some?)
    && (a.phase == Complete ==> a.outcome == Some(Lost) || a.turnId.Some?)
  }

  predicate PhaseEdge(a: ActivationPhase, b: ActivationPhase) {
    match a
    case Prepared => b in {Dispatching, Cancelled}
    case Dispatching => b in {Active, Uncertain, Complete}
    case Active => b in {Uncertain, Complete}
    case Uncertain => b in {Active, Complete}
    case Complete => false
    case Cancelled => false
  }

  /** The identity and the phase trigger both let this update through. */
  predicate UpdateAccepted(a: Activation, b: Activation) {
    && a.identity == b.identity
    && (a.turnId != b.turnId ==>
          a.turnId.None? && b.turnId.Some? && a.phase in {Dispatching, Uncertain} && b.phase == Active)
    && (a.phase != b.phase ==> PhaseEdge(a.phase, b.phase))
    && (a.phase in {Complete, Cancelled} ==> a.outcome == b.outcome && a.updatedAt == b.updatedAt)
  }

  /** The unique index over native turns. */
  predicate NativeTurnFree(db: Db, id: Id, a: Activation) {
    a.turnId.Some? ==>
      forall other :: other in db.activations && other != id ==>
        var b := db.activations[other];
        !(b.identity.agentId == a.identity.agentId && b.identity.generationId == a.identity.generationId
          && b.identity.native.continuationId == a.identity.native.continuationId && b.turnId == a.turnId)
  }

  // ----- authority -----

  predicate MatchesRuntime(a: Activation, current: Entry, handle: Option<Handle>) {
    && current.id == a.identity.agentId && current.roomId == a.identity.roomId && current.provider == Codex
    && ModeOf(current) == McpPolling && current.workAttemptId == Some(a.identity.native.workAttemptId)
    && current.ref.Some?
    && current.ref.value.generationId == a.identity.generationId
    && current.ref.value.launchSession == Some(a.identity.sessionId)
    && RefNative(current.ref.value) == Some(a.identity.native)
    && (handle.Some? ==>
          && (handle.value.launchSession.None? || handle.value.launchSession == Some(a.identity.sessionId))
          && NativeIdentity(handle.value) == Some(a.identity.native))
  }

  predicate NoOtherControl(db: Db, agent: Id, current: Entry) {
    && !current.cutoverPresent
    && !HasUnresolvedDrain(db, agent)
    && agent !in db.context.conflicts
  }

  /** The worker binding still belongs to the activation, at its frozen cursor until dispatch. */
  predicate WorkerBound(db: Db, a: Activation) {
    && a.identity.agentId in db.bindings
    && var b := db.bindings[a.identity.agentId];
       && b.roomId == a.identity.roomId && b.workAttemptId == a.identity.native.workAttemptId
       && b.generationId == a.identity.generationId && b.sessionId == a.identity.sessionId
       && (a.phase == Prepared ==> b.cursor == Some(a.identity.roomCursor))
  }

  predicate CurrentAuthority(db: Db, a: Activation, current: Option<Entry>, terminal: bool) {
    && current.Some?
    && var entry := current.value;
       && entry.id == a.identity.agentId && entry.roomId == a.identity.roomId && entry.provider == Codex
       && ModeOf(entry) == McpPolling && entry.workAttemptId == Some(a.identity.native.workAttemptId)
       && (terminal || (entry.running && entry.conditionNone))
       && ((terminal && entry.ref.None?) || MatchesRuntime(a, entry, None))
       && (a.identity.native.workAttemptId, a.identity.generationId) in db.context.executions
       && (var execution := db.context.executions[(a.identity.native.workAttemptId, a.identity.generationId)];
           && (terminal || !execution.terminal)
           && !HasSuccessor(db, a.identity.native.workAttemptId, execution.generation))
       && a.identity.agentId in db.configs
       && (var config := db.configs[a.identity.agentId];
           && config.custodial && config.revision == a.identity.configRevision
           && config.runtimeRevision == Some(a.identity.configRevision))
       && (terminal || (WorkerBound(db, a) && NoOtherControl(db, a.identity.agentId, entry)))
  }

  // ----- transactions -----

  datatype PrepareInput = PrepareInput(
    operationId: Id, requestId: Id, agentId: Id, roomId: Id, generationId: Id, reverseOperationId: Id,
    handle: Handle, boundary: Boundary)

  datatype PrepareReply = PreparedActivation(created: bool, activation: Activation)

  /** The completed reverse cutover an activation must descend from. */
  predicate CompletedReverse(db: Db, id: Id, agent: Id, room: Id, attempt: Id) {
    && id in db.cutovers
    && var c := db.cutovers[id];
       && c.agentId == agent && c.owned.Some? && c.owned.value.roomId == room
       && c.owned.value.native.workAttemptId == attempt
       && c.fromMode == DaemonInbox && c.toMode == McpPolling && c.strategy == Drain && c.phase == CutComplete
  }

  predicate SuccessorRuntime(db: Db, attempt: Id, earlier: Id, later: Id) {
    && (attempt, earlier) in db.context.executions && (attempt, later) in db.context.executions
    && earlier != later
    && db.context.executions[(attempt, later)].generation > db.context.executions[(attempt, earlier)].generation
  }

  predicate SameActivationRequest(id: Id, a: Activation, input: PrepareInput, native: Native) {
    && id == input.operationId && a.identity.requestId == input.requestId && a.identity.agentId == input.agentId
    && a.identity.roomId == input.roomId && a.identity.generationId == input.generationId
    && a.identity.reverseOperationId == input.reverseOperationId && a.identity.native == native
    && (input.handle.launchSession.None? || input.handle.launchSession == Some(a.identity.sessionId))
    && (input.handle.appliedRevision.None? || input.handle.appliedRevision == Some(a.identity.configRevision))
  }

  predicate RequestKnown(db: Db, input: PrepareInput) {
    input.operationId in db.activations
    || exists id :: id in db.activations && db.activations[id].identity.requestId == input.requestId
  }

  function FreshActivation(db: Db, input: PrepareInput, native: Native, now: nat): Activation
    requires input.agentId in db.configs && input.agentId in db.bindings
    requires db.bindings[input.agentId].cursor.Some?
  {
    Activation(
      ActivationIdentity(
        input.requestId, input.agentId, input.roomId, input.generationId, input.reverseOperationId, native,
        db.configs[input.agentId].revision, db.bindings[input.agentId].sessionId,
        db.bindings[input.agentId].cursor.value, now),
      Prepared, None, None, now, None)
  }

  /** A worker binding with a numeric acknowledged cursor under an applied configuration. */
  predicate PreparableWorker(db: Db, input: PrepareInput) {
    && input.agentId in db.configs && input.agentId in db.bindings
    && db.bindings[input.agentId].cursor.Some? && IsCursor(db.bindings[input.agentId].cursor.value)
    && NonBlank(db.bindings[input.agentId].sessionId)
    && (input.handle.appliedRevision.None? || input.handle.appliedRevision == Some(db.configs[input.agentId].revision))
  }

  function Prepare(db: Db, input: PrepareInput, current: Option<Entry>, now: nat): Tx<PrepareReply> {
    if exists s :: s in [input.operationId, input.requestId, input.agentId, input.roomId, input.generationId,
                         input.reverseOperationId] && !NonBlank(s)
    then Abort(BlankCoordinates)
    else match NativeIdentity(input.handle)
      case None => Abort(NotAuthenticated)
      case Some(native) =>
        if !IdleAt(input.boundary, native) then Abort(NotIdle)
        else if RequestKnown(db, input) then
          if input.operationId in db.activations
             && SameActivationRequest(input.operationId, db.activations[input.operationId], input, native)
          then Commit(db, PreparedActivation(false, db.activations[input.operationId]))
          else Abort(BoundElsewhere)
        else if !CompletedReverse(db, input.reverseOperationId, input.agentId, input.roomId, native.workAttemptId)
             || !SuccessorRuntime(db, native.workAttemptId, db.cutovers[input.reverseOperationId].generationId, input.generationId)
        then Abort(NoPredecessor)
        else if !PreparableWorker(db, input) then Abort(ConfigurationChanged)
        else
          var a := FreshActivation(db, input, native, now);
          if !CurrentAuthority(db, a, current, false) then Abort(AuthorityLost)
          else if !MatchesRuntime(a, current.value, Some(input.handle)) then Abort(AuthorityLost)
          else if HasUnresolvedActivation(db, input.agentId) then Abort(UnresolvedActivation)
          else if !RowAccepted(input.operationId, a) then Abort(ConstraintFailed)
          else Commit(db.(activations := db.activations[input.operationId := a]), PreparedActivation(true, a))
  }

  predicate OwnedActivation(db: Db, id: Id, agent: Id) {
    id in db.activations && db.activations[id].identity.agentId == agent
  }

  /** Writes one row; the unique native-turn index is the only constraint that can refuse it. */
  function Update(db: Db, id: Id, a: Activation): Tx<Activation> {
    if NativeTurnFree(db, id, a) then Commit(db.(activations := db.activations[id := a]), a) else Abort(ConstraintFailed)
  }

  function Moved(a: Activation, phase: ActivationPhase, now: nat): Activation {
    a.(phase := phase, updatedAt := Max(now, a.updatedAt))
  }

  function MarkDispatch(db: Db, id: Id, agent: Id, handle: Handle, boundary: Boundary, current: Option<Entry>, now: nat): Tx<Activation> {
    if !OwnedActivation(db, id, agent) then Abort(NoOperation)
    else
      var a := db.activations[id];
      match NativeIdentity(handle)
      case None => Abort(NotAuthenticated)
      case Some(native) =>
        if !IdleAt(boundary, native) then Abort(NotIdle)
        else if native != a.identity.native || (handle.appliedRevision.Some? && handle.appliedRevision != Some(a.identity.configRevision))
        then Abort(AuthorityLost)
        else if a.phase !in {Prepared, Dispatching} then Abort(WrongPhase)
        else if !CurrentAuthority(db, a, current, false) then Abort(AuthorityLost)
        else if !MatchesRuntime(a, current.value, Some(handle)) then Abort(AuthorityLost)
        else if a.phase == Dispatching then Commit(db, a)
        else Update(db, id, Moved(a, Dispatching, now))
  }

  function CheckpointTurn(db: Db, id: Id, agent: Id, turn: Id, current: Option<Entry>, now: nat): Tx<Activation> {
    if !OwnedActivation(db, id, agent) then Abort(NoOperation)
    else if !NonBlank(turn) then Abort(BlankCoordinates)
    else
      var a := db.activations[id];
      if a.turnId.Some? then
        if a.turnId != Some(turn) then Abort(TurnMismatch)
        else if a.phase != Complete && !CurrentAuthority(db, a, current, false) then Abort(AuthorityLost)
        else if a.phase == Uncertain then Update(db, id, Moved(a, Active, now))
        else Commit(db, a)
      else if a.phase !in {Dispatching, Uncertain} then Abort(WrongPhase)
      else if !CurrentAuthority(db, a, current, false) then Abort(AuthorityLost)
      else Update(db, id, Moved(a, Active, now).(turnId := Some(turn)))
  }

  function MarkUncertain(db: Db, id: Id, agent: Id, now: nat): Tx<Activation> {
    if !OwnedActivation(db, id, agent) then Abort(NoOperation)
    else
      var a := db.activations[id];
      if a.phase == Uncertain then Commit(db, a)
      else if a.phase !in {Dispatching, Active} then Abort(WrongPhase)
      else Update(db, id, Moved(a, Uncertain, now))
  }

  function Cancel(db: Db, id: Id, agent: Id, now: nat): Tx<Activation> {
    if !OwnedActivation(db, id, agent) then Abort(NoOperation)
    else
      var a := db.activations[id];
      if a.phase == Cancelled then Commit(db, a)
      else if a.phase != Prepared then Abort(WrongPhase)
      else Update(db, id, Moved(a, Cancelled, now))
  }

  function CompleteWith(db: Db, id: Id, agent: Id, turn: Option<Id>, outcome: Outcome, current: Option<Entry>, now: nat): Tx<Activation> {
    if !OwnedActivation(db, id, agent) then Abort(NoOperation)
    else
      var a := db.activations[id];
      if turn != a.turnId || (turn.None? && outcome != Lost) then Abort(OutcomeMismatch)
      else if a.phase == Complete then if a.outcome == Some(outcome) then Commit(db, a) else Abort(OutcomeMismatch)
      else if a.phase !in {Dispatching, Active, Uncertain} then Abort(WrongPhase)
      else if !CurrentAuthority(db, a, current, true) then Abort(AuthorityLost)
      else Update(db, id, Moved(a, Complete, now).(outcome := Some(outcome)))
  }

  // ----- every write is accepted -----

  /** Every row passes the table's CHECK clauses and the native-turn index. */
  ghost predicate ActivationsAccepted(db: Db) {
    && (forall id {:trigger RowAccepted(id, db.activations[id])} :: id in db.activations ==> RowAccepted(id, db.activations[id]))
    && (forall id {:trigger NativeTurnFree(db, id, db.activations[id])} :: id in db.activations ==>
          NativeTurnFree(db, id, db.activations[id]))
  }

  /** One update of one existing row, accepted by every constraint and trigger of the table. */
  ghost predicate ActivationWrite(db: Db, next: Db, id: Id) {
    && id in db.activations && id in next.activations
    && next == db.(activations := db.activations[id := next.activations[id]])
    && UpdateAccepted(db.activations[id], next.activations[id])
    && next.activations[id].compactedThrough == db.activations[id].compactedThrough
    && RowAccepted(id, next.activations[id])
    && NativeTurnFree(db, id, next.activations[id])
  }

  lemma DispatchAccepted(db: Db, id: Id, agent: Id, handle: Handle, boundary: Boundary, current: Option<Entry>, now: nat)
    requires id in db.activations ==> RowAccepted(id, db.activations[id])
    ensures var tx := MarkDispatch(db, id, agent, handle, boundary, current, now);
            tx.Commit? ==>
              tx.db == db
              || (ActivationWrite(db, tx.db, id) && db.activations[id].phase == Prepared && tx.db.activations[id].phase == Dispatching)
  {
  }

  lemma CheckpointAccepted(db: Db, id: Id, agent: Id, turn: Id, current: Option<Entry>, now: nat)
    requires id in db.activations ==> RowAccepted(id, db.activations[id])
    ensures var tx := CheckpointTurn(db, id, agent, turn, current, now);
            tx.Commit? ==>
              tx.db == db
              || (ActivationWrite(db, tx.db, id) && db.activations[id].phase != Prepared && tx.db.activations[id].phase == Active)
  {
  }

  lemma UncertainAccepted(db: Db, id: Id, agent: Id, now: nat)
    requires id in db.activations ==> RowAccepted(id, db.activations[id])
    ensures var tx := MarkUncertain(db, id, agent, now);
            tx.Commit? ==>
              tx.db == db
              || (ActivationWrite(db, tx.db, id) && db.activations[id].phase != Prepared && tx.db.activations[id].phase == Uncertain)
  {
  }

  lemma CancelAccepted(db: Db, id: Id, agent: Id, now: nat)
    requires id in db.activations ==> RowAccepted(id, db.activations[id])
    ensures var tx := Cancel(db, id, agent, now);
            tx.Commit? ==>
              tx.db == db
              || (ActivationWrite(db, tx.db, id) && db.activations[id].phase == Prepared && tx.db.activations[id].phase == Cancelled)
  {
  }

  lemma CompleteAccepted(db: Db, id: Id, agent: Id, turn: Option<Id>, outcome: Outcome, current: Option<Entry>, now: nat)
    requires id in db.activations ==> RowAccepted(id, db.activations[id])
    ensures var tx := CompleteWith(db, id, agent, turn, outcome, current, now);
            tx.Commit? ==>
              tx.db == db
              || (ActivationWrite(db, tx.db, id) && db.activations[id].phase != Prepared && tx.db.activations[id].phase == Complete)
  {
  }
}
