/**
  * What goes through: an activation that was prepared can run to its outcome, a drain with nothing to wait
  * for can stop and commit while the surrounding tables stay as they are, and a request made again is
  * answered with its own row.
  */
module CustodyProgress {
  import opened CustodyAnswers
  import opened CustodyInvariant
  import opened CustodyRuns
  import opened CustodyTables
  import opened CustodyTheorems
  import opened DeliveryDrains
  import opened PollingActivations
  import opened Text
  import opened Wrappers

  // ----- an activation -----

  /** No other activation of the same native conversation has this turn. */
  predicate TurnUnused(db: Db, a: ActivationIdentity, turn: Id) {
    forall other :: other in db.activations ==>
      var b := db.activations[other];
      !(b.identity.agentId == a.agentId && b.identity.generationId == a.generationId
        && b.identity.native.continuationId == a.native.continuationId && b.turnId == Some(turn))
  }

  /** Moving a row on takes no authority away from it. */
  lemma AuthorityCarries(db: Db, next: Db, a: Activation, b: Activation, current: Option<Entry>, terminal: bool)
    requires next == db.(activations := next.activations) && b.identity == a.identity
    requires b.phase == Prepared ==> a.phase == Prepared
    requires CurrentAuthority(db, a, current, false)
    ensures CurrentAuthority(next, b, current, terminal)
  {
    hide NativeIdentity;
    assert forall attempt, g :: HasSuccessor(next, attempt, g) <==> HasSuccessor(db, attempt, g);
    assert HasUnresolvedDrain(next, a.identity.agentId) <==> HasUnresolvedDrain(db, a.identity.agentId);
  }

  lemma PreparedHasAuthority(db: Db, input: PrepareInput, current: Option<Entry>, now: nat)
    requires var tx := Prepare(db, input, current, now); tx.Commit? && tx.reply.created
    ensures var tx := Prepare(db, input, current, now); var row := tx.reply.activation;
            && tx.db == db.(activations := db.activations[input.operationId := row])
            && CurrentAuthority(db, row, current, false) && MatchesRuntime(row, current.value, Some(input.handle))
            && NativeIdentity(input.handle) == Some(row.identity.native) && IdleAt(input.boundary, row.identity.native)
            && row.identity.agentId == input.agentId && row.phase == Prepared && row.turnId.None?
            && (input.handle.appliedRevision.Some? ==> input.handle.appliedRevision == Some(row.identity.configRevision))
  {
    hide CurrentAuthority, MatchesRuntime, RowAccepted, CompletedReverse, SuccessorRuntime, NativeIdentity;
  }

  /** The row `id` as it stands, with the turn to itself. */
  ghost predicate Standing(db: Db, next: Db, id: Id, row: Activation, phase: ActivationPhase, turn: Option<Id>) {
    && id in next.activations && next == db.(activations := db.activations[id := next.activations[id]])
    && next.activations[id] == row.(phase := phase, turnId := turn, updatedAt := next.activations[id].updatedAt)
  }

  lemma DispatchGoesThrough(
    db: Db, next: Db, id: Id, row: Activation, handle: Handle, boundary: Boundary, current: Option<Entry>, now: nat)
    requires Standing(db, next, id, row, Prepared, None) && row.phase == Prepared
    requires CurrentAuthority(db, row, current, false) && MatchesRuntime(row, current.value, Some(handle))
    requires NativeIdentity(handle) == Some(row.identity.native) && IdleAt(boundary, row.identity.native)
    requires handle.appliedRevision.Some? ==> handle.appliedRevision == Some(row.identity.configRevision)
    ensures var tx := MarkDispatch(next, id, row.identity.agentId, handle, boundary, current, now);
            tx.Commit? && Standing(db, tx.db, id, row, Dispatching, None) && tx.reply == tx.db.activations[id]
  {
    AuthorityCarries(db, next, row, next.activations[id], current, false);
    hide CurrentAuthority, NativeIdentity;
  }

  lemma TurnGoesThrough(db: Db, next: Db, id: Id, row: Activation, turn: Id, current: Option<Entry>, now: nat)
    requires Standing(db, next, id, row, Dispatching, None) || Standing(db, next, id, row, Uncertain, Some(turn))
    requires CurrentAuthority(db, row, current, false) && NonBlank(turn) && TurnUnused(db, row.identity, turn)
    ensures var tx := CheckpointTurn(next, id, row.identity.agentId, turn, current, now);
            tx.Commit? && Standing(db, tx.db, id, row, Active, Some(turn)) && tx.reply == tx.db.activations[id]
  {
    AuthorityCarries(db, next, row, next.activations[id], current, false);
    hide CurrentAuthority, NonBlank;
    assert NativeTurnFree(next, id, Moved(next.activations[id], Active, now).(turnId := Some(turn)));
  }

  lemma DoubtGoesThrough(db: Db, next: Db, id: Id, row: Activation, turn: Id, now: nat)
    requires Standing(db, next, id, row, Active, Some(turn)) && TurnUnused(db, row.identity, turn)
    ensures var tx := MarkUncertain(next, id, row.identity.agentId, now);
            tx.Commit? && Standing(db, tx.db, id, row, Uncertain, Some(turn)) && tx.reply == tx.db.activations[id]
  {
  }

  lemma OutcomeGoesThrough(
    db: Db, next: Db, id: Id, row: Activation, turn: Id, outcome: Outcome, current: Option<Entry>, now: nat)
    requires Standing(db, next, id, row, Active, Some(turn)) || Standing(db, next, id, row, Uncertain, Some(turn))
    requires CurrentAuthority(db, row, current, false) && TurnUnused(db, row.identity, turn)
    ensures var tx := CompleteWith(next, id, row.identity.agentId, Some(turn), outcome, current, now);
            tx.Commit? && tx.reply.phase == Complete && tx.reply.outcome == Some(outcome)
  {
    AuthorityCarries(db, next, row, next.activations[id], current, true);
    hide CurrentAuthority;
  }

  /** A prepared activation can be dispatched at the idle runtime it was prepared for, can then record a
    * fresh turn, and can complete with any outcome of that turn. */
  lemma PreparedActivationCanRun(db: Db, input: PrepareInput, current: Option<Entry>, now: nat, turn: Id, outcome: Outcome)
    requires var tx := Prepare(db, input, current, now);
             tx.Commit? && tx.reply.created && NonBlank(turn) && TurnUnused(db, tx.reply.activation.identity, turn)
    ensures var id, agent, prepared := input.operationId, input.agentId, Prepare(db, input, current, now);
            var dispatched := MarkDispatch(prepared.db, id, agent, input.handle, input.boundary, current, now);
            && dispatched.Commit? && dispatched.reply.phase == Dispatching
            && var active := CheckpointTurn(dispatched.db, id, agent, turn, current, now);
            && active.Commit? && active.reply.phase == Active && active.reply.turnId == Some(turn)
            && var complete := CompleteWith(active.db, id, agent, Some(turn), outcome, current, now);
               complete.Commit? && complete.reply.phase == Complete && complete.reply.outcome == Some(outcome)
  {
    var id, agent := input.operationId, input.agentId;
    var prepared := Prepare(db, input, current, now);
    PreparedHasAuthority(db, input, current, now);
    var row := prepared.reply.activation;
    hide Prepare, CurrentAuthority, MatchesRuntime, NativeIdentity, TurnUnused, NonBlank, MarkDispatch, CheckpointTurn, CompleteWith;
    DispatchGoesThrough(db, prepared.db, id, row, input.handle, input.boundary, current, now);
    var dispatched := MarkDispatch(prepared.db, id, agent, input.handle, input.boundary, current, now);
    hide IdleAt;
    TurnGoesThrough(db, dispatched.db, id, row, turn, current, now);
    var active := CheckpointTurn(dispatched.db, id, agent, turn, current, now);
    OutcomeGoesThrough(db, active.db, id, row, turn, outcome, current, now);
  }

  /** An active one can fall into doubt, and out of it again by the same turn, or complete from there. */
  lemma DoubtfulActivationCanRun(
    db: Db, next: Db, id: Id, row: Activation, turn: Id, outcome: Outcome, current: Option<Entry>, now: nat)
    requires Standing(db, next, id, row, Active, Some(turn)) && CurrentAuthority(db, row, current, false)
    requires NonBlank(turn) && TurnUnused(db, row.identity, turn)
    ensures var agent, doubtful := row.identity.agentId, MarkUncertain(next, id, row.identity.agentId, now);
            && doubtful.Commit? && doubtful.reply.phase == Uncertain
            && CompleteWith(doubtful.db, id, agent, Some(turn), outcome, current, now).Commit?
            && var again := CheckpointTurn(doubtful.db, id, agent, turn, current, now);
               again.Commit? && again.reply.phase == Active && again.reply.turnId == Some(turn)
  {
    hide CurrentAuthority, TurnUnused, NonBlank, MarkUncertain, CheckpointTurn, CompleteWith;
    DoubtGoesThrough(db, next, id, row, turn, now);
    var doubtful := MarkUncertain(next, id, row.identity.agentId, now);
    OutcomeGoesThrough(db, doubtful.db, id, row, turn, outcome, current, now);
    TurnGoesThrough(db, doubtful.db, id, row, turn, current, now);
  }

  // ----- a drain -----

  predicate MayUndo(db: Db, c: Cutover) { c.owned.Some? && PreActivation(db, c) }

  /** Writing a row of this cutover that is not complete leaves the undo of its reverse as possible as it was. */
  lemma PreActivationCarries(db: Db, next: Db, id: Id, c: Cutover, d: Cutover)
    requires MayUndo(db, c) && (id in db.cutovers ==> db.cutovers[id].phase != CutComplete)
    requires next == db.(cutovers := db.cutovers[id := d]) && d == c.(phase := d.phase, updatedAt := d.updatedAt)
    requires d.phase != CutComplete
    ensures MayUndo(next, d)
  {
    assert forall attempt, g :: HasSuccessor(next, attempt, g) <==> HasSuccessor(db, attempt, g);
    assert forall attempt, g :: GenerationOf(next, attempt, g) == GenerationOf(db, attempt, g);
    hide HasSuccessor, GenerationOf;
    assert HasUnresolvedActivation(next, c.agentId) <==> HasUnresolvedActivation(db, c.agentId);
  }

  /** Nothing that a drain has to wait for: the queue is empty, the effects are settled, the runtime is the
    * newest and idle, and delivery stands at a numeric position in the room. */
  ghost predicate NothingToWaitFor(db: Db, input: DrainInput, native: Native, reverse: Option<Id>, head: Option<Id>) {
    && head.None? && !UnsettledEffects(db, input.agentId) && IdleAt(input.boundary, native)
    && NewestExecution(db, native.workAttemptId, input.generationId)
    && input.agentId in db.configs && (db.configs[input.agentId].custodial <==> reverse.Some?)
    && input.agentId in db.ingress && db.ingress[input.agentId].roomId == input.roomId
    && (reverse.None? ==> db.ingress[input.agentId].cursor.Some? && IsCursor(db.ingress[input.agentId].cursor.value))
    && (input.agentId in db.bindings ==>
          var b := db.bindings[input.agentId];
          b.roomId == input.roomId && b.workAttemptId == native.workAttemptId && b.generationId == input.generationId)
  }

  /** What the drafting of a drain establishes for its runtime. */
  lemma DraftedHasAuthority(
    db: Db, input: DrainInput, current: Option<Entry>, reverse: Option<Id>, head: Option<Id>, now: nat)
    requires HeadChoice(db, input.agentId, head)
    requires var tx := PrepareDrain(db, input, current, reverse, head, now); tx.Commit? && tx.reply.created
    requires var c := PrepareDrain(db, input, current, reverse, head, now).reply.cutover;
             c.owned.Some? && NothingToWaitFor(db, input, c.owned.value.native, reverse, head)
    ensures var tx := PrepareDrain(db, input, current, reverse, head, now); var c := tx.reply.cutover;
            && input.operationId !in db.cutovers && tx.db == SetCutover(db, input.operationId, c)
            && OwnedShape(c) && c.phase == Draining && c.agentId == input.agentId && c.owned.value.admitted.None?
            && (IsForward(c) <==> reverse.Some?) && c.owned.value.roomId == input.roomId
            && (IsForward(c) ==> MayUndo(db, c) && AckCursor(db, c).Ok?)
            && DrainAuthority(db, c, current, false)
            && DispatchBoundary(db, c, input.handle, input.boundary, current.value)
            && BindingUnchanged(db, c)
  {
    hide PreActivation, AckCursor, UnsettledEffects, NonBlank;
    assert forall attempt, g :: HasSuccessor(db, attempt, g) ==> exists key :: key in db.context.executions && key.0 == attempt;
  }

  /** The row `id` holds the drain, moved on or not, and nothing else changed. */
  predicate Holding(db: Db, next: Db, id: Id, c: Cutover) {
    && id in next.cutovers && next == SetCutover(db, id, next.cutovers[id])
    && next.cutovers[id] == c.(phase := next.cutovers[id].phase, updatedAt := next.cutovers[id].updatedAt)
    && next.cutovers[id].phase != CutComplete
  }

  lemma HeldOn(db: Db, next: Db, id: Id, c: Cutover, phase: CutoverPhase, now: nat)
    requires Holding(db, next, id, c) && phase != CutComplete
    ensures Holding(db, SetCutover(next, id, MovedTo(next.cutovers[id], phase, now)), id, c)
  {
  }

  lemma DraftedIsHeld(db: Db, id: Id, c: Cutover)
    requires c.phase != CutComplete
    ensures Holding(db, SetCutover(db, id, c), id, c) && SetCutover(db, id, c).cutovers[id] == c
  {
  }

  /** Moving a drain on takes no authority away from it, and does not move delivery. */
  lemma DrainCarries(db: Db, next: Db, id: Id, c: Cutover, current: Option<Entry>, mayBeDetached: bool)
    requires Holding(db, next, id, c) && id !in db.cutovers && OwnedShape(c)
    requires DrainAuthority(db, c, current, false)
    ensures DrainAuthority(next, next.cutovers[id], current, mayBeDetached)
    ensures AckCursor(next, next.cutovers[id]) == AckCursor(db, c)
    ensures IsForward(c) ==> MayUndo(next, next.cutovers[id])
  {
    var d := next.cutovers[id];
    assert AckCursor(next, d) == AckCursor(db, c);
    assert forall attempt, g :: HasSuccessor(next, attempt, g) <==> HasSuccessor(db, attempt, g);
    assert forall attempt, g :: GenerationOf(next, attempt, g) == GenerationOf(db, attempt, g);
    if IsForward(c) { PreActivationCarries(db, next, id, c, d); }
    hide PreActivation, AckCursor, HasSuccessor, GenerationOf;
  }

  /** With nothing to wait for a drain is ready at a numeric position. */
  lemma NothingToWaitMeansReady(db: Db, next: Db, input: DrainInput, reverse: Option<Id>, head: Option<Id>, c: Cutover)
    requires HeadChoice(db, input.agentId, head) && Holding(db, next, input.operationId, c)
    requires OwnedShape(c) && c.agentId == input.agentId && c.owned.value.roomId == input.roomId && c.owned.value.admitted.None?
    requires (reverse.Some? <==> IsForward(c)) && NothingToWaitFor(db, input, c.owned.value.native, reverse, head)
    requires IsForward(c) ==> MayUndo(next, next.cutovers[input.operationId]) && AckCursor(next, next.cutovers[input.operationId]).Ok?
    ensures ReadyCursor(next, input.operationId).Ok?
  {
    var d := next.cutovers[input.operationId];
    if IsForward(c) { assert IsCursor(AckCursor(next, d).value); }
    forall id | id in next.context.inbox
      ensures !Awaits(next, input.agentId, id)
    {
      assert !Awaits(db, input.agentId, id);
    }
    assert UnsettledEffects(next, input.agentId) <==> UnsettledEffects(db, input.agentId);
    hide PreActivation, AckCursor, IsCursor, UnsettledEffects, Awaits, NewestExecution;
  }

  /** The drain keeps all it was drafted with while it is moved on. */
  lemma HeldDrainStands(
    db: Db, next: Db, input: DrainInput, current: Option<Entry>, reverse: Option<Id>, head: Option<Id>, c: Cutover, mayBeDetached: bool)
    requires HeadChoice(db, input.agentId, head) && input.operationId !in db.cutovers && Holding(db, next, input.operationId, c)
    requires OwnedShape(c) && c.agentId == input.agentId && c.owned.value.roomId == input.roomId && c.owned.value.admitted.None?
    requires (reverse.Some? <==> IsForward(c)) && NothingToWaitFor(db, input, c.owned.value.native, reverse, head)
    requires DrainAuthority(db, c, current, false) && BindingUnchanged(db, c)
    requires DispatchBoundary(db, c, input.handle, input.boundary, current.value)
    ensures OwnedDrain(next, input.operationId)
    ensures var d := next.cutovers[input.operationId];
            && DrainAuthority(next, d, current, mayBeDetached) && ReadyCursor(next, input.operationId).Ok? && BindingUnchanged(next, d)
            && DispatchBoundary(next, d, input.handle, input.boundary, current.value)
  {
    DrainCarries(db, next, input.operationId, c, current, mayBeDetached);
    assert IsForward(c) ==> AckCursor(db, c).Ok?;
    hide PreActivation, AckCursor;
    NothingToWaitMeansReady(db, next, input, reverse, head, c);
    hide NothingToWaitFor, HeadChoice, ReadyCursor;
  }

  lemma IdleDrainCanStop(
    db: Db, input: DrainInput, current: Option<Entry>, reverse: Option<Id>, head: Option<Id>, now: nat)
    requires HeadChoice(db, input.agentId, head)
    requires var tx := PrepareDrain(db, input, current, reverse, head, now); tx.Commit? && tx.reply.created
    requires var c := PrepareDrain(db, input, current, reverse, head, now).reply.cutover;
             c.owned.Some? && NothingToWaitFor(db, input, c.owned.value.native, reverse, head)
    ensures var id, agent, drafted := input.operationId, input.agentId, PrepareDrain(db, input, current, reverse, head, now);
            var stopped := DispatchDrain(drafted.db, id, agent, input.handle, input.boundary, current, now);
            && stopped.Commit? && stopped.reply.phase == CutDispatching && Holding(db, stopped.db, id, drafted.reply.cutover)
            && stopped.db.cutovers[id] == stopped.reply
  {
    var id, agent := input.operationId, input.agentId;
    var drafted := PrepareDrain(db, input, current, reverse, head, now);
    hide PrepareDrain, PreActivation, AckCursor, DrainAuthority, NothingToWaitFor, HeadChoice, DispatchDrain, ReadyCursor,
      DispatchBoundary, BindingUnchanged;
    DraftedHasAuthority(db, input, current, reverse, head, now);
    DraftedIsHeld(db, id, drafted.reply.cutover);
    HeldDrainStands(db, drafted.db, input, current, reverse, head, drafted.reply.cutover, false);
    StopGoesThrough(drafted.db, id, agent, input.handle, input.boundary, current, now);
    HeldOn(db, drafted.db, id, drafted.reply.cutover, CutDispatching, now);
    hide Holding, OwnedShape;
  }

  /** A drain that finds nothing to wait for can be stopped at once, and the stopped drain can be committed:
    * delivery then runs under the contract it was drafted for. */
  lemma IdleDrainCanCommit(
    db: Db, input: DrainInput, current: Option<Entry>, reverse: Option<Id>, head: Option<Id>, now: nat)
    requires HeadChoice(db, input.agentId, head)
    requires var tx := PrepareDrain(db, input, current, reverse, head, now); tx.Commit? && tx.reply.created
    requires var c := PrepareDrain(db, input, current, reverse, head, now).reply.cutover;
             c.owned.Some? && NothingToWaitFor(db, input, c.owned.value.native, reverse, head)
    ensures var id, agent, drafted := input.operationId, input.agentId, PrepareDrain(db, input, current, reverse, head, now);
            var stopped := DispatchDrain(drafted.db, id, agent, input.handle, input.boundary, current, now);
            && stopped.Commit? && stopped.reply.phase == CutDispatching
            && var done := CommitDrain(stopped.db, id, agent, current, now);
            && done.Commit? && done.reply.phase == CutComplete && agent in done.db.configs
            && done.db.configs[agent].mode == (if reverse.Some? then DaemonInbox else McpPolling)
  {
    var id, agent := input.operationId, input.agentId;
    var drafted := PrepareDrain(db, input, current, reverse, head, now);
    hide PrepareDrain, PreActivation, AckCursor, DrainAuthority, NothingToWaitFor, HeadChoice, DispatchDrain, CommitDrain, ReadyCursor,
      DispatchBoundary, BindingUnchanged;
    IdleDrainCanStop(db, input, current, reverse, head, now);
    DraftedHasAuthority(db, input, current, reverse, head, now);
    var c := drafted.reply.cutover;
    var stopped := DispatchDrain(drafted.db, id, agent, input.handle, input.boundary, current, now);
    HeldDrainStands(db, stopped.db, input, current, reverse, head, c, true);
    CommitGoesThrough(stopped.db, id, agent, current, now);
  }

  lemma StopGoesThrough(db: Db, id: Id, agent: Id, handle: Handle, boundary: Boundary, current: Option<Entry>, now: nat)
    requires OwnedDrain(db, id) && db.cutovers[id].agentId == agent && db.cutovers[id].phase == Draining
    requires DrainAuthority(db, db.cutovers[id], current, false) && ReadyCursor(db, id).Ok?
    requires DispatchBoundary(db, db.cutovers[id], handle, boundary, current.value)
    ensures var tx := DispatchDrain(db, id, agent, handle, boundary, current, now); var c := db.cutovers[id];
            && tx.Commit? && tx.reply == MovedTo(c, CutDispatching, now) && tx.db == SetCutover(db, id, tx.reply)
  {
    hide DrainAuthority, ReadyCursor, DispatchBoundary;
  }

  lemma CommitGoesThrough(db: Db, id: Id, agent: Id, current: Option<Entry>, now: nat)
    requires OwnedDrain(db, id) && db.cutovers[id].agentId == agent && BlocksRuntime(db.cutovers[id])
    requires DrainAuthority(db, db.cutovers[id], current, true) && ReadyCursor(db, id).Ok? && BindingUnchanged(db, db.cutovers[id])
    ensures var tx := CommitDrain(db, id, agent, current, now);
            && tx.Commit? && tx.reply.phase == CutComplete
            && agent in tx.db.configs && tx.db.configs[agent].mode == db.cutovers[id].toMode
  {
    hide PreActivation, AckCursor, ReadyCursor;
  }

  // ----- repeated requests -----

  lemma PreparedSameRequest(db: Db, input: PrepareInput, current: Option<Entry>, now: nat)
    requires var tx := Prepare(db, input, current, now); tx.Commit? && tx.reply.created
    ensures var row := Prepare(db, input, current, now).reply.activation;
            && SameActivationRequest(input.operationId, row, input, row.identity.native)
            && NativeIdentity(input.handle) == Some(row.identity.native)
  {
    hide CurrentAuthority, RowAccepted, CompletedReverse, SuccessorRuntime, NativeIdentity, RefNative;
  }

  /** A request made again with a row of its own is answered by that row. */
  lemma KnownRequestAnswers(db: Db, input: PrepareInput, native: Native, current: Option<Entry>, now: nat, first: Db, before: Option<Entry>, at: nat)
    requires Prepare(first, input, before, at).Commit? && NativeIdentity(input.handle) == Some(native)
    requires input.operationId in db.activations
    requires SameActivationRequest(input.operationId, db.activations[input.operationId], input, native)
    ensures Prepare(db, input, current, now) == Commit(db, PreparedActivation(false, db.activations[input.operationId]))
  {
    hide CurrentAuthority, MatchesRuntime, RowAccepted, CompletedReverse, SuccessorRuntime, NativeIdentity, NonBlank;
  }

  /** Over every run: the request of an activation, made again, is answered by the row it created, as that
    * stands by then, whatever became of its authority. */
  lemma RepeatedPreparationAnswers(
    w: World, input: PrepareInput, current: Option<Entry>, now: nat, events: seq<Event>, later: Option<Entry>, at: nat)
    requires Inv(w)
    requires var tx := Prepare(w.db, input, current, now); tx.Commit? && tx.reply.created
    ensures var end := Run(Step(w, PrepareActivation(input, current, now)), events);
            && input.operationId in end.db.activations
            && Prepare(end.db, input, later, at) == Commit(end.db, PreparedActivation(false, end.db.activations[input.operationId]))
  {
    var row := Prepare(w.db, input, current, now).reply.activation;
    PreparedSameRequest(w.db, input, current, now);
    PreparedHasAuthority(w.db, input, current, now);
    var first := Step(w, PrepareActivation(input, current, now));
    assert first.db.activations[input.operationId] == row;
    hide Step, Inv, Prepare, NativeIdentity, MatchesRuntime, CurrentAuthority;
    StepKeepsInv(w, PrepareActivation(input, current, now));
    RunIsLater(first, events);
    var end := Run(first, events);
    assert ActivationLater(row, end.db.activations[input.operationId]);
    KnownRequestAnswers(end.db, input, row.identity.native, later, at, w.db, current, now);
  }

  lemma DraftedSameRequest(
    db: Db, input: DrainInput, current: Option<Entry>, reverse: Option<Id>, head: Option<Id>, now: nat)
    requires HeadChoice(db, input.agentId, head)
    requires var tx := PrepareDrain(db, input, current, reverse, head, now); tx.Commit? && tx.reply.created
    ensures var c := PrepareDrain(db, input, current, reverse, head, now).reply.cutover;
            && c.owned.Some? && SameDrainRequest(c, input, c.owned.value.native, reverse)
            && Screened(input, reverse) == Ok(c.owned.value.native)
  {
    hide PreActivation, AckCursor, UnsettledEffects, NonBlank, NativeIdentity, PrepareAuthority, PrepareConfigured;
  }

  /** Over every run: the request of a drain, made again, is answered by the row it created, as that stands
    * by then. */
  lemma RepeatedDrainAnswers(
    w: World, input: DrainInput, current: Option<Entry>, reverse: Option<Id>, head: Option<Id>, now: nat, events: seq<Event>,
    later: Option<Entry>, newHead: Option<Id>, at: nat)
    requires Inv(w) && HeadChoice(w.db, input.agentId, head)
    requires var tx := PrepareDrain(w.db, input, current, reverse, head, now); tx.Commit? && tx.reply.created
    requires HeadChoice(Run(Step(w, PrepareCutover(input, current, reverse, head, now)), events).db, input.agentId, newHead)
    ensures var end := Run(Step(w, PrepareCutover(input, current, reverse, head, now)), events);
            && input.operationId in end.db.cutovers
            && PrepareDrain(end.db, input, later, reverse, newHead, at)
               == Commit(end.db, DrainReply(false, end.db.cutovers[input.operationId]))
  {
    DraftedSameRequest(w.db, input, current, reverse, head, now);
    FirstStep(w, input, current, reverse, head, now);
    var c := PrepareDrain(w.db, input, current, reverse, head, now).reply.cutover;
    hide Step, Inv, DraftedAs, Screened, Draft, PrepareDrain, HeadChoice;
    var first := Step(w, PrepareCutover(input, current, reverse, head, now));
    StepKeepsInv(w, PrepareCutover(input, current, reverse, head, now));
    RunIsLater(first, events);
    var end := Run(first, events);
    assert CutoverLater(c, end.db.cutovers[input.operationId]);
    KnownDrainAnswers(end.db, input, c.owned.value.native, later, reverse, newHead, at);
  }

  lemma KnownDrainAnswers(db: Db, input: DrainInput, native: Native, current: Option<Entry>, reverse: Option<Id>, head: Option<Id>, now: nat)
    requires HeadChoice(db, input.agentId, head) && Screened(input, reverse) == Ok(native)
    requires input.operationId in db.cutovers && SameDrainRequest(db.cutovers[input.operationId], input, native, reverse)
    ensures PrepareDrain(db, input, current, reverse, head, now) == Commit(db, DrainReply(false, db.cutovers[input.operationId]))
  {
    hide Screened, Draft;
  }
}
