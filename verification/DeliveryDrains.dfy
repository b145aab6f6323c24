/**
  * The owned delivery drain: an explicit, durable cutover between the daemon inbox and custodial
  * polling. A reverse drain leaves the inbox, a forward drain undoes a reverse that never activated.
  */
module DeliveryDrains {
  import opened CustodyTables
  import opened PollingActivations
  import opened Text
  import opened Wrappers

  // ----- gates -----

  ghost function OpenDrain(db: Db, agent: Id): (r: Option<Id>)
    ensures r.Some? ==> r.value in db.cutovers && db.cutovers[r.value].agentId == agent && CutoverUnresolved(db.cutovers[r.value])
    ensures r.None? <==> !HasUnresolvedDrain(db, agent)
  {
    if HasUnresolvedDrain(db, agent)
    then var id :| id in db.cutovers && db.cutovers[id].agentId == agent && CutoverUnresolved(db.cutovers[id]); Some(id)
    else None
  }

  /** A durable stop intent: neither ingress nor a successor runtime may restart the agent. */
  predicate BlocksRuntime(c: Cutover) { c.phase in {CutDispatching, CutUncertain} }

  predicate Custodial(db: Db, agent: Id) { agent in db.configs && db.configs[agent].custodial }

  ghost predicate IngressAllowed(db: Db, agent: Id) {
    && (var d := OpenDrain(db, agent); d.None? || !BlocksRuntime(db.cutovers[d.value]))
    && !Custodial(db, agent)
  }

  /** The durable binding of an item's provider turn to exactly this runtime. */
  predicate TurnBoundTo(db: Db, itemId: Id, agent: Id, room: Id, turn: Id, native: Native, generationId: Id) {
    && itemId in db.context.turnBindings
    && db.context.turnBindings[itemId] ==
       TurnBinding(agent, room, turn, native.workAttemptId, generationId, native.continuationId)
  }

  /** The admission test of one drain. */
  predicate DrainAdmits(db: Db, c: Cutover, itemId: Id, item: Item) {
    && c.owned.Some? && c.strategy == Drain && c.fromMode == DaemonInbox && c.phase in {CutPrepared, Draining}
    && c.owned.value.roomId == item.roomId
    && c.owned.value.admitted == Some(Admitted(itemId, item.sourceId, item.actionId))
    && (match item.turnId
        case None => item.state == ItemDispatching
        case Some(turn) => TurnBoundTo(db, itemId, item.agentId, item.roomId, turn, c.owned.value.native, c.generationId))
  }

  ghost predicate AllowsAdmission(db: Db, itemId: Id, item: Item) {
    var d := OpenDrain(db, item.agentId);
    d.None? || DrainAdmits(db, db.cutovers[d.value], itemId, item)
  }

  // ----- inbox and effects -----

  predicate Unfinished(item: Item) {
    item.state !in {Acknowledged, AcknowledgedNoReply, AcknowledgedFailed, CancelledByRoomMove, CancelledByUser}
  }

  predicate Awaits(db: Db, agent: Id, itemId: Id) {
    itemId in db.context.inbox && db.context.inbox[itemId].agentId == agent && Unfinished(db.context.inbox[itemId])
  }

  predicate IsHead(db: Db, agent: Id, itemId: Id) {
    && Awaits(db, agent, itemId)
    && forall other :: other in db.context.inbox && Awaits(db, agent, other) ==> db.context.inbox[itemId].fifo <= db.context.inbox[other].fifo
  }

  /** A head of the agent's queue, or nothing when the queue is empty. */
  predicate HeadChoice(db: Db, agent: Id, head: Option<Id>) {
    match head
    case Some(id) => IsHead(db, agent, id)
    case None => forall id :: id in db.context.inbox ==> !Awaits(db, agent, id)
  }

  predicate UnsettledEffects(db: Db, agent: Id) {
    || (exists e :: e in db.context.effects && db.context.effects[e].agentId == agent
                    && db.context.effects[e].state in {EffectPrepared, EffectExecuting, EffectUncertain})
    || (exists e :: e in db.context.tombstones && db.context.tombstones[e].agentId == agent && db.context.tombstones[e].state == EffectUncertain)
  }

  /** The admitted item ended with an exact durable receipt. */
  predicate HasReceipt(db: Db, c: Cutover, itemId: Id, item: Item)
    requires c.owned.Some?
  {
    && item.turnId.Some?
    && TurnBoundTo(db, itemId, c.agentId, c.owned.value.roomId, item.turnId.value, c.owned.value.native, c.generationId)
    && item.terminalReason.None? && item.acknowledgedAt.Some?
    && if itemId in db.context.nativeFailures then item.state == AcknowledgedFailed
       else item.state == CancelledByUser || TerminalReceipt(db, c, itemId, item)
  }

  predicate TerminalReceipt(db: Db, c: Cutover, itemId: Id, item: Item)
    requires c.owned.Some?
  {
    && item.outcome.Some? && item.outcome.value.ItemOutcome?
    && itemId in db.context.terminals
    && db.context.terminals[itemId] == TerminalResult(c.agentId, c.generationId, item.turnId, item.outcome.value)
    && var outcome := item.outcome.value;
       || (item.state == AcknowledgedNoReply && outcome.kind == "no_reply" && outcome.text.None?)
       || (item.state == Acknowledged && outcome.kind == "reply" && outcome.text.Some? && NonBlank(outcome.text.value)
           && itemId in db.context.publications
           && var p := db.context.publications[itemId];
              p.agentId == c.agentId && p.roomId == c.owned.value.roomId && p.clientMessageId == item.replyId
              && NonBlank(p.canonicalMessageId))
  }

  // ----- authority -----

  /** The exact owned shape of a reverse or of a forward drain. */
  predicate OwnedShape(c: Cutover) {
    && c.owned.Some? && c.strategy == Drain
    && ((c.fromMode == DaemonInbox && c.toMode == McpPolling && c.predecessor.None?)
        || (c.fromMode == McpPolling && c.toMode == DaemonInbox && c.predecessor.Some?
            && c.owned.value.nativeTarget.None? && c.owned.value.admitted.None?))
  }

  predicate OwnedDrain(db: Db, id: Id) { id in db.cutovers && OwnedShape(db.cutovers[id]) }

  predicate IsForward(c: Cutover) { c.fromMode == McpPolling }

  function GenerationOf(db: Db, attempt: Id, generationId: Id): Option<nat> {
    if (attempt, generationId) in db.context.executions then Some(db.context.executions[(attempt, generationId)].generation) else None
  }

  predicate IsReverse(c: Cutover) {
    c.owned.Some? && c.strategy == Drain && c.fromMode == DaemonInbox && c.toMode == McpPolling
  }

  predicate CompletedReverseOf(c: Cutover, agent: Id, attempt: Id) {
    IsReverse(c) && c.phase == CutComplete && c.agentId == agent && c.owned.value.native.workAttemptId == attempt
  }

  /** The forward drain undoes its completed reverse, the current one, before any activation. */
  predicate PreActivation(db: Db, c: Cutover)
    requires c.owned.Some?
  {
    && c.predecessor.Some? && c.predecessor.value in db.cutovers
    && var reverseId := c.predecessor.value;
       var reverse := db.cutovers[reverseId];
       var attempt := c.owned.value.native.workAttemptId;
       && reverse.phase == CutComplete && IsReverse(reverse) && reverse.predecessor.None?
       && reverse.agentId == c.agentId && reverse.owned.value.roomId == c.owned.value.roomId
       && reverse.owned.value.native.workAttemptId == attempt
       && GenerationOf(db, attempt, reverse.generationId).Some? && GenerationOf(db, attempt, c.generationId).Some?
       && var before := GenerationOf(db, attempt, reverse.generationId).value;
          && GenerationOf(db, attempt, c.generationId).value > before
          && !HasSuccessor(db, attempt, GenerationOf(db, attempt, c.generationId).value)
          && (forall r | r in db.cutovers && r != reverseId && CompletedReverseOf(db.cutovers[r], c.agentId, attempt) ::
                var g := GenerationOf(db, attempt, db.cutovers[r].generationId); g.Some? && g.value < before)
          && !HasUnresolvedActivation(db, c.agentId)
          && (forall a | a in db.activations && db.activations[a].phase != Cancelled ::
                && db.activations[a].identity.reverseOperationId != reverseId
                && (db.activations[a].identity.agentId == c.agentId && db.activations[a].identity.native.workAttemptId == attempt ==>
                      var g := GenerationOf(db, attempt, db.activations[a].identity.generationId); g.Some? && g.value < before))
  }

  function Numeric(cursor: Option<string>): Option<nat> {
    if cursor.Some? && IsCursor(cursor.value) then Some(CursorValue(cursor.value)) else None
  }

  function LastCheckpoint(cursors: seq<Option<string>>): Option<string> {
    if cursors == [] then None
    else if cursors[|cursors| - 1].Some? then cursors[|cursors| - 1]
    else LastCheckpoint(cursors[..|cursors| - 1])
  }

  /** The worker binding and the deployed runtime are exactly the drain's. */
  predicate LaunchBound(db: Db, c: Cutover)
    requires c.owned.Some?
  {
    && c.agentId in db.bindings && c.agentId in db.context.deployments
    && var b := db.bindings[c.agentId]; var d := db.context.deployments[c.agentId]; var native := c.owned.value.native;
       && b.roomId == c.owned.value.roomId && b.workAttemptId == native.workAttemptId && b.generationId == c.generationId
       && d.workAttemptId == native.workAttemptId && d.generationId == c.generationId
       && d.continuationId == native.continuationId
       && d.connection == Some(Connection(CodexAppServer, native.url, Some(native.pid), Some(native.processIdentity)))
       && d.launchSession.Some? && d.launchSession.value != "" && d.launchSession.value == b.sessionId
  }

  /** The acknowledged worker cursor a forward drain transfers, never behind ingress or checkpoint. */
  function AckCursor(db: Db, c: Cutover): Result<string, Refusal>
    requires c.owned.Some?
  {
    if !LaunchBound(db, c) then Err(CursorAuthorityLost)
    else
      var ack := Numeric(db.bindings[c.agentId].cursor);
      var attempt := c.owned.value.native.workAttemptId;
      var saved := if attempt in db.checkpoints then Numeric(LastCheckpoint(db.checkpoints[attempt])) else None;
      if ack.None? || c.agentId !in db.ingress || db.ingress[c.agentId].roomId != c.owned.value.roomId then Err(CursorRegression)
      else
        var observed := Numeric(db.ingress[c.agentId].cursor);
        if observed.None? || saved.None? || ack.value < observed.value || ack.value < saved.value then Err(CursorRegression)
        else Ok(db.bindings[c.agentId].cursor.value)
  }

  predicate NoControlConflict(db: Db, agent: Id, current: Entry) {
    !current.cutoverPresent && agent !in db.context.conflicts
  }

  predicate DrainAuthority(db: Db, c: Cutover, current: Option<Entry>, allowDetached: bool)
    requires c.owned.Some?
  {
    && current.Some?
    && var entry := current.value; var native := c.owned.value.native;
       && entry.id == c.agentId && entry.roomId == c.owned.value.roomId && entry.provider == Codex
       && ModeOf(entry) == c.fromMode && entry.running && entry.conditionNone
       && entry.workAttemptId == Some(native.workAttemptId)
       && ((allowDetached && !IsForward(c) && entry.ref.None?)
           || (entry.ref.Some?
               && entry.ref.value.workAttemptId == native.workAttemptId && entry.ref.value.generationId == c.generationId
               && entry.ref.value.continuationId == native.continuationId
               && entry.ref.value.connection ==
                  Some(Connection(CodexAppServer, native.url, Some(native.pid), Some(native.processIdentity)))))
       && GenerationOf(db, native.workAttemptId, c.generationId).Some?
       && !HasSuccessor(db, native.workAttemptId, GenerationOf(db, native.workAttemptId, c.generationId).value)
       && c.agentId in db.configs
       && db.configs[c.agentId].custodial == IsForward(c)
       && db.configs[c.agentId].runtimeRevision == Some(db.configs[c.agentId].revision)
       && (IsForward(c) ==> PreActivation(db, c) && AckCursor(db, c).Ok?)
       && NoControlConflict(db, c.agentId, entry)
  }

  // ----- readiness -----

  datatype Status = Waiting | Queued | Ready

  datatype Readiness = Readiness(status: Status, cursor: Option<string>)

  predicate OtherWork(db: Db, c: Cutover)
    requires c.owned.Some?
  {
    exists id :: id in db.context.inbox && Awaits(db, c.agentId, id)
                 && (c.owned.value.admitted.None? || id != c.owned.value.admitted.value.itemId)
  }

  /** The cursor a drain would hand over. */
  function TransferCursor(db: Db, c: Cutover): Result<Option<string>, Refusal>
    requires c.owned.Some?
  {
    if c.agentId in db.ingress && db.ingress[c.agentId].roomId != c.owned.value.roomId then Err(IngressElsewhere)
    else if IsForward(c) then
      if !PreActivation(db, c) then Err(NotBeforeActivation)
      else match AckCursor(db, c)
        case Err(e) => Err(e)
        case Ok(cursor) => Ok(Some(cursor))
    else if c.agentId in db.ingress then Ok(db.ingress[c.agentId].cursor)
    else Ok(None)
  }

  function SettledStatus(db: Db, agent: Id): Status { if UnsettledEffects(db, agent) then Waiting else Ready }

  /** The admitted row is still the item the drain admitted. */
  predicate AdmittedIntact(db: Db, c: Cutover)
    requires c.owned.Some? && c.owned.value.admitted.Some?
  {
    var admitted := c.owned.value.admitted.value;
    && admitted.itemId in db.context.inbox
    && var item := db.context.inbox[admitted.itemId];
       && item.agentId == c.agentId && item.roomId == c.owned.value.roomId
       && item.sourceId == admitted.sourceId && item.actionId == admitted.actionId
  }

  ghost function ReadinessOf(db: Db, id: Id): Result<Readiness, Refusal> {
    if !OwnedDrain(db, id) then Err(NoOperation)
    else
      var c := db.cutovers[id];
      match TransferCursor(db, c)
      case Err(e) => Err(e)
      case Ok(cursor) =>
        if OtherWork(db, c) then Ok(Readiness(Queued, cursor))
        else if c.owned.value.admitted.None? then Ok(Readiness(SettledStatus(db, c.agentId), cursor))
        else if !AdmittedIntact(db, c) then Err(ItemLost)
        else
          var itemId := c.owned.value.admitted.value.itemId;
          var item := db.context.inbox[itemId];
          if Unfinished(item) then Ok(Readiness(if AllowsAdmission(db, itemId, item) then Waiting else Queued, cursor))
          else if !HasReceipt(db, c, itemId, item) then Err(ReceiptMissing)
          else Ok(Readiness(SettledStatus(db, c.agentId), cursor))
  }

  ghost function ReadyCursor(db: Db, id: Id): Result<string, Refusal> {
    match ReadinessOf(db, id)
    case Err(e) => Err(e)
    case Ok(r) =>
      if r.status != Ready then Err(NotReady)
      else if r.cursor.None? || !IsCursor(r.cursor.value) then Err(BadCursor)
      else Ok(r.cursor.value)
  }

  // ----- transactions -----

  datatype DrainInput = DrainInput(
    requestId: Id, operationId: Id, agentId: Id, roomId: Id, generationId: Id, handle: Handle, boundary: Boundary)

  datatype DrainReply = DrainReply(created: bool, cutover: Cutover)

  predicate BoundaryMatches(boundary: Boundary, native: Native, forward: bool) {
    && !boundary.UnknownBoundary? && (forward ==> boundary.Idle?)
    && boundary.continuationId == native.continuationId && boundary.processIdentity == native.processIdentity
  }

  predicate CutoverKnown(db: Db, input: DrainInput) {
    input.operationId in db.cutovers || exists id :: id in db.cutovers && db.cutovers[id].requestId == input.requestId
  }

  predicate SameDrainRequest(c: Cutover, input: DrainInput, native: Native, reverse: Option<Id>) {
    && c.requestId == input.requestId && c.agentId == input.agentId && c.generationId == input.generationId
    && c.owned.Some? && c.owned.value.roomId == input.roomId && c.strategy == Drain
    && c.fromMode == (if reverse.Some? then McpPolling else DaemonInbox)
    && c.toMode == (if reverse.Some? then DaemonInbox else McpPolling)
    && c.predecessor == reverse && c.owned.value.native == native
    && (input.boundary.ActiveTurn? ==> c.owned.value.nativeTarget == Some(input.boundary.turnId))
  }

  predicate PrepareAuthority(db: Db, input: DrainInput, native: Native, current: Option<Entry>, forward: bool) {
    && current.Some?
    && var entry := current.value;
       && entry.id == input.agentId && entry.roomId == input.roomId && entry.provider == Codex
       && ModeOf(entry) == (if forward then McpPolling else DaemonInbox) && entry.running && entry.conditionNone
       && entry.workAttemptId == Some(native.workAttemptId)
       && entry.ref.Some? && entry.ref.value.workAttemptId == native.workAttemptId
       && entry.ref.value.generationId == input.generationId && entry.ref.value.continuationId == native.continuationId
       && entry.ref.value.connection == input.handle.connection
       && (native.workAttemptId, input.generationId) in db.context.executions
       && !db.context.executions[(native.workAttemptId, input.generationId)].terminal
  }

  predicate PrepareConfigured(db: Db, input: DrainInput, current: Entry, forward: bool)
    requires current.ref.Some?
  {
    && input.agentId in db.configs
    && var config := db.configs[input.agentId];
       && config.runtimeRevision == Some(config.revision)
       && (forward ==> config.custodial)
       && (forward && input.handle.launchSession.Some? ==> input.handle.launchSession == current.ref.value.launchSession)
       && (input.handle.appliedRevision.Some? ==> input.handle.appliedRevision == config.runtimeRevision)
  }

  /** The head already left the queue: it has a turn, an outcome, or an in-flight state. */
  predicate InFlight(item: Item) {
    item.turnId.Some? || item.outcome.Some? || item.state in {ItemDispatching, AwaitingResult, ResultRecovery, Publishing}
  }

  datatype Admission = Admission(admitted: Option<Admitted>, nativeTurn: Option<Id>)

  /** What the drain admits: an authenticated in-flight head, or nothing. */
  function Admit(db: Db, input: DrainInput, native: Native, head: Option<Id>): Result<Admission, Refusal>
    requires HeadChoice(db, input.agentId, head)
  {
    if head.None? || !InFlight(db.context.inbox[head.value]) then Ok(Admission(None, None))
    else
      var item := db.context.inbox[head.value];
      var admitted := Some(Admitted(head.value, item.sourceId, item.actionId));
      if item.roomId != input.roomId then Err(HeadMismatch)
      else match item.turnId
        case Some(turn) =>
          if TurnBoundTo(db, head.value, input.agentId, input.roomId, turn, native, input.generationId)
          then Ok(Admission(admitted, Some(turn)))
          else Err(HeadMismatch)
        case None =>
          if item.state != ItemDispatching || item.outcome.Some? then Err(HeadMismatch) else Ok(Admission(admitted, None))
  }

  /** The CHECK clauses of the cutover table that the transaction does not already imply. */
  predicate CutoverAccepted(c: Cutover)
    requires c.owned.Some?
  {
    && c.owned.value.native.pid > 0 && NonBlank(c.owned.value.native.processIdentity)
    && (c.owned.value.nativeTarget.Some? ==> NonBlank(c.owned.value.nativeTarget.value))
    && (c.owned.value.admitted.Some? ==>
          var a := c.owned.value.admitted.value; NonBlank(a.itemId) && NonBlank(a.sourceId) && NonBlank(a.actionId))
  }

  /** The new row of a request nobody made before, or the reason there is none. */
  function Draft(
    db: Db, input: DrainInput, native: Native, current: Option<Entry>, reverse: Option<Id>, head: Option<Id>, now: nat)
      : Result<Cutover, Refusal>
    requires HeadChoice(db, input.agentId, head)
  {
    var forward := reverse.Some?;
    if !PrepareAuthority(db, input, native, current, forward) then Err(AuthorityLost)
    else if !PrepareConfigured(db, input, current.value, forward) then Err(ConfigurationChanged)
    else if HasUnresolvedDrain(db, input.agentId) then Err(UnresolvedDrain)
    else if HasUnresolvedActivation(db, input.agentId) then Err(UnresolvedActivation)
    else if !NoControlConflict(db, input.agentId, current.value) then Err(ControlConflict)
    else match Admit(db, input, native, head)
      case Err(e) => Err(e)
      case Ok(admission) =>
        if input.boundary.ActiveTurn?
           && (!NonBlank(input.boundary.turnId) || admission.nativeTurn != Some(input.boundary.turnId))
        then Err(BoundaryMismatch)
        else
          var c := NewCutover(input, native, reverse, admission, now);
          if forward && !PreActivation(db, c) then Err(NotBeforeActivation)
          else if forward && (head.Some? || UnsettledEffects(db, input.agentId)) then Err(NotReady)
          else if forward && AckCursor(db, c).Err? then Err(AckCursor(db, c).error)
          else if !CutoverAccepted(c) then Err(ConstraintFailed)
          else Ok(c)
  }

  /** The authenticated runtime of a well-formed request. */
  function Screened(input: DrainInput, reverse: Option<Id>): Result<Native, Refusal> {
    if reverse.Some? && !NonBlank(reverse.value) then Err(BlankCoordinates)
    else if exists s :: s in [input.requestId, input.operationId, input.agentId, input.roomId, input.generationId,
                              input.handle.workAttemptId] && !NonBlank(s)
    then Err(BlankCoordinates)
    else match NativeIdentity(input.handle)
      case None => Err(NotAuthenticated)
      case Some(native) => if BoundaryMatches(input.boundary, native, reverse.Some?) then Ok(native) else Err(NotAuthenticated)
  }

  function PrepareDrain(
    db: Db, input: DrainInput, current: Option<Entry>, reverse: Option<Id>, head: Option<Id>, now: nat): Tx<DrainReply>
    requires HeadChoice(db, input.agentId, head)
  {
    match Screened(input, reverse)
    case Err(e) => Abort(e)
    case Ok(native) =>
      if CutoverKnown(db, input) then
        if input.operationId in db.cutovers && SameDrainRequest(db.cutovers[input.operationId], input, native, reverse)
        then Commit(db, DrainReply(false, db.cutovers[input.operationId]))
        else Abort(BoundElsewhere)
      else match Draft(db, input, native, current, reverse, head, now)
        case Err(e) => Abort(e)
        case Ok(c) => Commit(db.(cutovers := db.cutovers[input.operationId := c]), DrainReply(true, c))
  }

  function NewCutover(input: DrainInput, native: Native, reverse: Option<Id>, admission: Admission, now: nat): Cutover {
    Cutover(input.requestId, input.agentId, input.generationId, reverse,
            if reverse.Some? then McpPolling else DaemonInbox, if reverse.Some? then DaemonInbox else McpPolling,
            Drain, Draining, Some(Owned(input.roomId, native, admission.nativeTurn, admission.admitted)), now, now)
  }

  function MovedTo(c: Cutover, phase: CutoverPhase, now: nat): Cutover {
    c.(phase := phase, updatedAt := Max(now, c.updatedAt))
  }

  function SetCutover(db: Db, id: Id, c: Cutover): Db { db.(cutovers := db.cutovers[id := c]) }

  function CancelDrain(db: Db, id: Id, agent: Id, now: nat): Tx<Cutover> {
    if id !in db.cutovers || db.cutovers[id].agentId != agent || db.cutovers[id].owned.None? || db.cutovers[id].strategy != Drain
       || db.cutovers[id].phase !in {CutPrepared, Draining, CutCancelled}
    then Abort(WrongPhase)
    else
      var c := db.cutovers[id];
      if c.phase == CutCancelled then Commit(db, c)
      else Commit(SetCutover(db, id, MovedTo(c, CutCancelled, now)), MovedTo(c, CutCancelled, now))
  }

  predicate DispatchBoundary(db: Db, c: Cutover, handle: Handle, boundary: Boundary, current: Entry)
    requires c.owned.Some? && current.ref.Some? && c.agentId in db.configs
  {
    var native := c.owned.value.native;
    && IdleAt(boundary, native)
    && handle.workAttemptId == native.workAttemptId && handle.continuationId == Some(native.continuationId)
    && handle.pid == native.pid && handle.connection == current.ref.value.connection
    && (IsForward(c) && handle.launchSession.Some? ==> handle.launchSession == current.ref.value.launchSession)
    && (handle.appliedRevision.Some? ==> handle.appliedRevision == db.configs[c.agentId].runtimeRevision)
  }

  ghost function DispatchDrain(db: Db, id: Id, agent: Id, handle: Handle, boundary: Boundary, current: Option<Entry>, now: nat): Tx<Cutover> {
    if !OwnedDrain(db, id) || db.cutovers[id].agentId != agent then Abort(NoOperation)
    else
      var c := db.cutovers[id];
      if c.phase !in {CutPrepared, Draining, CutDispatching, CutUncertain} then Abort(WrongPhase)
      else if !DrainAuthority(db, c, current, false) then Abort(AuthorityLost)
      else if !DispatchBoundary(db, c, handle, boundary, current.value) then Abort(NotIdle)
      else match ReadyCursor(db, id)
        case Err(e) => Abort(e)
        case Ok(_) =>
          if BlocksRuntime(c) then Commit(db, c)
          else Commit(SetCutover(db, id, MovedTo(c, CutDispatching, now)), MovedTo(c, CutDispatching, now))
  }

  function MarkDrainUncertain(db: Db, id: Id, agent: Id, now: nat): Tx<Cutover> {
    if !OwnedDrain(db, id) || db.cutovers[id].agentId != agent then Abort(NoOperation)
    else
      var c := db.cutovers[id];
      if !BlocksRuntime(c) then Abort(NoStopIntent)
      else if c.phase == CutUncertain then Commit(db, c)
      else Commit(SetCutover(db, id, MovedTo(c, CutUncertain, now)), MovedTo(c, CutUncertain, now))
  }

  /** The worker binding, when there is one, still belongs to the drained runtime. */
  predicate BindingUnchanged(db: Db, c: Cutover)
    requires c.owned.Some?
  {
    c.agentId in db.bindings ==>
      && db.bindings[c.agentId].roomId == c.owned.value.roomId
      && db.bindings[c.agentId].workAttemptId == c.owned.value.native.workAttemptId
      && db.bindings[c.agentId].generationId == c.generationId
  }

  /** Hands the cursor over: to ingress for a forward drain, to the worker binding for a reverse. */
  function Transferred(db: Db, c: Cutover, cursor: string): Db
    requires c.owned.Some?
  {
    if IsForward(c) then
      if c.agentId in db.ingress && db.ingress[c.agentId].roomId == c.owned.value.roomId
      then db.(ingress := db.ingress[c.agentId := db.ingress[c.agentId].(cursor := Some(cursor))])
      else db
    else if c.agentId in db.bindings
      then db.(bindings := db.bindings[c.agentId := db.bindings[c.agentId].(cursor := Some(cursor))])
      else db
  }

  function Checkpointed(db: Db, attempt: Id, cursor: string): Db {
    db.(checkpoints :=
        db.checkpoints[attempt := (if attempt in db.checkpoints then db.checkpoints[attempt] else []) + [Some(cursor)]])
  }

  function Switched(db: Db, c: Cutover): Db
    requires c.agentId in db.configs
  {
    var config := db.configs[c.agentId];
    db.(configs := db.configs[c.agentId :=
        config.(mode := c.toMode, custodial := c.toMode == McpPolling, revision := config.revision + 1)])
  }

  ghost function CommitDrain(db: Db, id: Id, agent: Id, current: Option<Entry>, now: nat): Tx<Cutover> {
    if !OwnedDrain(db, id) || db.cutovers[id].agentId != agent then Abort(NoOperation)
    else
      var c := db.cutovers[id];
      if !BlocksRuntime(c) then Abort(NoStopIntent)
      else if !DrainAuthority(db, c, current, true) then Abort(AuthorityLost)
      else match ReadyCursor(db, id)
        case Err(e) => Abort(e)
        case Ok(cursor) =>
          if !BindingUnchanged(db, c) then Abort(CursorAuthorityLost)
          else
            var moved := Checkpointed(Transferred(db, c, cursor), c.owned.value.native.workAttemptId, cursor);
            var done := MovedTo(c, CutComplete, now);
            Commit(SetCutover(Switched(moved, c), id, done), done)
  }
}
