/**
  * The durable rows shared by custodial polling and the delivery drain: the two operational
  * journals (activations with their offers, cutovers) and the tables they read and update.
  * The connection digest is the connection tuple itself.
  */
module CustodyTables {
  import opened Text
  import opened Wrappers

  type Id = string

  // ----- native identities, as the provider port presents them -----

  datatype ConnectionKind = CodexAppServer | ClaudeCli | CursorCli | OpencodeServer

  datatype Connection = Connection(kind: ConnectionKind, url: string, pid: Option<nat>, processIdentity: Option<string>)

  datatype Handle = Handle(
    workAttemptId: Id, continuationId: Option<Id>, connection: Option<Connection>, pid: nat,
    launchSession: Option<Id>, appliedRevision: Option<nat>)

  datatype Boundary =
    | Idle(continuationId: Id, processIdentity: string)
    | ActiveTurn(continuationId: Id, processIdentity: string, turnId: Id)
    | UnknownBoundary

  /** The authenticated Codex runtime a journal row is bound to. */
  datatype Native = Native(workAttemptId: Id, continuationId: Id, url: string, pid: nat, processIdentity: string)

  /** The authenticated identity of a handle, when it is a complete Codex connection. */
  function NativeIdentity(h: Handle): Option<Native> {
    match h.connection
    case Some(Connection(CodexAppServer, url, Some(pid), Some(identity))) =>
      if url != "" && identity != "" && h.pid == pid && NonBlank(h.workAttemptId)
         && h.continuationId.Some? && NonBlank(h.continuationId.value)
      then Some(Native(h.workAttemptId, h.continuationId.value, url, pid, identity))
      else None
    case _ => None
  }

  predicate IdleAt(boundary: Boundary, native: Native) {
    boundary == Idle(native.continuationId, native.processIdentity)
  }

  // ----- the manifest entry handed to every transaction -----

  datatype Provider = Codex | OtherProvider

  datatype Mode = DaemonInbox | McpPolling

  datatype ProviderRef = ProviderRef(
    workAttemptId: Id, generationId: Id, continuationId: Id, connection: Option<Connection>, launchSession: Option<Id>)

  datatype Entry = Entry(
    id: Id, roomId: Id, provider: Provider, deliveryMode: Option<Mode>, running: bool, conditionNone: bool,
    workAttemptId: Option<Id>, ref: Option<ProviderRef>, cutoverPresent: bool)

  function ModeOf(entry: Entry): Mode {
    if entry.deliveryMode.Some? then entry.deliveryMode.value else McpPolling
  }

  function RefNative(ref: ProviderRef): Option<Native> {
    NativeIdentity(Handle(
      ref.workAttemptId, Some(ref.continuationId), ref.connection,
      if ref.connection.Some? && ref.connection.value.pid.Some? then ref.connection.value.pid.value else 0,
      None, None))
  }

  // ----- custodial polling activations and their offers -----

  datatype ActivationPhase = Prepared | Dispatching | Active | Uncertain | Complete | Cancelled

  datatype Outcome = Completed | Failed | Interrupted | Lost

  /** The columns that never change after the insert. */
  datatype ActivationIdentity = ActivationIdentity(
    requestId: Id, agentId: Id, roomId: Id, generationId: Id, reverseOperationId: Id,
    native: Native, configRevision: nat, sessionId: Id, roomCursor: string, createdAt: nat)

  datatype Activation = Activation(
    identity: ActivationIdentity, phase: ActivationPhase, turnId: Option<Id>, outcome: Option<Outcome>,
    updatedAt: nat, compactedThrough: Option<Id>)

  datatype RequestId = TextRequest(text: string) | NumberRequest(number: int)

  datatype Offer = Offer(
    activation: Id, incarnation: string, request: RequestId, epoch: nat, input: string, frontier: string,
    predecessor: Option<Id>, createdAt: nat, acknowledgedAt: Option<nat>)

  // ----- delivery cutovers -----

  datatype CutoverPhase = CutPrepared | Draining | CutDispatching | CutUncertain | CutComplete | CutCancelled | CutFailed

  datatype Strategy = Drain | Force

  datatype Admitted = Admitted(itemId: Id, sourceId: Id, actionId: Id)

  /** The columns present exactly when authority_version is 1. */
  datatype Owned = Owned(roomId: Id, native: Native, nativeTarget: Option<Id>, admitted: Option<Admitted>)

  datatype Cutover = Cutover(
    requestId: Id, agentId: Id, generationId: Id, predecessor: Option<Id>, fromMode: Mode, toMode: Mode,
    strategy: Strategy, phase: CutoverPhase, owned: Option<Owned>, createdAt: nat, updatedAt: nat)

  // ----- the daemon inbox and its receipts -----

  datatype ItemState =
    | Pending | ItemDispatching | AwaitingResult | ResultRecovery | Publishing | Retryable | Blocked
    | Acknowledged | AcknowledgedNoReply | AcknowledgedFailed | CancelledByRoomMove | CancelledByUser

  datatype ItemOutcome = ItemOutcome(kind: string, text: Option<string>, evidence: string) | OpaqueOutcome

  datatype Item = Item(
    agentId: Id, roomId: Id, sourceId: Id, actionId: Id, replyId: Id, fifo: nat, state: ItemState,
    turnId: Option<Id>, outcome: Option<ItemOutcome>, terminalReason: Option<string>, acknowledgedAt: Option<nat>)

  datatype TurnBinding = TurnBinding(
    agentId: Id, roomId: Id, turnId: Id, workAttemptId: Id, generationId: Id, continuationId: Id)

  datatype TerminalResult = TerminalResult(agentId: Id, generationId: Id, turnId: Option<Id>, outcome: ItemOutcome)

  datatype Publication = Publication(agentId: Id, roomId: Id, clientMessageId: Id, canonicalMessageId: Id)

  datatype EffectState = EffectPrepared | EffectExecuting | EffectUncertain | EffectCompleted | EffectFailed

  datatype EffectRow = EffectRow(agentId: Id, state: EffectState)

  // ----- the remaining tables -----

  datatype Binding = Binding(
    roomId: Id, workAttemptId: Id, generationId: Id, sessionId: Id, credential: Id, cursor: Option<string>, epoch: nat)

  datatype Session = Session(roomId: Id, generationId: Id, sessionId: Id, credential: Id, expiresAt: Option<nat>)

  datatype Ingress = Ingress(roomId: Id, cursor: Option<string>)

  datatype Config = Config(revision: nat, runtimeRevision: Option<nat>, mode: Mode, custodial: bool)

  datatype Execution = Execution(generation: nat, terminal: bool)

  /** The tables the journals read and never write; `conflicts` holds the agents with an unresolved
    * turn control, room move or continuation repair. */
  datatype Context = Context(
    sessions: map<Id, Session>, deployments: map<Id, ProviderRef>, executions: map<(Id, Id), Execution>,
    inbox: map<Id, Item>, turnBindings: map<Id, TurnBinding>, nativeFailures: set<Id>,
    terminals: map<Id, TerminalResult>, publications: map<Id, Publication>,
    effects: map<Id, EffectRow>, tombstones: map<Id, EffectRow>, conflicts: set<Id>)

  /** One snapshot of the database. */
  datatype Db = Db(
    activations: map<Id, Activation>, offers: map<Id, Offer>, cutovers: map<Id, Cutover>,
    bindings: map<Id, Binding>, ingress: map<Id, Ingress>, checkpoints: map<Id, seq<Option<string>>>,
    configs: map<Id, Config>, context: Context)

  datatype Refusal =
    | BlankCoordinates | NotAuthenticated | NotIdle | BoundElsewhere | NoOperation | WrongPhase | AuthorityLost
    | ConfigurationChanged | UnresolvedDrain | UnresolvedActivation | ControlConflict | NoPredecessor | NotBeforeActivation
    | TurnMismatch | OutcomeMismatch | NotReady | NoStopIntent | HeadMismatch | BoundaryMismatch | ReceiptMissing
    | CursorAuthorityLost | CursorRegression | IngressElsewhere | ItemLost | ConstraintFailed
    | BadRequest | BadCursor | BehindInput | EpochInvalid | EpochChanged | Superseded | StaleInput
    | AcknowledgementDisagrees | CursorMoved

  /** The outcome of one ownership-fenced transaction: all of its writes or none. */
  datatype Tx<+T> = Commit(db: Db, reply: T) | Abort(refusal: Refusal)

  // ----- shared reads -----

  predicate ActivationUnresolved(a: Activation) { a.phase !in {Complete, Cancelled} }

  predicate CutoverUnresolved(c: Cutover) { c.phase !in {CutComplete, CutCancelled, CutFailed} }

  predicate HasUnresolvedActivation(db: Db, agent: Id) {
    exists id :: id in db.activations && db.activations[id].identity.agentId == agent && ActivationUnresolved(db.activations[id])
  }

  predicate HasUnresolvedDrain(db: Db, agent: Id) {
    exists id :: id in db.cutovers && db.cutovers[id].agentId == agent && CutoverUnresolved(db.cutovers[id])
  }

  /** A later execution generation of the same work attempt exists. */
  predicate HasSuccessor(db: Db, attempt: Id, generation: nat) {
    exists key :: key in db.context.executions && key.0 == attempt && db.context.executions[key].generation > generation
  }

  function Max(a: nat, b: nat): nat { if a < b then b else a }
}
