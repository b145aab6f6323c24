/**
  * Runs of the shared database: every custodial transaction, in any order and with any input,
  * interleaved with arbitrary changes of the tables the journals only read.
  */
module CustodyRuns {
  import opened CustodyTables
  import opened DeliveryDrains
  import opened PollingActivations
  import opened PollingOfferCursor
  import opened PollingOfferLog
  import opened PollingOffers
  import opened Text
  import opened Wrappers

  /** A snapshot with its history: the full offer logs and the activations ever dispatched. */
  datatype World = World(db: Db, logs: map<Id, Log>, dispatched: set<Id>)

  datatype Event =
    | PrepareActivation(input: PrepareInput, current: Option<Entry>, now: nat)
    | DispatchActivation(id: Id, agent: Id, handle: Handle, boundary: Boundary, current: Option<Entry>, now: nat)
    | CheckpointActivationTurn(id: Id, agent: Id, turn: Id, current: Option<Entry>, now: nat)
    | ActivationUncertain(id: Id, agent: Id, now: nat)
    | CancelActivation(id: Id, agent: Id, now: nat)
    | CompleteActivation(id: Id, agent: Id, lastTurn: Option<Id>, outcome: Outcome, current: Option<Entry>, now: nat)
    | RecordOffer(record: RecordInput, current: Option<Entry>, offerId: Id, now: nat)
    | AcknowledgeOffer(scope: Scope, cursor: Option<string>, current: Option<Entry>, now: nat)
    | PrepareCutover(drain: DrainInput, current: Option<Entry>, reverse: Option<Id>, head: Option<Id>, now: nat)
    | CancelCutover(id: Id, agent: Id, now: nat)
    | DispatchCutover(id: Id, agent: Id, handle: Handle, boundary: Boundary, current: Option<Entry>, now: nat)
    | CutoverUncertain(id: Id, agent: Id, now: nat)
    | CommitCutover(id: Id, agent: Id, current: Option<Entry>, now: nat)
    | Environment(next: Db)

  // ----- the environment -----

  /** The position of the daemon's own ingress; -1 before a numeric cursor exists. */
  function Observed(db: Db, agent: Id): int {
    if agent in db.ingress && Numeric(db.ingress[agent].cursor).Some? then Numeric(db.ingress[agent].cursor).value else -1
  }

  function WorkerPosition(b: Binding): int {
    if Numeric(b.cursor).Some? then Numeric(b.cursor).value else -1
  }

  /** Every inbox writer: finished items stay as they are, a new item passes the ingress gate, an item
    * starts dispatching only from pending through the admission gate, and a turn is bound only while
    * dispatching. */
  ghost predicate GatedItem(db: Db, next: Db, id: Id)
    requires id in next.context.inbox
  {
    if id !in db.context.inbox then
      IngressAllowed(db, next.context.inbox[id].agentId) && next.context.inbox[id].state == Pending && next.context.inbox[id].turnId.None?
    else
      var before, after := db.context.inbox[id], next.context.inbox[id];
      && after.agentId == before.agentId && after.roomId == before.roomId && after.sourceId == before.sourceId
      && after.actionId == before.actionId && after.fifo == before.fifo
      && (!Unfinished(before) ==> after == before)
      && (after.state == ItemDispatching && before.state != ItemDispatching ==>
            before.state == Pending && AllowsAdmission(db, id, before))
      && (before.turnId != after.turnId ==> before.turnId.None? && before.state == ItemDispatching)
  }

  /** Every other writer leaves the three journal tables alone, and nothing else is assumed of it:
    * bindings, ingress rows, configurations and inbox items come, go and change as they like. */
  ghost predicate JournalsUntouched(db: Db, next: Db) {
    next.activations == db.activations && next.offers == db.offers && next.cutovers == db.cutovers
  }

  /** Every writer of the agent's inbox goes through its gate. */
  ghost predicate InboxGated(db: Db, next: Db, agent: Id) {
    forall id :: id in next.context.inbox && next.context.inbox[id].agentId == agent ==> GatedItem(db, next, id)
  }

  /** Nobody else moves the cursor of a worker whose activation is unresolved. */
  ghost predicate WorkerKept(db: Db, next: Db, agent: Id) {
    HasUnresolvedActivation(db, agent) && agent in db.bindings ==>
      agent in next.bindings && next.bindings[agent].cursor == db.bindings[agent].cursor
  }

  /** The cursor delivery stands at: the worker's under the custodial contract, ingress otherwise. */
  function Position(db: Db, agent: Id): int {
    if Custodial(db, agent) && agent in db.bindings then WorkerPosition(db.bindings[agent]) else Observed(db, agent)
  }

  ghost predicate CursorsLater(db: Db, next: Db, agent: Id) {
    Position(db, agent) <= Position(next, agent) && Observed(db, agent) <= Observed(next, agent)
  }

  // ----- steps and runs -----

  /** The world after a transaction that leaves the history alone. */
  function Landed<T>(w: World, tx: Tx<T>): World { if tx.Commit? then w.(db := tx.db) else w }

  /** History follows the rows: a new activation starts an empty log, a new offer is appended, an
    * acknowledgement marks the tail, and a dispatched activation is remembered. */
  ghost function Step(w: World, e: Event): World {
    match e
    case PrepareActivation(input, current, now) =>
      (match Prepare(w.db, input, current, now)
       case Commit(db, reply) => World(db, if reply.created then w.logs[input.operationId := Log([], 0)] else w.logs, w.dispatched)
       case Abort(_) => w)
    case DispatchActivation(id, agent, handle, boundary, current, now) =>
      (match MarkDispatch(w.db, id, agent, handle, boundary, current, now)
       case Commit(db, _) => World(db, w.logs, w.dispatched + {id})
       case Abort(_) => w)
    case CheckpointActivationTurn(id, agent, turn, current, now) => Landed(w, CheckpointTurn(w.db, id, agent, turn, current, now))
    case ActivationUncertain(id, agent, now) => Landed(w, MarkUncertain(w.db, id, agent, now))
    case CancelActivation(id, agent, now) => Landed(w, Cancel(w.db, id, agent, now))
    case CompleteActivation(id, agent, turn, outcome, current, now) =>
      Landed(w, CompleteWith(w.db, id, agent, turn, outcome, current, now))
    case RecordOffer(input, current, offerId, now) => RecordStep(w, input, current, offerId, now)
    case AcknowledgeOffer(scope, cursor, current, now) => AcknowledgeStep(w, scope, cursor, current, now)
    case PrepareCutover(input, current, reverse, head, now) =>
      if HeadChoice(w.db, input.agentId, head) then Landed(w, PrepareDrain(w.db, input, current, reverse, head, now)) else w
    case CancelCutover(id, agent, now) => Landed(w, CancelDrain(w.db, id, agent, now))
    case DispatchCutover(id, agent, handle, boundary, current, now) =>
      Landed(w, DispatchDrain(w.db, id, agent, handle, boundary, current, now))
    case CutoverUncertain(id, agent, now) => Landed(w, MarkDrainUncertain(w.db, id, agent, now))
    case CommitCutover(id, agent, current, now) => Landed(w, CommitDrain(w.db, id, agent, current, now))
    case Environment(next) => if JournalsUntouched(w.db, next) then w.(db := next) else w
  }

  ghost function RecordStep(w: World, input: RecordInput, current: Option<Entry>, offerId: Id, now: nat): World {
    var a := input.scope.operationId;
    match Record(w.db, input, current, offerId, now)
    case Commit(db, Some(id)) =>
      if id in w.db.offers || a !in w.logs || input.scope.agentId !in w.db.bindings then w
      else
        var offer := NewOffer(w.db, input, Tail(w.db.offers, a), now);
        World(db, w.logs[a := Compacted(Appended(w.logs[a], offerId, offer))], w.dispatched)
    case _ => w
  }

  ghost function AcknowledgeStep(w: World, scope: Scope, cursor: Option<string>, current: Option<Entry>, now: nat): World {
    var a := scope.operationId;
    match Acknowledge(w.db, scope, cursor, current, now)
    case Commit(db, reply) =>
      if !reply.acknowledged || a !in w.logs || w.logs[a].entries == [] then w
      else
        var tail := w.logs[a].entries[|w.logs[a].entries| - 1].offer;
        if tail.acknowledgedAt.Some? then w
        else World(db, w.logs[a := WithTailAcknowledged(w.logs[a], Max(now, tail.createdAt))], w.dispatched)
    case _ => w
  }

  ghost function Run(w: World, events: seq<Event>): World
    decreases |events|
  {
    if events == [] then w else Step(Run(w, events[..|events| - 1]), events[|events| - 1])
  }

  // ----- what a run may assume of the other writers -----

  ghost predicate GatedRun(w: World, events: seq<Event>, agent: Id) {
    forall n :: 0 <= n < |events| && events[n].Environment? ==> InboxGated(Run(w, events[..n]).db, events[n].next, agent)
  }

  ghost predicate WorkerKeptRun(w: World, events: seq<Event>, agent: Id) {
    forall n :: 0 <= n < |events| && events[n].Environment? ==> WorkerKept(Run(w, events[..n]).db, events[n].next, agent)
  }

  ghost predicate IngressKeptRun(w: World, events: seq<Event>, agent: Id) {
    forall n :: 0 <= n < |events| && events[n].Environment? ==>
      Observed(Run(w, events[..n]).db, agent) <= Observed(events[n].next, agent)
  }

  ghost predicate CursorsKeptRun(w: World, events: seq<Event>, agent: Id) {
    forall n :: 0 <= n < |events| && events[n].Environment? ==> CursorsLater(Run(w, events[..n]).db, events[n].next, agent)
  }

  // ----- the invariant of every reachable state -----

  ghost predicate OneUnresolvedActivation(db: Db) {
    forall i, j | i in db.activations && j in db.activations
      :: db.activations[i].identity.agentId == db.activations[j].identity.agentId
         && ActivationUnresolved(db.activations[i]) && ActivationUnresolved(db.activations[j])
         ==> i == j
  }

  ghost predicate OneUnresolvedDrain(db: Db) {
    forall i, j | i in db.cutovers && j in db.cutovers
      :: db.cutovers[i].agentId == db.cutovers[j].agentId
         && CutoverUnresolved(db.cutovers[i]) && CutoverUnresolved(db.cutovers[j])
         ==> i == j
  }

  /** No agent has both an unresolved drain and an unresolved activation. */
  ghost predicate Exclusive(db: Db) {
    forall agent :: HasUnresolvedActivation(db, agent) ==> !HasUnresolvedDrain(db, agent)
  }

  ghost predicate DispatchRecorded(w: World) {
    && w.dispatched <= w.db.activations.Keys
    && forall id :: id in w.db.activations ==>
         (id in w.dispatched <==> w.db.activations[id].phase !in {Prepared, Cancelled})
  }

  ghost predicate LogRefined(db: Db, id: Id, log: Log) {
    && Refines(db, id, log)
    && (log.first == 0 || log.first == |log.entries| - REPLAY_WINDOW)
    && Recordable(log.entries)
  }

  ghost predicate LogsRefined(w: World) {
    && w.logs.Keys == w.db.activations.Keys
    && Closed(w.db.offers) && InvocationsUnique(w.db.offers)
    && (forall id :: id in w.db.offers ==> w.db.offers[id].activation in w.db.activations)
    && forall id {:trigger LogRefined(w.db, id, w.logs[id])} :: id in w.db.activations ==> LogRefined(w.db, id, w.logs[id])
  }

  /** The worker cursor of an unresolved activation is where its acknowledged offers have led. */
  ghost predicate WorkerAt(w: World, id: Id)
    requires id in w.db.activations && id in w.logs
  {
    var a := w.db.activations[id];
    && a.identity.agentId in w.db.bindings
    && w.db.bindings[a.identity.agentId].cursor == Some(Reached(a.identity.roomCursor, w.logs[id].entries))
  }

  ghost predicate AccountedAt(w: World, id: Id)
    requires id in w.db.activations && id in w.logs
  {
    && Advances(w.db.activations[id].identity.roomCursor, w.logs[id].entries)
    && (ActivationUnresolved(w.db.activations[id]) ==> WorkerAt(w, id))
  }

  /** The cursor accounting of one agent; it holds while nobody else moves its worker cursor. */
  ghost predicate Accounted(w: World, agent: Id) {
    forall id {:trigger AccountedAt(w, id)} :: id in w.db.activations && id in w.logs && w.db.activations[id].identity.agentId == agent ==>
      AccountedAt(w, id)
  }

  ghost predicate Stopped(c: Cutover) { OwnedShape(c) && BlocksRuntime(c) }

  /** After the durable stop intent the agent has no unfinished inbox item; it holds while every writer of
    * that inbox goes through its gate. */
  ghost predicate Quiet(db: Db, agent: Id) {
    forall d, item :: d in db.cutovers && item in db.context.inbox && Stopped(db.cutovers[d]) && db.cutovers[d].agentId == agent ==>
      !Awaits(db, agent, item)
  }

  ghost predicate Inv(w: World) {
    && ActivationsAccepted(w.db) && OneUnresolvedActivation(w.db) && OneUnresolvedDrain(w.db) && Exclusive(w.db)
    && DispatchRecorded(w) && LogsRefined(w)
  }

  /** Both journals are empty; every other table is arbitrary. */
  ghost predicate Init(w: World) {
    w.db.activations == map[] && w.db.offers == map[] && w.db.cutovers == map[] && w.logs == map[] && w.dispatched == {}
  }

  lemma InitInv(w: World)
    requires Init(w)
    ensures Inv(w) && forall agent :: Quiet(w.db, agent) && Accounted(w, agent)
  {
  }

  // ----- every step is one of a few changes -----

  /** A new activation of an agent with neither an unresolved activation nor an unresolved drain,
    * frozen at the worker's acknowledged cursor. */
  ghost predicate ActivationInserted(w: World, next: World, id: Id, a: Activation) {
    && id !in w.db.activations
    && next == World(w.db.(activations := w.db.activations[id := a]), w.logs[id := Log([], 0)], w.dispatched)
    && RowAccepted(id, a) && a.phase == Prepared && a.turnId.None? && a.compactedThrough.None?
    && !HasUnresolvedActivation(w.db, a.identity.agentId) && !HasUnresolvedDrain(w.db, a.identity.agentId)
    && a.identity.agentId in w.db.bindings && w.db.bindings[a.identity.agentId].cursor == Some(a.identity.roomCursor)
  }

  /** One accepted update; a row leaves `Prepared` by a remembered dispatch or by a cancellation. */
  ghost predicate ActivationUpdated(w: World, next: World, id: Id) {
    && ActivationWrite(w.db, next.db, id)
    && next.logs == w.logs
    && (if w.db.activations[id].phase == Prepared && next.db.activations[id].phase == Dispatching
        then next.dispatched == w.dispatched + {id}
        else next.dispatched == w.dispatched)
    && (w.db.activations[id].phase == Prepared ==> next.db.activations[id].phase in {Dispatching, Cancelled})
    && (next.db.activations[id].phase == Cancelled ==> w.db.activations[id].phase == Prepared)
  }

  /** A new offer at the end of the log of an active activation, recorded at the worker's cursor. */
  ghost predicate OfferRecorded(w: World, next: World, a: Id, offerId: Id, offer: Offer) {
    && a in w.logs && a in w.db.activations && w.db.activations[a].phase == Active
    && next == World(next.db, w.logs[a := Compacted(Appended(w.logs[a], offerId, offer))], w.dispatched)
    && Refines(next.db, a, next.logs[a]) && Closed(next.db.offers) && ElsewhereSame(w.db, next.db, a)
    && NonBlank(offerId) && OfferAccepted(offer) && offer.acknowledgedAt.None?
    && CursorValue(offer.input) <= CursorValue(offer.frontier)
    && (forall other :: other in w.db.offers ==> !SameInvocation(w.db.offers[other], a, offer.incarnation, offer.request))
    && w.db.activations[a].identity.agentId in w.db.bindings
    && w.db.bindings[w.db.activations[a].identity.agentId].cursor == Some(offer.input)
  }

  /** The unacknowledged tail of an active activation acknowledged, with the worker cursor. */
  ghost predicate OfferAcknowledged(w: World, next: World, a: Id, at: nat) {
    && a in w.logs && a in w.db.activations && w.db.activations[a].phase == Active && w.logs[a].entries != []
    && var tail := w.logs[a].entries[|w.logs[a].entries| - 1];
       var agent := w.db.activations[a].identity.agentId;
       && tail.id in w.db.offers && tail.offer.acknowledgedAt.None? && tail.offer.createdAt <= at
       && agent in w.db.bindings && w.db.bindings[agent].cursor == Some(tail.offer.input)
       && next == World(
            w.db.(offers := w.db.offers[tail.id := w.db.offers[tail.id].(acknowledgedAt := Some(at))],
                  bindings := w.db.bindings[agent := w.db.bindings[agent].(cursor := Some(tail.offer.frontier))]),
            w.logs[a := WithTailAcknowledged(w.logs[a], at)], w.dispatched)
  }

  ghost predicate CutoverInserted(w: World, next: World, id: Id, c: Cutover) {
    && id !in w.db.cutovers && next == w.(db := w.db.(cutovers := w.db.cutovers[id := c]))
    && c.phase == Draining && OwnedShape(c)
    && !HasUnresolvedDrain(w.db, c.agentId) && !HasUnresolvedActivation(w.db, c.agentId)
  }

  /** A drain cancelled before its stop intent, stopped once nothing awaits, or found uncertain. */
  ghost predicate CutoverMoved(w: World, next: World, id: Id, c: Cutover) {
    && id in w.db.cutovers && next == w.(db := SetCutover(w.db, id, c))
    && c == w.db.cutovers[id].(phase := c.phase, updatedAt := c.updatedAt)
    && CutoverUnresolved(w.db.cutovers[id])
    && match c.phase
       case CutCancelled => !BlocksRuntime(w.db.cutovers[id])
       case CutDispatching =>
         !BlocksRuntime(w.db.cutovers[id]) && forall item :: item in w.db.context.inbox ==> !Awaits(w.db, c.agentId, item)
       case CutUncertain => w.db.cutovers[id].phase == CutDispatching
       case _ => false
  }

  /** A stopped drain committed: its cursor handed over and the delivery contract switched. */
  ghost predicate CutoverCommitted(w: World, next: World, id: Id, cursor: string) {
    && id in w.db.cutovers && Stopped(w.db.cutovers[id])
    && var c := w.db.cutovers[id];
       && c.agentId in w.db.configs && w.db.configs[c.agentId].custodial == IsForward(c)
       && TransferCursor(w.db, c) == Ok(Some(cursor)) && IsCursor(cursor)
       && exists now ::
            next == w.(db := SetCutover(
              Switched(Checkpointed(Transferred(w.db, c, cursor), c.owned.value.native.workAttemptId, cursor), c),
              id, MovedTo(c, CutComplete, now)))
  }

  ghost predicate EnvironmentChanged(w: World, next: World) {
    next == w.(db := next.db) && JournalsUntouched(w.db, next.db)
  }

  ghost predicate ChangedBeforeCommit(w: World, next: World) {
    || next == w
    || (exists id, a :: ActivationInserted(w, next, id, a))
    || (exists id :: ActivationUpdated(w, next, id))
    || (exists a, offerId, offer :: OfferRecorded(w, next, a, offerId, offer))
    || (exists a, at :: OfferAcknowledged(w, next, a, at))
    || (exists id, c :: CutoverInserted(w, next, id, c))
    || (exists id, c :: CutoverMoved(w, next, id, c))
  }

  /** What a transaction of the journals may change. */
  ghost predicate Changed(w: World, next: World) {
    ChangedBeforeCommit(w, next) || exists id, cursor :: CutoverCommitted(w, next, id, cursor)
  }

  lemma PrepareChanges(w: World, input: PrepareInput, current: Option<Entry>, now: nat)
    ensures var tx := Prepare(w.db, input, current, now);
            tx.Commit? ==>
              if tx.reply.created
              then ActivationInserted(w, World(tx.db, w.logs[input.operationId := Log([], 0)], w.dispatched),
                                      input.operationId, tx.reply.activation)
              else tx.db == w.db
  {
  }

  lemma DispatchChanges(w: World, id: Id, agent: Id, handle: Handle, boundary: Boundary, current: Option<Entry>, now: nat)
    requires ActivationsAccepted(w.db) && DispatchRecorded(w)
    ensures var tx := MarkDispatch(w.db, id, agent, handle, boundary, current, now);
            tx.Commit? ==>
              var next := World(tx.db, w.logs, w.dispatched + {id});
              next == w || ActivationUpdated(w, next, id)
  {
    if id in w.db.activations { assert RowAccepted(id, w.db.activations[id]); }
    DispatchAccepted(w.db, id, agent, handle, boundary, current, now);
    if id in w.dispatched { assert w.dispatched + {id} == w.dispatched; }
  }

  /** Outside the dispatch transaction, an accepted update never enters `Dispatching`. */
  lemma UpdateChanges(w: World, tx: Tx<Activation>, id: Id)
    requires tx.Commit? ==>
               tx.db == w.db
               || (&& ActivationWrite(w.db, tx.db, id)
                   && tx.db.activations[id].phase != Dispatching
                   && (w.db.activations[id].phase == Prepared <==> tx.db.activations[id].phase == Cancelled))
    ensures Landed(w, tx) == w || ActivationUpdated(w, Landed(w, tx), id)
  {
  }

  lemma PrepareCutoverChanges(
    w: World, input: DrainInput, current: Option<Entry>, reverse: Option<Id>, head: Option<Id>, now: nat)
    requires HeadChoice(w.db, input.agentId, head)
    ensures var tx := PrepareDrain(w.db, input, current, reverse, head, now);
            tx.Commit? ==>
              if tx.reply.created then CutoverInserted(w, Landed(w, tx), input.operationId, tx.reply.cutover) else tx.db == w.db
  {
  }

  lemma NothingAwaitsWhenReady(db: Db, id: Id)
    requires ReadyCursor(db, id).Ok?
    ensures forall item :: item in db.context.inbox ==> !Awaits(db, db.cutovers[id].agentId, item)
  {
    var c := db.cutovers[id];
    forall item | item in db.context.inbox
      ensures !Awaits(db, c.agentId, item)
    {
      assert !OtherWork(db, c);
    }
  }

  lemma DispatchCutoverChanges(
    w: World, id: Id, agent: Id, handle: Handle, boundary: Boundary, current: Option<Entry>, now: nat)
    ensures var tx := DispatchDrain(w.db, id, agent, handle, boundary, current, now);
            Landed(w, tx) == w || CutoverMoved(w, Landed(w, tx), id, MovedTo(w.db.cutovers[id], CutDispatching, now))
  {
    var tx := DispatchDrain(w.db, id, agent, handle, boundary, current, now);
    if tx.Commit? { NothingAwaitsWhenReady(w.db, id); }
  }

  lemma CommitCutoverChanges(w: World, id: Id, agent: Id, current: Option<Entry>, now: nat)
    ensures var tx := CommitDrain(w.db, id, agent, current, now);
            tx.Commit? ==> CutoverCommitted(w, Landed(w, tx), id, ReadyCursor(w.db, id).value)
  {
  }

  /** An offer transaction either changes nothing, appends to the log or acknowledges its tail. */
  lemma RecordChanges(w: World, input: RecordInput, current: Option<Entry>, offerId: Id, now: nat)
    requires LogsRefined(w)
    ensures var next := RecordStep(w, input, current, offerId, now);
            next == w || OfferRecorded(w, next, input.scope.operationId, offerId, NewOffer(w.db, input, Tail(w.db.offers, input.scope.operationId), now))
  {
    var a := input.scope.operationId;
    var tx := Record(w.db, input, current, offerId, now);
    if tx.Commit? && tx.reply.Some? && tx.reply.value !in w.db.offers {
      assert LogRefined(w.db, a, w.logs[a]);
      TailIsLast(w.db, a, w.logs[a]);
      RecordAppends(w.db, w.logs[a], input, current, offerId, now);
    }
  }

  lemma AcknowledgeChanges(w: World, scope: Scope, cursor: Option<string>, current: Option<Entry>, now: nat)
    requires LogsRefined(w)
    ensures var next := AcknowledgeStep(w, scope, cursor, current, now);
            next == w || exists at :: OfferAcknowledged(w, next, scope.operationId, at)
  {
    var a := scope.operationId;
    var tx := Acknowledge(w.db, scope, cursor, current, now);
    if AcknowledgeStep(w, scope, cursor, current, now) != w {
      assert LogRefined(w.db, a, w.logs[a]);
      TailIsLast(w.db, a, w.logs[a]);
      var tail := w.logs[a].entries[|w.logs[a].entries| - 1];
      hide LogRefined, LogsRefined;
      assert Retained(w.logs[a], |w.logs[a].entries| - 1);
      assert w.db.offers[tail.id] == Shown(w.logs[a], |w.logs[a].entries| - 1);
      assert OfferAcknowledged(w, AcknowledgeStep(w, scope, cursor, current, now), a, Max(now, tail.offer.createdAt));
    }
  }
}
