/**
  * The shared database as the daemon uses it: tables updated in place, one method for each exported
  * operation. Every method takes exactly the step that runs are made of, so every theorem about
  * runs is a theorem about sequences of these calls.
  */
module CustodyDatabase {
  import opened CustodyAnswers
  import opened CustodyInvariant
  import opened CustodyRuns
  import opened CustodyTables
  import opened CustodyTheorems
  import opened DeliveryDrains
  import opened PollingActivations
  import opened PollingOfferLog
  import opened PollingOffers
  import opened Text
  import opened Wrappers

  // ----- queries have one answer -----

  lemma OpenDrainIsUnique(w: World, id: Id)
    requires Inv(w) && id in w.db.cutovers && CutoverUnresolved(w.db.cutovers[id])
    ensures OpenDrain(w.db, w.db.cutovers[id].agentId) == Some(id)
  {
    assert HasUnresolvedDrain(w.db, w.db.cutovers[id].agentId);
  }

  lemma TailIsUnique(w: World, activation: Id, id: Id)
    requires Inv(w) && IsTail(w.db.offers, activation, id)
    ensures Tail(w.db.offers, activation) == Some(id)
  {
    var log := w.logs[activation];
    assert LogRefined(w.db, activation, log);
    TailIsLast(w.db, activation, log);
    var i :| Retained(log, i) && log.entries[i].id == id;
    TailCharacter(w.db, activation, log, i);
  }

  lemma PriorIsUnique(w: World, activation: Id, incarnation: string, request: RequestId, id: Id)
    requires Inv(w) && id in w.db.offers && SameInvocation(w.db.offers[id], activation, incarnation, request)
    ensures Prior(w.db.offers, activation, incarnation, request) == Some(id)
  {
    var prior := Prior(w.db.offers, activation, incarnation, request);
    assert Clash(w.db.offers, prior.value, id);
  }

  /** Beyond the window there is exactly one root, and every trigger lets its deletion through. */
  lemma OneRootToDelete(db: Db, activation: Id, log: Log)
    requires Refines(db, activation, log) && Closed(db.offers)
    requires |log.entries| - log.first > REPLAY_WINDOW
    ensures var root := log.entries[log.first].id;
            && (forall id :: id in db.offers ==> (IsRoot(db.offers, activation, id) <==> id == root))
            && root in db.offers && DeleteAccepted(db.offers, root)
            && AnchorAccepted(db.offers - {root}, activation, db.activations[activation].compactedThrough, Some(root))
            && DeleteRoot(db, activation) == DeleteRow(db, root)
  {
    DeleteRootAccepted(db, activation, log);
    assert Retained(log, log.first);
    forall id | id in db.offers
      ensures IsRoot(db.offers, activation, id) <==> id == log.entries[log.first].id
    {
      RootIsFirst(db.offers, activation, log, id);
    }
  }

  /** The chain with its new offer still refines the log. */
  lemma InsertedChain(w: World, activation: Id, offerId: Id, offer: Offer)
    requires Inv(w) && activation in w.db.activations && offerId !in w.db.offers
    requires offer.activation == activation && offer.predecessor == Tail(w.db.offers, activation)
    ensures var inserted := w.db.(offers := w.db.offers[offerId := offer]);
            Closed(inserted.offers) && Refines(inserted, activation, Appended(w.logs[activation], offerId, offer))
  {
    var log := w.logs[activation];
    assert LogRefined(w.db, activation, log);
    TailIsLast(w.db, activation, log);
    InsertRefines(w.db, activation, log, offerId, offer);
  }

  /** The history step of a record never hides or invents a committed row. */
  lemma RecordLands(w: World, input: RecordInput, current: Option<Entry>, offerId: Id, now: nat)
    requires Inv(w)
    ensures var tx := Record(w.db, input, current, offerId, now); var next := RecordStep(w, input, current, offerId, now);
            && next.db == (if tx.Commit? then tx.db else w.db)
            && (next.db == w.db ==> next == w)
  {
    var a := input.scope.operationId;
    if RecordGuard(w.db, input, current, now).None?
       && Prior(w.db.offers, a, input.scope.incarnation, input.request).None?
       && w.db.bindings[input.scope.agentId].cursor == Some(input.input) && input.frontier != input.input {
      RecordRefusedByConstraint(w, input, current, offerId, now);
      if NonBlank(offerId) && offerId !in w.db.offers { FirstRecordCompacts(w, input, current, offerId, now); }
    }
  }

  /** The newest entry of a chain is its tail row. */
  lemma TailRowIsLastEntry(w: World, a: Id)
    requires Inv(w) && a in w.db.activations
    ensures a in w.logs && Tail(w.db.offers, a) == LastId(w.logs[a])
    ensures w.logs[a].entries != [] ==>
              var last := w.logs[a].entries[|w.logs[a].entries| - 1];
              last.id in w.db.offers && w.db.offers[last.id] == last.offer.(predecessor := w.db.offers[last.id].predecessor)
  {
    var log := w.logs[a];
    assert LogRefined(w.db, a, log);
    TailIsLast(w.db, a, log);
    if log.entries != [] { WindowEntry(w.db, a, log, |log.entries| - 1); }
  }

  lemma AcknowledgeLands(w: World, scope: Scope, cursor: Option<string>, current: Option<Entry>, now: nat)
    requires Inv(w)
    ensures var tx := Acknowledge(w.db, scope, cursor, current, now);
            var next := AcknowledgeStep(w, scope, cursor, current, now);
            && next.db == (if tx.Commit? then tx.db else w.db)
            && (next.db == w.db ==> next == w)
  {
    hide Inv;
    if OfferAuthority(w.db, scope, current, now).None? {
      TailRowIsLastEntry(w, scope.operationId);
      hide OfferAuthority;
    }
  }

  lemma RecordSteps(w: World, input: RecordInput, current: Option<Entry>, offerId: Id, now: nat)
    ensures Step(w, RecordOffer(input, current, offerId, now)) == RecordStep(w, input, current, offerId, now)
  {
  }

  lemma AcknowledgeSteps(w: World, scope: Scope, cursor: Option<string>, current: Option<Entry>, now: nat)
    ensures Step(w, AcknowledgeOffer(scope, cursor, current, now)) == AcknowledgeStep(w, scope, cursor, current, now)
  {
  }

  /** The run step of an acknowledgement in terms of its transaction alone. */
  lemma AcknowledgeStepLands(w: World, scope: Scope, cursor: Option<string>, current: Option<Entry>, now: nat)
    requires Inv(w)
    ensures var tx := Acknowledge(w.db, scope, cursor, current, now);
            var next := Step(w, AcknowledgeOffer(scope, cursor, current, now));
            && next.db == (if tx.Commit? then tx.db else w.db)
            && (next.db == w.db ==> next == w)
  {
    hide Inv;
    AcknowledgeSteps(w, scope, cursor, current, now);
    AcknowledgeLands(w, scope, cursor, current, now);
  }

  lemma PrepareCutoverLands(
    w: World, input: DrainInput, current: Option<Entry>, reverse: Option<Id>, head: Option<Id>, now: nat)
    requires HeadChoice(w.db, input.agentId, head)
    ensures var tx := PrepareDrain(w.db, input, current, reverse, head, now);
            Step(w, PrepareCutover(input, current, reverse, head, now)) == if tx.Commit? then w.(db := tx.db) else w
  {
    hide Draft;
  }

  lemma CommitLands(w: World, id: Id, agent: Id, current: Option<Entry>, now: nat)
    ensures var tx := CommitDrain(w.db, id, agent, current, now);
            Step(w, CommitCutover(id, agent, current, now)) == if tx.Commit? then w.(db := tx.db) else w
  {
  }

  // ----- the tables, updated in place -----

  class CustodyDatabase {
    var activations: map<Id, Activation>
    var offers: map<Id, Offer>
    var cutovers: map<Id, Cutover>
    var bindings: map<Id, Binding>
    var ingress: map<Id, Ingress>
    var checkpoints: map<Id, seq<Option<string>>>
    var configs: map<Id, Config>
    var context: Context
    ghost var logs: map<Id, Log>
    ghost var dispatched: set<Id>

    function Snapshot(): Db
      reads this
    {
      Db(activations, offers, cutovers, bindings, ingress, checkpoints, configs, context)
    }

    ghost function Now(): World
      reads this
    {
      World(Snapshot(), logs, dispatched)
    }

    ghost predicate Valid()
      reads this
    {
      Inv(Now())
    }

    /** Empty journals beside whatever the other tables hold. */
    constructor (workers: map<Id, Binding>, observed: map<Id, Ingress>, saved: map<Id, seq<Option<string>>>,
                 agents: map<Id, Config>, others: Context)
      ensures Valid() && Init(Now())
      ensures Snapshot() == Db(map[], map[], map[], workers, observed, saved, agents, others)
    {
      activations, offers, cutovers := map[], map[], map[];
      bindings, ingress, checkpoints, configs, context := workers, observed, saved, agents, others;
      logs, dispatched := map[], {};
    }

    /** Brings the history up to date with rows already written by event `e`. */
    ghost method Remember(before: World, e: Event)
      requires Inv(before) && Snapshot() == Step(before, e).db
      modifies this`logs, this`dispatched
      ensures Now() == Step(before, e) && Valid()
    {
      hide Step, Inv;
      var next := Step(before, e);
      logs, dispatched := next.logs, next.dispatched;
      StepKeepsInv(before, e);
    }

    // ----- custodial polling activations -----

    /** Answers a request that is malformed, known or refused; returns the new row of any other. */
    method AnswerActivation(input: PrepareInput, current: Option<Entry>, now: nat)
        returns (reply: Result<PrepareReply, Refusal>)
      ensures var tx := Prepare(Snapshot(), input, current, now);
              && reply == Answer(tx)
              && (reply.Ok? ==>
                    tx.db == if reply.value.created
                             then Snapshot().(activations := activations[input.operationId := reply.value.activation]) else Snapshot())
      ensures reply.Ok? && reply.value.created ==>
                var row := reply.value.activation;
                && input.operationId !in activations && RowAccepted(input.operationId, row)
                && row.phase == Prepared && row.turnId.None? && row.outcome.None?
                && input.agentId in bindings && bindings[input.agentId].cursor == Some(row.identity.roomCursor)
                && CompletedReverse(Snapshot(), row.identity.reverseOperationId, input.agentId, input.roomId,
                                    row.identity.native.workAttemptId)
                && !HasUnresolvedActivation(Snapshot(), input.agentId) && !HasUnresolvedDrain(Snapshot(), input.agentId)
    {
      var db := Snapshot();
      if exists s :: s in [input.operationId, input.requestId, input.agentId, input.roomId, input.generationId,
                           input.reverseOperationId] && !NonBlank(s) {
        return Err(BlankCoordinates);
      }
      var authenticated := NativeIdentity(input.handle);
      if authenticated.None? { return Err(NotAuthenticated); }
      var native := authenticated.value;
      if !IdleAt(input.boundary, native) { return Err(NotIdle); }
      if RequestKnown(db, input) {
        if input.operationId !in activations
           || !SameActivationRequest(input.operationId, activations[input.operationId], input, native) {
          return Err(BoundElsewhere);
        }
        return Ok(PreparedActivation(false, activations[input.operationId]));
      }
      if !CompletedReverse(db, input.reverseOperationId, input.agentId, input.roomId, native.workAttemptId)
         || !SuccessorRuntime(db, native.workAttemptId, cutovers[input.reverseOperationId].generationId, input.generationId) {
        return Err(NoPredecessor);
      }
      if !PreparableWorker(db, input) { return Err(ConfigurationChanged); }
      var row := FreshActivation(db, input, native, now);
      if !CurrentAuthority(db, row, current, false) || !MatchesRuntime(row, current.value, Some(input.handle)) {
        return Err(AuthorityLost);
      }
      if HasUnresolvedActivation(db, input.agentId) { return Err(UnresolvedActivation); }
      if !RowAccepted(input.operationId, row) { return Err(ConstraintFailed); }
      return Ok(PreparedActivation(true, row));
    }

    method PreparePollingActivation(input: PrepareInput, current: Option<Entry>, now: nat)
        returns (reply: Result<PrepareReply, Refusal>)
      requires Valid()
      modifies this
      ensures Valid() && Now() == Step(old(Now()), PrepareActivation(input, current, now))
      ensures reply == Answer(Prepare(old(Snapshot()), input, current, now))
      ensures PreparedLaw(old(Snapshot()), Snapshot(), input, current, reply)
    {
      hide Inv, Prepare, PreparedLaw;
      ghost var before := Now();
      PreparationIsExact(before.db, input, current, now);
      reply := AnswerActivation(input, current, now);
      if reply.Ok? && reply.value.created {
        activations := activations[input.operationId := reply.value.activation];
        Remember(before, PrepareActivation(input, current, now));
      }
    }

    /** Writes one activation row unless the native-turn index refuses it. */
    method WriteActivation(id: Id, row: Activation) returns (reply: Result<Activation, Refusal>)
      modifies this`activations
      ensures reply == Answer(Update(old(Snapshot()), id, row))
      ensures Snapshot() == if reply.Ok? then Update(old(Snapshot()), id, row).db else old(Snapshot())
    {
      if !NativeTurnFree(Snapshot(), id, row) { return Err(ConstraintFailed); }
      activations := activations[id := row];
      return Ok(row);
    }

    method MarkPollingActivationDispatch(
        id: Id, agent: Id, handle: Handle, boundary: Boundary, current: Option<Entry>, now: nat)
        returns (reply: Result<Activation, Refusal>)
      requires Valid()
      modifies this
      ensures Valid() && Now() == Step(old(Now()), DispatchActivation(id, agent, handle, boundary, current, now))
      ensures reply == Answer(MarkDispatch(old(Snapshot()), id, agent, handle, boundary, current, now))
      ensures DispatchLaw(old(Snapshot()), Snapshot(), id, agent, handle, boundary, current, reply)
    {
      hide Inv, DispatchLaw;
      ghost var before := Now();
      DispatchIsExact(before, id, agent, handle, boundary, current, now);
      var db := Snapshot();
      if !OwnedActivation(db, id, agent) { return Err(NoOperation); }
      var row := activations[id];
      var native := NativeIdentity(handle);
      if native.None? { return Err(NotAuthenticated); }
      if !IdleAt(boundary, native.value) { return Err(NotIdle); }
      if native.value != row.identity.native
         || (handle.appliedRevision.Some? && handle.appliedRevision != Some(row.identity.configRevision)) {
        return Err(AuthorityLost);
      }
      if row.phase !in {Prepared, Dispatching} { return Err(WrongPhase); }
      if !CurrentAuthority(db, row, current, false) || !MatchesRuntime(row, current.value, Some(handle)) {
        return Err(AuthorityLost);
      }
      reply := Ok(row);
      if row.phase == Prepared { reply := WriteActivation(id, Moved(row, Dispatching, now)); }
      if reply.Ok? { Remember(before, DispatchActivation(id, agent, handle, boundary, current, now)); }
    }

    method CheckpointPollingActivationTurn(id: Id, agent: Id, turn: Id, current: Option<Entry>, now: nat)
        returns (reply: Result<Activation, Refusal>)
      requires Valid()
      modifies this
      ensures Valid() && Now() == Step(old(Now()), CheckpointActivationTurn(id, agent, turn, current, now))
      ensures reply == Answer(CheckpointTurn(old(Snapshot()), id, agent, turn, current, now))
      ensures TurnLaw(old(Snapshot()), Snapshot(), id, agent, turn, current, reply)
    {
      hide Inv, TurnLaw;
      ghost var before := Now();
      CheckpointIsExact(before, id, agent, turn, current, now);
      var db := Snapshot();
      if !OwnedActivation(db, id, agent) { return Err(NoOperation); }
      if !NonBlank(turn) { return Err(BlankCoordinates); }
      var row := activations[id];
      if row.turnId.Some? {
        if row.turnId != Some(turn) { return Err(TurnMismatch); }
        if row.phase != Complete && !CurrentAuthority(db, row, current, false) { return Err(AuthorityLost); }
        if row.phase != Uncertain { return Ok(row); }
        reply := WriteActivation(id, Moved(row, Active, now));
      } else {
        if row.phase !in {Dispatching, Uncertain} { return Err(WrongPhase); }
        if !CurrentAuthority(db, row, current, false) { return Err(AuthorityLost); }
        reply := WriteActivation(id, Moved(row, Active, now).(turnId := Some(turn)));
      }
      if reply.Ok? { Remember(before, CheckpointActivationTurn(id, agent, turn, current, now)); }
    }

    method MarkPollingActivationUncertain(id: Id, agent: Id, now: nat) returns (reply: Result<Activation, Refusal>)
      requires Valid()
      modifies this
      ensures Valid() && Now() == Step(old(Now()), ActivationUncertain(id, agent, now))
      ensures reply == Answer(MarkUncertain(old(Snapshot()), id, agent, now))
      ensures UncertaintyLaw(old(Snapshot()), Snapshot(), id, agent, reply)
    {
      hide Inv, UncertaintyLaw;
      ghost var before := Now();
      UncertaintyIsExact(before, id, agent, now);
      if !OwnedActivation(Snapshot(), id, agent) { return Err(NoOperation); }
      var row := activations[id];
      if row.phase == Uncertain { return Ok(row); }
      if row.phase !in {Dispatching, Active} { return Err(WrongPhase); }
      reply := WriteActivation(id, Moved(row, Uncertain, now));
      if reply.Ok? { Remember(before, ActivationUncertain(id, agent, now)); }
    }

    method CancelPollingActivation(id: Id, agent: Id, now: nat) returns (reply: Result<Activation, Refusal>)
      requires Valid()
      modifies this
      ensures Valid() && Now() == Step(old(Now()), CancelActivation(id, agent, now))
      ensures reply == Answer(Cancel(old(Snapshot()), id, agent, now))
      ensures CancellationLaw(old(Snapshot()), Snapshot(), id, agent, reply)
    {
      hide Inv, CancellationLaw;
      ghost var before := Now();
      CancellationIsExact(before, id, agent, now);
      if !OwnedActivation(Snapshot(), id, agent) { return Err(NoOperation); }
      var row := activations[id];
      if row.phase == Cancelled { return Ok(row); }
      if row.phase != Prepared { return Err(WrongPhase); }
      reply := WriteActivation(id, Moved(row, Cancelled, now));
      if reply.Ok? { Remember(before, CancelActivation(id, agent, now)); }
    }

    method CompletePollingActivation(id: Id, agent: Id, turn: Option<Id>, outcome: Outcome, current: Option<Entry>, now: nat)
        returns (reply: Result<Activation, Refusal>)
      requires Valid()
      modifies this
      ensures Valid() && Now() == Step(old(Now()), CompleteActivation(id, agent, turn, outcome, current, now))
      ensures reply == Answer(CompleteWith(old(Snapshot()), id, agent, turn, outcome, current, now))
      ensures CompletionLaw(old(Snapshot()), Snapshot(), id, agent, turn, outcome, reply)
    {
      hide Inv, CompletionLaw;
      ghost var before := Now();
      CompletionIsExact(before, id, agent, turn, outcome, current, now);
      var db := Snapshot();
      if !OwnedActivation(db, id, agent) { return Err(NoOperation); }
      var row := activations[id];
      if turn != row.turnId || (turn.None? && outcome != Lost) { return Err(OutcomeMismatch); }
      if row.phase == Complete {
        if row.outcome != Some(outcome) { return Err(OutcomeMismatch); }
        return Ok(row);
      }
      if row.phase !in {Dispatching, Active, Uncertain} { return Err(WrongPhase); }
      if !CurrentAuthority(db, row, current, true) { return Err(AuthorityLost); }
      reply := WriteActivation(id, Moved(row, Complete, now).(outcome := Some(outcome)));
      if reply.Ok? { Remember(before, CompleteActivation(id, agent, turn, outcome, current, now)); }
    }

    // ----- offers -----

    method GetPollingOfferTail(activation: Id) returns (tail: Option<Id>)
      requires Valid()
      ensures tail == Tail(offers, activation)
    {
      tail := None;
      if exists id :: id in offers && IsTail(offers, activation, id) {
        var id :| id in offers && IsTail(offers, activation, id);
        TailIsUnique(Now(), activation, id);
        tail := Some(id);
      }
    }

    /** Removes the one root of a chain beyond the window: its child loses its predecessor and the
      * activation remembers it. */
    method DeleteRootRow(activation: Id, ghost log: Log)
      requires Refines(Snapshot(), activation, log) && Closed(offers)
      requires |log.entries| - log.first > REPLAY_WINDOW
      modifies this`offers, this`activations
      ensures DeleteRoot(old(Snapshot()), activation) == Commit(Snapshot(), ())
      ensures Refines(Snapshot(), activation, log.(first := log.first + 1)) && Closed(offers)
    {
      OneRootToDelete(Snapshot(), activation, log);
      DeleteRootAdvances(Snapshot(), activation, log);
      assert IsRoot(offers, activation, log.entries[log.first].id);
      var root :| root in offers && IsRoot(offers, activation, root);
      offers := Detached(offers - {root}, root);
      activations := activations[activation := activations[activation].(compactedThrough := Some(root))];
    }

    /** The row of an invocation, if it is still retained. */
    method FindInvocation(activation: Id, incarnation: string, request: RequestId) returns (prior: Option<Id>)
      requires Valid()
      ensures prior == Prior(offers, activation, incarnation, request)
    {
      prior := None;
      if exists id :: id in offers && SameInvocation(offers[id], activation, incarnation, request) {
        var id :| id in offers && SameInvocation(offers[id], activation, incarnation, request);
        PriorIsUnique(Now(), activation, incarnation, request, id);
        prior := Some(id);
      }
    }

    /** Answers a retained invocation from its row, and refuses what may not be published. */
    method AnswerRecord(input: RecordInput, current: Option<Entry>, offerId: Id, now: nat)
        returns (answer: Option<Result<Option<Id>, Refusal>>, tail: Option<Id>)
      requires Valid()
      ensures answer.Some? ==>
                var tx := Record(Snapshot(), input, current, offerId, now);
                answer.value == Answer(tx) && (tx.Commit? ==> tx.db == Snapshot())
      ensures answer.None? ==>
                && RecordGuard(Snapshot(), input, current, now).None?
                && Prior(offers, input.scope.operationId, input.scope.incarnation, input.request).None?
                && bindings[input.scope.agentId].cursor == Some(input.input) && input.frontier != input.input
                && tail == Tail(offers, input.scope.operationId)
                && InsertAccepted(Snapshot(), offerId, NewOffer(Snapshot(), input, tail, now))
    {
      hide Inv, DeleteRoots;
      var db := Snapshot();
      var refusal := RecordGuard(db, input, current, now);
      if refusal.Some? { return Some(Err(refusal.value)), None; }
      tail := GetPollingOfferTail(input.scope.operationId);
      var prior := FindInvocation(input.scope.operationId, input.scope.incarnation, input.request);
      if prior.Some? {
        return Some(if ReplayAnswers(db, input, prior.value, tail) then Ok(prior) else Err(Superseded)), tail;
      }
      if bindings[input.scope.agentId].cursor != Some(input.input) { return Some(Err(StaleInput)), tail; }
      if input.frontier == input.input { return Some(Ok(None)), tail; }
      if !InsertAccepted(db, offerId, NewOffer(db, input, tail, now)) { return Some(Err(ConstraintFailed)), tail; }
      answer := None;
    }

    /** Publishes a frontier at the durable cursor, unless the request is already answered. */
    method RecordPollingOffer(input: RecordInput, current: Option<Entry>, offerId: Id, now: nat)
        returns (reply: Result<Option<Id>, Refusal>)
      requires Valid()
      modifies this
      ensures Valid() && Now() == Step(old(Now()), RecordOffer(input, current, offerId, now))
      ensures reply == Answer(Record(old(Snapshot()), input, current, offerId, now))
      ensures PublicationLaw(old(Snapshot()), Snapshot(), input, current, offerId, now, reply)
    {
      RecordSteps(Now(), input, current, offerId, now);
      RecordLands(Now(), input, current, offerId, now);
      RequestsAreAnsweredOnce(Now(), input, current, offerId, now);
      hide Inv, Step, RecordStep, Record, PublicationLaw;
      var answer, tail := AnswerRecord(input, current, offerId, now);
      if answer.Some? { return answer.value; }
      tail := PublishOffer(input, current, offerId, tail, now);
      return Ok(tail);
    }

    /** Inserts the offer, deletes roots until the window holds, and reads the new tail. */
    method PublishOffer(input: RecordInput, ghost current: Option<Entry>, offerId: Id, tail: Option<Id>, now: nat)
        returns (published: Option<Id>)
      requires Valid() && RecordGuard(Snapshot(), input, current, now).None?
      requires Prior(offers, input.scope.operationId, input.scope.incarnation, input.request).None?
      requires bindings[input.scope.agentId].cursor == Some(input.input) && input.frontier != input.input
      requires tail == Tail(offers, input.scope.operationId)
      requires InsertAccepted(Snapshot(), offerId, NewOffer(Snapshot(), input, tail, now))
      modifies this
      ensures Valid() && Now() == Step(old(Now()), RecordOffer(input, current, offerId, now))
      ensures Ok(published) == Answer(Record(old(Snapshot()), input, current, offerId, now))
    {
      ghost var before := Now();
      RecordSteps(before, input, current, offerId, now);
      RecordLands(before, input, current, offerId, now);
      hide Inv, Step, RecordStep, DeleteRoots;
      AppendOffer(input.scope.operationId, offerId, NewOffer(Snapshot(), input, tail, now));
      Remember(before, RecordOffer(input, current, offerId, now));
      published := GetPollingOfferTail(input.scope.operationId);
    }

    /** Deletes `excess` roots, one statement each. */
    method TrimRoots(activation: Id, excess: nat, ghost log: Log)
      requires Refines(Snapshot(), activation, log) && Closed(offers)
      requires excess == 0 || |log.entries| - log.first >= REPLAY_WINDOW + excess
      modifies this`offers, this`activations
      ensures DeleteRoots(old(Snapshot()), activation, excess) == Commit(Snapshot(), ())
    {
      hide Refines, Closed, DeleteRoot;
      ghost var inserted := Snapshot();
      var index := 0;
      while index < excess
        invariant index <= excess
        invariant DeleteRoots(inserted, activation, index) == Commit(Snapshot(), ())
        invariant Refines(Snapshot(), activation, log.(first := log.first + index)) && Closed(offers)
        modifies this`offers, this`activations
      {
        DeleteRootRow(activation, log.(first := log.first + index));
        index := index + 1;
      }
    }

    method AppendOffer(activation: Id, offerId: Id, offer: Offer)
      requires Valid() && activation in activations && offerId !in offers
      requires offer.activation == activation && offer.predecessor == Tail(offers, activation)
      modifies this`offers, this`activations
      ensures var inserted := old(Snapshot()).(offers := old(offers)[offerId := offer]);
              DeleteRoots(inserted, activation, Excess(inserted, activation)) == Commit(Snapshot(), ())
    {
      InsertedChain(Now(), activation, offerId, offer);
      ghost var log := Appended(logs[activation], offerId, offer);
      offers := offers[offerId := offer];
      CountRetained(offers, activation, log);
      hide Inv, DeleteRoots, Refines;
      TrimRoots(activation, Excess(Snapshot(), activation), log);
    }

    /** Answers for the tail alone; only an unacknowledged tail at its own input is left to acknowledge. */
    method AnswerAcknowledgement(scope: Scope, cursor: Option<string>, current: Option<Entry>, now: nat)
        returns (answer: Result<AckReply, Refusal>, pending: bool)
      requires Valid()
      ensures !pending ==>
                var tx := Acknowledge(Snapshot(), scope, cursor, current, now);
                answer == Answer(tx) && (tx.Commit? ==> tx.db == Snapshot())
      ensures pending ==>
                && answer.Ok? && answer.value.offer.Some? && answer.value.offer.value in offers && scope.agentId in bindings
                && var tail := answer.value.offer.value; var at := Max(now, offers[tail].createdAt);
                   Acknowledge(Snapshot(), scope, cursor, current, now) ==
                   Commit(Snapshot().(offers := offers[tail := offers[tail].(acknowledgedAt := Some(at))],
                                      bindings := bindings[scope.agentId := bindings[scope.agentId].(cursor := Some(offers[tail].frontier))]),
                          answer.value)
    {
      hide Inv;
      pending := false;
      var refusal := OfferAuthority(Snapshot(), scope, current, now);
      if refusal.Some? { return Err(refusal.value), false; }
      if cursor.Some? && !IsCursor(cursor.value) { return Err(BadCursor), false; }
      assert scope.agentId in bindings;
      hide OfferAuthority;
      var binding := bindings[scope.agentId];
      if binding.epoch < 1 || binding.epoch > MAX_SAFE_INTEGER { return Err(EpochInvalid), false; }
      if binding.cursor.None? || !IsCursor(binding.cursor.value) { return Err(BadCursor), false; }
      var room := binding.cursor.value;
      var tail := GetPollingOfferTail(scope.operationId);
      if cursor.None? || tail.None? || offers[tail.value].incarnation != scope.incarnation
         || offers[tail.value].frontier != cursor.value || offers[tail.value].epoch != binding.epoch {
        return Ok(AckReply(false, tail, room, binding.epoch)), false;
      }
      var offer := offers[tail.value];
      if offer.acknowledgedAt.Some? {
        if room != offer.frontier { return Err(AcknowledgementDisagrees), false; }
      } else {
        if room != offer.input { return Err(CursorMoved), false; }
        if !AcknowledgeAccepted(offers, tail.value, Max(now, offer.createdAt)) { return Err(ConstraintFailed), false; }
        pending := true;
      }
      answer := Ok(AckReply(true, tail, offer.frontier, binding.epoch));
    }

    method AcknowledgePollingOffer(scope: Scope, cursor: Option<string>, current: Option<Entry>, now: nat)
        returns (reply: Result<AckReply, Refusal>)
      requires Valid()
      modifies this
      ensures Valid() && Now() == Step(old(Now()), AcknowledgeOffer(scope, cursor, current, now))
      ensures reply == Answer(Acknowledge(old(Snapshot()), scope, cursor, current, now))
      ensures AcknowledgementLaw(old(Snapshot()), Snapshot(), scope, cursor, current, now, reply)
    {
      ghost var before := Now();
      hide Inv, Step, AcknowledgeStep, Acknowledge, AcknowledgementLaw;
      AcknowledgeStepLands(before, scope, cursor, current, now);
      TailFrontierAcknowledges(before, scope, cursor, current, now);
      var pending: bool;
      reply, pending := AnswerAcknowledgement(scope, cursor, current, now);
      if pending {
        var tail := reply.value.offer.value;
        AcknowledgeTail(scope.agentId, tail, Max(now, offers[tail].createdAt));
        assert Snapshot() == Acknowledge(before.db, scope, cursor, current, now).db;
        Remember(before, AcknowledgeOffer(scope, cursor, current, now));
      }
    }

    /** Marks the tail acknowledged and moves the worker cursor in the same transaction. */
    method AcknowledgeTail(agent: Id, tail: Id, at: nat)
      requires tail in offers && agent in bindings
      modifies this`offers, this`bindings
      ensures offers == old(offers)[tail := old(offers[tail]).(acknowledgedAt := Some(at))]
      ensures bindings == old(bindings)[agent := old(bindings[agent]).(cursor := Some(old(offers[tail]).frontier))]
    {
      var offer := offers[tail];
      offers := offers[tail := offer.(acknowledgedAt := Some(at))];
      bindings := bindings[agent := bindings[agent].(cursor := Some(offer.frontier))];
    }

    // ----- delivery drains -----

    method ReadUnresolvedDrain(agent: Id) returns (drain: Option<Id>)
      requires Valid()
      ensures drain == OpenDrain(Snapshot(), agent)
    {
      drain := None;
      if exists id :: id in cutovers && cutovers[id].agentId == agent && CutoverUnresolved(cutovers[id]) {
        var id :| id in cutovers && cutovers[id].agentId == agent && CutoverUnresolved(cutovers[id]);
        OpenDrainIsUnique(Now(), id);
        drain := Some(id);
      }
    }

    method DeliveryDrainIngressAllowed(agent: Id) returns (allowed: bool)
      requires Valid()
      ensures allowed == IngressAllowed(Snapshot(), agent)
    {
      var drain := ReadUnresolvedDrain(agent);
      return (drain.None? || !BlocksRuntime(cutovers[drain.value])) && !Custodial(Snapshot(), agent);
    }

    method DeliveryDrainAllowsAdmission(itemId: Id, item: Item) returns (allowed: bool)
      requires Valid()
      ensures allowed == AllowsAdmission(Snapshot(), itemId, item)
    {
      var drain := ReadUnresolvedDrain(item.agentId);
      return drain.None? || DrainAdmits(Snapshot(), cutovers[drain.value], itemId, item);
    }

    /** The head of the agent's queue: ORDER BY fifo LIMIT 1 over its unfinished items. */
    method QueueHead(agent: Id) returns (head: Option<Id>)
      ensures HeadChoice(Snapshot(), agent, head)
    {
      var db := Snapshot();
      var rest := context.inbox.Keys;
      head := None;
      while rest != {}
        invariant rest <= context.inbox.Keys
        invariant head.None? ==> forall id :: id in context.inbox && id !in rest ==> !Awaits(db, agent, id)
        invariant head.Some? ==>
                    && Awaits(db, agent, head.value)
                    && forall id :: id in context.inbox && id !in rest && Awaits(db, agent, id) ==>
                         context.inbox[head.value].fifo <= context.inbox[id].fifo
        decreases |rest|
      {
        var id :| id in rest;
        rest := rest - {id};
        if Awaits(db, agent, id) && (head.None? || context.inbox[id].fifo < context.inbox[head.value].fifo) { head := Some(id); }
      }
    }

    /** Answers a request that is malformed or known; drafts the row of any other. */
    method AnswerPreparation(
        input: DrainInput, current: Option<Entry>, reverse: Option<Id>, first: Option<Id>, now: nat)
        returns (reply: Result<DrainReply, Refusal>)
      requires HeadChoice(Snapshot(), input.agentId, first)
      ensures var tx := PrepareDrain(Snapshot(), input, current, reverse, first, now);
              && reply == Answer(tx)
              && (reply.Ok? ==>
                    tx.db == if reply.value.created
                             then Snapshot().(cutovers := cutovers[input.operationId := reply.value.cutover]) else Snapshot())
    {
      hide Screened, HeadChoice, Draft, CutoverKnown, SameDrainRequest;
      hide PreActivation, AckCursor, OwnedShape, UnsettledEffects, Awaits, HasUnresolvedActivation, HasUnresolvedDrain;
      var db := Snapshot();
      var screened := Screened(input, reverse);
      if screened.Err? { return Err(screened.error); }
      var native := screened.value;
      if CutoverKnown(db, input) {
        if input.operationId !in cutovers || !SameDrainRequest(cutovers[input.operationId], input, native, reverse) {
          return Err(BoundElsewhere);
        }
        return Ok(DrainReply(false, cutovers[input.operationId]));
      }
      var drafted := DraftCutover(input, native, current, reverse, first, now);
      reply := if drafted.Ok? then Ok(DrainReply(true, drafted.value)) else Err(drafted.error);
    }

    method PrepareOwnedDrain(input: DrainInput, current: Option<Entry>, reverse: Option<Id>, now: nat)
        returns (reply: Result<DrainReply, Refusal>, ghost head: Option<Id>)
      requires Valid()
      modifies this
      ensures HeadChoice(old(Snapshot()), input.agentId, head)
      ensures Valid() && Now() == Step(old(Now()), PrepareCutover(input, current, reverse, head, now))
      ensures reply == Answer(PrepareDrain(old(Snapshot()), input, current, reverse, head, now))
      ensures PreparationLaw(old(Snapshot()), Snapshot(), input, reverse, head, reply)
    {
      hide Inv, Step, HeadChoice, PrepareDrain, PreparationLaw;
      ghost var before := Now();
      var first := QueueHead(input.agentId);
      head := first;
      PrepareCutoverLands(before, input, current, reverse, head, now);
      PreparationDrafts(before.db, input, current, reverse, head, now);
      reply := AnswerPreparation(input, current, reverse, first, now);
      if reply.Ok? && reply.value.created {
        cutovers := cutovers[input.operationId := reply.value.cutover];
        Remember(before, PrepareCutover(input, current, reverse, head, now));
      }
    }

    /** Every check a new drain must pass, in order. */
    method DraftCutover(
        input: DrainInput, native: Native, current: Option<Entry>, reverse: Option<Id>, first: Option<Id>, now: nat)
        returns (drafted: Result<Cutover, Refusal>)
      requires HeadChoice(Snapshot(), input.agentId, first)
      ensures drafted == Draft(Snapshot(), input, native, current, reverse, first, now)
      ensures drafted.Ok? ==>
                var row := drafted.value;
                && row.phase == Draining && OwnedShape(row) && row.agentId == input.agentId && row.predecessor == reverse
                && !HasUnresolvedActivation(Snapshot(), input.agentId) && !HasUnresolvedDrain(Snapshot(), input.agentId)
                && (row.owned.value.admitted.Some? ==>
                      first == Some(row.owned.value.admitted.value.itemId) && InFlight(context.inbox[first.value]))
                && (reverse.Some? ==>
                      && PreActivation(Snapshot(), row) && AckCursor(Snapshot(), row).Ok?
                      && !UnsettledEffects(Snapshot(), input.agentId)
                      && forall item :: item in context.inbox ==> !Awaits(Snapshot(), input.agentId, item))
    {
      hide PreActivation, AckCursor;
      var db, forward := Snapshot(), reverse.Some?;
      if !PrepareAuthority(db, input, native, current, forward) { return Err(AuthorityLost); }
      if !PrepareConfigured(db, input, current.value, forward) { return Err(ConfigurationChanged); }
      if HasUnresolvedDrain(db, input.agentId) { return Err(UnresolvedDrain); }
      if HasUnresolvedActivation(db, input.agentId) { return Err(UnresolvedActivation); }
      if !NoControlConflict(db, input.agentId, current.value) { return Err(ControlConflict); }
      var admission := Admit(db, input, native, first);
      if admission.Err? { return Err(admission.error); }
      if input.boundary.ActiveTurn?
         && (!NonBlank(input.boundary.turnId) || admission.value.nativeTurn != Some(input.boundary.turnId)) {
        return Err(BoundaryMismatch);
      }
      var row := NewCutover(input, native, reverse, admission.value, now);
      if forward {
        if !PreActivation(db, row) { return Err(NotBeforeActivation); }
        if first.Some? || UnsettledEffects(db, input.agentId) { return Err(NotReady); }
        var cursor := AckCursor(db, row);
        if cursor.Err? { return Err(cursor.error); }
      }
      if !CutoverAccepted(row) { return Err(ConstraintFailed); }
      return Ok(row);
    }

    method CancelDeliveryDrain(id: Id, agent: Id, now: nat) returns (reply: Result<Cutover, Refusal>)
      requires Valid()
      modifies this
      ensures Valid() && Now() == Step(old(Now()), CancelCutover(id, agent, now))
      ensures reply == Answer(CancelDrain(old(Snapshot()), id, agent, now))
      ensures CutoverAnswered(old(Snapshot()), Snapshot(), id, agent, reply)
      ensures reply.Ok? ==> reply.value.phase == CutCancelled && old(cutovers[id]).phase in {CutPrepared, Draining, CutCancelled}
    {
      hide Inv;
      ghost var before := Now();
      if id !in cutovers || cutovers[id].agentId != agent || cutovers[id].owned.None? || cutovers[id].strategy != Drain
         || cutovers[id].phase !in {CutPrepared, Draining, CutCancelled} {
        return Err(WrongPhase);
      }
      if cutovers[id].phase != CutCancelled {
        cutovers := cutovers[id := MovedTo(cutovers[id], CutCancelled, now)];
        Remember(before, CancelCutover(id, agent, now));
      }
      return Ok(cutovers[id]);
    }

    method DeliveryDrainReadiness(id: Id) returns (reply: Result<Readiness, Refusal>)
      requires Valid()
      ensures reply == ReadinessOf(Snapshot(), id)
    {
      hide Inv, PreActivation, AckCursor;
      var db := Snapshot();
      if !OwnedDrain(db, id) { return Err(NoOperation); }
      var row := cutovers[id];
      var cursor := TransferCursor(db, row);
      if cursor.Err? { return Err(cursor.error); }
      if OtherWork(db, row) { return Ok(Readiness(Queued, cursor.value)); }
      if row.owned.value.admitted.Some? {
        if !AdmittedIntact(db, row) { return Err(ItemLost); }
        var itemId := row.owned.value.admitted.value.itemId;
        var item := context.inbox[itemId];
        if Unfinished(item) {
          var allowed := DeliveryDrainAllowsAdmission(itemId, item);
          return Ok(Readiness(if allowed then Waiting else Queued, cursor.value));
        }
        if !HasReceipt(db, row, itemId, item) { return Err(ReceiptMissing); }
      }
      return Ok(Readiness(SettledStatus(db, row.agentId), cursor.value));
    }

    method RequireReadyCursor(id: Id) returns (reply: Result<string, Refusal>)
      requires Valid()
      ensures reply == ReadyCursor(Snapshot(), id)
      ensures reply.Ok? ==>
                && IsCursor(reply.value) && id in cutovers && AdmittedEnded(Snapshot(), cutovers[id])
                && !UnsettledEffects(Snapshot(), cutovers[id].agentId)
                && forall item :: item in context.inbox ==> !Awaits(Snapshot(), cutovers[id].agentId, item)
    {
      ReadyMeansSettled(Snapshot(), id);
      hide Inv, ReadinessOf;
      var readiness := DeliveryDrainReadiness(id);
      if readiness.Err? { return Err(readiness.error); }
      if readiness.value.status != Ready { return Err(NotReady); }
      var cursor := readiness.value.cursor;
      if cursor.None? || !IsCursor(cursor.value) { return Err(BadCursor); }
      return Ok(cursor.value);
    }

    method MarkDeliveryDrainDispatch(
        id: Id, agent: Id, handle: Handle, boundary: Boundary, current: Option<Entry>, now: nat)
        returns (reply: Result<Cutover, Refusal>)
      requires Valid()
      modifies this
      ensures Valid() && Now() == Step(old(Now()), DispatchCutover(id, agent, handle, boundary, current, now))
      ensures reply == Answer(DispatchDrain(old(Snapshot()), id, agent, handle, boundary, current, now))
      ensures StopLaw(old(Snapshot()), Snapshot(), id, agent, boundary, current, reply)
    {
      hide Inv, ReadyCursor, StopLaw;
      ghost var before := Now();
      StopIntentIsExact(before.db, id, agent, handle, boundary, current, now);
      var db := Snapshot();
      if !OwnedDrain(db, id) || cutovers[id].agentId != agent { return Err(NoOperation); }
      var row := cutovers[id];
      if row.phase !in {CutPrepared, Draining, CutDispatching, CutUncertain} { return Err(WrongPhase); }
      if !DrainAuthority(db, row, current, false) { return Err(AuthorityLost); }
      if !DispatchBoundary(db, row, handle, boundary, current.value) { return Err(NotIdle); }
      var cursor := RequireReadyCursor(id);
      if cursor.Err? { return Err(cursor.error); }
      if !BlocksRuntime(row) {
        row := MovedTo(row, CutDispatching, now);
        cutovers := cutovers[id := row];
        Remember(before, DispatchCutover(id, agent, handle, boundary, current, now));
      }
      return Ok(row);
    }

    method MarkDeliveryDrainUncertain(id: Id, agent: Id, now: nat) returns (reply: Result<Cutover, Refusal>)
      requires Valid()
      modifies this
      ensures Valid() && Now() == Step(old(Now()), CutoverUncertain(id, agent, now))
      ensures reply == Answer(MarkDrainUncertain(old(Snapshot()), id, agent, now))
      ensures CutoverAnswered(old(Snapshot()), Snapshot(), id, agent, reply)
      ensures reply.Ok? <==> OwnedDrain(old(Snapshot()), id) && old(cutovers[id]).agentId == agent && BlocksRuntime(old(cutovers[id]))
      ensures reply.Ok? ==> reply.value.phase == CutUncertain
    {
      hide Inv;
      ghost var before := Now();
      if !OwnedDrain(Snapshot(), id) || cutovers[id].agentId != agent { return Err(NoOperation); }
      if !BlocksRuntime(cutovers[id]) { return Err(NoStopIntent); }
      if cutovers[id].phase != CutUncertain {
        cutovers := cutovers[id := MovedTo(cutovers[id], CutUncertain, now)];
        Remember(before, CutoverUncertain(id, agent, now));
      }
      return Ok(cutovers[id]);
    }

    /** Cursor, checkpoint, delivery contract and phase, written one table at a time. */
    method HandOver(id: Id, cursor: string, now: nat)
      requires id in cutovers && cutovers[id].owned.Some? && cutovers[id].agentId in configs
      modifies this`ingress, this`bindings, this`checkpoints, this`configs, this`cutovers
      ensures var c := old(cutovers[id]);
              var moved := Checkpointed(Transferred(old(Snapshot()), c, cursor), c.owned.value.native.workAttemptId, cursor);
              Snapshot() == SetCutover(Switched(moved, c), id, MovedTo(c, CutComplete, now))
    {
      var row := cutovers[id];
      var agent := row.agentId;
      if IsForward(row) {
        if agent in ingress && ingress[agent].roomId == row.owned.value.roomId {
          ingress := ingress[agent := ingress[agent].(cursor := Some(cursor))];
        }
      } else if agent in bindings {
        bindings := bindings[agent := bindings[agent].(cursor := Some(cursor))];
      }
      var attempt := row.owned.value.native.workAttemptId;
      checkpoints := checkpoints[attempt := (if attempt in checkpoints then checkpoints[attempt] else []) + [Some(cursor)]];
      var config := configs[agent];
      configs := configs[agent := config.(mode := row.toMode, custodial := row.toMode == McpPolling, revision := config.revision + 1)];
      cutovers := cutovers[id := MovedTo(row, CutComplete, now)];
    }

    method CommitDeliveryDrain(id: Id, agent: Id, current: Option<Entry>, now: nat) returns (reply: Result<Cutover, Refusal>)
      requires Valid()
      modifies this
      ensures Valid() && Now() == Step(old(Now()), CommitCutover(id, agent, current, now))
      ensures reply == Answer(CommitDrain(old(Snapshot()), id, agent, current, now))
      ensures CommitLaw(old(Snapshot()), Snapshot(), id, agent, current, reply)
    {
      hide Inv, Step, ReadyCursor, PreActivation, AckCursor, CommitLaw;
      ghost var before := Now();
      CommitLands(before, id, agent, current, now);
      CommitHandsOver(before, id, agent, current, now);
      var db := Snapshot();
      if !OwnedDrain(db, id) || cutovers[id].agentId != agent { return Err(NoOperation); }
      var row := cutovers[id];
      if !BlocksRuntime(row) { return Err(NoStopIntent); }
      if !DrainAuthority(db, row, current, true) { return Err(AuthorityLost); }
      assert agent in configs;
      var ready := RequireReadyCursor(id);
      if ready.Err? { return Err(ready.error); }
      var cursor := ready.value;
      if !BindingUnchanged(db, row) { return Err(CursorAuthorityLost); }
      hide DrainAuthority;
      HandOver(id, cursor, now);
      Remember(before, CommitCutover(id, agent, current, now));
      return Ok(cutovers[id]);
    }
  }
}
