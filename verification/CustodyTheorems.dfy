/** What every run of the shared database guarantees. */
module CustodyTheorems {
  import opened CustodyConditions
  import opened CustodyInvariant
  import opened CustodyRuns
  import opened CustodyTables
  import opened DeliveryDrains
  import opened PollingActivations
  import opened PollingOfferCursor
  import opened PollingOfferLog
  import opened PollingOffers
  import opened Text
  import opened Wrappers

  // ----- the offer journal is the last window of its log -----

  ghost function WindowStart(n: nat): nat { if n > REPLAY_WINDOW then n - REPLAY_WINDOW else 0 }

  ghost predicate FullyCompacted(w: World) {
    forall id :: id in w.logs ==> w.logs[id].first == WindowStart(|w.logs[id].entries|)
  }

  lemma RecordedOfferCompacts(w: World, next: World, a: Id, offerId: Id, offer: Offer)
    requires FullyCompacted(w) && OfferRecorded(w, next, a, offerId, offer)
    ensures FullyCompacted(next)
  {
  }

  lemma ChangeKeepsCompacted(w: World, next: World)
    requires Changed(w, next) && FullyCompacted(w)
    ensures FullyCompacted(next)
  {
    if a, offerId, offer :| OfferRecorded(w, next, a, offerId, offer) {
      RecordedOfferCompacts(w, next, a, offerId, offer);
    } else if a, at :| OfferAcknowledged(w, next, a, at) {
    } else if id, a :| ActivationInserted(w, next, id, a) {
    } else if id, cursor :| CutoverCommitted(w, next, id, cursor) {
      CommitTouches(w, next, id, cursor);
    }
  }

  lemma {:induction false} RunCompacted(w: World, events: seq<Event>)
    requires Init(w)
    ensures Inv(Run(w, events)) && FullyCompacted(Run(w, events))
    decreases |events|
  {
    hide Step;
    if events == [] {
      InitInv(w);
    } else {
      var before := Run(w, events[..|events| - 1]);
      RunCompacted(w, events[..|events| - 1]);
      StepChanges(before, events[|events| - 1]);
      StepKeepsInv(before, events[|events| - 1]);
      if !events[|events| - 1].Environment? { ChangeKeepsCompacted(before, Run(w, events)); }
    }
  }

  /** The rows of an activation are exactly the entries from `start` on, in order, with one root and
    * one tail, and the anchor names the entry just before the root. */
  ghost predicate Window(db: Db, a: Id, entries: seq<Logged>, start: nat)
    requires start < |entries| || (start == 0 && entries == [])
  {
    && a in db.activations
    && |RowsOf(db.offers, a)| == |entries| - start
    && (forall i :: start <= i < |entries| ==>
          && entries[i].id in db.offers
          && db.offers[entries[i].id] ==
             entries[i].offer.(predecessor := if i == start then None else Some(entries[i - 1].id)))
    && (forall id :: id in db.offers ==>
          && (db.offers[id].activation == a <==> exists i :: start <= i < |entries| && entries[i].id == id)
          && (IsRoot(db.offers, a, id) <==> |entries| > 0 && id == entries[start].id)
          && (IsTail(db.offers, a, id) <==> |entries| > 0 && id == entries[|entries| - 1].id))
    && db.activations[a].compactedThrough == if start == 0 then None else Some(entries[start - 1].id)
  }

  /** Starting from empty journals, after every run the rows of an activation are exactly the last
    * min(n, window) entries of everything ever recorded under it. */
  lemma RowsAreLastWindow(w: World, events: seq<Event>, a: Id)
    requires Init(w) && a in Run(w, events).logs
    ensures var entries := Run(w, events).logs[a].entries;
            Window(Run(w, events).db, a, entries, WindowStart(|entries|))
  {
    hide Step;
    RunCompacted(w, events);
    var end := Run(w, events);
    assert LogRefined(end.db, a, end.logs[a]);
    ShowsWindow(end.db, a, end.logs[a]);
  }

  lemma WindowEntry(db: Db, a: Id, log: Log, i: nat)
    requires Refines(db, a, log) && log.first <= i < |log.entries|
    ensures log.entries[i].id in db.offers && db.offers[log.entries[i].id].activation == a
    ensures db.offers[log.entries[i].id] ==
            log.entries[i].offer.(predecessor := if i == log.first then None else Some(log.entries[i - 1].id))
  {
    assert Retained(log, i) && LinkedAt(log.entries, a, i);
    ShownFacts(db.offers, a, log, i);
    assert db.offers[log.entries[i].id] == Shown(log, i);
  }

  lemma WindowRow(db: Db, a: Id, log: Log, id: Id)
    requires Refines(db, a, log) && Closed(db.offers) && id in db.offers
    ensures db.offers[id].activation == a ==> exists i :: log.first <= i < |log.entries| && log.entries[i].id == id
    ensures IsRoot(db.offers, a, id) <==> |log.entries| > 0 && id == log.entries[log.first].id
    ensures IsTail(db.offers, a, id) <==> |log.entries| > 0 && id == log.entries[|log.entries| - 1].id
  {
    RootIsFirst(db.offers, a, log, id);
    if log.entries != [] { WindowEntry(db, a, log, |log.entries| - 1); }
    if db.offers[id].activation == a {
      var i :| Retained(log, i) && log.entries[i].id == id;
      TailCharacter(db, a, log, i);
      assert Retained(log, |log.entries| - 1);
    }
  }

  lemma ShowsWindow(db: Db, a: Id, log: Log)
    requires Refines(db, a, log) && Closed(db.offers)
    ensures Window(db, a, log.entries, log.first)
  {
    CountRetained(db.offers, a, log);
    forall i | log.first <= i < |log.entries|
      ensures log.entries[i].id in db.offers && db.offers[log.entries[i].id].activation == a
      ensures db.offers[log.entries[i].id] ==
              log.entries[i].offer.(predecessor := if i == log.first then None else Some(log.entries[i - 1].id))
    {
      WindowEntry(db, a, log, i);
    }
    forall id | id in db.offers
      ensures db.offers[id].activation == a ==> exists i :: log.first <= i < |log.entries| && log.entries[i].id == id
      ensures IsRoot(db.offers, a, id) <==> |log.entries| > 0 && id == log.entries[log.first].id
      ensures IsTail(db.offers, a, id) <==> |log.entries| > 0 && id == log.entries[|log.entries| - 1].id
    {
      WindowRow(db, a, log, id);
    }
    hide Linked, Distinct, Shows, Closed, IsRoot, IsTail;
  }

  lemma TailCharacter(db: Db, a: Id, log: Log, i: nat)
    requires Refines(db, a, log) && Closed(db.offers) && Retained(log, i)
    ensures IsTail(db.offers, a, log.entries[i].id) <==> i == |log.entries| - 1
  {
    var id := log.entries[i].id;
    ShownFacts(db.offers, a, log, i);
    if i < |log.entries| - 1 {
      assert Retained(log, i + 1);
      ShownFacts(db.offers, a, log, i + 1);
    } else {
      forall s | s in db.offers ensures db.offers[s].predecessor != Some(id) { SuccessorIsNext(db.offers, a, log, i, s); }
    }
  }

  /** Whatever chain a migration left behind, the first new offer compacts it to the window, and no
    * constraint or trigger stops the deletions. */
  lemma FirstRecordCompacts(w: World, input: RecordInput, current: Option<Entry>, offerId: Id, now: nat)
    requires Inv(w) && NonBlank(offerId) && offerId !in w.db.offers
    requires RecordGuard(w.db, input, current, now).None?
    requires Prior(w.db.offers, input.scope.operationId, input.scope.incarnation, input.request).None?
    requires w.db.bindings[input.scope.agentId].cursor == Some(input.input) && input.frontier != input.input
    ensures var a := input.scope.operationId; var tx := Record(w.db, input, current, offerId, now);
            var entries := w.logs[a].entries + [Logged(offerId, NewOffer(w.db, input, Tail(w.db.offers, a), now))];
            && tx.Commit? && tx.reply == Some(offerId)
            && Window(tx.db, a, entries, WindowStart(|entries|))
  {
    var a := input.scope.operationId;
    assert a in w.db.activations && input.scope.agentId in w.db.bindings;
    hide Record, RecordGuard, Prior;
    assert LogRefined(w.db, a, w.logs[a]);
    TailIsLast(w.db, a, w.logs[a]);
    RecordAppends(w.db, w.logs[a], input, current, offerId, now);
    var next := Compacted(Appended(w.logs[a], offerId, NewOffer(w.db, input, LastId(w.logs[a]), now)));
    ShowsWindow(Record(w.db, input, current, offerId, now).db, a, next);
  }

  /** A record transaction is refused by a constraint only for a blank or clashing offer id. */
  lemma RecordRefusedByConstraint(w: World, input: RecordInput, current: Option<Entry>, offerId: Id, now: nat)
    requires Inv(w)
    requires RecordGuard(w.db, input, current, now).None?
    requires Prior(w.db.offers, input.scope.operationId, input.scope.incarnation, input.request).None?
    requires w.db.bindings[input.scope.agentId].cursor == Some(input.input) && input.frontier != input.input
    ensures Record(w.db, input, current, offerId, now) == Abort(ConstraintFailed) <==> !NonBlank(offerId) || offerId in w.db.offers
  {
    if NonBlank(offerId) && offerId !in w.db.offers { FirstRecordCompacts(w, input, current, offerId, now); }
  }

  /** A retained invocation is answered from its own row or refused; it never adds an offer. */
  lemma ReplayAddsNothing(w: World, input: RecordInput, current: Option<Entry>, offerId: Id, now: nat, retained: Id)
    requires Inv(w) && retained in w.db.offers
    requires SameInvocation(w.db.offers[retained], input.scope.operationId, input.scope.incarnation, input.request)
    ensures RecordStep(w, input, current, offerId, now) == w
    ensures var tx := Record(w.db, input, current, offerId, now);
            tx.Commit? ==>
              && tx.db == w.db && tx.reply.Some? && Tail(w.db.offers, input.scope.operationId) == tx.reply
              && w.db.offers[tx.reply.value].input == input.input && w.db.offers[tx.reply.value].frontier == input.frontier
  {
    var prior := Prior(w.db.offers, input.scope.operationId, input.scope.incarnation, input.request);
    assert prior.Some?;
  }

  /** Once every guard of the activation's preparation has passed, the table's constraints refuse
    * exactly a runtime without a process number or identity, and an unrevised configuration. */
  lemma PrepareRefusedByConstraint(db: Db, input: PrepareInput, current: Option<Entry>, now: nat)
    requires var tx := Prepare(db, input, current, now); tx == Abort(ConstraintFailed) || (tx.Commit? && tx.reply.created)
    ensures NativeIdentity(input.handle).Some? && input.agentId in db.configs
    ensures var native := NativeIdentity(input.handle).value;
            Prepare(db, input, current, now).Commit? <==>
              native.pid > 0 && NonBlank(native.processIdentity) && db.configs[input.agentId].revision > 0
  {
    var native := NativeIdentity(input.handle).value;
    var row := FreshActivation(db, input, native, now);
    var coordinates := [input.operationId, input.requestId, input.agentId, input.roomId, input.generationId,
                        input.reverseOperationId];
    assert forall i :: 0 <= i < |coordinates| ==> coordinates[i] in coordinates;
    assert NonBlank(coordinates[0]) && NonBlank(coordinates[1]) && NonBlank(coordinates[2]) && NonBlank(coordinates[3])
           && NonBlank(coordinates[4]) && NonBlank(coordinates[5]);
    assert RowAccepted(input.operationId, row) <==> IdentityAccepted(input.operationId, row.identity);
  }

  // ----- cursor accounting -----

  /** While nobody else moved the agent's worker cursor, it stands at the unacknowledged tail's input, or
    * at the acknowledged tail's frontier. */
  lemma TailMeetsWorkerCursor(w: World, a: Id)
    requires Inv(w) && a in w.db.activations && ActivationUnresolved(w.db.activations[a])
    requires Accounted(w, w.db.activations[a].identity.agentId)
    ensures var agent := w.db.activations[a].identity.agentId; var tail := Tail(w.db.offers, a);
            && agent in w.db.bindings
            && w.db.bindings[agent].cursor ==
               Some(if tail.None? then w.db.activations[a].identity.roomCursor
                    else if w.db.offers[tail.value].acknowledgedAt.None? then w.db.offers[tail.value].input
                    else w.db.offers[tail.value].frontier)
  {
    var log := w.logs[a];
    assert LogRefined(w.db, a, log) && AccountedAt(w, a);
    TailIsLast(w.db, a, log);
    if log.entries != [] {
      var i := |log.entries| - 1;
      assert Retained(log, i) && w.db.offers[log.entries[i].id] == Shown(log, i);
      TailAndNeighbours(w.db.activations[a].identity.roomCursor, log.entries, i);
    }
  }

  /** The acknowledgement never meets a constraint, and while nobody else moved the agent's worker cursor
    * it never finds it elsewhere. */
  lemma AcknowledgeNeverDisagrees(w: World, scope: Scope, cursor: Option<string>, current: Option<Entry>, now: nat)
    requires Inv(w)
    ensures Acknowledge(w.db, scope, cursor, current, now) != Abort(ConstraintFailed)
    ensures Accounted(w, scope.agentId) ==>
              var tx := Acknowledge(w.db, scope, cursor, current, now);
              tx != Abort(AcknowledgementDisagrees) && tx != Abort(CursorMoved)
  {
    if OfferAuthority(w.db, scope, current, now).None? && Accounted(w, scope.agentId) {
      TailMeetsWorkerCursor(w, scope.operationId);
    }
  }

  /** Entry `i` was recorded where its predecessor left the worker: at the predecessor's frontier if
    * that was acknowledged, at the predecessor's own input if it was superseded. */
  lemma InputFollowsPredecessor(w: World, a: Id, i: nat)
    requires Inv(w) && a in w.logs && i < |w.logs[a].entries|
    requires Accounted(w, w.db.activations[a].identity.agentId)
    ensures var entries := w.logs[a].entries; var start := w.db.activations[a].identity.roomCursor;
            entries[i].offer.input ==
            if i == 0 then start
            else if entries[i - 1].offer.acknowledgedAt.Some? then entries[i - 1].offer.frontier
            else entries[i - 1].offer.input
  {
    assert AccountedAt(w, a);
    TailAndNeighbours(w.db.activations[a].identity.roomCursor, w.logs[a].entries, i);
  }

  // ----- readiness and admission -----

  /** Readiness agrees with the admission gate item by item. */
  lemma ReadinessAgreesWithAdmission(db: Db, id: Id)
    requires OneUnresolvedDrain(db) && id in db.cutovers && CutoverUnresolved(db.cutovers[id])
    requires ReadinessOf(db, id).Ok?
    ensures var c := db.cutovers[id]; var status := ReadinessOf(db, id).value.status;
            && (status == Queued <==>
                  exists item :: item in db.context.inbox && Awaits(db, c.agentId, item)
                                 && !AllowsAdmission(db, item, db.context.inbox[item]))
            && (status == Ready <==>
                  !UnsettledEffects(db, c.agentId)
                  && forall item :: item in db.context.inbox ==> !Awaits(db, c.agentId, item))
            && (status == Waiting <==>
                  && (UnsettledEffects(db, c.agentId) || exists item :: item in db.context.inbox && Awaits(db, c.agentId, item))
                  && forall item :: item in db.context.inbox && Awaits(db, c.agentId, item) ==>
                       AllowsAdmission(db, item, db.context.inbox[item]))
  {
    var c := db.cutovers[id];
    assert HasUnresolvedDrain(db, c.agentId);
    assert OpenDrain(db, c.agentId) == Some(id);
    forall item | item in db.context.inbox && Awaits(db, c.agentId, item)
      ensures AllowsAdmission(db, item, db.context.inbox[item]) ==>
                c.owned.value.admitted.Some? && item == c.owned.value.admitted.value.itemId
    {
    }
  }

  // ----- what later states keep -----

  /** Superseded entries are frozen; the last one can only become acknowledged. */
  ghost predicate LogGrows(before: Log, after: Log) {
    && |before.entries| <= |after.entries|
    && forall i :: 0 <= i < |before.entries| ==>
         && after.entries[i].id == before.entries[i].id
         && after.entries[i].offer ==
            before.entries[i].offer.(acknowledgedAt := after.entries[i].offer.acknowledgedAt)
         && (i < |before.entries| - 1 || before.entries[i].offer.acknowledgedAt.Some? ==> after.entries[i] == before.entries[i])
  }

  ghost predicate ActivationLater(before: Activation, after: Activation) {
    && after.identity == before.identity
    && (before.turnId.Some? ==> after.turnId == before.turnId)
    && (!ActivationUnresolved(before) ==> after == before)
  }

  /** Only phase and time move; a resolved cutover is frozen, and a stopped one can only complete. */
  ghost predicate CutoverLater(before: Cutover, after: Cutover) {
    && after == before.(phase := after.phase, updatedAt := after.updatedAt)
    && (!CutoverUnresolved(before) ==> after == before)
    && (BlocksRuntime(before) ==> BlocksRuntime(after) || after.phase == CutComplete)
  }

  ghost predicate RowsLater(w: World, next: World) {
    && w.dispatched <= next.dispatched
    && (forall id :: id in w.db.activations ==>
          id in next.db.activations && ActivationLater(w.db.activations[id], next.db.activations[id]))
    && (forall id :: id in w.db.cutovers ==>
          id in next.db.cutovers && CutoverLater(w.db.cutovers[id], next.db.cutovers[id]))
    && (forall id :: id in w.logs ==> id in next.logs && LogGrows(w.logs[id], next.logs[id]))
  }

  lemma RecordedOfferLater(w: World, next: World, a: Id, offerId: Id, offer: Offer)
    requires OfferRecorded(w, next, a, offerId, offer)
    ensures RowsLater(w, next)
  {
    assert next.logs[a].entries[..|w.logs[a].entries|] == w.logs[a].entries;
    assert LogGrows(w.logs[a], next.logs[a]);
  }

  lemma AcknowledgedOfferLater(w: World, next: World, a: Id, at: nat)
    requires LogsRefined(w) && OfferAcknowledged(w, next, a, at)
    ensures RowsLater(w, next)
  {
    assert LogGrows(w.logs[a], next.logs[a]);
  }

  /** An acknowledgement moves one worker cursor, and never back. */
  lemma AcknowledgedOfferAdvances(w: World, next: World, a: Id, at: nat, agent: Id)
    requires LogsRefined(w) && OfferAcknowledged(w, next, a, at)
    ensures CursorsLater(w.db, next.db, agent)
  {
    var log := w.logs[a];
    assert LogRefined(w.db, a, log);
    var last := log.entries[|log.entries| - 1];
    assert RecordableAt(last);
    var owner := w.db.activations[a].identity.agentId;
    assert WorkerPosition(w.db.bindings[owner]) == CursorValue(last.offer.input);
    assert WorkerPosition(next.db.bindings[owner]) == CursorValue(last.offer.frontier);
    assert next.db.ingress == w.db.ingress && next.db.configs == w.db.configs;
    if agent in w.db.bindings && agent != owner { assert next.db.bindings[agent] == w.db.bindings[agent]; }
  }

  /** A committed cutover hands the delivery position over unchanged, in either direction. */
  lemma CommitConservesPosition(w: World, next: World, id: Id, cursor: string)
    requires CutoverCommitted(w, next, id, cursor)
    ensures var agent := w.db.cutovers[id].agentId;
            && Position(w.db, agent) == CursorValue(cursor) && Position(next.db, agent) == CursorValue(cursor)
            && Custodial(next.db, agent) == !Custodial(w.db, agent)
            && Observed(next.db, agent) >= Observed(w.db, agent)
  {
    assert Numeric(Some(cursor)) == Some(CursorValue(cursor));
    var c := w.db.cutovers[id];
    if IsForward(c) { assert AckCursor(w.db, c) == Ok(cursor); }
  }

  lemma CommitElsewhere(w: World, next: World, id: Id, cursor: string)
    requires CutoverCommitted(w, next, id, cursor)
    ensures forall other :: other != w.db.cutovers[id].agentId ==>
              Custodial(next.db, other) == Custodial(w.db, other)
              && Observed(next.db, other) == Observed(w.db, other)
  {
  }

  lemma CommittedCutoverLater(w: World, next: World, id: Id, cursor: string)
    requires CutoverCommitted(w, next, id, cursor)
    ensures RowsLater(w, next) && forall agent :: CursorsLater(w.db, next.db, agent)
  {
    CommitTouches(w, next, id, cursor);
    CommitConservesPosition(w, next, id, cursor);
    CommitElsewhere(w, next, id, cursor);
    forall other
      ensures CursorsLater(w.db, next.db, other)
    {
      if other != w.db.cutovers[id].agentId { assert Position(w.db, other) == Position(next.db, other); }
    }
  }

  lemma UpdatedActivationLater(w: World, next: World, id: Id)
    requires ActivationUpdated(w, next, id)
    ensures RowsLater(w, next)
  {
  }

  lemma InsertedActivationLater(w: World, next: World, id: Id, a: Activation)
    requires LogsRefined(w) && ActivationInserted(w, next, id, a)
    ensures RowsLater(w, next)
  {
  }

  lemma InsertedCutoverLater(w: World, next: World, id: Id, c: Cutover)
    requires CutoverInserted(w, next, id, c)
    ensures RowsLater(w, next)
  {
  }

  lemma MovedCutoverLater(w: World, next: World, id: Id, c: Cutover)
    requires CutoverMoved(w, next, id, c)
    ensures RowsLater(w, next)
  {
  }

  lemma ChangeIsLater(w: World, next: World)
    requires Inv(w) && Changed(w, next)
    ensures RowsLater(w, next)
  {
    hide RowsLater;
    if next == w {
      SameRowsLater(w);
    } else if id, a :| ActivationInserted(w, next, id, a) {
      InsertedActivationLater(w, next, id, a);
    } else if id :| ActivationUpdated(w, next, id) {
      UpdatedActivationLater(w, next, id);
    } else if a, offerId, offer :| OfferRecorded(w, next, a, offerId, offer) {
      RecordedOfferLater(w, next, a, offerId, offer);
    } else if a, at :| OfferAcknowledged(w, next, a, at) {
      AcknowledgedOfferLater(w, next, a, at);
    } else if id, c :| CutoverInserted(w, next, id, c) {
      InsertedCutoverLater(w, next, id, c);
    } else if id, c :| CutoverMoved(w, next, id, c) {
      MovedCutoverLater(w, next, id, c);
    } else if id, cursor :| CutoverCommitted(w, next, id, cursor) {
      CommittedCutoverLater(w, next, id, cursor);
    }
  }

  /** Nothing but an acknowledgement and a commit touches a cursor. */
  lemma SameCursors(w: World, next: World, agent: Id)
    requires ChangedBeforeCommit(w, next) && !(exists a, at :: OfferAcknowledged(w, next, a, at))
    ensures CursorsLater(w.db, next.db, agent)
  {
    hide Refines, Closed, RowAccepted, OfferAccepted, HasUnresolvedActivation, HasUnresolvedDrain, OfferAcknowledged;
    if id, a :| ActivationInserted(w, next, id, a) {
    } else if id :| ActivationUpdated(w, next, id) {
    } else if a, offerId, offer :| OfferRecorded(w, next, a, offerId, offer) {
    } else if id, c :| CutoverInserted(w, next, id, c) {
    } else if id, c :| CutoverMoved(w, next, id, c) {
    }
  }

  lemma ChangeMovesCursorsOn(w: World, next: World, agent: Id)
    requires Inv(w) && Changed(w, next)
    ensures CursorsLater(w.db, next.db, agent)
  {
    hide CursorsLater;
    if id, cursor :| CutoverCommitted(w, next, id, cursor) {
      CommittedCutoverLater(w, next, id, cursor);
    } else if a, at :| OfferAcknowledged(w, next, a, at) {
      AcknowledgedOfferAdvances(w, next, a, at, agent);
    } else {
      SameCursors(w, next, agent);
    }
  }

  lemma StepMovesCursorsOn(w: World, e: Event, agent: Id)
    requires Inv(w) && (e.Environment? ==> CursorsLater(w.db, e.next, agent))
    ensures CursorsLater(w.db, Step(w, e).db, agent)
  {
    hide Step;
    StepChanges(w, e);
    if !e.Environment? { ChangeMovesCursorsOn(w, Step(w, e), agent); }
  }

  lemma StepIsLater(w: World, e: Event)
    requires Inv(w)
    ensures RowsLater(w, Step(w, e))
  {
    hide Step;
    StepChanges(w, e);
    if !e.Environment? { ChangeIsLater(w, Step(w, e)); }
  }

  lemma RowsLaterTransitive(a: World, b: World, c: World)
    requires RowsLater(a, b) && RowsLater(b, c)
    ensures RowsLater(a, c)
  {
    forall id | id in a.db.activations
      ensures id in c.db.activations && ActivationLater(a.db.activations[id], c.db.activations[id])
    {
      assert id in b.db.activations;
    }
    forall id | id in a.db.cutovers
      ensures id in c.db.cutovers && CutoverLater(a.db.cutovers[id], c.db.cutovers[id])
    {
      assert id in b.db.cutovers;
    }
    forall id | id in a.logs
      ensures id in c.logs && LogGrows(a.logs[id], c.logs[id])
    {
      assert id in b.logs && LogGrows(a.logs[id], b.logs[id]) && LogGrows(b.logs[id], c.logs[id]);
    }
  }

  /** Over every run: a native turn is bound at most once, terminal activations and cutovers never
    * change, and a superseded offer never changes. */
  lemma {:induction false} RunIsLater(w: World, events: seq<Event>)
    requires Inv(w)
    ensures Inv(Run(w, events)) && RowsLater(w, Run(w, events))
    decreases |events|
  {
    hide Step, Inv, RowsLater;
    if events == [] {
      SameRowsLater(w);
    } else {
      var before := Run(w, events[..|events| - 1]);
      RunIsLater(w, events[..|events| - 1]);
      StepKeepsInv(before, events[|events| - 1]);
      StepIsLater(before, events[|events| - 1]);
      RowsLaterTransitive(w, before, Run(w, events));
    }
  }

  lemma SameRowsLater(w: World)
    ensures RowsLater(w, w)
  {
  }

  /** Over every run in which no other writer moves an agent's delivery position or ingress cursor back,
    * neither ever goes back: not by an acknowledgement, and not by any sequence of reverse and forward
    * commits. */
  lemma {:induction false} RunCursorsLater(w: World, events: seq<Event>, agent: Id)
    requires Inv(w) && CursorsKeptRun(w, events, agent)
    ensures CursorsLater(w.db, Run(w, events).db, agent)
    decreases |events|
  {
    hide Step, Inv, CursorsKeptRun, Position, Observed;
    if events != [] {
      var before, last := Run(w, events[..|events| - 1]), events[|events| - 1];
      Shorter(w, events, agent);
      RunCursorsLater(w, events[..|events| - 1], agent);
      RunKeepsInv(w, events[..|events| - 1]);
      StepMovesCursorsOn(before, last, agent);
    }
  }

  lemma StepMovesIngressOn(w: World, e: Event, agent: Id)
    requires Inv(w) && (e.Environment? ==> Observed(w.db, agent) <= Observed(e.next, agent))
    ensures Observed(w.db, agent) <= Observed(Step(w, e).db, agent)
  {
    hide Step;
    StepChanges(w, e);
    if !e.Environment? { ChangeMovesCursorsOn(w, Step(w, e), agent); }
  }

  /** Over every run in which no other writer moves an agent's ingress cursor back, it never goes back,
    * whatever becomes of the agent's worker in between: no sequence of reverse and forward commits lowers
    * it. */
  lemma {:induction false} RunIngressLater(w: World, events: seq<Event>, agent: Id)
    requires Inv(w) && IngressKeptRun(w, events, agent)
    ensures Observed(w.db, agent) <= Observed(Run(w, events).db, agent)
    decreases |events|
  {
    hide Step, Inv, IngressKeptRun, Observed;
    if events != [] {
      Shorter(w, events, agent);
      RunIngressLater(w, events[..|events| - 1], agent);
      RunKeepsInv(w, events[..|events| - 1]);
      StepMovesIngressOn(Run(w, events[..|events| - 1]), events[|events| - 1], agent);
    }
  }

  /** In every reachable state every activation row passes the table's constraints: it has an outcome
    * exactly when it is complete, it is lost when it completed without a turn, and an agent has at most
    * one unresolved row. */
  lemma EveryActivationRowIsAccepted(w: World, events: seq<Event>, a: Id, b: Id)
    requires Init(w) && a in Run(w, events).db.activations && b in Run(w, events).db.activations
    ensures var row := Run(w, events).db.activations[a]; var other := Run(w, events).db.activations[b];
            && RowAccepted(a, row) && NativeTurnFree(Run(w, events).db, a, row)
            && (row.phase == Complete <==> row.outcome.Some?)
            && (row.phase == Complete && row.turnId.None? ==> row.outcome == Some(Lost))
            && (row.identity.agentId == other.identity.agentId && ActivationUnresolved(row) && ActivationUnresolved(other) ==> a == b)
  {
    hide Step;
    InitInv(w);
    RunKeepsInv(w, events);
    assert RowAccepted(a, Run(w, events).db.activations[a]);
  }

  // ----- the two state machines exclude each other -----

  /** In every reachable state no agent has both an unresolved drain and an unresolved activation. */
  lemma NeverBothUnresolved(w: World, events: seq<Event>, agent: Id)
    requires Init(w)
    ensures !(HasUnresolvedDrain(Run(w, events).db, agent) && HasUnresolvedActivation(Run(w, events).db, agent))
  {
    hide Step;
    InitInv(w);
    RunKeepsInv(w, events);
  }

  /** An activation stays clear of the pre-activation undo of `c`: it ran neither under the reverse that
    * `c` undoes, nor, for the same agent and work, in that reverse's generation or a later one. */
  predicate ClearOf(db: Db, a: Activation, c: Cutover) {
    && c.owned.Some? && c.predecessor.Some? && c.predecessor.value in db.cutovers
    && a.identity.reverseOperationId != c.predecessor.value
    && (a.identity.agentId == c.agentId && a.identity.native.workAttemptId == c.owned.value.native.workAttemptId ==>
          var own := GenerationOf(db, a.identity.native.workAttemptId, a.identity.generationId);
          var reversed := GenerationOf(db, a.identity.native.workAttemptId, db.cutovers[c.predecessor.value].generationId);
          own.Some? && reversed.Some? && own.value < reversed.value)
  }

  /** A forward cutover commits only if no activation under its reverse predecessor, nor any of the same
    * work in that generation or a later one, was ever dispatched before. */
  lemma ForwardOnlyBeforeDispatch(w: World, events: seq<Event>, id: Id, agent: Id, current: Option<Entry>, now: nat, a: Id)
    requires Init(w)
    requires var end := Run(w, events);
             && CommitDrain(end.db, id, agent, current, now).Commit? && IsForward(end.db.cutovers[id])
             && a in end.dispatched
    ensures var end := Run(w, events);
            a in end.db.activations && ClearOf(end.db, end.db.activations[a], end.db.cutovers[id])
  {
    hide Step;
    InitInv(w);
    RunKeepsInv(w, events);
    CommitNeedsPreActivation(Run(w, events).db, id, agent, current, now, a);
  }

  lemma CommitNeedsPreActivation(db: Db, id: Id, agent: Id, current: Option<Entry>, now: nat, a: Id)
    requires CommitDrain(db, id, agent, current, now).Commit? && IsForward(db.cutovers[id])
    requires a in db.activations && db.activations[a].phase != Cancelled
    ensures ClearOf(db, db.activations[a], db.cutovers[id])
  {
    assert PreActivation(db, db.cutovers[id]);
  }

  // ----- from the stop intent to the commit -----

  lemma CommitElsewhereKeeps(w: World, next: World, id: Id, cursor: string, d: Id)
    requires CutoverCommitted(w, next, id, cursor) && d in w.db.cutovers && d != id
    ensures d in next.db.cutovers && next.db.cutovers[d] == w.db.cutovers[d]
  {
    CommitTouches(w, next, id, cursor);
  }

  lemma ActivationSideLeavesCutovers(w: World, next: World)
    ensures (exists id :: ActivationUpdated(w, next, id)) || (exists id, a :: ActivationInserted(w, next, id, a))
            || (exists a, offerId, offer :: OfferRecorded(w, next, a, offerId, offer))
            || (exists a, at :: OfferAcknowledged(w, next, a, at)) ==>
              next.db.cutovers == w.db.cutovers && next.db.context == w.db.context
  {
    if id :| ActivationUpdated(w, next, id) {
    } else if id, a :| ActivationInserted(w, next, id, a) {
    } else if a, offerId, offer :| OfferRecorded(w, next, a, offerId, offer) {
    } else if a, at :| OfferAcknowledged(w, next, a, at) {
    }
  }

  lemma NothingElseCompletes(w: World, next: World, d: Id)
    requires ChangedBeforeCommit(w, next) && d in w.db.cutovers && w.db.cutovers[d].phase != CutComplete
    ensures d in next.db.cutovers && next.db.cutovers[d].phase != CutComplete
  {
    ActivationSideLeavesCutovers(w, next);
    hide ActivationUpdated, ActivationInserted, OfferRecorded, OfferAcknowledged;
    if id, c :| CutoverMoved(w, next, id, c) {
    } else if id, c :| CutoverInserted(w, next, id, c) {
    }
  }

  /** Rows that only move on keep a stopped drain stopped unless it completes. */
  lemma StoppedUnlessComplete(w: World, next: World, d: Id)
    requires RowsLater(w, next) && d in w.db.cutovers && Stopped(w.db.cutovers[d])
    ensures d in next.db.cutovers && next.db.cutovers[d].agentId == w.db.cutovers[d].agentId
    ensures next.db.cutovers[d].phase != CutComplete ==> Stopped(next.db.cutovers[d])
  {
    assert CutoverLater(w.db.cutovers[d], next.db.cutovers[d]);
  }

  /** Every step but the drain's own commit leaves it stopped. */
  lemma StoppedStaysUntilCommit(w: World, e: Event, d: Id)
    requires Inv(w) && d in w.db.cutovers && Stopped(w.db.cutovers[d])
    requires !(e.CommitCutover? && e.id == d)
    ensures d in Step(w, e).db.cutovers && Stopped(Step(w, e).db.cutovers[d])
    ensures Step(w, e).db.cutovers[d].agentId == w.db.cutovers[d].agentId
  {
    hide Step, Inv, RowsLater, ChangedBeforeCommit, CutoverCommitted;
    StepChanges(w, e);
    var next := Step(w, e);
    if e.CommitCutover? {
      if next != w {
        var cursor :| CutoverCommitted(w, next, e.id, cursor);
        CommitElsewhereKeeps(w, next, e.id, cursor, d);
      }
    } else if !e.Environment? {
      NothingElseCompletes(w, next, d);
    }
    StepIsLater(w, e);
    StoppedUnlessComplete(w, next, d);
  }

  lemma {:induction false} StoppedRun(w: World, events: seq<Event>, d: Id)
    requires Inv(w) && d in w.db.cutovers && Stopped(w.db.cutovers[d])
    requires forall i :: 0 <= i < |events| ==> !(events[i].CommitCutover? && events[i].id == d)
    ensures var end := Run(w, events);
            && Inv(end) && d in end.db.cutovers && Stopped(end.db.cutovers[d])
            && end.db.cutovers[d].agentId == w.db.cutovers[d].agentId
    decreases |events|
  {
    hide Step, Inv;
    if events != [] {
      var before := Run(w, events[..|events| - 1]);
      StoppedRun(w, events[..|events| - 1], d);
      StoppedStaysUntilCommit(before, events[|events| - 1], d);
      StepKeepsInv(before, events[|events| - 1]);
    }
  }

  /** From the durable stop intent on, whatever happens short of its own commit, the drain stays stopped,
    * cannot be cancelled and admits no ingress; and while every writer of its agent's inbox goes
    * through the gates that agent has no unfinished inbox item. */
  lemma StoppedUntilCommitted(w: World, events: seq<Event>, d: Id, item: Id, now: nat)
    requires Inv(w) && d in w.db.cutovers && Stopped(w.db.cutovers[d])
    requires forall i :: 0 <= i < |events| ==> !(events[i].CommitCutover? && events[i].id == d)
    ensures var end := Run(w, events);
            && Inv(end) && d in end.db.cutovers && Stopped(end.db.cutovers[d])
            && end.db.cutovers[d].agentId == w.db.cutovers[d].agentId
            && !IngressAllowed(end.db, w.db.cutovers[d].agentId)
            && CancelDrain(end.db, d, w.db.cutovers[d].agentId, now).Abort?
    ensures var agent := w.db.cutovers[d].agentId;
            Quiet(w.db, agent) && GatedRun(w, events, agent) ==> !Awaits(Run(w, events).db, agent, item)
  {
    var agent := w.db.cutovers[d].agentId;
    StoppedRun(w, events, d);
    if Quiet(w.db, agent) && GatedRun(w, events, agent) { RunKeepsQuiet(w, events, agent); }
    hide Run, GatedRun;
    StoppedClosesIngress(Run(w, events).db, d);
  }

  // ----- admission is never repeated -----

  /** The item has no turn and is not being dispatched. */
  predicate Undispatched(item: Item) { item.turnId.None? && item.state != ItemDispatching }

  /** Whatever row the item has, it is not the drained agent's or has not started. */
  predicate NotStarted(db: Db, agent: Id, item: Id) {
    item in db.context.inbox && db.context.inbox[item].agentId == agent ==> Undispatched(db.context.inbox[item])
  }

  lemma TransactionsLeaveContext(w: World, next: World)
    requires Changed(w, next)
    ensures next.db.context == w.db.context
  {
    if id, cursor :| CutoverCommitted(w, next, id, cursor) {
      CommitTouches(w, next, id, cursor);
    } else if id, c :| CutoverMoved(w, next, id, c) {
    } else {
      OnlyCutoversMove(w, next);
    }
  }

  /** The admission gate of an unresolved drain refuses an item that has not started. */
  lemma DrainRefusesUnstarted(db: Db, d: Id, item: Id)
    requires OneUnresolvedDrain(db) && d in db.cutovers && CutoverUnresolved(db.cutovers[d])
    requires item in db.context.inbox && db.context.inbox[item].agentId == db.cutovers[d].agentId
    requires Undispatched(db.context.inbox[item])
    ensures !AllowsAdmission(db, item, db.context.inbox[item])
  {
    assert HasUnresolvedDrain(db, db.cutovers[d].agentId);
  }

  lemma EnvironmentStartsNothing(w: World, next: World, d: Id, item: Id)
    requires OneUnresolvedDrain(w.db) && d in w.db.cutovers && CutoverUnresolved(w.db.cutovers[d])
    requires InboxGated(w.db, next.db, w.db.cutovers[d].agentId)
    requires NotStarted(w.db, w.db.cutovers[d].agentId, item)
    ensures NotStarted(next.db, w.db.cutovers[d].agentId, item)
  {
    if item in next.db.context.inbox && next.db.context.inbox[item].agentId == w.db.cutovers[d].agentId {
      assert GatedItem(w.db, next.db, item);
      if item in w.db.context.inbox { DrainRefusesUnstarted(w.db, d, item); }
    }
  }

  /** An item reset to pending without a turn, or one that never started, is refused by the admission gate
    * for as long as the same drain stays unresolved, whatever becomes of its row in between. */
  lemma {:induction false} NeverReadmitted(w: World, events: seq<Event>, d: Id, item: Id)
    requires Inv(w) && d in w.db.cutovers && NotStarted(w.db, w.db.cutovers[d].agentId, item)
    requires GatedRun(w, events, w.db.cutovers[d].agentId)
    requires d in Run(w, events).db.cutovers && CutoverUnresolved(Run(w, events).db.cutovers[d])
    ensures var end := Run(w, events);
            && end.db.cutovers[d].agentId == w.db.cutovers[d].agentId
            && NotStarted(end.db, end.db.cutovers[d].agentId, item)
            && (item in end.db.context.inbox && end.db.context.inbox[item].agentId == end.db.cutovers[d].agentId ==>
                  !AllowsAdmission(end.db, item, end.db.context.inbox[item]))
    decreases |events|
  {
    RunKeepsInv(w, events);
    hide Step, Inv, GatedRun, InboxGated, NotStarted, AllowsAdmission, RowsLater;
    if events != [] {
      var earlier, last := events[..|events| - 1], events[|events| - 1];
      var before := Run(w, earlier);
      Shorter(w, events, w.db.cutovers[d].agentId);
      RunIsLater(w, earlier);
      StepIsLater(before, last);
      SameDrain(w, before, d);
      SameDrain(before, Run(w, events), d);
      NeverReadmitted(w, earlier, d, item);
      UnstartedStep(before, last, d, item);
    }
    UnstartedRefused(Run(w, events), d, item);
  }

  lemma SameDrain(w: World, next: World, d: Id)
    requires RowsLater(w, next) && d in w.db.cutovers
    ensures d in next.db.cutovers && next.db.cutovers[d].agentId == w.db.cutovers[d].agentId
    ensures CutoverUnresolved(next.db.cutovers[d]) ==> CutoverUnresolved(w.db.cutovers[d])
  {
  }

  lemma UnstartedStep(w: World, e: Event, d: Id, item: Id)
    requires Inv(w) && d in w.db.cutovers && CutoverUnresolved(w.db.cutovers[d])
    requires e.Environment? ==> InboxGated(w.db, e.next, w.db.cutovers[d].agentId)
    requires NotStarted(w.db, w.db.cutovers[d].agentId, item)
    ensures NotStarted(Step(w, e).db, w.db.cutovers[d].agentId, item)
  {
    hide Step;
    StepChanges(w, e);
    if !e.Environment? {
      TransactionsLeaveContext(w, Step(w, e));
    } else if Step(w, e) != w {
      EnvironmentStartsNothing(w, Step(w, e), d, item);
    }
  }

  lemma UnstartedRefused(w: World, d: Id, item: Id)
    requires Inv(w) && d in w.db.cutovers && CutoverUnresolved(w.db.cutovers[d])
    requires NotStarted(w.db, w.db.cutovers[d].agentId, item)
    ensures item in w.db.context.inbox && w.db.context.inbox[item].agentId == w.db.cutovers[d].agentId ==>
              !AllowsAdmission(w.db, item, w.db.context.inbox[item])
  {
    if item in w.db.context.inbox && w.db.context.inbox[item].agentId == w.db.cutovers[d].agentId {
      DrainRefusesUnstarted(w.db, d, item);
    }
  }
}
