/**
  * The invariant of the shared database survives every change, hence every run.
  */
module CustodyInvariant {
  import opened CustodyRuns
  import opened CustodyTables
  import opened DeliveryDrains
  import opened PollingActivations
  import opened PollingOfferCursor
  import opened PollingOfferLog
  import opened PollingOffers
  import opened Text
  import opened Wrappers

  // ----- activations -----

  /** Nothing new is unresolved on the activation side, and the drain side is untouched. */
  lemma UnresolvedOnlyShrinks(db: Db, next: Db)
    requires OneUnresolvedActivation(db) && OneUnresolvedDrain(db) && Exclusive(db)
    requires next.cutovers == db.cutovers
    requires forall id :: id in next.activations && ActivationUnresolved(next.activations[id]) ==>
               id in db.activations && ActivationUnresolved(db.activations[id])
               && next.activations[id].identity == db.activations[id].identity
    ensures OneUnresolvedActivation(next) && OneUnresolvedDrain(next) && Exclusive(next)
  {
    forall agent | HasUnresolvedActivation(next, agent)
      ensures !HasUnresolvedDrain(next, agent)
    {
      var id :| id in next.activations && next.activations[id].identity.agentId == agent
                && ActivationUnresolved(next.activations[id]);
      assert HasUnresolvedActivation(db, agent) && !HasUnresolvedDrain(db, agent);
    }
  }

  lemma InsertedActivationAccepted(w: World, next: World, id: Id, a: Activation)
    requires ActivationsAccepted(w.db) && ActivationInserted(w, next, id, a)
    ensures ActivationsAccepted(next.db)
  {
    forall other | other in next.db.activations
      ensures RowAccepted(other, next.db.activations[other])
      ensures NativeTurnFree(next.db, other, next.db.activations[other])
    {
      if other != id {
        assert RowAccepted(other, w.db.activations[other]) && NativeTurnFree(w.db, other, w.db.activations[other]);
      }
    }
  }

  lemma InsertedActivationExclusive(w: World, next: World, id: Id, a: Activation)
    requires OneUnresolvedActivation(w.db) && Exclusive(w.db) && ActivationInserted(w, next, id, a)
    ensures OneUnresolvedActivation(next.db) && Exclusive(next.db)
  {
    forall agent | HasUnresolvedActivation(next.db, agent)
      ensures !HasUnresolvedDrain(next.db, agent)
    {
      if agent == a.identity.agentId {
        assert !HasUnresolvedDrain(w.db, agent);
      } else {
        var other :| other in next.db.activations && next.db.activations[other].identity.agentId == agent
                     && ActivationUnresolved(next.db.activations[other]);
        assert HasUnresolvedActivation(w.db, agent) && !HasUnresolvedDrain(w.db, agent);
      }
    }
  }

  lemma InsertedActivationKeepsRows(w: World, next: World, id: Id, a: Activation)
    requires Inv(w) && ActivationInserted(w, next, id, a)
    ensures ActivationsAccepted(next.db) && OneUnresolvedActivation(next.db) && OneUnresolvedDrain(next.db)
    ensures Exclusive(next.db) && DispatchRecorded(next)
  {
    InsertedActivationAccepted(w, next, id, a);
    InsertedActivationExclusive(w, next, id, a);
  }

  lemma InsertedActivationKeepsLogs(w: World, next: World, id: Id, a: Activation)
    requires Inv(w) && ActivationInserted(w, next, id, a)
    ensures LogsRefined(next)
  {
    forall other | other in next.db.activations
      ensures LogRefined(next.db, other, next.logs[other])
    {
      if other != id { assert LogRefined(w.db, other, w.logs[other]); }
    }
  }

  lemma WriteAccepted(db: Db, next: Db, id: Id)
    requires ActivationsAccepted(db) && ActivationWrite(db, next, id)
    ensures ActivationsAccepted(next)
  {
    forall other | other in next.activations
      ensures RowAccepted(other, next.activations[other])
      ensures NativeTurnFree(next, other, next.activations[other])
    {
      assert RowAccepted(other, db.activations[other]) && NativeTurnFree(db, other, db.activations[other]);
    }
  }

  lemma UpdatedActivationRecorded(w: World, next: World, id: Id)
    requires DispatchRecorded(w) && ActivationUpdated(w, next, id)
    ensures DispatchRecorded(next)
  {
    hide RowAccepted, NativeTurnFree;
  }

  lemma UpdatedActivationKeepsRows(w: World, next: World, id: Id)
    requires Inv(w) && ActivationUpdated(w, next, id)
    ensures ActivationsAccepted(next.db) && OneUnresolvedActivation(next.db) && OneUnresolvedDrain(next.db)
    ensures Exclusive(next.db) && DispatchRecorded(next)
  {
    UpdatedActivationRecorded(w, next, id);
    hide DispatchRecorded, RowAccepted, NativeTurnFree;
    WriteAccepted(w.db, next.db, id);
    UnresolvedOnlyShrinks(w.db, next.db);
  }

  lemma UpdatedActivationKeepsLogs(w: World, next: World, id: Id)
    requires LogsRefined(w) && ActivationUpdated(w, next, id)
    ensures LogsRefined(next)
  {
    hide UpdateAccepted, RowAccepted, NativeTurnFree;
    forall other | other in next.db.activations
      ensures LogRefined(next.db, other, next.logs[other])
    {
      assert LogRefined(w.db, other, w.logs[other]);
    }
  }

  // ----- offers -----

  /** Offer writes touch the activation table only through a compaction anchor. */
  ghost predicate AnchorsOnly(db: Db, next: Db) {
    && next.activations.Keys == db.activations.Keys
    && next.cutovers == db.cutovers && next.context == db.context
    && forall id :: id in db.activations ==>
         next.activations[id] == db.activations[id].(compactedThrough := next.activations[id].compactedThrough)
  }

  lemma AnchorsAccepted(db: Db, next: Db)
    requires ActivationsAccepted(db) && AnchorsOnly(db, next)
    requires forall id :: id in next.activations && next.activations[id].compactedThrough.Some? ==>
               NonBlank(next.activations[id].compactedThrough.value)
    ensures ActivationsAccepted(next)
  {
    forall id | id in next.activations
      ensures RowAccepted(id, next.activations[id])
      ensures NativeTurnFree(next, id, next.activations[id])
    {
      assert RowAccepted(id, db.activations[id]) && NativeTurnFree(db, id, db.activations[id]);
    }
  }

  lemma AnchorsKeepRows(w: World, next: World)
    requires Inv(w) && AnchorsOnly(w.db, next.db) && next.dispatched == w.dispatched
    requires forall id :: id in next.db.activations && next.db.activations[id].compactedThrough.Some? ==>
               NonBlank(next.db.activations[id].compactedThrough.value)
    ensures ActivationsAccepted(next.db) && OneUnresolvedActivation(next.db) && OneUnresolvedDrain(next.db)
    ensures Exclusive(next.db) && DispatchRecorded(next)
  {
    AnchorsAccepted(w.db, next.db);
    UnresolvedOnlyShrinks(w.db, next.db);
  }

  /** Another activation's chain does not notice writes elsewhere. */
  lemma OtherChainKept(db: Db, next: Db, a: Id, other: Id, log: Log)
    requires LogRefined(db, other, log) && other != a
    requires OthersThan(next.offers, a) == OthersThan(db.offers, a)
    requires other in next.activations && next.activations[other] == db.activations[other]
    ensures LogRefined(next, other, log)
  {
    forall i | Retained(log, i)
      ensures log.entries[i].id in next.offers && next.offers[log.entries[i].id] == Shown(log, i)
    {
      ShownFacts(db.offers, other, log, i);
      assert log.entries[i].id in OthersThan(db.offers, a);
    }
    forall id | id in next.offers && next.offers[id].activation == other
      ensures exists i :: Retained(log, i) && log.entries[i].id == id
    {
      assert id in OthersThan(next.offers, a);
    }
  }

  lemma OthersOwned(db: Db, next: Db, a: Id)
    requires OthersThan(next.offers, a) == OthersThan(db.offers, a) && a in db.activations
    requires next.activations.Keys == db.activations.Keys
    requires forall id :: id in db.offers ==> db.offers[id].activation in db.activations
    ensures forall id :: id in next.offers ==> next.offers[id].activation in next.activations
  {
    forall id | id in next.offers && next.offers[id].activation != a
      ensures next.offers[id].activation in next.activations
    {
      assert id in OthersThan(next.offers, a);
    }
  }

  lemma AnchorNonBlank(log: Log)
    requires Recordable(log.entries) && log.first <= |log.entries|
    ensures Anchor(log).Some? ==> NonBlank(Anchor(log).value)
  {
    if log.first > 0 { assert RecordableAt(log.entries[log.first - 1]); }
  }

  lemma RecordedOfferKeepsChain(w: World, next: World, a: Id, offerId: Id, offer: Offer)
    requires Inv(w) && OfferRecorded(w, next, a, offerId, offer)
    ensures LogRefined(next.db, a, next.logs[a])
  {
    assert LogRefined(w.db, a, w.logs[a]);
    AppendStaysRecordable(w.logs[a], offerId, offer);
  }

  /** After a write to the chain of `a`, every chain still refines its log. */
  lemma ChainsKept(w: World, next: World, a: Id)
    requires LogsRefined(w) && a in w.db.activations
    requires OthersThan(next.db.offers, a) == OthersThan(w.db.offers, a)
    requires Closed(next.db.offers) && InvocationsUnique(next.db.offers)
    requires AnchorsOnly(w.db, next.db) && next.logs.Keys == w.logs.Keys
    requires forall id :: id in w.db.activations && id != a ==>
               next.logs[id] == w.logs[id] && next.db.activations[id] == w.db.activations[id]
    requires LogRefined(next.db, a, next.logs[a])
    ensures LogsRefined(next)
    ensures forall id :: id in next.db.activations && next.db.activations[id].compactedThrough.Some? ==>
              NonBlank(next.db.activations[id].compactedThrough.value)
  {
    forall id | id in next.db.activations
      ensures LogRefined(next.db, id, next.logs[id])
      ensures next.db.activations[id].compactedThrough.Some? ==> NonBlank(next.db.activations[id].compactedThrough.value)
    {
      assert LogRefined(w.db, id, w.logs[id]);
      if id != a { OtherChainKept(w.db, next.db, a, id, w.logs[id]); }
      AnchorNonBlank(next.logs[id]);
    }
    OthersOwned(w.db, next.db, a);
  }

  /** Every row but the new offer was there before, for the same invocation. */
  lemma RecordedOfferRows(w: World, next: World, a: Id, offerId: Id, offer: Offer, x: Id)
    requires LogsRefined(w) && OfferRecorded(w, next, a, offerId, offer) && x in next.db.offers
    ensures if x == offerId && next.db.offers[x].activation == a
            then SameInvocation(next.db.offers[x], a, offer.incarnation, offer.request)
            else x in w.db.offers
                 && SameInvocation(w.db.offers[x], next.db.offers[x].activation, next.db.offers[x].incarnation, next.db.offers[x].request)
  {
    var log, after := w.logs[a], next.logs[a];
    assert LogRefined(w.db, a, log);
    if next.db.offers[x].activation == a {
      var i :| Retained(after, i) && after.entries[i].id == x;
      assert Retained(after, |log.entries|);
      assert next.db.offers[x] == Shown(after, i);
      if i < |log.entries| {
        assert Retained(log, i);
        assert w.db.offers[x] == Shown(log, i);
        assert LinkedAt(log.entries, a, i) && LinkedAt(after.entries, a, i);
        assert after.entries[i] == log.entries[i];
      } else {
        assert LinkedAt(after.entries, a, i);
      }
    } else {
      assert OthersThan(next.db.offers, a)[x] == OthersThan(w.db.offers, a)[x];
    }
  }

  lemma RecordedOfferStaysUnique(w: World, next: World, a: Id, offerId: Id, offer: Offer)
    requires LogsRefined(w) && OfferRecorded(w, next, a, offerId, offer)
    ensures InvocationsUnique(next.db.offers)
  {
    forall x, y | x in next.db.offers && y in next.db.offers && Clash(next.db.offers, x, y)
      ensures x == y
    {
      RecordedOfferRows(w, next, a, offerId, offer, x);
      RecordedOfferRows(w, next, a, offerId, offer, y);
      if x in w.db.offers && y in w.db.offers && Clash(w.db.offers, x, y) {}
    }
  }

  lemma RecordedOfferKeeps(w: World, next: World, a: Id, offerId: Id, offer: Offer)
    requires Inv(w) && OfferRecorded(w, next, a, offerId, offer)
    ensures Inv(next)
  {
    RecordedOfferKeepsChain(w, next, a, offerId, offer);
    RecordedOfferStaysUnique(w, next, a, offerId, offer);
    ChainsKept(w, next, a);
    AnchorsKeepRows(w, next);
    hide LogsRefined, Closed, InvocationsUnique, ActivationsAccepted, OneUnresolvedActivation;
  }

  lemma AcknowledgedOfferKeepsChain(w: World, next: World, a: Id, at: nat)
    requires Inv(w) && OfferAcknowledged(w, next, a, at)
    ensures LogRefined(next.db, a, next.logs[a]) && Closed(next.db.offers)
    ensures OthersThan(next.db.offers, a) == OthersThan(w.db.offers, a)
  {
    assert LogRefined(w.db, a, w.logs[a]);
    AcknowledgeStaysRecordable(w.logs[a], at);
    AcknowledgeRefines(w.db, a, w.logs[a], at);
  }

  lemma AcknowledgedOfferStaysUnique(w: World, next: World, a: Id, at: nat)
    requires LogsRefined(w) && OfferAcknowledged(w, next, a, at)
    ensures InvocationsUnique(next.db.offers)
  {
    forall x, y | x in next.db.offers && y in next.db.offers && Clash(next.db.offers, x, y)
      ensures x == y
    {
      assert Clash(w.db.offers, x, y);
    }
  }

  lemma AcknowledgedOfferKeeps(w: World, next: World, a: Id, at: nat)
    requires Inv(w) && OfferAcknowledged(w, next, a, at)
    ensures Inv(next)
  {
    AcknowledgedOfferKeepsChain(w, next, a, at);
    AcknowledgedOfferStaysUnique(w, next, a, at);
    ChainsKept(w, next, a);
    AnchorsKeepRows(w, next);
    hide LogsRefined, Closed, InvocationsUnique, ActivationsAccepted, OneUnresolvedActivation;
  }

  // ----- cutovers -----

  /** Writes to any other table leave the activation side alone. */
  lemma OtherWritesKeepActivations(w: World, next: World)
    requires Inv(w)
    requires next.db.activations == w.db.activations && next.db.offers == w.db.offers
    requires next.logs == w.logs && next.dispatched == w.dispatched
    ensures ActivationsAccepted(next.db) && OneUnresolvedActivation(next.db) && DispatchRecorded(next) && LogsRefined(next)
  {
    forall id | id in next.db.activations
      ensures RowAccepted(id, next.db.activations[id]) && NativeTurnFree(next.db, id, next.db.activations[id])
      ensures LogRefined(next.db, id, next.logs[id])
    {
      assert RowAccepted(id, w.db.activations[id]) && NativeTurnFree(w.db, id, w.db.activations[id]);
      assert LogRefined(w.db, id, w.logs[id]);
    }
  }

  lemma InsertedCutoverExclusive(db: Db, next: Db, id: Id, c: Cutover)
    requires OneUnresolvedDrain(db) && Exclusive(db)
    requires id !in db.cutovers && next == db.(cutovers := db.cutovers[id := c])
    requires !HasUnresolvedDrain(db, c.agentId) && !HasUnresolvedActivation(db, c.agentId)
    ensures OneUnresolvedDrain(next) && Exclusive(next)
  {
    forall agent | HasUnresolvedActivation(next, agent)
      ensures !HasUnresolvedDrain(next, agent)
    {
      assert HasUnresolvedActivation(db, agent) && !HasUnresolvedDrain(db, agent);
    }
  }

  /** A cutover that was already unresolved, or no longer is, adds no conflict. */
  lemma MovedCutoverExclusive(db: Db, next: Db, id: Id)
    requires OneUnresolvedDrain(db) && Exclusive(db)
    requires next.activations == db.activations
    requires id in db.cutovers && CutoverUnresolved(db.cutovers[id])
    requires id in next.cutovers && next.cutovers == db.cutovers[id := next.cutovers[id]]
    requires next.cutovers[id].agentId == db.cutovers[id].agentId
    ensures OneUnresolvedDrain(next) && Exclusive(next)
  {
    forall agent | HasUnresolvedActivation(next, agent)
      ensures !HasUnresolvedDrain(next, agent)
    {
      assert HasUnresolvedActivation(db, agent) && !HasUnresolvedDrain(db, agent);
    }
  }

  lemma InsertedCutoverKeeps(w: World, next: World, id: Id, c: Cutover)
    requires Inv(w) && CutoverInserted(w, next, id, c)
    ensures Inv(next)
  {
    OtherWritesKeepActivations(w, next);
    InsertedCutoverExclusive(w.db, next.db, id, c);
  }

  lemma MovedCutoverKeeps(w: World, next: World, id: Id, c: Cutover)
    requires Inv(w) && CutoverMoved(w, next, id, c)
    ensures Inv(next)
  {
    OtherWritesKeepActivations(w, next);
    MovedCutoverExclusive(w.db, next.db, id);
  }

  /** What a commit changes: one cutover row, one agent's cursors, checkpoint and configuration. */
  lemma CommitTouches(w: World, next: World, id: Id, cursor: string)
    requires CutoverCommitted(w, next, id, cursor)
    ensures next.logs == w.logs && next.dispatched == w.dispatched
    ensures next.db.activations == w.db.activations && next.db.offers == w.db.offers && next.db.context == w.db.context
    ensures id in next.db.cutovers && next.db.cutovers == w.db.cutovers[id := next.db.cutovers[id]]
    ensures next.db.cutovers[id].agentId == w.db.cutovers[id].agentId && next.db.cutovers[id].phase == CutComplete
    ensures next.db.bindings.Keys == w.db.bindings.Keys
    ensures forall agent :: agent in w.db.bindings && agent != w.db.cutovers[id].agentId ==>
              next.db.bindings[agent] == w.db.bindings[agent]
  {
  }

  lemma CommittedCutoverKeeps(w: World, next: World, id: Id, cursor: string)
    requires Inv(w) && CutoverCommitted(w, next, id, cursor)
    ensures Inv(next)
  {
    CommitTouches(w, next, id, cursor);
    OtherWritesKeepActivations(w, next);
    MovedCutoverExclusive(w.db, next.db, id);
  }

  // ----- environment -----

  /** A stopped drain closes the ingress gate. */
  lemma StoppedClosesIngress(db: Db, d: Id)
    requires OneUnresolvedDrain(db) && d in db.cutovers && Stopped(db.cutovers[d])
    ensures OpenDrain(db, db.cutovers[d].agentId) == Some(d)
    ensures !IngressAllowed(db, db.cutovers[d].agentId)
  {
    assert HasUnresolvedDrain(db, db.cutovers[d].agentId);
  }

  lemma EnvironmentKeepsInv(w: World, next: World)
    requires Inv(w) && EnvironmentChanged(w, next)
    ensures Inv(next)
  {
    OtherWritesKeepActivations(w, next);
    forall agent | HasUnresolvedActivation(next.db, agent)
      ensures !HasUnresolvedDrain(next.db, agent)
    {
      assert HasUnresolvedActivation(w.db, agent);
      assert !HasUnresolvedDrain(w.db, agent);
    }
  }

  // ----- every step, every run -----

  lemma CustodyStepChanges(w: World, e: Event)
    requires Inv(w)
    requires e.CancelActivation? || e.CompleteActivation?
    ensures ChangedBeforeCommit(w, Step(w, e))
  {
    if e.id in w.db.activations { assert RowAccepted(e.id, w.db.activations[e.id]); }
    match e {
      case CancelActivation(id, agent, now) =>
        CancelAccepted(w.db, id, agent, now);
        UpdateChanges(w, Cancel(w.db, id, agent, now), id);
      case CompleteActivation(id, agent, turn, outcome, current, now) =>
        CompleteAccepted(w.db, id, agent, turn, outcome, current, now);
        UpdateChanges(w, CompleteWith(w.db, id, agent, turn, outcome, current, now), id);
    }
  }

  lemma CheckpointStepChanges(w: World, e: Event)
    requires Inv(w) && e.CheckpointActivationTurn?
    ensures ChangedBeforeCommit(w, Step(w, e))
  {
    if e.id in w.db.activations { assert RowAccepted(e.id, w.db.activations[e.id]); }
    CheckpointAccepted(w.db, e.id, e.agent, e.turn, e.current, e.now);
    UpdateChanges(w, CheckpointTurn(w.db, e.id, e.agent, e.turn, e.current, e.now), e.id);
  }

  lemma UncertainStepChanges(w: World, e: Event)
    requires Inv(w) && e.ActivationUncertain?
    ensures ChangedBeforeCommit(w, Step(w, e))
  {
    if e.id in w.db.activations { assert RowAccepted(e.id, w.db.activations[e.id]); }
    UncertainAccepted(w.db, e.id, e.agent, e.now);
    UpdateChanges(w, MarkUncertain(w.db, e.id, e.agent, e.now), e.id);
  }

  lemma DrainStepChanges(w: World, e: Event)
    requires e.CancelCutover? || e.DispatchCutover? || e.CutoverUncertain? || e.PrepareCutover?
    ensures ChangedBeforeCommit(w, Step(w, e))
  {
    match e {
      case PrepareCutover(input, current, reverse, head, now) =>
        if HeadChoice(w.db, input.agentId, head) { PrepareCutoverChanges(w, input, current, reverse, head, now); }
      case CancelCutover(id, agent, now) =>
        assert Step(w, e) == w || CutoverMoved(w, Step(w, e), id, MovedTo(w.db.cutovers[id], CutCancelled, now));
      case DispatchCutover(id, agent, handle, boundary, current, now) =>
        DispatchCutoverChanges(w, id, agent, handle, boundary, current, now);
      case CutoverUncertain(id, agent, now) =>
        assert Step(w, e) == w || CutoverMoved(w, Step(w, e), id, MovedTo(w.db.cutovers[id], CutUncertain, now));
    }
  }

  lemma OpeningStepChanges(w: World, e: Event)
    requires Inv(w)
    requires e.PrepareActivation? || e.DispatchActivation?
    ensures ChangedBeforeCommit(w, Step(w, e))
  {
    match e {
      case PrepareActivation(input, current, now) => PrepareChanges(w, input, current, now);
      case DispatchActivation(id, agent, handle, boundary, current, now) =>
        DispatchChanges(w, id, agent, handle, boundary, current, now);
    }
  }

  lemma OfferStepChanges(w: World, e: Event)
    requires Inv(w)
    requires e.RecordOffer? || e.AcknowledgeOffer?
    ensures ChangedBeforeCommit(w, Step(w, e))
  {
    match e {
      case RecordOffer(input, current, offerId, now) => RecordChanges(w, input, current, offerId, now);
      case AcknowledgeOffer(scope, cursor, current, now) => AcknowledgeChanges(w, scope, cursor, current, now);
    }
  }

  lemma CommitStepChanges(w: World, e: Event)
    requires e.CommitCutover?
    ensures Step(w, e) == w || exists cursor :: CutoverCommitted(w, Step(w, e), e.id, cursor)
  {
    CommitCutoverChanges(w, e.id, e.agent, e.current, e.now);
  }

  lemma EnvironmentStepChanges(w: World, e: Event)
    requires e.Environment?
    ensures Step(w, e) == w || (Step(w, e).db == e.next && EnvironmentChanged(w, Step(w, e)))
  {
  }

  /** Only the commit transaction commits a cutover, and only its own. */
  lemma StepChanges(w: World, e: Event)
    requires Inv(w)
    ensures if e.Environment? then Step(w, e) == w || (Step(w, e).db == e.next && EnvironmentChanged(w, Step(w, e)))
            else Changed(w, Step(w, e))
    ensures if e.CommitCutover? then Step(w, e) == w || exists cursor :: CutoverCommitted(w, Step(w, e), e.id, cursor)
            else e.Environment? || ChangedBeforeCommit(w, Step(w, e))
  {
    hide Step;
    if e.CommitCutover? {
      CommitStepChanges(w, e);
    } else if e.Environment? {
      EnvironmentStepChanges(w, e);
    } else if e.PrepareActivation? || e.DispatchActivation? {
      OpeningStepChanges(w, e);
    } else if e.RecordOffer? || e.AcknowledgeOffer? {
      OfferStepChanges(w, e);
    } else if e.CancelCutover? || e.DispatchCutover? || e.CutoverUncertain? || e.PrepareCutover? {
      DrainStepChanges(w, e);
    } else if e.CancelActivation? || e.CompleteActivation? {
      CustodyStepChanges(w, e);
    } else if e.CheckpointActivationTurn? {
      CheckpointStepChanges(w, e);
    } else {
      UncertainStepChanges(w, e);
    }
  }

  lemma ChangeKeepsInv(w: World, next: World)
    requires Inv(w) && Changed(w, next)
    ensures Inv(next)
  {
    if next == w {
    } else if id, cursor :| CutoverCommitted(w, next, id, cursor) {
      CommittedCutoverKeeps(w, next, id, cursor);
    } else if id, a :| ActivationInserted(w, next, id, a) {
      InsertedActivationKeepsRows(w, next, id, a);
      InsertedActivationKeepsLogs(w, next, id, a);
    } else if id :| ActivationUpdated(w, next, id) {
      UpdatedActivationKeepsRows(w, next, id);
      UpdatedActivationKeepsLogs(w, next, id);
    } else if a, offerId, offer :| OfferRecorded(w, next, a, offerId, offer) {
      RecordedOfferKeeps(w, next, a, offerId, offer);
    } else if a, at :| OfferAcknowledged(w, next, a, at) {
      AcknowledgedOfferKeeps(w, next, a, at);
    } else if id, c :| CutoverInserted(w, next, id, c) {
      InsertedCutoverKeeps(w, next, id, c);
    } else if id, c :| CutoverMoved(w, next, id, c) {
      MovedCutoverKeeps(w, next, id, c);
    }
  }

  lemma StepKeepsInv(w: World, e: Event)
    requires Inv(w)
    ensures Inv(Step(w, e))
  {
    hide Step;
    StepChanges(w, e);
    if !e.Environment? {
      ChangeKeepsInv(w, Step(w, e));
    } else if Step(w, e) != w {
      EnvironmentKeepsInv(w, Step(w, e));
    }
  }

  /** Every state of every run satisfies the invariant. */
  lemma {:induction false} RunKeepsInv(w: World, events: seq<Event>)
    requires Inv(w)
    ensures Inv(Run(w, events))
    decreases |events|
  {
    hide Step;
    if events != [] {
      RunKeepsInv(w, events[..|events| - 1]);
      StepKeepsInv(Run(w, events[..|events| - 1]), events[|events| - 1]);
    }
  }
}
