/**
  * What every run keeps as long as the other writers keep to their part: a stopped agent's inbox stays
  * quiet while every inbox writer goes through its gate, and an agent's offers stay accounted for while
  * nobody else moves its worker cursor.
  */
module CustodyConditions {
  import opened CustodyInvariant
  import opened CustodyRuns
  import opened CustodyTables
  import opened DeliveryDrains
  import opened PollingActivations
  import opened PollingOfferCursor
  import opened PollingOfferLog
  import opened PollingOffers
  import opened Wrappers

  /** The conditions on a run hold of its beginning, and of its last event. */
  lemma Shorter(w: World, events: seq<Event>, agent: Id)
    requires events != []
    ensures var earlier, last := events[..|events| - 1], events[|events| - 1];
            && (GatedRun(w, events, agent) ==>
                  GatedRun(w, earlier, agent) && (last.Environment? ==> InboxGated(Run(w, earlier).db, last.next, agent)))
            && (IngressKeptRun(w, events, agent) ==>
                  IngressKeptRun(w, earlier, agent)
                  && (last.Environment? ==> Observed(Run(w, earlier).db, agent) <= Observed(last.next, agent)))
            && (WorkerKeptRun(w, events, agent) ==>
                  WorkerKeptRun(w, earlier, agent) && (last.Environment? ==> WorkerKept(Run(w, earlier).db, last.next, agent)))
            && (CursorsKeptRun(w, events, agent) ==>
                  CursorsKeptRun(w, earlier, agent) && (last.Environment? ==> CursorsLater(Run(w, earlier).db, last.next, agent)))
  {
    hide Run, InboxGated, WorkerKept, CursorsLater, Observed;
    var earlier := events[..|events| - 1];
    assert forall n :: 0 <= n < |earlier| ==> earlier[..n] == events[..n] && earlier[n] == events[n];
    assert events[..|earlier|] == earlier;
  }

  // ----- the stopped inbox -----

  lemma ChangeKeepsQuiet(w: World, next: World, agent: Id)
    requires Quiet(w.db, agent) && Changed(w, next)
    ensures Quiet(next.db, agent)
  {
    forall d, item | d in next.db.cutovers && item in next.db.context.inbox && Stopped(next.db.cutovers[d])
                     && next.db.cutovers[d].agentId == agent
      ensures !Awaits(next.db, agent, item)
    {
      if id, c :| CutoverMoved(w, next, id, c) {
        MovedCutoverKeepsQuiet(w, next, id, c, d, item);
      } else if id, cursor :| CutoverCommitted(w, next, id, cursor) {
        CommitTouches(w, next, id, cursor);
        assert !Awaits(w.db, w.db.cutovers[d].agentId, item);
      } else {
        OnlyCutoversMove(w, next);
        assert !Awaits(w.db, next.db.cutovers[d].agentId, item);
      }
    }
  }

  lemma MovedCutoverKeepsQuiet(w: World, next: World, id: Id, c: Cutover, d: Id, item: Id)
    requires CutoverMoved(w, next, id, c)
    requires d in next.db.cutovers && item in next.db.context.inbox && Stopped(next.db.cutovers[d])
    requires Quiet(w.db, next.db.cutovers[d].agentId)
    ensures !Awaits(next.db, next.db.cutovers[d].agentId, item)
  {
    if d != id || c.phase == CutUncertain {
      assert Stopped(w.db.cutovers[d]) && !Awaits(w.db, w.db.cutovers[d].agentId, item);
    } else {
      assert !Awaits(w.db, c.agentId, item);
    }
  }

  /** Whatever is neither a move nor a commit of a cutover stops nothing and leaves the inbox alone. */
  lemma OnlyCutoversMove(w: World, next: World)
    requires ChangedBeforeCommit(w, next) && !(exists id, c :: CutoverMoved(w, next, id, c))
    ensures next.db.context == w.db.context
    ensures forall d :: d in next.db.cutovers && Stopped(next.db.cutovers[d]) ==>
              d in w.db.cutovers && next.db.cutovers[d] == w.db.cutovers[d]
  {
    if id, c :| CutoverInserted(w, next, id, c) {
    } else if a, offerId, offer :| OfferRecorded(w, next, a, offerId, offer) {
    } else if a, at :| OfferAcknowledged(w, next, a, at) {
    } else if id :| ActivationUpdated(w, next, id) {
    } else if id, a :| ActivationInserted(w, next, id, a) {
    }
  }

  lemma EnvironmentKeepsQuiet(w: World, next: World, agent: Id)
    requires Inv(w) && Quiet(w.db, agent) && EnvironmentChanged(w, next) && InboxGated(w.db, next.db, agent)
    ensures Quiet(next.db, agent)
  {
    forall d, item | d in next.db.cutovers && item in next.db.context.inbox && Stopped(next.db.cutovers[d])
                     && next.db.cutovers[d].agentId == agent
      ensures !Awaits(next.db, agent, item)
    {
      StoppedClosesIngress(w.db, d);
      if next.db.context.inbox[item].agentId == agent { assert GatedItem(w.db, next.db, item); }
      if item in w.db.context.inbox { assert !Awaits(w.db, agent, item); }
    }
  }

  lemma StepKeepsQuiet(w: World, e: Event, agent: Id)
    requires Inv(w) && Quiet(w.db, agent) && (e.Environment? ==> InboxGated(w.db, e.next, agent))
    ensures Quiet(Step(w, e).db, agent)
  {
    hide Step, Quiet, Inv, InboxGated, Changed, ChangedBeforeCommit;
    StepChanges(w, e);
    if !e.Environment? {
      ChangeKeepsQuiet(w, Step(w, e), agent);
    } else if Step(w, e) != w {
      EnvironmentKeepsQuiet(w, Step(w, e), agent);
    }
  }

  /** Over every run whose writers of one agent's inbox go through its gates, that agent stays quiet. */
  lemma {:induction false} RunKeepsQuiet(w: World, events: seq<Event>, agent: Id)
    requires Inv(w) && Quiet(w.db, agent) && GatedRun(w, events, agent)
    ensures Quiet(Run(w, events).db, agent)
    decreases |events|
  {
    hide Step, Inv, Quiet, GatedRun, InboxGated;
    if events != [] {
      Shorter(w, events, agent);
      RunKeepsQuiet(w, events[..|events| - 1], agent);
      RunKeepsInv(w, events[..|events| - 1]);
      StepKeepsQuiet(Run(w, events[..|events| - 1]), events[|events| - 1], agent);
    }
  }

  // ----- the worker cursor -----

  lemma InsertedActivationAccounted(w: World, next: World, id: Id, a: Activation, agent: Id)
    requires Accounted(w, agent) && ActivationInserted(w, next, id, a)
    ensures Accounted(next, agent)
  {
    forall other | other in next.db.activations && other in next.logs && next.db.activations[other].identity.agentId == agent
      ensures AccountedAt(next, other)
    {
      if other != id { assert AccountedAt(w, other); }
    }
  }

  lemma UpdatedActivationAccounted(w: World, next: World, id: Id, agent: Id)
    requires Accounted(w, agent) && ActivationUpdated(w, next, id)
    ensures Accounted(next, agent)
  {
    assert next.db.activations[id].identity == w.db.activations[id].identity
           && (ActivationUnresolved(next.db.activations[id]) ==> ActivationUnresolved(w.db.activations[id]));
    hide UpdateAccepted, RowAccepted, NativeTurnFree, Advances, Reached;
    forall other | other in next.db.activations && other in next.logs && next.db.activations[other].identity.agentId == agent
      ensures AccountedAt(next, other)
    {
      assert AccountedAt(w, other);
    }
  }

  lemma RecordedOfferAdvances(w: World, next: World, a: Id, offerId: Id, offer: Offer)
    requires OfferRecorded(w, next, a, offerId, offer) && AccountedAt(w, a)
    ensures var start := w.db.activations[a].identity.roomCursor;
            Advances(start, next.logs[a].entries) && Reached(start, next.logs[a].entries) == Reached(start, w.logs[a].entries)
  {
    AppendAdvances(w.db.activations[a].identity.roomCursor, w.logs[a], offerId, offer);
  }

  lemma RecordedOfferAccounted(w: World, next: World, a: Id, offerId: Id, offer: Offer, agent: Id)
    requires Accounted(w, agent) && OfferRecorded(w, next, a, offerId, offer)
    ensures Accounted(next, agent)
  {
    if w.db.activations[a].identity.agentId == agent {
      assert AccountedAt(w, a);
      RecordedOfferAdvances(w, next, a, offerId, offer);
    }
    hide Refines, Closed, Advances, Reached, Appended, Compacted;
    forall other | other in next.db.activations && other in next.logs && next.db.activations[other].identity.agentId == agent
      ensures AccountedAt(next, other)
    {
      assert AccountedAt(w, other);
    }
  }

  lemma AcknowledgedOfferReaches(w: World, next: World, a: Id, at: nat)
    requires OfferAcknowledged(w, next, a, at) && AccountedAt(w, a)
    ensures var start := w.db.activations[a].identity.roomCursor;
            && Advances(start, next.logs[a].entries)
            && Reached(start, next.logs[a].entries) == w.logs[a].entries[|w.logs[a].entries| - 1].offer.frontier
  {
    AcknowledgeAdvances(w.db.activations[a].identity.roomCursor, w.logs[a], at);
  }

  lemma AcknowledgedOfferAccounted(w: World, next: World, a: Id, at: nat, agent: Id)
    requires Inv(w) && Accounted(w, agent) && OfferAcknowledged(w, next, a, at)
    ensures Accounted(next, agent)
  {
    if w.db.activations[a].identity.agentId == agent {
      assert AccountedAt(w, a);
      AcknowledgedOfferReaches(w, next, a, at);
    }
    hide LogsRefined, Advances, Reached, WithTailAcknowledged;
    forall other | other in next.db.activations && other in next.logs && next.db.activations[other].identity.agentId == agent
      ensures AccountedAt(next, other)
    {
      assert AccountedAt(w, other);
    }
  }

  lemma CommittedCutoverAccounted(w: World, next: World, id: Id, cursor: string, agent: Id)
    requires Inv(w) && Accounted(w, agent) && CutoverCommitted(w, next, id, cursor)
    ensures Accounted(next, agent)
  {
    var c := w.db.cutovers[id];
    CommitTouches(w, next, id, cursor);
    assert HasUnresolvedDrain(w.db, c.agentId);
    forall other | other in next.db.activations && other in next.logs && next.db.activations[other].identity.agentId == agent
      ensures AccountedAt(next, other)
    {
      assert AccountedAt(w, other);
      if ActivationUnresolved(w.db.activations[other]) { assert HasUnresolvedActivation(w.db, agent); }
    }
  }

  /** A step that leaves activations, logs and worker cursors alone. */
  lemma SameAccount(w: World, next: World, agent: Id)
    requires Accounted(w, agent) && next.db.activations == w.db.activations && next.logs == w.logs
    requires HasUnresolvedActivation(w.db, agent) && agent in w.db.bindings ==>
               agent in next.db.bindings && next.db.bindings[agent].cursor == w.db.bindings[agent].cursor
    ensures Accounted(next, agent)
  {
    forall other | other in next.db.activations && other in next.logs && next.db.activations[other].identity.agentId == agent
      ensures AccountedAt(next, other)
    {
      assert AccountedAt(w, other);
      if ActivationUnresolved(w.db.activations[other]) { assert HasUnresolvedActivation(w.db, agent); }
    }
  }

  lemma ChangeKeepsAccounted(w: World, next: World, agent: Id)
    requires Inv(w) && Accounted(w, agent) && Changed(w, next)
    ensures Accounted(next, agent)
  {
    hide Accounted, Inv;
    if next == w {
    } else if id, a :| ActivationInserted(w, next, id, a) {
      InsertedActivationAccounted(w, next, id, a, agent);
    } else if id :| ActivationUpdated(w, next, id) {
      UpdatedActivationAccounted(w, next, id, agent);
    } else if a, offerId, offer :| OfferRecorded(w, next, a, offerId, offer) {
      RecordedOfferAccounted(w, next, a, offerId, offer, agent);
    } else if a, at :| OfferAcknowledged(w, next, a, at) {
      AcknowledgedOfferAccounted(w, next, a, at, agent);
    } else if id, c :| CutoverInserted(w, next, id, c) {
      SameAccount(w, next, agent);
    } else if id, c :| CutoverMoved(w, next, id, c) {
      SameAccount(w, next, agent);
    } else if id, cursor :| CutoverCommitted(w, next, id, cursor) {
      CommittedCutoverAccounted(w, next, id, cursor, agent);
    }
  }

  lemma StepKeepsAccounted(w: World, e: Event, agent: Id)
    requires Inv(w) && Accounted(w, agent) && (e.Environment? ==> WorkerKept(w.db, e.next, agent))
    ensures Accounted(Step(w, e), agent)
  {
    hide Step, Accounted, Inv, Changed, ChangedBeforeCommit;
    StepChanges(w, e);
    if !e.Environment? {
      ChangeKeepsAccounted(w, Step(w, e), agent);
    } else if Step(w, e) != w {
      SameAccount(w, Step(w, e), agent);
    }
  }

  /** Over every run in which nobody else moves the agent's worker cursor, its offers are accounted for. */
  lemma {:induction false} RunKeepsAccounted(w: World, events: seq<Event>, agent: Id)
    requires Inv(w) && Accounted(w, agent) && WorkerKeptRun(w, events, agent)
    ensures Accounted(Run(w, events), agent)
    decreases |events|
  {
    hide Step, Inv, Accounted, WorkerKeptRun, WorkerKept;
    if events != [] {
      Shorter(w, events, agent);
      RunKeepsAccounted(w, events[..|events| - 1], agent);
      RunKeepsInv(w, events[..|events| - 1]);
      StepKeepsAccounted(Run(w, events[..|events| - 1]), events[|events| - 1], agent);
    }
  }
}
