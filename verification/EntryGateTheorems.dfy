/** The entry gate over every run: mutual exclusion, arrival order, and the three exclusions. */
module EntryGateTheorems {
  import opened EntryGate
  import opened Wrappers

  // ----- the promise chain -----

  /** A tail promise settles exactly when its ticket and every earlier one of the entry are gone. */
  lemma {:induction false} SettledMeansAllGone(g: Gate, t: nat)
    requires LaneInv(g) && t < |g.tickets|
    ensures Settled(g.tickets, t) <==> Gone(g, t) && Alone(g, t)
    decreases t
  {
    assert LinkedAt(g, t);
    if g.tickets[t].previous.Some? {
      var p := g.tickets[t].previous.value;
      SettledMeansAllGone(g, p);
      if Gone(g, p) && Alone(g, p) {
        forall i | 0 <= i < t && g.tickets[i].entry == g.tickets[t].entry
          ensures Gone(g, i)
        {
          assert i <= p;
        }
      }
    }
  }

  /** The caller at the front of the lane, and no one else, may enter. */
  lemma MayEnterMeansAlone(g: Gate, t: nat)
    requires LaneInv(g) && t < |g.tickets| && g.tickets[t].phase == Waiting
    ensures MayEnter(g.tickets, t) <==> Alone(g, t)
  {
    assert LinkedAt(g, t);
    if g.tickets[t].previous.Some? {
      var p := g.tickets[t].previous.value;
      SettledMeansAllGone(g, p);
      if Settled(g.tickets, p) {
        forall i | 0 <= i < t && g.tickets[i].entry == g.tickets[t].entry
          ensures Gone(g, i)
        {
          assert i <= p;
        }
      }
    }
  }

  // ----- the invariant survives every step -----

  /** Phases only move forward: nobody who is gone comes back. */
  ghost predicate LaneMoves(g: Gate, next: Gate) {
    && |next.tickets| == |g.tickets|
    && forall i :: 0 <= i < |g.tickets| ==>
         && next.tickets[i].entry == g.tickets[i].entry && next.tickets[i].previous == g.tickets[i].previous
         && (Gone(g, i) ==> next.tickets[i].phase == g.tickets[i].phase)
  }

  lemma LaneMovesKeepsLinks(g: Gate, next: Gate)
    requires LaneInv(g) && LaneMoves(g, next)
    ensures forall t {:trigger LinkedAt(next, t)} :: 0 <= t < |next.tickets| ==> LinkedAt(next, t)
    ensures forall t {:trigger Alone(next, t)} :: 0 <= t < |next.tickets| && Alone(g, t) ==> Alone(next, t)
  {
    forall t | 0 <= t < |next.tickets|
      ensures LinkedAt(next, t)
      ensures Alone(g, t) ==> Alone(next, t)
    {
      assert LinkedAt(g, t);
      assert forall i :: 0 <= i < t && Gone(g, i) ==> Gone(next, i);
    }
  }

  lemma QueuedKeepsLane(g: Gate, entry: Id, roomMove: bool)
    requires LaneInv(g)
    ensures LaneInv(Queued(g, entry, roomMove))
  {
    var next := Queued(g, entry, roomMove);
    forall t | 0 <= t < |next.tickets|
      ensures LinkedAt(next, t) && OrderedAt(next, t) && KeyedAt(next, t)
    {
      if t < |g.tickets| {
        assert LinkedAt(g, t) && OrderedAt(g, t) && KeyedAt(g, t);
      } else {
        forall i | 0 <= i < t && g.tickets[i].entry == entry
          ensures if entry in g.ticks then i <= g.ticks[entry] else Gone(g, i)
        {
          assert KeyedAt(g, i);
        }
      }
    }
  }

  lemma InsideKeepsLane(g: Gate, t: nat, moving: bool)
    requires LaneInv(g) && t < |g.tickets| && MayEnter(g.tickets, t)
    ensures LaneInv(WithPhase(g, t, Inside(moving)))
  {
    var next := WithPhase(g, t, Inside(moving));
    MayEnterMeansAlone(g, t);
    hide Settled;
    LaneMovesKeepsLinks(g, next);
    forall i | 0 <= i < |next.tickets|
      ensures OrderedAt(next, i) && KeyedAt(next, i)
    {
      assert OrderedAt(g, i) && KeyedAt(g, i);
    }
  }

  lemma EnteredKeepsLane(g: Gate, t: nat, handoff: bool)
    requires LaneInv(g) && t < |g.tickets| && MayEnter(g.tickets, t)
    ensures LaneInv(Entered(g, t, handoff))
  {
    hide LaneInv, MayEnter;
    var moving := Entered(g, t, handoff).tickets[t].phase.moving;
    InsideKeepsLane(g, t, moving);
    SameLane(WithPhase(g, t, Inside(moving)), Entered(g, t, handoff));
  }

  lemma PhaseKeepsLane(g: Gate, t: nat, phase: Phase)
    requires LaneInv(g) && t < |g.tickets| && !Gone(g, t)
    requires phase == Left(false) || (phase.Inside? && g.tickets[t].phase.Inside?)
    ensures LaneInv(WithPhase(g, t, phase))
  {
    var next := WithPhase(g, t, phase);
    assert KeyedAt(g, t);
    LaneMovesKeepsLinks(g, next);
    forall i | 0 <= i < |next.tickets|
      ensures OrderedAt(next, i) && KeyedAt(next, i)
    {
      assert OrderedAt(g, i) && KeyedAt(g, i);
    }
  }

  /** One ticket with nobody left in front of it is gone, and everything else stays. */
  ghost predicate Departed(g: Gate, next: Gate, t: nat)
    requires t < |g.tickets|
  {
    && LaneMoves(g, next) && Alone(g, t) && next.ticks == g.ticks
    && (forall i :: 0 <= i < |g.tickets| && i != t ==> next.tickets[i] == g.tickets[i])
    && Gone(next, t) && next.tickets[t].cleaned == (next.tickets[t].phase == Left(false))
  }

  lemma ForgottenKeepsOrder(g: Gate, next: Gate, t: nat)
    requires LaneInv(g) && t < |g.tickets| && Departed(g, next, t)
    ensures var final := Forgotten(next, t);
            forall i {:trigger OrderedAt(final, i)} :: 0 <= i < |final.tickets| ==> OrderedAt(final, i)
  {
    hide LinkedAt, KeyedAt;
    forall i | 0 <= i < |g.tickets|
      ensures OrderedAt(Forgotten(next, t), i)
    {
      assert OrderedAt(g, i);
    }
  }

  lemma ForgottenKeepsKeys(g: Gate, next: Gate, t: nat)
    requires LaneInv(g) && t < |g.tickets| && Departed(g, next, t)
    ensures var final := Forgotten(next, t);
            KeysExact(final) && forall i {:trigger KeyedAt(final, i)} :: 0 <= i < |final.tickets| ==> KeyedAt(final, i)
  {
    hide LinkedAt, OrderedAt;
    assert KeyedAt(g, t);
    forall i | 0 <= i < |g.tickets|
      ensures KeyedAt(Forgotten(next, t), i)
    {
      assert KeyedAt(g, i);
      if i < t && g.tickets[i].entry == g.tickets[t].entry { assert Gone(g, i); }
    }
  }

  /** Forgetting a ticket that is gone, with nobody in front, never hides a live ticket. */
  lemma ForgottenKeepsLane(g: Gate, next: Gate, t: nat)
    requires LaneInv(g) && t < |g.tickets| && Departed(g, next, t)
    ensures LaneInv(Forgotten(next, t))
  {
    hide LinkedAt, OrderedAt, KeyedAt, KeysExact;
    LaneMovesKeepsLinks(g, Forgotten(next, t));
    ForgottenKeepsOrder(g, next, t);
    ForgottenKeepsKeys(g, next, t);
  }

  /** The lane depends on its tickets and tails alone. */
  lemma SameLane(g: Gate, next: Gate)
    requires LaneInv(g) && next.tickets == g.tickets && next.ticks == g.ticks
    ensures LaneInv(next)
  {
    forall t | 0 <= t < |next.tickets|
      ensures LinkedAt(next, t) && OrderedAt(next, t) && KeyedAt(next, t)
    {
      assert LinkedAt(g, t) && OrderedAt(g, t) && KeyedAt(g, t);
      assert Alone(g, t) <==> Alone(next, t) by {
        assert forall i :: 0 <= i < t ==> (Gone(g, i) <==> Gone(next, i));
      }
    }
  }

  lemma LeaveKeepsLane(g: Gate, t: nat)
    requires LaneInv(g) && Enabled(g, Leave(t))
    ensures LaneInv(Step(g, Leave(t)))
  {
    assert OrderedAt(g, t) && KeyedAt(g, t);
    ForgottenKeepsLane(g, WithPhase(g, t, Left(true)), t);
  }

  lemma CleanUpKeepsLane(g: Gate, t: nat)
    requires LaneInv(g) && Enabled(g, CleanUp(t))
    ensures LaneInv(Step(g, CleanUp(t)))
  {
    SettledMeansAllGone(g, t);
    ForgottenKeepsLane(g, g.(tickets := g.tickets[t := g.tickets[t].(cleaned := true)]), t);
  }

  lemma StepKeepsLane(g: Gate, e: Event)
    requires LaneInv(g) && Enabled(g, e)
    ensures LaneInv(Step(g, e))
  {
    hide LaneInv, Settled, MayEnter;
    var next := Step(g, e);
    match e {
      case Arrive(entry) => QueuedKeepsLane(g, entry, false);
      case StartMove(entry, _) =>
        QueuedKeepsLane(g, entry, true);
        SameLane(Queued(g, entry, true), next);
      case Enter(t, handoff) => EnteredKeepsLane(g, t, handoff);
      case AbandonWait(t) => PhaseKeepsLane(g, t, Left(false));
      case FinishMove(t) =>
        PhaseKeepsLane(g, t, Inside(false));
        SameLane(WithPhase(g, t, Inside(false)), next);
      case Leave(t) => LeaveKeepsLane(g, t);
      case CleanUp(t) => CleanUpKeepsLane(g, t);
      case _ => SameLane(g, next);
    }
  }

  /** At most one caller is inside the operation of an entry, and whoever may enter is the only one. */
  lemma MutualExclusion(g: Gate, t: nat, u: nat)
    requires LaneInv(g) && t < |g.tickets| && u < |g.tickets| && g.tickets[t].entry == g.tickets[u].entry
    requires g.tickets[t].phase.Inside? || MayEnter(g.tickets, t)
    requires g.tickets[u].phase.Inside? || MayEnter(g.tickets, u)
    ensures t == u
  {
    assert OrderedAt(g, t) && OrderedAt(g, u);
    if MayEnter(g.tickets, t) { MayEnterMeansAlone(g, t); }
    if MayEnter(g.tickets, u) { MayEnterMeansAlone(g, u); }
    assert Gone(g, t) || !Gone(g, t);
  }

  lemma NoMoveWhileFree(g: Gate, t: nat)
    requires LaneInv(g) && MovesExact(g) && t < |g.tickets| && MayEnter(g.tickets, t)
    ensures g.tickets[t].entry !in g.moves
  {
    if g.tickets[t].entry in g.moves { MutualExclusion(g, t, g.moves[g.tickets[t].entry]); }
  }

  lemma EnteredKeepsMoves(g: Gate, t: nat, handoff: bool)
    requires LaneInv(g) && MovesExact(g) && t < |g.tickets| && MayEnter(g.tickets, t)
    ensures MovesExact(Entered(g, t, handoff))
  {
    NoMoveWhileFree(g, t);
    hide LaneInv;
  }

  /** No room move enters or finishes its critical section. */
  lemma MovesKept(g: Gate, next: Gate)
    requires MovesExact(g) && next.moves == g.moves && next.enteredTwice == g.enteredTwice
    requires |g.tickets| <= |next.tickets|
    requires forall i :: 0 <= i < |g.tickets| ==>
               next.tickets[i].entry == g.tickets[i].entry
               && (next.tickets[i].phase == Inside(true) <==> g.tickets[i].phase == Inside(true))
    requires forall i :: |g.tickets| <= i < |next.tickets| ==> next.tickets[i].phase == Waiting
    ensures MovesExact(next)
  {
  }

  lemma FinishKeepsMoves(g: Gate, t: nat)
    requires MovesExact(g) && Enabled(g, FinishMove(t))
    ensures MovesExact(Step(g, FinishMove(t)))
  {
  }

  lemma TicketStepKeepsMoves(g: Gate, e: Event)
    requires MovesExact(g) && Enabled(g, e)
    requires e.Arrive? || e.AbandonWait? || e.Leave? || e.CleanUp? || e.StartMove?
    ensures MovesExact(Step(g, e))
  {
    hide MovesExact, Settled;
    MovesKept(g, Step(g, e));
  }

  lemma StepKeepsMoves(g: Gate, e: Event)
    requires LaneInv(g) && MovesExact(g)
    ensures MovesExact(Step(g, e))
  {
    hide MovesExact, LaneInv;
    if Enabled(g, e) {
      if e.Enter? {
        EnteredKeepsMoves(g, e.ticket, e.handoff);
      } else if e.FinishMove? {
        FinishKeepsMoves(g, e.ticket);
      } else if e.Arrive? || e.AbandonWait? || e.Leave? || e.CleanUp? || e.StartMove? {
        TicketStepKeepsMoves(g, e);
      } else {
        assert Step(g, e).tickets == g.tickets;
        MovesKept(g, Step(g, e));
      }
    }
  }

  lemma RegisteredKeepsCallers(g: Gate, entry: Id)
    requires CallersExact(g) && entry !in g.lifecycle
    ensures CallersExact(Registered(g, entry))
  {
    var next := Registered(g, entry);
    forall other, c: nat
      ensures Listed(next, other, c) <==> Outstanding(next, other, c)
      ensures Outstanding(next, other, c) && other in next.lifecycle ==> next.calls[c].woken
    {
      assert Listed(g, other, c) <==> Outstanding(g, other, c);
    }
  }

  lemma ReturnedKeepsCallers(g: Gate, c: nat)
    requires CallersExact(g) && c < |g.calls| && Outstanding(g, g.calls[c].entry, c)
    ensures CallersExact(Returned(g, c))
  {
    var next := Returned(g, c);
    forall other, d: nat
      ensures Listed(next, other, d) <==> Outstanding(next, other, d)
      ensures Outstanding(next, other, d) && other in next.lifecycle ==> next.calls[d].woken
    {
      assert Listed(g, other, d) <==> Outstanding(g, other, d);
    }
  }

  /** Whoever sleeps before a wake of its entry is awake after it. */
  lemma WokenKeepsCallers(g: Gate, next: Gate, only: Option<Id>)
    requires CallersExact(g) && next.calls == Woken(g, only).calls && next.waiters == g.waiters
    requires next.lifecycle == g.lifecycle || (only.Some? && next.lifecycle == g.lifecycle + {only.value})
    ensures CallersExact(next)
  {
    forall other, c: nat
      ensures Listed(next, other, c) <==> Outstanding(next, other, c)
      ensures Outstanding(next, other, c) && other in next.lifecycle ==> next.calls[c].woken
    {
      assert Listed(g, other, c) <==> Outstanding(g, other, c);
    }
  }

  lemma SameCallers(g: Gate, next: Gate)
    requires CallersExact(g) && next.calls == g.calls && next.waiters == g.waiters && next.lifecycle <= g.lifecycle
    ensures CallersExact(next)
  {
    forall other, c: nat
      ensures Listed(next, other, c) <==> Outstanding(next, other, c)
      ensures Outstanding(next, other, c) && other in next.lifecycle ==> next.calls[c].woken
    {
      assert Listed(g, other, c) <==> Outstanding(g, other, c);
    }
  }

  lemma StepKeepsCallers(g: Gate, e: Event)
    requires CallersExact(g)
    ensures CallersExact(Step(g, e))
  {
    hide CallersExact;
    if Enabled(g, e) {
      match e {
        case StartMove(entry, _) => RegisteredKeepsCallers(g, entry);
        case ReturnMove(c) => ReturnedKeepsCallers(g, c);
        case Wake(entry) => WokenKeepsCallers(g, Step(g, e), entry);
        case Begin(kind, entry, _) =>
          if kind == Lifecycle {
            WokenKeepsCallers(g, Step(g, e), Some(entry));
          } else {
            SameCallers(g, Step(g, e));
          }
        case _ => SameCallers(g, Step(g, e));
      }
    }
  }

  lemma StepKeepsInv(g: Gate, e: Event)
    requires Inv(g)
    ensures Inv(Step(g, e))
  {
    StepKeepsMoves(g, e);
    StepKeepsCallers(g, e);
    if Enabled(g, e) { StepKeepsLane(g, e); }
    hide LaneInv, MovesExact, CallersExact;
  }

  lemma {:induction false} RunKeepsInv(g: Gate, events: seq<Event>)
    requires Inv(g)
    ensures Inv(Run(g, events))
    decreases |events|
  {
    hide Inv, Step;
    if events != [] {
      RunKeepsInv(g, events[..|events| - 1]);
      StepKeepsInv(Run(g, events[..|events| - 1]), events[|events| - 1]);
    }
  }

  // ----- the lane, in every reachable state -----

  lemma ReachableInv(events: seq<Event>)
    ensures Inv(Run(Empty, events))
  {
    RunKeepsInv(Empty, events);
  }

  /** Whatever the callers and their aborts do, two callers of one entry are never inside together,
    * and while one is inside nobody of that entry may enter. */
  lemma AtMostOneInside(events: seq<Event>, t: nat, u: nat)
    requires var tickets := Run(Empty, events).tickets;
             && t < |tickets| && u < |tickets| && t != u && tickets[t].entry == tickets[u].entry
             && tickets[t].phase.Inside?
    ensures var tickets := Run(Empty, events).tickets; !tickets[u].phase.Inside? && !MayEnter(tickets, u)
  {
    hide Run;
    ReachableInv(events);
    var g := Run(Empty, events);
    if g.tickets[u].phase.Inside? || MayEnter(g.tickets, u) { MutualExclusion(g, t, u); }
  }

  /** Callers enter in arrival order: once a later caller entered, every earlier one of the entry has
    * already left or abandoned its wait. */
  lemma EntersInArrivalOrder(events: seq<Event>, t: nat, u: nat)
    requires var tickets := Run(Empty, events).tickets;
             && t < u < |tickets| && tickets[t].entry == tickets[u].entry
             && (tickets[u].phase.Inside? || tickets[u].phase == Left(true) || MayEnter(tickets, u))
    ensures Run(Empty, events).tickets[t].phase.Left?
  {
    hide Run;
    ReachableInv(events);
    var g := Run(Empty, events);
    assert OrderedAt(g, u);
    if MayEnter(g.tickets, u) { MayEnterMeansAlone(g, u); }
    assert Gone(g, t);
  }

  /** An absent key means nobody is inside or waiting. Once everybody is gone, every pending cleanup
    * may run, and after they have run the key is absent. */
  lemma KeyFollowsTickets(events: seq<Event>, entry: Id)
    ensures var g := Run(Empty, events);
            entry !in g.ticks ==> forall t :: 0 <= t < |g.tickets| && g.tickets[t].entry == entry ==> g.tickets[t].phase.Left?
    ensures var g := Run(Empty, events);
            (forall t :: 0 <= t < |g.tickets| && g.tickets[t].entry == entry ==> g.tickets[t].phase.Left?) ==>
              && (forall t :: 0 <= t < |g.tickets| && g.tickets[t].entry == entry ==> Settled(g.tickets, t))
              && (entry in g.ticks ==> Enabled(g, CleanUp(g.ticks[entry])) && entry !in Step(g, CleanUp(g.ticks[entry])).ticks)
  {
    hide Run;
    ReachableInv(events);
    var g := Run(Empty, events);
    forall t | 0 <= t < |g.tickets| && g.tickets[t].entry == entry
      ensures entry !in g.ticks ==> g.tickets[t].phase.Left?
      ensures (forall i :: 0 <= i < |g.tickets| && g.tickets[i].entry == entry ==> g.tickets[i].phase.Left?) ==> Settled(g.tickets, t)
    {
      assert KeyedAt(g, t);
      SettledMeansAllGone(g, t);
    }
  }

  /** The lane never stalls: with somebody waiting and nobody inside, the first in line may enter. */
  lemma {:induction false} SomeoneMayEnter(g: Gate, t: nat) returns (first: nat)
    requires LaneInv(g) && t < |g.tickets| && g.tickets[t].phase == Waiting
    requires forall i :: 0 <= i < |g.tickets| && g.tickets[i].entry == g.tickets[t].entry ==> !g.tickets[i].phase.Inside?
    ensures first <= t && g.tickets[first].entry == g.tickets[t].entry && MayEnter(g.tickets, first)
    decreases t
  {
    MayEnterMeansAlone(g, t);
    if Alone(g, t) {
      first := t;
    } else {
      var i :| 0 <= i < t && g.tickets[i].entry == g.tickets[t].entry && !Gone(g, i);
      first := SomeoneMayEnter(g, i);
    }
  }

  // ----- lifecycle and update fences against room moves -----

  /** Under a held lifecycle, or a scheduled update, no step lets a room move into its section. */
  lemma NoNewMove(g: Gate, e: Event, entry: Id)
    requires Inv(g)
    requires entry in g.lifecycle || (e.Enter? ==> e.handoff)
    requires entry in Step(g, e).moves
    ensures entry in g.moves && g.moves[entry] == Step(g, e).moves[entry]
  {
  }

  predicate InCriticalSection(g: Gate, t: nat) { t < |g.tickets| && g.tickets[t].phase == Inside(true) }

  /** Held from the first state to the last. */
  ghost predicate Held(g: Gate, events: seq<Event>, entry: Id) {
    forall n :: 0 <= n <= |events| ==> entry in Run(g, events[..n]).lifecycle
  }

  lemma {:induction false} HeldAdmitsNoMove(g: Gate, events: seq<Event>, entry: Id)
    requires Inv(g) && Held(g, events, entry) && entry in Run(g, events).moves
    ensures entry in g.moves && g.moves[entry] == Run(g, events).moves[entry]
    decreases |events|
  {
    hide Inv, Step;
    if events != [] {
      var earlier := events[..|events| - 1];
      RunKeepsInv(g, earlier);
      assert entry in Run(g, events[..|events| - 1]).lifecycle;
      NoNewMove(Run(g, earlier), events[|events| - 1], entry);
      forall n | 0 <= n <= |earlier|
        ensures entry in Run(g, earlier[..n]).lifecycle
      {
        assert earlier[..n] == events[..n];
      }
      HeldAdmitsNoMove(g, earlier, entry);
    }
  }

  /** A lifecycle action that waited for the room move it found active meets no room move inside the
    * critical section of its entry for as long as it is held. */
  lemma LifecycleExcludesRoomMoves(g: Gate, waiting: seq<Event>, after: seq<Event>, entry: Id, t: nat)
    requires Inv(g) && Held(g, waiting, entry) && Held(Run(g, waiting), after, entry)
    requires entry in g.moves ==> !InCriticalSection(Run(g, waiting), g.moves[entry])
    ensures var end := Run(Run(g, waiting), after); t < |end.tickets| && end.tickets[t].entry == entry ==> !InCriticalSection(end, t)
  {
    var middle := Run(g, waiting);
    RunKeepsInv(g, waiting);
    RunKeepsInv(middle, after);
    hide Run;
    if entry in middle.moves { HeldAdmitsNoMove(g, waiting, entry); }
    if entry in Run(middle, after).moves { HeldAdmitsNoMove(middle, after, entry); }
  }

  /** While an update is scheduled no room move joins the active ones. */
  lemma {:induction false} UpdateDrainsMoves(g: Gate, events: seq<Event>, entry: Id)
    requires Inv(g) && entry in Run(g, events).moves
    requires forall i :: 0 <= i < |events| && events[i].Enter? ==> events[i].handoff
    ensures entry in g.moves && g.moves[entry] == Run(g, events).moves[entry]
    decreases |events|
  {
    hide Inv, Step;
    if events != [] {
      RunKeepsInv(g, events[..|events| - 1]);
      NoNewMove(Run(g, events[..|events| - 1]), events[|events| - 1], entry);
      UpdateDrainsMoves(g, events[..|events| - 1], entry);
    }
  }

  /** The event sees the update that is scheduled. */
  predicate Scheduled(e: Event) {
    match e
    case Enter(_, handoff) => handoff
    case StartMove(_, handoff) => handoff
    case Begin(_, _, handoff) => handoff
    case _ => true
  }

  /** Nothing new was admitted: no call, no exclusion, no mark and no active room move. */
  ghost predicate AdmitsNothing(g: Gate, next: Gate) {
    && |next.calls| == |g.calls| && |next.grants| == |g.grants|
    && next.lifecycle <= g.lifecycle && next.turnControl <= g.turnControl
    && forall entry :: entry in next.moves ==> entry in g.moves && g.moves[entry] == next.moves[entry]
  }

  lemma StepAdmitsNothing(g: Gate, e: Event)
    requires Inv(g) && Scheduled(e)
    ensures AdmitsNothing(g, Step(g, e))
  {
    forall entry | entry in Step(g, e).moves
      ensures entry in g.moves && g.moves[entry] == Step(g, e).moves[entry]
    {
      NoNewMove(g, e, entry);
    }
  }

  /** While an update is scheduled no room move is queued, no lifecycle action and no turn control begins,
    * and no room move joins the active ones. */
  lemma {:induction false} UpdateAdmitsNothing(g: Gate, events: seq<Event>)
    requires Inv(g)
    requires forall i :: 0 <= i < |events| ==> Scheduled(events[i])
    ensures AdmitsNothing(g, Run(g, events))
    decreases |events|
  {
    hide Inv, Step;
    if events != [] {
      RunKeepsInv(g, events[..|events| - 1]);
      StepAdmitsNothing(Run(g, events[..|events| - 1]), events[|events| - 1]);
      UpdateAdmitsNothing(g, events[..|events| - 1]);
    }
  }

  /** An active room move can always finish, and then leaves the active ones. */
  lemma ActiveMoveCanFinish(g: Gate, entry: Id)
    requires MovesExact(g) && entry in g.moves
    ensures Enabled(g, FinishMove(g.moves[entry])) && Step(g, FinishMove(g.moves[entry])).moves == g.moves - {entry}
  {
  }

  /** Under a scheduled update draining ends exactly when the room moves that were active at its start
    * have finished. */
  lemma DrainingEndsWithActiveMoves(g: Gate, events: seq<Event>)
    requires Inv(g)
    requires forall i :: 0 <= i < |events| && events[i].Enter? ==> events[i].handoff
    ensures Run(g, events).moves == map[] <==>
            forall entry :: entry in g.moves ==> !InCriticalSection(Run(g, events), g.moves[entry])
  {
    hide Run, LaneInv, CallersExact;
    RunKeepsInv(g, events);
    var end := Run(g, events);
    forall entry | entry in end.moves
      ensures entry in g.moves && g.moves[entry] == end.moves[entry] && InCriticalSection(end, end.moves[entry])
    {
      UpdateDrainsMoves(g, events, entry);
    }
    if end.moves != map[] {
      var entry :| entry in end.moves;
      assert InCriticalSection(end, g.moves[entry]);
    }
  }

  /** No wake is lost: a caller excluded by a lifecycle action can always return. */
  lemma ExcludedCallersMayReturn(events: seq<Event>, c: nat)
    requires var g := Run(Empty, events); c < |g.calls| && !g.calls[c].returned && g.calls[c].entry in g.lifecycle
    ensures Enabled(Run(Empty, events), ReturnMove(c))
  {
    hide Run;
    ReachableInv(events);
    assert Outstanding(Run(Empty, events), Run(Empty, events).calls[c].entry, c);
  }

  /** Waking tells every caller of the entry that has not returned, or of every entry, and nobody else. */
  lemma WakeReachesEveryCaller(g: Gate, only: Option<Id>, c: nat)
    requires Inv(g) && c < |g.calls|
    ensures var next := Step(g, Wake(only)); var call := g.calls[c];
            && |next.calls| == |g.calls|
            && next.calls[c] == call.(woken := call.woken || (!call.returned && only in {None, Some(call.entry)}))
            && (!call.returned && only in {None, Some(call.entry)} ==> Enabled(next, ReturnMove(c)))
  {
    assert Listed(g, g.calls[c].entry, c) <==> Outstanding(g, g.calls[c].entry, c);
  }

  /** The guard inside a room move's operation never fires. */
  lemma NeverEnteredTwice(events: seq<Event>)
    ensures !Run(Empty, events).enteredTwice
  {
    hide Run;
    ReachableInv(events);
  }

  lemma RunExtends(g: Gate, events: seq<Event>, e: Event)
    ensures Run(g, events + [e]) == Step(Run(g, events), e)
  {
    assert (events + [e])[..|events|] == events;
  }

  function QueuedMove(entry: Id): seq<Event> { [Arrive(entry), Enter(0, false), StartMove(entry, false)] }

  function ExcludedMove(entry: Id): seq<Event> {
    QueuedMove(entry) + [Begin(Lifecycle, entry, false)] + [ReturnMove(0)] + [Release(0)]
  }

  lemma QueuedMoveWaits(entry: Id)
    ensures Run(Empty, QueuedMove(entry)) ==
            Gate([Ticket(entry, None, false, Inside(false), false), Ticket(entry, Some(0), true, Waiting, false)],
                 map[entry := 1], {}, {}, map[], map[entry := {0}], [Call(entry, 1, false, false)], [], false)
  {
    assert QueuedMove(entry) == [] + [Arrive(entry)] + [Enter(0, false)] + [StartMove(entry, false)];
    RunExtends(Empty, [], Arrive(entry));
    var arrived := Step(Empty, Arrive(entry));
    assert arrived == Empty.(tickets := [Ticket(entry, None, false, Waiting, false)], ticks := map[entry := 0]);
    RunExtends(Empty, [] + [Arrive(entry)], Enter(0, false));
    assert Enabled(arrived, Enter(0, false));
    var entered := Step(arrived, Enter(0, false));
    assert entered == arrived.(tickets := [Ticket(entry, None, false, Inside(false), false)]);
    RunExtends(Empty, [] + [Arrive(entry)] + [Enter(0, false)], StartMove(entry, false));
    var queued := Step(entered, StartMove(entry, false));
    assert queued.waiters[entry] == {0};
    assert queued.waiters == map[entry := {0}];
    assert queued.ticks == map[entry := 1];
  }

  lemma ExcludedMoveStillWaits(entry: Id)
    ensures Run(Empty, ExcludedMove(entry)) ==
            Gate([Ticket(entry, None, false, Inside(false), false), Ticket(entry, Some(0), true, Waiting, false)],
                 map[entry := 1], {}, {}, map[], map[], [Call(entry, 1, true, true)], [Grant(entry, Lifecycle, true)], false)
  {
    QueuedMoveWaits(entry);
    var queued := Run(Empty, QueuedMove(entry));
    RunExtends(Empty, QueuedMove(entry), Begin(Lifecycle, entry, false));
    var begun := Step(queued, Begin(Lifecycle, entry, false));
    assert begun == Gate(queued.tickets, map[entry := 1], {entry}, {}, map[], map[entry := {0}], [Call(entry, 1, true, false)],
                         [Grant(entry, Lifecycle, false)], false);
    RunExtends(Empty, QueuedMove(entry) + [Begin(Lifecycle, entry, false)], ReturnMove(0));
    var returned := Step(begun, ReturnMove(0));
    assert returned == begun.(waiters := map[], calls := [Call(entry, 1, true, true)]);
    RunExtends(Empty, QueuedMove(entry) + [Begin(Lifecycle, entry, false)] + [ReturnMove(0)], Release(0));
  }

  /** An excluded caller only stops waiting. Its queued work, if it reaches the front after the
    * exclusion ended, still runs although the caller was already told that it did not. */
  lemma ExcludedCallerMayStillRun(entry: Id)
    ensures var g := Run(Empty, ExcludedMove(entry) + [Leave(0)] + [Enter(1, false)]);
            |g.calls| == 1 && g.calls[0].returned && g.calls[0].woken && g.calls[0].ticket == 1
            && InCriticalSection(g, 1)
  {
    ExcludedMoveStillWaits(entry);
    var excluded := Run(Empty, ExcludedMove(entry));
    RunExtends(Empty, ExcludedMove(entry), Leave(0));
    var left := Step(excluded, Leave(0));
    assert Settled(left.tickets, 0) && MayEnter(left.tickets, 1);
    RunExtends(Empty, ExcludedMove(entry) + [Leave(0)], Enter(1, false));
  }

  /** When a room move's turn comes, its operation runs exactly if neither an update nor a lifecycle
    * action stands in its way at that moment, whatever its caller was told before. */
  lemma QueuedMoveRunsUnlessFenced(g: Gate, t: nat, handoff: bool)
    requires Inv(g) && t < |g.tickets| && g.tickets[t].roomMove && MayEnter(g.tickets, t)
    ensures InCriticalSection(Step(g, Enter(t, handoff)), t) <==> !handoff && g.tickets[t].entry !in g.lifecycle
  {
    NoMoveWhileFree(g, t);
  }

  /** Event `n` lets ticket `t` into its critical section: its turn has come and nothing fences it off. */
  ghost predicate LetIn(events: seq<Event>, n: nat, t: nat) {
    && n < |events| && events[n] == Enter(t, false)
    && var g := Run(Empty, events[..n]);
       t < |g.tickets| && g.tickets[t].roomMove && MayEnter(g.tickets, t) && g.tickets[t].entry !in g.lifecycle
  }

  lemma EntersOnlyUnfenced(g: Gate, e: Event, t: nat)
    requires InCriticalSection(Step(g, e), t) && !InCriticalSection(g, t)
    ensures e == Enter(t, false) && t < |g.tickets| && g.tickets[t].roomMove && MayEnter(g.tickets, t)
    ensures g.tickets[t].entry !in g.lifecycle
  {
  }

  lemma {:induction false} InsideWasLetIn(events: seq<Event>, t: nat) returns (n: nat)
    requires InCriticalSection(Run(Empty, events), t)
    ensures LetIn(events, n, t)
    decreases |events|
  {
    hide Step, MayEnter, Settled;
    var earlier := events[..|events| - 1];
    if InCriticalSection(Run(Empty, earlier), t) {
      n := InsideWasLetIn(earlier, t);
      assert earlier[..n] == events[..n];
    } else {
      n := |events| - 1;
      EntersOnlyUnfenced(Run(Empty, earlier), events[n], t);
    }
  }

  /** Over every run the operation of a queued room move runs if and only if, when its turn came, no update
    * was scheduled and no lifecycle action was held. So the work of a caller that was told it is excluded
    * stays undone exactly when a fence is in force at that moment. */
  lemma QueuedMoveRunsExactlyWhenLetIn(events: seq<Event>, t: nat)
    ensures (exists n :: 0 <= n <= |events| && InCriticalSection(Run(Empty, events[..n]), t))
            <==> exists n: nat :: LetIn(events, n, t)
  {
    hide Step, Run;
    if n :| 0 <= n <= |events| && InCriticalSection(Run(Empty, events[..n]), t) {
      var m := InsideWasLetIn(events[..n], t);
      assert events[..n][..m] == events[..m];
      assert LetIn(events, m, t);
    }
    if n: nat :| LetIn(events, n, t) {
      ReachableInv(events[..n]);
      QueuedMoveRunsUnlessFenced(Run(Empty, events[..n]), t, false);
      assert events[..n + 1] == events[..n] + [events[n]];
      RunExtends(Empty, events[..n], events[n]);
      assert InCriticalSection(Run(Empty, events[..n + 1]), t);
    }
  }

  // ----- lifecycle against turn control -----

  function Marked(g: Gate, kind: Kind): set<Id> {
    match kind
    case Lifecycle => g.lifecycle
    case TurnControl => g.turnControl
  }

  ghost predicate Owns(g: Gate, r: nat) { r < |g.grants| && !g.grants[r].released }

  ghost predicate OwnersMarked(g: Gate) {
    forall r: nat {:trigger Owns(g, r)} :: Owns(g, r) ==> g.grants[r].entry in Marked(g, g.grants[r].kind)
  }

  ghost predicate OneOwner(g: Gate) {
    forall r: nat, q: nat {:trigger Owns(g, r), Owns(g, q)} ::
      Owns(g, r) && Owns(g, q) && g.grants[r].entry == g.grants[q].entry ==> r == q
  }

  ghost predicate Backed(g: Gate, kind: Kind, entry: Id) {
    exists r: nat :: Owns(g, r) && g.grants[r].entry == entry && g.grants[r].kind == kind
  }

  ghost predicate MarksOwned(g: Gate) {
    forall kind, entry {:trigger Backed(g, kind, entry)} :: entry in Marked(g, kind) ==> Backed(g, kind, entry)
  }

  /** Every unreleased grant owns its mark alone, and every mark has its owner. */
  ghost predicate GrantsExact(g: Gate) { OwnersMarked(g) && OneOwner(g) && MarksOwned(g) }

  /** A release closure called again after somebody else took the mark. */
  ghost predicate Stale(g: Gate, e: Event) {
    && e.Release? && e.grant < |g.grants| && g.grants[e.grant].released
    && g.grants[e.grant].entry in Marked(g, g.grants[e.grant].kind)
  }

  lemma BeginKeepsOwners(g: Gate, e: Event)
    requires GrantsExact(g) && e.Begin? && Enabled(g, e)
    ensures OwnersMarked(Step(g, e)) && OneOwner(Step(g, e))
  {
    var next := Step(g, e);
    assert next.grants == g.grants + [Grant(e.entry, e.kind, false)];
    forall r: nat | Owns(next, r)
      ensures next.grants[r].entry in Marked(next, next.grants[r].kind)
      ensures r < |g.grants| ==> Owns(g, r) && next.grants[r].entry != e.entry
    {
      if r < |g.grants| {
        assert Owns(g, r) && g.grants[r].entry in Marked(g, g.grants[r].kind);
      }
    }
  }

  lemma BeginKeepsMarks(g: Gate, e: Event)
    requires GrantsExact(g) && e.Begin? && Enabled(g, e)
    ensures MarksOwned(Step(g, e))
  {
    var next := Step(g, e);
    hide OneOwner, OwnersMarked;
    assert next.grants == g.grants + [Grant(e.entry, e.kind, false)];
    assert Owns(next, |g.grants|);
    forall kind, entry | entry in Marked(next, kind)
      ensures Backed(next, kind, entry)
    {
      if entry in Marked(g, kind) {
        assert Backed(g, kind, entry);
        var r: nat :| Owns(g, r) && g.grants[r].entry == entry && g.grants[r].kind == kind;
        assert Owns(next, r);
      }
    }
  }

  lemma ReleaseKeepsOwners(g: Gate, r: nat)
    requires GrantsExact(g) && Enabled(g, Release(r)) && !Stale(g, Release(r))
    ensures OwnersMarked(Step(g, Release(r))) && OneOwner(Step(g, Release(r)))
  {
    var next := Step(g, Release(r));
    forall q: nat | Owns(next, q)
      ensures Owns(g, q) && next.grants[q] == g.grants[q] && next.grants[q].entry in Marked(next, next.grants[q].kind)
    {
      assert Owns(g, q);
      if !g.grants[r].released { assert Owns(g, r); }
    }
  }

  lemma ReleaseKeepsMarks(g: Gate, r: nat)
    requires GrantsExact(g) && Enabled(g, Release(r)) && !Stale(g, Release(r))
    ensures MarksOwned(Step(g, Release(r)))
  {
    var next := Step(g, Release(r));
    hide OneOwner, OwnersMarked;
    forall kind, entry | entry in Marked(next, kind)
      ensures Backed(next, kind, entry)
    {
      assert entry in Marked(g, kind) && Backed(g, kind, entry);
      var q: nat :| Owns(g, q) && g.grants[q].entry == entry && g.grants[q].kind == kind;
      assert Owns(next, q);
    }
  }

  lemma StaleReleaseBreaksGrants(g: Gate, e: Event)
    requires GrantsExact(g) && Stale(g, e)
    ensures !OwnersMarked(Step(g, e))
  {
    var grant := g.grants[e.grant];
    assert Backed(g, grant.kind, grant.entry);
    var owner: nat :| Owns(g, owner) && g.grants[owner].entry == grant.entry && g.grants[owner].kind == grant.kind;
    assert Owns(Step(g, e), owner) && grant.entry !in Marked(Step(g, e), grant.kind);
  }

  lemma SameGrants(g: Gate, next: Gate)
    requires GrantsExact(g) && next.grants == g.grants && next.lifecycle == g.lifecycle && next.turnControl == g.turnControl
    ensures GrantsExact(next)
  {
    assert forall r: nat :: Owns(next, r) <==> Owns(g, r);
    assert forall kind, entry :: Backed(g, kind, entry) ==> Backed(next, kind, entry);
  }

  lemma OtherStepKeepsGrants(g: Gate, e: Event)
    requires GrantsExact(g) && (!Enabled(g, e) || (!e.Begin? && !e.Release?))
    ensures GrantsExact(Step(g, e))
  {
    hide GrantsExact, Enabled;
    SameGrants(g, Step(g, e));
  }

  /** Marks and owners stay exact through every step, except exactly a stale release. */
  lemma GrantsExactUnlessStale(g: Gate, e: Event)
    requires GrantsExact(g)
    ensures GrantsExact(Step(g, e)) <==> !Stale(g, e)
  {
    hide OwnersMarked, OneOwner, MarksOwned, Step;
    if Stale(g, e) {
      StaleReleaseBreaksGrants(g, e);
    } else if e.Begin? && Enabled(g, e) {
      BeginKeepsOwners(g, e);
      BeginKeepsMarks(g, e);
    } else if e.Release? && Enabled(g, e) {
      ReleaseKeepsOwners(g, e.grant);
      ReleaseKeepsMarks(g, e.grant);
    } else {
      OtherStepKeepsGrants(g, e);
    }
  }

  lemma {:induction false} ReleasedByAnEvent(events: seq<Event>, r: nat)
    requires var g := Run(Empty, events); r < |g.grants| && g.grants[r].released
    ensures exists i :: 0 <= i < |events| && events[i] == Release(r)
    decreases |events|
  {
    var earlier, last := events[..|events| - 1], events[|events| - 1];
    var g := Run(Empty, earlier);
    if r < |g.grants| && g.grants[r].released {
      ReleasedByAnEvent(earlier, r);
      var i :| 0 <= i < |earlier| && earlier[i] == Release(r);
      assert events[i] == Release(r);
    } else {
      assert last == Release(r) by { GrantChangesByRelease(g, last, r); }
    }
  }

  lemma GrantChangesByRelease(g: Gate, e: Event, r: nat)
    requires r < |Step(g, e).grants| && Step(g, e).grants[r].released
    requires !(r < |g.grants| && g.grants[r].released)
    ensures e == Release(r)
  {
  }

  /** Each release closure is called at most once. */
  ghost predicate ReleasedOnce(events: seq<Event>) {
    forall i, j :: 0 <= i < j < |events| && events[i].Release? && events[j].Release? ==> events[i].grant != events[j].grant
  }

  lemma {:induction false} OnceMeansExact(events: seq<Event>)
    requires ReleasedOnce(events)
    ensures GrantsExact(Run(Empty, events))
    decreases |events|
  {
    if events != [] {
      var earlier, last := events[..|events| - 1], events[|events| - 1];
      OnceMeansExact(earlier);
      ReachableInv(earlier);
      var g := Run(Empty, earlier);
      forall i | 0 <= i < |earlier| && last.Release?
        ensures earlier[i] != last
      {
        assert earlier[i] == events[i] && last == events[|earlier|];
      }
      if Stale(g, last) { ReleasedByAnEvent(earlier, last.grant); }
      GrantsExactUnlessStale(g, last);
    }
  }

  /** With each release called at most once, an entry has at most one exclusion in force: two
    * lifecycle actions, two turn controls, or one of each, never overlap. */
  lemma OneExclusionAtATime(events: seq<Event>, r: nat, q: nat)
    requires ReleasedOnce(events) && Owns(Run(Empty, events), r) && Owns(Run(Empty, events), q)
    requires Run(Empty, events).grants[r].entry == Run(Empty, events).grants[q].entry
    ensures r == q
  {
    hide Run;
    OnceMeansExact(events);
  }

  /** A closure called twice can put a lifecycle action and a turn control in force together. */
  lemma TwiceReleasedMayOverlap(entry: Id)
    ensures var events := [Begin(Lifecycle, entry, false)] + [Release(0)] + [Begin(Lifecycle, entry, false)] + [Release(0)]
                          + [Begin(TurnControl, entry, false)];
            Run(Empty, events).grants == [Grant(entry, Lifecycle, true), Grant(entry, Lifecycle, false), Grant(entry, TurnControl, false)]
  {
    var begin := Begin(Lifecycle, entry, false);
    var one := Run(Empty, [begin]);
    RunExtends(Empty, [], begin);
    assert [] + [begin] == [begin];
    assert one == Empty.(lifecycle := {entry}, grants := [Grant(entry, Lifecycle, false)]);
    RunExtends(Empty, [begin], Release(0));
    RunExtends(Empty, [begin] + [Release(0)], begin);
    var three := Run(Empty, [begin] + [Release(0)] + [begin]);
    assert three == Empty.(lifecycle := {entry}, grants := [Grant(entry, Lifecycle, true), Grant(entry, Lifecycle, false)]);
    RunExtends(Empty, [begin] + [Release(0)] + [begin], Release(0));
    RunExtends(Empty, [begin] + [Release(0)] + [begin] + [Release(0)], Begin(TurnControl, entry, false));
  }
}
