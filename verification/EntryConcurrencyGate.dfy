/**
  * The gate as the daemon holds it: maps and sets updated in place, one method for the code between
  * two awaits. Each method is proved to take its step, and with it to keep the invariant.
  */
module EntryConcurrencyGate {
  import opened EntryGate
  import opened EntryGateTheorems
  import opened Wrappers

  class EntryConcurrencyGate {
    var entryTicks: map<Id, nat>
    var lifecycleEntries: set<Id>
    var turnControlEntries: set<Id>
    var activeRoomMoves: map<Id, nat>
    var roomMoveExclusionWaiters: map<Id, set<nat>>
    var tickets: seq<Ticket>
    var calls: seq<Call>
    ghost var grants: seq<Grant>

    ghost function State(): Gate
      reads this
    {
      Gate(tickets, entryTicks, lifecycleEntries, turnControlEntries, activeRoomMoves, roomMoveExclusionWaiters, calls, grants, false)
    }

    ghost predicate Valid()
      reads this
    {
      Inv(State())
    }

    constructor ()
      ensures Valid() && State() == Empty
    {
      entryTicks, activeRoomMoves, roomMoveExclusionWaiters := map[], map[], map[];
      lifecycleEntries, turnControlEntries := {}, {};
      tickets, calls, grants := [], [], [];
    }

    // ----- run -----

    /** `run` up to its first await. */
    method Arrive(entry: Id, roomMove: bool) returns (ticket: nat)
      modifies this`tickets, this`entryTicks
      ensures State() == Queued(old(State()), entry, roomMove)
      ensures ticket == |old(tickets)|
    {
      var previous := if entry in entryTicks then Some(entryTicks[entry]) else None;
      ticket := |tickets|;
      tickets := tickets + [Ticket(entry, previous, roomMove, Waiting, false)];
      entryTicks := entryTicks[entry := ticket];
    }

    method Run(entry: Id) returns (ticket: nat)
      requires Valid()
      modifies this
      ensures Valid() && State() == Step(old(State()), EntryGate.Arrive(entry))
      ensures ticket == |old(tickets)| && |tickets| == ticket + 1
    {
      StepKeepsInv(State(), EntryGate.Arrive(entry));
      ticket := Arrive(entry, false);
    }

    /** The awaited predecessor has settled: the operation starts, and a room move's operation first
      * consults the exclusions and registers itself. */
    method Enter(t: nat, handoff: bool) returns (admitted: bool)
      requires Valid() && t < |tickets| && MayEnter(tickets, t)
      modifies this
      ensures Valid() && State() == Step(old(State()), EntryGate.Enter(t, handoff))
      ensures admitted <==> InCriticalSection(State(), t) || !tickets[t].roomMove
    {
      StepKeepsInv(State(), EntryGate.Enter(t, handoff));
      NoMoveWhileFree(State(), t);
      var entry := tickets[t].entry;
      if !tickets[t].roomMove {
        tickets := tickets[t := tickets[t].(phase := Inside(false))];
        return true;
      }
      if handoff || entry in lifecycleEntries {
        tickets := tickets[t := tickets[t].(phase := Inside(false))];
        return false;
      }
      if entry in activeRoomMoves { assert false; }
      tickets := tickets[t := tickets[t].(phase := Inside(true))];
      activeRoomMoves := activeRoomMoves[entry := t];
      return true;
    }

    /** The abort signal wins the race against the predecessor. */
    method AbandonWait(t: nat)
      requires Valid() && t < |tickets| && tickets[t].phase == Waiting && !tickets[t].roomMove
      modifies this
      ensures Valid() && State() == Step(old(State()), EntryGate.AbandonWait(t))
    {
      StepKeepsInv(State(), EntryGate.AbandonWait(t));
      tickets := tickets[t := tickets[t].(phase := Left(false))];
    }

    method FinishRoomMove(t: nat)
      requires Valid() && t < |tickets| && tickets[t].phase == Inside(true)
      modifies this
      ensures Valid() && State() == Step(old(State()), FinishMove(t))
    {
      StepKeepsInv(State(), FinishMove(t));
      var entry := tickets[t].entry;
      tickets := tickets[t := tickets[t].(phase := Inside(false))];
      if entry in activeRoomMoves && activeRoomMoves[entry] == t { activeRoomMoves := activeRoomMoves - {entry}; }
    }

    method ForgetTail(t: nat)
      requires t < |tickets|
      modifies this`entryTicks
      ensures State() == Forgotten(old(State()), t)
    {
      var entry := tickets[t].entry;
      if entry in entryTicks && entryTicks[entry] == t { entryTicks := entryTicks - {entry}; }
    }

    method Leave(t: nat)
      requires Valid() && t < |tickets| && tickets[t].phase == Inside(false)
      modifies this
      ensures Valid() && State() == Step(old(State()), EntryGate.Leave(t))
    {
      StepKeepsInv(State(), EntryGate.Leave(t));
      tickets := tickets[t := tickets[t].(phase := Left(true))];
      ForgetTail(t);
    }

    /** The continuation attached to the tail of a ticket that never entered. */
    method CleanUp(t: nat)
      requires Valid() && t < |tickets| && Settled(tickets, t) && tickets[t].phase == Left(false) && !tickets[t].cleaned
      modifies this
      ensures Valid() && State() == Step(old(State()), EntryGate.CleanUp(t))
    {
      StepKeepsInv(State(), EntryGate.CleanUp(t));
      tickets := tickets[t := tickets[t].(cleaned := true)];
      ForgetTail(t);
    }

    // ----- lifecycle and turn control -----

    method BeginLifecycle(entry: Id, handoff: bool) returns (admitted: bool)
      requires Valid()
      modifies this
      ensures Valid() && State() == Step(old(State()), Begin(Lifecycle, entry, handoff))
      ensures admitted <==> Enabled(old(State()), Begin(Lifecycle, entry, handoff))
    {
      StepKeepsInv(State(), Begin(Lifecycle, entry, handoff));
      if handoff || entry in lifecycleEntries || entry in turnControlEntries { return false; }
      lifecycleEntries := lifecycleEntries + {entry};
      grants := grants + [Grant(entry, Lifecycle, false)];
      ghost var granted := State();
      assert forall e: Id, c: nat :: Listed(granted, e, c) <==> Listed(old(State()), e, c);
      assert forall e: Id, c: nat :: Outstanding(granted, e, c) <==> Outstanding(old(State()), e, c);
      WakeRoomMoveWaiters(Some(entry));
      return true;
    }

    method BeginTurnControl(entry: Id, handoff: bool) returns (admitted: bool)
      requires Valid()
      modifies this
      ensures Valid() && State() == Step(old(State()), Begin(TurnControl, entry, handoff))
      ensures admitted <==> Enabled(old(State()), Begin(TurnControl, entry, handoff))
    {
      StepKeepsInv(State(), Begin(TurnControl, entry, handoff));
      if handoff || entry in lifecycleEntries || entry in turnControlEntries { return false; }
      turnControlEntries := turnControlEntries + {entry};
      grants := grants + [Grant(entry, TurnControl, false)];
      return true;
    }

    /** The release closure of grant `r`, which only remembers its entry. */
    method ReleaseGrant(kind: Kind, entry: Id, ghost r: nat)
      requires Valid() && r < |grants| && grants[r].kind == kind && grants[r].entry == entry
      modifies this
      ensures Valid() && State() == Step(old(State()), Release(r))
    {
      StepKeepsInv(State(), Release(r));
      if kind == Lifecycle {
        lifecycleEntries := lifecycleEntries - {entry};
      } else {
        turnControlEntries := turnControlEntries - {entry};
      }
      grants := grants[r := grants[r].(released := true)];
    }

    // ----- room moves -----

    /** `runRoomMove` up to its await: refused at once, or registered and queued. */
    method RunRoomMove(entry: Id, handoff: bool) returns (call: Option<nat>)
      requires Valid()
      modifies this
      ensures Valid() && State() == Step(old(State()), StartMove(entry, handoff))
      ensures call == if handoff || entry in old(lifecycleEntries) then None else Some(|old(calls)|)
    {
      StepKeepsInv(State(), StartMove(entry, handoff));
      if handoff || entry in lifecycleEntries { return None; }
      var waiters := if entry in roomMoveExclusionWaiters then roomMoveExclusionWaiters[entry] else {};
      roomMoveExclusionWaiters := roomMoveExclusionWaiters[entry := waiters + {|calls|}];
      calls := calls + [Call(entry, |tickets|, false, false)];
      call := Some(|calls| - 1);
      var _ := Arrive(entry, true);
    }

    method ReturnRoomMove(c: nat)
      requires Valid() && Enabled(State(), ReturnMove(c))
      modifies this
      ensures Valid() && State() == Step(old(State()), ReturnMove(c))
    {
      StepKeepsInv(State(), ReturnMove(c));
      var entry := calls[c].entry;
      assert Outstanding(State(), entry, c);
      assert Listed(State(), entry, c);
      var waiters := roomMoveExclusionWaiters[entry] - {c};
      calls := calls[c := calls[c].(returned := true)];
      roomMoveExclusionWaiters :=
        if waiters == {} then roomMoveExclusionWaiters - {entry} else roomMoveExclusionWaiters[entry := waiters];
    }

    /** Calls every waiter of one set. */
    method ResolveAll(waiters: set<nat>)
      requires forall c :: c in waiters ==> c < |calls|
      modifies this`calls
      ensures |calls| == |old(calls)|
      ensures forall c :: 0 <= c < |calls| ==>
                calls[c] == if c in waiters then old(calls)[c].(woken := true) else old(calls)[c]
    {
      var rest := waiters;
      while rest != {}
        invariant rest <= waiters && |calls| == |old(calls)|
        invariant forall c :: 0 <= c < |calls| ==>
                    calls[c] == if c in waiters && c !in rest then old(calls)[c].(woken := true) else old(calls)[c]
        decreases |rest|
      {
        var c :| c in rest;
        calls := calls[c := calls[c].(woken := true)];
        rest := rest - {c};
      }
    }

    method WakeRoomMoveWaiters(only: Option<Id>)
      requires forall entry: Id, c: nat {:trigger Listed(State(), entry, c)} :: Listed(State(), entry, c) ==> Outstanding(State(), entry, c)
      modifies this`calls
      ensures State() == Woken(old(State()), only)
    {
      ghost var before := State();
      var entries := set entry | entry in roomMoveExclusionWaiters && (only.None? || entry == only.value);
      ghost var all := entries;
      while entries != {}
        invariant entries <= all && |calls| == |old(calls)|
        invariant forall c :: 0 <= c < |calls| ==>
                    calls[c] == if Listed(before, before.calls[c].entry, c) && before.calls[c].entry in all - entries
                                then before.calls[c].(woken := true) else before.calls[c]
        modifies this`calls
        decreases |entries|
      {
        var entry :| entry in entries;
        forall c: nat | c in roomMoveExclusionWaiters[entry]
          ensures Outstanding(before, entry, c)
        {
          assert Listed(before, entry, c);
        }
        ResolveAll(roomMoveExclusionWaiters[entry]);
        entries := entries - {entry};
      }
      forall c | 0 <= c < |calls|
        ensures calls[c] == Woken(before, only).calls[c]
      {
        assert Listed(before, before.calls[c].entry, c) ==> before.calls[c].entry in roomMoveExclusionWaiters;
      }
    }
  }
}
