/**
  * The entry concurrency gate: a first-in first-out lane for each entry, built from a chain of
  * promises, with lifecycle, turn-control and room-move exclusion beside it.
  * Everything the program does between two awaits is one step.
  */
module EntryGate {
  import opened Wrappers

  type Id = string

  /** A caller of `run`: still awaiting its predecessor, inside its operation, or gone. A room move is
    * `moving` while it is registered in its critical section. */
  datatype Phase = Waiting | Inside(moving: bool) | Left(entered: bool)

  /** One call of `run`. `previous` is the ticket whose tail it awaits; a ticket that left without
    * entering removes its own map key later, once its tail settles. */
  datatype Ticket = Ticket(entry: Id, previous: Option<nat>, roomMove: bool, phase: Phase, cleaned: bool)

  /** One public room-move call, released early by a wake or at the end by its ticket. */
  datatype Call = Call(entry: Id, ticket: nat, woken: bool, returned: bool)

  datatype Kind = Lifecycle | TurnControl

  /** One admitted exclusion and its release closure. */
  datatype Grant = Grant(entry: Id, kind: Kind, released: bool)

  datatype Gate = Gate(
    tickets: seq<Ticket>, ticks: map<Id, nat>, lifecycle: set<Id>, turnControl: set<Id>,
    moves: map<Id, nat>, waiters: map<Id, set<nat>>, calls: seq<Call>, grants: seq<Grant>, enteredTwice: bool)

  datatype Event =
    | Arrive(entry: Id)
    | Enter(ticket: nat, handoff: bool)
    | AbandonWait(ticket: nat)
    | FinishMove(ticket: nat)
    | Leave(ticket: nat)
    | CleanUp(ticket: nat)
    | StartMove(entry: Id, handoff: bool)
    | ReturnMove(call: nat)
    | Begin(kind: Kind, entry: Id, handoff: bool)
    | Release(grant: nat)
    | Wake(only: Option<Id>)

  const Empty := Gate([], map[], {}, {}, map[], map[], [], [], false)

  // ----- promises -----

  /** The tail promise of ticket `t` has settled: the ticket is gone and so was its predecessor. */
  predicate Settled(tickets: seq<Ticket>, t: nat) {
    && t < |tickets| && tickets[t].phase.Left?
    && (tickets[t].previous.Some? ==> tickets[t].previous.value < t && Settled(tickets, tickets[t].previous.value))
  }

  /** The promise awaited by ticket `t` has settled. */
  predicate MayEnter(tickets: seq<Ticket>, t: nat)
    requires t < |tickets|
  {
    tickets[t].phase == Waiting && (tickets[t].previous.Some? ==> Settled(tickets, tickets[t].previous.value))
  }

  // ----- steps -----

  function WithPhase(g: Gate, t: nat, phase: Phase): Gate
    requires t < |g.tickets|
  {
    g.(tickets := g.tickets[t := g.tickets[t].(phase := phase)])
  }

  /** A new ticket behind the entry's current tail. */
  function Queued(g: Gate, entry: Id, roomMove: bool): Gate {
    g.(tickets := g.tickets + [Ticket(entry, if entry in g.ticks then Some(g.ticks[entry]) else None, roomMove, Waiting, false)],
       ticks := g.ticks[entry := |g.tickets|])
  }

  /** Forgets the entry's tail if it still is this ticket's. */
  function Forgotten(g: Gate, t: nat): Gate
    requires t < |g.tickets|
  {
    var entry := g.tickets[t].entry;
    if entry in g.ticks && g.ticks[entry] == t then g.(ticks := g.ticks - {entry}) else g
  }

  /** The operation of a room move starts: refused, or registered for draining. */
  function Entered(g: Gate, t: nat, handoff: bool): Gate
    requires t < |g.tickets|
  {
    var entry := g.tickets[t].entry;
    if !g.tickets[t].roomMove || handoff || entry in g.lifecycle then WithPhase(g, t, Inside(false))
    else if entry in g.moves then WithPhase(g, t, Inside(false)).(enteredTwice := true)
    else WithPhase(g, t, Inside(true)).(moves := g.moves[entry := t])
  }

  function Registered(g: Gate, entry: Id): Gate {
    var registered := if entry in g.waiters then g.waiters[entry] else {};
    Queued(g, entry, true).(
      calls := g.calls + [Call(entry, |g.tickets|, false, false)],
      waiters := g.waiters[entry := registered + {|g.calls|}])
  }

  function Returned(g: Gate, c: nat): Gate
    requires c < |g.calls|
  {
    var entry := g.calls[c].entry;
    var rest := (if entry in g.waiters then g.waiters[entry] else {}) - {c};
    g.(calls := g.calls[c := g.calls[c].(returned := true)],
       waiters := if rest == {} then g.waiters - {entry} else g.waiters[entry := rest])
  }

  /** Resolves the exclusion promise of every registered caller, of one entry or of all. */
  function Woken(g: Gate, entry: Option<Id>): (w: Gate)
    ensures |w.calls| == |g.calls|
  {
    g.(calls := seq(|g.calls|, c requires 0 <= c < |g.calls| =>
        if (entry.None? || g.calls[c].entry == entry.value) && Listed(g, g.calls[c].entry, c)
        then g.calls[c].(woken := true) else g.calls[c]))
  }

  predicate Admits(g: Gate, entry: Id, handoff: bool) {
    !handoff && entry !in g.lifecycle && entry !in g.turnControl
  }

  function Granted(g: Gate, kind: Kind, entry: Id): Gate {
    var granted := g.(grants := g.grants + [Grant(entry, kind, false)]);
    match kind
    case Lifecycle => Woken(granted.(lifecycle := g.lifecycle + {entry}), Some(entry))
    case TurnControl => granted.(turnControl := g.turnControl + {entry})
  }

  /** The release closure: it may be called again, and then releases again. */
  function Released(g: Gate, r: nat): Gate
    requires r < |g.grants|
  {
    var grant := g.grants[r];
    var released := g.(grants := g.grants[r := grant.(released := true)]);
    match grant.kind
    case Lifecycle => released.(lifecycle := g.lifecycle - {grant.entry})
    case TurnControl => released.(turnControl := g.turnControl - {grant.entry})
  }

  predicate Enabled(g: Gate, e: Event) {
    match e
    case Arrive(_) => true
    case Enter(t, _) => t < |g.tickets| && MayEnter(g.tickets, t)
    case AbandonWait(t) => t < |g.tickets| && g.tickets[t].phase == Waiting && !g.tickets[t].roomMove
    case FinishMove(t) => t < |g.tickets| && g.tickets[t].phase == Inside(true)
    case Leave(t) => t < |g.tickets| && g.tickets[t].phase == Inside(false)
    case CleanUp(t) => t < |g.tickets| && Settled(g.tickets, t) && g.tickets[t].phase == Left(false) && !g.tickets[t].cleaned
    case StartMove(entry, handoff) => !handoff && entry !in g.lifecycle
    case ReturnMove(c) =>
      && c < |g.calls| && !g.calls[c].returned
      && (g.calls[c].woken || (g.calls[c].ticket < |g.tickets| && g.tickets[g.calls[c].ticket].phase.Left?))
    case Begin(_, entry, handoff) => Admits(g, entry, handoff)
    case Release(r) => r < |g.grants|
    case Wake(_) => true
  }

  function Step(g: Gate, e: Event): Gate {
    if !Enabled(g, e) then g
    else match e
      case Arrive(entry) => Queued(g, entry, false)
      case Enter(t, handoff) => Entered(g, t, handoff)
      case AbandonWait(t) => WithPhase(g, t, Left(false))
      case FinishMove(t) =>
        var entry := g.tickets[t].entry;
        var settled := WithPhase(g, t, Inside(false));
        if entry in g.moves && g.moves[entry] == t then settled.(moves := g.moves - {entry}) else settled
      case Leave(t) => Forgotten(WithPhase(g, t, Left(true)), t)
      case CleanUp(t) => Forgotten(g.(tickets := g.tickets[t := g.tickets[t].(cleaned := true)]), t)
      case StartMove(entry, _) => Registered(g, entry)
      case ReturnMove(c) => Returned(g, c)
      case Begin(kind, entry, _) => Granted(g, kind, entry)
      case Release(r) => Released(g, r)
      case Wake(entry) => Woken(g, entry)
  }

  function Run(g: Gate, events: seq<Event>): Gate
    decreases |events|
  {
    if events == [] then g else Step(Run(g, events[..|events| - 1]), events[|events| - 1])
  }

  // ----- the invariant -----

  predicate Gone(g: Gate, t: nat)
    requires t < |g.tickets|
  {
    g.tickets[t].phase.Left?
  }

  /** Every earlier ticket of the same entry is gone. */
  ghost predicate Alone(g: Gate, t: nat)
    requires t < |g.tickets|
  {
    forall i :: 0 <= i < t && g.tickets[i].entry == g.tickets[t].entry ==> Gone(g, i)
  }

  /** A ticket waits behind the ticket just before it, or nothing earlier is left to wait for. */
  ghost predicate LinkedAt(g: Gate, t: nat)
    requires t < |g.tickets|
  {
    match g.tickets[t].previous
    case Some(p) =>
      && p < t && g.tickets[p].entry == g.tickets[t].entry
      && forall i :: p < i < t ==> g.tickets[i].entry != g.tickets[t].entry
    case None => Alone(g, t)
  }

  /** Whoever entered had nobody left in front. */
  ghost predicate OrderedAt(g: Gate, t: nat)
    requires t < |g.tickets|
  {
    g.tickets[t].phase.Inside? || g.tickets[t].phase == Left(true) ==> Alone(g, t)
  }

  /** A present key is the newest ticket and still has business; an absent key means nobody has. */
  ghost predicate KeyedAt(g: Gate, t: nat)
    requires t < |g.tickets|
  {
    var entry := g.tickets[t].entry;
    && (if entry in g.ticks then t <= g.ticks[entry] else Gone(g, t))
    && (g.tickets[t].cleaned ==> g.tickets[t].phase == Left(false))
  }

  ghost predicate KeysExact(g: Gate) {
    forall entry :: entry in g.ticks ==>
      && g.ticks[entry] < |g.tickets|
      && var newest := g.tickets[g.ticks[entry]];
         newest.entry == entry && newest.phase != Left(true) && (newest.phase == Left(false) ==> !newest.cleaned)
  }

  ghost predicate LaneInv(g: Gate) {
    && (forall t {:trigger LinkedAt(g, t)} :: 0 <= t < |g.tickets| ==> LinkedAt(g, t))
    && (forall t {:trigger OrderedAt(g, t)} :: 0 <= t < |g.tickets| ==> OrderedAt(g, t))
    && (forall t {:trigger KeyedAt(g, t)} :: 0 <= t < |g.tickets| ==> KeyedAt(g, t))
    && KeysExact(g)
  }

  /** The registered room moves are exactly the tickets inside their critical section. */
  ghost predicate MovesExact(g: Gate) {
    && (forall entry :: entry in g.moves ==>
          g.moves[entry] < |g.tickets| && g.tickets[g.moves[entry]].entry == entry
          && g.tickets[g.moves[entry]].phase == Inside(true))
    && (forall t :: 0 <= t < |g.tickets| && g.tickets[t].phase == Inside(true) ==>
          g.tickets[t].entry in g.moves && g.moves[g.tickets[t].entry] == t)
    && !g.enteredTwice
  }

  predicate Listed(g: Gate, entry: Id, c: nat) { entry in g.waiters && c in g.waiters[entry] }

  predicate Outstanding(g: Gate, entry: Id, c: nat) {
    c < |g.calls| && g.calls[c].entry == entry && !g.calls[c].returned
  }

  /** The exclusion waiters are exactly the callers that have not returned, and none of them is left
    * asleep behind a lifecycle action. */
  ghost predicate CallersExact(g: Gate) {
    && (forall entry: Id, c: nat {:trigger Listed(g, entry, c)} :: Listed(g, entry, c) <==> Outstanding(g, entry, c))
    && (forall entry :: entry in g.waiters ==> g.waiters[entry] != {})
    && (forall entry: Id, c: nat {:trigger Outstanding(g, entry, c)} ::
          Outstanding(g, entry, c) && entry in g.lifecycle ==> g.calls[c].woken)
  }

  ghost predicate Inv(g: Gate) {
    LaneInv(g) && MovesExact(g) && CallersExact(g) && g.lifecycle !! g.turnControl
  }
}
