/**
  * The bounded effect coordinator over its durable journal: live retries share one execution, and an
  * external tool runs only behind a durable execution record.
  * A step is what the program does between two awaits, or one journal transaction; a restart loses
  * everything but the journal.
  */
module EffectCoordinator {
  import opened Wrappers

  type Id = string

  // ----- the journal -----

  /** The unique identity of a request in the journal. */
  datatype Row = Row(agent: Id, generation: Id, turn: Id, request: Id)

  datatype EffectState = Prepared | Executing | Uncertain | Completed | Failed

  datatype Effect = Effect(tool: Id, payload: string, mutation: bool, state: EffectState)

  type Journal = map<Row, Effect>

  /** A refused journal transaction writes what it must, and throws. */
  datatype Tx = Found(journal: Journal, created: bool) | Refused(journal: Journal)

  /** Finds or creates the row of a request. A mutating row found executing lost its process and becomes
    * uncertain; a read-only one may run again. */
  function JournalPrepare(j: Journal, row: Row, effect: Effect, authorized: bool): Tx {
    if row in j then
      var found := j[row];
      if found.tool != effect.tool || found.payload != effect.payload || found.mutation != effect.mutation then Refused(j)
      else if found.state in {Completed, Failed, Uncertain} then Found(j, false)
      else if !authorized then Refused(j)
      else if found.state == Executing then Found(j[row := found.(state := if found.mutation then Uncertain else Prepared)], false)
      else Found(j, false)
    else if !authorized then Refused(j)
    else Found(j[row := effect.(state := Prepared)], true)
  }

  /** Execution authority is granted only from `Prepared`; lost turn authority fails the row. */
  function JournalMark(j: Journal, row: Row, authorized: bool): Tx {
    if row !in j || j[row].state != Prepared then Refused(j)
    else if !authorized then Refused(j[row := j[row].(state := Failed)])
    else Found(j[row := j[row].(state := Executing)], false)
  }

  /** A terminal row keeps its outcome. */
  function JournalComplete(j: Journal, row: Row, ok: bool): Tx {
    if row !in j || j[row].state == Prepared then Refused(j)
    else if j[row].state in {Completed, Failed} then Found(j, false)
    else Found(j[row := j[row].(state := if ok then Completed else Failed)], false)
  }

  /** What a starting daemon does to rows its predecessor left executing. */
  function Recovered(j: Journal): Journal {
    map row | row in j :: if j[row].state == Executing then j[row].(state := if j[row].mutation then Uncertain else Prepared) else j[row]
  }

  // ----- the coordinator -----

  /** The coordinates a live request is shared by. */
  datatype Key = Key(agent: Id, work: Id, generation: Id, daemon: nat, turn: Id, request: Id)

  /** `Over(ok)` has a result to hand out and still owns its key until its completion callback ran. */
  datatype Place = Preparing | Marking | Admitted | Running | Checkpointing(ok: bool) | Over(ok: bool) | Gone

  /** One run of `executeOnce`. */
  datatype Flight = Flight(key: Key, row: Row, effect: Effect, place: Place)

  datatype Marker = ByFlight(flight: nat) | ByCaller

  /** `marks` holds who was granted execution of a row, `launches` every start of an external tool and
    * `succeeded` the flights whose tool call returned. */
  datatype Coordinator = Coordinator(
    readOnly: set<Id>, journal: Journal, flights: seq<Flight>, active: map<Key, nat>,
    marks: map<Row, Marker>, launches: seq<nat>, succeeded: set<nat>)

  datatype Event =
    | Execute(key: Key, row: Row, tool: Id, payload: string)
    | PrepareRow(flight: nat, authorized: bool, finalAnswer: bool)
    | MarkRow(flight: nat, authorized: bool)
    | Launch(flight: nat, authorized: bool)
    | ToolEnds(flight: nat, ok: bool)
    | Checkpoint(flight: nat, reached: bool)
    | Finish(flight: nat)
    | CallerPrepares(row: Row, tool: Id, payload: string, authorized: bool)
    | CallerMarks(row: Row, authorized: bool)
    | CallerCompletes(row: Row, ok: bool)
    | Restart

  function New(readOnly: set<Id>): Coordinator { Coordinator(readOnly, map[], [], map[], map[], [], {}) }

  function EffectOf(c: Coordinator, tool: Id, payload: string): Effect {
    Effect(tool, payload, tool !in c.readOnly, Prepared)
  }

  predicate At(c: Coordinator, f: nat, place: Place) { f < |c.flights| && c.flights[f].place == place }

  function Move(c: Coordinator, f: nat, place: Place): Coordinator
    requires f < |c.flights|
  {
    c.(flights := c.flights[f := c.flights[f].(place := place)])
  }

  predicate Enabled(c: Coordinator, e: Event) {
    match e
    case Execute(key, _, _, _) => key !in c.active
    case PrepareRow(f, _, _) => At(c, f, Preparing)
    case MarkRow(f, _) => At(c, f, Marking)
    case Launch(f, _) => At(c, f, Admitted)
    case ToolEnds(f, _) => At(c, f, Running)
    case Checkpoint(f, _) => f < |c.flights| && c.flights[f].place.Checkpointing?
    case Finish(f) => f < |c.flights| && c.flights[f].place.Over?
    case _ => true
  }

  /** The reply to a request: its live flight when it is the same effect, or a refusal. */
  function SharedFlight(c: Coordinator, key: Key, tool: Id, payload: string): Option<nat> {
    if key in c.active && c.active[key] < |c.flights|
       && c.flights[c.active[key]].effect.tool == tool && c.flights[c.active[key]].effect.payload == payload
    then Some(c.active[key]) else None
  }

  function Prepares(c: Coordinator, f: nat, authorized: bool, finalAnswer: bool): Coordinator
    requires f < |c.flights|
  {
    var flight := c.flights[f];
    match JournalPrepare(c.journal, flight.row, flight.effect, authorized)
    case Refused(j) => Move(c.(journal := j), f, Over(false))
    case Found(j, _) =>
      var written := c.(journal := j);
      if flight.row !in j then Move(written, f, Over(false))
      else match j[flight.row].state
        case Completed => Move(written, f, Over(true))
        case Failed => Move(written, f, Over(false))
        case Uncertain => Move(written, f, Over(true))
        case Executing => Move(written, f, Over(false))
        case Prepared => Move(written, f, if finalAnswer then Over(true) else Marking)
  }

  function Marks(c: Coordinator, f: nat, authorized: bool): Coordinator
    requires f < |c.flights|
  {
    match JournalMark(c.journal, c.flights[f].row, authorized)
    case Refused(j) => Move(c.(journal := j), f, Over(false))
    case Found(j, _) => Move(c.(journal := j, marks := c.marks[c.flights[f].row := ByFlight(f)]), f, Admitted)
  }

  /** The result checkpoint. A write that is not reached or is refused changes nothing, and a tool that
    * failed has failed whether or not its error was written. */
  function Checkpoints(c: Coordinator, f: nat, reached: bool): Coordinator
    requires f < |c.flights| && c.flights[f].place.Checkpointing?
  {
    var ok := c.flights[f].place.ok;
    if !reached then Move(c, f, Over(false))
    else match JournalComplete(c.journal, c.flights[f].row, ok)
      case Refused(j) => Move(c.(journal := j), f, Over(false))
      case Found(j, _) => Move(c.(journal := j), f, Over(ok))
  }

  function Step(c: Coordinator, e: Event): Coordinator {
    if !Enabled(c, e) then c
    else match e
      case Execute(key, row, tool, payload) =>
        c.(flights := c.flights + [Flight(key, row, EffectOf(c, tool, payload), Preparing)], active := c.active[key := |c.flights|])
      case PrepareRow(f, authorized, finalAnswer) => Prepares(c, f, authorized, finalAnswer)
      case MarkRow(f, authorized) => Marks(c, f, authorized)
      case Launch(f, authorized) =>
        if authorized then Move(c, f, Running).(launches := c.launches + [f]) else Move(c, f, Over(false))
      case ToolEnds(f, ok) =>
        Move(c, f, Checkpointing(ok)).(succeeded := if ok then c.succeeded + {f} else c.succeeded)
      case Checkpoint(f, reached) => Checkpoints(c, f, reached)
      case Finish(f) => Move(c, f, Gone).(active := c.active - {c.flights[f].key})
      case CallerPrepares(row, tool, payload, authorized) =>
        c.(journal := JournalPrepare(c.journal, row, EffectOf(c, tool, payload), authorized).journal)
      case CallerMarks(row, authorized) =>
        (match JournalMark(c.journal, row, authorized)
         case Refused(j) => c.(journal := j)
         case Found(j, _) => c.(journal := j, marks := c.marks[row := ByCaller]))
      case CallerCompletes(row, ok) => c.(journal := JournalComplete(c.journal, row, ok).journal)
      case Restart =>
        c.(journal := Recovered(c.journal), active := map[],
           flights := seq(|c.flights|, f requires 0 <= f < |c.flights| => c.flights[f].(place := Gone)))
  }

  function Run(c: Coordinator, events: seq<Event>): Coordinator
    decreases |events|
  {
    if events == [] then c else Step(Run(c, events[..|events| - 1]), events[|events| - 1])
  }

  // ----- the invariant -----

  /** A mutating row that was ever granted never goes back to `Prepared`, and an executing or uncertain
    * one was granted. */
  ghost predicate RowAt(c: Coordinator, row: Row) {
    && (row in c.marks ==> row in c.journal)
    && (row in c.journal && c.journal[row].mutation ==>
          && (row in c.marks ==> c.journal[row].state != Prepared)
          && (c.journal[row].state in {Executing, Uncertain} ==> row in c.marks))
  }

  predicate Launched(c: Coordinator, f: nat) { f in c.launches }

  /** A flight owns its key while it lives; past the grant it owns the mark of a mutating row. */
  ghost predicate FlightAt(c: Coordinator, f: nat)
    requires f < |c.flights|
  {
    var flight := c.flights[f];
    && (flight.place != Gone ==> flight.key in c.active && c.active[flight.key] == f)
    && (flight.place == Marking || Granted(c, f) ==>
          && flight.row in c.journal && c.journal[flight.row].mutation == flight.effect.mutation)
    && (Granted(c, f) && flight.effect.mutation ==> flight.row in c.marks && c.marks[flight.row] == ByFlight(f))
    && (flight.place in {Preparing, Marking, Admitted} ==> !Launched(c, f))
    && (f in c.succeeded ==> Launched(c, f) && flight.place !in {Running, Checkpointing(false)})
    && (flight.place.Checkpointing? || flight.place == Running ==> Launched(c, f))
    && (flight.place == Checkpointing(true) ==> f in c.succeeded)
  }

  /** The flight was granted execution: it is about to launch, or has launched. */
  ghost predicate Granted(c: Coordinator, f: nat)
    requires f < |c.flights|
  {
    c.flights[f].place == Admitted || Launched(c, f)
  }

  ghost predicate Inv(c: Coordinator) {
    && (forall row {:trigger RowAt(c, row)} :: RowAt(c, row))
    && (forall f {:trigger FlightAt(c, f)} :: 0 <= f < |c.flights| ==> FlightAt(c, f))
    && (forall key :: key in c.active ==> c.active[key] < |c.flights| && c.flights[c.active[key]].key == key
                                          && c.flights[c.active[key]].place != Gone)
    && (forall i :: 0 <= i < |c.launches| ==> c.launches[i] < |c.flights|)
    && (forall i, j :: 0 <= i < j < |c.launches| ==> c.launches[i] != c.launches[j])
    && (forall f :: f in c.succeeded ==> f < |c.flights|)
  }

  // ----- every step -----

  /** How a row may change without a grant: it keeps its identity, and a mutating one that left
    * `Prepared` stays out of it and is not granted again. */
  ghost predicate RowMoves(j: Journal, next: Journal, row: Row) {
    if row !in j then row in next ==> next[row].state == Prepared
    else
      && row in next && next[row] == j[row].(state := next[row].state)
      && (j[row].mutation ==>
            && (j[row].state != Prepared ==> next[row].state != Prepared)
            && (next[row].state in {Executing, Uncertain} ==> j[row].state in {Executing, Uncertain})
            && (next[row].state == Failed ==> j[row].state != Completed))
  }

  ghost predicate JournalMoves(j: Journal, next: Journal) { forall row {:trigger RowMoves(j, next, row)} :: RowMoves(j, next, row) }

  lemma TransactionsMove(c: Coordinator, row: Row, effect: Effect, authorized: bool, ok: bool)
    ensures JournalMoves(c.journal, JournalPrepare(c.journal, row, effect, authorized).journal)
    ensures JournalMoves(c.journal, JournalComplete(c.journal, row, ok).journal)
    ensures JournalMoves(c.journal, Recovered(c.journal))
    ensures JournalMark(c.journal, row, authorized).Refused? ==> JournalMoves(c.journal, JournalMark(c.journal, row, authorized).journal)
  {
  }

  /** The lives of flights other than `f` are untouched. */
  ghost predicate OnlyMoves(c: Coordinator, next: Coordinator, f: nat) {
    && f < |c.flights| == |next.flights|
    && next.flights == c.flights[f := c.flights[f].(place := next.flights[f].place)]
    && next.readOnly == c.readOnly
  }

  lemma RowsKept(c: Coordinator, next: Coordinator)
    requires Inv(c) && JournalMoves(c.journal, next.journal) && next.marks == c.marks
    ensures forall row {:trigger RowAt(next, row)} :: RowAt(next, row)
  {
    forall row
      ensures RowAt(next, row)
    {
      assert RowAt(c, row) && RowMoves(c.journal, next.journal, row);
    }
  }

  /** A flight moves without being granted anything or launching. */
  lemma QuietMoveKeepsInv(c: Coordinator, next: Coordinator, f: nat)
    requires Inv(c) && OnlyMoves(c, next, f) && JournalMoves(c.journal, next.journal)
    requires next == c.(journal := next.journal, flights := next.flights)
    requires c.flights[f].place != Gone && (next.flights[f].place.Over? || next.flights[f].place == Marking)
    requires next.flights[f].place == Marking ==>
               c.flights[f].place == Preparing && next.flights[f].row in next.journal
               && next.journal[next.flights[f].row].mutation == next.flights[f].effect.mutation
    ensures Inv(next)
  {
    RowsKept(c, next);
    forall g | 0 <= g < |next.flights|
      ensures FlightAt(next, g)
    {
      assert FlightAt(c, g) && RowMoves(c.journal, next.journal, c.flights[g].row);
    }
  }

  lemma PreparesKeepsInv(c: Coordinator, f: nat, authorized: bool, finalAnswer: bool)
    requires Inv(c) && At(c, f, Preparing)
    ensures Inv(Prepares(c, f, authorized, finalAnswer))
  {
    TransactionsMove(c, c.flights[f].row, c.flights[f].effect, authorized, true);
    QuietMoveKeepsInv(c, Prepares(c, f, authorized, finalAnswer), f);
  }

  lemma MarksKeepsInv(c: Coordinator, f: nat, authorized: bool)
    requires Inv(c) && At(c, f, Marking)
    ensures Inv(Marks(c, f, authorized))
  {
    var next, row := Marks(c, f, authorized), c.flights[f].row;
    TransactionsMove(c, row, c.flights[f].effect, authorized, true);
    if JournalMark(c.journal, row, authorized).Refused? {
      QuietMoveKeepsInv(c, next, f);
    } else {
      forall other
        ensures RowAt(next, other)
      {
        assert RowAt(c, other);
      }
      forall g | 0 <= g < |next.flights|
        ensures FlightAt(next, g)
      {
        assert FlightAt(c, g) && RowAt(c, row);
      }
    }
  }

  lemma CheckpointsKeepsInv(c: Coordinator, f: nat, reached: bool)
    requires Inv(c) && Enabled(c, Checkpoint(f, reached))
    ensures Inv(Checkpoints(c, f, reached))
  {
    TransactionsMove(c, c.flights[f].row, c.flights[f].effect, true, c.flights[f].place.ok);
    assert JournalMoves(c.journal, c.journal);
    QuietMoveKeepsInv(c, Checkpoints(c, f, reached), f);
  }

  lemma LaunchKeepsInv(c: Coordinator, f: nat)
    requires Inv(c) && At(c, f, Admitted)
    ensures Inv(Step(c, Launch(f, true)))
  {
    var next := Step(c, Launch(f, true));
    assert JournalMoves(c.journal, next.journal);
    RowsKept(c, next);
    assert FlightAt(c, f);
    assert next.launches[|c.launches|] == f;
    forall g | 0 <= g < |next.flights|
      ensures FlightAt(next, g)
    {
      assert FlightAt(c, g);
      assert Launched(next, g) <==> Launched(c, g) || g == f;
    }
  }

  lemma ToolEndsKeepsInv(c: Coordinator, f: nat, ok: bool)
    requires Inv(c) && At(c, f, Running)
    ensures Inv(Step(c, ToolEnds(f, ok)))
  {
    var next := Step(c, ToolEnds(f, ok));
    assert JournalMoves(c.journal, next.journal);
    RowsKept(c, next);
    forall g | 0 <= g < |next.flights|
      ensures FlightAt(next, g)
    {
      assert FlightAt(c, g);
      assert Launched(next, g) <==> Launched(c, g);
    }
  }

  lemma ExecuteKeepsInv(c: Coordinator, e: Event)
    requires Inv(c) && Enabled(c, e) && e.Execute?
    ensures Inv(Step(c, e))
  {
    var next := Step(c, e);
    assert JournalMoves(c.journal, next.journal);
    RowsKept(c, next);
    forall g | 0 <= g < |next.flights|
      ensures FlightAt(next, g)
    {
      if g < |c.flights| { assert FlightAt(c, g); }
      assert Launched(next, g) <==> Launched(c, g);
    }
  }

  lemma FinishKeepsInv(c: Coordinator, f: nat)
    requires Inv(c) && Enabled(c, Finish(f))
    ensures Inv(Step(c, Finish(f)))
  {
    var next := Step(c, Finish(f));
    assert JournalMoves(c.journal, next.journal);
    RowsKept(c, next);
    assert FlightAt(c, f);
    forall g | 0 <= g < |next.flights|
      ensures FlightAt(next, g)
    {
      assert FlightAt(c, g);
      assert Launched(next, g) <==> Launched(c, g);
    }
  }

  lemma RestartKeepsInv(c: Coordinator)
    requires Inv(c)
    ensures Inv(Step(c, Restart))
  {
    var next := Step(c, Restart);
    TransactionsMove(c, Row("", "", "", ""), Effect("", "", false, Prepared), true, true);
    RowsKept(c, next);
    forall g | 0 <= g < |next.flights|
      ensures FlightAt(next, g)
    {
      assert FlightAt(c, g) && RowMoves(c.journal, next.journal, c.flights[g].row);
      assert Launched(next, g) <==> Launched(c, g);
    }
  }

  /** The journal moves on its own: a caller prepares or completes a row, or is refused its grant. */
  lemma JournalStepKeepsInv(c: Coordinator, j: Journal)
    requires Inv(c) && JournalMoves(c.journal, j)
    ensures Inv(c.(journal := j))
  {
    var next := c.(journal := j);
    RowsKept(c, next);
    forall g | 0 <= g < |next.flights|
      ensures FlightAt(next, g)
    {
      assert FlightAt(c, g) && RowMoves(c.journal, j, c.flights[g].row);
      assert Launched(next, g) <==> Launched(c, g);
    }
  }

  lemma CallerMarksKeepsInv(c: Coordinator, row: Row, authorized: bool)
    requires Inv(c)
    ensures Inv(Step(c, CallerMarks(row, authorized)))
  {
    var next := Step(c, CallerMarks(row, authorized));
    TransactionsMove(c, row, Effect("", "", false, Prepared), authorized, true);
    if JournalMark(c.journal, row, authorized).Refused? {
      JournalStepKeepsInv(c, next.journal);
    } else {
      forall other
        ensures RowAt(next, other)
      {
        assert RowAt(c, other);
      }
      forall g | 0 <= g < |next.flights|
        ensures FlightAt(next, g)
      {
        assert FlightAt(c, g) && RowAt(c, row);
        assert Launched(next, g) <==> Launched(c, g);
      }
    }
  }

  lemma StepKeepsInv(c: Coordinator, e: Event)
    requires Inv(c)
    ensures Inv(Step(c, e))
  {
    hide Inv;
    if Enabled(c, e) {
      match e {
        case Execute(_, _, _, _) => ExecuteKeepsInv(c, e);
        case PrepareRow(f, authorized, finalAnswer) => PreparesKeepsInv(c, f, authorized, finalAnswer);
        case MarkRow(f, authorized) => MarksKeepsInv(c, f, authorized);
        case Launch(f, authorized) => if authorized { LaunchKeepsInv(c, f); } else { RefusedLaunchKeepsInv(c, f); }
        case ToolEnds(f, ok) => ToolEndsKeepsInv(c, f, ok);
        case Checkpoint(f, reached) => CheckpointsKeepsInv(c, f, reached);
        case Finish(f) => FinishKeepsInv(c, f);
        case CallerPrepares(row, tool, payload, authorized) =>
          TransactionsMove(c, row, EffectOf(c, tool, payload), authorized, true);
          JournalStepKeepsInv(c, Step(c, e).journal);
        case CallerMarks(row, authorized) => CallerMarksKeepsInv(c, row, authorized);
        case CallerCompletes(row, ok) =>
          TransactionsMove(c, row, Effect("", "", false, Prepared), true, ok);
          JournalStepKeepsInv(c, Step(c, e).journal);
        case Restart => RestartKeepsInv(c);
      }
    }
  }

  lemma RefusedLaunchKeepsInv(c: Coordinator, f: nat)
    requires Inv(c) && At(c, f, Admitted)
    ensures Inv(Step(c, Launch(f, false)))
  {
    assert JournalMoves(c.journal, c.journal);
    QuietMoveKeepsInv(c, Step(c, Launch(f, false)), f);
  }

  lemma {:induction false} RunKeepsInv(c: Coordinator, events: seq<Event>)
    requires Inv(c)
    ensures Inv(Run(c, events))
    decreases |events|
  {
    hide Inv, Step;
    if events != [] {
      RunKeepsInv(c, events[..|events| - 1]);
      StepKeepsInv(Run(c, events[..|events| - 1]), events[|events| - 1]);
    }
  }

  lemma NewInv(readOnly: set<Id>)
    ensures Inv(New(readOnly))
  {
    assert forall row :: RowAt(New(readOnly), row);
  }

  // ----- one execution for each request -----

  /** In every reachable state at most one execution of a request key is alive. */
  lemma {:induction false} OneLiveFlightPerKey(readOnly: set<Id>, events: seq<Event>, f: nat, g: nat)
    requires var c := Run(New(readOnly), events);
             && f < |c.flights| && g < |c.flights| && c.flights[f].key == c.flights[g].key
             && c.flights[f].place != Gone && c.flights[g].place != Gone
    ensures f == g
  {
    NewInv(readOnly);
    RunKeepsInv(New(readOnly), events);
    var c := Run(New(readOnly), events);
    hide Run;
    assert FlightAt(c, f) && FlightAt(c, g);
  }

  /** A live retry of the same effect is answered by the flight that owns the key, and a different
    * effect is refused; the flight keeps its key through its checkpoint, until it finished or the
    * process ended. */
  lemma RetriesShareUntilFinished(c: Coordinator, e: Event, key: Key, tool: Id, payload: string)
    requires Inv(c) && key in c.active
    ensures var f := c.active[key]; var next := Step(c, e);
            && SharedFlight(c, key, tool, payload) ==
               (if c.flights[f].effect.tool == tool && c.flights[f].effect.payload == payload then Some(f) else None)
            && (e != Finish(f) && !e.Restart? ==>
                  key in next.active && next.active[key] == f && f < |next.flights| && next.flights[f].effect == c.flights[f].effect)
            && (e.Execute? && e.key == key ==> next == c)
  {
    PromisingStaysItself(c, e, c.active[key]);
    if e.Finish? && Enabled(c, e) { assert FlightAt(c, e.flight); }
    KeysChangeOnlyBy(c, e);
  }

  lemma KeysChangeOnlyBy(c: Coordinator, e: Event)
    ensures e.Execute? || e.Finish? || e.Restart? || Step(c, e).active == c.active
  {
  }

  // ----- a mutating tool runs at most once -----

  /** A tool is launched only by the flight that holds the durable grant of its row, and the row of a
    * mutating one has left `Prepared` for good. */
  lemma LaunchNeedsDurableGrant(c: Coordinator, f: nat)
    requires Inv(c) && Enabled(c, Launch(f, true))
    ensures var row := c.flights[f].row;
            && row in c.journal && c.journal[row].mutation == c.flights[f].effect.mutation
            && (c.flights[f].effect.mutation ==>
                  c.journal[row].state != Prepared && row in c.marks && c.marks[row] == ByFlight(f))
  {
    assert FlightAt(c, f) && RowAt(c, c.flights[f].row);
  }

  /** Over every run, restarts and concurrent callers included, the external tool of a mutating effect
    * is launched at most once. */
  lemma {:induction false} MutatingToolRunsAtMostOnce(readOnly: set<Id>, events: seq<Event>, i: nat, j: nat)
    requires var c := Run(New(readOnly), events);
             && i < |c.launches| && j < |c.launches|
             && c.launches[i] < |c.flights| && c.launches[j] < |c.flights|
             && c.flights[c.launches[i]].row == c.flights[c.launches[j]].row
             && c.flights[c.launches[i]].effect.mutation && c.flights[c.launches[j]].effect.mutation
    ensures i == j
  {
    NewInv(readOnly);
    RunKeepsInv(New(readOnly), events);
    var c := Run(New(readOnly), events);
    hide Run;
    assert FlightAt(c, c.launches[i]) && FlightAt(c, c.launches[j]);
    assert Launched(c, c.launches[i]) && Launched(c, c.launches[j]);
  }

  // ----- a success is never journalled as an error -----

  /** The flight may still succeed, or has. */
  predicate Promising(c: Coordinator, f: nat) {
    f < |c.flights| && (c.flights[f].place in {Admitted, Running} || f in c.succeeded)
  }

  ghost predicate RowHonest(c: Coordinator, row: Row) {
    forall f: nat {:trigger Promising(c, f)} ::
      Promising(c, f) && c.flights[f].row == row && c.flights[f].effect.mutation && row in c.journal ==> c.journal[row].state != Failed
  }

  /** No transaction fails a row that left `Prepared`, except a completion with an error. */
  lemma OnlyCompletionFails(j: Journal, row: Row, other: Row, effect: Effect, authorized: bool, ok: bool)
    requires row in j && j[row].mutation && j[row].state !in {Prepared, Failed}
    ensures var next := JournalPrepare(j, other, effect, authorized).journal; row in next && next[row].state != Failed
    ensures var next := JournalMark(j, other, authorized).journal; row in next && next[row].state != Failed
    ensures var next := Recovered(j); row in next && next[row].state != Failed
    ensures other != row || ok ==> var next := JournalComplete(j, other, ok).journal; row in next && next[row].state != Failed
  {
  }

  predicate RowFine(j: Journal, row: Row) { row in j && j[row].state != Failed }

  /** Only the failed checkpoint of its own flight, or a caller's own report, fails a granted row. */
  lemma CheckpointFailsOnlyOwnRow(c: Coordinator, e: Event, f: nat)
    requires Inv(c) && Enabled(c, e) && e.Checkpoint? && f < |c.flights| && Granted(c, f) && c.flights[f].effect.mutation
    requires RowFine(c.journal, c.flights[f].row) && c.flights[f].place != Checkpointing(false)
    ensures RowFine(Step(c, e).journal, c.flights[f].row)
  {
    var row, g := c.flights[f].row, e.flight;
    assert FlightAt(c, f) && RowAt(c, row) && FlightAt(c, g);
    OnlyCompletionFails(c.journal, row, c.flights[g].row, c.flights[g].effect, true, c.flights[g].place.ok);
  }

  /** The journal transaction of a step, for a row that is there and not failed. */
  lemma StepRunsOneTransaction(c: Coordinator, e: Event, row: Row)
    requires Enabled(c, e) && !e.Checkpoint? && RowFine(c.journal, row)
    requires forall other, effect, authorized :: RowFine(JournalPrepare(c.journal, other, effect, authorized).journal, row)
    requires forall other, authorized :: RowFine(JournalMark(c.journal, other, authorized).journal, row)
    requires RowFine(Recovered(c.journal), row)
    requires e.CallerCompletes? ==> RowFine(JournalComplete(c.journal, e.row, e.ok).journal, row)
    ensures RowFine(Step(c, e).journal, row)
  {
    hide JournalPrepare, JournalMark, JournalComplete, Recovered, RowFine;
  }

  lemma GrantedRowFailsOnlyByReport(c: Coordinator, e: Event, f: nat)
    requires Inv(c) && f < |c.flights| && Granted(c, f) && c.flights[f].effect.mutation
    requires RowFine(c.journal, c.flights[f].row) && c.flights[f].place != Checkpointing(false)
    requires e != CallerCompletes(c.flights[f].row, false)
    ensures RowFine(Step(c, e).journal, c.flights[f].row)
  {
    var j, row := c.journal, c.flights[f].row;
    assert FlightAt(c, f) && RowAt(c, row);
    hide Inv, FlightAt, RowAt, JournalPrepare, JournalMark, JournalComplete, Recovered;
    if Enabled(c, e) {
      if e.Checkpoint? {
        CheckpointFailsOnlyOwnRow(c, e, f);
      } else {
        hide Step;
        forall other, effect, authorized
          ensures RowFine(JournalPrepare(j, other, effect, authorized).journal, row)
          ensures RowFine(JournalMark(j, other, authorized).journal, row)
        {
          OnlyCompletionFails(j, row, other, effect, authorized, true);
        }
        OnlyCompletionFails(j, row, if e.CallerCompletes? then e.row else row, c.flights[f].effect, true,
                            if e.CallerCompletes? then e.ok else true);
        StepRunsOneTransaction(c, e, row);
      }
    }
  }

  /** A granted row that is not failed becomes so exactly by a caller's own error report, made before the
    * row was completed. */
  lemma GrantedRowFailsExactlyByReport(c: Coordinator, e: Event, f: nat)
    requires Inv(c) && f < |c.flights| && Granted(c, f) && c.flights[f].effect.mutation
    requires RowFine(c.journal, c.flights[f].row) && c.flights[f].place != Checkpointing(false)
    ensures var row := c.flights[f].row;
            !RowFine(Step(c, e).journal, row) <==> e == CallerCompletes(row, false) && c.journal[row].state != Completed
  {
    assert FlightAt(c, f) && RowAt(c, c.flights[f].row);
    if e != CallerCompletes(c.flights[f].row, false) { GrantedRowFailsOnlyByReport(c, e, f); }
  }

  /** A flight becomes promising only by its grant. */
  lemma PromiseBeginsWithGrant(c: Coordinator, e: Event, f: nat)
    requires Inv(c) && Promising(Step(c, e), f) && !Promising(c, f)
    ensures e.MarkRow? && e.flight == f && RowFine(Step(c, e).journal, Step(c, e).flights[f].row)
  {
    hide JournalPrepare, JournalComplete, Recovered, FlightAt, RowAt;
  }

  lemma PromisingStaysItself(c: Coordinator, e: Event, f: nat)
    requires f < |c.flights|
    ensures f < |Step(c, e).flights| && Step(c, e).flights[f] == c.flights[f].(place := Step(c, e).flights[f].place)
  {
    hide JournalPrepare, JournalMark, JournalComplete, Recovered;
  }

  /** A caller reports an error for a row that has no outcome yet. */
  predicate FailsOpenRow(c: Coordinator, e: Event, row: Row) {
    e == CallerCompletes(row, false) && row in c.journal && c.journal[row].state in {Executing, Uncertain}
  }

  lemma StepKeepsHonest(c: Coordinator, e: Event, row: Row)
    requires Inv(c) && RowHonest(c, row) && !FailsOpenRow(c, e, row)
    ensures RowHonest(Step(c, e), row)
  {
    var next := Step(c, e);
    forall f: nat | Promising(next, f) && next.flights[f].row == row && next.flights[f].effect.mutation && row in next.journal
      ensures next.journal[row].state != Failed
    {
      hide Step;
      if Promising(c, f) {
        PromisingStaysItself(c, e, f);
        assert FlightAt(c, f) && RowAt(c, row);
        GrantedRowFailsExactlyByReport(c, e, f);
      } else {
        PromiseBeginsWithGrant(c, e, f);
      }
    }
  }

  /** Event `n` is an error report for the row while it has no outcome yet. */
  ghost predicate ReportedAt(readOnly: set<Id>, events: seq<Event>, row: Row, n: nat) {
    n < |events| && FailsOpenRow(Run(New(readOnly), events[..n]), events[n], row)
  }

  /** Over every run in which no caller reports an error for the row while it has no outcome yet, the row
    * of a mutating effect whose tool call succeeded is never `Failed`, however its checkpoint went. */
  lemma {:induction false} SuccessIsNeverAnError(readOnly: set<Id>, events: seq<Event>, row: Row)
    requires forall n: nat :: !ReportedAt(readOnly, events, row, n)
    ensures RowHonest(Run(New(readOnly), events), row)
    decreases |events|
  {
    hide Inv, Step, FailsOpenRow;
    if events != [] {
      var earlier := events[..|events| - 1];
      forall n: nat
        ensures !ReportedAt(readOnly, earlier, row, n)
      {
        assert n < |earlier| ==> earlier[..n] == events[..n];
        assert !ReportedAt(readOnly, events, row, n);
      }
      SuccessIsNeverAnError(readOnly, earlier, row);
      NewInv(readOnly);
      RunKeepsInv(New(readOnly), earlier);
      assert !ReportedAt(readOnly, events, row, |earlier|);
      StepKeepsHonest(Run(New(readOnly), earlier), events[|events| - 1], row);
    }
  }

  /** No transaction changes a failed row. */
  lemma FailureStays(j: Journal, row: Row, other: Row, effect: Effect, authorized: bool, ok: bool)
    requires row in j && j[row].state == Failed
    ensures var next := JournalPrepare(j, other, effect, authorized).journal; row in next && next[row].state == Failed
    ensures var next := JournalMark(j, other, authorized).journal; row in next && next[row].state == Failed
    ensures var next := JournalComplete(j, other, ok).journal; row in next && next[row].state == Failed
    ensures var next := Recovered(j); row in next && next[row].state == Failed
  {
  }

  predicate RowFailed(j: Journal, row: Row) { row in j && j[row].state == Failed }

  lemma TransactionsKeepFailure(j: Journal, row: Row)
    requires RowFailed(j, row)
    ensures forall other, effect, authorized :: RowFailed(JournalPrepare(j, other, effect, authorized).journal, row)
    ensures forall other, authorized :: RowFailed(JournalMark(j, other, authorized).journal, row)
    ensures forall other, ok :: RowFailed(JournalComplete(j, other, ok).journal, row)
    ensures RowFailed(Recovered(j), row)
  {
    forall other, effect, authorized, ok
      ensures RowFailed(JournalPrepare(j, other, effect, authorized).journal, row)
      ensures RowFailed(JournalMark(j, other, authorized).journal, row)
      ensures RowFailed(JournalComplete(j, other, ok).journal, row)
      ensures RowFailed(Recovered(j), row)
    {
      FailureStays(j, row, other, effect, authorized, ok);
    }
    FailureStays(j, row, row, Effect("", "", false, Prepared), true, true);
  }

  lemma FailedRowStays(c: Coordinator, e: Event, row: Row)
    requires RowFailed(c.journal, row)
    ensures RowFailed(Step(c, e).journal, row)
  {
    hide JournalPrepare, JournalMark, JournalComplete, Recovered, RowFailed;
    TransactionsKeepFailure(c.journal, row);
  }

  lemma {:induction false} ReportedRowStaysFailed(readOnly: set<Id>, events: seq<Event>, row: Row, n: nat)
    requires ReportedAt(readOnly, events, row, n)
    ensures RowFailed(Run(New(readOnly), events).journal, row)
    decreases |events|
  {
    var earlier, last := events[..|events| - 1], events[|events| - 1];
    var c := Run(New(readOnly), earlier);
    if n < |earlier| {
      assert earlier[..n] == events[..n];
      ReportedRowStaysFailed(readOnly, earlier, row, n);
      FailedRowStays(c, last, row);
    } else {
      assert earlier == events[..n];
    }
  }

  /** A mutating effect whose tool call succeeded is journalled as failed if and only if a caller reported
    * an error for its row while it had no outcome yet. */
  lemma {:induction false} SucceededRowFailsExactlyByReport(readOnly: set<Id>, events: seq<Event>, f: nat)
    requires var c := Run(New(readOnly), events); f in c.succeeded && f < |c.flights| && c.flights[f].effect.mutation
    ensures var c := Run(New(readOnly), events); var row := c.flights[f].row;
            RowFailed(c.journal, row) <==> exists n: nat :: ReportedAt(readOnly, events, row, n)
  {
    var c := Run(New(readOnly), events);
    var row := c.flights[f].row;
    hide Run, Step, ReportedAt;
    if n: nat :| ReportedAt(readOnly, events, row, n) {
      ReportedRowStaysFailed(readOnly, events, row, n);
    } else {
      SuccessIsNeverAnError(readOnly, events, row);
      assert Promising(c, f);
    }
  }

  // ----- a checkpointed success is completed for good -----

  predicate RowOpen(j: Journal, row: Row) { row in j && j[row].state in {Executing, Uncertain} }

  predicate RowCompleted(j: Journal, row: Row, effect: Effect) {
    row in j && j[row] == effect.(state := Completed)
  }

  /** A reached checkpoint writes what the tool did into an open row and nothing else, and answers it; an
    * unreached one writes nothing and answers an error. */
  lemma CheckpointRecordsOutcome(c: Coordinator, f: nat, reached: bool)
    requires Inv(c) && f < |c.flights| && c.flights[f].place.Checkpointing? && RowOpen(c.journal, c.flights[f].row)
    ensures var next, row, ok := Step(c, Checkpoint(f, reached)), c.flights[f].row, c.flights[f].place.ok;
            && |next.flights| == |c.flights|
            && next.flights[f] == c.flights[f].(place := Over(reached && ok))
            && (forall g :: 0 <= g < |c.flights| && g != f ==> next.flights[g] == c.flights[g])
            && (forall other :: other in c.journal && other != row ==> other in next.journal && next.journal[other] == c.journal[other])
            && next.journal.Keys == c.journal.Keys && next.launches == c.launches
            && (if !reached then next.journal == c.journal
                else if ok then RowCompleted(next.journal, row, c.journal[row])
                else next.journal[row] == c.journal[row].(state := Failed))
  {
  }

  /** No transaction touches a completed row. */
  lemma CompletionStays(j: Journal, row: Row, done: Effect)
    requires RowCompleted(j, row, done)
    ensures forall other, effect, authorized :: RowCompleted(JournalPrepare(j, other, effect, authorized).journal, row, done)
    ensures forall other, authorized :: RowCompleted(JournalMark(j, other, authorized).journal, row, done)
    ensures forall other, ok :: RowCompleted(JournalComplete(j, other, ok).journal, row, done)
    ensures RowCompleted(Recovered(j), row, done)
  {
  }

  lemma CompletedRowStays(c: Coordinator, e: Event, row: Row, done: Effect)
    requires RowCompleted(c.journal, row, done)
    ensures RowCompleted(Step(c, e).journal, row, done)
  {
    CompletionStays(c.journal, row, done);
    hide JournalPrepare, JournalMark, JournalComplete, Recovered, RowCompleted;
  }

  /** A flight at such a place prepares or is over. */
  predicate Harmless(place: Place) { place in {Preparing, Gone} || place.Over? }

  /** A flight of the row that began at `from` or later has run nothing, and is not about to. */
  ghost predicate NothingRuns(c: Coordinator, row: Row, from: nat) {
    forall f :: from <= f < |c.flights| && c.flights[f].row == row ==>
      !Launched(c, f) && Harmless(c.flights[f].place)
  }

  lemma LaunchedStays(c: Coordinator, e: Event, f: nat)
    ensures Launched(c, f) ==> Launched(Step(c, e), f)
    ensures Launched(Step(c, e), f) && !Launched(c, f) ==> e == Launch(f, true) && At(c, f, Admitted)
  {
    hide JournalPrepare, JournalMark, JournalComplete, Recovered;
  }

  /** On a completed row a harmless flight stays harmless. */
  lemma PreparingStaysHarmless(c: Coordinator, e: Event, f: nat, row: Row, done: Effect)
    requires RowCompleted(c.journal, row, done) && f < |c.flights| && c.flights[f].row == row
    requires e.PrepareRow? && Harmless(c.flights[f].place)
    ensures f < |Step(c, e).flights| && Harmless(Step(c, e).flights[f].place)
  {
    hide JournalMark, JournalComplete, Recovered, EffectOf;
    if e.flight != f { hide JournalPrepare; }
  }

  lemma FlightMoves(c: Coordinator, e: Event, f: nat, row: Row, done: Effect)
    requires RowCompleted(c.journal, row, done) && f < |c.flights| && c.flights[f].row == row
    requires Harmless(c.flights[f].place)
    ensures f < |Step(c, e).flights| && Harmless(Step(c, e).flights[f].place)
  {
    if e.PrepareRow? {
      PreparingStaysHarmless(c, e, f, row, done);
    } else {
      hide JournalPrepare, JournalMark, JournalComplete, Recovered, EffectOf, Prepares;
    }
  }

  lemma StepRunsNothing(c: Coordinator, e: Event, row: Row, done: Effect, from: nat)
    requires Inv(c) && RowCompleted(c.journal, row, done) && NothingRuns(c, row, from) && from <= |c.flights|
    ensures NothingRuns(Step(c, e), row, from) && from <= |Step(c, e).flights|
  {
    var next := Step(c, e);
    forall f | from <= f < |next.flights| && next.flights[f].row == row
      ensures !Launched(next, f) && Harmless(next.flights[f].place)
    {
      if f < |c.flights| {
        PromisingStaysItself(c, e, f);
        FlightMoves(c, e, f, row, done);
        LaunchedStays(c, e, f);
      } else {
        NewFlightIsIdle(c, e, f);
      }
    }
    if from < |c.flights| { PromisingStaysItself(c, e, from); }
    if 0 < |c.flights| { PromisingStaysItself(c, e, |c.flights| - 1); }
  }

  lemma NewFlightIsIdle(c: Coordinator, e: Event, f: nat)
    requires Inv(c) && |c.flights| <= f < |Step(c, e).flights|
    ensures !Launched(Step(c, e), f) && Step(c, e).flights[f].place == Preparing
  {
    LaunchedStays(c, e, f);
    hide JournalPrepare, JournalMark, JournalComplete, Recovered;
  }

  /** Over every run after a success was checkpointed into an open row: the row stays completed, restarts
    * and reports included, and no request made for it later starts a tool. */
  lemma {:induction false} CheckpointedSuccessIsFinal(c: Coordinator, f: nat, events: seq<Event>)
    requires Inv(c) && At(c, f, Checkpointing(true)) && RowOpen(c.journal, c.flights[f].row)
    ensures var row := c.flights[f].row; var end := Run(Step(c, Checkpoint(f, true)), events);
            && Inv(end) && RowCompleted(end.journal, row, c.journal[row])
            && |c.flights| <= |end.flights| && NothingRuns(end, row, |c.flights|)
    decreases |events|
  {
    var row := c.flights[f].row;
    var first := Step(c, Checkpoint(f, true));
    CheckpointRecordsOutcome(c, f, true);
    StepKeepsInv(c, Checkpoint(f, true));
    if events != [] {
      var before := Run(first, events[..|events| - 1]);
      CheckpointedSuccessIsFinal(c, f, events[..|events| - 1]);
      hide Step, Inv, RowCompleted, NothingRuns;
      StepKeepsInv(before, events[|events| - 1]);
      CompletedRowStays(before, events[|events| - 1], row, c.journal[row]);
      StepRunsNothing(before, events[|events| - 1], row, c.journal[row], |c.flights|);
    }
  }

  /** How a request goes on from the row it finds: settled rows answer it, an interrupted mutation becomes
    * uncertain and answers it too, an interrupted read may run again. */
  function ReplyOf(found: EffectState, mutation: bool, finalAnswer: bool): Place {
    match found
    case Completed => Over(true)
    case Failed => Over(false)
    case Uncertain => Over(true)
    case Executing => if mutation || finalAnswer then Over(true) else Marking
    case Prepared => if finalAnswer then Over(true) else Marking
  }

  /** The row of an effect decides how a request for it goes on, and only a row left executing changes. */
  lemma RowDecidesRequest(c: Coordinator, f: nat, finalAnswer: bool)
    requires At(c, f, Preparing) && c.flights[f].row in c.journal
    requires c.journal[c.flights[f].row] == c.flights[f].effect.(state := c.journal[c.flights[f].row].state)
    ensures var next := Step(c, PrepareRow(f, true, finalAnswer)); var row, found := c.flights[f].row, c.journal[c.flights[f].row];
            && At(next, f, ReplyOf(found.state, found.mutation, finalAnswer)) && next.launches == c.launches && next.marks == c.marks
            && next.journal == (if found.state != Executing then c.journal
                                else c.journal[row := found.(state := if found.mutation then Uncertain else Prepared)])
  {
  }

  /** A restart leaves no request alive and no row executing: an interrupted mutation is uncertain, an
    * interrupted read may run again, and every other row is as it was. */
  lemma RestartRecovers(c: Coordinator, row: Row)
    requires row in c.journal
    ensures var next := Step(c, Restart);
            && next.active == map[] && next.journal.Keys == c.journal.Keys && next.launches == c.launches
            && (forall f :: 0 <= f < |next.flights| ==> next.flights[f].place == Gone)
            && next.journal[row] == (match c.journal[row].state
                                     case Executing => c.journal[row].(state := if c.journal[row].mutation then Uncertain else Prepared)
                                     case _ => c.journal[row])
  {
  }

  /** A request for the completed effect is answered from its row, without a grant or a launch; a request
    * that reuses its coordinates for another effect is refused. */
  lemma CompletedRowAnswers(c: Coordinator, f: nat, authorized: bool, finalAnswer: bool, done: Effect)
    requires At(c, f, Preparing) && RowCompleted(c.journal, c.flights[f].row, done)
    ensures var next := Step(c, PrepareRow(f, authorized, finalAnswer)); var asked := c.flights[f].effect;
            && next.journal == c.journal && next.launches == c.launches && next.marks == c.marks
            && At(next, f, Over(asked.tool == done.tool && asked.payload == done.payload && asked.mutation == done.mutation))
  {
  }

  lemma RunExtends(c: Coordinator, events: seq<Event>, e: Event)
    ensures Run(c, events + [e]) == Step(Run(c, events), e)
  {
    assert (events + [e])[..|events|] == events;
  }

  function Launching(key: Key, row: Row): seq<Event> {
    [Execute(key, row, "send", "x")] + [PrepareRow(0, true, false)] + [MarkRow(0, true)] + [Launch(0, true)]
  }

  lemma LaunchedFlight(key: Key, row: Row)
    ensures var effect := Effect("send", "x", true, Executing);
            Run(New({}), Launching(key, row)) ==
            Coordinator({}, map[row := effect], [Flight(key, row, effect.(state := Prepared), Running)], map[key := 0],
                        map[row := ByFlight(0)], [0], {})
  {
    var effect := Effect("send", "x", true, Prepared);
    var start := Execute(key, row, "send", "x");
    RunExtends(New({}), [], start);
    assert [] + [start] == [start];
    var one := Step(New({}), start);
    assert one == New({}).(flights := [Flight(key, row, effect, Preparing)], active := map[key := 0]);
    RunExtends(New({}), [start], PrepareRow(0, true, false));
    var two := Step(one, PrepareRow(0, true, false));
    assert two == one.(journal := map[row := effect], flights := [Flight(key, row, effect, Marking)]);
    RunExtends(New({}), [start] + [PrepareRow(0, true, false)], MarkRow(0, true));
    var three := Step(two, MarkRow(0, true));
    assert three == two.(journal := map[row := effect.(state := Executing)], flights := [Flight(key, row, effect, Admitted)],
                         marks := map[row := ByFlight(0)]);
    RunExtends(New({}), [start] + [PrepareRow(0, true, false)] + [MarkRow(0, true)], Launch(0, true));
  }

  /** A direct caller can fail an effect whose tool call just succeeded, ahead of its checkpoint. */
  lemma ReportMayFailSuccess(key: Key, row: Row)
    ensures var c := Run(New({}), Launching(key, row) + [ToolEnds(0, true)] + [CallerCompletes(row, false)]);
            0 in c.succeeded && |c.flights| == 1 && c.flights[0].row == row && RowFailed(c.journal, row)
  {
    LaunchedFlight(key, row);
    var running := Run(New({}), Launching(key, row));
    RunExtends(New({}), Launching(key, row), ToolEnds(0, true));
    var ended := Step(running, ToolEnds(0, true));
    assert ended.journal == running.journal && ended.succeeded == {0};
    RunExtends(New({}), Launching(key, row) + [ToolEnds(0, true)], CallerCompletes(row, false));
  }

  // ----- the coordinator's fields, updated in place -----

  class BoundedEffectCoordinator {
    const readOnly: set<Id>
    var journal: Journal
    var activeRequests: map<Key, nat>
    var flights: seq<Flight>
    ghost var marks: map<Row, Marker>
    ghost var launches: seq<nat>
    ghost var succeeded: set<nat>

    ghost function State(): Coordinator
      reads this
    {
      Coordinator(readOnly, journal, flights, activeRequests, marks, launches, succeeded)
    }

    constructor (readOnlyTools: set<Id>)
      ensures Inv(State()) && State() == New(readOnlyTools)
    {
      readOnly := readOnlyTools;
      journal, activeRequests, flights := map[], map[], [];
      marks, launches, succeeded := map[], [], {};
      new;
      NewInv(readOnly);
    }

    method MoveFlight(f: nat, place: Place)
      requires f < |flights|
      modifies this`flights
      ensures State() == Move(old(State()), f, place)
    {
      flights := flights[f := flights[f].(place := place)];
    }

    /** `execute`: shares the live flight of the same effect, refuses a different one, or starts its own. */
    method ExecuteRequest(key: Key, row: Row, tool: Id, payload: string) returns (flight: Option<nat>)
      requires Inv(State())
      modifies this
      ensures Inv(State()) && State() == Step(old(State()), Execute(key, row, tool, payload))
      ensures flight == if key in old(activeRequests) then SharedFlight(old(State()), key, tool, payload) else Some(|old(flights)|)
    {
      StepKeepsInv(State(), Execute(key, row, tool, payload));
      if key in activeRequests {
        var live := activeRequests[key];
        if flights[live].effect.tool != tool || flights[live].effect.payload != payload { return None; }
        return Some(live);
      }
      flight := Some(|flights|);
      activeRequests := activeRequests[key := |flights|];
      flights := flights + [Flight(key, row, Effect(tool, payload, tool !in readOnly, Prepared), Preparing)];
    }

    /** `prepareOnce` up to its execution grant. */
    method PrepareRowOf(f: nat, authorized: bool, finalAnswer: bool)
      requires Inv(State()) && At(State(), f, Preparing)
      modifies this
      ensures Inv(State()) && State() == Step(old(State()), PrepareRow(f, authorized, finalAnswer))
    {
      StepKeepsInv(State(), PrepareRow(f, authorized, finalAnswer));
      hide Inv, JournalPrepare;
      var tx := JournalPrepare(journal, flights[f].row, flights[f].effect, authorized);
      journal := tx.journal;
      if tx.Refused? || flights[f].row !in journal {
        MoveFlight(f, Over(false));
        return;
      }
      var state := journal[flights[f].row].state;
      if state == Prepared && !finalAnswer {
        MoveFlight(f, Marking);
      } else {
        MoveFlight(f, Over(state in {Completed, Uncertain, Prepared}));
      }
    }

    /** The durable execution record: without it the flight is over. */
    method MarkRowOf(f: nat, authorized: bool)
      requires Inv(State()) && At(State(), f, Marking)
      modifies this
      ensures Inv(State()) && State() == Step(old(State()), MarkRow(f, authorized))
    {
      StepKeepsInv(State(), MarkRow(f, authorized));
      hide Inv;
      var row := flights[f].row;
      if row !in journal || journal[row].state != Prepared {
        MoveFlight(f, Over(false));
      } else if !authorized {
        journal := journal[row := journal[row].(state := Failed)];
        MoveFlight(f, Over(false));
      } else {
        journal := journal[row := journal[row].(state := Executing)];
        marks := marks[row := ByFlight(f)];
        MoveFlight(f, Admitted);
      }
    }

    /** Authority is resolved once more; then the external call begins. */
    method LaunchTool(f: nat, authorized: bool)
      requires Inv(State()) && At(State(), f, Admitted)
      modifies this
      ensures Inv(State()) && State() == Step(old(State()), Launch(f, authorized))
    {
      StepKeepsInv(State(), Launch(f, authorized));
      hide Inv;
      if authorized {
        launches := launches + [f];
        MoveFlight(f, Running);
      } else {
        MoveFlight(f, Over(false));
      }
    }

    method ToolReturned(f: nat, ok: bool)
      requires Inv(State()) && At(State(), f, Running)
      modifies this
      ensures Inv(State()) && State() == Step(old(State()), ToolEnds(f, ok))
    {
      StepKeepsInv(State(), ToolEnds(f, ok));
      hide Inv;
      if ok { succeeded := succeeded + {f}; }
      MoveFlight(f, Checkpointing(ok));
    }

    /** The result checkpoint. A refused write leaves the row as it was. */
    method CheckpointResult(f: nat, reached: bool)
      requires Inv(State()) && f < |flights| && flights[f].place.Checkpointing?
      modifies this
      ensures Inv(State()) && State() == Step(old(State()), Checkpoint(f, reached))
      ensures reached && RowOpen(old(journal), old(flights)[f].row) ==>
                var row, ok := old(flights)[f].row, old(flights)[f].place.ok;
                && journal == old(journal)[row := old(journal)[row].(state := if ok then Completed else Failed)]
                && flights[f].place == Over(ok)
    {
      StepKeepsInv(State(), Checkpoint(f, reached));
      hide Inv;
      var ok, row := flights[f].place.ok, flights[f].row;
      if !reached || row !in journal || journal[row].state == Prepared {
        MoveFlight(f, Over(false));
        return;
      }
      if journal[row].state !in {Completed, Failed} {
        journal := journal[row := journal[row].(state := if ok then Completed else Failed)];
      }
      MoveFlight(f, Over(ok));
    }

    /** The completion callback forgets the key. */
    method FinishFlight(f: nat)
      requires Inv(State()) && f < |flights| && flights[f].place.Over?
      modifies this
      ensures Inv(State()) && State() == Step(old(State()), Finish(f))
    {
      StepKeepsInv(State(), Finish(f));
      hide Inv;
      activeRequests := activeRequests - {flights[f].key};
      MoveFlight(f, Gone);
    }
  }
}
