/**
  * The legacy cutover saga: an entry that polls is fenced at one exact native turn before its daemon
  * inbox may start. The manifest entry is the journal; a drive may stop at any await and be restarted,
  * and one drive at a time is alive. Every update of the entry is one guarded step.
  */
module LegacyCutover {
  import opened Wrappers

  type Id = string

  datatype Mode = McpPolling | DaemonInbox

  datatype Phase = Prepared | Retryable | Dispatching | Uncertain

  datatype Identity = Identity(work: Id, generation: Id, continuation: Id)

  datatype Cutover = Cutover(identity: Identity, turn: Option<Id>, phase: Phase)

  datatype Ref = Ref(generation: Id, continuation: Id, connection: Id)

  datatype Entry = Entry(
    mode: Mode, cutover: Option<Cutover>, codex: bool, running: bool, calm: bool, controlled: bool,
    work: Option<Id>, ref: Option<Ref>)

  datatype Handle = Handle(serial: nat, work: Id, continuation: Id, connection: Id)

  datatype Inspection = TerminalTurn | ActiveTurn | UnknownTurn

  datatype ControlResult = NoActive | TerminalControl | InterruptDispatched(target: Option<Id>) | OtherResult

  /** Why a drive believes the old turn is over. */
  datatype Evidence = TerminalRecord | TerminalInspection(turn: Id) | ControlOutcome

  /** Where the live drive stands. `snapshot` is the cutover it read, `marked` that native dispatch was
    * recorded. */
  datatype Drive =
    | Creating(identity: Identity, handle: Handle)
    | Deciding(identity: Identity, handle: Handle, snapshot: Cutover)
    | Controlling(identity: Identity, handle: Handle, snapshot: Cutover, marked: bool)
    | Acknowledged(identity: Identity, handle: Handle, target: Id)
    | Completing(identity: Identity, handle: Handle, evidence: Evidence)

  /** One switch to the daemon inbox: the cutover it ended, with its serial, and the evidence behind it. */
  datatype Switch = Switch(serial: nat, cutover: Cutover, evidence: Evidence)

  /** `serial` counts the cutovers created; `switches` records every switch of the mode. */
  datatype Saga = Saga(
    entry: Entry, live: Option<Handle>, terminals: set<(Id, Id)>, drive: Option<Drive>, serial: nat, switches: seq<Switch>)

  datatype Event =
    | ClearTerminal(saved: Cutover)
    | Start
    | Create
    | Inspect(state: Inspection)
    | Control
    | CheckpointTarget(turn: Id)
    | MarkDispatched
    | Result(result: ControlResult)
    | ControlError(uncertain: bool)
    | Complete
    | Stop
    | Elsewhere(entry: Entry, live: Option<Handle>, terminals: set<(Id, Id)>)

  // ----- guards -----

  /** The guard shared by every update of a driven cutover: the exact runtime of its identity is still
    * current and this handle still owns it. */
  predicate StillOwns(entry: Entry, live: Option<Handle>, identity: Identity, handle: Handle) {
    && entry.mode == McpPolling && entry.cutover.Some? && entry.cutover.value.identity == identity
    && entry.running && entry.calm && entry.ref.Some?
    && entry.ref.value.generation == identity.generation && entry.ref.value.continuation == identity.continuation
    && live == Some(handle) && entry.ref.value.connection == handle.connection
  }

  predicate Owns(s: Saga, identity: Identity, handle: Handle) { StillOwns(s.entry, s.live, identity, handle) }

  /** The drive may begin for the runtime the entry names now. */
  predicate Drivable(s: Saga) {
    && s.live.Some? && s.entry.codex && s.entry.mode == McpPolling && s.entry.running && s.entry.calm
    && s.entry.work.Some? && s.entry.ref.Some?
    && s.live.value.work == s.entry.work.value && s.live.value.continuation == s.entry.ref.value.continuation
    && s.live.value.connection == s.entry.ref.value.connection
  }

  function IdentityOf(s: Saga): Identity
    requires s.entry.work.Some? && s.entry.ref.Some?
  {
    Identity(s.entry.work.value, s.entry.ref.value.generation, s.entry.ref.value.continuation)
  }

  // ----- guarded updates of the entry -----

  function WithCutover(s: Saga, c: Cutover): Saga { s.(entry := s.entry.(cutover := Some(c))) }

  /** A durable terminal record of the saved generation clears its cutover, and switches the mode unless
    * a successor runtime is there. */
  function Cleared(s: Saga, saved: Cutover): Saga {
    if s.entry.cutover.None? || s.entry.cutover.value.identity != saved.identity || s.entry.cutover.value.turn != saved.turn then s
    else
      var same := s.entry.ref.Some? && s.entry.ref.value.generation == saved.identity.generation
                  && s.entry.ref.value.continuation == saved.identity.continuation;
      if same || s.entry.ref.None?
      then s.(entry := s.entry.(mode := DaemonInbox, cutover := None),
              switches := s.switches + [Switch(s.serial, s.entry.cutover.value, TerminalRecord)])
      else s.(entry := s.entry.(cutover := None))
  }

  function Created(s: Saga, identity: Identity, handle: Handle): Saga {
    if !s.entry.codex || s.entry.mode != McpPolling || s.entry.work != Some(identity.work) || s.entry.ref.None?
       || s.entry.ref.value.generation != identity.generation || s.entry.ref.value.continuation != identity.continuation
       || s.live != Some(handle) || s.entry.ref.value.connection != handle.connection
    then s
    else WithCutover(s, Cutover(identity, None, Prepared)).(serial := s.serial + 1)
  }

  /** The exact target turn, written once. */
  function TargetCheckpointed(s: Saga, identity: Identity, handle: Handle, turn: Id): Saga {
    if !Owns(s, identity, handle) || (s.entry.cutover.value.turn.Some? && s.entry.cutover.value.turn != Some(turn)) then s
    else WithCutover(s, s.entry.cutover.value.(turn := Some(turn)))
  }

  predicate MayDispatch(s: Saga, identity: Identity, handle: Handle) {
    Owns(s, identity, handle) && s.entry.cutover.value.turn.Some?
  }

  function DispatchMarked(s: Saga, identity: Identity, handle: Handle): Saga {
    if MayDispatch(s, identity, handle) then WithCutover(s, s.entry.cutover.value.(phase := Dispatching)) else s
  }

  function Completed(s: Saga, identity: Identity, handle: Handle, evidence: Evidence): Saga {
    if !Owns(s, identity, handle) then s
    else s.(entry := s.entry.(mode := DaemonInbox, cutover := None),
            switches := s.switches + [Switch(s.serial, s.entry.cutover.value, evidence)])
  }

  function MarkedRetryable(s: Saga, identity: Identity, handle: Handle): Saga {
    if !Owns(s, identity, handle) || s.entry.cutover.value.phase in {Dispatching, Uncertain} then s
    else WithCutover(s, s.entry.cutover.value.(phase := Retryable))
  }

  function MarkedUncertain(s: Saga, identity: Identity, handle: Handle): Saga {
    if !Owns(s, identity, handle) then s
    else WithCutover(s, s.entry.cutover.value.(phase := Uncertain))
  }

  // ----- the drive -----

  function Halt(s: Saga): Saga { s.(drive := None) }

  /** The cutover the drive found is examined: a recorded dispatch is inspected, never repeated blindly. */
  function Entering(s: Saga, identity: Identity, handle: Handle, found: Option<Cutover>): Saga {
    if found.Some? && found.value.identity == identity then s.(drive := Some(Deciding(identity, handle, found.value))) else Halt(s)
  }

  predicate Dispatched(c: Cutover) { c.phase in {Dispatching, Uncertain} }

  function Inspected(s: Saga, identity: Identity, handle: Handle, turn: Id): Saga {
    s.(drive := Some(Completing(identity, handle, TerminalInspection(turn))))
  }

  function Decide(s: Saga, identity: Identity, handle: Handle, c: Cutover, e: Event): Saga {
    if !Dispatched(c) then
      if e.Control? then s.(drive := Some(Controlling(identity, handle, c, false))) else s
    else if !e.Inspect? then s
    else if c.turn.None? then Halt(MarkedUncertain(s, identity, handle))
    else match e.state
      case TerminalTurn => Inspected(s, identity, handle, c.turn.value)
      case UnknownTurn => Halt(MarkedUncertain(s, identity, handle))
      case ActiveTurn => s.(drive := Some(Controlling(identity, handle, c, true)))
  }

  /** The outcome of the native control call: an acknowledgement alone only names a turn to inspect. */
  function Controlled(s: Saga, identity: Identity, handle: Handle, c: Cutover, result: ControlResult): Saga {
    match result
    case InterruptDispatched(target) =>
      var exact := if c.turn.Some? then c.turn else target;
      if exact.None? then Halt(MarkedUncertain(s, identity, handle))
      else s.(drive := Some(Acknowledged(identity, handle, exact.value)))
    case OtherResult => Halt(s)
    case _ => s.(drive := Some(Completing(identity, handle, ControlOutcome)))
  }

  function Control(s: Saga, identity: Identity, handle: Handle, c: Cutover, marked: bool, e: Event): Saga {
    match e
    case CheckpointTarget(turn) => TargetCheckpointed(s, identity, handle, turn)
    case MarkDispatched =>
      DispatchMarked(s, identity, handle).(
        drive := Some(Controlling(identity, handle, c, marked || MayDispatch(s, identity, handle))))
    case Result(result) => Controlled(s, identity, handle, c, result)
    case ControlError(uncertain) =>
      Halt(if marked || uncertain then MarkedUncertain(s, identity, handle) else MarkedRetryable(s, identity, handle))
    case _ => s
  }

  function DriveStep(s: Saga, drive: Drive, e: Event): Saga {
    match drive
    case Creating(identity, handle) =>
      if !e.Create? then s
      else if s.entry.controlled then Halt(s)
      else
        var next := Created(s, identity, handle);
        Entering(next, identity, handle, next.entry.cutover)
    case Deciding(identity, handle, c) => Decide(s, identity, handle, c, e)
    case Controlling(identity, handle, c, marked) => Control(s, identity, handle, c, marked, e)
    case Acknowledged(identity, handle, target) =>
      if !e.Inspect? then s
      else if e.state == TerminalTurn then Inspected(s, identity, handle, target)
      else Halt(MarkedUncertain(s, identity, handle))
    case Completing(identity, handle, evidence) =>
      if e.Complete? then Halt(Completed(s, identity, handle, evidence)) else s
  }

  function Step(s: Saga, e: Event): Saga {
    match e
    case ClearTerminal(saved) =>
      if (saved.identity.work, saved.identity.generation) in s.terminals then Cleared(s, saved) else s
    case Start =>
      if s.drive.Some? || !Drivable(s) then s
      else
        var identity := IdentityOf(s);
        if s.entry.cutover.None? then s.(drive := Some(Creating(identity, s.live.value)))
        else Entering(s, identity, s.live.value, s.entry.cutover)
    case Stop => Halt(s)
    case Elsewhere(entry, live, terminals) =>
      if entry.cutover == s.entry.cutover && (entry.mode == DaemonInbox ==> s.entry.mode == DaemonInbox) && s.terminals <= terminals
      then s.(entry := entry, live := live, terminals := terminals) else s
    case _ => if s.drive.Some? then DriveStep(s, s.drive.value, e) else s
  }

  function Run(s: Saga, events: seq<Event>): Saga
    decreases |events|
  {
    if events == [] then s else Step(Run(s, events[..|events| - 1]), events[|events| - 1])
  }

  // ----- the invariant -----

  /** A drive never creates over a cutover: none appears while it is about to create its own. */
  ghost predicate Inv(s: Saga) {
    s.drive.Some? && s.drive.value.Creating? ==> s.entry.cutover.None?
  }

  lemma StepKeepsInv(s: Saga, e: Event)
    requires Inv(s)
    ensures Inv(Step(s, e))
  {
  }

  lemma {:induction false} RunKeepsInv(s: Saga, events: seq<Event>)
    requires Inv(s)
    ensures Inv(Run(s, events))
    decreases |events|
  {
    hide Step;
    if events != [] {
      RunKeepsInv(s, events[..|events| - 1]);
      StepKeepsInv(Run(s, events[..|events| - 1]), events[|events| - 1]);
    }
  }

  // ----- write-once turn, forward-only phase -----

  /** The same cutover later: its identity stands, its turn is written at most once, and a recorded
    * dispatch is never forgotten. */
  predicate CutoverLater(c: Cutover, d: Cutover) {
    && c.identity == d.identity
    && (c.turn.Some? ==> d.turn == c.turn)
    && (Dispatched(c) ==> Dispatched(d))
    && (c.phase == Retryable ==> d.phase != Prepared)
  }

  /** Cutovers are created one after another, each only after its predecessor is gone. */
  ghost predicate Later(s: Saga, next: Saga) {
    && s.serial <= next.serial && s.switches <= next.switches && s.terminals <= next.terminals
    && (s.entry.cutover.Some? && next.entry.cutover.Some? && next.serial == s.serial ==>
          CutoverLater(s.entry.cutover.value, next.entry.cutover.value))
    && (s.entry.cutover.None? && next.entry.cutover.Some? ==> s.serial < next.serial)
  }

  lemma StepIsLater(s: Saga, e: Event)
    requires Inv(s)
    ensures Later(s, Step(s, e))
    ensures s.entry.cutover.Some? && Step(s, e).entry.cutover.Some? ==> Step(s, e).serial == s.serial
  {
  }

  /** Over every run, through restarts and repeated drives: while a cutover stays in the journal its turn
    * is write-once and its phase never returns from a recorded dispatch. */
  lemma {:induction false} RunIsLater(s: Saga, events: seq<Event>)
    requires Inv(s)
    ensures Inv(Run(s, events)) && Later(s, Run(s, events))
    decreases |events|
  {
    hide Step;
    if events != [] {
      var before := Run(s, events[..|events| - 1]);
      RunIsLater(s, events[..|events| - 1]);
      StepKeepsInv(before, events[|events| - 1]);
      StepIsLater(before, events[|events| - 1]);
    }
  }

  // ----- what each event writes -----

  /** The entry still runs, through the same connection, what the drive set out to fence. */
  ghost predicate ExactRuntime(s: Saga, identity: Identity, handle: Handle) {
    && s.live == Some(handle) && s.entry.mode == McpPolling
    && s.entry.ref == Some(Ref(identity.generation, identity.continuation, handle.connection))
  }

  predicate Driving(e: Event) { !e.ClearTerminal? && !e.Start? && !e.Stop? && !e.Elsewhere? }

  /** A drive writes to no other runtime than its own, and once it has its cutover only to that one, of an
    * entry that should run and is calm. */
  lemma DriveWritesItsOwn(s: Saga, e: Event)
    requires s.drive.Some? && Driving(e) && Step(s, e).entry != s.entry
    ensures ExactRuntime(s, s.drive.value.identity, s.drive.value.handle)
    ensures s.drive.value.Creating? ==> e == Create && s.entry.codex && s.entry.work == Some(s.drive.value.identity.work)
    ensures !s.drive.value.Creating? ==>
              s.entry.running && s.entry.calm && s.entry.cutover.Some? && s.entry.cutover.value.identity == s.drive.value.identity
  {
  }

  /** The drive holds the cutover of its own exact runtime, in an entry that should run and is calm. */
  ghost predicate Fences(s: Saga, identity: Identity, handle: Handle) {
    && ExactRuntime(s, identity, handle) && s.entry.running && s.entry.calm
    && s.entry.cutover.Some? && s.entry.cutover.value.identity == identity
  }

  /** A drive that reached its end under its own runtime switches the mode and clears the cutover. */
  lemma CompletionSwitches(s: Saga)
    requires s.drive.Some? && s.drive.value.Completing? && Fences(s, s.drive.value.identity, s.drive.value.handle)
    ensures var next := Step(s, Complete);
            && next.entry == s.entry.(mode := DaemonInbox, cutover := None) && next.drive == None
            && next.switches == s.switches + [Switch(s.serial, s.entry.cutover.value, s.drive.value.evidence)]
  {
  }

  /** A new cutover names the runtime the drive found, and no turn yet. */
  lemma CreationPrepares(s: Saga)
    requires s.drive.Some? && s.drive.value.Creating? && ExactRuntime(s, s.drive.value.identity, s.drive.value.handle)
    requires s.entry.codex && s.entry.work == Some(s.drive.value.identity.work) && !s.entry.controlled
    ensures var next := Step(s, Create); var blank := Cutover(s.drive.value.identity, None, Prepared);
            && next.entry == s.entry.(cutover := Some(blank)) && next.serial == s.serial + 1
            && next.drive == Some(Deciding(s.drive.value.identity, s.drive.value.handle, blank))
  {
  }

  /** The control call records the turn it targets, unless another one is on record, and then its dispatch. */
  lemma TargetThenDispatch(s: Saga, turn: Id)
    requires s.drive.Some? && s.drive.value.Controlling? && Fences(s, s.drive.value.identity, s.drive.value.handle)
    requires s.entry.cutover.value.turn in {None, Some(turn)}
    ensures var next := Step(Step(s, CheckpointTarget(turn)), MarkDispatched);
            && next.entry == s.entry.(cutover := Some(Cutover(s.drive.value.identity, Some(turn), Dispatching)))
            && next.drive == Some(s.drive.value.(marked := true))
  {
  }

  /** The drive cannot tell whether its turn is over: dispatch is on record without a turn, the turn cannot
    * be inspected, it is not over although its interrupt was acknowledged, or nothing names it; or control
    * failed after dispatch, or said itself that it does not know. */
  ghost predicate Doubtful(s: Saga, e: Event) {
    s.drive.Some? && match s.drive.value
    case Deciding(_, _, c) => Dispatched(c) && e.Inspect? && (c.turn.None? || e.state == UnknownTurn)
    case Controlling(_, _, c, marked) =>
      || (e == Result(InterruptDispatched(None)) && c.turn.None?)
      || (e.ControlError? && (marked || e.uncertain))
    case Acknowledged(_, _, _) => e.Inspect? && e.state != TerminalTurn
    case _ => false
  }

  /** Doubt ends the drive and is written down; a control call that failed without doubt may be repeated. */
  lemma DoubtIsRecorded(s: Saga, e: Event)
    requires s.drive.Some? && Fences(s, s.drive.value.identity, s.drive.value.handle)
    ensures Doubtful(s, e) ==>
              Step(s, e) == s.(drive := None, entry := s.entry.(cutover := Some(s.entry.cutover.value.(phase := Uncertain))))
    ensures e.ControlError? && s.drive.value.Controlling? && !Doubtful(s, e) && !Dispatched(s.entry.cutover.value) ==>
              Step(s, e) == s.(drive := None, entry := s.entry.(cutover := Some(s.entry.cutover.value.(phase := Retryable))))
  {
  }

  /** The durable end of a generation ends exactly the cutover saved for it. The entry then takes its inbox
    * from the daemon if it still runs that generation or runs nothing, and keeps polling if a successor is
    * there. */
  lemma TerminalRecordEnds(s: Saga, saved: Cutover)
    requires (saved.identity.work, saved.identity.generation) in s.terminals
    ensures var next := Step(s, ClearTerminal(saved));
            if s.entry.cutover.Some? && s.entry.cutover.value.identity == saved.identity && s.entry.cutover.value.turn == saved.turn
            then
              var successor := s.entry.ref.Some? && (s.entry.ref.value.generation, s.entry.ref.value.continuation)
                                                    != (saved.identity.generation, saved.identity.continuation);
              && next.entry == s.entry.(cutover := None, mode := if successor then s.entry.mode else DaemonInbox)
              && next.drive == s.drive
              && next.switches == (if successor then s.switches else s.switches + [Switch(s.serial, s.entry.cutover.value, TerminalRecord)])
            else next == s
  {
  }

  // ----- a recorded dispatch is inspected before it is repeated -----

  /** A drive that decides has read the cutover in the journal, and one that controls knows whether dispatch
    * is on record. */
  ghost predicate WellRead(s: Saga) {
    s.drive.Some? && s.entry.cutover.Some? ==>
      match s.drive.value
      case Creating(_, _) => false
      case Deciding(_, _, c) => s.entry.cutover.value == c
      case Controlling(_, _, _, marked) => Dispatched(s.entry.cutover.value) <==> marked
      case _ => true
  }

  lemma StepKeepsWellRead(s: Saga, e: Event)
    requires WellRead(s)
    ensures WellRead(Step(s, e))
  {
  }

  /** The step begins a native control call. */
  ghost predicate TakesControl(s: Saga, e: Event) {
    && s.drive.Some? && !s.drive.value.Controlling?
    && Step(s, e).drive.Some? && Step(s, e).drive.value.Controlling?
  }

  /** Over every run, through restarts: native control of a cutover whose dispatch is on record begins only
    * with an inspection that found its persisted turn active. */
  lemma {:induction false} DispatchIsInspectedFirst(s: Saga, events: seq<Event>, e: Event)
    requires WellRead(s)
    ensures var before := Run(s, events);
            && WellRead(before)
            && (TakesControl(before, e) && before.entry.cutover.Some? && Dispatched(before.entry.cutover.value) ==>
                  e == Inspect(ActiveTurn) && before.entry.cutover.value.turn.Some?)
    decreases |events|
  {
    if events != [] {
      hide Step;
      DispatchIsInspectedFirst(s, events[..|events| - 1], e);
      StepKeepsWellRead(Run(s, events[..|events| - 1]), events[|events| - 1]);
    }
    OnlyInspectionTakesControl(Run(s, events), e);
  }

  lemma OnlyInspectionTakesControl(s: Saga, e: Event)
    requires WellRead(s)
    ensures TakesControl(s, e) && s.entry.cutover.Some? && Dispatched(s.entry.cutover.value) ==>
              e == Inspect(ActiveTurn) && s.entry.cutover.value.turn.Some?
  {
  }

  // ----- every switch has its evidence -----

  /** This event, taken while the cutover of this serial is the latest, is the evidence: the durable
    * terminal record of the generation, the inspection that found the drive's target turn over, or the
    * control call that found nothing active. */
  ghost predicate Produces(s: Saga, e: Event, serial: nat, identity: Identity, evidence: Evidence) {
    s.serial == serial && match evidence
    case TerminalRecord =>
      e.ClearTerminal? && e.saved.identity == identity && (identity.work, identity.generation) in s.terminals
    case TerminalInspection(turn) =>
      && e == Inspect(TerminalTurn) && s.drive.Some? && !s.drive.value.Creating? && s.drive.value.identity == identity
      && (s.drive.value.Acknowledged? ==> s.drive.value.target == turn)
      && (s.drive.value.Deciding? ==> s.drive.value.snapshot.turn == Some(turn))
      && (s.drive.value.Acknowledged? || s.drive.value.Deciding?)
    case ControlOutcome =>
      && (e == Result(NoActive) || e == Result(TerminalControl))
      && s.drive.Some? && s.drive.value.Controlling? && s.drive.value.identity == identity
  }

  /** The mode switches with a record of the cutover it ended, and a drive comes to complete on evidence,
    * only by the event that produced the evidence. */
  lemma EvidenceHasItsEvent(s: Saga, e: Event)
    ensures var next := Step(s, e);
            && s.switches <= next.switches && |next.switches| <= |s.switches| + 1
            && (s.entry.mode == McpPolling && next.entry.mode == DaemonInbox ==> |next.switches| == |s.switches| + 1)
            && (next.drive.Some? && next.drive.value.Completing? && next.drive != s.drive ==>
                  Produces(s, e, next.serial, next.drive.value.identity, next.drive.value.evidence))
            && (|next.switches| > |s.switches| ==>
                  var switch := next.switches[|s.switches|];
                  || Produces(s, e, switch.serial, switch.cutover.identity, switch.evidence)
                  || (&& e == Complete && s.drive.Some? && s.drive.value.Completing? && s.drive.value.evidence == switch.evidence
                      && s.drive.value.identity == switch.cutover.identity && s.serial == switch.serial))
            && (s.drive.Some? && s.drive.value.Completing? ==> next.serial == s.serial)
  {
  }

  ghost predicate ProducedIn(s: Saga, events: seq<Event>, serial: nat, identity: Identity, evidence: Evidence) {
    exists n :: 0 <= n < |events| && Produces(Run(s, events[..n]), events[n], serial, identity, evidence)
  }

  lemma ProducedEarlier(s: Saga, events: seq<Event>, serial: nat, identity: Identity, evidence: Evidence)
    requires events != [] && ProducedIn(s, events[..|events| - 1], serial, identity, evidence)
    ensures ProducedIn(s, events, serial, identity, evidence)
  {
    hide Run, Produces;
    var earlier := events[..|events| - 1];
    var n :| 0 <= n < |earlier| && Produces(Run(s, earlier[..n]), earlier[n], serial, identity, evidence);
    assert earlier[..n] == events[..n] && earlier[n] == events[n];
  }

  lemma ProducedLast(s: Saga, events: seq<Event>, serial: nat, identity: Identity, evidence: Evidence)
    requires events != [] && Produces(Run(s, events[..|events| - 1]), events[|events| - 1], serial, identity, evidence)
    ensures ProducedIn(s, events, serial, identity, evidence)
  {
  }

  /** Over every run from a state without a completing drive, the mode becomes `DaemonInbox` only with a
    * recorded switch, and for every switch the run itself holds the event that produced its evidence, taken
    * for the very cutover that the switch ended: never an acknowledged interrupt alone. */
  lemma {:induction false} EverySwitchIsBacked(s: Saga, events: seq<Event>)
    requires s.drive.Some? ==> !s.drive.value.Completing?
    ensures var end := Run(s, events);
            && s.switches <= end.switches
            && (s.entry.mode == McpPolling && end.entry.mode == DaemonInbox ==> |s.switches| < |end.switches|)
            && (end.drive.Some? && end.drive.value.Completing? ==>
                  ProducedIn(s, events, end.serial, end.drive.value.identity, end.drive.value.evidence))
            && (forall i :: |s.switches| <= i < |end.switches| ==>
                  ProducedIn(s, events, end.switches[i].serial, end.switches[i].cutover.identity, end.switches[i].evidence))
    decreases |events|
  {
    hide Step, Produces, ProducedIn;
    if events != [] {
      var before, end := Run(s, events[..|events| - 1]), Run(s, events);
      EverySwitchIsBacked(s, events[..|events| - 1]);
      EvidenceHasItsEvent(before, events[|events| - 1]);
      if end.drive.Some? && end.drive.value.Completing? {
        if end.drive == before.drive {
          ProducedEarlier(s, events, end.serial, end.drive.value.identity, end.drive.value.evidence);
        } else {
          ProducedLast(s, events, end.serial, end.drive.value.identity, end.drive.value.evidence);
        }
      }
      forall i | |s.switches| <= i < |end.switches|
        ensures ProducedIn(s, events, end.switches[i].serial, end.switches[i].cutover.identity, end.switches[i].evidence)
      {
        SwitchProduced(s, events, i);
      }
    }
  }

  lemma SwitchProduced(s: Saga, events: seq<Event>, i: nat)
    requires events != []
    requires var before := Run(s, events[..|events| - 1]);
             && |s.switches| <= |before.switches|
             && (i < |before.switches| ==>
                   ProducedIn(s, events[..|events| - 1], before.switches[i].serial, before.switches[i].cutover.identity, before.switches[i].evidence))
             && (before.drive.Some? && before.drive.value.Completing? ==>
                   ProducedIn(s, events[..|events| - 1], before.serial, before.drive.value.identity, before.drive.value.evidence))
    requires i < |Run(s, events).switches|
    ensures var switch := Run(s, events).switches[i]; ProducedIn(s, events, switch.serial, switch.cutover.identity, switch.evidence)
  {
    var before, last := Run(s, events[..|events| - 1]), events[|events| - 1];
    EvidenceHasItsEvent(before, last);
    hide Step, Produces, ProducedIn;
    var switch := Run(s, events).switches[i];
    if i < |before.switches| {
      ProducedEarlier(s, events, switch.serial, switch.cutover.identity, switch.evidence);
    } else if Produces(before, last, switch.serial, switch.cutover.identity, switch.evidence) {
      ProducedLast(s, events, switch.serial, switch.cutover.identity, switch.evidence);
    } else {
      ProducedEarlier(s, events, switch.serial, switch.cutover.identity, switch.evidence);
    }
  }

  // ----- the inspected turn is the persisted one -----

  /** The drive's snapshot is an earlier state of the cutover in the journal, and the turn it is
    * completing on is the one in the journal. */
  ghost predicate Anchored(s: Saga) {
    s.drive.Some? && s.entry.cutover.Some? ==>
      match s.drive.value
      case Creating(_, _) => false
      case Deciding(identity, _, c) => c.identity == identity && CutoverLater(c, s.entry.cutover.value)
      case Controlling(identity, _, c, _) => c.identity == identity && CutoverLater(c, s.entry.cutover.value)
      case Acknowledged(_, _, target) => s.entry.cutover.value.turn == Some(target)
      case Completing(_, _, evidence) =>
        evidence.TerminalInspection? ==> s.entry.cutover.value.turn == Some(evidence.turn)
  }

  /** An acknowledged interrupt reports the turn that was checkpointed. */
  predicate Truthful(s: Saga, e: Event) {
    s.drive.Some? && s.drive.value.Controlling? && e.Result? && e.result.InterruptDispatched?
    && s.drive.value.snapshot.turn.None? && e.result.target.Some? && s.entry.cutover.Some?
    ==> s.entry.cutover.value.turn == e.result.target
  }

  /** A step keeps the drive anchored exactly unless the provider names another turn. */
  lemma AnchoredUnlessUntruthful(s: Saga, e: Event)
    requires Anchored(s)
    ensures Anchored(Step(s, e)) <==> Truthful(s, e)
  {
  }

  ghost predicate AllTruthful(s: Saga, events: seq<Event>) {
    forall n :: 0 <= n < |events| ==> Truthful(Run(s, events[..n]), events[n])
  }

  lemma {:induction false} RunStaysAnchored(s: Saga, events: seq<Event>)
    requires Anchored(s) && AllTruthful(s, events)
    ensures Anchored(Run(s, events))
    decreases |events|
  {
    hide Step, Anchored, Truthful;
    if events != [] {
      var earlier := events[..|events| - 1];
      forall n | 0 <= n < |earlier|
        ensures Truthful(Run(s, earlier[..n]), earlier[n])
      {
        assert earlier[..n] == events[..n];
      }
      RunStaysAnchored(s, earlier);
      AnchoredUnlessUntruthful(Run(s, earlier), events[|events| - 1]);
    }
  }

  /** With a provider that reports the turn it checkpointed, a switch on an inspected turn ends the very
    * cutover whose persisted target that turn is. */
  lemma SwitchEndsInspectedTurn(s: Saga, events: seq<Event>)
    requires Anchored(s) && AllTruthful(s, events)
    ensures var before := Run(s, events); var next := Step(before, Complete);
            |next.switches| > |before.switches| && next.switches[|before.switches|].evidence.TerminalInspection? ==>
              next.switches[|before.switches|].cutover.turn == Some(next.switches[|before.switches|].evidence.turn)
  {
    hide Run;
    RunStaysAnchored(s, events);
  }

  lemma RunExtends(s: Saga, events: seq<Event>, e: Event)
    ensures Run(s, events + [e]) == Step(Run(s, events), e)
  {
    assert (events + [e])[..|events|] == events;
  }

  /** A polling entry under its exact live runtime, with no cutover and no drive. */
  function Polling(identity: Identity, handle: Handle): Saga {
    Saga(Entry(McpPolling, None, true, true, true, false, Some(identity.work),
               Some(Ref(identity.generation, identity.continuation, handle.connection))),
         Some(handle), {}, None, 0, [])
  }

  function DispatchTurn(a: Id): seq<Event> { [Start] + [Create] + [Event.Control] + [CheckpointTarget(a)] + [MarkDispatched] }

  lemma DispatchedRun(identity: Identity, handle: Handle, a: Id)
    requires handle.work == identity.work && handle.continuation == identity.continuation
    ensures var s := Polling(identity, handle);
            Run(s, DispatchTurn(a)) ==
            s.(entry := s.entry.(cutover := Some(Cutover(identity, Some(a), Dispatching))), serial := 1,
               drive := Some(Controlling(identity, handle, Cutover(identity, None, Prepared), true)))
  {
    var s, blank := Polling(identity, handle), Cutover(identity, None, Prepared);
    RunExtends(s, [], Start);
    assert [] + [Start] == [Start];
    var one := Step(s, Start);
    assert one == s.(drive := Some(Creating(identity, handle)));
    RunExtends(s, [Start], Create);
    var two := Step(one, Create);
    assert two == s.(entry := s.entry.(cutover := Some(blank)), serial := 1, drive := Some(Deciding(identity, handle, blank)));
    RunExtends(s, [Start] + [Create], Event.Control);
    var three := Step(two, Event.Control);
    assert three == two.(drive := Some(Controlling(identity, handle, blank, false)));
    RunExtends(s, [Start] + [Create] + [Event.Control], CheckpointTarget(a));
    var four := Step(three, CheckpointTarget(a));
    assert four == three.(entry := s.entry.(cutover := Some(blank.(turn := Some(a)))));
    RunExtends(s, [Start] + [Create] + [Event.Control] + [CheckpointTarget(a)], MarkDispatched);
  }

  /** Without a truthful provider the switch may rest on the end of another turn: the journal names `a`, the
    * provider reports `b`, and `b` is what is inspected. The whole run starts from a polling entry. */
  lemma UntruthfulProviderSwitchesEarly(identity: Identity, handle: Handle, a: Id, b: Id)
    requires a != b && handle.work == identity.work && handle.continuation == identity.continuation
    ensures var end := Run(Polling(identity, handle),
                           DispatchTurn(a) + [Result(InterruptDispatched(Some(b)))] + [Inspect(TerminalTurn)] + [Complete]);
            && end.entry.mode == DaemonInbox
            && end.switches == [Switch(1, Cutover(identity, Some(a), Dispatching), TerminalInspection(b))]
  {
    var s := Polling(identity, handle);
    DispatchedRun(identity, handle, a);
    RunExtends(s, DispatchTurn(a), Result(InterruptDispatched(Some(b))));
    RunExtends(s, DispatchTurn(a) + [Result(InterruptDispatched(Some(b)))], Inspect(TerminalTurn));
    RunExtends(s, DispatchTurn(a) + [Result(InterruptDispatched(Some(b)))] + [Inspect(TerminalTurn)], Complete);
  }

  // ----- the manifest entry, updated in place -----

  class DeliveryCutoverSaga {
    var entry: Entry
    var live: Option<Handle>
    var drive: Option<Drive>
    ghost var terminals: set<(Id, Id)>
    ghost var serial: nat
    ghost var switches: seq<Switch>

    ghost function State(): Saga
      reads this
    {
      Saga(entry, live, terminals, drive, serial, switches)
    }

    ghost predicate Valid()
      reads this
    {
      Inv(State())
    }

    constructor (initial: Entry)
      ensures Valid() && State() == Saga(initial, None, {}, None, 0, [])
    {
      entry, live, drive := initial, None, None;
      terminals, serial, switches := {}, 0, [];
    }

    /** The convergence boundary of every old cutover, given the durable terminal record. */
    method ConvergeTerminal(saved: Cutover)
      requires Valid() && (saved.identity.work, saved.identity.generation) in terminals
      modifies this
      ensures Valid() && State() == Step(old(State()), ClearTerminal(saved))
    {
      StepKeepsInv(State(), ClearTerminal(saved));
      var current := entry.cutover;
      if current.None? || current.value.identity != saved.identity || current.value.turn != saved.turn { return; }
      var ref := entry.ref;
      var sameRuntime := ref.Some? && ref.value.generation == saved.identity.generation
                         && ref.value.continuation == saved.identity.continuation;
      if sameRuntime || ref.None? {
        entry := entry.(mode := DaemonInbox, cutover := None);
        switches := switches + [Switch(serial, current.value, TerminalRecord)];
      } else {
        entry := entry.(cutover := None);
      }
    }

    /** The drive's own cutover, prepared under the exact current runtime. */
    method CreateCutover()
      requires Valid() && drive.Some? && drive.value.Creating?
      modifies this
      ensures Valid() && State() == Step(old(State()), Create)
    {
      StepKeepsInv(State(), Create);
      var identity, handle := drive.value.identity, drive.value.handle;
      drive := None;
      if entry.controlled { return; }
      if entry.codex && entry.mode == McpPolling && entry.work == Some(identity.work) && entry.ref.Some?
         && entry.ref.value.generation == identity.generation && entry.ref.value.continuation == identity.continuation
         && live == Some(handle) && entry.ref.value.connection == handle.connection {
        entry := entry.(cutover := Some(Cutover(identity, None, Prepared)));
        serial := serial + 1;
      }
      if entry.cutover.Some? && entry.cutover.value.identity == identity {
        drive := Some(Deciding(identity, handle, entry.cutover.value));
      }
    }

    /** The provider names the exact turn it will control. */
    method CheckpointTargetTurn(turn: Id) returns (written: bool)
      requires Valid() && drive.Some? && drive.value.Controlling?
      modifies this
      ensures Valid() && State() == Step(old(State()), CheckpointTarget(turn))
      ensures written ==> entry.cutover.Some? && entry.cutover.value.turn == Some(turn)
    {
      StepKeepsInv(State(), CheckpointTarget(turn));
      if !StillOwns(entry, live, drive.value.identity, drive.value.handle)
         || (entry.cutover.value.turn.Some? && entry.cutover.value.turn != Some(turn)) {
        return false;
      }
      entry := entry.(cutover := Some(entry.cutover.value.(turn := Some(turn))));
      return true;
    }

    /** The durable record that precedes the native interrupt. */
    method MarkDispatchedTurn() returns (written: bool)
      requires Valid() && drive.Some? && drive.value.Controlling?
      modifies this
      ensures Valid() && State() == Step(old(State()), MarkDispatched)
      ensures written ==> entry.cutover.Some? && entry.cutover.value.phase == Dispatching && entry.cutover.value.turn.Some?
    {
      StepKeepsInv(State(), MarkDispatched);
      if !StillOwns(entry, live, drive.value.identity, drive.value.handle) || entry.cutover.value.turn.None? { return false; }
      entry := entry.(cutover := Some(entry.cutover.value.(phase := Dispatching)));
      drive := Some(drive.value.(marked := true));
      return true;
    }

    /** Ends the saga on its evidence, under the exact current runtime. */
    method CompleteCutover()
      requires Valid() && drive.Some? && drive.value.Completing?
      modifies this
      ensures Valid() && State() == Step(old(State()), Complete)
    {
      StepKeepsInv(State(), Complete);
      var completing := drive.value;
      drive := None;
      if !StillOwns(entry, live, completing.identity, completing.handle) { return; }
      switches := switches + [Switch(serial, entry.cutover.value, completing.evidence)];
      entry := entry.(mode := DaemonInbox, cutover := None);
    }

    /** A failed control call: retryable only while no dispatch was recorded. */
    method ControlFailed(uncertain: bool)
      requires Valid() && drive.Some? && drive.value.Controlling?
      modifies this
      ensures Valid() && State() == Step(old(State()), ControlError(uncertain))
    {
      StepKeepsInv(State(), ControlError(uncertain));
      var controlling := drive.value;
      drive := None;
      if !StillOwns(entry, live, controlling.identity, controlling.handle) { return; }
      var c := entry.cutover.value;
      if controlling.marked || uncertain {
        entry := entry.(cutover := Some(c.(phase := Uncertain)));
      } else if c.phase !in {Dispatching, Uncertain} {
        entry := entry.(cutover := Some(c.(phase := Retryable)));
      }
    }
  }
}
