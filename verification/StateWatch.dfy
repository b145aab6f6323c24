/**
  * The daemon state watch: long polls on a change counter, released at once or after a coalescing
  * window, that share one projection of the state at a time.
  * Everything the program does between two awaits is one step.
  */
module StateWatch {
  import opened Wrappers

  /** One projection: the counter captured when it was created, the counter when its entries were
    * read, and how it settled. */
  datatype Projection = Projection(generation: nat, sequence: nat, readAt: Option<nat>, settled: Option<bool>)

  /** Where a poll stands: asleep, before an authority check, behind a coalescing window, about to
    * look for a projection, waiting for one it shares, outlasts or owns, before its last authority
    * check, or done. */
  datatype Place =
    | Asleep | Checking | Coalescing(batch: nat) | Deciding
    | Sharing(projection: nat) | Outlasting(projection: nat) | Owning(projection: nat) | Confirming(projection: nat)
    | Returned(projection: nat) | Failed

  /** `began` is the counter when the poll was made. */
  datatype Poll = Poll(after: int, generation: nat, patient: bool, timedOut: bool, coalesce: bool, began: nat, place: Place)

  datatype Watch = Watch(
    windowed: bool, sequence: nat, generation: nat, closed: bool, waiters: set<nat>, batch: Option<nat>, batches: nat,
    inFlight: Option<nat>, projections: seq<Projection>, polls: seq<Poll>)

  datatype Event =
    | Notify(handoff: bool)
    | Close
    | WindowEnds
    | NewGeneration(generation: nat)
    | Begin(after: int, afterGeneration: nat, patient: bool, handoff: bool)
    | Expire(poll: nat)
    | Wake(poll: nat)
    | Checked(poll: nat, current: bool, handoff: bool)
    | WindowPassed(poll: nat)
    | Decide(poll: nat)
    | Read(projection: nat)
    | Settle(projection: nat, ok: bool)
    | Retry(poll: nat, handoff: bool)
    | TakeShared(poll: nat)
    | TakeOwn(poll: nat)
    | Confirmed(poll: nat, current: bool)

  function New(windowed: bool, generation: nat): Watch {
    Watch(windowed, 1, generation, false, {}, None, 0, None, [], [])
  }

  // ----- steps -----

  /** Ends the window and resolves every waiter. */
  function Release(w: Watch): Watch { w.(batch := None, waiters := {}) }

  function Notified(w: Watch, handoff: bool): Watch {
    var bumped := w.(sequence := w.sequence + 1);
    if !w.windowed || w.closed || handoff then Release(bumped)
    else if w.batch.Some? || (w.waiters == {} && w.inFlight.None?) then bumped
    else bumped.(batch := Some(w.batches), batches := w.batches + 1)
  }

  function Move(w: Watch, p: nat, place: Place): Watch
    requires p < |w.polls|
  {
    w.(polls := w.polls[p := w.polls[p].(place := place)])
  }

  /** The top of the snapshot loop: a coalescing poll first sits out the current window. */
  function LoopTop(w: Watch, p: nat, handoff: bool): Watch
    requires p < |w.polls|
  {
    if w.polls[p].coalesce && !w.closed && !handoff && w.batch.Some? then Move(w, p, Coalescing(w.batch.value))
    else Move(w, p, Deciding)
  }

  /** Shares a projection fresh enough for the counter just captured, outlasts an older one, or
    * creates its own. */
  function Decided(w: Watch, p: nat): Watch
    requires p < |w.polls|
    requires w.inFlight.Some? ==> w.inFlight.value < |w.projections|
  {
    match w.inFlight
    case Some(current) =>
      if w.projections[current].generation == w.generation && w.projections[current].sequence >= w.sequence
      then Move(w, p, Sharing(current))
      else Move(w, p, Outlasting(current))
    case None =>
      Move(w, p, Owning(|w.projections|)).(
        inFlight := Some(|w.projections|),
        projections := w.projections + [Projection(w.generation, w.sequence, None, None)])
  }

  predicate At(w: Watch, p: nat, place: Place) { p < |w.polls| && w.polls[p].place == place }

  predicate SettledOk(w: Watch, projection: nat) {
    projection < |w.projections| && w.projections[projection].settled == Some(true)
  }

  predicate Settled(w: Watch, projection: nat) {
    projection < |w.projections| && w.projections[projection].settled.Some?
  }

  predicate Enabled(w: Watch, e: Event) {
    match e
    case Notify(_) => true
    case Close => true
    case WindowEnds => w.batch.Some?
    case NewGeneration(_) => true
    case Begin(_, _, _, _) => true
    case Expire(p) => p in w.waiters && At(w, p, Asleep)
    case Wake(p) => p !in w.waiters && At(w, p, Asleep)
    case Checked(p, _, _) => At(w, p, Checking)
    case WindowPassed(p) => p < |w.polls| && w.polls[p].place.Coalescing? && w.batch != Some(w.polls[p].place.batch)
    case Decide(p) => At(w, p, Deciding) && (w.inFlight.Some? ==> w.inFlight.value < |w.projections|)
    case Read(i) => i < |w.projections| && w.projections[i].readAt.None? && w.projections[i].settled.None?
    case Settle(i, ok) => i < |w.projections| && w.projections[i].settled.None? && (ok ==> w.projections[i].readAt.Some?)
    case Retry(p, _) => p < |w.polls| && w.polls[p].place.Outlasting? && Settled(w, w.polls[p].place.projection)
    case TakeShared(p) => p < |w.polls| && w.polls[p].place.Sharing? && Settled(w, w.polls[p].place.projection)
    case TakeOwn(p) => p < |w.polls| && w.polls[p].place.Owning? && Settled(w, w.polls[p].place.projection)
    case Confirmed(p, _) => p < |w.polls| && w.polls[p].place.Confirming? && w.polls[p].place.projection < |w.projections|
  }

  /** A new poll sleeps only when it is up to date with an open, current watch. */
  function Begun(w: Watch, after: int, afterGeneration: nat, patient: bool, handoff: bool): Watch {
    var sleeps := !w.closed && !handoff && afterGeneration == w.generation && after >= w.sequence && patient;
    w.(polls := w.polls + [Poll(after, afterGeneration, patient, false, false, w.sequence, if sleeps then Asleep else Checking)],
       waiters := if sleeps then w.waiters + {|w.polls|} else w.waiters)
  }

  function Outcome(w: Watch, p: nat, projection: nat): Watch
    requires p < |w.polls|
  {
    if SettledOk(w, projection) then Move(w, p, Confirming(projection)) else Move(w, p, Failed)
  }

  function Step(w: Watch, e: Event): Watch {
    if !Enabled(w, e) then w
    else match e
      case Notify(handoff) => Notified(w, handoff)
      case Close => Release(w.(closed := true))
      case WindowEnds => Release(w)
      case NewGeneration(generation) => w.(generation := generation)
      case Begin(after, afterGeneration, patient, handoff) => Begun(w, after, afterGeneration, patient, handoff)
      case Expire(p) =>
        w.(waiters := w.waiters - {p}, polls := w.polls[p := w.polls[p].(timedOut := true, place := Checking)])
      case Wake(p) => Move(w, p, Checking)
      case Checked(p, current, handoff) =>
        if !current then Move(w, p, Failed)
        else
          var poll := w.polls[p];
          var coalesce := poll.patient && !poll.timedOut && poll.generation == w.generation;
          LoopTop(w.(polls := w.polls[p := poll.(coalesce := coalesce)]), p, handoff)
      case WindowPassed(p) => Move(w, p, Deciding)
      case Decide(p) => Decided(w, p)
      case Read(i) => w.(projections := w.projections[i := w.projections[i].(readAt := Some(w.sequence))])
      case Settle(i, ok) => w.(projections := w.projections[i := w.projections[i].(settled := Some(ok))])
      case Retry(p, handoff) => LoopTop(w, p, handoff)
      case TakeShared(p) => Outcome(w, p, w.polls[p].place.projection)
      case TakeOwn(p) =>
        var own := w.polls[p].place.projection;
        Outcome(if w.inFlight == Some(own) then w.(inFlight := None) else w, p, own)
      case Confirmed(p, current) =>
        var projection := w.polls[p].place.projection;
        if !current then Move(w, p, Failed)
        else if w.projections[projection].generation == w.generation then Move(w, p, Returned(projection))
        else Move(w, p, Checking)
  }

  function Run(w: Watch, events: seq<Event>): Watch
    decreases |events|
  {
    if events == [] then w else Step(Run(w, events[..|events| - 1]), events[|events| - 1])
  }

  // ----- the invariant -----

  predicate Uses(place: Place) { place.Sharing? || place.Owning? || place.Confirming? || place.Returned? }

  /** A projection was read no earlier than its captured counter, and only the one in flight is unsettled. */
  ghost predicate ProjectionAt(w: Watch, i: nat)
    requires i < |w.projections|
  {
    var p := w.projections[i];
    && p.sequence <= w.sequence
    && (p.readAt.Some? ==> p.sequence <= p.readAt.value <= w.sequence)
    && (p.settled == Some(true) ==> p.readAt.Some?)
    && (p.settled.None? ==> w.inFlight == Some(i))
  }

  /** A poll uses a projection captured after the poll began; a poll that sleeps, or is held back by a
    * window, has not been forgotten by a release. */
  ghost predicate PollAt(w: Watch, p: nat)
    requires p < |w.polls|
  {
    var poll := w.polls[p];
    && poll.began <= w.sequence
    && (Uses(poll.place) ==>
          poll.place.projection < |w.projections| && poll.began <= w.projections[poll.place.projection].sequence)
    && (poll.place.Outlasting? ==> poll.place.projection < |w.projections|)
    && (poll.place.Confirming? || poll.place.Returned? ==> SettledOk(w, poll.place.projection))
    && (poll.place.Coalescing? ==> poll.place.batch < w.batches)
    && (p in w.waiters ==> poll.place.Asleep?)
    && (p in w.waiters && poll.after < w.sequence ==> w.windowed && w.batch.Some?)
  }

  ghost predicate Inv(w: Watch) {
    && (forall i {:trigger ProjectionAt(w, i)} :: 0 <= i < |w.projections| ==> ProjectionAt(w, i))
    && (forall p {:trigger PollAt(w, p)} :: 0 <= p < |w.polls| ==> PollAt(w, p))
    && (forall p :: p in w.waiters ==> p < |w.polls|)
    && (w.inFlight.Some? ==> w.inFlight.value < |w.projections|)
    && (w.batch.Some? ==> w.batch.value < w.batches)
    && (w.closed ==> w.waiters == {})
  }

  /** A step that leaves projections and counters alone, and moves one poll at most. */
  lemma MoveKeepsInv(w: Watch, next: Watch, p: nat)
    requires Inv(w) && p < |w.polls| && |next.polls| == |w.polls|
    requires next == w.(polls := w.polls[p := next.polls[p]], inFlight := next.inFlight, waiters := next.waiters)
    requires PollAt(next, p)
    requires next.inFlight == w.inFlight || (next.inFlight.None? && w.inFlight.Some? && Settled(w, w.inFlight.value))
    requires next.waiters == w.waiters || next.waiters == w.waiters - {p}
    ensures Inv(next)
  {
    forall i | 0 <= i < |next.projections| ensures ProjectionAt(next, i) { assert ProjectionAt(w, i); }
    forall q | 0 <= q < |next.polls| ensures PollAt(next, q) { assert PollAt(w, q); }
  }

  lemma LoopTopKeepsInv(w: Watch, p: nat, coalesce: bool, handoff: bool)
    requires Inv(w) && p < |w.polls| && p !in w.waiters
    ensures Inv(LoopTop(w.(polls := w.polls[p := w.polls[p].(coalesce := coalesce)]), p, handoff))
  {
    var next := LoopTop(w.(polls := w.polls[p := w.polls[p].(coalesce := coalesce)]), p, handoff);
    assert PollAt(w, p);
    MoveKeepsInv(w, next, p);
  }

  lemma NotifiedKeepsInv(w: Watch, handoff: bool)
    requires Inv(w)
    ensures Inv(Notified(w, handoff))
  {
    var next := Notified(w, handoff);
    forall i | 0 <= i < |next.projections| ensures ProjectionAt(next, i) { assert ProjectionAt(w, i); }
    forall q | 0 <= q < |next.polls| ensures PollAt(next, q) { assert PollAt(w, q); }
  }

  /** Releasing waiters, closing, renaming the generation and beginning a poll. */
  lemma AdmissionKeepsInv(w: Watch, e: Event)
    requires Inv(w) && (e.Close? || e.WindowEnds? || e.NewGeneration? || e.Begin?)
    ensures Inv(Step(w, e))
  {
    var next := Step(w, e);
    forall i | 0 <= i < |next.projections| ensures ProjectionAt(next, i) { assert ProjectionAt(w, i); }
    forall q | 0 <= q < |next.polls| ensures PollAt(next, q) { if q < |w.polls| { assert PollAt(w, q); } }
  }

  lemma ProjectionKeepsInv(w: Watch, e: Event)
    requires Inv(w) && (e.Read? || e.Settle?)
    ensures Inv(Step(w, e))
  {
    var next := Step(w, e);
    forall i | 0 <= i < |next.projections| ensures ProjectionAt(next, i) { assert ProjectionAt(w, i); }
    forall q | 0 <= q < |next.polls| ensures PollAt(next, q) { assert PollAt(w, q); }
  }

  lemma DecidedKeepsInv(w: Watch, p: nat)
    requires Inv(w) && Enabled(w, Decide(p))
    ensures Inv(Decided(w, p))
  {
    var next := Decided(w, p);
    assert PollAt(w, p);
    if w.inFlight.Some? {
      MoveKeepsInv(w, next, p);
    } else {
      forall i | 0 <= i < |next.projections| ensures ProjectionAt(next, i) { if i < |w.projections| { assert ProjectionAt(w, i); } }
      forall q | 0 <= q < |next.polls| ensures PollAt(next, q) { assert PollAt(w, q); }
    }
  }

  lemma TakenKeepsInv(w: Watch, e: Event)
    requires Inv(w) && Enabled(w, e) && (e.TakeShared? || e.TakeOwn?)
    ensures Inv(Step(w, e))
  {
    assert PollAt(w, e.poll);
    MoveKeepsInv(w, Step(w, e), e.poll);
  }

  lemma ConfirmedKeepsInv(w: Watch, e: Event)
    requires Inv(w) && Enabled(w, e) && e.Confirmed?
    ensures Inv(Step(w, e))
  {
    assert PollAt(w, e.poll);
    MoveKeepsInv(w, Step(w, e), e.poll);
  }

  lemma StepKeepsInv(w: Watch, e: Event)
    requires Inv(w)
    ensures Inv(Step(w, e))
  {
    if Enabled(w, e) {
      match e {
        case Notify(handoff) => NotifiedKeepsInv(w, handoff);
        case Expire(p) =>
          assert PollAt(w, p);
          MoveKeepsInv(w, Step(w, e), p);
        case Wake(p) =>
          assert PollAt(w, p);
          MoveKeepsInv(w, Step(w, e), p);
        case Checked(p, current, handoff) =>
          assert PollAt(w, p);
          if current {
            var poll := w.polls[p];
            LoopTopKeepsInv(w, p, poll.patient && !poll.timedOut && poll.generation == w.generation, handoff);
          } else {
            MoveKeepsInv(w, Step(w, e), p);
          }
        case WindowPassed(p) =>
          assert PollAt(w, p);
          MoveKeepsInv(w, Step(w, e), p);
        case Decide(p) => DecidedKeepsInv(w, p);
        case Retry(p, handoff) =>
          assert PollAt(w, p);
          assert w.polls[p := w.polls[p].(coalesce := w.polls[p].coalesce)] == w.polls;
          LoopTopKeepsInv(w, p, w.polls[p].coalesce, handoff);
        case Read(_) => ProjectionKeepsInv(w, e);
        case Settle(_, _) => ProjectionKeepsInv(w, e);
        case TakeShared(_) => TakenKeepsInv(w, e);
        case TakeOwn(_) => TakenKeepsInv(w, e);
        case Confirmed(_, _) => ConfirmedKeepsInv(w, e);
        case _ => AdmissionKeepsInv(w, e);
      }
    }
  }

  lemma {:induction false} RunKeepsInv(w: Watch, events: seq<Event>)
    requires Inv(w)
    ensures Inv(Run(w, events))
    decreases |events|
  {
    hide Inv, Step;
    if events != [] {
      RunKeepsInv(w, events[..|events| - 1]);
      StepKeepsInv(Run(w, events[..|events| - 1]), events[|events| - 1]);
    }
  }

  // ----- freshness -----

  /** Over every run a returned snapshot numbered `s` was read after every change numbered up to `s`,
    * and `s` is no older than the counter the poll found when it was made. */
  lemma {:induction false} ReturnedSnapshotIsFresh(windowed: bool, generation: nat, events: seq<Event>, p: nat)
    requires var w := Run(New(windowed, generation), events); p < |w.polls| && w.polls[p].place.Returned?
    ensures var w := Run(New(windowed, generation), events); var i := w.polls[p].place.projection;
            && i < |w.projections| && w.projections[i].readAt.Some?
            && w.polls[p].began <= w.projections[i].sequence <= w.projections[i].readAt.value <= w.sequence
  {
    RunKeepsInv(New(windowed, generation), events);
    var w := Run(New(windowed, generation), events);
    hide Run;
    assert PollAt(w, p);
    assert ProjectionAt(w, w.polls[p].place.projection);
  }

  /** At most one projection is in flight. */
  lemma {:induction false} OneProjectionAtATime(windowed: bool, generation: nat, events: seq<Event>, i: nat, j: nat)
    requires var w := Run(New(windowed, generation), events);
             i < |w.projections| && j < |w.projections| && w.projections[i].settled.None? && w.projections[j].settled.None?
    ensures i == j
  {
    RunKeepsInv(New(windowed, generation), events);
    var w := Run(New(windowed, generation), events);
    hide Run;
    assert ProjectionAt(w, i) && ProjectionAt(w, j);
  }

  /** What never changes: the counter's direction, when a poll began, what a projection captured, and
    * a poll that is done. */
  ghost predicate Later(w: Watch, next: Watch) {
    && w.sequence <= next.sequence && |w.polls| <= |next.polls| && |w.projections| <= |next.projections|
    && (forall p :: |w.polls| <= p < |next.polls| ==> next.polls[p].began >= w.sequence)
    && (forall p :: 0 <= p < |w.polls| ==>
          && next.polls[p].began == w.polls[p].began
          && (w.polls[p].place.Returned? || w.polls[p].place.Failed? ==> next.polls[p] == w.polls[p]))
    && (forall i :: 0 <= i < |w.projections| ==>
          && next.projections[i].sequence == w.projections[i].sequence
          && (w.projections[i].settled.Some? ==> next.projections[i] == w.projections[i]))
  }

  lemma LoopingPollIsLater(w: Watch, e: Event)
    requires Enabled(w, e) && (e.Checked? || e.Retry?)
    ensures Later(w, Step(w, e))
  {
  }

  lemma FinishingPollIsLater(w: Watch, e: Event)
    requires Enabled(w, e) && (e.TakeShared? || e.TakeOwn? || e.Confirmed?)
    ensures Later(w, Step(w, e))
  {
  }

  lemma OtherStepIsLater(w: Watch, e: Event)
    requires !(e.Checked? || e.Retry? || e.TakeShared? || e.TakeOwn? || e.Confirmed?)
    ensures Later(w, Step(w, e))
  {
  }

  lemma StepIsLater(w: Watch, e: Event)
    ensures Later(w, Step(w, e))
  {
    if e.Checked? || e.Retry? {
      if Enabled(w, e) { LoopingPollIsLater(w, e); }
    } else if e.TakeShared? || e.TakeOwn? || e.Confirmed? {
      if Enabled(w, e) { FinishingPollIsLater(w, e); }
    } else {
      OtherStepIsLater(w, e);
    }
  }

  lemma {:induction false} RunIsLater(w: Watch, events: seq<Event>)
    requires Inv(w)
    ensures Inv(Run(w, events)) && Later(w, Run(w, events))
    decreases |events|
  {
    hide Inv, Step;
    if events != [] {
      var before := Run(w, events[..|events| - 1]);
      RunIsLater(w, events[..|events| - 1]);
      StepKeepsInv(before, events[|events| - 1]);
      StepIsLater(before, events[|events| - 1]);
    }
  }

  /** A poll made after another returned never returns an older snapshot. */
  lemma {:induction false} ReturnedSequencesNeverGoDown(w: Watch, events: seq<Event>, earlier: nat, later: nat)
    requires Inv(w) && earlier < |w.polls| && w.polls[earlier].place.Returned?
    requires |w.polls| <= later < |Run(w, events).polls| && Run(w, events).polls[later].place.Returned?
    ensures var end := Run(w, events);
            && end.polls[earlier] == w.polls[earlier]
            && w.polls[earlier].place.projection < |w.projections|
            && end.polls[later].place.projection < |end.projections|
            && w.projections[w.polls[earlier].place.projection].sequence
               <= end.projections[end.polls[later].place.projection].sequence
  {
    RunIsLater(w, events);
    var end := Run(w, events);
    hide Run;
    assert PollAt(w, earlier) && PollAt(end, later);
    assert ProjectionAt(w, w.polls[earlier].place.projection);
  }

  // ----- no wakeup is lost -----

  /** A registered waiter behind the counter always has a pending release, and only a coalescing watch
    * ever leaves it waiting for one. */
  lemma {:induction false} WaiterBehindHasPendingRelease(windowed: bool, generation: nat, events: seq<Event>, p: nat)
    requires var w := Run(New(windowed, generation), events); p in w.waiters
    ensures var w := Run(New(windowed, generation), events);
            && p < |w.polls| && !w.closed && w.polls[p].place == Asleep
            && (w.polls[p].after < w.sequence ==> w.windowed && Enabled(w, WindowEnds) && Enabled(Step(w, WindowEnds), Wake(p)))
  {
    RunKeepsInv(New(windowed, generation), events);
    var w := Run(New(windowed, generation), events);
    hide Run;
    assert PollAt(w, p);
  }

  // ----- who sleeps, who waits for a window, who shares -----

  /** A change is announced to every sleeping poll at once, unless the watch coalesces and is open with no
    * update scheduled: then nobody is woken yet, and a window is pending if anybody sleeps or a projection
    * is in flight. A window that was pending goes on. */
  lemma NotificationReleasesOrCoalesces(w: Watch, handoff: bool)
    requires Inv(w)
    ensures var next := Step(w, Notify(handoff));
            && next.sequence == w.sequence + 1 && next.polls == w.polls && next.projections == w.projections
            && if w.windowed && !w.closed && !handoff then
                 && next.waiters == w.waiters
                 && (w.batch.Some? ==> next.batch == w.batch)
                 && (w.batch.None? ==> (next.batch.Some? <==> w.waiters != {} || w.inFlight.Some?))
                 && (forall p :: p in w.waiters ==> Enabled(Step(next, WindowEnds), Wake(p)) || !At(w, p, Asleep))
               else
                 && next.waiters == {} && next.batch == None
                 && forall p :: At(w, p, Asleep) ==> Enabled(next, Wake(p))
  {
  }

  /** A poll falls asleep exactly when it is willing to wait, knows the current generation and the latest
    * change, and neither the end of the watch nor an update is near. */
  lemma OnlyCurrentPollsSleep(w: Watch, after: int, afterGeneration: nat, patient: bool, handoff: bool)
    requires Inv(w)
    ensures var next := Step(w, Begin(after, afterGeneration, patient, handoff)); var p := |w.polls|;
            && |next.polls| == p + 1 && (p in next.waiters <==> At(next, p, Asleep))
            && (At(next, p, Asleep) <==> patient && afterGeneration == w.generation && w.sequence <= after && !w.closed && !handoff)
            && (!At(next, p, Asleep) ==> At(next, p, Checking))
            && next.polls[..p] == w.polls && next.waiters - {p} == w.waiters
  {
  }

  /** After its authority check a poll sits out the pending window exactly when it is patient, did not time
    * out and named the generation that is still current; it never waits for a closed watch or an update. */
  lemma ChecksLeadToWindow(w: Watch, p: nat, handoff: bool)
    requires At(w, p, Checking)
    ensures var poll := w.polls[p]; var next := Step(w, Checked(p, true, handoff));
            if poll.patient && !poll.timedOut && poll.generation == w.generation && w.batch.Some? && !w.closed && !handoff
            then At(next, p, Coalescing(w.batch.value)) else At(next, p, Deciding)
    ensures At(Step(w, Checked(p, false, handoff)), p, Failed)
  {
  }

  /** The wait of the poll expired, and no window holds it. */
  ghost predicate NeverHeld(w: Watch, p: nat) {
    && p < |w.polls| && w.polls[p].timedOut && !w.polls[p].place.Coalescing? && !w.polls[p].place.Asleep?
    && (w.polls[p].place.Checking? || w.polls[p].place.Failed? || !w.polls[p].coalesce)
  }

  lemma CheckedStaysUnheld(w: Watch, e: Event, p: nat)
    requires NeverHeld(w, p) && Enabled(w, e) && (e.Checked? || e.Retry?)
    ensures NeverHeld(Step(w, e), p)
  {
  }

  lemma StaysUnheld(w: Watch, e: Event, p: nat)
    requires NeverHeld(w, p)
    ensures NeverHeld(Step(w, e), p)
  {
    if Enabled(w, e) {
      if e.Checked? || e.Retry? {
        CheckedStaysUnheld(w, e, p);
      } else if e.TakeShared? || e.TakeOwn? || e.Confirmed? {
        assert e.poll == p ==> !w.polls[p].coalesce;
        hide Notified, Begun, LoopTop, Decided, SettledOk, Settled;
      } else {
        hide LoopTop, Outcome;
      }
    }
  }

  /** A poll whose wait expired is never held back by a window again, whatever happens later. */
  lemma {:induction false} ExpiredPollIsNeverHeld(w: Watch, p: nat, events: seq<Event>)
    requires Enabled(w, Expire(p))
    ensures NeverHeld(Run(Step(w, Expire(p)), events), p)
    decreases |events|
  {
    if events != [] {
      ExpiredPollIsNeverHeld(w, p, events[..|events| - 1]);
      hide Step, NeverHeld;
      StaysUnheld(Run(Step(w, Expire(p)), events[..|events| - 1]), events[|events| - 1], p);
    }
  }

  /** A poll shares the projection in flight exactly when that was begun for the current generation and after
    * the latest change. It waits for the end of any other one, and begins its own when there is none. */
  lemma SharesOnlyCurrent(w: Watch, p: nat)
    requires Inv(w) && At(w, p, Deciding)
    ensures var next := Step(w, Decide(p));
            match w.inFlight
            case Some(i) =>
              && next.projections == w.projections && next.inFlight == w.inFlight
              && (At(next, p, Sharing(i)) <==> w.projections[i].generation == w.generation && w.projections[i].sequence == w.sequence)
              && (At(next, p, Sharing(i)) || At(next, p, Outlasting(i)))
            case None =>
              && At(next, p, Owning(|w.projections|)) && next.inFlight == Some(|w.projections|)
              && next.projections == w.projections + [Projection(w.generation, w.sequence, None, None)]
  {
    if w.inFlight.Some? { assert ProjectionAt(w, w.inFlight.value); }
  }

  /** A poll returns only a projection of the generation that is current as it returns, after its own last
    * authority check; one of an older generation sends it back to the beginning. */
  lemma ReturnsCurrentGeneration(w: Watch, e: Event, p: nat)
    requires Inv(w) && p < |w.polls| && !w.polls[p].place.Returned?
    ensures var next := Step(w, e);
            p < |next.polls| &&
            (next.polls[p].place.Returned? <==>
              e == Confirmed(p, true) && w.polls[p].place.Confirming? && SettledOk(w, w.polls[p].place.projection)
              && w.projections[w.polls[p].place.projection].generation == w.generation)
    ensures var next := Step(w, e);
            next.polls[p].place.Returned? ==>
              w.polls[p].place.Confirming? && next.polls[p].place.projection == w.polls[p].place.projection
    ensures e == Confirmed(p, true) && w.polls[p].place.Confirming? && !Step(w, e).polls[p].place.Returned? ==>
              At(Step(w, e), p, Checking)
  {
    assert PollAt(w, p);
    hide Inv, PollAt, ProjectionAt;
    if e.Confirmed? {
      hide Notified, Begun, Decided, LoopTop, Outcome;
    } else {
      OthersReturnNothing(w, e, p);
    }
  }

  lemma LoopsReturnNothing(w: Watch, e: Event, p: nat)
    requires p < |w.polls| && !w.polls[p].place.Returned? && (e.Checked? || e.Retry?)
    ensures p < |Step(w, e).polls| && !Step(w, e).polls[p].place.Returned?
  {
  }

  lemma OutcomesReturnNothing(w: Watch, e: Event, p: nat)
    requires p < |w.polls| && !w.polls[p].place.Returned? && (e.TakeShared? || e.TakeOwn?)
    ensures p < |Step(w, e).polls| && !Step(w, e).polls[p].place.Returned?
  {
    hide SettledOk;
  }

  lemma OthersReturnNothing(w: Watch, e: Event, p: nat)
    requires p < |w.polls| && !w.polls[p].place.Returned? && !e.Confirmed?
    ensures p < |Step(w, e).polls| && !Step(w, e).polls[p].place.Returned?
  {
    if e.Checked? || e.Retry? {
      LoopsReturnNothing(w, e, p);
    } else if e.TakeShared? || e.TakeOwn? {
      OutcomesReturnNothing(w, e, p);
    } else {
      hide Outcome, LoopTop;
    }
  }

  // ----- the watch's fields, updated in place -----

  class DaemonStateWatch {
    const windowed: bool
    var sequence: nat
    var closed: bool
    var waiters: set<nat>
    var coalescing: Option<nat>
    var batches: nat
    var snapshotInFlight: Option<nat>
    var projections: seq<Projection>
    var polls: seq<Poll>
    var generation: nat

    ghost function State(): Watch
      reads this
    {
      Watch(windowed, sequence, generation, closed, waiters, coalescing, batches, snapshotInFlight, projections, polls)
    }

    constructor (window: bool, current: nat)
      ensures Inv(State()) && State() == New(window, current)
    {
      windowed, generation, sequence, closed := window, current, 1, false;
      waiters, coalescing, batches, snapshotInFlight := {}, None, 0, None;
      projections, polls := [], [];
    }

    method ReleaseWaiters()
      modifies this`coalescing, this`waiters
      ensures State() == Release(old(State()))
    {
      if coalescing.Some? { coalescing := None; }
      waiters := {};
    }

    method NotifyChange(handoff: bool)
      requires Inv(State())
      modifies this
      ensures Inv(State()) && State() == Step(old(State()), Notify(handoff))
    {
      StepKeepsInv(State(), Notify(handoff));
      sequence := sequence + 1;
      if !windowed || closed || handoff {
        ReleaseWaiters();
        return;
      }
      if coalescing.Some? || (waiters == {} && snapshotInFlight.None?) { return; }
      coalescing := Some(batches);
      batches := batches + 1;
    }

    method CloseWatch()
      requires Inv(State())
      modifies this
      ensures Inv(State()) && State() == Step(old(State()), Close)
    {
      StepKeepsInv(State(), Close);
      closed := true;
      ReleaseWaiters();
    }

    /** A poll up to its first await. */
    method BeginPoll(after: int, afterGeneration: nat, patient: bool, handoff: bool) returns (poll: nat)
      requires Inv(State())
      modifies this
      ensures Inv(State()) && State() == Step(old(State()), Begin(after, afterGeneration, patient, handoff))
      ensures poll == |old(polls)|
    {
      StepKeepsInv(State(), Begin(after, afterGeneration, patient, handoff));
      poll := |polls|;
      if !closed && !handoff && afterGeneration == generation && after >= sequence && patient {
        polls := polls + [Poll(after, afterGeneration, patient, false, false, sequence, Asleep)];
        waiters := waiters + {poll};
      } else {
        polls := polls + [Poll(after, afterGeneration, patient, false, false, sequence, Checking)];
      }
    }

    /** The synchronous part of the snapshot loop between its awaits. */
    method DecideProjection(p: nat)
      requires Inv(State()) && At(State(), p, Deciding)
      modifies this
      ensures Inv(State()) && State() == Step(old(State()), Decide(p))
    {
      StepKeepsInv(State(), Decide(p));
      if snapshotInFlight.Some? {
        var current := snapshotInFlight.value;
        if projections[current].generation == generation && projections[current].sequence >= sequence {
          polls := polls[p := polls[p].(place := Sharing(current))];
        } else {
          polls := polls[p := polls[p].(place := Outlasting(current))];
        }
      } else {
        snapshotInFlight := Some(|projections|);
        polls := polls[p := polls[p].(place := Owning(|projections|))];
        projections := projections + [Projection(generation, sequence, None, None)];
      }
    }

    /** The owner resumes: it clears the flight it still holds, then takes the outcome. */
    method FinishOwn(p: nat)
      requires Inv(State()) && Enabled(State(), TakeOwn(p))
      modifies this
      ensures Inv(State()) && State() == Step(old(State()), TakeOwn(p))
    {
      StepKeepsInv(State(), TakeOwn(p));
      var own := polls[p].place.projection;
      if snapshotInFlight == Some(own) { snapshotInFlight := None; }
      polls := polls[p := polls[p].(place := if projections[own].settled == Some(true) then Confirming(own) else Failed)];
    }
  }
}
