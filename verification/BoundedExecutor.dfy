/**
  * The bounded executor: a cap on active and on waiting work, with a deadline that starts when work
  * is submitted. A step is what the program does between two awaits or timers.
  */
module BoundedExecutor {

  datatype Outcome = Value | Failure | TimedOut

  /** A work item waits, occupies a slot while its dependency runs and until the slot is given back,
    * or was removed from the queue by its deadline. */
  datatype Stage = Waiting | Running | Landed | Freed | Removed

  /** `outcomes` lists every call of the consumer's resolve or reject. */
  datatype Work = Work(stage: Stage, consumerSettled: bool, outcomes: seq<Outcome>)

  /** `starts` records the order in which dependencies were started. */
  datatype Executor = Executor(
    maxConcurrent: nat, maxQueued: nat, works: seq<Work>, active: nat, queue: seq<nat>, starts: seq<nat>)

  datatype Event = Submit | DependencyEnds(work: nat, ok: bool) | SlotFreed(work: nat) | Deadline(work: nat)

  function New(maxConcurrent: nat, maxQueued: nat): Executor { Executor(maxConcurrent, maxQueued, [], 0, [], []) }

  // ----- steps -----

  predicate AtCapacity(x: Executor) { x.active >= x.maxConcurrent && |x.queue| >= x.maxQueued }

  predicate Listed(x: Executor) { forall i :: 0 <= i < |x.queue| ==> x.queue[i] < |x.works| }

  function SetWork(x: Executor, w: nat, work: Work): Executor
    requires w < |x.works|
  {
    x.(works := x.works[w := work])
  }

  function Settle(work: Work, outcome: Outcome): Work {
    if work.consumerSettled then work else work.(consumerSettled := true, outcomes := work.outcomes + [outcome])
  }

  /** Takes the head of the queue and, unless its consumer has gone, starts it. */
  function Shifted(x: Executor): Executor
    requires Listed(x) && x.queue != []
  {
    var w := x.queue[0];
    var rest := x.(queue := x.queue[1..]);
    if x.works[w].consumerSettled then rest
    else SetWork(rest, w, x.works[w].(stage := Running)).(active := x.active + 1, starts := x.starts + [w])
  }

  function Drained(x: Executor): Executor
    requires Listed(x)
    decreases |x.queue|
  {
    if x.active < x.maxConcurrent && x.queue != [] then Drained(Shifted(x)) else x
  }

  function Without(queue: seq<nat>, w: nat): seq<nat> {
    if queue == [] then [] else if queue[0] == w then queue[1..] else [queue[0]] + Without(queue[1..], w)
  }

  predicate Enabled(x: Executor, e: Event) {
    match e
    case Submit => !AtCapacity(x)
    case DependencyEnds(w, _) => w < |x.works| && x.works[w].stage == Running
    case SlotFreed(w) => w < |x.works| && x.works[w].stage == Landed
    case Deadline(w) => w < |x.works| && !x.works[w].consumerSettled
  }

  function Submitted(x: Executor): Executor {
    x.(works := x.works + [Work(Waiting, false, [])], queue := x.queue + [|x.works|])
  }

  function GivenBack(x: Executor, w: nat): Executor
    requires w < |x.works|
  {
    SetWork(x, w, x.works[w].(stage := Freed, consumerSettled := true)).(active := if x.active > 0 then x.active - 1 else 0)
  }

  function Step(x: Executor, e: Event): Executor
    requires Listed(x)
  {
    if !Enabled(x, e) then x
    else match e
      case Submit => Drained(Submitted(x))
      case DependencyEnds(w, ok) =>
        SetWork(x, w, Settle(x.works[w], if ok then Value else Failure).(stage := Landed))
      case SlotFreed(w) => Drained(GivenBack(x, w))
      case Deadline(w) =>
        var late := Settle(x.works[w], TimedOut);
        if x.works[w].stage == Waiting
        then SetWork(x, w, late.(stage := Removed)).(queue := Without(x.queue, w))
        else SetWork(x, w, late)
  }

  // ----- the invariant -----

  predicate Occupies(x: Executor, w: nat) { w < |x.works| && x.works[w].stage in {Running, Landed} }

  ghost function Occupied(x: Executor): set<nat> { set w | 0 <= w < |x.works| && Occupies(x, w) }

  predicate Rising(s: seq<nat>) { forall i, j :: 0 <= i < j < |s| ==> s[i] < s[j] }

  ghost predicate WorkAt(x: Executor, w: nat)
    requires w < |x.works|
  {
    var work := x.works[w];
    && |work.outcomes| == (if work.consumerSettled then 1 else 0)
    && (work.stage == Waiting <==> w in x.queue)
    && (work.stage == Waiting ==> !work.consumerSettled)
    && (work.stage in {Running, Landed, Freed} <==> w in x.starts)
    && (work.stage in {Landed, Freed} ==> work.consumerSettled)
    && (work.stage == Removed ==> work.outcomes == [TimedOut])
  }

  /** Everything but the queue's bound and the absence of idle slots. */
  ghost predicate Base(x: Executor) {
    && Listed(x)
    && (forall w {:trigger WorkAt(x, w)} :: 0 <= w < |x.works| ==> WorkAt(x, w))
    && x.active == |Occupied(x)| && x.active <= x.maxConcurrent
    && Rising(x.queue) && Rising(x.starts)
    && (forall i, j :: 0 <= i < |x.starts| && 0 <= j < |x.queue| ==> x.starts[i] < x.queue[j])
    && (forall i :: 0 <= i < |x.starts| ==> x.starts[i] < |x.works|)
  }

  /** The bounds hold, and no slot is idle while work waits. */
  ghost predicate Inv(x: Executor) {
    Base(x) && |x.queue| <= x.maxQueued && (x.active < x.maxConcurrent ==> x.queue == [])
  }

  // ----- draining -----

  lemma ShiftedKeepsBase(x: Executor)
    requires Base(x) && x.active < x.maxConcurrent && x.queue != []
    ensures var next := Shifted(x);
            && Base(next)
            && next.active == x.active + 1 && next.queue == x.queue[1..] && next.starts == x.starts + [x.queue[0]]
            && next.maxConcurrent == x.maxConcurrent && next.maxQueued == x.maxQueued
            && |next.works| == |x.works|
  {
    var next, head := Shifted(x), x.queue[0];
    assert WorkAt(x, head);
    assert !Occupies(x, head);
    assert Occupied(next) == Occupied(x) + {head};
    forall w | 0 <= w < |next.works|
      ensures WorkAt(next, w)
    {
      assert WorkAt(x, w);
      assert w in x.queue <==> w == head || w in next.queue;
    }
  }

  function Room(x: Executor): nat {
    var slots: int := x.maxConcurrent - x.active;
    if slots < 0 then 0 else if |x.queue| < slots then |x.queue| else slots
  }

  lemma SplitAfterHead(queue: seq<nat>, k: nat)
    requires 1 <= k <= |queue|
    ensures queue[..k] == [queue[0]] + queue[1..][..k - 1] && queue[k..] == queue[1..][k - 1..]
  {
  }

  /** Draining starts exactly as many of the oldest queued items as there are free slots. */
  lemma {:induction false} DrainStartsOldest(x: Executor)
    requires Base(x)
    ensures var next := Drained(x); var k := Room(x);
            && Base(next)
            && next.active == x.active + k && next.queue == x.queue[k..] && next.starts == x.starts + x.queue[..k]
            && next.maxConcurrent == x.maxConcurrent && next.maxQueued == x.maxQueued
            && |next.works| == |x.works|
    decreases |x.queue|
  {
    if x.active < x.maxConcurrent && x.queue != [] {
      ShiftedKeepsBase(x);
      hide Base;
      DrainStartsOldest(Shifted(x));
      SplitAfterHead(x.queue, Room(x));
    } else {
      assert Room(x) == 0;
    }
  }

  // ----- every step -----

  lemma SubmittedKeepsBase(x: Executor)
    requires Base(x)
    ensures Base(Submitted(x))
  {
    var next := Submitted(x);
    assert Occupied(next) == Occupied(x);
    forall w | 0 <= w < |next.works|
      ensures WorkAt(next, w)
    {
      if w < |x.works| { assert WorkAt(x, w); }
      assert w in next.queue <==> w in x.queue || w == |x.works|;
    }
  }

  lemma GivenBackKeepsBase(x: Executor, w: nat)
    requires Base(x) && Enabled(x, SlotFreed(w))
    ensures Base(GivenBack(x, w)) && GivenBack(x, w).active == x.active - 1
  {
    var next := GivenBack(x, w);
    assert Occupies(x, w) && w in Occupied(x);
    assert Occupied(next) == Occupied(x) - {w};
    forall v | 0 <= v < |next.works|
      ensures WorkAt(next, v)
    {
      assert WorkAt(x, v);
    }
  }

  lemma {:induction false} WithoutMembers(queue: seq<nat>, w: nat, v: nat)
    requires Rising(queue)
    ensures v in Without(queue, w) <==> v in queue && v != w
  {
    if queue != [] {
      assert v in queue <==> v == queue[0] || v in queue[1..];
      WithoutMembers(queue[1..], w, v);
    }
  }

  lemma {:induction false} WithoutAt(queue: seq<nat>, w: nat, index: nat)
    requires index < |queue| && queue[index] == w
    requires forall i :: 0 <= i < index ==> queue[i] != w
    ensures Without(queue, w) == queue[..index] + queue[index + 1..]
  {
    if index > 0 {
      WithoutAt(queue[1..], w, index - 1);
      SplitAfterHead(queue, index);
      assert queue[1..][index..] == queue[index + 1..];
    }
  }

  lemma {:induction false} WithoutIsShorter(queue: seq<nat>, w: nat)
    requires Rising(queue)
    ensures Rising(Without(queue, w)) && |Without(queue, w)| <= |queue|
  {
    if queue != [] {
      WithoutIsShorter(queue[1..], w);
      var rest := Without(queue[1..], w);
      forall j | 0 <= j < |rest|
        ensures queue[0] < rest[j]
      {
        WithoutMembers(queue[1..], w, rest[j]);
      }
    }
  }

  lemma DeadlineKeepsBase(x: Executor, w: nat)
    requires Base(x) && Enabled(x, Deadline(w))
    ensures Base(Step(x, Deadline(w))) && |Step(x, Deadline(w)).queue| <= |x.queue|
    ensures Step(x, Deadline(w)).active == x.active
    ensures x.queue == [] ==> Step(x, Deadline(w)).queue == []
  {
    var next := Step(x, Deadline(w));
    WithoutIsShorter(x.queue, w);
    assert WorkAt(x, w);
    assert Occupied(next) == Occupied(x);
    forall v | 0 <= v < |next.works|
      ensures WorkAt(next, v)
    {
      assert WorkAt(x, v);
      WithoutMembers(x.queue, w, v);
    }
    forall j | 0 <= j < |next.queue|
      ensures next.queue[j] in x.queue
    {
      WithoutMembers(x.queue, w, next.queue[j]);
    }
  }

  lemma DependencyEndsKeepsBase(x: Executor, w: nat, ok: bool)
    requires Base(x) && Enabled(x, DependencyEnds(w, ok))
    ensures Base(Step(x, DependencyEnds(w, ok)))
  {
    var next := Step(x, DependencyEnds(w, ok));
    assert Occupies(x, w);
    assert Occupied(next) == Occupied(x);
    forall v | 0 <= v < |next.works|
      ensures WorkAt(next, v)
    {
      assert WorkAt(x, v);
    }
  }

  lemma StepKeepsInv(x: Executor, e: Event)
    requires Inv(x)
    ensures Inv(Step(x, e))
    ensures Step(x, e).maxConcurrent == x.maxConcurrent && Step(x, e).maxQueued == x.maxQueued
  {
    if Enabled(x, e) {
      match e {
        case Submit =>
          SubmittedKeepsBase(x);
          DrainStartsOldest(Submitted(x));
        case DependencyEnds(w, ok) => DependencyEndsKeepsBase(x, w, ok);
        case SlotFreed(w) =>
          GivenBackKeepsBase(x, w);
          DrainStartsOldest(GivenBack(x, w));
        case Deadline(w) => DeadlineKeepsBase(x, w);
      }
    }
  }

  /** Runs stop at nothing: `Step` ignores events that cannot happen. */
  ghost function Run(x: Executor, events: seq<Event>): (next: Executor)
    requires Inv(x)
    ensures Inv(next) && next.maxConcurrent == x.maxConcurrent && next.maxQueued == x.maxQueued
    decreases |events|
  {
    if events == [] then x
    else
      var before := Run(x, events[..|events| - 1]);
      StepKeepsInv(before, events[|events| - 1]);
      Step(before, events[|events| - 1])
  }

  // ----- what a caller may rely on -----

  /** Over every run: never more than `maxConcurrent` slots in use nor `maxQueued` items waiting, no
    * idle slot beside waiting work, and every slot in use belongs to a started item whose dependency
    * has not given it back. */
  lemma {:induction false} AlwaysBounded(maxConcurrent: nat, maxQueued: nat, events: seq<Event>)
    ensures Inv(New(maxConcurrent, maxQueued))
    ensures var x := Run(New(maxConcurrent, maxQueued), events);
            && x.active == |Occupied(x)| <= maxConcurrent && |x.queue| <= maxQueued
            && (x.queue != [] ==> x.active == maxConcurrent)
  {
    assert Occupied(New(maxConcurrent, maxQueued)) == {};
  }

  /** One accepted step never undoes a start, never reorders, and answers a consumer at most once. */
  ghost predicate Later(x: Executor, next: Executor) {
    && x.starts <= next.starts && |x.works| <= |next.works|
    && (forall w :: 0 <= w < |x.works| ==>
          && x.works[w].outcomes <= next.works[w].outcomes
          && (x.works[w].consumerSettled ==> next.works[w].consumerSettled && next.works[w].outcomes == x.works[w].outcomes)
          && (x.works[w].stage == Removed ==> next.works[w].stage == Removed))
  }

  lemma {:induction false} DrainedIsLater(x: Executor)
    requires Base(x)
    ensures Later(x, Drained(x))
    ensures forall w :: 0 <= w < |x.works| ==>
              && Drained(x).works[w] == x.works[w].(stage := Drained(x).works[w].stage)
              && (w !in x.queue ==> Drained(x).works[w] == x.works[w])
    decreases |x.queue|
  {
    if x.active < x.maxConcurrent && x.queue != [] {
      ShiftedKeepsBase(x);
      assert WorkAt(x, x.queue[0]);
      DrainedIsLater(Shifted(x));
      DrainStartsOldest(x);
      forall w | 0 <= w < |x.works|
        ensures w !in x.queue ==> w !in x.queue[1..]
        ensures x.works[w].stage == Removed ==> w !in x.queue
      {
        assert WorkAt(x, w);
      }
    }
  }

  lemma StepIsLater(x: Executor, e: Event)
    requires Inv(x)
    ensures Later(x, Step(x, e))
  {
    if Enabled(x, e) {
      match e {
        case Submit =>
          SubmittedKeepsBase(x);
          DrainedIsLater(Submitted(x));
        case SlotFreed(w) =>
          assert WorkAt(x, w);
          GivenBackKeepsBase(x, w);
          DrainedIsLater(GivenBack(x, w));
        case _ =>
      }
    }
  }

  lemma {:induction false} RunIsLater(x: Executor, events: seq<Event>)
    requires Inv(x)
    ensures Later(x, Run(x, events))
    decreases |events|
  {
    if events != [] {
      var before := Run(x, events[..|events| - 1]);
      RunIsLater(x, events[..|events| - 1]);
      StepIsLater(before, events[|events| - 1]);
    }
  }

  lemma StartedBeforeWaiting(x: Executor, v: nat, w: nat)
    requires Inv(x) && v in x.queue && w in x.starts
    ensures w < v
  {
    var i :| 0 <= i < |x.starts| && x.starts[i] == w;
    var j :| 0 <= j < |x.queue| && x.queue[j] == v;
    assert x.starts[i] < x.queue[j];
  }

  /** Work starts in submission order: everything submitted before a started item was started too,
    * unless its own deadline removed it. A consumer is answered exactly once when it is settled and
    * never otherwise. */
  lemma {:induction false} StartsInOrder(maxConcurrent: nat, maxQueued: nat, events: seq<Event>, v: nat, w: nat)
    requires Inv(New(maxConcurrent, maxQueued))
    requires var x := Run(New(maxConcurrent, maxQueued), events); v < w < |x.works| && w in x.starts
    ensures var x := Run(New(maxConcurrent, maxQueued), events);
            && (v in x.starts || (x.works[v].outcomes == [TimedOut] && x.works[v].stage == Removed))
            && |x.works[w].outcomes| == (if x.works[w].consumerSettled then 1 else 0)
  {
    hide Run;
    var x := Run(New(maxConcurrent, maxQueued), events);
    assert WorkAt(x, v) && WorkAt(x, w);
    if v in x.queue { StartedBeforeWaiting(x, v, w); }
  }

  /** Work whose deadline passed in the queue is never started afterwards. */
  lemma {:induction false} TimedOutNeverStarts(x: Executor, events: seq<Event>, w: nat)
    requires Inv(x) && w < |x.works| && x.works[w].stage == Removed
    ensures w !in Run(x, events).starts
    ensures w < |Run(x, events).works| && Run(x, events).works[w].outcomes == [TimedOut]
  {
    RunIsLater(x, events);
    assert WorkAt(x, w) && WorkAt(Run(x, events), w);
  }

  /** A consumer gets what its dependency gave: the value of one that fulfilled, the failure of one that
    * did not. If it was answered before, the end of its dependency tells it nothing. */
  lemma DependencyAnswers(x: Executor, w: nat, ok: bool)
    requires Inv(x) && Enabled(x, DependencyEnds(w, ok))
    ensures var next := Step(x, DependencyEnds(w, ok));
            && next.works[w].consumerSettled
            && next.works[w].outcomes == (if x.works[w].consumerSettled then x.works[w].outcomes else if ok then [Value] else [Failure])
            && forall v :: 0 <= v < |x.works| && v != w ==> next.works[v] == x.works[v]
  {
    assert WorkAt(x, w);
  }

  /** A consumer whose deadline comes first is told so, and keeps that answer whatever its dependency
    * gives. */
  lemma DeadlineAnswers(x: Executor, w: nat, events: seq<Event>)
    requires Inv(x) && Enabled(x, Deadline(w))
    ensures Inv(Step(x, Deadline(w)))
    ensures var next := Run(Step(x, Deadline(w)), events);
            w < |next.works| && next.works[w].consumerSettled && next.works[w].outcomes == [TimedOut]
  {
    assert WorkAt(x, w);
    StepKeepsInv(x, Deadline(w));
    RunIsLater(Step(x, Deadline(w)), events);
  }

  /** One step answers at most the consumer it is about. */
  lemma StepAnswers(x: Executor, e: Event, w: nat)
    requires Inv(x) && w < |Step(x, e).works| && Step(x, e).works[w].outcomes != []
    ensures w < |x.works|
    ensures if x.works[w].outcomes != [] then Step(x, e).works[w].outcomes == x.works[w].outcomes
            else Enabled(x, e) && match e
                                  case DependencyEnds(v, ok) => v == w && Step(x, e).works[w].outcomes == (if ok then [Value] else [Failure])
                                  case Deadline(v) => v == w && Step(x, e).works[w].outcomes == [TimedOut]
                                  case _ => false
  {
    if w < |x.works| { assert WorkAt(x, w); }
    if Enabled(x, e) {
      match e {
        case Submit =>
          SubmittedKeepsBase(x);
          DrainStartsOldest(Submitted(x));
          DrainedIsLater(Submitted(x));
        case SlotFreed(v) =>
          GivenBackKeepsBase(x, v);
          DrainStartsOldest(GivenBack(x, v));
          DrainedIsLater(GivenBack(x, v));
        case _ =>
      }
    }
  }

  /** Every answer comes from an event of its own item: over every run a value was handed out as its
    * dependency fulfilled, a failure as it did not, and a time-out as its deadline came first. */
  lemma {:induction false} AnswersComeFromEvents(maxConcurrent: nat, maxQueued: nat, events: seq<Event>, w: nat) returns (n: nat)
    requires Inv(New(maxConcurrent, maxQueued))
    requires var x := Run(New(maxConcurrent, maxQueued), events); w < |x.works| && x.works[w].outcomes != []
    ensures n < |events|
    ensures var x := New(maxConcurrent, maxQueued);
            var before, answer := Run(x, events[..n]), Run(x, events).works[w].outcomes;
            && w < |before.works| && before.works[w].outcomes == [] && Enabled(before, events[n])
            && match events[n]
               case DependencyEnds(v, ok) => v == w && answer == (if ok then [Value] else [Failure])
               case Deadline(v) => v == w && answer == [TimedOut]
               case _ => false
    decreases |events|
  {
    var x, init, last := New(maxConcurrent, maxQueued), events[..|events| - 1], events[|events| - 1];
    var before := Run(x, init);
    StepAnswers(before, last, w);
    if w < |before.works| && before.works[w].outcomes != [] {
      n := AnswersComeFromEvents(maxConcurrent, maxQueued, init, w);
      assert init[..n] == events[..n];
    } else {
      n := |events| - 1;
      assert events[..n] == init;
    }
  }

  /** A slot is given back by the settlement of its dependency and by nothing else, so work whose
    * deadline passed while it ran keeps its slot until then. */
  lemma SlotKeptUntilFreed(x: Executor, e: Event, w: nat)
    requires Inv(x) && Occupies(x, w) && e != SlotFreed(w)
    ensures Occupies(Step(x, e), w)
  {
    assert WorkAt(x, w);
    if Enabled(x, e) {
      match e {
        case Submit =>
          SubmittedKeepsBase(x);
          DrainedIsLater(Submitted(x));
        case SlotFreed(v) =>
          GivenBackKeepsBase(x, v);
          DrainedIsLater(GivenBack(x, v));
        case _ =>
      }
    }
  }

  /** A freed slot goes to the oldest waiting item at once. */
  lemma FreedSlotGoesToOldest(x: Executor, w: nat)
    requires Inv(x) && Enabled(x, SlotFreed(w)) && x.queue != []
    ensures var next := Step(x, SlotFreed(w));
            next.starts == x.starts + [x.queue[0]] && next.queue == x.queue[1..] && next.active == x.active
  {
    GivenBackKeepsBase(x, w);
    DrainStartsOldest(GivenBack(x, w));
  }

  // ----- the closure's variables, updated in place -----

  class BoundedExecutor {
    const maxConcurrent: nat
    const maxQueued: nat
    var active: nat
    var queue: seq<nat>
    var works: seq<Work>
    ghost var starts: seq<nat>

    ghost function State(): Executor
      reads this
    {
      Executor(maxConcurrent, maxQueued, works, active, queue, starts)
    }

    ghost predicate Valid()
      reads this
    {
      Inv(State())
    }

    constructor (concurrent: nat, queued: nat)
      ensures Valid() && State() == New(concurrent, queued)
    {
      maxConcurrent, maxQueued := concurrent, queued;
      active, queue, works, starts := 0, [], [], [];
      new;
      assert Occupied(State()) == {};
    }

    /** The drain loop. */
    method Drain()
      requires Base(State())
      modifies this
      ensures Base(State()) && State() == Drained(old(State()))
    {
      while active < maxConcurrent && queue != []
        invariant Base(State())
        invariant Drained(State()) == Drained(old(State()))
        decreases |queue|
      {
        ShiftedKeepsBase(State());
        var w := queue[0];
        queue := queue[1..];
        if works[w].consumerSettled { continue; }
        works := works[w := works[w].(stage := Running)];
        active := active + 1;
        starts := starts + [w];
      }
    }

    method RunBounded() returns (accepted: bool)
      requires Valid()
      modifies this
      ensures Valid() && State() == Step(old(State()), Submit)
      ensures accepted <==> !AtCapacity(old(State()))
    {
      StepKeepsInv(State(), Submit);
      if active >= maxConcurrent && |queue| >= maxQueued { return false; }
      SubmittedKeepsBase(State());
      queue := queue + [|works|];
      works := works + [Work(Waiting, false, [])];
      Drain();
      return true;
    }

    method DependencySettled(w: nat, ok: bool)
      requires Valid() && Enabled(State(), DependencyEnds(w, ok))
      modifies this
      ensures Valid() && State() == Step(old(State()), DependencyEnds(w, ok))
      ensures works[w].outcomes == if old(works[w]).consumerSettled then old(works[w]).outcomes else if ok then [Value] else [Failure]
    {
      DependencyAnswers(State(), w, ok);
      StepKeepsInv(State(), DependencyEnds(w, ok));
      var work := works[w].(stage := Landed);
      if !work.consumerSettled {
        work := work.(consumerSettled := true, outcomes := work.outcomes + [if ok then Value else Failure]);
      }
      works := works[w := work];
    }

    method GiveSlotBack(w: nat)
      requires Valid() && Enabled(State(), SlotFreed(w))
      modifies this
      ensures Valid() && State() == Step(old(State()), SlotFreed(w))
    {
      StepKeepsInv(State(), SlotFreed(w));
      GivenBackKeepsBase(State(), w);
      works := works[w := works[w].(stage := Freed, consumerSettled := true)];
      active := active - 1;
      Drain();
    }

    /** The deadline timer fires; a settled consumer has already cleared it. */
    method DeadlineReached(w: nat)
      requires Valid() && w < |works|
      modifies this
      ensures Valid() && State() == Step(old(State()), Deadline(w))
    {
      StepKeepsInv(State(), Deadline(w));
      if works[w].consumerSettled { return; }
      assert WorkAt(State(), w);
      var work := works[w].(consumerSettled := true, outcomes := works[w].outcomes + [TimedOut]);
      if work.stage == Waiting {
        Unqueue(w);
        work := work.(stage := Removed);
      }
      works := works[w := work];
    }

    /** Removes the first occurrence of a queued item. */
    method Unqueue(w: nat)
      requires w in queue
      modifies this`queue
      ensures queue == Without(old(queue), w)
    {
      var index := 0;
      while queue[index] != w
        invariant 0 <= index < |queue| && queue == old(queue)
        invariant forall i :: 0 <= i < index ==> queue[i] != w
        invariant exists i :: index <= i < |queue| && queue[i] == w
        decreases |queue| - index
      {
        index := index + 1;
      }
      WithoutAt(queue, w, index);
      queue := queue[..index] + queue[index + 1..];
    }
  }
}
