/**
  * The trailing single flight: concurrent requests share the pass in flight or one trailing pass.
  * A step is what the program does between two awaits: a request, the end of a pass with the loop
  * test that follows, and the drain's completion callback.
  */
module SingleFlight {

  /** `Finishing` is the window between the end of the drain and its completion callback. */
  datatype Drain = Idle | Passing(generation: nat) | Finishing

  datatype Settlement = Settlement(request: nat, pass: nat, coalesced: bool, failed: bool)

  /** `settled` and `passes` record every outcome handed out and every pass started. */
  datatype Flight = Flight(
    requested: nat, completed: nat, drain: Drain, waiters: seq<nat>, settled: seq<Settlement>, passes: seq<nat>)

  datatype Event = Request | PassEnd(failed: bool) | Completion

  const Start := Flight(0, 0, Idle, [], [], [])

  // ----- settling -----

  /** The waiters a pass of this generation does not reach, in order. */
  function Above(waiters: seq<nat>, generation: nat): seq<nat> {
    if waiters == [] then []
    else
      var last := waiters[|waiters| - 1];
      Above(waiters[..|waiters| - 1], generation) + if last > generation then [last] else []
  }

  function Outcome(request: nat, generation: nat, failed: bool): Settlement {
    Settlement(request, generation, request < generation, failed)
  }

  /** The outcomes of the waiters it does reach, newest first. */
  function Outcomes(waiters: seq<nat>, generation: nat, failed: bool): seq<Settlement> {
    if waiters == [] then []
    else
      var last := waiters[|waiters| - 1];
      (if last > generation then [] else [Outcome(last, generation, failed)])
      + Outcomes(waiters[..|waiters| - 1], generation, failed)
  }

  /** One turn of the backward walk, beside the waiters kept and the outcomes handed out before it. */
  lemma SettleOneMore(waiters: seq<nat>, index: nat, generation: nat, failed: bool, kept: seq<nat>, given: seq<Settlement>)
    requires index < |waiters|
    ensures var w := waiters[index];
            && Above(waiters[..index + 1], generation) + kept
               == Above(waiters[..index], generation) + (if w > generation then [w] + kept else kept)
            && given + Outcomes(waiters[..index + 1], generation, failed)
               == (if w > generation then given else given + [Outcome(w, generation, failed)]) + Outcomes(waiters[..index], generation, failed)
  {
    assert waiters[..index + 1][..index] == waiters[..index];
  }

  // ----- steps -----

  function Passed(f: Flight): Flight {
    if f.completed < f.requested
    then f.(drain := Passing(f.requested), passes := f.passes + [f.requested])
    else f.(drain := Finishing)
  }

  function Step(f: Flight, e: Event): Flight {
    match e
    case Request =>
      var asked := f.(requested := f.requested + 1, waiters := f.waiters + [f.requested + 1]);
      if f.drain.Idle? then Passed(asked) else asked
    case PassEnd(failed) =>
      if f.drain.Passing? then
        var g := f.drain.generation;
        Passed(f.(completed := g, waiters := Above(f.waiters, g), settled := f.settled + Outcomes(f.waiters, g, failed)))
      else f
    case Completion =>
      if !f.drain.Finishing? then f
      else if f.completed < f.requested then Passed(f)
      else f.(drain := Idle)
  }

  function Run(f: Flight, events: seq<Event>): Flight
    decreases |events|
  {
    if events == [] then f else Step(Run(f, events[..|events| - 1]), events[|events| - 1])
  }

  // ----- the invariant -----

  /** The generation reached by the last pass that ended. */
  function LastEnded(f: Flight): nat {
    var n := if f.drain.Passing? then |f.passes| - 1 else |f.passes|;
    if n <= 0 then 0 else f.passes[n - 1]
  }

  /** Settled by the first pass that started after the request was made. */
  ghost predicate FirstPassAfter(f: Flight, s: Settlement, k: nat)
  {
    k < |f.passes| && s.pass == f.passes[k] && s.request <= f.passes[k] && (k > 0 ==> f.passes[k - 1] < s.request)
  }

  ghost predicate SettledAt(f: Flight, i: nat)
    requires i < |f.settled|
  {
    && 1 <= f.settled[i].request <= f.completed
    && f.settled[i].coalesced == (f.settled[i].request < f.settled[i].pass)
    && exists k: nat :: FirstPassAfter(f, f.settled[i], k)
  }

  ghost predicate Answered(f: Flight, request: nat) {
    exists i :: 0 <= i < |f.settled| && f.settled[i].request == request
  }

  ghost predicate Increasing(passes: seq<nat>) {
    forall i, j :: 0 <= i < j < |passes| ==> passes[i] < passes[j]
  }

  ghost predicate Inv(f: Flight) {
    && f.completed <= f.requested
    && |f.waiters| == f.requested - f.completed
    && (forall i :: 0 <= i < |f.waiters| ==> f.waiters[i] == f.completed + 1 + i)
    && (forall r: nat {:trigger Answered(f, r)} :: 1 <= r <= f.completed ==> Answered(f, r))
    && (forall i {:trigger SettledAt(f, i)} :: 0 <= i < |f.settled| ==> SettledAt(f, i))
    && (forall i, j :: 0 <= i < j < |f.settled| ==> f.settled[i].request != f.settled[j].request)
    && Increasing(f.passes)
    && (forall k :: 0 <= k < |f.passes| ==> 0 < f.passes[k] <= f.requested)
    && f.completed == LastEnded(f)
    && (f.drain.Passing? ==> f.passes != [] && f.passes[|f.passes| - 1] == f.drain.generation)
    && (f.drain.Idle? ==> f.completed == f.requested)
  }

  // ----- settling the consecutive waiters -----

  lemma {:induction false} SettleConsecutive(waiters: seq<nat>, first: nat, generation: nat, failed: bool)
    requires forall i :: 0 <= i < |waiters| ==> waiters[i] == first + 1 + i
    requires first <= generation <= first + |waiters|
    ensures Above(waiters, generation) == waiters[generation - first..]
    ensures var outcomes := Outcomes(waiters, generation, failed);
            && |outcomes| == generation - first
            && forall i :: 0 <= i < |outcomes| ==>
                 outcomes[i] == Settlement(generation - i, generation, generation - i < generation, failed)
  {
    if waiters != [] {
      var init, last := waiters[..|waiters| - 1], waiters[|waiters| - 1];
      if last > generation {
        SettleConsecutive(init, first, generation, failed);
        assert init[generation - first..] + [last] == waiters[generation - first..];
      } else {
        SettleAll(waiters, first, generation, failed);
      }
    }
  }

  lemma {:induction false} SettleAll(waiters: seq<nat>, first: nat, generation: nat, failed: bool)
    requires forall i :: 0 <= i < |waiters| ==> waiters[i] == first + 1 + i
    requires first + |waiters| <= generation
    ensures Above(waiters, generation) == []
    ensures var outcomes := Outcomes(waiters, generation, failed);
            && |outcomes| == |waiters|
            && forall i :: 0 <= i < |outcomes| ==> outcomes[i] == Outcome(first + |waiters| - i, generation, failed)
  {
    if waiters != [] { SettleAll(waiters[..|waiters| - 1], first, generation, failed); }
  }

  // ----- every reachable state -----

  lemma PassEndSettles(f: Flight, failed: bool)
    requires Inv(f) && f.drain.Passing?
    ensures var next := Step(f, PassEnd(failed));
            && (forall i {:trigger SettledAt(next, i)} :: 0 <= i < |next.settled| ==> SettledAt(next, i))
            && (forall i :: 0 <= i < |f.settled| ==> next.settled[i] == f.settled[i] && f.settled[i].request <= f.completed)
  {
    var next := Step(f, PassEnd(failed));
    SettleConsecutive(f.waiters, f.completed, f.drain.generation, failed);
    forall i | 0 <= i < |next.settled|
      ensures SettledAt(next, i)
      ensures i < |f.settled| ==> next.settled[i] == f.settled[i] && f.settled[i].request <= f.completed
    {
      if i < |f.settled| {
        assert SettledAt(f, i);
        var k: nat :| FirstPassAfter(f, f.settled[i], k);
        assert FirstPassAfter(next, next.settled[i], k);
      } else {
        assert FirstPassAfter(next, next.settled[i], |f.passes| - 1);
      }
    }
  }

  lemma PassEndAnswers(f: Flight, failed: bool, r: nat)
    requires Inv(f) && f.drain.Passing? && 1 <= r <= f.drain.generation
    ensures Answered(Step(f, PassEnd(failed)), r)
  {
    var g := f.drain.generation;
    var next := Step(f, PassEnd(failed));
    SettleConsecutive(f.waiters, f.completed, g, failed);
    if r <= f.completed {
      assert Answered(f, r);
      var i :| 0 <= i < |f.settled| && f.settled[i].request == r;
      assert next.settled[i] == f.settled[i];
    } else {
      assert next.settled[|f.settled| + g - r].request == r;
    }
  }

  lemma PassEndKeepsInv(f: Flight, failed: bool)
    requires Inv(f) && f.drain.Passing?
    ensures Inv(Step(f, PassEnd(failed)))
  {
    var next := Step(f, PassEnd(failed));
    PassEndSettles(f, failed);
    forall r: nat | 1 <= r <= next.completed ensures Answered(next, r) { PassEndAnswers(f, failed, r); }
    SettleConsecutive(f.waiters, f.completed, f.drain.generation, failed);
    hide SettledAt, Answered;
  }

  lemma SettledStays(f: Flight, next: Flight)
    requires Inv(f) && next.settled == f.settled && next.completed == f.completed && f.passes <= next.passes
    ensures forall i {:trigger SettledAt(next, i)} :: 0 <= i < |next.settled| ==> SettledAt(next, i)
    ensures forall r: nat {:trigger Answered(next, r)} :: 1 <= r <= next.completed ==> Answered(next, r)
  {
    forall i | 0 <= i < |next.settled|
      ensures SettledAt(next, i)
    {
      assert SettledAt(f, i);
      var k: nat :| FirstPassAfter(f, f.settled[i], k);
      assert FirstPassAfter(next, next.settled[i], k);
    }
    forall r: nat | 1 <= r <= next.completed
      ensures Answered(next, r)
    {
      assert Answered(f, r);
    }
  }

  lemma StepKeepsInv(f: Flight, e: Event)
    requires Inv(f)
    ensures Inv(Step(f, e))
  {
    if e.PassEnd? && f.drain.Passing? {
      PassEndKeepsInv(f, e.failed);
    } else {
      SettledStays(f, Step(f, e));
      hide SettledAt, Answered;
    }
  }

  lemma {:induction false} RunKeepsInv(f: Flight, events: seq<Event>)
    requires Inv(f)
    ensures Inv(Run(f, events))
    decreases |events|
  {
    if events != [] {
      RunKeepsInv(f, events[..|events| - 1]);
      StepKeepsInv(Run(f, events[..|events| - 1]), events[|events| - 1]);
    }
  }

  // ----- what a requester may rely on -----

  ghost predicate SettledOnceBy(f: Flight, request: nat, i: nat) {
    && i < |f.settled| && f.settled[i].request == request
    && forall j :: 0 <= j < |f.settled| && f.settled[j].request == request ==> j == i
  }

  /** Over every run no request is lost and none is answered twice: a request still waits exactly
    * while no pass that started after it has ended; otherwise it was answered exactly once, by the
    * first such pass, with `coalesced` telling whether a later request shared it. */
  lemma {:induction false} EveryRequestSettlesOnce(events: seq<Event>, request: nat)
    requires 1 <= request <= Run(Start, events).requested
    ensures var f := Run(Start, events);
            if request > f.completed
            then request in f.waiters && forall i :: 0 <= i < |f.settled| ==> f.settled[i].request != request
            else request !in f.waiters
                 && exists i: nat, k: nat :: SettledOnceBy(f, request, i) && FirstPassAfter(f, f.settled[i], k)
                                   && f.settled[i].coalesced == (request < f.passes[k])
  {
    RunKeepsInv(Start, events);
    var f := Run(Start, events);
    hide Run;
    if request > f.completed {
      assert f.waiters[request - f.completed - 1] == request;
      forall i | 0 <= i < |f.settled| ensures f.settled[i].request != request { assert SettledAt(f, i); }
    } else {
      assert Answered(f, request);
      var i :| 0 <= i < |f.settled| && f.settled[i].request == request;
      assert SettledAt(f, i);
      var k: nat :| FirstPassAfter(f, f.settled[i], k);
      assert SettledOnceBy(f, request, i);
    }
  }

  /** The `n`-th event ends the pass, as a failure or not. */
  ghost predicate Ends(events: seq<Event>, n: nat, pass: nat, failed: bool) {
    n < |events| && events[n] == PassEnd(failed) && Run(Start, events[..n]).drain == Passing(pass)
  }

  lemma PassEndAnswersAlike(f: Flight, failed: bool, i: nat)
    requires Inv(f) && f.drain.Passing? && |f.settled| <= i < |Step(f, PassEnd(failed)).settled|
    ensures var s := Step(f, PassEnd(failed)).settled[i];
            s.pass == f.drain.generation && s.failed == failed && f.completed < s.request <= s.pass
  {
    SettleConsecutive(f.waiters, f.completed, f.drain.generation, failed);
  }

  /** A pass answers waiters alone, all of them as it ended. */
  lemma PassAnswersItsWaiters(f: Flight, failed: bool)
    requires Inv(f) && f.drain.Passing?
    ensures forall s :: s in Outcomes(f.waiters, f.drain.generation, failed) ==>
              s.request in f.waiters && s.pass == f.drain.generation && s.failed == failed
  {
    SettleConsecutive(f.waiters, f.completed, f.drain.generation, failed);
    forall s | s in Outcomes(f.waiters, f.drain.generation, failed)
      ensures s.request in f.waiters && s.pass == f.drain.generation && s.failed == failed
    {
      assert f.waiters[s.request - f.completed - 1] == s.request;
    }
  }

  lemma {:induction false} SettledByAnEnd(events: seq<Event>, i: nat) returns (n: nat)
    requires i < |Run(Start, events).settled|
    ensures var s := Run(Start, events).settled[i]; Ends(events, n, s.pass, s.failed)
    decreases |events|
  {
    var init, last := events[..|events| - 1], events[|events| - 1];
    var before := Run(Start, init);
    RunKeepsInv(Start, init);
    hide Inv;
    if i < |before.settled| {
      n := SettledByAnEnd(init, i);
      assert events[..|init|][..n] == events[..n];
    } else {
      PassEndAnswersAlike(before, last.failed, i);
      n := |events| - 1;
    }
  }

  lemma CompletedGrows(f: Flight, e: Event)
    requires Inv(f)
    ensures f.completed <= Step(f, e).completed
    ensures e.PassEnd? && f.drain.Passing? ==> Step(f, e).completed == f.drain.generation
    ensures f.drain.Passing? ==> f.completed < f.drain.generation
  {
  }

  lemma EndsInPrefix(events: seq<Event>, k: nat, n: nat, pass: nat, failed: bool)
    requires Ends(events, n, pass, failed) && n < k <= |events|
    ensures Ends(events[..k], n, pass, failed)
  {
    assert events[..k][..n] == events[..n];
  }

  /** A pass that ended has been completed ever since, so no later pass is the same one. */
  lemma {:induction false} EndedIsCompleted(events: seq<Event>, n: nat, pass: nat, failed: bool)
    requires Ends(events, n, pass, failed)
    ensures pass <= Run(Start, events).completed
    decreases |events|
  {
    var init, last := events[..|events| - 1], events[|events| - 1];
    assert Run(Start, events) == Step(Run(Start, init), last);
    RunKeepsInv(Start, init);
    CompletedGrows(Run(Start, init), last);
    hide Inv, Step, Run;
    if n < |init| {
      EndsInPrefix(events, |init|, n, pass, failed);
      hide Ends;
      EndedIsCompleted(init, n, pass, failed);
    } else {
      assert events[..n] == init;
    }
  }

  lemma EndsOnlyOnce(events: seq<Event>, n: nat, m: nat, pass: nat, failed: bool, other: bool)
    requires Ends(events, n, pass, failed) && Ends(events, m, pass, other)
    ensures n == m && failed == other
  {
    if n != m {
      var first, second := if n < m then n else m, if n < m then m else n;
      EndsInPrefix(events, second, first, pass, if n < m then failed else other);
      EndedIsCompleted(events[..second], first, pass, if n < m then failed else other);
      RunKeepsInv(Start, events[..second]);
      CompletedGrows(Run(Start, events[..second]), events[second]);
    }
  }

  /** Over every run a request is answered as the pass that answers it ended: with an error if and only
    * if that pass failed. */
  lemma {:induction false} AnsweredAsItsPassEnded(events: seq<Event>, i: nat) returns (n: nat)
    requires i < |Run(Start, events).settled|
    ensures var s := Run(Start, events).settled[i];
            Ends(events, n, s.pass, s.failed) && forall m, failed :: Ends(events, m, s.pass, failed) ==> failed == s.failed
  {
    n := SettledByAnEnd(events, i);
    var s := Run(Start, events).settled[i];
    forall m, failed | Ends(events, m, s.pass, failed)
      ensures failed == s.failed
    {
      EndsOnlyOnce(events, n, m, s.pass, s.failed, failed);
    }
  }

  lemma NothingPending(f: Flight)
    requires Inv(f) && f.drain.Idle?
    ensures f.waiters == [] && f.completed == f.requested
  {
  }

  /** Nothing is pending when no drain is active, not even for a moment after the completion callback. */
  lemma {:induction false} IdleMeansDone(events: seq<Event>)
    requires Run(Start, events).drain.Idle?
    ensures Run(Start, events).waiters == [] && Run(Start, events).completed == Run(Start, events).requested
  {
    hide Run;
    RunKeepsInv(Start, events);
    NothingPending(Run(Start, events));
  }

  /** Requests made between the same two pass starts are answered by the same pass. */
  lemma {:induction false} ArrivalsShareOnePass(events: seq<Event>, i: nat, j: nat)
    requires var f := Run(Start, events);
             && i < |f.settled| && j < |f.settled|
             && forall k :: 0 <= k < |f.passes| ==> (f.passes[k] < f.settled[i].request <==> f.passes[k] < f.settled[j].request)
    ensures var f := Run(Start, events); f.settled[i].pass == f.settled[j].pass
  {
    RunKeepsInv(Start, events);
    var f := Run(Start, events);
    hide Run;
    assert SettledAt(f, i) && SettledAt(f, j);
    var k: nat :| FirstPassAfter(f, f.settled[i], k);
    var l: nat :| FirstPassAfter(f, f.settled[j], l);
    assert k == l;
  }

  /** How many more passes must end before this request is answered. */
  function PassesAway(f: Flight, request: nat): nat {
    if request <= f.completed then 0
    else if f.drain.Passing? && request <= f.drain.generation then 1
    else 2
  }

  /** The passes that end during a run. */
  function Endings(f: Flight, events: seq<Event>): nat
    decreases |events|
  {
    if events == [] then 0
    else
      Endings(f, events[..|events| - 1])
      + if events[|events| - 1].PassEnd? && Run(f, events[..|events| - 1]).drain.Passing? then 1 else 0
  }

  lemma {:induction false} EndingsBringCloser(f: Flight, events: seq<Event>, request: nat)
    requires Inv(f) && request <= f.requested
    ensures PassesAway(Run(f, events), request) + Endings(f, events) <= PassesAway(f, request)
            || PassesAway(Run(f, events), request) == 0
    ensures request <= Run(f, events).requested
    decreases |events|
  {
    if events != [] {
      var before, last := Run(f, events[..|events| - 1]), events[|events| - 1];
      EndingsBringCloser(f, events[..|events| - 1], request);
      RunKeepsInv(f, events[..|events| - 1]);
      StepKeepsInv(before, last);
    }
  }

  /** No wakeup is lost: whatever else happens, the second pass to end after a request answers it. */
  lemma AnsweredWithinTwoPasses(f: Flight, events: seq<Event>, request: nat)
    requires Inv(f) && request <= f.requested && Endings(f, events) >= 2
    ensures request <= Run(f, events).completed
  {
    EndingsBringCloser(f, events, request);
  }

  // ----- the closure's variables, updated in place -----

  class TrailingSingleFlight {
    var requestedGeneration: nat
    var completedGeneration: nat
    var drain: Drain
    var waiters: seq<nat>
    ghost var settled: seq<Settlement>
    ghost var passes: seq<nat>

    ghost function State(): Flight
      reads this
    {
      Flight(requestedGeneration, completedGeneration, drain, waiters, settled, passes)
    }

    ghost predicate Valid()
      reads this
    {
      Inv(State())
    }

    constructor ()
      ensures Valid() && State() == Start
    {
      requestedGeneration, completedGeneration := 0, 0;
      drain, waiters := Idle, [];
      settled, passes := [], [];
    }

    /** The drain loop's test: another pass begins, or the drain returns. */
    method NextPass()
      modifies this`drain, this`passes
      ensures State() == Passed(old(State()))
    {
      if completedGeneration < requestedGeneration {
        drain := Passing(requestedGeneration);
        passes := passes + [requestedGeneration];
      } else {
        drain := Finishing;
      }
    }

    method AskForPass() returns (generation: nat)
      requires Valid()
      modifies this
      ensures Valid() && State() == Step(old(State()), Request)
      ensures generation == requestedGeneration && generation in waiters
    {
      StepKeepsInv(State(), Request);
      requestedGeneration := requestedGeneration + 1;
      generation := requestedGeneration;
      waiters := waiters + [generation];
      if drain.Idle? { NextPass(); }
      assert waiters[|waiters| - 1] == generation;
    }

    /** Walks the waiters backwards, splicing out and answering those the pass reached. */
    method SettleThrough(generation: nat, failed: bool) returns (outcomes: seq<Settlement>)
      modifies this`waiters, this`settled
      ensures waiters == Above(old(waiters), generation)
      ensures outcomes == Outcomes(old(waiters), generation, failed)
      ensures settled == old(settled) + outcomes
    {
      outcomes := [];
      ghost var all := waiters;
      var index := |waiters|;
      assert all[..index] == all;
      assert Above([], generation) == [] && Outcomes([], generation, failed) == [];
      hide Above, Outcomes;
      while index > 0
        invariant 0 <= index <= |all| && index <= |waiters| && settled == old(settled)
        invariant forall i :: 0 <= i < index ==> waiters[i] == all[i]
        invariant Above(all, generation) == Above(all[..index], generation) + waiters[index..]
        invariant Outcomes(all, generation, failed) == outcomes + Outcomes(all[..index], generation, failed)
      {
        index := index - 1;
        ghost var kept := waiters[index + 1..];
        SettleOneMore(all, index, generation, failed, kept, outcomes);
        var waiter := waiters[index];
        if waiter <= generation {
          waiters := waiters[..index] + waiters[index + 1..];
          assert waiters[index..] == kept;
          outcomes := outcomes + [Outcome(waiter, generation, failed)];
        } else {
          assert waiters[index..] == [waiter] + kept;
        }
      }
      assert waiters[0..] == waiters && all[..0] == [];
      settled := settled + outcomes;
    }

    method PassEnded(failed: bool) returns (outcomes: seq<Settlement>)
      requires Valid() && drain.Passing?
      modifies this
      ensures Valid() && State() == Step(old(State()), PassEnd(failed))
      ensures settled == old(settled) + outcomes
      ensures forall s :: s in outcomes ==> s.request in old(waiters) && s.pass == old(drain).generation && s.failed == failed
    {
      StepKeepsInv(State(), PassEnd(failed));
      PassAnswersItsWaiters(State(), failed);
      hide Inv, Outcomes, Above, Step;
      var generation := drain.generation;
      completedGeneration := generation;
      outcomes := SettleThrough(generation, failed);
      NextPass();
    }

    /** The completion callback of the drain. */
    method DrainCompleted()
      requires Valid() && drain.Finishing?
      modifies this
      ensures Valid() && State() == Step(old(State()), Completion)
    {
      StepKeepsInv(State(), Completion);
      drain := Idle;
      if completedGeneration < requestedGeneration { NextPass(); }
    }
  }
}
