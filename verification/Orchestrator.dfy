/**
  * The orchestrator's scheduling loop: tasks become ready when their dependencies are done, ready tasks
  * are dispatched together, and the loop waits for one running task at a time.
  * What a dispatch or a wait returns is a parameter, and may differ from round to round.
  */
module Orchestrator {
  import opened Wrappers

  type Id = string

  datatype Status = Pending | Ready | Running | Done | Failed

  datatype Task = Task(id: Id, dependsOn: seq<Id>)

  /** How the loop ended. */
  datatype End = Finished | TaskFailed | Deadlock

  /** A direct result of a dispatch, if any, and the result of a wait. */
  datatype Workers = Workers(direct: (nat, nat) -> Option<bool>, awaited: (nat, nat) -> bool)

  // ----- pure helpers -----

  function Resolve(tasks: seq<Task>, id: Id): (r: Option<nat>)
    ensures r.Some? ==> r.value < |tasks| && tasks[r.value].id == id && forall j :: 0 <= j < r.value ==> tasks[j].id != id
    ensures r.None? ==> forall j :: 0 <= j < |tasks| ==> tasks[j].id != id
  {
    if tasks == [] then None
    else if tasks[0].id == id then Some(0)
    else match Resolve(tasks[1..], id)
      case None => None
      case Some(i) => Some(i + 1)
  }

  predicate DoneAt(tasks: seq<Task>, st: seq<Status>, id: Id)
    requires |st| == |tasks|
  {
    Resolve(tasks, id).Some? && st[Resolve(tasks, id).value] == Done
  }

  predicate DependenciesDone(tasks: seq<Task>, st: seq<Status>, i: nat)
    requires |st| == |tasks| && i < |tasks|
  {
    forall k :: 0 <= k < |tasks[i].dependsOn| ==> DoneAt(tasks, st, tasks[i].dependsOn[k])
  }

  predicate IsComplete(st: seq<Status>) { forall i :: 0 <= i < |st| ==> st[i] in {Done, Failed} }

  predicate HasFailed(st: seq<Status>) { exists i :: 0 <= i < |st| && st[i] == Failed }

  predicate HasReady(st: seq<Status>) { exists i :: 0 <= i < |st| && st[i] == Ready }

  function FirstRunning(st: seq<Status>): (r: Option<nat>)
    ensures r.Some? ==> r.value < |st| && st[r.value] == Running
    ensures r.None? ==> forall i :: 0 <= i < |st| ==> st[i] != Running
  {
    if st == [] then None
    else if st[0] == Running then Some(0)
    else match FirstRunning(st[1..])
      case None => None
      case Some(i) => Some(i + 1)
  }

  // ----- one round -----

  function Updated(tasks: seq<Task>, st: seq<Status>): (r: seq<Status>)
    requires |st| == |tasks|
    ensures |r| == |st|
  {
    seq(|st|, i requires 0 <= i < |st| => if st[i] == Pending && DependenciesDone(tasks, st, i) then Ready else st[i])
  }

  function Verdict(ok: bool): Status { if ok then Done else Failed }

  /** A task whose dispatch returned no direct result keeps running. */
  function AfterDispatch(direct: Option<bool>): (r: Status)
    ensures r in {Running, Done, Failed}
  {
    if direct.Some? then Verdict(direct.value) else Running
  }

  function Dispatched(st: seq<Status>, round: nat, workers: Workers): (r: seq<Status>)
    ensures |r| == |st|
  {
    seq(|st|, i requires 0 <= i < |st| =>
      if st[i] == Ready then AfterDispatch(workers.direct(round, i)) else st[i])
  }

  function Weight(s: Status): nat {
    match s
    case Pending => 2
    case Ready => 2
    case Running => 1
    case _ => 0
  }

  /** What is left to do: a task not yet dispatched counts twice, a running one once. */
  function Work(st: seq<Status>): nat {
    if st == [] then 0 else Weight(st[0]) + Work(st[1..])
  }

  /** No task moved back. */
  lemma {:induction false} WorkNeverGrows(before: seq<Status>, after: seq<Status>)
    requires |before| == |after|
    requires forall i :: 0 <= i < |before| ==> Weight(after[i]) <= Weight(before[i])
    ensures Work(after) <= Work(before)
  {
    if before != [] { WorkNeverGrows(before[1..], after[1..]); }
  }

  /** Task `i` moved forward besides. */
  lemma {:induction false} WorkShrinks(before: seq<Status>, after: seq<Status>, i: nat)
    requires |before| == |after| && i < |before| && Weight(after[i]) < Weight(before[i])
    requires forall j :: 0 <= j < |before| ==> Weight(after[j]) <= Weight(before[j])
    ensures Work(after) < Work(before)
  {
    if i == 0 { WorkNeverGrows(before[1..], after[1..]); } else { WorkShrinks(before[1..], after[1..], i - 1); }
  }

  lemma UpdatedKeepsWork(tasks: seq<Task>, st: seq<Status>)
    requires |st| == |tasks|
    ensures Work(Updated(tasks, st)) <= Work(st)
  {
    WorkNeverGrows(st, Updated(tasks, st));
  }

  lemma DispatchShrinksWork(st: seq<Status>, round: nat, workers: Workers)
    requires HasReady(st)
    ensures Work(Dispatched(st, round, workers)) < Work(st)
  {
    var i :| 0 <= i < |st| && st[i] == Ready;
    var next := Dispatched(st, round, workers);
    assert next[i] == AfterDispatch(workers.direct(round, i));
    WorkShrinks(st, next, i);
  }

  lemma SettlingShrinksWork(st: seq<Status>, i: nat, ok: bool)
    requires i < |st| && st[i] == Running
    ensures Work(st[i := Verdict(ok)]) < Work(st)
  {
    WorkShrinks(st, st[i := Verdict(ok)], i);
  }

  // ----- the loop -----

  datatype Outcome = Outcome(statuses: seq<Status>, end: End, rounds: nat)

  function Loop(tasks: seq<Task>, st: seq<Status>, round: nat, workers: Workers): (r: Outcome)
    requires |st| == |tasks|
    ensures |r.statuses| == |tasks|
    decreases Work(st)
  {
    if IsComplete(st) then Outcome(st, Finished, round)
    else
      UpdatedKeepsWork(tasks, st);
      var up := Updated(tasks, st);
      if HasFailed(up) then Outcome(up, TaskFailed, round + 1)
      else if HasReady(up) then
        DispatchShrinksWork(up, round, workers);
        Loop(tasks, Dispatched(up, round, workers), round + 1, workers)
      else match FirstRunning(up)
        case None => Outcome(up, Deadlock, round + 1)
        case Some(i) =>
          SettlingShrinksWork(up, i, workers.awaited(round, i));
          Loop(tasks, up[i := Verdict(workers.awaited(round, i))], round + 1, workers)
  }

  function AllPending(n: nat): (r: seq<Status>)
    ensures |r| == n
  {
    seq(n, i => Pending)
  }

  function Orchestrated(tasks: seq<Task>, workers: Workers): Outcome {
    Loop(tasks, AllPending(|tasks|), 0, workers)
  }

  // ----- termination -----

  lemma {:induction false} WorkBounded(st: seq<Status>)
    ensures Work(st) <= 2 * |st|
  {
    if st != [] { WorkBounded(st[1..]); }
  }

  lemma {:induction false} RoundsBounded(tasks: seq<Task>, st: seq<Status>, round: nat, workers: Workers)
    requires |st| == |tasks|
    ensures Loop(tasks, st, round, workers).rounds <= round + Work(st) + 1
    decreases Work(st)
  {
    if !IsComplete(st) {
      UpdatedKeepsWork(tasks, st);
      var up := Updated(tasks, st);
      if !HasFailed(up) {
        if HasReady(up) {
          DispatchShrinksWork(up, round, workers);
          RoundsBounded(tasks, Dispatched(up, round, workers), round + 1, workers);
        } else if FirstRunning(up).Some? {
          var i := FirstRunning(up).value;
          SettlingShrinksWork(up, i, workers.awaited(round, i));
          RoundsBounded(tasks, up[i := Verdict(workers.awaited(round, i))], round + 1, workers);
        }
      }
    }
  }

  /** The loop ends within two rounds for each task and one more, whatever the workers answer. */
  lemma EndsInLinearRounds(tasks: seq<Task>, workers: Workers)
    ensures Orchestrated(tasks, workers).rounds <= 2 * |tasks| + 1
  {
    RoundsBounded(tasks, AllPending(|tasks|), 0, workers);
    WorkBounded(AllPending(|tasks|));
  }

  // ----- dependencies come first -----

  predicate Started(s: Status) { s in {Running, Done, Failed} }

  /** Task `i` started in a later round than every dependency, and each of those is done. */
  ghost predicate StartedAfter(tasks: seq<Task>, st: seq<Status>, at: seq<nat>, i: nat)
    requires |st| == |tasks| == |at| && i < |tasks|
  {
    DependenciesDone(tasks, st, i)
    && forall k :: 0 <= k < |tasks[i].dependsOn| ==> at[Resolve(tasks, tasks[i].dependsOn[k]).value] < at[i]
  }

  /** `at` holds the round in which each started task was dispatched. */
  ghost predicate Consistent(tasks: seq<Task>, st: seq<Status>, at: seq<nat>, round: nat) {
    && |st| == |tasks| == |at|
    && (forall i :: 0 <= i < |tasks| && Started(st[i]) ==> StartedAfter(tasks, st, at, i) && at[i] < round)
    && (forall i :: 0 <= i < |tasks| && st[i] == Ready ==> DependenciesDone(tasks, st, i))
  }

  lemma UpdatedConsistent(tasks: seq<Task>, st: seq<Status>, at: seq<nat>, round: nat)
    requires Consistent(tasks, st, at, round)
    ensures Consistent(tasks, Updated(tasks, st), at, round)
  {
    var up := Updated(tasks, st);
    assert forall id :: DoneAt(tasks, st, id) ==> DoneAt(tasks, up, id);
    forall i | 0 <= i < |tasks| && (Started(up[i]) || up[i] == Ready)
      ensures DependenciesDone(tasks, up, i)
      ensures Started(up[i]) ==> StartedAfter(tasks, up, at, i) && at[i] < round
    {
      assert Started(up[i]) ==> StartedAfter(tasks, st, at, i);
      assert DependenciesDone(tasks, st, i);
    }
  }

  /** The rounds of this dispatch, beside the earlier ones. */
  ghost function DispatchRounds(st: seq<Status>, at: seq<nat>, round: nat): (r: seq<nat>)
    requires |at| == |st|
    ensures |r| == |at|
  {
    seq(|at|, i requires 0 <= i < |at| => if st[i] == Ready then round else at[i])
  }

  lemma DispatchedConsistent(tasks: seq<Task>, st: seq<Status>, at: seq<nat>, round: nat, workers: Workers)
    requires Consistent(tasks, st, at, round)
    ensures Consistent(tasks, Dispatched(st, round, workers), DispatchRounds(st, at, round), round + 1)
  {
    var next, rounds := Dispatched(st, round, workers), DispatchRounds(st, at, round);
    forall i | 0 <= i < |tasks| && Started(next[i])
      ensures StartedAfter(tasks, next, rounds, i) && rounds[i] < round + 1
    {
      assert DependenciesDone(tasks, st, i) by { assert Started(st[i]) ==> StartedAfter(tasks, st, at, i); }
      forall k | 0 <= k < |tasks[i].dependsOn|
        ensures DoneAt(tasks, next, tasks[i].dependsOn[k])
        ensures rounds[Resolve(tasks, tasks[i].dependsOn[k]).value] < rounds[i]
      {
        assert DoneAt(tasks, st, tasks[i].dependsOn[k]);
        var d := Resolve(tasks, tasks[i].dependsOn[k]).value;
        assert Started(st[d]);
        assert at[d] < round;
      }
    }
  }

  lemma SettledConsistent(tasks: seq<Task>, st: seq<Status>, at: seq<nat>, round: nat, j: nat, ok: bool)
    requires Consistent(tasks, st, at, round) && j < |st| && st[j] == Running
    ensures Consistent(tasks, st[j := Verdict(ok)], at, round + 1)
  {
    var next := st[j := Verdict(ok)];
    assert forall id :: DoneAt(tasks, st, id) ==> DoneAt(tasks, next, id);
    forall i | 0 <= i < |tasks| && (Started(next[i]) || next[i] == Ready)
      ensures DependenciesDone(tasks, next, i)
      ensures Started(next[i]) ==> StartedAfter(tasks, next, at, i) && at[i] < round + 1
    {
      assert Started(st[i]) ==> StartedAfter(tasks, st, at, i);
      assert DependenciesDone(tasks, st, i);
    }
  }

  lemma {:induction false} LoopConsistent(tasks: seq<Task>, st: seq<Status>, at: seq<nat>, round: nat, workers: Workers)
      returns (finalAt: seq<nat>)
    requires Consistent(tasks, st, at, round)
    ensures var r := Loop(tasks, st, round, workers); Consistent(tasks, r.statuses, finalAt, r.rounds)
    decreases Work(st)
  {
    finalAt := at;
    if !IsComplete(st) {
      UpdatedKeepsWork(tasks, st);
      UpdatedConsistent(tasks, st, at, round);
      var up := Updated(tasks, st);
      if !HasFailed(up) {
        if HasReady(up) {
          DispatchShrinksWork(up, round, workers);
          DispatchedConsistent(tasks, up, at, round, workers);
          finalAt := LoopConsistent(tasks, Dispatched(up, round, workers), DispatchRounds(up, at, round), round + 1, workers);
        } else if FirstRunning(up).Some? {
          var i := FirstRunning(up).value;
          var ok := workers.awaited(round, i);
          SettlingShrinksWork(up, i, ok);
          SettledConsistent(tasks, up, at, round, i, ok);
          finalAt := LoopConsistent(tasks, up[i := Verdict(ok)], at, round + 1, workers);
        }
      }
    }
  }

  /** Rounds in which the started tasks may have been dispatched, all their dependencies before them. */
  lemma StartedTasksAreRanked(tasks: seq<Task>, workers: Workers) returns (at: seq<nat>)
    ensures var r := Orchestrated(tasks, workers); Consistent(tasks, r.statuses, at, r.rounds)
  {
    at := LoopConsistent(tasks, AllPending(|tasks|), seq(|tasks|, i => 0), 0, workers);
  }

  // ----- the moment a task starts -----

  /** The statuses after one round, if the loop goes on. */
  function Advanced(tasks: seq<Task>, st: seq<Status>, round: nat, workers: Workers): (r: Option<seq<Status>>)
    requires |st| == |tasks|
    ensures r.Some? ==> |r.value| == |tasks|
  {
    if IsComplete(st) then None
    else
      var up := Updated(tasks, st);
      if HasFailed(up) then None
      else if HasReady(up) then Some(Dispatched(up, round, workers))
      else match FirstRunning(up)
        case None => None
        case Some(i) => Some(up[i := Verdict(workers.awaited(round, i))])
  }

  /** The statuses the loop sees before round `n`, if it gets that far. */
  function StatusesBefore(tasks: seq<Task>, workers: Workers, n: nat): (r: Option<seq<Status>>)
    ensures r.Some? ==> |r.value| == |tasks|
  {
    if n == 0 then Some(AllPending(|tasks|))
    else match StatusesBefore(tasks, workers, n - 1)
      case None => None
      case Some(st) => Advanced(tasks, st, n - 1, workers)
  }

  lemma LoopAdvances(tasks: seq<Task>, st: seq<Status>, round: nat, workers: Workers)
    requires |st| == |tasks| && Advanced(tasks, st, round, workers).Some?
    ensures var next := Advanced(tasks, st, round, workers).value;
            Work(next) < Work(st) && Loop(tasks, st, round, workers) == Loop(tasks, next, round + 1, workers)
  {
    UpdatedKeepsWork(tasks, st);
    var up := Updated(tasks, st);
    if HasReady(up) {
      DispatchShrinksWork(up, round, workers);
    } else {
      var i := FirstRunning(up).value;
      SettlingShrinksWork(up, i, workers.awaited(round, i));
    }
  }

  /** The rounds are those of the loop: from any of them it goes on to the outcome of the whole plan. */
  lemma {:induction false} RoundsAreTheLoops(tasks: seq<Task>, workers: Workers, n: nat)
    requires StatusesBefore(tasks, workers, n).Some?
    ensures Loop(tasks, StatusesBefore(tasks, workers, n).value, n, workers) == Orchestrated(tasks, workers)
  {
    hide Loop, Advanced;
    if n > 0 {
      RoundsAreTheLoops(tasks, workers, n - 1);
      LoopAdvances(tasks, StatusesBefore(tasks, workers, n - 1).value, n - 1, workers);
    }
  }

  /** No task is left ready after a round. */
  lemma RoundLeavesNothingReady(tasks: seq<Task>, st: seq<Status>, round: nat, workers: Workers)
    requires |st| == |tasks| && Advanced(tasks, st, round, workers).Some?
    ensures !HasReady(Advanced(tasks, st, round, workers).value)
  {
    var up, next := Updated(tasks, st), Advanced(tasks, st, round, workers).value;
    forall j | 0 <= j < |next|
      ensures next[j] != Ready
    {
      if HasReady(up) {
        assert next[j] == if up[j] == Ready then AfterDispatch(workers.direct(round, j)) else up[j];
      } else {
        assert up[j] != Ready;
      }
    }
  }

  lemma NothingLeftReady(tasks: seq<Task>, workers: Workers, n: nat)
    requires StatusesBefore(tasks, workers, n).Some?
    ensures !HasReady(StatusesBefore(tasks, workers, n).value)
  {
    if n > 0 { RoundLeavesNothingReady(tasks, StatusesBefore(tasks, workers, n - 1).value, n - 1, workers); }
  }

  /** Task `i` starts in round `n`. */
  predicate StartsIn(tasks: seq<Task>, workers: Workers, n: nat, i: nat) {
    && i < |tasks| && StatusesBefore(tasks, workers, n).Some? && StatusesBefore(tasks, workers, n + 1).Some?
    && !Started(StatusesBefore(tasks, workers, n).value[i]) && Started(StatusesBefore(tasks, workers, n + 1).value[i])
  }

  lemma PromotedOnlyWhenDone(tasks: seq<Task>, st: seq<Status>, i: nat)
    requires |st| == |tasks| && i < |tasks| && st[i] != Ready
    ensures Updated(tasks, st)[i] == st[i] || (Updated(tasks, st)[i] == Ready && DependenciesDone(tasks, st, i))
  {
  }

  /** Whatever the workers answer, a task starts only in a round before which all its dependencies are done. */
  lemma StartsOnlyAfterDependencies(tasks: seq<Task>, workers: Workers, n: nat, i: nat)
    requires StartsIn(tasks, workers, n, i)
    ensures DependenciesDone(tasks, StatusesBefore(tasks, workers, n).value, i)
  {
    var st := StatusesBefore(tasks, workers, n).value;
    NothingLeftReady(tasks, workers, n);
    PromotedOnlyWhenDone(tasks, st, i);
  }

  lemma {:induction false} StartedInSomeRound(tasks: seq<Task>, workers: Workers, n: nat, i: nat) returns (m: nat)
    requires StatusesBefore(tasks, workers, n).Some? && i < |tasks| && Started(StatusesBefore(tasks, workers, n).value[i])
    ensures m < n && StartsIn(tasks, workers, m, i)
  {
    if Started(StatusesBefore(tasks, workers, n - 1).value[i]) {
      m := StartedInSomeRound(tasks, workers, n - 1, i);
    } else {
      m := n - 1;
    }
  }

  lemma {:induction false} LastRound(tasks: seq<Task>, workers: Workers, n: nat) returns (last: nat)
    requires StatusesBefore(tasks, workers, n).Some?
    ensures StatusesBefore(tasks, workers, last).Some?
    ensures forall i :: 0 <= i < |tasks| ==>
              && (Started(Orchestrated(tasks, workers).statuses[i]) <==> Started(StatusesBefore(tasks, workers, last).value[i]))
              && (Started(Orchestrated(tasks, workers).statuses[i]) ==>
                    Orchestrated(tasks, workers).statuses[i] == StatusesBefore(tasks, workers, last).value[i])
    decreases Work(StatusesBefore(tasks, workers, n).value)
  {
    var st := StatusesBefore(tasks, workers, n).value;
    RoundsAreTheLoops(tasks, workers, n);
    if Advanced(tasks, st, n, workers).Some? {
      LoopAdvances(tasks, st, n, workers);
      last := LastRound(tasks, workers, n + 1);
    } else {
      last := n;
    }
  }

  /** Every task that is running, done or failed in the end started in some round, and so after its
    * dependencies were done. */
  lemma EveryStartHasItsRound(tasks: seq<Task>, workers: Workers, i: nat) returns (n: nat)
    requires i < |tasks| && Started(Orchestrated(tasks, workers).statuses[i])
    ensures StartsIn(tasks, workers, n, i) && DependenciesDone(tasks, StatusesBefore(tasks, workers, n).value, i)
  {
    var last := LastRound(tasks, workers, 0);
    n := StartedInSomeRound(tasks, workers, last, i);
    StartsOnlyAfterDependencies(tasks, workers, n, i);
  }

  // ----- how a plan ends -----

  lemma {:induction false} LoopEnds(tasks: seq<Task>, st: seq<Status>, round: nat, workers: Workers)
    requires |st| == |tasks|
    ensures var r := Loop(tasks, st, round, workers);
            && (r.end == Finished <==> IsComplete(r.statuses))
            && (r.end == TaskFailed <==> HasFailed(r.statuses) && !IsComplete(r.statuses))
            && (r.end == Deadlock ==> forall i :: 0 <= i < |tasks| ==> r.statuses[i] in {Pending, Done})
    decreases Work(st)
  {
    if !IsComplete(st) {
      UpdatedKeepsWork(tasks, st);
      var up := Updated(tasks, st);
      assert forall j :: 0 <= j < |st| ==> up[j] == st[j] || (st[j] == Pending && up[j] == Ready);
      if !HasFailed(up) {
        if HasReady(up) {
          DispatchShrinksWork(up, round, workers);
          LoopEnds(tasks, Dispatched(up, round, workers), round + 1, workers);
        } else if FirstRunning(up).Some? {
          var i := FirstRunning(up).value;
          SettlingShrinksWork(up, i, workers.awaited(round, i));
          LoopEnds(tasks, up[i := Verdict(workers.awaited(round, i))], round + 1, workers);
        }
      }
    }
  }

  /** What the end of a plan says about its tasks: it finished exactly when every task is done or
    * failed, it stopped for a failure exactly when one failed while another was left, and it is
    * deadlocked exactly when none failed and one is left; then nothing runs and nothing may start. */
  lemma EndTellsStatuses(tasks: seq<Task>, workers: Workers)
    ensures var r := Orchestrated(tasks, workers);
            && (r.end == Finished <==> IsComplete(r.statuses))
            && (r.end == TaskFailed <==> HasFailed(r.statuses) && !IsComplete(r.statuses))
            && (r.end == Deadlock <==> !HasFailed(r.statuses) && !IsComplete(r.statuses))
            && (r.end == Deadlock ==> forall i :: 0 <= i < |tasks| ==> r.statuses[i] in {Pending, Done})
  {
    LoopEnds(tasks, AllPending(|tasks|), 0, workers);
  }

  /** The answer of the worker that ran task `i` in round `n`. */
  ghost predicate Answers(tasks: seq<Task>, workers: Workers, n: nat, i: nat, ok: bool) {
    && StatusesBefore(tasks, workers, n).Some? && i < |tasks|
    && var up := Updated(tasks, StatusesBefore(tasks, workers, n).value);
       if HasReady(up) then up[i] == Ready && workers.direct(n, i) == Some(ok)
       else FirstRunning(up) == Some(i) && workers.awaited(n, i) == ok
  }

  lemma VerdictOfRound(tasks: seq<Task>, workers: Workers, n: nat, i: nat)
    requires StatusesBefore(tasks, workers, n).Some? && StatusesBefore(tasks, workers, n + 1).Some? && i < |tasks|
    requires StatusesBefore(tasks, workers, n).value[i] !in {Done, Failed}
    requires StatusesBefore(tasks, workers, n + 1).value[i] in {Done, Failed}
    ensures Answers(tasks, workers, n, i, StatusesBefore(tasks, workers, n + 1).value[i] == Done)
  {
    var st := StatusesBefore(tasks, workers, n).value;
    assert Advanced(tasks, st, n, workers) == StatusesBefore(tasks, workers, n + 1);
    hide StatusesBefore;
    assert Updated(tasks, st)[i] == st[i] || Updated(tasks, st)[i] == Ready;
  }

  lemma VerdictStays(tasks: seq<Task>, workers: Workers, n: nat, i: nat)
    requires StatusesBefore(tasks, workers, n).Some? && StatusesBefore(tasks, workers, n + 1).Some? && i < |tasks|
    requires StatusesBefore(tasks, workers, n).value[i] in {Done, Failed}
    ensures StatusesBefore(tasks, workers, n + 1).value[i] == StatusesBefore(tasks, workers, n).value[i]
  {
    var st := StatusesBefore(tasks, workers, n).value;
    assert Advanced(tasks, st, n, workers) == StatusesBefore(tasks, workers, n + 1);
    hide StatusesBefore;
    assert Updated(tasks, st)[i] == st[i];
  }

  lemma {:induction false} VerdictHasItsRound(tasks: seq<Task>, workers: Workers, n: nat, i: nat) returns (m: nat)
    requires StatusesBefore(tasks, workers, n).Some? && i < |tasks| && StatusesBefore(tasks, workers, n).value[i] in {Done, Failed}
    ensures m < n && Answers(tasks, workers, m, i, StatusesBefore(tasks, workers, n).value[i] == Done)
  {
    hide Advanced, Answers;
    if StatusesBefore(tasks, workers, n - 1).value[i] in {Done, Failed} {
      VerdictStays(tasks, workers, n - 1, i);
      m := VerdictHasItsRound(tasks, workers, n - 1, i);
    } else {
      VerdictOfRound(tasks, workers, n - 1, i);
      m := n - 1;
    }
  }

  /** Every final verdict is its own worker's: a task is done because its worker answered so in some
    * round, and failed because its worker answered that. */
  lemma VerdictsAreTheWorkers(tasks: seq<Task>, workers: Workers, i: nat) returns (n: nat)
    requires i < |tasks| && Orchestrated(tasks, workers).statuses[i] in {Done, Failed}
    ensures Answers(tasks, workers, n, i, Orchestrated(tasks, workers).statuses[i] == Done)
  {
    var last := LastRound(tasks, workers, 0);
    n := VerdictHasItsRound(tasks, workers, last, i);
  }

  /** A worker that answers with a failure ends the plan without finishing it, unless nothing else was
    * left to do. */
  lemma FailureStopsThePlan(tasks: seq<Task>, workers: Workers, n: nat, i: nat)
    requires Answers(tasks, workers, n, i, false) && !IsComplete(StatusesBefore(tasks, workers, n).value)
    requires !HasFailed(StatusesBefore(tasks, workers, n).value)
    ensures var r := Orchestrated(tasks, workers);
            && r.statuses[i] == Failed && r.rounds <= n + 2
            && r.end == if IsComplete(r.statuses) then Finished else TaskFailed
  {
    var st := StatusesBefore(tasks, workers, n).value;
    RoundsAreTheLoops(tasks, workers, n);
    var up := Updated(tasks, st);
    assert forall j :: 0 <= j < |st| ==> up[j] == st[j] || up[j] == Ready;
    LoopAdvances(tasks, st, n, workers);
    var next := Advanced(tasks, st, n, workers).value;
    assert next[i] == Failed;
    assert Updated(tasks, next)[i] == Failed;
    EndTellsStatuses(tasks, workers);
  }

  // ----- deadlock -----

  /** Every dependency names a task of lower rank: resolvable and acyclic. */
  ghost predicate Ranks(tasks: seq<Task>, rank: seq<nat>) {
    && |rank| == |tasks|
    && forall i, k :: 0 <= i < |tasks| && 0 <= k < |tasks[i].dependsOn| ==>
         var d := Resolve(tasks, tasks[i].dependsOn[k]); d.Some? && rank[d.value] < rank[i]
  }

  ghost predicate Schedulable(tasks: seq<Task>) { exists rank: seq<nat> :: Ranks(tasks, rank) }

  ghost predicate NoFailures(workers: Workers) {
    && (forall round, i :: workers.direct(round, i) != Some(false))
    && (forall round, i :: workers.awaited(round, i))
  }

  /** With nothing running or failed, a pending task leads down its dependencies to one that may start. */
  lemma {:induction false} SomeTaskMayStart(tasks: seq<Task>, st: seq<Status>, rank: seq<nat>, i: nat)
    requires |st| == |tasks| && Ranks(tasks, rank) && i < |tasks| && st[i] in {Pending, Ready}
    requires forall j :: 0 <= j < |st| ==> st[j] in {Pending, Ready, Done}
    ensures HasReady(Updated(tasks, st))
    decreases rank[i]
  {
    if st[i] == Ready || DependenciesDone(tasks, st, i) {
      assert Updated(tasks, st)[i] == Ready;
    } else {
      var k :| 0 <= k < |tasks[i].dependsOn| && !DoneAt(tasks, st, tasks[i].dependsOn[k]);
      SomeTaskMayStart(tasks, st, rank, Resolve(tasks, tasks[i].dependsOn[k]).value);
    }
  }

  /** A schedulable plan never deadlocks. */
  lemma NoDeadlockRound(tasks: seq<Task>, st: seq<Status>, rank: seq<nat>)
    requires |st| == |tasks| && Ranks(tasks, rank) && !IsComplete(st)
    requires !HasFailed(Updated(tasks, st)) && FirstRunning(Updated(tasks, st)).None?
    ensures HasReady(Updated(tasks, st))
  {
    var up := Updated(tasks, st);
    forall j | 0 <= j < |st|
      ensures st[j] in {Pending, Ready, Done}
    {
      assert up[j] == st[j] || up[j] == Ready;
    }
    var i :| 0 <= i < |st| && st[i] !in {Done, Failed};
    SomeTaskMayStart(tasks, st, rank, i);
  }

  lemma {:induction false} SchedulableLoopFinishes(tasks: seq<Task>, st: seq<Status>, round: nat, workers: Workers, rank: seq<nat>)
    requires |st| == |tasks| && Ranks(tasks, rank) && NoFailures(workers) && !HasFailed(st)
    ensures var r := Loop(tasks, st, round, workers);
            r.end == Finished && forall i :: 0 <= i < |tasks| ==> r.statuses[i] == Done
    decreases Work(st)
  {
    if !IsComplete(st) {
      UpdatedKeepsWork(tasks, st);
      var up := Updated(tasks, st);
      assert forall j :: 0 <= j < |st| ==> up[j] == st[j] || up[j] == Ready;
      if FirstRunning(up).None? { NoDeadlockRound(tasks, st, rank); }
      if HasReady(up) {
        DispatchShrinksWork(up, round, workers);
        assert forall j :: 0 <= j < |st| ==> Dispatched(up, round, workers)[j] != Failed;
        SchedulableLoopFinishes(tasks, Dispatched(up, round, workers), round + 1, workers, rank);
      } else {
        var i := FirstRunning(up).value;
        SettlingShrinksWork(up, i, workers.awaited(round, i));
        SchedulableLoopFinishes(tasks, up[i := Done], round + 1, workers, rank);
      }
    }
  }

  lemma {:induction false} FailureFreeNeverFails(tasks: seq<Task>, st: seq<Status>, round: nat, workers: Workers)
    requires |st| == |tasks| && NoFailures(workers) && !HasFailed(st)
    ensures var r := Loop(tasks, st, round, workers);
            !HasFailed(r.statuses) && r.end != TaskFailed && (r.end == Finished ==> IsComplete(r.statuses))
    decreases Work(st)
  {
    if !IsComplete(st) {
      UpdatedKeepsWork(tasks, st);
      var up := Updated(tasks, st);
      assert forall j :: 0 <= j < |st| ==> up[j] == st[j] || up[j] == Ready;
      if HasReady(up) {
        DispatchShrinksWork(up, round, workers);
        assert forall j :: 0 <= j < |st| ==> Dispatched(up, round, workers)[j] != Failed;
        FailureFreeNeverFails(tasks, Dispatched(up, round, workers), round + 1, workers);
      } else if FirstRunning(up).Some? {
        var i := FirstRunning(up).value;
        SettlingShrinksWork(up, i, workers.awaited(round, i));
        FailureFreeNeverFails(tasks, up[i := Done], round + 1, workers);
      }
    }
  }

  /** When no worker fails, the loop finishes with every task done exactly when the plan's dependencies
    * are resolvable and acyclic; otherwise it reports a deadlock. A dependency means the first task
    * that carries its id, so duplicate ids need no assumption. */
  lemma FinishesExactlyWhenSchedulable(tasks: seq<Task>, workers: Workers)
    requires NoFailures(workers)
    ensures var r := Orchestrated(tasks, workers);
            && (Schedulable(tasks) <==> forall i :: 0 <= i < |tasks| ==> r.statuses[i] == Done)
            && r.end == (if Schedulable(tasks) then Finished else Deadlock)
  {
    var r := Orchestrated(tasks, workers);
    FailureFreeNeverFails(tasks, AllPending(|tasks|), 0, workers);
    if rank: seq<nat> :| Ranks(tasks, rank) {
      SchedulableLoopFinishes(tasks, AllPending(|tasks|), 0, workers, rank);
    }
    if forall i :: 0 <= i < |tasks| ==> r.statuses[i] == Done {
      var at := StartedTasksAreRanked(tasks, workers);
      forall i, k | 0 <= i < |tasks| && 0 <= k < |tasks[i].dependsOn|
        ensures var d := Resolve(tasks, tasks[i].dependsOn[k]); d.Some? && at[d.value] < at[i]
      {
        assert StartedAfter(tasks, r.statuses, at, i);
        assert DoneAt(tasks, r.statuses, tasks[i].dependsOn[k]);
      }
      assert Ranks(tasks, at);
    }
  }

  // ----- the plan's statuses, updated in place -----

  class Plan {
    const tasks: seq<Task>
    const status: array<Status>

    ghost predicate Valid() { status.Length == |tasks| }

    constructor (loaded: seq<Task>)
      ensures Valid() && tasks == loaded && fresh(status) && status[..] == AllPending(|loaded|)
    {
      tasks := loaded;
      status := new Status[|loaded|](i => Pending);
    }

    /** Promotes pending tasks one by one. Earlier promotions never unlock later ones, so the pass
      * computes the same as a simultaneous update. */
    method UpdateTaskStatuses()
      requires Valid()
      modifies status
      ensures status[..] == Updated(tasks, old(status[..]))
    {
      for i := 0 to |tasks|
        invariant forall j :: 0 <= j < i ==> status[j] == Updated(tasks, old(status[..]))[j]
        invariant forall j :: i <= j < |tasks| ==> status[j] == old(status[j])
      {
        if status[i] != Pending { continue; }
        SameDone(tasks, old(status[..]), status[..], i);
        if DependenciesDone(tasks, status[..], i) { status[i] := Ready; }
      }
    }

    /** Starts every ready task, and applies the results that come back at once. */
    method DispatchReady(round: nat, workers: Workers)
      requires Valid()
      modifies status
      ensures status[..] == Dispatched(old(status[..]), round, workers)
    {
      for i := 0 to |tasks|
        invariant forall j :: 0 <= j < i ==> status[j] == Dispatched(old(status[..]), round, workers)[j]
        invariant forall j :: i <= j < |tasks| ==> status[j] == old(status[j])
      {
        if status[i] == Ready {
          status[i] := Running;
          var result := workers.direct(round, i);
          if result.Some? { status[i] := Verdict(result.value); }
        }
      }
    }

    /** The main loop. */
    method RunPlan(workers: Workers) returns (end: End, rounds: nat)
      requires Valid()
      modifies status
      ensures Outcome(status[..], end, rounds) == Loop(tasks, old(status[..]), 0, workers)
    {
      rounds := 0;
      while !IsComplete(status[..])
        invariant Loop(tasks, status[..], rounds, workers) == Loop(tasks, old(status[..]), 0, workers)
        decreases Work(status[..])
      {
        UpdatedKeepsWork(tasks, status[..]);
        UpdateTaskStatuses();
        if HasFailed(status[..]) { return TaskFailed, rounds + 1; }
        if !HasReady(status[..]) {
          var running := FirstRunning(status[..]);
          if running.None? { return Deadlock, rounds + 1; }
          SettlingShrinksWork(status[..], running.value, workers.awaited(rounds, running.value));
          ghost var waiting := status[..];
          status[running.value] := Verdict(workers.awaited(rounds, running.value));
          assert status[..] == waiting[running.value := Verdict(workers.awaited(rounds, running.value))];
        } else {
          DispatchShrinksWork(status[..], rounds, workers);
          DispatchReady(rounds, workers);
        }
        rounds := rounds + 1;
      }
      end := Finished;
    }
  }

  /** Promotions do not touch the done tasks. */
  lemma SameDone(tasks: seq<Task>, before: seq<Status>, now: seq<Status>, i: nat)
    requires |before| == |now| == |tasks| && i < |tasks|
    requires forall j :: 0 <= j < |tasks| ==> (now[j] == Done <==> before[j] == Done)
    ensures DependenciesDone(tasks, now, i) <==> DependenciesDone(tasks, before, i)
  {
    assert forall id :: DoneAt(tasks, now, id) <==> DoneAt(tasks, before, id);
  }
}
