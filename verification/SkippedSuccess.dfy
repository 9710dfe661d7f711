/** An execution in which the documented rule for success applies to a run that ends canceled. */
module SkippedSuccess {
  import opened Wrappers
  import opened RunState
  import opened RunSteps
  import opened RunOutcomes

  const FIRST := Task("a", {}, None, 60)
  const SECOND := Task("b", {"a"}, None, 60)
  const PLAN := [FIRST, SECOND]
  const A := NodeKey(1, "a")
  const B := NodeKey(1, "b")

  /** The first node succeeds, then a cancel is requested, and the second node is skipped. */
  const STORY: seq<Action> := [
    Enqueue(1, 0), Pick(1), Prepare(PLAN), CheckCancel, Visit(Some(LOCAL)), Visit(Some(LOCAL)), EndScan,
    PickLocal(A), FinishLocal(A, Success), Observe("a"), Cancel(1),
    CheckCancel, Visit(Some(LOCAL)), Visit(Some(LOCAL)), EndScan, Finalize]

  function JobAt(n: nat): Status {
    if n < 3 then Queued else if n < 11 then Running else if n < 16 then CancelRequested else Canceled
  }

  function FirstAt(n: nat): NodeRow {
    if n < 5 then NodeRow(Pending, None)
    else NodeRow(if n < 8 then Queued else if n < 9 then Running else Success, Some(LOCAL))
  }

  function PhaseAt(n: nat): Phase {
    match n
    case 3 => Checking
    case 4 => Scanning(0, {})
    case 5 => Scanning(1, {"a"})
    case 6 => Scanning(2, {"a"})
    case 7 => Waiting
    case 8 => Waiting
    case 9 => Waiting
    case 10 => Checking
    case 11 => Checking
    case 12 => Scanning(0, {})
    case 13 => Scanning(1, {})
    case 14 => Scanning(2, {})
    case _ => Finalizing
  }

  function ResultsAt(n: nat): map<string, Status> {
    if n < 10 then map[] else if n < 14 then map["a" := Success] else map["a" := Success, "b" := Skipped]
  }

  function SchedAt(n: nat): Scheduler {
    if n < 2 || n == 16 then Idle
    else if n == 2 then Picked(1)
    else Executing(1, ResultsAt(n), if 7 <= n < 10 then {"a"} else {}, false, n >= 12, PhaseAt(n))
  }

  /** The state after `n` steps. */
  ghost function Told(n: nat): State {
    State(if n == 0 then map[] else map[1 := JobRow(JobAt(n), 0)],
          if n < 3 then map[] else map[A := FirstAt(n), B := NodeRow(if n < 14 then Pending else Skipped, None)],
          map[LOCAL := AgentRow("local", {}, true)], SchedAt(n), if n == 8 then {A} else {},
          if n < 3 then map[] else map[1 := PLAN], map[], if n < 2 then [] else [1], if n < 12 then {} else {1})
  }

  lemma TwoNames()
    ensures Ordered(PLAN) && Names(PLAN) == {"a", "b"} && StorableCount(PLAN) == 2
  {
    IdsNext(PLAN, 0);
    IdsNext(PLAN, 1);
    assert Ids(PLAN, 0) == {};
    assert PLAN[1..] == [SECOND] && PLAN[1..][1..] == [];
  }

  lemma TwoRows()
    ensures StartRun(Told(2), PLAN) == Told(3)
  {
    TwoNames();
    hide Names;
    assert StartRun(Told(2), PLAN).nodes == Told(3).nodes;
  }

  lemma Step0()
    ensures Step(Told(0), STORY[0], Told(1))
  {}

  lemma Step1()
    ensures Step(Told(1), STORY[1], Told(2))
  {}

  lemma Step2()
    ensures Step(Told(2), STORY[2], Told(3))
  {
    TwoNames();
    TwoRows();
    hide Ordered, Names, StorableCount, StartRun;
  }

  lemma Step3()
    ensures Step(Told(3), STORY[3], Told(4))
  {}

  lemma Step4()
    ensures Step(Told(4), STORY[4], Told(5))
  {
    assert Told(5).nodes == Told(4).nodes[A := NodeRow(Queued, Some(LOCAL))];
    assert Told(4).sched.phase.queued + {"a"} == {"a"};
  }

  lemma Step5()
    ensures Step(Told(5), STORY[5], Told(6))
  {}

  lemma Step6()
    ensures Step(Told(6), STORY[6], Told(7))
  {
    assert Told(6).sched.running + {"a"} == {"a"};
  }

  lemma Step7()
    ensures Step(Told(7), STORY[7], Told(8))
  {}

  lemma Step8()
    ensures Step(Told(8), STORY[8], Told(9))
  {}

  lemma Step9()
    ensures Step(Told(9), STORY[9], Told(10))
  {
    assert {"a"} - {"a"} == {};
    assert ResultsAt(10) == ResultsAt(9)["a" := Success];
  }

  lemma Step10()
    ensures Step(Told(10), STORY[10], Told(11))
  {}

  lemma Step11()
    ensures Step(Told(11), STORY[11], Told(12))
  {}

  lemma Step12()
    ensures Step(Told(12), STORY[12], Told(13))
  {}

  lemma Step13()
    ensures Step(Told(13), STORY[13], Told(14))
  {
    assert ResultsAt(14) == ResultsAt(13)["b" := Skipped];
  }

  lemma Step14()
    ensures Step(Told(14), STORY[14], Told(15))
  {}

  lemma Step15()
    ensures Step(Told(15), STORY[15], Told(16))
  {
    assert FinalStatus(ResultsAt(15), true) == Canceled;
  }

  lemma ToldStep(n: nat)
    requires n < 16
    ensures Step(Told(n), STORY[n], Told(n + 1))
  {
    hide *;
    match n
    case 0 => Step0();
    case 1 => Step1();
    case 2 => Step2();
    case 3 => Step3();
    case 4 => Step4();
    case 5 => Step5();
    case 6 => Step6();
    case 7 => Step7();
    case 8 => Step8();
    case 9 => Step9();
    case 10 => Step10();
    case 11 => Step11();
    case 12 => Step12();
    case 13 => Step13();
    case 14 => Step14();
    case _ => Step15();
  }

  /** One node succeeded and the other was skipped, and yet the run is not a success. */
  lemma SkippedRunIsCanceled()
    ensures exists trace :: Execution(trace, STORY) && trace[16] == Told(16)
    ensures DocumentedSuccess(Told(16), 1) && Told(16).sched == Idle && Told(16).jobs[1].status == Canceled
  {
    var trace := seq(17, n requires 0 <= n < 17 => Told(n));
    forall i | 0 <= i < 16 ensures Step(trace[i], STORY[i], trace[i + 1]) {
      hide Step, Told;
      ToldStep(i);
    }
    assert Init(trace[0]);
    hide Step;
    assert Execution(trace, STORY);
    TwoNames();
    hide Names;
  }
}
