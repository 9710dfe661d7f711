/**
 Executions that show where the protocol relies on its assumptions, or departs from the
 documented behaviour.
 */
module Counterexamples {
  import opened Wrappers
  import opened JobTypes
  import opened RunState
  import opened RunInvariant
  import opened RunSteps
  import opened RunReports
  import opened RunLateReports
  import Definition
  import Graph
  import Kahn

  const NODE := NodeKey(1, "n")
  const TASK := Task("n", {}, Some(NodeTarget(Some("a"), [])), 60)
  const AGENTS := map[LOCAL := AgentRow("local", {}, true), "g" := AgentRow("a", {}, true)]

  /** A run with one node that succeeded on a remote agent, seen to its end. */
  const DONE := State(map[1 := JobRow(Success, 0)], map[NODE := NodeRow(Success, Some("g"))], AGENTS, Idle,
                      {}, map[1 := [TASK]], map[], [1], {})

  /** The steps that lead to `DONE`. */
  const STORY: seq<Action> := [
    Register("g", AgentRow("a", {}, true)), Enqueue(1, 0), Pick(1), Prepare([TASK]),
    CheckCancel, Visit(Some("g")), EndScan, Poll("g", NODE), Report("g", NODE, Success), Observe("n"),
    CheckCancel, Visit(Some("g")), EndScan, Finalize]

  ghost function Told(n: nat): State
    requires n <= 14
  {
    var agents := if n == 0 then map[LOCAL := AgentRow("local", {}, true)] else AGENTS;
    var jobs := if n < 2 then map[] else
      map[1 := JobRow(if n < 4 then Queued else if n < 14 then Running else Success, 0)];
    var nodes := if n < 4 then map[] else
      map[NODE := NodeRow(if n < 6 then Pending else if n < 8 then Queued else if n < 9 then Running else Success,
                          if n < 6 then None else Some("g"))];
    var results := if n < 10 then map[] else map["n" := Success];
    var running := if 7 <= n < 10 then {"n"} else {};
    var sched := match n
      case 0 => Idle
      case 1 => Idle
      case 2 => Idle
      case 3 => Picked(1)
      case 4 => Executing(1, results, running, false, false, Checking)
      case 5 => Executing(1, results, running, false, false, Scanning(0, {}))
      case 6 => Executing(1, results, running, false, false, Scanning(1, {"n"}))
      case 7 => Executing(1, results, running, false, false, Waiting)
      case 8 => Executing(1, results, running, false, false, Waiting)
      case 9 => Executing(1, results, running, false, false, Waiting)
      case 10 => Executing(1, results, running, false, false, Checking)
      case 11 => Executing(1, results, running, false, false, Scanning(0, {}))
      case 12 => Executing(1, results, running, false, false, Scanning(1, {}))
      case 13 => Executing(1, results, running, false, false, Finalizing)
      case _ => Idle;
    State(jobs, nodes, agents, sched, if n == 8 then {NODE} else {}, if n < 4 then map[] else map[1 := [TASK]],
          map[], if n < 3 then [] else [1], {})
  }

  lemma OneName()
    ensures Names([TASK]) == {"n"}
  {
    IdsNext([TASK], 0);
    assert Ids([TASK], 0) == {};
  }

  // Each step of the story.

  lemma Step0()
    ensures Step(Told(0), STORY[0], Told(1))
  {}

  lemma Step1()
    ensures Step(Told(1), STORY[1], Told(2))
  {}

  lemma Step2()
    ensures Step(Told(2), STORY[2], Told(3))
  {}

  lemma Step3()
    ensures Step(Told(3), STORY[3], Told(4))
  {
    OneOrdered();
    OneRow();
    hide Ordered, Ids, Names;
  }

  lemma OneOrdered()
    ensures Ordered([TASK])
  {}

  lemma OneRow()
    ensures Told(3).sched.Picked? && Told(3).sched.run in Told(3).jobs && StartRun(Told(3), [TASK]) == Told(4)
  {
    OneName();
    hide Names;
    assert StartRun(Told(3), [TASK]).nodes == Told(4).nodes;
  }

  lemma Step4()
    ensures Step(Told(4), STORY[4], Told(5))
  {}

  lemma Step5()
    ensures Step(Told(5), STORY[5], Told(6))
  {
    assert Told(6).nodes == Told(5).nodes[NODE := NodeRow(Queued, Some("g"))];
    assert Told(5).sched.phase.queued + {"n"} == {"n"};
  }

  lemma Step6()
    ensures Step(Told(6), STORY[6], Told(7))
  {
    assert Told(6).sched.running + {"n"} == {"n"};
  }

  lemma Step7()
    ensures Step(Told(7), STORY[7], Told(8))
  {}

  lemma Step8()
    ensures Step(Told(8), STORY[8], Told(9))
  {}

  lemma Step9()
    ensures Step(Told(9), STORY[9], Told(10))
  {
    assert {"n"} - {"n"} == {};
    assert Told(10).sched.results == Told(9).sched.results["n" := Success];
  }

  lemma Step10()
    ensures Step(Told(10), STORY[10], Told(11))
  {}

  lemma Step11()
    ensures Step(Told(11), STORY[11], Told(12))
  {}

  lemma Step12()
    ensures Step(Told(12), STORY[12], Told(13))
  {}

  lemma Step13()
    ensures Step(Told(13), STORY[13], Told(14))
  {}

  lemma Told1to14(n: nat)
    requires n < 14
    ensures Step(Told(n), STORY[n], Told(n + 1))
  {
    hide *;
    match n
    case 0 => Step0();
    case 1 => Step1();
    case 2 => Step2();
    case 3 => Step3();
    case 4 => Step4();
    case 5 => Step5();
    case 6 => Step6();
    case 7 => Step7();
    case 8 => Step8();
    case 9 => Step9();
    case 10 => Step10();
    case 11 => Step11();
    case 12 => Step12();
    case _ => Step13();
  }

  /**
   Without the discipline, a reachable state breaks: the run of `DONE` ended in success with all
   rows successful, and an accepted second report turns its node into a failure.
   */
  lemma SecondReportBreaksVerdict()
    ensures exists trace :: Execution(trace, STORY) && trace[14] == DONE
    ensures Ended(DONE, 1) && DONE.jobs[1].status == Success
    ensures ReportAccepted(DONE, "g", NODE, Failed) && !Ended(SetStatus(DONE, NODE, Failed), 1)
  {
    var trace := seq(15, n requires 0 <= n < 15 => Told(n));
    forall i | 0 <= i < 14 ensures Step(trace[i], STORY[i], trace[i + 1]) {
      hide Step, Told;
      Told1to14(i);
    }
    hide Step;
    assert Execution(trace, STORY);
    var names := Names(DONE.plans[1]);
    OneName();
    var bad := SetStatus(DONE, NODE, Failed);
    assert AnyRow(bad.nodes, 1, names, Failed);
  }

  lemma {:induction false} ToldAll(n: nat) returns (trace: seq<State>)
    requires n <= 14
    ensures Execution(trace, STORY[..n]) && trace[n] == Told(n)
  {
    trace := seq(n + 1, i requires 0 <= i <= n => Told(i));
    forall i | 0 <= i < n ensures Step(trace[i], STORY[..n][i], trace[i + 1]) {
      hide Step, Told;
      Told1to14(i);
    }
    hide Step;
  }

  /**
   The same while the run is in hand: the scheduler is done with all nodes and about to end the run,
   and a second report turns the one node into a failure.  The run ends in success all the same.
   */
  lemma MidRunReportBreaksVerdict() returns (trace: seq<State>)
    ensures Execution(trace, STORY[..13]) && trace[13] == Told(13)
    ensures ReportAccepted(Told(13), "g", NODE, Failed)
    ensures var s := Reported(Told(13), NODE, Failed);
      Can(s, Finalize) && Do(s, Finalize).jobs[1].status == Success && !Ended(Do(s, Finalize), 1)
  {
    trace := ToldAll(13);
    LateFinish();
  }

  lemma LateFinish()
    ensures ReportAccepted(Told(13), "g", NODE, Failed)
    ensures var s := Reported(Told(13), NODE, Failed);
      Can(s, Finalize) && Do(s, Finalize).jobs[1].status == Success && !Ended(Do(s, Finalize), 1)
  {
    assert FinalStatus(map["n" := Success], false) == Success;
    var s := Do(Reported(Told(13), NODE, Failed), Finalize);
    OneName();
    hide Names;
    assert AnyRow(s.nodes, 1, Names([TASK]), Failed);
  }

  /** The run's cancel request is followed by success. */
  ghost predicate RequestOverwritten(trace: seq<State>) {
    && |trace| == 16
    && trace[14].jobs == map[1 := JobRow(CancelRequested, 0)]
    && trace[15].jobs == map[1 := JobRow(Success, 0)]
  }

  /**
   The documentation lets a cancel request end only as canceled, failed or timed out.  A request
   that arrives after the scheduler's last look at the flag is overwritten by success.
   */
  lemma CancelCanComeTooLate()
    ensures exists trace, actions :: Execution(trace, actions) && RequestOverwritten(trace)
  {
    var trace := seq(14, n requires 0 <= n < 14 => Told(n)) + [Asked(), Told(14)];
    var actions := STORY[..13] + [Cancel(1), Finalize];
    LateCancel();
    LateSuccess();
    forall i | 0 <= i < 15 ensures Step(trace[i], actions[i], trace[i + 1]) {
      hide Step, Told;
      if i < 13 { Told1to14(i); }
    }
    hide Step;
    assert Execution(trace, actions) && RequestOverwritten(trace);
  }

  /** `Told(13)`, canceled. */
  ghost function Asked(): State { Told(13).(jobs := map[1 := JobRow(CancelRequested, 0)]) }

  lemma LateCancel()
    ensures Step(Told(13), Cancel(1), Asked())
  {}

  lemma LateSuccess()
    ensures Step(Asked(), Finalize, Told(14))
  {
    assert FinalStatus(map["n" := Success], false) == Success;
  }

  // ---- A list of nodes that is not in dependency order ----

  const BAD := Task("a", {}, Some(NodeTarget(Some("nobody"), [])), 60)
  const USER := Task("b", {"a"}, None, 60)

  /** The scheduler is about to scan the two nodes, the one before the other that it depends on. */
  ghost function Disordered(): State {
    State(map[1 := JobRow(Running, 0)],
          map[NodeKey(1, "a") := NodeRow(Pending, None), NodeKey(1, "b") := NodeRow(Pending, None)],
          map[LOCAL := AgentRow("local", {}, true)], Executing(1, map[], {}, false, false, Scanning(0, {})),
          {}, map[1 := [USER, BAD]], map[], [1], {})
  }

  /**
   The order matters: the node listed first depends on the second, which fails for want of an
   agent.  The same nodes in the other order make an ordered plan, so there is no cycle; yet the
   scan ends with nothing running and the first node without a result.
   */
  lemma DisorderLeavesOrphans() returns (s1: State, s2: State, s3: State)
    ensures Ordered([BAD, USER])
    ensures Step(Disordered(), Visit(Some(LOCAL)), s1) && Step(s1, Visit(None), s2) && Step(s2, EndScan, s3)
    ensures InPhase(s3, Finalizing) && s3.sched.running == {} && "b" !in s3.sched.results
  {
    InOrder();
    hide Ordered, Step;
    s1 := Disordered().(sched := Executing(1, map[], {}, false, false, Scanning(1, {})));
    s2 := UserLeft(s1);
    s3 := s2.(sched := Executing(1, map["a" := Failed], {}, true, false, Finalizing));
    NothingRuns(s2, s3);
    BadFailed(s1, s2);
  }

  lemma UserLeft(s1: State) returns (s2: State)
    requires s1 == Disordered().(sched := Executing(1, map[], {}, false, false, Scanning(1, {})))
    ensures Step(Disordered(), Visit(Some(LOCAL)), s1)
    ensures s2 == SetStatus(s1, NodeKey(1, "a"), Failed).(
                    sched := Executing(1, map["a" := Failed], {}, true, false, Scanning(2, {})))
  {
    s2 := SetStatus(s1, NodeKey(1, "a"), Failed).(
      sched := Executing(1, map["a" := Failed], {}, true, false, Scanning(2, {})));
  }

  lemma BadFailed(s1: State, s2: State)
    requires s1 == Disordered().(sched := Executing(1, map[], {}, false, false, Scanning(1, {})))
    requires s2 == SetStatus(s1, NodeKey(1, "a"), Failed).(
                     sched := Executing(1, map["a" := Failed], {}, true, false, Scanning(2, {})))
    ensures Step(s1, Visit(None), s2)
  {}

  lemma NothingRuns(s2: State, s3: State)
    requires s2.plans == map[1 := [USER, BAD]]
    requires s2.sched == Executing(1, map["a" := Failed], {}, true, false, Scanning(2, {}))
    requires s3 == s2.(sched := Executing(1, map["a" := Failed], {}, true, false, Finalizing))
    ensures Step(s2, EndScan, s3)
  {
    var none: set<string> := {};
    assert none + none == {};
  }

  lemma InOrder()
    ensures Ordered([BAD, USER])
  {
    IdsNext([BAD, USER], 0);
    assert Ids([BAD, USER], 0) == {};
  }

  // ---- A definition that is accepted but cannot be started ----

  const STEP := NodeDefinition("n", None, "run", None, None, None, None, None, None, None, None, None)
  const ZERO := JobDefinition(1, "j", "Job", Some(JobDefaults(Some("/"), Some(0), None, None, None)), None, [STEP])

  /** A default timeout of zero passes validation and resolution, but the table refuses the node's row. */
  lemma ZeroDefaultIsAccepted()
    ensures Definition.WellFormed(ZERO) && Definition.HasWorkingDirs(ZERO) && !Definition.TimeoutsFit(ZERO)
  {
    ZeroAcyclic();
    assert "run"[0] in "run" && "Job"[0] in "Job";
    assert Definition.NodeOk(STEP);
    assert Kahn.Sortable([STEP]);
    hide Graph.HasCycle, Kahn.GraphOf, Definition.NodeOk, Kahn.Sortable;
  }

  lemma ZeroAcyclic()
    ensures !Graph.HasCycle(Kahn.GraphOf([STEP]))
  {
    Kahn.GraphAt([STEP], 0);
    assert Kahn.Sortable([STEP]);
    Kahn.SortableValid([STEP]);
    Graph.OrderedIsAcyclic(Kahn.GraphOf([STEP]), ["n"]);
  }
}
