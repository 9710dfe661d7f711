/**
 How runs stop and end: verdicts, draining after a failure, cancellation, and progress.
 */
module RunOutcomes {
  import opened Wrappers
  import opened RunState
  import opened RunInvariant
  import opened RunSteps
  import opened RunTheorems

  // ---- The end of a run ----

  /**
   A run that was executed and is no longer the scheduler's has all its nodes finished, and
   its status says how: timed out before failed before canceled before success.
   */
  lemma VerdictCorrect(trace: seq<State>, actions: seq<Action>, i: nat, r: int)
    requires Execution(trace, actions) && i < |trace| && r in trace[i].plans && !Current(trace[i], r)
    ensures var s := trace[i]; var names := Names(s.plans[r]);
      && r in s.jobs
      && AllFinished(s.nodes, r, names)
      && (s.jobs[r].status == Success <==> AllRows(s.nodes, r, names, Success) && r !in s.observed)
      && (s.jobs[r].status == TimedOut <==> AnyRow(s.nodes, r, names, TimedOut))
      && (s.jobs[r].status == Failed <==> !AnyRow(s.nodes, r, names, TimedOut) && AnyRow(s.nodes, r, names, Failed))
      && (s.jobs[r].status == Canceled <==> !AnyRow(s.nodes, r, names, TimedOut) && !AnyRow(s.nodes, r, names, Failed)
                                            && r in s.observed)
  {
    AlwaysInv(trace, actions, i);
    hide Execution, TablesOk, SchedOk, Names, AnyRow, AllRows, AllFinished;
  }

  /** The documented rule for success: every node succeeded or was skipped, and at least one succeeded. */
  ghost predicate DocumentedSuccess(s: State, r: int)
    requires r in s.plans
  {
    var names := Names(s.plans[r]);
    && (forall x :: x in names ==> NodeKey(r, x) in s.nodes && s.nodes[NodeKey(r, x)].status in {Success, Skipped})
    && AnyRow(s.nodes, r, names, Success)
  }

  /**
   A run that is over is a success exactly when the documented rule holds and no cancel was observed;
   with an observed cancel, a run to which the rule applies ends canceled.
   */
  lemma DocumentedSuccessIff(trace: seq<State>, actions: seq<Action>, i: nat, r: int)
    requires Execution(trace, actions) && i < |trace| && r in trace[i].plans && !Current(trace[i], r)
    ensures var s := trace[i];
      && r in s.jobs
      && (s.jobs[r].status == Success <==> DocumentedSuccess(s, r) && r !in s.observed)
      && (DocumentedSuccess(s, r) && r in s.observed ==> s.jobs[r].status == Canceled)
  {
    VerdictCorrect(trace, actions, i, r);
    AlwaysInv(trace, actions, i);
    PlanNotEmpty(trace[i], r);
    hide Execution, Inv, Names;
  }

  lemma PlanNotEmpty(s: State, r: int)
    requires Inv(s) && r in s.plans
    ensures Names(s.plans[r]) != {}
  {
    TablesHold(s);
    hide Inv, AgentsOk, IssuedOk, DepsOk;
    assert s.plans[r][0].id in Names(s.plans[r]);
  }

  /** A row of run `r` was reported canceled. */
  ghost predicate SomeCanceled(s: State, r: int) {
    exists x :: NodeKey(r, x) in s.nodes && s.nodes[NodeKey(r, x)].status == Canceled
  }

  ghost predicate CancelAsked(s: State, r: int) { r in s.jobs && s.jobs[r].status == CancelRequested }

  lemma StepObserved(s: State, a: Action, r: int)
    requires Can(s, a) && r in Do(s, a).observed && r !in s.observed
    ensures CancelAsked(s, r) || (SomeCanceled(s, r) && Do(s, a).nodes == s.nodes)
  {
    hide Assignable, Ordered, Names;
    if a.Observe? { assert s.sched.run == r ==> NodeKey(r, a.id) in s.nodes; }
  }

  /** The scheduler observes a cancel only if one was requested, or an agent reported a node canceled. */
  lemma {:induction false} ObservedHasCause(trace: seq<State>, actions: seq<Action>, j: nat, r: int)
    requires Execution(trace, actions) && j < |trace| && r in trace[j].observed
    ensures SomeCanceled(trace[j], r) || exists i :: 0 <= i <= j && CancelAsked(trace[i], r)
  {
    hide Inv, Can, Do, Step, CancelAsked, RowsEvolve;
    if j > 0 {
      StepOf(trace, actions, j);
      if r in trace[j - 1].observed {
        ObservedHasCause(trace, actions, j - 1, r);
        if SomeCanceled(trace[j - 1], r) {
          var x :| NodeKey(r, x) in trace[j - 1].nodes && trace[j - 1].nodes[NodeKey(r, x)].status == Canceled;
          FinishedForever(trace, actions, j - 1, j, NodeKey(r, x));
        }
      } else {
        StepObserved(trace[j - 1], actions[j - 1], r);
      }
    }
  }

  /** When the scheduler stops because nothing is running, every node of the definition has a result. */
  lemma NoOrphansAtExit(trace: seq<State>, actions: seq<Action>, i: nat)
    requires Execution(trace, actions) && i < |trace| && InPhase(trace[i], Finalizing)
    ensures var e := trace[i].sched;
      && e.run in trace[i].plans
      && forall x :: x in Names(trace[i].plans[e.run]) ==> x in e.results
  {
    AlwaysInv(trace, actions, i);
    hide Execution, JobsOk;
    var s := trace[i];
    CurrentView(s);
    NoOrphans(s.plans[s.sched.run], s.sched.results, |s.plans[s.sched.run]|);
  }

  lemma ActionBound(trace: seq<State>, actions: seq<Action>)
    requires Execution(trace, actions)
    ensures |trace| == |actions| + 1
  {
    hide Init, Step;
  }

  // ---- Job rows ----

  /** The moves of a job row. A cancel request is only ever followed by the end of the run. */
  ghost predicate JobMove(a: Status, b: Status) {
    || a == b
    || (a == Queued && (b == Running || b == CancelRequested || b == Failed))
    || (a == Running && (b == CancelRequested || Outcome(b)))
    || (a == CancelRequested && Outcome(b))
  }

  lemma StepJobMove(s: State, a: Action, r: int)
    requires Inv(s) && Can(s, a) && r in s.jobs
    ensures r in Do(s, a).jobs && JobMove(s.jobs[r].status, Do(s, a).jobs[r].status)
  {
    SchedHolds(s);
    hide Inv, VisitNode, CanVisit, MonitorPass, Ordered, PendingRows, Names, Ids, StorableCount, ServedBefore, ViewOk;
    if a.FailStart? || a.Prepare? || a.Finalize? || a.Enqueue? || a.Cancel? {
      hide InsertPrefix, ObserveNode;
    } else {
      JobsKept(s, a);
      hide Can, Do;
    }
  }

  lemma SchedHolds(s: State)
    requires Inv(s)
    ensures SchedOk(s)
  {
    hide TablesOk, SchedOk, JobsOk;
  }

  function JobRank(s: Status): nat {
    if s == Queued then 0 else if s == Running then 1 else if s == CancelRequested then 2 else 3
  }

  /** Job rows only move forward: ends stay, and a cancel request is never overwritten by "running". */
  lemma {:induction false} JobsForward(trace: seq<State>, actions: seq<Action>, i: nat, j: nat, r: int)
    requires Execution(trace, actions) && i <= j < |trace| && r in trace[i].jobs
    ensures r in trace[j].jobs
    ensures var a, b := trace[i].jobs[r].status, trace[j].jobs[r].status;
      a == b || (JobRank(a) < 3 && JobRank(a) < JobRank(b))
  {
    hide Inv, Can, Do, RowsEvolve, Init, Step;
    if i < j {
      JobsForward(trace, actions, i, j - 1, r);
      StepOf(trace, actions, j);
      StepJobMove(trace[j - 1], actions[j - 1], r);
    }
  }

  // ---- Agents ----

  lemma StepOffline(s: State, a: Action, g: string)
    requires Inv(s) && Can(s, a) && g in s.agents && !s.agents[g].online
    ensures g in Do(s, a).agents && !Do(s, a).agents[g].online
  {
    hide Inv, VisitNode, CanVisit, CanInsert, PendingRows, Names, Ids, StorableCount, ServedBefore;
    if a.Visit? { VisitFrame(s, a.choice); }
  }

  lemma NothingUnderWay(s: State, g: string)
    requires Inv(s)
    ensures g in s.agents && !s.agents[g].online ==> forall k :: k in s.nodes && s.nodes[k].agent == Some(g) ==>
      s.nodes[k].status != Queued && s.nodes[k].status != Running
  {
    TablesHold(s);
    hide Inv, IssuedOk, RowsOk, DepsOk;
  }

  /**
   Offline is for ever: an agent once marked offline is never online again, no request of its
   is accepted, and no node queued or running is assigned to it.
   */
  lemma {:induction false} OfflineForever(trace: seq<State>, actions: seq<Action>, i: nat, j: nat, g: string)
    requires Execution(trace, actions) && i <= j < |trace| && g in trace[i].agents && !trace[i].agents[g].online
    ensures g in trace[j].agents && !trace[j].agents[g].online && !Authenticated(trace[j], g)
    ensures forall k :: k in trace[j].nodes && trace[j].nodes[k].agent == Some(g) ==>
      trace[j].nodes[k].status != Queued && trace[j].nodes[k].status != Running
  {
    hide Inv, Can, Do, RowsEvolve, Init, Step, Active;
    AlwaysInv(trace, actions, j);
    NothingUnderWay(trace[j], g);
    if i < j {
      OfflineForever(trace, actions, i, j - 1, g);
      StepOf(trace, actions, j);
      StepOffline(trace[j - 1], actions[j - 1], g);
    }
  }

  // ---- Draining after a failure or a cancel ----

  /** The scheduler has recorded a failure, a timeout or a cancel in run `r`, or the run is over. */
  ghost predicate Halted(s: State, r: int) {
    && r in s.plans
    && (Current(s, r) ==> s.sched.Executing? && (s.sched.stop || s.sched.canceling))
  }

  /** A run that was started is never picked again. */
  lemma NotPickedAgain(s: State, r: int)
    requires Inv(s) && Can(s, Pick(r))
    ensures r !in s.plans
  {
    hide TablesOk, SchedOk, Names, AnyRow, AllRows, AllFinished;
    assert Unstarted(s, r) || Ended(s, r);
  }

  lemma StepHalted(s: State, a: Action, r: int)
    requires Inv(s) && Can(s, a) && Halted(s, r)
    ensures Halted(Do(s, a), r)
  {
    hide Inv, VisitNode, CanVisit, MonitorPass, Ordered, PendingRows, Names, Ids, StorableCount, ServedBefore;
    if a.Pick? {
      NotPickedAgain(s, a.run);
    } else if a.Prepare? {
      hide CanVisit;
      PickedUnstarted(s);
    } else if a.Visit? {
      VisitFrame(s, a.choice);
    } else if a.Monitor? {
      MonitorFrame(s, a.stale);
    }
  }

  lemma PickedUnstarted(s: State)
    requires Inv(s) && s.sched.Picked?
    ensures s.sched.run in s.jobs && s.sched.run !in s.plans
  {
    hide TablesOk, JobsOk;
  }

  ghost predicate Untouched(s: State, k: NodeKey) {
    k in s.nodes && (s.nodes[k].status == Pending || s.nodes[k].status == Skipped)
  }

  lemma TablesHold(s: State)
    requires Inv(s)
    ensures TablesOk(s) && RowsOk(s.nodes, s.plans, s.stubs)
  {
    hide AgentsOk, IssuedOk, DepsOk, RowsOk, SchedOk, JobsOk;
  }

  lemma UntouchedAgentless(s: State, k: NodeKey)
    requires Inv(s) && Untouched(s, k)
    ensures s.nodes[k].agent.None?
  {
    hide DepsOk, JobsOk, SchedOk, AgentsOk, IssuedOk, Ordered, Names;
  }

  /** A halted run launches nothing: a pending node stays pending or is skipped. */
  lemma StepHaltedPending(s: State, a: Action, r: int, x: string)
    requires Inv(s) && Can(s, a) && Halted(s, r) && Untouched(s, NodeKey(r, x))
    ensures Untouched(Do(s, a), NodeKey(r, x))
  {
    hide Inv, VisitNode, CanVisit, StartRun, InsertPrefix, Names, Ids, StorableCount, ServedBefore, Ordered, Untouched;
    if a.Visit? {
      HaltedVisit(s, a.choice, r, x);
    } else if a.Prepare? {
      PrepareElsewhere(s, a.plan, NodeKey(r, x));
    } else if a.InsertSome? {
      InsertElsewhere(s, a.plan, NodeKey(r, x));
    } else {
      OtherUntouched(s, a, NodeKey(r, x));
    }
  }

  lemma OtherUntouched(s: State, a: Action, k: NodeKey)
    requires Inv(s) && Can(s, a) && Untouched(s, k) && !a.Visit? && !a.Prepare? && !a.InsertSome?
    ensures Untouched(Do(s, a), k)
  {
    UntouchedAgentless(s, k);
    hide Inv;
    if a.PickLocal? || a.FinishLocal? || a.Poll? || a.Report? || a.Monitor? {
      WorkerUntouched(s, a, k);
    } else {
      NodesKept(s, a);
    }
    hide Can, Do;
  }

  lemma WorkerUntouched(s: State, a: Action, k: NodeKey)
    requires Can(s, a) && (a.PickLocal? || a.FinishLocal? || a.Poll? || a.Report? || a.Monitor?)
    requires Untouched(s, k) && s.nodes[k].agent.None?
    ensures Untouched(Do(s, a), k)
  {}

  lemma HaltedVisit(s: State, choice: Option<string>, r: int, x: string)
    requires CanVisit(s, choice) && Halted(s, r) && Untouched(s, NodeKey(r, x))
    ensures Untouched(VisitNode(s, choice), NodeKey(r, x))
  {
    hide Assignable, Blocked, Unresolved;
  }

  lemma PrepareElsewhere(s: State, plan: seq<Task>, k: NodeKey)
    requires Inv(s) && Can(s, Prepare(plan)) && Untouched(s, k)
    ensures Untouched(StartRun(s, plan), k)
  {
    hide Inv, Ordered, Names, StartRun, TablesOk;
    PickedUnstarted(s);
    TablesHold(s);
    StartRunStarts(s, plan);
  }

  lemma InsertElsewhere(s: State, plan: seq<Task>, k: NodeKey)
    requires Inv(s) && Can(s, InsertSome(plan)) && Untouched(s, k)
    ensures Untouched(InsertPrefix(s, plan), k)
  {
    hide Inv, Ordered, Ids, InsertPrefix;
    PrefixStubs(s, plan);
  }

  /**
   Stop and drain: once a failure, timeout or cancel is recorded, no further node of the run is
   ever launched; the nodes that were still pending end up skipped.
   */
  lemma {:induction false} HaltedMeansSkipped(trace: seq<State>, actions: seq<Action>, i: nat, j: nat, r: int,
                                     x: string)
    requires Execution(trace, actions) && i <= j < |trace| && Halted(trace[i], r)
    requires NodeKey(r, x) in trace[i].nodes && trace[i].nodes[NodeKey(r, x)].status == Pending
    ensures Halted(trace[j], r) && NodeKey(r, x) in trace[j].nodes
    ensures var st := trace[j].nodes[NodeKey(r, x)].status; st == Pending || st == Skipped
    ensures !Current(trace[j], r) ==> trace[j].nodes[NodeKey(r, x)].status == Skipped
  {
    hide Inv, Can, Do, Init, Step, RowsEvolve, Halted, Execution;
    AlwaysInv(trace, actions, j);
    if i < j {
      ActionBound(trace, actions);
      HaltedMeansSkipped(trace, actions, i, j - 1, r, x);
      StepOf(trace, actions, j);
      StepHalted(trace[j - 1], actions[j - 1], r);
      StepHaltedPending(trace[j - 1], actions[j - 1], r, x);
    }
    EndedRow(trace[j], r, x);
  }

  /**
   The same from the moment in which the scheduler holds a failure, a timeout or a cancel among its results, or
   has seen a cancel request.
   */
  lemma StopAndDrain(trace: seq<State>, actions: seq<Action>, i: nat, j: nat, r: int, x: string, y: string)
    requires Execution(trace, actions) && i <= j < |trace|
    requires trace[i].sched.Executing? && trace[i].sched.run == r
    requires trace[i].sched.canceling
      || (y in trace[i].sched.results && trace[i].sched.results[y] in {Failed, TimedOut, Canceled})
    requires NodeKey(r, x) in trace[i].nodes && trace[i].nodes[NodeKey(r, x)].status == Pending
    ensures NodeKey(r, x) in trace[j].nodes
    ensures trace[j].nodes[NodeKey(r, x)].status in {Pending, Skipped}
    ensures !Current(trace[j], r) ==> trace[j].nodes[NodeKey(r, x)].status == Skipped
  {
    AlwaysInv(trace, actions, i);
    RecordedHalts(trace[i], y);
    hide Execution, Inv, Halted;
    HaltedMeansSkipped(trace, actions, i, j, r, x);
  }

  lemma RecordedHalts(s: State, y: string)
    requires Inv(s) && s.sched.Executing?
    requires s.sched.canceling || (y in s.sched.results && s.sched.results[y] in {Failed, TimedOut, Canceled})
    ensures Halted(s, s.sched.run)
  {
    CurrentView(s);
    hide Inv, Agreement, KeysOk, TouchedOk, PhaseOk, Ordered;
  }

  lemma EndedRow(s: State, r: int, x: string)
    requires Inv(s) && Halted(s, r) && NodeKey(r, x) in s.nodes
    ensures !Current(s, r) ==> Finished(s.nodes[NodeKey(r, x)].status)
  {
    hide SchedOk, DepsOk, IssuedOk, AgentsOk, Verdict, AllRows, Names;
  }

  // ---- A cancel that comes before the first scan ----

  /** Run `r` is being canceled and nothing of it was launched: every node passed so far is skipped. */
  ghost predicate Doomed(s: State, r: int) {
    && s.sched.Executing? && s.sched.run == r && r in s.plans && s.sched.canceling && s.sched.running == {}
    && (forall x :: x in s.sched.results ==> s.sched.results[x] == Skipped)
    && match s.sched.phase
       case Scanning(n, queued) =>
         queued == {} && n <= |s.plans[r]| && forall x :: x in Ids(s.plans[r], n) ==> x in s.sched.results
       case Finalizing => true
       case _ => false
  }

  ghost predicate CanceledUntouched(s: State, r: int) {
    && r in s.jobs && r in s.plans && !Current(s, r) && s.jobs[r].status == Canceled
    && AllRows(s.nodes, r, Names(s.plans[r]), Skipped)
  }

  lemma DoomedVisit(s: State, choice: Option<string>, r: int)
    requires Inv(s) && CanVisit(s, choice) && Doomed(s, r)
    ensures Doomed(VisitNode(s, choice), r)
  {
    hide Inv, ViewOk, Assignable, Ordered, Ids;
    CurrentView(s);
    var n, plan := s.sched.phase.next, s.plans[r];
    IdsNext(plan, n);
    DepsEarlier(plan, n);
  }

  lemma DepsEarlier(plan: seq<Task>, n: nat)
    requires Ordered(plan) && n < |plan|
    ensures plan[n].deps <= Ids(plan, n)
  {}

  lemma DoomedEnds(s: State, r: int)
    requires Inv(s) && Doomed(s, r) && Can(s, Finalize)
    ensures CanceledUntouched(Do(s, Finalize), r)
  {
    hide Inv, Ordered, Names, AllRows, FinalStatus;
    var plan, e := s.plans[r], s.sched;
    CurrentView(s);
    NoOrphans(plan, e.results, |plan|);
    NamesAre(plan);
    AllSkipped(s.nodes, r, Names(plan), e.results, Live(e));
    hide ViewOk;
  }

  lemma AllSkipped(nodes: map<NodeKey, NodeRow>, r: int, names: set<string>, results: map<string, Status>,
                   live: set<string>)
    requires Agreement(nodes, r, names, results, live)
    requires forall x :: x in names ==> x in results
    requires forall x :: x in results ==> results[x] == Skipped
    ensures AllRows(nodes, r, names, Skipped) && FinalStatus(results, true) == Canceled
  {
    assert forall st :: st in results.Values ==> st == Skipped;
  }

  lemma NamesAre(plan: seq<Task>)
    ensures Names(plan) == Ids(plan, |plan|)
  {
    hide Ids;
  }

  lemma StepDoomed(s: State, a: Action, r: int)
    requires Inv(s) && Can(s, a) && Doomed(s, r)
    ensures Doomed(Do(s, a), r) || CanceledUntouched(Do(s, a), r)
  {
    hide Inv, Ids, Ordered;
    if a.Visit? {
      DoomedVisit(s, a.choice, r);
    } else if a.Finalize? {
      DoomedEnds(s, r);
    } else if a.EndScan? {
      assert s.sched.running + s.sched.phase.queued == {};
    } else {
      hide CanceledUntouched, Assignable;
    }
  }

  lemma StepCanceledUntouched(s: State, a: Action, r: int)
    requires Inv(s) && Can(s, a) && CanceledUntouched(s, r)
    ensures CanceledUntouched(Do(s, a), r)
  {
    hide Inv, Can, Do, Names, RowsEvolve, AllRows, JobMove;
    StepInv(s, a, Do(s, a));
    StepJobMove(s, a, r);
    StepKeepsPlans(s, a, r);
    StepNotAgain(s, a, r);
    StillCanceled(s, Do(s, a), r);
  }

  lemma StepNotAgain(s: State, a: Action, r: int)
    requires Inv(s) && Can(s, a) && CanceledUntouched(s, r)
    ensures !Current(Do(s, a), r)
  {
    hide Inv, Names, Assignable, Ordered, AllRows;
  }

  lemma StillCanceled(s: State, s': State, r: int)
    requires CanceledUntouched(s, r) && RowsEvolve(s, s') && !Current(s', r)
    requires r in s'.plans && s'.plans[r] == s.plans[r] && r in s'.jobs && JobMove(Canceled, s'.jobs[r].status)
    ensures CanceledUntouched(s', r)
  {
    hide Names;
  }

  /**
   A cancel request that the scheduler sees before it has looked at any node ends the run
   as canceled with every node skipped, whatever else happens.
   */
  lemma {:induction false} EarlyCancel(trace: seq<State>, actions: seq<Action>, i: nat, j: nat, r: int)
    requires Execution(trace, actions) && i < j < |trace|
    requires actions[i] == CheckCancel && Current(trace[i], r) && r in trace[i].jobs
    requires trace[i].sched.Executing? && trace[i].sched.results == map[] && trace[i].sched.running == {}
    requires trace[i].jobs[r].status == CancelRequested
    ensures Doomed(trace[j], r) || CanceledUntouched(trace[j], r)
    decreases j
  {
    StepOf(trace, actions, j);
    if j == i + 1 {
      hide Execution, RowsEvolve, TablesOk, JobsOk, ViewOk;
    } else {
      hide Execution, RowsEvolve, Inv, Do, Can, Doomed, CanceledUntouched;
      EarlyCancel(trace, actions, i, j - 1, r);
      if Doomed(trace[j - 1], r) {
        StepDoomed(trace[j - 1], actions[j - 1], r);
      } else {
        StepCanceledUntouched(trace[j - 1], actions[j - 1], r);
      }
    }
  }
}
