/** What becomes of a cancel request, by the state in which it is accepted; and of runs that cannot be started. */
module RunCancel {
  import opened Wrappers
  import opened RunState
  import opened RunInvariant
  import opened RunSteps
  import opened RunTheorems
  import opened RunOutcomes
  import opened RunProgress

  // ---- A request that comes too late, or not ----

  ghost predicate AllSucceeded(results: map<string, Status>, names: set<string>) {
    forall x :: x in names ==> x in results && results[x] == Success
  }

  /** The scheduler has taken in the success of every node, and looked at the cancel flag for the last time. */
  ghost predicate TooLate(s: State, r: int) {
    && s.sched.Executing? && s.sched.run == r && r in s.plans && !s.sched.canceling
    && (s.sched.phase.Scanning? || s.sched.phase.Finalizing?)
    && AllSucceeded(s.sched.results, Names(s.plans[r]))
  }

  /** Only the scheduler ends a run that is asked to cancel. */
  lemma AskedStays(s: State, a: Action, r: int)
    requires Inv(s) && Can(s, a) && CancelAsked(s, r)
    ensures CancelAsked(Do(s, a), r) || (Current(s, r) && (a.Finalize? || a.FailStart?))
  {
    hide Inv, VisitNode, CanVisit, Ordered, PendingRows, FinalStatus;
    if a.Visit? { VisitFrame(s, a.choice); }
  }

  /** What finalizing makes of the run in hand. */
  lemma FinalizeSucceedsIff(s: State)
    requires Inv(s) && Can(s, Finalize)
    ensures Do(s, Finalize).jobs[s.sched.run].status == Success <==> TooLate(s, s.sched.run)
  {
    hide Inv, Ordered, Names, Verdict, FinalStatus;
    CurrentView(s);
    FinalStatusIsVerdict(s);
    NoOrphans(s.plans[s.sched.run], s.sched.results, |s.plans[s.sched.run]|);
    NamesAre(s.plans[s.sched.run]);
    hide FlagsOk, TouchedOk, KeysOk;
  }

  /** Looking at nodes, and taking in outcomes, does not make it too late. */
  lemma VisitNotLate(s: State, choice: Option<string>, r: int)
    requires Inv(s) && CanVisit(s, choice) && s.sched.run == r
    ensures TooLate(VisitNode(s, choice), r) <==> TooLate(s, r)
  {
    NextIsNamed(s);
    VisitFrame(s, choice);
    hide Inv, VisitNode, Assignable, Ordered, Names;
  }

  lemma NextIsNamed(s: State)
    requires Inv(s) && s.sched.Executing? && s.sched.phase.Scanning? && s.sched.run in s.plans
    requires s.sched.phase.next < |s.plans[s.sched.run]|
    ensures s.plans[s.sched.run][s.sched.phase.next].id in Names(s.plans[s.sched.run])
  {
    hide Inv;
  }

  lemma EndScanNotLate(s: State, r: int)
    requires Inv(s) && Can(s, EndScan) && s.sched.run == r
    ensures TooLate(Do(s, EndScan), r) <==> TooLate(s, r)
  {
    CurrentView(s);
    hide Inv, Ordered, Names, FlagsOk, PhaseOk, TouchedOk;
    assert TooLate(s, r) ==> s.sched.running + s.sched.phase.queued == {};
  }

  /** The request is pending and not too late, or the run ended without success. */
  ghost predicate Heeded(s: State, r: int) {
    r in s.jobs && ((CancelAsked(s, r) && !TooLate(s, r)) || Unsuccessful(s.jobs[r].status))
  }

  lemma StepHeeded(s: State, a: Action, r: int)
    requires Inv(s) && Can(s, a) && Heeded(s, r)
    ensures Heeded(Do(s, a), r)
  {
    hide Inv, Can, Do, TooLate;
    StepJobMove(s, a, r);
    if CancelAsked(s, r) {
      AskedStays(s, a, r);
      if Current(s, r) && a.Finalize? {
        FinalizeRun(s);
        FinalizeSucceedsIff(s);
      } else if Current(s, r) && a.FailStart? {
        FailStartFails(s);
      } else {
        StaysNotLate(s, a, r);
      }
    }
  }

  lemma FinalizeRun(s: State)
    requires Can(s, Finalize)
    ensures s.sched.Executing? && s.sched.run in Do(s, Finalize).jobs
    ensures Outcome(Do(s, Finalize).jobs[s.sched.run].status)
    ensures Do(s, Finalize).sched == Idle && Do(s, Finalize).plans == s.plans
  {}

  lemma FailStartFails(s: State)
    requires Can(s, FailStart)
    ensures s.sched.run in Do(s, FailStart).jobs && Do(s, FailStart).jobs[s.sched.run].status == Failed
    ensures Do(s, FailStart).sched == Idle && Do(s, FailStart).plans == s.plans
  {}

  /** While the request is pending, no step makes it too late. */
  lemma StaysNotLate(s: State, a: Action, r: int)
    requires Inv(s) && Can(s, a) && CancelAsked(s, r) && !TooLate(s, r)
    ensures !TooLate(Do(s, a), r)
  {
    hide Inv, AllSucceeded, VisitNode, CanVisit, Ordered, Names;
    if a.Visit? {
      VisitFrame(s, a.choice);
      if s.sched.Executing? && s.sched.run == r { VisitNotLate(s, a.choice, r); }
    } else if a.EndScan? && s.sched.run == r {
      EndScanNotLate(s, r);
    } else if !ByScheduler(a) {
      OthersKeepSched(s, a);
      hide Do, Can;
    }
  }

  /** The request is pending and too late, or the run is over, with success. */
  ghost predicate Overtaken(s: State, r: int) {
    r in s.jobs && ((CancelAsked(s, r) && TooLate(s, r)) || (!Current(s, r) && s.jobs[r].status == Success))
  }

  lemma StepOvertaken(s: State, a: Action, r: int)
    requires Inv(s) && Can(s, a) && Overtaken(s, r)
    ensures Overtaken(Do(s, a), r)
  {
    hide Inv, Can, Do, TooLate;
    StepJobMove(s, a, r);
    if CancelAsked(s, r) {
      LateIsCurrent(s, r);
      AskedStays(s, a, r);
      if a.Finalize? {
        FinalizeRun(s);
        FinalizeSucceedsIff(s);
      } else {
        StaysLate(s, a, r);
      }
    } else {
      EndedNotPicked(s, a, r);
    }
  }

  lemma LateIsCurrent(s: State, r: int)
    requires TooLate(s, r)
    ensures Current(s, r) && s.sched.Executing?
  {
    hide AllSucceeded;
  }

  lemma StaysLate(s: State, a: Action, r: int)
    requires Inv(s) && Can(s, a) && TooLate(s, r) && !a.Finalize?
    ensures TooLate(Do(s, a), r) && !a.FailStart?
  {
    hide Inv, AllSucceeded, VisitNode, CanVisit, Ordered, Names;
    if a.Visit? {
      VisitNotLate(s, a.choice, r);
    } else if a.EndScan? {
      EndScanNotLate(s, r);
    } else if !ByScheduler(a) {
      OthersKeepSched(s, a);
      hide Do, Can;
    }
  }

  /** A run that is over is not taken in hand again. */
  lemma EndedNotPicked(s: State, a: Action, r: int)
    requires Can(s, a) && r in s.jobs && Outcome(s.jobs[r].status) && !Current(s, r)
    ensures !Current(Do(s, a), r)
  {
    hide Assignable, Ordered, Names;
  }

  lemma Accepted(s: State, r: int)
    requires Can(s, Cancel(r))
    ensures var s' := Do(s, Cancel(r));
      && CancelAsked(s', r) && s'.sched == s.sched && s'.plans == s.plans && s'.stubs == s.stubs && s'.picks == s.picks
      && (TooLate(s', r) <==> TooLate(s, r))
  {
    hide AllSucceeded;
  }

  /** A request accepted in time is never followed by success. */
  lemma {:induction false} CancelInTime(trace: seq<State>, actions: seq<Action>, i: nat, j: nat, r: int)
    requires Execution(trace, actions) && i < j < |trace| && actions[i] == Cancel(r) && !TooLate(trace[i], r)
    ensures Heeded(trace[j], r)
    decreases j
  {
    hide Inv, Can, Do, RowsEvolve, Init, Step, TooLate;
    StepOf(trace, actions, j);
    if j == i + 1 {
      Accepted(trace[i], r);
    } else {
      CancelInTime(trace, actions, i, j - 1, r);
      StepHeeded(trace[j - 1], actions[j - 1], r);
    }
  }

  /** A request accepted too late is followed by success. */
  lemma {:induction false} CancelTooLate(trace: seq<State>, actions: seq<Action>, i: nat, j: nat, r: int)
    requires Execution(trace, actions) && i < j < |trace| && actions[i] == Cancel(r) && TooLate(trace[i], r)
    ensures Overtaken(trace[j], r)
    decreases j
  {
    hide Inv, Can, Do, RowsEvolve, Init, Step, TooLate;
    StepOf(trace, actions, j);
    if j == i + 1 {
      Accepted(trace[i], r);
    } else {
      CancelTooLate(trace, actions, i, j - 1, r);
      StepOvertaken(trace[j - 1], actions[j - 1], r);
    }
  }

  /** Once the run is out of the scheduler's hands, it is a success exactly if the request came too late. */
  lemma CancelEndsInSuccessIff(trace: seq<State>, actions: seq<Action>, i: nat, j: nat, r: int)
    requires Execution(trace, actions) && i < j < |trace| && actions[i] == Cancel(r) && !Current(trace[j], r)
    ensures r in trace[j].jobs && (trace[j].jobs[r].status == Success <==> TooLate(trace[i], r))
  {
    hide Execution;
    if TooLate(trace[i], r) {
      CancelTooLate(trace, actions, i, j, r);
    } else {
      CancelInTime(trace, actions, i, j, r);
    }
  }

  // ---- A request for a run that is still queued ----

  /** The run waits for a cancellation that nobody will carry out: it was never picked and has no rows. */
  ghost predicate Dormant(s: State, r: int) {
    && CancelAsked(s, r) && !Current(s, r) && r !in s.picks && r !in s.plans && r !in s.stubs
  }

  lemma StepDormant(s: State, a: Action, r: int)
    requires Inv(s) && Can(s, a) && Dormant(s, r)
    ensures Dormant(Do(s, a), r)
  {
    AskedStays(s, a, r);
    hide Inv, VisitNode, CanVisit, Ordered, Names, PendingRows, FinalStatus;
    if a.Visit? {
      VisitFrame(s, a.choice);
    }
  }

  lemma Rowless(s: State, r: int, k: NodeKey)
    requires Inv(s) && r !in s.plans && r !in s.stubs && k in s.nodes
    ensures k.run != r
  {
    TablesHold(s);
    hide Inv, AgentsOk, IssuedOk, DepsOk, Names, Ordered;
    assert Belongs(k, s.nodes[k], s.plans, s.stubs);
  }

  /** A cancel of a run that was not picked yet leaves it as it is for ever: asked to cancel, without rows. */
  lemma {:induction false} QueuedCancelStays(trace: seq<State>, actions: seq<Action>, i: nat, j: nat, r: int)
    requires Execution(trace, actions) && i < j < |trace| && actions[i] == Cancel(r)
    requires r in trace[i].jobs && trace[i].jobs[r].status == Queued && !Current(trace[i], r)
    ensures Dormant(trace[j], r)
    ensures forall k :: k in trace[j].nodes ==> k.run != r
    decreases j
  {
    hide Inv, Can, Do, RowsEvolve, Init, Step, TooLate, PicksOk;
    StepOf(trace, actions, j);
    if j == i + 1 {
      Accepted(trace[i], r);
      AlwaysPicksOk(trace, actions, i);
      QueuedUntouched(trace[i], r);
    } else {
      QueuedCancelStays(trace, actions, i, j - 1, r);
      StepDormant(trace[j - 1], actions[j - 1], r);
    }
    forall k | k in trace[j].nodes ensures k.run != r { Rowless(trace[j], r, k); }
  }

  lemma QueuedUntouched(s: State, r: int)
    requires Inv(s) && r in s.jobs && s.jobs[r].status == Queued && !Current(s, r)
    ensures r !in s.plans && r !in s.stubs
  {
    hide TablesOk, SchedOk, Names, AnyRow, AllRows, AllFinished;
    assert Unstarted(s, r) || Ended(s, r);
  }

  // ---- A request for a run that was just picked ----

  /** The scheduler is about to look at the cancel flag of the run for the first time. */
  ghost predicate Fresh(s: State, r: int) {
    s.sched == Executing(r, map[], {}, false, false, Checking)
  }

  /** The run was never executed and has failed. */
  ghost predicate FailedStart(s: State, r: int) {
    r in s.jobs && s.jobs[r].status == Failed && r !in s.plans && !Current(s, r)
  }

  ghost predicate Caught(s: State, r: int) {
    || (CancelAsked(s, r) && (s.sched == Picked(r) || Fresh(s, r)))
    || Doomed(s, r) || CanceledUntouched(s, r) || FailedStart(s, r)
  }

  lemma StepPicked(s: State, a: Action, r: int)
    requires Inv(s) && Can(s, a) && CancelAsked(s, r) && s.sched == Picked(r)
    ensures Caught(Do(s, a), r)
  {
    AskedStays(s, a, r);
    PickedUnstarted(s);
    hide Inv, Doomed, CanceledUntouched, Ordered, Names, PendingRows;
    if !ByScheduler(a) { OthersKeepSched(s, a); }
  }

  lemma StepFresh(s: State, a: Action, r: int)
    requires Inv(s) && Can(s, a) && CancelAsked(s, r) && Fresh(s, r)
    ensures Caught(Do(s, a), r)
  {
    AskedStays(s, a, r);
    if a.CheckCancel? {
      CurrentView(s);
      hide Inv, Ordered, CanceledUntouched, FailedStart;
      assert Ids(s.plans[r], 0) == {};
    } else {
      hide Inv, Doomed, CanceledUntouched, FailedStart;
      assert !ByScheduler(a);
      OthersKeepSched(s, a);
    }
  }

  lemma StepFailedStart(s: State, a: Action, r: int)
    requires Inv(s) && Can(s, a) && FailedStart(s, r)
    ensures FailedStart(Do(s, a), r)
  {
    StepJobMove(s, a, r);
    EndedNotPicked(s, a, r);
    hide Inv, VisitNode, CanVisit, Ordered, Names, PendingRows;
    if a.Visit? { VisitFrame(s, a.choice); }
  }

  lemma StepCaught(s: State, a: Action, r: int)
    requires Inv(s) && Can(s, a) && Caught(s, r)
    ensures Caught(Do(s, a), r)
  {
    hide Inv, Can, Do, Doomed, CanceledUntouched, FailedStart, CancelAsked, Fresh;
    if Doomed(s, r) {
      StepDoomed(s, a, r);
    } else if CanceledUntouched(s, r) {
      StepCanceledUntouched(s, a, r);
    } else if FailedStart(s, r) {
      StepFailedStart(s, a, r);
    } else if Fresh(s, r) {
      StepFresh(s, a, r);
    } else {
      StepPicked(s, a, r);
    }
  }

  /**
   A cancel between the pick of a run and the first look at its flag: the run fails to start, or
   it ends canceled with every node skipped.
   */
  lemma {:induction false} PickedCancelIsHeeded(trace: seq<State>, actions: seq<Action>, i: nat, j: nat, r: int)
    requires Execution(trace, actions) && i < j < |trace| && actions[i] == Cancel(r)
    requires trace[i].sched == Picked(r) || Fresh(trace[i], r)
    ensures Caught(trace[j], r)
    ensures !Current(trace[j], r) ==> CanceledUntouched(trace[j], r) || FailedStart(trace[j], r)
    decreases j
  {
    hide Inv, Can, Do, RowsEvolve, Init, Step, TooLate, CanceledUntouched, FailedStart, CancelAsked;
    StepOf(trace, actions, j);
    if j == i + 1 {
      Accepted(trace[i], r);
    } else {
      PickedCancelIsHeeded(trace, actions, i, j - 1, r);
      StepCaught(trace[j - 1], actions[j - 1], r);
    }
  }

  // ---- Runs that cannot be started ----

  /** The rows of the run are those of its stub, all pending; it is being failed, or has failed. */
  ghost predicate Abandoned(s: State, r: int) {
    && r in s.stubs && r in s.jobs && r !in s.plans
    && (forall k :: k in s.nodes && k.run == r ==> k.node in s.stubs[r] && s.nodes[k] == NodeRow(Pending, None))
    && (forall x :: x in s.stubs[r] ==> NodeKey(r, x) in s.nodes)
    && (if Current(s, r) then s.sched.Picked? else s.jobs[r].status == Failed)
  }

  lemma StubIsAbandoned(s: State, r: int)
    requires Inv(s) && r in s.stubs
    ensures Abandoned(s, r)
  {
    InvParts(s);
    StubRows(s, r);
    hide Inv, TablesOk, ViewOk, Names, AllFinished, AllRows, AnyRow;
    assert !Current(s, r) ==> Unstarted(s, r) || Ended(s, r);
  }

  lemma StubRows(s: State, r: int)
    requires Inv(s) && r in s.stubs
    ensures r !in s.plans
    ensures forall k :: k in s.nodes && k.run == r ==> k.node in s.stubs[r] && s.nodes[k] == NodeRow(Pending, None)
    ensures forall x :: x in s.stubs[r] ==> NodeKey(r, x) in s.nodes
  {
    TablesHold(s);
    hide Inv, AgentsOk, IssuedOk, DepsOk, Names, Ordered;
    assert forall k :: k in s.nodes ==> Belongs(k, s.nodes[k], s.plans, s.stubs);
  }

  lemma StepKeepsStubs(s: State, a: Action, r: int)
    requires Can(s, a) && r in s.stubs
    ensures r in Do(s, a).stubs && Do(s, a).stubs[r] == s.stubs[r]
  {
    hide VisitNode, CanVisit, Ordered, Names, PendingRows, FinalStatus;
    if a.Visit? { VisitFrame(s, a.choice); }
  }

  /** The rows inserted for a run that could not be started stay pending for ever, and the run stays failed. */
  lemma {:induction false} AbandonedForever(trace: seq<State>, actions: seq<Action>, i: nat, j: nat, r: int)
    requires Execution(trace, actions) && i <= j < |trace| && r in trace[i].stubs
    ensures r in trace[j].stubs && trace[j].stubs[r] == trace[i].stubs[r] && Abandoned(trace[j], r)
    ensures !Current(trace[i], r) ==> !Current(trace[j], r)
  {
    hide Inv, Can, Do, RowsEvolve, Init, Step;
    AlwaysInv(trace, actions, j);
    if i < j {
      AbandonedForever(trace, actions, i, j - 1, r);
      StepOf(trace, actions, j);
      StepKeepsStubs(trace[j - 1], actions[j - 1], r);
      if !Current(trace[j - 1], r) { EndedNotPicked(trace[j - 1], actions[j - 1], r); }
    }
    StubIsAbandoned(trace[j], r);
  }
}
