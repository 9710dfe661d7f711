/**
 What holds in every state of every execution of the run protocol, however the
 scheduler, the workers, the agents, the monitor and the users interleave.
 */
module RunTheorems {
  import opened RunState
  import opened RunInvariant
  import opened RunSteps

  lemma StepInv(s: State, a: Action, s': State)
    requires Inv(s) && Step(s, a, s')
    ensures Can(s, a) && s' == Do(s, a) && Inv(s') && RowsEvolve(s, s')
  {
    hide Inv, Do, Can, RowsEvolve;
    StepKeepsInv(s, a);
  }

  /** The invariant holds in every reachable state. */
  lemma {:induction false} AlwaysInv(trace: seq<State>, actions: seq<Action>, i: nat)
    requires Execution(trace, actions) && i < |trace|
    ensures Inv(trace[i])
  {
    hide Inv, Step, Init, RowsEvolve;
    if i == 0 {
      InitInv(trace[0]);
    } else {
      AlwaysInv(trace, actions, i - 1);
      assert Step(trace[i - 1], actions[i - 1], trace[i - 1 + 1]);
      StepInv(trace[i - 1], actions[i - 1], trace[i]);
    }
  }

  /** Consecutive states of an execution: a legal step between two states with the invariant. */
  lemma StepOf(trace: seq<State>, actions: seq<Action>, i: nat)
    requires Execution(trace, actions) && 0 < i < |trace|
    ensures var s, a, s' := trace[i - 1], actions[i - 1], trace[i];
      Can(s, a) && s' == Do(s, a) && Inv(s) && Inv(s') && RowsEvolve(s, s')
  {
    hide Inv, Step, Init, RowsEvolve;
    AlwaysInv(trace, actions, i - 1);
    assert Step(trace[i - 1], actions[i - 1], trace[i - 1 + 1]);
    StepInv(trace[i - 1], actions[i - 1], trace[i]);
  }

  // ---- Life cycle of node rows ----

  function Rank(s: Status): nat {
    match s
    case Pending => 0
    case Queued => 1
    case Running => 2
    case _ => 3
  }

  /** A row stays, or moves strictly forward; its agent, once given, stays. */
  ghost predicate Forward(a: NodeRow, b: NodeRow) {
    && (a == b || Rank(a.status) < Rank(b.status))
    && (a.agent.Some? ==> b.agent == a.agent)
  }

  lemma ForwardStep(a: NodeRow, b: NodeRow, c: NodeRow)
    requires Forward(a, b) && Evolves(b, c)
    ensures Forward(a, c)
  {}

  lemma {:induction false} RowsForward(trace: seq<State>, actions: seq<Action>, i: nat, j: nat, k: NodeKey)
    requires Execution(trace, actions) && i <= j < |trace| && k in trace[i].nodes
    ensures k in trace[j].nodes && Forward(trace[i].nodes[k], trace[j].nodes[k])
  {
    hide Inv, Can, Do, Execution;
    if i < j {
      RowsForward(trace, actions, i, j - 1, k);
      StepOf(trace, actions, j);
      ForwardStep(trace[i].nodes[k], trace[j - 1].nodes[k], trace[j].nodes[k]);
    }
  }

  /**
   No status is ever entered twice: if a row has the same status at two times, it did not
   change in between.  So a node is queued at most once, and picked up at most once.
   */
  lemma NoReturn(trace: seq<State>, actions: seq<Action>, i: nat, j: nat, m: nat, k: NodeKey)
    requires Execution(trace, actions) && i <= j <= m < |trace| && k in trace[i].nodes
    requires k in trace[m].nodes && trace[m].nodes[k].status == trace[i].nodes[k].status
    ensures k in trace[j].nodes && trace[j].nodes[k] == trace[i].nodes[k]
  {
    RowsForward(trace, actions, i, j, k);
    RowsForward(trace, actions, j, m, k);
  }

  /** Finished rows are final: what the monitor failed stays failed whatever arrives later. */
  lemma FinishedForever(trace: seq<State>, actions: seq<Action>, i: nat, j: nat, k: NodeKey)
    requires Execution(trace, actions) && i <= j < |trace|
    requires k in trace[i].nodes && Finished(trace[i].nodes[k].status)
    ensures k in trace[j].nodes && trace[j].nodes[k] == trace[i].nodes[k]
  {
    hide Execution;
    RowsForward(trace, actions, i, j, k);
  }

  // ---- Dependencies ----

  lemma NotStartedYet(s: State)
    requires Inv(s) && s.sched.Picked?
    ensures s.sched.run !in s.plans
  {
    hide TablesOk, JobsOk;
  }

  lemma StepKeepsPlans(s: State, a: Action, r: int)
    requires Inv(s) && Can(s, a) && r in s.plans
    ensures r in Do(s, a).plans && Do(s, a).plans[r] == s.plans[r]
  {
    hide Inv, VisitNode, CanVisit, Ordered, PendingRows, FinalStatus, ServedBefore;
    if a.Prepare? { NotStartedYet(s); }
    if a.Visit? { VisitFrame(s, a.choice); }
  }

  lemma {:induction false} PlansStay(trace: seq<State>, actions: seq<Action>, i: nat, j: nat, r: int)
    requires Execution(trace, actions) && i <= j < |trace| && r in trace[i].plans
    ensures r in trace[j].plans && trace[j].plans[r] == trace[i].plans[r]
  {
    hide Inv, Do, Can, RowsEvolve, Init, Step;
    if i < j {
      PlansStay(trace, actions, i, j - 1, r);
      StepOf(trace, actions, j);
      StepKeepsPlans(trace[j - 1], actions[j - 1], r);
    }
  }

  /** `path` leads from a node over dependencies to a transitive dependency. */
  ghost predicate DependencyPath(plan: seq<Task>, path: seq<string>) {
    && path != []
    && forall i, j :: 0 <= i && j == i + 1 && j < |path| ==> DirectDependency(plan, path[i], path[j])
  }

  ghost predicate DirectDependency(plan: seq<Task>, x: string, d: string) {
    exists t :: t in plan && t.id == x && d in t.deps
  }

  /** In a single state: a node that ever got an agent has only successful transitive dependencies. */
  lemma {:induction false} TransitiveSuccess(s: State, r: int, path: seq<string>)
    requires Inv(s) && r in s.plans && DependencyPath(s.plans[r], path) && |path| >= 2
    requires NodeKey(r, path[0]) in s.nodes && s.nodes[NodeKey(r, path[0])].agent.Some?
    ensures NodeKey(r, path[|path| - 1]) in s.nodes && s.nodes[NodeKey(r, path[|path| - 1])].status == Success
    decreases |path|
  {
    hide JobsOk, SchedOk, AgentsOk, IssuedOk, Names, Ordered;
    var d := path[1];
    assert DirectDependency(s.plans[r], path[0], d);
    var t :| t in s.plans[r] && t.id == path[0] && d in t.deps;
    assert DepsSucceeded(s.nodes, r, t);
    assert RowOk(s.nodes[NodeKey(r, d)]);
    if |path| > 2 {
      assert DependencyPath(s.plans[r], path[1..]);
      TransitiveSuccess(s, r, path[1..]);
    }
  }

  /** Dependency safety: once a node has been queued, all its transitive dependencies are successes, for ever. */
  lemma QueuedMeansDependenciesSucceeded(trace: seq<State>, actions: seq<Action>, i: nat, j: nat,
                                         r: int, path: seq<string>)
    requires Execution(trace, actions) && i <= j < |trace|
    requires r in trace[i].plans && DependencyPath(trace[i].plans[r], path) && |path| >= 2
    requires NodeKey(r, path[0]) in trace[i].nodes && trace[i].nodes[NodeKey(r, path[0])].status in {Queued, Running}
    ensures var d := NodeKey(r, path[|path| - 1]);
      d in trace[j].nodes && trace[j].nodes[d].status == Success
  {
    AlwaysInv(trace, actions, i);
    assert trace[i].nodes[NodeKey(r, path[0])].agent.Some? by { assert TablesOk(trace[i]); }
    hide Inv, Execution;
    TransitiveSuccess(trace[i], r, path);
    FinishedForever(trace, actions, i, j, NodeKey(r, path[|path| - 1]));
  }

  // ---- Isolation and order of runs ----

  /** At any time, all claimed nodes belong to one run, the one the scheduler is executing. */
  lemma OneRunAtATime(s: State, k: NodeKey)
    requires Inv(s) && k in s.nodes && s.nodes[k].status in {Queued, Running}
    ensures s.sched.Executing? && s.sched.run == k.run
  {
    hide Ordered, Names, DepsOk, ViewOk, Verdict, AllRows;
    assert k.run in s.plans && k.node in Names(s.plans[k.run]);
    assert NodeKey(k.run, k.node) == k;
    assert !Ended(s, k.run);
    assert k.run in s.jobs;
    assert Current(s, k.run);
  }

  lemma Isolation(trace: seq<State>, actions: seq<Action>, i: nat, k: NodeKey, m: NodeKey)
    requires Execution(trace, actions) && i < |trace|
    requires k in trace[i].nodes && m in trace[i].nodes
    requires trace[i].nodes[k].status in {Queued, Running} && trace[i].nodes[m].status in {Queued, Running}
    ensures k.run == m.run
  {
    AlwaysInv(trace, actions, i);
    OneRunAtATime(trace[i], k);
    OneRunAtATime(trace[i], m);
  }

  /** Picked runs are no longer queued, except the one being started; none is picked twice. */
  ghost predicate PickedOnce(s: State) {
    && (forall p :: p in s.picks ==> p in s.jobs && (s.jobs[p].status == Queued ==> s.sched == Picked(p)))
    && (s.sched.Picked? ==> s.sched.run in s.picks)
    && (forall i, j :: 0 <= i < j < |s.picks| ==> s.picks[i] != s.picks[j])
  }

  /** Everything still queued comes after the runs picked so far. */
  ghost predicate PicksOk(s: State) {
    && (forall p, q :: p in s.picks && q in s.jobs && s.jobs[q].status == Queued && q != p ==> p < q)
    && (forall i, j :: 0 <= i < j < |s.picks| ==> s.picks[i] < s.picks[j])
  }

  /** Runs are numbered in the order in which they are created: the clock did not go back. */
  ghost predicate Numbered(jobs: map<int, JobRow>) {
    forall p, q :: p in jobs && q in jobs && p < q ==> jobs[p].createdAt <= jobs[q].createdAt
  }

  lemma ServedInOrder(jobs: map<int, JobRow>, p: int, q: int)
    requires Numbered(jobs) && p in jobs && q in jobs
    ensures ServedBefore(jobs, p, q) ==> p < q
  {}

  /** What steps do to job rows, as far as the order of runs is concerned. */
  ghost predicate JobsLater(s: State, s': State) {
    && (forall q :: q in s.jobs ==> q in s'.jobs && s'.jobs[q].createdAt == s.jobs[q].createdAt)
    && (forall q :: q in s.jobs && s'.jobs[q].status == Queued ==> s.jobs[q].status == Queued)
    && (forall p, q :: p in s.jobs && q in s'.jobs && q !in s.jobs ==> p < q)
  }

  lemma StepJobsLater(s: State, a: Action)
    requires Inv(s) && Can(s, a)
    ensures JobsLater(s, Do(s, a))
  {
    hide Inv, Can, Do, JobsLater;
    if a.Enqueue? {
      EnqueueLater(s, a.newRun, a.createdAt);
    } else {
      NoNewJobs(s, a);
      SameJobsLater(s, Do(s, a));
    }
  }

  lemma SameJobsLater(s: State, s': State)
    requires s'.jobs.Keys == s.jobs.Keys
    requires forall q :: q in s.jobs ==> s'.jobs[q].createdAt == s.jobs[q].createdAt
    requires forall q :: q in s.jobs && s'.jobs[q].status == Queued ==> s.jobs[q].status == Queued
    ensures JobsLater(s, s')
  {}

  lemma EnqueueLater(s: State, r: int, t: int)
    requires Can(s, Enqueue(r, t))
    ensures JobsLater(s, Do(s, Enqueue(r, t)))
  {}

  lemma NoNewJobs(s: State, a: Action)
    requires Inv(s) && Can(s, a) && !a.Enqueue?
    ensures Do(s, a).jobs.Keys == s.jobs.Keys
    ensures forall q :: q in s.jobs ==> Do(s, a).jobs[q].createdAt == s.jobs[q].createdAt
    ensures forall q :: q in s.jobs && Do(s, a).jobs[q].status == Queued ==> s.jobs[q].status == Queued
  {
    hide Inv, VisitNode, CanVisit, MonitorPass, Ordered, PendingRows, Names, Ids, StorableCount, ServedBefore;
    if a.FailStart? || a.Prepare? || a.Finalize? || a.Cancel? {
      hide InsertPrefix, ObserveNode;
    } else {
      JobsKept(s, a);
      hide Can, Do;
    }
  }

  lemma StepKeepsPicks(s: State, a: Action)
    requires Inv(s) && Can(s, a) && PickedOnce(s)
    ensures PickedOnce(Do(s, a))
    ensures PicksOk(s) && Numbered(s.jobs) ==> PicksOk(Do(s, a))
  {
    hide Inv;
    StepJobsLater(s, a);
    if a.Pick? {
      PickKeepsPicks(s, a.run);
    } else {
      OtherPicks(s, a);
      hide Do, Can;
      LaterKeepsPicks(s, Do(s, a));
    }
  }

  lemma PickKeepsPicks(s: State, r: int)
    requires Can(s, Pick(r)) && PickedOnce(s)
    ensures PickedOnce(Do(s, Pick(r)))
    ensures PicksOk(s) && Numbered(s.jobs) ==> PicksOk(Do(s, Pick(r)))
  {
    forall q | q in s.jobs && s.jobs[q].status == Queued && q != r && Numbered(s.jobs) ensures r < q {
      ServedInOrder(s.jobs, r, q);
    }
    hide Numbered, ServedBefore;
    AppendPick(s, Do(s, Pick(r)), r);
  }

  lemma AppendPick(s: State, s': State, r: int)
    requires PickedOnce(s) && s.sched.Idle? && r in s.jobs && s.jobs[r].status == Queued
    requires s' == s.(sched := Picked(r), picks := s.picks + [r])
    ensures PickedOnce(s')
    ensures PicksOk(s) && (forall q :: q in s.jobs && s.jobs[q].status == Queued && q != r ==> r < q) ==> PicksOk(s')
  {
    assert forall p :: p in s.picks ==> s.jobs[p].status != Queued && p != r && (PicksOk(s) ==> p < r);
    assert forall i :: 0 <= i < |s.picks| ==> s.picks[i] in s.picks;
  }

  /** Only picking adds to the picks, and a picked run leaves the queue before the next one is picked. */
  lemma OtherPicks(s: State, a: Action)
    requires Inv(s) && Can(s, a) && !a.Pick?
    ensures var s' := Do(s, a);
      && s'.picks == s.picks
      && (s'.sched.Picked? ==> s'.sched == s.sched)
      && (s.sched.Picked? && !s'.sched.Picked? ==> s.sched.run in s'.jobs && s'.jobs[s.sched.run].status != Queued)
  {
    hide TablesOk, JobsOk, ViewOk;
  }

  lemma LaterKeepsPicks(s: State, s': State)
    requires PickedOnce(s) && JobsLater(s, s') && s'.picks == s.picks
    requires s'.sched.Picked? ==> s'.sched == s.sched
    requires s.sched.Picked? && !s'.sched.Picked? ==> s.sched.run in s'.jobs && s'.jobs[s.sched.run].status != Queued
    ensures PickedOnce(s') && (PicksOk(s) ==> PicksOk(s'))
  {}

  lemma {:induction false} AlwaysPicksOk(trace: seq<State>, actions: seq<Action>, i: nat)
    requires Execution(trace, actions) && i < |trace|
    ensures PickedOnce(trace[i])
    ensures Numbered(trace[i].jobs) ==> PicksOk(trace[i])
  {
    if i > 0 {
      hide Inv, Do, Can, PicksOk, PickedOnce, Numbered, RowsEvolve, Init, Step, JobsLater;
      AlwaysPicksOk(trace, actions, i - 1);
      StepOf(trace, actions, i);
      StepJobsLater(trace[i - 1], actions[i - 1]);
      NumberedEarlier(trace[i - 1], trace[i]);
      StepKeepsPicks(trace[i - 1], actions[i - 1]);
    }
  }

  lemma NumberedEarlier(s: State, s': State)
    requires JobsLater(s, s')
    ensures Numbered(s'.jobs) ==> Numbered(s.jobs)
  {}

  /** A run is picked at most once, whatever the clock does. */
  lemma PickedAtMostOnce(trace: seq<State>, actions: seq<Action>, i: nat, m: nat, n: nat)
    requires Execution(trace, actions) && i < |trace| && m < n < |trace[i].picks|
    ensures trace[i].picks[m] != trace[i].picks[n]
  {
    AlwaysPicksOk(trace, actions, i);
  }

  lemma {:induction false} CreationStays(trace: seq<State>, actions: seq<Action>, i: nat, j: nat, r: int)
    requires Execution(trace, actions) && i <= j < |trace| && r in trace[i].jobs
    ensures r in trace[j].jobs && trace[j].jobs[r].createdAt == trace[i].jobs[r].createdAt
  {
    hide Inv, Do, Can, RowsEvolve, Init, Step;
    if i < j {
      CreationStays(trace, actions, i, j - 1, r);
      StepOf(trace, actions, j);
      StepJobsLater(trace[j - 1], actions[j - 1]);
    }
  }

  /** Of two runs queued at the same time, the one created first, or with the lower id, is picked first. */
  lemma PickedFirst(trace: seq<State>, actions: seq<Action>, i: nat, j: nat, p: int, q: int)
    requires Execution(trace, actions) && i < j < |actions| && actions[i] == Pick(p) && actions[j] == Pick(q)
    requires q in trace[i].jobs && trace[i].jobs[q].status == Queued && q != p
    ensures p in trace[j].jobs && q in trace[j].jobs
    ensures var a, b := trace[j].jobs[p].createdAt, trace[j].jobs[q].createdAt; a < b || (a == b && p < q)
  {
    StepOf(trace, actions, i + 1);
    CreationStays(trace, actions, i, j, p);
    CreationStays(trace, actions, i, j, q);
    hide Execution, Inv, Do, RowsEvolve;
  }

  /** With a clock that does not go back, runs are picked in the order of their ids, which is that of their creation. */
  lemma PickedInOrder(trace: seq<State>, actions: seq<Action>, i: nat, m: nat, n: nat)
    requires Execution(trace, actions) && i < |trace| && m < n < |trace[i].picks| && Numbered(trace[i].jobs)
    ensures var p, q := trace[i].picks[m], trace[i].picks[n];
      p < q && p in trace[i].jobs && q in trace[i].jobs && trace[i].jobs[p].createdAt <= trace[i].jobs[q].createdAt
  {
    hide Execution;
    AlwaysPicksOk(trace, actions, i);
  }
}
