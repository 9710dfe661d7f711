/**
 The invariant of the run protocol, kept by every step of every participant.
 */
module RunInvariant {
  import opened Wrappers
  import opened RunState

  // ---- Node rows ----

  /** The moves a node row can make in one step. */
  ghost predicate Evolves(a: NodeRow, b: NodeRow) {
    || a == b
    || (a.status == Pending && a.agent.None? && (b == NodeRow(Skipped, None) || b == NodeRow(Failed, None)))
    || (a.status == Pending && a.agent.None? && b.status == Queued && b.agent.Some?)
    || (a.status == Queued && b.agent == a.agent && (b.status == Running || b.status == Failed))
    || (a.status == Running && b.agent == a.agent && Outcome(b.status))
  }

  /** A row has an agent from the moment it is queued. */
  ghost predicate RowOk(row: NodeRow) {
    && row.status != CancelRequested
    && (row.status == Pending || row.status == Skipped ==> row.agent.None?)
    && (Active(row.status) || row.status == Success || row.status == TimedOut || row.status == Canceled ==>
          row.agent.Some?)
  }

  ghost predicate AgentsOk(agents: map<string, AgentRow>, nodes: map<NodeKey, NodeRow>) {
    && LOCAL in agents && agents[LOCAL].online
    && forall k :: k in nodes && Active(nodes[k].status) ==>
         nodes[k].agent.Some? && nodes[k].agent.value in agents && agents[nodes[k].agent.value].online
  }

  /** A task handed out and not reported is running, or its agent is offline; every running row was handed out. */
  ghost predicate IssuedOk(agents: map<string, AgentRow>, nodes: map<NodeKey, NodeRow>, issued: set<NodeKey>) {
    && (forall k :: k in issued ==>
          && k in nodes && nodes[k].agent.Some? && nodes[k].agent.value in agents
          && (nodes[k].status == Running || !agents[nodes[k].agent.value].online))
    && (forall k :: k in nodes && nodes[k].status == Running ==> k in issued)
  }

  /** The node belongs to a run that was started, or its row is all there is of a run that could not be. */
  ghost predicate Belongs(k: NodeKey, row: NodeRow, plans: map<int, seq<Task>>, stubs: map<int, set<string>>) {
    || (k.run in plans && k.node in Names(plans[k.run]) && RowOk(row))
    || (k.run in stubs && k.node in stubs[k.run] && row == NodeRow(Pending, None))
  }

  /** Exactly the nodes of the started runs have rows, and the first few of runs that could not be started. */
  ghost predicate RowsOk(nodes: map<NodeKey, NodeRow>, plans: map<int, seq<Task>>, stubs: map<int, set<string>>) {
    && (forall r :: r in plans ==> plans[r] != [] && Ordered(plans[r]) && r !in stubs)
    && (forall k :: k in nodes ==> Belongs(k, nodes[k], plans, stubs))
    && (forall r, x :: r in plans && x in Names(plans[r]) ==> NodeKey(r, x) in nodes)
    && (forall r, x :: r in stubs && x in stubs[r] ==> NodeKey(r, x) in nodes)
  }

  ghost predicate DepsSucceeded(nodes: map<NodeKey, NodeRow>, run: int, task: Task) {
    forall d :: d in task.deps ==> NodeKey(run, d) in nodes && nodes[NodeKey(run, d)].status == Success
  }

  /** A node that ever got an agent has only successful dependencies. */
  ghost predicate DepsOk(nodes: map<NodeKey, NodeRow>, plans: map<int, seq<Task>>) {
    forall r, t :: r in plans && t in plans[r] && NodeKey(r, t.id) in nodes && nodes[NodeKey(r, t.id)].agent.Some? ==>
      DepsSucceeded(nodes, r, t)
  }

  ghost predicate TablesOk(s: State) {
    && AgentsOk(s.agents, s.nodes)
    && IssuedOk(s.agents, s.nodes, s.issued)
    && RowsOk(s.nodes, s.plans, s.stubs)
    && DepsOk(s.nodes, s.plans)
  }

  // ---- The scheduler's view ----

  function Live(e: Scheduler): set<string>
    requires e.Executing?
  {
    if e.phase.Scanning? then e.running + e.phase.queued else e.running
  }

  /** Results are the rows' final statuses, live nodes are under way or done, all other rows are untouched. */
  ghost predicate Agreement(nodes: map<NodeKey, NodeRow>, run: int, names: set<string>,
                            results: map<string, Status>, live: set<string>)
  {
    forall x :: x in names ==>
      && NodeKey(run, x) in nodes
      && var row := nodes[NodeKey(run, x)];
         if x in results then x !in live && row.status == results[x] && Finished(row.status)
         else if x in live then row.agent.Some? && (Active(row.status) || Outcome(row.status))
         else row.status == Pending
  }

  /** Flags have causes among the results, and skips have flags. */
  ghost predicate FlagsOk(results: map<string, Status>, stop: bool, canceling: bool) {
    && (forall x :: x in results && Unsuccessful(results[x]) ==> stop)
    && (forall x :: x in results && results[x] == Canceled ==> canceling)
    && (forall x :: x in results && results[x] == Skipped ==> stop || canceling)
    && (stop ==> exists x :: x in results && Unsuccessful(results[x]))
  }

  ghost predicate KeysOk(names: set<string>, results: map<string, Status>, live: set<string>) {
    && live <= names
    && results.Keys <= names + {PHANTOM}
    && (PHANTOM in results ==> results[PHANTOM] == Canceled)
  }

  /** A node the scan has passed is resolved, under way, or waits for a dependency without being blocked. */
  ghost predicate SettledTask(t: Task, results: map<string, Status>, live: set<string>) {
    t.id in results || t.id in live || (Unresolved(t, results) && !Blocked(t, results))
  }

  ghost predicate Settled(plan: seq<Task>, results: map<string, Status>, live: set<string>, n: nat) {
    n <= |plan| && forall i :: 0 <= i < n ==> SettledTask(plan[i], results, live)
  }

  /** Whatever the scheduler has touched has a failed dependency or no open one. */
  ghost predicate TouchedOk(plan: seq<Task>, results: map<string, Status>, live: set<string>) {
    forall t :: t in plan && (t.id in results || t.id in live) ==> Blocked(t, results) || !Unresolved(t, results)
  }

  ghost predicate PhaseOk(plan: seq<Task>, e: Scheduler)
    requires e.Executing?
  {
    match e.phase
    case Checking => true
    case Scanning(n, queued) =>
      Settled(plan, e.results, Live(e), n) && queued !! e.running
      && queued <= (if n <= |plan| then Ids(plan, n) else {})
    case Waiting => e.running != {} && Settled(plan, e.results, e.running, |plan|)
    case Finalizing => e.running == {} && Settled(plan, e.results, e.running, |plan|)
  }

  ghost predicate ViewOk(nodes: map<NodeKey, NodeRow>, plan: seq<Task>, e: Scheduler)
    requires e.Executing?
  {
    && KeysOk(Names(plan), e.results, Live(e))
    && Agreement(nodes, e.run, Names(plan), e.results, Live(e))
    && FlagsOk(e.results, e.stop, e.canceling)
    && TouchedOk(plan, e.results, Live(e))
    && PhaseOk(plan, e)
  }

  ghost predicate SchedOk(s: State) {
    match s.sched
    case Idle => true
    case Picked(r) =>
      r in s.jobs && r !in s.plans && (s.jobs[r].status == Queued || s.jobs[r].status == CancelRequested)
    case Executing(r, _, _, _, _, _) =>
      && r in s.jobs && r in s.plans
      && (s.jobs[r].status == Running || s.jobs[r].status == CancelRequested)
      && ViewOk(s.nodes, s.plans[r], s.sched)
      && (s.sched.canceling <==> r in s.observed)
  }

  // ---- Job rows ----

  ghost predicate AnyRow(nodes: map<NodeKey, NodeRow>, r: int, names: set<string>, st: Status) {
    exists x :: x in names && NodeKey(r, x) in nodes && nodes[NodeKey(r, x)].status == st
  }

  ghost predicate AllRows(nodes: map<NodeKey, NodeRow>, r: int, names: set<string>, st: Status) {
    forall x :: x in names ==> NodeKey(r, x) in nodes && nodes[NodeKey(r, x)].status == st
  }

  /** What a run's status should be, given its node rows and whether a cancel was observed. */
  ghost function Verdict(nodes: map<NodeKey, NodeRow>, r: int, names: set<string>, canceled: bool): Status {
    if AnyRow(nodes, r, names, TimedOut) then TimedOut
    else if AnyRow(nodes, r, names, Failed) then Failed
    else if canceled then Canceled
    else Success
  }

  ghost predicate AllFinished(nodes: map<NodeKey, NodeRow>, r: int, names: set<string>) {
    forall x :: x in names ==> NodeKey(r, x) in nodes && Finished(nodes[NodeKey(r, x)].status)
  }

  /** The run was executed to its end and its row tells how. */
  ghost predicate Ended(s: State, r: int) {
    && r in s.jobs && r in s.plans
    && var names := Names(s.plans[r]);
       && AllFinished(s.nodes, r, names)
       && s.jobs[r].status == Verdict(s.nodes, r, names, r in s.observed)
       && (s.jobs[r].status == Success <==> AllRows(s.nodes, r, names, Success) && r !in s.observed)
  }

  /** The run has not been executed: it is still queued, was canceled while queued, or could not be started. */
  ghost predicate Unstarted(s: State, r: int) {
    && r in s.jobs && r !in s.plans
    && (r in s.stubs ==> s.jobs[r].status == Failed)
    && (s.jobs[r].status == Queued || s.jobs[r].status == CancelRequested || s.jobs[r].status == Failed)
  }

  ghost predicate Current(s: State, r: int) { !s.sched.Idle? && s.sched.run == r }

  ghost predicate JobsOk(s: State) {
    && (forall r :: r in s.jobs && !Current(s, r) ==> Unstarted(s, r) || Ended(s, r))
    && (forall r :: r in s.plans || r in s.stubs ==> r in s.jobs)
    && (forall r :: r in s.observed ==> r in s.plans)
  }

  ghost predicate Inv(s: State) { TablesOk(s) && SchedOk(s) && JobsOk(s) }

  // ---- Changing one row ----

  /** What a change of one row must respect. */
  ghost predicate RowChange(s: State, k: NodeKey, row: NodeRow, issued: set<NodeKey>) {
    && k in s.nodes && k.run in s.plans && Evolves(s.nodes[k], row) && RowOk(row)
    && (Active(row.status) ==> row.agent.Some? && row.agent.value in s.agents && s.agents[row.agent.value].online)
    && issued == (if row.status == Running then s.issued + {k} else s.issued - {k})
    && (row.agent.Some? && s.nodes[k].agent.None? ==>
          forall t :: t in s.plans[k.run] && t.id == k.node ==> DepsSucceeded(s.nodes, k.run, t))
  }

  lemma ChangeRow(s: State, k: NodeKey, row: NodeRow, issued: set<NodeKey>)
    requires TablesOk(s) && RowChange(s, k, row, issued)
    ensures TablesOk(s.(nodes := s.nodes[k := row], issued := issued))
  {
    var nodes := s.nodes[k := row];
    assert k.run in s.plans && RowsOk(s.nodes, s.plans, s.stubs) by { hide RowsOk, AgentsOk, IssuedOk, DepsOk; }
    ChangeRows(s, k, row);
    hide RowsOk;
    assert AgentsOk(s.agents, nodes) by { hide DepsOk, IssuedOk; }
    assert IssuedOk(s.agents, nodes, issued) by { hide DepsOk, AgentsOk; }
    assert DepsOk(nodes, s.plans) by { ChangeDeps(s, k, row); }
  }

  lemma ChangeRows(s: State, k: NodeKey, row: NodeRow)
    requires RowsOk(s.nodes, s.plans, s.stubs) && k in s.nodes && k.run in s.plans && RowOk(row)
    ensures RowsOk(s.nodes[k := row], s.plans, s.stubs)
  {
    hide Names, Ordered, RowOk;
  }

  lemma ChangeDeps(s: State, k: NodeKey, row: NodeRow)
    requires DepsOk(s.nodes, s.plans) && k in s.nodes && k.run in s.plans && Evolves(s.nodes[k], row)
    requires row.agent.Some? && s.nodes[k].agent.None? ==>
          forall t :: t in s.plans[k.run] && t.id == k.node ==> DepsSucceeded(s.nodes, k.run, t)
    ensures DepsOk(s.nodes[k := row], s.plans)
  {
    var nodes := s.nodes[k := row];
    forall r, t | r in s.plans && t in s.plans[r] && NodeKey(r, t.id) in nodes && nodes[NodeKey(r, t.id)].agent.Some?
      ensures DepsSucceeded(nodes, r, t)
    {
      assert DepsSucceeded(s.nodes, r, t);
    }
  }
}
