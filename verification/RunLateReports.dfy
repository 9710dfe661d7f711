/** Reports accepted while their run is in the scheduler's hands, whether or not the agent may send them. */
module RunLateReports {
  import opened Wrappers
  import opened RunState
  import opened RunInvariant
  import opened RunSteps
  import opened RunTheorems
  import opened RunOutcomes
  import opened RunReports

  /** What the handler makes of an accepted report. */
  function Reported(s: State, k: NodeKey, o: Status): State
    requires k in s.nodes
  {
    SetStatus(s, k, o).(issued := s.issued - {k})
  }

  // ---- When the invariant survives ----

  /** A node that has no result yet has no launched dependents. */
  lemma NoDependents(s: State, k: NodeKey, t: Task)
    requires Inv(s) && s.sched.Executing? && s.sched.run == k.run && k.run in s.plans
    requires k.node !in s.sched.results && t in s.plans[k.run] && k.node in t.deps && NodeKey(k.run, t.id) in s.nodes
    ensures s.nodes[NodeKey(k.run, t.id)].agent.None?
  {
    var e, plan := s.sched, s.plans[k.run];
    CurrentView(s);
    assert t.id in Names(plan);
    TaskDeps(plan, t);
    NodesOk(s, NodeKey(k.run, t.id));
    TablesHold(s);
    assert DepsOk(s.nodes, s.plans) by { hide AgentsOk, IssuedOk, RowsOk, DepsOk, Inv; }
    hide Inv, TablesOk, RowsOk, Names, Ordered, FlagsOk, PhaseOk;
    assert t.id in e.results || t.id in Live(e) ==> Blocked(t, e.results);
    assert s.nodes[NodeKey(k.run, t.id)].agent.Some? ==> DepsSucceeded(s.nodes, k.run, t);
    BlockedHasFailure(s.nodes, k.run, Names(plan), e.results, Live(e), t);
    hide Blocked, DepsSucceeded;
  }

  lemma BlockedHasFailure(nodes: map<NodeKey, NodeRow>, run: int, names: set<string>, results: map<string, Status>,
                          live: set<string>, t: Task)
    requires Agreement(nodes, run, names, results, live) && t.deps <= names
    ensures Blocked(t, results) ==> !DepsSucceeded(nodes, run, t)
  {}

  lemma TaskDeps(plan: seq<Task>, t: Task)
    requires Ordered(plan) && t in plan
    ensures t.deps <= Names(plan)
  {
    var i :| 0 <= i < |plan| && plan[i] == t;
    IdsGrow(plan, i, |plan|);
  }

  lemma NodesOk(s: State, k: NodeKey)
    requires Inv(s) && k in s.nodes && k.run in s.plans
    ensures k.node in Names(s.plans[k.run]) && RowOk(s.nodes[k])
  {
    TablesHold(s);
    hide Inv, AgentsOk, IssuedOk, DepsOk, Names, Ordered, RowOk;
    assert Belongs(k, s.nodes[k], s.plans, s.stubs);
  }

  /** The tables bear the report: the row is finished, its task is given back, and nothing was launched after it. */
  lemma ReportedTables(s: State, k: NodeKey, o: Status)
    requires Inv(s) && k in s.nodes && s.nodes[k].agent.Some? && Outcome(o)
    requires s.sched.Executing? && s.sched.run == k.run && k.node !in s.sched.results
    ensures TablesOk(Reported(s, k, o))
  {
    InvParts(s);
    TablesHold(s);
    ReportedName(s, k);
    NodesOk(s, k);
    ReportedDeps(s, k, o);
    hide Inv, RowsOk, DepsOk, SchedOk, JobsOk, RowOk;
    ChangeRows(s, k, s.nodes[k].(status := o));
    ReportedAgents(s, k, o);
    hide AgentsOk, IssuedOk;
  }

  lemma ReportedAgents(s: State, k: NodeKey, o: Status)
    requires AgentsOk(s.agents, s.nodes) && IssuedOk(s.agents, s.nodes, s.issued) && k in s.nodes && Outcome(o)
    ensures AgentsOk(s.agents, Reported(s, k, o).nodes)
    ensures IssuedOk(s.agents, Reported(s, k, o).nodes, Reported(s, k, o).issued)
  {}

  lemma ReportedDeps(s: State, k: NodeKey, o: Status)
    requires Inv(s) && k in s.nodes && s.nodes[k].agent.Some?
    requires s.sched.Executing? && s.sched.run == k.run && k.node !in s.sched.results
    ensures DepsOk(Reported(s, k, o).nodes, s.plans)
  {
    hide Inv, DepsSucceeded;
    var nodes := Reported(s, k, o).nodes;
    ReportedName(s, k);
    forall r, t | r in s.plans && t in s.plans[r] && NodeKey(r, t.id) in nodes && nodes[NodeKey(r, t.id)].agent.Some?
      ensures DepsSucceeded(nodes, r, t)
    {
      hide Names, DepsOk;
      SucceededDeps(s, r, t);
      if r == k.run && k.node in t.deps { NoDependents(s, k, t); }
      DepsElsewhere(s, k, o, r, t);
    }
  }

  lemma SucceededDeps(s: State, r: int, t: Task)
    requires Inv(s) && r in s.plans && t in s.plans[r] && NodeKey(r, t.id) in s.nodes
    requires s.nodes[NodeKey(r, t.id)].agent.Some?
    ensures DepsSucceeded(s.nodes, r, t)
  {
    InvParts(s);
    hide Inv, SchedOk, JobsOk, AgentsOk, IssuedOk, RowsOk, DepsSucceeded;
  }

  lemma DepsElsewhere(s: State, k: NodeKey, o: Status, r: int, t: Task)
    requires k in s.nodes && DepsSucceeded(s.nodes, r, t)
    ensures r != k.run || k.node !in t.deps ==> DepsSucceeded(Reported(s, k, o).nodes, r, t)
  {}

  lemma AgreementReported(nodes: map<NodeKey, NodeRow>, k: NodeKey, o: Status, names: set<string>,
                          results: map<string, Status>, live: set<string>)
    requires Agreement(nodes, k.run, names, results, live) && k in nodes && k.node in names && Outcome(o)
    requires nodes[k].agent.Some? && RowOk(nodes[k])
    ensures Agreement(nodes[k := nodes[k].(status := o)], k.run, names, results, live)
      <==> k.node !in results || nodes[k].status == o
  {
    assert NodeKey(k.run, k.node) == k;
  }

  /** Runs other than that of the node do not notice. */
  lemma OtherRunKept(s: State, k: NodeKey, o: Status, r: int)
    requires k in s.nodes && r != k.run && Ended(s, r)
    ensures Ended(Reported(s, k, o), r)
  {
    var names, nodes := Names(s.plans[r]), Reported(s, k, o).nodes;
    hide Names;
    assert forall x :: x in names ==> NodeKey(r, x) in nodes && nodes[NodeKey(r, x)] == s.nodes[NodeKey(r, x)];
    assert forall st :: AnyRow(nodes, r, names, st) <==> AnyRow(s.nodes, r, names, st);
    assert forall st :: AllRows(nodes, r, names, st) <==> AllRows(s.nodes, r, names, st);
  }

  lemma ReportedJobs(s: State, k: NodeKey, o: Status)
    requires JobsOk(s) && k in s.nodes && Current(s, k.run)
    ensures JobsOk(Reported(s, k, o))
  {
    var s' := Reported(s, k, o);
    forall r | r in s'.jobs && !Current(s', r) ensures Unstarted(s', r) || Ended(s', r) {
      if Ended(s, r) { OtherRunKept(s, k, o, r); }
    }
  }

  /** The scheduler's view bears the report exactly when it has not taken in the node, or took in that status. */
  lemma ReportedView(s: State, k: NodeKey, o: Status)
    requires Inv(s) && k in s.nodes && s.nodes[k].agent.Some? && Outcome(o)
    requires s.sched.Executing? && s.sched.run == k.run
    ensures SchedOk(Reported(s, k, o)) <==> k.node !in s.sched.results || s.nodes[k].status == o
  {
    InvParts(s);
    ReportedName(s, k);
    NodesOk(s, k);
    AgreementReported(s.nodes, k, o, Names(s.plans[k.run]), s.sched.results, Live(s.sched));
    hide Inv, TablesOk, JobsOk, RowOk, Agreement, FlagsOk, KeysOk, TouchedOk, PhaseOk, Names;
  }

  /**
   An accepted report for a node of the run in hand keeps the invariant, and with it everything
   proved of the rest of the run, exactly when the scheduler has not taken in the node's outcome, or
   the report repeats it.
   */
  lemma ReportKeepsInvIff(s: State, g: string, k: NodeKey, o: Status)
    requires Inv(s) && ReportAccepted(s, g, k, o) && Current(s, k.run) && s.sched.Executing?
    ensures Inv(Reported(s, k, o)) <==> k.node !in s.sched.results || s.nodes[k].status == o
  {
    ReportedView(s, k, o);
    InvParts(s);
    hide Inv, SchedOk, JobsOk;
    ReportedJobs(s, k, o);
    if k.node !in s.sched.results {
      ReportedTables(s, k, o);
    } else if s.nodes[k].status == o {
      RepeatedTables(s, k);
    }
    hide TablesOk, Reported;
    InvIs(Reported(s, k, o));
  }

  lemma InvIs(s: State)
    ensures Inv(s) <==> TablesOk(s) && SchedOk(s) && JobsOk(s)
  {
    hide TablesOk, SchedOk, JobsOk;
  }

  lemma RepeatedTables(s: State, k: NodeKey)
    requires TablesOk(s) && k in s.nodes && Outcome(s.nodes[k].status)
    ensures TablesOk(Reported(s, k, s.nodes[k].status))
  {
    SameStatus(s, k);
    hide RowsOk, DepsOk;
  }

  // ---- What becomes of the verdict ----

  /** The node's outcome is behind the scheduler and its task is given back. */
  ghost predicate Late(s: State, k: NodeKey) {
    && k in s.nodes && s.nodes[k].agent.Some? && Outcome(s.nodes[k].status) && k !in s.issued && k.run in s.plans
    && (s.sched.Executing? && s.sched.run == k.run ==> k.node in s.sched.results)
  }

  /** The step goes the same way whatever outcome stands in the row. */
  ghost predicate Blind(s: State, a: Action, k: NodeKey, o: Status)
    requires k in s.nodes
  {
    && Can(s, a) && Can(SetStatus(s, k, o), a)
    && Late(Do(s, a), k) && Do(SetStatus(s, k, o), a) == SetStatus(Do(s, a), k, o)
  }

  /** The outcome a worker's step writes. */
  function Written(a: Action): Status
    requires a.PickLocal? || a.FinishLocal? || a.Poll? || a.Report?
  {
    if a.PickLocal? || a.Poll? then Running else a.outcome
  }

  lemma WorkerDoes(s: State, a: Action)
    requires Can(s, a) && (a.PickLocal? || a.FinishLocal? || a.Poll? || a.Report?)
    ensures a.key in s.nodes
    ensures Do(s, a) == SetStatus(s, a.key, Written(a)).(
      issued := if Written(a) == Running then s.issued + {a.key} else s.issued - {a.key})
  {}

  /** Workers act on other nodes than the late one. */
  lemma WorkerElsewhere(s: State, a: Action, k: NodeKey, o: Status)
    requires Late(s, k) && Outcome(o) && Can(SetStatus(s, k, o), a)
    requires a.PickLocal? || a.FinishLocal? || a.Poll? || a.Report?
    ensures a.key != k && Can(s, a)
  {}

  lemma Swap(nodes: map<NodeKey, NodeRow>, k: NodeKey, row: NodeRow, m: NodeKey, other: NodeRow)
    requires m != k
    ensures nodes[k := row][m := other] == nodes[m := other][k := row]
  {}

  lemma WorkerBlind(s: State, a: Action, k: NodeKey, o: Status)
    requires Late(s, k) && Outcome(o) && Can(SetStatus(s, k, o), a)
    requires a.PickLocal? || a.FinishLocal? || a.Poll? || a.Report?
    ensures Blind(s, a, k, o)
  {
    WorkerElsewhere(s, a, k, o);
    WorkerDoes(s, a);
    WorkerDoes(SetStatus(s, k, o), a);
    Swap(s.nodes, k, s.nodes[k].(status := o), a.key, s.nodes[a.key].(status := Written(a)));
    hide Can, Do, Outcome;
  }

  lemma MonitorBlind(s: State, stale: set<string>, k: NodeKey, o: Status)
    requires Late(s, k) && Outcome(o) && LOCAL !in stale
    ensures Blind(s, Monitor(stale), k, o)
  {
    MonitorDoes(s, stale);
    MonitorDoes(SetStatus(s, k, o), stale);
    MonitorCommutes(s, stale, k, o);
    MonitorFrame(s, stale);
    hide Can, Do, MonitorPass, SetStatus;
  }

  lemma MonitorDoes(s: State, stale: set<string>)
    requires LOCAL !in stale
    ensures Can(s, Monitor(stale)) && Do(s, Monitor(stale)) == MonitorPass(s, stale)
  {}

  lemma MonitorCommutes(s: State, stale: set<string>, k: NodeKey, o: Status)
    requires k in s.nodes && Outcome(s.nodes[k].status) && Outcome(o)
    ensures k in MonitorPass(s, stale).nodes && MonitorPass(s, stale).nodes[k] == s.nodes[k]
    ensures MonitorPass(SetStatus(s, k, o), stale) == SetStatus(MonitorPass(s, stale), k, o)
  {
    var a, b := MonitorPass(SetStatus(s, k, o), stale), MonitorPass(s, stale);
    MonitorFrame(s, stale);
    MonitorFrame(SetStatus(s, k, o), stale);
    MonitorRow(s, stale, k);
    MonitorTables(s, stale);
    MonitorTables(SetStatus(s, k, o), stale);
    hide MonitorPass;
    forall m | m in s.nodes && m != k ensures a.nodes[m] == b.nodes[m] {
      OtherMonitorRow(s, stale, k, o, m);
    }
    MonitorRow(SetStatus(s, k, o), stale, k);
    hide Outcome;
    assert a.nodes == b.nodes[k := s.nodes[k].(status := o)];
  }

  lemma MonitorTables(s: State, stale: set<string>)
    ensures MonitorPass(s, stale).nodes.Keys == s.nodes.Keys
    ensures var cut := exists a :: a in stale && a in s.agents && s.agents[a].online;
      MonitorPass(s, stale).agents == if cut then
        map a | a in s.agents :: if a in stale then s.agents[a].(online := false) else s.agents[a]
      else s.agents
  {}

  lemma OtherMonitorRow(s: State, stale: set<string>, k: NodeKey, o: Status, m: NodeKey)
    requires k in s.nodes && m in s.nodes && m != k
    ensures m in MonitorPass(s, stale).nodes && m in MonitorPass(SetStatus(s, k, o), stale).nodes
    ensures MonitorPass(SetStatus(s, k, o), stale).nodes[m] == MonitorPass(s, stale).nodes[m]
  {
    MonitorTables(s, stale);
    MonitorTables(SetStatus(s, k, o), stale);
    MonitorRow(s, stale, m);
    MonitorRow(SetStatus(s, k, o), stale, m);
    hide MonitorPass, Active;
  }

  /** What a monitor pass makes of one row. */
  lemma MonitorRow(s: State, stale: set<string>, m: NodeKey)
    requires m in s.nodes
    ensures m in MonitorPass(s, stale).nodes
    ensures var row, s' := s.nodes[m], MonitorPass(s, stale);
      s'.nodes[m] == if (exists a :: a in stale && a in s.agents && s.agents[a].online) && Active(row.status)
                        && row.agent.Some? && row.agent.value in s'.agents && !s'.agents[row.agent.value].online
                     then row.(status := Failed) else row
  {}

  lemma StartBlind(s: State, a: Action, k: NodeKey, o: Status)
    requires Inv(s) && Late(s, k) && Outcome(o) && Can(SetStatus(s, k, o), a) && (a.Prepare? || a.InsertSome?)
    ensures Blind(s, a, k, o)
  {
    StartElsewhere(s, a, k, o);
    hide Inv, Can, Ordered, StorableCount, Names, Ids;
    var names := if a.Prepare? then Names(a.plan) else Ids(a.plan, StorableCount(a.plan));
    NotAmong(s.sched.run, names, k);
    RowsCommute(s.nodes, PendingRows(s.sched.run, names), k, s.nodes[k].(status := o));
    hide PendingRows;
    StartDoes(s, a);
    StartDoes(SetStatus(s, k, o), a);
    hide Do;
  }

  lemma StartDoes(s: State, a: Action)
    requires Can(s, a) && (a.Prepare? || a.InsertSome?)
    ensures s.sched.Picked? && s.sched.run in s.jobs
    ensures Do(s, a) == if a.Prepare? then StartRun(s, a.plan) else InsertPrefix(s, a.plan)
  {
    hide StartRun, InsertPrefix, Ordered, StorableCount;
  }

  lemma StartElsewhere(s: State, a: Action, k: NodeKey, o: Status)
    requires Inv(s) && Late(s, k) && Can(SetStatus(s, k, o), a) && (a.Prepare? || a.InsertSome?)
    ensures Can(s, a) && s.sched.Picked? && s.sched.run != k.run
  {
    hide StorableCount, Ordered;
    PickedUnstarted(s);
    hide Inv;
  }

  lemma NotAmong(run: int, names: set<string>, k: NodeKey)
    requires run != k.run
    ensures k !in PendingRows(run, names)
  {}

  lemma RowsCommute(nodes: map<NodeKey, NodeRow>, rows: map<NodeKey, NodeRow>, k: NodeKey, row: NodeRow)
    requires k !in rows
    ensures nodes[k := row] + rows == (nodes + rows)[k := row]
  {}

  /** A visit acts on other nodes than the late one, and sees the same. */
  lemma VisitElsewhere(s: State, choice: Option<string>, k: NodeKey, o: Status)
    requires Late(s, k) && CanVisit(SetStatus(s, k, o), choice)
    ensures CanVisit(s, choice) && VisitRow(SetStatus(s, k, o), choice) == VisitRow(s, choice)
    ensures VisitRow(s, choice).Some? ==> NodeKey(s.sched.run, s.plans[s.sched.run][s.sched.phase.next].id) != k
  {
    hide Assignable, Blocked, Unresolved;
  }

  lemma VisitBlind(s: State, choice: Option<string>, k: NodeKey, o: Status)
    requires Late(s, k) && CanVisit(SetStatus(s, k, o), choice)
    ensures CanVisit(s, choice) && Late(VisitNode(s, choice), k)
    ensures VisitNode(SetStatus(s, k, o), choice) == SetStatus(VisitNode(s, choice), k, o)
  {
    VisitElsewhere(s, choice, k, o);
    VisitStaysLate(s, choice, k);
    VisitForm(s, choice);
    VisitForm(SetStatus(s, k, o), choice);
    hide Late, CanVisit, VisitNode, VisitSched, VisitRow;
    if VisitRow(s, choice).Some? {
      var m := NodeKey(s.sched.run, s.plans[s.sched.run][s.sched.phase.next].id);
      Swap(s.nodes, k, s.nodes[k].(status := o), m, VisitRow(s, choice).value);
    }
  }

  lemma VisitStaysLate(s: State, choice: Option<string>, k: NodeKey)
    requires Late(s, k) && CanVisit(s, choice)
    ensures Late(VisitNode(s, choice), k)
  {
    VisitFrame(s, choice);
    VisitForm(s, choice);
    VisitOther(s, choice, k);
    hide CanVisit, VisitNode, VisitSched, VisitRow;
  }

  lemma VisitOther(s: State, choice: Option<string>, k: NodeKey)
    requires Late(s, k) && CanVisit(s, choice)
    ensures VisitRow(s, choice).Some? ==> NodeKey(s.sched.run, s.plans[s.sched.run][s.sched.phase.next].id) != k
  {
    hide Assignable, Blocked, Unresolved;
  }

  lemma ObserveBlind(s: State, x: string, k: NodeKey, o: Status)
    requires Inv(s) && Late(s, k) && Outcome(o) && Can(SetStatus(s, k, o), Observe(x))
    ensures Blind(s, Observe(x), k, o)
  {
    ObserveElsewhere(s, x, k, o);
    ObserveDoes(s, x);
    ObserveDoes(SetStatus(s, k, o), x);
    hide Inv, Can, Do;
  }

  lemma ObserveDoes(s: State, x: string)
    requires Can(s, Observe(x))
    ensures s.sched.Executing? && NodeKey(s.sched.run, x) in s.nodes
    ensures Do(s, Observe(x)) == ObserveNode(s, x, s.nodes[NodeKey(s.sched.run, x)].status)
  {
    hide ObserveNode;
  }

  /** The scheduler takes in the outcome of another node than the late one. */
  lemma ObserveElsewhere(s: State, x: string, k: NodeKey, o: Status)
    requires Inv(s) && Late(s, k) && Can(SetStatus(s, k, o), Observe(x))
    ensures Can(s, Observe(x)) && NodeKey(s.sched.run, x) != k
  {
    CurrentView(s);
    hide Inv, Ordered, FlagsOk, TouchedOk, PhaseOk, Names;
  }

  lemma OtherBlind(s: State, a: Action, k: NodeKey, o: Status)
    requires Inv(s) && Late(s, k) && Can(SetStatus(s, k, o), a)
    requires a.Pick? || a.FailStart? || a.CheckCancel? || a.EndScan? || a.CancelWake? || a.Finalize? || a.Enqueue?
      || a.Cancel? || a.Register? || a.Heartbeat?
    ensures Blind(s, a, k, o)
  {
    hide Inv, VisitNode, CanVisit, CanInsert, MonitorPass, StartRun, InsertPrefix, FinalStatus, ServedBefore;
  }

  /** No step depends on the outcome in the row of a late node. */
  lemma StepBlind(s: State, a: Action, k: NodeKey, o: Status)
    requires Inv(s) && Late(s, k) && Outcome(o) && Can(SetStatus(s, k, o), a)
    ensures Blind(s, a, k, o)
  {
    hide Inv, Late, Blind, SetStatus, Can, Do;
    if a.PickLocal? || a.FinishLocal? || a.Poll? || a.Report? {
      WorkerBlind(s, a, k, o);
    } else if a.Monitor? {
      MonitorStepBlind(s, a.stale, k, o);
    } else if a.Prepare? || a.InsertSome? {
      StartBlind(s, a, k, o);
    } else if a.Visit? {
      VisitStepBlind(s, a.choice, k, o);
    } else if a.Observe? {
      ObserveBlind(s, a.id, k, o);
    } else {
      OtherBlind(s, a, k, o);
    }
  }

  lemma MonitorStepBlind(s: State, stale: set<string>, k: NodeKey, o: Status)
    requires Late(s, k) && Outcome(o) && Can(SetStatus(s, k, o), Monitor(stale))
    ensures Blind(s, Monitor(stale), k, o)
  {
    MonitorBlind(s, stale, k, o);
  }

  lemma VisitStepBlind(s: State, choice: Option<string>, k: NodeKey, o: Status)
    requires Late(s, k) && Can(SetStatus(s, k, o), Visit(choice))
    ensures Blind(s, Visit(choice), k, o)
  {
    VisitBlind(s, choice, k, o);
    hide CanVisit, VisitNode, Late;
  }

  ghost predicate Steps(trace: seq<State>, actions: seq<Action>) {
    |trace| == |actions| + 1 && forall i :: 0 <= i < |actions| ==> Step(trace[i], actions[i], trace[i + 1])
  }

  /** The same steps without the report: the states differ in the row of the node alone. */
  lemma {:induction false} Shadow(s: State, k: NodeKey, o: Status, trace: seq<State>, actions: seq<Action>, i: nat)
    returns (t: State)
    requires Inv(s) && Late(s, k) && Outcome(o) && Steps(trace, actions) && trace[0] == SetStatus(s, k, o)
    requires i < |trace|
    ensures Inv(t) && Late(t, k) && trace[i] == SetStatus(t, k, o)
  {
    hide Inv, Late, Blind, Can, Do, SetStatus, Step;
    if i == 0 {
      t := s;
    } else {
      var u := Shadow(s, k, o, trace, actions, i - 1);
      assert Step(trace[i - 1], actions[i - 1], trace[i - 1 + 1]);
      t := ShadowStep(u, actions[i - 1], k, o, trace[i]);
    }
  }

  lemma ShadowStep(u: State, a: Action, k: NodeKey, o: Status, next: State) returns (t: State)
    requires Inv(u) && Late(u, k) && Outcome(o) && Step(SetStatus(u, k, o), a, next)
    ensures Inv(t) && Late(t, k) && next == SetStatus(t, k, o)
  {
    hide Inv, Late, Can, Do, SetStatus;
    StepBlind(u, a, k, o);
    t := Do(u, a);
    StepInv(u, a, t);
  }

  lemma LateHolds(s: State, g: string, k: NodeKey, o: Status)
    requires Inv(s) && ReportAccepted(s, g, k, o) && s.sched.Executing? && s.sched.run == k.run
    requires k.node in s.sched.results
    ensures Late(s, k) && Reported(s, k, o) == SetStatus(s, k, o)
  {
    ReportedName(s, k);
    NodesOk(s, k);
    CurrentView(s);
    InvParts(s);
    assert IssuedOk(s.agents, s.nodes, s.issued) by { hide AgentsOk, IssuedOk, RowsOk, DepsOk, Inv; }
    hide Inv, TablesOk, SchedOk, JobsOk, FlagsOk, TouchedOk, PhaseOk, Names, Ordered;
    assert NodeKey(k.run, k.node) == k;
    assert s.issued - {k} == s.issued;
  }

  lemma OverIsEnded(s: State, r: int)
    requires Inv(s) && r in s.plans && !Current(s, r)
    ensures r in s.jobs && Ended(s, r)
  {
    hide TablesOk, SchedOk, Names, AnyRow, AllRows, AllFinished;
  }

  /**
   The verdict on a run for which a report was accepted while it was in hand: right at the end,
   whatever happens in between, exactly when the scheduler had not taken in the node's outcome, or
   the reported status happens not to falsify it.
   */
  lemma ReportInHandVerdictIff(s: State, g: string, k: NodeKey, o: Status, trace: seq<State>,
                                 actions: seq<Action>, i: nat)
    requires Inv(s) && ReportAccepted(s, g, k, o) && s.sched.Executing? && s.sched.run == k.run
    requires Steps(trace, actions) && trace[0] == Reported(s, k, o) && i < |trace| && !Current(trace[i], k.run)
    ensures k.run in trace[i].jobs && k.run in trace[i].plans
    ensures Ended(trace[i], k.run) <==> k.node !in s.sched.results || VerdictSurvives(trace[i], k, o)
  {
    hide Inv, Steps, Ended, Reported, VerdictSurvives, Late;
    if k.node in s.sched.results {
      LateHolds(s, g, k, o);
      var t := Shadow(s, k, o, trace, actions, i);
      LateVerdict(t, k, o);
    } else {
      ReportKeepsInvIff(s, g, k, o);
      ReportedPlans(s, k, o);
      StepsKeep(trace, actions, i, k.run);
      OverIsEnded(trace[i], k.run);
    }
  }

  lemma ReportedPlans(s: State, k: NodeKey, o: Status)
    requires Inv(s) && k in s.nodes && s.nodes[k].agent.Some?
    ensures k.run in Reported(s, k, o).plans
  {
    hide Inv;
    ReportedName(s, k);
  }

  lemma {:induction false} StepsKeep(trace: seq<State>, actions: seq<Action>, i: nat, r: int)
    requires Steps(trace, actions) && i < |trace| && Inv(trace[0]) && r in trace[0].plans
    ensures Inv(trace[i]) && r in trace[i].plans
  {
    hide Inv, Step, Can, Do, RowsEvolve;
    if i > 0 {
      StepsKeep(trace, actions, i - 1, r);
      assert Step(trace[i - 1], actions[i - 1], trace[i - 1 + 1]);
      StepInv(trace[i - 1], actions[i - 1], trace[i]);
      StepKeepsPlans(trace[i - 1], actions[i - 1], r);
    }
  }

  lemma LateVerdict(t: State, k: NodeKey, o: Status)
    requires Inv(t) && Late(t, k) && Outcome(o) && !Current(t, k.run)
    ensures var t' := SetStatus(t, k, o);
      k.run in t'.jobs && k.run in t'.plans && (Ended(t', k.run) <==> VerdictSurvives(t', k, o))
  {
    hide Inv;
    OverIsEnded(t, k.run);
    hide Ended;
    OverwriteKeepsVerdictIff(t, k, o);
    SurvivesBlind(t, k, o);
    hide VerdictSurvives;
  }

  lemma SurvivesBlind(t: State, k: NodeKey, o: Status)
    requires k in t.nodes && k.run in t.jobs && k.run in t.plans
    ensures VerdictSurvives(SetStatus(t, k, o), k, o) <==> VerdictSurvives(t, k, o)
  {
    var names, t' := Names(t.plans[k.run]), SetStatus(t, k, o);
    hide Names;
    forall x | x != k.node
      ensures NodeKey(k.run, x) in t'.nodes <==> NodeKey(k.run, x) in t.nodes
      ensures NodeKey(k.run, x) in t.nodes ==> t'.nodes[NodeKey(k.run, x)] == t.nodes[NodeKey(k.run, x)]
    {}
    hide SetStatus;
    assert forall st :: OtherRow(t', k, names, st) <==> OtherRow(t, k, names, st);
  }
}
