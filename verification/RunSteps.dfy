/** Every step keeps the invariant, and moves node rows only along their life cycle. */
module RunSteps {
  import opened Wrappers
  import opened RunState
  import opened RunInvariant

  /** No row disappears, and each row stays or makes one allowed move. */
  ghost predicate RowsEvolve(s: State, s': State) {
    forall k :: k in s.nodes ==> k in s'.nodes && Evolves(s.nodes[k], s'.nodes[k])
  }

  // ---- What the larger steps leave alone ----

  /** A visit moves on within its run, and gives at most one new result, which is not a success. */
  lemma VisitFrame(s: State, choice: Option<string>)
    requires CanVisit(s, choice)
    ensures var s', e := VisitNode(s, choice), s.sched;
      && s' == s.(nodes := s'.nodes, sched := s'.sched) && e.Executing?
      && s'.sched.Executing? && s'.sched.run == e.run && s'.sched.running == e.running
      && s'.sched.canceling == e.canceling && (e.stop ==> s'.sched.stop)
      && s'.sched.phase.Scanning? && s'.sched.phase.next == e.phase.next + 1
      && var x := s.plans[e.run][e.phase.next].id;
         s'.sched.results == e.results
         || (x !in e.results && s'.sched.results in {e.results[x := Skipped], e.results[x := Failed]})
  {
    hide Assignable, Blocked, Unresolved;
  }

  /** The row a visit writes, if it writes one. */
  ghost function VisitRow(s: State, choice: Option<string>): Option<NodeRow>
    requires CanVisit(s, choice)
  {
    var e := s.sched;
    var t := s.plans[e.run][e.phase.next];
    var row := s.nodes[NodeKey(e.run, t.id)];
    match Decide(t, e.results, e.running, e.stop || e.canceling)
    case Leave => None
    case Skip => Some(row.(status := Skipped))
    case Launch => if choice.Some? then Some(NodeRow(Queued, choice)) else Some(row.(status := Failed))
  }

  /** Where a visit leaves the scheduler. */
  ghost function VisitSched(e: Scheduler, t: Task, choice: Option<string>): Scheduler
    requires e.Executing? && e.phase.Scanning?
  {
    var next := e.phase.(next := e.phase.next + 1);
    match Decide(t, e.results, e.running, e.stop || e.canceling)
    case Leave => e.(phase := next)
    case Skip => e.(results := e.results[t.id := Skipped], phase := next)
    case Launch =>
      if choice.Some? then e.(phase := next.(queued := e.phase.queued + {t.id}))
      else e.(results := e.results[t.id := Failed], stop := true, phase := next)
  }

  lemma VisitForm(s: State, choice: Option<string>)
    requires CanVisit(s, choice)
    ensures var e := s.sched; var t := s.plans[e.run][e.phase.next];
      var s' := s.(sched := VisitSched(e, t, choice));
      VisitNode(s, choice) ==
        if VisitRow(s, choice).None? then s' else SetRow(s', NodeKey(e.run, t.id), VisitRow(s, choice).value)
  {
    hide Assignable, Blocked, Unresolved, Decide;
  }

  lemma VisitDoes(s: State, choice: Option<string>)
    requires Can(s, Visit(choice))
    ensures CanVisit(s, choice) && Do(s, Visit(choice)) == VisitNode(s, choice)
  {
    hide CanVisit, VisitNode;
  }

  lemma MonitorFrame(s: State, stale: set<string>)
    ensures var s' := MonitorPass(s, stale); s' == s.(nodes := s'.nodes, agents := s'.agents)
  {}

  /** Most steps leave the job rows alone. */
  lemma JobsKept(s: State, a: Action)
    requires Can(s, a) && !a.FailStart? && !a.Prepare? && !a.Finalize? && !a.Enqueue? && !a.Cancel?
    ensures Do(s, a).jobs == s.jobs
  {
    hide VisitNode, CanVisit, MonitorPass, CanInsert, PendingRows, Ids, StorableCount, ServedBefore;
    if a.Visit? { VisitFrame(s, a.choice); }
    if a.Monitor? { MonitorFrame(s, a.stale); }
  }

  /** Only looking at nodes, starting runs, workers and the monitor touch node rows. */
  lemma NodesKept(s: State, a: Action)
    requires Can(s, a) && !a.Visit? && !a.Prepare? && !a.InsertSome?
    requires !a.PickLocal? && !a.FinishLocal? && !a.Poll? && !a.Report? && !a.Monitor?
    ensures Do(s, a).nodes == s.nodes
  {
    hide CanVisit, CanInsert, ServedBefore, FinalStatus;
  }

  // ---- Steps of workers, agents and the monitor ----

  /** Everything but rows under way is left alone. */
  ghost predicate WorkOnly(s: State, s': State) {
    && s'.jobs == s.jobs && s'.sched == s.sched && s'.plans == s.plans && s'.stubs == s.stubs && s'.picks == s.picks
    && s'.observed == s.observed && s'.nodes.Keys == s.nodes.Keys
    && RowsEvolve(s, s')
    && forall k :: k in s.nodes && s'.nodes[k] != s.nodes[k] ==>
         Active(s.nodes[k].status) && s'.nodes[k].agent == s.nodes[k].agent
  }

  lemma WorkKeepsEnded(s: State, s': State, r: int)
    requires WorkOnly(s, s') && Ended(s, r)
    ensures Ended(s', r)
  {
    SameRows(s, s', r);
  }

  /** A run whose rows are unchanged and whose status is unchanged stays ended. */
  lemma SameRows(s: State, s': State, r: int)
    requires Ended(s, r)
    requires r in s'.jobs && s'.jobs[r] == s.jobs[r] && r in s'.plans && s'.plans[r] == s.plans[r]
    requires r in s'.observed <==> r in s.observed
    requires RowsEvolve(s, s')
    ensures Ended(s', r)
  {
    var names := Names(s.plans[r]);
    forall x | x in names ensures NodeKey(r, x) in s'.nodes && s'.nodes[NodeKey(r, x)] == s.nodes[NodeKey(r, x)] {
      assert Finished(s.nodes[NodeKey(r, x)].status);
    }
    assert forall st :: AnyRow(s'.nodes, r, names, st) <==> AnyRow(s.nodes, r, names, st);
    assert forall st :: AllRows(s'.nodes, r, names, st) <==> AllRows(s.nodes, r, names, st);
  }

  lemma WorkKeepsJobs(s: State, s': State)
    requires WorkOnly(s, s') && JobsOk(s)
    ensures JobsOk(s')
  {
    forall r | r in s'.jobs && !Current(s', r) ensures Unstarted(s', r) || Ended(s', r) {
      if Ended(s, r) { WorkKeepsEnded(s, s', r); }
    }
  }

  lemma WorkKeepsAgreement(s: State, s': State, run: int, names: set<string>, results: map<string, Status>,
                           live: set<string>)
    requires WorkOnly(s, s') && Agreement(s.nodes, run, names, results, live)
    ensures Agreement(s'.nodes, run, names, results, live)
  {}

  lemma WorkKeepsSched(s: State, s': State)
    requires WorkOnly(s, s') && SchedOk(s)
    ensures SchedOk(s')
  {
    if s.sched.Executing? {
      WorkKeepsAgreement(s, s', s.sched.run, Names(s.plans[s.sched.run]), s.sched.results, Live(s.sched));
    }
    hide RowsEvolve, Agreement, FlagsOk, PhaseOk, KeysOk, Names;
  }

  lemma WorkKeepsInv(s: State, s': State)
    requires Inv(s) && WorkOnly(s, s') && TablesOk(s')
    ensures Inv(s')
  {
    WorkKeepsJobs(s, s');
    WorkKeepsSched(s, s');
  }

  lemma InvParts(s: State)
    requires Inv(s)
    ensures TablesOk(s) && SchedOk(s) && JobsOk(s)
  {
    hide TablesOk, SchedOk, JobsOk;
  }

  lemma InvFrom(s: State)
    requires TablesOk(s) && SchedOk(s) && JobsOk(s)
    ensures Inv(s)
  {
    hide TablesOk, SchedOk, JobsOk;
  }

  lemma SameTables(s: State, s': State)
    requires TablesOk(s)
    requires s'.agents == s.agents && s'.nodes == s.nodes && s'.issued == s.issued
    requires s'.plans == s.plans && s'.stubs == s.stubs
    ensures TablesOk(s')
  {
    hide AgentsOk, IssuedOk, RowsOk, DepsOk;
  }

  /** Rows keep their agents online and their changes within reach when a worker moves one of them. */
  lemma RowMayChange(s: State, k: NodeKey, st: Status, issued: set<NodeKey>)
    requires TablesOk(s) && k in s.nodes && s.nodes[k].agent.Some?
    requires (s.nodes[k].status == Queued && st == Running) || (s.nodes[k].status == Running && Outcome(st))
    requires issued == if st == Running then s.issued + {k} else s.issued - {k}
    ensures RowChange(s, k, s.nodes[k].(status := st), issued)
  {
    hide Names, Ordered, DepsOk, IssuedOk;
  }

  /** One worker picks up or finishes one task. */
  lemma RowStep(s: State, k: NodeKey, st: Status)
    requires Inv(s) && k in s.nodes && s.nodes[k].agent.Some?
    requires (s.nodes[k].status == Queued && st == Running) || (s.nodes[k].status == Running && Outcome(st))
    ensures var s' := SetStatus(s, k, st).(issued := if st == Running then s.issued + {k} else s.issued - {k});
      Inv(s') && RowsEvolve(s, s')
  {
    var issued := if st == Running then s.issued + {k} else s.issued - {k};
    var row := s.nodes[k].(status := st);
    hide Inv, TablesOk, RowChange, WorkOnly, RowsEvolve;
    InvParts(s);
    RowMayChange(s, k, st, issued);
    ChangeRow(s, k, row, issued);
    OneRowIsWork(s, k, row, issued);
    WorkKeepsInv(s, s.(nodes := s.nodes[k := row], issued := issued));
    WorkEvolves(s, s.(nodes := s.nodes[k := row], issued := issued));
  }

  lemma WorkEvolves(s: State, s': State)
    requires WorkOnly(s, s')
    ensures RowsEvolve(s, s')
  {
    hide RowsEvolve;
  }

  lemma OneRowIsWork(s: State, k: NodeKey, row: NodeRow, issued: set<NodeKey>)
    requires k in s.nodes && Evolves(s.nodes[k], row) && Active(s.nodes[k].status) && row.agent == s.nodes[k].agent
    ensures WorkOnly(s, s.(nodes := s.nodes[k := row], issued := issued))
  {}

  /** A task that a worker may still report is running. */
  lemma ReportedIsRunning(s: State, k: NodeKey, a: string)
    requires TablesOk(s) && k in s.issued && Assigned(s, k, a) && a in s.agents && s.agents[a].online
    ensures s.nodes[k].status == Running
  {}

  lemma WorkKeepsRows(s: State, s': State)
    requires WorkOnly(s, s') && RowsOk(s.nodes, s.plans, s.stubs)
    ensures RowsOk(s'.nodes, s.plans, s.stubs)
  {
    hide Names, Ordered;
  }

  lemma WorkKeepsDeps(s: State, s': State)
    requires WorkOnly(s, s') && DepsOk(s.nodes, s.plans)
    ensures DepsOk(s'.nodes, s.plans)
  {
    forall r, t | r in s.plans && t in s.plans[r] && NodeKey(r, t.id) in s'.nodes
      && s'.nodes[NodeKey(r, t.id)].agent.Some?
      ensures DepsSucceeded(s'.nodes, r, t)
    {
      assert DepsSucceeded(s.nodes, r, t);
    }
  }

  lemma MonitorKeepsTables(s: State, stale: set<string>)
    requires TablesOk(s) && LOCAL !in stale
    ensures TablesOk(MonitorPass(s, stale)) && WorkOnly(s, MonitorPass(s, stale))
  {
    var s' := MonitorPass(s, stale);
    assert WorkOnly(s, s') by { hide RowsOk, DepsOk, IssuedOk; }
    hide WorkOnly;
    WorkKeepsRows(s, s');
    WorkKeepsDeps(s, s');
    MonitorKeepsAgents(s, stale);
  }

  lemma MonitorKeepsAgents(s: State, stale: set<string>)
    requires AgentsOk(s.agents, s.nodes) && IssuedOk(s.agents, s.nodes, s.issued) && LOCAL !in stale
    ensures var s' := MonitorPass(s, stale);
      AgentsOk(s'.agents, s'.nodes) && IssuedOk(s'.agents, s'.nodes, s'.issued)
  {
    var s' := MonitorPass(s, stale);
    assert AgentsOk(s'.agents, s'.nodes) by { hide IssuedOk; }
    assert IssuedOk(s'.agents, s'.nodes, s'.issued);
  }

  /** A worker takes a task. */
  lemma TakeStep(s: State, a: Action)
    requires Inv(s) && Can(s, a) && (a.PickLocal? || a.Poll?)
    ensures Inv(Do(s, a)) && RowsEvolve(s, Do(s, a))
  {
    hide Inv, RowsEvolve;
    RowStep(s, a.key, Running);
  }

  /** A worker reports a task. */
  lemma ReturnStep(s: State, a: Action)
    requires Inv(s) && Can(s, a) && (a.FinishLocal? || a.Report?)
    ensures Inv(Do(s, a)) && RowsEvolve(s, Do(s, a))
  {
    hide Inv, RowsEvolve, TablesOk;
    InvParts(s);
    LocalOnline(s);
    ReportedIsRunning(s, a.key, if a.Report? then a.agent else LOCAL);
    RowStep(s, a.key, a.outcome);
  }

  lemma LocalOnline(s: State)
    requires TablesOk(s)
    ensures LOCAL in s.agents && s.agents[LOCAL].online
  {
    hide IssuedOk, RowsOk, DepsOk;
  }

  lemma WorkerStep(s: State, a: Action)
    requires Inv(s) && Can(s, a)
    requires a.PickLocal? || a.FinishLocal? || a.Poll? || a.Report? || a.Monitor?
    ensures Inv(Do(s, a)) && RowsEvolve(s, Do(s, a))
  {
    hide Inv, RowsEvolve, TablesOk, MonitorPass, WorkOnly;
    if a.Monitor? {
      InvParts(s);
      MonitorKeepsTables(s, a.stale);
      WorkKeepsInv(s, MonitorPass(s, a.stale));
      WorkEvolves(s, MonitorPass(s, a.stale));
    } else if a.PickLocal? || a.Poll? {
      TakeStep(s, a);
    } else {
      ReturnStep(s, a);
    }
  }

  // ---- Steps of users and of the agent registry ----

  /** Rows and scheduler are left alone. */
  lemma AgentStep(s: State, agents: map<string, AgentRow>)
    requires Inv(s) && s.agents.Keys <= agents.Keys
    requires forall a :: a in s.agents ==> agents[a].online == s.agents[a].online
    ensures Inv(s.(agents := agents)) && RowsEvolve(s, s.(agents := agents))
  {
    var s' := s.(agents := agents);
    hide Names, Ordered, RowsOk, DepsOk;
    assert TablesOk(s');
    assert WorkOnly(s, s');
    WorkKeepsInv(s, s');
  }

  /** A job row is added, or asked to cancel. */
  lemma JobStep(s: State, jobs: map<int, JobRow>, r: int)
    requires Inv(s) && s.jobs.Keys <= jobs.Keys && jobs.Keys <= s.jobs.Keys + {r}
    requires forall q :: q in s.jobs && q != r ==> jobs[q] == s.jobs[q]
    requires r in jobs
    requires if r in s.jobs then (s.jobs[r].status == Queued || s.jobs[r].status == Running)
      && jobs[r].status == CancelRequested
             else jobs[r].status == Queued
    ensures Inv(s.(jobs := jobs)) && RowsEvolve(s, s.(jobs := jobs))
  {
    var s' := s.(jobs := jobs);
    assert TablesOk(s');
    assert SchedOk(s') by { hide TablesOk, JobsOk, Agreement, FlagsOk, PhaseOk, KeysOk;
      assert r !in s.jobs ==> !Current(s, r); }
    forall q | q in jobs && !Current(s', q) ensures Unstarted(s', q) || Ended(s', q) {
      if q == r {
        assert q in s.jobs ==> Unstarted(s, q) || Ended(s, q);
        assert q in s.plans ==> Ended(s, q) && q in s.jobs;
      } else if Ended(s, q) {
        SameRows(s, s', q);
      }
    }
  }

  lemma UserStep(s: State, a: Action)
    requires Inv(s) && Can(s, a)
    requires a.Enqueue? || a.Cancel? || a.Register? || a.Heartbeat?
    ensures Inv(Do(s, a)) && RowsEvolve(s, Do(s, a))
  {
    match a
    case Enqueue(r, t) => JobStep(s, s.jobs[r := JobRow(Queued, t)], r);
    case Cancel(r) => JobStep(s, s.jobs[r := s.jobs[r].(status := CancelRequested)], r);
    case Register(g, row) => AgentStep(s, s.agents[g := row]);
    case Heartbeat(g) => AgentStep(s, s.agents[g := s.agents[g].(online := true)]);
  }

  // ---- Steps of the scheduler ----

  /** The scheduler moves on within its run; other runs are out of its reach. */
  ghost predicate SameRun(s: State, s': State) {
    && s.sched.Executing? && s'.sched.Executing? && s'.sched.run == s.sched.run && s.sched.run in s.plans
    && s'.jobs == s.jobs && s'.plans == s.plans && s'.stubs == s.stubs
    && (forall r :: r != s.sched.run ==> (r in s'.observed <==> r in s.observed))
    && RowsEvolve(s, s')
  }

  lemma SameRunKeepsJobs(s: State, s': State)
    requires SameRun(s, s') && JobsOk(s)
    ensures JobsOk(s')
  {
    forall r | r in s'.jobs && !Current(s', r) ensures Unstarted(s', r) || Ended(s', r) {
      if Ended(s, r) { SameRows(s, s', r); }
    }
  }

  lemma PickStep(s: State, r: int)
    requires Inv(s) && Can(s, Pick(r))
    ensures Inv(Do(s, Pick(r)))
  {
    var s' := Do(s, Pick(r));
    assert !Current(s, r);
    assert TablesOk(s') by { hide JobsOk, SchedOk; }
    forall q | q in s'.jobs && !Current(s', q) ensures Unstarted(s', q) || Ended(s', q) {
      if Ended(s, q) { SameRows(s, s', q); }
    }
  }

  lemma FailStartStep(s: State)
    requires Inv(s) && Can(s, FailStart)
    ensures Inv(Do(s, FailStart))
  {
    var s' := Do(s, FailStart);
    assert TablesOk(s') by { hide JobsOk, SchedOk; }
    forall q | q in s'.jobs && !Current(s', q) ensures Unstarted(s', q) || Ended(s', q) {
      if q != s.sched.run && Ended(s, q) { SameRows(s, s', q); }
    }
  }

  lemma ViewCheck(nodes: map<NodeKey, NodeRow>, plan: seq<Task>, e: Scheduler, canceling: bool)
    requires e.Executing? && e.phase.Checking? && ViewOk(nodes, plan, e) && (e.canceling ==> canceling)
    ensures ViewOk(nodes, plan, e.(canceling := canceling, phase := Scanning(0, {})))
  {
    assert e.running + {} == e.running;
    hide Ordered, Agreement, TouchedOk, KeysOk, Names;
  }

  lemma CheckCancelStep(s: State)
    requires Inv(s) && Can(s, CheckCancel)
    ensures Inv(Do(s, CheckCancel))
  {
    var s' := Do(s, CheckCancel);
    ViewCheck(s.nodes, s.plans[s.sched.run], s.sched, s'.sched.canceling);
    assert TablesOk(s') by { hide JobsOk, SchedOk; }
    hide ViewOk, TablesOk;
    SameRunKeepsJobs(s, s');
  }

  lemma ViewEndScan(nodes: map<NodeKey, NodeRow>, plan: seq<Task>, e: Scheduler)
    requires e.Executing? && e.phase.Scanning? && e.phase.next == |plan| && ViewOk(nodes, plan, e)
    ensures var running := Live(e);
      ViewOk(nodes, plan, e.(running := running, phase := if running == {} then Finalizing else Waiting))
  {
    hide Ordered, Agreement, TouchedOk, KeysOk, FlagsOk, Settled, Names;
  }

  lemma EndScanStep(s: State)
    requires Inv(s) && Can(s, EndScan)
    ensures Inv(Do(s, EndScan))
  {
    var s' := Do(s, EndScan);
    ViewEndScan(s.nodes, s.plans[s.sched.run], s.sched);
    assert TablesOk(s') by { hide JobsOk, SchedOk; }
    hide ViewOk, TablesOk;
    SameRunKeepsJobs(s, s');
  }

  lemma ObserveStep(s: State, x: string)
    requires Inv(s) && Can(s, Observe(x))
    ensures Inv(Do(s, Observe(x)))
  {
    var e, o := s.sched, s.nodes[NodeKey(s.sched.run, x)].status;
    assert x in Names(s.plans[e.run]);
    ResultStep(s, x, o);
  }

  lemma CancelWakeStep(s: State)
    requires Inv(s) && Can(s, CancelWake)
    ensures Inv(Do(s, CancelWake))
  {
    hide Inv, Names, Ordered;
    CurrentView(s);
    hide ViewOk;
    NamesNotPhantom(s.plans[s.sched.run]);
    ResultStep(s, PHANTOM, Canceled);
  }

  /** What an observed outcome, or the phantom of a cancel wake-up, is. */
  ghost predicate Observable(nodes: map<NodeKey, NodeRow>, plan: seq<Task>, e: Scheduler, x: string, o: Status)
    requires e.Executing?
  {
    && Outcome(o)
    && if x == PHANTOM then x !in Names(plan) && o == Canceled
       else x in e.running && x in Names(plan) && NodeKey(e.run, x) in nodes && nodes[NodeKey(e.run, x)].status == o
  }

  lemma ViewObserve(nodes: map<NodeKey, NodeRow>, plan: seq<Task>, e: Scheduler, x: string, o: Status)
    requires e.Executing? && e.phase.Waiting? && ViewOk(nodes, plan, e) && Observable(nodes, plan, e, x, o)
    ensures ViewOk(nodes, plan, e.(running := e.running - {x}, results := e.results[x := o],
      stop := e.stop || Unsuccessful(o), canceling := e.canceling || o == Canceled, phase := Checking))
  {
    var names := Names(plan);
    AgreementAfter(nodes, e.run, names, e.results, e.running, x, o);
    FlagsAfter(e.results, e.stop, e.canceling, x, o);
    TouchedAfter(plan, e.results, e.running, x, o);
    hide Names, Ordered, Agreement, FlagsOk, TouchedOk, KeysOk;
  }

  /** A node's outcome, or the phantom of a cancel wake-up, enters the results. */
  lemma ResultStep(s: State, x: string, o: Status)
    requires Inv(s) && s.sched.Executing? && s.sched.phase.Waiting?
    requires Observable(s.nodes, s.plans[s.sched.run], s.sched, x, o)
    ensures Inv(ObserveNode(s, x, o))
  {
    var s', e := ObserveNode(s, x, o), s.sched;
    hide Inv, TablesOk, JobsOk, Names, Ordered, ViewOk, Observable;
    InvParts(s);
    CurrentView(s);
    ViewObserve(s.nodes, s.plans[e.run], e, x, o);
    SameTables(s, s');
    SameRunKeepsJobs(s, s');
    hide SameRun, RowsEvolve;
    InvFrom(s');
  }

  lemma TouchedAfter(plan: seq<Task>, results: map<string, Status>, running: set<string>, x: string, o: Status)
    requires TouchedOk(plan, results, running) && (x in results ==> results[x] == o)
    requires x in running || x !in Names(plan)
    ensures TouchedOk(plan, results[x := o], running - {x})
  {
    assert forall t :: t in plan ==> t.id in Names(plan);
    TouchedGrows(plan, results, running, results[x := o], running - {x}, x);
  }

  lemma AgreementAfter(nodes: map<NodeKey, NodeRow>, run: int, names: set<string>, results: map<string, Status>,
                       running: set<string>, x: string, o: Status)
    requires Agreement(nodes, run, names, results, running) && KeysOk(names, results, running) && Outcome(o)
    requires if x == PHANTOM then x !in names && o == Canceled
             else x in running && x in names && nodes[NodeKey(run, x)].status == o
    ensures Agreement(nodes, run, names, results[x := o], running - {x})
    ensures KeysOk(names, results[x := o], running - {x})
    ensures x in results ==> results[x] == o
  {}

  lemma NamesNotPhantom(plan: seq<Task>)
    requires Ordered(plan)
    ensures PHANTOM !in Names(plan)
  {}

  lemma FlagsAfter(results: map<string, Status>, stop: bool, canceling: bool, x: string, o: Status)
    requires FlagsOk(results, stop, canceling) && Outcome(o)
    requires x in results ==> results[x] == o
    ensures FlagsOk(results[x := o], stop || Unsuccessful(o), canceling || o == Canceled)
  {
    var more := results[x := o];
    if stop {
      var y :| y in results && Unsuccessful(results[y]);
      assert y in more && Unsuccessful(more[y]);
    } else if Unsuccessful(o) {
      assert x in more;
    }
  }

  // ---- Starting a run ----

  /** Rows of a run that had none are added, pending; everything else is as before. */
  ghost predicate Added(s: State, s': State, r: int, names: set<string>) {
    && r !in s.plans && r !in s.stubs
    && (forall k :: k in s'.nodes <==> k in s.nodes || (k.run == r && k.node in names))
    && (forall k :: k in s.nodes ==> k.run != r && s'.nodes[k] == s.nodes[k])
    && (forall x :: x in names ==> s'.nodes[NodeKey(r, x)] == NodeRow(Pending, None))
    && s'.agents == s.agents && s'.issued == s.issued && s'.observed == s.observed
    && (forall q :: q in s.jobs <==> q in s'.jobs)
    && (forall q :: q in s.jobs && q != r ==> s'.jobs[q] == s.jobs[q])
  }

  ghost predicate Started(s: State, s': State, r: int, plan: seq<Task>) {
    Added(s, s', r, Names(plan)) && s'.plans == s.plans[r := plan] && s'.stubs == s.stubs
  }

  ghost predicate Stubbed(s: State, s': State, r: int, names: set<string>) {
    && Added(s, s', r, names) && s'.plans == s.plans && s'.stubs == s.stubs[r := names]
    && s'.jobs == s.jobs && s'.sched == s.sched
  }

  lemma RowsAdded(s: State, s': State, r: int, names: set<string>)
    requires RowsOk(s.nodes, s.plans, s.stubs) && r !in s.plans && r !in s.stubs
    requires s'.nodes == s.nodes + PendingRows(r, names)
    requires s'.agents == s.agents && s'.issued == s.issued && s'.observed == s.observed
    requires s'.jobs.Keys == s.jobs.Keys && forall q :: q in s.jobs && q != r ==> s'.jobs[q] == s.jobs[q]
    ensures Added(s, s', r, names)
  {
    hide Names, Ordered, RowOk;
    assert forall k: NodeKey :: k == NodeKey(k.run, k.node);
  }

  lemma StartRunStarts(s: State, plan: seq<Task>)
    requires RowsOk(s.nodes, s.plans, s.stubs) && s.sched.Picked? && s.sched.run in s.jobs
    requires s.sched.run !in s.plans && s.sched.run !in s.stubs
    ensures Started(s, StartRun(s, plan), s.sched.run, plan)
  {
    hide Names, RowsOk, PendingRows;
    RowsAdded(s, StartRun(s, plan), s.sched.run, Names(plan));
    hide Added;
  }

  lemma StartKeepsRows(s: State, s': State, r: int, plan: seq<Task>)
    requires Started(s, s', r, plan) && RowsOk(s.nodes, s.plans, s.stubs) && plan != [] && Ordered(plan)
    ensures RowsOk(s'.nodes, s'.plans, s'.stubs)
  {
    hide Names, Ordered;
    forall k | k in s'.nodes ensures Belongs(k, s'.nodes[k], s'.plans, s'.stubs) {
      assert k == NodeKey(k.run, k.node);
      assert k in s.nodes ==> Belongs(k, s.nodes[k], s.plans, s.stubs);
    }
  }

  lemma AddKeepsDeps(s: State, s': State, r: int, names: set<string>)
    requires Added(s, s', r, names) && DepsOk(s.nodes, s.plans)
    requires forall q :: q in s'.plans && q != r ==> q in s.plans && s'.plans[q] == s.plans[q]
    ensures DepsOk(s'.nodes, s'.plans)
  {
    forall q, t | q in s'.plans && t in s'.plans[q] && NodeKey(q, t.id) in s'.nodes
      && s'.nodes[NodeKey(q, t.id)].agent.Some?
      ensures DepsSucceeded(s'.nodes, q, t)
    {
      assert q == r ==> NodeKey(q, t.id) !in s.nodes && t.id in names;
      assert DepsSucceeded(s.nodes, q, t);
    }
  }

  lemma AddKeepsAgents(s: State, s': State, r: int, names: set<string>)
    requires Added(s, s', r, names) && AgentsOk(s.agents, s.nodes) && IssuedOk(s.agents, s.nodes, s.issued)
    ensures AgentsOk(s'.agents, s'.nodes) && IssuedOk(s'.agents, s'.nodes, s'.issued)
  {
    assert forall k :: k in s'.nodes && k !in s.nodes ==> s'.nodes[NodeKey(k.run, k.node)].status == Pending;
  }

  lemma StartKeepsJobs(s: State, s': State, r: int, plan: seq<Task>)
    requires Started(s, s', r, plan) && JobsOk(s) && s.sched == Picked(r) && r in s.jobs
    requires s'.sched.Executing? && s'.sched.run == r
    ensures JobsOk(s') && RowsEvolve(s, s')
  {
    hide Names;
    forall q | q in s'.jobs && !Current(s', q) ensures Unstarted(s', q) || Ended(s', q) {
      if Ended(s, q) { SameRows(s, s', q); }
    }
  }

  lemma StartAgrees(s: State, s': State, r: int, plan: seq<Task>)
    requires Started(s, s', r, plan) && JobsOk(s) && s'.sched == Executing(r, map[], {}, false, false, Checking)
    requires r in s'.jobs && (s'.jobs[r].status == Running || s'.jobs[r].status == CancelRequested)
    ensures SchedOk(s')
  {
    hide Names, Ordered;
    assert Agreement(s'.nodes, r, Names(plan), map[], {});
  }

  lemma PrepareStep(s: State, plan: seq<Task>)
    requires Inv(s) && Can(s, Prepare(plan))
    ensures Inv(Do(s, Prepare(plan))) && RowsEvolve(s, Do(s, Prepare(plan)))
  {
    var s', r := StartRun(s, plan), s.sched.run;
    assert s'.sched == Executing(r, map[], {}, false, false, Checking);
    assert s'.jobs[r].status == Running || s'.jobs[r].status == CancelRequested;
    StartRunStarts(s, plan);
    hide StartRun, Names, Ordered, RowsOk, DepsOk, AgentsOk, IssuedOk, JobsOk, SchedOk, Added;
    StartKeepsRows(s, s', r, plan);
    AddKeepsDeps(s, s', r, Names(plan));
    AddKeepsAgents(s, s', r, Names(plan));
    StartKeepsJobs(s, s', r, plan);
    StartAgrees(s, s', r, plan);
  }

  lemma PrefixStubs(s: State, plan: seq<Task>)
    requires Inv(s) && Can(s, InsertSome(plan))
    ensures Stubbed(s, InsertPrefix(s, plan), s.sched.run, Ids(plan, StorableCount(plan)))
  {
    hide Ids, RowsOk, PendingRows, Ordered, JobsOk, ViewOk;
    RowsAdded(s, InsertPrefix(s, plan), s.sched.run, Ids(plan, StorableCount(plan)));
    hide Added;
  }

  lemma StubKeepsRows(s: State, s': State, r: int, names: set<string>)
    requires Stubbed(s, s', r, names) && RowsOk(s.nodes, s.plans, s.stubs)
    ensures RowsOk(s'.nodes, s'.plans, s'.stubs)
  {
    hide Names, Ordered;
    forall k | k in s'.nodes ensures Belongs(k, s'.nodes[k], s'.plans, s'.stubs) {
      assert k == NodeKey(k.run, k.node);
      assert k in s.nodes ==> Belongs(k, s.nodes[k], s.plans, s.stubs);
    }
  }

  lemma StubKeepsJobs(s: State, s': State, r: int, names: set<string>)
    requires Stubbed(s, s', r, names) && JobsOk(s) && SchedOk(s) && s.sched == Picked(r) && r in s.jobs
    ensures JobsOk(s') && SchedOk(s') && RowsEvolve(s, s')
  {
    forall q | q in s'.jobs && !Current(s', q) ensures Unstarted(s', q) || Ended(s', q) {
      if Ended(s, q) { SameRows(s, s', q); }
    }
  }

  /** Inserting only some rows of a run that cannot be started touches nothing else. */
  lemma InsertSomeStep(s: State, plan: seq<Task>)
    requires Inv(s) && Can(s, InsertSome(plan))
    ensures Inv(Do(s, InsertSome(plan))) && RowsEvolve(s, Do(s, InsertSome(plan)))
  {
    var s', r, names := InsertPrefix(s, plan), s.sched.run, Ids(plan, StorableCount(plan));
    PrefixStubs(s, plan);
    hide InsertPrefix, Ids, Ordered, RowsOk, DepsOk, AgentsOk, IssuedOk, JobsOk, SchedOk, Added;
    StubKeepsRows(s, s', r, names);
    AddKeepsDeps(s, s', r, names);
    AddKeepsAgents(s, s', r, names);
    StubKeepsJobs(s, s', r, names);
  }

  // ---- The end of a run ----

  lemma IdsNext(plan: seq<Task>, n: nat)
    requires n < |plan|
    ensures Ids(plan, n + 1) == Ids(plan, n) + {plan[n].id}
  {}

  /** No orphans: in an ordered plan, when every node is settled and none is live, every node has a result. */
  lemma {:induction false} NoOrphans(plan: seq<Task>, results: map<string, Status>, n: nat)
    requires Ordered(plan) && Settled(plan, results, {}, |plan|) && n <= |plan|
    ensures forall x :: x in Ids(plan, n) ==> x in results
  {
    if n > 0 {
      NoOrphans(plan, results, n - 1);
      assert SettledTask(plan[n - 1], results, {});
      assert plan[n - 1].deps <= Ids(plan, n - 1);
      IdsNext(plan, n - 1);
    }
  }

  /** The status computed from the results is the verdict on the rows. */
  lemma StatusIsVerdict(nodes: map<NodeKey, NodeRow>, run: int, names: set<string>, results: map<string, Status>,
                        stop: bool, canceling: bool)
    requires Agreement(nodes, run, names, results, {}) && KeysOk(names, results, {})
      && FlagsOk(results, stop, canceling)
    requires forall x :: x in names ==> x in results
    ensures AllFinished(nodes, run, names)
    ensures FinalStatus(results, canceling) == Verdict(nodes, run, names, canceling)
    ensures FinalStatus(results, canceling) == Success <==> AllRows(nodes, run, names, Success) && !canceling
  {
    forall st | st == TimedOut || st == Failed
      ensures st in results.Values <==> AnyRow(nodes, run, names, st)
    {
      if st in results.Values {
        var x :| x in results && results[x] == st;
        assert x in names;
      }
      if AnyRow(nodes, run, names, st) {
        var x :| x in names && nodes[NodeKey(run, x)].status == st;
        assert results[x] == st;
      }
    }
    if FinalStatus(results, canceling) == Success {
      forall x | x in names ensures nodes[NodeKey(run, x)].status == Success {
        assert results[x] in results.Values;
      }
    }
  }

  lemma FinalStatusIsVerdict(s: State)
    requires Inv(s) && InPhase(s, Finalizing) && s.sched.run in s.plans
    ensures var e, names := s.sched, Names(s.plans[s.sched.run]);
      && AllFinished(s.nodes, e.run, names)
      && FinalStatus(e.results, e.canceling) == Verdict(s.nodes, e.run, names, e.canceling)
      && (FinalStatus(e.results, e.canceling) == Success <==> AllRows(s.nodes, e.run, names, Success) && !e.canceling)
  {
    CurrentView(s);
    hide Inv, Agreement, FlagsOk, KeysOk, TouchedOk, AllFinished, FinalStatus, Verdict, AllRows;
    var e, plan := s.sched, s.plans[s.sched.run];
    NoOrphans(plan, e.results, |plan|);
    StatusIsVerdict(s.nodes, e.run, Names(plan), e.results, e.stop, e.canceling);
  }

  lemma FinalizeKeepsJobs(s: State, s': State)
    requires JobsOk(s) && SchedOk(s) && InPhase(s, Finalizing)
    requires var e, names := s.sched, Names(s.plans[s.sched.run]);
      && AllFinished(s.nodes, e.run, names)
      && FinalStatus(e.results, e.canceling) == Verdict(s.nodes, e.run, names, e.canceling)
      && (FinalStatus(e.results, e.canceling) == Success <==> AllRows(s.nodes, e.run, names, Success) && !e.canceling)
    requires s' == SetJob(s, s.sched.run, FinalStatus(s.sched.results, s.sched.canceling)).(sched := Idle)
    ensures JobsOk(s') && Ended(s', s.sched.run)
  {
    hide Names, Verdict, FinalStatus, AllRows, AllFinished, ViewOk;
    forall q | q in s'.jobs && !Current(s', q) ensures Unstarted(s', q) || Ended(s', q) {
      if q != s.sched.run && Ended(s, q) { SameRows(s, s', q); }
    }
  }

  lemma FinalizeStep(s: State)
    requires Inv(s) && Can(s, Finalize)
    ensures Inv(Do(s, Finalize)) && Ended(Do(s, Finalize), s.sched.run)
  {
    InvParts(s);
    CurrentView(s);
    hide Inv, TablesOk, Names, Ordered, ViewOk;
    var s', e := Do(s, Finalize), s.sched;
    var plan := s.plans[e.run];
    FinalStatusIsVerdict(s);
    SameTables(s, s');
    FinalizeKeepsJobs(s, s');
  }

  // ---- Looking at one node ----

  /** The node the scan is about to look at is settled already, or its row is pending. */
  lemma NextTask(plan: seq<Task>, n: nat, queued: set<string>)
    requires Ordered(plan) && n < |plan| && queued <= Ids(plan, n)
    ensures var t := plan[n]; t.id in Names(plan) && t.id != PHANTOM && t.id !in queued
    ensures forall u :: u in plan && u.id == plan[n].id ==> u == plan[n]
    ensures forall i :: 0 <= i < n ==> plan[i].id != plan[n].id && plan[n].id !in plan[i].deps
    ensures forall i :: 0 <= i <= n ==> plan[i].deps <= Names(plan)
  {
    forall i, m | 0 <= i < m <= |plan| ensures plan[i].id in Ids(plan, m) { IdAt(plan, i, m); }
    forall i | 0 <= i <= n ensures Ids(plan, i) <= Ids(plan, n) && Ids(plan, i) <= Names(plan) { IdsGrow(plan, i, n); }
    hide Ids;
  }

  lemma IdAt(plan: seq<Task>, i: nat, m: nat)
    requires i < m <= |plan|
    ensures plan[i].id in Ids(plan, m)
  {}

  lemma IdsGrow(plan: seq<Task>, i: nat, n: nat)
    requires i <= n <= |plan|
    ensures Ids(plan, i) <= Ids(plan, n) && Ids(plan, i) <= Names(plan)
  {}

  /** Touched nodes stay so while results grow, if the nodes newly touched are so. */
  lemma TouchedGrows(plan: seq<Task>, results: map<string, Status>, live: set<string>,
                     results': map<string, Status>, live': set<string>, x: string)
    requires TouchedOk(plan, results, live)
    requires forall d :: d in results ==> d in results' && results'[d] == results[d]
    requires forall d :: d in results' || d in live' ==> d in results || d in live || d == x
    requires x in results || x in live ||
      forall t :: t in plan && t.id == x ==> Blocked(t, results) || !Unresolved(t, results)
    ensures TouchedOk(plan, results', live')
  {
    forall t | t in plan && (Blocked(t, results) || !Unresolved(t, results))
      ensures Blocked(t, results') || !Unresolved(t, results')
    {}
  }

  /** Settling node `n` leaves the nodes before it settled. */
  lemma SettledNext(plan: seq<Task>, results: map<string, Status>, live: set<string>, n: nat,
                    results': map<string, Status>, live': set<string>)
    requires Settled(plan, results, live, n) && n < |plan|
    requires forall i :: 0 <= i < n ==> plan[n].id !in plan[i].deps
    requires forall d :: d in results ==> d in results'
    requires forall d :: d in results' && d != plan[n].id ==> d in results && results'[d] == results[d]
    requires live <= live' && SettledTask(plan[n], results', live')
    ensures Settled(plan, results', live', n + 1)
  {
    forall i | 0 <= i < n ensures SettledTask(plan[i], results', live') {
      assert SettledTask(plan[i], results, live);
    }
  }

  /** A node joins the results, with its row finished accordingly. */
  lemma AgreementResult(nodes: map<NodeKey, NodeRow>, run: int, names: set<string>, results: map<string, Status>,
                        live: set<string>, x: string, row: NodeRow)
    requires Agreement(nodes, run, names, results, live) && x !in live && Finished(row.status)
    ensures Agreement(nodes[NodeKey(run, x) := row], run, names, results[x := row.status], live)
  {}

  /** A node joins the live ones, with its row queued. */
  lemma AgreementQueued(nodes: map<NodeKey, NodeRow>, run: int, names: set<string>, results: map<string, Status>,
                        live: set<string>, x: string, a: string)
    requires Agreement(nodes, run, names, results, live) && x !in results
    ensures Agreement(nodes[NodeKey(run, x) := NodeRow(Queued, Some(a))], run, names, results, live + {x})
  {}

  lemma FlagsSkipped(task: Task, names: set<string>, results: map<string, Status>, stop: bool, canceling: bool)
    requires FlagsOk(results, stop, canceling) && task.deps <= names && task.id !in results
    requires forall x :: x in results && x in names ==> Finished(results[x])
    requires Blocked(task, results) || stop || canceling
    ensures FlagsOk(results[task.id := Skipped], stop, canceling)
  {
    var more := results[task.id := Skipped];
    if stop {
      var y :| y in results && Unsuccessful(results[y]);
      assert y in more && Unsuccessful(more[y]);
    }
  }

  /** The row under the scan is pending whenever the scheduler acts on it. */
  lemma VisitPending(s: State, choice: Option<string>)
    requires Inv(s) && CanVisit(s, choice)
    ensures var e := s.sched; var plan := s.plans[e.run]; var t := plan[e.phase.next];
      && t.id in Names(plan) && t.id != PHANTOM && t.id !in e.phase.queued && t.deps <= Names(plan)
      && (t.id !in e.results && t.id !in e.running ==> s.nodes[NodeKey(e.run, t.id)] == NodeRow(Pending, None))
  {
    var e := s.sched;
    NextTask(s.plans[e.run], e.phase.next, e.phase.queued);
    hide Names, Ordered, JobsOk, FlagsOk, DepsOk, AgentsOk, IssuedOk;
    assert e.phase.queued !! e.running;
  }

  lemma ViewLeave(nodes: map<NodeKey, NodeRow>, plan: seq<Task>, e: Scheduler)
    requires e.Executing? && e.phase.Scanning? && e.phase.next < |plan| && Ordered(plan) && ViewOk(nodes, plan, e)
    requires Decide(plan[e.phase.next], e.results, e.running, e.stop || e.canceling) == Leave
    ensures ViewOk(nodes, plan, e.(phase := e.phase.(next := e.phase.next + 1)))
  {
    var n := e.phase.next;
    NextTask(plan, n, e.phase.queued);
    SettledNext(plan, e.results, Live(e), n, e.results, Live(e));
    IdsNext(plan, n);
    hide Ordered, Names, Agreement, FlagsOk, KeysOk, Settled, TouchedOk;
  }

  lemma ViewResult(nodes: map<NodeKey, NodeRow>, plan: seq<Task>, e: Scheduler, row: NodeRow, stop: bool)
    requires e.Executing? && e.phase.Scanning? && e.phase.next < |plan| && Ordered(plan) && ViewOk(nodes, plan, e)
    requires plan[e.phase.next].id !in e.results && plan[e.phase.next].id !in e.running && Finished(row.status)
    requires FlagsOk(e.results[plan[e.phase.next].id := row.status], stop, e.canceling)
    requires Blocked(plan[e.phase.next], e.results) || !Unresolved(plan[e.phase.next], e.results)
    ensures ViewOk(nodes[NodeKey(e.run, plan[e.phase.next].id) := row], plan,
      e.(results := e.results[plan[e.phase.next].id := row.status], stop := stop,
         phase := e.phase.(next := e.phase.next + 1)))
  {
    hide Ordered, Agreement, FlagsOk, Settled, Names, Blocked, Unresolved, TouchedOk, Ids;
    var n, t := e.phase.next, plan[e.phase.next];
    var results := e.results[t.id := row.status];
    NextTask(plan, n, e.phase.queued);
    IdsNext(plan, n);
    TouchedGrows(plan, e.results, Live(e), results, Live(e), t.id);
    SettledNext(plan, e.results, Live(e), n, results, Live(e));
    AgreementResult(nodes, e.run, Names(plan), e.results, Live(e), t.id, row);
  }

  lemma ViewQueued(nodes: map<NodeKey, NodeRow>, plan: seq<Task>, e: Scheduler, a: string)
    requires e.Executing? && e.phase.Scanning? && e.phase.next < |plan| && Ordered(plan) && ViewOk(nodes, plan, e)
    requires plan[e.phase.next].id !in e.results && plan[e.phase.next].id !in e.running
    requires Blocked(plan[e.phase.next], e.results) || !Unresolved(plan[e.phase.next], e.results)
    ensures ViewOk(nodes[NodeKey(e.run, plan[e.phase.next].id) := NodeRow(Queued, Some(a))], plan,
                   e.(phase := Scanning(e.phase.next + 1, e.phase.queued + {plan[e.phase.next].id})))
  {
    hide Ordered, Agreement, FlagsOk, Settled, Names, Blocked, Unresolved, TouchedOk, Ids;
    var n, t, live := e.phase.next, plan[e.phase.next], Live(e);
    var e' := e.(phase := Scanning(n + 1, e.phase.queued + {t.id}));
    NextTask(plan, n, e.phase.queued);
    IdsNext(plan, n);
    LiveQueued(e, t.id);
    TouchedGrows(plan, e.results, live, e.results, live + {t.id}, t.id);
    SettledNext(plan, e.results, live, n, e.results, live + {t.id});
    AgreementQueued(nodes, e.run, Names(plan), e.results, live, t.id, a);

  }

  lemma LiveQueued(e: Scheduler, x: string)
    requires e.Executing? && e.phase.Scanning?
    ensures Live(e.(phase := Scanning(e.phase.next + 1, e.phase.queued + {x}))) == Live(e) + {x}
  {}

  /** What a visit that acts does: one pending row changes, and the scheduler moves on within its run. */
  ghost predicate Acts(s: State, row: NodeRow, e': Scheduler) {
    && s.sched.Executing? && s.sched.phase.Scanning? && s.sched.run in s.plans
    && s.sched.phase.next < |s.plans[s.sched.run]|
    && e'.Executing? && e'.run == s.sched.run && e'.canceling == s.sched.canceling
    && var k := NodeKey(s.sched.run, s.plans[s.sched.run][s.sched.phase.next].id);
       && RowChange(s, k, row, s.issued) && row.status != Running
       && ViewOk(s.nodes[k := row], s.plans[s.sched.run], e')
  }

  lemma VisitChange(s: State, s': State, row: NodeRow, e': Scheduler)
    requires Inv(s) && Acts(s, row, e')
    requires s' == SetRow(s, NodeKey(s.sched.run, s.plans[s.sched.run][s.sched.phase.next].id), row).(sched := e')
    ensures Inv(s') && RowsEvolve(s, s')
  {
    var k := NodeKey(s.sched.run, s.plans[s.sched.run][s.sched.phase.next].id);
    hide TablesOk, RowsEvolve, RowChange, ViewOk, JobsOk;
    ChangeRow(s, k, row, s.issued);
    SameTables(s.(nodes := s.nodes[k := row], issued := s.issued), s');
    ChangeEvolves(s, k, row, s');
    SameRunKeepsJobs(s, s');
  }

  lemma ChangeEvolves(s: State, k: NodeKey, row: NodeRow, s': State)
    requires RowChange(s, k, row, s.issued) && s'.nodes == s.nodes[k := row]
    ensures RowsEvolve(s, s')
  {
    hide DepsSucceeded, RowOk;
  }

  /** The dependencies of a node that is about to be launched have succeeded. */
  lemma LaunchDeps(nodes: map<NodeKey, NodeRow>, run: int, names: set<string>, results: map<string, Status>,
                   live: set<string>, t: Task)
    requires Agreement(nodes, run, names, results, live) && t.deps <= names
    requires !Blocked(t, results) && !Unresolved(t, results)
    ensures DepsSucceeded(nodes, run, t)
  {}

  lemma IssuedNotPending(s: State, k: NodeKey)
    requires TablesOk(s) && k in s.nodes && s.nodes[k] == NodeRow(Pending, None)
    ensures k !in s.issued && s.issued - {k} == s.issued
  {
    hide Names, Ordered, DepsOk;
  }

  lemma VisitStep(s: State, choice: Option<string>)
    requires Inv(s) && Can(s, Visit(choice))
    ensures Inv(Do(s, Visit(choice))) && RowsEvolve(s, Do(s, Visit(choice)))
  {
    var e, plan := s.sched, s.plans[s.sched.run];
    var t := plan[e.phase.next];
    var k := NodeKey(e.run, t.id);
    VisitPending(s, choice);
    assert Ordered(plan);
    match Decide(t, e.results, e.running, e.stop || e.canceling) {
      case Leave => VisitLeaves(s, choice);
      case Skip => VisitSkips(s, choice);
      case Launch => VisitLaunches(s, choice);
    }
  }

  lemma VisitLeaves(s: State, choice: Option<string>)
    requires Inv(s) && CanVisit(s, choice)
    requires var e := s.sched;
      Decide(s.plans[e.run][e.phase.next], e.results, e.running, e.stop || e.canceling) == Leave
    ensures Inv(VisitNode(s, choice)) && RowsEvolve(s, VisitNode(s, choice))
  {
    hide Assignable, Blocked, Unresolved, Ordered, ViewOk, TablesOk, JobsOk;
    var s', e := VisitNode(s, choice), s.sched;
    CurrentView(s);
    ViewLeave(s.nodes, s.plans[e.run], e);
    SameTables(s, s');
    SameRunKeepsJobs(s, s');
  }

  lemma VisitSkips(s: State, choice: Option<string>)
    requires Inv(s) && CanVisit(s, choice)
    requires var e := s.sched;
      Decide(s.plans[e.run][e.phase.next], e.results, e.running, e.stop || e.canceling) == Skip
    ensures Inv(VisitNode(s, choice)) && RowsEvolve(s, VisitNode(s, choice))
  {
    hide Inv, Acts, Assignable, RowsEvolve, Blocked, Unresolved;
    var e := s.sched;
    var t := s.plans[e.run][e.phase.next];
    var e' := e.(results := e.results[t.id := Skipped], phase := e.phase.(next := e.phase.next + 1));
    VisitPending(s, choice);
    SkipActs(s, choice, e');
    VisitChange(s, VisitNode(s, choice), NodeRow(Skipped, None), e');
  }

  lemma SkipActs(s: State, choice: Option<string>, e': Scheduler)
    requires Inv(s) && CanVisit(s, choice)
    requires var e := s.sched; var t := s.plans[e.run][e.phase.next];
      && Decide(t, e.results, e.running, e.stop || e.canceling) == Skip
      && e' == e.(results := e.results[t.id := Skipped], phase := e.phase.(next := e.phase.next + 1))
    ensures Acts(s, NodeRow(Skipped, None), e')
  {
    hide TablesOk, JobsOk, SchedOk, ViewOk, Names, Ordered, Assignable, Eligible, FlagsOk, DepsSucceeded;
    CurrentView(s);
    var e, plan := s.sched, s.plans[s.sched.run];
    var t := plan[e.phase.next];
    VisitPending(s, choice);
    IssuedNotPending(s, NodeKey(e.run, t.id));
    SkipFlags(s.nodes, plan, e, t);
    ViewResult(s.nodes, plan, e, NodeRow(Skipped, None), e.stop);
  }

  lemma CurrentView(s: State)
    requires Inv(s) && s.sched.Executing?
    ensures s.sched.run in s.plans && Ordered(s.plans[s.sched.run]) && ViewOk(s.nodes, s.plans[s.sched.run], s.sched)
  {}

  /** In the scheduler's view, skips have causes even when they come from a blocked dependency. */
  lemma SkipFlags(nodes: map<NodeKey, NodeRow>, plan: seq<Task>, e: Scheduler, t: Task)
    requires e.Executing? && ViewOk(nodes, plan, e) && t.deps <= Names(plan) && t.id !in e.results
    requires Blocked(t, e.results) || e.stop || e.canceling
    ensures FlagsOk(e.results[t.id := Skipped], e.stop, e.canceling)
  {
    FlagsSkipped(t, Names(plan), e.results, e.stop, e.canceling);
  }

  lemma FailFlags(nodes: map<NodeKey, NodeRow>, plan: seq<Task>, e: Scheduler, t: Task)
    requires e.Executing? && ViewOk(nodes, plan, e) && t.id !in e.results
    ensures FlagsOk(e.results[t.id := Failed], true, e.canceling)
  {
    FlagsAfter(e.results, e.stop, e.canceling, t.id, Failed);
  }

  lemma QueueDeps(nodes: map<NodeKey, NodeRow>, plan: seq<Task>, e: Scheduler, t: Task)
    requires e.Executing? && ViewOk(nodes, plan, e) && t.deps <= Names(plan)
    requires !Blocked(t, e.results) && !Unresolved(t, e.results)
    ensures DepsSucceeded(nodes, e.run, t)
  {
    LaunchDeps(nodes, e.run, Names(plan), e.results, Live(e), t);
  }

  lemma VisitLaunches(s: State, choice: Option<string>)
    requires Inv(s) && CanVisit(s, choice)
    requires var e := s.sched;
      Decide(s.plans[e.run][e.phase.next], e.results, e.running, e.stop || e.canceling) == Launch
    ensures Inv(VisitNode(s, choice)) && RowsEvolve(s, VisitNode(s, choice))
  {
    hide Inv, Acts, Blocked, Unresolved, Assignable, RowsEvolve;
    CurrentView(s);
    hide ViewOk, Ordered;
    var e := s.sched;
    var t := s.plans[e.run][e.phase.next];
    match choice {
      case Some(a) =>
        var e' := e.(phase := Scanning(e.phase.next + 1, e.phase.queued + {t.id}));
        QueueActs(s, a, e');
        VisitChange(s, VisitNode(s, choice), NodeRow(Queued, Some(a)), e');
      case None =>
        var e' := e.(results := e.results[t.id := Failed], stop := true, phase := e.phase.(next := e.phase.next + 1));
        FailActs(s, e');
        VisitPending(s, choice);
        VisitChange(s, VisitNode(s, choice), NodeRow(Failed, None), e');
    }
  }

  lemma FailActs(s: State, e': Scheduler)
    requires Inv(s) && CanVisit(s, None)
    requires var e := s.sched; var t := s.plans[e.run][e.phase.next];
      && Decide(t, e.results, e.running, e.stop || e.canceling) == Launch
      && e' == e.(results := e.results[t.id := Failed], stop := true, phase := e.phase.(next := e.phase.next + 1))
    ensures Acts(s, NodeRow(Failed, None), e')
  {
    hide TablesOk, JobsOk, SchedOk, ViewOk, Names, Ordered, Assignable, Eligible, FlagsOk, DepsSucceeded;
    CurrentView(s);
    var e, plan := s.sched, s.plans[s.sched.run];
    var t := plan[e.phase.next];
    VisitPending(s, None);
    IssuedNotPending(s, NodeKey(e.run, t.id));
    FailFlags(s.nodes, plan, e, t);
    ViewResult(s.nodes, plan, e, NodeRow(Failed, None), true);
  }

  lemma QueueActs(s: State, a: string, e': Scheduler)
    requires Inv(s) && CanVisit(s, Some(a))
    requires var e := s.sched; var t := s.plans[e.run][e.phase.next];
      && Decide(t, e.results, e.running, e.stop || e.canceling) == Launch
      && e' == e.(phase := Scanning(e.phase.next + 1, e.phase.queued + {t.id}))
    ensures Acts(s, NodeRow(Queued, Some(a)), e')
  {
    hide TablesOk, JobsOk, SchedOk, ViewOk, Names, Ordered, Eligible, FlagsOk, DepsSucceeded;
    CurrentView(s);
    var e, plan := s.sched, s.plans[s.sched.run];
    var t := plan[e.phase.next];
    VisitPending(s, Some(a));
    IssuedNotPending(s, NodeKey(e.run, t.id));
    EligibleOnline(s, t, a);
    QueueDeps(s.nodes, plan, e, t);
    SameTask(plan, e.phase.next);
    ViewQueued(s.nodes, plan, e, a);
  }

  lemma SameTask(plan: seq<Task>, n: nat)
    requires Ordered(plan) && n < |plan|
    ensures forall u :: u in plan && u.id == plan[n].id ==> u == plan[n]
  {
    NextTask(plan, n, {});
  }

  /** Nodes only go to agents that are online. */
  lemma EligibleOnline(s: State, t: Task, a: string)
    requires TablesOk(s) && Eligible(s.agents, t.target, a)
    ensures a in s.agents && s.agents[a].online
  {}

  // ---- Every step ----

  lemma SchedulerStep(s: State, a: Action)
    requires Inv(s) && Can(s, a)
    requires a.Pick? || a.FailStart? || a.CheckCancel? || a.EndScan? || a.Observe? || a.CancelWake? || a.Finalize?
    ensures Inv(Do(s, a)) && RowsEvolve(s, Do(s, a))
  {
    NodesKept(s, a);
    hide Inv, Can, Do;
    match a
    case Pick(r) => PickStep(s, r);
    case FailStart => FailStartStep(s);
    case CheckCancel => CheckCancelStep(s);
    case EndScan => EndScanStep(s);
    case Observe(x) => ObserveStep(s, x);
    case CancelWake => CancelWakeStep(s);
    case Finalize => FinalizeStep(s);
  }

  /** Every step of every participant keeps the invariant and moves rows only along their life cycle. */
  lemma StepKeepsInv(s: State, a: Action)
    requires Inv(s) && Can(s, a)
    ensures Inv(Do(s, a)) && RowsEvolve(s, Do(s, a))
  {
    hide *;
    match a {
      case InsertSome(plan) => InsertSomeStep(s, plan);
      case Prepare(plan) => PrepareStep(s, plan);
      case Visit(choice) => VisitStep(s, choice);
      case PickLocal(_) => WorkerStep(s, a);
      case FinishLocal(_, _) => WorkerStep(s, a);
      case Poll(_, _) => WorkerStep(s, a);
      case Report(_, _, _) => WorkerStep(s, a);
      case Monitor(_) => WorkerStep(s, a);
      case Enqueue(_, _) => UserStep(s, a);
      case Cancel(_) => UserStep(s, a);
      case Register(_, _) => UserStep(s, a);
      case Heartbeat(_) => UserStep(s, a);
      case _ => SchedulerStep(s, a);
    }
  }

  lemma InitInv(s: State)
    requires Init(s)
    ensures Inv(s)
  {}
}
