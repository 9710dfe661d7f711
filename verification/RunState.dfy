/**
 The run protocol as a transition system.

 One step is one HTTP handler, one worker pick or finish, one monitor pass, one look
 at a node by the scheduler, or one scheduler decision between two database accesses.
 `Can` says when a step may happen, `Do` what it changes.  Everything the outside world
 chooses (agents, outcomes, timing, loaded definitions) is a parameter of the step.
 */
module RunState {
  import opened Wrappers
  import opened JobTypes

  const LOCAL := "local"

  /** The key under which a cancel wake-up is recorded among the results; no node has this id. */
  const PHANTOM := ""

  datatype Status =
    | Pending | Queued | Running | CancelRequested
    | Success | Failed | TimedOut | Canceled | Skipped

  /** Claimed by the scheduler and not finished. */
  predicate Active(s: Status) { s == Queued || s == Running }

  /** The outcomes a worker can report. */
  predicate Outcome(s: Status) { s == Success || s == Failed || s == TimedOut || s == Canceled }

  predicate Finished(s: Status) { Outcome(s) || s == Skipped }

  /** The outcomes after which nothing new is started. */
  predicate Unsuccessful(s: Status) { s == Failed || s == TimedOut || s == Canceled }

  /** Rows of `node_runs` are identified by their run and node id, which the schema makes unique. */
  datatype NodeKey = NodeKey(run: int, node: string)

  datatype NodeRow = NodeRow(status: Status, agent: Option<string>)

  datatype AgentRow = AgentRow(name: string, labels: set<string>, online: bool)

  datatype JobRow = JobRow(status: Status, createdAt: int)

  /** What the scheduler uses of a resolved node. */
  datatype Task = Task(id: string, deps: set<string>, target: Option<NodeTarget>, timeoutSec: nat)

  /** The largest timeout that fits its column. */
  const MAX_TIMEOUT := 0x7fff_ffff_ffff_ffff

  /** The table `node_runs` takes the timeout. */
  predicate Storable(timeoutSec: nat) { 1 <= timeoutSec <= MAX_TIMEOUT }

  /** How many rows can be inserted before the first node whose timeout the table refuses. */
  function StorableCount(plan: seq<Task>): (n: nat)
    ensures n <= |plan| && forall i :: 0 <= i < n ==> Storable(plan[i].timeoutSec)
    ensures n < |plan| ==> !Storable(plan[n].timeoutSec)
  {
    if plan == [] || !Storable(plan[0].timeoutSec) then 0 else 1 + StorableCount(plan[1..])
  }

  datatype Phase =
    | Checking                                    // about to read the cancel flag
    | Scanning(next: nat, queued: set<string>)    // about to look at node `next`
    | Waiting                                     // for a running node, or a cancel request
    | Finalizing                                  // nothing is running any more

  /** The scheduler's local variables. */
  datatype Scheduler =
    | Idle
    | Picked(run: int)
    | Executing(run: int, results: map<string, Status>, running: set<string>,
                stop: bool, canceling: bool, phase: Phase)

  /**
   The tables, the scheduler, and five history variables: the tasks handed to a worker
   and not reported back, the definition each run was started with, the nodes whose rows were
   inserted for a run that could not be started, the runs in the order in which they were
   picked, and the runs in which the scheduler observed a cancel.
   */
  datatype State = State(
    jobs: map<int, JobRow>,
    nodes: map<NodeKey, NodeRow>,
    agents: map<string, AgentRow>,
    sched: Scheduler,
    issued: set<NodeKey>,
    plans: map<int, seq<Task>>,
    stubs: map<int, set<string>>,
    picks: seq<int>,
    observed: set<int>)

  // ---- Definitions in executable order ----

  function Ids(plan: seq<Task>, n: nat): set<string>
    requires n <= |plan|
  {
    set i | 0 <= i < n :: plan[i].id
  }

  function Names(plan: seq<Task>): set<string> { Ids(plan, |plan|) }

  /** Ids are non-empty and unique, and every dependency is listed earlier. */
  ghost predicate Ordered(plan: seq<Task>) {
    forall i :: 0 <= i < |plan| ==>
      plan[i].id != PHANTOM && plan[i].id !in Ids(plan, i) && plan[i].deps <= Ids(plan, i)
  }

  // ---- Decisions of the scheduler ----

  /** Some dependency finished without success. */
  predicate Blocked(task: Task, results: map<string, Status>) {
    exists d :: d in task.deps && d in results && results[d] != Success
  }

  /** Some dependency has no result yet. */
  predicate Unresolved(task: Task, results: map<string, Status>) {
    exists d :: d in task.deps && d !in results
  }

  datatype Decision = Leave | Skip | Launch

  function Decide(task: Task, results: map<string, Status>, running: set<string>, halted: bool): Decision {
    if task.id in results || task.id in running then Leave
    else if Blocked(task, results) then Skip
    else if Unresolved(task, results) then Leave
    else if halted then Skip
    else Launch
  }

  predicate Eligible(agents: map<string, AgentRow>, target: Option<NodeTarget>, a: string) {
    match target
    case None => a == LOCAL
    case Some(t) =>
      && a in agents && agents[a].online
      && (t.agent.Some? ==> agents[a].name == t.agent.value)
      && forall l :: l in t.labels ==> l in agents[a].labels
  }

  /** `choice` is an agent the node may go to, or nothing when no agent fits. */
  ghost predicate Assignable(agents: map<string, AgentRow>, target: Option<NodeTarget>, choice: Option<string>) {
    match choice
    case Some(a) => Eligible(agents, target, a)
    case None => forall a :: !Eligible(agents, target, a)
  }

  function FinalStatus(results: map<string, Status>, canceling: bool): Status {
    if TimedOut in results.Values then TimedOut
    else if Failed in results.Values then Failed
    else if canceling || Canceled in results.Values then Canceled
    else Success
  }

  /** The order in which queued runs are served. */
  predicate ServedBefore(jobs: map<int, JobRow>, a: int, b: int)
    requires a in jobs && b in jobs
  {
    jobs[a].createdAt < jobs[b].createdAt || (jobs[a].createdAt == jobs[b].createdAt && a < b)
  }

  // ---- Steps ----

  datatype Action =
    // the scheduler
    | Pick(run: int) | FailStart | InsertSome(plan: seq<Task>) | Prepare(plan: seq<Task>) | CheckCancel
    | Visit(choice: Option<string>) | EndScan
    | Observe(id: string) | CancelWake | Finalize
    // everybody else
    | Enqueue(newRun: int, createdAt: int) | Cancel(target: int) | Register(agent: string, row: AgentRow)
    | PickLocal(key: NodeKey) | FinishLocal(key: NodeKey, outcome: Status)
    | Poll(agent: string, key: NodeKey) | Report(agent: string, key: NodeKey, outcome: Status)
    | Heartbeat(agent: string) | Monitor(stale: set<string>)

  predicate InPhase(s: State, p: Phase) { s.sched.Executing? && s.sched.phase == p }

  ghost predicate CanInsert(s: State, plan: seq<Task>) {
    s.sched.Picked? && s.sched.run in s.jobs && s.sched.run !in s.stubs && plan != [] && Ordered(plan)
  }

  ghost predicate CanVisit(s: State, choice: Option<string>) {
    && s.sched.Executing? && s.sched.phase.Scanning? && s.sched.run in s.plans
    && var plan := s.plans[s.sched.run];
    && s.sched.phase.next < |plan|
    && NodeKey(s.sched.run, plan[s.sched.phase.next].id) in s.nodes
    && Assignable(s.agents, plan[s.sched.phase.next].target, choice)
  }

  /** A request carrying the credentials of remote agent `a` is accepted. */
  predicate Authenticated(s: State, a: string) { a in s.agents && s.agents[a].online && a != LOCAL }

  predicate Assigned(s: State, k: NodeKey, a: string) { k in s.nodes && s.nodes[k].agent == Some(a) }

  ghost predicate Can(s: State, a: Action) {
    match a
    case Pick(r) =>
      s.sched.Idle? && r in s.jobs && s.jobs[r].status == Queued
      && forall q :: q in s.jobs && s.jobs[q].status == Queued && q != r ==> ServedBefore(s.jobs, r, q)
    case FailStart => s.sched.Picked? && s.sched.run in s.jobs
    case InsertSome(plan) => CanInsert(s, plan) && StorableCount(plan) < |plan|
    case Prepare(plan) => CanInsert(s, plan) && StorableCount(plan) == |plan|
    case CheckCancel => InPhase(s, Checking) && s.sched.run in s.jobs
    case Visit(choice) => CanVisit(s, choice)
    case EndScan =>
      s.sched.Executing? && s.sched.phase.Scanning? && s.sched.run in s.plans
      && s.sched.phase.next == |s.plans[s.sched.run]|
    case Observe(x) =>
      InPhase(s, Waiting) && x in s.sched.running
      && NodeKey(s.sched.run, x) in s.nodes && Outcome(s.nodes[NodeKey(s.sched.run, x)].status)
    case CancelWake =>
      InPhase(s, Waiting) && s.sched.run in s.jobs && s.jobs[s.sched.run].status == CancelRequested
    case Finalize => InPhase(s, Finalizing) && s.sched.run in s.jobs
    case Enqueue(r, _) => forall q :: q in s.jobs ==> q < r
    case Cancel(r) => r in s.jobs && (s.jobs[r].status == Queued || s.jobs[r].status == Running)
    case Register(g, row) => g !in s.agents && row.online
    case PickLocal(k) => Assigned(s, k, LOCAL) && s.nodes[k].status == Queued
    case FinishLocal(k, o) => Assigned(s, k, LOCAL) && k in s.issued && Outcome(o) && o != Canceled
    case Poll(g, k) => Authenticated(s, g) && Assigned(s, k, g) && s.nodes[k].status == Queued
    case Report(g, k, o) => Authenticated(s, g) && Assigned(s, k, g) && k in s.issued && Outcome(o)
    case Heartbeat(g) => Authenticated(s, g)
    case Monitor(stale) => LOCAL !in stale
  }

  function SetRow(s: State, k: NodeKey, row: NodeRow): State {
    s.(nodes := s.nodes[k := row])
  }

  function SetStatus(s: State, k: NodeKey, st: Status): State
    requires k in s.nodes
  {
    SetRow(s, k, s.nodes[k].(status := st))
  }

  function SetJob(s: State, r: int, st: Status): State
    requires r in s.jobs
  {
    s.(jobs := s.jobs[r := s.jobs[r].(status := st)])
  }

  function PendingRows(run: int, names: set<string>): map<NodeKey, NodeRow> {
    map x | x in names :: NodeKey(run, x) := NodeRow(Pending, None)
  }

  /** Insert pending rows up to the first one that the table refuses; the run is still to be failed. */
  function InsertPrefix(s: State, plan: seq<Task>): State
    requires s.sched.Picked?
  {
    var r, names := s.sched.run, Ids(plan, StorableCount(plan));
    s.(nodes := s.nodes + PendingRows(r, names), stubs := s.stubs[r := names])
  }

  /** Insert one pending row per node; mark the run running unless a cancel request got in first. */
  function StartRun(s: State, plan: seq<Task>): State
    requires s.sched.Picked? && s.sched.run in s.jobs
  {
    var r := s.sched.run;
    var s1 := if s.jobs[r].status == Queued then SetJob(s, r, Running) else s;
    s1.(nodes := s.nodes + PendingRows(r, Names(plan)), plans := s.plans[r := plan],
        sched := Executing(r, map[], {}, false, false, Checking))
  }

  /** The scheduler looks at one node: skip it, hand it to an agent, fail it, or leave it. */
  function VisitNode(s: State, choice: Option<string>): State
    requires s.sched.Executing? && s.sched.phase.Scanning? && s.sched.run in s.plans
    requires s.sched.phase.next < |s.plans[s.sched.run]|
    requires NodeKey(s.sched.run, s.plans[s.sched.run][s.sched.phase.next].id) in s.nodes
  {
    var e := s.sched;
    var task := s.plans[e.run][e.phase.next];
    var k := NodeKey(e.run, task.id);
    var next := e.phase.(next := e.phase.next + 1);
    match Decide(task, e.results, e.running, e.stop || e.canceling)
    case Leave => s.(sched := e.(phase := next))
    case Skip => SetStatus(s, k, Skipped).(sched := e.(results := e.results[task.id := Skipped], phase := next))
    case Launch =>
      match choice
      case Some(a) =>
        SetRow(s, k, NodeRow(Queued, Some(a))).(sched := e.(phase := next.(queued := e.phase.queued + {task.id})))
      case None =>
        SetStatus(s, k, Failed).(
          sched := e.(results := e.results[task.id := Failed], stop := true, phase := next))
  }

  /** Take the outcome of a finished node into the results. */
  function ObserveNode(s: State, x: string, outcome: Status): State
    requires s.sched.Executing?
  {
    var e := s.sched;
    s.(sched := e.(running := e.running - {x}, results := e.results[x := outcome],
                   stop := e.stop || Unsuccessful(outcome), canceling := e.canceling || outcome == Canceled,
                   phase := Checking),
       observed := if outcome == Canceled then s.observed + {e.run} else s.observed)
  }

  /** Mark stale remote agents offline and fail what was queued or running on an offline agent. */
  function MonitorPass(s: State, stale: set<string>): State {
    var agents := map a | a in s.agents :: if a in stale then s.agents[a].(online := false) else s.agents[a];
    if exists a :: a in stale && a in s.agents && s.agents[a].online then
      s.(agents := agents,
         nodes := map k | k in s.nodes ::
           if Active(s.nodes[k].status) && s.nodes[k].agent.Some?
              && s.nodes[k].agent.value in agents && !agents[s.nodes[k].agent.value].online
           then s.nodes[k].(status := Failed) else s.nodes[k])
    else s
  }

  ghost function Do(s: State, a: Action): State
    requires Can(s, a)
  {
    match a
    case Pick(r) => s.(sched := Picked(r), picks := s.picks + [r])
    case FailStart => SetJob(s, s.sched.run, Failed).(sched := Idle)
    case InsertSome(plan) => InsertPrefix(s, plan)
    case Prepare(plan) => StartRun(s, plan)
    case CheckCancel =>
      var asked := s.jobs[s.sched.run].status == CancelRequested;
      s.(sched := s.sched.(canceling := s.sched.canceling || asked, phase := Scanning(0, {})),
         observed := if asked then s.observed + {s.sched.run} else s.observed)
    case Visit(choice) => VisitNode(s, choice)
    case EndScan =>
      var running := s.sched.running + s.sched.phase.queued;
      s.(sched := s.sched.(running := running, phase := if running == {} then Finalizing else Waiting))
    case Observe(x) => ObserveNode(s, x, s.nodes[NodeKey(s.sched.run, x)].status)
    case CancelWake => ObserveNode(s, PHANTOM, Canceled)
    case Finalize => SetJob(s, s.sched.run, FinalStatus(s.sched.results, s.sched.canceling)).(sched := Idle)
    case Enqueue(r, t) => s.(jobs := s.jobs[r := JobRow(Queued, t)])
    case Cancel(r) => SetJob(s, r, CancelRequested)
    case Register(g, row) => s.(agents := s.agents[g := row])
    case PickLocal(k) => SetStatus(s, k, Running).(issued := s.issued + {k})
    case FinishLocal(k, o) => SetStatus(s, k, o).(issued := s.issued - {k})
    case Poll(g, k) => SetStatus(s, k, Running).(issued := s.issued + {k})
    case Report(g, k, o) => SetStatus(s, k, o).(issued := s.issued - {k})
    case Heartbeat(g) => s.(agents := s.agents[g := s.agents[g].(online := true)])
    case Monitor(stale) => MonitorPass(s, stale)
  }

  // ---- Executions ----

  /** A fresh server: no runs, and only the built-in agent. */
  ghost predicate Init(s: State) {
    && s.jobs == map[] && s.nodes == map[] && s.sched == Idle
    && s.agents.Keys == {LOCAL} && s.agents[LOCAL].online
    && s.issued == {} && s.plans == map[] && s.stubs == map[] && s.picks == [] && s.observed == {}
  }

  ghost predicate Step(s: State, a: Action, s': State) { Can(s, a) && s' == Do(s, a) }

  /** `trace` is the sequence of states through which `actions` lead, in whatever order they interleave. */
  ghost predicate Execution(trace: seq<State>, actions: seq<Action>) {
    && |trace| == |actions| + 1
    && Init(trace[0])
    && forall i :: 0 <= i < |actions| ==> Step(trace[i], actions[i], trace[i + 1])
  }
}
