/** Nodes are sent to the agents that their definitions ask for. */
module RunPlacement {
  import opened Wrappers
  import opened JobTypes
  import opened RunState
  import opened RunInvariant
  import opened RunSteps
  import opened RunTheorems
  import opened RunOutcomes

  /** The agent is the one the target asks for by name, if it does, and has all the labels. */
  ghost predicate Meets(agents: map<string, AgentRow>, g: string, target: Option<NodeTarget>) {
    if target.None? then g == "local"
    else
      && g in agents
      && (target.value.agent.Some? ==> agents[g].name == target.value.agent.value)
      && forall l :: l in target.value.labels ==> l in agents[g].labels
  }

  ghost predicate PlacedTask(s: State, r: int, t: Task) {
    NodeKey(r, t.id) in s.nodes && s.nodes[NodeKey(r, t.id)].agent.Some? ==>
      Meets(s.agents, s.nodes[NodeKey(r, t.id)].agent.value, t.target)
  }

  ghost predicate Placed(s: State) {
    forall r, t :: r in s.plans && t in s.plans[r] ==> PlacedTask(s, r, t)
  }

  /** An agent keeps its name and its labels. */
  lemma AgentsStay(s: State, a: Action, g: string)
    requires Can(s, a) && g in s.agents
    ensures g in Do(s, a).agents
    ensures Do(s, a).agents[g].name == s.agents[g].name && Do(s, a).agents[g].labels == s.agents[g].labels
  {
    hide VisitNode, CanVisit, Ordered, PendingRows, Names, Ids, StorableCount, ServedBefore, FinalStatus;
    if a.Visit? { VisitFrame(s, a.choice); }
  }

  /** Only looking at a node gives it an agent, an eligible one. */
  lemma AgentsGiven(s: State, a: Action, k: NodeKey)
    requires Inv(s) && Can(s, a) && k in Do(s, a).nodes && Do(s, a).nodes[k].agent.Some?
    requires k in s.nodes ==> s.nodes[k].agent.None?
    ensures a.Visit? && s.sched.Executing? && s.sched.phase.Scanning? && s.sched.run == k.run && k.run in s.plans
    ensures s.sched.phase.next < |s.plans[k.run]| && s.plans[k.run][s.sched.phase.next].id == k.node
    ensures Assignable(s.agents, s.plans[k.run][s.sched.phase.next].target, Do(s, a).nodes[k].agent)
  {
    if a.Visit? {
      GivenByVisit(s, a.choice, k);
      hide Can, Do, VisitNode;
      assert Do(s, a) == Do(s, Visit(a.choice));
    } else if a.Prepare? || a.InsertSome? {
      GivenByStart(s, a, k);
    } else if a.PickLocal? || a.FinishLocal? || a.Poll? || a.Report? || a.Monitor? {
      GivenByWorker(s, a, k);
    } else {
      NodesKept(s, a);
    }
  }

  lemma GivenByVisit(s: State, choice: Option<string>, k: NodeKey)
    requires Can(s, Visit(choice)) && k in Do(s, Visit(choice)).nodes && Do(s, Visit(choice)).nodes[k].agent.Some?
    requires k in s.nodes ==> s.nodes[k].agent.None?
    ensures s.sched.Executing? && s.sched.phase.Scanning? && s.sched.run == k.run && k.run in s.plans
    ensures s.sched.phase.next < |s.plans[k.run]| && s.plans[k.run][s.sched.phase.next].id == k.node
    ensures Assignable(s.agents, s.plans[k.run][s.sched.phase.next].target, Do(s, Visit(choice)).nodes[k].agent)
  {
    VisitDoes(s, choice);
    hide Can, Do, Assignable, Decide;
    VisitForm(s, choice);
    hide VisitNode;
  }

  lemma GivenByStart(s: State, a: Action, k: NodeKey)
    requires Can(s, a) && (a.Prepare? || a.InsertSome?) && k in Do(s, a).nodes
    ensures k in s.nodes || Do(s, a).nodes[k].agent.None?
    ensures k in s.nodes && Do(s, a).nodes[k].agent.Some? ==> s.nodes[k].agent.Some?
  {
    hide Ordered, Names, Ids, StorableCount;
  }

  lemma GivenByWorker(s: State, a: Action, k: NodeKey)
    requires Can(s, a) && (a.PickLocal? || a.FinishLocal? || a.Poll? || a.Report? || a.Monitor?) && k in Do(s, a).nodes
    ensures k in s.nodes && Do(s, a).nodes[k].agent == s.nodes[k].agent
  {}

  lemma EligibleMeets(agents: map<string, AgentRow>, target: Option<NodeTarget>, g: string)
    ensures Eligible(agents, target, g) <==> Meets(agents, g, target) && (target.Some? ==> agents[g].online)
  {}

  lemma MeetsStays(agents: map<string, AgentRow>, agents': map<string, AgentRow>, g: string, target: Option<NodeTarget>)
    requires Meets(agents, g, target)
    requires g in agents ==> g in agents' && agents'[g].name == agents[g].name && agents'[g].labels == agents[g].labels
    ensures Meets(agents', g, target)
  {}

  lemma StepKeepsPlaced(s: State, a: Action)
    requires Inv(s) && Can(s, a) && Inv(Do(s, a)) && RowsEvolve(s, Do(s, a)) && Placed(s)
    ensures Placed(Do(s, a))
  {
    hide Inv, Can, Do, RowsEvolve, PlacedTask;
    var s' := Do(s, a);
    forall r, t | r in s'.plans && t in s'.plans[r] ensures PlacedTask(s', r, t) { StepKeepsTask(s, a, r, t); }
  }

  lemma StepKeepsTask(s: State, a: Action, r: int, t: Task)
    requires Inv(s) && Can(s, a) && Inv(Do(s, a)) && RowsEvolve(s, Do(s, a)) && Placed(s)
    requires r in Do(s, a).plans && t in Do(s, a).plans[r]
    ensures PlacedTask(Do(s, a), r, t)
  {
    hide Inv, Can, Do, Meets, Ordered, Names;
    var s', k := Do(s, a), NodeKey(r, t.id);
    if k in s'.nodes && s'.nodes[k].agent.Some? {
      var g := s'.nodes[k].agent.value;
      if k in s.nodes && s.nodes[k].agent.Some? {
        AgentStays(s, s', k);
        PlanStays(s, a, k, t);
        assert PlacedTask(s, r, t);
        if g in s.agents { AgentsStay(s, a, g); }
        MeetsStays(s.agents, s'.agents, g, t.target);
      } else {
        AgentsGiven(s, a, k);
        StepKeepsPlans(s, a, r);
        PlanOrder(s, r);
        SameTask(s.plans[r], s.sched.phase.next);
        EligibleMeets(s.agents, t.target, g);
        if g in s.agents { AgentsStay(s, a, g); }
        MeetsStays(s.agents, s'.agents, g, t.target);
      }
    }
  }

  lemma AgentStays(s: State, s': State, k: NodeKey)
    requires RowsEvolve(s, s') && k in s.nodes && s.nodes[k].agent.Some?
    ensures k in s'.nodes && s'.nodes[k].agent == s.nodes[k].agent
  {}

  lemma PlanOrder(s: State, r: int)
    requires Inv(s) && r in s.plans
    ensures Ordered(s.plans[r])
  {
    TablesHold(s);
    hide Inv, AgentsOk, IssuedOk, DepsOk, Ordered, Names;
  }

  /** A node with an agent belongs to a run whose plan is there to stay. */
  lemma PlanStays(s: State, a: Action, k: NodeKey, t: Task)
    requires Inv(s) && Can(s, a) && k in s.nodes && s.nodes[k].agent.Some?
    requires k.run in Do(s, a).plans && t in Do(s, a).plans[k.run]
    ensures k.run in s.plans && t in s.plans[k.run]
  {
    RowRun(s, k);
    StepKeepsPlans(s, a, k.run);
    hide Can, Do, Inv;
  }

  lemma RowRun(s: State, k: NodeKey)
    requires Inv(s) && k in s.nodes && s.nodes[k].agent.Some?
    ensures k.run in s.plans
  {
    TablesHold(s);
    hide Inv, AgentsOk, IssuedOk, DepsOk, Names, Ordered;
    assert Belongs(k, s.nodes[k], s.plans, s.stubs);
  }

  lemma {:induction false} AlwaysPlaced(trace: seq<State>, actions: seq<Action>, i: nat)
    requires Execution(trace, actions) && i < |trace|
    ensures Placed(trace[i])
  {
    hide Inv, Can, Do, RowsEvolve, Step, PlacedTask;
    if i > 0 {
      AlwaysPlaced(trace, actions, i - 1);
      StepOf(trace, actions, i);
      StepKeepsPlaced(trace[i - 1], actions[i - 1]);
    }
  }

  /**
   In every reachable state, a node with an agent is on one that its target asks for: of the wanted
   name, if there is one, and with all the wanted labels; without a target it is on the built-in worker.
   */
  lemma AssignedAsWanted(trace: seq<State>, actions: seq<Action>, i: nat, r: int, t: Task, g: string)
    requires Execution(trace, actions) && i < |trace| && r in trace[i].plans && t in trace[i].plans[r]
    requires NodeKey(r, t.id) in trace[i].nodes && trace[i].nodes[NodeKey(r, t.id)].agent == Some(g)
    ensures t.target.None? ==> g == "local"
    ensures t.target.Some? ==> g in trace[i].agents
    ensures t.target.Some? && t.target.value.agent.Some? ==> trace[i].agents[g].name == t.target.value.agent.value
    ensures t.target.Some? ==> forall l :: l in t.target.value.labels ==> l in trace[i].agents[g].labels
  {
    hide Execution;
    AlwaysPlaced(trace, actions, i);
    assert PlacedTask(trace[i], r, t);
  }

  /** An agent is online when it is given a node. */
  lemma AssignedOnline(trace: seq<State>, actions: seq<Action>, i: nat, k: NodeKey, g: string)
    requires Execution(trace, actions) && 0 < i < |trace| && k in trace[i].nodes && trace[i].nodes[k].agent == Some(g)
    requires k in trace[i - 1].nodes ==> trace[i - 1].nodes[k].agent.None?
    ensures g in trace[i - 1].agents && trace[i - 1].agents[g].online
  {
    hide Execution, Inv, Can, Do, RowsEvolve;
    ActionBound(trace, actions);
    StepOf(trace, actions, i);
    var s := trace[i - 1];
    AgentsGiven(s, actions[i - 1], k);
    InvParts(s);
    hide TablesOk;
    EligibleOnline(s, s.plans[k.run][s.sched.phase.next], g);
  }

  lemma FailedByVisit(s: State, a: Action, k: NodeKey)
    requires Inv(s) && Can(s, a) && k in s.nodes && s.nodes[k] == NodeRow(Pending, None)
    requires k in Do(s, a).nodes && Do(s, a).nodes[k].status == Failed
    ensures a.Visit? && s.sched.Executing? && s.sched.phase.Scanning? && s.sched.run == k.run && k.run in s.plans
    ensures s.sched.phase.next < |s.plans[k.run]| && s.plans[k.run][s.sched.phase.next].id == k.node
    ensures Assignable(s.agents, s.plans[k.run][s.sched.phase.next].target, None)
  {
    if a.Visit? {
      FailVisit(s, a.choice, k);
      hide Can, Do, VisitNode;
      assert Do(s, a) == Do(s, Visit(a.choice));
    } else if a.Prepare? || a.InsertSome? {
      StartFailsNone(s, a, k);
    } else if a.PickLocal? || a.FinishLocal? || a.Poll? || a.Report? || a.Monitor? {
      WorkersFailNone(s, a, k);
    } else {
      NodesKept(s, a);
    }
  }

  lemma FailVisit(s: State, choice: Option<string>, k: NodeKey)
    requires Can(s, Visit(choice)) && k in s.nodes && s.nodes[k] == NodeRow(Pending, None)
    requires k in Do(s, Visit(choice)).nodes && Do(s, Visit(choice)).nodes[k].status == Failed
    ensures s.sched.Executing? && s.sched.phase.Scanning? && s.sched.run == k.run && k.run in s.plans
    ensures s.sched.phase.next < |s.plans[k.run]| && s.plans[k.run][s.sched.phase.next].id == k.node
    ensures Assignable(s.agents, s.plans[k.run][s.sched.phase.next].target, None)
  {
    VisitDoes(s, choice);
    hide Can, Do, Assignable, Decide;
    VisitForm(s, choice);
    hide VisitNode;
  }

  lemma StartFailsNone(s: State, a: Action, k: NodeKey)
    requires Can(s, a) && (a.Prepare? || a.InsertSome?) && k in Do(s, a).nodes && k in s.nodes
    ensures Do(s, a).nodes[k] == s.nodes[k] || Do(s, a).nodes[k].status == Pending
  {
    hide Ordered, Names, Ids, StorableCount;
  }

  lemma WorkersFailNone(s: State, a: Action, k: NodeKey)
    requires Inv(s) && Can(s, a) && k in s.nodes && s.nodes[k] == NodeRow(Pending, None)
    requires a.PickLocal? || a.FinishLocal? || a.Poll? || a.Report? || a.Monitor?
    ensures k in Do(s, a).nodes && Do(s, a).nodes[k] == s.nodes[k]
  {
    hide Inv;
  }

  /** A node fails unsent only if each agent is offline, of another name, or lacks a label. */
  lemma FailedForWantOfAgent(trace: seq<State>, actions: seq<Action>, i: nat, r: int, t: Task, g: string)
    requires Execution(trace, actions) && 0 < i < |trace| && r in trace[i - 1].plans && t in trace[i - 1].plans[r]
    requires NodeKey(r, t.id) in trace[i - 1].nodes && trace[i - 1].nodes[NodeKey(r, t.id)].status == Pending
    requires NodeKey(r, t.id) in trace[i].nodes && trace[i].nodes[NodeKey(r, t.id)].status == Failed
    ensures t.target.Some?
    ensures g in trace[i - 1].agents && trace[i - 1].agents[g].online ==>
      || (t.target.value.agent.Some? && trace[i - 1].agents[g].name != t.target.value.agent.value)
      || exists l :: l in t.target.value.labels && l !in trace[i - 1].agents[g].labels
  {
    hide Execution, Inv, Can, Do, RowsEvolve;
    ActionBound(trace, actions);
    StepOf(trace, actions, i);
    var s, k := trace[i - 1], NodeKey(r, t.id);
    PendingRow(s, k);
    FailedByVisit(s, actions[i - 1], k);
    PlanOrder(s, r);
    SameTask(s.plans[r], s.sched.phase.next);
    hide Ordered;
    assert !Eligible(s.agents, t.target, LOCAL) && !Eligible(s.agents, t.target, g);
  }

  lemma PendingRow(s: State, k: NodeKey)
    requires Inv(s) && k in s.nodes && s.nodes[k].status == Pending
    ensures s.nodes[k] == NodeRow(Pending, None)
  {
    TablesHold(s);
    hide Inv, AgentsOk, IssuedOk, DepsOk, Names, Ordered;
    assert Belongs(k, s.nodes[k], s.plans, s.stubs);
  }
}
