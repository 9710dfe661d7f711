/**
 The server as a program: its tables are fields, the HTTP handlers, workers, monitor and
 scheduler are methods that update them in place.  Every method is tied to the steps of the
 run protocol, so whatever is proved of all executions holds of this program.
 */
module Server {
  import opened Wrappers
  import opened JobTypes
  import opened RunState
  import opened RunInvariant
  import opened RunSteps
  import opened RunTheorems
  import opened RunOutcomes
  import opened RunProgress
  import opened RunCancel
  import Definition

  /** How the execution of a run left off. */
  datatype RunEnd = Completed | StillWaiting | Refused

  datatype ApiError = BadRequest | Unauthorized | NotFound | Conflict

  const OUTCOMES: set<Status> := {Success, Failed, TimedOut, Canceled}

  lemma ExtendExecution(trace: seq<State>, actions: seq<Action>, a: Action, s: State)
    requires Execution(trace, actions) && Step(trace[|actions|], a, s)
    ensures Execution(trace + [s], actions + [a])
  {
    hide Step, Init;
    var t, b := trace + [s], actions + [a];
    forall i | 0 <= i < |b| ensures Step(t[i], b[i], t[i + 1]) {
      assert i < |actions| ==> Step(trace[i], actions[i], trace[i + 1]);
    }
  }

  /** An element of a set, whichever comes up. */
  method AnyOf(s: set<int>) returns (x: int)
    requires s != {}
    ensures x in s
  {
    assert (forall y :: y !in s) ==> s == {};
    x :| x in s;
  }

  class Server {
    var jobs: map<int, JobRow>
    var nodes: map<NodeKey, NodeRow>
    var agents: map<string, AgentRow>
    /** When each node row was inserted. */
    var created: map<NodeKey, int>
    /** Tasks in the hands of a worker: handed out and not reported back. */
    var held: set<NodeKey>

    ghost var sched: Scheduler
    ghost var plans: map<int, seq<Task>>
    ghost var stubs: map<int, set<string>>
    ghost var picks: seq<int>
    ghost var observed: set<int>
    ghost var trace: seq<State>
    ghost var actions: seq<Action>

    ghost function View(): State
      reads this
    {
      State(jobs, nodes, agents, sched, held, plans, stubs, picks, observed)
    }

    /** The server's history is an execution of the run protocol that leads to its present state. */
    ghost predicate Valid()
      reads this
    {
      Execution(trace, actions) && trace[|actions|] == View()
    }

    lemma ValidInv()
      requires Valid()
      ensures Inv(View())
    {
      hide Inv;
      AlwaysInv(trace, actions, |actions|);
    }

    constructor ()
      ensures Valid() && Init(View()) && actions == []
      ensures agents == map["local" := AgentRow("local", {"local"}, true)]
    {
      jobs, nodes, agents, held := map[], map[], map[LOCAL := AgentRow("local", {"local"}, true)], {};
      created := map[];
      sched, plans, stubs, picks, observed, actions := Idle, map[], map[], [], {}, [];
      trace := [State(map[], map[], map[LOCAL := AgentRow("local", {"local"}, true)], Idle, {}, map[], map[], [], {})];
    }

    /** The fields have been changed as step `a` says: enter the step in the history. */
    ghost method Record(a: Action)
      requires Execution(trace, actions)
      requires Can(trace[|actions|], a) && View() == Do(trace[|actions|], a)
      modifies this`trace, this`actions
      ensures Valid() && actions == old(actions) + [a]
    {
      hide Can, Do;
      ExtendExecution(trace, actions, a, View());
      trace, actions := trace + [View()], actions + [a];
    }

    // ---- HTTP handlers ----

    method EnqueueRun(run: int, createdAt: int)
      requires Valid() && forall q :: q in jobs ==> q < run
      modifies this
      ensures OthersOnly()
      ensures Valid() && View() == Do(old(View()), Enqueue(run, createdAt))
    {
      jobs := jobs[run := JobRow(Queued, createdAt)];
      hide Execution, VisitNode, CanVisit, StartRun, ObserveNode, MonitorPass, Ordered, ServedBefore;
      Record(Enqueue(run, createdAt));
    }

    method CancelRun(run: int) returns (r: Result<Status, ApiError>)
      requires Valid()
      modifies this
      ensures OthersOnly()
      ensures Valid()
      ensures r == if run !in old(jobs) then Err(NotFound)
                   else if old(jobs[run].status) in {Queued, Running, CancelRequested} then Ok(CancelRequested)
                   else if old(jobs[run].status) == Canceled then Ok(Canceled)
                   else Err(Conflict)
      ensures if run in old(jobs) && old(jobs[run].status) in {Queued, Running}
              then View() == Do(old(View()), Cancel(run)) else View() == old(View())
    {
      if run !in jobs {
        return Err(NotFound);
      }
      var status := jobs[run].status;
      if status == Queued || status == Running {
        jobs := jobs[run := jobs[run].(status := CancelRequested)];
        hide Execution, VisitNode, CanVisit, StartRun, ObserveNode, MonitorPass, Ordered, ServedBefore;
        Record(Cancel(run));
        return Ok(CancelRequested);
      } else if status == CancelRequested || status == Canceled {
        return Ok(status);
      } else {
        return Err(Conflict);
      }
    }

    /** The name is taken without surrounding white space; a blank one is refused. */
    method RegisterAgent(id: string, name: string, labels: set<string>) returns (r: Result<(), ApiError>)
      requires Valid() && id !in agents
      modifies this
      ensures OthersOnly()
      ensures Valid() && r == if Definition.Blank(name) then Err(BadRequest) else Ok(())
      ensures View() == if r.Err? then old(View())
                        else Do(old(View()), Register(id, AgentRow(Definition.Trim(name), labels, true)))
    {
      Definition.TrimEmpty(name);
      if Definition.Trim(name) == "" {
        return Err(BadRequest);
      }
      var row := AgentRow(Definition.Trim(name), labels, true);
      agents := agents[id := row];
      hide Execution, Can, Do, Definition.Trim;
      RegisterDoes(old(View()), id, row);
      Record(Register(id, row));
      return Ok(());
    }

    predicate Accepts(agent: string)
      reads this
    {
      agent in agents && agents[agent].online
    }

    method HeartbeatFrom(agent: string) returns (r: Result<(), ApiError>)
      requires Valid() && agent != LOCAL
      modifies this
      ensures OthersOnly()
      ensures Valid() && (r.Ok? <==> agent in old(agents) && old(agents)[agent].online)
      ensures View() == if r.Ok? then Do(old(View()), Heartbeat(agent)) else old(View())
    {
      if !Accepts(agent) {
        return Err(Unauthorized);
      }
      agents := agents[agent := agents[agent].(online := true)];
      hide Execution, VisitNode, CanVisit, StartRun, ObserveNode, MonitorPass, Ordered, ServedBefore;
      Record(Heartbeat(agent));
      return Ok(());
    }

    function CreatedAt(k: NodeKey): int
      reads this`created
    {
      if k in created then created[k] else 0
    }

    predicate QueuedOn(k: NodeKey, agent: string)
      reads this`nodes
    {
      k in nodes && nodes[k].status == Queued && nodes[k].agent == Some(agent)
    }

    /** The task is queued for the agent, and none that is was created before it. */
    ghost predicate FirstFor(k: NodeKey, agent: string)
      reads this`nodes, this`created
    {
      && k in nodes && nodes[k] == NodeRow(Queued, Some(agent))
      && forall m :: m in nodes && nodes[m] == NodeRow(Queued, Some(agent)) ==> CreatedAt(k) <= CreatedAt(m)
    }

    /** The queued task of the agent that was created first, if there is one; any among equals. */
    method QueuedFor(agent: string) returns (task: Option<NodeKey>)
      ensures task.Some? ==> FirstFor(task.value, agent)
      ensures task.None? ==> forall k :: k in nodes ==> nodes[k] != NodeRow(Queued, Some(agent))
    {
      task := None;
      var rest := nodes.Keys;
      while rest != {}
        invariant rest <= nodes.Keys
        invariant task.None? ==> forall k :: k in nodes && k !in rest ==> !QueuedOn(k, agent)
        invariant task.Some? ==> QueuedOn(task.value, agent)
        invariant task.Some? ==> forall k :: k !in rest && QueuedOn(k, agent) ==> CreatedAt(task.value) <= CreatedAt(k)
        decreases |rest|
      {
        var k :| k in rest;
        rest := rest - {k};
        if QueuedOn(k, agent) && (task.None? || CreatedAt(k) < CreatedAt(task.value)) {
          task := Some(k);
        }
      }
    }

    method PollTask(agent: string) returns (r: Result<Option<NodeKey>, ApiError>)
      requires Valid() && agent != LOCAL
      modifies this
      ensures OthersOnly()
      ensures Valid() && (r.Ok? <==> agent in old(agents) && old(agents)[agent].online)
      ensures r.Ok? && r.value.Some? ==>
        Can(old(View()), Poll(agent, r.value.value)) && View() == Do(old(View()), Poll(agent, r.value.value))
      ensures r.Ok? && r.value.None? ==>
        View() == old(View()) && forall k :: k in nodes ==> nodes[k] != NodeRow(Queued, Some(agent))
      ensures r.Ok? && r.value.Some? ==> old(FirstFor(r.value.value, agent))
      ensures r.Err? ==> View() == old(View())
    {
      if !Accepts(agent) {
        return Err(Unauthorized);
      }
      var task := QueuedFor(agent);
      if task.Some? {
        var k := task.value;
        nodes := nodes[k := nodes[k].(status := Running)];
        held := held + {k};
        hide Execution, Can, Do;
        PollDoes(old(View()), agent, k);
        Record(Poll(agent, k));
      }
      return Ok(task);
    }

    /**
     An agent reports a task assigned to it.  The handler does not ask whether the agent holds
     the task; when it does, or when the report is refused, the step is one of the protocol's.
     */
    method ReportResult(agent: string, k: NodeKey, status: Status) returns (r: Result<(), ApiError>)
      requires Valid() && agent != LOCAL
      modifies this
      ensures OthersOnly()
      ensures r == if !old(Accepts(agent)) then Err(Unauthorized)
                   else if k !in old(nodes) || old(nodes[k].agent) != Some(agent) || !Outcome(status)
                       then Err(BadRequest)
                   else Ok(())
      ensures r.Ok? <==>
        && agent in old(agents) && old(agents)[agent].online
        && k in old(nodes) && old(nodes)[k].agent == Some(agent)
        && status in {Success, Failed, TimedOut, Canceled}
      ensures View() == if r.Ok? then SetStatus(old(View()), k, status).(issued := old(held) - {k}) else old(View())
      ensures r.Ok? && k in old(held) ==>
        Can(old(View()), Report(agent, k, status)) && View() == Do(old(View()), Report(agent, k, status))
      ensures r.Err? || k in old(held) ==> Valid()
    {
      if !Accepts(agent) {
        return Err(Unauthorized);
      }
      if k !in nodes || nodes[k].agent != Some(agent) {
        return Err(BadRequest);
      }
      if !Outcome(status) {
        return Err(BadRequest);
      }
      ghost var before := View();
      nodes := nodes[k := nodes[k].(status := status)];
      held := held - {k};
      hide Execution, Can, Do;
      if k in before.issued {
        ReportDoes(before, agent, k, status);
        Record(Report(agent, k, status));
      }
      return Ok(());
    }

    // ---- The built-in worker ----

    method PickLocalTask() returns (task: Option<NodeKey>)
      requires Valid()
      modifies this
      ensures OthersOnly()
      ensures Valid()
      ensures task.Some? ==> Can(old(View()), PickLocal(task.value)) && View() == Do(old(View()), PickLocal(task.value))
      ensures task.None? ==>
        View() == old(View()) && forall k :: k in nodes ==> nodes[k] != NodeRow(Queued, Some(LOCAL))
      ensures task.Some? ==> old(FirstFor(task.value, LOCAL))
    {
      task := QueuedFor(LOCAL);
      if task.Some? {
        var k := task.value;
        nodes := nodes[k := nodes[k].(status := Running)];
        held := held + {k};
        hide Execution, Can, Do;
        PickLocalDoes(old(View()), k);
        Record(PickLocal(k));
      }
    }

    /** The process ended with `outcome`; a missing required output turns success into failure. */
    method FinishLocalTask(k: NodeKey, outcome: Status, outputMissing: bool)
      requires Valid() && k in held && k in nodes && nodes[k].agent == Some(LOCAL)
      requires outcome == Success || outcome == Failed || outcome == TimedOut
      modifies this
      ensures OthersOnly()
      ensures Valid()
      ensures var final := if outcome == Success && outputMissing then Failed else outcome;
        Can(old(View()), FinishLocal(k, final)) && View() == Do(old(View()), FinishLocal(k, final))
    {
      var final := outcome;
      if outcome == Success && outputMissing {
        final := Failed;
      }
      nodes := nodes[k := nodes[k].(status := final)];
      held := held - {k};
      hide Execution, Can, Do;
      FinishLocalDoes(old(View()), k, final);
      Record(FinishLocal(k, final));
    }

    // ---- The heartbeat monitor ----

    /** `stale` are the remote agents whose last heartbeat is too old. */
    method CheckAgentHeartbeats(stale: set<string>)
      requires Valid() && LOCAL !in stale
      modifies this
      ensures OthersOnly()
      ensures Valid() && View() == Do(old(View()), Monitor(stale))
      ensures (exists a :: a in stale && a in old(agents) && old(agents)[a].online) ==>
        forall k, g ::
          k in nodes && nodes[k].status in {Queued, Running} && nodes[k].agent == Some(g) && g in agents ==>
            agents[g].online
      ensures forall k :: k in old(nodes) && old(nodes)[k].status !in {Queued, Running} ==>
        k in nodes && nodes[k] == old(nodes)[k]
    {
      var updated := MarkOffline(stale);
      if updated > 0 {
        FailOrphaned();
      }
      hide Execution, MonitorPass, Active, Can, Do;
      MonitorMatches(old(View()), stale, View(), updated);
      MonitorDoes(old(View()), stale);
      Record(Monitor(stale));
    }

    method MarkOffline(stale: set<string>) returns (updated: nat)
      modifies this`agents
      ensures agents.Keys == old(agents).Keys
      ensures forall a :: a in agents ==>
        agents[a] == if a in stale then old(agents)[a].(online := false) else old(agents)[a]
      ensures updated > 0 <==> exists a :: a in stale && a in old(agents) && old(agents)[a].online
    {
      updated := 0;
      var rest := agents.Keys;
      ghost var before := agents;
      while rest != {}
        invariant rest <= agents.Keys && agents.Keys == before.Keys
        invariant forall a :: a in rest ==> agents[a] == before[a]
        invariant forall a :: a in agents && a !in rest ==>
          agents[a] == if a in stale then before[a].(online := false) else before[a]
        invariant updated > 0 <==> exists a :: a in stale && a in before && a !in rest && before[a].online
        decreases |rest|
      {
        var a :| a in rest;
        rest := rest - {a};
        if agents[a].online && a in stale {
          agents := agents[a := agents[a].(online := false)];
          updated := updated + 1;
        }
      }
    }

    predicate OnOffline(row: NodeRow)
      reads this
    {
      Active(row.status) && row.agent.Some? && row.agent.value in agents && !agents[row.agent.value].online
    }

    method FailOrphaned()
      modifies this`nodes
      ensures nodes.Keys == old(nodes).Keys
      ensures forall k :: k in nodes ==>
        nodes[k] == if OnOffline(old(nodes)[k]) then old(nodes)[k].(status := Failed) else old(nodes)[k]
    {
      var rest := nodes.Keys;
      ghost var before := nodes;
      while rest != {}
        invariant rest <= nodes.Keys && nodes.Keys == before.Keys
        invariant forall k :: k in rest ==> nodes[k] == before[k]
        invariant forall k :: k in nodes && k !in rest ==>
          nodes[k] == if OnOffline(before[k]) then before[k].(status := Failed) else before[k]
        decreases |rest|
      {
        var k :| k in rest;
        rest := rest - {k};
        if OnOffline(nodes[k]) {
          nodes := nodes[k := nodes[k].(status := Failed)];
        }
      }
    }

    // ---- Everybody but the scheduler, as the scheduler sees them ----

    /** One request or one turn of a worker or the monitor, if it is possible at all. */
    method Serve(a: Action)
      requires Valid()
      modifies this
      ensures Valid() && OthersOnly()
    {
      hide Execution, Can, Do;
      match a {
        case Enqueue(run, t) =>
          if forall q :: q in jobs ==> q < run { EnqueueRun(run, t); }
        case Cancel(run) => var _ := CancelRun(run);
        case Register(id, row) => if id !in agents { var _ := RegisterAgent(id, row.name, row.labels); }
        case Heartbeat(g) => if g != LOCAL { var _ := HeartbeatFrom(g); }
        case Poll(g, _) => if g != LOCAL { var _ := PollTask(g); }
        case Report(g, k, st) => if g != LOCAL && k in held { var _ := ReportResult(g, k, st); }
        case PickLocal(_) => var _ := PickLocalTask();
        case FinishLocal(k, st) =>
          if k in held && k in nodes && nodes[k].agent == Some(LOCAL) && st in {Success, Failed, TimedOut} {
            FinishLocalTask(k, st, false);
          }
        case Monitor(stale) => CheckAgentHeartbeats(stale - {LOCAL});
        case _ =>
      }
    }

    /** What happens between two database accesses of the scheduler. */
    method Interfere(script: seq<seq<Action>>, pos: nat) returns (next: nat)
      requires Valid()
      modifies this
      ensures Valid() && OthersOnly()
      ensures next == pos + 1
    {
      if pos < |script| {
        for i := 0 to |script[pos]|
          invariant Valid() && OthersOnly()
        {
          Serve(script[pos][i]);
        }
      }
      next := pos + 1;
    }

    // ---- The scheduler ----

    /** The queued run created first, the lower id first among equals. */
    method OldestQueued() returns (run: Option<int>)
      ensures run.Some? ==> Oldest(jobs.Keys, run.value)
      ensures run.None? ==> forall q :: q in jobs ==> jobs[q].status != Queued
    {
      run := None;
      var rest: set<int> := jobs.Keys;
      while rest != {}
        invariant rest <= jobs.Keys
        invariant run.None? ==> forall q :: q in jobs && q !in rest ==> jobs[q].status != Queued
        invariant run.Some? ==> Oldest(jobs.Keys - rest, run.value)
        decreases |rest|
      {
        var q := AnyOf(rest);
        rest := rest - {q};
        if jobs[q].status == Queued && (run.None? || ServedBefore(jobs, q, run.value)) {
          run := Some(q);
        }
      }
    }

    /** Among `these` runs, `run` is the next to be served. */
    ghost predicate Oldest(these: set<int>, run: int)
      requires these <= jobs.Keys
      reads this
    {
      && run in these && jobs[run].status == Queued
      && forall q :: q in these && jobs[q].status == Queued && q != run ==>
           jobs[run].createdAt < jobs[q].createdAt || (jobs[run].createdAt == jobs[q].createdAt && run < q)
    }

    /** The agent is online, has the wanted name if one is wanted, and all the wanted labels. */
    ghost predicate Suits(row: AgentRow, target: NodeTarget) {
      && row.online && (target.agent == None || target.agent == Some(row.name))
      && forall l :: l in target.labels ==> l in row.labels
    }

    /** A matching agent: any online one that has the name and the labels; the built-in one when there is no target. */
    method AssignToAgent(target: Option<NodeTarget>) returns (choice: Option<string>)
      ensures Assignable(agents, target, choice)
      ensures target.None? ==> choice == Some("local")
      ensures target.Some? && choice.Some? ==> choice.value in agents && Suits(agents[choice.value], target.value)
      ensures target.Some? && choice.None? ==> forall a :: a in agents ==> !Suits(agents[a], target.value)
    {
      if target.None? {
        return Some(LOCAL);
      }
      var rest := agents.Keys;
      while rest != {}
        invariant rest <= agents.Keys
        invariant forall a :: a in agents && a !in rest ==> !Eligible(agents, target, a)
        decreases |rest|
      {
        var a :| a in rest;
        if Eligible(agents, target, a) {
          return Some(a);
        }
        rest := rest - {a};
      }
      return None;
    }

    method PickRun(run: int)
      requires Valid() && Can(View(), Pick(run))
      modifies this
      ensures Valid() && View() == Do(old(View()), Pick(run))
    {
      sched, picks := Picked(run), picks + [run];
      hide Execution;
      Record(Pick(run));
    }

    method FailRunBeforeStart(run: int)
      requires Valid() && sched == Picked(run)
      modifies this
      ensures Valid() && Can(old(View()), FailStart) && View() == Do(old(View()), FailStart)
    {
      ValidInv();
      PickedUnstarted(View());
      hide Execution, Inv;
      jobs := jobs[run := jobs[run].(status := Failed)];
      sched := Idle;
      Record(FailStart);
    }

    /**
     Insert the rows of the run, and mark it running if it is still queued.  The table refuses
     the first row with a timeout out of range; the rows before it stay.
     */
    method EnsureNodes(run: int, plan: seq<Task>, clock: nat -> int) returns (ok: bool)
      requires Valid() && sched == Picked(run) && run !in stubs && plan != [] && Ordered(plan)
      modifies this
      ensures Valid() && (ok <==> StorableCount(plan) == |plan|)
      ensures var a := if ok then Prepare(plan) else InsertSome(plan);
        Can(old(View()), a) && View() == Do(old(View()), a)
      ensures forall i :: 0 <= i < StorableCount(plan) ==> CreatedAt(NodeKey(run, plan[i].id)) == clock(i)
      ensures forall k: NodeKey :: k.run != run ==> CreatedAt(k) == old(CreatedAt(k))
    {
      ghost var before := View();
      ValidInv();
      PickedUnstarted(before);
      hide Execution, Inv, Ordered, Can, Do, PendingRows, Names, StorableCount, Ids;
      NamesAre(plan);
      var n := InsertRows(run, plan, clock);
      ok := n == |plan|;
      if ok {
        MarkRunning(run, plan, before);
      } else {
        LeaveStub(run, plan, before);
      }
    }

    /** All rows of the run have been inserted since the state `before`. */
    method MarkRunning(run: int, plan: seq<Task>, ghost before: State)
      requires Execution(trace, actions) && trace[|actions|] == before && CanInsert(before, plan)
      requires StorableCount(plan) == |plan| && before.sched.run == run
      requires View() == before.(nodes := before.nodes + PendingRows(run, Names(plan)))
      modifies this`jobs, this`sched, this`plans, this`trace, this`actions
      ensures Valid() && Can(before, Prepare(plan)) && View() == Do(before, Prepare(plan))
    {
      PrepareDoes(before, plan);
      StartForms(before, plan);
      hide Execution, Inv, Ordered, Can, Do, PendingRows, Names, StorableCount, StartRun;
      if jobs[run].status == Queued {
        jobs := jobs[run := jobs[run].(status := Running)];
      }
      sched, plans := Executing(run, map[], {}, false, false, Checking), plans[run := plan];
      Record(Prepare(plan));
    }

    /** The table has refused a row of the run; the ones before it have been inserted since the state `before`. */
    ghost method LeaveStub(run: int, plan: seq<Task>, before: State)
      requires Execution(trace, actions) && trace[|actions|] == before && CanInsert(before, plan)
      requires StorableCount(plan) < |plan| && before.sched.run == run
      requires View() == before.(nodes := before.nodes + PendingRows(run, Ids(plan, StorableCount(plan))))
      modifies this`stubs, this`trace, this`actions
      ensures Valid() && Can(before, InsertSome(plan)) && View() == Do(before, InsertSome(plan))
    {
      PrepareDoes(before, plan);
      StartForms(before, plan);
      hide Execution, Inv, Ordered, Can, Do, PendingRows, Ids, StorableCount, InsertPrefix;
      stubs := stubs[run := Ids(plan, StorableCount(plan))];
      Record(InsertSome(plan));
    }

    /** Insert pending rows until the table refuses one; `clock` tells the time at each of them. */
    method InsertRows(run: int, plan: seq<Task>, clock: nat -> int) returns (n: nat)
      requires Ordered(plan)
      modifies this`nodes, this`created
      ensures n == StorableCount(plan) && nodes == old(nodes) + PendingRows(run, Ids(plan, n))
      ensures forall i :: 0 <= i < n ==> CreatedAt(NodeKey(run, plan[i].id)) == clock(i)
      ensures forall k: NodeKey :: k.run != run ==> CreatedAt(k) == old(CreatedAt(k))
    {
      PendingNone(nodes, run, plan);
      hide PendingRows, Ids, Ordered;
      ghost var before := nodes;
      n := 0;
      while n < |plan| && Storable(plan[n].timeoutSec)
        invariant n <= StorableCount(plan)
        invariant nodes == before + PendingRows(run, Ids(plan, n))
        invariant forall i :: 0 <= i < n ==> CreatedAt(NodeKey(run, plan[i].id)) == clock(i)
        invariant forall k: NodeKey :: k.run != run ==> CreatedAt(k) == old(CreatedAt(k))
      {
        PendingNext(before, run, plan, n);
        NextTask(plan, n, {});
        nodes := nodes[NodeKey(run, plan[n].id) := NodeRow(Pending, None)];
        created := created[NodeKey(run, plan[n].id) := clock(n)];
        n := n + 1;
      }
    }

    method ReadCancelFlag(run: int, canceling: bool) returns (now: bool)
      requires Valid() && InPhase(View(), Checking) && sched.run == run && sched.canceling == canceling
      modifies this
      ensures Valid() && Can(old(View()), CheckCancel) && View() == Do(old(View()), CheckCancel) && plans == old(plans)
      ensures sched == old(sched).(canceling := now, phase := Scanning(0, {}))
    {
      ValidInv();
      CurrentJob();
      hide Execution, Inv;
      var asked := jobs[run].status == CancelRequested;
      now := canceling || asked;
      observed := if asked then observed + {run} else observed;
      sched := sched.(canceling := now, phase := Scanning(0, {}));
      Record(CheckCancel);
    }

    lemma CurrentJob()
      requires Inv(View()) && sched.Executing?
      ensures sched.run in jobs && sched.run in plans
    {
      hide TablesOk, JobsOk, ViewOk;
    }

    /** The scheduler is at node `i` of its run, `task`. */
    ghost predicate At(run: int, task: Task, results: map<string, Status>, running: set<string>, queued: set<string>,
                       stop: bool, canceling: bool, i: nat)
      reads this
    {
      && sched == Executing(run, results, running, stop, canceling, Scanning(i, queued))
      && run in plans && i < |plans[run]| && plans[run][i] == task
      && NodeKey(run, task.id) in nodes
    }

    /** The scheduler looks at one node of its run: leaves it, skips it, hands it to an agent, or fails it. */
    method VisitTask(run: int, task: Task, results: map<string, Status>, running: set<string>, queued: set<string>,
                     stop: bool, canceling: bool, ghost i: nat)
      returns (results': map<string, Status>, queued': set<string>, stop': bool)
      requires Valid() && At(run, task, results, running, queued, stop, canceling, i)
      modifies this
      ensures results.Keys <= results'.Keys
      ensures Valid() && plans == old(plans)
      ensures exists choice :: Can(old(View()), Visit(choice)) && View() == Do(old(View()), Visit(choice))
      ensures sched == Executing(run, results', running, stop', canceling, Scanning(i + 1, queued'))
    {
      results', queued', stop' := results, queued, stop;
      if task.id in results || task.id in running {
        LeaveTask(run, task, results, running, queued, stop, canceling, i);
      } else if Blocked(task, results) {
        results' := SkipTask(run, task, results, running, queued, stop, canceling, i);
      } else if Unresolved(task, results) {
        LeaveTask(run, task, results, running, queued, stop, canceling, i);
      } else if stop {
        results' := SkipTask(run, task, results, running, queued, stop, canceling, i);
      } else if canceling {
        results' := SkipTask(run, task, results, running, queued, stop, canceling, i);
      } else {
        results', queued', stop' := LaunchTask(run, task, results, running, queued, stop, canceling, i);
      }
    }

    method LeaveTask(run: int, task: Task, ghost results: map<string, Status>, ghost running: set<string>,
                     ghost queued: set<string>, ghost stop: bool, ghost canceling: bool, ghost i: nat)
      requires Valid() && At(run, task, results, running, queued, stop, canceling, i)
      requires Decide(task, results, running, stop || canceling) == Leave
      modifies this
      ensures Valid() && plans == old(plans)
      ensures exists choice :: Can(old(View()), Visit(choice)) && View() == Do(old(View()), Visit(choice))
      ensures sched == Executing(run, results, running, stop, canceling, Scanning(i + 1, queued))
    {
      ghost var choice := SomeChoice(View(), task.target);
      hide Execution, Decide, Assignable;
      sched := Executing(run, results, running, stop, canceling, Scanning(i + 1, queued));
      Record(Visit(choice));
    }

    method SkipTask(run: int, task: Task, results: map<string, Status>, ghost running: set<string>,
                    ghost queued: set<string>, ghost stop: bool, ghost canceling: bool, ghost i: nat)
      returns (results': map<string, Status>)
      requires Valid() && At(run, task, results, running, queued, stop, canceling, i)
      requires Decide(task, results, running, stop || canceling) == Skip
      modifies this
      ensures results.Keys <= results'.Keys
      ensures Valid() && plans == old(plans)
      ensures exists choice :: Can(old(View()), Visit(choice)) && View() == Do(old(View()), Visit(choice))
      ensures sched == Executing(run, results', running, stop, canceling, Scanning(i + 1, queued))
    {
      ghost var choice := SomeChoice(View(), task.target);
      hide Execution, Decide, Assignable;
      var k := NodeKey(run, task.id);
      nodes := nodes[k := nodes[k].(status := Skipped)];
      results' := results[task.id := Skipped];
      sched := Executing(run, results', running, stop, canceling, Scanning(i + 1, queued));
      Record(Visit(choice));
    }

    method LaunchTask(run: int, task: Task, results: map<string, Status>, ghost running: set<string>,
                      queued: set<string>, stop: bool, ghost canceling: bool, ghost i: nat)
      returns (results': map<string, Status>, queued': set<string>, stop': bool)
      requires Valid() && At(run, task, results, running, queued, stop, canceling, i)
      requires Decide(task, results, running, stop || canceling) == Launch
      modifies this
      ensures results.Keys <= results'.Keys
      ensures Valid() && plans == old(plans)
      ensures exists choice :: Can(old(View()), Visit(choice)) && View() == Do(old(View()), Visit(choice))
      ensures sched == Executing(run, results', running, stop', canceling, Scanning(i + 1, queued'))
    {
      var choice := AssignToAgent(task.target);
      hide Execution, Decide, Assignable;
      var k := NodeKey(run, task.id);
      results', queued', stop' := results, queued, stop;
      if choice.Some? {
        nodes := nodes[k := NodeRow(Queued, choice)];
        queued' := queued + {task.id};
      } else {
        nodes := nodes[k := nodes[k].(status := Failed)];
        results', stop' := results[task.id := Failed], true;
      }
      sched := Executing(run, results', running, stop', canceling, Scanning(i + 1, queued'));
      Record(Visit(choice));
    }

    method CloseScan(run: int, running: set<string>, queued: set<string>, ghost results: map<string, Status>,
                     ghost stop: bool, ghost canceling: bool, ghost n: nat)
      returns (running': set<string>)
      requires Valid() && sched == Executing(run, results, running, stop, canceling, Scanning(n, queued))
      requires run in plans && n == |plans[run]|
      modifies this
      ensures Valid() && plans == old(plans) && running' == running + queued
      ensures Can(old(View()), EndScan) && View() == Do(old(View()), EndScan)
      ensures sched == Executing(run, results, running', stop, canceling,
        if running' == {} then Finalizing else Waiting)
    {
      hide Execution;
      running' := running + queued;
      sched := Executing(run, results, running', stop, canceling, if running' == {} then Finalizing else Waiting);
      Record(EndScan);
    }

    /** Some running node that has finished, whichever comes up first. */
    method FinishedNode(run: int, running: set<string>) returns (done: Option<string>)
      requires forall x :: x in running ==> NodeKey(run, x) in nodes
      ensures done.Some? ==> done.value in running && nodes[NodeKey(run, done.value)].status in OUTCOMES
      ensures done.None? ==> forall x :: x in running ==> nodes[NodeKey(run, x)].status !in OUTCOMES
    {
      var rest := running;
      while rest != {}
        invariant rest <= running
        invariant forall x :: x in running && x !in rest ==> !Outcome(nodes[NodeKey(run, x)].status)
        decreases |rest|
      {
        var x :| x in rest;
        if Outcome(nodes[NodeKey(run, x)].status) {
          return Some(x);
        }
        rest := rest - {x};
      }
      return None;
    }

    lemma RunningRows(run: int)
      requires Inv(View()) && InPhase(View(), Waiting) && sched.run == run
      ensures run in jobs
      ensures forall x :: x in sched.running ==> NodeKey(run, x) in nodes
    {
      CurrentJob();
      hide Inv;
      forall x | x in sched.running ensures NodeKey(run, x) in nodes { WaitRow(View(), x); }
    }

    lemma Seen(run: int, x: string)
      requires InPhase(View(), Waiting) && sched.run == run && x in sched.running
      requires NodeKey(run, x) in nodes && Outcome(nodes[NodeKey(run, x)].status)
      ensures Completion(run, x, nodes[NodeKey(run, x)].status)
    {}

    lemma CancelSeen(run: int)
      requires InPhase(View(), Waiting) && sched.run == run && run in jobs && jobs[run].status == CancelRequested
      ensures Completion(run, PHANTOM, Canceled)
    {}

    /** A look at the running nodes and at the cancel flag. */
    method LookForCompletion(run: int, running: set<string>) returns (completed: Option<(string, Status)>)
      requires Valid() && InPhase(View(), Waiting) && sched.run == run && sched.running == running
      ensures completed.Some? ==> Completion(run, completed.value.0, completed.value.1)
      ensures completed.Some? ==> Woken(run, running, completed.value.0, completed.value.1)
      ensures completed.None? || completed.value.0 == PHANTOM ==> NoneFinished(run, running)
      ensures completed.None? ==> !CancelAsked(View(), run)
    {
      ValidInv();
      RunningRows(run);
      PhantomIsNoNode(run);
      hide Execution, Inv, Completion;
      var done := FinishedNode(run, running);
      if done.Some? {
        Seen(run, done.value);
        return Some((done.value, nodes[NodeKey(run, done.value)].status));
      }
      if jobs[run].status == CancelRequested {
        CancelSeen(run);
        return Some((PHANTOM, Canceled));
      }
      return None;
    }

    /** No node that the scheduler waits for has an outcome. */
    ghost predicate NoneFinished(run: int, running: set<string>)
      reads this
    {
      forall x :: x in running && NodeKey(run, x) in nodes ==> nodes[NodeKey(run, x)].status !in OUTCOMES
    }

    /** A running node has the outcome, or a cancel is asked for. */
    ghost predicate Woken(run: int, running: set<string>, x: string, o: Status)
      reads this
    {
      if x == "" then o == Canceled && run in jobs && jobs[run].status == CancelRequested
      else x in running && NodeKey(run, x) in nodes && nodes[NodeKey(run, x)].status == o && o in OUTCOMES
    }

    lemma PhantomIsNoNode(run: int)
      requires Inv(View()) && InPhase(View(), Waiting) && sched.run == run
      ensures PHANTOM !in sched.running
    {
      PhantomNotRunning(View());
    }

    /** What the scheduler wakes up for: a finished running node, or the phantom of a cancel request. */
    ghost predicate Completion(run: int, x: string, o: Status)
      reads this
    {
      || (x == PHANTOM && o == Canceled && Can(View(), CancelWake))
      || (Can(View(), Observe(x)) && sched.run == run && o == nodes[NodeKey(run, x)].status)
    }

    /** The scheduler's own variables are as before; only the outside world has moved. */
    twostate predicate OthersOnly()
      reads this
    {
      sched == old(sched) && plans == old(plans) && stubs == old(stubs) && picks == old(picks)
      && observed == old(observed)
    }

    /**
     Wait until a running node has finished or a cancel is requested; nothing when neither is so
     and the script of outside events is used up.
     */
    method WaitForAnyNodeCompletion(run: int, running: set<string>, script: seq<seq<Action>>, pos: nat)
      returns (completed: Option<(string, Status)>, next: nat)
      requires Valid() && InPhase(View(), Waiting) && sched.run == run && sched.running == running
      modifies this
      ensures Valid() && OthersOnly()
      ensures next >= pos
      ensures completed.Some? ==> Completion(run, completed.value.0, completed.value.1)
      ensures completed.Some? ==> Woken(run, running, completed.value.0, completed.value.1)
      ensures completed.None? || completed.value.0 == PHANTOM ==> NoneFinished(run, running)
      ensures completed.None? ==> next >= |script| && !CancelAsked(View(), run)
    {
      next := pos;
      hide Execution, Completion, Woken, NoneFinished, CancelAsked;
      completed := LookForCompletion(run, running);
      while completed.None? && next < |script|
        invariant Valid() && OthersOnly() && next >= pos
        invariant completed.Some? ==> Completion(run, completed.value.0, completed.value.1)
        invariant completed.Some? ==> Woken(run, running, completed.value.0, completed.value.1)
        invariant completed.None? || completed.value.0 == PHANTOM ==> NoneFinished(run, running)
        invariant completed.None? ==> !CancelAsked(View(), run)
        decreases |script| - next
      {
        next := Interfere(script, next);
        completed := LookForCompletion(run, running);
      }
    }

    lemma CompletionStep(run: int, x: string, o: Status)
      requires Completion(run, x, o) && sched.Executing? && sched.run == run
      ensures var a := if x == PHANTOM && Can(View(), CancelWake) && o == Canceled then CancelWake else Observe(x);
        Can(View(), a) && Do(View(), a) == ObserveNode(View(), x, o)
    {
      hide ObserveNode;
    }

    /** Take the completion into the scheduler's variables. */
    method TakeCompletion(run: int, x: string, o: Status, results: map<string, Status>, running: set<string>,
                          stop: bool, canceling: bool)
      returns (results': map<string, Status>, running': set<string>, stop': bool, canceling': bool)
      requires Valid() && sched == Executing(run, results, running, stop, canceling, Waiting)
      requires Completion(run, x, o)
      modifies this
      ensures Valid() && plans == old(plans)
      ensures View() == ObserveNode(old(View()), x, o)
      ensures sched == Executing(run, results', running', stop', canceling', Checking) && results' == results[x := o]
      ensures running' == running - {x}
      ensures stop' == (stop || o == Failed || o == TimedOut || o == Canceled)
      ensures canceling' == (canceling || o == Canceled)
    {
      CompletionStep(run, x, o);
      hide Execution, Completion, Can, Do;
      ghost var a := if x == PHANTOM && Can(View(), CancelWake) && o == Canceled then CancelWake else Observe(x);
      running' := running - {x};
      stop', canceling' := stop, canceling;
      if Unsuccessful(o) {
        stop' := true;
        if o == Canceled {
          canceling' := true;
        }
      }
      results' := results[x := o];
      observed := if o == Canceled then observed + {run} else observed;
      sched := Executing(run, results', running', stop', canceling', Checking);
      Record(a);
    }

    method FinalizeJob(run: int, results: map<string, Status>, canceling: bool)
      requires Valid() && InPhase(View(), Finalizing)
      requires sched.run == run && sched.results == results && sched.canceling == canceling
      modifies this
      ensures Valid() && Can(old(View()), Finalize) && View() == Do(old(View()), Finalize)
      ensures sched == Idle && plans == old(plans) && Ended(View(), run)
    {
      ValidInv();
      CurrentJob();
      FinalizeDoes(View());
      FinalizeStep(View());
      hide Execution, Inv, Ended, Can, Do, FinalStatus;
      jobs := jobs[run := jobs[run].(status := FinalStatus(results, canceling))];
      sched := Idle;
      Record(Finalize);
    }

    /** One pass over the nodes, with outside events between any two of them. */
    method ScanNodes(run: int, plan: seq<Task>, results: map<string, Status>, running: set<string>, stop: bool,
                     canceling: bool, script: seq<seq<Action>>, pos: nat)
      returns (results': map<string, Status>, running': set<string>, stop': bool, next: nat)
      requires Valid() && run in plans && plans[run] == plan
      requires sched == Executing(run, results, running, stop, canceling, Scanning(0, {}))
      modifies this
      ensures Valid() && run in plans && plans[run] == plan && next >= pos && results.Keys <= results'.Keys
      ensures sched == Executing(run, results', running', stop', canceling,
        if running' == {} then Finalizing else Waiting)
    {
      hide Execution, Can, Do, At;
      results', stop', next := results, stop, pos;
      var queued: set<string> := {};
      for i := 0 to |plan|
        invariant Valid() && run in plans && plans[run] == plan && next >= pos && results.Keys <= results'.Keys
        invariant sched == Executing(run, results', running, stop', canceling, Scanning(i, queued))
      {
        next := Interfere(script, next);
        AtNode(run, plan, i);
        results', queued, stop' := VisitTask(run, plan[i], results', running, queued, stop', canceling, i);
      }
      running' := CloseScan(run, running, queued, results', stop', canceling, |plan|);
    }

    lemma AtNode(run: int, plan: seq<Task>, i: nat)
      requires Valid() && run in plans && plans[run] == plan && i < |plan|
      requires sched.Executing? && sched.run == run && sched.phase.Scanning? && sched.phase.next == i
      ensures At(run, plan[i], sched.results, sched.running, sched.phase.queued, sched.stop, sched.canceling, i)
    {
      ValidInv();
      NextRow(View());
    }

    /** Set up the rows of a picked run and the scheduler's variables, if the table takes the rows. */
    method StartRunning(run: int, plan: seq<Task>, clock: nat -> int) returns (ok: bool)
      requires Valid() && sched == Picked(run) && run !in stubs && plan != [] && Ordered(plan)
      modifies this
      ensures Valid() && (ok <==> StorableCount(plan) == |plan|)
      ensures ok ==> run in plans && plans[run] == plan && sched == Executing(run, map[], {}, false, false, Checking)
      ensures !ok ==>
        sched == Picked(run) && plans == old(plans) && stubs == old(stubs)[run := Ids(plan, StorableCount(plan))]
    {
      ok := EnsureNodes(run, plan, clock);
      if ok {
        StartedFresh(old(View()), plan);
      } else {
        StubbedNow(old(View()), plan);
      }
    }

    /** The nodes without a result, and the phantom if no wake-up was recorded yet. */
    ghost function Open(plan: seq<Task>, results: map<string, Status>): set<string> {
      Names(plan) + {PHANTOM} - results.Keys
    }

    lemma OpenShrinks(plan: seq<Task>, a: map<string, Status>, b: map<string, Status>, x: string)
      requires a.Keys <= b.Keys
      ensures |Open(plan, b)| <= |Open(plan, a)|
      ensures x in b && x !in a && (x in Names(plan) || x == PHANTOM) ==> |Open(plan, b)| < |Open(plan, a)|
    {
      hide Names;
      SubsetCount(Open(plan, b), Open(plan, a));
      if x in b && x !in a && (x in Names(plan) || x == PHANTOM) {
        SubsetCount(Open(plan, b) + {x}, Open(plan, a));
      }
    }

    /** What wakes the scheduler up is new to it, except the phantom of a cancel request. */
    lemma CompletionIsNew(run: int, x: string, o: Status)
      requires Inv(View()) && Completion(run, x, o) && InPhase(View(), Waiting) && sched.run == run && run in plans
      ensures x == PHANTOM || (x in Names(plans[run]) && x !in sched.results)
    {
      hide Inv, Names;
      if x != PHANTOM { ObservedIsNew(View(), x); }
    }

    /**
     Execute a run to its end, whatever the script of outside events does in between.  It is refused
     when the table does not take its rows.  It is left waiting only when the script is used up, no
     node it waits for has an outcome, and nothing but a cancel request already seen is pending.
     */
    method ExecuteRun(run: int, plan: seq<Task>, clock: nat -> int, script: seq<seq<Action>>, pos: nat)
      returns (end: RunEnd, next: nat)
      requires Valid() && sched == Picked(run) && run !in stubs && plan != [] && Ordered(plan)
      modifies this
      ensures Valid() && next >= pos && (end == Refused <==> StorableCount(plan) < |plan|)
      ensures end != Refused ==> run in plans && plans[run] == plan
      ensures end == Completed ==> sched == Idle && Ended(View(), run)
      ensures end == StillWaiting ==> Stuck(run) && next >= |script|
      ensures end == Refused ==>
        sched == Picked(run) && plans == old(plans) && stubs == old(stubs)[run := Ids(plan, StorableCount(plan))]
    {
      hide Execution, Can, Do, Ended, Ordered, Completion, Valid, StorableCount, Ids, Open, NoneFinished, CancelAsked,
        Names;
      next := pos;
      var ok := StartRunning(run, plan, clock);
      if !ok {
        return Refused, next;
      }
      var results: map<string, Status> := map[];
      var running: set<string> := {};
      var stop, canceling := false, false;
      while true
        invariant Valid() && run in plans && plans[run] == plan && next >= pos
        invariant sched == Executing(run, results, running, stop, canceling, Checking)
        decreases if next < |script| then |script| - next else 0, |Open(plan, results)|
      {
        ghost var before := results;
        next := Interfere(script, next);
        canceling := ReadCancelFlag(run, canceling);
        results, running, stop, next := ScanNodes(run, plan, results, running, stop, canceling, script, next);
        next := Interfere(script, next);
        if running == {} {
          break;
        }
        var completed;
        completed, next := WaitForAnyNodeCompletion(run, running, script, next);
        if completed.None? || (completed.value.0 == PHANTOM && PHANTOM in results && next >= |script|) {
          return StillWaiting, next;
        }
        OpenShrinks(plan, before, results, PHANTOM);
        CompletionNow(run, completed.value.0, completed.value.1);
        ghost var seen := results;
        results, running, stop, canceling :=
          TakeCompletion(run, completed.value.0, completed.value.1, results, running, stop, canceling);
        OpenShrinks(plan, seen, results, completed.value.0);
      }
      FinalizeJob(run, results, canceling);
      end := Completed;
    }

    lemma CompletionNow(run: int, x: string, o: Status)
      requires Valid() && Completion(run, x, o) && InPhase(View(), Waiting) && sched.run == run && run in plans
      ensures x == PHANTOM || (x in Names(plans[run]) && x !in sched.results)
    {
      ValidInv();
      CompletionIsNew(run, x, o);
    }

    /** The scheduler waits for nodes none of which has an outcome, and knows of a cancel request if there is one. */
    ghost predicate Stuck(run: int)
      reads this
    {
      && InPhase(View(), Waiting) && sched.run == run && NoneFinished(run, sched.running)
      && (CancelAsked(View(), run) ==> PHANTOM in sched.results)
    }

    /**
     Take the queued run that is next in order, load and resolve its definition, and execute it.
     `files` are the definitions that can be read, belong to the run's job and have all their
     secrets; a run without one, or whose definition does not resolve, fails without rows.  One
     with a timeout out of range fails with the rows that come before it.  The scheduler's part
     ends early (`done` is false) only when the script of outside events runs out while it waits
     for a node.
     */
    method ProcessNextRun(files: map<int, JobDefinition>, clock: nat -> int, script: seq<seq<Action>>)
      returns (picked: Option<int>, done: bool)
      requires Valid() && sched == Idle
      modifies this
      ensures Valid() && (done ==> sched == Idle)
      ensures picked.None? ==> done && View() == old(View()) && forall q :: q in jobs ==> jobs[q].status != Queued
      ensures picked.Some? ==> picked.value in old(jobs) && old(Oldest(jobs.Keys, picked.value))
      ensures picked.Some? && Executable(files, picked.value) ==> RunsDefinition(files, picked.value)
      ensures picked.Some? && Executable(files, picked.value) ==>
        picked.value in plans && Definition.PlanMatches(files[picked.value], plans[picked.value])
      ensures picked.Some? && Executable(files, picked.value) && done ==> Ended(View(), picked.value)
      ensures picked.Some? && Executable(files, picked.value) && !done ==> Stuck(picked.value)
      ensures picked.Some? && !Executable(files, picked.value) ==>
        done && picked.value in jobs && jobs[picked.value].status == Failed && plans == old(plans)
      ensures picked.Some? && !Resolvable(files, picked.value) ==> stubs == old(stubs) && NoRows(picked.value)
      ensures picked.Some? && Resolvable(files, picked.value) && !Executable(files, picked.value) ==>
        && Abandoned(View(), picked.value) && Definition.Leftover(files[picked.value], stubs[picked.value])
    {
      hide Execution, Ended, Can, Do, Definition.WellFormed, Definition.HasWorkingDirs, Definition.TimeoutsFit, Ordered,
        Definition.PlanOf, Definition.ResolvedInOrder, Definition.Leftover, Abandoned, NoRows, StorableCount, Ids, Inv,
        RunsDefinition, Stuck, Definition.PlanMatches, Definition.EachResolved;
      picked := OldestQueued();
      done := true;
      if picked.Some? {
        var run := picked.value;
        CanPick(run);
        ValidInv();
        QueuedUntouched(View(), run);
        PickRun(run);
        PickedNow(old(View()), run);
        var pos := Interfere(script, 0);
        if run in files {
          var definition := Definition.Resolve(files[run]);
          if definition.Ok? {
            Definition.RowsOfResolved(files[run], definition.value.nodes);
            var end;
            end, pos := ExecuteRun(run, Definition.PlanOf(definition.value.nodes), clock, script, pos);
            if end != Refused {
              done := end == Completed;
              ExecutedAs(files, run, definition.value.nodes);
              return;
            }
          }
        }
        pos := Interfere(script, pos);
        ghost var before := View();
        FailRunBeforeStart(run);
        FailedNow(before);
        LeftBehind(run);
      }
    }

    /** The run was started with its definition, resolved and in order. */
    ghost predicate RunsDefinition(files: map<int, JobDefinition>, run: int)
      reads this
    {
      && run in files && run in plans
      && exists nodes :: Definition.ResolvedInOrder(files[run], nodes) && plans[run] == Definition.PlanOf(nodes)
    }

    lemma ExecutedAs(files: map<int, JobDefinition>, run: int, nodes: seq<ResolvedNode>)
      requires run in files && run in plans && Definition.ResolvedInOrder(files[run], nodes)
      requires plans[run] == Definition.PlanOf(nodes)
      ensures RunsDefinition(files, run)
    {
      hide Definition.ResolvedInOrder, Definition.PlanOf;
    }

    ghost predicate NoRows(run: int)
      reads this
    {
      forall k :: k in nodes ==> k.run != run
    }

    /** What is left of a run that failed before it started. */
    lemma LeftBehind(run: int)
      requires Valid() && run in jobs && run !in plans
      ensures if run in stubs then Abandoned(View(), run) else NoRows(run)
    {
      ValidInv();
      hide Inv, Execution;
      if run in stubs {
        StubIsAbandoned(View(), run);
      } else {
        forall k | k in nodes ensures k.run != run { Rowless(View(), run, k); }
      }
    }

    lemma CanPick(run: int)
      requires sched == Idle && Oldest(jobs.Keys, run)
      ensures Can(View(), Pick(run))
    {}
  }

  /** The run has a definition that resolves. */
  ghost predicate Resolvable(files: map<int, JobDefinition>, run: int) {
    run in files && Definition.WellFormed(files[run]) && Definition.HasWorkingDirs(files[run])
  }

  /** And its nodes can be entered in the tables. */
  ghost predicate Executable(files: map<int, JobDefinition>, run: int) {
    Resolvable(files, run) && Definition.TimeoutsFit(files[run])
  }

  lemma PickedNow(s: State, run: int)
    requires Can(s, Pick(run))
    ensures Do(s, Pick(run)).sched == Picked(run)
      && Do(s, Pick(run)).plans == s.plans && Do(s, Pick(run)).stubs == s.stubs
  {}

  lemma FailedNow(s: State)
    requires Can(s, FailStart)
    ensures var s' := Do(s, FailStart);
      s'.sched == Idle && s'.plans == s.plans && s'.stubs == s.stubs
      && s.sched.run in s'.jobs && s'.jobs[s.sched.run].status == Failed
  {}

  lemma PendingNone(before: map<NodeKey, NodeRow>, run: int, plan: seq<Task>)
    ensures before + PendingRows(run, Ids(plan, 0)) == before
  {}

  lemma PendingNext(before: map<NodeKey, NodeRow>, run: int, plan: seq<Task>, i: nat)
    requires i < |plan|
    ensures before + PendingRows(run, Ids(plan, i + 1))
      == (before + PendingRows(run, Ids(plan, i)))[NodeKey(run, plan[i].id) := NodeRow(Pending, None)]
  {
    IdsNext(plan, i);
    hide Ids;
  }

  lemma StubbedNow(s: State, plan: seq<Task>)
    requires Can(s, InsertSome(plan))
    ensures var s' := Do(s, InsertSome(plan));
      s'.sched == s.sched && s'.plans == s.plans && s'.stubs == s.stubs[s.sched.run := Ids(plan, StorableCount(plan))]
  {}

  /** A run starts with empty scheduler variables. */
  lemma StartedFresh(s: State, plan: seq<Task>)
    requires Can(s, Prepare(plan))
    ensures var s' := Do(s, Prepare(plan));
      && s'.sched == Executing(s.sched.run, map[], {}, false, false, Checking)
      && s'.plans == s.plans[s.sched.run := plan]
  {}

  lemma RegisterDoes(s: State, agent: string, row: AgentRow)
    requires agent !in s.agents && row.online
    ensures Can(s, Register(agent, row)) && Do(s, Register(agent, row)) == s.(agents := s.agents[agent := row])
  {}

  lemma FinalizeDoes(s: State)
    requires InPhase(s, Finalizing) && s.sched.run in s.jobs
    ensures Can(s, Finalize)
    ensures Do(s, Finalize) == SetJob(s, s.sched.run, FinalStatus(s.sched.results, s.sched.canceling)).(sched := Idle)
  {}

  lemma PrepareDoes(s: State, plan: seq<Task>)
    requires CanInsert(s, plan)
    ensures StorableCount(plan) == |plan| ==> Can(s, Prepare(plan)) && Do(s, Prepare(plan)) == StartRun(s, plan)
    ensures StorableCount(plan) < |plan| ==>
      Can(s, InsertSome(plan)) && Do(s, InsertSome(plan)) == InsertPrefix(s, plan)
  {
    hide StartRun, InsertPrefix, Ordered, StorableCount;
  }

  /** Starting a run, or failing to, field by field. */
  lemma StartForms(s: State, plan: seq<Task>)
    requires s.sched.Picked? && s.sched.run in s.jobs
    ensures var r := s.sched.run;
      StartRun(s, plan) == s.(
        jobs := if s.jobs[r].status == Queued then s.jobs[r := s.jobs[r].(status := Running)] else s.jobs,
        nodes := s.nodes + PendingRows(r, Names(plan)), plans := s.plans[r := plan],
        sched := Executing(r, map[], {}, false, false, Checking))
    ensures var r, names := s.sched.run, Ids(plan, StorableCount(plan));
      InsertPrefix(s, plan) == s.(nodes := s.nodes + PendingRows(r, names), stubs := s.stubs[r := names])
  {
    hide PendingRows, Names, Ids, StorableCount;
  }

  lemma PollDoes(s: State, agent: string, k: NodeKey)
    requires Authenticated(s, agent) && Assigned(s, k, agent) && s.nodes[k].status == Queued
    ensures Can(s, Poll(agent, k))
    ensures Do(s, Poll(agent, k)) == SetStatus(s, k, Running).(issued := s.issued + {k})
  {}

  lemma PickLocalDoes(s: State, k: NodeKey)
    requires Assigned(s, k, LOCAL) && s.nodes[k].status == Queued
    ensures Can(s, PickLocal(k)) && Do(s, PickLocal(k)) == SetStatus(s, k, Running).(issued := s.issued + {k})
  {}

  lemma FinishLocalDoes(s: State, k: NodeKey, o: Status)
    requires Assigned(s, k, LOCAL) && k in s.issued && Outcome(o) && o != Canceled
    ensures Can(s, FinishLocal(k, o)) && Do(s, FinishLocal(k, o)) == SetStatus(s, k, o).(issued := s.issued - {k})
  {}

  lemma MonitorDoes(s: State, stale: set<string>)
    requires LOCAL !in stale
    ensures Can(s, Monitor(stale)) && Do(s, Monitor(stale)) == MonitorPass(s, stale)
  {}

  lemma ReportDoes(s: State, agent: string, k: NodeKey, status: Status)
    requires Authenticated(s, agent) && Assigned(s, k, agent) && k in s.issued && Outcome(status)
    ensures Can(s, Report(agent, k, status))
    ensures Do(s, Report(agent, k, status)) == SetStatus(s, k, status).(issued := s.issued - {k})
  {}

  lemma MonitorMatches(s: State, stale: set<string>, s': State, updated: nat)
    requires s'.agents.Keys == s.agents.Keys && s'.nodes.Keys == s.nodes.Keys
    requires forall a :: a in s.agents ==>
      s'.agents[a] == if a in stale then s.agents[a].(online := false) else s.agents[a]
    requires updated > 0 <==> exists a :: a in stale && a in s.agents && s.agents[a].online
    requires forall k :: k in s.nodes ==>
      var row := s.nodes[k];
      s'.nodes[k] == if updated > 0 && Active(row.status) && row.agent.Some? && row.agent.value in s'.agents
                        && !s'.agents[row.agent.value].online then row.(status := Failed) else row
    requires s' == s.(agents := s'.agents, nodes := s'.nodes)
    ensures s' == MonitorPass(s, stale)
  {
    if updated == 0 {
      assert s'.agents == s.agents;
      assert s'.nodes == s.nodes;
    } else {
      assert s'.agents == MonitorPass(s, stale).agents;
      assert s'.nodes == MonitorPass(s, stale).nodes;
    }
  }
}
