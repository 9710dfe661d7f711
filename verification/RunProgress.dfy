/** Scans are fixpoints, the scheduler never gets stuck, and it consumes each node's outcome at most once. */
module RunProgress {
  import opened Wrappers
  import opened JobTypes
  import opened RunState
  import opened RunInvariant
  import opened RunSteps
  import opened RunTheorems
  import opened RunOutcomes

  // ---- A scan is a fixpoint ----

  /**
   After a scan, the untouched nodes are exactly those with an open dependency and no
   unsuccessful one.
   */
  lemma ScanFixpoint(s: State, t: Task)
    requires Inv(s) && s.sched.Executing? && (s.sched.phase.Waiting? || s.sched.phase.Finalizing?)
    requires t in s.plans[s.sched.run]
    ensures var results := s.sched.results;
      (t.id !in results && t.id !in s.sched.running) <==>
        ((exists d :: d in t.deps && d !in results)
         && forall d :: d in t.deps && d in results ==> results[d] == Success)
  {
    hide Inv, Ordered;
    CurrentView(s);
    var plan := s.plans[s.sched.run];
    var i :| 0 <= i < |plan| && plan[i] == t;
    hide Agreement, KeysOk, FlagsOk;
    assert SettledTask(plan[i], s.sched.results, s.sched.running);
  }

  /**
   A cancel wake-up has been recorded and the nodes have been scanned since: the scheduler
   goes round between waking up and waiting again.
   */
  ghost predicate Quiet(s: State) {
    && s.sched.Executing? && s.sched.run in s.plans
    && PHANTOM in s.sched.results && s.sched.stop && s.sched.canceling && s.sched.running != {}
    && s.sched.run in s.observed && s.sched.results[PHANTOM] == Canceled
    && Settled(s.plans[s.sched.run], s.sched.results, s.sched.running, |s.plans[s.sched.run]|)
    && match s.sched.phase
       case Scanning(n, queued) => queued == {}
       case Finalizing => false
       case _ => true
  }

  predicate ByScheduler(a: Action) {
    a.Pick? || a.FailStart? || a.InsertSome? || a.Prepare? || a.CheckCancel? || a.Visit?
    || a.EndScan? || a.Observe? || a.CancelWake? || a.Finalize?
  }

  /** Once quiet, rounds in which no node finishes change nothing but the program counter. */
  lemma WakeUpsStutter(s: State, a: Action)
    requires Inv(s) && Can(s, a) && Quiet(s) && !a.Observe?
    ensures var s' := Do(s, a);
      && Quiet(s') && s'.sched == s.sched.(phase := s'.sched.phase)
      && (ByScheduler(a) ==> s' == s.(sched := s'.sched))
  {
    hide Inv;
    if a.Visit? {
      QuietVisit(s, a.choice);
    } else if ByScheduler(a) {
      hide Settled, Ordered, Names;
      QuietRound(s, a);
    } else {
      OthersKeepSched(s, a);
      hide Do, Can, Settled;
    }
  }

  /** A cancel wake-up makes the scheduler quiet: no node depends on the phantom. */
  lemma WakeIsQuiet(s: State)
    requires Inv(s) && Can(s, CancelWake)
    ensures Quiet(Do(s, CancelWake))
  {
    CurrentView(s);
    PhantomNotRunning(s);
    hide Inv, Agreement, FlagsOk, TouchedOk, Settled;
    WakeSettles(s.plans[s.sched.run], s.sched.results, s.sched.running);
    hide Ordered, Names;
  }

  lemma WakeSettles(plan: seq<Task>, results: map<string, Status>, running: set<string>)
    requires Ordered(plan) && Settled(plan, results, running, |plan|)
    ensures Settled(plan, results[PHANTOM := Canceled], running, |plan|)
  {
    forall i | 0 <= i < |plan| ensures SettledTask(plan[i], results[PHANTOM := Canceled], running) {
      NamesNotPhantom(plan);
      NextTask(plan, i, {});
      hide Ordered, Names;
      assert SettledTask(plan[i], results, running);
    }
  }

  /**
   From a cancel wake-up to the next outcome taken in, the results, the flags and the running
   set stay as the wake-up left them, and no step of the scheduler changes a table.
   */
  lemma {:induction false} WakeUpsChangeNothing(trace: seq<State>, actions: seq<Action>, i: nat, j: nat)
    requires Execution(trace, actions) && i < j < |trace| && actions[i] == CancelWake
    requires forall m :: i <= m < j ==> !actions[m].Observe?
    ensures Quiet(trace[j]) && trace[i + 1].sched.Executing?
    ensures trace[j].sched == trace[i + 1].sched.(phase := trace[j].sched.phase)
    ensures forall m :: i < m < j && ByScheduler(actions[m]) ==> trace[m + 1] == trace[m].(sched := trace[m + 1].sched)
    decreases j
  {
    hide Inv, Can, Do, RowsEvolve, Init, Step, Settled, ByScheduler;
    StepOf(trace, actions, j);
    if j == i + 1 {
      WakeIsQuiet(trace[i]);
    } else {
      WakeUpsChangeNothing(trace, actions, i, j - 1);
      WakeUpsStutter(trace[j - 1], actions[j - 1]);
      assert trace[j - 1 + 1] == trace[j];
    }
  }

  lemma QuietRound(s: State, a: Action)
    requires Inv(s) && Can(s, a) && Quiet(s) && (a.CheckCancel? || a.EndScan? || a.CancelWake?)
    ensures var s' := Do(s, a);
      Quiet(s') && s' == s.(sched := s'.sched) && s'.sched == s.sched.(phase := s'.sched.phase)
  {
    hide Inv, Settled;
    assert s.sched.running + {} == s.sched.running && s.observed + {s.sched.run} == s.observed;
    if a.CancelWake? {
      PhantomNotRunning(s);
      assert s.sched.results[PHANTOM := Canceled] == s.sched.results;
    }
  }

  /** Nobody but the scheduler touches the scheduler's variables or the definitions of the runs. */
  lemma OthersKeepSched(s: State, a: Action)
    requires Can(s, a) && !ByScheduler(a)
    ensures Do(s, a).sched == s.sched && Do(s, a).plans == s.plans && Do(s, a).observed == s.observed
  {}

  lemma PhantomNotRunning(s: State)
    requires Inv(s) && s.sched.Executing? && s.sched.phase.Waiting?
    ensures s.sched.running - {PHANTOM} == s.sched.running
  {
    hide Inv, Ordered, Names;
    CurrentView(s);
    NamesNotPhantom(s.plans[s.sched.run]);
    hide Agreement, FlagsOk, PhaseOk, TouchedOk;
  }

  /**
   A second scan changes nothing: whatever flags were set during the first one, looking again
   at a node of a scanned definition moves only the program counter.
   */
  lemma RescanStutters(s: State, choice: Option<string>)
    requires CanVisit(s, choice)
    requires Settled(s.plans[s.sched.run], s.sched.results, s.sched.running, |s.plans[s.sched.run]|)
    ensures VisitNode(s, choice) == s.(sched := s.sched.(phase := s.sched.phase.(next := s.sched.phase.next + 1)))
  {
    hide Assignable, Blocked, Unresolved;
    assert SettledTask(s.plans[s.sched.run][s.sched.phase.next], s.sched.results, s.sched.running);
  }

  lemma QuietVisit(s: State, choice: Option<string>)
    requires CanVisit(s, choice) && Quiet(s)
    ensures VisitNode(s, choice) == s.(sched := s.sched.(phase := s.sched.phase.(next := s.sched.phase.next + 1)))
    ensures Quiet(VisitNode(s, choice))
  {
    RescanStutters(s, choice);
    hide Assignable, VisitNode, Settled;
  }

  // ---- Somebody can always move ----

  lemma SomeChoice(s: State, target: Option<NodeTarget>) returns (choice: Option<string>)
    ensures Assignable(s.agents, target, choice)
  {
    if a :| Eligible(s.agents, target, a) {
      choice := Some(a);
    } else {
      choice := None;
    }
  }

  /** The row of a node the scheduler waits for. */
  lemma WaitRow(s: State, x: string)
    requires Inv(s) && InPhase(s, Waiting) && x in s.sched.running
    ensures NodeKey(s.sched.run, x) in s.nodes
    ensures var row := s.nodes[NodeKey(s.sched.run, x)];
      row.agent.Some? && (Active(row.status) || Outcome(row.status))
  {
    hide Inv, Ordered, Names;
    CurrentView(s);
    hide FlagsOk, PhaseOk, TouchedOk;
  }

  lemma ActiveRow(s: State, k: NodeKey)
    requires Inv(s) && k in s.nodes && Active(s.nodes[k].status)
    ensures s.nodes[k].agent.Some? && s.nodes[k].agent.value in s.agents && s.agents[s.nodes[k].agent.value].online
    ensures s.nodes[k].status == Running ==> k in s.issued
  {
    hide Inv;
    TablesHold(s);
    hide RowsOk, DepsOk;
  }

  /**
   A node the scheduler waits for is never in a state it would ignore for ever: its outcome can
   be consumed, or its agent can move it.
   */
  lemma WaitMoves(s: State, x: string) returns (a: Action)
    requires Inv(s) && InPhase(s, Waiting) && x in s.sched.running
    ensures Can(s, a)
    ensures var k := NodeKey(s.sched.run, x);
      a == Observe(x) || (k in s.nodes && k in Do(s, a).nodes && Do(s, a).nodes[k] != s.nodes[k])
  {
    hide Inv;
    var k := NodeKey(s.sched.run, x);
    WaitRow(s, x);
    var g := s.nodes[k].agent.value;
    if Outcome(s.nodes[k].status) {
      a := Observe(x);
    } else {
      ActiveRow(s, k);
      a := if s.nodes[k].status == Queued then (if g == LOCAL then PickLocal(k) else Poll(g, k))
           else if g == LOCAL then FinishLocal(k, Success) else Report(g, k, Success);
    }
  }

  /** While a run is in hand the scheduler can go on, or it waits for a node that can still move. */
  lemma NeverStuck(s: State) returns (a: Action)
    requires Inv(s) && !s.sched.Idle?
    ensures Can(s, a) && Do(s, a) != s
    ensures !ByScheduler(a) ==> InPhase(s, Waiting)
  {
    hide Inv, Can, Do;
    if s.sched.Picked? {
      a := StartMoves(s);
    } else if s.sched.phase.Waiting? {
      a := WaitingMoves(s);
    } else if s.sched.phase.Scanning? {
      a := ScanMoves(s);
    } else {
      a := EdgeMoves(s);
    }
  }

  lemma StartMoves(s: State) returns (a: Action)
    requires Inv(s) && s.sched.Picked?
    ensures Can(s, a) && Do(s, a) != s && ByScheduler(a)
  {
    hide Inv;
    PickedUnstarted(s);
    a := FailStart;
  }

  lemma WaitingMoves(s: State) returns (a: Action)
    requires Inv(s) && InPhase(s, Waiting)
    ensures Can(s, a) && Do(s, a) != s
  {
    hide Inv, Agreement, FlagsOk, TouchedOk, Can, Do;
    CurrentView(s);
    var x :| x in s.sched.running;
    a := WaitMoves(s, x);
    if a == Observe(x) { ObserveMoves(s, x); }
  }

  lemma ScanMoves(s: State) returns (a: Action)
    requires Inv(s) && s.sched.Executing? && s.sched.phase.Scanning?
    ensures Can(s, a) && Do(s, a) != s && ByScheduler(a)
  {
    hide Inv, VisitNode, CanVisit;
    ScanBound(s);
    if s.sched.phase.next == |s.plans[s.sched.run]| {
      a := EndScan;
    } else {
      NextRow(s);
      var choice := VisitMoves(s);
      a := Visit(choice);
    }
  }

  lemma VisitMoves(s: State) returns (choice: Option<string>)
    requires s.sched.Executing? && s.sched.phase.Scanning? && s.sched.run in s.plans
    requires s.sched.phase.next < |s.plans[s.sched.run]|
    requires NodeKey(s.sched.run, s.plans[s.sched.run][s.sched.phase.next].id) in s.nodes
    ensures CanVisit(s, choice) && VisitNode(s, choice) != s
  {
    hide Assignable, Blocked, Unresolved;
    choice := SomeChoice(s, s.plans[s.sched.run][s.sched.phase.next].target);
  }

  lemma ScanBound(s: State)
    requires Inv(s) && s.sched.Executing? && s.sched.phase.Scanning?
    ensures s.sched.run in s.plans && s.sched.phase.next <= |s.plans[s.sched.run]|
  {
    hide Inv, Agreement, FlagsOk, TouchedOk;
    CurrentView(s);
  }

  lemma EdgeMoves(s: State) returns (a: Action)
    requires Inv(s) && s.sched.Executing? && (s.sched.phase.Checking? || s.sched.phase.Finalizing?)
    ensures Can(s, a) && Do(s, a) != s && ByScheduler(a)
  {
    CurrentRun(s);
    hide Inv;
    a := if s.sched.phase.Checking? then CheckCancel else Finalize;
  }

  lemma CurrentRun(s: State)
    requires Inv(s) && s.sched.Executing?
    ensures s.sched.run in s.jobs
  {
    hide TablesOk, JobsOk, ViewOk;
  }

  lemma ObserveMoves(s: State, x: string)
    requires Can(s, Observe(x))
    ensures Do(s, Observe(x)) != s
  {}

  lemma NextRow(s: State)
    requires Inv(s) && s.sched.Executing? && s.sched.phase.Scanning? && s.sched.phase.next < |s.plans[s.sched.run]|
    ensures NodeKey(s.sched.run, s.plans[s.sched.run][s.sched.phase.next].id) in s.nodes
  {
    var plan := s.plans[s.sched.run];
    assert plan[s.sched.phase.next].id in Names(plan);
    hide SchedOk, JobsOk, AgentsOk, IssuedOk, DepsOk, Names, Ordered;
  }

  // ---- Each outcome is consumed once ----

  /** How many outcomes of nodes of run `r` the scheduler has taken in before time `n`. */
  ghost function Completions(trace: seq<State>, actions: seq<Action>, r: int, n: nat): nat
    requires |trace| == |actions| + 1 && n <= |actions|
  {
    if n == 0 then 0
    else Completions(trace, actions, r, n - 1) + (if actions[n - 1].Observe? && Current(trace[n - 1], r) then 1 else 0)
  }

  /** The nodes of run `r` that have a result. */
  ghost function Resolved(s: State, r: int): set<string> {
    if r !in s.plans then {}
    else if s.sched.Executing? && s.sched.run == r then s.sched.results.Keys * Names(s.plans[r])
    else Names(s.plans[r])
  }

  lemma StepResolved(s: State, a: Action, r: int)
    requires Inv(s) && Can(s, a)
    ensures Resolved(s, r) <= Resolved(Do(s, a), r)
    ensures a.Observe? && Current(s, r) ==> a.id !in Resolved(s, r) && a.id in Resolved(Do(s, a), r)
  {
    hide Inv, Names, Ordered;
    if !ByScheduler(a) {
      OthersKeepSched(s, a);
      hide Do, Can;
    } else if a.Observe? {
      ObservedIsNew(s, a.id);
    } else if a.Prepare? {
      PickedUnstarted(s);
    } else if a.Visit? {
      hide Assignable, Blocked, Unresolved;
    }
  }

  lemma ObservedIsNew(s: State, x: string)
    requires Inv(s) && Can(s, Observe(x))
    ensures s.sched.run in s.plans && x in Names(s.plans[s.sched.run]) && x !in s.sched.results
  {
    hide Inv, Ordered, Names;
    CurrentView(s);
    hide FlagsOk, TouchedOk, PhaseOk;
  }

  lemma {:induction false} CompletionsCounted(trace: seq<State>, actions: seq<Action>, r: int, n: nat)
    requires Execution(trace, actions) && n <= |actions|
    ensures Completions(trace, actions, r, n) <= |Resolved(trace[n], r)|
  {
    hide Inv, Do, Can, Step, Init, Resolved, RowsEvolve;
    if n > 0 {
      CompletionsCounted(trace, actions, r, n - 1);
      StepOf(trace, actions, n);
      StepResolved(trace[n - 1], actions[n - 1], r);
      SubsetCount(Resolved(trace[n - 1], r), Resolved(trace[n], r));
      if actions[n - 1].Observe? && Current(trace[n - 1], r) {
        SubsetCount(Resolved(trace[n - 1], r) + {actions[n - 1].id}, Resolved(trace[n], r));
      }
    }
  }

  lemma {:induction false} SubsetCount<T>(a: set<T>, b: set<T>)
    requires a <= b
    ensures |a| <= |b|
  {
    assert b == a + (b - a);
  }

  lemma {:induction false} IdsCount(plan: seq<Task>, n: nat)
    requires n <= |plan|
    ensures |Ids(plan, n)| <= n
  {
    if n > 0 {
      IdsCount(plan, n - 1);
      IdsNext(plan, n - 1);
    } else {
      assert Ids(plan, 0) == {};
    }
  }

  /** The scheduler takes in at most one outcome per node of the definition. */
  lemma CompletionsBounded(trace: seq<State>, actions: seq<Action>, r: int, n: nat)
    requires Execution(trace, actions) && n <= |actions| && r in trace[n].plans
    ensures Completions(trace, actions, r, n) <= |trace[n].plans[r]|
  {
    hide Step, Init, Names, Ids;
    CompletionsCounted(trace, actions, r, n);
    SubsetCount(Resolved(trace[n], r), Names(trace[n].plans[r]));
    IdsCount(trace[n].plans[r], |trace[n].plans[r]|);
    hide Resolved;
    NamesAre(trace[n].plans[r]);
  }
}
