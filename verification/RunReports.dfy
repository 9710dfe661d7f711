/** What an accepted report does when the handler's own checks are all that stands in its way. */
module RunReports {
  import opened RunState
  import opened RunInvariant
  import opened RunSteps
  import opened RunOutcomes

  /** The checks of the result handler: credentials, assignment and a valid status, but not that the node is running. */
  ghost predicate ReportAccepted(s: State, g: string, k: NodeKey, o: Status) {
    Authenticated(s, g) && Assigned(s, k, g) && Outcome(o)
  }

  /**
   An accepted report follows the life cycle exactly when the node is running, or the report
   repeats its status, or it fails a node that is still queued.
   */
  lemma ReportKeepsLifeCycleIff(s: State, g: string, k: NodeKey, o: Status)
    requires Inv(s) && ReportAccepted(s, g, k, o)
    ensures RowsEvolve(s, SetStatus(s, k, o)) <==>
      s.nodes[k].status == Running || s.nodes[k].status == o || (s.nodes[k].status == Queued && o == Failed)
  {
    assert RowOk(s.nodes[k]) by { TablesHold(s); hide AgentsOk, IssuedOk, DepsOk, TablesOk; }
    hide Inv, RowsEvolve, SetStatus;
    OneRowEvolves(s, k, o);
  }

  lemma OneRowEvolves(s: State, k: NodeKey, o: Status)
    requires k in s.nodes
    ensures RowsEvolve(s, SetStatus(s, k, o)) <==> Evolves(s.nodes[k], s.nodes[k].(status := o))
  {
    var s' := SetStatus(s, k, o);
    assert k in s.nodes && s'.nodes[k] == s.nodes[k].(status := o);
    assert forall m :: m in s.nodes && m != k ==> s'.nodes[m] == s.nodes[m];
    hide SetStatus;
  }

  // ---- Reports for a run that is over ----

  /** Another node of the run has status `st`. */
  ghost predicate OtherRow(s: State, k: NodeKey, names: set<string>, st: Status) {
    exists x :: x in names && x != k.node && NodeKey(k.run, x) in s.nodes && s.nodes[NodeKey(k.run, x)].status == st
  }

  lemma ReportedName(s: State, k: NodeKey)
    requires Inv(s) && k in s.nodes && s.nodes[k].agent.Some?
    ensures k.run in s.plans && k.node in Names(s.plans[k.run])
  {
    TablesHold(s);
    hide Inv, AgentsOk, IssuedOk, DepsOk, Names, Ordered;
    assert Belongs(k, s.nodes[k], s.plans, s.stubs);
  }

  lemma RowsAfterReport(s: State, k: NodeKey, o: Status, names: set<string>, st: Status)
    requires k in s.nodes && k.node in names
    ensures AnyRow(SetStatus(s, k, o).nodes, k.run, names, st) <==> o == st || OtherRow(s, k, names, st)
  {
    var s' := SetStatus(s, k, o);
    assert NodeKey(k.run, k.node) == k;
    assert forall x :: NodeKey(k.run, x) in s'.nodes && x != k.node ==>
      s'.nodes[NodeKey(k.run, x)] == s.nodes[NodeKey(k.run, x)];
  }

  lemma StillFinished(s: State, k: NodeKey, o: Status, names: set<string>)
    requires k in s.nodes && AllFinished(s.nodes, k.run, names) && Outcome(o)
    ensures AllFinished(SetStatus(s, k, o).nodes, k.run, names)
  {}

  lemma AllSuccessful(s: State, k: NodeKey, o: Status, names: set<string>)
    requires k in s.nodes && k.node in names && AllRows(s.nodes, k.run, names, Success) && Outcome(o)
    ensures AllRows(SetStatus(s, k, o).nodes, k.run, names, Success) <==> o == Success
    ensures forall st :: st != Success ==> !OtherRow(s, k, names, st)
  {
    assert NodeKey(k.run, k.node) == k;
  }

  /**
   When the verdict on a run that is over survives an accepted report: the new status must not
   outrank the verdict, and the verdict must keep a cause.
   */
  ghost predicate VerdictSurvives(s: State, k: NodeKey, o: Status)
    requires k.run in s.jobs && k.run in s.plans
  {
    var names := Names(s.plans[k.run]);
    match s.jobs[k.run].status
    case TimedOut => o == TimedOut || OtherRow(s, k, names, TimedOut)
    case Failed => o != TimedOut && (o == Failed || OtherRow(s, k, names, Failed))
    case Canceled => o != TimedOut && o != Failed
    case _ => o == Success
  }

  /** A report accepted when the run is over. */
  lemma ReportKeepsVerdictIff(s: State, g: string, k: NodeKey, o: Status)
    requires Inv(s) && ReportAccepted(s, g, k, o) && Ended(s, k.run)
    ensures Ended(SetStatus(s, k, o), k.run) <==> VerdictSurvives(s, k, o)
  {
    hide Inv, Ended;
    OverwriteKeepsVerdictIff(s, k, o);
  }

  lemma OverwriteKeepsVerdictIff(s: State, k: NodeKey, o: Status)
    requires Inv(s) && k in s.nodes && s.nodes[k].agent.Some? && Outcome(o) && Ended(s, k.run)
    ensures Ended(SetStatus(s, k, o), k.run) <==> VerdictSurvives(s, k, o)
  {
    ReportedName(s, k);
    hide Inv;
    var names := Names(s.plans[k.run]);
    StillFinished(s, k, o, names);
    RowsAfterReport(s, k, o, names, TimedOut);
    RowsAfterReport(s, k, o, names, Failed);
    RowsAfterReport(s, k, s.nodes[k].status, names, TimedOut);
    RowsAfterReport(s, k, s.nodes[k].status, names, Failed);
    SameStatus(s, k);
    SuccessAfterReport(s, k, o, names);
    hide Names, AnyRow, AllRows, AllFinished, OtherRow;
  }

  lemma SameStatus(s: State, k: NodeKey)
    requires k in s.nodes
    ensures SetStatus(s, k, s.nodes[k].status) == s
  {
    assert s.nodes[k := s.nodes[k]] == s.nodes;
  }

  lemma SuccessAfterReport(s: State, k: NodeKey, o: Status, names: set<string>)
    requires k in s.nodes && k.node in names && Outcome(o)
    ensures AllRows(SetStatus(s, k, o).nodes, k.run, names, Success) ==> o == Success
    ensures AllRows(s.nodes, k.run, names, Success) ==>
      (AllRows(SetStatus(s, k, o).nodes, k.run, names, Success) <==> o == Success)
    ensures AllRows(s.nodes, k.run, names, Success) ==> forall st :: st != Success ==> !OtherRow(s, k, names, st)
  {
    assert NodeKey(k.run, k.node) == k;
    if AllRows(s.nodes, k.run, names, Success) { AllSuccessful(s, k, o, names); }
  }
}
