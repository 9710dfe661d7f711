/** Validation of a job definition, and its resolution into the nodes that are executed. */
module Definition {
  import opened Wrappers
  import opened JobTypes
  import opened Graph
  import opened Kahn
  import RunState

  datatype DefinitionError =
    | UnsupportedVersion | InvalidJobId | EmptyJobName | NoNodes
    | InvalidNodeId(node: string) | EmptyProgram(node: string) | ZeroTimeout(node: string)
    | EmptyOutputPath(node: string) | DuplicateNodeId(node: string)
    | UnknownDependency(node: string, dep: string) | DependencyCycle
    | MissingWorkingDir(node: string)

  // ---- Text ----

  /** Unicode white space. */
  predicate IsWhitespace(c: char) {
    || '\U{9}' <= c <= '\U{D}' || c == ' ' || c == '\U{85}' || c == '\U{A0}' || c == '\U{1680}'
    || '\U{2000}' <= c <= '\U{200A}' || c == '\U{2028}' || c == '\U{2029}' || c == '\U{202F}'
    || c == '\U{205F}' || c == '\U{3000}'
  }

  predicate Blank(s: string) { forall c :: c in s ==> IsWhitespace(c) }

  function TrimStart(s: string): (t: string)
    ensures |t| <= |s| && t == s[|s| - |t|..] && Blank(s[..|s| - |t|])
    ensures t != [] ==> !IsWhitespace(t[0])
  {
    if s != [] && IsWhitespace(s[0]) then TrimStart(s[1..]) else s
  }

  function TrimEnd(s: string): (t: string)
    ensures |t| <= |s| && t == s[..|t|] && Blank(s[|t|..])
    ensures t != [] ==> !IsWhitespace(t[|t| - 1])
  {
    if s != [] && IsWhitespace(s[|s| - 1]) then TrimEnd(s[..|s| - 1]) else s
  }

  /** The text between the white space at both ends. */
  function Trim(s: string): (t: string)
    ensures exists i, j :: 0 <= i <= j <= |s| && t == s[i..j] && Blank(s[..i]) && Blank(s[j..])
    ensures t != "" ==> !IsWhitespace(t[0]) && !IsWhitespace(t[|t| - 1])
  {
    var front := TrimStart(s);
    var t := TrimEnd(front);
    assert t == s[|s| - |front|..|s| - |front| + |t|] && front[|t|..] == s[|s| - |front| + |t|..];
    t
  }

  /** The white space characters one by one. */
  const WHITE: string := "\U{9}\U{A}\U{B}\U{C}\U{D}\U{20}\U{85}\U{A0}\U{1680}\U{2000}\U{2001}\U{2002}\U{2003}\U{2004}"
    + "\U{2005}\U{2006}\U{2007}\U{2008}\U{2009}\U{200A}\U{2028}\U{2029}\U{202F}\U{205F}\U{3000}"

  lemma WhiteSpaceTable(c: char)
    ensures IsWhitespace(c) <==> c in WHITE
  {}

  lemma TrimEmpty(s: string)
    ensures Trim(s) == "" <==> Blank(s)
  {
    var t := TrimStart(s);
    assert s == s[..|s| - |t|] + t;
    assert t != "" ==> t[0] in s;
  }

  predicate IsValidId(value: string) {
    && value != "" && 'a' <= value[0] <= 'z'
    && forall i :: 1 <= i < |value| ==>
         'a' <= value[i] <= 'z' || '0' <= value[i] <= '9' || value[i] == '-' || value[i] == '_'
  }

  const LETTERS := "abcdefghijklmnopqrstuvwxyz"

  /** A lower-case letter followed by lower-case letters, digits, hyphens and underscores. */
  ghost predicate ProperId(value: string) {
    && value != "" && value[0] in LETTERS
    && forall c :: c in value ==> c in LETTERS + "0123456789-_"
  }

  lemma IdCharacters(c: char)
    ensures c in LETTERS <==> 'a' <= c <= 'z'
    ensures c in LETTERS + "0123456789-_" <==> 'a' <= c <= 'z' || '0' <= c <= '9' || c == '-' || c == '_'
  {
    assert c in "0123456789-_" <==> '0' <= c <= '9' || c == '-' || c == '_';
  }

  lemma ProperIdIff(value: string)
    ensures IsValidId(value) <==> ProperId(value)
  {
    forall c { IdCharacters(c); }
    assert value != "" ==> value[0] in value;
    assert forall i :: 1 <= i < |value| ==> value[i] in value;
  }

  // ---- Validation ----

  predicate NodeOk(n: NodeDefinition) {
    && IsValidId(n.id) && !Blank(n.program) && n.timeoutSec != Some(0)
    && forall o :: o in n.outputs.GetOr([]) ==> !Blank(o.path)
  }

  ghost predicate WellFormed(job: JobDefinition) {
    && job.version == 1 && IsValidId(job.id) && !Blank(job.name) && job.nodes != []
    && (forall n :: n in job.nodes ==> NodeOk(n))
    && Sortable(job.nodes)
    && !HasCycle(GraphOf(job.nodes))
  }

  ghost predicate OnlyWhite(s: string) { forall c :: c in s ==> c in WHITE }

  /** The requirements on a node by itself, read off its fields. */
  ghost predicate Proper(n: NodeDefinition) {
    && ProperId(n.id) && !OnlyWhite(n.program) && n.timeoutSec != Some(0)
    && (n.outputs.Some? ==> forall o :: o in n.outputs.value ==> !OnlyWhite(o.path))
  }

  /** The requirements on a definition, read off its fields. */
  ghost predicate Acceptable(job: JobDefinition) {
    && job.version == 1 && ProperId(job.id) && !OnlyWhite(job.name) && job.nodes != []
    && (forall n :: n in job.nodes ==> Proper(n))
    && (forall i, j :: 0 <= i < j < |job.nodes| ==> job.nodes[i].id != job.nodes[j].id)
    && (forall n, t :: n in job.nodes && n.dependsOn.Some? && 0 <= t < |n.dependsOn.value| ==>
          exists m :: m in job.nodes && m.id == n.dependsOn.value[t])
    && !exists path :: MentionCycle(job.nodes, path)
  }

  lemma OnlyWhiteIff(s: string)
    ensures OnlyWhite(s) <==> Blank(s)
  {
    forall c { WhiteSpaceTable(c); }
    hide IsWhitespace;
  }

  lemma ProperIff(n: NodeDefinition)
    ensures Proper(n) <==> NodeOk(n)
  {
    ProperIdIff(n.id);
    OnlyWhiteIff(n.program);
    forall s { OnlyWhiteIff(s); }
    hide ProperId, IsValidId, Blank, OnlyWhite;
  }

  lemma SortableIff(nodes: seq<NodeDefinition>)
    ensures Sortable(nodes) <==>
      && (forall i, j :: 0 <= i < j < |nodes| ==> nodes[i].id != nodes[j].id)
      && (forall n, t :: n in nodes && n.dependsOn.Some? && 0 <= t < |n.dependsOn.value| ==>
            exists m :: m in nodes && m.id == n.dependsOn.value[t])
  {
    forall n, t | n in nodes && n.dependsOn.Some? && 0 <= t < |n.dependsOn.value|
      ensures n.dependsOn.value[t] in n.Deps()
    {}
  }

  lemma WellFormedIff(job: JobDefinition)
    ensures WellFormed(job) <==> Acceptable(job)
  {
    hide ProperId, IsValidId, Blank, OnlyWhite, Proper, NodeOk, GraphOf, HasCycle, MentionCycle;
    ProperIdIff(job.id);
    OnlyWhiteIff(job.name);
    forall n { ProperIff(n); }
    SortableIff(job.nodes);
    if Sortable(job.nodes) { MentionCycleIff(job.nodes); }
    hide Sortable;
  }

  /** The complaint is true of the definition. */
  ghost predicate Justified(job: JobDefinition, e: DefinitionError) {
    match e
    case UnsupportedVersion => job.version != 1
    case InvalidJobId => !IsValidId(job.id)
    case EmptyJobName => Blank(job.name)
    case NoNodes => job.nodes == []
    case InvalidNodeId(x) => !IsValidId(x) && exists n :: n in job.nodes && n.id == x
    case EmptyProgram(x) => exists n :: n in job.nodes && n.id == x && Blank(n.program)
    case ZeroTimeout(x) => exists n :: n in job.nodes && n.id == x && n.timeoutSec == Some(0)
    case EmptyOutputPath(x) =>
      exists n, o :: n in job.nodes && n.id == x && o in n.outputs.GetOr([]) && Blank(o.path)
    case DuplicateNodeId(x) =>
      exists i, j :: 0 <= i < j < |job.nodes| && job.nodes[i].id == x && job.nodes[j].id == x
    case UnknownDependency(x, d) =>
      (exists n :: n in job.nodes && n.id == x && d in n.Deps()) && forall m :: m in job.nodes ==> m.id != d
    case DependencyCycle => Sortable(job.nodes) && HasCycle(GraphOf(job.nodes))
    case MissingWorkingDir(x) =>
      exists n :: n in job.nodes && n.id == x && n.workingDir.None?
        && (job.defaults.None? || job.defaults.value.workingDir.None?)
  }

  /** The complaint is the first one, in the order of the checks, that is true of the node by itself. */
  ghost predicate NodeFault(n: NodeDefinition, e: DefinitionError) {
    match e
    case InvalidNodeId(x) => n.id == x && !IsValidId(x)
    case EmptyProgram(x) => n.id == x && IsValidId(x) && Blank(n.program)
    case ZeroTimeout(x) => n.id == x && IsValidId(x) && !Blank(n.program) && n.timeoutSec == Some(0)
    case EmptyOutputPath(x) =>
      && n.id == x && IsValidId(x) && !Blank(n.program) && n.timeoutSec != Some(0)
      && exists o :: o in n.outputs.GetOr([]) && Blank(o.path)
    case _ => false
  }

  /** The nodes before position `i` are acceptable and named once. */
  ghost predicate FineBefore(nodes: seq<NodeDefinition>, i: nat) {
    && i <= |nodes|
    && (forall j :: 0 <= j < i ==> NodeOk(nodes[j]))
    && (forall j, k :: 0 <= j < k < i ==> nodes[j].id != nodes[k].id)
  }

  ghost predicate FaultAt(nodes: seq<NodeDefinition>, i: nat, e: DefinitionError) {
    && i < |nodes| && FineBefore(nodes, i)
    && (NodeFault(nodes[i], e)
        || (NodeOk(nodes[i]) && e == DuplicateNodeId(nodes[i].id)
            && exists j :: 0 <= j < i && nodes[j].id == nodes[i].id))
  }

  ghost predicate Known(nodes: seq<NodeDefinition>, d: string) { exists m :: m in nodes && m.id == d }

  ghost predicate UnknownAt(nodes: seq<NodeDefinition>, i: nat, t: nat, e: DefinitionError) {
    && i < |nodes| && t < |nodes[i].Deps()| && !Known(nodes, nodes[i].Deps()[t])
    && e == UnknownDependency(nodes[i].id, nodes[i].Deps()[t])
    && (forall m, d :: 0 <= m < i && d in nodes[m].Deps() ==> Known(nodes, d))
    && (forall r :: 0 <= r < t ==> Known(nodes, nodes[i].Deps()[r]))
  }

  ghost predicate HeaderOk(job: JobDefinition) {
    job.version == 1 && IsValidId(job.id) && !Blank(job.name) && job.nodes != []
  }

  ghost predicate NodesOk(nodes: seq<NodeDefinition>) {
    UniqueIds(nodes) && forall n :: n in nodes ==> NodeOk(n)
  }

  /** The one complaint that validation makes of a definition with faults. */
  ghost predicate FirstComplaint(job: JobDefinition, e: DefinitionError) {
    match e
    case UnsupportedVersion => job.version != 1
    case InvalidJobId => job.version == 1 && !IsValidId(job.id)
    case EmptyJobName => job.version == 1 && IsValidId(job.id) && Blank(job.name)
    case NoNodes => job.version == 1 && IsValidId(job.id) && !Blank(job.name) && job.nodes == []
    case UnknownDependency(_, _) => HeaderOk(job) && NodesOk(job.nodes) && exists i, t :: UnknownAt(job.nodes, i, t, e)
    case DependencyCycle => HeaderOk(job) && NodesOk(job.nodes) && Sortable(job.nodes) && HasCycle(GraphOf(job.nodes))
    case MissingWorkingDir(_) => false
    case _ => HeaderOk(job) && exists i :: FaultAt(job.nodes, i, e)
  }

  /** There is at most one first complaint, so validation always names the same fault. */
  lemma FirstComplaintUnique(job: JobDefinition, a: DefinitionError, b: DefinitionError)
    requires FirstComplaint(job, a) && FirstComplaint(job, b)
    ensures a == b
  {
    hide HasCycle, GraphOf, FaultAt, UnknownAt, IsValidId, Blank, NodesOk, Sortable;
    forall i, j | FaultAt(job.nodes, i, a) && FaultAt(job.nodes, j, b) ensures a == b {
      SameFault(job.nodes, i, j, a, b);
    }
    forall i, t, j, u | UnknownAt(job.nodes, i, t, a) && UnknownAt(job.nodes, j, u, b) ensures a == b {
      SameUnknown(job.nodes, i, t, j, u, a, b);
    }
    forall i, e | FaultAt(job.nodes, i, e) ensures !NodesOk(job.nodes) { FaultSpoils(job.nodes, i, e); }
    forall i, t, e | UnknownAt(job.nodes, i, t, e) ensures !Sortable(job.nodes) { UnknownSpoils(job.nodes, i, t, e); }
  }

  lemma SameFault(nodes: seq<NodeDefinition>, i: nat, j: nat, a: DefinitionError, b: DefinitionError)
    requires FaultAt(nodes, i, a) && FaultAt(nodes, j, b)
    ensures a == b
  {
    hide IsValidId, Blank;
    FaultNotFine(nodes, i, a);
    FaultNotFine(nodes, j, b);
    assert i == j;
    hide FineBefore;
  }

  /** The nodes up to and including a faulty one are not fine. */
  lemma FaultNotFine(nodes: seq<NodeDefinition>, i: nat, e: DefinitionError)
    requires FaultAt(nodes, i, e)
    ensures forall j: nat :: FineBefore(nodes, j) ==> j <= i
  {
    hide IsValidId, Blank;
  }

  lemma SameUnknown(nodes: seq<NodeDefinition>, i: nat, t: nat, j: nat, u: nat, a: DefinitionError, b: DefinitionError)
    requires UnknownAt(nodes, i, t, a) && UnknownAt(nodes, j, u, b)
    ensures a == b
  {
    hide Known;
    assert nodes[i].Deps()[t] in nodes[i].Deps() && nodes[j].Deps()[u] in nodes[j].Deps();
  }

  lemma FaultSpoils(nodes: seq<NodeDefinition>, i: nat, e: DefinitionError)
    requires FaultAt(nodes, i, e)
    ensures !NodesOk(nodes)
  {
    hide IsValidId, Blank;
    assert nodes[i] in nodes;
  }

  lemma UnknownSpoils(nodes: seq<NodeDefinition>, i: nat, t: nat, e: DefinitionError)
    requires UnknownAt(nodes, i, t, e)
    ensures !Sortable(nodes)
  {
    assert nodes[i] in nodes && nodes[i].Deps()[t] in nodes[i].Deps();
  }

  lemma FaultJustified(job: JobDefinition, n: NodeDefinition, e: DefinitionError)
    requires n in job.nodes && NodeFault(n, e)
    ensures Justified(job, e)
  {}

  /** The node by itself is acceptable, or the complaint. */
  method CheckNode(n: NodeDefinition) returns (r: Result<(), DefinitionError>)
    ensures r.Ok? <==> NodeOk(n)
    ensures r.Err? ==> NodeFault(n, r.error)
  {
    hide IsValidId, Blank, Trim;
    if !IsValidId(n.id) {
      return Err(InvalidNodeId(n.id));
    }
    TrimEmpty(n.program);
    if Trim(n.program) == "" {
      return Err(EmptyProgram(n.id));
    }
    if n.timeoutSec.GetOr(1) == 0 {
      return Err(ZeroTimeout(n.id));
    }
    var outputs := n.outputs.GetOr([]);
    for i := 0 to |outputs|
      invariant forall j :: 0 <= j < i ==> !Blank(outputs[j].path)
    {
      TrimEmpty(outputs[i].path);
      if Trim(outputs[i].path) == "" {
        assert outputs[i] in outputs;
        return Err(EmptyOutputPath(n.id));
      }
    }
    return Ok(());
  }

  lemma FaultIsComplaint(job: JobDefinition, i: nat, e: DefinitionError)
    requires HeaderOk(job) && FaultAt(job.nodes, i, e)
    ensures FirstComplaint(job, e)
  {
    hide IsValidId, Blank, HeaderOk, FineBefore;
  }

  /** Every dependency names a node, or the complaint. */
  method CheckDependencies(job: JobDefinition, seen: set<string>) returns (r: Result<(), DefinitionError>)
    requires UniqueIds(job.nodes)
    requires forall x :: x in seen <==> exists n :: n in job.nodes && n.id == x
    ensures r.Ok? <==> Sortable(job.nodes)
    ensures r.Err? ==> r.error.UnknownDependency? && Justified(job, r.error)
    ensures r.Err? ==> exists i, t :: UnknownAt(job.nodes, i, t, r.error)
  {
    assert forall x :: x in seen <==> Known(job.nodes, x);
    for i := 0 to |job.nodes|
      invariant forall m, d :: 0 <= m < i && d in job.nodes[m].Deps() ==> d in seen
    {
      var deps := job.nodes[i].Deps();
      for t := 0 to |deps|
        invariant forall s :: 0 <= s < t ==> deps[s] in seen
      {
        if deps[t] !in seen {
          assert job.nodes[i] in job.nodes && deps[t] in job.nodes[i].Deps();
          assert UnknownAt(job.nodes, i, t, UnknownDependency(job.nodes[i].id, deps[t]));
          return Err(UnknownDependency(job.nodes[i].id, deps[t]));
        }
      }
    }
    forall n, d | n in job.nodes && d in n.Deps() ensures exists m :: m in job.nodes && m.id == d {
      var i :| 0 <= i < |job.nodes| && job.nodes[i] == n;
      assert d in job.nodes[i].Deps();
      assert d in seen;
    }
    return Ok(());
  }

  /** Every node is acceptable and named once, or the complaint; `seen` are the names. */
  method CheckNodes(job: JobDefinition) returns (r: Result<(), DefinitionError>, seen: set<string>)
    ensures r.Ok? <==> (forall n :: n in job.nodes ==> NodeOk(n)) && UniqueIds(job.nodes)
    ensures r.Ok? ==> forall x :: x in seen <==> exists n :: n in job.nodes && n.id == x
    ensures r.Err? ==> Justified(job, r.error) && exists i :: FaultAt(job.nodes, i, r.error)
  {
    seen := {};
    for i := 0 to |job.nodes|
      invariant forall j :: 0 <= j < i ==> NodeOk(job.nodes[j])
      invariant forall j, k :: 0 <= j < k < i ==> job.nodes[j].id != job.nodes[k].id
      invariant forall x :: x in seen <==> exists j :: 0 <= j < i && job.nodes[j].id == x
    {
      hide NodeOk, NodeFault;
      var n := job.nodes[i];
      var node := CheckNode(n);
      if node.Err? {
        assert n in job.nodes;
        FaultJustified(job, n, node.error);
        assert FaultAt(job.nodes, i, node.error);
        return node, seen;
      }
      if n.id in seen {
        assert FaultAt(job.nodes, i, DuplicateNodeId(n.id));
        return Err(DuplicateNodeId(n.id)), seen;
      }
      seen := seen + {n.id};
    }
    return Ok(()), seen;
  }

  lemma JustifiedFacts(job: JobDefinition)
    ensures Justified(job, UnsupportedVersion) <==> job.version != 1
    ensures Justified(job, InvalidJobId) <==> !IsValidId(job.id)
    ensures Justified(job, EmptyJobName) <==> Blank(job.name)
    ensures Justified(job, NoNodes) <==> job.nodes == []
    ensures Justified(job, DependencyCycle) <==> Sortable(job.nodes) && HasCycle(GraphOf(job.nodes))
    ensures Sortable(job.nodes) ==> UniqueIds(job.nodes)
  {
    hide IsValidId, Blank, HasCycle, GraphOf;
  }

  /** Accepts exactly the well-formed definitions; otherwise makes the one first complaint. */
  method Validate(job: JobDefinition) returns (r: Result<(), DefinitionError>)
    ensures r.Ok? <==> WellFormed(job)
    ensures r.Ok? <==> Acceptable(job)
    ensures r.Err? ==> Justified(job, r.error) && FirstComplaint(job, r.error)
  {
    hide NodeOk, IsValidId, Blank, HasCycle, GraphOf, Sortable, Trim, Justified, FaultAt, UnknownAt,
      Acceptable, MentionCycle, Kahn.Executable;
    JustifiedFacts(job);
    WellFormedIff(job);
    if job.version != 1 {
      return Err(UnsupportedVersion);
    }
    if !IsValidId(job.id) {
      return Err(InvalidJobId);
    }
    TrimEmpty(job.name);
    if Trim(job.name) == "" {
      return Err(EmptyJobName);
    }
    if job.nodes == [] {
      return Err(NoNodes);
    }
    var nodes, seen := CheckNodes(job);
    if nodes.Err? {
      ghost var i :| FaultAt(job.nodes, i, nodes.error);
      FaultIsComplaint(job, i, nodes.error);
      return nodes;
    }
    var deps := CheckDependencies(job, seen);
    if deps.Err? {
      return deps;
    }
    var order := TopologicalOrder(job.nodes);
    if order.Err? {
      return Err(DependencyCycle);
    }
    return Ok(());
  }

  // ---- Resolution ----

  function NoDefaults(): (d: JobDefaults)
    ensures d.workingDir.None? && d.timeoutSec.None? && d.retry.None? && d.env.None? && d.target.None?
  {
    JobDefaults(None, None, None, None, None)
  }

  /** The resolved node is the definition's node with the job's defaults behind it. */
  ghost predicate Resolves(n: NodeDefinition, defaults: JobDefaults, r: ResolvedNode) {
    && r.id == n.id && r.name == n.name.GetOr(n.id) && r.program == Trim(n.program) && r.args == n.args.GetOr([])
    && (n.workingDir == Some(r.workingDir) || (n.workingDir.None? && defaults.workingDir == Some(r.workingDir)))
    && (n.dependsOn == Some(r.dependsOn) || (n.dependsOn.None? && r.dependsOn == []))
    && (forall x :: x in r.env <==> x in n.env.GetOr(map[]) || x in defaults.env.GetOr(map[]))
    && (forall x :: x in r.env ==>
          r.env[x] == if x in n.env.GetOr(map[]) then n.env.GetOr(map[])[x] else defaults.env.GetOr(map[])[x])
    && r.timeoutSec == n.timeoutSec.GetOr(defaults.timeoutSec.GetOr(1800))
    && r.retry == n.retry.GetOr(defaults.retry.GetOr(0))
    && r.target == (if n.target.Some? then n.target else defaults.target)
    && r.secrets == n.secrets.GetOr([])
    && |r.outputs| == |n.outputs.GetOr([])|
    && (forall i :: 0 <= i < |r.outputs| ==>
          r.outputs[i] == ResolvedNodeOutput(n.outputs.GetOr([])[i].path, n.outputs.GetOr([])[i].required.GetOr(true)))
  }

  method ResolveNode(n: NodeDefinition, defaults: JobDefaults) returns (r: Option<ResolvedNode>)
    ensures r.None? <==> n.workingDir.None? && defaults.workingDir.None?
    ensures r.Some? ==> Resolves(n, defaults, r.value)
  {
    var workingDir := if n.workingDir.Some? then n.workingDir else defaults.workingDir;
    if workingDir.None? {
      return None;
    }
    var env := defaults.env.GetOr(map[]);
    if n.env.Some? {
      env := env + n.env.value;
    }
    var outputs := n.outputs.GetOr([]);
    return Some(ResolvedNode(n.id, n.name.GetOr(n.id), Trim(n.program), n.args.GetOr([]), workingDir.value,
      n.Deps(), env,
      n.timeoutSec.GetOr(defaults.timeoutSec.GetOr(1800)), n.retry.GetOr(defaults.retry.GetOr(0)),
      seq(|outputs|, i requires 0 <= i < |outputs| =>
          ResolvedNodeOutput(outputs[i].path, outputs[i].required.GetOr(true))),
      if n.target.Some? then n.target else defaults.target, n.secrets.GetOr([])));
  }

  /** What the scheduler uses of a resolved node. */
  function TaskOf(r: ResolvedNode): RunState.Task {
    RunState.Task(r.id, (set d | d in r.dependsOn), r.target, r.timeoutSec)
  }

  function PlanOf(nodes: seq<ResolvedNode>): seq<RunState.Task> {
    seq(|nodes|, i requires 0 <= i < |nodes| => TaskOf(nodes[i]))
  }

  /** `nodes` are the resolved nodes of `job` in the order `order`. */
  ghost predicate ResolvedAs(job: JobDefinition, order: seq<string>, nodes: seq<ResolvedNode>) {
    && |nodes| <= |order|
    && forall p :: 0 <= p < |nodes| ==> ResolvedFrom(job, order[p], nodes[p])
  }

  /** `r` resolves the node of `job` called `id`. */
  ghost predicate ResolvedFrom(job: JobDefinition, id: string, r: ResolvedNode) {
    exists n :: n in job.nodes && n.id == id && Resolves(n, job.defaults.GetOr(NoDefaults()), r)
  }

  /** `nodes` are the resolved nodes of `job` in the order of the topological sort. */
  ghost predicate ResolvedInOrder(job: JobDefinition, nodes: seq<ResolvedNode>) {
    && GraphOf(job.nodes).Valid()
    && exists order :: KahnOrder(GraphOf(job.nodes), order) && |order| == |nodes| && ResolvedAs(job, order, nodes)
  }

  /** The complaint names the first node without a working directory in the order of the topological sort. */
  ghost predicate MissingInOrder(job: JobDefinition, e: DefinitionError) {
    && GraphOf(job.nodes).Valid()
    && exists order :: KahnOrder(GraphOf(job.nodes), order) && FirstWithoutDir(job, order, e)
  }

  /** All nodes have a working directory of their own, or the job has one for them. */
  ghost predicate HasWorkingDirs(job: JobDefinition) {
    || (job.defaults.Some? && job.defaults.value.workingDir.Some?)
    || forall n :: n in job.nodes ==> n.workingDir.Some?
  }

  /** The node called `id` has no working directory, and the job has none for it. */
  ghost predicate NoDir(job: JobDefinition, id: string) {
    && job.defaults.GetOr(NoDefaults()).workingDir.None?
    && exists n :: n in job.nodes && n.id == id && n.workingDir.None?
  }

  /** The complaint names the first node of the order without a working directory. */
  ghost predicate FirstWithoutDir(job: JobDefinition, order: seq<string>, e: DefinitionError) {
    exists p :: 0 <= p < |order| && NoDir(job, order[p]) && e == MissingWorkingDir(order[p])
      && forall m :: 0 <= m < p ==> !NoDir(job, order[m])
  }

  lemma DirOf(job: JobDefinition, n: NodeDefinition)
    requires UniqueIds(job.nodes) && n in job.nodes
    ensures NoDir(job, n.id) <==> n.workingDir.None? && job.defaults.GetOr(NoDefaults()).workingDir.None?
  {
    hide UniqueIds;
    forall m | m in job.nodes && m.id == n.id ensures m == n { UniqueNode(job.nodes, m, n); }
  }

  /** Resolve the nodes in the order of the topological sort. */
  method ResolveNodes(job: JobDefinition, order: seq<string>) returns (r: Result<seq<ResolvedNode>, DefinitionError>)
    requires UniqueIds(job.nodes) && forall x :: x in order <==> x in Ids(job.nodes)
    ensures r.Ok? <==> HasWorkingDirs(job)
    ensures r.Ok? ==> ResolvedAs(job, order, r.value) && |r.value| == |order|
    ensures r.Err? ==> r.error.MissingWorkingDir? && Justified(job, r.error) && FirstWithoutDir(job, order, r.error)
  {
    hide Resolves, ResolvedFrom, HasWorkingDirs, Justified, Ids, UniqueIds, NoDir;
    var defaults := job.defaults.GetOr(NoDefaults());
    var byId := IndexNodes(job);
    var nodes: seq<ResolvedNode> := [];
    for p := 0 to |order|
      invariant |nodes| == p && ResolvedAs(job, order, nodes)
      invariant defaults.workingDir.Some? || forall m :: 0 <= m < p ==> byId[order[m]].workingDir.Some?
      invariant forall m :: 0 <= m < p ==> !NoDir(job, order[m])
    {
      assert order[p] in order;
      var n := byId[order[p]];
      DirOf(job, n);
      var node := ResolveNode(n, defaults);
      if node.None? {
        Unresolvable(job, n);
        return Err(MissingWorkingDir(n.id));
      }
      NodeResolved(job, n, node.value);
      nodes := nodes + [node.value];
    }
    AllResolvable(job, order, byId);
    return Ok(nodes);
  }

  lemma NodeResolved(job: JobDefinition, n: NodeDefinition, r: ResolvedNode)
    requires n in job.nodes && Resolves(n, job.defaults.GetOr(NoDefaults()), r)
    ensures ResolvedFrom(job, n.id, r)
  {
    hide Resolves;
  }

  lemma Unresolvable(job: JobDefinition, n: NodeDefinition)
    requires n in job.nodes && n.workingDir.None? && job.defaults.GetOr(NoDefaults()).workingDir.None?
    ensures !HasWorkingDirs(job) && Justified(job, MissingWorkingDir(n.id))
  {}

  lemma AllResolvable(job: JobDefinition, order: seq<string>, byId: map<string, NodeDefinition>)
    requires UniqueIds(job.nodes) && forall x :: x in order <==> x in Ids(job.nodes)
    requires forall x :: x in byId <==> x in Ids(job.nodes)
    requires forall x :: x in byId ==> byId[x] in job.nodes && byId[x].id == x
    requires job.defaults.GetOr(NoDefaults()).workingDir.Some?
      || forall m :: 0 <= m < |order| ==> order[m] in byId && byId[order[m]].workingDir.Some?
    ensures HasWorkingDirs(job)
  {
    forall n | n in job.nodes && job.defaults.GetOr(NoDefaults()).workingDir.None? ensures n.workingDir.Some? {
      var i :| 0 <= i < |job.nodes| && job.nodes[i] == n;
      GraphAt(job.nodes, i);
      UniqueNode(job.nodes, n, byId[n.id]);
    }
  }

  method IndexNodes(job: JobDefinition) returns (byId: map<string, NodeDefinition>)
    ensures forall x :: x in byId <==> x in Ids(job.nodes)
    ensures forall x :: x in byId ==> byId[x] in job.nodes && byId[x].id == x
  {
    byId := map[];
    for i := 0 to |job.nodes|
      invariant forall x :: x in byId <==> x in Ids(job.nodes[..i])
      invariant forall x :: x in byId ==> byId[x] in job.nodes && byId[x].id == x
    {
      assert Ids(job.nodes[..i + 1]) == Ids(job.nodes[..i]) + {job.nodes[i].id};
      byId := byId[job.nodes[i].id := job.nodes[i]];
    }
    assert job.nodes[..|job.nodes|] == job.nodes;
  }

  lemma UniqueNode(nodes: seq<NodeDefinition>, a: NodeDefinition, b: NodeDefinition)
    requires UniqueIds(nodes) && a in nodes && b in nodes && a.id == b.id
    ensures a == b
  {
    var i :| 0 <= i < |nodes| && nodes[i] == a;
    var j :| 0 <= j < |nodes| && nodes[j] == b;
  }

  /**
   A definition resolves exactly when it is well formed and every node gets a working directory;
   the nodes come in the topological order, which is an order the scheduler can rely on.
   */
  method Resolve(job: JobDefinition) returns (r: Result<ResolvedJob, DefinitionError>)
    ensures r.Ok? <==> WellFormed(job) && HasWorkingDirs(job)
    ensures r.Err? ==> Justified(job, r.error)
    ensures r.Err? ==> if WellFormed(job) then MissingInOrder(job, r.error) else FirstComplaint(job, r.error)
    ensures r.Ok? ==> ResolvedInOrder(job, r.value.nodes)
    ensures r.Ok? ==> EachResolved(job, r.value.nodes) && PlanMatches(job, PlanOf(r.value.nodes))
    ensures r.Ok? ==> r.value.nodes != [] && RunState.Ordered(PlanOf(r.value.nodes))
    ensures r.Ok? ==> r.value.id == job.id && r.value.name == job.name && r.value.params == job.params.GetOr([])
    ensures r.Ok? ==>
      r.value.workingDir == job.defaults.GetOr(NoDefaults()).workingDir.GetOr(r.value.nodes[0].workingDir)
  {
    var valid := Validate(job);
    if valid.Err? {
      return Err(valid.error);
    }
    hide HasCycle, NodeOk, IsValidId, Blank, FirstWithoutDir, Acceptable, MentionCycle, Kahn.Executable, EachResolved,
      PlanMatches;
    var order := TopologicalOrder(job.nodes);
    assert forall x :: x in order.value <==> x in Ids(job.nodes);
    var nodes := ResolveNodes(job, order.value);
    if nodes.Err? {
      return Err(nodes.error);
    }
    NonEmptyOrder(job, order.value);
    PlanOrdered(job, order.value, nodes.value);
    AllResolved(job, nodes.value);
    PlanOfMatches(job, nodes.value);
    var workingDir := job.defaults.GetOr(NoDefaults()).workingDir.GetOr(nodes.value[0].workingDir);
    return Ok(ResolvedJob(job.id, job.name, workingDir, job.params.GetOr([]), nodes.value));
  }

  lemma NonEmptyOrder(job: JobDefinition, order: seq<string>)
    requires job.nodes != [] && forall x :: x in order <==> x in Ids(job.nodes)
    ensures order != []
  {
    assert job.nodes[0].id in Ids(job.nodes);
  }

  /** The link between the compiler and the scheduler: what `Resolve` produces is ordered for execution. */
  lemma PlanOrdered(job: JobDefinition, order: seq<string>, nodes: seq<ResolvedNode>)
    requires WellFormed(job) && GraphOf(job.nodes).Valid() && KahnOrder(GraphOf(job.nodes), order)
    requires ResolvedAs(job, order, nodes) && |nodes| == |order|
    ensures RunState.Ordered(PlanOf(nodes))
  {
    var plan := PlanOf(nodes);
    forall p | 0 <= p < |plan|
      ensures plan[p].id != RunState.PHANTOM && plan[p].id !in RunState.Ids(plan, p)
      ensures plan[p].deps <= RunState.Ids(plan, p)
    {
      PlanNodeOrdered(job, order, nodes, p);
    }
  }

  lemma PlanIds(job: JobDefinition, order: seq<string>, nodes: seq<ResolvedNode>, p: nat)
    requires ResolvedAs(job, order, nodes) && |nodes| == |order| && p <= |order|
    ensures forall x :: x in RunState.Ids(PlanOf(nodes), p) <==> x in order[..p]
  {
    hide Resolves;
    forall i | 0 <= i < |order| ensures PlanOf(nodes)[i].id == order[i] {
      var n := PlanNode(job, order, nodes, i);
    }
    assert forall i :: 0 <= i < p ==> order[..p][i] == order[i];
  }

  lemma PlanNode(job: JobDefinition, order: seq<string>, nodes: seq<ResolvedNode>, p: nat) returns (n: NodeDefinition)
    requires ResolvedAs(job, order, nodes) && |nodes| == |order| && p < |order|
    ensures n in job.nodes && n.id == order[p] && PlanOf(nodes)[p].id == n.id
    ensures forall d :: d in PlanOf(nodes)[p].deps <==> d in n.Deps()
  {
    assert ResolvedFrom(job, order[p], nodes[p]);
    n :| n in job.nodes && n.id == order[p] && Resolves(n, job.defaults.GetOr(NoDefaults()), nodes[p]);
  }

  lemma PlanNodeOrdered(job: JobDefinition, order: seq<string>, nodes: seq<ResolvedNode>, p: nat)
    requires WellFormed(job) && GraphOf(job.nodes).Valid() && KahnOrder(GraphOf(job.nodes), order)
    requires ResolvedAs(job, order, nodes) && |nodes| == |order| && p < |order|
    ensures var plan := PlanOf(nodes);
      plan[p].id != RunState.PHANTOM && plan[p].id !in RunState.Ids(plan, p) && plan[p].deps <= RunState.Ids(plan, p)
  {
    hide Precedes, HasCycle, ResolvedAs, GraphOf;
    var n := PlanNode(job, order, nodes, p);
    assert NodeOk(n);
    PlanIds(job, order, nodes, p);
    var i :| 0 <= i < |job.nodes| && job.nodes[i] == n;
    GraphAt(job.nodes, i);
    assert forall i :: 0 <= i < p ==> order[..p][i] == order[i];
  }

  // ---- Timeouts ----

  /** The timeout a node ends up with. */
  ghost function TimeoutOf(job: JobDefinition, n: NodeDefinition): nat {
    n.timeoutSec.GetOr(job.defaults.GetOr(NoDefaults()).timeoutSec.GetOr(1800))
  }

  lemma NodeTimeout(job: JobDefinition, order: seq<string>, nodes: seq<ResolvedNode>, p: nat)
    returns (n: NodeDefinition)
    requires ResolvedAs(job, order, nodes) && |nodes| == |order| && p < |nodes|
    ensures n in job.nodes && n.id == order[p] && nodes[p].timeoutSec == TimeoutOf(job, n)
  {
    assert ResolvedFrom(job, order[p], nodes[p]);
    n :| n in job.nodes && n.id == order[p] && Resolves(n, job.defaults.GetOr(NoDefaults()), nodes[p]);
  }

  /**
   Validation requires each node's own timeout to be positive but not the job's default: all
   resolved timeouts are positive exactly when no node falls back on a default of zero.
   */
  lemma TimeoutsPositiveIff(job: JobDefinition, order: seq<string>, nodes: seq<ResolvedNode>)
    requires WellFormed(job) && (forall n :: n in job.nodes ==> n.id in order)
    requires ResolvedAs(job, order, nodes) && |nodes| == |order|
    ensures (forall r :: r in nodes ==> r.timeoutSec >= 1) <==>
      (job.defaults.GetOr(NoDefaults()).timeoutSec != Some(0) || forall n :: n in job.nodes ==> n.timeoutSec.Some?)
  {
    hide WellFormed, ResolvedAs, UniqueIds;
    ValidTimeouts(job);
    SameTimeouts(job, order, nodes);
  }

  lemma ValidTimeouts(job: JobDefinition)
    requires WellFormed(job)
    ensures UniqueIds(job.nodes) && forall n :: n in job.nodes ==> n.timeoutSec != Some(0)
  {
    hide IsValidId, Blank, HasCycle, GraphOf, UniqueIds;
    assert forall n :: n in job.nodes ==> NodeOk(n);
  }

  lemma SameTimeouts(job: JobDefinition, order: seq<string>, nodes: seq<ResolvedNode>)
    requires UniqueIds(job.nodes) && (forall n :: n in job.nodes ==> n.id in order)
    requires ResolvedAs(job, order, nodes) && |nodes| == |order|
    ensures forall r :: r in nodes ==> exists n :: n in job.nodes && r.timeoutSec == TimeoutOf(job, n)
    ensures forall n :: n in job.nodes ==> exists r :: r in nodes && r.timeoutSec == TimeoutOf(job, n)
  {
    hide ResolvedAs, TimeoutOf, UniqueIds;
    forall r | r in nodes ensures exists n :: n in job.nodes && r.timeoutSec == TimeoutOf(job, n) {
      var p :| 0 <= p < |nodes| && nodes[p] == r;
      var n := NodeTimeout(job, order, nodes, p);
    }
    forall n | n in job.nodes ensures exists r :: r in nodes && r.timeoutSec == TimeoutOf(job, n) {
      var p :| 0 <= p < |order| && order[p] == n.id;
      var m := NodeTimeout(job, order, nodes, p);
      UniqueNode(job.nodes, n, m);
      assert nodes[p] in nodes;
    }
  }

  // ---- Which definitions can be entered in the tables ----

  /** No own timeout is too large, and the default, where a node falls back on it, is in range. */
  ghost predicate TimeoutsFit(job: JobDefinition) {
    && (forall n :: n in job.nodes && n.timeoutSec.Some? ==> n.timeoutSec.value <= 9_223_372_036_854_775_807)
    && ((job.defaults.Some? && job.defaults.value.timeoutSec.Some? ==>
           1 <= job.defaults.value.timeoutSec.value <= 9_223_372_036_854_775_807)
        || forall n :: n in job.nodes ==> n.timeoutSec.Some?)
  }

  /** The rows of a resolved definition can all be inserted exactly when its timeouts fit. */
  lemma InsertableIff(job: JobDefinition, order: seq<string>, nodes: seq<ResolvedNode>)
    requires WellFormed(job) && (forall n :: n in job.nodes ==> n.id in order)
    requires ResolvedAs(job, order, nodes) && |nodes| == |order|
    ensures RunState.StorableCount(PlanOf(nodes)) == |PlanOf(nodes)| <==> TimeoutsFit(job)
  {
    hide WellFormed, ResolvedAs, UniqueIds, PlanOf, RunState.Storable, TimeoutOf, TimeoutsFit;
    ValidTimeouts(job);
    SameTimeouts(job, order, nodes);
    CountAll(PlanOf(nodes));
    AllStorable(nodes);
    FitIff(job);
  }

  lemma FitIff(job: JobDefinition)
    requires forall n :: n in job.nodes ==> n.timeoutSec != Some(0)
    ensures (forall n :: n in job.nodes ==> RunState.Storable(TimeoutOf(job, n))) <==> TimeoutsFit(job)
  {}

  lemma CountAll(plan: seq<RunState.Task>)
    ensures RunState.StorableCount(plan) == |plan| <==> forall t :: t in plan ==> RunState.Storable(t.timeoutSec)
  {
    var n := RunState.StorableCount(plan);
    assert n < |plan| ==> plan[n] in plan;
  }

  lemma AllStorable(nodes: seq<ResolvedNode>)
    ensures (forall t :: t in PlanOf(nodes) ==> RunState.Storable(t.timeoutSec)) <==>
      (forall r :: r in nodes ==> RunState.Storable(r.timeoutSec))
  {
    var plan := PlanOf(nodes);
    forall i | 0 <= i < |nodes|
      ensures plan[i] in plan && nodes[i] in nodes && plan[i].timeoutSec == nodes[i].timeoutSec {}
  }

  ghost predicate TimeoutFits(job: JobDefinition, id: string) {
    exists n :: n in job.nodes && n.id == id && RunState.Storable(TimeoutOf(job, n))
  }

  /** `names` are the ids of `order` before the first one whose timeout the table refuses. */
  ghost predicate StubOf(job: JobDefinition, order: seq<string>, names: set<string>) {
    exists m ::
      && 0 <= m < |order| && !TimeoutFits(job, order[m])
      && (forall i :: 0 <= i < m ==> TimeoutFits(job, order[i]))
      && forall x :: x in names <==> x in order[..m]
  }

  /** The rows that get inserted when not all can be: those before the first refused one in the order. */
  lemma StubIsPrefix(job: JobDefinition, order: seq<string>, nodes: seq<ResolvedNode>)
    requires UniqueIds(job.nodes) && ResolvedAs(job, order, nodes) && |nodes| == |order|
    requires RunState.StorableCount(PlanOf(nodes)) < |nodes|
    ensures StubOf(job, order, RunState.Ids(PlanOf(nodes), RunState.StorableCount(PlanOf(nodes))))
  {
    hide RunState.Ids, ResolvedAs, UniqueIds, TimeoutFits, RunState.Storable, PlanOf;
    var plan := PlanOf(nodes);
    var m := RunState.StorableCount(plan);
    PlanIds(job, order, nodes, m);
    forall p | 0 <= p < |order| ensures PlanFits(job, order, nodes, p) { PlanTimeout(job, order, nodes, p); }
    assert forall p :: 0 <= p < |order| ==> PlanFits(job, order, nodes, p);
    forall i | 0 <= i < m ensures TimeoutFits(job, order[i]) { assert PlanFits(job, order, nodes, i); }
    assert PlanFits(job, order, nodes, m);
  }

  ghost predicate PlanFits(job: JobDefinition, order: seq<string>, nodes: seq<ResolvedNode>, p: nat)
    requires p < |order| == |nodes|
  {
    && |PlanOf(nodes)| == |nodes|
    && (TimeoutFits(job, order[p]) <==> RunState.Storable(PlanOf(nodes)[p].timeoutSec))
  }

  lemma PlanTimeout(job: JobDefinition, order: seq<string>, nodes: seq<ResolvedNode>, p: nat)
    requires UniqueIds(job.nodes) && ResolvedAs(job, order, nodes) && p < |nodes| == |order|
    ensures PlanFits(job, order, nodes, p)
  {
    hide UniqueIds, TimeoutFits, RunState.Storable, TimeoutOf, ResolvedAs;
    var n := NodeTimeout(job, order, nodes, p);
    FitsOf(job, n);
  }

  lemma FitsOf(job: JobDefinition, n: NodeDefinition)
    requires UniqueIds(job.nodes) && n in job.nodes
    ensures TimeoutFits(job, n.id) <==> RunState.Storable(TimeoutOf(job, n))
  {
    hide UniqueIds, TimeoutOf;
    forall m | m in job.nodes && m.id == n.id ensures m == n { UniqueNode(job.nodes, m, n); }
  }

  /** `names` are the nodes that come before the first one with a timeout out of range. */
  ghost predicate Leftover(job: JobDefinition, names: set<string>) {
    && GraphOf(job.nodes).Valid()
    && exists order :: KahnOrder(GraphOf(job.nodes), order) && StubOf(job, order, names)
  }

  /** Whether all rows of a resolved definition can be inserted, and which ones can when not all can be. */
  lemma RowsOfResolved(job: JobDefinition, nodes: seq<ResolvedNode>)
    requires WellFormed(job) && ResolvedInOrder(job, nodes)
    ensures var plan := PlanOf(nodes); var n := RunState.StorableCount(plan);
      && |plan| == |nodes|
      && (n == |plan| <==> TimeoutsFit(job))
      && (n < |plan| ==> Leftover(job, RunState.Ids(plan, n)))
  {
    ValidTimeouts(job);
    hide WellFormed, StubOf, UniqueIds, ResolvedAs, TimeoutsFit, RunState.Ids;
    var order :| KahnOrder(GraphOf(job.nodes), order) && |order| == |nodes| && ResolvedAs(job, order, nodes);
    OrderNames(job, order);
    hide KahnOrder, GraphOf;
    InsertableIff(job, order, nodes);
    if RunState.StorableCount(PlanOf(nodes)) < |nodes| { StubIsPrefix(job, order, nodes); }
  }

  lemma OrderNames(job: JobDefinition, order: seq<string>)
    requires GraphOf(job.nodes).Valid() && KahnOrder(GraphOf(job.nodes), order)
    ensures forall n :: n in job.nodes ==> n.id in order
  {
    forall n | n in job.nodes ensures n.id in order {
      assert n.id in Ids(job.nodes);
    }
  }

  // ---- What is started, in terms of the definition alone ----

  /** `t` carries out `n`: its dependencies, target and timeout are the node's, with the job's defaults behind. */
  ghost predicate CarriesOut(job: JobDefinition, n: NodeDefinition, t: RunState.Task) {
    && t.id == n.id
    && (forall d :: d in t.deps <==> n.dependsOn.Some? && d in n.dependsOn.value)
    && t.target == (if n.target.Some? then n.target else if job.defaults.Some? then job.defaults.value.target else None)
    && t.timeoutSec ==
         (if n.timeoutSec.Some? then n.timeoutSec.value
          else if job.defaults.Some? && job.defaults.value.timeoutSec.Some? then job.defaults.value.timeoutSec.value
          else 1800)
  }

  /** The plan has one task for each node of the definition, and no others. */
  ghost predicate PlanMatches(job: JobDefinition, plan: seq<RunState.Task>) {
    && |plan| == |job.nodes|
    && (forall n :: n in job.nodes ==> exists t :: t in plan && CarriesOut(job, n, t))
    && (forall t :: t in plan ==> exists n :: n in job.nodes && CarriesOut(job, n, t))
  }

  lemma TaskCarriesOut(job: JobDefinition, n: NodeDefinition, r: ResolvedNode)
    requires Resolves(n, job.defaults.GetOr(NoDefaults()), r)
    ensures CarriesOut(job, n, TaskOf(r))
  {
    hide Trim;
  }

  lemma PlanTaskAt(job: JobDefinition, order: seq<string>, nodes: seq<ResolvedNode>, p: nat) returns (n: NodeDefinition)
    requires ResolvedAs(job, order, nodes) && p < |nodes|
    ensures n in job.nodes && n.id == order[p] && |PlanOf(nodes)| == |nodes|
    ensures CarriesOut(job, n, PlanOf(nodes)[p])
  {
    assert ResolvedFrom(job, order[p], nodes[p]);
    n :| n in job.nodes && n.id == order[p] && Resolves(n, job.defaults.GetOr(NoDefaults()), nodes[p]);
    TaskCarriesOut(job, n, nodes[p]);
    hide Resolves, CarriesOut;
  }

  lemma PlanOfMatches(job: JobDefinition, nodes: seq<ResolvedNode>)
    requires UniqueIds(job.nodes) && ResolvedInOrder(job, nodes)
    ensures PlanMatches(job, PlanOf(nodes))
  {
    hide ResolvedAs, CarriesOut, UniqueIds;
    var order :| KahnOrder(GraphOf(job.nodes), order) && |order| == |nodes| && ResolvedAs(job, order, nodes);
    IdsBound(job.nodes);
    DistinctCount(order, Kahn.Ids(job.nodes));
    OrderNames(job, order);
    hide KahnOrder, GraphOf;
    var plan := PlanOf(nodes);
    forall t | t in plan ensures exists n :: n in job.nodes && CarriesOut(job, n, t) {
      var p :| 0 <= p < |plan| && plan[p] == t;
      var n := PlanTaskAt(job, order, nodes, p);
    }
    forall n | n in job.nodes ensures exists t :: t in plan && CarriesOut(job, n, t) {
      var p :| 0 <= p < |order| && order[p] == n.id;
      var m := PlanTaskAt(job, order, nodes, p);
      UniqueNode(job.nodes, n, m);
      assert plan[p] in plan;
    }
  }

  /** What each node is resolved to: one resolved node for each, in which its settings come first. */
  ghost predicate EachResolved(job: JobDefinition, nodes: seq<ResolvedNode>) {
    && |nodes| == |job.nodes|
    && forall n :: n in job.nodes ==> exists r :: r in nodes && Resolves(n, job.defaults.GetOr(NoDefaults()), r)
  }

  lemma AllResolved(job: JobDefinition, nodes: seq<ResolvedNode>)
    requires UniqueIds(job.nodes) && ResolvedInOrder(job, nodes)
    ensures EachResolved(job, nodes)
  {
    hide Resolves, UniqueIds;
    var order :| KahnOrder(GraphOf(job.nodes), order) && |order| == |nodes| && ResolvedAs(job, order, nodes);
    IdsBound(job.nodes);
    DistinctCount(order, Kahn.Ids(job.nodes));
    OrderNames(job, order);
    hide KahnOrder, GraphOf;
    forall n | n in job.nodes ensures exists r :: r in nodes && Resolves(n, job.defaults.GetOr(NoDefaults()), r) {
      var p :| 0 <= p < |order| && order[p] == n.id;
      assert ResolvedFrom(job, order[p], nodes[p]);
      var m :| m in job.nodes && m.id == order[p] && Resolves(m, job.defaults.GetOr(NoDefaults()), nodes[p]);
      UniqueNode(job.nodes, n, m);
      assert nodes[p] in nodes;
    }
  }
}
