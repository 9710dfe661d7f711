/**
 The topological sort behind every job definition: Kahn's algorithm with counted
 duplicate edges and a first-in-first-out work list.
 */
module Kahn {
  import opened Wrappers
  import opened JobTypes
  import opened Graph

  ghost predicate UniqueIds(nodes: seq<NodeDefinition>) {
    forall i, j :: 0 <= i < j < |nodes| ==> nodes[i].id != nodes[j].id
  }

  ghost function Ids(nodes: seq<NodeDefinition>): set<string> {
    set i | 0 <= i < |nodes| :: nodes[i].id
  }

  /** Where the node called `x` stands in the definition. */
  ghost function Index(nodes: seq<NodeDefinition>, x: string): (i: nat)
    requires x in Ids(nodes)
    ensures i < |nodes| && nodes[i].id == x
  {
    var i :| 0 <= i < |nodes| && nodes[i].id == x;
    i
  }

  ghost function GraphOf(nodes: seq<NodeDefinition>): Graph<string> {
    Graph(map x | x in Ids(nodes) :: nodes[Index(nodes, x)].Deps(),
          map x | x in Ids(nodes) :: Index(nodes, x))
  }

  lemma GraphAt(nodes: seq<NodeDefinition>, i: nat)
    requires UniqueIds(nodes) && i < |nodes|
    ensures nodes[i].id in Ids(nodes)
    ensures GraphOf(nodes).deps[nodes[i].id] == nodes[i].Deps() && GraphOf(nodes).rank[nodes[i].id] == i
  {
    assert nodes[i].id in Ids(nodes);
    assert Index(nodes, nodes[i].id) == i;
  }

  /** What `validate` has established before it sorts: ids are unique and dependencies exist. */
  ghost predicate Sortable(nodes: seq<NodeDefinition>) {
    && UniqueIds(nodes)
    && forall n, d :: n in nodes && d in n.Deps() ==> exists m :: m in nodes && m.id == d
  }

  lemma SortableValid(nodes: seq<NodeDefinition>)
    requires Sortable(nodes)
    ensures GraphOf(nodes).Valid()
  {
    var g := GraphOf(nodes);
    forall x, d | x in g.deps && d in g.deps[x] ensures d in g.deps {
      assert nodes[Index(nodes, x)] in nodes;
      assert d in Ids(nodes);
    }
  }

  // ---- The counters of the algorithm ----

  ghost function Elems(s: seq<string>): set<string> { set x | x in s }

  /** How many entries of `deps`, counting repeats, are not in `done`. */
  ghost function Missing(deps: seq<string>, done: set<string>): nat {
    if deps == [] then 0
    else (if deps[0] in done then 0 else 1) + Missing(deps[1..], done)
  }

  lemma {:induction false} MissingZero(deps: seq<string>, done: set<string>)
    ensures Missing(deps, done) == 0 <==> forall d :: d in deps ==> d in done
  {
    if deps != [] { MissingZero(deps[1..], done); }
  }

  lemma {:induction false} MissingAll(deps: seq<string>)
    ensures Missing(deps, {}) == |deps|
  {
    if deps != [] { MissingAll(deps[1..]); }
  }

  /** Emitting `u` settles exactly its repeats in `deps`. */
  lemma {:induction false} MissingStep(deps: seq<string>, done: set<string>, u: string)
    requires u !in done
    ensures Missing(deps, done) == Missing(deps, done + {u}) + multiset(deps)[u]
  {
    if deps != [] {
      MissingStep(deps[1..], done, u);
      assert deps == [deps[0]] + deps[1..];
    }
  }

  /**
   Each counter is the number of a node's edges, counting repeats, from nodes not yet
   emitted, plus those of the last emitted node still to be subtracted (`pending`).
   */
  ghost predicate Counting(g: Graph<string>, indegree: map<string, nat>, done: set<string>, pending: seq<string>) {
    && indegree.Keys == g.deps.Keys
    && forall v :: v in g.deps ==> indegree[v] == Missing(g.deps[v], done) + multiset(pending)[v]
  }

  /** Emitted and queued ids are distinct, and are exactly those whose counter is zero. */
  ghost predicate Worklist(g: Graph<string>, indegree: map<string, nat>, all: seq<string>)
    requires indegree.Keys == g.deps.Keys
  {
    && Distinct(all)
    && forall v :: v in all <==> v in g.deps && indegree[v] == 0
  }

  /** `all` lists ids in the order in which `order` enabled them. */
  ghost predicate Ranked(g: Graph<string>, order: seq<string>, all: seq<string>)
    requires g.Valid()
  {
    && (forall x :: x in all ==> x in g.deps)
    && (forall p {:trigger EnabledAt(g.deps[all[p]], order)} ::
          0 <= p < |all| ==> EnabledAt(g.deps[all[p]], order) <= p)
    && (forall p, q {:trigger Precedes(g, order, all[p], all[q])} ::
          0 <= p < q < |all| ==> Precedes(g, order, all[p], all[q]))
  }

  /** Every id of `all` was enabled before the end of `order`. */
  ghost predicate EnabledBefore(g: Graph<string>, order: seq<string>, x: string)
    requires x in g.deps
  {
    EnabledAt(g.deps[x], order) < |order|
  }

  lemma AppendRanked(g: Graph<string>, order: seq<string>, all: seq<string>, v: string)
    requires g.Valid() && Ranked(g, order, all) && v in g.deps && |order| <= |all|
    requires EnabledAt(g.deps[v], order) == |order|
    requires forall x :: x in all ==> EnabledBefore(g, order, x) || g.rank[x] < g.rank[v]
    ensures Ranked(g, order, all + [v])
  {
    var more := all + [v];
    forall p, q | 0 <= p < q < |more| ensures Precedes(g, order, more[p], more[q]) {
      if q < |all| {
        assert Precedes(g, order, all[p], all[q]);
      } else {
        assert more[p] == all[p] && all[p] in all;
      }
    }
  }

  /** Emitting a node that nothing listed depends on leaves the listing ranked. */
  lemma EmitRanked(g: Graph<string>, order: seq<string>, all: seq<string>, u: string)
    requires g.Valid() && Ranked(g, order, all)
    requires forall x :: x in all ==> u !in g.deps[x]
    ensures Ranked(g, order + [u], all)
    ensures forall x :: x in all ==> EnabledBefore(g, order + [u], x)
  {
    var more := order + [u];
    forall x | x in all ensures EnabledAt(g.deps[x], more) == EnabledAt(g.deps[x], order) {
      EnabledAtUnique(g.deps[x], more, EnabledAt(g.deps[x], order));
    }
    forall p, q | 0 <= p < q < |all| ensures Precedes(g, more, all[p], all[q]) {
      assert Precedes(g, order, all[p], all[q]);
    }
  }

  // ---- The adjacency lists ----

  ghost function Repeat(x: string, n: nat): (s: seq<string>)
    ensures |s| == n && forall i :: 0 <= i < n ==> s[i] == x
  {
    seq(n, _ => x)
  }

  lemma RepeatNext(front: seq<string>, x: string, n: nat)
    ensures front + Repeat(x, n) + [x] == front + Repeat(x, n + 1)
  {}

  lemma {:induction false} RepeatCount(x: string, n: nat)
    ensures multiset(Repeat(x, n)) == multiset{}[x := n]
  {
    if n > 0 {
      RepeatCount(x, n - 1);
      assert Repeat(x, n) == Repeat(x, n - 1) + [x];
    } else {
      assert Repeat(x, 0) == [];
    }
  }

  /** The adjacency list of `u`: each node once per mention of `u`, in definition order. */
  ghost function Outgoing(nodes: seq<NodeDefinition>, u: string): seq<string> {
    if nodes == [] then []
    else
      var last := nodes[|nodes| - 1];
      Outgoing(nodes[..|nodes| - 1], u) + Repeat(last.id, multiset(last.Deps())[u])
  }

  lemma OutgoingNext(nodes: seq<NodeDefinition>, i: nat, u: string)
    requires i < |nodes|
    ensures Outgoing(nodes[..i + 1], u)
         == Outgoing(nodes[..i], u) + Repeat(nodes[i].id, multiset(nodes[i].Deps())[u])
  {
    assert nodes[..i + 1][..i] == nodes[..i];
  }

  /** Adjacency lists follow the definition order. */
  ghost predicate InRankOrder(g: Graph<string>, list: seq<string>) {
    && (forall x :: x in list ==> x in g.rank)
    && (forall i, j :: 0 <= i < j < |list| ==> g.rank[list[i]] <= g.rank[list[j]])
  }

  lemma RanksNext(g: Graph<string>, list: seq<string>, x: string, k: nat)
    requires InRankOrder(g, list) && x in g.rank && forall y :: y in list ==> g.rank[y] < g.rank[x]
    ensures InRankOrder(g, list + Repeat(x, k))
    ensures forall y :: y in list + Repeat(x, k) ==> g.rank[y] <= g.rank[x]
  {
    hide Repeat;
  }

  lemma {:induction false} OutgoingRanks(nodes: seq<NodeDefinition>, g: Graph<string>, n: nat, u: string)
    requires UniqueIds(nodes) && n <= |nodes| && g == GraphOf(nodes)
    ensures InRankOrder(g, Outgoing(nodes[..n], u))
    ensures forall x :: x in Outgoing(nodes[..n], u) ==> g.rank[x] < n
  {
    if n > 0 {
      OutgoingRanks(nodes, g, n - 1, u);
      GraphAt(nodes, n - 1);
      OutgoingNext(nodes, n - 1, u);
      hide Outgoing, GraphOf, UniqueIds, InRankOrder, Repeat;
      RanksNext(g, Outgoing(nodes[..n - 1], u), nodes[n - 1].id, multiset(nodes[n - 1].Deps())[u]);
    }
  }

  /** Each node occurs in the adjacency list of `u` as often as it mentions `u`. */
  lemma {:induction false} OutgoingCount(nodes: seq<NodeDefinition>, n: nat, u: string, i: nat)
    requires UniqueIds(nodes) && n <= |nodes| && i < |nodes|
    ensures multiset(Outgoing(nodes[..n], u))[nodes[i].id]
         == if i < n then multiset(nodes[i].Deps())[u] else 0
  {
    if n > 0 {
      OutgoingCount(nodes, n - 1, u, i);
      OutgoingNext(nodes, n - 1, u);
      RepeatCount(nodes[n - 1].id, multiset(nodes[n - 1].Deps())[u]);
      hide Outgoing, Repeat;
    }
  }

  /** The adjacency list of `u` in terms of the graph. */
  lemma OutgoingAll(nodes: seq<NodeDefinition>, u: string)
    requires UniqueIds(nodes)
    ensures InRankOrder(GraphOf(nodes), Outgoing(nodes, u))
    ensures forall v :: v in GraphOf(nodes).deps ==>
      multiset(Outgoing(nodes, u))[v] == multiset(GraphOf(nodes).deps[v])[u]
  {
    var g := GraphOf(nodes);
    assert nodes[..|nodes|] == nodes;
    OutgoingRanks(nodes, g, |nodes|, u);
    forall v | v in g.deps ensures multiset(Outgoing(nodes, u))[v] == multiset(g.deps[v])[u] {
      OutgoingCount(nodes, |nodes|, u, Index(nodes, v));
    }
  }

  function Edges(outgoing: map<string, seq<string>>, u: string): seq<string> {
    if u in outgoing then outgoing[u] else []
  }

  ghost predicate Adjacency(nodes: seq<NodeDefinition>, outgoing: map<string, seq<string>>) {
    forall u :: Edges(outgoing, u) == Outgoing(nodes, u)
  }

  method InitialCounts(nodes: seq<NodeDefinition>)
    returns (indegree: map<string, nat>, outgoing: map<string, seq<string>>)
    requires UniqueIds(nodes)
    ensures Counting(GraphOf(nodes), indegree, {}, []) && forall u :: Edges(outgoing, u) == []
  {
    indegree, outgoing := map[], map[];
    for i := 0 to |nodes|
      invariant indegree.Keys == Ids(nodes[..i])
      invariant forall m :: 0 <= m < i ==> nodes[m].id in indegree && indegree[nodes[m].id] == |nodes[m].Deps()|
      invariant forall u :: u in outgoing ==> outgoing[u] == []
    {
      assert Ids(nodes[..i + 1]) == Ids(nodes[..i]) + {nodes[i].id};
      indegree := indegree[nodes[i].id := |nodes[i].Deps()|];
      var id := nodes[i].id;
      assert Edges(outgoing, id) == [];
      outgoing := outgoing[id := Edges(outgoing, id)];
    }
    assert nodes[..|nodes|] == nodes;
    forall x | x in Ids(nodes) ensures indegree[x] == Missing(GraphOf(nodes).deps[x], {}) {
      MissingAll(nodes[Index(nodes, x)].Deps());
    }
  }

  /** The counters and adjacency lists before the first node is emitted. */
  method BuildEdges(nodes: seq<NodeDefinition>)
    returns (indegree: map<string, nat>, outgoing: map<string, seq<string>>)
    requires Sortable(nodes)
    ensures Counting(GraphOf(nodes), indegree, {}, []) && Adjacency(nodes, outgoing)
  {
    indegree, outgoing := InitialCounts(nodes);
    for i := 0 to |nodes|
      invariant forall u :: Edges(outgoing, u) == Outgoing(nodes[..i], u)
    {
      ghost var before := outgoing;
      outgoing := AddEdges(nodes[i], outgoing);
      forall u ensures Edges(outgoing, u) == Outgoing(nodes[..i + 1], u) { OutgoingNext(nodes, i, u); }
    }
    assert nodes[..|nodes|] == nodes;
  }

  lemma EdgeAdded(before: map<string, seq<string>>, outgoing: map<string, seq<string>>, id: string, dep: string,
                  deps: seq<string>)
    requires forall u :: Edges(outgoing, u) == Edges(before, u) + Repeat(id, multiset(deps)[u])
    ensures var more := outgoing[dep := Edges(outgoing, dep) + [id]];
      forall u :: Edges(more, u) == Edges(before, u) + Repeat(id, multiset(deps + [dep])[u])
  {
    hide Repeat;
    var more := outgoing[dep := Edges(outgoing, dep) + [id]];
    MentionedNext(deps, dep);
    RepeatNext(Edges(before, dep), id, multiset(deps)[dep]);
    assert Edges(more, dep) == Edges(outgoing, dep) + [id];
    forall u ensures Edges(more, u) == Edges(before, u) + Repeat(id, multiset(deps + [dep])[u]) {
      assert u != dep ==> Edges(more, u) == Edges(outgoing, u);
      hide Edges;
    }
  }

  lemma MentionedNext(deps: seq<string>, dep: string)
    ensures multiset(deps + [dep])[dep] == multiset(deps)[dep] + 1
    ensures forall u :: u != dep ==> multiset(deps + [dep])[u] == multiset(deps)[u]
  {}

  /** Enter `node` in the adjacency list of each of its dependencies. */
  method AddEdges(node: NodeDefinition, before: map<string, seq<string>>) returns (outgoing: map<string, seq<string>>)
    ensures forall u :: Edges(outgoing, u) == Edges(before, u) + Repeat(node.id, multiset(node.Deps())[u])
  {
    outgoing := before;
    var deps := node.Deps();
    for t := 0 to |deps|
      invariant forall u :: Edges(outgoing, u) == Edges(before, u) + Repeat(node.id, multiset(deps[..t])[u])
    {
      var dep := deps[t];
      assert deps[..t + 1] == deps[..t] + [dep];
      EdgeAdded(before, outgoing, node.id, dep, deps[..t]);
      outgoing := outgoing[dep := Edges(outgoing, dep) + [node.id]];
    }
    assert deps[..|deps|] == deps;
  }

  // ---- The main loop ----

  /** The state while the edges of the last emitted node are being subtracted; `t` entries of its list are done. */
  ghost predicate Releasing(g: Graph<string>, indegree: map<string, nat>, order: seq<string>, queue: seq<string>,
                            list: seq<string>, t: nat)
  {
    && g.Valid() && t <= |list|
    && Counting(g, indegree, Elems(order), list[t..])
    && Worklist(g, indegree, order + queue)
    && Ranked(g, order, order + queue)
    && forall x :: x in order + queue ==> EnabledBefore(g, order, x) || x in list[..t]
  }

  /** The state between two rounds of the main loop. */
  ghost predicate Looping(g: Graph<string>, indegree: map<string, nat>, order: seq<string>, queue: seq<string>) {
    && g.Valid()
    && Counting(g, indegree, Elems(order), [])
    && Worklist(g, indegree, order + queue)
    && Ranked(g, order, order + queue)
  }

  /** Subtract the edges of the node just emitted; queue the nodes whose counter drops to zero. */
  method Release(nextNodes: seq<string>, indegree0: map<string, nat>, queue0: seq<string>,
                 ghost g: Graph<string>, ghost order: seq<string>)
    returns (indegree: map<string, nat>, queue: seq<string>)
    requires Releasing(g, indegree0, order, queue0, nextNodes, 0) && InRankOrder(g, nextNodes)
    requires order != [] && forall x :: x in nextNodes ==> x in g.deps && order[|order| - 1] in g.deps[x]
    ensures Releasing(g, indegree, order, queue, nextNodes, |nextNodes|)
  {
    hide Ranked, Worklist;
    indegree, queue := indegree0, queue0;
    for t := 0 to |nextNodes|
      invariant Releasing(g, indegree, order, queue, nextNodes, t)
    {
      var next := nextNodes[t];
      if next in indegree {
        CountDown(g, indegree, Elems(order), nextNodes[t..]);
        ListDown(g, indegree, order, queue, nextNodes, t);
        indegree := indegree[next := indegree[next] - 1];
        if indegree[next] == 0 {
          queue := queue + [next];
        }
      }
    }
  }

  /** The counter of a pending node is positive, so the subtraction never underflows. */
  lemma CountDown(g: Graph<string>, indegree: map<string, nat>, done: set<string>, pending: seq<string>)
    requires Counting(g, indegree, done, pending) && pending != [] && pending[0] in g.deps
    ensures indegree[pending[0]] > 0
    ensures Counting(g, indegree[pending[0] := indegree[pending[0]] - 1], done, pending[1..])
  {
    assert pending == [pending[0]] + pending[1..];
  }

  lemma ListDown(g: Graph<string>, indegree: map<string, nat>, order: seq<string>, queue: seq<string>,
                 list: seq<string>, t: nat)
    requires Releasing(g, indegree, order, queue, list, t) && InRankOrder(g, list) && t < |list|
    requires order != [] && list[t] in g.deps && order[|order| - 1] in g.deps[list[t]]
    requires indegree[list[t]] > 0
    requires Counting(g, indegree[list[t] := indegree[list[t]] - 1], Elems(order), list[t..][1..])
    ensures var less := indegree[list[t] := indegree[list[t]] - 1];
      Releasing(g, less, order, if less[list[t]] == 0 then queue + [list[t]] else queue, list, t + 1)
  {
    hide InRankOrder, Ranked, Precedes, Worklist, Missing, Elems;
    var next, all := list[t], order + queue;
    assert list[t..][1..] == list[t + 1..];
    assert list[..t + 1] == list[..t] + [next];
    Listed(g, indegree, all, next);
    if indegree[next] == 1 {
      PushBack(order, queue, next);
      RanksBelow(g, list, t, order, all);
      AppendRanked(g, order, all, next);
    }
  }

  lemma PushBack(order: seq<string>, queue: seq<string>, x: string)
    ensures order + (queue + [x]) == order + queue + [x]
  {}

  /** Counting a listed node down: nothing changes until it reaches zero, then it joins the list. */
  lemma Listed(g: Graph<string>, indegree: map<string, nat>, all: seq<string>, next: string)
    requires indegree.Keys == g.deps.Keys && Worklist(g, indegree, all) && next in g.deps && indegree[next] > 0
    ensures next !in all && forall x :: x in all ==> x in g.deps
    ensures indegree[next] > 1 ==> Worklist(g, indegree[next := indegree[next] - 1], all)
    ensures indegree[next] == 1 ==> Worklist(g, indegree[next := 0], all + [next])
  {}

  /** A node first reached at position `t` of the list ranks above the listed ones reached earlier. */
  lemma RanksBelow(g: Graph<string>, list: seq<string>, t: nat, order: seq<string>, all: seq<string>)
    requires g.Valid() && t < |list| && InRankOrder(g, list) && list[t] !in all
    requires forall x :: x in all ==> x in g.deps && (EnabledBefore(g, order, x) || x in list[..t])
    ensures forall x :: x in all ==> EnabledBefore(g, order, x) || g.rank[x] < g.rank[list[t]]
  {
    forall x | x in all && x in list[..t] ensures g.rank[x] < g.rank[list[t]] {
      var i :| 0 <= i < t && list[i] == x;
      assert g.rank[list[i]] <= g.rank[list[t]];
    }
  }

  /** The nodes without dependencies, in definition order. */
  method InitialQueue(nodes: seq<NodeDefinition>, indegree: map<string, nat>) returns (queue: seq<string>)
    requires Sortable(nodes) && Counting(GraphOf(nodes), indegree, {}, [])
    ensures Looping(GraphOf(nodes), indegree, [], queue)
  {
    SortableValid(nodes);
    queue := [];
    for i := 0 to |nodes|
      invariant RootsBelow(GraphOf(nodes), indegree, queue, i)
    {
      NextRoot(nodes, indegree, queue, i);
      hide RootsBelow;
      var id := nodes[i].id;
      if (if id in indegree then indegree[id] else 0) == 0 {
        queue := queue + [id];
      }
    }
    AllRoots(nodes, indegree, queue);
  }

  /** The queue holds exactly the nodes without dependencies among the first `n`, in order. */
  ghost predicate RootsBelow(g: Graph<string>, indegree: map<string, nat>, queue: seq<string>, n: nat) {
    && g.Valid() && indegree.Keys == g.deps.Keys
    && Distinct(queue) && Ranked(g, [], queue)
    && forall v :: v in queue <==> v in g.deps && indegree[v] == 0 && g.rank[v] < n
  }

  lemma NextRoot(nodes: seq<NodeDefinition>, indegree: map<string, nat>, queue: seq<string>, i: nat)
    requires UniqueIds(nodes) && i < |nodes| && RootsBelow(GraphOf(nodes), indegree, queue, i)
    ensures nodes[i].id in indegree
    ensures var id := nodes[i].id;
      RootsBelow(GraphOf(nodes), indegree, if indegree[id] == 0 then queue + [id] else queue, i + 1)
  {
    hide RootsBelow;
    GraphAt(nodes, i);
    hide GraphOf, UniqueIds;
    NextRootOf(GraphOf(nodes), indegree, queue, nodes[i].id);
  }

  lemma NextRootOf(g: Graph<string>, indegree: map<string, nat>, queue: seq<string>, id: string)
    requires id in g.deps && id in g.rank && RootsBelow(g, indegree, queue, g.rank[id])
    ensures id in indegree
    ensures RootsBelow(g, indegree, if indegree[id] == 0 then queue + [id] else queue, g.rank[id] + 1)
  {
    hide Ranked;
    assert forall v :: v in g.deps && g.rank[v] == g.rank[id] ==> v == id;
    if indegree[id] == 0 {
      AppendRanked(g, [], queue, id);
    }
  }

  lemma AllRoots(nodes: seq<NodeDefinition>, indegree: map<string, nat>, queue: seq<string>)
    requires Counting(GraphOf(nodes), indegree, {}, []) && RootsBelow(GraphOf(nodes), indegree, queue, |nodes|)
    ensures Looping(GraphOf(nodes), indegree, [], queue)
  {
    assert Elems([]) == {} && [] + queue == queue;
  }

  // ---- The result in terms of the definition alone ----

  /** Some node called `x` lists `d` among its dependencies. */
  ghost predicate Mentions(nodes: seq<NodeDefinition>, x: string, d: string) {
    exists n :: n in nodes && n.id == x && n.dependsOn.Some? && d in n.dependsOn.value
  }

  /** The ids lead from mention to mention back to the first one. */
  ghost predicate MentionCycle(nodes: seq<NodeDefinition>, path: seq<string>) {
    && |path| >= 2 && path[0] == path[|path| - 1]
    && forall i, j :: 0 <= i && j == i + 1 && j < |path| ==> Mentions(nodes, path[i], path[j])
  }

  /** `x` occurs strictly before `y`. */
  ghost predicate Before(order: seq<string>, x: string, y: string) {
    exists p, q :: 0 <= p < q < |order| && order[p] == x && order[q] == y
  }

  /** Every node's id occurs once and nothing else does, every listed dependency before the node that lists it. */
  ghost predicate Executable(nodes: seq<NodeDefinition>, order: seq<string>) {
    && |order| == |nodes|
    && (forall i, j :: 0 <= i < j < |order| ==> order[i] != order[j])
    && (forall n :: n in nodes ==> n.id in order)
    && forall n, t :: n in nodes && n.dependsOn.Some? && 0 <= t < |n.dependsOn.value| ==>
         Before(order, n.dependsOn.value[t], n.id)
  }

  lemma MentionIsEdge(nodes: seq<NodeDefinition>, x: string, d: string)
    requires Sortable(nodes)
    ensures Mentions(nodes, x, d) <==> x in GraphOf(nodes).deps && d in GraphOf(nodes).deps[x]
  {
    var g := GraphOf(nodes);
    forall n | n in nodes ensures n.id in g.deps && g.deps[n.id] == n.Deps() {
      var i :| 0 <= i < |nodes| && nodes[i] == n;
      GraphAt(nodes, i);
    }
    if x in g.deps {
      assert nodes[Index(nodes, x)] in nodes;
    }
    hide GraphOf, UniqueIds;
  }

  lemma MentionCycleIff(nodes: seq<NodeDefinition>)
    requires Sortable(nodes)
    ensures HasCycle(GraphOf(nodes)) <==> exists path :: MentionCycle(nodes, path)
  {
    var g := GraphOf(nodes);
    SortableValid(nodes);
    forall x, d ensures Mentions(nodes, x, d) <==> x in g.deps && d in g.deps[x] { MentionIsEdge(nodes, x, d); }
    hide GraphOf, Mentions, Sortable;
    forall path ensures IsCycle(g, path) <==> MentionCycle(nodes, path) { SameCycle(g, nodes, path); }
  }

  lemma SameCycle(g: Graph<string>, nodes: seq<NodeDefinition>, path: seq<string>)
    requires forall x, d :: Mentions(nodes, x, d) <==> x in g.deps && d in g.deps[x]
    ensures IsCycle(g, path) <==> MentionCycle(nodes, path)
  {
    hide Mentions;
    if MentionCycle(nodes, path) {
      forall x | x in path ensures x in g.deps {
        var i :| 0 <= i < |path| && path[i] == x;
        var j := if i == |path| - 1 then 0 else i;
        assert Mentions(nodes, path[j], path[j + 1]);
      }
      forall i, j | 0 <= i && j == i + 1 && j < |path| ensures path[j] in g.deps[path[i]] {
        assert Mentions(nodes, path[i], path[j]);
      }
    }
  }

  lemma OrderIsExecutable(nodes: seq<NodeDefinition>, order: seq<string>)
    requires Sortable(nodes) && GraphOf(nodes).Valid() && KahnOrder(GraphOf(nodes), order)
    ensures Executable(nodes, order)
  {
    var g := GraphOf(nodes);
    IdsBound(nodes);
    DistinctCount(order, Ids(nodes));
    forall n, t | n in nodes && n.dependsOn.Some? && 0 <= t < |n.dependsOn.value|
      ensures Before(order, n.dependsOn.value[t], n.id)
    {
      var d := n.dependsOn.value[t];
      assert Mentions(nodes, n.id, d);
      MentionIsEdge(nodes, n.id, d);
      assert n.id in order;
      var q :| 0 <= q < |order| && order[q] == n.id;
      var p := DependencyAt(g, order, q, d);
    }
    forall n | n in nodes ensures n.id in order { assert n.id in Ids(nodes); }
  }

  /** Kahn's algorithm: the unique `KahnOrder` when there is one, an error exactly when there is a cycle. */
  method TopologicalOrder(nodes: seq<NodeDefinition>) returns (r: Result<seq<string>, string>)
    requires Sortable(nodes)
    ensures GraphOf(nodes).Valid()
    ensures r.Ok? ==> KahnOrder(GraphOf(nodes), r.value)
    ensures r.Ok? <==> !HasCycle(GraphOf(nodes))
    ensures r.Ok? ==> Executable(nodes, r.value)
    ensures r.Ok? <==> !exists path :: MentionCycle(nodes, path)
  {
    SortableValid(nodes);
    MentionCycleIff(nodes);
    hide Counting, Worklist, Ranked, Releasing, InRankOrder, KahnOrder, HasCycle, Outgoing, GraphOf, MentionCycle,
      Executable;
    ghost var g := GraphOf(nodes);
    var indegree, outgoing := BuildEdges(nodes);
    var queue := InitialQueue(nodes, indegree);
    var order: seq<string> := [];

    while queue != []
      invariant Looping(g, indegree, order, queue)
      decreases |nodes| - |order|
    {
      var nodeId := queue[0];
      var nextNodes := Edges(outgoing, nodeId);
      EmitStep(nodes, g, indegree, order, queue);
      queue := queue[1..];
      order := order + [nodeId];
      indegree, queue := Release(nextNodes, indegree, queue, g, order);
      Released(g, indegree, order, queue, nextNodes);
    }

    Outcome(nodes, g, indegree, order);
    if |order| != |nodes| {
      return Err("node dependency graph contains a cycle");
    }
    OrderIsExecutable(nodes, order);
    return Ok(order);
  }

  /** All edges subtracted: every listed node was enabled by the nodes emitted so far. */
  lemma Released(g: Graph<string>, indegree: map<string, nat>, order: seq<string>, queue: seq<string>,
                 list: seq<string>)
    requires Releasing(g, indegree, order, queue, list, |list|)
    ensures Looping(g, indegree, order, queue)
  {
    assert list[|list|..] == [];
  }

  /** Popping the head of the queue starts the subtraction of its edges. */
  lemma EmitStep(nodes: seq<NodeDefinition>, g: Graph<string>, indegree: map<string, nat>,
                 order: seq<string>, queue: seq<string>)
    requires UniqueIds(nodes) && g == GraphOf(nodes) && Looping(g, indegree, order, queue) && queue != []
    ensures var list := Outgoing(nodes, queue[0]);
      && Releasing(g, indegree, order + [queue[0]], queue[1..], list, 0)
      && InRankOrder(g, list)
      && forall x :: x in list ==> x in g.deps && queue[0] in g.deps[x]
    ensures |order| < |nodes|
  {
    hide Ranked, Worklist, InRankOrder, GraphOf, Outgoing;
    var list := Outgoing(nodes, queue[0]);
    EmittedBound(nodes, g, indegree, order, queue);
    Emit(g, indegree, order, queue);
    OutgoingAll(nodes, queue[0]);
    Pending(g, indegree, order, queue[0], list);
    PopPush(order, queue);
    assert list[0..] == list;
  }

  lemma PopPush(order: seq<string>, queue: seq<string>)
    requires queue != []
    ensures order + [queue[0]] + queue[1..] == order + queue
  {}

  /** Moving the head of the queue to the order keeps the listing ranked, and nothing listed waits for it. */
  lemma Emit(g: Graph<string>, indegree: map<string, nat>, order: seq<string>, queue: seq<string>)
    requires g.Valid() && queue != [] && Counting(g, indegree, Elems(order), [])
    requires Worklist(g, indegree, order + queue) && Ranked(g, order, order + queue)
    ensures queue[0] !in order && queue[0] in g.deps
    ensures Ranked(g, order + [queue[0]], order + queue)
    ensures forall x :: x in order + queue ==> EnabledBefore(g, order + [queue[0]], x)
  {
    var all := order + queue;
    assert all[|order|] == queue[0];
    assert forall i :: 0 <= i < |order| ==> all[i] == order[i];
    forall x | x in all ensures queue[0] !in g.deps[x] {
      MissingZero(g.deps[x], Elems(order));
    }
    EmitRanked(g, order, all, queue[0]);
  }

  /** After `u` is emitted, each counter is off by exactly the node's occurrences in the adjacency list of `u`. */
  lemma Pending(g: Graph<string>, indegree: map<string, nat>, order: seq<string>, u: string, nextNodes: seq<string>)
    requires g.Valid() && Counting(g, indegree, Elems(order), []) && u !in order
    requires forall v :: v in g.deps ==> multiset(nextNodes)[v] == multiset(g.deps[v])[u]
    requires forall v :: v in nextNodes ==> v in g.deps
    ensures Counting(g, indegree, Elems(order + [u]), nextNodes)
    ensures forall v :: v in nextNodes ==> u in g.deps[v]
  {
    assert Elems(order + [u]) == Elems(order) + {u};
    forall v | v in g.deps { MissingStep(g.deps[v], Elems(order), u); }
    forall v | v in nextNodes ensures u in g.deps[v] {
      assert multiset(nextNodes)[v] > 0;
      assert multiset(g.deps[v])[u] > 0;
    }
  }

  lemma EmittedBound(nodes: seq<NodeDefinition>, g: Graph<string>, indegree: map<string, nat>,
                     order: seq<string>, queue: seq<string>)
    requires g == GraphOf(nodes) && indegree.Keys == g.deps.Keys && queue != []
    requires Worklist(g, indegree, order + queue)
    ensures |order| < |nodes|
  {
    DistinctBound(order + queue, Ids(nodes));
    IdsBound(nodes);
  }

  lemma {:induction false} IdsBound(nodes: seq<NodeDefinition>)
    ensures |Ids(nodes)| <= |nodes|
    ensures UniqueIds(nodes) ==> |Ids(nodes)| == |nodes|
  {
    if nodes == [] {
      assert Ids(nodes) == {};
    } else {
      var front := nodes[..|nodes| - 1];
      IdsBound(front);
      assert Ids(nodes) == Ids(front) + {nodes[|nodes| - 1].id};
    }
  }

  /** When the queue runs dry, the order is complete, or the nodes left over block one another. */
  lemma Outcome(nodes: seq<NodeDefinition>, g: Graph<string>, indegree: map<string, nat>, order: seq<string>)
    requires UniqueIds(nodes) && g == GraphOf(nodes) && Looping(g, indegree, order, [])
    ensures |order| == |nodes| ==> KahnOrder(g, order) && !HasCycle(g)
    ensures |order| != |nodes| ==> HasCycle(g)
  {
    assert order + [] == order;
    GraphSize(nodes);
    hide Ranked, Counting, HasCycle, KahnOrder, UniqueIds, Worklist, Ids, GraphOf, Graph.Valid, Elems;
    OutcomeOf(g, indegree, order);
  }

  lemma GraphSize(nodes: seq<NodeDefinition>)
    requires UniqueIds(nodes)
    ensures |GraphOf(nodes).deps.Keys| == |nodes|
  {
    IdsBound(nodes);
    assert GraphOf(nodes).deps.Keys == Ids(nodes);
  }

  lemma OutcomeOf(g: Graph<string>, indegree: map<string, nat>, order: seq<string>)
    requires g.Valid() && Counting(g, indegree, Elems(order), [])
    requires Worklist(g, indegree, order) && Ranked(g, order, order)
    ensures |order| == |g.deps.Keys| ==> KahnOrder(g, order) && !HasCycle(g)
    ensures |order| != |g.deps.Keys| ==> HasCycle(g)
  {
    hide Ranked, Counting, HasCycle, Precedes, Graph.Valid;
    if forall x :: x in g.deps ==> x in order {
      DistinctCount(order, g.deps.Keys);
      Complete(g, indegree, order);
      OrderedIsAcyclic(g, order);
    } else {
      var x :| x in g.deps && x !in order;
      LeftOver(g, indegree, order, x);
    }
  }

  lemma LeftOver(g: Graph<string>, indegree: map<string, nat>, order: seq<string>, x: string)
    requires Counting(g, indegree, Elems(order), []) && Worklist(g, indegree, order)
    requires g.Valid() && x in g.deps && x !in order
    ensures HasCycle(g) && |order| < |g.deps.Keys|
  {
    var stuck := g.deps.Keys - Elems(order);
    DistinctBound(order, g.deps.Keys - {x});
    forall y | y in stuck ensures BlockedIn(g, stuck, y) {
      MissingZero(g.deps[y], Elems(order));
      var d :| d in g.deps[y] && d !in Elems(order);
    }
    BlockingIsCyclic(g, stuck);
  }

  lemma Complete(g: Graph<string>, indegree: map<string, nat>, order: seq<string>)
    requires g.Valid() && Counting(g, indegree, Elems(order), [])
    requires Worklist(g, indegree, order) && Ranked(g, order, order)
    requires forall x :: x in g.deps <==> x in order
    ensures KahnOrder(g, order)
  {
    hide Precedes;
    forall p, d | 0 <= p < |order| && d in g.deps[order[p]] ensures d in order[..p] {
      MissingZero(g.deps[order[p]], Elems(order));
      var m :| 0 <= m < |order| && order[m] == d;
      assert m < EnabledAt(g.deps[order[p]], order) <= p;
      assert order[..p][m] == d;
    }
  }
}
