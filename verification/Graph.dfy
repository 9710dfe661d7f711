/**
 Dependency graphs, and the complete specification of the order in which a job's
 nodes are scheduled.

 `KahnOrder` pins the order down to a single answer (`KahnOrderUnique`): nodes come
 in the order in which their last dependency came out, ties in definition order.
 Acyclicity, dependencies-first and level order are consequences.
 */
module Graph {
  /** Node ids with their dependency lists, and the position of each node in its definition. */
  datatype Graph<V(!new, ==)> = Graph(deps: map<V, seq<V>>, rank: map<V, nat>) {
    ghost predicate Valid() {
      && deps.Keys == rank.Keys
      && (forall x, d :: x in deps && d in deps[x] ==> d in deps)
      && (forall x, y :: x in rank && y in rank && rank[x] == rank[y] ==> x == y)
    }
  }

  // ---- Cycles and depth ----

  /** A walk along dependencies: each id depends on the next one. */
  ghost predicate Chain<V(!new)>(g: Graph<V>, path: seq<V>) {
    && (forall x :: x in path ==> x in g.deps)
    && (forall i, j :: 0 <= i && j == i + 1 && j < |path| ==> path[j] in g.deps[path[i]])
  }

  ghost predicate IsCycle<V(!new)>(g: Graph<V>, path: seq<V>) {
    |path| >= 2 && Chain(g, path) && path[0] == path[|path| - 1]
  }

  ghost predicate HasCycle<V(!new)>(g: Graph<V>) {
    exists path :: IsCycle(g, path)
  }

  /** Some walk of `k` dependency steps starts at `x`; the largest such `k` is the depth of `x`. */
  ghost predicate Deep<V(!new)>(g: Graph<V>, x: V, k: nat) {
    exists path :: Chain(g, path) && |path| == k + 1 && path[0] == x
  }

  // ---- The order ----

  ghost predicate Distinct<T>(s: seq<T>) {
    forall i, j :: 0 <= i < j < |s| ==> s[i] != s[j]
  }

  /** One past the last position of `order` that holds a dependency; 0 when there is none. */
  ghost function EnabledAt<V(!new)>(deps: seq<V>, order: seq<V>): (e: nat)
    ensures e <= |order|
    ensures e > 0 ==> order[e - 1] in deps
    ensures forall p :: e <= p < |order| ==> order[p] !in deps
  {
    if order == [] then 0
    else if order[|order| - 1] in deps then |order|
    else EnabledAt(deps, order[..|order| - 1])
  }

  /** `x` goes before `y`: its last dependency came out earlier, or at the same time and `x` is defined first. */
  ghost predicate Precedes<V(!new)>(g: Graph<V>, order: seq<V>, x: V, y: V)
    requires x in g.deps && y in g.deps && g.Valid()
  {
    var ex, ey := EnabledAt(g.deps[x], order), EnabledAt(g.deps[y], order);
    ex < ey || (ex == ey && g.rank[x] < g.rank[y])
  }

  /** Every id exactly once. */
  ghost predicate Lists<V(!new)>(g: Graph<V>, order: seq<V>) {
    Distinct(order) && forall x :: x in order <==> x in g.deps
  }

  ghost predicate DependenciesFirst<V(!new)>(g: Graph<V>, order: seq<V>)
    requires Lists(g, order)
  {
    forall p, d :: 0 <= p < |order| && d in g.deps[order[p]] ==> d in order[..p]
  }

  ghost predicate KahnOrder<V(!new)>(g: Graph<V>, order: seq<V>)
    requires g.Valid()
  {
    && Lists(g, order)
    && DependenciesFirst(g, order)
    && (forall p, q {:trigger Precedes(g, order, order[p], order[q])} ::
          0 <= p < q < |order| ==> Precedes(g, order, order[p], order[q]))
  }

  // ---- Consequences of the order ----

  /** Where a dependency sits in an order that puts dependencies first. */
  lemma DependencyAt<V(!new)>(g: Graph<V>, order: seq<V>, p: nat, d: V) returns (m: nat)
    requires g.Valid() && Lists(g, order) && DependenciesFirst(g, order)
    requires p < |order| && d in g.deps[order[p]]
    ensures m < p && order[m] == d && m < EnabledAt(g.deps[order[p]], order) <= p
  {
    assert d in order[..p];
    m :| 0 <= m < p && order[m] == d;
    var e := EnabledAt(g.deps[order[p]], order);
    assert forall i :: 0 <= i < |order| && order[i] in order[..p] ==> i < p;
  }

  /** A graph with an order that puts dependencies first has no cycle. */
  lemma OrderedIsAcyclic<V(!new)>(g: Graph<V>, order: seq<V>)
    requires g.Valid() && Lists(g, order) && DependenciesFirst(g, order)
    ensures !HasCycle(g)
  {
    forall path | Chain(g, path) && |path| >= 2 ensures path[0] != path[|path| - 1] {
      assert path[0] in order;
      var p :| 0 <= p < |order| && order[p] == path[0];
      var q := WalkDown(g, order, path, p);
    }
  }

  /** Walking along dependencies moves strictly towards the front of the order. */
  lemma {:induction false} WalkDown<V(!new)>(g: Graph<V>, order: seq<V>, path: seq<V>, p: nat) returns (q: nat)
    requires g.Valid() && Lists(g, order) && DependenciesFirst(g, order)
    requires Chain(g, path) && |path| >= 1 && p < |order| && order[p] == path[0]
    ensures q < |order| && order[q] == path[|path| - 1] && (|path| > 1 ==> q < p)
  {
    if |path| == 1 {
      q := p;
    } else {
      assert path[1] in g.deps[path[0]];
      var r := DependencyAt(g, order, p, path[1]);
      q := WalkDown(g, order, path[1..], r);
    }
  }

  /** Level order: a depth reached by one node is reached by every later node. */
  lemma LevelOrder<V(!new)>(g: Graph<V>, order: seq<V>, p: nat, q: nat, k: nat)
    requires g.Valid() && KahnOrder(g, order) && p <= q < |order|
    requires Deep(g, order[p], k)
    ensures Deep(g, order[q], k)
  {
    var path :| Chain(g, path) && |path| == k + 1 && path[0] == order[p];
    var longer := LaterWalk(g, order, path, p, q);
  }

  lemma {:induction false} LaterWalk<V(!new)>(g: Graph<V>, order: seq<V>, path: seq<V>, p: nat, q: nat)
    returns (longer: seq<V>)
    requires g.Valid() && KahnOrder(g, order) && p <= q < |order|
    requires Chain(g, path) && |path| >= 1 && path[0] == order[p]
    ensures Chain(g, longer) && |longer| == |path| && longer[0] == order[q]
    decreases |path|
  {
    if p == q {
      longer := path;
    } else if |path| == 1 {
      longer := [order[q]];
    } else {
      var m, f := EnabledLater(g, order, p, q, path[1]);
      var rest := LaterWalk(g, order, path[1..], m, f);
      longer := [order[q]] + rest;
    }
  }

  /** A later node has a dependency that came out no earlier than any dependency of an earlier node. */
  lemma EnabledLater<V(!new)>(g: Graph<V>, order: seq<V>, p: nat, q: nat, d: V) returns (m: nat, f: nat)
    requires g.Valid() && KahnOrder(g, order) && p < q < |order|
    requires d in g.deps[order[p]]
    ensures m <= f < q && order[m] == d && order[f] in g.deps[order[q]]
  {
    PrecedesLater(g, order, p, q);
    hide KahnOrder, Precedes, Graph.Valid;
    m := DependencyAt(g, order, p, d);
    f := EnabledAt(g.deps[order[q]], order) - 1;
    var n := DependencyAt(g, order, q, order[f]);
    assert n == f;
  }

  lemma PrecedesLater<V(!new)>(g: Graph<V>, order: seq<V>, p: nat, q: nat)
    requires g.Valid() && KahnOrder(g, order) && p < q < |order|
    ensures Lists(g, order) && DependenciesFirst(g, order) && order[p] in g.deps && order[q] in g.deps
    ensures EnabledAt(g.deps[order[p]], order) <= EnabledAt(g.deps[order[q]], order)
  {
    assert Precedes(g, order, order[p], order[q]);
  }

  /** Nodes without dependencies come first and keep their definition order. */
  lemma RootsFirst<V(!new)>(g: Graph<V>, order: seq<V>, p: nat, q: nat)
    requires g.Valid() && KahnOrder(g, order) && p < |order| && q < |order|
    requires g.deps[order[p]] == []
    ensures g.deps[order[q]] != [] ==> p < q
    ensures g.deps[order[q]] == [] ==> (p < q <==> g.rank[order[p]] < g.rank[order[q]])
  {
    assert p < q ==> Precedes(g, order, order[p], order[q]);
    assert q < p ==> Precedes(g, order, order[q], order[p]);
    if g.deps[order[q]] != [] {
      var m := DependencyAt(g, order, q, g.deps[order[q]][0]);
    }
  }

  // ---- At most one order meets the specification ----

  lemma EnabledAtUnique<V(!new)>(deps: seq<V>, order: seq<V>, e: nat)
    requires e <= |order|
    requires e > 0 ==> order[e - 1] in deps
    requires forall p :: e <= p < |order| ==> order[p] !in deps
    ensures EnabledAt(deps, order) == e
  {}

  /** When all dependencies lie in a common prefix, two orders enable a node at the same point. */
  lemma EnabledInPrefix<V(!new)>(deps: seq<V>, a: seq<V>, b: seq<V>, k: nat)
    requires k <= |a| && k <= |b| && a[..k] == b[..k] && Distinct(a) && Distinct(b)
    requires forall d :: d in deps ==> d in a[..k]
    ensures EnabledAt(deps, a) == EnabledAt(deps, b)
  {
    assert forall p :: 0 <= p < k ==> a[p] == a[..k][p] && b[p] == b[..k][p];
    var e := EnabledAt(deps, a);
    assert forall i :: 0 <= i < |a| && a[i] in a[..k] ==> i < k;
    assert forall i :: 0 <= i < |b| && b[i] in b[..k] ==> i < k;
  }

  lemma KahnOrderUnique<V(!new)>(g: Graph<V>, a: seq<V>, b: seq<V>)
    requires g.Valid() && KahnOrder(g, a) && KahnOrder(g, b)
    ensures a == b
  {
    ListsLength(g, a, b);
    PrefixUnique(g, a, b, |a|);
    assert a[..|a|] == a && b[..|a|] == b;
  }

  lemma ListsLength<V(!new)>(g: Graph<V>, a: seq<V>, b: seq<V>)
    requires Lists(g, a) && Lists(g, b)
    ensures |a| == |b|
  {
    DistinctCount(a, g.deps.Keys);
    DistinctCount(b, g.deps.Keys);
  }

  lemma {:induction false} PrefixUnique<V(!new)>(g: Graph<V>, a: seq<V>, b: seq<V>, k: nat)
    requires g.Valid() && KahnOrder(g, a) && KahnOrder(g, b) && k <= |a| == |b|
    ensures a[..k] == b[..k]
  {
    if k > 0 {
      PrefixUnique(g, a, b, k - 1);
      NextUnique(g, a, b, k - 1);
      assert a[..k] == a[..k - 1] + [a[k - 1]] && b[..k] == b[..k - 1] + [b[k - 1]];
    }
  }

  lemma NextUnique<V(!new)>(g: Graph<V>, a: seq<V>, b: seq<V>, p: nat)
    requires g.Valid() && KahnOrder(g, a) && KahnOrder(g, b) && p < |a| == |b| && a[..p] == b[..p]
    ensures a[p] == b[p]
  {
    var q := FindLater(g, b, a, p);   // b[q] == a[p]
    var r := FindLater(g, a, b, p);   // a[r] == b[p]
    assert p < r ==> Precedes(g, a, a[p], a[r]);
    assert p < q ==> Precedes(g, b, b[p], b[q]);
    PrecedesOneWay(g, a, b, a[p], b[p], p);
  }

  lemma PrecedesOneWay<V(!new)>(g: Graph<V>, a: seq<V>, b: seq<V>, x: V, y: V, k: nat)
    requires g.Valid() && x in g.deps && y in g.deps && k <= |a| == |b|
    requires a[..k] == b[..k] && Distinct(a) && Distinct(b)
    requires forall d :: d in g.deps[x] || d in g.deps[y] ==> d in a[..k]
    requires x != y ==> Precedes(g, a, x, y) && Precedes(g, b, y, x)
    ensures x == y
  {
    EnabledInPrefix(g.deps[x], a, b, k);
    EnabledInPrefix(g.deps[y], a, b, k);
  }

  lemma FindLater<V(!new)>(g: Graph<V>, a: seq<V>, b: seq<V>, p: nat) returns (q: nat)
    requires Lists(g, a) && Lists(g, b) && p < |a| == |b| && a[..p] == b[..p]
    ensures p <= q < |a| && a[q] == b[p]
  {
    assert b[p] in a;
    q :| 0 <= q < |a| && a[q] == b[p];
    assert forall i :: 0 <= i < p ==> a[i] == a[..p][i] && b[i] == b[..p][i];
  }

  // ---- A set of nodes that block one another holds a cycle ----

  lemma {:induction false} DistinctBound<T>(s: seq<T>, universe: set<T>)
    requires Distinct(s) && forall x :: x in s ==> x in universe
    ensures |s| <= |universe|
  {
    if s != [] {
      DistinctBound(s[1..], universe - {s[0]});
    }
  }

  lemma {:induction false} DistinctCount<T>(s: seq<T>, universe: set<T>)
    requires Distinct(s) && forall x :: x in s <==> x in universe
    ensures |s| == |universe|
  {
    if s == [] {
      assert universe == {};
    } else {
      DistinctCount(s[1..], universe - {s[0]});
    }
  }

  ghost predicate BlockedIn<V(!new)>(g: Graph<V>, stuck: set<V>, x: V)
    requires x in g.deps
  {
    exists d :: d in g.deps[x] && d in stuck
  }

  ghost predicate Blocking<V(!new)>(g: Graph<V>, stuck: set<V>) {
    && stuck <= g.deps.Keys
    && forall x :: x in stuck ==> BlockedIn(g, stuck, x)
  }

  /** Inside a blocking set, walks of any length can be made. */
  lemma {:induction false} LongWalk<V(!new)>(g: Graph<V>, stuck: set<V>, n: nat) returns (path: seq<V>)
    requires Blocking(g, stuck) && stuck != {}
    ensures |path| == n + 1 && Chain(g, path) && forall x :: x in path ==> x in stuck
  {
    if n == 0 {
      var x :| x in stuck;
      path := [x];
    } else {
      var front := LongWalk(g, stuck, n - 1);
      assert BlockedIn(g, stuck, front[n - 1]);
      var d :| d in g.deps[front[n - 1]] && d in stuck;
      path := front + [d];
    }
  }

  lemma BlockingIsCyclic<V(!new)>(g: Graph<V>, stuck: set<V>)
    requires Blocking(g, stuck) && stuck != {}
    ensures HasCycle(g)
  {
    var path := LongWalk(g, stuck, |stuck|);
    if Distinct(path) {
      DistinctBound(path, stuck);
    } else {
      var i, j :| 0 <= i < j < |path| && path[i] == path[j];
      assert IsCycle(g, path[i..j + 1]);
    }
  }
}
