/**
  Dependency graphs of plugins and their orders: what topologicalSort of
  plugin/manager.go is to compute, stated without the algorithm.
 */
module DependencyGraph {

  /** Each name with the names it depends on; entries may repeat. */
  type Graph = map<string, seq<string>>

  predicate Closed(g: Graph) {
    forall x, d :: x in g && d in g[x] ==> d in g
  }

  /** A walk along dependencies, at least one step long. */
  predicate IsWalk(g: Graph, p: seq<string>) {
    && |p| >= 2
    && forall i :: 0 <= i < |p| - 1 ==> p[i] in g && p[i + 1] in g[p[i]]
  }

  ghost predicate DependsOn(g: Graph, x: string, y: string) {
    exists p :: IsWalk(g, p) && p[0] == x && p[|p| - 1] == y
  }

  ghost predicate HasCycle(g: Graph) {
    exists x :: DependsOn(g, x, x)
  }

  predicate Distinct(s: seq<string>) {
    forall i, j :: 0 <= i < j < |s| ==> s[i] != s[j]
  }

  /** Every entry of the list comes after all of its dependencies. */
  predicate DepsEarlier(g: Graph, order: seq<string>) {
    forall i :: 0 <= i < |order| ==>
      order[i] in g && forall d :: d in g[order[i]] ==> d in order[..i]
  }

  /** A permutation of the names with every dependency earlier. */
  ghost predicate IsOrder(g: Graph, order: seq<string>) {
    && Distinct(order)
    && (forall x :: x in order <==> x in g)
    && DepsEarlier(g, order)
  }

  // ------------------------------------------------------------ an order rules out cycles

  /** Along a walk, positions in an order go down. */
  lemma {:induction false} WalkGoesDown(g: Graph, order: seq<string>, p: seq<string>, i: nat, j: nat)
    requires IsOrder(g, order) && IsWalk(g, p)
    requires i < |order| && j < |order| && order[i] == p[0] && order[j] == p[|p| - 1]
    ensures j < i
    decreases |p|
  {
    var d := p[1];
    assert d in g[order[i]];
    var k :| 0 <= k < i && order[k] == d;
    if |p| <= 2 {
    } else {
      var rest := p[1..];
      assert IsWalk(g, rest) by {
        forall n | 0 <= n < |rest| - 1
          ensures rest[n] in g && rest[n + 1] in g[rest[n]]
        {
          assert rest[n] == p[n + 1] && rest[n + 1] == p[n + 2];
        }
      }
      WalkGoesDown(g, order, rest, k, j);
    }
  }

  /** In an order, everything a name depends on, however indirectly, is earlier. */
  lemma TransitiveEarlier(g: Graph, order: seq<string>, i: nat, j: nat)
    requires IsOrder(g, order) && i < |order| && j < |order|
    requires DependsOn(g, order[i], order[j])
    ensures j < i
  {
    var p :| IsWalk(g, p) && p[0] == order[i] && p[|p| - 1] == order[j];
    WalkGoesDown(g, order, p, i, j);
  }

  lemma OrderMeansAcyclic(g: Graph, order: seq<string>)
    requires IsOrder(g, order)
    ensures !HasCycle(g)
  {
    forall x | DependsOn(g, x, x)
      ensures false
    {
      var p :| IsWalk(g, p) && p[0] == x && p[|p| - 1] == x;
      assert x in order;
      var i :| 0 <= i < |order| && order[i] == x;
      WalkGoesDown(g, order, p, i, i);
    }
  }

  // ----------------------------------------------------- a set with no way out has a cycle

  ghost predicate DependsWithin(g: Graph, s: set<string>, x: string) {
    x in g && exists d :: d in g[x] && d in s
  }

  /** Every member depends on some member. */
  ghost predicate NoWayOut(g: Graph, s: set<string>) {
    forall x {:trigger DependsWithin(g, s, x)} :: x in s ==> DependsWithin(g, s, x)
  }

  lemma {:induction false} LongWalk(g: Graph, s: set<string>, n: nat) returns (p: seq<string>)
    requires NoWayOut(g, s) && s != {}
    ensures |p| == n + 2 && IsWalk(g, p)
    ensures forall i :: 0 <= i < |p| ==> p[i] in s
    decreases n
  {
    if n == 0 {
      var x :| x in s;
      assert DependsWithin(g, s, x);
      var d :| d in g[x] && d in s;
      p := [x, d];
    } else {
      var q := LongWalk(g, s, n - 1);
      var x := q[|q| - 1];
      assert DependsWithin(g, s, x);
      var d :| d in g[x] && d in s;
      p := q + [d];
    }
  }

  lemma {:induction false} Pigeonhole(s: set<string>, p: seq<string>)
    requires forall i :: 0 <= i < |p| ==> p[i] in s
    requires Distinct(p)
    ensures |p| <= |s|
    decreases |p|
  {
    if p == [] {
    } else {
      var n := |p| - 1;
      var rest := p[..n];
      forall i | 0 <= i < |rest|
        ensures rest[i] in s - {p[n]}
      {
        assert rest[i] == p[i];
      }
      Pigeonhole(s - {p[n]}, rest);
    }
  }

  lemma StuckMeansCyclic(g: Graph, s: set<string>)
    requires NoWayOut(g, s) && s != {}
    ensures HasCycle(g)
  {
    var p := LongWalk(g, s, |s|);
    if Distinct(p) {
      Pigeonhole(s, p);
    }
    var i, j :| 0 <= i < j < |p| && p[i] == p[j];
    var c := p[i..j + 1];
    forall n | 0 <= n < |c| - 1
      ensures c[n] in g && c[n + 1] in g[c[n]]
    {
      assert c[n] == p[i + n] && c[n + 1] == p[i + n + 1];
    }
    assert IsWalk(g, c) && c[0] == p[i] && c[|c| - 1] == p[i];
    assert DependsOn(g, p[i], p[i]);
  }
}
