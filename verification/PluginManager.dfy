/**
  The plugin manager of plugin/manager.go: registration, Kahn's algorithm over maps
  whose iteration order is not specified, and the lifecycle it drives.
 */
module PluginManager {
  import opened DependencyGraph

  // ----------------------------------------------------------------------------- counting

  /** Entries of `deps` that are not done yet. */
  function Open(deps: seq<string>, done: set<string>): nat {
    if deps == [] then 0
    else
      var n := |deps| - 1;
      Open(deps[..n], done) + if deps[n] in done then 0 else 1
  }

  function Times(s: seq<string>, x: string): nat {
    if s == [] then 0
    else
      var n := |s| - 1;
      Times(s[..n], x) + if s[n] == x then 1 else 0
  }

  lemma {:induction false} OpenAll(deps: seq<string>)
    ensures Open(deps, {}) == |deps|
  {
    if deps == [] {
    } else {
      OpenAll(deps[..|deps| - 1]);
    }
  }

  lemma {:induction false} OpenDone(deps: seq<string>, done: set<string>, x: string)
    requires x !in done
    ensures Open(deps, done + {x}) == Open(deps, done) - Times(deps, x)
  {
    if deps == [] {
    } else {
      OpenDone(deps[..|deps| - 1], done, x);
    }
  }

  lemma {:induction false} OpenZero(deps: seq<string>, done: set<string>)
    ensures Open(deps, done) == 0 <==> forall d :: d in deps ==> d in done
  {
    if deps == [] {
    } else {
      var n := |deps| - 1;
      OpenZero(deps[..n], done);
      assert deps == deps[..n] + [deps[n]];
    }
  }

  lemma TimesNext(s: seq<string>, i: nat, x: string)
    requires i < |s|
    ensures Times(s[..i + 1], x) == Times(s[..i], x) + if s[i] == x then 1 else 0
  {
    assert s[..i + 1][..i] == s[..i];
  }

  lemma {:induction false} TimesPrefix(s: seq<string>, i: nat, x: string)
    requires i <= |s|
    ensures Times(s[..i], x) <= Times(s, x)
    decreases |s| - i
  {
    if i == |s| {
      assert s[..i] == s;
    } else {
      TimesNext(s, i, x);
      TimesPrefix(s, i + 1, x);
    }
  }

  // ------------------------------------------------------------------ in-degrees and edges

  function Dependents(edges: map<string, seq<string>>, d: string): seq<string> {
    if d in edges then edges[d] else []
  }

  /** The edges so far: all of the names in `seen`, and the first `k` dependencies of `name`. */
  ghost predicate EdgesSoFar(g: Graph, edges: map<string, seq<string>>, seen: set<string>, name: string, k: nat)
    requires seen <= g.Keys && name in g && k <= |g[name]|
  {
    forall d, x {:trigger Times(Dependents(edges, d), x)} ::
      Times(Dependents(edges, d), x)
        == (if x in seen then Times(g[x], d) else if x == name then Times(g[name][..k], d) else 0)
  }

  /** Edge lists are the dependency lists turned around, repetitions included. */
  ghost predicate EdgesOf(g: Graph, edges: map<string, seq<string>>) {
    forall d, x {:trigger Times(Dependents(edges, d), x)} ::
      Times(Dependents(edges, d), x) == if x in g then Times(g[x], d) else 0
  }

  method AddEdges(g: Graph, name: string, seen: set<string>, degree: map<string, nat>, edges: map<string, seq<string>>)
    returns (degree': map<string, nat>, edges': map<string, seq<string>>)
    requires seen <= g.Keys && name in g && name !in seen
    requires name in degree && degree[name] == 0
    requires EdgesSoFar(g, edges, seen, name, 0)
    ensures degree' == degree[name := |g[name]|]
    ensures EdgesSoFar(g, edges', seen, name, |g[name]|)
  {
    degree', edges' := degree, edges;
    assert degree[name := 0] == degree;
    for k := 0 to |g[name]|
      invariant degree' == degree[name := k]
      invariant EdgesSoFar(g, edges', seen, name, k)
    {
      var dep := g[name][k];
      degree' := degree'[name := degree'[name] + 1];
      ghost var before := edges';
      var list := Dependents(edges', dep) + [name];
      edges' := edges'[dep := list];
      forall d, x
        ensures Times(Dependents(edges', d), x)
          == (if x in seen then Times(g[x], d) else if x == name then Times(g[name][..k + 1], d) else 0)
      {
        TimesNext(g[name], k, d);
        assert Times(Dependents(before, d), x)
          == (if x in seen then Times(g[x], d) else if x == name then Times(g[name][..k], d) else 0);
        if d == dep {
          assert list[..|list| - 1] == Dependents(before, d);
        }
      }
    }
  }

  method BuildDegrees(g: Graph) returns (degree: map<string, nat>, edges: map<string, seq<string>>)
    ensures degree.Keys == g.Keys && forall x :: x in g ==> degree[x] == |g[x]|
    ensures EdgesOf(g, edges)
  {
    degree, edges := map x | x in g :: 0, map[];
    var left := g.Keys;
    while left != {}
      invariant left <= g.Keys && degree.Keys == g.Keys
      invariant forall x :: x in g ==> degree[x] == if x in left then 0 else |g[x]|
      invariant forall d, x {:trigger Times(Dependents(edges, d), x)} ::
        Times(Dependents(edges, d), x) == if x in g && x !in left then Times(g[x], d) else 0
      decreases left
    {
      var name :| name in left;
      degree, edges := AddEdges(g, name, g.Keys - left, degree, edges);
      assert g[name][..|g[name]|] == g[name];
      left := left - {name};
    }
  }

  // ------------------------------------------------------------------------ the main loop

  /** In-degrees count the dependencies that are not done. */
  ghost predicate DegreesAt(g: Graph, degree: map<string, nat>, done: set<string>) {
    degree.Keys == g.Keys && forall x :: x in g ==> degree[x] == Open(g[x], done)
  }

  /** The degrees after the first `i` entries of the list were lowered. */
  ghost predicate LoweredTo(g: Graph, done: set<string>, list: seq<string>, i: nat, degree: map<string, nat>)
    requires i <= |list|
  {
    degree.Keys == g.Keys && forall x :: x in g ==> degree[x] == Open(g[x], done) - Times(list[..i], x)
  }

  /** What was queued is what reached zero since `before`. */
  ghost predicate QueuedSince(before: map<string, nat>, degree: map<string, nat>, added: seq<string>)
    requires before.Keys == degree.Keys
  {
    Distinct(added) && forall x :: x in added <==> x in degree && before[x] > 0 && degree[x] == 0
  }

  lemma QueueNext(before: map<string, nat>, degree: map<string, nat>, added: seq<string>, x: string)
    requires before.Keys == degree.Keys && QueuedSince(before, degree, added)
    requires x in degree && 0 < degree[x] <= before[x]
    ensures QueuedSince(before, degree[x := degree[x] - 1], added + if degree[x] == 1 then [x] else [])
  {
  }

  /** The inner loop: lowers the degree of every dependent and queues those that reach zero. */
  method Release(g: Graph, name: string, ghost done: set<string>, degree: map<string, nat>, list: seq<string>)
    returns (degree': map<string, nat>, added: seq<string>)
    requires DegreesAt(g, degree, done) && name !in done
    requires forall x {:trigger Times(list, x)} :: Times(list, x) == if x in g then Times(g[x], name) else 0
    ensures DegreesAt(g, degree', done + {name})
    ensures Distinct(added)
    ensures forall x :: x in added <==> x in g && degree[x] > 0 && degree'[x] == 0
  {
    degree', added := degree, [];
    for i := 0 to |list|
      invariant LoweredTo(g, done, list, i, degree')
      invariant QueuedSince(degree, degree', added)
    {
      var x := list[i];
      ListedIsOpen(g, name, done, list, i);
      LoweredOnce(g, done, list, i, degree');
      QueueNext(degree, degree', added, x);
      degree' := degree'[x := degree'[x] - 1];
      if degree'[x] == 0 {
        added := added + [x];
      }
    }
    AllLowered(g, name, done, list, degree');
  }

  lemma AllLowered(g: Graph, name: string, done: set<string>, list: seq<string>, degree: map<string, nat>)
    requires degree.Keys == g.Keys && name !in done
    requires forall x {:trigger Times(list, x)} :: Times(list, x) == if x in g then Times(g[x], name) else 0
    requires forall x :: x in g ==> degree[x] == Open(g[x], done) - Times(list[..|list|], x)
    ensures DegreesAt(g, degree, done + {name})
  {
    assert list[..|list|] == list;
    forall x | x in g
      ensures degree[x] == Open(g[x], done + {name})
    {
      OpenDone(g[x], done, name);
      assert Times(list, x) == Times(g[x], name);
    }
  }

  lemma LoweredOnce(g: Graph, done: set<string>, list: seq<string>, i: nat, degree: map<string, nat>)
    requires i < |list| && degree.Keys == g.Keys && list[i] in g && degree[list[i]] > 0
    requires forall x :: x in g ==> degree[x] == Open(g[x], done) - Times(list[..i], x)
    ensures var lowered := degree[list[i] := degree[list[i]] - 1];
      forall x :: x in g ==> lowered[x] == Open(g[x], done) - Times(list[..i + 1], x)
  {
    forall x | x in g
      ensures Times(list[..i + 1], x) == Times(list[..i], x) + if list[i] == x then 1 else 0
    {
      TimesNext(list, i, x);
    }
  }

  /** What is still listed is still counted. */
  lemma ListedIsOpen(g: Graph, name: string, done: set<string>, list: seq<string>, i: nat)
    requires i < |list| && name !in done
    requires forall x {:trigger Times(list, x)} :: Times(list, x) == if x in g then Times(g[x], name) else 0
    ensures list[i] in g && Times(list[..i], list[i]) < Open(g[list[i]], done)
  {
    var x := list[i];
    TimesNext(list, i, x);
    TimesPrefix(list, i + 1, x);
    assert Times(list, x) > 0;
    OpenDone(g[x], done, name);
  }

  ghost predicate LoopOk(g: Graph, degree: map<string, nat>, order: seq<string>, queue: seq<string>) {
    && DegreesAt(g, degree, Names(order))
    && Distinct(order + queue)
    && (forall x :: x in order + queue <==> x in g && degree[x] == 0)
    && DepsEarlier(g, order)
  }

  function Names(s: seq<string>): set<string> {
    set x | x in s
  }

  lemma {:induction false} NamesSize(s: seq<string>)
    requires Distinct(s)
    ensures |Names(s)| == |s|
  {
    if s == [] {
    } else {
      var n := |s| - 1;
      NamesSize(s[..n]);
      assert Names(s) == Names(s[..n]) + {s[n]};
    }
  }

  /** One round: the head of the queue is placed and its dependents are released. */
  lemma RoundKeeps(g: Graph, degree: map<string, nat>, order: seq<string>, queue: seq<string>,
                   degree': map<string, nat>, added: seq<string>)
    requires LoopOk(g, degree, order, queue) && queue != []
    requires DegreesAt(g, degree', Names(order) + {queue[0]})
    requires Distinct(added)
    requires forall x :: x in added <==> x in g && degree[x] > 0 && degree'[x] == 0
    ensures LoopOk(g, degree', order + [queue[0]], queue[1..] + added)
  {
    var name := queue[0];
    var order', queue' := order + [name], queue[1..] + added;
    assert Names(order') == Names(order) + {name};
    assert name in order + queue;
    assert order' + queue' == (order + queue) + added;
    DistinctConcat(order + queue, added);
    forall x
      ensures x in order' + queue' <==> x in g && degree'[x] == 0
    {
      assert x in order' + queue' <==> x in order + queue || x in added;
      if x in g && degree[x] == 0 {
        OpenZero(g[x], Names(order));
        OpenZero(g[x], Names(order) + {name});
      }
    }
    PlaceKeeps(g, order, name, degree);
  }

  lemma DistinctConcat(a: seq<string>, b: seq<string>)
    requires Distinct(a) && Distinct(b) && forall x :: x in b ==> x !in a
    ensures Distinct(a + b)
  {
    var s := a + b;
    forall i, j | 0 <= i < j < |s|
      ensures s[i] != s[j]
    {
      if i < |a| <= j {
        assert s[i] in a && s[j] == b[j - |a|] && b[j - |a|] in b;
      }
    }
  }

  lemma PlaceKeeps(g: Graph, order: seq<string>, name: string, degree: map<string, nat>)
    requires DepsEarlier(g, order) && DegreesAt(g, degree, Names(order)) && name in g && degree[name] == 0
    ensures DepsEarlier(g, order + [name])
  {
    var order' := order + [name];
    OpenZero(g[name], Names(order));
    forall i | 0 <= i < |order'|
      ensures order'[i] in g && forall d :: d in g[order'[i]] ==> d in order'[..i]
    {
      if i < |order| {
        assert order'[i] == order[i] && order'[..i] == order[..i];
      } else {
        assert order'[..i] == order;
      }
    }
  }

  /** The outer loop, from the degrees and the edges to the names it can place. */
  method Drain(g: Graph, degree0: map<string, nat>, edges: map<string, seq<string>>, queue0: seq<string>)
    returns (order: seq<string>)
    requires LoopOk(g, degree0, [], queue0) && EdgesOf(g, edges)
    ensures Distinct(order) && DepsEarlier(g, order)
    ensures forall x :: x in order <==> x in g && Open(g[x], Names(order)) == 0
  {
    var degree, queue := degree0, queue0;
    order := [];
    while queue != []
      invariant LoopOk(g, degree, order, queue)
      decreases |g| - |order|
    {
      var name := queue[0];
      assert name in order + queue;
      PlacedFits(g, order + queue);
      PlacedOnce(order, queue);
      var degree', added := Release(g, name, Names(order), degree, Dependents(edges, name));
      RoundKeeps(g, degree, order, queue, degree', added);
      degree, order, queue := degree', order + [name], queue[1..] + added;
    }
    assert order + queue == order;
  }

  lemma PlacedOnce(order: seq<string>, queue: seq<string>)
    requires Distinct(order + queue) && queue != []
    ensures queue[0] !in order
  {
    forall i | 0 <= i < |order|
      ensures order[i] != queue[0]
    {
      assert (order + queue)[i] == order[i] && (order + queue)[|order|] == queue[0];
    }
  }

  /** Each name is enqueued at most once, so there are never more than there are plugins. */
  lemma PlacedFits(g: Graph, placed: seq<string>)
    requires Distinct(placed) && forall x :: x in placed ==> x in g
    ensures |placed| <= |g|
  {
    Pigeonhole(g.Keys, placed);
  }

  /** What cannot be placed waits for something that cannot be placed either. */
  lemma LeftoverIsStuck(g: Graph, order: seq<string>)
    requires Closed(g) && Distinct(order)
    requires forall x :: x in order <==> x in g && Open(g[x], Names(order)) == 0
    ensures NoWayOut(g, g.Keys - Names(order))
  {
    var rest := g.Keys - Names(order);
    forall x | x in rest
      ensures DependsWithin(g, rest, x)
    {
      OpenZero(g[x], Names(order));
      var d :| d in g[x] && d !in Names(order);
      assert d in rest;
    }
  }

  datatype Failure = DuplicatePlugin | MissingDep(name: string, dep: string) | CyclicDep | InitFailed(at: string)

  datatype Outcome = Success | Failed(why: Failure)

  datatype Sorted = Order(names: seq<string>) | Refused(why: Failure)

  /** Every dependency must be registered; the first missing one found is reported. */
  method CheckDeps(g: Graph) returns (missing: Sorted)
    ensures missing.Order? ==> missing.names == [] && Closed(g)
    ensures missing.Refused? ==>
      && missing.why.MissingDep? && missing.why.name in g
      && missing.why.dep in g[missing.why.name] && missing.why.dep !in g
  {
    var left := g.Keys;
    while left != {}
      invariant left <= g.Keys
      invariant forall x, d :: x in g && x !in left && d in g[x] ==> d in g
      decreases left
    {
      var name :| name in left;
      for i := 0 to |g[name]|
        invariant forall j :: 0 <= j < i ==> g[name][j] in g
      {
        if g[name][i] !in g {
          return Refused(MissingDep(name, g[name][i]));
        }
      }
      left := left - {name};
    }
    missing := Order([]);
  }

  /** The names without dependencies, in whatever order the map yields them. */
  method Ready(degree: map<string, nat>) returns (queue: seq<string>)
    ensures Distinct(queue) && forall x :: x in queue <==> x in degree && degree[x] == 0
  {
    queue := [];
    var left := degree.Keys;
    while left != {}
      invariant left <= degree.Keys
      invariant Distinct(queue)
      invariant forall x :: x in queue <==> x in degree && x !in left && degree[x] == 0
      decreases left
    {
      var name :| name in left;
      if degree[name] == 0 {
        queue := queue + [name];
      }
      left := left - {name};
    }
  }

  /**
    For every iteration order of the maps: an unregistered dependency is reported as
    missing; otherwise the sort fails exactly when the graph has a cycle, and
    otherwise it yields a permutation of the names with every dependency earlier.
   */
  method TopologicalSort(g: Graph) returns (r: Sorted)
    ensures !Closed(g) <==> r.Refused? && r.why.MissingDep?
    ensures r.Refused? && r.why.MissingDep? ==>
      r.why.name in g && r.why.dep in g[r.why.name] && r.why.dep !in g
    ensures Closed(g) ==> (r == Refused(CyclicDep) <==> HasCycle(g))
    ensures Closed(g) && !HasCycle(g) ==> r.Order? && IsOrder(g, r.names)
  {
    r := CheckDeps(g);
    if r.Refused? {
      return;
    }
    var degree, edges := BuildDegrees(g);
    var queue := Ready(degree);
    StartOk(g, degree, queue);
    var order := Drain(g, degree, edges, queue);
    NamesSize(order);
    if |order| != |g| {
      ShortMeansCyclic(g, order);
      return Refused(CyclicDep);
    }
    AllPlaced(g, order);
    OrderMeansAcyclic(g, order);
    r := Order(order);
  }

  /** An order that leaves names out leaves out a cycle. */
  lemma ShortMeansCyclic(g: Graph, order: seq<string>)
    requires Closed(g) && Distinct(order) && |order| != |g|
    requires forall x :: x in order <==> x in g && Open(g[x], Names(order)) == 0
    ensures HasCycle(g)
  {
    SomeLeft(g, order);
    LeftoverIsStuck(g, order);
    StuckMeansCyclic(g, g.Keys - Names(order));
  }

  lemma SomeLeft(g: Graph, order: seq<string>)
    requires Distinct(order) && |order| != |g| && forall x :: x in order ==> x in g
    ensures g.Keys - Names(order) != {}
  {
    NamesSize(order);
    assert g.Keys == Names(order) + (g.Keys - Names(order));
    assert |g.Keys| == |g|;
  }

  lemma StartOk(g: Graph, degree: map<string, nat>, queue: seq<string>)
    requires degree.Keys == g.Keys && forall x :: x in g ==> degree[x] == |g[x]|
    requires Distinct(queue) && forall x :: x in queue <==> x in degree && degree[x] == 0
    ensures LoopOk(g, degree, [], queue)
  {
    assert [] + queue == queue && Names([]) == {};
    forall x | x in g
      ensures degree[x] == Open(g[x], {})
    {
      OpenAll(g[x]);
    }
  }

  lemma AllPlaced(g: Graph, order: seq<string>)
    requires Distinct(order) && |order| == |g| && |Names(order)| == |order| && Names(order) <= g.Keys
    ensures forall x :: x in order <==> x in g
  {
    SubsetOfSameSize(Names(order), g.Keys);
  }

  lemma SubsetOfSameSize(a: set<string>, b: set<string>)
    requires a <= b && |a| == |b|
    ensures a == b
  {
    assert b == a + (b - a);
  }

  // ------------------------------------------------------------------------- the lifecycle

  datatype Plugin = Plugin(name: string, deps: seq<string>)

  datatype Event = InitCalled(of: string) | CloseCalled(of: string)

  function Inits(order: seq<string>): (r: seq<Event>)
    ensures |r| == |order|
  {
    seq(|order|, i requires 0 <= i < |order| => InitCalled(order[i]))
  }

  function Closes(order: seq<string>): (r: seq<Event>)
    ensures |r| == |order|
  {
    seq(|order|, i requires 0 <= i < |order| => CloseCalled(order[|order| - 1 - i]))
  }

  /**
    When names are initialised in an order and closed in reverse, each plugin is
    initialised after everything it depends on, however indirectly, and closed
    before any of it.
   */
  lemma LifecycleTheorem(g: Graph, order: seq<string>, x: string, y: string) returns (i: nat, j: nat)
    requires IsOrder(g, order) && DependsOn(g, x, y) && Closed(g)
    ensures i < |order| && j < |order|
    ensures Inits(order)[i] == InitCalled(x) && Inits(order)[j] == InitCalled(y) && j < i
    ensures var n := |order| - 1;
      Closes(order)[n - i] == CloseCalled(x) && Closes(order)[n - j] == CloseCalled(y) && n - i < n - j
  {
    var p :| IsWalk(g, p) && p[0] == x && p[|p| - 1] == y;
    assert p[|p| - 2] in g && y in g[p[|p| - 2]];
    assert x in order && y in order;
    i :| 0 <= i < |order| && order[i] == x;
    j :| 0 <= j < |order| && order[j] == y;
    WalkGoesDown(g, order, p, i, j);
  }

  /** How far initialisation gets: up to and including the first plugin that fails. */
  function Reach(order: seq<string>, fails: set<string>): (n: nat)
    ensures n <= |order| && (order != [] ==> n > 0)
    ensures forall i :: 0 <= i < n - 1 ==> order[i] !in fails
    ensures n < |order| ==> order[n - 1] in fails
  {
    if order == [] then 0
    else if order[0] in fails then 1
    else
      var n := Reach(order[1..], fails);
      assert forall i :: 0 < i < n ==> order[i] == order[1..][i - 1];
      n + 1
  }

  /** The plugins whose initialisation was called and succeeded. */
  function Initialised(order: seq<string>, fails: set<string>): set<string> {
    set i | 0 <= i < Reach(order, fails) && order[i] !in fails :: order[i]
  }

  /** The plugins that closing calls. */
  function ClosedNames(order: seq<string>): set<string> {
    set n | n in order && CloseCalled(n) in Closes(order)
  }

  /**
    Closing after an attempt to initialise calls exactly the plugins that were
    initialised if and only if none failed; after a failure it also calls the one that
    failed and every later one, which was never initialised.
   */
  lemma CloseTheorem(order: seq<string>, fails: set<string>)
    requires Distinct(order)
    ensures ClosedNames(order) == Initialised(order, fails) <==> forall n :: n in order ==> n !in fails
    ensures Reach(order, fails) > 0 && order[Reach(order, fails) - 1] in fails ==>
      ClosedNames(order) - Initialised(order, fails) == set i | Reach(order, fails) - 1 <= i < |order| :: order[i]
  {
    var reach, inits := Reach(order, fails), Initialised(order, fails);
    ClosesAll(order);
    forall i | 0 <= i < |order|
      ensures order[i] in inits <==> i < reach && order[i] !in fails
    {
      if order[i] in inits {
        var j :| 0 <= j < reach && order[j] !in fails && order[j] == order[i];
      }
    }
    if forall n :: n in order ==> n !in fails {
      assert reach == |order|;
    } else {
      var i :| 0 <= i < |order| && order[i] in fails;
      assert order[i] !in inits && order[i] in ClosedNames(order);
    }
  }

  lemma ClosesAll(order: seq<string>)
    ensures ClosedNames(order) == set i | 0 <= i < |order| :: order[i]
  {
    forall i | 0 <= i < |order|
      ensures CloseCalled(order[i]) in Closes(order)
    {
      assert Closes(order)[|order| - 1 - i] == CloseCalled(order[i]);
    }
  }

  class Manager {
    var plugins: map<string, Plugin>
    var order: seq<string>
    /** Every call made to a plugin, in order. */
    ghost var log: seq<Event>

    ghost function DependencyGraph(): Graph
      reads this
    {
      map n | n in plugins :: plugins[n].deps
    }

    ghost predicate Valid()
      reads this
    {
      forall n :: n in order ==> n in plugins
    }

    constructor ()
      ensures Valid() && plugins == map[] && order == [] && log == []
    {
      plugins, order, log := map[], [], [];
    }

    method Register(p: Plugin) returns (outcome: Outcome)
      requires Valid()
      modifies this`plugins
      ensures Valid()
      ensures outcome == if p.name in old(plugins) then Failed(DuplicatePlugin) else Success
      ensures plugins == if p.name in old(plugins) then old(plugins) else old(plugins)[p.name := p]
    {
      if p.name in plugins {
        return Failed(DuplicatePlugin);
      }
      plugins := plugins[p.name := p];
      outcome := Success;
    }

    /** `fails` are the plugins whose own initialisation returns an error this time. */
    method Initialize(fails: set<string>) returns (outcome: Outcome)
      requires Valid()
      modifies this`order, this`log
      ensures Valid()
      ensures !Closed(DependencyGraph()) ==> outcome.Failed? && outcome.why.MissingDep?
      ensures Closed(DependencyGraph()) && HasCycle(DependencyGraph()) ==> outcome == Failed(CyclicDep)
      ensures !Closed(DependencyGraph()) || HasCycle(DependencyGraph()) ==> order == old(order) && log == old(log)
      ensures Closed(DependencyGraph()) && !HasCycle(DependencyGraph()) ==>
        && IsOrder(DependencyGraph(), order)
        && log == old(log) + Inits(order[..Reach(order, fails)])
        && (outcome.Success? <==> forall n :: n in order ==> n !in fails)
        && (outcome.Failed? ==> outcome == Failed(InitFailed(order[Reach(order, fails) - 1])))
    {
      var g: Graph := map n | n in plugins :: plugins[n].deps;
      assert g == DependencyGraph();
      var sorted := TopologicalSort(g);
      if sorted.Refused? {
        return Failed(sorted.why);
      }
      order := sorted.names;
      outcome := this.InitializeAll(fails);
    }

    /** Goes through the order and stops at the first plugin that fails. */
    method InitializeAll(fails: set<string>) returns (outcome: Outcome)
      modifies this`log
      ensures log == old(log) + Inits(order[..Reach(order, fails)])
      ensures outcome.Success? <==> forall n :: n in order ==> n !in fails
      ensures outcome.Failed? ==> outcome == Failed(InitFailed(order[Reach(order, fails) - 1]))
    {
      for i := 0 to |order|
        invariant forall j :: 0 <= j < i ==> order[j] !in fails
        invariant log == old(log) + Inits(order[..i])
      {
        log := log + [InitCalled(order[i])];
        assert Inits(order[..i + 1]) == Inits(order[..i]) + [InitCalled(order[i])];
        if order[i] in fails {
          ReachIs(order, fails, i + 1);
          return Failed(InitFailed(order[i]));
        }
      }
      ReachIs(order, fails, |order|);
      outcome := Success;
    }

    /**
      Closes everything from the last to the first, failures or not, and answers with
      the position of the first failure met, or -1.
     */
    method Close(fails: set<string>) returns (firstFailure: int)
      requires Valid()
      modifies this`log
      ensures Valid()
      ensures log == old(log) + Closes(order)
      ensures -1 <= firstFailure < |order| && (firstFailure >= 0 ==> order[firstFailure] in fails)
      ensures forall j :: firstFailure < j < |order| ==> order[j] !in fails
    {
      firstFailure := -1;
      var i := |order|;
      ghost var all := Closes(order);
      assert all[..0] == [];
      while i > 0
        invariant 0 <= i <= |order|
        invariant log == old(log) + all[..|order| - i]
        invariant firstFailure == -1 || (i <= firstFailure < |order| && order[firstFailure] in fails)
        invariant forall j :: i <= j < |order| && firstFailure < j ==> order[j] !in fails
      {
        i := i - 1;
        var name := order[i];
        if name in plugins {
          log := log + [CloseCalled(name)];
          if name in fails && firstFailure == -1 {
            firstFailure := i;
          }
        }
        assert all[..|order| - i] == all[..|order| - i - 1] + [CloseCalled(name)];
      }
      assert all[..|order|] == all;
    }
  }

  lemma {:induction false} ReachIs(order: seq<string>, fails: set<string>, n: nat)
    requires n <= |order| && (n < |order| ==> n > 0)
    requires forall i :: 0 <= i < n - 1 ==> order[i] !in fails
    requires n > 0 && n < |order| ==> order[n - 1] in fails
    ensures Reach(order, fails) == n
    decreases |order|
  {
    if order == [] {
    } else {
      if order[0] in fails {
      } else {
        assert forall i :: 0 < i < |order| ==> order[i] == order[1..][i - 1];
        ReachIs(order[1..], fails, n - 1);
      }
    }
  }
}
