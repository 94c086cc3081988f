/** `computeClosure`: the tables that a request needs once foreign keys are followed. */
module ForeignKeyClosure {
  import opened Common
  import opened Strings

  datatype Edge = Edge(table: string, references: string)

  /** A foreign key leads from `a` to `b`.  The worklist skips an empty name, so nothing is followed from it. */
  ghost predicate Leads(edges: seq<Edge>, a: string, b: string) {
    a != "" && Edge(a, b) in edges
  }

  /** A chain of foreign keys from a requested table to `t`. */
  ghost predicate IsChain(edges: seq<Edge>, request: set<string>, p: seq<string>, t: string) {
    && p != [] && p[0] in request && p[|p| - 1] == t
    && forall i :: 0 <= i < |p| - 1 ==> Leads(edges, p[i], p[i + 1])
  }

  ghost predicate Reachable(edges: seq<Edge>, request: set<string>, t: string) {
    exists p :: IsChain(edges, request, p, t)
  }

  /** Every table that a request mentions or an edge points to. */
  ghost function Universe(edges: seq<Edge>, request: set<string>): set<string> {
    request + set e | e in edges :: e.references
  }

  /** The reachable tables. */
  ghost function Closure(edges: seq<Edge>, request: set<string>): set<string> {
    set t | t in Universe(edges, request) && Reachable(edges, request, t)
  }

  ghost predicate Closed(edges: seq<Edge>, s: set<string>) {
    forall a, b :: a in s && Leads(edges, a, b) ==> b in s
  }

  lemma RequestReachable(edges: seq<Edge>, request: set<string>, t: string)
    requires t in request
    ensures Reachable(edges, request, t)
  {
    assert IsChain(edges, request, [t], t);
  }

  lemma ReachableStep(edges: seq<Edge>, request: set<string>, a: string, b: string)
    requires Reachable(edges, request, a) && Leads(edges, a, b)
    ensures Reachable(edges, request, b) && b in Universe(edges, request)
  {
    var p :| IsChain(edges, request, p, a);
    assert IsChain(edges, request, p + [b], b);
    assert Edge(a, b).references in Universe(edges, request);
  }

  /** A chain never leaves a closed set that contains the request. */
  lemma {:induction false} ChainStaysInside(edges: seq<Edge>, request: set<string>, p: seq<string>, t: string, s: set<string>)
    requires IsChain(edges, request, p, t) && request <= s && Closed(edges, s)
    ensures t in s
  {
    if |p| > 1 {
      var q := p[..|p| - 1];
      assert IsChain(edges, request, q, q[|q| - 1]);
      ChainStaysInside(edges, request, q, q[|q| - 1], s);
      assert Leads(edges, p[|p| - 2], p[|p| - 1]);
    }
  }

  /** The reachable tables are the least closed set that contains the request. */
  lemma ClosureIsLeast(edges: seq<Edge>, request: set<string>)
    ensures request <= Closure(edges, request) && Closed(edges, Closure(edges, request))
    ensures forall s :: request <= s && Closed(edges, s) ==> Closure(edges, request) <= s
  {
    forall t | t in request
      ensures t in Closure(edges, request)
    {
      RequestReachable(edges, request, t);
    }
    forall a, b | a in Closure(edges, request) && Leads(edges, a, b)
      ensures b in Closure(edges, request)
    {
      ReachableStep(edges, request, a, b);
    }
    forall s, t | request <= s && Closed(edges, s) && t in Closure(edges, request)
      ensures t in s
    {
      var p :| IsChain(edges, request, p, t);
      ChainStaysInside(edges, request, p, t, s);
    }
  }

  /** A request that is already closed resolves to itself, and only such a request does. */
  lemma ClosedIffFixpoint(edges: seq<Edge>, request: set<string>)
    ensures Closed(edges, request) <==> Closure(edges, request) == request
  {
    ClosureIsLeast(edges, request);
  }

  lemma ClosureIdempotent(edges: seq<Edge>, request: set<string>)
    ensures Closure(edges, Closure(edges, request)) == Closure(edges, request)
  {
    ClosureIsLeast(edges, request);
    ClosedIffFixpoint(edges, Closure(edges, request));
  }

  lemma ClosureWithin(edges: seq<Edge>, request: set<string>, s: set<string>)
    requires request <= s && Closed(edges, s)
    ensures Closure(edges, request) <= s
  {
    ClosureIsLeast(edges, request);
  }

  /** More requested tables, or more foreign keys, never resolve to fewer. */
  lemma ClosureMonotone(edges: seq<Edge>, edges': seq<Edge>, request: set<string>, request': set<string>)
    requires request <= request' && forall e :: e in edges ==> e in edges'
    ensures Closure(edges, request) <= Closure(edges', request')
  {
    var all := Closure(edges', request');
    assert request <= all && Closed(edges, all) by {
      ClosureIsLeast(edges', request');
      forall a, b | a in all && Leads(edges, a, b)
        ensures b in all
      {
        assert Leads(edges', a, b);
      }
    }
    ClosureWithin(edges, request, all);
  }

  /** The adjacency lists that the first loop builds, seen as edges. */
  ghost predicate Lists(byTable: map<string, seq<string>>, edges: seq<Edge>) {
    forall a, b :: Edge(a, b) in edges <==> a in byTable && b in byTable[a]
  }

  method BuildLists(edges: seq<Edge>) returns (byTable: map<string, seq<string>>)
    ensures Lists(byTable, edges)
  {
    byTable := map[];
    for n := 0 to |edges|
      invariant Lists(byTable, edges[..n])
    {
      var e := edges[n];
      var list := (if e.table in byTable then byTable[e.table] else []) + [e.references];
      UniqueSortedSorts(list);
      ghost var before := byTable;
      byTable := byTable[e.table := UniqueSorted(list)];
      assert edges[..n + 1] == edges[..n] + [e];
      forall a, b
        ensures Edge(a, b) in edges[..n + 1] <==> a in byTable && b in byTable[a]
      {
        assert b in Elements(UniqueSorted(list)) <==> b in Elements(list);
      }
    }
    assert edges[..|edges|] == edges;
  }

  /** Resolves one table's references, staying inside any closed set; new ones go to the end of the queue. */
  method Expand(ghost edges: seq<Edge>, ghost all: set<string>, table: string, dependencies: seq<string>,
                resolved: set<string>, queue: seq<string>)
    returns (resolved': set<string>, queue': seq<string>)
    requires Closed(edges, all) && resolved <= all && table in resolved
    requires forall d :: d in dependencies ==> Leads(edges, table, d)
    ensures resolved' == resolved + Elements(dependencies) && resolved' <= all
    ensures forall t :: t in queue' <==> t in queue || (t in resolved' && t !in resolved)
    ensures resolved' == resolved ==> queue' == queue
  {
    resolved', queue' := resolved, queue;
    for n := 0 to |dependencies|
      invariant resolved' == resolved + Elements(dependencies[..n]) && resolved' <= all
      invariant forall t :: t in queue' <==> t in queue || (t in resolved' && t !in resolved)
      invariant resolved' == resolved ==> queue' == queue
    {
      var d := dependencies[n];
      assert Elements(dependencies[..n + 1]) == Elements(dependencies[..n]) + {d};
      assert d in dependencies;
      if d !in resolved' {
        resolved' := resolved' + {d};
        queue' := queue' + [d];
      }
    }
    assert dependencies[..|dependencies|] == dependencies;
  }

  /** The elements of a set in ascending order. */
  method SortSet(s: set<string>) returns (r: seq<string>)
    ensures Ascending(r) && Elements(r) == s
  {
    r := [];
    var rest := s;
    while rest != {}
      invariant rest <= s && Ascending(r) && Elements(r) == s - rest
      decreases rest
    {
      var x :| x in rest;
      InsertAscending(x, r);
      r := Insert(x, r);
      rest := rest - {x};
    }
  }

  /**
   * Terminates on every edge list, cyclic ones included, and returns exactly the
   * reachable tables, sorted and without duplicates.
   */
  method ComputeClosure(requested: seq<string>, edges: seq<Edge>) returns (r: seq<string>)
    ensures Ascending(r) && Elements(r) == Closure(edges, Elements(requested))
  {
    ghost var request := Elements(requested);
    ghost var all := Closure(edges, request);
    ClosureIsLeast(edges, request);
    var byTable := BuildLists(edges);
    r := Resolve(requested, edges, all, byTable);
  }

  /** The worklist loop, inside any closed set `all` that contains the request. */
  method Resolve(requested: seq<string>, ghost edges: seq<Edge>, ghost all: set<string>, byTable: map<string, seq<string>>)
    returns (r: seq<string>)
    requires Lists(byTable, edges) && Elements(requested) <= all && Closed(edges, all)
    ensures Ascending(r) && Elements(requested) <= Elements(r) <= all && Closed(edges, Elements(r))
  {
    var resolved := set t | t in requested;
    var queue := requested;
    while queue != []
      invariant Elements(requested) <= resolved <= all
      invariant forall t :: t in queue ==> t in resolved
      invariant forall a, b :: a in resolved && a !in queue && Leads(edges, a, b) ==> b in resolved
      decreases all - resolved, |queue|
    {
      var table := queue[0];
      ghost var before := queue;
      queue := queue[1..];
      assert before == [table] + queue;
      if table != "" {
        var dependencies := if table in byTable then byTable[table] else [];
        resolved, queue := Expand(edges, all, table, dependencies, resolved, queue);
        assert forall b :: Leads(edges, table, b) ==> b in Elements(dependencies);
      }
    }
    assert Closed(edges, resolved);
    r := SortSet(resolved);
  }
}
