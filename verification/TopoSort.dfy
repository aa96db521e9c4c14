/** The depth-first sort of schema definitions that both code generators run before
    they emit types, over any finite graph, cycles included. */
module TopoSort {
  import opened Sequences

  type Name = string

  /** The part of a JSON schema that `collectRefs` looks at. A node with a `$ref` is a
      reference, and nothing below it is read. */
  datatype Schema = Ref(target: Name) | Node(children: seq<Schema>)

  /** The recursion stops below this depth. */
  const MAX_DEPTH := 20

  // -- References ----------------------------------------------------------------------

  /** The definitions a schema mentions, down to the depth limit. */
  function CollectRefs(schema: Schema, names: set<Name>, depth: nat): (refs: set<Name>)
    ensures refs <= names
    decreases schema
  {
    if depth > MAX_DEPTH then {}
    else match schema
      case Ref(target) => if target in names then {target} else {}
      case Node(children) =>
        set r | r in names && exists i :: 0 <= i < |children| && r in CollectRefs(children[i], names, depth + 1)
  }

  /** The loop of the generators: every child adds what it mentions. */
  method Collect(schema: Schema, names: set<Name>, depth: nat) returns (refs: set<Name>)
    ensures refs == CollectRefs(schema, names, depth)
    decreases schema
  {
    refs := {};
    if depth > MAX_DEPTH { return; }
    match schema
    case Ref(target) =>
      if target in names { refs := refs + {target}; }
    case Node(children) =>
      for i := 0 to |children|
        invariant forall r :: r in refs <==> exists k :: 0 <= k < i && r in CollectRefs(children[k], names, depth + 1)
      {
        var found := Collect(children[i], names, depth + 1);
        refs := refs + found;
      }
  }

  /** A list of child positions leads from a schema to a reference to `target`. */
  ghost predicate LeadsTo(schema: Schema, path: seq<nat>, target: Name)
    decreases schema
  {
    match schema
    case Ref(t) => path == [] && t == target
    case Node(children) =>
      path != [] && path[0] < |children| && LeadsTo(children[path[0]], path[1..], target)
  }

  /** A schema holds a reference at most `limit` levels down. */
  ghost predicate Mentions(schema: Schema, target: Name, limit: int) {
    exists path: seq<nat> :: |path| <= limit && LeadsTo(schema, path, target)
  }

  /** Exactly the known names that a reference within the depth limit names are collected:
      one nested deeper is missed. */
  lemma {:induction false} CollectRefsExact(schema: Schema, names: set<Name>, depth: nat, target: Name)
    ensures target in CollectRefs(schema, names, depth)
       <==> target in names && Mentions(schema, target, MAX_DEPTH - depth)
    decreases schema
  {
    match schema
    case Ref(t) =>
      if target in names && t == target && depth <= MAX_DEPTH {
        assert LeadsTo(schema, [], target);
      }
    case Node(children) =>
      forall i: nat | 0 <= i < |children|
        ensures target in CollectRefs(children[i], names, depth + 1)
           <==> target in names && Mentions(children[i], target, MAX_DEPTH - depth - 1)
      {
        CollectRefsExact(children[i], names, depth + 1, target);
      }
      if target in CollectRefs(schema, names, depth) {
        var i: nat :| 0 <= i < |children| && target in CollectRefs(children[i], names, depth + 1);
        var path :| |path| <= MAX_DEPTH - depth - 1 && LeadsTo(children[i], path, target);
        assert ([i] + path)[1..] == path;
        assert LeadsTo(schema, [i] + path, target);
      }
      if target in names && Mentions(schema, target, MAX_DEPTH - depth) {
        var path :| |path| <= MAX_DEPTH - depth && LeadsTo(schema, path, target);
        assert LeadsTo(children[path[0]], path[1..], target);
        assert target in CollectRefs(children[path[0]], names, depth + 1);
      }
  }

  // -- Graphs --------------------------------------------------------------------------

  type Graph = map<Name, seq<Name>>

  predicate Edge(deps: Graph, v: Name, w: Name) {
    v in deps && w in deps[v]
  }

  /** `collectRefs` only returns definitions, so every dependency is a node. */
  predicate Closed(deps: Graph) {
    forall v <- deps, w <- deps[v] :: w in deps
  }

  ghost predicate Path(deps: Graph, p: seq<Name>) {
    |p| > 0 && forall i :: 0 <= i < |p| - 1 ==> Edge(deps, p[i], p[i + 1])
  }

  ghost predicate Reaches(deps: Graph, v: Name, w: Name) {
    exists p :: Path(deps, p) && p[0] == v && p[|p| - 1] == w
  }

  lemma ReachesSelf(deps: Graph, v: Name)
    ensures Reaches(deps, v, v)
  {
    assert Path(deps, [v]);
  }

  lemma ReachesStep(deps: Graph, u: Name, v: Name, w: Name)
    requires Reaches(deps, u, v) && Edge(deps, v, w)
    ensures Reaches(deps, u, w)
  {
    var p :| Path(deps, p) && p[0] == u && p[|p| - 1] == v;
    assert Path(deps, p + [w]);
  }

  /** No edge lies on a cycle. */
  ghost predicate Acyclic(deps: Graph) {
    forall v, w | Edge(deps, v, w) :: !Reaches(deps, w, v)
  }

  // -- The order -----------------------------------------------------------------------

  /** Every dependency of `order[k]` is out before it, or reaches it. */
  ghost predicate SettledAt(deps: Graph, order: seq<Name>, k: nat)
    requires k < |order|
  {
    forall w | Edge(deps, order[k], w) :: w in order[..k] || Reaches(deps, w, order[k])
  }

  ghost predicate Settled(deps: Graph, order: seq<Name>) {
    forall k: nat | k < |order| :: SettledAt(deps, order, k)
  }

  /** Every dependency comes before what depends on it. */
  ghost predicate InOrder(deps: Graph, order: seq<Name>) {
    forall k: nat, w | k < |order| && Edge(deps, order[k], w) :: w in order[..k]
  }

  /** What the sort promises of its result. */
  ghost predicate Sorted(deps: Graph, order: seq<Name>) {
    NoDuplicates(order) && Settled(deps, order) && forall n :: n in order <==> n in deps
  }

  lemma SettledAppend(deps: Graph, order: seq<Name>, name: Name)
    requires Settled(deps, order)
    requires forall w | Edge(deps, name, w) :: w in order || Reaches(deps, w, name)
    ensures Settled(deps, order + [name])
  {
    var longer := order + [name];
    forall k: nat | k < |longer| ensures SettledAt(deps, longer, k) {
      if k < |order| {
        assert SettledAt(deps, order, k) && longer[..k] == order[..k] && longer[k] == order[k];
      } else {
        assert longer[..k] == order && longer[k] == name;
      }
    }
  }

  /** Positions along a path of an ordered list only go down. */
  lemma {:induction false} PathDescends(deps: Graph, order: seq<Name>, p: seq<Name>, k: nat)
    requires Path(deps, p) && k < |order| && order[k] == p[0] && InOrder(deps, order)
    ensures exists j: nat :: j <= k && order[j] == p[|p| - 1]
    decreases |p|
  {
    if |p| > 1 {
      assert Edge(deps, order[k], p[1]);
      var j: nat :| j < k && order[j] == p[1];
      assert Path(deps, p[1..]) by {
        forall i | 0 <= i < |p[1..]| - 1 ensures Edge(deps, p[1..][i], p[1..][i + 1]) {
          assert Edge(deps, p[i + 1], p[i + 2]);
        }
      }
      PathDescends(deps, order, p[1..], j);
    }
  }

  /** The result puts every dependency first exactly when the graph has no cycle. */
  lemma OrderedIffAcyclic(deps: Graph, order: seq<Name>)
    requires Sorted(deps, order) && Closed(deps)
    ensures InOrder(deps, order) <==> Acyclic(deps)
  {
    if Acyclic(deps) {
      forall k: nat, w | k < |order| && Edge(deps, order[k], w) ensures w in order[..k] {
        assert SettledAt(deps, order, k);
      }
    }
    if InOrder(deps, order) {
      forall v, w | Edge(deps, v, w) ensures !Reaches(deps, w, v) {
        if Reaches(deps, w, v) {
          var p :| Path(deps, p) && p[0] == w && p[|p| - 1] == v;
          assert v in order;
          var k: nat :| k < |order| && order[k] == v;
          assert w in order[..k];
          var i: nat :| i < k && order[i] == w;
          PathDescends(deps, order, p, i);
          assert false;
        }
      }
    }
  }

  /** An edge is out of order only inside a cycle: the dependency reaches back. */
  lemma OutOfOrderOnlyOnCycle(deps: Graph, order: seq<Name>, i: nat, j: nat)
    requires Sorted(deps, order) && i < j < |order| && Edge(deps, order[i], order[j])
    ensures Reaches(deps, order[j], order[i])
  {
    assert SettledAt(deps, order, i);
    assert order[j] !in order[..i];
  }

  // -- The sort ------------------------------------------------------------------------

  /** The sets and the list that the nested `visit` changes in place. */
  class Sorter {
    const deps: Graph
    var sorted: seq<Name>
    var visited: set<Name>
    var visiting: set<Name>

    constructor (deps: Graph)
      ensures this.deps == deps && sorted == [] && visited == {} && visiting == {}
    {
      this.deps := deps;
      sorted, visited, visiting := [], {}, {};
    }

    /** The list so far is a settled list of the visited names. */
    ghost predicate Valid()
      reads this
    {
      && NoDuplicates(sorted) && Settled(deps, sorted)
      && (forall n :: n in sorted <==> n in visited)
      && visited !! visiting && visited + visiting <= deps.Keys
    }

    method Visit(name: Name)
      requires Valid() && Closed(deps) && name in deps
      requires forall u <- visiting :: Reaches(deps, u, name)
      modifies this
      ensures Valid() && visiting == old(visiting)
      ensures old(sorted) <= sorted && old(visited) <= visited
      ensures name in visited || name in visiting
      ensures visited - old(visited) <= deps.Keys
      decreases deps.Keys - visiting
    {
      if name in visited { return; }
      if name in visiting { return; }
      visiting := visiting + {name};
      for i := 0 to |deps[name]|
        invariant Valid() && visiting == old(visiting) + {name}
        invariant old(sorted) <= sorted && old(visited) <= visited
        invariant forall k | 0 <= k < i :: deps[name][k] in visited || deps[name][k] in visiting
      {
        var dep := deps[name][i];
        assert Edge(deps, name, dep);
        forall u <- visiting ensures Reaches(deps, u, dep) {
          ReachesSelf(deps, name);
          ReachesStep(deps, u, name, dep);
        }
        Visit(dep);
      }
      forall w | Edge(deps, name, w) ensures w in sorted || Reaches(deps, w, name) {
        ReachesSelf(deps, name);
      }
      SettledAppend(deps, sorted, name);
      visiting := visiting - {name};
      visited := visited + {name};
      sorted := sorted + [name];
    }
  }

  /** A definition and its schema. Names are the keys of one object, so each appears once. */
  datatype Def = Def(name: Name, schema: Schema)

  function Names(defs: seq<Def>): (names: seq<Name>)
    ensures |names| == |defs| && forall i | 0 <= i < |defs| :: names[i] == defs[i].name
  {
    seq(|defs|, i requires 0 <= i < |defs| => defs[i].name)
  }

  /** A set as a list: the order a set is walked in is left open. */
  ghost predicate Lists(s: seq<Name>, elements: set<Name>) {
    NoDuplicates(s) && forall n :: n in s <==> n in elements
  }

  /** The graph of a list of definitions: their references without those to themselves. */
  ghost predicate GraphOf(defs: seq<Def>, deps: Graph) {
    && deps.Keys == (set d | d in defs :: d.name)
    && forall d <- defs ::
         d.name in deps && Lists(deps[d.name], CollectRefs(d.schema, set e | e in defs :: e.name, 0) - {d.name})
  }

  method AsList(elements: set<Name>) returns (s: seq<Name>)
    ensures Lists(s, elements)
  {
    s := [];
    var rest := elements;
    while rest != {}
      invariant rest <= elements && Lists(s, elements - rest)
      decreases rest
    {
      var n :| n in rest;
      rest := rest - {n};
      s := s + [n];
    }
  }

  method BuildGraph(defs: seq<Def>) returns (deps: Graph)
    requires NoDuplicates(Names(defs))
    ensures GraphOf(defs, deps) && Closed(deps)
  {
    var all := set d | d in defs :: d.name;
    deps := map[];
    for i := 0 to |defs|
      invariant deps.Keys == set d | d in defs[..i] :: d.name
      invariant forall d <- defs[..i] ::
                  d.name in deps && Lists(deps[d.name], CollectRefs(d.schema, all, 0) - {d.name})
    {
      var name := defs[i].name;
      var refs := Collect(defs[i].schema, all, 0);
      var list := AsList(refs - {name});
      forall d <- defs[..i] ensures d.name != name {
        var k :| 0 <= k < i && defs[k] == d;
        assert Names(defs)[k] != Names(defs)[i];
      }
      deps := deps[name := list];
      assert defs[..i + 1] == defs[..i] + [defs[i]];
    }
    assert defs[..|defs|] == defs;
  }

  /** Sort the definitions so that what a type refers to comes before it. */
  method TopoSortDefs(defs: seq<Def>) returns (order: seq<Name>, deps: Graph)
    requires NoDuplicates(Names(defs))
    ensures GraphOf(defs, deps) && Closed(deps)
    ensures Sorted(deps, order)
  {
    var graph := BuildGraph(defs);
    var sorter := new Sorter(graph);
    for i := 0 to |defs|
      invariant fresh(sorter) && sorter.deps == graph && sorter.Valid() && sorter.visiting == {}
      invariant forall k | 0 <= k < i :: defs[k].name in sorter.visited
    {
      sorter.Visit(defs[i].name);
    }
    order, deps := sorter.sorted, graph;
  }
}
