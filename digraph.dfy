/**
 * The part of a networkx `DiGraph` the knowledge graph relies on: nodes in insertion order, each
 * with an attribute dict, and directed edges in insertion order, each with an attribute dict.
 * Adding a node or an edge that exists merges the new attributes into the old ones; removing
 * a node removes every edge that touches it.
 */
module DiGraphs {

  /** An attribute dict with string values (`type`, `label`, `hash`, `relation`). */
  type Attrs = map<string, string>

  type Edge = (string, string)

  datatype DiGraph = DiGraph(nodes: seq<string>, attrs: map<string, Attrs>, edges: seq<Edge>, edgeAttrs: map<Edge, Attrs>)

  /** `nx.DiGraph()`. */
  const Empty: DiGraph := DiGraph([], map[], [], map[])

  predicate Distinct<T(==)>(s: seq<T>)
  {
    forall i, j :: 0 <= i < j < |s| ==> s[i] != s[j]
  }

  /**
   * What networkx keeps consistent: every node once, the attribute dicts exactly for the nodes,
   * every edge once, the edge dicts exactly for the edges, and both ends of an edge are nodes.
   */
  ghost predicate Valid(g: DiGraph)
  {
    && Distinct(g.nodes)
    && (forall n :: n in g.attrs <==> n in g.nodes)
    && Distinct(g.edges)
    && (forall e :: e in g.edgeAttrs <==> e in g.edges)
    && (forall e :: e in g.edgeAttrs ==> e.0 in g.attrs && e.1 in g.attrs)
  }

  lemma EmptyIsValid()
    ensures Valid(Empty) && |Empty.nodes| == 0
  {
  }

  /** `d.get(key, default)` on an attribute dict. */
  function AttrOr(a: Attrs, key: string, default: string): string
  {
    if key in a then a[key] else default
  }

  /**
   * `g.add_node(n, **a)`: a new node is appended with `a`; an existing node keeps its place and
   * has `a` merged into its attributes. Edges are untouched.
   */
  function AddNode(g: DiGraph, n: string, a: Attrs): DiGraph
  {
    if n in g.attrs then g.(attrs := g.attrs[n := g.attrs[n] + a])
    else g.(nodes := g.nodes + [n], attrs := g.attrs[n := a])
  }

  /**
   * Adding a node keeps the graph valid, adds `n` and nothing else, leaves the other nodes and
   * every edge alone, and gives `n` the attributes of `a` over the ones it had.
   */
  lemma AddNodeFacts(g: DiGraph, n: string, a: Attrs)
    ensures var r := AddNode(g, n, a);
      && (Valid(g) ==> Valid(r))
      && (forall m :: m in r.attrs <==> m in g.attrs || m == n)
      && (forall m :: m in g.attrs && m != n ==> r.attrs[m] == g.attrs[m])
      && (forall k :: k in a ==> k in r.attrs[n] && r.attrs[n][k] == a[k])
      && (n in g.attrs ==> forall k :: k in g.attrs[n] && k !in a ==> k in r.attrs[n] && r.attrs[n][k] == g.attrs[n][k])
      && (n !in g.attrs ==> r.attrs[n] == a)
      && r.edges == g.edges && r.edgeAttrs == g.edgeAttrs
  {
  }

  /** The first half of `g.add_edge`: a missing end becomes a node with no attributes. */
  function Touch(g: DiGraph, n: string): DiGraph
  {
    if n in g.attrs then g else g.(nodes := g.nodes + [n], attrs := g.attrs[n := map[]])
  }

  /** The second half of `g.add_edge`: a new edge is appended, an existing one has `a` merged in. */
  function Link(g: DiGraph, u: string, v: string, a: Attrs): DiGraph
  {
    if (u, v) in g.edgeAttrs then g.(edgeAttrs := g.edgeAttrs[(u, v) := g.edgeAttrs[(u, v)] + a])
    else g.(edges := g.edges + [(u, v)], edgeAttrs := g.edgeAttrs[(u, v) := a])
  }

  /**
   * `g.add_edge(u, v, **a)`: the missing ends are added as nodes without attributes, a new edge
   * is appended with `a`, and an existing edge has `a` merged into its attributes, so a second
   * edge between the same ordered pair overwrites the attributes it repeats.
   */
  function AddEdge(g: DiGraph, u: string, v: string, a: Attrs): DiGraph
  {
    Link(Touch(Touch(g, u), v), u, v, a)
  }

  lemma TouchFacts(g: DiGraph, n: string)
    ensures var r := Touch(g, n);
      && (Valid(g) ==> Valid(r))
      && (forall m :: m in r.attrs <==> m in g.attrs || m == n)
      && (forall m :: m in g.attrs ==> r.attrs[m] == g.attrs[m])
      && r.edges == g.edges && r.edgeAttrs == g.edgeAttrs
  {
  }

  lemma LinkKeepsValid(g: DiGraph, u: string, v: string, a: Attrs)
    requires Valid(g) && u in g.attrs && v in g.attrs
    ensures Valid(Link(g, u, v, a))
  {
    var r := Link(g, u, v, a);
    if (u, v) !in g.edgeAttrs {
      assert (u, v) !in g.edges;
      assert forall i :: 0 <= i < |g.edges| ==> r.edges[i] == g.edges[i];
    }
  }

  lemma LinkFacts(g: DiGraph, u: string, v: string, a: Attrs)
    ensures var r := Link(g, u, v, a);
      && r.nodes == g.nodes && r.attrs == g.attrs
      && (forall e :: e in r.edgeAttrs <==> e in g.edgeAttrs || e == (u, v))
      && (forall e :: e in g.edgeAttrs && e != (u, v) ==> r.edgeAttrs[e] == g.edgeAttrs[e])
      && (forall k :: k in a ==> k in r.edgeAttrs[(u, v)] && r.edgeAttrs[(u, v)][k] == a[k])
  {
  }

  /**
   * Adding an edge keeps the graph valid, adds its ends as nodes without changing any existing
   * node, adds `(u, v)` and no other edge, leaves the other edges alone, and gives `(u, v)` the
   * attributes of `a` over the ones it had.
   */
  lemma AddEdgeFacts(g: DiGraph, u: string, v: string, a: Attrs)
    ensures var r := AddEdge(g, u, v, a);
      && (Valid(g) ==> Valid(r))
      && (forall m :: m in r.attrs <==> m in g.attrs || m == u || m == v)
      && (forall m :: m in g.attrs ==> r.attrs[m] == g.attrs[m])
      && (forall e :: e in r.edgeAttrs <==> e in g.edgeAttrs || e == (u, v))
      && (forall e :: e in g.edgeAttrs && e != (u, v) ==> r.edgeAttrs[e] == g.edgeAttrs[e])
      && (forall k :: k in a ==> k in r.edgeAttrs[(u, v)] && r.edgeAttrs[(u, v)][k] == a[k])
  {
    TouchFacts(g, u);
    TouchFacts(Touch(g, u), v);
    LinkFacts(Touch(Touch(g, u), v), u, v, a);
    if Valid(g) {
      LinkKeepsValid(Touch(Touch(g, u), v), u, v, a);
    }
  }

  // ------------------------------------------------------------------ removal

  /** The edges that do not leave `u`, in order. */
  function EdgesNotFrom(es: seq<Edge>, u: string): (r: seq<Edge>)
    ensures forall e :: e in r <==> e in es && e.0 != u
    ensures Distinct(es) ==> Distinct(r)
  {
    if es == [] then []
    else
      var init := es[..|es| - 1];
      var e := es[|es| - 1];
      assert forall x :: x in es <==> x in init || x == e;
      assert Distinct(es) ==> Distinct(init) && e !in init;
      EdgesNotFrom(init, u) + if e.0 != u then [e] else []
  }

  /** The nodes outside `ns`, in order. */
  function NodesOutside(nodes: seq<string>, ns: set<string>): (r: seq<string>)
    ensures forall m :: m in r <==> m in nodes && m !in ns
    ensures Distinct(nodes) ==> Distinct(r)
  {
    if nodes == [] then []
    else
      var init := nodes[..|nodes| - 1];
      var m := nodes[|nodes| - 1];
      assert forall x :: x in nodes <==> x in init || x == m;
      assert Distinct(nodes) ==> Distinct(init) && m !in init;
      NodesOutside(init, ns) + if m !in ns then [m] else []
  }

  /** The edges with neither end in `ns`, in order. */
  function EdgesOutside(es: seq<Edge>, ns: set<string>): (r: seq<Edge>)
    ensures forall e :: e in r <==> e in es && e.0 !in ns && e.1 !in ns
    ensures Distinct(es) ==> Distinct(r)
  {
    if es == [] then []
    else
      var init := es[..|es| - 1];
      var e := es[|es| - 1];
      assert forall x :: x in es <==> x in init || x == e;
      assert Distinct(es) ==> Distinct(init) && e !in init;
      EdgesOutside(init, ns) + if e.0 !in ns && e.1 !in ns then [e] else []
  }

  /** `g.remove_edges_from(list(g.out_edges(u)))`: every edge leaving `u` goes. */
  function RemoveOutEdges(g: DiGraph, u: string): DiGraph
  {
    g.(edges := EdgesNotFrom(g.edges, u), edgeAttrs := map e | e in g.edgeAttrs && e.0 != u :: g.edgeAttrs[e])
  }

  /** Removing the out-edges of `u` keeps the graph valid and changes nothing else. */
  lemma RemoveOutEdgesFacts(g: DiGraph, u: string)
    ensures var r := RemoveOutEdges(g, u);
      && (Valid(g) ==> Valid(r))
      && r.nodes == g.nodes && r.attrs == g.attrs
      && (forall e :: e in r.edgeAttrs <==> e in g.edgeAttrs && e.0 != u)
      && (forall e :: e in r.edgeAttrs ==> r.edgeAttrs[e] == g.edgeAttrs[e])
  {
  }

  /** `g.remove_nodes_from(ns)`: the nodes go, and with them every edge that touches one of them. */
  function RemoveNodes(g: DiGraph, ns: set<string>): DiGraph
  {
    DiGraph(NodesOutside(g.nodes, ns), map m | m in g.attrs && m !in ns :: g.attrs[m],
            EdgesOutside(g.edges, ns), map e | e in g.edgeAttrs && e.0 !in ns && e.1 !in ns :: g.edgeAttrs[e])
  }

  /**
   * Removing nodes keeps the graph valid, keeps exactly the other nodes and the edges between
   * them, and changes none of their attributes.
   */
  lemma RemoveNodesFacts(g: DiGraph, ns: set<string>)
    ensures var r := RemoveNodes(g, ns);
      && (Valid(g) ==> Valid(r))
      && (forall m :: m in r.attrs <==> m in g.attrs && m !in ns)
      && (forall m :: m in r.attrs ==> r.attrs[m] == g.attrs[m])
      && (forall e :: e in r.edgeAttrs <==> e in g.edgeAttrs && e.0 !in ns && e.1 !in ns)
      && (forall e :: e in r.edgeAttrs ==> r.edgeAttrs[e] == g.edgeAttrs[e])
  {
  }

  // ------------------------------------------------------------------ neighbours

  /** `g.successors(u)`: the heads of the edges leaving `u`, in edge insertion order. */
  function Successors(g: DiGraph, u: string): (r: seq<string>)
  {
    Heads(g.edges, u)
  }

  function Heads(es: seq<Edge>, u: string): (r: seq<string>)
    ensures forall v :: v in r <==> (u, v) in es
    ensures Distinct(es) ==> Distinct(r)
  {
    if es == [] then []
    else
      var init := es[..|es| - 1];
      var e := es[|es| - 1];
      assert forall x :: x in es <==> x in init || x == e;
      assert Distinct(es) ==> Distinct(init) && e !in init;
      Heads(init, u) + if e.0 == u then [e.1] else []
  }

  /** `g.predecessors(v)`: the tails of the edges entering `v`, in edge insertion order. */
  function Predecessors(g: DiGraph, v: string): (r: seq<string>)
  {
    Tails(g.edges, v)
  }

  function Tails(es: seq<Edge>, v: string): (r: seq<string>)
    ensures forall u :: u in r <==> (u, v) in es
    ensures Distinct(es) ==> Distinct(r)
  {
    if es == [] then []
    else
      var init := es[..|es| - 1];
      var e := es[|es| - 1];
      assert forall x :: x in es <==> x in init || x == e;
      assert Distinct(es) ==> Distinct(init) && e !in init;
      Tails(init, v) + if e.1 == v then [e.0] else []
  }

  /** In a valid graph the neighbours are exactly the other ends of the edges, each listed once. */
  lemma NeighboursAreEdges(g: DiGraph, n: string)
    requires Valid(g)
    ensures forall v :: v in Successors(g, n) <==> (n, v) in g.edgeAttrs
    ensures forall u :: u in Predecessors(g, n) <==> (u, n) in g.edgeAttrs
    ensures Distinct(Successors(g, n)) && Distinct(Predecessors(g, n))
    ensures forall v :: v in Successors(g, n) ==> v in g.attrs
    ensures forall u :: u in Predecessors(g, n) ==> u in g.attrs
  {
  }
}
