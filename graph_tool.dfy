/**
 * The neighbour lookup on the knowledge graph: an entity id is resolved to a node (exactly, with
 * `.md` appended, or as the first node whose id contains it ignoring case), and the nodes one
 * edge away are listed, successors first and then predecessors.
 */
module GraphTools {
  import opened Wrappers
  import opened Text
  import opened DiGraphs
  import GraphBuilding

  /** One result dict: the neighbour, its type, the edge's relation and its direction. */
  datatype Related = Related(node: string, nodeType: string, relation: string, direction: string)

  /** `self.graph.nodes[n]`: the attributes of a node (none for a node the graph lacks). */
  function NodeAttrs(g: DiGraph, n: string): Attrs
  {
    if n in g.attrs then g.attrs[n] else map[]
  }

  /** `self.graph.get_edge_data(u, v)`. */
  function EdgeData(g: DiGraph, u: string, v: string): Attrs
  {
    if (u, v) in g.edgeAttrs then g.edgeAttrs[(u, v)] else map[]
  }

  /** The first node, in insertion order, whose lower-cased id contains `needle`. */
  function FirstContaining(nodes: seq<string>, needle: string): (r: Option<string>)
  {
    if nodes == [] then None
    else if Contains(Lower(nodes[0]), needle) then Some(nodes[0])
    else FirstContaining(nodes[1..], needle)
  }

  /** The first containing node is the first one, in order, that contains the needle; None when none does. */
  lemma {:induction false} FirstContainingIsFirst(nodes: seq<string>, needle: string)
    ensures FirstContaining(nodes, needle).None? <==> forall n :: n in nodes ==> !Contains(Lower(n), needle)
    ensures FirstContaining(nodes, needle).Some? ==>
      exists i :: 0 <= i < |nodes| && nodes[i] == FirstContaining(nodes, needle).value &&
        Contains(Lower(nodes[i]), needle) && forall j :: 0 <= j < i ==> !Contains(Lower(nodes[j]), needle)
  {
    if nodes != [] && !Contains(Lower(nodes[0]), needle) {
      FirstContainingIsFirst(nodes[1..], needle);
      assert forall n :: n in nodes ==> n == nodes[0] || n in nodes[1..];
      if FirstContaining(nodes[1..], needle).Some? {
        var i :| 0 <= i < |nodes[1..]| && nodes[1..][i] == FirstContaining(nodes[1..], needle).value &&
          Contains(Lower(nodes[1..][i]), needle) && forall j :: 0 <= j < i ==> !Contains(Lower(nodes[1..][j]), needle);
        assert forall j :: 0 <= j < i + 1 ==> !Contains(Lower(nodes[j]), needle) by {
          forall j | 0 <= j < i + 1
            ensures !Contains(Lower(nodes[j]), needle)
          {
            if j > 0 { assert nodes[j] == nodes[1..][j - 1]; }
          }
        }
      }
    }
  }

  /** The node an entity id names: itself, else with `.md` appended, else the first node containing it. */
  function Resolve(g: DiGraph, entityId: string): Option<string>
  {
    if entityId in g.attrs then Some(entityId)
    else if entityId + ".md" in g.attrs then Some(entityId + ".md")
    else FirstContaining(g.nodes, Lower(entityId))
  }

  /** The outgoing neighbours as results. */
  function OutRelated(g: DiGraph, target: string, ns: seq<string>): (r: seq<Related>)
  {
    if ns == [] then []
    else
      var n := ns[|ns| - 1];
      OutRelated(g, target, ns[..|ns| - 1]) +
        [Related(n, AttrOr(NodeAttrs(g, n), "type", "unknown"), AttrOr(EdgeData(g, target, n), "relation", "related_to"), "out")]
  }

  /** The incoming neighbours as results. */
  function InRelated(g: DiGraph, target: string, ns: seq<string>): (r: seq<Related>)
  {
    if ns == [] then []
    else
      var n := ns[|ns| - 1];
      InRelated(g, target, ns[..|ns| - 1]) +
        [Related(n, AttrOr(NodeAttrs(g, n), "type", "unknown"), AttrOr(EdgeData(g, n, target), "relation", "related_to"), "in")]
  }

  /** `get_related_nodes`: nothing for an empty graph or an unresolved (or empty) target. */
  function RelatedSpec(g: DiGraph, entityId: string): seq<Related>
  {
    if g.nodes == [] then []
    else
      var target := Resolve(g, entityId);
      if target.None? || target.value == "" then []
      else OutRelated(g, target.value, Successors(g, target.value)) + InRelated(g, target.value, Predecessors(g, target.value))
  }

  /**
   * The order of resolution: an exact id wins, then the id with `.md` appended, then the first
   * node in insertion order whose id contains the entity id ignoring case; None only when no
   * node contains it.
   */
  lemma ResolutionOrder(g: DiGraph, entityId: string)
    ensures entityId in g.attrs ==> Resolve(g, entityId) == Some(entityId)
    ensures entityId !in g.attrs && entityId + ".md" in g.attrs ==> Resolve(g, entityId) == Some(entityId + ".md")
    ensures entityId !in g.attrs && entityId + ".md" !in g.attrs ==>
      (Resolve(g, entityId).None? <==> forall n :: n in g.nodes ==> !Contains(Lower(n), Lower(entityId)))
    ensures entityId !in g.attrs && entityId + ".md" !in g.attrs && Resolve(g, entityId).Some? ==>
      exists i :: 0 <= i < |g.nodes| && g.nodes[i] == Resolve(g, entityId).value &&
        Contains(Lower(g.nodes[i]), Lower(entityId)) &&
        forall j :: 0 <= j < i ==> !Contains(Lower(g.nodes[j]), Lower(entityId))
  {
    FirstContainingIsFirst(g.nodes, Lower(entityId));
  }

  /** Each outgoing result is a successor reached over an edge, with that edge's relation. */
  lemma {:induction false} OutRelatedShape(g: DiGraph, target: string, ns: seq<string>)
    ensures |OutRelated(g, target, ns)| == |ns|
    ensures forall i :: 0 <= i < |ns| ==> var x := OutRelated(g, target, ns)[i];
      x.node == ns[i] && x.direction == "out" &&
      x.nodeType == AttrOr(NodeAttrs(g, ns[i]), "type", "unknown") &&
      x.relation == AttrOr(EdgeData(g, target, ns[i]), "relation", "related_to")
    decreases |ns|
  {
    if ns != [] {
      OutRelatedShape(g, target, ns[..|ns| - 1]);
    }
  }

  /** Each incoming result is a predecessor reached over an edge, with that edge's relation. */
  lemma {:induction false} InRelatedShape(g: DiGraph, target: string, ns: seq<string>)
    ensures |InRelated(g, target, ns)| == |ns|
    ensures forall i :: 0 <= i < |ns| ==> var x := InRelated(g, target, ns)[i];
      x.node == ns[i] && x.direction == "in" &&
      x.nodeType == AttrOr(NodeAttrs(g, ns[i]), "type", "unknown") &&
      x.relation == AttrOr(EdgeData(g, ns[i], target), "relation", "related_to")
    decreases |ns|
  {
    if ns != [] {
      InRelatedShape(g, target, ns[..|ns| - 1]);
    }
  }

  /** In a valid graph the outgoing results name, one per successor, the nodes the target has an edge to. */
  lemma OutNeighbours(g: DiGraph, target: string)
    requires Valid(g)
    ensures var a := OutRelated(g, target, Successors(g, target));
      && |a| == |Successors(g, target)|
      && forall i :: 0 <= i < |a| ==> a[i].direction == "out" && (target, a[i].node) in g.edgeAttrs && a[i].node in g.attrs
  {
    var outs := Successors(g, target);
    NeighboursAreEdges(g, target);
    OutRelatedShape(g, target, outs);
    assert forall i :: 0 <= i < |outs| ==> outs[i] in outs;
  }

  /** In a valid graph the incoming results name, one per predecessor, the nodes with an edge to the target. */
  lemma InNeighbours(g: DiGraph, target: string)
    requires Valid(g)
    ensures var b := InRelated(g, target, Predecessors(g, target));
      && |b| == |Predecessors(g, target)|
      && forall i :: 0 <= i < |b| ==> b[i].direction == "in" && (b[i].node, target) in g.edgeAttrs && b[i].node in g.attrs
  {
    var ins := Predecessors(g, target);
    NeighboursAreEdges(g, target);
    InRelatedShape(g, target, ins);
    assert forall i :: 0 <= i < |ins| ==> ins[i] in ins;
  }

  /**
   * For a resolved target the results are one per edge touching it: the outgoing ones first,
   * one per successor, then the incoming ones, one per predecessor, each naming a node of the
   * graph joined to the target by an edge in that direction.
   */
  lemma RelatedAreNeighbours(g: DiGraph, entityId: string, target: string)
    requires Valid(g) && g.nodes != []
    requires Resolve(g, entityId) == Some(target) && target != ""
    ensures var r := RelatedSpec(g, entityId);
      var outs := Successors(g, target);
      && |r| == |outs| + |Predecessors(g, target)|
      && (forall i :: 0 <= i < |outs| ==> r[i].direction == "out" && (target, r[i].node) in g.edgeAttrs)
      && (forall i :: |outs| <= i < |r| ==> r[i].direction == "in" && (r[i].node, target) in g.edgeAttrs)
      && (forall i :: 0 <= i < |r| ==> r[i].node in g.attrs)
  {
    var a := OutRelated(g, target, Successors(g, target));
    var b := InRelated(g, target, Predecessors(g, target));
    OutNeighbours(g, target);
    InNeighbours(g, target);
    assert RelatedSpec(g, entityId) == a + b;
  }

  /** An empty graph, an entity no node matches, or a target named "" gives no results. */
  lemma NothingRelated(g: DiGraph, entityId: string)
    ensures g.nodes == [] ==> RelatedSpec(g, entityId) == []
    ensures Resolve(g, entityId).None? ==> RelatedSpec(g, entityId) == []
    ensures Resolve(g, entityId) == Some("") ==> RelatedSpec(g, entityId) == []
  {
  }

  /** `GraphTool`: the graph it loaded. */
  class GraphTool {
    var graph: DiGraph

    /** With settings the tool loads the stored graph (empty when missing); without, it is empty. */
    constructor (hasSettings: bool, stored: Option<DiGraph>)
      ensures graph == if hasSettings then GraphBuilding.Loaded(stored) else Empty
    {
      if hasSettings {
        graph := GraphBuilding.Loaded(stored);
      } else {
        graph := Empty;
      }
    }

    /** The fuzzy search of `get_related_nodes`: the first node containing the entity id, ignoring case. */
    method FindContaining(entityId: string) returns (target: Option<string>)
      ensures target == FirstContaining(graph.nodes, Lower(entityId))
    {
      var needle := Lower(entityId);
      var nodes := graph.nodes;
      target := None;
      var i := 0;
      while i < |nodes|
        invariant 0 <= i <= |nodes|
        invariant FirstContaining(nodes, needle) == FirstContaining(nodes[i..], needle)
      {
        assert nodes[i..][1..] == nodes[i + 1..];
        if Contains(Lower(nodes[i]), needle) {
          target := Some(nodes[i]);
          return;
        }
        i := i + 1;
      }
    }

    /** The target resolution of `get_related_nodes`. */
    method ResolveTarget(entityId: string) returns (target: Option<string>)
      ensures target == Resolve(graph, entityId)
    {
      if entityId in graph.attrs {
        target := Some(entityId);
      } else if entityId + ".md" in graph.attrs {
        target := Some(entityId + ".md");
      } else {
        target := FindContaining(entityId);
      }
    }

    /** The outgoing-edge loop of `get_related_nodes`. */
    method ListOut(t: string, outs: seq<string>) returns (results: seq<Related>)
      ensures results == OutRelated(graph, t, outs)
    {
      results := [];
      for i := 0 to |outs|
        invariant results == OutRelated(graph, t, outs[..i])
      {
        assert outs[..i + 1][..i] == outs[..i];
        var n := outs[i];
        var edgeData := EdgeData(graph, t, n);
        results := results + [Related(n, AttrOr(NodeAttrs(graph, n), "type", "unknown"), AttrOr(edgeData, "relation", "related_to"), "out")];
      }
      assert outs[..|outs|] == outs;
    }

    /** The incoming-edge loop of `get_related_nodes`. */
    method ListIn(t: string, ins: seq<string>) returns (results: seq<Related>)
      ensures results == InRelated(graph, t, ins)
    {
      results := [];
      for i := 0 to |ins|
        invariant results == InRelated(graph, t, ins[..i])
      {
        assert ins[..i + 1][..i] == ins[..i];
        var n := ins[i];
        var edgeData := EdgeData(graph, n, t);
        results := results + [Related(n, AttrOr(NodeAttrs(graph, n), "type", "unknown"), AttrOr(edgeData, "relation", "related_to"), "in")];
      }
      assert ins[..|ins|] == ins;
    }

    /** `get_related_nodes`. */
    method GetRelatedNodes(entityId: string) returns (results: seq<Related>)
      ensures results == RelatedSpec(graph, entityId)
    {
      if graph.nodes == [] {
        return [];
      }
      var target := ResolveTarget(entityId);
      if target.None? || target.value == "" {
        return [];
      }
      var t := target.value;
      var outResults := ListOut(t, Successors(graph, t));
      var inResults := ListIn(t, Predecessors(graph, t));
      results := outResults + inResults;
    }
  }
}
