/** The automation editor's canvas (src/components/flows/FlowCanvas.tsx).
    Its keyboard delete removes nodes and edges by their own selection
    flags and, unlike the architecture canvas, does not cascade from a
    deleted node to the edges touching it. */
module FlowCanvas {
  import opened Types
  import Lists

  /** A trigger, action or condition node; its position and data are owned
      by the graph library and play no part in the delete. */
  datatype FlowNode = FlowNode(id: string, kind: string, selected: bool)

  function FlowNodeIds(nodes: seq<FlowNode>): set<string>
  {
    set n | n in nodes :: n.id
  }

  /** The ids of the selected nodes. */
  function SelectedIds(nodes: seq<FlowNode>): set<string>
  {
    set n | n in nodes && n.selected :: n.id
  }

  /** `nds.filter((node) => !node.selected)` */
  function DeleteSelectedNodes(nodes: seq<FlowNode>): (r: seq<FlowNode>)
    ensures forall n :: n in r <==> n in nodes && !n.selected
  {
    Lists.Filter(nodes, (n: FlowNode) => !n.selected)
  }

  /** `eds.filter((edge) => !edge.selected)` */
  function DeleteSelectedEdges(edges: seq<Edge>): (r: seq<Edge>)
    ensures forall e :: e in r <==> e in edges && !e.selected
  {
    Lists.Filter(edges, (e: Edge) => !e.selected)
  }

  /** Unselected nodes and edges keep their order. */
  lemma DeleteKeepsOrder(a: seq<FlowNode>, b: seq<FlowNode>, ea: seq<Edge>, eb: seq<Edge>)
    ensures DeleteSelectedNodes(a + b) == DeleteSelectedNodes(a) + DeleteSelectedNodes(b)
    ensures DeleteSelectedEdges(ea + eb) == DeleteSelectedEdges(ea) + DeleteSelectedEdges(eb)
  {
    Lists.FilterConcat(a, b, (n: FlowNode) => !n.selected);
    Lists.FilterConcat(ea, eb, (e: Edge) => !e.selected);
  }

  /** A second delete removes nothing more. */
  lemma DeleteIdempotent(nodes: seq<FlowNode>, edges: seq<Edge>)
    ensures DeleteSelectedNodes(DeleteSelectedNodes(nodes)) == DeleteSelectedNodes(nodes)
    ensures DeleteSelectedEdges(DeleteSelectedEdges(edges)) == DeleteSelectedEdges(edges)
  {
    Lists.FilterIdempotent(nodes, (n: FlowNode) => !n.selected);
    Lists.FilterIdempotent(edges, (e: Edge) => !e.selected);
  }

  /** The edges survive only if every unselected edge avoids the selected
      nodes; under that condition the delete keeps referential integrity. */
  lemma DeletePreservesIntegrityWhenEdgesSelected(nodes: seq<FlowNode>, edges: seq<Edge>)
    requires EdgesWithin(FlowNodeIds(nodes), edges)
    requires forall e :: e in edges && !e.selected ==>
               e.source !in SelectedIds(nodes) && e.target !in SelectedIds(nodes)
    ensures EdgesWithin(FlowNodeIds(DeleteSelectedNodes(nodes)), DeleteSelectedEdges(edges))
  {
    var ns := DeleteSelectedNodes(nodes);
    forall e | e in DeleteSelectedEdges(edges)
      ensures e.source in FlowNodeIds(ns) && e.target in FlowNodeIds(ns)
    {
      var s :| s in nodes && s.id == e.source;
      var t :| t in nodes && t.id == e.target;
      assert !s.selected && !t.selected;
      assert s in ns && t in ns;
    }
  }

  /** No cascade: a selected trigger wired to an unselected action by an
      unselected edge is removed, the edge stays, and it now dangles. The
      architecture canvas's delete can never produce this (see
      GraphCanvas.DeletePreservesIntegrity). */
  lemma DeleteCanLeaveDanglingEdge()
    ensures var nodes := [FlowNode("trigger-1", "trigger", true), FlowNode("action-1", "action", false)];
            var edges := [Edge("e1", "trigger-1", "action-1", false, false)];
            && EdgesWithin(FlowNodeIds(nodes), edges)
            && DeleteSelectedEdges(edges) == edges
            && !EdgesWithin(FlowNodeIds(DeleteSelectedNodes(nodes)), DeleteSelectedEdges(edges))
  {
    var nodes := [FlowNode("trigger-1", "trigger", true), FlowNode("action-1", "action", false)];
    var edges := [Edge("e1", "trigger-1", "action-1", false, false)];
    assert nodes[0] in nodes && nodes[1] in nodes;
    assert FlowNodeIds(nodes) == {"trigger-1", "action-1"};
    Lists.FilterKeepsAll(edges, (e: Edge) => !e.selected);
    var ns := DeleteSelectedNodes(nodes);
    assert "trigger-1" !in FlowNodeIds(ns);
    assert edges[0] in DeleteSelectedEdges(edges);
  }

  class Canvas {
    var nodes: seq<FlowNode>
    var edges: seq<Edge>

    /** The lists start as the flow's own. */
    constructor (flowNodes: seq<FlowNode>, flowEdges: seq<Edge>)
      ensures nodes == flowNodes && edges == flowEdges
    {
      nodes := flowNodes;
      edges := flowEdges;
    }

    /** `handleKeyDown` */
    method HandleKeyDown(key: string)
      modifies this
      ensures IsDeleteKey(key) ==> nodes == DeleteSelectedNodes(old(nodes)) && edges == DeleteSelectedEdges(old(edges))
      ensures !IsDeleteKey(key) ==> nodes == old(nodes) && edges == old(edges)
    {
      if IsDeleteKey(key) {
        nodes := DeleteSelectedNodes(nodes);
        edges := DeleteSelectedEdges(edges);
      }
    }
  }
}
