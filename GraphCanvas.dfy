/** The architecture canvas (src/components/canvas/GraphCanvas.tsx): a node
    list, an edge list and the store's selected-node id, changed by the
    keyboard delete, the inspector's patch, the add button, the graph load
    and the library's selection events. */
module GraphCanvas {
  import opened Wrappers
  import opened Types
  import Lists
  import AppStore

  /** The nodes whose id is not `id`. */
  function DeleteNode(nodes: seq<Node>, id: string): (r: seq<Node>)
    ensures forall n :: n in r <==> n in nodes && n.id != id
    ensures id !in NodeIds(r)
  {
    Lists.Filter(nodes, (n: Node) => n.id != id)
  }

  /** The edges that neither start nor end at `id`. */
  function DeleteIncidentEdges(edges: seq<Edge>, id: string): (r: seq<Edge>)
    ensures forall e :: e in r <==> e in edges && e.source != id && e.target != id
  {
    Lists.Filter(edges, (e: Edge) => e.source != id && e.target != id)
  }

  /** What survives of a list keeps its order: the survivors of a prefix come
      before those of the rest. */
  lemma DeleteKeepsOrder(a: seq<Node>, b: seq<Node>, ea: seq<Edge>, eb: seq<Edge>, id: string)
    ensures DeleteNode(a + b, id) == DeleteNode(a, id) + DeleteNode(b, id)
    ensures DeleteIncidentEdges(ea + eb, id) == DeleteIncidentEdges(ea, id) + DeleteIncidentEdges(eb, id)
  {
    Lists.FilterConcat(a, b, (n: Node) => n.id != id);
    Lists.FilterConcat(ea, eb, (e: Edge) => e.source != id && e.target != id);
  }

  /** Deleting an id that no node carries leaves the node list as it is. */
  lemma DeleteAbsentIsIdentity(nodes: seq<Node>, id: string)
    requires id !in NodeIds(nodes)
    ensures DeleteNode(nodes, id) == nodes
  {
    forall i | 0 <= i < |nodes| ensures nodes[i].id != id {
      assert nodes[i] in nodes;
    }
    Lists.FilterKeepsAll(nodes, (n: Node) => n.id != id);
  }

  /** The cascade keeps referential integrity: every surviving edge still
      names surviving nodes. */
  lemma DeletePreservesIntegrity(nodes: seq<Node>, edges: seq<Edge>, id: string)
    requires EdgesClosed(nodes, edges)
    ensures EdgesClosed(DeleteNode(nodes, id), DeleteIncidentEdges(edges, id))
  {
    var ns := DeleteNode(nodes, id);
    forall e | e in DeleteIncidentEdges(edges, id)
      ensures e.source in NodeIds(ns) && e.target in NodeIds(ns)
    {
      var s :| s in nodes && s.id == e.source;
      var t :| t in nodes && t.id == e.target;
      assert s in ns && t in ns;
    }
  }

  /** `updateNodeData`: every node whose id is `nodeId` gets the patch merged
      into its data; every other node, and the list's length and ids, stay. */
  function UpdateNodes(nodes: seq<Node>, nodeId: string, patch: Patch): (r: seq<Node>)
    ensures |r| == |nodes|
    ensures forall i :: 0 <= i < |r| ==> r[i].id == nodes[i].id
    ensures forall i :: 0 <= i < |r| && nodes[i].id != nodeId ==> r[i] == nodes[i]
    ensures forall i :: 0 <= i < |r| && nodes[i].id == nodeId ==>
              r[i] == nodes[i].(data := Merge(nodes[i].data, patch))
  {
    seq(|nodes|, i requires 0 <= i < |nodes| =>
      if nodes[i].id == nodeId then nodes[i].(data := Merge(nodes[i].data, patch)) else nodes[i])
  }

  /** Patching an id that no node carries leaves the list as it is. */
  lemma UpdateAbsentIsIdentity(nodes: seq<Node>, nodeId: string, patch: Patch)
    requires nodeId !in NodeIds(nodes)
    ensures UpdateNodes(nodes, nodeId, patch) == nodes
  {
    var r := UpdateNodes(nodes, nodeId, patch);
    forall i | 0 <= i < |nodes| ensures r[i] == nodes[i] {
      assert nodes[i] in nodes;
    }
  }

  /** A patch keeps the set of node ids, so every edge stays attached. */
  lemma UpdatePreservesIntegrity(nodes: seq<Node>, edges: seq<Edge>, nodeId: string, patch: Patch)
    requires EdgesClosed(nodes, edges)
    ensures NodeIds(UpdateNodes(nodes, nodeId, patch)) == NodeIds(nodes)
    ensures EdgesClosed(UpdateNodes(nodes, nodeId, patch), edges)
  {
    var r := UpdateNodes(nodes, nodeId, patch);
    forall x | x in NodeIds(nodes) ensures x in NodeIds(r) {
      var i :| 0 <= i < |nodes| && nodes[i].id == x;
      assert r[i] in r;
    }
    forall x | x in NodeIds(r) ensures x in NodeIds(nodes) {
      var i :| 0 <= i < |r| && r[i].id == x;
      assert nodes[i] in nodes;
    }
  }

  /** The data every added node starts with. */
  const NewNodeData := ServiceNodeData("New Service", Some("Click to configure"), Healthy, Service, 50)

  /** `[...nds, newNode]` for the add button. */
  function AppendNewNode(nodes: seq<Node>, newId: string, position: Position): (r: seq<Node>)
    ensures |r| == |nodes| + 1
    ensures r[..|nodes|] == nodes
    ensures r[|nodes|].id == newId && r[|nodes|].viewType == ServiceNodeView
    ensures r[|nodes|].data.labelText == "New Service"
    ensures r[|nodes|].data.description == Some("Click to configure")
    ensures r[|nodes|].data.status == Healthy
    ensures r[|nodes|].data.nodeType == Service
    ensures r[|nodes|].data.configValue == 50
  {
    nodes + [Node(newId, ServiceNodeView, position, NewNodeData)]
  }

  /** Adding a node removes no id, so every edge stays attached. */
  lemma AddPreservesIntegrity(nodes: seq<Node>, edges: seq<Edge>, newId: string, position: Position)
    requires EdgesClosed(nodes, edges)
    ensures NodeIds(AppendNewNode(nodes, newId, position)) == NodeIds(nodes) + {newId}
    ensures EdgesClosed(AppendNewNode(nodes, newId, position), edges)
  {
    var r := AppendNewNode(nodes, newId, position);
    assert r[|nodes|] in r;
    forall x | x in NodeIds(nodes) ensures x in NodeIds(r) {
      var n :| n in nodes && n.id == x;
      assert n in r;
    }
  }

  /** `selectedNodes[0]?.id ?? null`: the first selected node's id, or none. */
  function SelectionId(selectedNodes: seq<Node>): (r: Option<string>)
    ensures r.None? <==> selectedNodes == []
    ensures r.Some? ==> r.value == selectedNodes[0].id
  {
    if selectedNodes == [] then None else Some(selectedNodes[0].id)
  }

  /** The delete fires on Delete or Backspace when a node id is selected;
      the empty string is falsy in the guard, so it selects nothing. */
  function DeleteApplies(key: string, selectedNodeId: Option<string>): (applies: bool)
    ensures applies ==> IsDeleteKey(key) && selectedNodeId.Some?
    ensures selectedNodeId.None? || selectedNodeId == Some("") ==> !applies
    ensures IsDeleteKey(key) && selectedNodeId.Some? && selectedNodeId.value != "" ==> applies
  {
    IsDeleteKey(key) && selectedNodeId.Some? && selectedNodeId.value != ""
  }

  class Canvas {
    var nodes: seq<Node>
    var edges: seq<Edge>
    /** The global store, which owns `selectedNodeId`. */
    const store: AppStore.Store

    /** Both lists start empty. */
    constructor (store: AppStore.Store)
      ensures nodes == [] && edges == [] && this.store == store
    {
      nodes := [];
      edges := [];
      this.store := store;
    }

    /** The graph load effect: new graph data replaces both lists; no data
        leaves them alone. */
    method LoadGraph(graphData: Option<GraphData>)
      modifies this`nodes, this`edges
      ensures graphData.Some? ==> nodes == graphData.value.nodes && edges == graphData.value.edges
      ensures graphData.None? ==> nodes == old(nodes) && edges == old(edges)
    {
      if graphData.Some? {
        nodes := graphData.value.nodes;
        edges := graphData.value.edges;
      }
    }

    /** `onSelectionChange`: records the first selected node's id in the
        store and hands that node on to the page. */
    method OnSelectionChange(selectedNodes: seq<Node>) returns (selectedNode: Option<Node>)
      modifies store`selectedNodeId
      ensures store.selectedNodeId == SelectionId(selectedNodes)
      ensures selectedNode == if selectedNodes == [] then None else Some(selectedNodes[0])
    {
      selectedNode := if selectedNodes == [] then None else Some(selectedNodes[0]);
      store.SetSelectedNodeId(SelectionId(selectedNodes));
    }

    /** `onKeyDown`: removes the selected node and every edge touching it,
        then clears the selection; otherwise does nothing. */
    method OnKeyDown(key: string)
      modifies this`nodes, this`edges, store`selectedNodeId
      ensures var sel := old(store.selectedNodeId);
        if DeleteApplies(key, sel) then
          && nodes == DeleteNode(old(nodes), sel.value)
          && edges == DeleteIncidentEdges(old(edges), sel.value)
          && store.selectedNodeId == None
        else
          nodes == old(nodes) && edges == old(edges) && store.selectedNodeId == sel
      ensures old(EdgesClosed(nodes, edges)) ==> EdgesClosed(nodes, edges)
    {
      var sel := store.selectedNodeId;
      if DeleteApplies(key, sel) {
        if EdgesClosed(nodes, edges) {
          DeletePreservesIntegrity(nodes, edges, sel.value);
        }
        nodes := DeleteNode(nodes, sel.value);
        edges := DeleteIncidentEdges(edges, sel.value);
        store.SetSelectedNodeId(None);
      }
    }

    /** `updateNodeData`, the function the page calls through its ref. */
    method UpdateNodeData(nodeId: string, patch: Patch)
      modifies this`nodes
      ensures nodes == UpdateNodes(old(nodes), nodeId, patch)
      ensures old(EdgesClosed(nodes, edges)) ==> EdgesClosed(nodes, edges)
    {
      if EdgesClosed(nodes, edges) {
        UpdatePreservesIntegrity(nodes, edges, nodeId, patch);
      }
      nodes := UpdateNodes(nodes, nodeId, patch);
    }

    /** `addNode`; the clock-derived id and the random position are inputs. */
    method AddNode(newId: string, position: Position)
      modifies this`nodes
      ensures nodes == AppendNewNode(old(nodes), newId, position)
      ensures old(EdgesClosed(nodes, edges)) ==> EdgesClosed(nodes, edges)
    {
      if EdgesClosed(nodes, edges) {
        AddPreservesIntegrity(nodes, edges, newId, position);
      }
      nodes := AppendNewNode(nodes, newId, position);
    }
  }
}
