/** The editor page (src/pages/Index.tsx): it keeps its own copy of the
    selected node, forwards the inspector's patches to the canvas through a
    ref, applies the same merge to its copy, and forwards the top bar's
    view buttons to whatever control functions the canvas registered. */
module IndexPage {
  import opened Wrappers
  import opened Types
  import GraphCanvas

  /** The canvas controls the page holds refs to. */
  datatype ViewCommand = FitView | ZoomIn | ZoomOut

  /** The page's copy after a patch: merged when it is the patched node,
      otherwise (or when nothing is selected) as it was. */
  function MirrorPatch(prev: Option<Node>, nodeId: string, patch: Patch): (r: Option<Node>)
    ensures prev.None? ==> r.None?
    ensures prev.Some? && prev.value.id == nodeId ==> r == Some(prev.value.(data := Merge(prev.value.data, patch)))
    ensures prev.Some? && prev.value.id != nodeId ==> r == prev
  {
    if prev.Some? && prev.value.id == nodeId then Some(prev.value.(data := Merge(prev.value.data, patch)))
    else prev
  }

  /** Both copies apply the same merge: a copy equal to a canvas node before
      a patch is equal to that node afterwards. */
  lemma MirrorStaysInSync(nodes: seq<Node>, i: nat, nodeId: string, patch: Patch)
    requires i < |nodes|
    ensures MirrorPatch(Some(nodes[i]), nodeId, patch) == Some(GraphCanvas.UpdateNodes(nodes, nodeId, patch)[i])
  {
  }

  class Page {
    var selectedNode: Option<Node>
    /** `nodeUpdateRef.current`: the canvas whose `updateNodeData` it holds. */
    var nodeUpdateTarget: GraphCanvas.Canvas?
    /** The control refs that hold a function. */
    var registeredControls: set<ViewCommand>
    /** The control calls that reached the graph library, oldest first. */
    var viewRequests: seq<ViewCommand>

    constructor ()
      ensures selectedNode == None && nodeUpdateTarget == null
      ensures registeredControls == {} && viewRequests == []
    {
      selectedNode := None;
      nodeUpdateTarget := null;
      registeredControls := {};
      viewRequests := [];
    }

    /** The canvas's effects that fill the refs. */
    method RegisterControls()
      modifies this`registeredControls
      ensures registeredControls == {FitView, ZoomIn, ZoomOut}
    {
      registeredControls := {FitView, ZoomIn, ZoomOut};
    }

    method RegisterNodeUpdate(canvas: GraphCanvas.Canvas)
      modifies this`nodeUpdateTarget
      ensures nodeUpdateTarget == canvas
    {
      nodeUpdateTarget := canvas;
    }

    /** `ref.current?.()`: forwards the call only when a function is held. */
    method Invoke(command: ViewCommand)
      modifies this`viewRequests
      ensures viewRequests == if command in registeredControls then old(viewRequests) + [command] else old(viewRequests)
    {
      if command in registeredControls {
        viewRequests := viewRequests + [command];
      }
    }

    method HandleFitView()
      modifies this`viewRequests
      ensures viewRequests == if FitView in registeredControls then old(viewRequests) + [FitView] else old(viewRequests)
    {
      Invoke(FitView);
    }

    method HandleZoomIn()
      modifies this`viewRequests
      ensures viewRequests == if ZoomIn in registeredControls then old(viewRequests) + [ZoomIn] else old(viewRequests)
    {
      Invoke(ZoomIn);
    }

    method HandleZoomOut()
      modifies this`viewRequests
      ensures viewRequests == if ZoomOut in registeredControls then old(viewRequests) + [ZoomOut] else old(viewRequests)
    {
      Invoke(ZoomOut);
    }

    /** `handleNodeUpdate`: patches the canvas (when its function is
        registered) and the page's own copy with the same merge. */
    method HandleNodeUpdate(nodeId: string, patch: Patch)
      modifies this`selectedNode, nodeUpdateTarget
      ensures selectedNode == MirrorPatch(old(selectedNode), nodeId, patch)
      ensures nodeUpdateTarget != null ==>
                && nodeUpdateTarget.nodes == GraphCanvas.UpdateNodes(old(nodeUpdateTarget.nodes), nodeId, patch)
                && nodeUpdateTarget.edges == old(nodeUpdateTarget.edges)
      ensures forall i :: nodeUpdateTarget != null && old(selectedNode).Some? &&
                0 <= i < |old(nodeUpdateTarget.nodes)| && old(nodeUpdateTarget.nodes)[i] == old(selectedNode).value
                ==> selectedNode == Some(nodeUpdateTarget.nodes[i])
    {
      if nodeUpdateTarget != null {
        nodeUpdateTarget.UpdateNodeData(nodeId, patch);
      }
      selectedNode := MirrorPatch(selectedNode, nodeId, patch);
      forall i | nodeUpdateTarget != null && old(selectedNode).Some? &&
                 0 <= i < |old(nodeUpdateTarget.nodes)| && old(nodeUpdateTarget.nodes)[i] == old(selectedNode).value
        ensures selectedNode == Some(nodeUpdateTarget.nodes[i])
      {
        MirrorStaysInSync(old(nodeUpdateTarget.nodes), i, nodeId, patch);
      }
    }

    /** `handleSelectedNodeChange`: the copy is replaced wholesale. */
    method HandleSelectedNodeChange(node: Option<Node>)
      modifies this`selectedNode
      ensures selectedNode == node
    {
      selectedNode := node;
    }

    /** A selection event on the canvas, routed through `onSelectionChange`
        to the page: afterwards the store's id is the page copy's id. */
    method CanvasSelectionChanged(canvas: GraphCanvas.Canvas, selectedNodes: seq<Node>)
      modifies this`selectedNode, canvas.store`selectedNodeId
      ensures canvas.store.selectedNodeId == (if selectedNode.Some? then Some(selectedNode.value.id) else None)
      ensures selectedNode == if selectedNodes == [] then None else Some(selectedNodes[0])
    {
      var node := canvas.OnSelectionChange(selectedNodes);
      HandleSelectedNodeChange(node);
    }
  }
}
