/** The entities of the architecture canvas (src/types/index.ts), the
    object spread that merges a partial patch into a node's data, and the
    well-formedness conditions stated about graphs. */
module Types {
  import opened Wrappers

  datatype NodeStatus = Healthy | Degraded | Down

  datatype NodeType = Service | Database

  /** Which component draws a node: `serviceNode` or `databaseNode`. */
  datatype ViewType = ServiceNodeView | DatabaseNodeView

  /** Positions are owned by the graph library and are opaque to the model. */
  datatype Position = Position(x: int, y: int)

  /** `ServiceNodeData`; `description` is optional. `label` is a Dafny
      keyword, so the field is called `labelText`. */
  datatype ServiceNodeData = ServiceNodeData(
    labelText: string,
    description: Option<string>,
    status: NodeStatus,
    nodeType: NodeType,
    configValue: int)

  datatype Node = Node(id: string, viewType: ViewType, position: Position, data: ServiceNodeData)

  /** An edge; `selected` is the graph library's selection flag. */
  datatype Edge = Edge(id: string, source: string, target: string, animated: bool, selected: bool)

  datatype App = App(id: string, name: string, description: string, nodeCount: int)

  datatype GraphData = GraphData(nodes: seq<Node>, edges: seq<Edge>)

  datatype InspectorTab = ConfigTab | RuntimeTab

  /** `Partial<ServiceNodeData>`: each field is either present or absent. */
  datatype Patch = Patch(
    labelText: Option<string>,
    description: Option<string>,
    status: Option<NodeStatus>,
    nodeType: Option<NodeType>,
    configValue: Option<int>)

  const EmptyPatch := Patch(None, None, None, None, None)

  datatype Field = LabelField | DescriptionField | StatusField | TypeField | ConfigValueField

  /** The fields a patch carries. */
  function Fields(p: Patch): set<Field>
  {
    (if p.labelText.Some? then {LabelField} else {})
    + (if p.description.Some? then {DescriptionField} else {})
    + (if p.status.Some? then {StatusField} else {})
    + (if p.nodeType.Some? then {TypeField} else {})
    + (if p.configValue.Some? then {ConfigValueField} else {})
  }

  /** `{ ...d, ...p }`: every field the patch carries takes the patch's value,
      every other field keeps the old one. */
  function Merge(d: ServiceNodeData, p: Patch): (r: ServiceNodeData)
    ensures LabelField in Fields(p) ==> r.labelText == p.labelText.value
    ensures LabelField !in Fields(p) ==> r.labelText == d.labelText
    ensures DescriptionField in Fields(p) ==> r.description == p.description
    ensures DescriptionField !in Fields(p) ==> r.description == d.description
    ensures StatusField in Fields(p) ==> r.status == p.status.value
    ensures StatusField !in Fields(p) ==> r.status == d.status
    ensures TypeField in Fields(p) ==> r.nodeType == p.nodeType.value
    ensures TypeField !in Fields(p) ==> r.nodeType == d.nodeType
    ensures ConfigValueField in Fields(p) ==> r.configValue == p.configValue.value
    ensures ConfigValueField !in Fields(p) ==> r.configValue == d.configValue
  {
    ServiceNodeData(
      if p.labelText.Some? then p.labelText.value else d.labelText,
      if p.description.Some? then p.description else d.description,
      if p.status.Some? then p.status.value else d.status,
      if p.nodeType.Some? then p.nodeType.value else d.nodeType,
      if p.configValue.Some? then p.configValue.value else d.configValue)
  }

  /** Spreading the empty patch changes nothing. */
  lemma MergeEmpty(d: ServiceNodeData)
    ensures Merge(d, EmptyPatch) == d
  {
  }

  /** Applying the same patch twice is the same as applying it once. */
  lemma MergeIdempotent(d: ServiceNodeData, p: Patch)
    ensures Merge(Merge(d, p), p) == Merge(d, p)
  {
  }

  /** The key test both canvases use for deletion. */
  function IsDeleteKey(key: string): (applies: bool)
    ensures applies <==> key in {"Delete", "Backspace"}
  {
    key == "Delete" || key == "Backspace"
  }

  function NodeIds(nodes: seq<Node>): set<string>
  {
    set n | n in nodes :: n.id
  }

  /** Every edge endpoint names an id in `ids`. */
  ghost predicate EdgesWithin(ids: set<string>, edges: seq<Edge>)
  {
    forall e :: e in edges ==> e.source in ids && e.target in ids
  }

  /** Referential integrity: no edge points at a missing node. */
  ghost predicate EdgesClosed(nodes: seq<Node>, edges: seq<Edge>)
  {
    EdgesWithin(NodeIds(nodes), edges)
  }

  ghost predicate UniqueNodeIds(nodes: seq<Node>)
  {
    forall i, j :: 0 <= i < j < |nodes| ==> nodes[i].id != nodes[j].id
  }

  ghost predicate UniqueEdgeIds(edges: seq<Edge>)
  {
    forall i, j :: 0 <= i < j < |edges| ==> edges[i].id != edges[j].id
  }
}
