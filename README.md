# App graph canvas: a Dafny model of its state logic

This project models the state-handling core of a browser-based editor for
application architecture diagrams. Rendering is done by a third-party graph
widget and is not modelled. What is modelled:

- **The architecture canvas** (`GraphCanvas.Canvas`). It holds a node list and
  an edge list. The selected-node id lives in the global store. The canvas has
  five operations: a keyboard delete that removes the selected node and every
  edge touching it, a patch merged into one node's data, an "Add Node" button,
  a graph load that replaces both lists, and the widget's selection event. The
  invariant shown to be kept is referential integrity: no edge points at a
  missing node (`Types.EdgesClosed`).
- **The page** (`IndexPage.Page`). It keeps its own copy of the selected node
  and applies the same merge to it as the canvas does. Its fit and zoom
  buttons are forwarded only when the canvas has registered the matching
  control function.
- **The node inspector** (`NodeInspector.Inspector`). It holds local form
  fields taken from the node. Its change handlers each emit a patch carrying
  exactly one field. The number field clamps what is typed into 0..100.
- **The flow canvas** (`FlowCanvas.Canvas`). Its delete removes nodes and edges
  by their own selection flags. It does not cascade, so an unselected edge can
  be left dangling (`FlowCanvas.DeleteCanLeaveDanglingEdge`). The two delete
  rules are stated side by side.
- **The global UI store** (`AppStore.Store`). It has an initial state, five
  setters and a toggle. Choosing an app clears the node selection.
- **The mock backend** (`MockApi.Backend`) and its **fixtures** (`MockData`).
  The backend fetches by key behind an error-simulation flag. The flag has
  precedence over "not found". The fixture graphs are proved well formed:
  unique ids, no dangling edges, node counts that match, resource values in
  0..100, and the database view exactly for database nodes.
- **The service node's view choices** (`ServiceNode`): the status dot colour,
  the icon, and the resource bar's colour thresholds.

JavaScript's `filter` is `Lists.Filter`. Its order property is
`Lists.FilterConcat`: filtering distributes over concatenation. Both canvases
define their deletes through it. A `Partial<ServiceNodeData>` is a
`Types.Patch`, and the object spread `{ ...data, ...patch }` is `Types.Merge`.

Inputs the model takes as parameters are these. The clock-derived id of a new
node is a parameter of `AddNode`. Its random position is an opaque `Position`
parameter. Text typed into the number field is an `Option<int>`, in which
`None` stands for text that `Number()` turns into NaN. The store's
`selectedNodeId` is shared: the canvas holds the store and calls its setter.

JavaScript truthiness is modelled where the code relies on it. The delete
guard `selectedNodeId && ...` treats an empty-string id as "nothing
selected" (`GraphCanvas.DeleteApplies`). The inspector shows a missing
description as the empty string.

## Model

| member | source | states |
|---|---|---|
| Lists.Filter | src/components/canvas/GraphCanvas.tsx:118-119 | the result holds exactly the elements of the input that the test accepts, and is no longer than the input |
| Lists.FilterConcat | src/components/flows/FlowCanvas.tsx:68-69 | filtering distributes over concatenation, so survivors keep their original order |
| Lists.FilterIdempotent | src/components/flows/FlowCanvas.tsx:68-69 | filtering a second time by the same test removes nothing more |
| Types.Merge | src/components/canvas/GraphCanvas.tsx:129 | each field the patch carries takes the patch value; each field it lacks keeps the old value |
| Types.IsDeleteKey | src/components/flows/FlowCanvas.tsx:67 | a key deletes exactly when it is Delete or Backspace, the test both canvases use |
| Types.MergeEmpty | src/pages/Index.tsx:34 | merging a patch with no fields leaves the data unchanged |
| Types.MergeIdempotent | src/pages/Index.tsx:34 | merging the same patch twice equals merging it once |
| AppStore.Store.constructor | src/store/appStore.ts:25-31 | initial state: no app or node selected, mobile panel closed, config tab, apps navigation item |
| AppStore.Store.SetSelectedAppId | src/store/appStore.ts:34 | sets the app id and always clears the node id; nothing else changes |
| AppStore.Store.SetSelectedNodeId | src/store/appStore.ts:35 | changes only the node id |
| AppStore.Store.SetMobilePanelOpen | src/store/appStore.ts:36 | sets the mobile panel flag to the argument; nothing else changes |
| AppStore.Store.SetActiveInspectorTab | src/store/appStore.ts:37 | changes only the inspector tab |
| AppStore.Store.SetActiveNavItem | src/store/appStore.ts:38 | changes only the navigation item |
| AppStore.Store.ToggleMobilePanel | src/store/appStore.ts:39 | negates the mobile panel flag; nothing else changes |
| AppStore.ToggleTwiceRestores | src/store/appStore.ts:39 | two toggles restore the whole store state |
| AppStore.SetMobilePanelOpenIdempotent | src/store/appStore.ts:36 | setting the panel flag twice equals setting it once |
| MockData.FindApp | src/components/panel/AppSelector.tsx:13 | none exactly when no app has the id; otherwise the first app in the list with that id |
| MockData.GraphKeysAreAppIds | src/mocks/data.ts:3-198 | the graph table's keys are exactly the ids of the listed apps |
| MockData.NodeCountsMatch | src/mocks/data.ts:3-198 | every app's node count equals the number of nodes in its graph (4, 3 and 5) |
| MockData.EcommerceGraphWellFormed | src/mocks/data.ts:25-82 | the app-1 graph has unique node and edge ids, no dangling edge, values in 0..100, and the database view exactly for database nodes |
| MockData.PaymentGraphWellFormed | src/mocks/data.ts:83-126 | the same for the app-2 graph |
| MockData.AnalyticsGraphWellFormed | src/mocks/data.ts:127-197 | the same for the app-3 graph |
| MockData.FixturesWellFormed | src/mocks/data.ts:24-198 | every graph in the table is well formed |
| MockApi.Backend.constructor | src/mocks/api.ts:8 | error simulation starts off |
| MockApi.Backend.FetchApps | src/mocks/api.ts:10-18 | succeeds exactly when the flag is off, then with the fixture app list; otherwise fails with the fetch error |
| MockApi.Backend.FetchAppGraph | src/mocks/api.ts:20-34 | with the flag on, fails with the fetch error for every id; with it off, an unknown id fails with "Graph not found" and a known id succeeds with exactly that table entry |
| MockApi.Backend.ToggleErrorSimulation | src/mocks/api.ts:36-39 | the flag becomes its negation and the new value is returned |
| MockApi.FetchAppGraphSucceedsForListedApps | src/mocks/api.ts:20-34 | a graph fetch succeeds exactly when the flag is off and the id is a listed app; the graph returned is well formed and has the app's node count |
| MockApi.ToggleTwiceRestores | src/mocks/api.ts:36-39 | two toggles restore the flag |
| GraphCanvas.DeleteNode | src/components/canvas/GraphCanvas.tsx:118 | keeps exactly the nodes whose id differs from the deleted id; no node with that id remains |
| GraphCanvas.DeleteIncidentEdges | src/components/canvas/GraphCanvas.tsx:119 | keeps exactly the edges whose source and target both differ from the deleted id |
| GraphCanvas.DeleteKeepsOrder | src/components/canvas/GraphCanvas.tsx:118-119 | the surviving nodes and edges keep their original order |
| GraphCanvas.DeleteAbsentIsIdentity | src/components/canvas/GraphCanvas.tsx:118 | deleting an id that no node has leaves the node list unchanged |
| GraphCanvas.DeletePreservesIntegrity | src/components/canvas/GraphCanvas.tsx:118-119 | if no edge dangled before the cascading delete, none dangles after it |
| GraphCanvas.UpdateNodes | src/components/canvas/GraphCanvas.tsx:125-133 | same length and ids; nodes with another id are unchanged; a node with the patched id gets the merged data and keeps its other fields |
| GraphCanvas.UpdateAbsentIsIdentity | src/components/canvas/GraphCanvas.tsx:126-131 | a patch for an id that no node has leaves the list unchanged |
| GraphCanvas.UpdatePreservesIntegrity | src/components/canvas/GraphCanvas.tsx:125-133 | a patch keeps the set of node ids, so integrity is kept |
| GraphCanvas.AppendNewNode | src/components/canvas/GraphCanvas.tsx:143-158 | appends exactly one node and keeps the earlier nodes; the new node is a service-view node "New Service", "Click to configure", healthy, service, value 50 |
| GraphCanvas.AddPreservesIntegrity | src/components/canvas/GraphCanvas.tsx:157 | adding a node adds its id and removes none, so integrity is kept |
| GraphCanvas.SelectionId | src/components/canvas/GraphCanvas.tsx:109-111 | none exactly when no node is selected; otherwise the first selected node's id |
| GraphCanvas.DeleteApplies | src/components/canvas/GraphCanvas.tsx:117 | the delete fires only on a delete key with an id selected; no selection or the falsy empty id never fires it; a delete key with a non-empty id always does |
| GraphCanvas.Canvas.constructor | src/components/canvas/GraphCanvas.tsx:59-60 | both lists start empty |
| GraphCanvas.Canvas.LoadGraph | src/components/canvas/GraphCanvas.tsx:90-96 | loaded graph data replaces both lists wholesale; without data nothing changes |
| GraphCanvas.Canvas.OnSelectionChange | src/components/canvas/GraphCanvas.tsx:109-113 | the store's node id becomes the first selected node's id or none, and that node is handed on |
| GraphCanvas.Canvas.OnKeyDown | src/components/canvas/GraphCanvas.tsx:116-122 | on Delete or Backspace with a node selected, removes that node and its edges and clears the selection; otherwise changes nothing; integrity is kept |
| GraphCanvas.Canvas.UpdateNodeData | src/components/canvas/GraphCanvas.tsx:125-133 | the node list becomes the patched list; integrity is kept |
| GraphCanvas.Canvas.AddNode | src/components/canvas/GraphCanvas.tsx:143-158 | the node list gains the default node at its end; integrity is kept |
| FlowCanvas.DeleteSelectedNodes | src/components/flows/FlowCanvas.tsx:68 | keeps exactly the unselected nodes |
| FlowCanvas.DeleteSelectedEdges | src/components/flows/FlowCanvas.tsx:69 | keeps exactly the unselected edges, whatever nodes they touch |
| FlowCanvas.DeleteKeepsOrder | src/components/flows/FlowCanvas.tsx:68-69 | unselected nodes and edges keep their original order |
| FlowCanvas.DeleteIdempotent | src/components/flows/FlowCanvas.tsx:68-69 | a second delete removes nothing more |
| FlowCanvas.DeletePreservesIntegrityWhenEdgesSelected | src/components/flows/FlowCanvas.tsx:67-69 | integrity is kept when no unselected edge touches a selected node |
| FlowCanvas.DeleteCanLeaveDanglingEdge | src/components/flows/FlowCanvas.tsx:69 | a concrete flow where the unselected edge of a deleted node survives and dangles: there is no cascade |
| FlowCanvas.Canvas.constructor | src/components/flows/FlowCanvas.tsx:34-35 | the lists start as the flow's own |
| FlowCanvas.Canvas.HandleKeyDown | src/components/flows/FlowCanvas.tsx:65-73 | Delete or Backspace removes the selected nodes and the selected edges; any other key changes nothing |
| NodeInspector.StatusConfig | src/components/panel/NodeInspector.tsx:18-31 | healthy, degraded and down map to, and only they map to, "Healthy", "Degraded" and "Down" |
| NodeInspector.StatusConfigDistinct | src/components/panel/NodeInspector.tsx:18-31 | each status has its own badge text and its own classes |
| NodeInspector.DescriptionShown | src/components/panel/NodeInspector.tsx:39 | a missing description shows as the empty string; a present one shows as itself |
| NodeInspector.ClampResource | src/components/panel/NodeInspector.tsx:140 | the result is always in 0..100; it is the identity on 0..100; non-numeric text gives 0, values over 100 give 100, negative values give 0 |
| NodeInspector.ClampIdempotent | src/components/panel/NodeInspector.tsx:140 | clamping a clamped value changes nothing |
| NodeInspector.LabelPatch | src/components/panel/NodeInspector.tsx:51 | the patch carries exactly the label field, with the typed value |
| NodeInspector.DescriptionPatch | src/components/panel/NodeInspector.tsx:56 | the patch carries exactly the description field, with the typed value |
| NodeInspector.ConfigValuePatch | src/components/panel/NodeInspector.tsx:61 | the patch carries exactly the resource value field, with the given value |
| NodeInspector.TypedValueStaysInRange | src/components/panel/NodeInspector.tsx:139-142 | merging a typed value's patch keeps the resource value in 0..100 and changes no other field |
| NodeInspector.Inspector.constructor | src/components/panel/NodeInspector.tsx:38-40 | the local fields start as the node's label, its description or empty, and its value |
| NodeInspector.Inspector.Sync | src/components/panel/NodeInspector.tsx:43-47 | a new node resets the local fields in the same way |
| NodeInspector.Inspector.HandleLabelChange | src/components/panel/NodeInspector.tsx:49-52 | sets the local label and emits a label-only patch for the node's id |
| NodeInspector.Inspector.HandleDescriptionChange | src/components/panel/NodeInspector.tsx:54-57 | sets the local description and emits a description-only patch for the node's id |
| NodeInspector.Inspector.HandleConfigValueChange | src/components/panel/NodeInspector.tsx:59-62 | sets the local value and emits a value-only patch for the node's id |
| NodeInspector.Inspector.HandleResourceInput | src/components/panel/NodeInspector.tsx:139-142 | stores and emits the clamped value, which is in 0..100 |
| ServiceNode.StatusColor | src/components/canvas/ServiceNode.tsx:18-22 | healthy, degraded and down map to, and only they map to, their own dot colour classes |
| ServiceNode.StatusColorsDistinct | src/components/canvas/ServiceNode.tsx:18-22 | each status has its own dot colour |
| ServiceNode.NodeIcon | src/components/canvas/ServiceNode.tsx:25-26 | the database icon is chosen exactly when the node type is database |
| ServiceNode.ResourceBarColor | src/components/canvas/ServiceNode.tsx:84-86 | degraded colour exactly above 80, healthy colour exactly in 51..80, primary colour exactly at 50 or below |
| ServiceNode.BarClass | src/components/canvas/ServiceNode.tsx:84-86 | each bar colour has its own class: degraded, healthy or primary |
| ServiceNode.ResourceBarClassChoice | src/components/canvas/ServiceNode.tsx:84-86 | the bar's class is the degraded dot colour exactly above 80, the healthy dot colour exactly in 51..80, and the primary class exactly at 50 or below |
| ServiceNode.BarColorMonotonic | src/components/canvas/ServiceNode.tsx:84-86 | a larger value never gets a less severe colour |
| IndexPage.MirrorPatch | src/pages/Index.tsx:32-37 | the page's copy gets the merged data when its id is the patched id; otherwise, or with nothing selected, it is unchanged |
| IndexPage.MirrorStaysInSync | src/pages/Index.tsx:29-37 | a page copy equal to a canvas node before a patch equals the patched canvas node after it |
| IndexPage.Page.constructor | src/pages/Index.tsx:9-15 | nothing selected, no refs filled, no view requests |
| IndexPage.Page.RegisterControls | src/pages/Index.tsx:61-63 | the canvas fills the fit and zoom refs |
| IndexPage.Page.RegisterNodeUpdate | src/components/canvas/GraphCanvas.tsx:136-140 | the node-update ref holds the canvas's update function |
| IndexPage.Page.Invoke | src/pages/Index.tsx:17-27 | a control call is forwarded only when its ref holds a function |
| IndexPage.Page.HandleFitView | src/pages/Index.tsx:17-19 | fit-view is forwarded when registered; otherwise nothing happens |
| IndexPage.Page.HandleZoomIn | src/pages/Index.tsx:21-23 | zoom-in is forwarded when registered; otherwise nothing happens |
| IndexPage.Page.HandleZoomOut | src/pages/Index.tsx:25-27 | zoom-out is forwarded when registered; otherwise nothing happens |
| IndexPage.Page.HandleNodeUpdate | src/pages/Index.tsx:29-38 | patches the registered canvas and the page's copy with the same merge; a copy equal to a canvas node stays equal to it |
| IndexPage.Page.HandleSelectedNodeChange | src/pages/Index.tsx:40-42 | the page's copy is replaced wholesale, also by none |
| IndexPage.Page.CanvasSelectionChanged | src/pages/Index.tsx:64 | after a selection event, the store's node id is the id of the page's copy |

## Left out

- Rendering: all JSX, and CSS class strings other than the status, icon and bar choices. The display-only views are left out: monitoring, flows list, data, left rail, top bar, right panel, and the database, trigger, action and condition node components.
- The graph library: `addEdge` in `onConnect` (both canvases), `fitView`, `zoomIn` and `zoomOut` themselves, `onNodesChange` and `onEdgesChange`, drag, pan and zoom. Its semantics are not visible. The page model records which control calls reach the library, not what they do.
- The graph library's built-in keyboard delete. The flow canvas sets it to Delete and Backspace with `deleteKeyCode`. The architecture canvas sets no `deleteKeyCode`, so the library's default Backspace delete also runs there, beside `onKeyDown`. Both act through `onNodesChange` and `onEdgesChange`, which are left out. Only the components' own key handlers are modelled.
- Timing: the simulated network delay in the mock API, and the deferred sync of the flow canvas to its parent, which also reads stale state. Also the delayed initial fit of the architecture canvas and its `initialFitDone` flag.
- The React Query hooks in `src/hooks/useApi.ts`: caching, `staleTime` and the `enabled` switch.
- The export handle `onExportRef`. The page never passes it, and it is not one of the modelled operations.
- The canvas's no-app, loading and error render branches (src/components/canvas/GraphCanvas.tsx:160-204). They return before the key handler, the selection handler and the Add Node button are mounted, so in those states no delete, add or selection event can fire. The model does not track these states: `GraphCanvas.Canvas.OnKeyDown`, `GraphCanvas.Canvas.AddNode` and `GraphCanvas.Canvas.OnSelectionChange` may run in every state. `GraphCanvas.Canvas.UpdateNodeData` is reachable in every state in the source too, through the page's ref registered at lines 136-140.
- Floating point. `Number()` parsing of fractional text is not modelled, because typed input is an `Option<int>`. Resource values and thresholds are integers. Positions are opaque integer pairs.
- The slider's 0..100 bounds, which the UI library enforces. `HandleConfigValueChange` accepts any integer.
- The index signature `[key: string]: unknown` of `ServiceNodeData`. Patches and node data carry only the five named fields.
- Keys inherited from `Object.prototype`, such as `toString`, are present on the JavaScript graph table. The model's table is an ordinary map, so the not-found branch covers every key outside the three apps.
- The `Flow` type, which `src/types/index.ts` is missing. A flow node here has an id, a kind and a selection flag.
- Effect dependency lists. The inspector's resync runs whenever it is given a node; it sets the same fields whenever the effect would run.
