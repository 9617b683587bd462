/** The node inspector (src/components/panel/NodeInspector.tsx): local form
    fields mirrored from the selected node, and change handlers that update
    one field and emit a single-field patch for the node. */
module NodeInspector {
  import opened Wrappers
  import opened Types

  /** An entry of `statusConfig`: the badge text and its classes. */
  datatype StatusStyle = StatusStyle(text: string, className: string)

  function StatusConfig(s: NodeStatus): (r: StatusStyle)
    ensures s == Healthy <==> r.text == "Healthy"
    ensures s == Degraded <==> r.text == "Degraded"
    ensures s == Down <==> r.text == "Down"
  {
    match s
    case Healthy => StatusStyle("Healthy", "bg-status-healthy/20 text-status-healthy border-status-healthy/30")
    case Degraded => StatusStyle("Degraded", "bg-status-degraded/20 text-status-degraded border-status-degraded/30")
    case Down => StatusStyle("Down", "bg-status-down/20 text-status-down border-status-down/30")
  }

  /** Every status has its own badge text and its own classes. */
  lemma StatusConfigDistinct(s: NodeStatus, t: NodeStatus)
    ensures s != t ==> StatusConfig(s).text != StatusConfig(t).text
    ensures s != t ==> StatusConfig(s).className != StatusConfig(t).className
  {
  }

  /** `node.data.description || ''`: a missing description shows as empty. */
  function DescriptionShown(d: Option<string>): (r: string)
    ensures d.None? ==> r == ""
    ensures d.Some? ==> r == d.value
  {
    if d.Some? then d.value else ""
  }

  /** `Math.max(0, Math.min(100, Number(input) || 0))`, where `None` stands for
      text that is not a number. */
  function ClampResource(input: Option<int>): (r: int)
    ensures 0 <= r <= 100
    ensures input.None? ==> r == 0
    ensures input.Some? && 0 <= input.value <= 100 ==> r == input.value
    ensures input.Some? && input.value > 100 ==> r == 100
    ensures input.Some? && input.value < 0 ==> r == 0
  {
    var n := if input.Some? then input.value else 0;
    if n < 0 then 0 else if n > 100 then 100 else n
  }

  /** Clamping an already clamped value changes nothing. */
  lemma ClampIdempotent(input: Option<int>)
    ensures ClampResource(Some(ClampResource(input))) == ClampResource(input)
  {
  }

  function LabelPatch(value: string): (p: Patch)
    ensures Fields(p) == {LabelField} && p.labelText == Some(value)
  {
    EmptyPatch.(labelText := Some(value))
  }

  function DescriptionPatch(value: string): (p: Patch)
    ensures Fields(p) == {DescriptionField} && p.description == Some(value)
  {
    EmptyPatch.(description := Some(value))
  }

  function ConfigValuePatch(value: int): (p: Patch)
    ensures Fields(p) == {ConfigValueField} && p.configValue == Some(value)
  {
    EmptyPatch.(configValue := Some(value))
  }

  /** A clamped number typed into the inspector keeps the node's resource
      value in 0..100 and touches no other field of its data. */
  lemma TypedValueStaysInRange(d: ServiceNodeData, input: Option<int>)
    ensures var r := Merge(d, ConfigValuePatch(ClampResource(input)));
            0 <= r.configValue <= 100 && r == d.(configValue := r.configValue)
  {
  }

  class Inspector {
    /** The `node` prop. */
    var node: Node
    var labelText: string
    var description: string
    var configValue: int

    /** The local fields start from the node's data. */
    constructor (node: Node)
      ensures this.node == node
      ensures labelText == node.data.labelText
      ensures description == DescriptionShown(node.data.description)
      ensures configValue == node.data.configValue
    {
      this.node := node;
      labelText := node.data.labelText;
      description := DescriptionShown(node.data.description);
      configValue := node.data.configValue;
    }

    /** The resynchronising effect, run when the prop changes. */
    method Sync(newNode: Node)
      modifies this
      ensures node == newNode
      ensures labelText == newNode.data.labelText
      ensures description == DescriptionShown(newNode.data.description)
      ensures configValue == newNode.data.configValue
    {
      node := newNode;
      labelText := newNode.data.labelText;
      description := DescriptionShown(newNode.data.description);
      configValue := newNode.data.configValue;
    }

    /** `handleLabelChange`; returns what it passes to `onUpdate`. */
    method HandleLabelChange(value: string) returns (nodeId: string, patch: Patch)
      modifies this`labelText
      ensures labelText == value
      ensures nodeId == node.id && patch == LabelPatch(value)
    {
      labelText := value;
      nodeId, patch := node.id, LabelPatch(value);
    }

    /** `handleDescriptionChange`; returns what it passes to `onUpdate`. */
    method HandleDescriptionChange(value: string) returns (nodeId: string, patch: Patch)
      modifies this`description
      ensures description == value
      ensures nodeId == node.id && patch == DescriptionPatch(value)
    {
      description := value;
      nodeId, patch := node.id, DescriptionPatch(value);
    }

    /** `handleConfigValueChange`, also called by the slider; returns what it
        passes to `onUpdate`. */
    method HandleConfigValueChange(value: int) returns (nodeId: string, patch: Patch)
      modifies this`configValue
      ensures configValue == value
      ensures nodeId == node.id && patch == ConfigValuePatch(value)
    {
      configValue := value;
      nodeId, patch := node.id, ConfigValuePatch(value);
    }

    /** The number field's change handler: clamps, then forwards. */
    method HandleResourceInput(input: Option<int>) returns (nodeId: string, patch: Patch)
      modifies this`configValue
      ensures configValue == ClampResource(input) && 0 <= configValue <= 100
      ensures nodeId == node.id && patch == ConfigValuePatch(ClampResource(input))
    {
      nodeId, patch := HandleConfigValueChange(ClampResource(input));
    }
  }
}
