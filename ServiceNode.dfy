/** The service node's view choices (src/components/canvas/ServiceNode.tsx):
    the status dot colour, the icon, and the resource bar's colour. */
module ServiceNode {
  import opened Types

  /** `statusColors` */
  function StatusColor(s: NodeStatus): (color: string)
    ensures s == Healthy <==> color == "bg-status-healthy"
    ensures s == Degraded <==> color == "bg-status-degraded"
    ensures s == Down <==> color == "bg-status-down"
  {
    match s
    case Healthy => "bg-status-healthy"
    case Degraded => "bg-status-degraded"
    case Down => "bg-status-down"
  }

  /** Each status has a dot colour of its own. */
  lemma StatusColorsDistinct(s: NodeStatus, t: NodeStatus)
    ensures s != t ==> StatusColor(s) != StatusColor(t)
  {
  }

  datatype Icon = DatabaseIcon | ServerIcon

  /** `isDatabase ? Database : Server` */
  function NodeIcon(d: ServiceNodeData): (i: Icon)
    ensures i == DatabaseIcon <==> d.nodeType == Database
  {
    if d.nodeType == Database then DatabaseIcon else ServerIcon
  }

  datatype BarColor = DegradedBar | HealthyBar | PrimaryBar

  /** The resource bar's colour: above 80, above 50, or neither. */
  function ResourceBarColor(configValue: int): (c: BarColor)
    ensures c == DegradedBar <==> configValue > 80
    ensures c == HealthyBar <==> 50 < configValue <= 80
    ensures c == PrimaryBar <==> configValue <= 50
  {
    if configValue > 80 then DegradedBar
    else if configValue > 50 then HealthyBar
    else PrimaryBar
  }

  function BarClass(c: BarColor): (cls: string)
    ensures c == DegradedBar <==> cls == "bg-status-degraded"
    ensures c == HealthyBar <==> cls == "bg-status-healthy"
    ensures c == PrimaryBar <==> cls == "bg-primary"
  {
    match c
    case DegradedBar => "bg-status-degraded"
    case HealthyBar => "bg-status-healthy"
    case PrimaryBar => "bg-primary"
  }

  /** The bar's class for a resource value: the degraded and healthy bars
      reuse the status dot colours. */
  lemma ResourceBarClassChoice(configValue: int)
    ensures BarClass(ResourceBarColor(configValue)) == StatusColor(Degraded) <==> configValue > 80
    ensures BarClass(ResourceBarColor(configValue)) == StatusColor(Healthy) <==> 50 < configValue <= 80
    ensures BarClass(ResourceBarColor(configValue)) == "bg-primary" <==> configValue <= 50
  {
  }

  /** How loaded a bar colour says the node is. */
  function Severity(c: BarColor): nat
  {
    match c
    case PrimaryBar => 0
    case HealthyBar => 1
    case DegradedBar => 2
  }

  /** A larger resource value never shows a less severe colour. */
  lemma BarColorMonotonic(v: int, w: int)
    requires v <= w
    ensures Severity(ResourceBarColor(v)) <= Severity(ResourceBarColor(w))
  {
  }
}
