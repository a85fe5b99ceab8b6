/**
 * The Blueprint structure the C++ MCP utilities walk: a blueprint's
 * ubergraph pages, function graphs and macro graphs, their nodes and the
 * nodes' pins with their links. Engine objects become plain values; a graph
 * is identified by where it sits in the blueprint.
 */
module Graphs {
  import opened Wrappers
  import opened Text

  /** An `FGuid`, abstracted to a number; 0 is the all-zero GUID `IsValid` rejects. */
  type Guid = nat

  predicate IsValidGuid(g: Guid) { g != 0 }

  /** The editor module's copy of a utility class, or the older runtime module's. */
  datatype Copy = EditorCopy | RuntimeCopy

  /** `FGuid::Parse`: the GUID a text denotes, if the text is in a recognised format. */
  type GuidParser = string -> Option<Guid>

  datatype Direction = Input | Output

  /** One end of a link: a node and one of its pins. */
  datatype PinRef = PinRef(node: Guid, pin: string)

  datatype Pin = Pin(name: string, direction: Direction, category: string, subCategory: string, linkedTo: seq<PinRef>)

  /** `UEdGraphSchema_K2::PC_Exec`. */
  const ExecCategory := "exec"

  /** The node classes the utilities distinguish by casting. */
  datatype NodeKind =
    | EventNode(member: string, overrides: bool) // UK2Node_Event: its event's member name and bOverrideFunction
    | FunctionEntry                              // UK2Node_FunctionEntry
    | OtherK2                                    // any other UK2Node
    | NotK2                                      // a graph node that is not a UK2Node

  datatype Node = Node(guid: Guid, objectName: string, kind: NodeKind, pins: seq<Pin>)

  predicate IsK2(n: Node) { !n.kind.NotK2? }

  datatype Graph = Graph(guid: Guid, nodes: seq<Node>)

  datatype Blueprint = Blueprint(ubergraphs: seq<Graph>, functions: seq<Graph>, macros: seq<Graph>)

  /** Where a graph sits in its blueprint: this stands for the graph pointer. */
  datatype GraphLoc = Uber(index: nat) | Func(index: nat) | Macro(index: nat)

  predicate ValidLoc(bp: Blueprint, loc: GraphLoc) {
    match loc
    case Uber(i) => i < |bp.ubergraphs|
    case Func(i) => i < |bp.functions|
    case Macro(i) => i < |bp.macros|
  }

  function GraphAt(bp: Blueprint, loc: GraphLoc): Graph
    requires ValidLoc(bp, loc)
  {
    match loc
    case Uber(i) => bp.ubergraphs[i]
    case Func(i) => bp.functions[i]
    case Macro(i) => bp.macros[i]
  }

  /** The default event graph, `UbergraphPages[0]`, when there is one. */
  function DefaultEventGraph(bp: Blueprint): (r: Option<GraphLoc>)
    ensures r.Some? <==> |bp.ubergraphs| > 0
    ensures r.Some? ==> r.value == Uber(0) && ValidLoc(bp, r.value)
  {
    if |bp.ubergraphs| > 0 then Some(Uber(0)) else None
  }

  /** The blueprint with the graph at `loc` replaced. */
  function WithGraph(bp: Blueprint, loc: GraphLoc, g: Graph): (r: Blueprint)
    requires ValidLoc(bp, loc)
    ensures ValidLoc(r, loc) && GraphAt(r, loc) == g
    ensures |r.ubergraphs| == |bp.ubergraphs| && |r.functions| == |bp.functions| && |r.macros| == |bp.macros|
    ensures forall other :: ValidLoc(bp, other) && other != loc ==> ValidLoc(r, other) && GraphAt(r, other) == GraphAt(bp, other)
  {
    match loc
    case Uber(i) => bp.(ubergraphs := bp.ubergraphs[i := g])
    case Func(i) => bp.(functions := bp.functions[i := g])
    case Macro(i) => bp.(macros := bp.macros[i := g])
  }

  // ---------------------------------------------------------------------
  // Searching
  // ---------------------------------------------------------------------

  predicate HasGraph(gs: seq<Graph>, g: Guid) {
    exists i :: 0 <= i < |gs| && gs[i].guid == g
  }

  /** The index of the first graph with GUID `g`: the `for ... if ... break` loops. */
  function FirstGraph(gs: seq<Graph>, g: Guid): (r: Option<nat>)
    ensures r.Some? <==> HasGraph(gs, g)
    ensures r.Some? ==> r.value < |gs| && gs[r.value].guid == g
    ensures r.Some? ==> forall j :: 0 <= j < r.value ==> gs[j].guid != g
    decreases |gs|
  {
    if |gs| == 0 then None
    else if gs[0].guid == g then Some(0)
    else
      match FirstGraph(gs[1..], g)
      case None =>
        assert forall i :: 1 <= i < |gs| ==> gs[i] == gs[1..][i - 1];
        None
      case Some(i) =>
        assert gs[i + 1] == gs[1..][i];
        assert forall j :: 1 <= j < i + 1 ==> gs[j] == gs[1..][j - 1];
        Some(i + 1)
  }

  /**
   * `FindGraphByGuid`: the first graph with that GUID, searching the
   * ubergraph pages, then the function graphs, then the macro graphs.
   */
  function FindGraphByGuid(bp: Blueprint, g: Guid): (r: Option<GraphLoc>)
    ensures r.Some? <==> HasGraph(bp.ubergraphs, g) || HasGraph(bp.functions, g) || HasGraph(bp.macros, g)
    ensures r.Some? ==> ValidLoc(bp, r.value) && GraphAt(bp, r.value).guid == g
    ensures r.Some? && !r.value.Uber? ==> !HasGraph(bp.ubergraphs, g)
    ensures r.Some? && r.value.Macro? ==> !HasGraph(bp.functions, g)
  {
    match FirstGraph(bp.ubergraphs, g)
    case Some(i) => Some(Uber(i))
    case None =>
      match FirstGraph(bp.functions, g)
      case Some(i) => Some(Func(i))
      case None =>
        match FirstGraph(bp.macros, g)
        case Some(i) => Some(Macro(i))
        case None => None
  }

  /**
   * The two-loop search most operations inline: ubergraph pages, then
   * function graphs; macro graphs are not searched.
   */
  function FindUberOrFunction(bp: Blueprint, g: Guid): (r: Option<GraphLoc>)
    ensures r.Some? <==> HasGraph(bp.ubergraphs, g) || HasGraph(bp.functions, g)
    ensures r.Some? ==> ValidLoc(bp, r.value) && !r.value.Macro? && GraphAt(bp, r.value).guid == g
  {
    match FirstGraph(bp.ubergraphs, g)
    case Some(i) => Some(Uber(i))
    case None =>
      match FirstGraph(bp.functions, g)
      case Some(i) => Some(Func(i))
      case None => None
  }

  /**
   * The inlined search agrees with `FindGraphByGuid` except that a GUID
   * found only among the macro graphs is not found.
   */
  lemma InlineSearchSkipsMacros(bp: Blueprint, g: Guid)
    ensures FindUberOrFunction(bp, g)
            == match FindGraphByGuid(bp, g)
               case Some(Macro(_)) => None
               case other => other
  {
  }

  /** The `EventGraph` alias, compared ignoring case. */
  predicate IsEventGraphId(id: string) {
    EqualsIgnoreCase(id, "EventGraph")
  }

  // ---------------------------------------------------------------------
  // Nodes and pins
  // ---------------------------------------------------------------------

  /** The index of the first node with GUID `g`. */
  function FirstNode(nodes: seq<Node>, g: Guid): (r: Option<nat>)
    ensures r.Some? <==> exists i :: 0 <= i < |nodes| && nodes[i].guid == g
    ensures r.Some? ==> r.value < |nodes| && nodes[r.value].guid == g
    ensures r.Some? ==> forall j :: 0 <= j < r.value ==> nodes[j].guid != g
    decreases |nodes|
  {
    if |nodes| == 0 then None
    else if nodes[0].guid == g then Some(0)
    else
      match FirstNode(nodes[1..], g)
      case None =>
        assert forall i :: 1 <= i < |nodes| ==> nodes[i] == nodes[1..][i - 1];
        None
      case Some(i) =>
        assert nodes[i + 1] == nodes[1..][i];
        assert forall j :: 1 <= j < i + 1 ==> nodes[j] == nodes[1..][j - 1];
        Some(i + 1)
  }

  /** The index of the first function-entry node. */
  function FirstEntry(nodes: seq<Node>): (r: Option<nat>)
    ensures r.Some? <==> exists i :: 0 <= i < |nodes| && nodes[i].kind.FunctionEntry?
    ensures r.Some? ==> r.value < |nodes| && nodes[r.value].kind.FunctionEntry?
    ensures r.Some? ==> forall j :: 0 <= j < r.value ==> !nodes[j].kind.FunctionEntry?
    decreases |nodes|
  {
    if |nodes| == 0 then None
    else if nodes[0].kind.FunctionEntry? then Some(0)
    else
      match FirstEntry(nodes[1..])
      case None =>
        assert forall i :: 1 <= i < |nodes| ==> nodes[i] == nodes[1..][i - 1];
        None
      case Some(i) =>
        assert nodes[i + 1] == nodes[1..][i];
        assert forall j :: 1 <= j < i + 1 ==> nodes[j] == nodes[1..][j - 1];
        Some(i + 1)
  }

  /**
   * `UEdGraphNode::FindPin(name, direction)`: the first pin with that name
   * and direction. Pin names are `FName`s, which compare ignoring case.
   */
  function FindPin(pins: seq<Pin>, name: string, dir: Option<Direction>): (r: Option<nat>)
    ensures r.Some? ==> r.value < |pins| && EqualsIgnoreCase(pins[r.value].name, name)
    ensures r.Some? && dir.Some? ==> pins[r.value].direction == dir.value
    ensures r.Some? ==> forall j :: 0 <= j < r.value ==>
                          !EqualsIgnoreCase(pins[j].name, name) || (dir.Some? && pins[j].direction != dir.value)
    ensures r.None? ==> forall i :: 0 <= i < |pins| ==>
                          !EqualsIgnoreCase(pins[i].name, name) || (dir.Some? && pins[i].direction != dir.value)
    decreases |pins|
  {
    if |pins| == 0 then None
    else if EqualsIgnoreCase(pins[0].name, name) && (dir.None? || pins[0].direction == dir.value) then Some(0)
    else
      match FindPin(pins[1..], name, dir)
      case None =>
        assert forall i :: 1 <= i < |pins| ==> pins[i] == pins[1..][i - 1];
        None
      case Some(i) =>
        assert pins[i + 1] == pins[1..][i];
        assert forall j :: 1 <= j < i + 1 ==> pins[j] == pins[1..][j - 1];
        Some(i + 1)
  }

  /** The pins of a node that have the given direction, in order. */
  function PinsWithDirection(pins: seq<Pin>, dir: Direction): (r: seq<Pin>)
    ensures forall k :: 0 <= k < |r| ==> r[k].direction == dir
    ensures forall k :: 0 <= k < |r| ==> r[k] in pins
    ensures forall p :: p in pins && p.direction == dir ==> p in r
    ensures |r| <= |pins|
    decreases |pins|
  {
    if |pins| == 0 then []
    else if pins[0].direction == dir then [pins[0]] + PinsWithDirection(pins[1..], dir)
    else PinsWithDirection(pins[1..], dir)
  }
}
