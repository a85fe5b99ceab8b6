/**
 * `UGenBlueprintNodeCreator`, in its editor and runtime copies: resolving a
 * requested node type through the alias table, the node kinds it builds
 * itself, the fall-back to the library search, and the node-level commands
 * `AddNode`, `AddNodesBulk` and `DeleteNode`. Engine lookups (classes,
 * functions, GUID parsing) are inputs; a node that would be created is
 * described by what kind of node it is.
 */
module NodeCreator {
  import opened Wrappers
  import opened Text
  import opened Json
  import opened Graphs
  import UeJson
  import NodeRanking
  import BlueprintCommands

  // ---------------------------------------------------------------------
  // The alias table
  // ---------------------------------------------------------------------

  /** `NodeTypeMap`: lower-case alias to the node type it stands for. */
  type AliasTable = map<string, string>

  /** The entries `InitNodeTypeMap` adds; no key is added twice. */
  const Aliases: AliasTable := map[
    "returnnode" := "K2Node_FunctionResult",
    "floatplusfloat" := "Add_FloatFloat",
    "floatplus" := "Add_FloatFloat",
    "k2_addfloat" := "Add_FloatFloat",
    "kismetmathlibrary.multiply_floatfloat" := "Multiply_FloatFloat",
    "kismetmathlibrary.add_floatfloat" := "Add_FloatFloat",
    "getlocation" := "GetActorLocation",
    "setlocation" := "SetActorLocation",
    "k2_getactorlocation" := "GetActorLocation",
    "k2_setactorlocation" := "SetActorLocation",
    "functionentry" := "K2Node_FunctionEntry",
    "gettime" := "GetTimeSeconds",
    "gettimeseconds" := "GetTimeSeconds",
    "sin" := "Sin",
    "cos" := "Cos",
    "makevector" := "MakeVector",
    "vector" := "MakeVector",
    "addvector" := "Add_VectorVector",
    "add_vectorvector" := "Add_VectorVector",
    "getvariable" := "VariableGet",
    "setvariable" := "VariableSet",
    "event beginplay" := "EventBeginPlay",
    "beginplay" := "EventBeginPlay",
    "receivebeginplay" := "EventBeginPlay",
    "eventtick" := "EventTick",
    "inputaction" := "K2Node_InputAction",
    "input" := "K2Node_InputAction",
    "actionevent" := "K2Node_InputAction",
    "inputevent" := "K2Node_InputAction"
  ]

  /** `InitNodeTypeMap`: an empty map receives the aliases; a filled one is left alone. */
  function InitNodeTypeMap(current: AliasTable): (r: AliasTable)
    ensures |current| > 0 ==> r == current
    ensures |current| == 0 ==> r == Aliases
    ensures |r| > 0
  {
    if |current| > 0 then current else Aliases
  }

  /** Initialising twice is initialising once. */
  lemma InitIsIdempotent(current: AliasTable)
    ensures InitNodeTypeMap(InitNodeTypeMap(current)) == InitNodeTypeMap(current)
  {
    assert "sin" in Aliases;
  }

  /** `NodeTypeMap.FindRef(NodeType.ToLower(), NodeType)`: the alias target, else the type unchanged. */
  function ResolveNodeType(nodeType: string): (r: string)
    ensures Lower(nodeType) in Aliases ==> r == Aliases[Lower(nodeType)]
    ensures Lower(nodeType) !in Aliases ==> r == nodeType
  {
    if Lower(nodeType) in Aliases then Aliases[Lower(nodeType)] else nodeType
  }

  /** Resolution ignores case whenever an alias applies. */
  lemma ResolutionIgnoresCase(a: string, b: string)
    requires Lower(a) == Lower(b) && Lower(a) in Aliases
    ensures ResolveNodeType(a) == ResolveNodeType(b)
  {
  }

  /** All spellings of BeginPlay resolve to the same event. */
  lemma BeginPlaySpellings()
    ensures ResolveNodeType("BeginPlay") == "EventBeginPlay"
    ensures ResolveNodeType("RECEIVEBEGINPLAY") == "EventBeginPlay"
    ensures ResolveNodeType("Event BeginPlay") == "EventBeginPlay"
  {
    assert Lower("BeginPlay") == "beginplay";
    assert Lower("RECEIVEBEGINPLAY") == "receivebeginplay";
    assert Lower("Event BeginPlay") == "event beginplay";
  }

  // ---------------------------------------------------------------------
  // What a node creation needs from its surroundings
  // ---------------------------------------------------------------------

  /** The `PropertiesJson` argument: empty, not a JSON object, or an object. */
  datatype Properties = NoProperties | Unparseable | PropertiesObject(fields: Fields)

  /**
   * `TryGetStringField(key, out)` on the parsed properties: the name is
   * matched ignoring case, and a number or a boolean reads as its text.
   */
  function StringProperty(props: Properties, key: string): (r: Option<string>)
    ensures r.Some? ==> props.PropertiesObject? && UeJson.HasField(props.fields, key)
    ensures props.PropertiesObject? && UeJson.HasField(props.fields, key) ==>
              r == UeJson.TryGetString(UeJson.GetField(props.fields, key).value)
    ensures props.PropertiesObject? && UeJson.HasField(props.fields, key) && UeJson.GetField(props.fields, key).value.JStr? ==>
              r == Some(UeJson.GetField(props.fields, key).value.s)
  {
    if props.PropertiesObject? then UeJson.TryGetStringField(props.fields, key) else None
  }

  /** Two spellings of a property name that differ only in case read the same value. */
  lemma StringPropertyIgnoresCase(props: Properties, a: string, b: string)
    requires EqualsIgnoreCase(a, b)
    ensures StringProperty(props, a) == StringProperty(props, b)
  {
    if props.PropertiesObject? {
      UeJson.GetFieldIgnoresCase(props.fields, a, b);
    }
  }

  /** The last field of a name is the one read; a number or a boolean there reads as its text, anything else as nothing. */
  lemma StringPropertyOfLastField(fields: Fields, name: string, v: Json, key: string)
    requires EqualsIgnoreCase(name, key)
    ensures v.JStr? ==> StringProperty(PropertiesObject(fields + [(name, v)]), key) == Some(v.s)
    ensures v.JNum? ==> StringProperty(PropertiesObject(fields + [(name, v)]), key) == Some(v.repr)
    ensures v.JBool? ==> StringProperty(PropertiesObject(fields + [(name, v)]), key) == Some(if v.b then "true" else "false")
    ensures v.JNull? || v.JArr? || v.JObj? ==> StringProperty(PropertiesObject(fields + [(name, v)]), key).None?
  {
    UeJson.GetFieldLastWins(fields, name, v, key);
  }

  /** A string property that must also be non-empty. */
  function RequiredName(props: Properties, key: string): (r: Option<string>)
    ensures r.Some? <==> StringProperty(props, key).Some? && StringProperty(props, key).value != ""
    ensures r.Some? ==> r == StringProperty(props, key)
  {
    match StringProperty(props, key)
    case Some(s) => if s != "" then Some(s) else None
    case None => None
  }

  /**
   * The engine as the node creator consults it: library reflection for the
   * fuzzy search, whether a class has a function of a given name, and
   * whether a class of a given name exists and derives from `UK2Node`.
   */
  datatype Engine = Engine(reflect: NodeRanking.Reflection,
                           hasFunction: (string, string) -> bool,
                           isNodeClass: string -> bool)

  /** The node a successful creation yields. */
  datatype NewNode =
    | NewEvent(member: string, overrides: bool)  // a new `UK2Node_Event` for an `Actor` event
    | ExistingNode(guid: Guid)             // a node already in a graph, handed back
    | InputActionNode(action: string)
    | BranchNode | SequenceNode | SwitchEnumNode | SwitchIntegerNode | SwitchStringNode
    | VariableGetNode(variable: string)
    | VariableSetNode(variable: string, value: Option<string>)
    | CallFunction(owner: string, func: string)
    | NodeOfClass(className: string)

  // ---------------------------------------------------------------------
  // TryCreateKnownNodeType
  // ---------------------------------------------------------------------

  predicate IsBeginPlayType(actual: string) {
    EqualsIgnoreCase(actual, "EventBeginPlay") || EqualsIgnoreCase(actual, "BeginPlay")
    || EqualsIgnoreCase(actual, "ReceiveBeginPlay")
  }

  /** The `Actor` event a resolved type names, if it is BeginPlay or Tick. */
  function EventMember(actual: string): (r: Option<string>)
    ensures r == Some("ReceiveBeginPlay") <==> IsBeginPlayType(actual)
    ensures r == Some("ReceiveTick") <==> !IsBeginPlayType(actual) && EqualsIgnoreCase(actual, "EventTick")
    ensures r.None? <==> !IsBeginPlayType(actual) && !EqualsIgnoreCase(actual, "EventTick")
  {
    if IsBeginPlayType(actual) then Some("ReceiveBeginPlay")
    else if EqualsIgnoreCase(actual, "EventTick") then Some("ReceiveTick")
    else None
  }

  predicate IsEventFor(n: Node, member: string) {
    n.kind.EventNode? && n.kind.member == member
  }

  /** The first event node for `member` (compared case-sensitively). */
  function FirstEvent(nodes: seq<Node>, member: string): (r: Option<nat>)
    ensures r.Some? <==> exists i :: 0 <= i < |nodes| && IsEventFor(nodes[i], member)
    ensures r.Some? ==> r.value < |nodes| && IsEventFor(nodes[r.value], member)
    ensures r.Some? ==> forall j :: 0 <= j < r.value ==> !IsEventFor(nodes[j], member)
    decreases |nodes|
  {
    if |nodes| == 0 then None
    else if IsEventFor(nodes[0], member) then Some(0)
    else
      match FirstEvent(nodes[1..], member)
      case None =>
        assert forall i :: 1 <= i < |nodes| ==> nodes[i] == nodes[1..][i - 1];
        None
      case Some(i) =>
        assert nodes[i + 1] == nodes[1..][i];
        assert forall j :: 1 <= j < i + 1 ==> nodes[j] == nodes[1..][j - 1];
        Some(i + 1)
  }

  /** Editor copy: an event node is made only in the default event graph. */
  function EditorEvent(bp: Blueprint, loc: GraphLoc, member: string): (r: Option<NewNode>)
    ensures r.Some? <==> |bp.ubergraphs| > 0 && loc == Uber(0)
    ensures r.Some? ==> r.value == NewEvent(member, true)
  {
    if |bp.ubergraphs| == 0 || loc != Uber(0) then None else Some(NewEvent(member, true))
  }

  /** Runtime copy: the first existing event node of the default event graph is reused. */
  function RuntimeEvent(bp: Blueprint, member: string): (r: NewNode)
    requires |bp.ubergraphs| > 0
    ensures var nodes := bp.ubergraphs[0].nodes;
            && ((exists i :: 0 <= i < |nodes| && IsEventFor(nodes[i], member)) <==> r.ExistingNode?)
            && (r.ExistingNode? ==> exists i :: 0 <= i < |nodes| && IsEventFor(nodes[i], member) && nodes[i].guid == r.guid
                                               && forall j :: 0 <= j < i ==> !IsEventFor(nodes[j], member))
            && (!r.ExistingNode? ==> r == NewEvent(member, false))
  {
    match FirstEvent(bp.ubergraphs[0].nodes, member)
    case Some(i) => ExistingNode(bp.ubergraphs[0].nodes[i].guid)
    case None => NewEvent(member, false)
  }

  /** The node kinds that need nothing but their type name. */
  function PlainKind(actual: string): (r: Option<NewNode>)
    ensures r == Some(BranchNode) <==> EqualsIgnoreCase(actual, "Branch") || EqualsIgnoreCase(actual, "IfThenElse")
  {
    if EqualsIgnoreCase(actual, "Branch") || EqualsIgnoreCase(actual, "IfThenElse") then Some(BranchNode)
    else if EqualsIgnoreCase(actual, "Sequence") || EqualsIgnoreCase(actual, "ExecutionSequence") then Some(SequenceNode)
    else if EqualsIgnoreCase(actual, "SwitchEnum") then Some(SwitchEnumNode)
    else if EqualsIgnoreCase(actual, "SwitchInteger") || EqualsIgnoreCase(actual, "SwitchInt") then Some(SwitchIntegerNode)
    else if EqualsIgnoreCase(actual, "SwitchString") then Some(SwitchStringNode)
    else None
  }

  /**
   * The `CreateMathFunctionNode` targets. The arithmetic, print, delay and
   * location names are compared with the resolved type; the conversions
   * with the type as requested.
   */
  function FunctionTarget(actual: string, requested: string): Option<(string, string)> {
    if EqualsIgnoreCase(actual, "Multiply") || EqualsIgnoreCase(actual, "Multiply_Float") then
      Some(("KismetMathLibrary", "Multiply_FloatFloat"))
    else if EqualsIgnoreCase(actual, "Add") || EqualsIgnoreCase(actual, "Add_Float") then
      Some(("KismetMathLibrary", "Add_FloatFloat"))
    else if EqualsIgnoreCase(actual, "Subtract") || EqualsIgnoreCase(actual, "Subtract_Float") then
      Some(("KismetMathLibrary", "Subtract_FloatFloat"))
    else if EqualsIgnoreCase(actual, "Divide") || EqualsIgnoreCase(actual, "Divide_Float") then
      Some(("KismetMathLibrary", "Divide_FloatFloat"))
    else if EqualsIgnoreCase(actual, "Print") || EqualsIgnoreCase(actual, "PrintString") then
      Some(("KismetSystemLibrary", "PrintString"))
    else if EqualsIgnoreCase(actual, "Delay") then Some(("KismetSystemLibrary", "Delay"))
    else if EqualsIgnoreCase(actual, "GetActorLocation") then Some(("Actor", "K2_GetActorLocation"))
    else if EqualsIgnoreCase(actual, "SetActorLocation") then Some(("Actor", "K2_SetActorLocation"))
    else if EqualsIgnoreCase(requested, "FloatToDouble") || EqualsIgnoreCase(requested, "Conv_FloatToDouble") then
      Some(("KismetMathLibrary", "Conv_FloatToDouble"))
    else if EqualsIgnoreCase(requested, "FloatToInt") || EqualsIgnoreCase(requested, "Conv_FloatToInteger") then
      Some(("KismetMathLibrary", "Conv_FloatToInteger"))
    else if EqualsIgnoreCase(requested, "IntToFloat") || EqualsIgnoreCase(requested, "Conv_IntToFloat") then
      Some(("KismetMathLibrary", "Conv_IntToFloat"))
    else if EqualsIgnoreCase(requested, "DoubleToFloat") || EqualsIgnoreCase(requested, "Conv_DoubleToFloat") then
      Some(("KismetMathLibrary", "Conv_DoubleToFloat"))
    else None
  }

  /** The last resort: a `UK2Node` class named `UK2Node_<type>`, else `<type>`. */
  function ClassNode(actual: string, env: Engine): (r: Option<NewNode>)
    ensures r.Some? <==> env.isNodeClass("UK2Node_" + actual) || env.isNodeClass(actual)
    ensures r.Some? ==> r.value.NodeOfClass? && env.isNodeClass(r.value.className)
  {
    if env.isNodeClass("UK2Node_" + actual) then Some(NodeOfClass("UK2Node_" + actual))
    else if env.isNodeClass(actual) then Some(NodeOfClass(actual))
    else None
  }

  predicate IsEntryType(actual: string) {
    Contains(Lower(actual), "functionentry") || Contains(Lower(actual), "entrynode")
  }

  /** Everything after the event checks: identical in both copies. */
  function OtherKnown(g: Graph, actual: string, requested: string, props: Properties, env: Engine): (r: Option<NewNode>)
    ensures IsEntryType(actual) ==>
              (r.Some? <==> exists i :: 0 <= i < |g.nodes| && g.nodes[i].kind.FunctionEntry?)
              && (r.Some? ==> r.value.ExistingNode?)
    ensures !IsEntryType(actual) && EqualsIgnoreCase(actual, "K2Node_InputAction") ==>
              r == (match RequiredName(props, "action_name") case Some(a) => Some(InputActionNode(a)) case None => None)
  {
    if IsEntryType(actual) then
      match FirstEntry(g.nodes)
      case Some(i) => Some(ExistingNode(g.nodes[i].guid))
      case None => None
    else if EqualsIgnoreCase(actual, "K2Node_InputAction") then
      match RequiredName(props, "action_name")
      case Some(a) => Some(InputActionNode(a))
      case None => None
    else if PlainKind(actual).Some? then PlainKind(actual)
    else if EqualsIgnoreCase(actual, "VariableGet") || EqualsIgnoreCase(actual, "Getter") then
      match RequiredName(props, "VariableName")
      case Some(v) => Some(VariableGetNode(v))
      case None => None
    else if EqualsIgnoreCase(actual, "VariableSet") || EqualsIgnoreCase(actual, "Setter") then
      match RequiredName(props, "VariableName")
      case Some(v) => Some(VariableSetNode(v, StringProperty(props, "Value")))
      case None => None
    else
      match FunctionTarget(actual, requested)
      case Some((owner, f)) => if env.hasFunction(owner, f) then Some(CallFunction(owner, f)) else None
      case None => ClassNode(actual, env)
  }

  /** `TryCreateKnownNodeType`: the node it makes for the graph at `loc`, or `None` for `false`. */
  function KnownNodeType(copy: Copy, bp: Blueprint, loc: GraphLoc, requested: string, props: Properties, env: Engine)
    : (r: Option<NewNode>)
    requires ValidLoc(bp, loc)
    ensures var actual := ResolveNodeType(requested);
            EventMember(actual).Some? && copy.EditorCopy? ==>
              r == EditorEvent(bp, loc, EventMember(actual).value)
    ensures var actual := ResolveNodeType(requested);
            EventMember(actual).Some? && copy.RuntimeCopy? && |bp.ubergraphs| > 0 ==>
              r == Some(RuntimeEvent(bp, EventMember(actual).value))
    ensures var actual := ResolveNodeType(requested);
            EventMember(actual).None? || (copy.RuntimeCopy? && |bp.ubergraphs| == 0) ==>
              r == OtherKnown(GraphAt(bp, loc), actual, requested, props, env)
  {
    var actual := ResolveNodeType(requested);
    match EventMember(actual)
    case Some(member) =>
      if copy.EditorCopy? then EditorEvent(bp, loc, member)
      else if |bp.ubergraphs| > 0 then Some(RuntimeEvent(bp, member))
      else OtherKnown(GraphAt(bp, loc), actual, requested, props, env)
    case None => OtherKnown(GraphAt(bp, loc), actual, requested, props, env)
  }

  /**
   * The editor copy makes BeginPlay only in the default event graph: asked
   * for a function graph it declines, while the runtime copy hands back
   * (or makes) the event node of the default event graph regardless.
   */
  lemma BeginPlayOutsideEventGraph(bp: Blueprint, i: nat, props: Properties, env: Engine)
    requires |bp.ubergraphs| > 0 && i < |bp.functions|
    ensures KnownNodeType(EditorCopy, bp, Func(i), "BeginPlay", props, env).None?
    ensures KnownNodeType(RuntimeCopy, bp, Func(i), "BeginPlay", props, env).Some?
  {
    BeginPlaySpellings();
    assert EventMember("EventBeginPlay") == Some("ReceiveBeginPlay") by {
      assert Lower("EventBeginPlay") == Lower("EventBeginPlay");
    }
  }

  /** A function-entry request hands back the graph's first entry node; it never makes one. */
  lemma EntryIsReusedNeverMade(copy: Copy, bp: Blueprint, loc: GraphLoc, props: Properties, env: Engine)
    requires ValidLoc(bp, loc)
    ensures var r := KnownNodeType(copy, bp, loc, "FunctionEntry", props, env);
            var nodes := GraphAt(bp, loc).nodes;
            && (r.Some? <==> exists i :: 0 <= i < |nodes| && nodes[i].kind.FunctionEntry?)
            && (r.Some? ==> r.value.ExistingNode?)
  {
    FunctionEntryIsEntryType();
  }

  /** `FunctionEntry` resolves to the entry node class, which is no event and is an entry type. */
  lemma FunctionEntryIsEntryType()
    ensures ResolveNodeType("FunctionEntry") == "K2Node_FunctionEntry"
    ensures EventMember("K2Node_FunctionEntry").None?
    ensures IsEntryType("K2Node_FunctionEntry")
  {
    assert Lower("FunctionEntry") == "functionentry";
    EntryClassIsNoEvent();
    EntryClassIsEntryType();
  }

  lemma EntryClassIsNoEvent()
    ensures EventMember("K2Node_FunctionEntry").None?
  {
    var actual := "K2Node_FunctionEntry";
    assert |Lower(actual)| != |Lower("EventBeginPlay")| && |Lower(actual)| != |Lower("BeginPlay")|;
    assert |Lower(actual)| != |Lower("ReceiveBeginPlay")| && |Lower(actual)| != |Lower("EventTick")|;
  }

  lemma EntryClassIsEntryType()
    ensures IsEntryType("K2Node_FunctionEntry")
  {
    var actual := "K2Node_FunctionEntry";
    assert Lower(actual) == "k2node_functionentry";
    assert Lower(actual)[7..20] == "functionentry";
    assert OccursAt(Lower(actual), "functionentry", 7);
  }

  // ---------------------------------------------------------------------
  // The editor's BeginPlay and Tick replacement
  // ---------------------------------------------------------------------

  /** The links of a pin with those to the nodes `gone` broken. */
  function DropLinksTo(refs: seq<PinRef>, gone: set<Guid>): (r: seq<PinRef>)
    ensures forall x :: x in r <==> x in refs && x.node !in gone
    decreases |refs|
  {
    if |refs| == 0 then []
    else
      assert forall x :: x in refs <==> x == refs[0] || x in refs[1..];
      (if refs[0].node in gone then [] else [refs[0]]) + DropLinksTo(refs[1..], gone)
  }

  predicate LinksTo(n: Node, gone: set<Guid>) {
    exists k, x :: 0 <= k < |n.pins| && x in n.pins[k].linkedTo && x.node in gone
  }

  /**
   * A node after `RemoveNode` broke the links of the nodes `gone`: its
   * links to them are gone and nothing else about it changes.
   */
  function Unlinked(n: Node, gone: set<Guid>): (r: Node)
    ensures r.guid == n.guid && r.objectName == n.objectName && r.kind == n.kind && |r.pins| == |n.pins|
    ensures forall k :: 0 <= k < |r.pins| ==>
              && r.pins[k].name == n.pins[k].name && r.pins[k].direction == n.pins[k].direction
              && r.pins[k].category == n.pins[k].category && r.pins[k].subCategory == n.pins[k].subCategory
              && (forall x :: x in r.pins[k].linkedTo <==> x in n.pins[k].linkedTo && x.node !in gone)
    ensures !LinksTo(r, gone)
  {
    n.(pins := seq(|n.pins|, k requires 0 <= k < |n.pins| => n.pins[k].(linkedTo := DropLinksTo(n.pins[k].linkedTo, gone))))
  }

  function UnlinkAll(nodes: seq<Node>, gone: set<Guid>): (r: seq<Node>)
    ensures |r| == |nodes|
    ensures forall k :: 0 <= k < |r| ==> r[k] == Unlinked(nodes[k], gone)
  {
    seq(|nodes|, k requires 0 <= k < |nodes| => Unlinked(nodes[k], gone))
  }

  /** The nodes left after every event node for `member` is removed. */
  function WithoutEvent(nodes: seq<Node>, member: string): (r: seq<Node>)
    ensures forall k :: 0 <= k < |r| ==> !IsEventFor(r[k], member) && r[k] in nodes
    ensures forall n :: n in nodes && !IsEventFor(n, member) ==> n in r
    ensures |r| <= |nodes|
    decreases |nodes|
  {
    if |nodes| == 0 then []
    else
      var rest := WithoutEvent(nodes[1..], member);
      assert forall n :: n in nodes ==> n == nodes[0] || n in nodes[1..];
      if IsEventFor(nodes[0], member) then rest else [nodes[0]] + rest
  }

  /** The GUIDs of the event nodes for `member`. */
  function EventGuids(nodes: seq<Node>, member: string): set<Guid> {
    set n | n in nodes && IsEventFor(n, member) :: n.guid
  }

  /**
   * The default event graph after the editor copy adds a BeginPlay or Tick
   * node: every earlier node for that event is removed with its links, and
   * the new overriding event node is appended.
   */
  function ReplaceEvent(g: Graph, member: string, newGuid: Guid): (r: Graph)
    ensures r.guid == g.guid
    ensures |r.nodes| > 0 && r.nodes[|r.nodes| - 1] == Node(newGuid, "", EventNode(member, true), [])
    ensures forall k :: 0 <= k < |r.nodes| - 1 ==> !IsEventFor(r.nodes[k], member)
    ensures forall k :: 0 <= k < |r.nodes| - 1 ==> !LinksTo(r.nodes[k], EventGuids(g.nodes, member))
    ensures forall n :: n in g.nodes && !IsEventFor(n, member) ==> Unlinked(n, EventGuids(g.nodes, member)) in r.nodes
    ensures forall k :: 0 <= k < |r.nodes| - 1 ==> exists n :: n in g.nodes && !IsEventFor(n, member)
                                                              && r.nodes[k] == Unlinked(n, EventGuids(g.nodes, member))
  {
    var kept := WithoutEvent(g.nodes, member);
    var gone := EventGuids(g.nodes, member);
    var rest := UnlinkAll(kept, gone);
    assert forall n :: n in kept ==> Unlinked(n, gone) in rest by {
      forall n | n in kept ensures Unlinked(n, gone) in rest {
        var k :| 0 <= k < |kept| && kept[k] == n;
        assert rest[k] == Unlinked(n, gone);
      }
    }
    Graph(g.guid, rest + [Node(newGuid, "", EventNode(member, true), [])])
  }

  /** Afterwards the graph holds exactly one node for the event. */
  lemma ReplaceEventLeavesOne(g: Graph, member: string, newGuid: Guid)
    ensures var nodes := ReplaceEvent(g, member, newGuid).nodes;
            forall i, j :: (0 <= i < |nodes| && 0 <= j < |nodes| && IsEventFor(nodes[i], member)
                            && IsEventFor(nodes[j], member)) ==> i == j
  {
  }

  // ---------------------------------------------------------------------
  // AddNode
  // ---------------------------------------------------------------------

  /** `GetGraphFromFunctionId`: the `EventGraph` alias, else a GUID searched in ubergraph and function graphs. */
  function GraphFromFunctionId(bp: Blueprint, functionId: string, parse: GuidParser): (r: Option<GraphLoc>)
    ensures r.Some? ==> ValidLoc(bp, r.value) && !r.value.Macro?
    ensures (EqualsIgnoreCase(functionId, "EventGraph") || EqualsIgnoreCase(functionId, "Event Graph")) ==>
              r == DefaultEventGraph(bp)
    ensures !(EqualsIgnoreCase(functionId, "EventGraph") || EqualsIgnoreCase(functionId, "Event Graph")) ==>
              r == (match parse(functionId) case None => None case Some(g) => FindUberOrFunction(bp, g))
  {
    if EqualsIgnoreCase(functionId, "EventGraph") || EqualsIgnoreCase(functionId, "Event Graph") then
      DefaultEventGraph(bp)
    else
      match parse(functionId)
      case None => None
      case Some(g) => FindUberOrFunction(bp, g)
  }

  /** What `AddNode` returns: a node's GUID, the suggestion text, or `""`. */
  datatype AddNodeResult = Added(guid: Guid) | Suggestions(text: string) | NotAdded

  /** The GUID reported for a node: its own if valid, else the new GUID assigned to it. */
  function GuidOf(n: NewNode, newGuid: Guid): (g: Guid)
    ensures IsValidGuid(newGuid) ==> IsValidGuid(g)
    ensures n.ExistingNode? && IsValidGuid(n.guid) ==> g == n.guid
  {
    if n.ExistingNode? && IsValidGuid(n.guid) then n.guid else newGuid
  }

  /** `Result.StartsWith(TEXT("SUGGESTIONS:"))`, which ignores case. */
  predicate IsSuggestionText(text: string) {
    text != "" && StartsWith(Lower(text), Lower(BlueprintCommands.SuggestionsPrefix))
  }

  /** The library fall-back: a created call node, the suggestions, or nothing. */
  function LibraryFallback(searched: string, env: Engine, newGuid: Guid): (r: AddNodeResult)
    ensures var o := NodeRanking.FromLibraries(NodeRanking.Candidates(NodeRanking.CommonLibraries, env.reflect), searched);
            && (o.CreatedFrom? <==> r == Added(newGuid))
            && (o.Suggested? <==> r == Suggestions(NodeRanking.LibraryText(o)))
            && (o.NoMatches? <==> r == NotAdded)
  {
    var o := NodeRanking.FromLibraries(NodeRanking.Candidates(NodeRanking.CommonLibraries, env.reflect), searched);
    var text := NodeRanking.LibraryText(o);
    SuggestionTextIsRecognised(o);
    if IsSuggestionText(text) then Suggestions(text)
    else if text != "" then Added(newGuid)
    else NotAdded
  }

  /** The textual test `AddNode` applies tells the three library outcomes apart. */
  lemma SuggestionTextIsRecognised(o: NodeRanking.LibraryOutcome)
    requires o.CreatedFrom? ==> o.best.display == NodeRanking.DisplayName(o.best.candidate)
    ensures IsSuggestionText(NodeRanking.LibraryText(o)) <==> o.Suggested?
    ensures NodeRanking.LibraryText(o) != "" <==> !o.NoMatches?
  {
    var text := NodeRanking.LibraryText(o);
    match o
    case NoMatches =>
    case CreatedFrom(m) =>
      DisplayIsNotSuggestion(m.candidate);
    case Suggested(names) =>
      var p := BlueprintCommands.SuggestionsPrefix;
      assert text == p + Join(names, ", ");
      LowerAppend(p, Join(names, ", "));
      assert Lower(text)[..|p|] == Lower(p);
  }

  /** A display name starts with a library name, never with the suggestion marker. */
  lemma DisplayIsNotSuggestion(c: NodeRanking.Candidate)
    ensures !IsSuggestionText(NodeRanking.DisplayName(c))
  {
    var d := NodeRanking.DisplayName(c);
    assert d[0] == NodeRanking.LibraryName(c.library)[0];
    assert Lower(d)[0] == LowerChar(d[0]);
    assert Lower(BlueprintCommands.SuggestionsPrefix)[0] == 's';
  }

  /**
   * `AddNode`: load the blueprint, find the graph, try the known kinds,
   * then fall back to the library search with the type as requested.
   * `newGuid` is the GUID a new node ends up with.
   */
  function AddNode(copy: Copy, bp: Option<Blueprint>, functionId: string, requested: string, props: Properties,
                   env: Engine, parse: GuidParser, newGuid: Guid): (r: AddNodeResult)
    ensures bp.None? ==> r == NotAdded
    ensures bp.Some? && GraphFromFunctionId(bp.value, functionId, parse).None? ==> r == NotAdded
    ensures bp.Some? && GraphFromFunctionId(bp.value, functionId, parse).Some? ==>
              var loc := GraphFromFunctionId(bp.value, functionId, parse).value;
              match KnownNodeType(copy, bp.value, loc, requested, props, env)
              case Some(n) => r == Added(GuidOf(n, newGuid))
              case None => r == LibraryFallback(requested, env, newGuid)
    ensures r.Added? && IsValidGuid(newGuid) ==> IsValidGuid(r.guid)
  {
    if bp.None? then NotAdded
    else
      match GraphFromFunctionId(bp.value, functionId, parse)
      case None => NotAdded
      case Some(loc) =>
        match KnownNodeType(copy, bp.value, loc, requested, props, env)
        case Some(n) => Added(GuidOf(n, newGuid))
        case None => LibraryFallback(requested, env, newGuid)
  }

  /**
   * The same with the library search run on the resolved type, so that an
   * alias whose target is a library function (`floatplus` to
   * `Add_FloatFloat`) reaches it.
   */
  function AddNodeResolvingAliases(copy: Copy, bp: Option<Blueprint>, functionId: string, requested: string,
                                   props: Properties, env: Engine, parse: GuidParser, newGuid: Guid): (r: AddNodeResult)
    ensures bp.None? ==> r == NotAdded
    ensures bp.Some? && GraphFromFunctionId(bp.value, functionId, parse).None? ==> r == NotAdded
    ensures bp.Some? && GraphFromFunctionId(bp.value, functionId, parse).Some? ==>
              var loc := GraphFromFunctionId(bp.value, functionId, parse).value;
              match KnownNodeType(copy, bp.value, loc, requested, props, env)
              case Some(n) => r == Added(GuidOf(n, newGuid))
              case None => r == LibraryFallback(ResolveNodeType(requested), env, newGuid)
  {
    if bp.None? then NotAdded
    else
      match GraphFromFunctionId(bp.value, functionId, parse)
      case None => NotAdded
      case Some(loc) =>
        match KnownNodeType(copy, bp.value, loc, requested, props, env)
        case Some(n) => Added(GuidOf(n, newGuid))
        case None => LibraryFallback(ResolveNodeType(requested), env, newGuid)
  }

  /** With aliases resolved, an alias naming a visible library function creates a node for it. */
  lemma AliasedFunctionIsCreated(copy: Copy, bp: Blueprint, functionId: string, requested: string,
                                 props: Properties, env: Engine, parse: GuidParser, newGuid: Guid,
                                 lib: NodeRanking.Library, k: nat)
    requires GraphFromFunctionId(bp, functionId, parse).Some?
    requires KnownNodeType(copy, bp, GraphFromFunctionId(bp, functionId, parse).value, requested, props, env).None?
    requires env.reflect(lib).Some? && k < |env.reflect(lib).value|
    requires !env.reflect(lib).value[k].hidden
    requires Lower(env.reflect(lib).value[k].name) == Lower(ResolveNodeType(requested))
    ensures AddNodeResolvingAliases(copy, Some(bp), functionId, requested, props, env, parse, newGuid) == Added(newGuid)
  {
    var cs := NodeRanking.Candidates(NodeRanking.CommonLibraries, env.reflect);
    NodeRanking.EveryFunctionIsCandidate(NodeRanking.CommonLibraries, env.reflect, lib, k);
    NodeRanking.ExactMatchIsCreated(cs, ResolveNodeType(requested), NodeRanking.Candidate(lib, env.reflect(lib).value[k]));
  }

  // ---------------------------------------------------------------------
  // The floatplus counterexample
  // ---------------------------------------------------------------------

  /** A blueprint with one empty event graph. */
  const OneGraph := Blueprint([Graph(1, [])], [], [])

  /** An engine whose only library function is `KismetMathLibrary.Add_FloatFloat` and that has no node classes. */
  function AddFloatOnly(hasFunction: (string, string) -> bool): Engine {
    Engine(l => if l == NodeRanking.KismetMathLibrary then Some([NodeRanking.FunctionInfo("Add_FloatFloat", false)]) else None,
           hasFunction, c => false)
  }

  /** Libraries that are none of them found contribute no candidates. */
  lemma {:induction false} NothingFound(libs: seq<NodeRanking.Library>, reflect: NodeRanking.Reflection)
    requires forall k :: 0 <= k < |libs| ==> reflect(libs[k]).None?
    ensures NodeRanking.Candidates(libs, reflect) == []
    decreases |libs|
  {
    if |libs| > 0 {
      NothingFound(libs[1..], reflect);
    }
  }

  lemma AddFloatCandidates(env: Engine)
    requires env.reflect(NodeRanking.KismetMathLibrary) == Some([NodeRanking.FunctionInfo("Add_FloatFloat", false)])
    requires forall l :: l != NodeRanking.KismetMathLibrary ==> env.reflect(l).None?
    ensures NodeRanking.Candidates(NodeRanking.CommonLibraries, env.reflect)
            == [NodeRanking.Candidate(NodeRanking.KismetMathLibrary, NodeRanking.FunctionInfo("Add_FloatFloat", false))]
  {
    var libs := NodeRanking.CommonLibraries;
    NothingFound(libs[1..], env.reflect);
    assert NodeRanking.LibraryCandidates(NodeRanking.KismetMathLibrary, [NodeRanking.FunctionInfo("Add_FloatFloat", false)])
           == [NodeRanking.Candidate(NodeRanking.KismetMathLibrary, NodeRanking.FunctionInfo("Add_FloatFloat", false))];
  }

  /** The parts `SplitName` finds in `add_floatfloat`. */
  lemma AddFloatFloatParts()
    ensures NodeRanking.SplitName("add_floatfloat") == ["add", "floatfloat"]
  {
    AddFloatFloatSplit();
    NodeRanking.TwoPieces("add_floatfloat", "add", "floatfloat");
  }

  lemma AddFloatFloatSplit()
    ensures Split("add_floatfloat", "_") == ["add", "floatfloat"]
  {
    AddFloatFloatJoin();
    SplitJoin(["add", "floatfloat"], "_");
  }

  lemma AddFloatFloatJoin()
    ensures Join(["add", "floatfloat"], "_") == "add_floatfloat"
    ensures Unbordered("_")
    ensures forall k :: 0 <= k < |["add", "floatfloat"]| ==> !Contains(["add", "floatfloat"][k], "_")
  {
    var parts := ["add", "floatfloat"];
    assert parts[1..] == ["floatfloat"];
    NotContainsFirstChar("add", "_");
    NotContainsFirstChar("floatfloat", "_");
  }

  lemma FloatPlusIsOnePart()
    ensures NodeRanking.SplitName("floatplus") == ["floatplus"]
  {
    var n := "floatplus";
    assert forall i :: 0 <= i < |n| ==> n[i] != '_';
    NotContainsFirstChar(n, "_");
    assert IsLowerCase(n);
    NodeRanking.WordIsOnePart(n);
  }

  lemma AddFloatFloatLacksFloatPlus()
    ensures !Contains("add_floatfloat", "floatplus") && !StartsWith("add_floatfloat", "floatplus")
  {
    var f := "add_floatfloat";
    var n := "floatplus";
    NotContainsChar(f, n, 5);
    assert f[..|n|][0] != n[0];
  }

  /** `Add_FloatFloat` scores nothing against `floatplus`: no base, no shared part, no prefix. */
  lemma FloatPlusScoresNothing()
    ensures NodeRanking.Score(NodeRanking.LibraryWeights, "add_floatfloat", "floatplus") == 0
  {
    AddFloatFloatLacksFloatPlus();
    FloatPlusSharesNoPart();
    NothingInCommon(NodeRanking.LibraryWeights, "add_floatfloat", "floatplus");
  }

  lemma FloatPlusSharesNoPart()
    ensures NodeRanking.SharedParts(NodeRanking.SplitName("floatplus"), NodeRanking.SplitName("add_floatfloat")) == 0
  {
    FloatPlusIsOnePart();
    AddFloatFloatParts();
    assert NodeRanking.SharedParts(["floatplus"], ["add", "floatfloat"]) == 0;
  }

  /** A name that shares nothing with the node type and is not overlong scores nothing. */
  lemma NothingInCommon(w: NodeRanking.Weights, f: string, n: string)
    requires !Contains(f, n) && !StartsWith(f, n) && |f| <= |n| * 2
    requires NodeRanking.SharedParts(NodeRanking.SplitName(n), NodeRanking.SplitName(f)) == 0
    ensures NodeRanking.Score(w, f, n) == 0
  {
    if f == n {
      ContainsSelf(f);
    }
  }

  /** With only `Add_FloatFloat` to find, a search for `floatplus` finds nothing. */
  lemma FloatPlusFindsNothing(env: Engine)
    requires env.reflect(NodeRanking.KismetMathLibrary) == Some([NodeRanking.FunctionInfo("Add_FloatFloat", false)])
    requires forall l :: l != NodeRanking.KismetMathLibrary ==> env.reflect(l).None?
    ensures NodeRanking.FromLibraries(NodeRanking.Candidates(NodeRanking.CommonLibraries, env.reflect), "floatplus").NoMatches?
  {
    AddFloatCandidates(env);
    var c := NodeRanking.Candidate(NodeRanking.KismetMathLibrary, NodeRanking.FunctionInfo("Add_FloatFloat", false));
    LowerNames();
    FloatPlusScoresNothing();
    assert [c][0] == c;
  }

  lemma LowerNames()
    ensures Lower("floatplus") == "floatplus"
    ensures Lower("Add_FloatFloat") == "add_floatfloat"
  {
  }

  /** `floatplus` names the alias whose target is `Add_FloatFloat`. */
  lemma FloatPlusResolves()
    ensures ResolveNodeType("floatplus") == "Add_FloatFloat"
  {
    LowerNames();
  }

  /**
   * As written, `floatplus` resolves to `Add_FloatFloat`, which no known
   * kind matches, and the library search then looks for `floatplus`, which
   * `Add_FloatFloat` does not match: no node is added. Searching for the
   * resolved type adds it.
   */
  lemma FloatPlusAliasIsLost(copy: Copy, hasFunction: (string, string) -> bool, newGuid: Guid)
    ensures AddNode(copy, Some(OneGraph), "EventGraph", "floatplus", NoProperties, AddFloatOnly(hasFunction),
                    s => None, newGuid) == NotAdded
    ensures AddNodeResolvingAliases(copy, Some(OneGraph), "EventGraph", "floatplus", NoProperties,
                                    AddFloatOnly(hasFunction), s => None, newGuid) == Added(newGuid)
  {
    var env := AddFloatOnly(hasFunction);
    var parse: GuidParser := s => None;
    assert GraphFromFunctionId(OneGraph, "EventGraph", parse) == Some(Uber(0));
    KnownKindsMissAddFloatFloat(env);
    FloatPlusFindsNothing(env);
    FloatPlusResolves();
    AliasedFunctionIsCreated(copy, OneGraph, "EventGraph", "floatplus", NoProperties, env, parse, newGuid,
                             NodeRanking.KismetMathLibrary, 0);
  }

  /** Lower-casing keeps two strings apart when they differ at some position after lower-casing. */
  lemma DiffersAt(a: string, b: string, i: nat)
    requires i < |a| && i < |b| && LowerChar(a[i]) != LowerChar(b[i])
    ensures !EqualsIgnoreCase(a, b)
  {
    assert Lower(a)[i] != Lower(b)[i];
  }

  lemma AddFloatFloatIsNoEvent()
    ensures EventMember("Add_FloatFloat").None?
  {
    var a := "Add_FloatFloat";
    DiffersAt(a, "EventBeginPlay", 0);
    DiffersAt(a, "BeginPlay", 0);
    DiffersAt(a, "ReceiveBeginPlay", 0);
    DiffersAt(a, "EventTick", 0);
  }

  lemma AddFloatFloatIsNoEntry()
    ensures !IsEntryType("Add_FloatFloat")
  {
    LowerNames();
    NoFunctionEntry();
    NoEntryNode();
  }

  lemma NoFunctionEntry()
    ensures !Contains("add_floatfloat", "functionentry")
  {
    NotContainsChar("add_floatfloat", "functionentry", 1);
  }

  lemma NoEntryNode()
    ensures !Contains("add_floatfloat", "entrynode")
  {
    NotContainsChar("add_floatfloat", "entrynode", 1);
  }

  lemma AddFloatFloatIsNoPlainKind()
    ensures PlainKind("Add_FloatFloat").None?
    ensures !EqualsIgnoreCase("Add_FloatFloat", "K2Node_InputAction")
    ensures !EqualsIgnoreCase("Add_FloatFloat", "VariableGet") && !EqualsIgnoreCase("Add_FloatFloat", "Getter")
    ensures !EqualsIgnoreCase("Add_FloatFloat", "VariableSet") && !EqualsIgnoreCase("Add_FloatFloat", "Setter")
  {
    var a := "Add_FloatFloat";
    DiffersAt(a, "Branch", 0);
    DiffersAt(a, "IfThenElse", 0);
    DiffersAt(a, "Sequence", 0);
    DiffersAt(a, "ExecutionSequence", 0);
    DiffersAt(a, "SwitchEnum", 0);
    DiffersAt(a, "SwitchInteger", 0);
    DiffersAt(a, "SwitchInt", 0);
    DiffersAt(a, "SwitchString", 0);
    DiffersAt(a, "K2Node_InputAction", 0);
    DiffersAt(a, "VariableGet", 0);
    DiffersAt(a, "Getter", 0);
    DiffersAt(a, "VariableSet", 0);
    DiffersAt(a, "Setter", 0);
  }

  lemma AddFloatFloatIsNoFunctionTarget()
    ensures FunctionTarget("Add_FloatFloat", "floatplus").None?
  {
    var a := "Add_FloatFloat";
    var n := "floatplus";
    DiffersAt(a, "Multiply", 0);
    DiffersAt(a, "Multiply_Float", 0);
    DiffersAt(a, "Subtract", 0);
    DiffersAt(a, "Subtract_Float", 0);
    DiffersAt(a, "Divide", 0);
    DiffersAt(a, "Divide_Float", 0);
    DiffersAt(a, "Print", 0);
    DiffersAt(a, "PrintString", 0);
    DiffersAt(a, "Delay", 0);
    DiffersAt(a, "GetActorLocation", 0);
    DiffersAt(a, "SetActorLocation", 0);
    DiffersAt(n, "FloatToDouble", 5);
    DiffersAt(n, "Conv_FloatToDouble", 0);
    DiffersAt(n, "FloatToInt", 5);
    DiffersAt(n, "Conv_FloatToInteger", 0);
    DiffersAt(n, "IntToFloat", 0);
    DiffersAt(n, "Conv_IntToFloat", 0);
    DiffersAt(n, "DoubleToFloat", 0);
    DiffersAt(n, "Conv_DoubleToFloat", 0);
  }

  /** `Add_FloatFloat` is none of the kinds `TryCreateKnownNodeType` builds itself. */
  lemma KnownKindsMissAddFloatFloat(env: Engine)
    requires forall c :: !env.isNodeClass(c)
    ensures KnownNodeType(EditorCopy, OneGraph, Uber(0), "floatplus", NoProperties, env).None?
    ensures KnownNodeType(RuntimeCopy, OneGraph, Uber(0), "floatplus", NoProperties, env).None?
  {
    FloatPlusResolves();
    AddFloatFloatIsNoEvent();
    AddFloatFloatIsNoEntry();
    AddFloatFloatIsNoPlainKind();
    AddFloatFloatIsNoFunctionTarget();
  }

  // ---------------------------------------------------------------------
  // AddNodesBulk
  // ---------------------------------------------------------------------

  /** One entry of the nodes array, as `AddNodesBulk` reads it. */
  datatype BulkRequest = BulkRequest(nodeType: string, refId: string, props: Properties)

  /**
   * Reading an entry. `AsObject` turns a value that is not an object into
   * an empty object, so no entry is skipped; the fields are read with the
   * lenient getters. `node_properties` is written back to text and parsed
   * again by `AddNode`, so a present field that is not an object arrives
   * as an empty object.
   */
  function ReadRequest(entry: Json): (r: BulkRequest)
    ensures !entry.JObj? ==> r == BulkRequest("", "", NoProperties)
    ensures entry.JObj? ==> r.nodeType == UeJson.GetStringField(entry.fields, "node_type")
                            && r.refId == UeJson.GetStringField(entry.fields, "id")
    ensures r.props.PropertiesObject? <==> entry.JObj? && UeJson.HasField(entry.fields, "node_properties")
    ensures r.props.PropertiesObject? ==> r.props.fields == UeJson.GetObjectField(entry.fields, "node_properties")
    ensures !r.props.Unparseable?
  {
    var obj := UeJson.AsObject(entry);
    UeJson.EmptyObjectReadsEmpty("node_type");
    UeJson.EmptyObjectReadsEmpty("id");
    UeJson.EmptyObjectReadsEmpty("node_properties");
    var props := if UeJson.HasField(obj, "node_properties") then PropertiesObject(UeJson.GetObjectField(obj, "node_properties"))
                 else NoProperties;
    BulkRequest(UeJson.GetStringField(obj, "node_type"), UeJson.GetStringField(obj, "id"), props)
  }

  /** One object of the results array. */
  datatype BulkResult = BulkResult(nodeGuid: string, refId: string)

  /** The result entry `index` contributes: none when its `AddNode` call returned `""`. */
  function EntryResult(entry: Json, index: nat, add: (nat, BulkRequest) -> string): (r: Option<BulkResult>)
    ensures r.Some? <==> add(index, ReadRequest(entry)) != ""
    ensures r.Some? ==> r.value == BulkResult(add(index, ReadRequest(entry)), ReadRequest(entry).refId)
  {
    var req := ReadRequest(entry);
    var guid := add(index, req);
    if guid == "" then None else Some(BulkResult(guid, req.refId))
  }

  /** What each entry contributes, entry `i` of `entries` being entry `from + i` of the array. */
  function EntryOutcomes(entries: seq<Json>, from: nat, add: (nat, BulkRequest) -> string): (r: seq<Option<BulkResult>>)
    ensures |r| == |entries|
    ensures forall i :: 0 <= i < |entries| ==> r[i] == EntryResult(entries[i], from + i, add)
  {
    seq(|entries|, i requires 0 <= i < |entries| => EntryResult(entries[i], from + i, add))
  }

  /** The results that are present, in order. */
  function Recorded(outs: seq<Option<BulkResult>>): (r: seq<BulkResult>)
    ensures |r| <= |outs|
    ensures forall k :: 0 <= k < |r| ==> Some(r[k]) in outs
    decreases |outs|
  {
    if |outs| == 0 then []
    else
      var rest := Recorded(outs[1..]);
      assert forall x :: x in outs[1..] ==> x in outs;
      (if outs[0].Some? then [outs[0].value] else []) + rest
  }

  /** Recording two runs of outcomes is recording each in turn. */
  lemma {:induction false} RecordedAppend(a: seq<Option<BulkResult>>, b: seq<Option<BulkResult>>)
    ensures Recorded(a + b) == Recorded(a) + Recorded(b)
    decreases |a|
  {
    if |a| == 0 {
      assert a + b == b;
    } else {
      assert (a + b)[0] == a[0] && (a + b)[1..] == a[1..] + b;
      RecordedAppend(a[1..], b);
    }
  }

  /** Every present outcome is recorded. */
  lemma {:induction false} RecordedKeepsEvery(outs: seq<Option<BulkResult>>, i: nat)
    requires i < |outs| && outs[i].Some?
    ensures outs[i].value in Recorded(outs)
    decreases i
  {
    if i > 0 {
      assert outs[1..][i - 1] == outs[i];
      RecordedKeepsEvery(outs[1..], i - 1);
    }
  }

  /**
   * The results for `entries`, the first at position `from` of the array,
   * in array order. `add(i, request)` is what the `AddNode` call for entry
   * `i` returns.
   */
  function BulkResults(entries: seq<Json>, from: nat, add: (nat, BulkRequest) -> string): (r: seq<BulkResult>)
    ensures |r| <= |entries|
    ensures forall k :: 0 <= k < |r| ==> r[k].nodeGuid != ""
    ensures forall k :: 0 <= k < |r| ==> exists i :: 0 <= i < |entries| && EntryResult(entries[i], from + i, add) == Some(r[k])
  {
    var outs := EntryOutcomes(entries, from, add);
    var r := Recorded(outs);
    forall k | 0 <= k < |r|
      ensures exists i :: 0 <= i < |entries| && EntryResult(entries[i], from + i, add) == Some(r[k])
    {
      var i :| 0 <= i < |outs| && outs[i] == Some(r[k]);
    }
    r
  }

  /** Every entry whose call returned text has its result among the results. */
  lemma BulkResultsKeepEvery(entries: seq<Json>, from: nat, add: (nat, BulkRequest) -> string, i: nat)
    requires i < |entries| && EntryResult(entries[i], from + i, add).Some?
    ensures EntryResult(entries[i], from + i, add).value in BulkResults(entries, from, add)
  {
    RecordedKeepsEvery(EntryOutcomes(entries, from, add), i);
  }

  /** A single entry gives its result, if any. */
  lemma BulkResultsOfOne(entry: Json, from: nat, add: (nat, BulkRequest) -> string)
    ensures BulkResults([entry], from, add) == match EntryResult(entry, from, add) case Some(b) => [b] case None => []
  {
    var outs := EntryOutcomes([entry], from, add);
    assert outs == [EntryResult(entry, from, add)];
    assert outs[1..] == [];
  }

  /** The results of two runs of entries are those of the first run followed by those of the second: array order is kept. */
  lemma BulkResultsAppend(a: seq<Json>, b: seq<Json>, from: nat, add: (nat, BulkRequest) -> string)
    ensures BulkResults(a + b, from, add) == BulkResults(a, from, add) + BulkResults(b, from + |a|, add)
  {
    var oa, ob := EntryOutcomes(a, from, add), EntryOutcomes(b, from + |a|, add);
    assert EntryOutcomes(a + b, from, add) == oa + ob by {
      forall i | 0 <= i < |a + b|
        ensures EntryOutcomes(a + b, from, add)[i] == (oa + ob)[i]
      {
        if i < |a| {
          assert (a + b)[i] == a[i];
        } else {
          assert (a + b)[i] == b[i - |a|];
        }
      }
    }
    RecordedAppend(oa, ob);
  }

  /** An entry that is not an object is read as an empty one and still reaches `AddNode`, with an empty type. */
  lemma NonObjectEntryIsAdded(entry: Json, index: nat, add: (nat, BulkRequest) -> string)
    requires !entry.JObj?
    ensures EntryResult(entry, index, add).Some? <==> add(index, BulkRequest("", "", NoProperties)) != ""
  {
  }

  /** The text `AddNode` returns: the node's GUID as text, the suggestion text, or `""`. */
  function AddNodeText(r: AddNodeResult, format: Guid -> string): string {
    match r
    case Added(g) => format(g)
    case Suggestions(t) => t
    case NotAdded => ""
  }

  /**
   * The `AddNode` call the loop makes for entry `i`: the entry's type and
   * properties, the loaded blueprint and the same graph id, with
   * `newGuids(i)` as the GUID of a node it creates and `format` as
   * `FGuid::ToString`.
   */
  function BulkAdd(copy: Copy, bp: Blueprint, functionId: string, env: Engine, parse: GuidParser,
                   format: Guid -> string, newGuids: nat -> Guid): (nat, BulkRequest) -> string
  {
    (i: nat, req: BulkRequest) =>
      AddNodeText(AddNode(copy, Some(bp), functionId, req.nodeType, req.props, env, parse, newGuids(i)), format)
  }

  /**
   * `AddNodesBulk`: `None` is the `""` returned when the blueprint, the
   * graph GUID, the graph or the nodes array fails; there is no
   * `EventGraph` alias here. Otherwise the results are those of the
   * `AddNode` calls, one per entry, in array order.
   */
  function AddNodesBulk(copy: Copy, bp: Option<Blueprint>, functionId: string, nodes: Option<seq<Json>>, env: Engine,
                        parse: GuidParser, format: Guid -> string, newGuids: nat -> Guid): (r: Option<seq<BulkResult>>)
    ensures r.Some? <==> bp.Some? && parse(functionId).Some? && FindUberOrFunction(bp.value, parse(functionId).value).Some?
                         && nodes.Some?
    ensures r.Some? ==> r.value == BulkResults(nodes.value, 0, BulkAdd(copy, bp.value, functionId, env, parse, format, newGuids))
  {
    if bp.None? then None
    else
      match parse(functionId)
      case None => None
      case Some(g) =>
        if FindUberOrFunction(bp.value, g).None? || nodes.None? then None
        else Some(BulkResults(nodes.value, 0, BulkAdd(copy, bp.value, functionId, env, parse, format, newGuids)))
  }

  /**
   * Entry `i` of a bulk add is recorded exactly when its `AddNode` call
   * returns something other than `""`: a created node under its GUID text,
   * and a `SUGGESTIONS:` answer under the suggestion text, as if it were a GUID.
   */
  lemma BulkEntryIsAddNode(copy: Copy, bp: Blueprint, functionId: string, entry: Json, i: nat, env: Engine,
                           parse: GuidParser, format: Guid -> string, newGuids: nat -> Guid)
    ensures var req := ReadRequest(entry);
            var added := AddNode(copy, Some(bp), functionId, req.nodeType, req.props, env, parse, newGuids(i));
            var e := EntryResult(entry, i, BulkAdd(copy, bp, functionId, env, parse, format, newGuids));
            && (added.NotAdded? ==> e.None?)
            && (added.Added? && format(added.guid) != "" ==> e == Some(BulkResult(format(added.guid), req.refId)))
            && (added.Suggestions? && added.text != "" ==> e == Some(BulkResult(added.text, req.refId)))
  {
  }

  /** The `EventGraph` alias that `AddNode` accepts is refused by the bulk form unless it parses as a GUID. */
  lemma BulkHasNoEventGraphAlias(copy: Copy, bp: Blueprint, nodes: seq<Json>, env: Engine, parse: GuidParser,
                                  format: Guid -> string, newGuids: nat -> Guid)
    requires |bp.ubergraphs| > 0 && parse("EventGraph").None?
    ensures AddNodesBulk(copy, Some(bp), "EventGraph", Some(nodes), env, parse, format, newGuids).None?
    ensures GraphFromFunctionId(bp, "EventGraph", parse) == Some(Uber(0))
  {
  }

  /** The JSON object written for a result: `ref_id` only when the id is non-empty. */
  function ResultObject(b: BulkResult): (j: Json)
    ensures j.JObj? && Lookup(j.fields, "node_guid") == Some(JStr(b.nodeGuid))
    ensures HasKey(j.fields, "ref_id") <==> b.refId != ""
  {
    if b.refId == "" then JObj([("node_guid", JStr(b.nodeGuid))])
    else JObj([("node_guid", JStr(b.nodeGuid)), ("ref_id", JStr(b.refId))])
  }

  /** How `handle_add_nodes_bulk` reads a result: `"ref_id" in node_result`, then the two keys. */
  function ReadBulkEntry(j: Json): (r: Option<BlueprintCommands.BulkEntry>)
    ensures r.Some? ==> j.JObj? && Lookup(j.fields, "node_guid") == Some(JStr(r.value.nodeGuid))
    ensures r.Some? ==> (r.value.refId.Some? <==> Lookup(j.fields, "ref_id").Some? && Lookup(j.fields, "ref_id").value.JStr?)
  {
    if !j.JObj? then None
    else
      match Lookup(j.fields, "node_guid")
      case Some(JStr(g)) =>
        var ref := match Lookup(j.fields, "ref_id") case Some(JStr(s)) => Some(s) case _ => None;
        Some(BlueprintCommands.BulkEntry(ref, g))
      case _ => None
  }

  /** The handler reads back each result: the ref id exactly when one was given. */
  lemma BulkResultRoundTrip(b: BulkResult)
    ensures ReadBulkEntry(ResultObject(b))
            == Some(BlueprintCommands.BulkEntry(if b.refId != "" then Some(b.refId) else None, b.nodeGuid))
  {
  }

  // ---------------------------------------------------------------------
  // DeleteNode
  // ---------------------------------------------------------------------

  /** The graph `DeleteNode` searches: with the `EventGraph` alias in the editor copy only. */
  function DeleteGraph(copy: Copy, bp: Blueprint, functionId: string, parse: GuidParser): (r: Option<GraphLoc>)
    ensures r.Some? ==> ValidLoc(bp, r.value)
    ensures copy.EditorCopy? && EqualsIgnoreCase(functionId, "EventGraph") ==> r == DefaultEventGraph(bp)
    ensures (copy.RuntimeCopy? || !EqualsIgnoreCase(functionId, "EventGraph")) ==>
              r == (match parse(functionId) case None => None case Some(g) => FindGraphByGuid(bp, g))
  {
    if copy.EditorCopy? && EqualsIgnoreCase(functionId, "EventGraph") then DefaultEventGraph(bp)
    else
      match parse(functionId)
      case None => None
      case Some(g) => FindGraphByGuid(bp, g)
  }

  /**
   * The node `DeleteNode` removes: the first with the GUID; the runtime
   * copy gives up when that node is not a `UK2Node`.
   */
  function DeleteTarget(copy: Copy, bp: Blueprint, functionId: string, nodeId: string, parse: GuidParser)
    : (r: Option<(GraphLoc, nat)>)
    ensures r.Some? ==> ValidLoc(bp, r.value.0) && r.value.1 < |GraphAt(bp, r.value.0).nodes|
    ensures r.Some? ==> DeleteGraph(copy, bp, functionId, parse) == Some(r.value.0)
    ensures r.Some? ==> parse(nodeId).Some? && GraphAt(bp, r.value.0).nodes[r.value.1].guid == parse(nodeId).value
    ensures r.Some? && copy.RuntimeCopy? ==> IsK2(GraphAt(bp, r.value.0).nodes[r.value.1])
    ensures (DeleteGraph(copy, bp, functionId, parse).Some? && parse(nodeId).Some?
             && (exists i :: 0 <= i < |GraphAt(bp, DeleteGraph(copy, bp, functionId, parse).value).nodes|
                             && GraphAt(bp, DeleteGraph(copy, bp, functionId, parse).value).nodes[i].guid == parse(nodeId).value
                             && IsK2(GraphAt(bp, DeleteGraph(copy, bp, functionId, parse).value).nodes[i]))) ==> r.Some? || copy.RuntimeCopy?
  {
    match DeleteGraph(copy, bp, functionId, parse)
    case None => None
    case Some(loc) =>
      match parse(nodeId)
      case None => None
      case Some(g) =>
        match FirstNode(GraphAt(bp, loc).nodes, g)
        case None => None
        case Some(i) =>
          if copy.RuntimeCopy? && !IsK2(GraphAt(bp, loc).nodes[i]) then None else Some((loc, i))
  }

  /** The nodes of a graph after node `i` is removed with its links. */
  function RemoveNodeAt(nodes: seq<Node>, i: nat): (r: seq<Node>)
    requires i < |nodes|
    ensures |r| == |nodes| - 1
    ensures forall j :: 0 <= j < i ==> r[j] == Unlinked(nodes[j], {nodes[i].guid})
    ensures forall j :: i <= j < |r| ==> r[j] == Unlinked(nodes[j + 1], {nodes[i].guid})
    ensures forall j :: 0 <= j < |r| ==> !LinksTo(r[j], {nodes[i].guid})
  {
    UnlinkAll(nodes[..i] + nodes[i + 1..], {nodes[i].guid})
  }

  /** `DeleteNode`: the blueprint after the removal, or `None` for `false`. */
  function DeleteNode(copy: Copy, bp: Option<Blueprint>, functionId: string, nodeId: string, parse: GuidParser)
    : (r: Option<Blueprint>)
    ensures bp.None? ==> r.None?
    ensures bp.Some? ==> (r.Some? <==> DeleteTarget(copy, bp.value, functionId, nodeId, parse).Some?)
    ensures r.Some? ==>
              var (loc, i) := DeleteTarget(copy, bp.value, functionId, nodeId, parse).value;
              && ValidLoc(r.value, loc)
              && GraphAt(r.value, loc) == Graph(GraphAt(bp.value, loc).guid, RemoveNodeAt(GraphAt(bp.value, loc).nodes, i))
              && (forall other :: ValidLoc(bp.value, other) && other != loc ==>
                                    ValidLoc(r.value, other) && GraphAt(r.value, other) == GraphAt(bp.value, other))
  {
    if bp.None? then None
    else
      match DeleteTarget(copy, bp.value, functionId, nodeId, parse)
      case None => None
      case Some((loc, i)) =>
        var g := GraphAt(bp.value, loc);
        Some(WithGraph(bp.value, loc, Graph(g.guid, RemoveNodeAt(g.nodes, i))))
  }

  /**
   * The runtime copy needs both ids to parse as GUIDs; the editor copy
   * also takes `EventGraph` for the default event graph.
   */
  lemma DeleteNeedsGuidsAtRuntime(bp: Blueprint, nodeId: string, parse: GuidParser)
    requires |bp.ubergraphs| > 0 && parse("EventGraph").None? && parse(nodeId).Some?
    requires var nodes := bp.ubergraphs[0].nodes; |nodes| > 0 && nodes[0].guid == parse(nodeId).value
    ensures DeleteNode(RuntimeCopy, Some(bp), "EventGraph", nodeId, parse).None?
    ensures DeleteNode(EditorCopy, Some(bp), "EventGraph", nodeId, parse).Some?
  {
    assert FirstNode(bp.ubergraphs[0].nodes, parse(nodeId).value) == Some(0);
  }
}
