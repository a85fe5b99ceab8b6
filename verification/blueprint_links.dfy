/**
 * Connecting pins in `UGenBlueprintUtils`, editor and runtime copies:
 * finding the graph, the two nodes and the two pins of a connection,
 * linking them, the editor's JSON replies, and the editor's bulk variant.
 */
module BlueprintLinks {
  import opened Wrappers
  import opened Text
  import opened Json
  import opened Graphs
  import UeJson

  const CouldNotLoad := "Could not load " + "blueprint"
  const InvalidFunctionGuid := "Invalid function" + " GUID"
  const NoFunctionGraph := "Could not find " + "function graph"
  const InvalidNodeGuid := "Invalid node " + "GUID"
  const NoEndpoints := "Could not find " + "source or " + "target node"
  const LinkRefused := "Failed to " + "connect pins - " + "type mismatch " + "or invalid " + "connection"
  const ConnectionsUnparsed := "Failed to parse " + "connections " + "JSON"
  const ResultUnparsed := "Failed to parse " + "connection " + "result"

  // ---------------------------------------------------------------------
  // The graph
  // ---------------------------------------------------------------------

  /**
   * The graph a connection is made in. The editor copy takes `EventGraph`
   * (any case) for the default event graph; otherwise the text must parse
   * as a GUID, searched in the ubergraph pages and then the function graphs.
   */
  function ConnectGraph(copy: Copy, bp: Blueprint, functionGuid: string, parse: GuidParser): (r: Result<GraphLoc, string>)
    ensures r.Success? ==> ValidLoc(bp, r.value) && !r.value.Macro?
    ensures r.Failure? ==> r.error == NoFunctionGraph || r.error == InvalidFunctionGuid
    ensures copy.EditorCopy? && IsEventGraphId(functionGuid) ==>
              (r.Success? <==> |bp.ubergraphs| > 0) && (r.Success? ==> r.value == Uber(0))
    ensures !(copy.EditorCopy? && IsEventGraphId(functionGuid)) ==>
              (r == Failure(InvalidFunctionGuid) <==> parse(functionGuid).None?)
    ensures !(copy.EditorCopy? && IsEventGraphId(functionGuid)) && parse(functionGuid).Some? ==>
              var g := parse(functionGuid).value;
              && (r.Success? <==> HasGraph(bp.ubergraphs, g) || HasGraph(bp.functions, g))
              && (r.Success? ==> GraphAt(bp, r.value).guid == g)
  {
    if copy.EditorCopy? && IsEventGraphId(functionGuid) then
      if |bp.ubergraphs| > 0 then Success(Uber(0)) else Failure(NoFunctionGraph)
    else
      match parse(functionGuid)
      case None => Failure(InvalidFunctionGuid)
      case Some(g) =>
        match FindUberOrFunction(bp, g)
        case Some(loc) => Success(loc)
        case None => Failure(NoFunctionGraph)
  }

  // ---------------------------------------------------------------------
  // The two nodes
  // ---------------------------------------------------------------------

  /** A node a connection can use: a `UK2Node` with the GUID. */
  predicate IsK2With(n: Node, g: Guid) {
    IsK2(n) && n.guid == g
  }

  /** The index of the last K2 node with GUID `g`. */
  function LastK2(nodes: seq<Node>, g: Guid): (r: Option<nat>)
    ensures r.Some? <==> exists i :: 0 <= i < |nodes| && IsK2With(nodes[i], g)
    ensures r.Some? ==> r.value < |nodes| && IsK2With(nodes[r.value], g)
    ensures r.Some? ==> forall j :: r.value < j < |nodes| ==> !IsK2With(nodes[j], g)
    decreases |nodes|
  {
    if |nodes| == 0 then None
    else if IsK2With(nodes[|nodes| - 1], g) then Some(|nodes| - 1)
    else
      var r := LastK2(nodes[..|nodes| - 1], g);
      assert forall i :: 0 <= i < |nodes| - 1 ==> nodes[..|nodes| - 1][i] == nodes[i];
      r
  }

  datatype Endpoints = Endpoints(source: Option<nat>, target: Option<nat>)

  /**
   * The node loop of `ConnectNodes` from index `i` on: a K2 node with the
   * source GUID becomes the source, else one with the target GUID becomes
   * the target. There is no `break`, so a later match replaces an earlier one.
   */
  function ScanEndpoints(nodes: seq<Node>, src: Guid, tgt: Guid, i: nat, acc: Endpoints): Endpoints
    requires i <= |nodes|
    decreases |nodes| - i
  {
    if i == |nodes| then acc
    else
      var n := nodes[i];
      var next :=
        if IsK2With(n, src) then acc.(source := Some(i))
        else if IsK2With(n, tgt) then acc.(target := Some(i))
        else acc;
      ScanEndpoints(nodes, src, tgt, i + 1, next)
  }

  /** What the scan has found after the first `i` nodes. */
  function FoundAfter(nodes: seq<Node>, src: Guid, tgt: Guid, i: nat): Endpoints
    requires i <= |nodes|
  {
    Endpoints(LastK2(nodes[..i], src), if tgt == src then None else LastK2(nodes[..i], tgt))
  }

  /** Each step of the scan keeps it equal to the last matches so far. */
  lemma {:induction false} ScanFindsLast(nodes: seq<Node>, src: Guid, tgt: Guid, i: nat)
    requires i <= |nodes|
    ensures ScanEndpoints(nodes, src, tgt, i, FoundAfter(nodes, src, tgt, i)) == FoundAfter(nodes, src, tgt, |nodes|)
    decreases |nodes| - i
  {
    if i < |nodes| {
      var p := nodes[..i + 1];
      assert p[..|p| - 1] == nodes[..i];
      assert p[|p| - 1] == nodes[i];
      ScanFindsLast(nodes, src, tgt, i + 1);
    }
  }

  /**
   * The nodes a connection joins: the last K2 node with the source GUID,
   * and the last with the target GUID, which is never found when the two
   * GUIDs are equal, because the target test sits in an `else`.
   */
  function FindEndpoints(nodes: seq<Node>, src: Guid, tgt: Guid): (r: Endpoints)
    ensures r.source == LastK2(nodes, src)
    ensures r.target == if tgt == src then None else LastK2(nodes, tgt)
  {
    ScanFindsLast(nodes, src, tgt, 0);
    assert nodes[..|nodes|] == nodes;
    ScanEndpoints(nodes, src, tgt, 0, Endpoints(None, None))
  }

  // ---------------------------------------------------------------------
  // Resolving a connection
  // ---------------------------------------------------------------------

  /** Where a connection's two pins are: the graph, each node's index and each pin's index. */
  datatype Wiring = Wiring(loc: GraphLoc, source: nat, sourcePin: nat, target: nat, targetPin: nat)

  /** Why a connection could not be made: a fixed error, or a missing pin on nodes that were found. */
  datatype Unresolved =
    | Refused(message: string)
    | PinsMissing(loc: GraphLoc, source: nat, target: nat, sourceFound: bool, targetFound: bool)

  predicate WiringIn(bp: Blueprint, w: Wiring) {
    && ValidLoc(bp, w.loc)
    && w.source < |GraphAt(bp, w.loc).nodes|
    && w.target < |GraphAt(bp, w.loc).nodes|
    && w.sourcePin < |GraphAt(bp, w.loc).nodes[w.source].pins|
    && w.targetPin < |GraphAt(bp, w.loc).nodes[w.target].pins|
  }

  function SourcePin(bp: Blueprint, w: Wiring): Pin
    requires WiringIn(bp, w)
  {
    GraphAt(bp, w.loc).nodes[w.source].pins[w.sourcePin]
  }

  function TargetPin(bp: Blueprint, w: Wiring): Pin
    requires WiringIn(bp, w)
  {
    GraphAt(bp, w.loc).nodes[w.target].pins[w.targetPin]
  }

  function SourceRef(bp: Blueprint, w: Wiring): PinRef
    requires WiringIn(bp, w)
  {
    PinRef(GraphAt(bp, w.loc).nodes[w.source].guid, SourcePin(bp, w).name)
  }

  function TargetRef(bp: Blueprint, w: Wiring): PinRef
    requires WiringIn(bp, w)
  {
    PinRef(GraphAt(bp, w.loc).nodes[w.target].guid, TargetPin(bp, w).name)
  }

  /** The pin directions each copy asks `FindPin` for: the runtime copy takes a pin of either direction. */
  function SourceDirection(copy: Copy): Option<Direction> {
    if copy.EditorCopy? then Some(Output) else None
  }

  function TargetDirection(copy: Copy): Option<Direction> {
    if copy.EditorCopy? then Some(Input) else None
  }

  /**
   * Finding both ends of a connection: the graph, two node GUIDs that
   * parse, the two K2 nodes and a pin on each.
   */
  function Resolve(copy: Copy, bp: Blueprint, functionGuid: string, srcId: string, srcPin: string,
                   tgtId: string, tgtPin: string, parse: GuidParser): (r: Result<Wiring, Unresolved>)
    ensures r.Success? ==> WiringIn(bp, r.value) && !r.value.loc.Macro?
    ensures r.Success? ==> ConnectGraph(copy, bp, functionGuid, parse) == Success(r.value.loc)
    ensures r.Success? ==>
              && parse(srcId).Some? && parse(tgtId).Some? && parse(srcId) != parse(tgtId)
              && IsK2With(GraphAt(bp, r.value.loc).nodes[r.value.source], parse(srcId).value)
              && IsK2With(GraphAt(bp, r.value.loc).nodes[r.value.target], parse(tgtId).value)
              && EqualsIgnoreCase(SourcePin(bp, r.value).name, srcPin)
              && EqualsIgnoreCase(TargetPin(bp, r.value).name, tgtPin)
    ensures r.Success? && copy.EditorCopy? ==>
              SourcePin(bp, r.value).direction == Output && TargetPin(bp, r.value).direction == Input
    ensures ConnectGraph(copy, bp, functionGuid, parse).Failure? ==>
              r == Failure(Refused(ConnectGraph(copy, bp, functionGuid, parse).error))
    ensures ConnectGraph(copy, bp, functionGuid, parse).Success? && (parse(srcId).None? || parse(tgtId).None?) ==>
              r == Failure(Refused(InvalidNodeGuid))
    ensures ConnectGraph(copy, bp, functionGuid, parse).Success? && parse(srcId).Some? && parse(srcId) == parse(tgtId) ==>
              r == Failure(Refused(NoEndpoints))
    ensures r.Failure? && r.error.PinsMissing? ==>
              && ValidLoc(bp, r.error.loc)
              && r.error.source < |GraphAt(bp, r.error.loc).nodes| && r.error.target < |GraphAt(bp, r.error.loc).nodes|
              && !(r.error.sourceFound && r.error.targetFound)
              && (r.error.sourceFound <==>
                    FindPin(GraphAt(bp, r.error.loc).nodes[r.error.source].pins, srcPin, SourceDirection(copy)).Some?)
              && (r.error.targetFound <==>
                    FindPin(GraphAt(bp, r.error.loc).nodes[r.error.target].pins, tgtPin, TargetDirection(copy)).Some?)
  {
    match ConnectGraph(copy, bp, functionGuid, parse)
    case Failure(m) => Failure(Refused(m))
    case Success(loc) =>
      if parse(srcId).None? || parse(tgtId).None? then Failure(Refused(InvalidNodeGuid))
      else
        var nodes := GraphAt(bp, loc).nodes;
        var ends := FindEndpoints(nodes, parse(srcId).value, parse(tgtId).value);
        if ends.source.None? || ends.target.None? then Failure(Refused(NoEndpoints))
        else
          var s := ends.source.value;
          var t := ends.target.value;
          var sp := FindPin(nodes[s].pins, srcPin, SourceDirection(copy));
          var tp := FindPin(nodes[t].pins, tgtPin, TargetDirection(copy));
          if sp.None? || tp.None? then Failure(PinsMissing(loc, s, t, sp.Some?, tp.Some?))
          else Success(Wiring(loc, s, sp.value, t, tp.value))
  }

  // ---------------------------------------------------------------------
  // Linking
  // ---------------------------------------------------------------------

  /**
   * `UEdGraphPin::MakeLinkTo`, an engine call: given the source pin, its
   * reference, the target pin and its reference, the two pins afterwards.
   */
  type Linker = (Pin, PinRef, Pin, PinRef) -> (Pin, Pin)

  /** Each pin lists the other: the check the editor copy makes after linking. */
  predicate Linked(a: Pin, aRef: PinRef, b: Pin, bRef: PinRef) {
    bRef in a.linkedTo && aRef in b.linkedTo
  }

  /**
   * The documented behaviour of `MakeLinkTo`: unless the source already
   * lists the target, each pin gets the other appended to its links.
   */
  function AppendLink(a: Pin, aRef: PinRef, b: Pin, bRef: PinRef): (r: (Pin, Pin))
    ensures bRef in r.0.linkedTo
    ensures bRef !in a.linkedTo ==> Linked(r.0, aRef, r.1, bRef)
    ensures forall x :: x in a.linkedTo ==> x in r.0.linkedTo
    ensures forall x :: x in b.linkedTo ==> x in r.1.linkedTo
  {
    if bRef in a.linkedTo then (a, b)
    else (a.(linkedTo := a.linkedTo + [bRef]), b.(linkedTo := b.linkedTo + [aRef]))
  }

  /** The blueprint with one pin replaced. */
  function SetPin(bp: Blueprint, loc: GraphLoc, ni: nat, pi: nat, p: Pin): (r: Blueprint)
    requires ValidLoc(bp, loc) && ni < |GraphAt(bp, loc).nodes| && pi < |GraphAt(bp, loc).nodes[ni].pins|
    ensures ValidLoc(r, loc) && |GraphAt(r, loc).nodes| == |GraphAt(bp, loc).nodes|
    ensures GraphAt(r, loc).guid == GraphAt(bp, loc).guid
    ensures forall j :: 0 <= j < |GraphAt(r, loc).nodes| && j != ni ==> GraphAt(r, loc).nodes[j] == GraphAt(bp, loc).nodes[j]
    ensures var n := GraphAt(r, loc).nodes[ni];
            var old_ := GraphAt(bp, loc).nodes[ni];
            && n.guid == old_.guid && n.kind == old_.kind && n.objectName == old_.objectName
            && |n.pins| == |old_.pins| && n.pins[pi] == p
            && (forall k :: 0 <= k < |n.pins| && k != pi ==> n.pins[k] == old_.pins[k])
    ensures forall other :: ValidLoc(bp, other) && other != loc ==> ValidLoc(r, other) && GraphAt(r, other) == GraphAt(bp, other)
  {
    var g := GraphAt(bp, loc);
    var n := g.nodes[ni];
    WithGraph(bp, loc, g.(nodes := g.nodes[ni := n.(pins := n.pins[pi := p])]))
  }

  /** The blueprint after `link` joined the two pins of a wiring. */
  function LinkWiring(bp: Blueprint, w: Wiring, link: Linker): (r: Blueprint)
    requires WiringIn(bp, w) && w.source != w.target
    ensures WiringIn(r, w)
    ensures (SourcePin(r, w), TargetPin(r, w)) == link(SourcePin(bp, w), SourceRef(bp, w), TargetPin(bp, w), TargetRef(bp, w))
    ensures GraphAt(r, w.loc).nodes[w.source].guid == GraphAt(bp, w.loc).nodes[w.source].guid
    ensures GraphAt(r, w.loc).nodes[w.target].guid == GraphAt(bp, w.loc).nodes[w.target].guid
    ensures forall other :: ValidLoc(bp, other) && other != w.loc ==> ValidLoc(r, other) && GraphAt(r, other) == GraphAt(bp, other)
  {
    var pins := link(SourcePin(bp, w), SourceRef(bp, w), TargetPin(bp, w), TargetRef(bp, w));
    var mid := SetPin(bp, w.loc, w.source, w.sourcePin, pins.0);
    SetPin(mid, w.loc, w.target, w.targetPin, pins.1)
  }

  // ---------------------------------------------------------------------
  // The editor's replies
  // ---------------------------------------------------------------------

  /** `NAME_None` pin sub-categories are left out of the pin descriptions; `""` stands for it. */
  function SubtypeField(p: Pin): Fields {
    if p.subCategory != "" then [("subtype", JStr(p.subCategory))] else []
  }

  /** A pin as the not-found reply lists it. */
  function PinListing(p: Pin): Json {
    JObj([("name", JStr(p.name)), ("direction", JStr(if p.direction == Input then "Input" else "Output")),
          ("type", JStr(p.category))] + SubtypeField(p))
  }

  /** A pin as the link-refused reply describes it. */
  function PinSummary(p: Pin): Json {
    JObj([("name", JStr(p.name)), ("type", JStr(p.category))] + SubtypeField(p))
  }

  function PinListings(pins: seq<Pin>): (r: seq<Json>)
    ensures |r| == |pins|
    ensures forall k :: 0 <= k < |r| ==> r[k] == PinListing(pins[k])
  {
    seq(|pins|, k requires 0 <= k < |pins| => PinListing(pins[k]))
  }

  function FoundText(found: bool): string {
    if found then "found" else "not found"
  }

  function PinsMissingMessage(srcPin: string, sourceFound: bool, tgtPin: string, targetFound: bool): string {
    "Pin not found. " + "Source: " + srcPin + " (" + FoundText(sourceFound) + "), Target: " + tgtPin + " ("
    + FoundText(targetFound) + ")"
  }

  /**
   * The reply when a pin is missing: the error names both pins and whether
   * each was found, and lists the source node's output pins and the target
   * node's input pins.
   */
  function PinsMissingReply(srcPin: string, tgtPin: string, source: Node, target: Node, sf: bool, tf: bool): (r: Json)
    ensures IsFailureWith(r, PinsMissingMessage(srcPin, sf, tgtPin, tf))
    ensures Field(r, "source_available_pins") == Some(JArr(PinListings(PinsWithDirection(source.pins, Output))))
    ensures Field(r, "target_available_pins") == Some(JArr(PinListings(PinsWithDirection(target.pins, Input))))
  {
    ErrorObjWithPair(PinsMissingMessage(srcPin, sf, tgtPin, tf),
                     "source_available_pins", JArr(PinListings(PinsWithDirection(source.pins, Output))),
                     "target_available_pins", JArr(PinListings(PinsWithDirection(target.pins, Input))))
  }

  /** The reply when the pins do not list each other after linking. */
  function LinkRefusedReply(a: Pin, b: Pin): (r: Json)
    ensures IsFailureWith(r, LinkRefused)
    ensures Field(r, "source_pin") == Some(PinSummary(a)) && Field(r, "target_pin") == Some(PinSummary(b))
  {
    ErrorObjWithPair(LinkRefused, "source_pin", PinSummary(a), "target_pin", PinSummary(b))
  }

  const LinkedReply := JObj([("success", JBool(true))])

  /** A reply and the blueprint afterwards, `None` when it could not be loaded. */
  datatype Connection = Connection(reply: Json, bp: Option<Blueprint>)

  // ---------------------------------------------------------------------
  // ConnectNodes
  // ---------------------------------------------------------------------

  /**
   * The editor copy's `ConnectNodes`. Success is reported only when, after
   * linking, each pin lists the other; a link that is made but fails that
   * check stays in the blueprint.
   */
  function ConnectNodes(bp: Option<Blueprint>, functionGuid: string, srcId: string, srcPin: string,
                        tgtId: string, tgtPin: string, parse: GuidParser, link: Linker): (r: Connection)
    ensures r.reply.JObj?
    ensures bp.None? ==> IsFailureWith(r.reply, CouldNotLoad) && r.bp.None?
    ensures bp.Some? ==> r.bp.Some?
    ensures bp.Some? && Resolve(EditorCopy, bp.value, functionGuid, srcId, srcPin, tgtId, tgtPin, parse).Failure? ==>
              r.bp == bp && !Succeeded(r.reply)
    ensures bp.Some? ==>
              match Resolve(EditorCopy, bp.value, functionGuid, srcId, srcPin, tgtId, tgtPin, parse)
              case Failure(Refused(m)) => IsFailureWith(r.reply, m)
              case Failure(PinsMissing(loc, s, t, sf, tf)) =>
                IsFailureWith(r.reply, PinsMissingMessage(srcPin, sf, tgtPin, tf))
              case Success(w) =>
                && r.bp == Some(LinkWiring(bp.value, w, link))
                && (Succeeded(r.reply) <==> Linked(SourcePin(r.bp.value, w), SourceRef(bp.value, w),
                                                   TargetPin(r.bp.value, w), TargetRef(bp.value, w)))
                && (!Succeeded(r.reply) ==> IsFailureWith(r.reply, LinkRefused))
  {
    if bp.None? then Connection(ErrorObj(CouldNotLoad), None)
    else
      var b := bp.value;
      match Resolve(EditorCopy, b, functionGuid, srcId, srcPin, tgtId, tgtPin, parse)
      case Failure(Refused(m)) => Connection(ErrorObj(m), bp)
      case Failure(PinsMissing(loc, s, t, sf, tf)) =>
        var nodes := GraphAt(b, loc).nodes;
        Connection(PinsMissingReply(srcPin, tgtPin, nodes[s], nodes[t], sf, tf), bp)
      case Success(w) =>
        var after := LinkWiring(b, w, link);
        var a := SourcePin(after, w);
        var c := TargetPin(after, w);
        if Linked(a, SourceRef(b, w), c, TargetRef(b, w)) then Connection(LinkedReply, Some(after))
        else Connection(LinkRefusedReply(a, c), Some(after))
  }

  /**
   * The runtime copy's `ConnectNodes`: pins are found whatever their
   * direction and `true` follows the link without checking it. `None`
   * stands for `false`.
   */
  function ConnectNodesRuntime(bp: Option<Blueprint>, functionGuid: string, srcId: string, srcPin: string,
                               tgtId: string, tgtPin: string, parse: GuidParser, link: Linker): (r: Option<Blueprint>)
    ensures r.Some? <==> bp.Some? && Resolve(RuntimeCopy, bp.value, functionGuid, srcId, srcPin, tgtId, tgtPin, parse).Success?
    ensures r.Some? ==>
              var w := Resolve(RuntimeCopy, bp.value, functionGuid, srcId, srcPin, tgtId, tgtPin, parse).value;
              && WiringIn(r.value, w)
              && (SourcePin(r.value, w), TargetPin(r.value, w))
                 == link(SourcePin(bp.value, w), SourceRef(bp.value, w), TargetPin(bp.value, w), TargetRef(bp.value, w))
  {
    if bp.None? then None
    else
      match Resolve(RuntimeCopy, bp.value, functionGuid, srcId, srcPin, tgtId, tgtPin, parse)
      case Failure(_) => None
      case Success(w) => Some(LinkWiring(bp.value, w, link))
  }

  /** A connection between two different nodes is refused when the two ids name the same node. */
  lemma SelfConnectionIsRefused(bp: Blueprint, functionGuid: string, id: string, srcPin: string, tgtPin: string,
                                parse: GuidParser, link: Linker)
    requires ConnectGraph(EditorCopy, bp, functionGuid, parse).Success? && parse(id).Some?
    ensures IsFailureWith(ConnectNodes(Some(bp), functionGuid, id, srcPin, id, tgtPin, parse, link).reply, NoEndpoints)
    ensures ConnectNodes(Some(bp), functionGuid, id, srcPin, id, tgtPin, parse, link).bp == Some(bp)
  {
  }

  /**
   * With the engine's `MakeLinkTo`, a connection between pins that are not
   * yet linked always passes the editor's check, so the link-refused reply
   * is never produced for them.
   */
  lemma FreshLinkIsReported(bp: Blueprint, functionGuid: string, srcId: string, srcPin: string, tgtId: string,
                            tgtPin: string, parse: GuidParser)
    requires Resolve(EditorCopy, bp, functionGuid, srcId, srcPin, tgtId, tgtPin, parse).Success?
    requires var w := Resolve(EditorCopy, bp, functionGuid, srcId, srcPin, tgtId, tgtPin, parse).value;
             TargetRef(bp, w) !in SourcePin(bp, w).linkedTo
    ensures Succeeded(ConnectNodes(Some(bp), functionGuid, srcId, srcPin, tgtId, tgtPin, parse, AppendLink).reply)
  {
  }

  /**
   * The runtime copy connects an input pin as a source, which the editor
   * copy refuses: here the source node has only an input pin.
   */
  lemma RuntimeIgnoresDirection(functionGuid: string, srcId: string, tgtId: string, parse: GuidParser, link: Linker)
    requires !IsEventGraphId(functionGuid)
    requires parse(functionGuid) == Some(1) && parse(srcId) == Some(2) && parse(tgtId) == Some(3)
    ensures var bp := Blueprint([Graph(1, [Node(2, "", OtherK2, [Pin("a", Input, ExecCategory, "", [])]),
                                           Node(3, "", OtherK2, [Pin("b", Input, ExecCategory, "", [])])])], [], []);
            && !Succeeded(ConnectNodes(Some(bp), functionGuid, srcId, "a", tgtId, "b", parse, link).reply)
            && ConnectNodesRuntime(Some(bp), functionGuid, srcId, "a", tgtId, "b", parse, link).Some?
  {
    var nodes := [Node(2, "", OtherK2, [Pin("a", Input, ExecCategory, "", [])]),
                  Node(3, "", OtherK2, [Pin("b", Input, ExecCategory, "", [])])];
    var bp := Blueprint([Graph(1, nodes)], [], []);
    assert FirstGraph(bp.ubergraphs, 1) == Some(0);
    assert LastK2(nodes, 2) == Some(0) by {
      assert nodes[..1] == [nodes[0]];
    }
    assert LastK2(nodes, 3) == Some(1);
    assert EqualsIgnoreCase("a", "a") && EqualsIgnoreCase("b", "b");
    assert FindPin(nodes[0].pins, "a", Some(Output)).None?;
    assert FindPin(nodes[0].pins, "a", None) == Some(0);
    assert FindPin(nodes[1].pins, "b", None) == Some(0);
  }

  // ---------------------------------------------------------------------
  // ConnectNodesBulk
  // ---------------------------------------------------------------------

  /** `TryGetBoolField("success")` giving `true`. */
  predicate ReportsSuccess(j: Json) {
    Field(j, "success") == Some(JBool(true))
  }

  /** A count as the reply writes it. */
  function Number(n: nat): Json {
    JNum(NatToDecimal(n))
  }

  /** How many results report success. */
  function CountReporting(results: seq<Json>): (r: nat)
    ensures r <= |results|
    ensures r == |results| <==> forall k :: 0 <= k < |results| ==> ReportsSuccess(results[k])
    decreases |results|
  {
    if |results| == 0 then 0
    else
      var n := |results| - 1;
      assert forall k :: 0 <= k < n ==> results[..n][k] == results[k];
      CountReporting(results[..n]) + (if ReportsSuccess(results[n]) then 1 else 0)
  }

  /**
   * One result as the bulk loop records it: the reply with the entry's
   * index and the two node ids added, or a failure object when the reply
   * is not an object.
   */
  function Annotate(reply: Json, i: nat, src: string, tgt: string): (r: Json)
    ensures r.JObj?
    ensures Field(r, "connection_index") == Some(Number(i))
    ensures Field(r, "source_node") == Some(JStr(src)) && Field(r, "target_node") == Some(JStr(tgt))
    ensures ReportsSuccess(r) <==> reply.JObj? && ReportsSuccess(reply)
    ensures !reply.JObj? ==> IsFailureWith(r, ResultUnparsed)
  {
    if reply.JObj? then
      var f1 := Assign(reply.fields, "connection_index", Number(i));
      var f2 := Assign(f1, "source_node", JStr(src));
      var f3 := Assign(f2, "target_node", JStr(tgt));
      AssignKeepsOthers(f1, "source_node", JStr(src), "connection_index");
      AssignKeepsOthers(f2, "target_node", JStr(tgt), "connection_index");
      AssignKeepsOthers(f2, "target_node", JStr(tgt), "source_node");
      AssignKeepsOthers(reply.fields, "connection_index", Number(i), "success");
      AssignKeepsOthers(f1, "source_node", JStr(src), "success");
      AssignKeepsOthers(f2, "target_node", JStr(tgt), "success");
      JObj(f3)
    else
      var extra := [("connection_index", Number(i)), ("source_node", JStr(src)), ("target_node", JStr(tgt))];
      assert HasKey(extra, "connection_index") by { assert extra[0].0 == "connection_index"; }
      assert HasKey(extra, "source_node") by { assert extra[1].0 == "source_node"; }
      assert HasKey(extra, "target_node") by { assert extra[2].0 == "target_node"; }
      assert extra[..2] == [extra[0], extra[1]];
      assert extra[..2][..1] == [extra[0]];
      var r := ErrorObjWith(ResultUnparsed, extra);
      FailureIsNotSuccess(r, ResultUnparsed);
      r
  }

  lemma CountReportingSnoc(results: seq<Json>, res: Json)
    ensures CountReporting(results + [res]) == CountReporting(results) + (if ReportsSuccess(res) then 1 else 0)
  {
    assert (results + [res])[..|results|] == results;
  }

  /** The connection an entry asks for: its four fields, read with `GetStringField`. */
  datatype Request = Request(srcId: string, srcPin: string, tgtId: string, tgtPin: string)

  /**
   * Reading entry of the connections array. `AsObject` turns a value that
   * is not an object into an empty object, so such an entry asks for a
   * connection between empty ids.
   */
  function ReadConnection(entry: Json): (r: Request)
    ensures entry.JObj? ==> r.srcId == UeJson.GetStringField(entry.fields, "source_node_id")
                            && r.srcPin == UeJson.GetStringField(entry.fields, "source_pin")
                            && r.tgtId == UeJson.GetStringField(entry.fields, "target_node_id")
                            && r.tgtPin == UeJson.GetStringField(entry.fields, "target_pin")
    ensures !entry.JObj? ==> r == Request("", "", "", "")
  {
    var f := UeJson.AsObject(entry);
    UeJson.EmptyObjectReadsEmpty("source_node_id");
    UeJson.EmptyObjectReadsEmpty("source_pin");
    UeJson.EmptyObjectReadsEmpty("target_node_id");
    UeJson.EmptyObjectReadsEmpty("target_pin");
    Request(UeJson.GetStringField(f, "source_node_id"), UeJson.GetStringField(f, "source_pin"),
            UeJson.GetStringField(f, "target_node_id"), UeJson.GetStringField(f, "target_pin"))
  }

  /**
   * Entry `i` of the bulk request, connected with `ConnectNodes` on
   * `current`: the annotated reply and the blueprint afterwards.
   */
  function ConnectEntry(current: Blueprint, functionGuid: string, entry: Json, i: nat, parse: GuidParser, link: Linker)
    : (r: (Json, Blueprint))
    ensures var q := ReadConnection(entry);
            var c := ConnectNodes(Some(current), functionGuid, q.srcId, q.srcPin, q.tgtId, q.tgtPin, parse, link);
            && IndexedAs(r.0, i)
            && Field(r.0, "source_node") == Some(JStr(q.srcId)) && Field(r.0, "target_node") == Some(JStr(q.tgtId))
            && (ReportsSuccess(r.0) <==> ReportsSuccess(c.reply))
            && Some(r.1) == c.bp
  {
    var q := ReadConnection(entry);
    var c := ConnectNodes(Some(current), functionGuid, q.srcId, q.srcPin, q.tgtId, q.tgtPin, parse, link);
    (Annotate(c.reply, i, q.srcId, q.tgtId), c.bp.value)
  }

  /**
   * An entry that is not an object is still processed: it asks for a
   * connection between empty ids, which fails and counts as an error.
   */
  lemma NonObjectEntryFails(current: Blueprint, functionGuid: string, entry: Json, i: nat, parse: GuidParser, link: Linker)
    requires !entry.JObj? && parse("").None?
    ensures !ReportsSuccess(ConnectEntry(current, functionGuid, entry, i, parse, link).0)
    ensures ConnectEntry(current, functionGuid, entry, i, parse, link).1 == current
  {
    assert Resolve(EditorCopy, current, functionGuid, "", "", "", "", parse).Failure?;
  }

  /** A result object carrying the index of the entry it answers. */
  predicate IndexedAs(j: Json, i: nat) {
    j.JObj? && Field(j, "connection_index") == Some(Number(i))
  }

  /** One pass of the bulk loop: entry `i` on the blueprint as it stands, giving a result and the blueprint after. */
  type Step = (Blueprint, Json, nat) -> (Json, Blueprint)

  /** The step of `ConnectNodesBulk`: `ConnectEntry` for one graph, GUID parser and linker. */
  function EntryStep(functionGuid: string, parse: GuidParser, link: Linker): Step {
    (current: Blueprint, entry: Json, i: nat) => ConnectEntry(current, functionGuid, entry, i, parse, link)
  }

  /**
   * The reference definition of a loop that threads the blueprint: the
   * results of the first `n` entries, each taken on the blueprint the
   * entries before it left, and the blueprint after them.
   */
  function Prefix(bp: Blueprint, conns: seq<Json>, n: nat, step: Step): (r: (seq<Json>, Blueprint))
    requires n <= |conns|
    ensures |r.0| == n
    decreases n
  {
    if n == 0 then ([], bp)
    else
      var before := Prefix(bp, conns, n - 1, step);
      var last := step(before.1, conns[n - 1], n - 1);
      (before.0 + [last.0], last.1)
  }

  /** Result `k` is the step for entry `k` on the blueprint as the first `k` entries left it. */
  lemma {:induction false} PrefixEntry(bp: Blueprint, conns: seq<Json>, n: nat, k: nat, step: Step)
    requires k < n <= |conns|
    ensures Prefix(bp, conns, n, step).0[k] == step(Prefix(bp, conns, k, step).1, conns[k], k).0
    decreases n
  {
    var before := Prefix(bp, conns, n - 1, step);
    var last := step(before.1, conns[n - 1], n - 1);
    assert Prefix(bp, conns, n, step).0 == before.0 + [last.0];
    if k < n - 1 {
      PrefixEntry(bp, conns, n - 1, k, step);
      assert (before.0 + [last.0])[k] == before.0[k];
    } else {
      assert (before.0 + [last.0])[k] == last.0;
    }
  }

  /** The bulk loop's reference run: every entry connected with `ConnectNodes`, in order. */
  function ConnectPrefix(bp: Blueprint, functionGuid: string, conns: seq<Json>, n: nat, parse: GuidParser, link: Linker)
    : (r: (seq<Json>, Blueprint))
    requires n <= |conns|
    ensures |r.0| == n
  {
    Prefix(bp, conns, n, EntryStep(functionGuid, parse, link))
  }

  /**
   * Result `k` of the bulk loop is what `ConnectNodes` answers for entry
   * `k` on the blueprint as the first `k` entries left it.
   */
  lemma ConnectPrefixEntry(bp: Blueprint, functionGuid: string, conns: seq<Json>, n: nat, k: nat,
                           parse: GuidParser, link: Linker)
    requires k < n <= |conns|
    ensures ConnectPrefix(bp, functionGuid, conns, n, parse, link).0[k]
            == ConnectEntry(ConnectPrefix(bp, functionGuid, conns, k, parse, link).1, functionGuid, conns[k], k, parse, link).0
  {
    PrefixEntry(bp, conns, n, k, EntryStep(functionGuid, parse, link));
  }

  /** Every result carries the index of its entry. */
  lemma ConnectPrefixIndexed(bp: Blueprint, functionGuid: string, conns: seq<Json>, n: nat, parse: GuidParser, link: Linker)
    requires n <= |conns|
    ensures forall k :: 0 <= k < n ==> IndexedAs(ConnectPrefix(bp, functionGuid, conns, n, parse, link).0[k], k)
  {
    forall k | 0 <= k < n
      ensures IndexedAs(ConnectPrefix(bp, functionGuid, conns, n, parse, link).0[k], k)
    {
      ConnectPrefixEntry(bp, functionGuid, conns, n, k, parse, link);
    }
  }

  /**
   * One pass of the bulk loop: entry `i` is taken on `current` and its
   * result recorded, with the count of successes kept.
   */
  method RecordEntry(bp: Blueprint, conns: seq<Json>, i: nat, results: seq<Json>, current: Blueprint,
                     successful: nat, hasErrors: bool, step: Step)
    returns (gathered: seq<Json>, next: Blueprint, count: nat, errors: bool)
    requires i < |conns| && (results, current) == Prefix(bp, conns, i, step)
    requires successful == CountReporting(results) && (hasErrors <==> successful < |results|)
    ensures (gathered, next) == Prefix(bp, conns, i + 1, step)
    ensures count == CountReporting(gathered) && (errors <==> count < |gathered|)
  {
    var res;
    res, next := step(current, conns[i], i).0, step(current, conns[i], i).1;
    gathered := results + [res];
    CountReportingSnoc(results, res);
    count := successful + if ReportsSuccess(res) then 1 else 0;
    errors := hasErrors || !ReportsSuccess(res);
  }

  /** What the bulk loop gathers. */
  datatype BulkReport = BulkReport(total: nat, successful: nat, results: seq<Json>, hasErrors: bool)

  /**
   * The loop of `ConnectNodesBulk` over a parsed array. Each entry is
   * connected with `ConnectNodes` on the blueprint as the previous entries
   * left it.
   */
  method RunConnections(bp: Blueprint, functionGuid: string, conns: seq<Json>, parse: GuidParser, link: Linker)
    returns (report: BulkReport, after: Blueprint)
    ensures (report.results, after) == ConnectPrefix(bp, functionGuid, conns, |conns|, parse, link)
    ensures report.total == |conns| && |report.results| == |conns|
    ensures forall k :: 0 <= k < |conns| ==> IndexedAs(report.results[k], k)
    ensures report.successful == CountReporting(report.results)
    ensures report.successful <= |report.results|
    ensures report.hasErrors <==> exists k :: 0 <= k < |report.results| && !ReportsSuccess(report.results[k])
  {
    var results: seq<Json> := [];
    var successful: nat := 0;
    var hasErrors := false;
    var current := bp;
    var i: nat := 0;
    while i < |conns|
      invariant i <= |conns|
      invariant (results, current) == Prefix(bp, conns, i, EntryStep(functionGuid, parse, link))
      invariant successful == CountReporting(results)
      invariant hasErrors <==> successful < |results|
    {
      results, current, successful, hasErrors :=
        RecordEntry(bp, conns, i, results, current, successful, hasErrors, EntryStep(functionGuid, parse, link));
      i := i + 1;
    }
    ConnectPrefixIndexed(bp, functionGuid, conns, |conns|, parse, link);
    report := BulkReport(|conns|, successful, results, hasErrors);
    after := current;
  }

  /** The final reply: `success` is true when no processed entry failed. */
  function BulkReply(report: BulkReport): (r: Json)
    ensures Field(r, "success") == Some(JBool(!report.hasErrors))
    ensures Field(r, "total_connections") == Some(Number(report.total))
    ensures Field(r, "successful_connections") == Some(Number(report.successful))
    ensures Field(r, "results") == Some(JArr(report.results))
  {
    var fields := [("success", JBool(!report.hasErrors)), ("total_connections", Number(report.total)),
                   ("successful_connections", Number(report.successful)), ("results", JArr(report.results))];
    assert fields[..3] == [fields[0], fields[1], fields[2]];
    assert fields[..3][..2] == [fields[0], fields[1]];
    assert fields[..3][..2][..1] == [fields[0]];
    JObj(fields)
  }

  /**
   * The editor copy's `ConnectNodesBulk`. `connections` is the parsed
   * array, `None` when the text is not a JSON array.
   */
  method ConnectNodesBulk(bp: Option<Blueprint>, functionGuid: string, connections: Option<seq<Json>>,
                          parse: GuidParser, link: Linker)
    returns (reply: Json, after: Option<Blueprint>)
    ensures bp.None? ==> IsFailureWith(reply, CouldNotLoad) && after.None?
    ensures bp.Some? && connections.None? ==> IsFailureWith(reply, ConnectionsUnparsed) && after == bp
    ensures bp.Some? && connections.Some? ==>
              var run := ConnectPrefix(bp.value, functionGuid, connections.value, |connections.value|, parse, link);
              && after == Some(run.1)
              && Field(reply, "total_connections") == Some(Number(|connections.value|))
              && Field(reply, "results") == Some(JArr(run.0))
              && Field(reply, "successful_connections") == Some(Number(CountReporting(run.0)))
              && Field(reply, "success") == Some(JBool(forall k :: 0 <= k < |run.0| ==> ReportsSuccess(run.0[k])))
  {
    if bp.None? {
      reply := ErrorObj(CouldNotLoad);
      after := None;
    } else if connections.None? {
      reply := ErrorObj(ConnectionsUnparsed);
      after := bp;
    } else {
      var report, b := RunConnections(bp.value, functionGuid, connections.value, parse, link);
      reply := BulkReply(report);
      after := Some(b);
    }
  }
}
