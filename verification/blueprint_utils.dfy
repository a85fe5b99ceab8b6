/**
 * The rest of `UGenBlueprintUtils`, editor and runtime copies: the
 * variable-type table of `AddVariable`, the link trimming of the editor's
 * `CompileBlueprint`, the editor's `GetNodeGUID`, and the runtime copy's
 * `AddNode`, `CompileBlueprint` and `CreateBlueprint`.
 */
module BlueprintUtils {
  import opened Wrappers
  import opened Text
  import opened Graphs

  // ---------------------------------------------------------------------
  // AddVariable: the type keywords
  // ---------------------------------------------------------------------

  /** The `FEdGraphPinType` a member variable is given. */
  datatype PinCategory =
    | BoolPin | BytePin | IntPin | FloatPin | StringPin | TextPin | NamePin
    | StructPin(structName: string)   // PC_Struct with the struct as sub-category object
    | ObjectPin(className: string)    // PC_Object with the class found by name

  datatype Variable = Variable(name: string, pinType: PinCategory)

  /**
   * The eleven keywords of the `VariableType.Equals(..., IgnoreCase)`
   * chain, keyed by their lower-case spelling.
   */
  const TypeKeywords: map<string, PinCategory> := map[
    "boolean" := BoolPin,
    "byte" := BytePin,
    "int" := IntPin,
    "float" := FloatPin,
    "string" := StringPin,
    "text" := TextPin,
    "name" := NamePin,
    "vector" := StructPin("Vector"),
    "rotator" := StructPin("Rotator"),
    "transform" := StructPin("Transform"),
    "color" := StructPin("LinearColor")
  ]

  /**
   * The pin type for a type name: a keyword in any case, else a class
   * `FindClassByName` (the `isClass` oracle) knows, else none.
   */
  function VariablePinType(typeName: string, isClass: string -> bool): (r: Option<PinCategory>)
    ensures Lower(typeName) in TypeKeywords ==> r == Some(TypeKeywords[Lower(typeName)])
    ensures Lower(typeName) !in TypeKeywords ==> (r.Some? <==> isClass(typeName))
    ensures Lower(typeName) !in TypeKeywords && r.Some? ==> r.value == ObjectPin(typeName)
  {
    var key := Lower(typeName);
    if key in TypeKeywords then Some(TypeKeywords[key])
    else if isClass(typeName) then Some(ObjectPin(typeName))
    else None
  }

  /**
   * Looking the lower-cased name up in the table is the `Equals(k,
   * IgnoreCase)` chain: every keyword is written in lower case.
   */
  lemma KeywordLookupIsEqualsIgnoreCase(typeName: string, k: string)
    requires k in TypeKeywords
    ensures Lower(typeName) == k <==> EqualsIgnoreCase(typeName, k)
  {
    LowerOfLowerCase(k);
  }

  /**
   * A keyword wins over a class of the same name, in any spelling: asking
   * for `Vector` gives the struct even when a class `Vector` exists.
   */
  lemma KeywordShadowsClass(typeName: string, isClass: string -> bool)
    requires Lower(typeName) == "vector" && isClass(typeName)
    ensures VariablePinType(typeName, isClass) == Some(StructPin("Vector"))
  {
  }

  /**
   * A name the engine's `AddMemberVariable` turns down: one that is
   * `NAME_None` (empty, or `None` in any case) or, comparing as `FName`
   * does, ignoring case, already the name of a variable of the blueprint.
   */
  predicate NameTaken(vars: seq<Variable>, name: string) {
    name == "" || EqualsIgnoreCase(name, "None") || exists i :: 0 <= i < |vars| && EqualsIgnoreCase(vars[i].name, name)
  }

  /**
   * `AddVariable` on the member variables of a loaded blueprint (`None`:
   * the blueprint did not load). An unsupported type returns false before
   * anything is added. The refusal of `AddMemberVariable` for a taken name
   * is ignored, so the call still returns true with nothing added.
   */
  function AddVariable(vars: Option<seq<Variable>>, name: string, typeName: string, isClass: string -> bool)
    : (r: Option<seq<Variable>>)
    ensures r.Some? <==> vars.Some? && VariablePinType(typeName, isClass).Some?
    ensures r.Some? && NameTaken(vars.value, name) ==> r.value == vars.value
    ensures r.Some? && !NameTaken(vars.value, name) ==>
              |r.value| == |vars.value| + 1 && r.value[..|vars.value|] == vars.value
              && r.value[|vars.value|] == Variable(name, VariablePinType(typeName, isClass).value)
  {
    if vars.None? then None
    else
      match VariablePinType(typeName, isClass)
      case None => None
      case Some(t) => if NameTaken(vars.value, name) then Some(vars.value) else Some(vars.value + [Variable(name, t)])
  }

  /** No two variables whose names differ only in case. */
  predicate DistinctNames(vars: seq<Variable>) {
    forall i, j :: 0 <= i < j < |vars| ==> !EqualsIgnoreCase(vars[i].name, vars[j].name)
  }

  /** Adding a variable never makes two names clash. */
  lemma AddVariableKeepsNamesDistinct(vars: seq<Variable>, name: string, typeName: string, isClass: string -> bool)
    requires DistinctNames(vars)
    ensures AddVariable(Some(vars), name, typeName, isClass).Some? ==> DistinctNames(AddVariable(Some(vars), name, typeName, isClass).value)
  {
  }

  /** A second variable of the same name, in any case, leaves the variables as they were. */
  lemma AddVariableTwice(vars: seq<Variable>, name: string, other: string, typeName: string, isClass: string -> bool)
    requires EqualsIgnoreCase(name, other)
    requires AddVariable(Some(vars), name, typeName, isClass).Some?
    ensures var once := AddVariable(Some(vars), name, typeName, isClass).value;
            AddVariable(Some(once), other, typeName, isClass) == Some(once)
  {
  }

  /** Two spellings of a keyword add the same variable. */
  lemma AddVariableIgnoresCase(vars: seq<Variable>, name: string, a: string, b: string, isClass: string -> bool)
    requires Lower(a) == Lower(b) && Lower(a) in TypeKeywords
    ensures AddVariable(Some(vars), name, a, isClass) == AddVariable(Some(vars), name, b, isClass)
    ensures AddVariable(Some(vars), name, a, isClass).Some?
  {
  }

  // ---------------------------------------------------------------------
  // CompileBlueprint: trimming exec output pins
  // ---------------------------------------------------------------------

  /** An exec output pin: the kind of pin whose extra links `CompileBlueprint` drops. */
  predicate IsExecOutput(p: Pin) {
    p.direction == Output && p.category == ExecCategory
  }

  /** An exec output pin with more than one link. */
  predicate OverLinked(p: Pin) {
    IsExecOutput(p) && |p.linkedTo| > 1
  }

  /**
   * `while (LinkedTo.Num() > 1) LinkedTo.RemoveAt(1)` on an exec output
   * pin: it keeps its first link and nothing else; any other pin is left
   * as it is.
   */
  function TrimPin(p: Pin): (r: Pin)
    ensures r.name == p.name && r.direction == p.direction && r.category == p.category
    ensures r.subCategory == p.subCategory
    ensures r.linkedTo <= p.linkedTo
    ensures IsExecOutput(p) ==> |r.linkedTo| <= 1
    ensures |p.linkedTo| > 0 ==> |r.linkedTo| > 0
    ensures !IsExecOutput(p) ==> r == p
  {
    if OverLinked(p) then p.(linkedTo := p.linkedTo[..1]) else p
  }

  function TrimNode(n: Node): (r: Node)
    ensures r.guid == n.guid && r.objectName == n.objectName && r.kind == n.kind && |r.pins| == |n.pins|
    ensures forall k :: 0 <= k < |n.pins| ==> r.pins[k] == TrimPin(n.pins[k])
  {
    n.(pins := seq(|n.pins|, k requires 0 <= k < |n.pins| => TrimPin(n.pins[k])))
  }

  function TrimGraph(g: Graph): (r: Graph)
    ensures r.guid == g.guid && |r.nodes| == |g.nodes|
    ensures forall i :: 0 <= i < |g.nodes| ==> r.nodes[i] == TrimNode(g.nodes[i])
  {
    g.(nodes := seq(|g.nodes|, i requires 0 <= i < |g.nodes| => TrimNode(g.nodes[i])))
  }

  function TrimGraphs(gs: seq<Graph>): (r: seq<Graph>)
    ensures |r| == |gs|
    ensures forall i :: 0 <= i < |gs| ==> r[i] == TrimGraph(gs[i])
  {
    seq(|gs|, i requires 0 <= i < |gs| => TrimGraph(gs[i]))
  }

  /** No exec output pin of the graphs has more than one link. */
  predicate SingleExecLinks(gs: seq<Graph>) {
    forall i, j, k :: 0 <= i < |gs| && 0 <= j < |gs[i].nodes| && 0 <= k < |gs[i].nodes[j].pins| ==>
      !OverLinked(gs[i].nodes[j].pins[k])
  }

  /**
   * The editor's `CompileBlueprint`: `None` when the blueprint does not load
   * (the false return); otherwise the function graphs trimmed and the
   * ubergraph pages and macro graphs untouched.
   */
  function CompileBlueprint(bp: Option<Blueprint>): (r: Option<Blueprint>)
    ensures r.Some? <==> bp.Some?
    ensures r.Some? ==> r.value.ubergraphs == bp.value.ubergraphs && r.value.macros == bp.value.macros
    ensures r.Some? ==> SingleExecLinks(r.value.functions)
    ensures r.Some? ==> |r.value.functions| == |bp.value.functions|
  {
    match bp
    case None => None
    case Some(b) => Some(b.(functions := TrimGraphs(b.functions)))
  }

  /** Every link a compiled pin keeps was there before, and a pin that had a link still has one. */
  lemma CompileKeepsFirstLinks(b: Blueprint, i: nat, j: nat, k: nat)
    requires i < |b.functions| && j < |b.functions[i].nodes| && k < |b.functions[i].nodes[j].pins|
    ensures var after := CompileBlueprint(Some(b)).value.functions[i].nodes[j].pins[k];
            var before := b.functions[i].nodes[j].pins[k];
            && after.linkedTo <= before.linkedTo
            && (|before.linkedTo| > 0 ==> |after.linkedTo| > 0 && after.linkedTo[0] == before.linkedTo[0])
            && (!IsExecOutput(before) ==> after == before)
  {
  }

  /** Compiling a compiled blueprint changes nothing more. */
  lemma CompileIsIdempotent(bp: Option<Blueprint>)
    ensures CompileBlueprint(CompileBlueprint(bp)) == CompileBlueprint(bp)
  {
    if bp.Some? {
      var once := TrimGraphs(bp.value.functions);
      var twice := TrimGraphs(once);
      forall i | 0 <= i < |once|
        ensures twice[i] == once[i]
      {
        TrimGraphIdempotent(bp.value.functions[i]);
      }
      assert twice == once;
    }
  }

  lemma TrimGraphIdempotent(g: Graph)
    ensures TrimGraph(TrimGraph(g)) == TrimGraph(g)
  {
    var once := TrimGraph(g);
    forall i | 0 <= i < |g.nodes|
      ensures TrimNode(once.nodes[i]) == once.nodes[i]
    {
      var n := once.nodes[i];
      assert TrimNode(n).pins == n.pins;
    }
    assert TrimGraph(once).nodes == once.nodes;
  }

  /**
   * The runtime copy's `CompileBlueprint`: false exactly when the
   * blueprint does not load, and the graphs are left as they are.
   */
  function CompileBlueprintRuntime(bp: Option<Blueprint>): (r: Option<Blueprint>)
    ensures r.Some? <==> bp.Some?
    ensures r.Some? ==> r.value == bp.value
  {
    bp
  }

  /** On a blueprint without over-linked exec pins the two copies agree. */
  lemma CompileCopiesAgreeWhenTrimmed(b: Blueprint)
    requires SingleExecLinks(b.functions)
    ensures CompileBlueprint(Some(b)) == CompileBlueprintRuntime(Some(b))
  {
    var trimmed := TrimGraphs(b.functions);
    forall i | 0 <= i < |b.functions|
      ensures trimmed[i] == b.functions[i]
    {
      var g := b.functions[i];
      forall j | 0 <= j < |g.nodes|
        ensures TrimNode(g.nodes[j]) == g.nodes[j]
      {
        assert TrimNode(g.nodes[j]).pins == g.nodes[j].pins;
      }
      assert TrimGraph(g).nodes == g.nodes;
    }
    assert trimmed == b.functions;
  }

  // ---------------------------------------------------------------------
  // Links seen from both ends
  // ---------------------------------------------------------------------

  /** The index of the first pin named exactly `name`: a pin reference names one pin object. */
  function NamedPin(pins: seq<Pin>, name: string): (r: Option<nat>)
    ensures r.Some? ==> r.value < |pins| && pins[r.value].name == name
    ensures r.Some? ==> forall k :: 0 <= k < r.value ==> pins[k].name != name
    ensures r.None? ==> forall k :: 0 <= k < |pins| ==> pins[k].name != name
    decreases |pins|
  {
    if |pins| == 0 then None
    else if pins[0].name == name then Some(0)
    else
      match NamedPin(pins[1..], name)
      case None =>
        assert forall k :: 1 <= k < |pins| ==> pins[k] == pins[1..][k - 1];
        None
      case Some(k) =>
        assert forall j :: 1 <= j < k + 1 ==> pins[j] == pins[1..][j - 1];
        Some(k + 1)
  }

  /** The pin a reference denotes in a graph, if any. */
  function PinAt(g: Graph, ref: PinRef): (r: Option<Pin>)
    ensures r.Some? ==> r.value.name == ref.pin
  {
    match FirstNode(g.nodes, ref.node)
    case None => None
    case Some(i) =>
      match NamedPin(g.nodes[i].pins, ref.pin)
      case None => None
      case Some(k) => Some(g.nodes[i].pins[k])
  }

  /** The pin at `from` lists `to` among its links. */
  predicate LinksTo(g: Graph, from: PinRef, to: PinRef) {
    PinAt(g, from).Some? && to in PinAt(g, from).value.linkedTo
  }

  /** Every link is recorded at both of its ends, as `MakeLinkTo` and `BreakLinkTo` keep it. */
  ghost predicate Symmetric(g: Graph) {
    forall a, b :: LinksTo(g, a, b) ==> LinksTo(g, b, a)
  }

  /** Every link joins an output pin to an input pin. */
  ghost predicate Directed(g: Graph) {
    forall a, b :: LinksTo(g, a, b) ==> PinAt(g, b).Some? && PinAt(g, a).value.direction != PinAt(g, b).value.direction
  }

  /** Three nodes: exec output `t` on node 1 is linked to input `i` on nodes 2 and 3. */
  function FanOut(): (g: Graph)
    ensures |g.nodes| == 3
  {
    var t := PinRef(1, "t");
    Graph(7, [Node(1, "a", OtherK2, [Pin("t", Output, ExecCategory, "", [PinRef(2, "i"), PinRef(3, "i")])]),
              Node(2, "b", OtherK2, [Pin("i", Input, ExecCategory, "", [t])]),
              Node(3, "c", OtherK2, [Pin("i", Input, ExecCategory, "", [t])])])
  }

  /** The three-node graph is well formed: every link is recorded at both ends and joins an output to an input. */
  lemma FanOutIsWellFormed()
    ensures Symmetric(FanOut()) && Directed(FanOut())
  {
    var g := FanOut();
    assert g.nodes[1].guid == 2 && g.nodes[2].guid == 3;
    forall a, b | LinksTo(g, a, b)
      ensures LinksTo(g, b, a) && PinAt(g, b).Some? && PinAt(g, a).value.direction != PinAt(g, b).value.direction
    {
      var i := FirstNode(g.nodes, a.node).value;
      assert FirstNode(g.nodes, 1) == Some(0);
      assert FirstNode(g.nodes, 2) == Some(1);
      assert FirstNode(g.nodes, 3) == Some(2);
    }
  }

  /**
   * The editor's trimming removes links from the exec output only: the
   * input pins it was linked to still list it. In `FanOut`, after
   * `CompileBlueprint` node 3's pin still points at `t`, which no longer
   * points back, so a well-formed graph comes out with a one-sided link.
   */
  lemma TrimLeavesBackLink()
    ensures var after := CompileBlueprint(Some(Blueprint([], [FanOut()], []))).value.functions[0];
            && Symmetric(FanOut()) && Directed(FanOut())
            && LinksTo(after, PinRef(3, "i"), PinRef(1, "t")) && !LinksTo(after, PinRef(1, "t"), PinRef(3, "i"))
            && !Symmetric(after)
  {
    FanOutIsWellFormed();
    var g := FanOut();
    var after := CompileBlueprint(Some(Blueprint([], [g], []))).value.functions[0];
    assert after == TrimGraph(g);
    assert g.nodes[2].guid == 3;
    assert FirstNode(g.nodes, 1) == Some(0);
    assert FirstNode(g.nodes, 3) == Some(2);
    var pt := g.nodes[0].pins[0];
    assert TrimPin(pt).linkedTo == [PinRef(2, "i")];
    assert PinAt(after, PinRef(1, "t")) == Some(TrimPin(pt));
  }

  // ---------------------------------------------------------------------
  // Trimming with BreakLinkTo
  // ---------------------------------------------------------------------

  /**
   * Whether the link from pin `me` back to `src` goes when the extra links
   * of `src` are broken: `src` is over-linked and `me` is not its first link.
   */
  predicate LosesBackLink(g: Graph, src: PinRef, me: PinRef) {
    var p := PinAt(g, src);
    p.Some? && OverLinked(p.value) && p.value.linkedTo[0] != me
  }

  function KeepBackLinks(g: Graph, refs: seq<PinRef>, me: PinRef): (r: seq<PinRef>)
    ensures forall x :: x in r <==> x in refs && !LosesBackLink(g, x, me)
    ensures |r| <= |refs|
    decreases |refs|
  {
    if |refs| == 0 then []
    else if LosesBackLink(g, refs[0], me) then KeepBackLinks(g, refs[1..], me)
    else [refs[0]] + KeepBackLinks(g, refs[1..], me)
  }

  /**
   * `Pin->BreakLinkTo(Pin->LinkedTo[1])` in place of `RemoveAt(1)`: an
   * over-linked exec output keeps its first link, and every pin it drops
   * forgets it in turn. `owner` is the GUID of the node the pin is on.
   */
  function BreakPin(g: Graph, owner: Guid, p: Pin): (r: Pin)
    ensures r.name == p.name && r.direction == p.direction && r.category == p.category
    ensures r.subCategory == p.subCategory
    ensures forall x :: x in r.linkedTo ==> x in p.linkedTo
    ensures OverLinked(p) ==> r.linkedTo == [p.linkedTo[0]]
    ensures !OverLinked(p) ==> forall x :: x in r.linkedTo <==> x in p.linkedTo && !LosesBackLink(g, x, PinRef(owner, p.name))
    ensures !OverLinked(r)
  {
    if OverLinked(p) then p.(linkedTo := p.linkedTo[..1])
    else p.(linkedTo := KeepBackLinks(g, p.linkedTo, PinRef(owner, p.name)))
  }

  function BreakNode(g: Graph, n: Node): (r: Node)
    ensures r.guid == n.guid && r.objectName == n.objectName && r.kind == n.kind && |r.pins| == |n.pins|
    ensures forall k :: 0 <= k < |n.pins| ==> r.pins[k] == BreakPin(g, n.guid, n.pins[k])
  {
    n.(pins := seq(|n.pins|, k requires 0 <= k < |n.pins| => BreakPin(g, n.guid, n.pins[k])))
  }

  function BreakGraph(g: Graph): (r: Graph)
    ensures r.guid == g.guid && |r.nodes| == |g.nodes|
    ensures forall i :: 0 <= i < |g.nodes| ==> r.nodes[i] == BreakNode(g, g.nodes[i])
  {
    g.(nodes := seq(|g.nodes|, i requires 0 <= i < |g.nodes| => BreakNode(g, g.nodes[i])))
  }

  /** A reference denotes the same pin, with its links broken, after the trimming. */
  lemma PinAtBreak(g: Graph, ref: PinRef)
    ensures PinAt(g, ref).None? ==> PinAt(BreakGraph(g), ref).None?
    ensures PinAt(g, ref).Some? ==> PinAt(BreakGraph(g), ref) == Some(BreakPin(g, ref.node, PinAt(g, ref).value))
  {
    var h := BreakGraph(g);
    var fg := FirstNode(g.nodes, ref.node);
    var fh := FirstNode(h.nodes, ref.node);
    if fg.Some? {
      assert h.nodes[fg.value].guid == ref.node;
    }
    if fh.Some? {
      assert g.nodes[fh.value].guid == ref.node;
    }
    assert fg == fh;
    if fg.Some? {
      var i := fg.value;
      var pg := NamedPin(g.nodes[i].pins, ref.pin);
      var ph := NamedPin(h.nodes[i].pins, ref.pin);
      if pg.Some? {
        assert h.nodes[i].pins[pg.value].name == ref.pin;
      }
      if ph.Some? {
        assert g.nodes[i].pins[ph.value].name == ref.pin;
      }
      assert pg == ph;
    }
  }

  /**
   * Breaking links keeps a well-formed graph well formed: every link left
   * is still recorded at both ends.
   */
  lemma BreakingLinksKeepsSymmetry(g: Graph)
    requires Symmetric(g) && Directed(g)
    ensures Symmetric(BreakGraph(g))
  {
    var h := BreakGraph(g);
    forall a, b | LinksTo(h, a, b)
      ensures LinksTo(h, b, a)
    {
      PinAtBreak(g, a);
      PinAtBreak(g, b);
      var pa := PinAt(g, a).value;
      assert b in pa.linkedTo;
      assert LinksTo(g, a, b);
      assert LinksTo(g, b, a);
      var pb := PinAt(g, b).value;
      assert pa.direction != pb.direction;
      assert a in pb.linkedTo;
      if OverLinked(pa) {
        assert !OverLinked(pb);
        assert !LosesBackLink(g, a, PinRef(b.node, pb.name));
      } else {
        assert !LosesBackLink(g, b, PinRef(a.node, pa.name));
      }
    }
  }

  /**
   * After breaking, no pin an over-linked exec output dropped is linked to
   * it from either end, and every other link is kept.
   */
  lemma BreakingLinksDropsBothEnds(g: Graph, s: PinRef, t: PinRef)
    requires PinAt(g, s).Some? && OverLinked(PinAt(g, s).value)
    requires t in PinAt(g, s).value.linkedTo && t != PinAt(g, s).value.linkedTo[0]
    requires PinAt(g, t).Some? && !OverLinked(PinAt(g, t).value)
    ensures !LinksTo(BreakGraph(g), s, t) && !LinksTo(BreakGraph(g), t, s)
  {
    PinAtBreak(g, s);
    PinAtBreak(g, t);
    assert LosesBackLink(g, s, PinRef(t.node, PinAt(g, t).value.name));
  }

  function BreakGraphs(gs: seq<Graph>): (r: seq<Graph>)
    ensures |r| == |gs| && SingleExecLinks(r)
    ensures forall i :: 0 <= i < |gs| ==> r[i] == BreakGraph(gs[i])
  {
    seq(|gs|, i requires 0 <= i < |gs| => BreakGraph(gs[i]))
  }

  /**
   * `CompileBlueprint` with the trimming done by `BreakLinkTo`: the same
   * result for loading and the same single exec links, and well-formed
   * function graphs stay well formed.
   */
  function CompileBlueprintBreakingLinks(bp: Option<Blueprint>): (r: Option<Blueprint>)
    ensures r.Some? <==> bp.Some?
    ensures r.Some? ==> r.value.ubergraphs == bp.value.ubergraphs && r.value.macros == bp.value.macros
    ensures r.Some? ==> |r.value.functions| == |bp.value.functions| && SingleExecLinks(r.value.functions)
    ensures r.Some? ==> forall i :: 0 <= i < |bp.value.functions| ==>
                          (Symmetric(bp.value.functions[i]) && Directed(bp.value.functions[i]) ==>
                           Symmetric(r.value.functions[i]))
  {
    match bp
    case None => None
    case Some(b) =>
      var gs := BreakGraphs(b.functions);
      assert forall i :: 0 <= i < |b.functions| ==>
               (Symmetric(b.functions[i]) && Directed(b.functions[i]) ==> Symmetric(gs[i])) by {
        forall i | 0 <= i < |b.functions| && Symmetric(b.functions[i]) && Directed(b.functions[i])
          ensures Symmetric(gs[i])
        {
          BreakingLinksKeepsSymmetry(b.functions[i]);
        }
      }
      Some(b.(functions := gs))
  }

  /** On `FanOut` the corrected trimming leaves node 3 unlinked from `t` at both ends. */
  lemma BreakingLinksFixesFanOut()
    ensures var after := CompileBlueprintBreakingLinks(Some(Blueprint([], [FanOut()], []))).value.functions[0];
            && Symmetric(after)
            && !LinksTo(after, PinRef(3, "i"), PinRef(1, "t")) && !LinksTo(after, PinRef(1, "t"), PinRef(3, "i"))
  {
    FanOutIsWellFormed();
    var g := FanOut();
    assert g.nodes[2].guid == 3;
    assert FirstNode(g.nodes, 1) == Some(0);
    assert FirstNode(g.nodes, 3) == Some(2);
    BreakingLinksDropsBothEnds(g, PinRef(1, "t"), PinRef(3, "i"));
  }

  // ---------------------------------------------------------------------
  // GetNodeGUID (editor)
  // ---------------------------------------------------------------------

  const CouldNotLoad := "Could not load " + "blueprint"
  const NodeNameRequired := "Node name " + "required for " + "EventGraph"
  const FunctionGuidRequired := "Function GUID " + "required for " + "FunctionGraph"
  const InvalidFunctionGuid := "Invalid function" + " GUID"
  const NoGraph := "Could not find " + "specified graph"
  const NodeNotFound := "Node not found"

  /** The JSON text `GetNodeGUID` returns: the node's GUID, or one of the fixed error objects. */
  datatype NodeGuidReply = NodeGuidFound(guid: Guid) | NodeGuidError(message: string)

  datatype NodeGuidResult = NodeGuidResult(reply: NodeGuidReply, bp: Option<Blueprint>)

  /** What `GetNodeGUID` asks of the engine. */
  datatype EventEnv = EventEnv(
    isEditable: string -> bool,        // bIsEditable of the event node with that object name
    classHasFunction: string -> bool,  // GeneratedClass->FindFunctionByName
    createdGuid: Guid,                 // the GUID of the node AddDefaultEventNode makes
    createdName: string,               // and its object name
    newGuid: Guid)                     // FGuid::NewGuid

  /** The names that may make a new event node: compared case-sensitively. */
  predicate IsBeginPlayOrTick(name: string) {
    name == "BeginPlay" || name == "Tick"
  }

  /**
   * An event node the search accepts: its event's member name equals the
   * request ignoring case, or, for `BeginPlay` and `Tick`, it is editable
   * and its object name contains the request ignoring case.
   */
  predicate MatchesEvent(n: Node, nodeName: string, isEditable: string -> bool) {
    && n.kind.EventNode?
    && (EqualsIgnoreCase(n.kind.member, nodeName)
        || (IsBeginPlayOrTick(nodeName) && isEditable(n.objectName) && ContainsIgnoreCase(n.objectName, nodeName)))
  }

  function FirstEvent(nodes: seq<Node>, nodeName: string, isEditable: string -> bool): (r: Option<nat>)
    ensures r.Some? ==> r.value < |nodes| && MatchesEvent(nodes[r.value], nodeName, isEditable)
    ensures r.Some? ==> forall j :: 0 <= j < r.value ==> !MatchesEvent(nodes[j], nodeName, isEditable)
    ensures r.None? ==> forall j :: 0 <= j < |nodes| ==> !MatchesEvent(nodes[j], nodeName, isEditable)
    decreases |nodes|
  {
    if |nodes| == 0 then None
    else if MatchesEvent(nodes[0], nodeName, isEditable) then Some(0)
    else
      match FirstEvent(nodes[1..], nodeName, isEditable)
      case None =>
        assert forall j :: 1 <= j < |nodes| ==> nodes[j] == nodes[1..][j - 1];
        None
      case Some(k) =>
        assert forall j :: 1 <= j < k + 1 ==> nodes[j] == nodes[1..][j - 1];
        Some(k + 1)
  }

  /** The node at `i` of the graph at `loc` holds `g`. */
  predicate NodeHasGuid(b: Blueprint, loc: GraphLoc, i: nat, g: Guid) {
    ValidLoc(b, loc) && i < |GraphAt(b, loc).nodes| && GraphAt(b, loc).nodes[i].guid == g
  }

  /**
   * The found node's GUID, after `NodeGuid = FGuid::NewGuid()` when it was
   * not valid; nothing else about the node changes.
   */
  function ReportGuid(b: Blueprint, loc: GraphLoc, i: nat, newGuid: Guid): (r: NodeGuidResult)
    requires ValidLoc(b, loc) && i < |GraphAt(b, loc).nodes| && IsValidGuid(newGuid)
    ensures r.reply.NodeGuidFound? && IsValidGuid(r.reply.guid) && r.bp.Some?
    ensures NodeHasGuid(r.bp.value, loc, i, r.reply.guid)
    ensures IsValidGuid(GraphAt(b, loc).nodes[i].guid) ==> r.bp == Some(b)
    ensures var n := GraphAt(b, loc).nodes[i];
            var g := GraphAt(r.bp.value, loc);
            && |g.nodes| == |GraphAt(b, loc).nodes|
            && g.nodes[i] == n.(guid := r.reply.guid)
            && (forall j :: 0 <= j < |g.nodes| && j != i ==> g.nodes[j] == GraphAt(b, loc).nodes[j])
    ensures |r.bp.value.ubergraphs| == |b.ubergraphs| && |r.bp.value.functions| == |b.functions|
    ensures |r.bp.value.macros| == |b.macros|
    ensures forall other :: ValidLoc(b, other) && other != loc ==>
                              ValidLoc(r.bp.value, other) && GraphAt(r.bp.value, other) == GraphAt(b, other)
  {
    var g := GraphAt(b, loc);
    var n := g.nodes[i];
    if IsValidGuid(n.guid) then NodeGuidResult(NodeGuidFound(n.guid), Some(b))
    else NodeGuidResult(NodeGuidFound(newGuid), Some(WithGraph(b, loc, g.(nodes := g.nodes[i := n.(guid := newGuid)]))))
  }

  /** The event search in the default event graph, making BeginPlay or Tick when the class has it. */
  function EventNodeGuid(b: Blueprint, nodeName: string, env: EventEnv): (r: NodeGuidResult)
    requires |b.ubergraphs| > 0 && IsValidGuid(env.newGuid)
    ensures r.reply.NodeGuidError? ==> r.reply.message == NodeNotFound && r.bp == Some(b)
    ensures r.reply.NodeGuidFound? ==> IsValidGuid(r.reply.guid) && r.bp.Some?
    ensures FirstEvent(b.ubergraphs[0].nodes, nodeName, env.isEditable).Some? ==>
              var i := FirstEvent(b.ubergraphs[0].nodes, nodeName, env.isEditable).value;
              r == ReportGuid(b, Uber(0), i, env.newGuid)
    ensures FirstEvent(b.ubergraphs[0].nodes, nodeName, env.isEditable).None? ==>
              (r.reply.NodeGuidFound? <==> IsBeginPlayOrTick(nodeName) && env.classHasFunction(nodeName))
  {
    var g := b.ubergraphs[0];
    match FirstEvent(g.nodes, nodeName, env.isEditable)
    case Some(i) => ReportGuid(b, Uber(0), i, env.newGuid)
    case None =>
      if IsBeginPlayOrTick(nodeName) && env.classHasFunction(nodeName) then
        var made := Node(env.createdGuid, env.createdName, EventNode(nodeName, true), []);
        var grown := WithGraph(b, Uber(0), g.(nodes := g.nodes + [made]));
        ReportGuid(grown, Uber(0), |g.nodes|, env.newGuid)
      else NodeGuidResult(NodeGuidError(NodeNotFound), Some(b))
  }

  /**
   * `GetNodeGUID`: the GUID of a node found by graph type, with the
   * blueprint as the call leaves it.
   */
  function GetNodeGuid(bp: Option<Blueprint>, graphType: string, nodeName: string, functionGuid: string,
                       parse: GuidParser, env: EventEnv): (r: NodeGuidResult)
    requires IsValidGuid(env.newGuid)
    ensures bp.None? ==> r == NodeGuidResult(NodeGuidError(CouldNotLoad), None)
    ensures r.reply.NodeGuidError? ==> r.bp == bp
    ensures bp.Some? && IsEventGraphId(graphType) && nodeName == "" ==> r.reply == NodeGuidError(NodeNameRequired)
    ensures bp.Some? && !IsEventGraphId(graphType) && EqualsIgnoreCase(graphType, "FunctionGraph") && functionGuid == "" ==>
              r.reply == NodeGuidError(FunctionGuidRequired)
    ensures (bp.Some? && !IsEventGraphId(graphType) && EqualsIgnoreCase(graphType, "FunctionGraph") && functionGuid != ""
             && parse(functionGuid).None?) ==> r.reply == NodeGuidError(InvalidFunctionGuid)
    ensures bp.Some? && !IsEventGraphId(graphType) && !EqualsIgnoreCase(graphType, "FunctionGraph") ==>
              r.reply == NodeGuidError(NoGraph)
    ensures r.reply.NodeGuidFound? ==>
              && IsValidGuid(r.reply.guid) && bp.Some? && r.bp.Some?
              && exists loc, i :: NodeHasGuid(r.bp.value, loc, i, r.reply.guid)
  {
    if bp.None? then NodeGuidResult(NodeGuidError(CouldNotLoad), None)
    else
      var b := bp.value;
      if IsEventGraphId(graphType) then
        if nodeName == "" then NodeGuidResult(NodeGuidError(NodeNameRequired), bp)
        else if |b.ubergraphs| == 0 then NodeGuidResult(NodeGuidError(NoGraph), bp)
        else
          var r := EventNodeGuid(b, nodeName, env);
          r
      else if EqualsIgnoreCase(graphType, "FunctionGraph") then
        if functionGuid == "" then NodeGuidResult(NodeGuidError(FunctionGuidRequired), bp)
        else
          match parse(functionGuid)
          case None => NodeGuidResult(NodeGuidError(InvalidFunctionGuid), bp)
          case Some(fg) =>
            match FirstGraph(b.functions, fg)
            case None => NodeGuidResult(NodeGuidError(NoGraph), bp)
            case Some(gi) =>
              match FirstEntry(b.functions[gi].nodes)
              case None => NodeGuidResult(NodeGuidError(NodeNotFound), bp)
              case Some(i) => ReportGuid(b, Func(gi), i, env.newGuid)
      else NodeGuidResult(NodeGuidError(NoGraph), bp)
  }

  /** Two node lists that differ at most in GUIDs. */
  predicate AgreeOffGuid(a: seq<Node>, b: seq<Node>) {
    |a| == |b| && forall j :: 0 <= j < |a| ==> a[j].objectName == b[j].objectName && a[j].kind == b[j].kind
  }

  /** The searches of `GetNodeGUID` look at kinds and names only, never at GUIDs. */
  lemma SearchesIgnoreGuids(a: seq<Node>, b: seq<Node>, nodeName: string, isEditable: string -> bool)
    requires AgreeOffGuid(a, b)
    ensures FirstEvent(a, nodeName, isEditable) == FirstEvent(b, nodeName, isEditable)
    ensures FirstEntry(a) == FirstEntry(b)
  {
    assert forall j :: 0 <= j < |a| ==> (MatchesEvent(a[j], nodeName, isEditable) <==> MatchesEvent(b[j], nodeName, isEditable));
    assert forall j :: 0 <= j < |a| ==> (a[j].kind.FunctionEntry? <==> b[j].kind.FunctionEntry?);
  }

  /**
   * Asking again gives the same answer and changes nothing: a GUID
   * `GetNodeGUID` assigned or a node it made is found the next time.
   */
  lemma GetNodeGuidIsStable(bp: Option<Blueprint>, graphType: string, nodeName: string, functionGuid: string,
                            parse: GuidParser, env: EventEnv)
    requires IsValidGuid(env.newGuid)
    ensures var r := GetNodeGuid(bp, graphType, nodeName, functionGuid, parse, env);
            GetNodeGuid(r.bp, graphType, nodeName, functionGuid, parse, env) == r
  {
    var r := GetNodeGuid(bp, graphType, nodeName, functionGuid, parse, env);
    if r.reply.NodeGuidFound? {
      var b := bp.value;
      var b2 := r.bp.value;
      if IsEventGraphId(graphType) {
        var nodes := b.ubergraphs[0].nodes;
        match FirstEvent(nodes, nodeName, env.isEditable)
        case Some(i) =>
          SearchesIgnoreGuids(nodes, b2.ubergraphs[0].nodes, nodeName, env.isEditable);
        case None =>
          var made := Node(env.createdGuid, env.createdName, EventNode(nodeName, true), []);
          var grown := nodes + [made];
          var nodes2 := b2.ubergraphs[0].nodes;
          assert AgreeOffGuid(grown, nodes2);
          SearchesIgnoreGuids(grown, nodes2, nodeName, env.isEditable);
          assert forall j :: 0 <= j < |nodes| ==> grown[j] == nodes[j];
          assert MatchesEvent(grown[|nodes|], nodeName, env.isEditable);
          assert FirstEvent(grown, nodeName, env.isEditable) == Some(|nodes|);
      } else {
        var fg := parse(functionGuid).value;
        var gi := FirstGraph(b.functions, fg).value;
        assert b2.functions[gi].guid == fg;
        assert forall j :: 0 <= j < |b.functions| ==> b2.functions[j].guid == b.functions[j].guid;
        assert FirstGraph(b2.functions, fg) == Some(gi);
        SearchesIgnoreGuids(b.functions[gi].nodes, b2.functions[gi].nodes, nodeName, env.isEditable);
      }
    }
  }

  // ---------------------------------------------------------------------
  // AddNode (runtime)
  // ---------------------------------------------------------------------

  /** The node the runtime `AddNode` makes for a type name. */
  datatype RuntimeNodeType =
    | ActorFunctionCall(member: string)    // UK2Node_CallFunction on a function of Actor
    | BranchNode                            // UK2Node_IfThenElse
    | SequenceNode                          // UK2Node_ExecutionSequence
    | PrintStringNode                       // UK2Node_CallFunction on KismetSystemLibrary::PrintString
    | K2NodeClass(className: string)        // a UK2Node subclass found by name

  /** What the runtime `AddNode` asks of the engine. */
  datatype RuntimeEnv = RuntimeEnv(
    actorFound: bool,                     // FindClassByName("Actor")
    actorHasFunction: string -> bool,     // FindFunctionByName(Actor, NodeType)
    printFound: bool,                     // KismetSystemLibrary and its PrintString both found
    isK2NodeClass: string -> bool)        // a class of that name that is a UK2Node

  /**
   * The node type chosen for a requested name, in the order the runtime
   * copy tries them.
   */
  function RuntimeNodeTypeFor(nodeType: string, env: RuntimeEnv): (r: Option<RuntimeNodeType>)
    requires env.actorFound
    ensures env.actorHasFunction(nodeType) ==> r == Some(ActorFunctionCall(nodeType))
    ensures !env.actorHasFunction(nodeType) && EqualsIgnoreCase(nodeType, "Branch") ==> r == Some(BranchNode)
    ensures r == Some(SequenceNode) ==> EqualsIgnoreCase(nodeType, "Sequence")
    ensures r == Some(PrintStringNode) ==> env.printFound
    ensures r.Some? && r.value.K2NodeClass? ==> env.isK2NodeClass("UK2Node_" + nodeType)
    ensures r.None? ==> !env.actorHasFunction(nodeType) && !EqualsIgnoreCase(nodeType, "Branch")
                        && !EqualsIgnoreCase(nodeType, "Sequence")
  {
    if env.actorHasFunction(nodeType) then Some(ActorFunctionCall(nodeType))
    else if EqualsIgnoreCase(nodeType, "Branch") then Some(BranchNode)
    else if EqualsIgnoreCase(nodeType, "Sequence") then Some(SequenceNode)
    else if EqualsIgnoreCase(nodeType, "Print") || EqualsIgnoreCase(nodeType, "PrintString") then
      if env.printFound then Some(PrintStringNode) else None
    else
      var className := "UK2Node_" + nodeType;
      if env.isK2NodeClass(className) then Some(K2NodeClass(className)) else None
  }

  /** An Actor function named like a built-in wins: `Branch` on Actor makes a call node. */
  lemma ActorFunctionComesFirst(env: RuntimeEnv)
    requires env.actorFound && env.actorHasFunction("Branch")
    ensures RuntimeNodeTypeFor("Branch", env) == Some(ActorFunctionCall("Branch"))
  {
  }

  /** `Print` needs the library function: without it nothing is made, and no later rule is tried. */
  lemma PrintNeedsLibrary(nodeType: string, env: RuntimeEnv)
    requires env.actorFound && !env.actorHasFunction(nodeType) && !env.printFound
    requires Lower(nodeType) == "printstring"
    ensures RuntimeNodeTypeFor(nodeType, env).None?
  {
    assert Lower("PrintString") == "printstring";
    assert Lower("Branch") != "printstring" by { assert Lower("Branch")[0] == 'b'; }
    assert Lower("Sequence") != "printstring" by { assert Lower("Sequence")[0] == 's'; }
  }

  /**
   * The runtime copy's `AddNode`: `None` is the empty-string return; on
   * success the new node is appended to the graph the GUID names. Pin
   * defaults from the properties JSON are not part of this model.
   */
  function AddNodeRuntime(bp: Option<Blueprint>, functionGuid: string, nodeType: string, parse: GuidParser,
                          env: RuntimeEnv, newGuid: Guid): (r: Option<(RuntimeNodeType, GraphLoc, Blueprint)>)
    ensures r.Some? <==> && bp.Some? && parse(functionGuid).Some?
                          && FindUberOrFunction(bp.value, parse(functionGuid).value).Some?
                          && env.actorFound && RuntimeNodeTypeFor(nodeType, env).Some?
    ensures r.Some? ==>
              var (t, loc, after) := r.value;
              && t == RuntimeNodeTypeFor(nodeType, env).value
              && loc == FindUberOrFunction(bp.value, parse(functionGuid).value).value
              && ValidLoc(after, loc) && !loc.Macro?
              && GraphAt(after, loc).nodes == GraphAt(bp.value, loc).nodes + [Node(newGuid, "", OtherK2, [])]
              && GraphAt(after, loc).guid == parse(functionGuid).value
              && forall other :: ValidLoc(bp.value, other) && other != loc ==>
                                   ValidLoc(after, other) && GraphAt(after, other) == GraphAt(bp.value, other)
  {
    if bp.None? then None
    else
      match parse(functionGuid)
      case None => None
      case Some(g) =>
        match FindUberOrFunction(bp.value, g)
        case None => None
        case Some(loc) =>
          if !env.actorFound then None
          else
            match RuntimeNodeTypeFor(nodeType, env)
            case None => None
            case Some(t) =>
              var graph := GraphAt(bp.value, loc);
              Some((t, loc, WithGraph(bp.value, loc, graph.(nodes := graph.nodes + [Node(newGuid, "", OtherK2, [])]))))
  }

  // ---------------------------------------------------------------------
  // CreateBlueprint (runtime)
  // ---------------------------------------------------------------------

  /** The loaded blueprint assets by package path. */
  type AssetStore = map<string, Blueprint>

  /** The package path a blueprint is created under. */
  function PackagePath(savePath: string, name: string): (r: string)
    ensures |r| == |savePath| + 1 + |name| && r[|savePath|] == '/'
    ensures r[..|savePath|] == savePath && r[|savePath| + 1..] == name
  {
    savePath + "/" + name
  }

  /**
   * `CreateBlueprint`: the parent class must exist; a blueprint already at
   * the path is returned unchanged; otherwise `made` is what package
   * creation and the factory produce (`None` when either fails), stored at
   * the path.
   */
  function CreateBlueprint(name: string, parentClass: string, savePath: string, store: AssetStore,
                           isClass: string -> bool, made: Option<Blueprint>): (r: (Option<Blueprint>, AssetStore))
    ensures !isClass(parentClass) ==> r == (None, store)
    ensures isClass(parentClass) && PackagePath(savePath, name) in store ==>
              r == (Some(store[PackagePath(savePath, name)]), store)
    ensures isClass(parentClass) && PackagePath(savePath, name) !in store ==>
              && r.0 == made
              && (made.Some? ==> r.1 == store[PackagePath(savePath, name) := made.value])
              && (made.None? ==> r.1 == store)
    ensures forall p :: p in store ==> p in r.1 && (p != PackagePath(savePath, name) ==> r.1[p] == store[p])
  {
    if !isClass(parentClass) then (None, store)
    else
      var path := PackagePath(savePath, name);
      if path in store then (Some(store[path]), store)
      else
        match made
        case None => (None, store)
        case Some(b) => (Some(b), store[path := b])
  }

  /** Creating the same blueprint twice returns the first one and stores nothing more. */
  lemma CreateBlueprintIsIdempotent(name: string, parentClass: string, savePath: string, store: AssetStore,
                                    isClass: string -> bool, made: Option<Blueprint>, madeAgain: Option<Blueprint>)
    ensures var first := CreateBlueprint(name, parentClass, savePath, store, isClass, made);
            first.0.Some? ==> CreateBlueprint(name, parentClass, savePath, first.1, isClass, madeAgain) == first
  {
  }

  /** An existing blueprint is not returned when the parent class is unknown: that check comes first. */
  lemma ExistingNeedsParent(name: string, parentClass: string, savePath: string, store: AssetStore,
                            isClass: string -> bool, made: Option<Blueprint>)
    requires PackagePath(savePath, name) in store && !isClass(parentClass)
    ensures CreateBlueprint(name, parentClass, savePath, store, isClass, made).0.None?
  {
  }
}
