/**
 * `UGenWidgetUtils` (editor module): finding a widget by name in a User
 * Widget's tree, choosing the panel a new widget goes under, targeting a
 * property on a widget or its slot, and the JSON replies. The engine's
 * class lookup, naming, saving and text import become parameters.
 */
module WidgetUtils {
  import opened Wrappers
  import opened Text
  import opened Json

  // ---------------------------------------------------------------------
  // Widget trees
  // ---------------------------------------------------------------------

  /** Whether a widget is a `UPanelWidget`, and which kind. */
  datatype PanelKind =
    | NotPanel
    | ContentPanel // a panel that holds one child (`CanHaveMultipleChildren` is false)
    | MultiPanel
    | CanvasPanel

  predicate IsPanel(k: PanelKind) { !k.NotPanel? }

  /** A widget's slot object and the names of its reflected properties. */
  datatype SlotObject = SlotObject(properties: seq<string>)

  /**
   * A widget: its object name, its panel kind, its slot, its reflected
   * property names, the contents of its named slots, and (for panels) its
   * children in order.
   */
  datatype Widget = Widget(
    name: string,
    panel: PanelKind,
    slot: Option<SlotObject>,
    properties: seq<string>,
    namedSlots: seq<Widget>,
    children: seq<Widget>)

  datatype WidgetTree = WidgetTree(root: Option<Widget>)

  /**
   * `UWidgetTree::ForEachWidget` order below a widget, the widget first:
   * named-slot contents, then a panel's children, each followed by its own.
   */
  function Preorder(w: Widget): (r: seq<Widget>)
    ensures |r| > 0 && r[0] == w
    decreases w, 1
  {
    [w] + PreorderAll(w.namedSlots) + (if IsPanel(w.panel) then PreorderAll(w.children) else [])
  }

  function PreorderAll(ws: seq<Widget>): seq<Widget>
    decreases ws, 0
  {
    if |ws| == 0 then [] else Preorder(ws[0]) + PreorderAll(ws[1..])
  }

  /** `GetAllWidgets`: every widget of the tree in `ForEachWidget` order. */
  function AllWidgets(t: WidgetTree): seq<Widget> {
    match t.root
    case None => []
    case Some(w) => Preorder(w)
  }

  /**
   * The order the fallback search visits: a stack seeded with the root,
   * popping the last entry and pushing a panel's children, so the last
   * child is explored first. Named slots are not entered.
   */
  function DfsVisit(w: Widget): (r: seq<Widget>)
    ensures |r| > 0 && r[0] == w
    decreases w, 1
  {
    [w] + (if IsPanel(w.panel) then DfsStack(w.children) else [])
  }

  /** The visiting order of a whole stack, top (last entry) first. */
  function DfsStack(stack: seq<Widget>): seq<Widget>
    decreases stack, 0
  {
    if |stack| == 0 then [] else DfsVisit(stack[|stack| - 1]) + DfsStack(stack[..|stack| - 1])
  }

  lemma {:induction false} DfsStackAppend(below: seq<Widget>, above: seq<Widget>)
    ensures DfsStack(below + above) == DfsStack(above) + DfsStack(below)
    decreases |above|
  {
    if |above| == 0 {
      assert below + above == below;
    } else {
      var top, rest := above[|above| - 1], above[..|above| - 1];
      DfsStackAppend(below, rest);
      assert DfsStack(below + above) == DfsVisit(top) + DfsStack(below + rest) by {
        var s := below + above;
        assert s[|s| - 1] == top;
        assert s[..|s| - 1] == below + rest;
      }
      assert DfsStack(above) == DfsVisit(top) + DfsStack(rest);
    }
  }

  /** The first widget of `ws` whose name equals `name`, ignoring case as `FName` does. */
  function FirstNamed(ws: seq<Widget>, name: string): (r: Option<Widget>)
    ensures r.Some? ==> r.value in ws && EqualsIgnoreCase(r.value.name, name)
    ensures r.None? <==> forall w :: w in ws ==> !EqualsIgnoreCase(w.name, name)
    decreases |ws|
  {
    if |ws| == 0 then None
    else if EqualsIgnoreCase(ws[0].name, name) then Some(ws[0])
    else
      var r := FirstNamed(ws[1..], name);
      assert forall w :: w in ws ==> w == ws[0] || w in ws[1..];
      r
  }

  lemma FirstNamedSkip(w: Widget, rest: seq<Widget>, name: string)
    requires !EqualsIgnoreCase(w.name, name)
    ensures FirstNamed([w] + rest, name) == FirstNamed(rest, name)
  {
    assert ([w] + rest)[1..] == rest;
  }

  /**
   * The fallback search of `FindWidgetByName`: an explicit stack, the last
   * entry popped first and a panel's children pushed in order.
   */
  method DfsFind(root: Widget, name: string) returns (r: Option<Widget>)
    ensures r == FirstNamed(DfsVisit(root), name)
  {
    var stack := [root];
    assert DfsStack(stack) == DfsVisit(root) by {
      assert stack[..0] == [];
    }
    while |stack| > 0
      invariant FirstNamed(DfsStack(stack), name) == FirstNamed(DfsVisit(root), name)
      decreases |DfsStack(stack)|
    {
      var current := stack[|stack| - 1];
      var below := stack[..|stack| - 1];
      if EqualsIgnoreCase(current.name, name) {
        return Some(current);
      }
      var pushed := Opened(current);
      assert stack == below + [current];
      PopVisitsTop(below, current);
      FirstNamedSkip(current, DfsStack(below + pushed), name);
      stack := below + pushed;
    }
    return None;
  }

  /** What popping a widget pushes: a panel's children, nothing for any other widget. */
  function Opened(w: Widget): seq<Widget> {
    if IsPanel(w.panel) then w.children else []
  }

  /** Popping the top entry and pushing what it opens onto the rest visits the same widgets, less the top. */
  lemma PopVisitsTop(below: seq<Widget>, top: Widget)
    ensures DfsStack(below + [top]) == [top] + DfsStack(below + Opened(top))
  {
    var stack := below + [top];
    assert stack[..|stack| - 1] == below;
    assert DfsVisit(top) == [top] + DfsStack(Opened(top)) by {
      assert Opened(top) == [] ==> DfsStack(Opened(top)) == [];
    }
    DfsStackAppend(below, Opened(top));
  }

  /** The fallback search and the tree's own lookup visit the same widgets, less named-slot contents. */
  lemma {:induction false} DfsVisitsTreeWidgets(w: Widget)
    ensures forall x :: x in DfsVisit(w) ==> x in Preorder(w)
    decreases w, 1
  {
    if IsPanel(w.panel) {
      DfsStackVisitsTreeWidgets(w.children);
    }
  }

  lemma {:induction false} DfsStackVisitsTreeWidgets(ws: seq<Widget>)
    ensures forall x :: x in DfsStack(ws) ==> x in PreorderAll(ws)
    decreases ws, 0
  {
    if |ws| > 0 {
      var n := |ws| - 1;
      DfsVisitsTreeWidgets(ws[n]);
      DfsStackVisitsTreeWidgets(ws[..n]);
      forall x | x in DfsStack(ws) ensures x in PreorderAll(ws) {
        if x in DfsVisit(ws[n]) {
          PreorderAllHas(ws, n, x);
        } else {
          assert x in PreorderAll(ws[..n]);
          PreorderAllPrefix(ws, n, x);
        }
      }
    }
  }

  lemma {:induction false} PreorderAllHas(ws: seq<Widget>, i: nat, x: Widget)
    requires i < |ws| && x in Preorder(ws[i])
    ensures x in PreorderAll(ws)
    decreases i
  {
    if i > 0 {
      PreorderAllHas(ws[1..], i - 1, x);
    }
  }

  lemma {:induction false} PreorderAllPrefix(ws: seq<Widget>, n: nat, x: Widget)
    requires n <= |ws| && x in PreorderAll(ws[..n])
    ensures x in PreorderAll(ws)
    decreases n
  {
    if n > 0 {
      if x in Preorder(ws[0]) {
        PreorderAllHas(ws, 0, x);
      } else {
        assert ws[..n][1..] == ws[1..][..n - 1];
        PreorderAllPrefix(ws[1..], n - 1, x);
      }
    }
  }

  /**
   * `FindWidgetByName`: nothing for a missing tree; else the tree's own
   * lookup (`FindWidget`, modelled as the first match in `ForEachWidget`
   * order); else the stack search from the root.
   */
  method FindWidgetByName(tree: Option<WidgetTree>, name: string) returns (r: Option<Widget>)
    ensures tree.None? ==> r.None?
    ensures tree.Some? ==> r == FirstNamed(AllWidgets(tree.value), name)
  {
    if tree.None? {
      return None;
    }
    var found := FirstNamed(AllWidgets(tree.value), name);
    if found.Some? {
      return found;
    }
    if tree.value.root.None? {
      return None;
    }
    r := DfsFind(tree.value.root.value, name);
    // the stack search sees only widgets the tree lookup already rejected
    DfsVisitsTreeWidgets(tree.value.root.value);
    assert r.None?;
  }

  /** The lookup by name as a function, for the replies below. */
  function FindWidget(tree: WidgetTree, name: string): (r: Option<Widget>)
    ensures r.Some? ==> r.value in AllWidgets(tree) && EqualsIgnoreCase(r.value.name, name)
    ensures r.None? <==> forall w :: w in AllWidgets(tree) ==> !EqualsIgnoreCase(w.name, name)
  {
    FirstNamed(AllWidgets(tree), name)
  }

  // ---------------------------------------------------------------------
  // The JSON reply of AddWidgetToUserWidget
  // ---------------------------------------------------------------------

  /** `CreateJsonReturn`: `success` and `message` (plus a non-empty `widget_name`), or `success` and `error`. */
  function CreateJsonReturn(success: bool, text: string, widgetName: string): (r: Json)
    ensures r.JObj? && Field(r, "success") == Some(JBool(success))
    ensures success ==> Field(r, "message") == Some(JStr(text)) && !HasKey(r.fields, "error")
    ensures success ==> (HasKey(r.fields, "widget_name") <==> widgetName != "")
    ensures success && widgetName != "" ==> Field(r, "widget_name") == Some(JStr(widgetName))
    ensures !success ==> IsFailureWith(r, text) && !HasKey(r.fields, "message") && !HasKey(r.fields, "widget_name")
  {
    if success then
      if widgetName != "" then
        var fields := [("success", JBool(true)), ("message", JStr(text)), ("widget_name", JStr(widgetName))];
        assert HasKey(fields, "widget_name") by { assert fields[2].0 == "widget_name"; }
        assert fields[..2] == [fields[0], fields[1]];
        assert fields[..2][..1] == [fields[0]];
        assert forall k :: 0 <= k < |fields| ==> fields[k].0 != "error";
        JObj(fields)
      else
        var fields := [("success", JBool(true)), ("message", JStr(text))];
        assert forall k :: 0 <= k < |fields| ==> fields[k].0 != "error" && fields[k].0 != "widget_name";
        assert fields[..1] == [fields[0]];
        JObj(fields)
    else
      var r := ErrorObj(text);
      assert r.fields == [("success", JBool(false)), ("error", JStr(text))];
      r
  }

  // ---------------------------------------------------------------------
  // AddWidgetToUserWidget
  // ---------------------------------------------------------------------

  /** A loaded asset: not a widget blueprint, or one with its tree (if any) and whether its class is a `UUserWidget`. */
  datatype WidgetAsset = NotWidgetBlueprint | WidgetBlueprint(tree: Option<WidgetTree>, generatesUserWidget: bool)

  /** A `UClass` as the utilities test it: a `UWidget` subclass, and its panel kind. */
  datatype WidgetClass = WidgetClass(isWidget: bool, panel: PanelKind)

  /** What `TargetProperty->ImportText_Direct` gives: the rest of the text (`None` for null) and the error device's text. */
  datatype ImportResult = ImportResult(rest: Option<string>, errorText: string)

  /**
   * The engine calls: loading an asset, `FindObject<UClass>` and
   * `LoadClass<UWidget>`, `FindUniqueKismetName`, whether saving and
   * recompiling succeed, and text import into (widget or slot, property).
   */
  datatype WidgetEnv = WidgetEnv(
    loadAsset: string -> Option<WidgetAsset>,
    findClass: string -> Option<WidgetClass>,
    loadClass: string -> Option<WidgetClass>,
    uniqueName: string -> string,
    saves: bool,
    importText: (PropertyTarget, string) -> ImportResult)

  /** `FindObject` by name, then `LoadClass` under `/Script/UMG.` and `/Script/CommonUI.`, then the `UWidget` check. */
  function ResolveWidgetClass(className: string, env: WidgetEnv): (r: Option<WidgetClass>)
    ensures r.Some? ==> r.value.isWidget
    ensures env.findClass(className).Some? ==> r == (if env.findClass(className).value.isWidget then env.findClass(className) else None)
  {
    var found :=
      if env.findClass(className).Some? then env.findClass(className)
      else if env.loadClass("/Script/UMG." + className).Some? then env.loadClass("/Script/UMG." + className)
      else env.loadClass("/Script/CommonUI." + className);
    if found.Some? && found.value.isWidget then found else None
  }

  /** Where a new widget goes. */
  datatype Placement = UnderPanel(parent: Widget) | NoPanel | ParentMissing(message: string)

  function ParentMissingMessage(parentName: string): string {
    "Specified " + "parent widget '" + parentName + "' not found or " + "is not a " + "PanelWidget."
  }

  /** The first `UCanvasPanel` in `GetAllWidgets` order. */
  function FirstCanvas(ws: seq<Widget>): (r: Option<Widget>)
    ensures r.Some? ==> r.value in ws && r.value.panel.CanvasPanel?
    ensures r.None? <==> forall w :: w in ws ==> !w.panel.CanvasPanel?
    decreases |ws|
  {
    if |ws| == 0 then None
    else if ws[0].panel.CanvasPanel? then Some(ws[0])
    else
      var r := FirstCanvas(ws[1..]);
      assert forall w :: w in ws ==> w == ws[0] || w in ws[1..];
      r
  }

  /**
   * The parent decision: a named parent must be found and be a panel; with
   * no name, the root if it is a panel, else the first canvas panel.
   */
  function ChooseParent(tree: WidgetTree, parentName: string): (r: Placement)
    ensures parentName != "" ==> !r.NoPanel?
    ensures parentName != "" && r.ParentMissing? ==> r.message == ParentMissingMessage(parentName)
    ensures parentName != "" && r.UnderPanel? ==> IsPanel(r.parent.panel) && EqualsIgnoreCase(r.parent.name, parentName)
                                                   && r.parent in AllWidgets(tree)
    ensures parentName != "" ==> (r.UnderPanel? <==> FindWidget(tree, parentName).Some? && IsPanel(FindWidget(tree, parentName).value.panel))
    ensures parentName == "" ==> !r.ParentMissing?
    ensures parentName == "" && tree.root.Some? && IsPanel(tree.root.value.panel) ==> r == UnderPanel(tree.root.value)
    ensures parentName == "" && r.NoPanel? ==> forall w :: w in AllWidgets(tree) ==> !w.panel.CanvasPanel?
  {
    if parentName != "" then
      match FindWidget(tree, parentName)
      case Some(w) => if IsPanel(w.panel) then UnderPanel(w) else ParentMissing(ParentMissingMessage(parentName))
      case None => ParentMissing(ParentMissingMessage(parentName))
    else if tree.root.Some? && IsPanel(tree.root.value.panel) then UnderPanel(tree.root.value)
    else
      match FirstCanvas(AllWidgets(tree))
      case Some(c) => UnderPanel(c)
      case None => NoPanel
  }

  /** A root that is not a panel hides no canvas unless one sits in a named slot. */
  lemma NonPanelRootHasNoParent(root: Widget)
    requires !IsPanel(root.panel) && root.namedSlots == []
    ensures ChooseParent(WidgetTree(Some(root)), "") == NoPanel
  {
    assert Preorder(root) == [root];
  }

  /** `UPanelWidget::AddChild` refuses a second child for a one-child panel. */
  predicate AcceptsChild(parent: Widget) {
    IsPanel(parent.panel) && !(parent.panel.ContentPanel? && |parent.children| > 0)
  }

  const CannotPlace :=
    "Could not find " + "a suitable " + "parent PanelWidg" + "et (root or " + "specified " + "parent), and " + "cannot set the " + "new widget as " + "root. "
    + "Ensure the User " + "Widget is empty " + "or has a " + "compatible " + "root/parent " + "panel."

  /** The outcome of adding a widget: the reply, and the new root when the widget became the root. */
  datatype AddOutcome = AddOutcome(reply: Json, newRoot: Option<Widget>)

  /** The reply when the new widget becomes the root: success only if the blueprint saves. */
  function RootReply(path: string, className: string, actual: string, saves: bool): (r: Json)
    ensures Succeeded(r) <==> saves
    ensures saves ==> Field(r, "widget_name") == (if actual != "" then Some(JStr(actual)) else None)
    ensures !saves ==> IsFailureWith(r, "Set '" + actual + "' as root but " + "failed to " + "save/recompile " + "Blueprint '" + path + "'.")
  {
    if saves then
      CreateJsonReturn(true, "Successfully " + "added '" + actual + "' (" + className + ") as the Root " + "Widget to '" + path + "'.", actual)
    else
      CreateJsonReturn(false, "Set '" + actual + "' as root but " + "failed to " + "save/recompile " + "Blueprint '" + path + "'.", "")
  }

  /** The reply when the new widget goes under `parent`: `AddChild` must accept it and the blueprint must save. */
  function ChildReply(path: string, className: string, actual: string, parent: Widget, saves: bool): (r: Json)
    ensures Succeeded(r) <==> AcceptsChild(parent) && saves
    ensures Succeeded(r) ==> Field(r, "widget_name") == (if actual != "" then Some(JStr(actual)) else None)
    ensures !AcceptsChild(parent) ==>
              IsFailureWith(r, "Failed to add '" + actual + "' as child of '" + parent.name
                               + "'. Slot type " + "might be " + "incompatible or " + "AddChild " + "returned null.")
  {
    if !AcceptsChild(parent) then
      CreateJsonReturn(false, "Failed to add '" + actual + "' as child of '" + parent.name
                              + "'. Slot type " + "might be " + "incompatible or " + "AddChild " + "returned null.", "")
    else if saves then
      CreateJsonReturn(true, "Successfully " + "added widget '" + actual + "' of type '" + className + "' as child of '"
                             + parent.name + "' in '" + path + "'.", actual)
    else
      CreateJsonReturn(false, "Added widget '" + actual + "' but failed to " + "save/recompile " + "Blueprint '" + path + "'.", "")
  }

  /**
   * `AddWidgetToUserWidget` once the asset, its tree and the class are
   * resolved: with no panel to go under, a panel class becomes the root of
   * an empty tree; otherwise the widget is added under the chosen panel.
   */
  function AddToTree(path: string, className: string, widgetName: string, parentName: string,
                     tree: WidgetTree, cls: WidgetClass, env: WidgetEnv): (r: AddOutcome)
    ensures var c := ChooseParent(tree, parentName);
            && (r.newRoot.Some? <==> c.NoPanel? && IsPanel(cls.panel) && tree.root.None?)
            && (c.ParentMissing? ==> IsFailureWith(r.reply, c.message))
            && (c.NoPanel? && !(IsPanel(cls.panel) && tree.root.None?) ==> IsFailureWith(r.reply, CannotPlace))
            && (c.NoPanel? && IsPanel(cls.panel) && tree.root.None? ==> (Succeeded(r.reply) <==> env.saves))
            && (c.UnderPanel? ==> (Succeeded(r.reply) <==> AcceptsChild(c.parent) && env.saves))
    ensures r.newRoot.Some? ==> r.newRoot.value == Widget(env.uniqueName(widgetName), cls.panel, None, [], [], [])
    ensures Succeeded(r.reply) ==> env.saves
    ensures Succeeded(r.reply) ==> Field(r.reply, "widget_name")
                                   == (if env.uniqueName(widgetName) != "" then Some(JStr(env.uniqueName(widgetName))) else None)
  {
    var actual := env.uniqueName(widgetName);
    match ChooseParent(tree, parentName)
    case ParentMissing(message) => AddOutcome(ErrorObj(message), None)
    case NoPanel =>
      if IsPanel(cls.panel) && tree.root.None? then
        AddOutcome(RootReply(path, className, actual, env.saves), Some(Widget(actual, cls.panel, None, [], [], [])))
      else AddOutcome(ErrorObj(CannotPlace), None)
    case UnderPanel(parent) => AddOutcome(ChildReply(path, className, actual, parent, env.saves), None)
  }

  /** `AddWidgetToUserWidget`: load the asset, get or create its tree, resolve the class, then place the widget. */
  function AddWidgetToUserWidget(path: string, className: string, widgetName: string, parentName: string,
                                 env: WidgetEnv): (r: AddOutcome)
    ensures env.loadAsset(path).None? ==> IsFailureWith(r.reply, "User Widget " + "Blueprint asset " + "not found at: " + path)
    ensures env.loadAsset(path) == Some(NotWidgetBlueprint) ==>
              IsFailureWith(r.reply, "Asset at '" + path + "' is not a User " + "Widget Blueprint" + ".")
    ensures env.loadAsset(path).Some? && env.loadAsset(path).value.WidgetBlueprint? && ResolveWidgetClass(className, env).None? ==>
              IsFailureWith(r.reply, "Widget class " + "not found or " + "invalid: " + className)
    ensures Succeeded(r.reply) ==> env.loadAsset(path).Some? && env.loadAsset(path).value.WidgetBlueprint?
                                   && ResolveWidgetClass(className, env).Some? && env.saves
  {
    match env.loadAsset(path)
    case None => AddOutcome(CreateJsonReturn(false, "User Widget " + "Blueprint asset " + "not found at: " + path, ""), None)
    case Some(NotWidgetBlueprint) =>
      AddOutcome(CreateJsonReturn(false, "Asset at '" + path + "' is not a User " + "Widget Blueprint" + ".", ""), None)
    case Some(WidgetBlueprint(tree, _)) =>
      // a missing tree is created empty
      var t := tree.GetOr(WidgetTree(None));
      match ResolveWidgetClass(className, env)
      case None => AddOutcome(CreateJsonReturn(false, "Widget class " + "not found or " + "invalid: " + className, ""), None)
      case Some(cls) => AddToTree(path, className, widgetName, parentName, t, cls, env)
  }

  /** With no parent named, a panel class becomes the root of an empty tree, and anything else is refused. */
  lemma EmptyTreeTakesOnlyPanelRoot(path: string, className: string, widgetName: string, cls: WidgetClass, env: WidgetEnv)
    ensures var r := AddToTree(path, className, widgetName, "", WidgetTree(None), cls, env);
            (r.newRoot.Some? <==> IsPanel(cls.panel))
            && (!IsPanel(cls.panel) ==> IsFailureWith(r.reply, CannotPlace))
  {
    assert AllWidgets(WidgetTree(None)) == [];
  }

  /** A named parent that is missing leaves the tree as it is and reports the name. */
  lemma MissingParentIsReported(path: string, className: string, widgetName: string, parentName: string,
                                tree: WidgetTree, cls: WidgetClass, env: WidgetEnv)
    requires parentName != "" && FindWidget(tree, parentName).None?
    ensures var r := AddToTree(path, className, widgetName, parentName, tree, cls, env);
            r.newRoot.None? && IsFailureWith(r.reply, ParentMissingMessage(parentName))
  {
  }

  // ---------------------------------------------------------------------
  // EditWidgetProperty
  // ---------------------------------------------------------------------

  /** The object a property name targets: the widget itself or its slot, with the property's name. */
  datatype PropertyTarget = OnWidget(widget: string, property: string) | OnSlot(widget: string, property: string)

  /** `FString::StartsWith` with its default `ESearchCase::IgnoreCase`. */
  predicate StartsWithIgnoreCase(s: string, p: string) {
    |p| <= |s| && EqualsIgnoreCase(s[..|p|], p)
  }

  /** `FindFProperty(class, FName(name))`: the first property with that name, ignoring case. */
  function FindPropertyName(props: seq<string>, name: string): (r: Option<string>)
    ensures r.Some? ==> r.value in props && EqualsIgnoreCase(r.value, name)
    ensures r.None? <==> forall p :: p in props ==> !EqualsIgnoreCase(p, name)
    decreases |props|
  {
    if |props| == 0 then None
    else if EqualsIgnoreCase(props[0], name) then Some(props[0])
    else
      var r := FindPropertyName(props[1..], name);
      assert forall p :: p in props ==> p == props[0] || p in props[1..];
      r
  }

  /**
   * `FindPropertyAndObject`: a `Slot.`-prefixed name (in any case) targets
   * the slot with the text after the 5-character prefix, and fails without
   * a slot; any other name targets the widget.
   */
  function FindPropertyAndObject(w: Widget, propertyName: string): (r: Option<PropertyTarget>)
    ensures StartsWithIgnoreCase(propertyName, "Slot.") && w.slot.None? ==> r.None?
    ensures r.Some? && r.value.OnSlot? <==> StartsWithIgnoreCase(propertyName, "Slot.") && r.Some?
    ensures r.Some? && r.value.OnSlot? ==> r.value.property in w.slot.value.properties
                                            && EqualsIgnoreCase(r.value.property, propertyName[5..])
    ensures r.Some? && r.value.OnWidget? ==> r.value.property in w.properties
                                              && EqualsIgnoreCase(r.value.property, propertyName)
    ensures r.Some? ==> r.value.widget == w.name
  {
    if StartsWithIgnoreCase(propertyName, "Slot.") then
      match w.slot
      case None => None
      case Some(s) =>
        match FindPropertyName(s.properties, propertyName[5..])
        case Some(p) => Some(OnSlot(w.name, p))
        case None => None
    else
      match FindPropertyName(w.properties, propertyName)
      case Some(p) => Some(OnWidget(w.name, p))
      case None => None
  }

  /** `"Slot." + p` reaches the slot's property `p`; a name without the prefix reaches the widget's. */
  lemma SlotPrefixTargetsSlot(w: Widget, p: string)
    requires w.slot.Some? && p in w.slot.value.properties
    ensures FindPropertyAndObject(w, "Slot." + p).Some?
    ensures FindPropertyAndObject(w, "Slot." + p).value.OnSlot?
    ensures EqualsIgnoreCase(FindPropertyAndObject(w, "Slot." + p).value.property, p)
  {
    var n := "Slot." + p;
    assert n[..5] == "Slot.";
    assert n[5..] == p;
    assert FindPropertyName(w.slot.value.properties, p).Some?;
  }

  /** The prefix is matched ignoring case: `slot.` targets the slot too. */
  lemma LowerCasePrefixTargetsSlot(w: Widget, p: string)
    requires w.slot.Some? && p in w.slot.value.properties
    ensures FindPropertyAndObject(w, "slot." + p).Some? && FindPropertyAndObject(w, "slot." + p).value.OnSlot?
  {
    var n := "slot." + p;
    assert n[..5] == "slot.";
    assert Lower("slot.") == Lower("Slot.") by {
      assert Lower("Slot.")[0] == 's';
      assert forall i :: 1 <= i < 5 ==> Lower("Slot.")[i] == "slot."[i];
      assert forall i :: 0 <= i < 5 ==> Lower("slot.")[i] == "slot."[i];
    }
    assert n[5..] == p;
    assert FindPropertyName(w.slot.value.properties, p).Some?;
  }

  /** The import verdict: `None` is success, `Some(error)` a failure with its text. */
  function FullyParsed(value: string, property: string): string {
    "Failed to fully " + "parse value '" + value + "' for property '" + property + "'"
  }

  /**
   * The verdict as written: a null import result counts as success, and a
   * non-null one as failure unless both the error text and the value are empty.
   */
  function ImportVerdictAsWritten(res: ImportResult, value: string, property: string): (r: Option<string>)
    ensures r.None? <==> res.rest.None? || (res.errorText == "" && value == "")
    ensures r.Some? && res.errorText != "" ==> r.value == res.errorText
  {
    if res.rest.Some? && res.errorText != "" then Some(res.errorText)
    else if res.rest.Some? && value != "" then Some(FullyParsed(value, property))
    else None
  }

  /**
   * The verdict the engine's contract calls for: `ImportText_Direct` returns
   * null on failure and the rest of the text on success.
   */
  function ImportVerdict(res: ImportResult, value: string, property: string): (r: Option<string>)
    ensures r.None? <==> res.rest.Some? && res.errorText == ""
    ensures r.Some? && res.errorText != "" ==> r.value == res.errorText
  {
    if res.errorText != "" then Some(res.errorText)
    else if res.rest.None? then Some("Failed to parse " + "value '" + value + "' for property '" + property + "'")
    else None
  }

  /**
   * As written, a clean import of a non-empty value is reported as a
   * failure and a failed import as a success; the corrected verdict
   * reports each the other way round.
   */
  lemma ImportVerdictIsInverted(value: string, property: string)
    requires value != ""
    ensures ImportVerdictAsWritten(ImportResult(Some(""), ""), value, property) == Some(FullyParsed(value, property))
    ensures ImportVerdictAsWritten(ImportResult(None, ""), value, property).None?
    ensures ImportVerdict(ImportResult(Some(""), ""), value, property).None?
    ensures ImportVerdict(ImportResult(None, ""), value, property).Some?
  {
  }

  /** The widget tree of a loaded User Widget blueprint, if the asset is one and has a tree. */
  function EditableTree(path: string, env: WidgetEnv): (r: Option<WidgetTree>)
    ensures r.Some? <==> env.loadAsset(path).Some? && env.loadAsset(path).value.WidgetBlueprint?
                         && env.loadAsset(path).value.generatesUserWidget && env.loadAsset(path).value.tree.Some?
    ensures r.Some? ==> r == env.loadAsset(path).value.tree
  {
    match env.loadAsset(path)
    case Some(WidgetBlueprint(tree, true)) => tree
    case _ => None
  }

  /** The object and property an edit reaches: the named widget of the tree, then its (or its slot's) property. */
  function EditTarget(path: string, widgetName: string, propertyName: string, env: WidgetEnv): (r: Option<PropertyTarget>)
    ensures r.Some? ==> EditableTree(path, env).Some?
                        && FindWidget(EditableTree(path, env).value, widgetName).Some?
                        && r == FindPropertyAndObject(FindWidget(EditableTree(path, env).value, widgetName).value, propertyName)
    ensures r.Some? ==> r.value.widget in (set w | w in AllWidgets(EditableTree(path, env).value) :: w.name)
  {
    match EditableTree(path, env)
    case None => None
    case Some(t) =>
      match FindWidget(t, widgetName)
      case None => None
      case Some(w) => FindPropertyAndObject(w, propertyName)
  }

  /** `EditWidgetProperty` as written: the import result is judged by the inverted check. */
  method EditWidgetProperty(path: string, widgetName: string, propertyName: string, value: string, env: WidgetEnv)
    returns (r: Json)
    ensures var a := env.loadAsset(path);
            a.None? || a.value.NotWidgetBlueprint? || !a.value.generatesUserWidget ==>
              IsFailureWith(r, "User Widget " + "Blueprint not " + "found or " + "invalid: " + path)
    ensures Succeeded(r) <==>
              && EditTarget(path, widgetName, propertyName, env).Some?
              && ImportVerdictAsWritten(env.importText(EditTarget(path, widgetName, propertyName, env).value, value), value, propertyName).None?
              && env.saves
    ensures Succeeded(r) ==> Field(r, "message") == Some(JStr("Successfully " + "set property '" + propertyName + "' on widget '"
                                                              + widgetName + "' in '" + path + "'."))
  {
    r := EditWidgetPropertyWith(path, widgetName, propertyName, value, env, ImportVerdictAsWritten);
  }

  /** `EditWidgetProperty` with the corrected check: a clean import succeeds and a failed one is refused. */
  method EditWidgetPropertyCorrected(path: string, widgetName: string, propertyName: string, value: string, env: WidgetEnv)
    returns (r: Json)
    ensures var a := env.loadAsset(path);
            a.None? || a.value.NotWidgetBlueprint? || !a.value.generatesUserWidget ==>
              IsFailureWith(r, "User Widget " + "Blueprint not " + "found or " + "invalid: " + path)
    ensures Succeeded(r) <==>
              && EditTarget(path, widgetName, propertyName, env).Some?
              && ImportVerdict(env.importText(EditTarget(path, widgetName, propertyName, env).value, value), value, propertyName).None?
              && env.saves
    ensures Succeeded(r) ==> Field(r, "message") == Some(JStr("Successfully " + "set property '" + propertyName + "' on widget '"
                                                              + widgetName + "' in '" + path + "'."))
  {
    r := EditWidgetPropertyWith(path, widgetName, propertyName, value, env, ImportVerdict);
  }

  /** The steps of `EditWidgetProperty` — load, find the widget and the property, import the value, save — for a given import check. */
  method EditWidgetPropertyWith(path: string, widgetName: string, propertyName: string, value: string, env: WidgetEnv,
                                verdictOf: (ImportResult, string, string) -> Option<string>)
    returns (r: Json)
    ensures var a := env.loadAsset(path);
            a.None? || a.value.NotWidgetBlueprint? || !a.value.generatesUserWidget ==>
              IsFailureWith(r, "User Widget " + "Blueprint not " + "found or " + "invalid: " + path)
    ensures Succeeded(r) <==>
              && EditTarget(path, widgetName, propertyName, env).Some?
              && verdictOf(env.importText(EditTarget(path, widgetName, propertyName, env).value, value), value, propertyName).None?
              && env.saves
    ensures Succeeded(r) ==> Field(r, "message") == Some(JStr("Successfully " + "set property '" + propertyName + "' on widget '"
                                                              + widgetName + "' in '" + path + "'."))
  {
    var asset := env.loadAsset(path);
    if asset.None? || asset.value.NotWidgetBlueprint? || !asset.value.generatesUserWidget {
      r := ErrorObj("User Widget " + "Blueprint not " + "found or " + "invalid: " + path);
      return;
    }
    if asset.value.tree.None? {
      r := ErrorObj("WidgetTree not " + "found for: " + path);
      return;
    }
    var t := asset.value.tree.value;
    var found := FindWidgetByName(Some(t), widgetName);
    if found.None? {
      r := ErrorObj("Widget '" + widgetName + "' not found in " + "User Widget '" + path + "'.");
      return;
    }
    var w := found.value;
    var target := FindPropertyAndObject(w, propertyName);
    if target.None? {
      r := ErrorObj("Property '" + propertyName + "' not found on " + "widget '" + widgetName + "' or its slot.");
      return;
    }
    var verdict := verdictOf(env.importText(target.value, value), value, propertyName);
    if verdict.Some? {
      r := ErrorObj("Failed to set " + "property '" + propertyName + "' on widget '" + widgetName + "'. Error: " + verdict.value);
    } else if env.saves {
      r := JObj([("success", JBool(true)),
                 ("message", JStr("Successfully " + "set property '" + propertyName + "' on widget '" + widgetName + "' in '" + path + "'."))]);
      assert r.fields[..1] == [("success", JBool(true))];
      assert Lookup(r.fields[..1], "success") == Some(JBool(true));
    } else {
      r := ErrorObj("Set property '" + propertyName + "' but failed to " + "save/recompile " + "Blueprint '" + path + "'.");
    }
  }
}
