/**
 * `UGenObjectProperties::EditComponentProperty`, editor and runtime copies:
 * find a component on a scene actor or in a blueprint's construction
 * script, then set one of its reflected properties from a text value.
 * The engine's reflection and asset loading become data and lookup
 * functions; float conversion (`Atof`) keeps the text it would convert.
 */
module ObjectProperties {
  import opened Wrappers
  import opened Text

  // ---------------------------------------------------------------------
  // Reflected data
  // ---------------------------------------------------------------------

  /** The structs the setter recognises by identity; any other by name. */
  datatype StructKind = VectorStruct | RotatorStruct | LinearColorStruct | NamedStruct(name: string)

  /**
   * A `UEnum`: `names` are `GetNameStringByIndex(0 .. NumEnums - 1)`;
   * `indexByName` is `GetIndexByName`, with -1 for `INDEX_NONE`.
   */
  datatype Enumeration = Enumeration(names: seq<string>, indexByName: string -> int)

  /** The `FProperty` subclasses the setter casts to. */
  datatype PropertyKind =
    | ObjectProperty(propertyClass: string)
    | FloatProperty
    | IntProperty
    | BoolProperty
    | StrProperty
    | NameProperty
    | TextProperty
    | StructProperty(struct: StructKind)
    | ByteProperty(enumeration: Option<Enumeration>)
    | EnumProperty(enumType: Enumeration)
    | ArrayProperty
    | OtherProperty

  datatype Property = Property(name: string, cppType: string, kind: PropertyKind)

  datatype ComponentClass = StaticMeshComponent | SkeletalMeshComponent | OtherComponent

  /** An actor component: its object name, class and reflected properties in iteration order. */
  datatype Component = Component(name: string, cls: ComponentClass, properties: seq<Property>)

  datatype Actor = Actor(actorLabel: string, objectName: string, components: seq<Component>)

  /** A construction-script node: its variable name and component template, if any. */
  datatype ScsNode = ScsNode(variableName: string, template: Option<Component>)

  /**
   * The engine calls the setter makes: loading a blueprint's construction
   * script, loading any object (yielding its class), `IsA`, and a struct's
   * `ImportText`.
   */
  datatype Engine = Engine(
    loadBlueprint: string -> Option<seq<ScsNode>>,
    loadObject: string -> Option<string>,
    isA: (string, string) -> bool,
    importText: (StructKind, string) -> bool)

  /** The parameters of `EditComponentProperty`. */
  datatype Request = Request(
    blueprintPath: string,
    componentName: string,
    propertyName: string,
    value: string,
    isSceneActor: bool,
    actorName: string)

  // ---------------------------------------------------------------------
  // Outcomes
  // ---------------------------------------------------------------------

  /** `Atof` of a text; the conversion itself is not modelled. */
  datatype Float = Atof(text: string) | Literal(value: int)

  /** What a property ends up holding. */
  datatype Assigned =
    | ObjectValue(path: string)
    | FloatValue(f: Float)
    | IntValue(n: int)
    | BoolValue(truth: bool)
    | StringValue(s: string)
    | NameValue(s: string)
    | TextValue(s: string)
    | VectorValue(x: Float, y: Float, z: Float)
    | RotatorValue(pitch: Float, yaw: Float, roll: Float)
    | ColorValue(r: Float, g: Float, b: Float, a: Float)
    | ImportedValue(struct: StructKind, text: string)
    | ByteValue(byte: nat)
    | EnumIndexValue(index: int) // the enum's value at that index
    | EnumRawValue(raw: int)

  datatype Change =
    | MaterialSet(materialPath: string)
    | StaticMeshSet(meshPath: string)
    | PropertySet(property: string, newValue: Assigned)

  /** The JSON reply: `success` with `message`, or `error` (with `suggestions`). */
  datatype Reply =
    | Edited(message: string, change: Change)
    | Failed(error: string, suggestions: Option<string>)

  /** A property setter's verdict: a value, a specific error, or the generic `!bSuccess` failure. */
  datatype Assignment = Assign(value: Assigned) | Refuse(error: string) | Unsupported

  const NoWorld := "No editor world " + "found"
  const SceneTargetMissing := "Scene actor or " + "component not " + "found"
  const MaterialNeedsMesh := "Material " + "setting only " + "supported on " + "StaticMeshCompon" + "ent or SkeletalM" + "eshComponent"
  const MeshNeedsStaticMesh := "StaticMesh " + "property only " + "applicable to " + "StaticMeshCompon" + "ent"
  const TransformUnsupported :=
    "Transform " + "property " + "detected. For " + "best results, " + "set individual " + "components like " + "RelativeLocation" + " instead."
  const ArrayUnsupported := "Array properties" + " are not " + "directly " + "supported yet. " + "Use individual " + "element access " + "in a script."

  // ---------------------------------------------------------------------
  // Text conversions
  // ---------------------------------------------------------------------

  /** `FString::RemoveFromStart` of a one-character prefix. */
  function DropLeading(s: string, c: char): string {
    if |s| > 0 && s[0] == c then s[1..] else s
  }

  /** `FString::RemoveFromEnd` of a one-character suffix. */
  function DropTrailing(s: string, c: char): string {
    if |s| > 0 && s[|s| - 1] == c then s[..|s| - 1] else s
  }

  predicate IsQuote(c: char) { c == '\'' || c == '"' }

  /** Neither end of `p` is a quote character. */
  predicate Unquoted(p: string) {
    p == [] || (!IsQuote(p[0]) && !IsQuote(p[|p| - 1]))
  }

  /**
   * The path clean-up of the editor copy: one leading and one trailing `'`,
   * then one leading and one trailing `"`, each side on its own.
   */
  function StripPathQuotes(v: string): (r: string)
    ensures |v| - 4 <= |r| <= |v|
  {
    DropTrailing(DropLeading(DropTrailing(DropLeading(v, '\''), '\''), '"'), '"')
  }

  /** A path with no quote at either end is left as it is. */
  lemma StripPathQuotesKeepsUnquoted(p: string)
    requires Unquoted(p)
    ensures StripPathQuotes(p) == p
  {
  }

  /**
   * Wrapping an unquoted path in either kind of quote, on one side or both,
   * or in `'"…"'`, is undone.
   */
  lemma StripPathQuotesRoundTrip(p: string, q: char)
    requires Unquoted(p) && IsQuote(q)
    ensures StripPathQuotes([q] + p + [q]) == p
  {
    var both := [q] + p + [q];
    assert DropLeading(both, q) == p + [q] by { assert both[1..] == p + [q]; }
    assert DropTrailing(p + [q], q) == p by { assert (p + [q])[..|p|] == p; }
  }

  /** A quote on one side only is dropped as well. */
  lemma StripPathQuotesOneSide(p: string, q: char)
    requires Unquoted(p) && IsQuote(q)
    ensures StripPathQuotes([q] + p) == p
    ensures StripPathQuotes(p + [q]) == p
  {
    assert DropLeading([q] + p, q) == p by { assert ([q] + p)[1..] == p; }
    assert DropTrailing(p + [q], q) == p by { assert (p + [q])[..|p|] == p; }
    assert StripPathQuotes([q] + p) == p by {
      if q == '\'' {
        assert DropLeading([q] + p, '\'') == p;
      } else {
        assert DropLeading([q] + p, '\'') == [q] + p;
      }
    }
  }

  /** Both layers at once, `'"…"'`, are undone too. */
  lemma StripPathQuotesBothLayers(p: string)
    requires Unquoted(p)
    ensures StripPathQuotes(['\''] + (['"'] + p + ['"']) + ['\'']) == p
  {
    var inner := ['"'] + p + ['"'];
    var w := ['\''] + inner + ['\''];
    assert DropLeading(w, '\'') == inner + ['\''] by { assert w[1..] == inner + ['\'']; }
    assert DropTrailing(inner + ['\''], '\'') == inner by { assert (inner + ['\''])[..|inner|] == inner; }
    assert DropLeading(inner, '"') == p + ['"'] by { assert inner[1..] == p + ['"']; }
    assert DropTrailing(p + ['"'], '"') == p by { assert (p + ['"'])[..|p|] == p; }
  }

  /**
   * The str/name/text clean-up: the outer double quotes go only when both
   * ends are quoted; a lone `"` becomes empty, as `Mid(1, -1)` does.
   */
  function Unquote(v: string): (r: string)
    ensures |v| > 0 && v[0] == '"' && v[|v| - 1] == '"' ==> |r| == if |v| >= 2 then |v| - 2 else 0
    ensures !(|v| > 0 && v[0] == '"' && v[|v| - 1] == '"') ==> r == v
  {
    if |v| > 0 && v[0] == '"' && v[|v| - 1] == '"' then
      (if |v| >= 2 then v[1..|v| - 1] else "")
    else v
  }

  /** Quoting any text and unquoting it gives the text back, quotes inside included. */
  lemma UnquoteRoundTrip(s: string)
    ensures Unquote("\"" + s + "\"") == s
  {
    assert ("\"" + s + "\"")[1..|s| + 1] == s;
  }

  /** A value quoted at one end only keeps its quote. */
  lemma UnquoteNeedsBothEnds(s: string)
    requires s != [] && Unquoted(s)
    ensures Unquote("\"" + s) == "\"" + s
    ensures Unquote(s + "\"") == s + "\""
  {
    assert ("\"" + s)[|s|] == s[|s| - 1];
    assert (s + "\"")[0] == s[0];
  }

  /**
   * `FString::ToBool`: `True`, `Yes`, `On` are true and `False`, `No`, `Off`
   * false, ignoring case; anything else is true iff `Atoi` is non-zero.
   */
  function ToBool(s: string): (r: bool)
    ensures EqualsIgnoreCase(s, "true") || EqualsIgnoreCase(s, "yes") || EqualsIgnoreCase(s, "on") ==> r
    ensures EqualsIgnoreCase(s, "false") || EqualsIgnoreCase(s, "no") || EqualsIgnoreCase(s, "off") ==> !r
  {
    TrueAndFalseWordsDiffer(s);
    if EqualsIgnoreCase(s, "true") || EqualsIgnoreCase(s, "yes") || EqualsIgnoreCase(s, "on") then true
    else if EqualsIgnoreCase(s, "false") || EqualsIgnoreCase(s, "no") || EqualsIgnoreCase(s, "off") then false
    else Atoi(s) != 0
  }

  lemma TrueAndFalseWordsDiffer(s: string)
    ensures !((EqualsIgnoreCase(s, "true") || EqualsIgnoreCase(s, "yes") || EqualsIgnoreCase(s, "on"))
              && (EqualsIgnoreCase(s, "false") || EqualsIgnoreCase(s, "no") || EqualsIgnoreCase(s, "off")))
  {
    assert |Lower("true")| == 4 && |Lower("yes")| == 3 && |Lower("on")| == 2;
    assert |Lower("false")| == 5 && |Lower("no")| == 2 && |Lower("off")| == 3;
    assert Lower("on")[0] == 'o' && Lower("no")[0] == 'n';
    assert Lower("yes")[0] == 'y' && Lower("off")[0] == 'o';
  }

  /** A text starting with a digit never equals, ignoring case, a word starting with a letter. */
  lemma DigitIsNoWord(s: string, w: string)
    requires |s| > 0 && IsDigit(s[0]) && |w| > 0 && IsLowerChar(w[0])
    ensures !EqualsIgnoreCase(s, w)
  {
    assert Lower(s)[0] == s[0];
    assert IsLowerChar(Lower(w)[0]);
  }

  /** Any numeric text is true exactly when its value is non-zero. */
  lemma ToBoolOfNumber(n: nat)
    ensures ToBool(NatToDecimal(n)) <==> n != 0
  {
    var d := NatToDecimal(n);
    AtoiOfDecimal(n);
    DigitIsNoWord(d, "true");
    DigitIsNoWord(d, "yes");
    DigitIsNoWord(d, "on");
    DigitIsNoWord(d, "false");
    DigitIsNoWord(d, "no");
    DigitIsNoWord(d, "off");
  }

  /** The non-empty pieces, in order. */
  function NonEmpty(parts: seq<string>): (r: seq<string>)
    ensures forall k :: 0 <= k < |r| ==> r[k] != [] && r[k] in parts
    ensures forall p :: p in parts && p != [] ==> p in r
    ensures |r| <= |parts|
  {
    if |parts| == 0 then []
    else if parts[0] == [] then NonEmpty(parts[1..])
    else [parts[0]] + NonEmpty(parts[1..])
  }

  /**
   * `FString::ParseIntoArray(out, sep, true)`: the text between
   * separators, with empty pieces culled.
   */
  function SplitCulled(s: string, sep: string): (r: seq<string>)
    requires |sep| > 0
    ensures forall k :: 0 <= k < |r| ==> r[k] != [] && !Contains(r[k], sep)
  {
    NonEmpty(Split(s, sep))
  }

  lemma {:induction false} NonEmptyKeepsNonEmpty(parts: seq<string>)
    requires forall k :: 0 <= k < |parts| ==> parts[k] != []
    ensures NonEmpty(parts) == parts
    decreases |parts|
  {
    if |parts| > 0 {
      NonEmptyKeepsNonEmpty(parts[1..]);
      assert parts == [parts[0]] + parts[1..];
    }
  }

  /** Joining non-empty, separator-free parts and splitting again gives the parts back. */
  lemma SplitCulledJoin(parts: seq<string>, sep: string)
    requires |sep| > 0 && Unbordered(sep) && |parts| > 0
    requires forall k :: 0 <= k < |parts| ==> parts[k] != [] && !Contains(parts[k], sep)
    ensures SplitCulled(Join(parts, sep), sep) == parts
  {
    SplitJoin(parts, sep);
    NonEmptyKeepsNonEmpty(parts);
  }

  lemma OneCharUnbordered(c: char)
    ensures Unbordered([c])
  {
  }

  // ---------------------------------------------------------------------
  // Struct components
  // ---------------------------------------------------------------------

  /**
   * The editor's component split: one `(` and one `)` are removed, then the
   * text is split on `,` if it has one, else on spaces.
   */
  function EditorComponents(v: string): (r: seq<string>)
    ensures forall k :: 0 <= k < |r| ==> r[k] != []
  {
    var c := DropTrailing(DropLeading(v, '('), ')');
    if Contains(c, ",") then SplitCulled(c, ",") else SplitCulled(c, " ")
  }

  /** An editor vector needs at least two parts; Z defaults to 0. */
  function EditorVector(v: string): (r: Option<Assigned>)
    ensures r.Some? <==> |EditorComponents(v)| >= 2
    ensures r.Some? ==> r.value.VectorValue? && r.value.x == Atof(EditorComponents(v)[0])
                        && r.value.y == Atof(EditorComponents(v)[1])
    ensures r.Some? && |EditorComponents(v)| == 2 ==> r.value.z == Literal(0)
  {
    var parts := EditorComponents(v);
    if |parts| >= 2 then
      Some(VectorValue(Atof(parts[0]), Atof(parts[1]), if |parts| >= 3 then Atof(parts[2]) else Literal(0)))
    else None
  }

  /** An editor rotator needs at least three parts. */
  function EditorRotator(v: string): (r: Option<Assigned>)
    ensures r.Some? <==> |EditorComponents(v)| >= 3
    ensures r.Some? ==> r.value.RotatorValue? && r.value.pitch == Atof(EditorComponents(v)[0])
  {
    var parts := EditorComponents(v);
    if |parts| >= 3 then Some(RotatorValue(Atof(parts[0]), Atof(parts[1]), Atof(parts[2]))) else None
  }

  /** An editor colour needs at least three parts; alpha defaults to 1. */
  function EditorColor(v: string): (r: Option<Assigned>)
    ensures r.Some? <==> |EditorComponents(v)| >= 3
    ensures r.Some? && |EditorComponents(v)| == 3 ==> r.value.ColorValue? && r.value.a == Literal(1)
  {
    var parts := EditorComponents(v);
    if |parts| >= 3 then
      Some(ColorValue(Atof(parts[0]), Atof(parts[1]), Atof(parts[2]), if |parts| >= 4 then Atof(parts[3]) else Literal(1)))
    else None
  }

  /** Parts with no separator characters and no parentheses at their ends. */
  predicate PlainComponents(parts: seq<string>) {
    forall k :: 0 <= k < |parts| ==>
      parts[k] != [] && !Contains(parts[k], ",") && !Contains(parts[k], " ")
      && parts[k][0] != '(' && parts[k][|parts[k]| - 1] != ')'
  }

  lemma JoinBounds(parts: seq<string>, sep: string)
    requires |parts| > 0 && forall k :: 0 <= k < |parts| ==> parts[k] != []
    ensures Join(parts, sep) != []
    ensures Join(parts, sep)[0] == parts[0][0]
    ensures Join(parts, sep)[|Join(parts, sep)| - 1] == parts[|parts| - 1][|parts[|parts| - 1]| - 1]
    decreases |parts|
  {
    if |parts| > 1 {
      JoinBounds(parts[1..], sep);
    }
  }

  lemma JoinContainsSep(parts: seq<string>, sep: string)
    requires |parts| >= 2
    ensures Contains(Join(parts, sep), sep)
  {
    assert OccursAt(Join(parts, sep), sep, |parts[0]|);
  }

  /** Written `x,y,z` or `(x,y,z)`, the editor reads the components back. */
  lemma {:induction false} EditorComponentsOfCommaList(parts: seq<string>, parenthesised: bool)
    requires |parts| >= 2 && PlainComponents(parts)
    ensures EditorComponents(if parenthesised then "(" + Join(parts, ",") + ")" else Join(parts, ",")) == parts
  {
    var j := Join(parts, ",");
    JoinBounds(parts, ",");
    var v := if parenthesised then "(" + j + ")" else j;
    assert DropTrailing(DropLeading(v, '('), ')') == j by {
      if parenthesised {
        assert v[1..] == j + ")";
        assert (j + ")")[..|j|] == j;
      }
    }
    JoinContainsSep(parts, ",");
    OneCharUnbordered(',');
    SplitCulledJoin(parts, ",");
  }

  /** Written `x y z`, with no comma anywhere, the editor splits on spaces. */
  lemma {:induction false} EditorComponentsOfSpaceList(parts: seq<string>)
    requires |parts| >= 2 && PlainComponents(parts)
    ensures EditorComponents(Join(parts, " ")) == parts
  {
    var j := Join(parts, " ");
    JoinBounds(parts, " ");
    assert DropTrailing(DropLeading(j, '('), ')') == j;
    JoinHasNoComma(parts, " ");
    OneCharUnbordered(' ');
    SplitCulledJoin(parts, " ");
  }

  lemma {:induction false} JoinHasNoComma(parts: seq<string>, sep: string)
    requires PlainComponents(parts) && sep == " "
    ensures !Contains(Join(parts, sep), ",")
    decreases |parts|
  {
    if |parts| == 0 {
      assert !OccursAt("", ",", 0);
    } else if |parts| == 1 {
    } else {
      JoinHasNoComma(parts[1..], sep);
      var rest := Join(parts[1..], sep);
      NoCommaConcat(parts[0], sep, rest);
    }
  }

  lemma NoCommaConcat(a: string, sep: string, b: string)
    requires !Contains(a, ",") && sep == " " && !Contains(b, ",")
    ensures !Contains(a + sep + b, ",")
  {
    forall i | 0 <= i < |a| ensures a[i] != ',' {
      assert a[i] == ',' ==> OccursAt(a, ",", i);
    }
    forall i | 0 <= i < |b| ensures b[i] != ',' {
      assert b[i] == ',' ==> OccursAt(b, ",", i);
    }
    var s := a + sep + b;
    forall i | 0 <= i < |s| ensures s[i] != ',' {
      if i < |a| { assert s[i] == a[i]; }
      else if i == |a| { assert s[i] == ' '; }
      else { assert s[i] == b[i - |a| - 1]; }
    }
    NotContainsFirstChar(s, ",");
  }

  /** The editor accepts a two-part vector, with Z = 0. */
  lemma EditorVectorOfTwo(x: string, y: string)
    requires PlainComponents([x, y])
    ensures EditorVector(x + "," + y) == Some(VectorValue(Atof(x), Atof(y), Literal(0)))
  {
    assert Join([x, y], ",") == x + "," + y by {
      assert [x, y][1..] == [y];
    }
    EditorComponentsOfCommaList([x, y], false);
  }

  /** The runtime copy: exactly three comma-separated parts, nothing stripped. */
  function RuntimeTriple(v: string): (r: Option<(Float, Float, Float)>)
    ensures r.Some? <==> |SplitCulled(v, ",")| == 3
    ensures r.Some? ==> r.value.0 == Atof(SplitCulled(v, ",")[0])
  {
    var parts := SplitCulled(v, ",");
    if |parts| == 3 then Some((Atof(parts[0]), Atof(parts[1]), Atof(parts[2]))) else None
  }

  /** A two-part vector that the editor accepts is refused by the runtime copy. */
  lemma RuntimeRefusesTwoParts(x: string, y: string)
    requires PlainComponents([x, y])
    ensures RuntimeTriple(x + "," + y).None?
    ensures EditorVector(x + "," + y).Some?
  {
    assert Join([x, y], ",") == x + "," + y by {
      assert [x, y][1..] == [y];
    }
    OneCharUnbordered(',');
    SplitCulledJoin([x, y], ",");
    EditorVectorOfTwo(x, y);
  }

  /** Three comma-separated parts are read the same by both copies. */
  lemma CopiesAgreeOnThreeParts(x: string, y: string, z: string)
    requires PlainComponents([x, y, z])
    ensures RuntimeTriple(x + "," + y + "," + z) == Some((Atof(x), Atof(y), Atof(z)))
    ensures EditorVector(x + "," + y + "," + z) == Some(VectorValue(Atof(x), Atof(y), Atof(z)))
  {
    assert Join([x, y, z], ",") == x + "," + y + "," + z by {
      assert [x, y, z][1..] == [y, z];
      assert [y, z][1..] == [z];
      assert Join([y, z], ",") == y + "," + z;
    }
    OneCharUnbordered(',');
    SplitCulledJoin([x, y, z], ",");
    EditorComponentsOfCommaList([x, y, z], false);
  }

  // ---------------------------------------------------------------------
  // Enumerations
  // ---------------------------------------------------------------------

  /** `"Invalid enum value: %s. Valid values: %s"`. */
  function InvalidEnumValue(clean: string, e: Enumeration): string {
    "Invalid enum " + "value: " + clean + ". Valid values: " + Join(e.names, ", ")
  }

  /**
   * A byte property backed by an enum: the name first, then an integer in
   * `[0, NumEnums)`, else an error listing every name.
   */
  function ByteEnumValue(value: string, e: Enumeration): (r: Assignment)
    ensures e.indexByName(Unquote(value)) != -1 ==> r == Assign(ByteValue(e.indexByName(Unquote(value)) % 256))
    ensures e.indexByName(Unquote(value)) == -1 && 0 <= Atoi(Unquote(value)) < |e.names| ==>
              r == Assign(ByteValue(Atoi(Unquote(value))))
    ensures r.Refuse? <==> e.indexByName(Unquote(value)) == -1 && !(0 <= Atoi(Unquote(value)) < |e.names|)
    ensures r.Refuse? ==> r.error == InvalidEnumValue(Unquote(value), e)
    ensures !r.Unsupported?
  {
    var clean := Unquote(value);
    var index := e.indexByName(clean);
    if index != -1 then Assign(ByteValue(index % 256))
    else
      var n := Atoi(clean);
      if 0 <= n < |e.names| then Assign(ByteValue(n)) else Refuse(InvalidEnumValue(clean, e))
  }

  /**
   * A word that is not one of the enum's names reads as index 0, so it is
   * accepted whenever the enum has an entry: the error is reached only by
   * out-of-range numbers.
   */
  lemma UnknownWordSelectsFirstEntry(value: string, e: Enumeration)
    requires |value| > 0 && 'A' <= value[0] <= 'Z'
    requires e.indexByName(value) == -1 && |e.names| > 0
    ensures ByteEnumValue(value, e) == Assign(ByteValue(0))
  {
    AtoiOfWord(value);
  }

  /** A quoted in-range index selects that index when it is not also a name. */
  lemma QuotedIndexSelects(n: nat, e: Enumeration)
    requires n < |e.names| && e.indexByName(NatToDecimal(n)) == -1
    ensures ByteEnumValue("\"" + NatToDecimal(n) + "\"", e) == Assign(ByteValue(n))
  {
    UnquoteRoundTrip(NatToDecimal(n));
    AtoiOfDecimal(n);
  }

  /** `FEnumProperty`: the name first, else `Atoi64` of the text, with no range check. */
  function EnumPropertyValue(value: string, e: Enumeration): (r: Assignment)
    ensures r.Assign?
    ensures e.indexByName(Unquote(value)) != -1 ==> r.value == EnumIndexValue(e.indexByName(Unquote(value)))
    ensures e.indexByName(Unquote(value)) == -1 ==> r.value == EnumRawValue(Atoi(Unquote(value)))
  {
    var clean := Unquote(value);
    var index := e.indexByName(clean);
    if index != -1 then Assign(EnumIndexValue(index)) else Assign(EnumRawValue(Atoi(clean)))
  }

  // ---------------------------------------------------------------------
  // Asset paths
  // ---------------------------------------------------------------------

  /**
   * `FName(path).GetPlainNameString()`: the text without a trailing `_N`
   * instance number (digits with no leading zero, after a non-empty stem).
   */
  function PlainName(s: string): (r: string)
    ensures |r| <= |s| && r == s[..|r|]
    ensures |s| > 0 && !IsDigit(s[|s| - 1]) ==> r == s
  {
    var digits := TrailingDigits(s);
    var stem := |s| - |digits| - 1;
    if |digits| > 0 && stem > 0 && s[stem] == '_' && (digits[0] != '0' || |digits| == 1) then s[..stem] else s
  }

  function TrailingDigits(s: string): (r: string)
    ensures |r| <= |s| && r == s[|s| - |r|..]
    ensures forall i :: 0 <= i < |r| ==> IsDigit(r[i])
    ensures |s| > 0 && !IsDigit(s[|s| - 1]) ==> r == []
  {
    if |s| > 0 && IsDigit(s[|s| - 1]) then TrailingDigits(s[..|s| - 1]) + [s[|s| - 1]] else []
  }

  /** The fallback object path as written: the path, a dot, and the path's plain name. */
  function FallbackPathAsWritten(path: string): (r: string)
    ensures StartsWith(r, path + ".")
  {
    path + "." + PlainName(path)
  }

  /** The asset name: the text after the last `/`. */
  function AssetName(path: string): (r: string)
    ensures |r| <= |path| && r == path[|path| - |r|..]
    ensures forall i :: 0 <= i < |r| ==> r[i] != '/'
    ensures |r| < |path| ==> path[|path| - |r| - 1] == '/'
  {
    if |path| == 0 || path[|path| - 1] == '/' then []
    else AssetName(path[..|path| - 1]) + [path[|path| - 1]]
  }

  /** The fallback object path `Package.Asset` the comment in the code describes. */
  function FallbackPath(path: string): (r: string)
    ensures StartsWith(r, path + ".")
    ensures forall i :: |path| + 1 <= i < |r| ==> r[i] != '/'
  {
    path + "." + AssetName(path)
  }

  /** For a package path `dir/Name`, the fallback is `dir/Name.Name`. */
  lemma FallbackPathNamesTheAsset(dir: string, name: string)
    requires forall i :: 0 <= i < |name| ==> name[i] != '/'
    ensures FallbackPath(dir + "/" + name) == dir + "/" + name + "." + name
  {
    AssetNameOfLastSegment(dir, name);
  }

  lemma {:induction false} AssetNameOfLastSegment(dir: string, name: string)
    requires forall i :: 0 <= i < |name| ==> name[i] != '/'
    ensures AssetName(dir + "/" + name) == name
    decreases |name|
  {
    var p := dir + "/" + name;
    if |name| == 0 {
      assert p[|p| - 1] == '/';
    } else {
      var shorter := name[..|name| - 1];
      assert p[..|p| - 1] == dir + "/" + shorter;
      AssetNameOfLastSegment(dir, shorter);
      assert name == shorter + [name[|name| - 1]];
    }
  }

  /**
   * For a package path `dir/Name` whose name does not end in a digit, the
   * as-written fallback is `dir/Name.dir/Name`, not `dir/Name.Name`.
   */
  lemma FallbackRepeatsPackagePath(dir: string, name: string)
    requires |name| > 0 && !IsDigit(name[|name| - 1])
    requires forall i :: 0 <= i < |name| ==> name[i] != '/'
    ensures FallbackPathAsWritten(dir + "/" + name) == dir + "/" + name + "." + dir + "/" + name
    ensures FallbackPathAsWritten(dir + "/" + name) != FallbackPath(dir + "/" + name)
  {
    var p := dir + "/" + name;
    assert p[|p| - 1] == name[|name| - 1];
    assert PlainName(p) == p;
    FallbackPathNamesTheAsset(dir, name);
    assert |p + "." + p| != |p + "." + name|;
  }

  /** `LoadObject<T>`: the path loads an object of class `cls`. */
  predicate LoadsAs(engine: Engine, path: string, cls: string) {
    engine.loadObject(path).Some? && engine.isA(engine.loadObject(path).value, cls)
  }

  /**
   * A typed load of the path, then of its fallback: the path that loaded.
   * The editor's code computes the fallback with `FallbackPathAsWritten`;
   * `FallbackPath` is the corrected rule.
   */
  function LoadWithFallback(engine: Engine, path: string, cls: string, fallback: string -> string): (r: Option<string>)
    ensures r.Some? <==> LoadsAs(engine, path, cls) || LoadsAs(engine, fallback(path), cls)
    ensures r.Some? ==> LoadsAs(engine, r.value, cls)
    ensures LoadsAs(engine, path, cls) ==> r == Some(path)
    ensures r.Some? && r.value != path ==> r.value == fallback(path)
  {
    if LoadsAs(engine, path, cls) then Some(path)
    else if LoadsAs(engine, fallback(path), cls) then Some(fallback(path))
    else None
  }

  // ---------------------------------------------------------------------
  // Finding the property
  // ---------------------------------------------------------------------

  /** `FindPropertyByName(FName(name))`: the first property with that name, ignoring case. */
  function FindProperty(props: seq<Property>, name: string): (r: Option<nat>)
    ensures r.Some? ==> r.value < |props| && EqualsIgnoreCase(props[r.value].name, name)
    ensures r.Some? ==> forall j :: 0 <= j < r.value ==> !EqualsIgnoreCase(props[j].name, name)
    ensures r.None? <==> forall j :: 0 <= j < |props| ==> !EqualsIgnoreCase(props[j].name, name)
    decreases |props|
  {
    if |props| == 0 then None
    else if EqualsIgnoreCase(props[0].name, name) then Some(0)
    else
      match FindProperty(props[1..], name)
      case None =>
        assert forall j :: 1 <= j < |props| ==> props[j] == props[1..][j - 1];
        None
      case Some(k) =>
        assert props[k + 1] == props[1..][k];
        assert forall j :: 1 <= j < k + 1 ==> props[j] == props[1..][j - 1];
        Some(k + 1)
  }

  /** One suggestion: `Name (CPPType)`. */
  function Suggestion(p: Property): (r: string)
    ensures '(' in r
  {
    var r := p.name + " (" + p.cppType + ")";
    assert r[|p.name| + 1] == '(';
    r
  }

  /** The suggestions for every property whose name contains the request, ignoring case, in order. */
  function Matching(props: seq<Property>, request: string): (r: seq<string>)
    ensures forall k :: 0 <= k < |r| ==> exists p :: p in props && ContainsIgnoreCase(p.name, request) && r[k] == Suggestion(p)
    ensures forall p :: p in props && ContainsIgnoreCase(p.name, request) ==> Suggestion(p) in r
    ensures forall k :: 0 <= k < |r| ==> '(' in r[k]
    ensures |r| <= |props|
  {
    if |props| == 0 then []
    else if ContainsIgnoreCase(props[0].name, request) then [Suggestion(props[0])] + Matching(props[1..], request)
    else Matching(props[1..], request)
  }

  /** The `suggestions` field: the matches joined by `", "`, or `"none"`. */
  function Suggestions(props: seq<Property>, request: string): (r: string)
    ensures r == "none" <==> forall p :: p in props ==> !ContainsIgnoreCase(p.name, request)
  {
    var found := Matching(props, request);
    if |found| > 0 then
      JoinedSuggestionsAreNotNone(found);
      Join(found, ", ")
    else "none"
  }

  lemma JoinedSuggestionsAreNotNone(found: seq<string>)
    requires |found| > 0 && '(' in found[0]
    ensures Join(found, ", ") != "none"
  {
    var j := Join(found, ", ");
    assert j[..|found[0]|] == found[0] by {
      if |found| > 1 { assert j == found[0] + (", " + Join(found[1..], ", ")); }
    }
    assert '(' in j;
  }

  /** An empty request matches every property, so every property is suggested. */
  lemma EmptyRequestSuggestsAll(props: seq<Property>)
    ensures forall p :: p in props ==> Suggestion(p) in Matching(props, "")
    ensures Suggestions(props, "") == "none" <==> |props| == 0
  {
    forall p | p in props ensures ContainsIgnoreCase(p.name, "") {
      ContainsEmpty(Lower(p.name));
    }
    if |props| > 0 {
      assert props[0] in props;
    }
  }

  // ---------------------------------------------------------------------
  // Setting a property
  // ---------------------------------------------------------------------

  /** The editor copy's value conversion for each property kind, with the given fallback rule for object paths. */
  function EditorAssign(p: Property, value: string, engine: Engine, fallback: string -> string): (r: Assignment)
    ensures p.kind.FloatProperty? ==> r == Assign(FloatValue(Atof(value)))
    ensures p.kind.IntProperty? ==> r == Assign(IntValue(Atoi(value)))
    ensures p.kind.BoolProperty? ==> r == Assign(BoolValue(ToBool(value)))
    ensures p.kind.StrProperty? ==> r == Assign(StringValue(Unquote(value)))
    ensures p.kind.NameProperty? ==> r == Assign(NameValue(Unquote(value)))
    ensures p.kind.TextProperty? ==> r == Assign(TextValue(Unquote(value)))
    ensures p.kind.ObjectProperty? ==>
              (r.Assign? <==> exists path :: path in [StripPathQuotes(value), fallback(StripPathQuotes(value))] && r == Assign(ObjectValue(path)))
    ensures p.kind.ArrayProperty? ==> r == Refuse(ArrayUnsupported)
    ensures p.kind.OtherProperty? ==> r == Unsupported
    ensures p.kind == StructProperty(VectorStruct) ==> (r.Assign? <==> |EditorComponents(value)| >= 2)
    ensures p.kind == StructProperty(RotatorStruct) || p.kind == StructProperty(LinearColorStruct) ==>
              (r.Assign? <==> |EditorComponents(value)| >= 3)
  {
    match p.kind
    case ObjectProperty(cls) =>
      var clean := StripPathQuotes(value);
      // the fallback is tried only when nothing loads, whatever its class
      var path := if engine.loadObject(clean).Some? then clean else fallback(clean);
      if LoadsAs(engine, path, cls) then Assign(ObjectValue(path))
      else Refuse("Could not load " + "object or type " + "mismatch. " + "Expected " + cls + ", trying to " + "load " + clean)
    case FloatProperty => Assign(FloatValue(Atof(value)))
    case IntProperty => Assign(IntValue(Atoi(value)))
    case BoolProperty => Assign(BoolValue(ToBool(value)))
    case StrProperty => Assign(StringValue(Unquote(value)))
    case NameProperty => Assign(NameValue(Unquote(value)))
    case TextProperty => Assign(TextValue(Unquote(value)))
    case StructProperty(VectorStruct) =>
      (match EditorVector(value) case Some(a) => Assign(a) case None => Unsupported)
    case StructProperty(RotatorStruct) =>
      (match EditorRotator(value) case Some(a) => Assign(a) case None => Unsupported)
    case StructProperty(LinearColorStruct) =>
      (match EditorColor(value) case Some(a) => Assign(a) case None => Unsupported)
    case StructProperty(NamedStruct(name)) =>
      if EqualsIgnoreCase(name, "Transform") then Refuse(TransformUnsupported)
      else if engine.importText(NamedStruct(name), value) then Assign(ImportedValue(NamedStruct(name), value))
      // the import's error text is never filled in
      else Refuse("Failed to " + "import struct " + "value: ")
    case ByteProperty(Some(e)) => ByteEnumValue(value, e)
    case ByteProperty(None) => Assign(ByteValue(Atoi(value) % 256))
    case EnumProperty(e) => EnumPropertyValue(value, e)
    case ArrayProperty => Refuse(ArrayUnsupported)
    case OtherProperty => Unsupported
  }

  /**
   * The runtime copy's conversion: objects from the raw text, floats, ints,
   * bools, raw strings, and three-part vectors and rotators; nothing else.
   */
  function RuntimeAssign(p: Property, value: string, engine: Engine): (r: Assignment)
    ensures !r.Refuse?
    ensures p.kind.ObjectProperty? ==> (r.Assign? <==> LoadsAs(engine, value, p.kind.propertyClass))
    ensures r.Assign? && p.kind.ObjectProperty? ==> r.value == ObjectValue(value)
    ensures p.kind.StrProperty? ==> r == Assign(StringValue(value))
    ensures p.kind == StructProperty(VectorStruct) || p.kind == StructProperty(RotatorStruct) ==>
              (r.Assign? <==> |SplitCulled(value, ",")| == 3)
    ensures (|| p.kind.NameProperty? || p.kind.TextProperty? || p.kind.ByteProperty? || p.kind.EnumProperty?
            || p.kind.ArrayProperty? || p.kind.OtherProperty?) ==> r == Unsupported
  {
    match p.kind
    case ObjectProperty(cls) => if LoadsAs(engine, value, cls) then Assign(ObjectValue(value)) else Unsupported
    case FloatProperty => Assign(FloatValue(Atof(value)))
    case IntProperty => Assign(IntValue(Atoi(value)))
    case BoolProperty => Assign(BoolValue(ToBool(value)))
    case StrProperty => Assign(StringValue(value))
    case StructProperty(VectorStruct) =>
      (match RuntimeTriple(value) case Some(t) => Assign(VectorValue(t.0, t.1, t.2)) case None => Unsupported)
    case StructProperty(RotatorStruct) =>
      (match RuntimeTriple(value) case Some(t) => Assign(RotatorValue(t.0, t.1, t.2)) case None => Unsupported)
    case _ => Unsupported
  }

  /** A quoted string is stored without its quotes by the editor and with them by the runtime copy. */
  lemma CopiesDifferOnQuotedStrings(p: Property, s: string, engine: Engine)
    requires p.kind.StrProperty?
    ensures EditorAssign(p, "\"" + s + "\"", engine, FallbackPathAsWritten) == Assign(StringValue(s))
    ensures RuntimeAssign(p, "\"" + s + "\"", engine) == Assign(StringValue("\"" + s + "\""))
  {
    UnquoteRoundTrip(s);
  }

  // ---------------------------------------------------------------------
  // Replies
  // ---------------------------------------------------------------------

  function SetMessage(req: Request): string {
    "Set " + req.componentName + "." + req.propertyName + " to " + req.value
  }

  function FailedToSet(req: Request): string {
    "Failed to set " + req.propertyName + " to " + req.value + " - unsupported " + "type or invalid " + "value"
  }

  function PropertyNotFound(req: Request): string {
    "Property " + req.propertyName + " not found"
  }

  function BlueprintNotLoaded(path: string): string {
    "Could not load " + "blueprint at " + "path: " + path
  }

  function ComponentNotInBlueprint(req: Request): string {
    "Component " + req.componentName + " not found in " + req.blueprintPath
  }

  /** The reply for a found property, shared by both copies. */
  function PropertyReply(req: Request, p: Property, a: Assignment): (r: Reply)
    ensures r.Edited? <==> a.Assign?
    ensures r.Edited? ==> r.message == SetMessage(req) && r.change == PropertySet(p.name, a.value)
    ensures a.Unsupported? ==> r == Failed(FailedToSet(req), None)
    ensures a.Refuse? ==> r == Failed(a.error, None)
  {
    match a
    case Assign(v) => Edited(SetMessage(req), PropertySet(p.name, v))
    case Refuse(e) => Failed(e, None)
    case Unsupported => Failed(FailedToSet(req), None)
  }

  /** The unknown-property reply: the error with its suggestions. */
  function NotFoundReply(req: Request, c: Component): (r: Reply)
    ensures r.Failed? && r.suggestions.Some?
    ensures r.suggestions.value == "none" <==> forall p :: p in c.properties ==> !ContainsIgnoreCase(p.name, req.propertyName)
  {
    Failed(PropertyNotFound(req), Some(Suggestions(c.properties, req.propertyName)))
  }

  // ---------------------------------------------------------------------
  // Finding the component
  // ---------------------------------------------------------------------

  /** The first element whose key equals `name` ignoring case, as `FString ==` compares. */
  function FirstNamed<T>(xs: seq<T>, key: T -> string, name: string): (r: Option<nat>)
    ensures r.Some? ==> r.value < |xs| && EqualsIgnoreCase(key(xs[r.value]), name)
    ensures r.Some? ==> forall j :: 0 <= j < r.value ==> !EqualsIgnoreCase(key(xs[j]), name)
    ensures r.None? <==> forall j :: 0 <= j < |xs| ==> !EqualsIgnoreCase(key(xs[j]), name)
    decreases |xs|
  {
    if |xs| == 0 then None
    else if EqualsIgnoreCase(key(xs[0]), name) then Some(0)
    else
      match FirstNamed(xs[1..], key, name)
      case None =>
        assert forall j :: 1 <= j < |xs| ==> xs[j] == xs[1..][j - 1];
        None
      case Some(k) =>
        assert xs[k + 1] == xs[1..][k];
        assert forall j :: 1 <= j < k + 1 ==> xs[j] == xs[1..][j - 1];
        Some(k + 1)
  }

  function Labels(actors: seq<Actor>): (r: seq<string>)
    ensures |r| == |actors| && forall i :: 0 <= i < |r| ==> r[i] == actors[i].actorLabel
  {
    seq(|actors|, i requires 0 <= i < |actors| => actors[i].actorLabel)
  }

  function ComponentNames(cs: seq<Component>): (r: seq<string>)
    ensures |r| == |cs| && forall i :: 0 <= i < |r| ==> r[i] == cs[i].name
  {
    seq(|cs|, i requires 0 <= i < |cs| => cs[i].name)
  }

  function ActorNotFound(req: Request, actors: seq<Actor>): string {
    "Scene actor not " + "found: " + req.actorName + ". Available " + "actors: " + Join(Labels(actors), ", ")
  }

  function ComponentNotOnActor(req: Request, a: Actor): string {
    "Component '" + req.componentName + "' not found on " + "actor '" + req.actorName
    + "'. Available " + "components: ['" + Join(ComponentNames(a.components), ", ") + "']"
  }

  /** The component a blueprint's construction script names, shared by both copies. */
  function BlueprintTarget(req: Request, engine: Engine): (r: Result<Component, string>)
    ensures engine.loadBlueprint(req.blueprintPath).None? ==> r == Failure(BlueprintNotLoaded(req.blueprintPath))
    ensures r.Success? ==> exists n :: n in engine.loadBlueprint(req.blueprintPath).value
                              && EqualsIgnoreCase(n.variableName, req.componentName) && n.template == Some(r.value)
    ensures r.Failure? && engine.loadBlueprint(req.blueprintPath).Some? ==> r.error == ComponentNotInBlueprint(req)
  {
    match engine.loadBlueprint(req.blueprintPath)
    case None => Failure(BlueprintNotLoaded(req.blueprintPath))
    case Some(nodes) =>
      match FirstNamed(nodes, (n: ScsNode) => n.variableName, req.componentName)
      case Some(i) =>
        // the first node with the name decides, even when it has no template
        if nodes[i].template.Some? then
          assert nodes[i] in nodes;
          Success(nodes[i].template.value)
        else Failure(ComponentNotInBlueprint(req))
      case None => Failure(ComponentNotInBlueprint(req))
  }

  /**
   * The editor's scene lookup: actors by label, the error listing every
   * label; then components by name, the error listing every component.
   */
  function EditorSceneTarget(req: Request, world: Option<seq<Actor>>): (r: Result<Component, string>)
    ensures world.None? ==> r == Failure(NoWorld)
    ensures world.Some? && (forall a :: a in world.value ==> !EqualsIgnoreCase(a.actorLabel, req.actorName)) ==>
              r == Failure(ActorNotFound(req, world.value))
    ensures r.Success? ==> exists a :: a in world.value && EqualsIgnoreCase(a.actorLabel, req.actorName)
                              && r.value in a.components && EqualsIgnoreCase(r.value.name, req.componentName)
  {
    match world
    case None => Failure(NoWorld)
    case Some(actors) =>
      match FirstNamed(actors, (a: Actor) => a.actorLabel, req.actorName)
      case None =>
        assert forall a :: a in actors ==> !EqualsIgnoreCase(a.actorLabel, req.actorName);
        Failure(ActorNotFound(req, actors))
      case Some(i) =>
        var a := actors[i];
        assert a in actors;
        match FirstNamed(a.components, (c: Component) => c.name, req.componentName)
        case None => Failure(ComponentNotOnActor(req, a))
        case Some(k) =>
          assert a.components[k] in a.components;
          Success(a.components[k])
  }

  /** The runtime copy's scene lookup: actors by object name, one error for every miss. */
  function RuntimeSceneTarget(req: Request, world: Option<seq<Actor>>): (r: Result<Component, string>)
    ensures world.None? ==> r == Failure(NoWorld)
    ensures world.Some? && r.Failure? ==> r.error == SceneTargetMissing
    ensures r.Success? ==> exists a :: a in world.value && EqualsIgnoreCase(a.objectName, req.actorName)
                              && r.value in a.components && EqualsIgnoreCase(r.value.name, req.componentName)
  {
    match world
    case None => Failure(NoWorld)
    case Some(actors) =>
      match FirstNamed(actors, (a: Actor) => a.objectName, req.actorName)
      case None => Failure(SceneTargetMissing)
      case Some(i) =>
        var a := actors[i];
        assert a in actors;
        match FirstNamed(a.components, (c: Component) => c.name, req.componentName)
        case None => Failure(SceneTargetMissing)
        case Some(k) =>
          assert a.components[k] in a.components;
          Success(a.components[k])
  }

  /** An actor whose label and object name differ is found by the editor and missed by the runtime copy. */
  lemma LabelVersusObjectName(c: Component)
    requires EqualsIgnoreCase(c.name, "Mesh")
    ensures var req := Request("", "Mesh", "", "", true, "Bird");
            var world := Some([Actor("Bird", "BP_Bird_C_1", [c])]);
            EditorSceneTarget(req, world) == Success(c)
            && RuntimeSceneTarget(req, world) == Failure(SceneTargetMissing)
  {
    var world := [Actor("Bird", "BP_Bird_C_1", [c])];
    assert EqualsIgnoreCase(world[0].actorLabel, "Bird");
    assert !EqualsIgnoreCase(world[0].objectName, "Bird") by {
      assert |Lower("BP_Bird_C_1")| != |Lower("Bird")|;
    }
  }

  // ---------------------------------------------------------------------
  // EditComponentProperty
  // ---------------------------------------------------------------------

  /** The property names routed to material setting, compared ignoring case. */
  predicate IsMaterialName(name: string) {
    Lower(name) in {"material", "setmaterial", "basematerial"}
  }

  /** The property names routed to static-mesh setting, compared ignoring case. */
  predicate IsMeshName(name: string) {
    Lower(name) in {"staticmesh", "mesh"}
  }

  /** Material setting: load the cleaned path (or its fallback), then require a mesh component. */
  function SetMaterial(req: Request, c: Component, engine: Engine, fallback: string -> string): (r: Reply)
    ensures r.Edited? <==> LoadWithFallback(engine, StripPathQuotes(req.value), "MaterialInterface", fallback).Some?
                            && (c.cls.StaticMeshComponent? || c.cls.SkeletalMeshComponent?)
    ensures r.Edited? ==> r.change.MaterialSet? && LoadsAs(engine, r.change.materialPath, "MaterialInterface")
    ensures r.Edited? ==> r.message == "Set material on " + req.componentName + " to " + req.value + " at index 0"
  {
    var clean := StripPathQuotes(req.value);
    match LoadWithFallback(engine, clean, "MaterialInterface", fallback)
    case None => Failed("Failed to load " + "material at " + "path: " + clean, None)
    case Some(path) =>
      if c.cls.StaticMeshComponent? || c.cls.SkeletalMeshComponent? then
        Edited("Set material on " + req.componentName + " to " + req.value + " at index 0", MaterialSet(path))
      else Failed(MaterialNeedsMesh, None)
  }

  /** Static-mesh setting: require a static-mesh component, then load the cleaned path or its fallback. */
  function SetStaticMesh(req: Request, c: Component, engine: Engine, fallback: string -> string): (r: Reply)
    ensures !c.cls.StaticMeshComponent? ==> r == Failed(MeshNeedsStaticMesh, None)
    ensures r.Edited? <==> c.cls.StaticMeshComponent? && LoadWithFallback(engine, StripPathQuotes(req.value), "StaticMesh", fallback).Some?
    ensures r.Edited? ==> r.change.StaticMeshSet? && LoadsAs(engine, r.change.meshPath, "StaticMesh")
  {
    if !c.cls.StaticMeshComponent? then Failed(MeshNeedsStaticMesh, None)
    else
      var clean := StripPathQuotes(req.value);
      match LoadWithFallback(engine, clean, "StaticMesh", fallback)
      case None => Failed("Failed to load " + "static mesh at " + "path: " + clean, None)
      case Some(path) => Edited("Set StaticMesh " + "of " + req.componentName + " to " + clean, StaticMeshSet(path))
  }

  /** The editor copy on a found component: material and mesh names first, then the reflected property. */
  function EditorEditComponent(req: Request, c: Component, engine: Engine, fallback: string -> string): (r: Reply)
    ensures IsMaterialName(req.propertyName) ==> r == SetMaterial(req, c, engine, fallback)
    ensures !IsMaterialName(req.propertyName) && IsMeshName(req.propertyName) ==> r == SetStaticMesh(req, c, engine, fallback)
    ensures !IsMaterialName(req.propertyName) && !IsMeshName(req.propertyName) ==>
              (r.Failed? && r.suggestions.Some? <==> FindProperty(c.properties, req.propertyName).None?)
    ensures !IsMaterialName(req.propertyName) && !IsMeshName(req.propertyName) && r.Edited? ==>
              r.change.PropertySet? && EqualsIgnoreCase(r.change.property, req.propertyName) && r.message == SetMessage(req)
  {
    if IsMaterialName(req.propertyName) then SetMaterial(req, c, engine, fallback)
    else if IsMeshName(req.propertyName) then SetStaticMesh(req, c, engine, fallback)
    else
      match FindProperty(c.properties, req.propertyName)
      case None => NotFoundReply(req, c)
      case Some(i) => PropertyReply(req, c.properties[i], EditorAssign(c.properties[i], req.value, engine, fallback))
  }

  /** `EditComponentProperty`, editor copy, for a given fallback rule. */
  function EditorEditWith(req: Request, world: Option<seq<Actor>>, engine: Engine, fallback: string -> string): (r: Reply)
    ensures req.isSceneActor && world.None? ==> r == Failed(NoWorld, None)
    ensures !req.isSceneActor && engine.loadBlueprint(req.blueprintPath).None? ==>
              r == Failed(BlueprintNotLoaded(req.blueprintPath), None)
    ensures r.Edited? && req.isSceneActor ==>
              exists a, c :: a in world.value && EqualsIgnoreCase(a.actorLabel, req.actorName)
                             && c in a.components && EqualsIgnoreCase(c.name, req.componentName)
                             && r == EditorEditComponent(req, c, engine, fallback)
    ensures r.Edited? && !req.isSceneActor ==>
              exists n :: n in engine.loadBlueprint(req.blueprintPath).value
                          && EqualsIgnoreCase(n.variableName, req.componentName) && n.template.Some?
                          && r == EditorEditComponent(req, n.template.value, engine, fallback)
  {
    var target := if req.isSceneActor then EditorSceneTarget(req, world) else BlueprintTarget(req, engine);
    match target
    case Failure(e) => Failed(e, None)
    case Success(c) => EditorEditComponent(req, c, engine, fallback)
  }

  /** `EditComponentProperty`, editor copy, as written: object paths fall back to `FallbackPathAsWritten`. */
  function EditorEdit(req: Request, world: Option<seq<Actor>>, engine: Engine): (r: Reply)
    ensures req.isSceneActor && world.None? ==> r == Failed(NoWorld, None)
    ensures !req.isSceneActor && engine.loadBlueprint(req.blueprintPath).None? ==>
              r == Failed(BlueprintNotLoaded(req.blueprintPath), None)
    ensures r.Edited? && req.isSceneActor ==>
              exists a, c :: a in world.value && EqualsIgnoreCase(a.actorLabel, req.actorName)
                             && c in a.components && EqualsIgnoreCase(c.name, req.componentName)
                             && r == EditorEditComponent(req, c, engine, FallbackPathAsWritten)
    ensures r.Edited? && !req.isSceneActor ==>
              exists n :: n in engine.loadBlueprint(req.blueprintPath).value
                          && EqualsIgnoreCase(n.variableName, req.componentName) && n.template.Some?
                          && r == EditorEditComponent(req, n.template.value, engine, FallbackPathAsWritten)
  {
    EditorEditWith(req, world, engine, FallbackPathAsWritten)
  }

  /** `EditComponentProperty`, editor copy, with the corrected fallback `Package.Asset`. */
  function EditorEditCorrected(req: Request, world: Option<seq<Actor>>, engine: Engine): (r: Reply)
    ensures req.isSceneActor && world.None? ==> r == Failed(NoWorld, None)
    ensures !req.isSceneActor && engine.loadBlueprint(req.blueprintPath).None? ==>
              r == Failed(BlueprintNotLoaded(req.blueprintPath), None)
    ensures r.Edited? && req.isSceneActor ==>
              exists a, c :: a in world.value && EqualsIgnoreCase(a.actorLabel, req.actorName)
                             && c in a.components && EqualsIgnoreCase(c.name, req.componentName)
                             && r == EditorEditComponent(req, c, engine, FallbackPath)
    ensures r.Edited? && !req.isSceneActor ==>
              exists n :: n in engine.loadBlueprint(req.blueprintPath).value
                          && EqualsIgnoreCase(n.variableName, req.componentName) && n.template.Some?
                          && r == EditorEditComponent(req, n.template.value, engine, FallbackPath)
  {
    EditorEditWith(req, world, engine, FallbackPath)
  }

  /**
   * A material stored as `dir/Name.Name` and given by its package path
   * `dir/Name`: the written fallback `dir/Name.dir/Name` misses it, the
   * corrected fallback sets it.
   */
  lemma MaterialFallbackMissesAsset(req: Request, c: Component, engine: Engine, dir: string, name: string)
    requires StripPathQuotes(req.value) == dir + "/" + name
    requires |name| > 0 && !IsDigit(name[|name| - 1]) && forall i :: 0 <= i < |name| ==> name[i] != '/'
    requires c.cls.StaticMeshComponent?
    requires !LoadsAs(engine, dir + "/" + name, "MaterialInterface")
    requires !LoadsAs(engine, dir + "/" + name + "." + dir + "/" + name, "MaterialInterface")
    requires LoadsAs(engine, dir + "/" + name + "." + name, "MaterialInterface")
    ensures SetMaterial(req, c, engine, FallbackPathAsWritten).Failed?
    ensures SetMaterial(req, c, engine, FallbackPath).Edited?
  {
    var p := dir + "/" + name;
    FallbackRepeatsPackagePath(dir, name);
    FallbackPathNamesTheAsset(dir, name);
    assert LoadWithFallback(engine, p, "MaterialInterface", FallbackPathAsWritten).None?;
    assert LoadWithFallback(engine, p, "MaterialInterface", FallbackPath).Some?;
  }

  /** The runtime copy on a found component: the reflected property only. */
  function RuntimeEditComponent(req: Request, c: Component, engine: Engine): (r: Reply)
    ensures r.Failed? && r.suggestions.Some? <==> FindProperty(c.properties, req.propertyName).None?
    ensures r.Edited? ==> r.change.PropertySet? && EqualsIgnoreCase(r.change.property, req.propertyName)
                          && r.message == SetMessage(req)
    ensures r.Failed? && r.suggestions.None? ==> r.error == FailedToSet(req)
  {
    match FindProperty(c.properties, req.propertyName)
    case None => NotFoundReply(req, c)
    case Some(i) => PropertyReply(req, c.properties[i], RuntimeAssign(c.properties[i], req.value, engine))
  }

  /** `EditComponentProperty`, runtime copy. */
  function RuntimeEdit(req: Request, world: Option<seq<Actor>>, engine: Engine): (r: Reply)
    ensures req.isSceneActor && world.None? ==> r == Failed(NoWorld, None)
    ensures r.Edited? && req.isSceneActor ==>
              exists a, c :: a in world.value && EqualsIgnoreCase(a.objectName, req.actorName)
                             && c in a.components && EqualsIgnoreCase(c.name, req.componentName)
                             && r == RuntimeEditComponent(req, c, engine)
  {
    var target := if req.isSceneActor then RuntimeSceneTarget(req, world) else BlueprintTarget(req, engine);
    match target
    case Failure(e) => Failed(e, None)
    case Success(c) => RuntimeEditComponent(req, c, engine)
  }

  /** Material names bypass the component's properties entirely, even one called `Material`. */
  lemma MaterialIgnoresProperties(req: Request, c: Component, props: seq<Property>, engine: Engine)
    requires IsMaterialName(req.propertyName)
    ensures EditorEditComponent(req, c, engine, FallbackPathAsWritten) == EditorEditComponent(req, c.(properties := props), engine, FallbackPathAsWritten)
  {
  }

  /** Material setting succeeds only on mesh components, whatever the path. */
  lemma MaterialNeedsMeshComponent(req: Request, c: Component, engine: Engine)
    requires IsMaterialName(req.propertyName) && c.cls.OtherComponent?
    ensures EditorEditComponent(req, c, engine, FallbackPathAsWritten).Failed?
  {
  }

  /** `Material`, `SETMATERIAL` and `BaseMaterial` all route to material setting. */
  lemma MaterialNamesIgnoreCase()
    ensures IsMaterialName("Material") && IsMaterialName("SETMATERIAL") && IsMaterialName("BaseMaterial")
    ensures !IsMaterialName("Materials")
  {
    assert Lower("Material") == "material";
    assert Lower("SETMATERIAL") == "setmaterial";
    assert Lower("BaseMaterial") == "basematerial";
    assert |Lower("Materials")| == 9;
  }
}
