/**
 * `Content/Python/handlers/actor_commands.py`: routing of `modify_object`
 * and the validation and result reading of `edit_component_property` and
 * `add_component_with_events`. The engine setters and the C++ calls are
 * inputs.
 */
module ActorCommands {
  import opened Wrappers
  import opened Json
  import Transport
  import Conversions

  /** The four `GenActorUtils` setters `modify_object` can reach. */
  datatype Setter = SetMaterial | SetPosition | SetRotation | SetScale

  /** What a setter is handed: a material path or the converted components. */
  datatype SetterArg = MaterialPath(path: Json) | Components(t: Conversions.Triple)

  /** The engine side: what each setter returns, or raises, for an actor and an argument. */
  type Engine = (Setter, Json, SetterArg) -> Transport.Outcome

  /** The setter a property type routes to; equality with a literal, so only exact strings route. */
  function RouteOf(propertyType: Json): Option<Setter> {
    if propertyType == JStr("material") then Some(SetMaterial)
    else if propertyType == JStr("position") then Some(SetPosition)
    else if propertyType == JStr("rotation") then Some(SetRotation)
    else if propertyType == JStr("scale") then Some(SetScale)
    else None
  }

  function SetterNoun(s: Setter): string {
    match s
    case SetMaterial => "material"
    case SetPosition => "position"
    case SetRotation => "rotation"
    case SetScale => "scale"
  }

  /** The argument a setter gets: the raw value, or its conversion (whose `ValueError` is reported). */
  function SetterInput(s: Setter, value: Json): Result<SetterArg, string> {
    match s
    case SetMaterial => Success(MaterialPath(value))
    case SetPosition =>
      var c := Conversions.ToVector(value);
      if c.Success? then Success(Components(c.value)) else Failure(c.error)
    case SetRotation =>
      var c := Conversions.ToRotator(value);
      if c.Success? then Success(Components(c.value)) else Failure(c.error)
    case SetScale =>
      var c := Conversions.ToVector(value);
      if c.Success? then Success(Components(c.value)) else Failure(c.error)
  }

  /** `value is None`: absent or JSON null. */
  predicate IsNone(cmd: Fields, key: string) {
    LookupOr(cmd, key, JNull) == JNull
  }

  /** `handle_modify_object`. */
  function ModifyObject(cmd: Fields, engine: Engine): (r: Json)
    ensures var name := LookupOr(cmd, "actor_name", JNull);
            var pt := LookupOr(cmd, "property_type", JNull);
            && (!Truthy(name) || !Truthy(pt) || IsNone(cmd, "value") ==>
                  IsFailureWith(r, "Missing required" + " parameters"))
            && (Truthy(name) && Truthy(pt) && !IsNone(cmd, "value") && RouteOf(pt).None? ==>
                  IsFailureWith(r, "Unknown property" + " type: " + PyStr(pt)))
            && (Truthy(name) && Truthy(pt) && !IsNone(cmd, "value") && RouteOf(pt).Some? ==>
                  var s := RouteOf(pt).value;
                  match SetterInput(s, LookupOr(cmd, "value", JNull))
                  case Failure(m) => IsFailureWith(r, m)
                  case Success(arg) =>
                    match engine(s, name, arg)
                    case Raised(m) => IsFailureWith(r, m)
                    case Returned(v) =>
                      if Truthy(v) then r == JObj([("success", JBool(true))])
                      else IsFailureWith(r, "Failed to set " + SetterNoun(s) + " for " + PyStr(name)))
  {
    var name := LookupOr(cmd, "actor_name", JNull);
    var pt := LookupOr(cmd, "property_type", JNull);
    if !Truthy(name) || !Truthy(pt) || IsNone(cmd, "value") then ErrorObj("Missing required" + " parameters")
    else
      match RouteOf(pt)
      case None => ErrorObj("Unknown property" + " type: " + PyStr(pt))
      case Some(s) =>
        match SetterInput(s, LookupOr(cmd, "value", JNull))
        case Failure(m) => ErrorObj(m)
        case Success(arg) =>
          match engine(s, name, arg)
          case Raised(m) => ErrorObj(m)
          case Returned(v) =>
            if Truthy(v) then JObj([("success", JBool(true))])
            else ErrorObj("Failed to set " + SetterNoun(s) + " for " + PyStr(name))
  }

  /**
   * Exactly one setter is consulted: two engines that agree on the routed
   * setter give the same reply, and an unknown property type consults none.
   */
  lemma ModifyObjectRoutesToOneSetter(cmd: Fields, e1: Engine, e2: Engine)
    requires var pt := LookupOr(cmd, "property_type", JNull);
             RouteOf(pt).None? || forall n, a :: e1(RouteOf(pt).value, n, a) == e2(RouteOf(pt).value, n, a)
    ensures ModifyObject(cmd, e1) == ModifyObject(cmd, e2)
  {
  }

  /** A zero value is present: only `None` counts as missing, so the setter is reached. */
  lemma ZeroValueIsPresent(cmd: Fields, engine: Engine)
    requires Lookup(cmd, "actor_name") == Some(JStr("Cube1")) && Lookup(cmd, "property_type") == Some(JStr("material"))
    requires Lookup(cmd, "value") == Some(JNum("0"))
    requires engine(SetMaterial, JStr("Cube1"), MaterialPath(JNum("0"))).Returned?
    ensures var v := engine(SetMaterial, JStr("Cube1"), MaterialPath(JNum("0"))).value;
            ModifyObject(cmd, engine)
            == if Truthy(v) then JObj([("success", JBool(true))])
               else ErrorObj("Failed to set " + SetterNoun(SetMaterial) + " for Cube1")
  {
    assert LookupOr(cmd, "actor_name", JNull) == JStr("Cube1");
    assert RouteOf(LookupOr(cmd, "property_type", JNull)) == Some(SetMaterial);
    assert SetterInput(SetMaterial, LookupOr(cmd, "value", JNull)) == Success(MaterialPath(JNum("0")));
    assert "Failed to set " + SetterNoun(SetMaterial) + " for " + PyStr(JStr("Cube1"))
        == "Failed to set " + SetterNoun(SetMaterial) + " for Cube1";
  }

  /** A position that is not three components is refused with the conversion's message. */
  lemma BadPositionReportsArity(cmd: Fields, engine: Engine)
    requires Truthy(LookupOr(cmd, "actor_name", JNull)) && Lookup(cmd, "property_type") == Some(JStr("position"))
    requires Lookup(cmd, "value") == Some(JArr([JNum("1"), JNum("2")]))
    ensures IsFailureWith(ModifyObject(cmd, engine), Conversions.VectorArity)
  {
  }

  // ---------------------------------------------------------------------
  // edit_component_property and add_component_with_events
  // ---------------------------------------------------------------------

  /** The message of `x["key"]` on a decoded value that is not a dict. */
  function StrIndexMessage(j: Json): string
    requires !j.JObj?
  {
    match j
    case JStr(_) => "string indices " + "must be integers" + ", not 'str'"
    case JArr(_) => "list indices " + "must be integers" + " or slices, not " + "str"
    case _ => "'" + PyTypeName(j) + "' object is not " + "subscriptable"
  }

  /**
   * Reading a C++ JSON result whose `success` field the handler logs:
   * `parsed["success"]` raises for anything but a dict holding that key.
   */
  function ReadLoggedResult(parsed: Json): (r: Result<Json, string>)
    ensures r.Success? <==> parsed.JObj? && HasKey(parsed.fields, "success")
    ensures r.Success? ==> r.value == parsed
  {
    if !parsed.JObj? then Failure(StrIndexMessage(parsed))
    else if Lookup(parsed.fields, "success").None? then Failure("'success'")
    else Success(parsed)
  }

  /** `handle_edit_component_property`. */
  function EditComponentProperty(cmd: Fields, call: Transport.Outcome, parse: Parser): (r: Json)
    ensures !TruthyField(cmd, "component_name") || !TruthyField(cmd, "property_name") || IsNone(cmd, "value") ==>
              IsFailureWith(r, "Missing required" + " parameters")
    ensures TruthyField(cmd, "component_name") && TruthyField(cmd, "property_name") && !IsNone(cmd, "value")
            && TruthyField(cmd, "is_scene_actor") && !TruthyField(cmd, "actor_name") ==>
              IsFailureWith(r, "Actor name " + "required for " + "scene actor")
    ensures (TruthyField(cmd, "component_name") && TruthyField(cmd, "property_name") && !IsNone(cmd, "value")
             && (TruthyField(cmd, "is_scene_actor") ==> TruthyField(cmd, "actor_name"))
             && call.Returned? && call.value.JStr?) ==>
              match parse(call.value.s)
              case DecodeError(_) => IsFailureWith(r, "Invalid response" + " format: " + call.value.s)
              case Parsed(v) =>
                if v.JObj? && HasKey(v.fields, "success") then r == v else !Succeeded(r)
  {
    if !TruthyField(cmd, "component_name") || !TruthyField(cmd, "property_name") || IsNone(cmd, "value") then
      ErrorObj("Missing required" + " parameters")
    else if TruthyField(cmd, "is_scene_actor") && !TruthyField(cmd, "actor_name") then
      ErrorObj("Actor name " + "required for " + "scene actor")
    else
      match call
      case Raised(m) => ErrorObj(m)
      case Returned(result) =>
        if result.JStr? && parse(result.s).DecodeError? then ErrorObj("Invalid response" + " format: " + result.s)
        else
          match Loads(result, parse)
          case Failure(m) => ErrorObj(m)
          case Success(v) =>
            match ReadLoggedResult(v)
            case Failure(m) => ErrorObj(m)
            case Success(d) => d
  }

  /** `handle_add_component_with_events`: here a decode error is not caught locally. */
  function AddComponentWithEvents(cmd: Fields, call: Transport.Outcome, parse: Parser): (r: Json)
    ensures (!TruthyField(cmd, "blueprint_path") || !TruthyField(cmd, "component_name")
             || !TruthyField(cmd, "component_class")) ==> IsFailureWith(r, "Missing required" + " parameters")
    ensures (TruthyField(cmd, "blueprint_path") && TruthyField(cmd, "component_name")
             && TruthyField(cmd, "component_class") && call.Returned? && call.value.JStr?) ==>
              match parse(call.value.s)
              case DecodeError(m) => IsFailureWith(r, m)
              case Parsed(v) =>
                if v.JObj? && HasKey(v.fields, "success") then r == v else !Succeeded(r)
  {
    if !TruthyField(cmd, "blueprint_path") || !TruthyField(cmd, "component_name")
       || !TruthyField(cmd, "component_class") then
      ErrorObj("Missing required" + " parameters")
    else
      match call
      case Raised(m) => ErrorObj(m)
      case Returned(result) =>
        match Loads(result, parse)
        case Failure(m) => ErrorObj(m)
        case Success(v) =>
          match ReadLoggedResult(v)
          case Failure(m) => ErrorObj(m)
          case Success(d) => d
  }
}
