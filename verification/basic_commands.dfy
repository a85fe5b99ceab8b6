/**
 * `Content/Python/handlers/basic_commands.py`: how `spawn` classifies what to
 * spawn and fills in defaults, and the paths `create_material`,
 * `create_project_folder` and `get_files_in_folder` build. The engine calls
 * are inputs.
 */
module BasicCommands {
  import opened Wrappers
  import opened Text
  import opened Json
  import Conversions

  /** Which `GenActorUtils` spawner `handle_spawn` uses. */
  datatype SpawnKind = StaticMeshAt(path: string) | ClassNamed(name: string) | BasicShape(shape: string)

  /** One spawner call: what to spawn, the converted transform and the label. */
  datatype SpawnCall = SpawnCall(
    kind: SpawnKind,
    location: Conversions.Triple,
    rotation: Conversions.Triple,
    scale: Conversions.Triple,
    actorLabel: Json)

  /** The `shape_map` of `handle_spawn`, keyed by lower-case name. */
  function ShapeName(lower: string): (r: Option<string>)
    ensures r.Some? <==> lower in {"cube", "sphere", "cylinder", "cone"}
    ensures r.Some? ==> Lower(r.value) == lower
  {
    assert Lower("Cube") == "cube";
    assert Lower("Sphere") == "sphere";
    assert Lower("Cylinder") == "cylinder";
    assert Lower("Cone") == "cone";
    match lower
    case "cube" => Some("Cube")
    case "sphere" => Some("Sphere")
    case "cylinder" => Some("Cylinder")
    case "cone" => Some("Cone")
    case _ => None
  }

  /** A `/Game` path with a dot, which `handle_spawn` first tries as a static mesh. */
  predicate IsMeshPath(className: string) {
    StartsWith(className, "/Game") && Contains(className, ".")
  }

  /**
   * The spawner for a class name. `isStaticMesh` says whether
   * `unreal.load_object` yields a static mesh for a path.
   */
  function SpawnKindOf(className: string, isStaticMesh: string -> bool): (k: SpawnKind)
    ensures IsMeshPath(className) ==> k == (if isStaticMesh(className) then StaticMeshAt(className) else ClassNamed(className))
    ensures !IsMeshPath(className) ==>
              (k.BasicShape? <==> Lower(className) in {"cube", "sphere", "cylinder", "cone"})
    ensures k.BasicShape? ==> Lower(k.shape) == Lower(className)
    ensures k.ClassNamed? ==> k.name == className
  {
    if IsMeshPath(className) then
      if isStaticMesh(className) then StaticMeshAt(className) else ClassNamed(className)
    else
      match ShapeName(Lower(className))
      case Some(p) =>
        LowerIsLowerCase(className);
        BasicShape(p)
      case None => ClassNamed(className)
  }

  /** A name that does not begin with `/` is never tried as a mesh path. */
  lemma NoSlashIsNoMeshPath(className: string)
    requires |className| > 0 && className[0] != '/'
    ensures !IsMeshPath(className)
  {
    if |className| >= 5 {
      assert className[..5][0] == className[0];
    }
  }

  /** Shape names are matched ignoring case and spawned under their proper spelling. */
  lemma ShapesIgnoreCase(isStaticMesh: string -> bool)
    ensures SpawnKindOf("CUBE", isStaticMesh) == BasicShape("Cube")
    ensures SpawnKindOf("sPhErE", isStaticMesh) == BasicShape("Sphere")
    ensures SpawnKindOf("Pyramid", isStaticMesh) == ClassNamed("Pyramid")
  {
    NoSlashIsNoMeshPath("CUBE");
    NoSlashIsNoMeshPath("sPhErE");
    NoSlashIsNoMeshPath("Pyramid");
    assert Lower("CUBE") == "cube";
    assert Lower("sPhErE") == "sphere";
    assert Lower("Pyramid") == "pyramid";
  }

  const Zeros := JArr([JNum("0"), JNum("0"), JNum("0")])
  const Ones := JArr([JNum("1"), JNum("1"), JNum("1")])

  /** `handle_spawn`. `spawner` returns the spawned actor's label, or nothing when spawning failed. */
  function Spawn(cmd: Fields, isStaticMesh: string -> bool, spawner: SpawnCall -> Option<string>): (r: Json)
    ensures var loc := Conversions.ToVector(LookupOr(cmd, "location", Zeros));
            var rot := Conversions.ToRotator(LookupOr(cmd, "rotation", Zeros));
            var scale := Conversions.ToVector(LookupOr(cmd, "scale", Ones));
            var c := LookupOr(cmd, "actor_class", JStr("Cube"));
            var lbl := LookupOr(cmd, "actor_label", JNull);
            && (loc.Failure? ==> IsFailureWith(r, loc.error))
            && (loc.Success? && rot.Failure? ==> IsFailureWith(r, rot.error))
            && (loc.Success? && rot.Success? && scale.Failure? ==> IsFailureWith(r, scale.error))
            && (loc.Success? && rot.Success? && scale.Success? && c.JStr? ==>
                  var call := SpawnCall(SpawnKindOf(c.s, isStaticMesh), loc.value, rot.value, scale.value,
                                        if Truthy(lbl) then lbl else JStr(""));
                  match spawner(call)
                  case None => IsFailureWith(r, "Failed to spawn " + "actor of type " + c.s)
                  case Some(name) => r == JObj([("success", JBool(true)), ("actor_name", JStr(name))]))
  {
    var loc := Conversions.ToVector(LookupOr(cmd, "location", Zeros));
    var rot := Conversions.ToRotator(LookupOr(cmd, "rotation", Zeros));
    var scale := Conversions.ToVector(LookupOr(cmd, "scale", Ones));
    var c := LookupOr(cmd, "actor_class", JStr("Cube"));
    var lbl := LookupOr(cmd, "actor_label", JNull);
    if loc.Failure? then ErrorObj(loc.error)
    else if rot.Failure? then ErrorObj(rot.error)
    else if scale.Failure? then ErrorObj(scale.error)
    else if !c.JStr? then ErrorObj(NoAttributeMessage(c, "startswith"))
    else
      var call := SpawnCall(SpawnKindOf(c.s, isStaticMesh), loc.value, rot.value, scale.value,
                            if Truthy(lbl) then lbl else JStr(""));
      match spawner(call)
      case None => ErrorObj("Failed to spawn " + "actor of type " + c.s)
      case Some(name) => JObj([("success", JBool(true)), ("actor_name", JStr(name))])
  }

  /** With no parameters, a unit cube is spawned at the origin without rotation and with an empty label. */
  lemma SpawnDefaults(isStaticMesh: string -> bool, spawner: SpawnCall -> Option<string>)
    ensures var zero := Conversions.Triple(JNum("0"), JNum("0"), JNum("0"));
            var one := Conversions.Triple(JNum("1"), JNum("1"), JNum("1"));
            var call := SpawnCall(BasicShape("Cube"), zero, zero, one, JStr(""));
            Spawn([], isStaticMesh, spawner)
            == match spawner(call)
               case None => ErrorObj("Failed to spawn " + "actor of type " + "Cube")
               case Some(name) => JObj([("success", JBool(true)), ("actor_name", JStr(name))])
  {
    var zero := Conversions.Triple(JNum("0"), JNum("0"), JNum("0"));
    var one := Conversions.Triple(JNum("1"), JNum("1"), JNum("1"));
    assert Conversions.ToVector(LookupOr([], "location", Zeros)) == Success(zero);
    assert Conversions.ToRotator(LookupOr([], "rotation", Zeros)) == Success(zero);
    assert Conversions.ToVector(LookupOr([], "scale", Ones)) == Success(one);
    assert LookupOr([], "actor_class", JStr("Cube")) == JStr("Cube");
    assert !Truthy(LookupOr([], "actor_label", JNull));
    NoSlashIsNoMeshPath("Cube");
    assert Lower("Cube") == "cube";
    assert SpawnKindOf("Cube", isStaticMesh) == BasicShape("Cube");
    var call := SpawnCall(BasicShape("Cube"), zero, zero, one, JStr(""));
    match spawner(call)
    case None =>
      assert Spawn([], isStaticMesh, spawner) == ErrorObj("Failed to spawn " + "actor of type " + "Cube");
      assert "Failed to spawn " + "actor of type " + "Cube" == "Failed to spawn " + "actor of type " + "Cube";
    case Some(name) =>
  }

  // ---------------------------------------------------------------------
  // Materials and folders
  // ---------------------------------------------------------------------

  const Red := JArr([JNum("1"), JNum("0"), JNum("0")])

  /** `handle_create_material`; `create` says whether `GenActorUtils.create_material` produced a material. */
  function CreateMaterial(cmd: Fields, create: (Json, Conversions.Rgba) -> bool): (r: Json)
    ensures var color := Conversions.ToColor(LookupOr(cmd, "color", Red));
            var name := LookupOr(cmd, "material_name", JStr("NewMaterial"));
            && (color.Failure? ==> IsFailureWith(r, color.error))
            && (color.Success? && !create(name, color.value) ==> IsFailureWith(r, "Failed to " + "create material"))
            && (color.Success? && create(name, color.value) ==>
                  r == JObj([("success", JBool(true)), ("material_path", JStr("/Game/Materials/" + PyStr(name)))]))
  {
    var color := Conversions.ToColor(LookupOr(cmd, "color", Red));
    var name := LookupOr(cmd, "material_name", JStr("NewMaterial"));
    if color.Failure? then ErrorObj(color.error)
    else if !create(name, color.value) then ErrorObj("Failed to " + "create material")
    else JObj([("success", JBool(true)), ("material_path", JStr("/Game/Materials/" + PyStr(name)))])
  }

  /** The default material is opaque red and lands under `/Game/Materials/NewMaterial`. */
  lemma CreateMaterialDefaults(create: (Json, Conversions.Rgba) -> bool)
    requires create(JStr("NewMaterial"), Conversions.Rgba(JNum("1"), JNum("0"), JNum("0"), Conversions.DefaultAlpha))
    ensures CreateMaterial([], create)
            == JObj([("success", JBool(true)), ("material_path", JStr("/Game/Materials/NewMaterial"))])
  {
    assert "/Game/Materials/" + "NewMaterial" == "/Game/Materials/NewMaterial";
  }

  /** The content path both folder handlers build: `/Game/` and the value as `str()` prints it. */
  function FolderPath(cmd: Fields): (p: string)
    ensures StartsWith(p, "/Game/")
    ensures Lookup(cmd, "folder_path") == None ==> p == "/Game/None"
  {
    var p := "/Game/" + PyStr(LookupOr(cmd, "folder_path", JNull));
    assert p[..6] == "/Game/";
    p
  }

  /** `handle_create_project_folder`; `makeError` is what `make_directory` raised, if anything. */
  function CreateProjectFolder(cmd: Fields, makeError: Option<string>): (r: Json)
    ensures makeError.Some? ==> IsFailureWith(r, makeError.value)
    ensures makeError.None? ==>
              r == JObj([("success", JBool(true)), ("message", JStr("Created folder " + "at " + FolderPath(cmd)))])
  {
    if makeError.Some? then ErrorObj(makeError.value)
    else JObj([("success", JBool(true)), ("message", JStr("Created folder " + "at " + FolderPath(cmd)))])
  }

  /** `[str(f) for f in files]`: each asset path as a JSON string, in order. */
  function Strings(xs: seq<string>): (r: seq<Json>)
    ensures |r| == |xs|
    ensures forall i :: 0 <= i < |xs| ==> r[i] == JStr(xs[i])
  {
    if xs == [] then [] else [JStr(xs[0])] + Strings(xs[1..])
  }

  /** `handle_get_files_in_folder`; `list` is what `list_assets` returns for a path. */
  function GetFilesInFolder(cmd: Fields, list: string -> seq<string>): (r: Json)
    ensures r.JObj? && Lookup(r.fields, "success") == Some(JBool(true))
    ensures var listed := LookupOr(r.fields, "files", JNull);
            listed.JArr? && |listed.items| == |list(FolderPath(cmd))|
            && forall i :: 0 <= i < |listed.items| ==> listed.items[i] == JStr(list(FolderPath(cmd))[i])
  {
    JObj([("success", JBool(true)), ("files", JArr(Strings(list(FolderPath(cmd)))))])
  }

  /** Without a `folder_path`, both handlers act on the literal folder `/Game/None`. */
  lemma MissingFolderIsNone(cmd: Fields)
    requires Lookup(cmd, "folder_path") == None
    ensures CreateProjectFolder(cmd, None)
            == JObj([("success", JBool(true)), ("message", JStr("Created folder " + "at /Game/None"))])
  {
    assert "Created folder " + "at " + "/Game/None" == "Created folder " + "at /Game/None";
  }

  // ---------------------------------------------------------------------
  // Scene listing and input bindings
  // ---------------------------------------------------------------------

  /** What `get_all_scene_objects` reads from one actor. */
  datatype ActorInfo = ActorInfo(name: string, className: string, x: Json, y: Json, z: Json)

  function ActorEntry(a: ActorInfo): (r: Json)
    ensures r.JObj?
    ensures Lookup(r.fields, "name") == Some(JStr(a.name)) && Lookup(r.fields, "class") == Some(JStr(a.className))
  {
    var two := [("name", JStr(a.name)), ("class", JStr(a.className))];
    var loc := ("location", JArr([a.x, a.y, a.z]));
    LookupSnoc(two, loc, "name");
    LookupSnoc(two, loc, "class");
    LookupSnoc([("name", JStr(a.name))], ("class", JStr(a.className)), "name");
    assert two + [loc] == [("name", JStr(a.name)), ("class", JStr(a.className)), ("location", JArr([a.x, a.y, a.z]))];
    JObj(two + [loc])
  }

  function ActorEntries(actors: seq<ActorInfo>): (r: seq<Json>)
    ensures |r| == |actors|
    ensures forall i :: 0 <= i < |actors| ==> r[i] == ActorEntry(actors[i])
  {
    if actors == [] then [] else [ActorEntry(actors[0])] + ActorEntries(actors[1..])
  }

  /** `handle_get_all_scene_objects`: one entry per actor, in the engine's order. */
  function GetAllSceneObjects(actors: seq<ActorInfo>): (r: Json)
    ensures r.JObj? && Lookup(r.fields, "success") == Some(JBool(true))
    ensures var listed := LookupOr(r.fields, "actors", JNull);
            listed.JArr? && |listed.items| == |actors|
            && forall i :: 0 <= i < |actors| ==>
                 listed.items[i].JObj?
                 && LookupOr(listed.items[i].fields, "name", JNull) == JStr(actors[i].name)
                 && LookupOr(listed.items[i].fields, "class", JNull) == JStr(actors[i].className)
  {
    JObj([("success", JBool(true)), ("actors", JArr(ActorEntries(actors)))])
  }

  /** `handle_add_input_binding`; `engineError` is what the input settings raised, if anything. */
  function AddInputBinding(cmd: Fields, engineError: Option<string>): (r: Json)
    ensures engineError.Some? ==> IsFailureWith(r, engineError.value)
    ensures engineError.None? ==> r == JObj([("success", JBool(true)), ("message", JStr(
              "Added input " + "binding " + PyStr(LookupOr(cmd, "action_name", JNull)) + " -> "
              + PyStr(LookupOr(cmd, "key", JNull))))])
  {
    if engineError.Some? then ErrorObj(engineError.value)
    else
      JObj([("success", JBool(true)), ("message", JStr(
        "Added input " + "binding " + PyStr(LookupOr(cmd, "action_name", JNull)) + " -> "
        + PyStr(LookupOr(cmd, "key", JNull))))])
  }
}
