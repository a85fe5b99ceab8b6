/**
 * Unreal's `FJsonObject`, as the chat clients read replies through it.
 * Field names are `FString` map keys, so a lookup ignores case, and a name
 * that occurs twice in the text keeps the value parsed last. The typed
 * getters are lenient: `GetStringField`, `GetArrayField` and
 * `GetObjectField` read a missing or mistyped field as an empty string,
 * array or object, while the `TryGet` forms report the mismatch.
 * Numbers keep their text, as in the Json module.
 */
module UeJson {
  import opened Wrappers
  import opened Text
  import opened Json

  /** `FJsonObject::Values.Find`: the value of the last field whose name equals `key` ignoring case. */
  function GetField(fields: Fields, key: string): (r: Option<Json>)
    ensures r.Some? <==> exists k :: 0 <= k < |fields| && EqualsIgnoreCase(fields[k].0, key)
    ensures r.Some? ==> exists k :: 0 <= k < |fields| && EqualsIgnoreCase(fields[k].0, key) && fields[k].1 == r.value
    decreases |fields|
  {
    if |fields| == 0 then None
    else
      var last := fields[|fields| - 1];
      if EqualsIgnoreCase(last.0, key) then
        Some(last.1)
      else
        var r := GetField(fields[..|fields| - 1], key);
        assert forall k :: 0 <= k < |fields| - 1 ==> fields[..|fields| - 1][k] == fields[k];
        r
  }

  /** `HasField`: also true for a field whose value is JSON `null`. */
  predicate HasField(fields: Fields, key: string) {
    GetField(fields, key).Some?
  }

  /** Two spellings of a name that differ only in case find the same field. */
  lemma {:induction false} GetFieldIgnoresCase(fields: Fields, a: string, b: string)
    requires EqualsIgnoreCase(a, b)
    ensures GetField(fields, a) == GetField(fields, b)
    decreases |fields|
  {
    if |fields| > 0 {
      GetFieldIgnoresCase(fields[..|fields| - 1], a, b);
    }
  }

  /** A field appended at the end hides every earlier field of the same name. */
  lemma GetFieldLastWins(fields: Fields, name: string, v: Json, key: string)
    requires EqualsIgnoreCase(name, key)
    ensures GetField(fields + [(name, v)], key) == Some(v)
  {
  }

  /** On lower-case names the lenient lookup is the exact lookup of the Json module. */
  lemma {:induction false} GetFieldOfLowerCase(fields: Fields, key: string)
    requires IsLowerCase(key)
    requires forall k :: 0 <= k < |fields| ==> IsLowerCase(fields[k].0)
    ensures GetField(fields, key) == Lookup(fields, key)
    decreases |fields|
  {
    if |fields| > 0 {
      var init := fields[..|fields| - 1];
      var last := fields[|fields| - 1];
      LowerOfLowerCase(key);
      LowerOfLowerCase(last.0);
      assert EqualsIgnoreCase(last.0, key) <==> last.0 == key;
      assert forall k :: 0 <= k < |init| ==> init[k] == fields[k];
      GetFieldOfLowerCase(init, key);
    }
  }

  /** `FJsonValue::TryGetString`: strings, numbers (their text) and booleans read as text. */
  function TryGetString(j: Json): (r: Option<string>)
    ensures r.None? <==> j.JNull? || j.JArr? || j.JObj?
    ensures j.JStr? ==> r == Some(j.s)
  {
    match j
    case JStr(s) => Some(s)
    case JNum(repr) => Some(repr)
    case JBool(b) => Some(if b then "true" else "false")
    case _ => None
  }

  /** `FJsonValue::AsString`: the text, or `""` for null, arrays and objects. */
  function AsString(j: Json): (r: string)
    ensures TryGetString(j).Some? ==> r == TryGetString(j).value
    ensures TryGetString(j).None? ==> r == ""
  {
    match TryGetString(j)
    case Some(s) => s
    case None => ""
  }

  /** `TryGetStringField`. */
  function TryGetStringField(fields: Fields, key: string): (r: Option<string>)
    ensures r.Some? ==> HasField(fields, key)
    ensures HasField(fields, key) ==> r == TryGetString(GetField(fields, key).value)
  {
    match GetField(fields, key)
    case None => None
    case Some(v) => TryGetString(v)
  }

  /** `GetStringField`: what `TryGetStringField` finds, otherwise `""`. */
  function GetStringField(fields: Fields, key: string): (r: string)
    ensures TryGetStringField(fields, key).Some? ==> r == TryGetStringField(fields, key).value
    ensures TryGetStringField(fields, key).None? ==> r == ""
  {
    match GetField(fields, key)
    case None => ""
    case Some(v) => AsString(v)
  }

  /** `FJsonValue::TryGetArray`. */
  function TryGetArray(j: Json): (r: Option<seq<Json>>)
    ensures r.Some? <==> j.JArr?
    ensures r.Some? ==> r.value == j.items
  {
    if j.JArr? then Some(j.items) else None
  }

  /** `TryGetArrayField`. */
  function TryGetArrayField(fields: Fields, key: string): (r: Option<seq<Json>>)
    ensures r.Some? <==> HasField(fields, key) && GetField(fields, key).value.JArr?
    ensures r.Some? ==> r.value == GetField(fields, key).value.items
  {
    match GetField(fields, key)
    case None => None
    case Some(v) => TryGetArray(v)
  }

  /** `GetArrayField`: the array, or an empty one when the field is missing or not an array. */
  function GetArrayField(fields: Fields, key: string): (r: seq<Json>)
    ensures TryGetArrayField(fields, key).Some? ==> r == TryGetArrayField(fields, key).value
    ensures TryGetArrayField(fields, key).None? ==> r == []
  {
    match TryGetArrayField(fields, key)
    case Some(items) => items
    case None => []
  }

  /** `FJsonValue::TryGetObject`. */
  function TryGetObject(j: Json): (r: Option<Fields>)
    ensures r.Some? <==> j.JObj?
    ensures r.Some? ==> r.value == j.fields
  {
    if j.JObj? then Some(j.fields) else None
  }

  /** `FJsonValue::AsObject`: the object, or a valid empty object for any other value. */
  function AsObject(j: Json): (r: Fields)
    ensures j.JObj? ==> r == j.fields
    ensures !j.JObj? ==> r == []
  {
    if j.JObj? then j.fields else []
  }

  /** `TryGetObjectField`. */
  function TryGetObjectField(fields: Fields, key: string): (r: Option<Fields>)
    ensures r.Some? <==> HasField(fields, key) && GetField(fields, key).value.JObj?
    ensures r.Some? ==> r.value == GetField(fields, key).value.fields
  {
    match GetField(fields, key)
    case None => None
    case Some(v) => TryGetObject(v)
  }

  /** `GetObjectField`: the object, or a valid empty object when the field is missing or not an object. */
  function GetObjectField(fields: Fields, key: string): (r: Fields)
    ensures TryGetObjectField(fields, key).Some? ==> r == TryGetObjectField(fields, key).value
    ensures TryGetObjectField(fields, key).None? ==> r == []
  {
    match TryGetObjectField(fields, key)
    case Some(f) => f
    case None => []
  }

  /** An empty object has no fields, so every lenient getter on it reads empty. */
  lemma EmptyObjectReadsEmpty(key: string)
    ensures !HasField([], key)
    ensures GetStringField([], key) == "" && GetArrayField([], key) == [] && GetObjectField([], key) == []
  {
  }

  /** The text parser, outside the model: the JSON value a text denotes, if it is well formed. */
  type JsonReader = string -> Option<Json>

  /** `FJsonSerializer::Deserialize` into an `FJsonObject`: only a well-formed object at the top level succeeds. */
  function DeserializeObject(raw: string, parse: JsonReader): (r: Option<Fields>)
    ensures r.Some? <==> parse(raw).Some? && parse(raw).value.JObj?
    ensures r.Some? ==> r.value == parse(raw).value.fields
  {
    match parse(raw)
    case Some(JObj(fields)) => Some(fields)
    case _ => None
  }
}
