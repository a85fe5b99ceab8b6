/**
 * The JSON values that cross the socket and the Python values `json.loads`
 * turns them into. Numbers are kept as their Python `repr` text: nothing in
 * the plugin does arithmetic on them. Objects keep their keys in order, as
 * Python dicts do; a lookup finds the last binding, as `json.loads` keeps
 * the last of duplicate keys.
 */
module Json {
  import opened Wrappers
  import opened Text

  datatype Json =
    | JNull
    | JBool(b: bool)
    | JNum(repr: string)
    | JStr(s: string)
    | JArr(items: seq<Json>)
    | JObj(fields: seq<(string, Json)>)

  /** A decoded command or response: the fields of a JSON object. */
  type Fields = seq<(string, Json)>

  /** `d.get(key)` on a dict: the value of the last binding of `key`. */
  function Lookup(fields: Fields, key: string): (r: Option<Json>)
    ensures r.Some? <==> exists k :: 0 <= k < |fields| && fields[k].0 == key
    ensures r.Some? ==> exists k :: 0 <= k < |fields| && fields[k] == (key, r.value)
    decreases |fields|
  {
    if |fields| == 0 then None
    else
      var last := fields[|fields| - 1];
      if last.0 == key then
        Some(last.1)
      else
        var r := Lookup(fields[..|fields| - 1], key);
        assert forall k :: 0 <= k < |fields| - 1 ==> fields[..|fields| - 1][k] == fields[k];
        r
  }

  /** `key in d`. */
  predicate HasKey(fields: Fields, key: string) {
    exists k :: 0 <= k < |fields| && fields[k].0 == key
  }

  /** Every binding of `key` rebound to `v`, in place. */
  function Rebind(fields: Fields, key: string, v: Json): (r: Fields)
    ensures |r| == |fields|
    ensures forall k :: 0 <= k < |r| ==> r[k].0 == fields[k].0
    ensures forall k :: 0 <= k < |r| && fields[k].0 != key ==> r[k] == fields[k]
    ensures forall k :: 0 <= k < |r| && fields[k].0 == key ==> r[k] == (key, v)
    decreases |fields|
  {
    if |fields| == 0 then []
    else
      var last := fields[|fields| - 1];
      Rebind(fields[..|fields| - 1], key, v) + [if last.0 == key then (key, v) else last]
  }

  /** Looking a key up in a prefix extended by one binding. */
  lemma LookupSnoc(fields: Fields, b: (string, Json), key: string)
    ensures Lookup(fields + [b], key) == if b.0 == key then Some(b.1) else Lookup(fields, key)
  {
    assert (fields + [b])[..|fields|] == fields;
  }

  /** Two sequences of bindings with the same keys and the same bindings off `key` agree off `key`. */
  lemma {:induction false} LookupAgreesOff(a: Fields, b: Fields, key: string, other: string)
    requires |a| == |b| && other != key
    requires forall k :: 0 <= k < |a| ==> a[k].0 == b[k].0
    requires forall k :: 0 <= k < |a| && a[k].0 != key ==> a[k] == b[k]
    ensures Lookup(a, other) == Lookup(b, other)
    decreases |a|
  {
    if |a| > 0 {
      var n := |a| - 1;
      LookupAgreesOff(a[..n], b[..n], key, other);
    }
  }

  /** `d[key] = v` on a dict: an existing key keeps its place, a new one goes last. */
  function Assign(fields: Fields, key: string, v: Json): (r: Fields)
    ensures Lookup(r, key) == Some(v)
    ensures HasKey(fields, key) ==> |r| == |fields|
    ensures !HasKey(fields, key) ==> |r| == |fields| + 1
    ensures forall k :: 0 <= k < |r| ==> HasKey(fields, r[k].0) || r[k].0 == key
    ensures forall k :: 0 <= k < |fields| ==> HasKey(r, fields[k].0)
  {
    if HasKey(fields, key) then
      var r := Rebind(fields, key, v);
      var k :| 0 <= k < |fields| && fields[k].0 == key;
      assert r[k] == (key, v);
      assert forall j :: 0 <= j < |fields| ==> r[j].0 == fields[j].0;
      r
    else
      LookupSnoc(fields, (key, v), key);
      var r := fields + [(key, v)];
      assert forall j :: 0 <= j < |fields| ==> r[j] == fields[j];
      r
  }

  /** Assigning one key leaves every other key's value alone. */
  lemma AssignKeepsOthers(fields: Fields, key: string, v: Json, other: string)
    requires other != key
    ensures Lookup(Assign(fields, key, v), other) == Lookup(fields, other)
  {
    if HasKey(fields, key) {
      LookupAgreesOff(fields, Rebind(fields, key, v), key, other);
    } else {
      LookupSnoc(fields, (key, v), other);
    }
  }

  /** `d.get(key, default)`. */
  function LookupOr(fields: Fields, key: string, default: Json): Json {
    Lookup(fields, key).GetOr(default)
  }

  /** The value of `key` when it is present and a string. */
  function LookupStr(fields: Fields, key: string): Option<string> {
    match Lookup(fields, key)
    case Some(JStr(s)) => Some(s)
    case _ => None
  }

  /** Field lookup on any JSON value; non-objects have no fields. */
  function Field(j: Json, key: string): Option<Json> {
    if j.JObj? then Lookup(j.fields, key) else None
  }

  /** Numbers that Python considers false: the int and the float zero. */
  predicate IsZeroRepr(repr: string) {
    repr == "0" || repr == "0.0" || repr == "-0.0"
  }

  /** Python truthiness of a decoded JSON value. */
  predicate Truthy(j: Json) {
    match j
    case JNull => false
    case JBool(b) => b
    case JNum(repr) => !IsZeroRepr(repr)
    case JStr(s) => s != ""
    case JArr(items) => items != []
    case JObj(fields) => fields != []
  }

  /** `bool(d.get(key))`: a missing key is falsy. */
  predicate TruthyField(fields: Fields, key: string) {
    match Lookup(fields, key)
    case None => false
    case Some(v) => Truthy(v)
  }

  /** Only strings, numbers, booleans and `None` can be dict keys in Python. */
  predicate Hashable(j: Json) {
    !j.JArr? && !j.JObj?
  }

  /**
   * Python `str(value)` as used by f-strings. Strings inside containers are
   * rendered between single quotes without escaping.
   */
  function PyStr(j: Json): string
    decreases j, 1
  {
    match j
    case JNull => "None"
    case JBool(b) => if b then "True" else "False"
    case JNum(repr) => repr
    case JStr(s) => s
    case JArr(items) => "[" + ReprItems(j, items) + "]"
    case JObj(fields) => "{" + ReprFields(j, fields) + "}"
  }

  function Repr(j: Json): string
    decreases j, 2
  {
    if j.JStr? then "'" + j.s + "'" else PyStr(j)
  }

  function ReprItems(parent: Json, items: seq<Json>): string
    requires forall k :: 0 <= k < |items| ==> items[k] < parent
    decreases parent, 0, |items|
  {
    if |items| == 0 then ""
    else if |items| == 1 then Repr(items[0])
    else Repr(items[0]) + ", " + ReprItems(parent, items[1..])
  }

  function ReprFields(parent: Json, fields: Fields): string
    requires forall k :: 0 <= k < |fields| ==> fields[k].1 < parent
    decreases parent, 0, |fields|
  {
    if |fields| == 0 then ""
    else
      var head := "'" + fields[0].0 + "': " + Repr(fields[0].1);
      if |fields| == 1 then head else head + ", " + ReprFields(parent, fields[1..])
  }

  /** The Python type name of a decoded value, as attribute errors report it. */
  function PyTypeName(j: Json): string {
    match j
    case JNull => "NoneType"
    case JBool(_) => "bool"
    case JNum(r) => if Contains(r, ".") || Contains(r, "e") || Contains(r, "n") then "float" else "int"
    case JStr(_) => "str"
    case JArr(_) => "list"
    case JObj(_) => "dict"
  }

  /** The message of the `AttributeError` raised by `x.attr` when `x` lacks it. */
  function NoAttributeMessage(j: Json, attr: string): string {
    "'" + PyTypeName(j) + "' object has no " + "attribute '" + attr + "'"
  }

  /** The message of `x.get(...)` on a value that is not a dict. */
  function NoGetMessage(j: Json): string {
    NoAttributeMessage(j, "get")
  }

  /** `json.loads` on text: a value or a `JSONDecodeError` message. JSON text parsing itself is an oracle. */
  datatype ParseOutcome = Parsed(value: Json) | DecodeError(message: string)

  type Parser = string -> ParseOutcome

  const NotText := "the JSON object " + "must be str, " + "bytes or " + "bytearray, not "

  /** `json.loads(value)`: only text can be decoded; anything else is a `TypeError`. */
  function Loads(value: Json, parse: Parser): (r: Result<Json, string>)
    ensures !value.JStr? ==> r == Failure(NotText + PyTypeName(value))
  {
    if !value.JStr? then Failure(NotText + PyTypeName(value))
    else
      match parse(value.s)
      case Parsed(v) => Success(v)
      case DecodeError(m) => Failure(m)
  }

  /** The `{"success": False, "error": msg}` dict every layer uses for failures. */
  function ErrorObj(msg: string): (r: Json)
    ensures IsFailureWith(r, msg)
  {
    var fields := [("success", JBool(false)), ("error", JStr(msg))];
    assert fields[..1] == [("success", JBool(false))];
    assert Lookup(fields[..1], "success") == Some(JBool(false));
    assert Lookup(fields, "success") == Some(JBool(false));
    JObj(fields)
  }

  /** Looking a key up in two runs of bindings: the second run wins when it binds the key. */
  lemma {:induction false} LookupConcat(a: Fields, b: Fields, key: string)
    ensures Lookup(a + b, key) == if HasKey(b, key) then Lookup(b, key) else Lookup(a, key)
    decreases |b|
  {
    if |b| > 0 {
      var n := |b| - 1;
      assert a + b == (a + b[..n]) + [b[n]];
      assert b == b[..n] + [b[n]];
      LookupSnoc(a + b[..n], b[n], key);
      LookupSnoc(b[..n], b[n], key);
      LookupConcat(a, b[..n], key);
      assert HasKey(b, key) <==> b[n].0 == key || HasKey(b[..n], key) by {
        assert forall k :: 0 <= k < n ==> b[..n][k] == b[k];
      }
    } else {
      assert a + b == a;
    }
  }

  /** A failure object that carries further fields after `success` and `error`. */
  function ErrorObjWith(msg: string, extra: Fields): (r: Json)
    requires !HasKey(extra, "success") && !HasKey(extra, "error")
    ensures IsFailureWith(r, msg)
    ensures forall key :: HasKey(extra, key) ==> Field(r, key) == Lookup(extra, key)
  {
    var base := [("success", JBool(false)), ("error", JStr(msg))];
    assert IsFailureWith(JObj(base), msg) by {
      assert ErrorObj(msg) == JObj(base);
    }
    LookupConcat(base, extra, "success");
    LookupConcat(base, extra, "error");
    assert forall key :: HasKey(extra, key) ==> Lookup(base + extra, key) == Lookup(extra, key) by {
      forall key | HasKey(extra, key) ensures Lookup(base + extra, key) == Lookup(extra, key) {
        LookupConcat(base, extra, key);
      }
    }
    JObj(base + extra)
  }

  /** A failure reply that carries two more fields under distinct keys. */
  function ErrorObjWithPair(msg: string, k1: string, v1: Json, k2: string, v2: Json): (r: Json)
    requires k1 != k2
    requires k1 != "success" && k1 != "error" && k2 != "success" && k2 != "error"
    ensures IsFailureWith(r, msg)
    ensures Field(r, k1) == Some(v1) && Field(r, k2) == Some(v2)
  {
    var extra := [(k1, v1), (k2, v2)];
    assert HasKey(extra, k1) by { assert extra[0].0 == k1; }
    assert HasKey(extra, k2) by { assert extra[1].0 == k2; }
    assert extra[..1] == [extra[0]];
    ErrorObjWith(msg, extra)
  }

  /** A response that reports failure with exactly the message `msg`. */
  predicate IsFailureWith(r: Json, msg: string) {
    && Field(r, "success") == Some(JBool(false))
    && Field(r, "error") == Some(JStr(msg))
  }

  /** A response whose `success` field is truthy. */
  predicate Succeeded(r: Json) {
    match Field(r, "success")
    case Some(v) => Truthy(v)
    case None => false
  }

  lemma FailureIsNotSuccess(r: Json, msg: string)
    requires IsFailureWith(r, msg)
    ensures !Succeeded(r)
  {
  }
}
