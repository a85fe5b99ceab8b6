/**
 * The blueprint handlers of `Content/Python/handlers/blueprint_commands.py`:
 * their required-parameter checks and how they read what the C++ side
 * returned. Each C++ call is an input: the value it returned or the
 * exception it raised (a `Transport.Outcome`), or its text together with the
 * parse oracle when the handler decodes that text itself.
 */
module BlueprintCommands {
  import opened Wrappers
  import opened Text
  import opened Json
  import Transport

  /** `all(command.get(k) for k in keys)`, the check every handler starts with. */
  predicate AllTruthy(cmd: Fields, keys: seq<string>) {
    forall k :: 0 <= k < |keys| ==> TruthyField(cmd, keys[k])
  }

  const MissingParams := "Missing required" + " parameters"

  /** The parameters each handler of the module refuses to go without. */
  function RequiredParams(commandType: string): seq<string> {
    match commandType
    case "add_component" => ["blueprint_path", "component_class"]
    case "add_variable" => ["blueprint_path", "variable_name", "variable_type"]
    case "add_function" => ["blueprint_path", "function_name"]
    case "add_node" => ["blueprint_path", "function_id", "node_type"]
    case "connect_nodes" =>
      ["blueprint_path", "function_id", "source_node_id", "source_pin", "target_node_id", "target_pin"]
    case "compile_blueprint" => ["blueprint_path"]
    case "spawn_blueprint" => ["blueprint_path"]
    case "add_nodes_bulk" => ["blueprint_path", "function_id", "nodes"]
    case "connect_nodes_bulk" => ["blueprint_path", "function_id", "connections"]
    case "delete_node" => ["blueprint_path", "function_id", "node_id"]
    case "get_all_nodes" => ["blueprint_path", "function_id"]
    case _ => []
  }

  /**
   * The shape shared by the handlers that report a C++ call's truthiness:
   * missing parameters, then the call, whose exception becomes the error.
   */
  function CallReply(cmd: Fields, commandType: string, call: Transport.Outcome, onSuccess: Fields, failure: string)
    : (r: Json)
    ensures !AllTruthy(cmd, RequiredParams(commandType)) ==> IsFailureWith(r, MissingParams)
    ensures AllTruthy(cmd, RequiredParams(commandType)) && call.Raised? ==> IsFailureWith(r, call.message)
    ensures AllTruthy(cmd, RequiredParams(commandType)) && call.Returned? && !Truthy(call.value) ==>
              IsFailureWith(r, failure)
    ensures AllTruthy(cmd, RequiredParams(commandType)) && call.Returned? && Truthy(call.value) ==>
              r == JObj([("success", JBool(true))] + onSuccess)
  {
    if !AllTruthy(cmd, RequiredParams(commandType)) then ErrorObj(MissingParams)
    else
      match call
      case Raised(m) => ErrorObj(m)
      case Returned(v) => if Truthy(v) then JObj([("success", JBool(true))] + onSuccess) else ErrorObj(failure)
  }

  /** A reply that starts with the `success` binding reports success exactly when that binding is true. */
  lemma SuccessFirst(b: bool, rest: Fields)
    requires !HasKey(rest, "success")
    ensures Succeeded(JObj([("success", JBool(b))] + rest)) <==> b
  {
    var f := [("success", JBool(b))] + rest;
    assert f[1..] == rest;
    LookupOnlyFirst(f, "success");
  }

  lemma {:induction false} LookupOnlyFirst(f: Fields, key: string)
    requires |f| > 0 && f[0].0 == key && !HasKey(f[1..], key)
    ensures Lookup(f, key) == Some(f[0].1)
    decreases |f|
  {
    if |f| > 1 {
      assert f[|f| - 1] == f[1..][|f| - 2];
      var init := f[..|f| - 1];
      assert init[1..] == f[1..][..|f| - 2];
      assert !HasKey(init[1..], key) by {
        forall k | 0 <= k < |init[1..]| ensures init[1..][k].0 != key {
          assert init[1..][k] == f[1..][k];
        }
      }
      LookupOnlyFirst(init, key);
    } else {
      assert f == [f[0]];
    }
  }

  // ---------------------------------------------------------------------
  // create_blueprint, add_node, delete_node
  // ---------------------------------------------------------------------

  /**
   * `handle_create_blueprint`: no parameter is required; the defaults are
   * `NewBlueprint`, `Actor` and `/Game/Blueprints`, and the reported path
   * joins the save path and the name with `/`.
   */
  function CreateBlueprintReply(cmd: Fields, call: Transport.Outcome): (r: Json)
    ensures call.Returned? && Truthy(call.value) ==>
              var path := PyStr(LookupOr(cmd, "save_path", JStr("/Game/Blueprints")))
                          + "/" + PyStr(LookupOr(cmd, "blueprint_name", JStr("NewBlueprint")));
              r == JObj([("success", JBool(true)), ("blueprint_path", JStr(path))])
    ensures call.Returned? && !Truthy(call.value) ==>
              IsFailureWith(r, "Failed to " + "create Blueprint" + " " + PyStr(LookupOr(cmd, "blueprint_name", JStr("NewBlueprint"))))
    ensures call.Raised? ==> IsFailureWith(r, call.message)
  {
    var name := PyStr(LookupOr(cmd, "blueprint_name", JStr("NewBlueprint")));
    var path := PyStr(LookupOr(cmd, "save_path", JStr("/Game/Blueprints"))) + "/" + name;
    CallReply(cmd, "create_blueprint", call, [("blueprint_path", JStr(path))], "Failed to " + "create Blueprint" + " " + name)
  }

  /**
   * `handle_add_node`: any non-empty string from the C++ `AddNode` is
   * reported as the new node's id, including a `SUGGESTIONS:` list.
   */
  function AddNodeReply(cmd: Fields, call: Transport.Outcome): (r: Json)
    ensures AllTruthy(cmd, RequiredParams("add_node")) && call.Returned? && call.value.JStr? ==>
              (Succeeded(r) <==> call.value.s != "")
    ensures AllTruthy(cmd, RequiredParams("add_node")) && call.Returned? && call.value.JStr? && call.value.s != "" ==>
              Field(r, "node_id") == Some(call.value)
  {
    var failure := "Failed to add " + "node " + PyStr(LookupOr(cmd, "node_type", JNull))
                   + " to " + PyStr(LookupOr(cmd, "blueprint_path", JNull));
    var r := CallReply(cmd, "add_node", call, [("node_id", if call.Returned? then call.value else JNull)], failure);
    if AllTruthy(cmd, RequiredParams("add_node")) && call.Returned? && call.value.JStr? && call.value.s != "" then
      SuccessFirst(true, [("node_id", call.value)]);
      assert Lookup([("success", JBool(true)), ("node_id", call.value)], "node_id") == Some(call.value);
      r
    else
      r
  }

  /** The `SUGGESTIONS:` answer of `AddNode` counts as a created node. */
  lemma SuggestionsCountAsNode(cmd: Fields, names: string)
    requires AllTruthy(cmd, RequiredParams("add_node"))
    ensures var r := AddNodeReply(cmd, Transport.Returned(JStr(SuggestionsPrefix + names)));
            Succeeded(r) && Field(r, "node_id") == Some(JStr(SuggestionsPrefix + names))
  {
  }

  /** `handle_delete_node`. */
  function DeleteNodeReply(cmd: Fields, call: Transport.Outcome): (r: Json)
    ensures !AllTruthy(cmd, RequiredParams("delete_node")) ==> IsFailureWith(r, MissingParams)
    ensures AllTruthy(cmd, RequiredParams("delete_node")) && call == Transport.Returned(JBool(false)) ==>
              IsFailureWith(r, "Failed to " + "delete node " + PyStr(LookupOr(cmd, "node_id", JNull)))
    ensures AllTruthy(cmd, RequiredParams("delete_node")) && call == Transport.Returned(JBool(true)) ==>
              r == JObj([("success", JBool(true))])
  {
    CallReply(cmd, "delete_node", call, [], "Failed to " + "delete node " + PyStr(LookupOr(cmd, "node_id", JNull)))
  }

  // ---------------------------------------------------------------------
  // connect_nodes and connect_nodes_bulk
  // ---------------------------------------------------------------------

  /**
   * `handle_connect_nodes`: the C++ JSON text is decoded; a truthy
   * `success` becomes a bare success, anything else is passed through.
   */
  function ConnectNodesReply(cmd: Fields, resultText: string, parse: Parser): (r: Json)
    ensures !AllTruthy(cmd, RequiredParams("connect_nodes")) ==> IsFailureWith(r, MissingParams)
    ensures AllTruthy(cmd, RequiredParams("connect_nodes")) ==>
              match parse(resultText)
              case DecodeError(m) => IsFailureWith(r, m)
              case Parsed(v) =>
                if !v.JObj? then IsFailureWith(r, NoGetMessage(v))
                else if TruthyField(v.fields, "success") then r == JObj([("success", JBool(true))])
                else r == v
  {
    if !AllTruthy(cmd, RequiredParams("connect_nodes")) then ErrorObj(MissingParams)
    else
      match parse(resultText)
      case DecodeError(m) => ErrorObj(m)
      case Parsed(v) =>
        if !v.JObj? then ErrorObj(NoGetMessage(v))
        else if TruthyField(v.fields, "success") then JObj([("success", JBool(true))])
        else v
  }

  /** A failed connection is reported exactly as the C++ side described it, pin lists included. */
  lemma ConnectFailurePassesThrough(cmd: Fields, resultText: string, parse: Parser, v: Json)
    requires AllTruthy(cmd, RequiredParams("connect_nodes"))
    requires parse(resultText) == Parsed(v) && v.JObj? && !Succeeded(v)
    ensures ConnectNodesReply(cmd, resultText, parse) == v
  {
  }

  /**
   * `handle_connect_nodes_bulk`: the decoded C++ result is returned as is; an
   * undecodable one gets a fixed message, and one that is not an object fails
   * when its fields are read for the log line.
   */
  function ConnectNodesBulkReply(cmd: Fields, resultText: string, parse: Parser): (r: Json)
    ensures !AllTruthy(cmd, RequiredParams("connect_nodes_bulk")) ==> IsFailureWith(r, MissingParams)
    ensures AllTruthy(cmd, RequiredParams("connect_nodes_bulk")) ==>
              match parse(resultText)
              case DecodeError(_) => IsFailureWith(r, "Failed to parse " + "connection " + "results")
              case Parsed(v) => if v.JObj? then r == v else IsFailureWith(r, NoGetMessage(v))
  {
    if !AllTruthy(cmd, RequiredParams("connect_nodes_bulk")) then ErrorObj(MissingParams)
    else
      match parse(resultText)
      case DecodeError(_) => ErrorObj("Failed to parse " + "connection " + "results")
      case Parsed(v) => if v.JObj? then v else ErrorObj(NoGetMessage(v))
  }

  // ---------------------------------------------------------------------
  // add_nodes_bulk
  // ---------------------------------------------------------------------

  /** One element of the C++ bulk result: the node's GUID text and the caller's id, when it gave one. */
  datatype BulkEntry = BulkEntry(refId: Option<string>, nodeGuid: string)

  /** The key an entry is filed under, given the mapping built so far. */
  function MappingKey(e: BulkEntry, mapping: Fields): string {
    if e.refId.Some? then e.refId.value else "node_" + NatToDecimal(|mapping|)
  }

  /** The `ref_id -> node_guid` dict `handle_add_nodes_bulk` builds, one assignment per entry. */
  function NodeMapping(entries: seq<BulkEntry>): (r: Fields)
    ensures |r| <= |entries|
    decreases |entries|
  {
    if |entries| == 0 then []
    else
      var before := NodeMapping(entries[..|entries| - 1]);
      var e := entries[|entries| - 1];
      Assign(before, MappingKey(e, before), JStr(e.nodeGuid))
  }

  /** The last entry's GUID is always what its key maps to. */
  lemma LastEntryWins(entries: seq<BulkEntry>)
    requires |entries| > 0
    ensures var e := entries[|entries| - 1];
            Lookup(NodeMapping(entries), MappingKey(e, NodeMapping(entries[..|entries| - 1]))) == Some(JStr(e.nodeGuid))
  {
  }

  predicate DistinctRefIds(entries: seq<BulkEntry>) {
    && (forall i :: 0 <= i < |entries| ==> entries[i].refId.Some?)
    && (forall i, j :: 0 <= i < j < |entries| ==> entries[i].refId != entries[j].refId)
  }

  /** The ids the entries carry. */
  function RefIds(entries: seq<BulkEntry>): set<string> {
    set i | 0 <= i < |entries| && entries[i].refId.Some? :: entries[i].refId.value
  }

  /** With every entry carrying an id, the mapping's keys are exactly ids of entries. */
  lemma {:induction false} MappingKeysAreRefIds(entries: seq<BulkEntry>)
    requires forall i :: 0 <= i < |entries| ==> entries[i].refId.Some?
    ensures forall k :: 0 <= k < |NodeMapping(entries)| ==> NodeMapping(entries)[k].0 in RefIds(entries)
    decreases |entries|
  {
    if |entries| > 0 {
      var n := |entries| - 1;
      var init := entries[..n];
      MappingKeysAreRefIds(init);
      assert RefIds(init) <= RefIds(entries) by {
        forall x | x in RefIds(init) ensures x in RefIds(entries) {
          var i :| 0 <= i < |init| && init[i].refId.Some? && init[i].refId.value == x;
          assert entries[i] == init[i];
        }
      }
      var before := NodeMapping(init);
      var key := MappingKey(entries[n], before);
      assert key in RefIds(entries);
      forall k | 0 <= k < |NodeMapping(entries)| ensures NodeMapping(entries)[k].0 in RefIds(entries) {
        if NodeMapping(entries)[k].0 != key {
          var k' :| 0 <= k' < |before| && before[k'].0 == NodeMapping(entries)[k].0;
        }
      }
    }
  }

  /**
   * When every entry carries its own id, the mapping has one binding per
   * entry and each id maps to its node's GUID.
   */
  lemma {:induction false} DistinctRefIdsAllMapped(entries: seq<BulkEntry>)
    requires DistinctRefIds(entries)
    ensures |NodeMapping(entries)| == |entries|
    ensures forall i :: 0 <= i < |entries| ==>
              Lookup(NodeMapping(entries), entries[i].refId.value) == Some(JStr(entries[i].nodeGuid))
    decreases |entries|
  {
    if |entries| > 0 {
      var n := |entries| - 1;
      var init := entries[..n];
      assert DistinctRefIds(init);
      DistinctRefIdsAllMapped(init);
      MappingKeysAreRefIds(init);
      var before := NodeMapping(init);
      var e := entries[n];
      var key := e.refId.value;
      assert MappingKey(e, before) == key;
      assert key !in RefIds(init) by {
        forall i | 0 <= i < |init| ensures init[i].refId.value != key {
          assert init[i] == entries[i];
        }
      }
      assert !HasKey(before, key);
      var after := NodeMapping(entries);
      assert after == Assign(before, key, JStr(e.nodeGuid));
      forall i | 0 <= i < n
        ensures Lookup(after, entries[i].refId.value) == Some(JStr(entries[i].nodeGuid))
      {
        assert init[i] == entries[i];
        AssignKeepsOthers(before, key, JStr(e.nodeGuid), entries[i].refId.value);
      }
    }
  }

  /** Entries without an id are numbered by the size of the mapping at that point. */
  lemma UnnamedEntriesAreNumbered()
    ensures NodeMapping([BulkEntry(None, "A"), BulkEntry(None, "B")])
            == [("node_0", JStr("A")), ("node_1", JStr("B"))]
  {
    var es := [BulkEntry(None, "A"), BulkEntry(None, "B")];
    assert es[..1] == [BulkEntry(None, "A")];
    assert es[..1][..0] == [];
    assert NatToDecimal(0) == "0";
    assert NatToDecimal(1) == "1";
    assert "node_" + "0" == "node_0";
    assert "node_" + "1" == "node_1";
    var m0 := NodeMapping(es[..1]);
    assert m0 == [("node_0", JStr("A"))];
    assert !HasKey(m0, "node_1");
  }

  /** A later id equal to an earlier key overwrites it in place; the mapping does not grow. */
  lemma LaterEqualKeyOverwrites()
    ensures NodeMapping([BulkEntry(None, "A"), BulkEntry(Some("node_0"), "B")]) == [("node_0", JStr("B"))]
  {
    var es := [BulkEntry(None, "A"), BulkEntry(Some("node_0"), "B")];
    assert es[..1] == [BulkEntry(None, "A")];
    assert es[..1][..0] == [];
    assert NatToDecimal(0) == "0";
    assert "node_" + "0" == "node_0";
    var m0 := NodeMapping(es[..1]);
    assert m0 == [("node_0", JStr("A"))];
    assert HasKey(m0, "node_0");
    assert Rebind(m0, "node_0", JStr("B")) == [("node_0", JStr("B"))] by {
      assert m0[..0] == [];
    }
  }

  /** `handle_add_nodes_bulk`: an empty C++ answer is a failure; otherwise the id mapping. */
  function AddNodesBulkReply(cmd: Fields, bulk: Option<seq<BulkEntry>>): (r: Json)
    ensures !AllTruthy(cmd, RequiredParams("add_nodes_bulk")) ==> IsFailureWith(r, MissingParams)
    ensures AllTruthy(cmd, RequiredParams("add_nodes_bulk")) && bulk.None? ==>
              IsFailureWith(r, "Failed to add " + "nodes to " + PyStr(LookupOr(cmd, "blueprint_path", JNull)))
    ensures AllTruthy(cmd, RequiredParams("add_nodes_bulk")) && bulk.Some? ==>
              r == JObj([("success", JBool(true)), ("nodes", JObj(NodeMapping(bulk.value)))])
  {
    if !AllTruthy(cmd, RequiredParams("add_nodes_bulk")) then ErrorObj(MissingParams)
    else if bulk.None? then ErrorObj("Failed to add " + "nodes to " + PyStr(LookupOr(cmd, "blueprint_path", JNull)))
    else JObj([("success", JBool(true)), ("nodes", JObj(NodeMapping(bulk.value)))])
  }

  // ---------------------------------------------------------------------
  // get_node_suggestions
  // ---------------------------------------------------------------------

  const SuggestionsPrefix := "SUGGESTIONS:"

  /** How `handle_get_node_suggestions` reads the C++ answer. */
  function ReadSuggestions(result: string): (r: Result<seq<string>, string>)
    ensures result == "" ==> r == Success([])
    ensures result != "" && !StartsWith(result, SuggestionsPrefix) ==>
              r == Failure("Unexpected " + "response format " + "from Unreal")
    ensures StartsWith(result, SuggestionsPrefix) ==>
              r.Success? && |r.value| > 0 && SuggestionsPrefix + Join(r.value, ", ") == result
  {
    if result == "" then Success([])
    else if StartsWith(result, SuggestionsPrefix) then
      var parts := Split(result[|SuggestionsPrefix|..], ", ");
      assert result == SuggestionsPrefix + result[|SuggestionsPrefix|..];
      Success(parts)
    else Failure("Unexpected " + "response format " + "from Unreal")
  }

  /** `handle_get_node_suggestions`. */
  function GetNodeSuggestionsReply(cmd: Fields, call: Transport.Outcome): (r: Json)
    ensures !TruthyField(cmd, "node_type") ==> IsFailureWith(r, "Missing required" + " parameter " + "'node_type'")
    ensures TruthyField(cmd, "node_type") && call.Returned? && call.value.JStr? ==>
              match ReadSuggestions(call.value.s)
              case Success(names) =>
                r == JObj([("success", JBool(true)), ("suggestions", JArr(seq(|names|, i requires 0 <= i < |names| => JStr(names[i]))))])
              case Failure(m) => IsFailureWith(r, m)
  {
    if !TruthyField(cmd, "node_type") then ErrorObj("Missing required" + " parameter " + "'node_type'")
    else
      match call
      case Raised(m) => ErrorObj(m)
      case Returned(v) =>
        if !v.JStr? then ErrorObj(NoAttributeMessage(v, "startswith"))
        else
          match ReadSuggestions(v.s)
          case Success(names) =>
            JObj([("success", JBool(true)), ("suggestions", JArr(seq(|names|, i requires 0 <= i < |names| => JStr(names[i]))))])
          case Failure(m) => ErrorObj(m)
  }

  /**
   * Reading inverts the C++ join: a non-empty list of names, none of which
   * contains `", "`, comes back unchanged.
   */
  lemma SuggestionsRoundTrip(names: seq<string>)
    requires |names| > 0
    requires forall k :: 0 <= k < |names| ==> !Contains(names[k], ", ")
    ensures ReadSuggestions(SuggestionsPrefix + Join(names, ", ")) == Success(names)
  {
    var text := SuggestionsPrefix + Join(names, ", ");
    assert text[..|SuggestionsPrefix|] == SuggestionsPrefix;
    assert text[|SuggestionsPrefix|..] == Join(names, ", ");
    CommaSpaceUnbordered();
    SplitJoin(names, ", ");
  }

  // ---------------------------------------------------------------------
  // get_node_guid
  // ---------------------------------------------------------------------

  /**
   * `handle_get_node_guid`: the graph type must be exactly `EventGraph` or
   * `FunctionGraph`; any non-empty text from C++ is reported as the GUID.
   */
  function GetNodeGuidReply(cmd: Fields, call: Transport.Outcome): (r: Json)
    ensures !TruthyField(cmd, "blueprint_path") ==> IsFailureWith(r, "Missing blueprin" + "t_path")
    ensures var g := LookupOr(cmd, "graph_type", JStr("EventGraph"));
            TruthyField(cmd, "blueprint_path") && g != JStr("EventGraph") && g != JStr("FunctionGraph") ==>
              IsFailureWith(r, "Invalid graph_ty" + "pe: " + PyStr(g))
    ensures var g := LookupOr(cmd, "graph_type", JStr("EventGraph"));
            TruthyField(cmd, "blueprint_path") && (g == JStr("EventGraph") || g == JStr("FunctionGraph"))
            && call.Returned? && call.value.JStr? && call.value.s != "" ==>
              r == JObj([("success", JBool(true)), ("node_guid", call.value)])
  {
    var g := LookupOr(cmd, "graph_type", JStr("EventGraph"));
    var nodeName := LookupOr(cmd, "node_name", JStr(""));
    if !TruthyField(cmd, "blueprint_path") then ErrorObj("Missing blueprin" + "t_path")
    else if g != JStr("EventGraph") && g != JStr("FunctionGraph") then ErrorObj("Invalid graph_ty" + "pe: " + PyStr(g))
    else
      match call
      case Raised(m) => ErrorObj(m)
      case Returned(v) =>
        if Truthy(v) then JObj([("success", JBool(true)), ("node_guid", v)])
        else ErrorObj("Node not found: " + (if Truthy(nodeName) then PyStr(nodeName) else "FunctionEntry"))
  }

  /** Graph types are compared exactly: a lower-case spelling is rejected. */
  lemma GraphTypeIsCaseSensitive(cmd: Fields, call: Transport.Outcome)
    requires TruthyField(cmd, "blueprint_path") && Lookup(cmd, "graph_type") == Some(JStr("eventgraph"))
    ensures !Succeeded(GetNodeGuidReply(cmd, call))
  {
    assert JStr("eventgraph") != JStr("EventGraph");
  }
}
