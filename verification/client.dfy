/**
 * The MCP adapter that runs outside the editor (`Content/Python/mcp_server.py`):
 * the PID file it writes, `send_to_unreal` (the client half of the socket
 * protocol), and the guards and response handling of the tools that decide
 * whether and how to talk to the editor.
 *
 * A tool run is described by the request it sends, if any, and the text it
 * returns. `send_to_unreal` is reached through the `unreal` oracle, which
 * stands for one round trip over the socket.
 */
module Client {
  import opened Wrappers
  import opened Text
  import opened Json
  import Transport

  // ---------------------------------------------------------------------
  // PID file
  // ---------------------------------------------------------------------

  /** The content `write_pid_file` writes: the process id, a newline, the port. */
  function PidFileContent(pid: nat): (r: string)
    ensures |r| > 5 && r[|r| - 5..] == "\n9877"
    ensures forall i :: 0 <= i < |r| - 5 ==> IsDigit(r[i])
  {
    NatToDecimal(pid) + "\n" + NatToDecimal(Transport.ServerPort)
  }

  // ---------------------------------------------------------------------
  // send_to_unreal
  // ---------------------------------------------------------------------

  /**
   * The client's read loop: stop at end of stream or as soon as the buffer
   * parses, keep reading after any decode error. The client socket has no
   * timeout set, so a timeout chunk is an exception like any other.
   */
  function ClientReceive(chunks: seq<Transport.Chunk>, buffer: string, parse: Parser)
    : (r: Result<string, string>)
    ensures r.Success? ==> StartsWith(r.value, buffer)
    decreases |chunks|
  {
    if |chunks| == 0 then Success(buffer)
    else
      match chunks[0]
      case Timeout => Failure("timed out")
      case Broken(m) => Failure(m)
      case Bytes(t) =>
        if t == "" then Success(buffer)
        else
          var data := buffer + t;
          if parse(data).Parsed? then Success(data)
          else
            var r := ClientReceive(chunks[1..], data, parse);
            assert r.Success? ==> r.value[..|buffer|] == data[..|buffer|];
            r
  }

  /**
   * `send_to_unreal`: the parsed reply, or a failure dict for a connection
   * error, an empty reply, a socket error or a reply that never parsed.
   */
  function SendToUnreal(connectError: Option<string>, chunks: seq<Transport.Chunk>, parse: Parser): Json {
    if connectError.Some? then ErrorObj(connectError.value)
    else
      match ClientReceive(chunks, "", parse)
      case Failure(m) => ErrorObj(m)
      case Success(data) =>
        if data == "" then ErrorObj("No response " + "received")
        else
          match parse(data)
          case Parsed(v) => v
          case DecodeError(m) => ErrorObj(m)
  }

  /** Every read so far brought data and no proper prefix of the reply parsed. */
  predicate NoEarlyParse(chunks: seq<Transport.Chunk>, buffer: string, parse: Parser) {
    forall j :: 0 < j < |chunks| ==> !parse(buffer + Transport.Joined(chunks[..j])).Parsed?
  }

  predicate AllData(chunks: seq<Transport.Chunk>) {
    forall j :: 0 <= j < |chunks| ==> chunks[j].Bytes? && chunks[j].text != ""
  }

  lemma {:induction false} ClientReceiveReadsAll(chunks: seq<Transport.Chunk>, buffer: string, parse: Parser)
    requires AllData(chunks) && NoEarlyParse(chunks, buffer, parse)
    ensures ClientReceive(chunks, buffer, parse) == Success(buffer + Transport.Joined(chunks))
    decreases |chunks|
  {
    if |chunks| > 0 {
      var data := buffer + chunks[0].text;
      assert Transport.Joined(chunks) == chunks[0].text + Transport.Joined(chunks[1..]);
      if |chunks| == 1 {
        assert Transport.Joined(chunks[1..]) == "";
        assert buffer + Transport.Joined(chunks) == data;
        if !parse(data).Parsed? {
          assert ClientReceive(chunks[1..], data, parse) == Success(data);
        }
      } else {
        assert !parse(data).Parsed? by {
          assert chunks[..1][1..] == [];
          assert Transport.Joined(chunks[..1]) == chunks[0].text;
        }
        forall j | 0 < j < |chunks[1..]|
          ensures !parse(data + Transport.Joined(chunks[1..][..j])).Parsed?
        {
          assert chunks[..j + 1][1..] == chunks[1..][..j];
          assert Transport.Joined(chunks[..j + 1]) == chunks[0].text + Transport.Joined(chunks[1..][..j]);
          assert buffer + Transport.Joined(chunks[..j + 1]) == data + Transport.Joined(chunks[1..][..j]);
        }
        ClientReceiveReadsAll(chunks[1..], data, parse);
        assert buffer + Transport.Joined(chunks) == data + Transport.Joined(chunks[1..]);
      }
    } else {
      assert buffer + Transport.Joined(chunks) == buffer;
    }
  }

  /**
   * The client inverts the server's framing: a reply that arrives in any
   * number of data chunks, with no proper prefix that already parses, is
   * returned as the value it encodes, whether or not the close is seen.
   */
  lemma ClientReceivesWholeReply(chunks: seq<Transport.Chunk>, parse: Parser, v: Json)
    requires AllData(chunks) && |chunks| > 0 && NoEarlyParse(chunks, "", parse)
    requires parse(Transport.Joined(chunks)) == Parsed(v)
    ensures SendToUnreal(None, chunks, parse) == v
    ensures SendToUnreal(None, chunks + [Transport.Bytes("")], parse) == v
  {
    ClientReceiveReadsAll(chunks, "", parse);
    assert "" + Transport.Joined(chunks) == Transport.Joined(chunks);
    var closed := chunks + [Transport.Bytes("")];
    assert closed[..|chunks|] == chunks;
    assert forall j :: 0 < j < |closed| ==> closed[..j] == chunks[..j] || j == |chunks|;
    assert NoEarlyParse(closed[..|chunks|], "", parse);
    ClientReceiveClosed(chunks, "", parse);
  }

  lemma {:induction false} ClientReceiveClosed(chunks: seq<Transport.Chunk>, buffer: string, parse: Parser)
    requires AllData(chunks) && |chunks| > 0 && NoEarlyParse(chunks, buffer, parse)
    ensures ClientReceive(chunks + [Transport.Bytes("")], buffer, parse) == ClientReceive(chunks, buffer, parse)
    decreases |chunks|
  {
    var closed := chunks + [Transport.Bytes("")];
    assert closed[0] == chunks[0];
    var data := buffer + chunks[0].text;
    if |chunks| > 1 && !parse(data).Parsed? {
      assert closed[1..] == chunks[1..] + [Transport.Bytes("")];
      forall j | 0 < j < |chunks[1..]|
        ensures !parse(data + Transport.Joined(chunks[1..][..j])).Parsed?
      {
        assert chunks[..j + 1][1..] == chunks[1..][..j];
        assert Transport.Joined(chunks[..j + 1]) == chunks[0].text + Transport.Joined(chunks[1..][..j]);
        assert buffer + Transport.Joined(chunks[..j + 1]) == data + Transport.Joined(chunks[1..][..j]);
      }
      ClientReceiveClosed(chunks[1..], data, parse);
    } else if |chunks| == 1 && !parse(data).Parsed? {
      assert closed[1..] == [Transport.Bytes("")];
    }
  }

  /** An empty reply (the server closed without sending) is reported as such. */
  lemma NoResponseReceived(chunks: seq<Transport.Chunk>, parse: Parser)
    requires |chunks| == 0 || chunks[0] == Transport.Bytes("")
    ensures SendToUnreal(None, chunks, parse) == ErrorObj("No response " + "received")
  {
  }

  /**
   * A reply cut short by the close is parsed once more after the loop; the
   * decode error becomes the failure message.
   */
  lemma PartialReplyIsFailure(chunks: seq<Transport.Chunk>, parse: Parser, m: string)
    requires AllData(chunks) && |chunks| > 0 && NoEarlyParse(chunks, "", parse)
    requires parse(Transport.Joined(chunks)) == DecodeError(m)
    ensures SendToUnreal(None, chunks + [Transport.Bytes("")], parse) == ErrorObj(m)
  {
    ClientReceiveReadsAll(chunks, "", parse);
    ClientReceiveClosed(chunks, "", parse);
    assert "" + Transport.Joined(chunks) == Transport.Joined(chunks);
  }

  /**
   * Unlike the server, the client does not give up on a malformed buffer:
   * a decode error of any kind leads to the next read.
   */
  lemma ClientKeepsReadingAfterAnyDecodeError(t: string, rest: seq<Transport.Chunk>, parse: Parser)
    requires t != "" && parse(t).DecodeError?
    ensures ClientReceive([Transport.Bytes(t)] + rest, "", parse) == ClientReceive(rest, t, parse)
  {
    assert ([Transport.Bytes(t)] + rest)[1..] == rest;
    assert "" + t == t;
  }

  // ---------------------------------------------------------------------
  // Guards of the script and console tools
  // ---------------------------------------------------------------------

  /** The patterns of `is_potentially_destructive`; their escaped dots match literally. */
  const DestructivePatterns: seq<string> := [
    "unreal.EditorAssetLibrary.delete_asset",
    "unreal.EditorLevelLibrary.destroy_actor",
    "unreal.save_package",
    "os.remove",
    "shutil.rmtree",
    "file.write",
    "unreal.EditorAssetLibrary.save_asset"
  ]

  /** `re.search(pattern, script, re.IGNORECASE)` for a literal pattern. */
  predicate SearchIgnoreCase(script: string, pattern: string) {
    Contains(Lower(script), Lower(pattern))
  }

  /** `is_potentially_destructive`: one of the seven patterns occurs, ignoring case. */
  predicate IsPotentiallyDestructive(script: string) {
    exists k :: 0 <= k < |DestructivePatterns| && SearchIgnoreCase(script, DestructivePatterns[k])
  }

  /** Text around a destructive script does not hide it. */
  lemma DestructiveInContext(before: string, script: string, after: string)
    requires IsPotentiallyDestructive(script)
    ensures IsPotentiallyDestructive(before + script + after)
  {
    var k :| 0 <= k < |DestructivePatterns| && SearchIgnoreCase(script, DestructivePatterns[k]);
    LowerAppend(before + script, after);
    LowerAppend(before, script);
    ContainsInRight(Lower(before), Lower(script), Lower(DestructivePatterns[k]));
    ContainsInLeft(Lower(before) + Lower(script), Lower(after), Lower(DestructivePatterns[k]));
    assert SearchIgnoreCase(before + script + after, DestructivePatterns[k]);
  }

  /** Case does not matter to the adapter's check. */
  lemma DestructiveCheckIgnoresCase(script: string)
    ensures IsPotentiallyDestructive(script) <==> IsPotentiallyDestructive(Lower(script))
  {
    LowerIsLowerCase(script);
  }

  lemma UpperCaseDeleteIsDestructive(prefix: string, suffix: string)
    ensures IsPotentiallyDestructive(prefix + "OS.REMOVE" + suffix)
  {
    var s := prefix + "OS.REMOVE" + suffix;
    LowerAppend(prefix + "OS.REMOVE", suffix);
    LowerAppend(prefix, "OS.REMOVE");
    assert Lower("OS.REMOVE") == "os.remove";
    assert Lower("os.remove") == "os.remove";
    ContainsSelf("os.remove");
    ContainsInRight(Lower(prefix), "os.remove", "os.remove");
    ContainsInLeft(Lower(prefix) + "os.remove", Lower(suffix), "os.remove");
    assert SearchIgnoreCase(s, DestructivePatterns[3]);
  }

  /** The keywords `execute_unreal_command` refuses without confirmation. */
  const ConsoleKeywords: seq<string> := ["delete", "save", "quit", "exit", "restart"]

  predicate HasConsoleKeyword(command: string) {
    exists k :: 0 <= k < |ConsoleKeywords| && Contains(Lower(command), ConsoleKeywords[k])
  }

  /** `command.strip().lower().startswith("py ")`. */
  predicate IsPyCommand(command: string) {
    StartsWith(Lower(Strip(command)), "py ")
  }

  /** What a tool does: the request it sends, if any, and the text it returns. */
  datatype ToolRun = ToolRun(request: Option<Fields>, text: string)

  const PyRedirectText :=
    "Error: Use " + "`execute_python_" + "script` to run " + "Python scripts " + "instead of " + "`execute_unreal_" + "command` with " + "'py' commands. "
    + "For example, " + "use `execute_pyt" + "hon_script(scrip" + "t='your_code_her" + "e')` for Python " + "execution."

  const ConsoleConfirmText :=
    "This command " + "appears to " + "involve potentia" + "lly destructive " + "actions (e.g., " + "deleting or " + "saving). "
    + "Please confirm " + "by saying 'Yes, " + "execute it' or " + "explicitly " + "request such " + "actions."

  const ScriptConfirmText :=
    "This script " + "appears to " + "involve potentia" + "lly destructive " + "actions (e.g., " + "deleting or " + "saving files) "
    + "that were not " + "explicitly " + "requested. " + "Please confirm " + "if you want to " + "proceed by " + "saying 'Yes, " + "execute it' "
    + "or modify your " + "request to " + "explicitly " + "allow such " + "actions."

  /** The `execute_unreal_command` tool. */
  function ExecuteUnrealCommandTool(command: string, unreal: Fields -> Json): (r: ToolRun)
    ensures IsPyCommand(command) ==> r == ToolRun(None, PyRedirectText)
    ensures !IsPyCommand(command) && HasConsoleKeyword(command) ==> r == ToolRun(None, ConsoleConfirmText)
    ensures r.request.Some? <==> !IsPyCommand(command) && !HasConsoleKeyword(command)
    ensures r.request.Some? ==>
              r.request.value == [("type", JStr("execute_unreal_command")), ("command", JStr(command))]
    ensures r.request.Some? && Succeeded(unreal(r.request.value)) ==>
              StartsWith(r.text, "Command '" + command + "' executed " + "successfully. " + "Output: ")
  {
    if IsPyCommand(command) then ToolRun(None, PyRedirectText)
    else if HasConsoleKeyword(command) then ToolRun(None, ConsoleConfirmText)
    else
      var request := [("type", JStr("execute_unreal_command")), ("command", JStr(command))];
      var response := unreal(request);
      var text :=
        if !response.JObj? then "Error sending " + "command to " + "Unreal: " + NoGetMessage(response)
        else if TruthyField(response.fields, "success") then
          "Command '" + command + "' executed " + "successfully. " + "Output: "
          + PyStr(LookupOr(response.fields, "output", JStr("Command executed" + " with no " + "detailed output " + "returned")))
        else
          "Failed to " + "execute command " + "'" + command + "': "
          + PyStr(LookupOr(response.fields, "error", JStr("Unknown error")));
      assert !response.JObj? ==> !Succeeded(response);
      ToolRun(Some(request), text)
  }

  /**
   * The `execute_python_script` tool. On failure it reports the plain
   * `error` field: the partial output it appends to a local copy is dropped.
   */
  function ExecutePythonScriptTool(script: string, unreal: Fields -> Json): (r: ToolRun)
    ensures r.request.None? <==> IsPotentiallyDestructive(script)
    ensures r.request.None? ==> r.text == ScriptConfirmText
    ensures r.request.Some? ==> r.request.value == [("type", JStr("execute_python")), ("script", JStr(script))]
    ensures r.request.Some? && !Succeeded(unreal(r.request.value)) && unreal(r.request.value).JObj? ==>
              r.text == "Failed to " + "execute script: "
                        + PyStr(LookupOr(unreal(r.request.value).fields, "error", JStr("Unknown error")))
  {
    if IsPotentiallyDestructive(script) then ToolRun(None, ScriptConfirmText)
    else
      var request := [("type", JStr("execute_python")), ("script", JStr(script))];
      var response := unreal(request);
      var text :=
        if !response.JObj? then "Error sending " + "script to " + "Unreal: " + NoGetMessage(response)
        else if TruthyField(response.fields, "success") then
          "Script executed " + "successfully. " + "Output: "
          + PyStr(LookupOr(response.fields, "output", JStr("No output " + "returned")))
        else
          "Failed to " + "execute script: " + PyStr(LookupOr(response.fields, "error", JStr("Unknown error")));
      ToolRun(Some(request), text)
  }

  // ---------------------------------------------------------------------
  // Tools that hand send_to_unreal's dict to json.loads
  // ---------------------------------------------------------------------

  /** `create_game_mode`: its reply handling starts with `json.loads(response)`. */
  function CreateGameModeTool(response: Json, parse: Parser): string {
    match Loads(response, parse)
    case Failure(m) => "Error creating " + "game mode: " + m
    case Success(parsed) =>
      if !parsed.JObj? then "Error creating " + "game mode: " + NoGetMessage(parsed)
      else
        match Lookup(parsed.fields, "message")
        case Some(msg) => PyStr(msg)
        case None => "Failed: " + PyStr(LookupOr(parsed.fields, "error", JNull))
  }

  /**
   * Since `send_to_unreal` returns a dict, `create_game_mode` always ends in
   * its exception branch.
   */
  lemma CreateGameModeAlwaysFails(response: Json, parse: Parser)
    requires response.JObj?
    ensures CreateGameModeTool(response, parse) == "Error creating " + "game mode: " + NotText + "dict"
  {
    assert Loads(response, parse) == Failure(NotText + "dict");
  }

  /** `add_component_with_events`' reply handling, up to its first decode. */
  function AddComponentWithEventsTool(response: Json, parse: Parser, componentName: string): string {
    match Loads(response, parse)
    case Failure(m) => "Error parsing " + "response: " + m + "\nRaw response: " + PyStr(response)
    case Success(result) =>
      if !result.JObj? then "Error parsing " + "response: " + NoGetMessage(result) + "\nRaw response: " + PyStr(response)
      else if TruthyField(result.fields, "success") then
        PyStr(LookupOr(result.fields, "message", JStr("Added component " + componentName)))
      else
        "Failed: " + PyStr(LookupOr(result.fields, "error", JStr("Unknown error")))
  }

  lemma AddComponentWithEventsAlwaysFails(response: Json, parse: Parser, componentName: string)
    requires response.JObj?
    ensures AddComponentWithEventsTool(response, parse, componentName)
            == "Error parsing " + "response: " + NotText + "dict" + "\nRaw response: " + PyStr(response)
  {
    assert Loads(response, parse) == Failure(NotText + "dict");
  }

  /**
   * The generic exception branch shared by `add_widget_to_user_widget` and
   * `edit_widget_property` for anything that is not a decode error.
   */
  function WidgetToolException(response: Json, message: string): string {
    if response.JObj? && !TruthyField(response.fields, "success") then
      "Failed to send " + "command: " + PyStr(LookupOr(response.fields, "error", JStr("Unknown MCP " + "error")))
    else
      "An unexpected " + "error occurred: " + message + " Response: " + PyStr(response)
  }

  /** `add_widget_to_user_widget`'s reply handling. */
  function AddWidgetTool(response: Json, parse: Parser, widgetType: string, widgetName: string, path: string)
    : string
  {
    if response.JStr? && parse(response.s).DecodeError? then
      "Failed to parse " + "response from " + "Unreal: " + response.s
    else
      match Loads(response, parse)
      case Failure(m) => WidgetToolException(response, m)
      case Success(d) =>
        if !d.JObj? then WidgetToolException(response, NoGetMessage(d))
        else if TruthyField(d.fields, "success") then
          var actual := PyStr(LookupOr(d.fields, "widget_name", JStr(widgetName)));
          PyStr(LookupOr(d.fields, "message", JStr(
            "Successfully " + "added widget '" + actual + "' of type '" + widgetType + "' to '" + path + "'.")))
        else
          "Failed to add " + "widget: " + PyStr(LookupOr(d.fields, "error", JStr("Unknown C++ " + "error")))
  }

  /** `edit_widget_property`'s reply handling. */
  function EditWidgetPropertyTool(response: Json, parse: Parser, widgetName: string, propertyName: string)
    : string
  {
    if response.JStr? && parse(response.s).DecodeError? then
      "Failed to parse " + "response from " + "Unreal: " + response.s
    else
      match Loads(response, parse)
      case Failure(m) => WidgetToolException(response, m)
      case Success(d) =>
        if !d.JObj? then WidgetToolException(response, NoGetMessage(d))
        else if TruthyField(d.fields, "success") then
          PyStr(LookupOr(d.fields, "message", JStr(
            "Successfully " + "set property '" + propertyName + "' on widget '" + widgetName + "'.")))
        else
          "Failed to edit " + "widget property:" + " " + PyStr(LookupOr(d.fields, "error", JStr("Unknown C++ " + "error")))
  }

  /**
   * For a failure dict from `send_to_unreal`, both widget tools relay its
   * error; for a success dict they report an unexpected error. They never
   * reach their success branch with a dict.
   */
  lemma WidgetToolsOnDict(response: Json, parse: Parser, a: string, b: string, c: string)
    requires response.JObj?
    ensures var e := NotText + "dict";
            && AddWidgetTool(response, parse, a, b, c) == WidgetToolException(response, e)
            && EditWidgetPropertyTool(response, parse, a, b) == WidgetToolException(response, e)
    ensures !TruthyField(response.fields, "success") ==>
              StartsWith(AddWidgetTool(response, parse, a, b, c), "Failed to send " + "command: ")
  {
    var e := "Failed to send " + "command: ";
    var t := PyStr(LookupOr(response.fields, "error", JStr("Unknown MCP " + "error")));
    assert (e + t)[..|e|] == e;
  }

  /** `edit_component_property` accepts a dict or a JSON string; anything else is reported by type. */
  function EditComponentPropertyResult(response: Json, parse: Parser): (r: Result<Json, string>)
    ensures response.JObj? ==> r == Success(response)
    ensures !response.JObj? && !response.JStr? ==> r.Failure?
  {
    if response.JObj? then Success(response)
    else if response.JStr? then
      match parse(response.s)
      case Parsed(v) => Success(v)
      case DecodeError(m) => Failure("Error: " + m + "\nRaw response: " + PyStr(response))
    else Failure("Error: Unexpecte" + "d response " + "type: <class '" + PyTypeName(response) + "'>")
  }
}
