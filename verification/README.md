# UnrealGenAISupport, modelled in Dafny

UnrealGenAISupport is an Unreal Engine plugin with two halves.

The first half lets an external AI agent drive the editor through MCP. An adapter process (`mcp_server.py`) turns tool calls into JSON commands. It sends each command over a loopback socket to a server running inside the editor's Python interpreter (`unreal_socket_server.py`). That server reads one JSON command per connection. It answers a handshake directly. Every other command is queued under a fresh id, and the editor's main thread pops one command per tick, dispatches it to a handler and stores the reply for the waiting socket thread. The Python handlers check their parameters and call C++ utilities for the actual work:
- blueprint node creation and the fuzzy function search;
- pin connection and compilation;
- component property editing;
- widget editing.

The second half is a set of Blueprint-callable clients for LLM providers: OpenAI chat and structured output, Anthropic Claude, DeepSeek and xAI. They also include the legacy OpenAI node, the API-key store and the OpenAI model names.

This project models the logic of both halves as pure functions over immutable data. Threads become explicit sequential steps. The ten-second wait of the socket thread becomes a budget of main-thread ticks. Socket reads become a sequence of chunks. JSON text parsing, engine reflection, asset loading, HTTP exchanges, the process environment and files become parameters. Where the plugin implies a partner for an operation, the model states it: an inverse (the reply the handler reads back), an invariant the operation keeps, a reference definition the code is proved to compute, or the corrected definition beside a defect, with lemmas that connect the two. Operations that only assemble a reply or read a value are stated by their contracts alone.

Where the plugin has an editor copy and an older runtime copy of a C++ file (`Source/GenerativeAISupportEditor` and `Source/GenerativeAISupport`), the model covers each copy as written. Their differences are stated as lemmas. The runtime copies of `ShortenPath` and `GetAPIKeyPreview` (Source/GenerativeAISupport/Private/Editor/GenEditorWindow.cpp:968-1025) are the same text as the editor copies, so one member models both.

Modules, one per file:
- `Wrappers`, `Text` and `Json`: shared helpers, Python string operations, and the JSON values that cross the socket.
- `Transport`: the in-editor command server.
- `Client`: the adapter.
- `PythonCommands`, `BlueprintCommands`, `ActorCommands`, `BasicCommands`, `UiCommands` and `Conversions`: the Python handlers.
- `Graphs`, `NodeCreator`, `NodeRanking`, `BlueprintLinks`, `BlueprintUtils`, `ObjectProperties` and `WidgetUtils`: the C++ MCP utilities.
- `EditorWindow`: the editor window's non-UI logic.
- `SecureKey` and `OAIModels`: the key store and the model names.
- `UeJson`: Unreal's `FJsonObject` getters.
- `ChatClients` and `LegacyChat`: the LLM clients.

A command payload that is valid JSON but not an object gets no reply at all: `command.get` raises outside the inner `try`, and the connection is closed. So the one-reply-per-connection property is stated for object payloads only.

## Model

| member | source | states |
|---|---|---|
| Text.Lower | Content/Python/mcp_server.py:189 | lower-casing keeps the length and lowers each character on its own |
| Text.LowerIsLowerCase | Content/Python/mcp_server.py:189 | lower-cased text has no upper-case letter, so lowering twice changes nothing |
| Text.LowerAppend | Content/Python/mcp_server.py:197 | lowering a concatenation lowers each part |
| Text.Contains | Content/Python/mcp_server.py:197 | `sub in s` holds exactly when `sub` occurs at some position of `s` |
| Text.ContainsLower | Content/Python/mcp_server.py:197 | an occurrence survives lower-casing both texts |
| Text.IndexOf | Content/Python/handlers/blueprint_commands.py:695 | the first position where the separator occurs, and none exactly when it does not occur |
| Text.Split | Content/Python/handlers/blueprint_commands.py:695 | `str.split` gives at least one part, no part contains the separator, and joining the parts with it restores the text |
| Text.SplitJoin | Content/Python/handlers/blueprint_commands.py:695 | splitting a `", "`-joined list whose items do not contain the separator gives the items back |
| Text.CommaSpaceUnbordered | Content/Python/mcp_server.py:576 | `", "` has no proper prefix that is also a suffix, so the join and split above invert each other |
| Text.TrimStart | Content/Python/mcp_server.py:189 | leading whitespace is removed and only whitespace is removed |
| Text.TrimEnd | Content/Python/mcp_server.py:189 | trailing whitespace is removed and only whitespace is removed |
| Text.Strip | Content/Python/mcp_server.py:189 | the stripped text neither starts nor ends with whitespace |
| Text.NatToDecimal | Content/Python/mcp_server.py:23 | `str(pid)` is a non-empty run of digits without a leading zero |
| Text.ParseNat | Source/GenerativeAISupportEditor/Private/Editor/GenEditorWindow.cpp:562 | text reads as a number exactly when it is a non-empty run of digits |
| Text.DecimalRoundTrip | Source/GenerativeAISupportEditor/Private/Editor/GenEditorWindow.cpp:562 | reading back the decimal text of a number gives the number |
| Text.SkipCSpace | Source/GenerativeAISupportEditor/Private/MCP/GenObjectProperties.cpp:268 | `Atoi` first skips exactly the leading C whitespace |
| Text.LeadingDigits | Source/GenerativeAISupportEditor/Private/MCP/GenObjectProperties.cpp:268 | the longest run of digits at the start of the text |
| Text.Atoi | Source/GenerativeAISupportEditor/Private/MCP/GenObjectProperties.cpp:268 | text that does not start with a sign or a digit after the whitespace reads as 0 |
| Text.AtoiOfDecimal | Source/GenerativeAISupportEditor/Private/Editor/GenEditorWindow.cpp:562 | `Atoi` reads the decimal text of a number, and of its negation, back exactly |
| Text.AtoiOfWord | Source/GenerativeAISupportEditor/Private/MCP/GenObjectProperties.cpp:483 | a word starting with a letter reads as 0 |
| Json.Lookup | Content/Python/unreal_socket_server.py:73 | `dict.get` finds a key exactly when some binding has it, and returns that binding's value |
| Json.Rebind | Content/Python/handlers/blueprint_commands.py:485 | rebinding an existing key replaces its value in place and leaves every other binding alone |
| Json.Assign | Content/Python/handlers/blueprint_commands.py:485 | after `d[key] = v` the key reads as `v`, a new key adds one binding, and no other key appears or disappears |
| Json.AssignKeepsOthers | Content/Python/handlers/blueprint_commands.py:485 | an assignment does not change what any other key reads as |
| Json.Loads | Content/Python/handlers/actor_commands.py:179 | `json.loads` of a value that is not text fails with Python's `TypeError` message |
| Json.ErrorObj | Content/Python/unreal_socket_server.py:75 | the error reply reports `success` false with exactly the given message |
| Json.ErrorObjWith | Source/GenerativeAISupportEditor/Private/MCP/GenBlueprintUtils.cpp:588-612 | an error reply with extra fields still reports the failure and message, and every extra field reads as given |
| Json.FailureIsNotSuccess | Content/Python/unreal_socket_server.py:75 | a reply that reports a failure never reads as a success |
| Transport.Handshake | Content/Python/unreal_socket_server.py:84-104 | the built-in handshake always succeeds and echoes the client's `message` (empty when absent) after `Received: ` |
| Transport.DispatchBehaviour | Content/Python/unreal_socket_server.py:71-82 | an unhashable `type` raises; a hashable type outside the registry gives `Unknown command type: <type>`; a registered handler's result is passed through and an exception it raises becomes `{"success": False, "error": str(e)}` |
| Transport.DispatchTotal | Content/Python/unreal_socket_server.py:71-82 | with a hashable command type dispatch always returns a dict: no handler exception escapes |
| Transport.CreateGameModeIsUnknown | Content/Python/unreal_socket_server.py:31-69 | `create_game_mode` is not in the handler registry, so the server answers it as an unknown command |
| Transport.MissingTypeIsUnknown | Content/Python/unreal_socket_server.py:73-75 | a command without `type` is answered with `Unknown command type: None` |
| Transport.InitialValid | Content/Python/unreal_socket_server.py:20-21 | the empty queue and empty response table satisfy the server invariant (ids in the queue are distinct, below the counter, and never already answered) |
| Transport.Enqueue | Content/Python/unreal_socket_server.py:187-211 | a queued command gets the next counter value as its id, goes to the back of the queue, and its id is fresh: not queued and not answered yet |
| Transport.ProcessCommands | Content/Python/unreal_socket_server.py:107-124 | one tick pops the oldest command, stores its answer under its id, keeps every other stored answer, and does nothing on an empty queue; the invariant is preserved |
| Transport.Pump | Content/Python/unreal_socket_server.py:107-124 | any number of ticks preserves the server invariant |
| Transport.PumpConsumesPrefix | Content/Python/unreal_socket_server.py:107-124 | n ticks consume exactly the first n queued commands, in order |
| Transport.PumpKeepsResponses | Content/Python/unreal_socket_server.py:107-124 | ticks never overwrite or remove an answer already stored |
| Transport.PumpAnswersInOrder | Content/Python/unreal_socket_server.py:107-124 | after n ticks each of the first n queued commands has its own answer stored under its id |
| Transport.Await | Content/Python/unreal_socket_server.py:213-230 | the socket thread's wait removes its own answer when it takes it, leaves none behind on timeout, and keeps the invariant and counter |
| Transport.AwaitKeepsOthers | Content/Python/unreal_socket_server.py:213-230 | waiting for one id never disturbs another connection's stored answer |
| Transport.AwaitAnswersHead | Content/Python/unreal_socket_server.py:209-230 | a command queued on an idle server with any time left is answered with the main thread's answer to that very command |
| Transport.AwaitAnswersQueued | Content/Python/unreal_socket_server.py:213-230 | a command at queue position k is answered with its own dispatch result whenever the wait has more than k main-thread ticks, since the commands ahead of it are served one per tick |
| Transport.TimeoutLeavesCommandQueued | Content/Python/unreal_socket_server.py:222-230 | on timeout the command stays in the queue, so the main thread still runs it later |
| Transport.ReceiveFrom | Content/Python/unreal_socket_server.py:127-176 | whatever the receive loop returns is the initial buffer followed by a prefix of the chunks received |
| Transport.ReceiveSkipsIncomplete | Content/Python/unreal_socket_server.py:147-159 | while the text so far is incomplete JSON (`Unterminated string` or `Expecting` errors) the loop keeps reading and carries the text forward |
| Transport.ReceiveStopsWhenComplete | Content/Python/unreal_socket_server.py:149-152 | the loop returns as soon as the accumulated text parses |
| Transport.ReceiveRejectsMalformed | Content/Python/unreal_socket_server.py:160-166 | any other decode error ends the receive with no data |
| Transport.ReceiveReturnsBufferOnCloseOrTimeout | Content/Python/unreal_socket_server.py:141-176 | on end of stream or a socket timeout the text accumulated so far is returned |
| Transport.ReceiveFailsOnError | Content/Python/unreal_socket_server.py:172-174 | any other socket error ends the receive with no data |
| Transport.Serve | Content/Python/unreal_socket_server.py:194-246 | no or empty data is answered `No data received or error parsing data`, undecodable text `Invalid JSON: <message>`, and only a decoded non-object goes unanswered; at most one id is used |
| Transport.HandshakeTakesFastPath | Content/Python/unreal_socket_server.py:204-206 | a handshake is answered on the socket thread: nothing is queued and the reply succeeds |
| Transport.QueuedCommandsGetFreshIds | Content/Python/unreal_socket_server.py:187-211 | every other command object uses up exactly one counter value |
| Transport.OrphanPersists | Content/Python/unreal_socket_server.py:213-230 | an answer stored for a connection that already timed out is never collected by a later connection |
| Transport.HandleConnection | Content/Python/unreal_socket_server.py:179-255 | a whole connection (receive, then serve) keeps the server invariant |
| Transport.OneReplyPerConnection | Content/Python/unreal_socket_server.py:179-255 | a connection gets exactly one reply unless its data decodes to something other than a JSON object |
| Client.PidFileContent | Content/Python/mcp_server.py:15-37 | the pid file holds the process id in decimal, a newline, and the port 9877 |
| Client.ClientReceive | Content/Python/mcp_server.py:67-81 | the client's receive loop only ever extends what it already has: a received reply starts with the buffer read so far |
| Client.ClientReceiveReadsAll | Content/Python/mcp_server.py:67-81 | while no prefix parses, the loop reads every chunk and returns their concatenation |
| Client.ClientReceivesWholeReply | Content/Python/mcp_server.py:53-91 | a reply that arrives in pieces and parses only once complete is returned as that JSON value, whether or not the server closes afterwards |
| Client.ClientReceiveClosed | Content/Python/mcp_server.py:72-73 | an end-of-stream chunk after data ends the loop without changing what was read |
| Client.NoResponseReceived | Content/Python/mcp_server.py:84-87 | a connection that closes before any data gives `No response received` |
| Client.PartialReplyIsFailure | Content/Python/mcp_server.py:82-91 | a reply cut short by the server's close is reported as a failure carrying the decoder's message |
| Client.ClientKeepsReadingAfterAnyDecodeError | Content/Python/mcp_server.py:74-81 | unlike the server, the client treats every decode error as "read more" |
| Client.DestructiveInContext | Content/Python/mcp_server.py:921-938 | a script flagged as destructive stays flagged whatever text is put before or after it, since the patterns are searched anywhere in the script |
| Client.DestructiveCheckIgnoresCase | Content/Python/mcp_server.py:935-937 | lower-casing a script never changes the verdict |
| Client.UpperCaseDeleteIsDestructive | Content/Python/mcp_server.py:930 | `OS.REMOVE` anywhere in a script is flagged |
| Client.ExecuteUnrealCommandTool | Content/Python/mcp_server.py:170-213 | a `py ` command is redirected and a console command with a destructive keyword asks for confirmation, both without contacting the editor; any other command is sent as `execute_unreal_command` and its success text starts with the command echo |
| Client.ExecutePythonScriptTool | Content/Python/mcp_server.py:129-166 | a request is sent exactly when the script is not destructive; a refused script gets the confirmation text; a failed run reports the editor's `error` or `Unknown error` |
| Client.CreateGameModeAlwaysFails | Content/Python/mcp_server.py:991-1011 | `send_to_unreal` returns a dict and `json.loads` of a dict raises, so the tool always answers `Error creating game mode: ...` |
| Client.AddComponentWithEventsAlwaysFails | Content/Python/mcp_server.py:790-824 | for the same reason the tool always answers `Error parsing response: ...` with the raw response |
| Client.WidgetToolsOnDict | Content/Python/mcp_server.py:1015-1114 | both widget tools fall into their generic exception branch on a dict reply, and a failed reply is reported as `Failed to send command: ...` |
| Client.EditComponentPropertyResult | Content/Python/mcp_server.py:311-322 | a dict reply is used as is; a reply that is neither a dict nor text is an error |
| PythonCommands.WithLogs | Content/Python/handlers/python_commands.py:184-193 | new log lines are appended under their heading only when there are some; otherwise the text is unchanged |
| PythonCommands.ScriptResult | Content/Python/handlers/python_commands.py:175-205 | a script run reports success exactly when its status says so; output carries the new logs; an empty error becomes `Execution failed without specific error`; otherwise the error gets its hint and the new logs |
| PythonCommands.FailedRun | Content/Python/handlers/python_commands.py:201-205 | a failed run reports failure with exactly the chosen error text and still returns the run's output |
| PythonCommands.ExecutePythonAsWritten | Content/Python/handlers/python_commands.py:93-218 | as written: a missing script, a non-empty text script holding one of the seven keywords sent without `force`, and a truthy script that is neither text nor a list all leave before `script_file` is bound, so the `finally` clause raises instead of returning; any other non-empty text script is answered with the run's reply; a list script raises only when one of its elements is a keyword and `force` is off, and otherwise is answered with the `TypeError` of `textwrap.dedent` |
| PythonCommands.ExecutePython | Content/Python/handlers/python_commands.py:93-211 | always returns; a missing script reports `Missing required parameter: script`; a destructive script without `force` is refused; a truthy script that is not text fails; any other script reports the script run |
| PythonCommands.ListScriptIsAnswered | Content/Python/handlers/python_commands.py:112-150 | a list holding one harmless line is answered, as written, with a failure carrying the `TypeError` message |
| PythonCommands.MissingScriptMessageIsLost | Content/Python/handlers/python_commands.py:109-111 | through the dispatcher, the as-written handler answers a missing script with the `UnboundLocalError` text rather than the intended message |
| PythonCommands.DestructiveRefusalIsLost | Content/Python/handlers/python_commands.py:127-137 | the same happens to the destructive-script refusal |
| PythonCommands.RemoveCallIsDestructive | Content/Python/handlers/python_commands.py:118-127 | a script calling `os.remove` counts as destructive |
| PythonCommands.ExecutePythonAgreesWhenRun | Content/Python/handlers/python_commands.py:93-218 | whenever the as-written handler returns it returns what the corrected one does, and whenever it raises the corrected one reports failure |
| PythonCommands.ForceBypassesScriptGuard | Content/Python/handlers/python_commands.py:107-129 | with `force` set, any non-empty script is run, in both versions |
| PythonCommands.ScriptGuardIsCaseSensitive | Content/Python/handlers/python_commands.py:127 | the handler's keyword check is case-sensitive while the client's is not: `OS.REMOVE` passes the handler but not the client |
| PythonCommands.AdapterCatchesEveryRefusedScript | Content/Python/handlers/python_commands.py:117-127 | every script the in-editor guard would refuse is already flagged by the adapter's case-insensitive guard over the same seven literals (Content/Python/mcp_server.py:926-938) |
| PythonCommands.HandlerMissesUpperCaseRemove | Content/Python/handlers/python_commands.py:118-127 | the handler's keyword scan does not flag `OS.REMOVE(p)` |
| PythonCommands.ClientCatchesUpperCaseRemove | Content/Python/mcp_server.py:921-938 | the client's case-insensitive scan does flag `OS.REMOVE(p)` |
| PythonCommands.ConsoleGuard | Content/Python/handlers/python_commands.py:239-273 | the console handler's guards in order: a missing or falsy command, a non-text command, a `py ` command, a destructive keyword without `force`, and otherwise the command runs |
| PythonCommands.ConsoleReply | Content/Python/handlers/python_commands.py:241-292 | a refused command is a failure carrying that guard's own message; a command that ran succeeds with its output; nothing else succeeds |
| PythonCommands.CommandOutput | Content/Python/handlers/python_commands.py:287-289 | the output begins with the `Command '<cmd>' executed successfully` echo, and is exactly that echo when no new log lines were captured |
| PythonCommands.CommandRan | Content/Python/handlers/python_commands.py:287-292 | a command that ran reports success with that output |
| PythonCommands.ExecuteUnrealCommand | Content/Python/handlers/python_commands.py:221-309 | the reply succeeds exactly when the guards let the command run; each refusal fails with its own message; a run's output is the command echo followed by any new logs |
| PythonCommands.ConsoleGuardsMatchAdapter | Content/Python/mcp_server.py:189-204 | without `force`, the handler runs a command exactly when the client tool would forward it |
| BlueprintCommands.CallReply | Content/Python/handlers/blueprint_commands.py:53-215 | the shape every simple blueprint handler shares: a falsy required parameter gives `Missing required parameters`, an exception its message, a falsy engine result the handler's failure text, and a truthy one `success` plus the handler's extra fields |
| BlueprintCommands.SuccessFirst | Content/Python/handlers/blueprint_commands.py:90 | a reply that starts with `success` and does not repeat it succeeds exactly when that flag is true |
| BlueprintCommands.CreateBlueprintReply | Content/Python/handlers/blueprint_commands.py:9-50 | a created blueprint is reported at `save_path/blueprint_name` with the documented defaults; failure names the blueprint; an exception gives its message |
| BlueprintCommands.AddNodeReply | Content/Python/handlers/blueprint_commands.py:218-281 | with its parameters present, `add_node` succeeds exactly when the engine returns a non-empty text, which is reported as `node_id` |
| BlueprintCommands.SuggestionsCountAsNode | Content/Python/handlers/blueprint_commands.py:262-271 | a `SUGGESTIONS:` answer is non-empty text, so the handler reports it as a created node id |
| BlueprintCommands.DeleteNodeReply | Content/Python/handlers/blueprint_commands.py:570-611 | a missing parameter, a refused deletion naming the node, and a plain success are the three answers |
| BlueprintCommands.ConnectNodesReply | Content/Python/handlers/blueprint_commands.py:284-333 | the engine's JSON text decides: a decode error or a non-object fails, a successful object collapses to `{"success": true}` and a failed one is passed through |
| BlueprintCommands.ConnectFailurePassesThrough | Content/Python/handlers/blueprint_commands.py:320-330 | a failure object from the engine, with its suggestions, reaches the client unchanged |
| BlueprintCommands.ConnectNodesBulkReply | Content/Python/handlers/blueprint_commands.py:508-567 | an undecodable bulk result gives `Failed to parse connection results`; a decoded object is returned as it is |
| BlueprintCommands.NodeMapping | Content/Python/handlers/blueprint_commands.py:479-488 | the mapping never has more keys than there are created nodes |
| BlueprintCommands.LastEntryWins | Content/Python/handlers/blueprint_commands.py:479-488 | each created node's GUID is stored under its key, overwriting whatever was there |
| BlueprintCommands.MappingKeysAreRefIds | Content/Python/handlers/blueprint_commands.py:484-485 | when every node has a `ref_id`, the keys are exactly drawn from those ids |
| BlueprintCommands.DistinctRefIdsAllMapped | Content/Python/handlers/blueprint_commands.py:479-488 | distinct `ref_id`s give one key per node, each mapping to that node's GUID |
| BlueprintCommands.UnnamedEntriesAreNumbered | Content/Python/handlers/blueprint_commands.py:486-488 | nodes without `ref_id` are keyed `node_0`, `node_1`, ... by the mapping's size |
| BlueprintCommands.LaterEqualKeyOverwrites | Content/Python/handlers/blueprint_commands.py:484-488 | a `ref_id` equal to an earlier generated key overwrites that node's GUID, so one node disappears from the reply |
| BlueprintCommands.AddNodesBulkReply | Content/Python/handlers/blueprint_commands.py:438-505 | missing parameters and a failed bulk add have their messages; otherwise the reply carries the node mapping |
| BlueprintCommands.ReadSuggestions | Content/Python/handlers/blueprint_commands.py:688-714 | an empty answer means no suggestions, text after `SUGGESTIONS:` is split on `, ` and joins back to the answer, and anything else is an unexpected format |
| BlueprintCommands.GetNodeSuggestionsReply | Content/Python/handlers/blueprint_commands.py:667-720 | a missing `node_type` is refused; otherwise the reply lists the parsed suggestions or reports the unexpected format |
| BlueprintCommands.SuggestionsRoundTrip | Content/Python/handlers/blueprint_commands.py:694-695 | names without `, ` in them survive the engine's join and the handler's split unchanged |
| BlueprintCommands.GetNodeGuidReply | Content/Python/handlers/blueprint_commands.py:723-770 | a missing path and a graph type other than `EventGraph` or `FunctionGraph` are refused; a found GUID is returned |
| BlueprintCommands.GraphTypeIsCaseSensitive | Content/Python/handlers/blueprint_commands.py:747-749 | `eventgraph` in lower case is an invalid graph type |
| ActorCommands.ModifyObject | Content/Python/handlers/actor_commands.py:9-125 | a falsy actor or property type or a `None` value is refused; an unknown property type is named; otherwise the value is converted for the one matching setter, a conversion error or engine exception is reported, and the engine's verdict gives success or `Failed to set <noun> for <actor>` |
| ActorCommands.ModifyObjectRoutesToOneSetter | Content/Python/handlers/actor_commands.py:40-121 | the reply depends only on the setter the property type selects: engines that agree on it give the same reply |
| ActorCommands.ZeroValueIsPresent | Content/Python/handlers/actor_commands.py:28 | a value of `0` is present (only `None` is missing), so it reaches the material setter |
| ActorCommands.BadPositionReportsArity | Content/Python/handlers/actor_commands.py:59-76 | a two-element position fails with the vector converter's arity message |
| ActorCommands.ReadLoggedResult | Content/Python/handlers/actor_commands.py:179-186 | the engine's decoded result is returned only when it is an object with a `success` key; logging it otherwise raises |
| ActorCommands.EditComponentProperty | Content/Python/handlers/actor_commands.py:128-196 | missing parameters and a scene edit without an actor name are refused; undecodable engine text is wrapped as `Invalid response format: <text>`; a decoded object with `success` is returned unchanged and anything else fails |
| ActorCommands.AddComponentWithEvents | Content/Python/handlers/actor_commands.py:199-245 | missing parameters are refused; a decode error is reported with its message; a decoded object with `success` is returned unchanged and anything else fails |
| BasicCommands.ShapeName | Content/Python/handlers/basic_commands.py:55-63 | exactly the four lower-case shape words have a proper name, and each proper name lower-cases back to its word |
| BasicCommands.SpawnKindOf | Content/Python/handlers/basic_commands.py:41-71 | a `/Game` path with a dot spawns a static mesh when it loads as one and a class otherwise; any other name spawns a basic shape exactly when it is one of the four shapes ignoring case, and a class otherwise |
| BasicCommands.NoSlashIsNoMeshPath | Content/Python/handlers/basic_commands.py:42 | a name that does not start with `/` is never treated as a mesh path |
| BasicCommands.ShapesIgnoreCase | Content/Python/handlers/basic_commands.py:55-71 | `CUBE` and `sPhErE` spawn the cube and sphere shapes, `Pyramid` is a class name |
| BasicCommands.Spawn | Content/Python/handlers/basic_commands.py:8-86 | the first failing conversion of location, rotation and scale is reported; otherwise the engine is called with the converted values and an empty label when none is truthy, and its result is reported |
| BasicCommands.SpawnDefaults | Content/Python/handlers/basic_commands.py:25-29 | an empty command spawns a cube at the origin with no rotation and unit scale |
| BasicCommands.CreateMaterial | Content/Python/handlers/basic_commands.py:89-124 | a bad colour is reported, an engine refusal is `Failed to create material`, and success names `/Game/Materials/<name>` |
| BasicCommands.CreateMaterialDefaults | Content/Python/handlers/basic_commands.py:102-103 | an empty command creates a red `NewMaterial` |
| BasicCommands.FolderPath | Content/Python/handlers/basic_commands.py:153 | folders are always under `/Game/`, and a missing folder path becomes `/Game/None` |
| BasicCommands.CreateProjectFolder | Content/Python/handlers/basic_commands.py:150-157 | an engine error is reported, otherwise the created folder path is echoed |
| BasicCommands.Strings | Content/Python/handlers/basic_commands.py:164 | asset paths are listed as strings, one for one |
| BasicCommands.GetFilesInFolder | Content/Python/handlers/basic_commands.py:160-166 | the reply lists exactly the assets the engine lists under the folder, in order |
| BasicCommands.MissingFolderIsNone | Content/Python/handlers/basic_commands.py:152-155 | a missing folder path creates `/Game/None` |
| BasicCommands.ActorEntry | Content/Python/handlers/basic_commands.py:134-142 | an actor's entry carries its name and class |
| BasicCommands.ActorEntries | Content/Python/handlers/basic_commands.py:133-144 | one entry per actor, in order |
| BasicCommands.GetAllSceneObjects | Content/Python/handlers/basic_commands.py:127-145 | the reply succeeds and lists every actor's name and class in order |
| BasicCommands.AddInputBinding | Content/Python/handlers/basic_commands.py:169-188 | an engine error is reported, otherwise the message names the action and key |
| UiCommands.ReadWidgetReply | Content/Python/handlers/ui_commands.py:55-62 | only a decoded JSON object comes back as the reply; an engine exception is reported with its message |
| UiCommands.WidgetReply | Content/Python/handlers/ui_commands.py:55-69 | a decoded object is returned as it is; any failure on the way becomes `Python Handler Error: <message>` |
| UiCommands.AddWidgetToUserWidget | Content/Python/handlers/ui_commands.py:26-69 | an unavailable utility class is a handler error; a falsy path, type or name is refused with the documented message; otherwise the engine's reply is returned |
| UiCommands.EditWidgetProperty | Content/Python/handlers/ui_commands.py:72-114 | the same, with the value checked only against `None` |
| UiCommands.DictReplyPassesThrough | Content/Python/handlers/ui_commands.py:56-62 | an object reply from the engine reaches the client unchanged |
| UiCommands.ListReplyIsHandlerError | Content/Python/handlers/ui_commands.py:102-114 | a JSON list from the engine makes `.get` raise, so the reply is a handler error about `list` |
| UiCommands.EmptyValueIsAccepted | Content/Python/handlers/ui_commands.py:88-93 | an empty value string counts as present: with the other three parameters given, the edit handler goes on to the utilities call |
| UiCommands.EmptyWidgetNameIsMissing | Content/Python/handlers/ui_commands.py:44-48 | an empty widget name counts as missing: the add handler refuses it with the missing-arguments message, whatever else the command holds |
| Conversions.ToVector | Content/Python/utils/unreal_conversions.py:6-21 | exactly a three-element list converts, to its three elements in order; anything else is the vector arity error |
| Conversions.ToRotator | Content/Python/utils/unreal_conversions.py:24-39 | the same for rotators, with the rotator's message |
| Conversions.ToColor | Content/Python/utils/unreal_conversions.py:42-61 | a list of at least three converts: its first three elements, and the fourth as alpha when present, else 1.0 |
| Conversions.ColorIgnoresExtra | Content/Python/utils/unreal_conversions.py:57-61 | elements after the fourth are ignored |
| Conversions.VectorIsOpaqueColor | Content/Python/utils/unreal_conversions.py:54-61 | every valid vector is also a valid, fully opaque colour |
| Graphs.DefaultEventGraph | Source/GenerativeAISupportEditor/Private/MCP/GenBlueprintNodeCreator.cpp:283-287 | the `EventGraph` id selects the first ubergraph page, and exists exactly when the blueprint has one |
| Graphs.WithGraph | Source/GenerativeAISupportEditor/Private/MCP/GenBlueprintNodeCreator.cpp:395-428 | editing one graph in place leaves every other graph, and the number of graphs of each kind, unchanged |
| Graphs.FirstGraph | Source/GenerativeAISupportEditor/Private/MCP/GenBlueprintNodeCreator.cpp:401-407 | the search returns the first graph with the GUID, and finds one exactly when some graph has it |
| Graphs.FindGraphByGuid | Source/GenerativeAISupportEditor/Private/MCP/GenBlueprintNodeCreator.cpp:395-428 | a graph is found exactly when some ubergraph, function or macro graph has the GUID, in that order of preference |
| Graphs.FindUberOrFunction | Source/GenerativeAISupportEditor/Private/MCP/GenBlueprintNodeCreator.cpp:174-187 | the bulk add's inline search looks only at ubergraphs and then function graphs |
| Graphs.InlineSearchSkipsMacros | Source/GenerativeAISupportEditor/Private/MCP/GenBlueprintNodeCreator.cpp:174-187 | the inline search agrees with `FindGraphByGuid` except that a macro graph is not found |
| Graphs.FirstNode | Source/GenerativeAISupportEditor/Private/MCP/GenBlueprintNodeCreator.cpp:319-330 | the node search stops at the first node with the GUID, and finds one exactly when some node has it |
| Graphs.FirstEntry | Source/GenerativeAISupportEditor/Private/MCP/GenBlueprintNodeCreator.cpp:604-614 | the first function entry node of a graph, if there is one |
| Graphs.FindPin | Source/GenerativeAISupportEditor/Private/MCP/GenBlueprintUtils.cpp:526-527 | `FindPin` returns the first pin whose name matches ignoring case (and whose direction matches, when one is given), and none when no pin does |
| Graphs.PinsWithDirection | Source/GenerativeAISupportEditor/Private/MCP/GenBlueprintUtils.cpp:540-560 | the listing keeps exactly the node's pins with the requested direction |
| NodeRanking.NonEmpty | Source/GenerativeAISupportEditor/Private/MCP/GenBlueprintNodeCreator.cpp:887 | culling empty pieces keeps every non-empty piece, in order, and nothing else |
| NodeRanking.UnderscorePieces | Source/GenerativeAISupportEditor/Private/MCP/GenBlueprintNodeCreator.cpp:887 | the pieces of a name split on `_` are non-empty and contain no `_`; a non-empty name without `_` is its own single piece |
| NodeRanking.FirstUpperFrom | Source/GenerativeAISupportEditor/Private/MCP/GenBlueprintNodeCreator.cpp:891-898 | the camel-case scan stops at the first upper-case letter after the start, or finds none |
| NodeRanking.CamelPieces | Source/GenerativeAISupportEditor/Private/MCP/GenBlueprintNodeCreator.cpp:888-902 | an empty name has no pieces and a lower-case name is a single piece |
| NodeRanking.SplitLowerName | Source/GenerativeAISupportEditor/Private/MCP/GenBlueprintNodeCreator.cpp:884-905 | on the lower-cased names the ranking actually splits, `SplitName` is the underscore split, or the whole name when that split has one piece |
| NodeRanking.WordIsOnePart | Source/GenerativeAISupportEditor/Private/MCP/GenBlueprintNodeCreator.cpp:884-905 | a lower-case word without `_` is one part |
| NodeRanking.SinglePieceKeepsUnderscores | Source/GenerativeAISupportEditor/Private/MCP/GenBlueprintNodeCreator.cpp:887-902 | a name whose underscore split has one piece is returned whole, underscore included (`_sin`) |
| NodeRanking.LibraryCandidates | Source/GenerativeAISupportEditor/Private/MCP/GenBlueprintNodeCreator.cpp:915-923 | one candidate per reflected function of a library, in order |
| NodeRanking.Candidates | Source/GenerativeAISupportEditor/Private/MCP/GenBlueprintNodeCreator.cpp:909-917 | every candidate is a function of one of the listed libraries that the engine can find |
| NodeRanking.EveryFunctionIsCandidate | Source/GenerativeAISupportEditor/Private/MCP/GenBlueprintNodeCreator.cpp:909-917 | every function of every found library is a candidate |
| NodeRanking.SharedParts | Source/GenerativeAISupportEditor/Private/MCP/GenBlueprintNodeCreator.cpp:931-934 | counts the node name's parts that occur among the function's parts: all of them when each occurs, none when none does |
| NodeRanking.ExactScore | Source/GenerativeAISupportEditor/Private/MCP/GenBlueprintNodeCreator.cpp:925-938 | an exact name match scores the exact bonus, the per-part bonus for every part and the prefix bonus, with no length penalty |
| NodeRanking.NonExactScoreBound | Source/GenerativeAISupportEditor/Private/MCP/GenBlueprintNodeCreator.cpp:925-938 | any other function scores at most the substring bonus plus all part and prefix bonuses |
| NodeRanking.Scored | Source/GenerativeAISupportEditor/Private/MCP/GenBlueprintNodeCreator.cpp:915-948 | each candidate gets its score, one for one |
| NodeRanking.Kept | Source/GenerativeAISupportEditor/Private/MCP/GenBlueprintNodeCreator.cpp:920-948 | the kept matches are exactly the visible candidates with a positive score |
| NodeRanking.Matches | Source/GenerativeAISupportEditor/Private/MCP/GenBlueprintNodeCreator.cpp:909-951 | every match comes from a visible candidate with a positive score and carries that candidate's own score |
| NodeRanking.MatchesAreComplete | Source/GenerativeAISupportEditor/Private/MCP/GenBlueprintNodeCreator.cpp:915-948 | every visible candidate with a positive score is among the matches, and with no such candidate the list is empty |
| NodeRanking.Insert | Source/GenerativeAISupportEditor/Private/MCP/GenBlueprintNodeCreator.cpp:957 | inserting into a list sorted by descending score keeps it sorted and adds exactly that match |
| NodeRanking.SortByScore | Source/GenerativeAISupportEditor/Private/MCP/GenBlueprintNodeCreator.cpp:957 | the sort orders by descending score and is a permutation of its input |
| NodeRanking.HeadIsBest | Source/GenerativeAISupportEditor/Private/MCP/GenBlueprintNodeCreator.cpp:957-962 | after sorting, the head is a match with the highest score |
| NodeRanking.Ranked | Source/GenerativeAISupportEditor/Private/MCP/GenBlueprintNodeCreator.cpp:953-959 | the ranked list is the match list, permuted into descending score order |
| NodeRanking.Displays | Source/GenerativeAISupportEditor/Private/MCP/GenBlueprintNodeCreator.cpp:958-959 | the suggestions are the ranked matches' display names, in order |
| NodeRanking.Truncate | Source/GenerativeAISupportEditor/Private/MCP/GenBlueprintNodeCreator.cpp:977-978 | removing from the end until at most n remain keeps the first n |
| NodeRanking.FromLibraries | Source/GenerativeAISupportEditor/Private/MCP/GenBlueprintNodeCreator.cpp:857-981 | no match gives the empty text; a best score of at least 80 creates a node from a highest-scoring match; otherwise at most ten suggestions are returned, all below the threshold |
| NodeRanking.SuggestionsFollowRanking | Source/GenerativeAISupportEditor/Private/MCP/GenBlueprintNodeCreator.cpp:957-980 | the suggestions are the first entries of the score-ordered match list |
| NodeRanking.LibraryText | Source/GenerativeAISupportEditor/Private/MCP/GenBlueprintNodeCreator.cpp:953-980 | no match is the empty text, and suggestions start with `SUGGESTIONS:` |
| NodeRanking.ExactMatchIsCreated | Source/GenerativeAISupportEditor/Private/MCP/GenBlueprintNodeCreator.cpp:925-968 | a visible function whose name equals the requested type ignoring case always leads to a created node, from a function with that name |
| NodeRanking.SuggestionNames | Source/GenerativeAISupportEditor/Private/MCP/GenBlueprintNodeCreator.cpp:1005-1113 | `GetNodeSuggestions` lists at most five names, none exactly when nothing matches, following the ranking |
| NodeRanking.GetNodeSuggestions | Source/GenerativeAISupportEditor/Private/MCP/GenBlueprintNodeCreator.cpp:1100-1113 | the reply is empty exactly when nothing matches, and otherwise starts with `SUGGESTIONS:` |
| NodeRanking.LibraryNameHasNoComma | Source/GenerativeAISupportEditor/Private/MCP/GenBlueprintNodeCreator.cpp:1007-1016 | no listed library name contains a comma |
| NodeRanking.DisplayHasNoSeparator | Source/GenerativeAISupportEditor/Private/MCP/GenBlueprintNodeCreator.cpp:1092 | a display name `Library.Function` never contains the `, ` separator when the function name has no comma |
| NodeRanking.SuggestionsReachHandler | Content/Python/handlers/blueprint_commands.py:688-701 | the Python handler splits the engine's suggestion text back into exactly the names the engine joined |
| NodeRanking.LibrarySuggestionsReachHandler | Source/GenerativeAISupportEditor/Private/MCP/GenBlueprintNodeCreator.cpp:977-980 | the same holds for the suggestions the library search returns |
| NodeCreator.InitNodeTypeMap | Source/GenerativeAISupportEditor/Private/MCP/GenBlueprintNodeCreator.cpp:431-480 | the alias table is filled once: an empty table gets the fixed aliases and a filled one is left alone |
| NodeCreator.InitIsIdempotent | Source/GenerativeAISupportEditor/Private/MCP/GenBlueprintNodeCreator.cpp:433-434 | initialising twice is initialising once |
| NodeCreator.ResolveNodeType | Source/GenerativeAISupportEditor/Private/MCP/GenBlueprintNodeCreator.cpp:486 | a type whose lower-case form is an alias resolves to its target; any other type is kept as written |
| NodeCreator.ResolutionIgnoresCase | Source/GenerativeAISupportEditor/Private/MCP/GenBlueprintNodeCreator.cpp:486 | two spellings that differ only in case resolve alike |
| NodeCreator.BeginPlaySpellings | Source/GenerativeAISupportEditor/Private/MCP/GenBlueprintNodeCreator.cpp:470-472 | `BeginPlay`, `RECEIVEBEGINPLAY` and `Event BeginPlay` all resolve to `EventBeginPlay` |
| NodeCreator.StringProperty | Source/GenerativeAISupportEditor/Private/MCP/GenBlueprintNodeCreator.cpp:630 | a property is read only from an object of properties and only when the name is present, matched ignoring case; a string reads as itself and the value of a present name reads as `TryGetString` reads it |
| NodeCreator.StringPropertyIgnoresCase | Source/GenerativeAISupportEditor/Private/MCP/GenBlueprintNodeCreator.cpp:630 | two spellings of the property name that differ only in case read the same value |
| NodeCreator.StringPropertyOfLastField | Source/GenerativeAISupportEditor/Private/MCP/GenBlueprintNodeCreator.cpp:630 | the last field with the name is the one read: a string, number or boolean reads as its text, null, an array or an object reads as nothing |
| NodeCreator.RequiredName | Source/GenerativeAISupportEditor/Private/MCP/GenBlueprintNodeCreator.cpp:630-639 | a required name such as `action_name` is present exactly when the property reads as a non-empty string, and it is that string |
| NodeCreator.EventMember | Source/GenerativeAISupportEditor/Private/MCP/GenBlueprintNodeCreator.cpp:488-547 | the three BeginPlay spellings select `ReceiveBeginPlay`, `EventTick` selects `ReceiveTick`, ignoring case, and nothing else is an event type |
| NodeCreator.FirstEvent | Source/GenerativeAISupport/Private/MCP/GenBlueprintNodeCreator.cpp:450-460 | the first node of the graph that is the event for the member, if any |
| NodeCreator.EditorEvent | Source/GenerativeAISupportEditor/Private/MCP/GenBlueprintNodeCreator.cpp:491-545 | the editor makes the event only in the default event graph, and always as a new overriding node |
| NodeCreator.RuntimeEvent | Source/GenerativeAISupport/Private/MCP/GenBlueprintNodeCreator.cpp:441-470 | the runtime copy reuses the first existing event for the member in the default event graph, and otherwise makes a new one there |
| NodeCreator.PlainKind | Source/GenerativeAISupportEditor/Private/MCP/GenBlueprintNodeCreator.cpp:657-689 | `Branch` and `IfThenElse` (ignoring case) make a branch node |
| NodeCreator.ClassNode | Source/GenerativeAISupportEditor/Private/MCP/GenBlueprintNodeCreator.cpp:814-821 | a node class is used when `UK2Node_<type>` or the type itself names a K2 node class |
| NodeCreator.OtherKnown | Source/GenerativeAISupportEditor/Private/MCP/GenBlueprintNodeCreator.cpp:603-655 | an entry-node type reuses the graph's function entry and fails when there is none; an input action needs a non-empty `action_name` |
| NodeCreator.KnownNodeType | Source/GenerativeAISupportEditor/Private/MCP/GenBlueprintNodeCreator.cpp:482-823 | events are handled first, each copy in its own way; every other known type is tried in the target graph |
| NodeCreator.BeginPlayOutsideEventGraph | Source/GenerativeAISupportEditor/Private/MCP/GenBlueprintNodeCreator.cpp:491-505 | asking the editor for BeginPlay in a function graph fails, while the runtime copy still places it in the default event graph |
| NodeCreator.EntryIsReusedNeverMade | Source/GenerativeAISupportEditor/Private/MCP/GenBlueprintNodeCreator.cpp:603-617 | a function entry request succeeds exactly when the graph already has one, and returns that node |
| NodeCreator.FunctionEntryIsEntryType | Source/GenerativeAISupportEditor/Private/MCP/GenBlueprintNodeCreator.cpp:457 | the type `FunctionEntry` resolves to `K2Node_FunctionEntry`, which is no event type and is an entry-node type |
| NodeCreator.DropLinksTo | Source/GenerativeAISupportEditor/Private/MCP/GenBlueprintNodeCreator.cpp:519-527 | dropping links to removed nodes keeps exactly the other links |
| NodeCreator.Unlinked | Source/GenerativeAISupportEditor/Private/MCP/GenBlueprintNodeCreator.cpp:519-527 | unlinking changes nothing about a node but removes its links to the removed nodes |
| NodeCreator.UnlinkAll | Source/GenerativeAISupportEditor/Private/MCP/GenBlueprintNodeCreator.cpp:519-527 | every node of the graph is unlinked, one for one |
| NodeCreator.WithoutEvent | Source/GenerativeAISupportEditor/Private/MCP/GenBlueprintNodeCreator.cpp:508-528 | removing the old events keeps every other node and no event for the member |
| NodeCreator.ReplaceEvent | Source/GenerativeAISupportEditor/Private/MCP/GenBlueprintNodeCreator.cpp:505-545 | the editor removes every old event for the member, breaks the links to them, and adds the one new overriding event |
| NodeCreator.ReplaceEventLeavesOne | Source/GenerativeAISupportEditor/Private/MCP/GenBlueprintNodeCreator.cpp:505-545 | afterwards the graph holds exactly one event for the member |
| NodeCreator.GraphFromFunctionId | Source/GenerativeAISupportEditor/Private/MCP/GenBlueprintNodeCreator.cpp:828-855 | `EventGraph` or `Event Graph` (ignoring case) is the first ubergraph; otherwise a parsed GUID is searched among ubergraphs and function graphs, never macros |
| NodeCreator.GuidOf | Source/GenerativeAISupportEditor/Private/MCP/GenBlueprintNodeCreator.cpp:154 | the reported GUID is the reused node's when it has a valid one, and a fresh valid one otherwise |
| NodeCreator.LibraryFallback | Source/GenerativeAISupportEditor/Private/MCP/GenBlueprintNodeCreator.cpp:68-79 | an unknown type falls back to the library search: a created function node, the suggestion text, or nothing |
| NodeCreator.SuggestionTextIsRecognised | Source/GenerativeAISupportEditor/Private/MCP/GenBlueprintNodeCreator.cpp:70-73 | the caller's `SUGGESTIONS:` check recognises exactly the suggestion outcome |
| NodeCreator.DisplayIsNotSuggestion | Source/GenerativeAISupportEditor/Private/MCP/GenBlueprintNodeCreator.cpp:70 | a created node's display name never looks like a suggestion text |
| NodeCreator.AddNode | Source/GenerativeAISupportEditor/Private/MCP/GenBlueprintNodeCreator.cpp:35-154 | no blueprint or graph adds nothing; a known type adds its node; anything else goes to the library search with the type as requested, not as resolved |
| NodeCreator.AddNodeResolvingAliases | Source/GenerativeAISupportEditor/Private/MCP/GenBlueprintNodeCreator.cpp:486 | the corrected add searches the libraries for the resolved alias target |
| NodeCreator.AliasedFunctionIsCreated | Source/GenerativeAISupportEditor/Private/MCP/GenBlueprintNodeCreator.cpp:440-446 | with the correction, an alias whose target is a visible library function always creates that function's node |
| NodeCreator.NothingFound | Source/GenerativeAISupportEditor/Private/MCP/GenBlueprintNodeCreator.cpp:909-913 | libraries the engine cannot find contribute no candidates |
| NodeCreator.AddFloatCandidates | Source/GenerativeAISupportEditor/Private/MCP/GenBlueprintNodeCreator.cpp:909-917 | with only `Add_FloatFloat` reflected, it is the single candidate |
| NodeCreator.AddFloatFloatParts | Source/GenerativeAISupportEditor/Private/MCP/GenBlueprintNodeCreator.cpp:884-905 | `add_floatfloat` splits into `add` and `floatfloat` |
| NodeCreator.FloatPlusIsOnePart | Source/GenerativeAISupportEditor/Private/MCP/GenBlueprintNodeCreator.cpp:884-905 | `floatplus` is one part |
| NodeCreator.AddFloatFloatLacksFloatPlus | Source/GenerativeAISupportEditor/Private/MCP/GenBlueprintNodeCreator.cpp:926-936 | `add_floatfloat` neither contains nor starts with `floatplus` |
| NodeCreator.FloatPlusSharesNoPart | Source/GenerativeAISupportEditor/Private/MCP/GenBlueprintNodeCreator.cpp:926-936 | `floatplus` shares no name part with `add_floatfloat` |
| NodeCreator.FloatPlusScoresNothing | Source/GenerativeAISupportEditor/Private/MCP/GenBlueprintNodeCreator.cpp:925-938 | so `Add_FloatFloat` scores 0 for the request `floatplus` |
| NodeCreator.NothingInCommon | Source/GenerativeAISupportEditor/Private/MCP/GenBlueprintNodeCreator.cpp:925-938 | a function sharing no substring, prefix or part with the request and not much longer scores 0 |
| NodeCreator.FloatPlusFindsNothing | Source/GenerativeAISupportEditor/Private/MCP/GenBlueprintNodeCreator.cpp:950-951 | the library search for `floatplus` finds no match |
| NodeCreator.FloatPlusResolves | Source/GenerativeAISupportEditor/Private/MCP/GenBlueprintNodeCreator.cpp:441 | `floatplus` is an alias of `Add_FloatFloat` |
| NodeCreator.FloatPlusAliasIsLost | Source/GenerativeAISupportEditor/Private/MCP/GenBlueprintNodeCreator.cpp:58-79 | as written, the documented alias `floatplus` adds nothing, while the corrected add creates the node |
| NodeCreator.AddFloatFloatIsNoEvent | Source/GenerativeAISupportEditor/Private/MCP/GenBlueprintNodeCreator.cpp:488-547 | `Add_FloatFloat` is not an event type |
| NodeCreator.AddFloatFloatIsNoEntry | Source/GenerativeAISupportEditor/Private/MCP/GenBlueprintNodeCreator.cpp:605 | nor an entry-node type |
| NodeCreator.AddFloatFloatIsNoPlainKind | Source/GenerativeAISupportEditor/Private/MCP/GenBlueprintNodeCreator.cpp:621-754 | nor any of the fixed node kinds |
| NodeCreator.AddFloatFloatIsNoFunctionTarget | Source/GenerativeAISupportEditor/Private/MCP/GenBlueprintNodeCreator.cpp:756-812 | nor one of the math and conversion shortcuts |
| NodeCreator.KnownKindsMissAddFloatFloat | Source/GenerativeAISupportEditor/Private/MCP/GenBlueprintNodeCreator.cpp:482-823 | with no matching node class, the known-type step gives nothing for `floatplus` in either copy |
| NodeCreator.ReadRequest | Source/GenerativeAISupportEditor/Private/MCP/GenBlueprintNodeCreator.cpp:208-228 | a value that is not an object reads as an empty request; an object gives its `node_type` and `id` as the lenient getter reads them, and properties exactly when `node_properties` is present, as the object that field reads as; properties are never unparseable |
| NodeCreator.NonObjectEntryIsAdded | Source/GenerativeAISupportEditor/Private/MCP/GenBlueprintNodeCreator.cpp:208-228 | an entry that is not an object is not skipped: it reaches `AddNode` as an empty request |
| NodeCreator.EntryResult | Source/GenerativeAISupportEditor/Private/MCP/GenBlueprintNodeCreator.cpp:228-237 | an entry contributes a result exactly when its `AddNode` call returns non-empty text, and the result is that text with the entry's reference id |
| NodeCreator.EntryOutcomes | Source/GenerativeAISupportEditor/Private/MCP/GenBlueprintNodeCreator.cpp:206-238 | one outcome per entry, each the entry's own result at its own array index |
| NodeCreator.Recorded | Source/GenerativeAISupportEditor/Private/MCP/GenBlueprintNodeCreator.cpp:237 | the recorded results are present outcomes, no more of them than outcomes |
| NodeCreator.RecordedAppend | Source/GenerativeAISupportEditor/Private/MCP/GenBlueprintNodeCreator.cpp:206-238 | recording two runs of outcomes is recording the first and then the second |
| NodeCreator.RecordedKeepsEvery | Source/GenerativeAISupportEditor/Private/MCP/GenBlueprintNodeCreator.cpp:237 | every present outcome is recorded |
| NodeCreator.BulkResults | Source/GenerativeAISupportEditor/Private/MCP/GenBlueprintNodeCreator.cpp:206-239 | at most one result per entry, none with an empty GUID, and each the result of one of the entries |
| NodeCreator.BulkResultsKeepEvery | Source/GenerativeAISupportEditor/Private/MCP/GenBlueprintNodeCreator.cpp:228-237 | every entry whose call returned text has its result among the results |
| NodeCreator.BulkResultsOfOne | Source/GenerativeAISupportEditor/Private/MCP/GenBlueprintNodeCreator.cpp:206-239 | a single entry gives its own result or nothing |
| NodeCreator.BulkResultsAppend | Source/GenerativeAISupportEditor/Private/MCP/GenBlueprintNodeCreator.cpp:206-239 | the results of two runs of entries are those of the first followed by those of the second, so the results keep array order |
| NodeCreator.AddNodesBulk | Source/GenerativeAISupportEditor/Private/MCP/GenBlueprintNodeCreator.cpp:157-266 | the bulk add answers exactly when the blueprint loads, the graph id parses as a GUID found among ubergraphs and function graphs, and the nodes text parses as an array; its results are then those of one `AddNode` call per entry in array order |
| NodeCreator.BulkEntryIsAddNode | Source/GenerativeAISupportEditor/Private/MCP/GenBlueprintNodeCreator.cpp:228-237 | an entry's result is its `AddNode` call: nothing when no node is added, the created node's GUID text, or the suggestion text recorded as if it were a GUID |
| NodeCreator.BulkHasNoEventGraphAlias | Source/GenerativeAISupportEditor/Private/MCP/GenBlueprintNodeCreator.cpp:167-191 | `EventGraph` is accepted by single adds but not by the bulk add, which only parses GUIDs |
| NodeCreator.ResultObject | Source/GenerativeAISupportEditor/Private/MCP/GenBlueprintNodeCreator.cpp:233-236 | a result object carries the GUID, and `ref_id` exactly when there is one |
| NodeCreator.ReadBulkEntry | Content/Python/handlers/blueprint_commands.py:481-488 | the Python handler reads a result's GUID and, when it is a string, its `ref_id` |
| NodeCreator.BulkResultRoundTrip | Content/Python/handlers/blueprint_commands.py:479-488 | every result object the engine writes is read back by the handler as the same GUID and reference id |
| NodeCreator.DeleteGraph | Source/GenerativeAISupportEditor/Private/MCP/GenBlueprintNodeCreator.cpp:280-304 | the editor resolves `EventGraph` to the first ubergraph and otherwise parses a GUID and searches all graphs; the runtime copy only parses GUIDs |
| NodeCreator.DeleteTarget | Source/GenerativeAISupportEditor/Private/MCP/GenBlueprintNodeCreator.cpp:306-336 | the node to delete is the first with the parsed GUID in the resolved graph; the runtime copy only deletes K2 nodes |
| NodeCreator.RemoveNodeAt | Source/GenerativeAISupportEditor/Private/MCP/GenBlueprintNodeCreator.cpp:340 | removing a node drops it and every link to it, and keeps the order of the others |
| NodeCreator.DeleteNode | Source/GenerativeAISupportEditor/Private/MCP/GenBlueprintNodeCreator.cpp:270-344 | deletion succeeds exactly when a target is found, and changes only that graph |
| NodeCreator.DeleteNeedsGuidsAtRuntime | Source/GenerativeAISupport/Private/MCP/GenBlueprintNodeCreator.cpp:271-300 | deleting from `EventGraph` works in the editor copy and fails in the runtime copy |
| BlueprintLinks.ConnectGraph | Source/GenerativeAISupportEditor/Private/MCP/GenBlueprintUtils.cpp:471-505 | the editor copy maps `EventGraph` (any case) to the first ubergraph page; otherwise an unparseable GUID is refused, and a parsed one succeeds exactly when some ubergraph or function graph carries it, never a macro graph |
| BlueprintLinks.LastK2 | Source/GenerativeAISupportEditor/Private/MCP/GenBlueprintUtils.cpp:510-521 | the scan keeps the last K2 node with a GUID: found exactly when one exists, and no later node has it |
| BlueprintLinks.ScanFindsLast | Source/GenerativeAISupportEditor/Private/MCP/GenBlueprintUtils.cpp:510-521 | the left-to-right scan with overwriting ends at the last match for each endpoint |
| BlueprintLinks.FindEndpoints | Source/GenerativeAISupportEditor/Private/MCP/GenBlueprintUtils.cpp:514-519 | the source is the last K2 node with the source GUID; because of the `else if` the target is never found when both GUIDs are equal |
| BlueprintLinks.Resolve | Source/GenerativeAISupportEditor/Private/MCP/GenBlueprintUtils.cpp:463-530 | a successful resolution names two K2 nodes carrying the requested GUIDs and pins whose names match ignoring case (editor: output then input); each refusal carries the message of the first check that failed, and a missing pin reports which of the two was found |
| BlueprintLinks.AppendLink | Source/GenerativeAISupportEditor/Private/MCP/GenBlueprintUtils.cpp:572 | linking records the target in the source pin's links, keeps every earlier link on both pins, and a fresh link is recorded on both ends |
| BlueprintLinks.SetPin | Source/GenerativeAISupportEditor/Private/MCP/GenBlueprintUtils.cpp:572 | replacing one pin leaves every other pin, node and graph unchanged |
| BlueprintLinks.LinkWiring | Source/GenerativeAISupportEditor/Private/MCP/GenBlueprintUtils.cpp:572 | the linked blueprint holds the linker's two pins at the wired positions and keeps node identities and every other graph |
| BlueprintLinks.PinListings | Source/GenerativeAISupportEditor/Private/MCP/GenBlueprintUtils.cpp:544-560 | one listing per pin, in order |
| BlueprintLinks.PinsMissingReply | Source/GenerativeAISupportEditor/Private/MCP/GenBlueprintUtils.cpp:529-567 | the reply is a failure with the found/not-found message and lists the source node's output pins and the target node's input pins |
| BlueprintLinks.LinkRefusedReply | Source/GenerativeAISupportEditor/Private/MCP/GenBlueprintUtils.cpp:588-612 | a link that did not take is a failure with the type-mismatch message, carrying both pins' summaries |
| BlueprintLinks.ConnectNodes | Source/GenerativeAISupportEditor/Private/MCP/GenBlueprintUtils.cpp:463-613 | a missing blueprint or any refusal leaves the blueprint unchanged with the matching failure; after linking, the reply reports success exactly when both pins list each other |
| BlueprintLinks.ConnectNodesRuntime | Source/GenerativeAISupport/Private/MCP/GenBlueprintUtils.cpp:676-775 | the runtime copy answers true exactly when it resolves (plain GUID only, pins found in either direction) and then holds the linked pins |
| BlueprintLinks.SelfConnectionIsRefused | Source/GenerativeAISupportEditor/Private/MCP/GenBlueprintUtils.cpp:514-524 | connecting a node to itself is refused as "source or target node" missing and changes nothing |
| BlueprintLinks.FreshLinkIsReported | Source/GenerativeAISupportEditor/Private/MCP/GenBlueprintUtils.cpp:572-586 | a link that was not there before is reported as a success |
| BlueprintLinks.RuntimeIgnoresDirection | Source/GenerativeAISupport/Private/MCP/GenBlueprintUtils.cpp:758-759 | two input pins are refused by the editor copy but linked by the runtime copy, which looks pins up without a direction |
| BlueprintLinks.CountReporting | Source/GenerativeAISupportEditor/Private/MCP/GenBlueprintUtils.cpp:806-814 | the count of successes is at most the number of results, and equals it exactly when every result reports success |
| BlueprintLinks.Annotate | Source/GenerativeAISupportEditor/Private/MCP/GenBlueprintUtils.cpp:798-829 | every per-connection result carries its index and both node ids; it reports success exactly when the reply parsed to an object reporting success, and an unparsed reply becomes the "Failed to parse connection result" failure |
| BlueprintLinks.CountReportingSnoc | Source/GenerativeAISupportEditor/Private/MCP/GenBlueprintUtils.cpp:806-814 | appending a result raises the count by one exactly when the result reports success |
| BlueprintLinks.ReadConnection | Source/GenerativeAISupportEditor/Private/MCP/GenBlueprintUtils.cpp:781-789 | an object entry gives its four fields as the lenient getter reads them; any other entry asks for a connection between empty ids and pins |
| BlueprintLinks.ConnectEntry | Source/GenerativeAISupportEditor/Private/MCP/GenBlueprintUtils.cpp:789-829 | one connection is `ConnectNodes` on the blueprint as it stands: its result carries the entry's index and node ids, reports success exactly when the `ConnectNodes` reply does, and the blueprint afterwards is the one `ConnectNodes` leaves |
| BlueprintLinks.NonObjectEntryFails | Source/GenerativeAISupportEditor/Private/MCP/GenBlueprintUtils.cpp:781-829 | an entry that is not an object is not skipped: when the empty id is no GUID, it gives a result that does not report success and leaves the blueprint unchanged |
| BlueprintLinks.Prefix | Source/GenerativeAISupportEditor/Private/MCP/GenBlueprintUtils.cpp:779-831 | a loop that threads the blueprint yields one result per entry so far, each step taken on the blueprint the steps before it left |
| BlueprintLinks.PrefixEntry | Source/GenerativeAISupportEditor/Private/MCP/GenBlueprintUtils.cpp:779-831 | result `k` of such a loop is the step for entry `k` on the blueprint as the first `k` entries left it |
| BlueprintLinks.ConnectPrefix | Source/GenerativeAISupportEditor/Private/MCP/GenBlueprintUtils.cpp:779-831 | the bulk loop's reference run, with `ConnectEntry` as the step: one result per entry so far |
| BlueprintLinks.ConnectPrefixEntry | Source/GenerativeAISupportEditor/Private/MCP/GenBlueprintUtils.cpp:779-831 | result `k` is the `ConnectNodes` answer for entry `k` on the blueprint as the first `k` entries left it |
| BlueprintLinks.ConnectPrefixIndexed | Source/GenerativeAISupportEditor/Private/MCP/GenBlueprintUtils.cpp:801 | every result carries the index of its own entry |
| BlueprintLinks.RecordEntry | Source/GenerativeAISupportEditor/Private/MCP/GenBlueprintUtils.cpp:779-831 | one pass of the loop extends the reference run by entry `i`; successes stay counted exactly, and errors are flagged exactly when some result does not report success |
| BlueprintLinks.RunConnections | Source/GenerativeAISupportEditor/Private/MCP/GenBlueprintUtils.cpp:779-831 | the loop computes the reference run over every entry: one result per entry in order with its own index, the blueprint they leave, the count of successes, and errors exactly when some result does not report success |
| BlueprintLinks.BulkReply | Source/GenerativeAISupportEditor/Private/MCP/GenBlueprintUtils.cpp:835-839 | the bulk reply carries `success` as the absence of errors, the total, the success count and the results |
| BlueprintLinks.ConnectNodesBulk | Source/GenerativeAISupportEditor/Private/MCP/GenBlueprintUtils.cpp:753-845 | a missing blueprint or unparseable list fails; otherwise the results are the per-entry `ConnectNodes` answers in order, the total counts every entry, the success count is exact, and `success` holds exactly when every result succeeded |
| BlueprintUtils.VariablePinType | Source/GenerativeAISupportEditor/Private/MCP/GenBlueprintUtils.cpp:178-240 | a type keyword (ignoring case) picks its fixed pin type; any other name is an object pin of that class when the class exists, and unsupported otherwise |
| BlueprintUtils.KeywordLookupIsEqualsIgnoreCase | Source/GenerativeAISupportEditor/Private/MCP/GenBlueprintUtils.cpp:180-223 | looking the lower-cased name up in the keyword table is the chain of case-insensitive comparisons |
| BlueprintUtils.KeywordShadowsClass | Source/GenerativeAISupportEditor/Private/MCP/GenBlueprintUtils.cpp:208-212 | `vector` is the vector struct even when a class of that name exists |
| BlueprintUtils.AddVariable | Source/GenerativeAISupportEditor/Private/MCP/GenBlueprintUtils.cpp:160-298 | the call returns true exactly when the blueprint loads and the type is supported; a new name adds one variable at the end with the resolved pin type and keeps the earlier ones, while an empty, `None` or already used name (ignoring case) is turned down by `AddMemberVariable` at line 245 and the variables stay as they were, though the call still returns true |
| BlueprintUtils.AddVariableKeepsNamesDistinct | Source/GenerativeAISupportEditor/Private/MCP/GenBlueprintUtils.cpp:245 | adding a variable never gives two variables names that differ only in case |
| BlueprintUtils.AddVariableTwice | Source/GenerativeAISupportEditor/Private/MCP/GenBlueprintUtils.cpp:245 | adding the same name a second time, in any case, changes nothing |
| BlueprintUtils.AddVariableIgnoresCase | Source/GenerativeAISupportEditor/Private/MCP/GenBlueprintUtils.cpp:180-223 | two spellings of a keyword that differ only in case add the same variable, and always succeed |
| BlueprintUtils.TrimPin | Source/GenerativeAISupportEditor/Private/MCP/GenBlueprintUtils.cpp:634-645 | trimming keeps a pin's identity, keeps only links it had, leaves an exec output with at most one link (still linked if it was), and leaves every other pin alone |
| BlueprintUtils.TrimNode | Source/GenerativeAISupportEditor/Private/MCP/GenBlueprintUtils.cpp:632-645 | every pin of a node is trimmed, in place |
| BlueprintUtils.TrimGraph | Source/GenerativeAISupportEditor/Private/MCP/GenBlueprintUtils.cpp:630-645 | every node of a graph is trimmed, in place |
| BlueprintUtils.TrimGraphs | Source/GenerativeAISupportEditor/Private/MCP/GenBlueprintUtils.cpp:629-645 | every function graph is trimmed, in place |
| BlueprintUtils.CompileBlueprint | Source/GenerativeAISupportEditor/Private/MCP/GenBlueprintUtils.cpp:617-666 | the editor copy succeeds exactly when the blueprint loads, leaves event and macro graphs alone, and leaves no exec output in a function graph with more than one link |
| BlueprintUtils.CompileKeepsFirstLinks | Source/GenerativeAISupportEditor/Private/MCP/GenBlueprintUtils.cpp:641-644 | each pin keeps a subset of its links including its first one, and non-exec-output pins are untouched |
| BlueprintUtils.CompileIsIdempotent | Source/GenerativeAISupportEditor/Private/MCP/GenBlueprintUtils.cpp:617-666 | compiling a compiled blueprint changes nothing more |
| BlueprintUtils.TrimGraphIdempotent | Source/GenerativeAISupportEditor/Private/MCP/GenBlueprintUtils.cpp:634-645 | trimming a trimmed graph changes nothing |
| BlueprintUtils.CompileBlueprintRuntime | Source/GenerativeAISupport/Private/MCP/GenBlueprintUtils.cpp:781-796 | the runtime copy fails exactly when the blueprint does not load and touches no links |
| BlueprintUtils.CompileCopiesAgreeWhenTrimmed | Source/GenerativeAISupport/Private/MCP/GenBlueprintUtils.cpp:781-796 | on a blueprint with no over-linked exec output the two copies give the same blueprint |
| BlueprintUtils.TrimLeavesBackLink | Source/GenerativeAISupportEditor/Private/MCP/GenBlueprintUtils.cpp:641-644 | trimming a symmetric fan-out leaves the dropped target still linked back to the source, so the graph is no longer symmetric |
| BlueprintUtils.KeepBackLinks | Source/GenerativeAISupportEditor/Private/MCP/GenBlueprintUtils.cpp:641-644 | the links kept on a pin are exactly those whose other end does not lose its link to it |
| BlueprintUtils.BreakPin | Source/GenerativeAISupportEditor/Private/MCP/GenBlueprintUtils.cpp:634-645 | breaking links keeps a pin's identity and only links it had: an over-linked exec output keeps its first link, any other pin drops the links whose other end was cut, and no pin is over-linked afterwards |
| BlueprintUtils.BreakNode | Source/GenerativeAISupportEditor/Private/MCP/GenBlueprintUtils.cpp:632-645 | every pin of a node is handled, in place |
| BlueprintUtils.BreakGraph | Source/GenerativeAISupportEditor/Private/MCP/GenBlueprintUtils.cpp:630-645 | every node of a graph is handled, in place |
| BlueprintUtils.BreakingLinksKeepsSymmetry | Source/GenerativeAISupportEditor/Private/MCP/GenBlueprintUtils.cpp:641-644 | breaking links in both directions keeps a symmetric, directed graph symmetric |
| BlueprintUtils.BreakingLinksDropsBothEnds | Source/GenerativeAISupportEditor/Private/MCP/GenBlueprintUtils.cpp:641-644 | a dropped fan-out link disappears from both of its pins |
| BlueprintUtils.BreakGraphs | Source/GenerativeAISupportEditor/Private/MCP/GenBlueprintUtils.cpp:629-645 | every function graph is handled, and none has an over-linked exec output |
| BlueprintUtils.CompileBlueprintBreakingLinks | Source/GenerativeAISupportEditor/Private/MCP/GenBlueprintUtils.cpp:617-666 | the corrected compile succeeds exactly when the blueprint loads, leaves event and macro graphs alone, removes every over-link, and keeps every symmetric function graph symmetric |
| BlueprintUtils.BreakingLinksFixesFanOut | Source/GenerativeAISupportEditor/Private/MCP/GenBlueprintUtils.cpp:641-644 | on the fan-out example the corrected compile removes the link from both ends |
| BlueprintUtils.FirstEvent | Source/GenerativeAISupportEditor/Private/MCP/GenBlueprintUtils.cpp:977-996 | the search returns the first event node whose name matches ignoring case, or an editable BeginPlay/Tick node whose object name contains the request, and none exactly when no node matches |
| BlueprintUtils.ReportGuid | Source/GenerativeAISupportEditor/Private/MCP/GenBlueprintUtils.cpp:1037-1051 | the reported GUID is valid and is the node's GUID afterwards; a node with a valid GUID is left alone, and no other node or graph changes |
| BlueprintUtils.EventNodeGuid | Source/GenerativeAISupportEditor/Private/MCP/GenBlueprintUtils.cpp:975-1020 | in the event graph the first matching event is reported; with no match only BeginPlay or Tick, and only when the class has that function, gets a new event node, otherwise "Node not found" |
| BlueprintUtils.GetNodeGuid | Source/GenerativeAISupportEditor/Private/MCP/GenBlueprintUtils.cpp:939-1052 | each refusal comes with its message in the order of the checks and changes nothing; a reported GUID is valid and belongs to a node of the resulting blueprint |
| BlueprintUtils.SearchesIgnoreGuids | Source/GenerativeAISupportEditor/Private/MCP/GenBlueprintUtils.cpp:977-1031 | the node searches do not look at GUIDs, so assigning one does not change what they find |
| BlueprintUtils.GetNodeGuidIsStable | Source/GenerativeAISupportEditor/Private/MCP/GenBlueprintUtils.cpp:939-1052 | asking again on the blueprint the first call left gives the same answer and changes nothing more |
| BlueprintUtils.RuntimeNodeTypeFor | Source/GenerativeAISupport/Private/MCP/GenBlueprintUtils.cpp:541-596 | an `Actor` function of that name wins; then Branch, Sequence and Print/PrintString (which needs the system library) ignoring case; otherwise a `UK2Node_` class of that name, else unsupported |
| BlueprintUtils.ActorFunctionComesFirst | Source/GenerativeAISupport/Private/MCP/GenBlueprintUtils.cpp:548-556 | a node type that names an `Actor` function becomes a call to it even when it is also a keyword |
| BlueprintUtils.PrintNeedsLibrary | Source/GenerativeAISupport/Private/MCP/GenBlueprintUtils.cpp:566-580 | PrintString is refused when the system library class is missing |
| BlueprintUtils.AddNodeRuntime | Source/GenerativeAISupport/Private/MCP/GenBlueprintUtils.cpp:489-673 | a node is added exactly when the blueprint loads, the GUID parses to an event or function graph, `Actor` is found and the type is supported; it is appended to that graph alone |
| BlueprintUtils.PackagePath | Source/GenerativeAISupportEditor/Private/MCP/GenBlueprintUtils.cpp:39 | the package path is the save path, one slash and the name |
| BlueprintUtils.CreateBlueprint | Source/GenerativeAISupportEditor/Private/MCP/GenBlueprintUtils.cpp:27-94 | an unknown parent class gives nothing; an existing asset at the path is returned unchanged; otherwise the new blueprint, if made, is stored at the path and nothing else in the store changes |
| BlueprintUtils.CreateBlueprintIsIdempotent | Source/GenerativeAISupportEditor/Private/MCP/GenBlueprintUtils.cpp:41-48 | creating the same blueprint again returns the stored one and changes nothing |
| BlueprintUtils.ExistingNeedsParent | Source/GenerativeAISupportEditor/Private/MCP/GenBlueprintUtils.cpp:30-36 | an existing asset is not returned when the parent class is unknown, because the class is checked first |
| ObjectProperties.StripPathQuotes | Source/GenerativeAISupportEditor/Private/MCP/GenObjectProperties.cpp:112-117 | at most one single and one double quote are removed from each end, so at most four characters go |
| ObjectProperties.StripPathQuotesKeepsUnquoted | Source/GenerativeAISupportEditor/Private/MCP/GenObjectProperties.cpp:112-117 | a path with no quote at either end is kept as it is |
| ObjectProperties.StripPathQuotesRoundTrip | Source/GenerativeAISupportEditor/Private/MCP/GenObjectProperties.cpp:112-117 | a path wrapped in one kind of quote comes back unwrapped |
| ObjectProperties.StripPathQuotesOneSide | Source/GenerativeAISupportEditor/Private/MCP/GenObjectProperties.cpp:112-117 | a quote on only one end is removed too, because the ends are handled separately |
| ObjectProperties.StripPathQuotesBothLayers | Source/GenerativeAISupportEditor/Private/MCP/GenObjectProperties.cpp:112-117 | a double-quoted path inside single quotes is fully unwrapped |
| ObjectProperties.Unquote | Source/GenerativeAISupportEditor/Private/MCP/GenObjectProperties.cpp:280-285 | a value that starts and ends with a double quote loses both ends; any other value is kept |
| ObjectProperties.UnquoteRoundTrip | Source/GenerativeAISupportEditor/Private/MCP/GenObjectProperties.cpp:280-285 | quoting a string and unquoting it gives the string back |
| ObjectProperties.UnquoteNeedsBothEnds | Source/GenerativeAISupportEditor/Private/MCP/GenObjectProperties.cpp:280-285 | a quote at only one end is kept |
| ObjectProperties.ToBool | Source/GenerativeAISupportEditor/Private/MCP/GenObjectProperties.cpp:274 | the words true, yes and on (any case) read as true and false, no and off as false |
| ObjectProperties.TrueAndFalseWordsDiffer | Source/GenerativeAISupportEditor/Private/MCP/GenObjectProperties.cpp:274 | no text is both a true word and a false word |
| ObjectProperties.ToBoolOfNumber | Source/GenerativeAISupportEditor/Private/MCP/GenObjectProperties.cpp:274 | a decimal number reads as true exactly when it is not zero |
| ObjectProperties.NonEmpty | Source/GenerativeAISupportEditor/Private/MCP/GenObjectProperties.cpp:325 | culling keeps exactly the non-empty parts |
| ObjectProperties.SplitCulled | Source/GenerativeAISupportEditor/Private/MCP/GenObjectProperties.cpp:325 | the culled parts are non-empty and contain no separator |
| ObjectProperties.NonEmptyKeepsNonEmpty | Source/GenerativeAISupportEditor/Private/MCP/GenObjectProperties.cpp:325 | a list with no empty part is kept whole by culling |
| ObjectProperties.SplitCulledJoin | Source/GenerativeAISupportEditor/Private/MCP/GenObjectProperties.cpp:325 | splitting a join of non-empty, separator-free parts with culling gives the parts back |
| ObjectProperties.EditorComponents | Source/GenerativeAISupportEditor/Private/MCP/GenObjectProperties.cpp:316-331 | the editor's components are non-empty: split at commas when there is one, otherwise at spaces, after one pair of parentheses is removed |
| ObjectProperties.EditorVector | Source/GenerativeAISupportEditor/Private/MCP/GenObjectProperties.cpp:314-343 | a vector is set exactly when there are at least two components, from the first two (z from the third or 0) |
| ObjectProperties.EditorRotator | Source/GenerativeAISupportEditor/Private/MCP/GenObjectProperties.cpp:345-371 | a rotator needs at least three components, taken in pitch, yaw, roll order |
| ObjectProperties.EditorColor | Source/GenerativeAISupportEditor/Private/MCP/GenObjectProperties.cpp:373-400 | a colour needs at least three components, with alpha 1 when there is no fourth |
| ObjectProperties.EditorComponentsOfCommaList | Source/GenerativeAISupportEditor/Private/MCP/GenObjectProperties.cpp:316-326 | a comma list, with or without parentheses, splits back into its parts |
| ObjectProperties.EditorComponentsOfSpaceList | Source/GenerativeAISupportEditor/Private/MCP/GenObjectProperties.cpp:328-331 | a space list splits back into its parts |
| ObjectProperties.EditorVectorOfTwo | Source/GenerativeAISupportEditor/Private/MCP/GenObjectProperties.cpp:334-338 | two comma-separated numbers give a vector with z 0 |
| ObjectProperties.RuntimeTriple | Source/GenerativeAISupport/Private/MCP/GenObjectProperties.cpp:91-106 | the runtime copy takes a vector or rotator exactly when the comma split has three parts |
| ObjectProperties.RuntimeRefusesTwoParts | Source/GenerativeAISupport/Private/MCP/GenObjectProperties.cpp:94 | two parts are accepted by the editor copy and refused by the runtime copy |
| ObjectProperties.CopiesAgreeOnThreeParts | Source/GenerativeAISupport/Private/MCP/GenObjectProperties.cpp:91-98 | on three plain parts both copies set the same vector |
| ObjectProperties.ByteEnumValue | Source/GenerativeAISupportEditor/Private/MCP/GenObjectProperties.cpp:435-479 | an enum byte is set from the name's index, else from an in-range number, else refused with the valid names; quotes are removed first |
| ObjectProperties.UnknownWordSelectsFirstEntry | Source/GenerativeAISupportEditor/Private/MCP/GenObjectProperties.cpp:458-463 | an unknown name reads as number 0 and selects the enum's first entry instead of being refused |
| ObjectProperties.QuotedIndexSelects | Source/GenerativeAISupportEditor/Private/MCP/GenObjectProperties.cpp:437-463 | a quoted in-range number selects that entry |
| ObjectProperties.EnumPropertyValue | Source/GenerativeAISupportEditor/Private/MCP/GenObjectProperties.cpp:488-522 | an enum property takes the named entry's value, or else the number as written |
| ObjectProperties.PlainName | Source/GenerativeAISupportEditor/Private/MCP/GenObjectProperties.cpp:125 | the plain name is a prefix of the text, and the whole text when it does not end in a digit |
| ObjectProperties.TrailingDigits | Source/GenerativeAISupportEditor/Private/MCP/GenObjectProperties.cpp:125 | the number suffix is a run of digits at the end, empty when the text does not end in one |
| ObjectProperties.FallbackPathAsWritten | Source/GenerativeAISupportEditor/Private/MCP/GenObjectProperties.cpp:125 | the fallback path starts with the path and a dot |
| ObjectProperties.AssetName | Source/GenerativeAISupportEditor/Private/MCP/GenObjectProperties.cpp:125 | the asset name is the part after the last slash |
| ObjectProperties.FallbackPath | Source/GenerativeAISupportEditor/Private/MCP/GenObjectProperties.cpp:125 | the corrected fallback path is the path, a dot, and a name without slashes |
| ObjectProperties.FallbackPathNamesTheAsset | Source/GenerativeAISupportEditor/Private/MCP/GenObjectProperties.cpp:125 | `/Dir/Name` falls back to `/Dir/Name.Name` |
| ObjectProperties.AssetNameOfLastSegment | Source/GenerativeAISupportEditor/Private/MCP/GenObjectProperties.cpp:125 | the asset name of `dir/name` is `name` |
| ObjectProperties.FallbackRepeatsPackagePath | Source/GenerativeAISupportEditor/Private/MCP/GenObjectProperties.cpp:125 | as written the fallback repeats the whole package path after the dot, which differs from the intended object path |
| ObjectProperties.LoadWithFallback | Source/GenerativeAISupportEditor/Private/MCP/GenObjectProperties.cpp:121-134 | for the fallback rule given (the editor passes the written `FallbackPathAsWritten`), an object loads exactly when the path or its fallback loads with the requested class, and the path itself wins |
| ObjectProperties.FindProperty | Source/GenerativeAISupportEditor/Private/MCP/GenObjectProperties.cpp:211-213 | the property found is the first whose name matches ignoring case, and none exactly when no name matches |
| ObjectProperties.Suggestion | Source/GenerativeAISupportEditor/Private/MCP/GenObjectProperties.cpp:220 | a suggestion carries the type in parentheses |
| ObjectProperties.Matching | Source/GenerativeAISupportEditor/Private/MCP/GenObjectProperties.cpp:214-221 | the suggestions are exactly those for properties whose name contains the request ignoring case |
| ObjectProperties.Suggestions | Source/GenerativeAISupportEditor/Private/MCP/GenObjectProperties.cpp:223 | the text is `none` exactly when no property name contains the request |
| ObjectProperties.JoinedSuggestionsAreNotNone | Source/GenerativeAISupportEditor/Private/MCP/GenObjectProperties.cpp:223 | a non-empty suggestion list never joins to `none` |
| ObjectProperties.EmptyRequestSuggestsAll | Source/GenerativeAISupportEditor/Private/MCP/GenObjectProperties.cpp:214-223 | an empty request suggests every property, and `none` only for a class without properties |
| ObjectProperties.EditorAssign | Source/GenerativeAISupportEditor/Private/MCP/GenObjectProperties.cpp:229-529 | each property kind is set the editor's way: numbers, bools, unquoted strings, names and texts, loaded objects (the path or the fallback rule's path), vectors with two or more and rotators or colours with three or more components; arrays are refused and other kinds unsupported |
| ObjectProperties.RuntimeAssign | Source/GenerativeAISupport/Private/MCP/GenObjectProperties.cpp:68-108 | the runtime copy sets objects only by exact path, strings as given, and vectors or rotators from exactly three parts; names, texts, bytes, enums and arrays are unsupported and nothing is refused |
| ObjectProperties.CopiesDifferOnQuotedStrings | Source/GenerativeAISupport/Private/MCP/GenObjectProperties.cpp:87-89 | a quoted string loses its quotes in the editor copy and keeps them in the runtime copy |
| ObjectProperties.PropertyReply | Source/GenerativeAISupportEditor/Private/MCP/GenObjectProperties.cpp:530-548 | a set value is reported as success with the `Set c.p to v` message; an unsupported kind gives the "Failed to set" message and a refusal its own |
| ObjectProperties.NotFoundReply | Source/GenerativeAISupportEditor/Private/MCP/GenObjectProperties.cpp:213-227 | a missing property is a failure with suggestions, `none` exactly when nothing matches |
| ObjectProperties.FirstNamed | Source/GenerativeAISupportEditor/Private/MCP/GenObjectProperties.cpp:36-47 | the match is the first element whose name equals the request ignoring case |
| ObjectProperties.BlueprintTarget | Source/GenerativeAISupportEditor/Private/MCP/GenObjectProperties.cpp:82-99 | a blueprint that does not load or lacks the component is refused with its message; a found component is the template of a node whose variable name matches |
| ObjectProperties.EditorSceneTarget | Source/GenerativeAISupportEditor/Private/MCP/GenObjectProperties.cpp:21-80 | no world and no actor with that label are refused; a found component belongs to an actor whose label matches |
| ObjectProperties.RuntimeSceneTarget | Source/GenerativeAISupport/Private/MCP/GenObjectProperties.cpp:21-36 | the runtime copy matches actors by object name and refuses every miss with one message |
| ObjectProperties.LabelVersusObjectName | Source/GenerativeAISupport/Private/MCP/GenObjectProperties.cpp:25 | an actor found by its label in the editor copy is missed by the runtime copy when the label is not its object name |
| ObjectProperties.SetMaterial | Source/GenerativeAISupportEditor/Private/MCP/GenObjectProperties.cpp:110-162 | a material is set exactly when it loads (path or the fallback rule's path) and the component is a static or skeletal mesh, with the reply naming index 0 |
| ObjectProperties.SetStaticMesh | Source/GenerativeAISupportEditor/Private/MCP/GenObjectProperties.cpp:165-208 | a static mesh is set exactly when the component is a static mesh component and the mesh loads from the path or the fallback rule's path |
| ObjectProperties.EditorEditComponent | Source/GenerativeAISupportEditor/Private/MCP/GenObjectProperties.cpp:104-548 | material names go to the material path and mesh names to the mesh path, with the fallback rule given; otherwise a missing property gives suggestions and a set property is reported by name |
| ObjectProperties.EditorEditWith | Source/GenerativeAISupportEditor/Private/MCP/GenObjectProperties.cpp:12-548 | for a given fallback rule, the editor edit refuses a missing world or blueprint, and edits only a component found by label or blueprint variable name |
| ObjectProperties.EditorEdit | Source/GenerativeAISupportEditor/Private/MCP/GenObjectProperties.cpp:12-548 | as written, with `FallbackPathAsWritten` as the fallback: a missing world or blueprint is refused, and only a component found by label or blueprint variable name is edited |
| ObjectProperties.EditorEditCorrected | Source/GenerativeAISupportEditor/Private/MCP/GenObjectProperties.cpp:12-548 | the same edit with the corrected `Package.Asset` fallback |
| ObjectProperties.MaterialFallbackMissesAsset | Source/GenerativeAISupportEditor/Private/MCP/GenObjectProperties.cpp:121-131 | a material stored as `dir/Name.Name` and given as `dir/Name` is not found by the written fallback and is set by the corrected one |
| ObjectProperties.RuntimeEditComponent | Source/GenerativeAISupport/Private/MCP/GenObjectProperties.cpp:54-123 | the runtime copy gives suggestions exactly when the property is missing and reports a set property by name |
| ObjectProperties.RuntimeEdit | Source/GenerativeAISupport/Private/MCP/GenObjectProperties.cpp:13-124 | the runtime edit refuses a missing world and edits only a component of an actor found by object name |
| ObjectProperties.MaterialIgnoresProperties | Source/GenerativeAISupportEditor/Private/MCP/GenObjectProperties.cpp:110-162 | a material request never looks at the component's properties |
| ObjectProperties.MaterialNeedsMeshComponent | Source/GenerativeAISupportEditor/Private/MCP/GenObjectProperties.cpp:137-149 | a material request on a non-mesh component fails |
| ObjectProperties.MaterialNamesIgnoreCase | Source/GenerativeAISupportEditor/Private/MCP/GenObjectProperties.cpp:106-108 | the material names are matched after lower-casing, and only those three |
| WidgetUtils.FirstNamed | Source/GenerativeAISupportEditor/Private/MCP/GenWidgetUtils.cpp:31 | the widget found has the requested name ignoring case, and none is found exactly when no widget has it |
| WidgetUtils.DfsFind | Source/GenerativeAISupportEditor/Private/MCP/GenWidgetUtils.cpp:40-61 | the stack search (pop the last, push a panel's children) returns the first widget with the name in its visiting order |
| WidgetUtils.DfsVisitsTreeWidgets | Source/GenerativeAISupportEditor/Private/MCP/GenWidgetUtils.cpp:40-61 | every widget the stack search visits is a widget of the tree below the root |
| WidgetUtils.DfsStackVisitsTreeWidgets | Source/GenerativeAISupportEditor/Private/MCP/GenWidgetUtils.cpp:40-61 | every widget visited from a stack of widgets belongs to the trees below them |
| WidgetUtils.FindWidgetByName | Source/GenerativeAISupportEditor/Private/MCP/GenWidgetUtils.cpp:26-63 | no tree finds nothing; otherwise the result is the tree's own name lookup, because the stack search only visits widgets of the tree and so cannot find a name the tree lookup missed |
| WidgetUtils.FindWidget | Source/GenerativeAISupportEditor/Private/MCP/GenWidgetUtils.cpp:31 | the tree lookup finds a widget of the tree with that name, and nothing exactly when none has it |
| WidgetUtils.CreateJsonReturn | Source/GenerativeAISupportEditor/Private/MCP/GenWidgetUtils.cpp:104-123 | a success carries the message and the widget name when there is one, and no error; a failure carries the error and neither message nor name |
| WidgetUtils.ResolveWidgetClass | Source/GenerativeAISupportEditor/Private/MCP/GenWidgetUtils.cpp:160-174 | the class found must be a widget class; a class found by plain name that is not a widget is refused |
| WidgetUtils.FirstCanvas | Source/GenerativeAISupportEditor/Private/MCP/GenWidgetUtils.cpp:211-225 | the fallback parent is a canvas panel of the tree, and none exactly when the tree has no canvas panel |
| WidgetUtils.ChooseParent | Source/GenerativeAISupportEditor/Private/MCP/GenWidgetUtils.cpp:176-228 | a named parent is used exactly when it is found and is a panel, and otherwise is reported missing; with no name a panel root is used, else the first canvas panel |
| WidgetUtils.NonPanelRootHasNoParent | Source/GenerativeAISupportEditor/Private/MCP/GenWidgetUtils.cpp:194-225 | a tree whose only widget is a non-panel root offers no parent |
| WidgetUtils.RootReply | Source/GenerativeAISupportEditor/Private/MCP/GenWidgetUtils.cpp:256-271 | setting the root reports success exactly when the blueprint saves, naming the widget |
| WidgetUtils.ChildReply | Source/GenerativeAISupportEditor/Private/MCP/GenWidgetUtils.cpp:301-354 | adding a child reports success exactly when the parent accepts it and the blueprint saves |
| WidgetUtils.AddToTree | Source/GenerativeAISupportEditor/Private/MCP/GenWidgetUtils.cpp:231-355 | a new widget becomes the root only when no parent was found, it is a panel and the tree is empty; a missing parent, an unplaceable widget, a refused child and a failed save are each reported |
| WidgetUtils.AddWidgetToUserWidget | Source/GenerativeAISupportEditor/Private/MCP/GenWidgetUtils.cpp:99-356 | a missing asset, an asset that is not a widget blueprint and an unknown widget class are refused with their messages; a success needs all three and a save |
| WidgetUtils.EmptyTreeTakesOnlyPanelRoot | Source/GenerativeAISupportEditor/Private/MCP/GenWidgetUtils.cpp:238-283 | an empty tree takes the new widget as root exactly when it is a panel |
| WidgetUtils.MissingParentIsReported | Source/GenerativeAISupportEditor/Private/MCP/GenWidgetUtils.cpp:177-190 | a named parent that is not in the tree is reported and nothing is added |
| WidgetUtils.FindPropertyName | Source/GenerativeAISupportEditor/Private/MCP/GenWidgetUtils.cpp:392 | the property found has the requested name ignoring case, and none exactly when no property has it |
| WidgetUtils.FindPropertyAndObject | Source/GenerativeAISupportEditor/Private/MCP/GenWidgetUtils.cpp:358-409 | a `Slot.` prefix (any case) targets the slot's property named by the rest, needing a slot; otherwise the widget's own property |
| WidgetUtils.SlotPrefixTargetsSlot | Source/GenerativeAISupportEditor/Private/MCP/GenWidgetUtils.cpp:370-379 | `Slot.` followed by a slot property targets that slot property |
| WidgetUtils.LowerCasePrefixTargetsSlot | Source/GenerativeAISupportEditor/Private/MCP/GenWidgetUtils.cpp:370 | the prefix test ignores case, so `slot.` targets the slot as well |
| WidgetUtils.ImportVerdictAsWritten | Source/GenerativeAISupportEditor/Private/MCP/GenWidgetUtils.cpp:492-512 | as written a parse with no error is refused when it consumed the value, and a failed parse with no error is accepted |
| WidgetUtils.ImportVerdict | Source/GenerativeAISupportEditor/Private/MCP/GenWidgetUtils.cpp:492-512 | the corrected check accepts exactly a parse that succeeded with no error, and reports the error text when there is one |
| WidgetUtils.ImportVerdictIsInverted | Source/GenerativeAISupportEditor/Private/MCP/GenWidgetUtils.cpp:502-512 | on a non-empty value the written check refuses a clean parse and accepts a failed one, the opposite of the corrected check |
| WidgetUtils.EditableTree | Source/GenerativeAISupportEditor/Private/MCP/GenWidgetUtils.cpp:417-438 | a widget tree is edited only in a loaded widget blueprint that generates a user widget and has a tree |
| WidgetUtils.EditTarget | Source/GenerativeAISupportEditor/Private/MCP/GenWidgetUtils.cpp:440-464 | the property edited belongs to a widget of the tree with the requested name |
| WidgetUtils.EditWidgetProperty | Source/GenerativeAISupportEditor/Private/MCP/GenWidgetUtils.cpp:412-572 | as written: an asset that is not a user widget blueprint is refused with its message; the edit succeeds exactly when the target is found, the written (inverted) import check passes and the blueprint saves, with the success message naming property, widget and path |
| WidgetUtils.EditWidgetPropertyCorrected | Source/GenerativeAISupportEditor/Private/MCP/GenWidgetUtils.cpp:412-572 | the same edit with the corrected import check: it succeeds exactly when the target is found, the value imports cleanly and the blueprint saves |
| WidgetUtils.EditWidgetPropertyWith | Source/GenerativeAISupportEditor/Private/MCP/GenWidgetUtils.cpp:412-572 | the steps of the edit for a given import check: the refusal of a non-widget asset, success exactly when target, check and save all pass, and the success message |
| EditorWindow.LastIndexOfChar | Source/GenerativeAISupportEditor/Private/Editor/GenEditorWindow.cpp:818 | the index found holds the character with none after it, and none is found exactly when the text lacks it |
| EditorWindow.FindLastChar | Source/GenerativeAISupportEditor/Private/Editor/GenEditorWindow.cpp:818 | `FindLastChar` searches the whole string and ignores the index it is handed, which it only overwrites |
| EditorWindow.ShortenPath | Source/GenerativeAISupportEditor/Private/Editor/GenEditorWindow.cpp:803-833 | in both copies, a path of at most 40 characters is kept; a longer one with a slash after its start becomes `...` and the text from the last slash on, with no further slash; otherwise `...` and the last 37 characters |
| EditorWindow.NthSlashBack | Source/GenerativeAISupportEditor/Private/Editor/GenEditorWindow.cpp:813-825 | the n-th slash counted back from the end, when there is one, is a slash of the path |
| EditorWindow.ShortenPathIntended | Source/GenerativeAISupportEditor/Private/Editor/GenEditorWindow.cpp:813-832 | the corrected shortening keeps everything from the third slash from the end, or the last 37 characters when there are not three slashes after the start |
| EditorWindow.ShortenPathDropsParentFolders | Source/GenerativeAISupportEditor/Private/Editor/GenEditorWindow.cpp:816-823 | on `a/b/c/d` the written loop keeps only `/d`, while the intended result keeps `/b/c/d` |
| EditorWindow.AsWrittenKeepsLastFolder | Source/GenerativeAISupportEditor/Private/Editor/GenEditorWindow.cpp:816-823 | the written loop stops at the last slash of the path, so only the final segment is kept after it |
| EditorWindow.IntendedKeepsParentFolders | Source/GenerativeAISupportEditor/Private/Editor/GenEditorWindow.cpp:813-832 | counting three slashes back from the end of `a/b/c/d` reaches the slash after `a`, keeping `/b/c/d` |
| EditorWindow.Stars | Source/GenerativeAISupportEditor/Private/Editor/GenEditorWindow.cpp:790-793 | the padding is that many asterisks |
| EditorWindow.GetApiKeyPreview | Source/GenerativeAISupportEditor/Private/Editor/GenEditorWindow.cpp:776-801 | a key counts as set exactly when it is non-empty; the preview shows its first four characters and then one asterisk for each further character, at most eight, and is empty for an unset key |
| EditorWindow.ParseLines | Source/GenerativeAISupportEditor/Private/Editor/GenEditorWindow.cpp:558 | the lines hold no line break, and an empty file has none |
| EditorWindow.ParseTwoLines | Source/GenerativeAISupportEditor/Private/Editor/GenEditorWindow.cpp:558 | two lines joined by any line ending read back as those two lines |
| EditorWindow.LivePid | Source/GenerativeAISupportEditor/Private/Editor/GenEditorWindow.cpp:556-566 | a live process id is the positive number on the first line of the file, and the process runs |
| EditorWindow.IsMCPServerRunning | Source/GenerativeAISupportEditor/Private/Editor/GenEditorWindow.cpp:545-586 | the server counts as running when the file names a live process, or otherwise when a client is configured and Python runs; a file without a live process is deleted, and the port from the second line is shown |
| EditorWindow.PidFileRoundTrip | Source/GenerativeAISupportEditor/Private/Editor/GenEditorWindow.cpp:556-574 | a file holding a live pid and the port on the next line reads as running on that port |
| EditorWindow.PidFileLines | Source/GenerativeAISupportEditor/Private/Editor/GenEditorWindow.cpp:557-558 | a pid file of a pid, a line ending and the port reads as exactly those two lines |
| EditorWindow.PidFileIsLive | Source/GenerativeAISupportEditor/Private/Editor/GenEditorWindow.cpp:560-565 | a first line holding the decimal form of a positive, running pid yields that pid |
| EditorWindow.WrittenPidFileIsRead | Source/GenerativeAISupportEditor/Private/Editor/GenEditorWindow.cpp:556-574 | the file the server writes reads back as running on port 9877 when the process is live |
| EditorWindow.StalePidFileFallsBack | Source/GenerativeAISupportEditor/Private/Editor/GenEditorWindow.cpp:578-585 | a file naming no live process is deleted and the configuration check decides |
| EditorWindow.McpConfigJson | Source/GenerativeAISupportEditor/Private/Editor/GenEditorWindow.cpp:650-655 | the generated client configuration names the `unreal-handshake` server and port 9877 |
| EditorWindow.GeneratedConfigIsRecognised | Source/GenerativeAISupportEditor/Private/Editor/GenEditorWindow.cpp:588-600 | once the generated configuration is written, the fallback check reduces to whether Python runs |
| EditorWindow.EditorCheckExtendsRuntime | Source/GenerativeAISupport/Private/Editor/GenEditorWindow.cpp:762-766 | the older copy's check (Python running and a configured client) implies the editor copy's, which adds only a live PID from the file |
| SecureKey.EnvVarName | Source/GenerativeAISupport/Private/Secure/GenSecureKey.cpp:22-46 | every known provider has a `PS_…APIKEY` variable and the unknown one has none |
| SecureKey.EnvVarNamesDistinct | Source/GenerativeAISupport/Private/Secure/GenSecureKey.cpp:26-43 | no two providers share a variable |
| SecureKey.SetKey | Source/GenerativeAISupport/Private/Secure/GenSecureKey.cpp:13-16 | setting a key stores it for that provider and leaves every other provider's key and the environment switch alone |
| SecureKey.SetUseEnv | Source/GenerativeAISupport/Private/Secure/GenSecureKey.cpp:60-63 | the switch changes and the stored keys do not |
| SecureKey.StoredKey | Source/GenerativeAISupport/Private/Secure/GenSecureKey.cpp:57 | a provider without a stored key reads as empty |
| SecureKey.GetKey | Source/GenerativeAISupport/Private/Secure/GenSecureKey.cpp:18-58 | with the switch off the stored key is returned; with it on an unknown provider gets nothing, a non-empty variable wins, and an empty one falls back to the stored key |
| SecureKey.SetThenGet | Source/GenerativeAISupport/Private/Secure/GenSecureKey.cpp:13-58 | a key just set reads back unless the environment supplies one |
| SecureKey.SecondSetOverwrites | Source/GenerativeAISupport/Private/Secure/GenSecureKey.cpp:15 | the later of two keys set for a provider is the one read |
| SecureKey.SetKeyIsLocal | Source/GenerativeAISupport/Private/Secure/GenSecureKey.cpp:15 | setting one provider's key changes no other provider's answer |
| SecureKey.EnvironmentWins | Source/GenerativeAISupport/Private/Secure/GenSecureKey.cpp:49-53 | with the switch on, a non-empty variable hides any stored key |
| SecureKey.UnknownIgnoresStoredKey | Source/GenerativeAISupport/Private/Secure/GenSecureKey.cpp:44-45 | with the default switch on, a key stored for the unknown provider is never returned |
| SecureKey.SetLegacyKey | Source/GenerativeAISupport/Private/GenSecureKey.cpp:12-15 | the legacy store keeps the one key it was given |
| SecureKey.GetLegacyKey | Source/GenerativeAISupport/Private/GenSecureKey.cpp:17-25 | the legacy store returns the OpenAI variable when the switch is on and it is non-empty, and the stored key otherwise |
| SecureKey.LegacyAgreesWithOpenAI | Source/GenerativeAISupport/Private/GenSecureKey.cpp:17-25 | the legacy store answers as the current store does for OpenAI holding the same key |
| SecureKey.InitialStoresAgree | Source/GenerativeAISupport/Private/GenSecureKey.cpp:7-8 | both stores start empty with the switch on, so with no variable both read as empty |
| OAIModels.ChatModelToString | Source/GenerativeAISupport/Public/Data/OpenAI/GenOAIModels.h:51-81 | only `Custom` has no API name |
| OAIModels.ChatModelFromString | Source/GenerativeAISupport/Public/Data/OpenAI/GenOAIModels.h:55-76 | a name read back is a named model whose API name is that name |
| OAIModels.ChatModelRoundTrip | Source/GenerativeAISupport/Public/Data/OpenAI/GenOAIModels.h:55-76 | every named model's API name reads back as that model |
| OAIModels.ChatModelNamesDistinct | Source/GenerativeAISupport/Public/Data/OpenAI/GenOAIModels.h:55-76 | two different named models have different API names |
| OAIModels.WhisperModelToString | Source/GenerativeAISupport/Public/Data/OpenAI/GenOAIModels.h:87-97 | `whisper-1` is the only named Whisper model, and only `Custom` has no name |
| OAIModels.UpdateModel | Source/GenerativeAISupport/Public/Data/OpenAI/GenOAIChatStructs.h:79-89 | only the wire name changes: a custom selection with a name sends that name, a named model sends a name that reads back as it, and a custom selection without a name sends an empty name |
| OAIModels.UpdateModelIdempotent | Source/GenerativeAISupport/Public/Data/OpenAI/GenOAIChatStructs.h:79-89 | updating twice is updating once |
| OAIModels.DefaultsAreConsistent | Source/GenerativeAISupport/Public/Data/OpenAI/GenOAIChatStructs.h:61-73 | the declared default wire name is the default model's name, so updating the defaults changes nothing |
| UeJson.GetField | Source/GenerativeAISupport/Private/Models/Anthropic/GenClaudeChat.cpp:124 | a field is found exactly when some field's name equals the key ignoring case, and its value is one of those fields' values |
| UeJson.GetFieldIgnoresCase | Source/GenerativeAISupport/Private/Models/Anthropic/GenClaudeChat.cpp:124-142 | two spellings of a name that differ only in case read the same field |
| UeJson.GetFieldLastWins | Source/GenerativeAISupport/Private/Models/Anthropic/GenClaudeChat.cpp:141 | a repeated field name keeps the value parsed last |
| UeJson.GetFieldOfLowerCase | Source/GenerativeAISupport/Private/Models/OpenAI/GenOAIChat.cpp:141-150 | on lower-case names the case-insensitive lookup agrees with the exact lookup |
| UeJson.TryGetString | Source/GenerativeAISupport/Private/Models/OpenAI/GenOAIChat.cpp:150 | strings, numbers and booleans read as text; null, arrays and objects do not |
| UeJson.AsString | Source/GenerativeAISupport/Private/Models/DeepSeek/GenDSeekChat.cpp:129 | a value that does not read as text reads as the empty string |
| UeJson.TryGetStringField | Source/GenerativeAISupport/Private/Models/OpenAI/GenOAIChat.cpp:150 | the typed read succeeds only on a present field, with that field's text |
| UeJson.GetStringField | Source/GenerativeAISupport/Private/Models/Anthropic/GenClaudeChat.cpp:133 | the lenient read returns the typed read's text, or the empty string when the field is missing or not text |
| UeJson.TryGetArray | Source/GenerativeAISupport/Private/Models/OpenAI/GenOAIChat.cpp:141 | only an array value reads as an array, with its items |
| UeJson.TryGetArrayField | Source/GenerativeAISupport/Private/Models/OpenAI/GenOAIChat.cpp:141 | the typed read succeeds exactly when the field is present and holds an array |
| UeJson.GetArrayField | Source/GenerativeAISupport/Private/Models/DeepSeek/GenDSeekChat.cpp:125 | the lenient read returns the array, or an empty one when the field is missing or not an array |
| UeJson.TryGetObject | Source/GenerativeAISupport/Private/Models/OpenAI/GenOAIChat.cpp:144 | only an object value reads as an object, with its fields |
| UeJson.AsObject | Source/GenerativeAISupport/Private/Models/XAI/GenXAIChat.cpp:109 | an object value reads as its fields, any other value as an empty object |
| UeJson.TryGetObjectField | Source/GenerativeAISupport/Private/Models/OpenAI/GenOAIChat.cpp:147 | the typed read succeeds exactly when the field is present and holds an object |
| UeJson.GetObjectField | Source/GenerativeAISupport/Private/Models/Anthropic/GenClaudeChat.cpp:141 | the lenient read returns the object, or an empty one when the field is missing or not an object |
| UeJson.EmptyObjectReadsEmpty | Source/GenerativeAISupport/Private/Models/DeepSeek/GenDSeekChat.cpp:126-129 | an empty object has no fields, so every lenient read of it is empty |
| UeJson.DeserializeObject | Source/GenerativeAISupport/Private/Models/OpenAI/GenOAIChat.cpp:136-138 | a body deserializes exactly when it parses to a JSON object, and then gives that object's fields |
| ChatClients.Delivered | Source/GenerativeAISupport/Private/Models/OpenAI/GenOAIChat.cpp:117-125 | a body reaches `ProcessResponse` exactly when the request succeeded with a response |
| ChatClients.Callbacks | Source/GenerativeAISupport/Private/Models/OpenAI/GenOAIChat.cpp:34-46 | a request answers its delegate at most once: with the immediate reply, with the completion, or not at all when nothing was sent |
| ChatClients.IntText | Source/GenerativeAISupport/Private/Models/OpenAI/GenOAIChat.cpp:73 | an integer setting is written as its decimal text, with a leading minus sign for a negative value |
| ChatClients.MessageRoundTrip | Source/GenerativeAISupport/Private/Models/OpenAI/GenOAIChat.cpp:93-100 | each history message becomes a `{role, content}` object from which the message reads back unchanged |
| ChatClients.MessagesJson | Source/GenerativeAISupport/Private/Models/OpenAI/GenOAIChat.cpp:92-101 | the `messages` array has one entry per history message |
| ChatClients.MessagesRoundTrip | Source/GenerativeAISupport/Private/Models/OpenAI/GenOAIChat.cpp:92-101 | entry i of the `messages` array reads back as history message i, so order and content are kept |
| ChatClients.TuningField | Source/GenerativeAISupport/Private/Models/OpenAI/GenOAIChat.cpp:81-91 | an optional tuning field adds at most one entry, under its own key |
| ChatClients.OpenAIPayload | Source/GenerativeAISupport/Private/Models/OpenAI/GenOAIChat.cpp:68-101 | the payload never sets the same key twice |
| ChatClients.OpenAIPayloadModelAndMessages | Source/GenerativeAISupport/Private/Models/OpenAI/GenOAIChat.cpp:68-72 | the payload sends the model name after `UpdateModel`, and the whole history in order |
| ChatClients.OpenAIStopRule | Source/GenerativeAISupport/Private/Models/OpenAI/GenOAIChat.cpp:76-79 | `stop` is sent exactly when the stop text is not empty, and then carries that text |
| ChatClients.OpenAITuningRules | Source/GenerativeAISupport/Private/Models/OpenAI/GenOAIChat.cpp:81-91 | `reasoning_effort` and `verbosity` are sent exactly when they are not the default, in lower case |
| ChatClients.OpenAIStart | Source/GenerativeAISupport/Private/Models/OpenAI/GenOAIChat.cpp:60-65 | with no OpenAI key the callback gets "API key not set" and nothing is sent; otherwise the payload is sent |
| ChatClients.OpenAIProcessResponse | Source/GenerativeAISupport/Private/Models/OpenAI/GenOAIChat.cpp:133-172 | success exactly when `choices[0].message.content` reads as a string; otherwise the API's `error.message`, or "Failed to parse response: " followed by the raw body |
| ChatClients.OpenAIComplete | Source/GenerativeAISupport/Private/Models/OpenAI/GenOAIChat.cpp:116-126 | a failed request reports "Request failed"; a delivered body is handed to `ProcessResponse` |
| ChatClients.OpenAIAnswersOnce | Source/GenerativeAISupport/Private/Models/OpenAI/GenOAIChat.cpp:57-130 | every OpenAI chat request calls back exactly once, with a well-formed reply |
| ChatClients.OpenAIDecodesCompletion | Source/GenerativeAISupport/Private/Models/OpenAI/GenOAIChat.cpp:141-154 | a chat completion yields its assistant content as a success |
| ChatClients.OpenAIDecodesApiError | Source/GenerativeAISupport/Private/Models/OpenAI/GenOAIChat.cpp:161-167 | an API error object yields its message as the failure text |
| ChatClients.StructuredMessage | Source/GenerativeAISupport/Private/Models/OpenAI/GenOAIStructuredOpService.cpp:83-99 | a system message gets the JSON-only instruction appended; every other message is sent unchanged |
| ChatClients.StructuredMessagesJson | Source/GenerativeAISupport/Private/Models/OpenAI/GenOAIStructuredOpService.cpp:82-101 | the structured `messages` array has one entry per history message |
| ChatClients.StructuredMessagesRule | Source/GenerativeAISupport/Private/Models/OpenAI/GenOAIStructuredOpService.cpp:82-101 | entry i reads back as message i, with the JSON-only instruction appended exactly when its role is `system` |
| ChatClients.StructuredPayload | Source/GenerativeAISupport/Private/Models/OpenAI/GenOAIStructuredOpService.cpp:56-101 | the structured payload has distinct keys, the configured model and the rewritten history |
| ChatClients.StructuredStart | Source/GenerativeAISupport/Private/Models/OpenAI/GenOAIStructuredOpService.cpp:48-76 | no key reports "API key not set"; a schema that does not parse sends nothing and never calls back; otherwise the payload with the parsed schema is sent |
| ChatClients.StructuredProcessResponseAsWritten | Source/GenerativeAISupport/Private/Models/OpenAI/GenOAIStructuredOpService.cpp:138-185 | as written, success exactly when the first choice's message has a `content` field, even a null one |
| ChatClients.StructuredProcessResponse | Source/GenerativeAISupport/Private/Models/OpenAI/GenOAIStructuredOpService.cpp:138-185 | success exactly when the message has non-null content; a missing first message is "Unexpected JSON structure" and an unparseable body "Failed to parse JSON" |
| ChatClients.StructuredDecodersAgreeOffNull | Source/GenerativeAISupport/Private/Models/OpenAI/GenOAIStructuredOpService.cpp:157-170 | the two readings differ only on a message whose `content` is null |
| ChatClients.RefusalIsMasked | Source/GenerativeAISupport/Private/Models/OpenAI/GenOAIStructuredOpService.cpp:157-170 | a refusal sent with `content: null` reads as an empty success as written, and as the refusal failure when corrected |
| ChatClients.StructuredDecodesCompletion | Source/GenerativeAISupport/Private/Models/OpenAI/GenOAIStructuredOpService.cpp:146-163 | both readings return a completion's content as a success |
| ChatClients.StructuredComplete | Source/GenerativeAISupport/Private/Models/OpenAI/GenOAIStructuredOpService.cpp:116-126 | as written: a failed request reports "Request failed"; a delivered body is read by the decoder that lets a null `content` win |
| ChatClients.StructuredCompleteCorrected | Source/GenerativeAISupport/Private/Models/OpenAI/GenOAIStructuredOpService.cpp:116-126 | the same completion with the corrected decoder, which reports a refusal sent with null content |
| ChatClients.StructuredCompleteMasksRefusal | Source/GenerativeAISupport/Private/Models/OpenAI/GenOAIStructuredOpService.cpp:126 | a delivered refusal with `content: null` completes as an empty success as written, and as the refusal failure when corrected |
| ChatClients.StructuredAnswersAtMostOnce | Source/GenerativeAISupport/Private/Models/OpenAI/GenOAIStructuredOpService.cpp:44-127 | a structured request calls back at most once, and never exactly when a key is set and the schema does not parse |
| ChatClients.FailureText | Source/GenerativeAISupport/Private/Models/Anthropic/GenClaudeChat.cpp:94-107 | without a response the text is "No response received"; code 0 reports a timeout; otherwise the response body |
| ChatClients.ClaudeProcessResponse | Source/GenerativeAISupport/Private/Models/Anthropic/GenClaudeChat.cpp:116-150 | success exactly when `content[0].text` is present; with a `content` field any failure is the invalid-format text; `error` is read only without `content` |
| ChatClients.ClaudeStart | Source/GenerativeAISupport/Private/Models/Anthropic/GenClaudeChat.cpp:50-55 | "Anthropic API key not set" exactly when no Anthropic key is found; a Claude request always calls back |
| ChatClients.ClaudeComplete | Source/GenerativeAISupport/Private/Models/Anthropic/GenClaudeChat.cpp:91-111 | a failed request reports `FailureText`; a delivered body is handed to `ProcessResponse` |
| ChatClients.ClaudeDecodesMessage | Source/GenerativeAISupport/Private/Models/Anthropic/GenClaudeChat.cpp:124-136 | a messages-API reply yields its first text block |
| ChatClients.ClaudeDecodesError | Source/GenerativeAISupport/Private/Models/Anthropic/GenClaudeChat.cpp:139-145 | an error reply yields the error's message |
| ChatClients.ClaudeContentHidesError | Source/GenerativeAISupport/Private/Models/Anthropic/GenClaudeChat.cpp:124-149 | a reply that has `content` but no readable text is the invalid-format failure, whatever its `error` field says |
| ChatClients.DeepSeekText | Source/GenerativeAISupport/Private/Models/DeepSeek/GenDSeekChat.cpp:128-136 | the reply is the content, followed by the reasoning separator and the reasoning text when `reasoning_content` is present |
| ChatClients.DeepSeekProcessResponse | Source/GenerativeAISupport/Private/Models/DeepSeek/GenDSeekChat.cpp:115-145 | success exactly when the first choice has a `message` field; every failure is "Invalid response" |
| ChatClients.DeepSeekStart | Source/GenerativeAISupport/Private/Models/DeepSeek/GenDSeekChat.cpp:47-52 | "DeepSeek API key not set" exactly when no DeepSeek key is found; a request always calls back |
| ChatClients.DeepSeekComplete | Source/GenerativeAISupport/Private/Models/DeepSeek/GenDSeekChat.cpp:91-111 | a failed request reports `FailureText`; a delivered body is handed to `ProcessResponse` |
| ChatClients.FailuresAgree | Source/GenerativeAISupport/Private/Models/DeepSeek/GenDSeekChat.cpp:94-107 | Claude and DeepSeek report a failed request identically, with the timeout text for code 0 |
| ChatClients.DeepSeekAppendsReasoning | Source/GenerativeAISupport/Private/Models/DeepSeek/GenDSeekChat.cpp:129-138 | a reasoner reply returns the content, the separator and the reasoning, in that order |
| ChatClients.DeepSeekNullMessageSucceeds | Source/GenerativeAISupport/Private/Models/DeepSeek/GenDSeekChat.cpp:126-138 | a `null` message still counts as a success, with empty content |
| ChatClients.XAIProcessResponse | Source/GenerativeAISupport/Private/Models/XAI/GenXAIChat.cpp:96-132 | success exactly when the first choice's message has `content`; a parsed body otherwise fails with "Unexpected JSON structure", an unparseable one with "Failed to parse JSON" |
| ChatClients.XAIStart | Source/GenerativeAISupport/Private/Models/XAI/GenXAIChat.cpp:48-53 | "XAI API key not set" exactly when no xAI key is found; a request always calls back |
| ChatClients.XAIComplete | Source/GenerativeAISupport/Private/Models/XAI/GenXAIChat.cpp:81-92 | a failed request reports "Request failed"; a delivered body is handed to `ProcessResponse` |
| ChatClients.XAIDecodesCompletion | Source/GenerativeAISupport/Private/Models/XAI/GenXAIChat.cpp:104-117 | a chat completion yields its content as a success |
| ChatClients.XAIAgreesWithStructured | Source/GenerativeAISupport/Private/Models/XAI/GenXAIChat.cpp:104-117 | whenever the corrected structured reading succeeds, the xAI reading returns the same reply |
| LegacyChat.LegacyPayload | Source/GenerativeAISupport/Private/GenOAIChat.cpp:47-59 | the legacy payload has distinct keys, the stored model name and the whole history |
| LegacyChat.Activate | Source/GenerativeAISupport/Private/GenOAIChat.cpp:26-39 | "API key is not set" is broadcast exactly when the legacy key is empty; otherwise the payload is sent |
| LegacyChat.AppendMessage | Source/GenerativeAISupport/Private/GenOAIChat.cpp:152-157 | appending adds exactly one message at the end of the history and changes nothing else |
| LegacyChat.LegacyContent | Source/GenerativeAISupport/Private/GenOAIChat.cpp:114-124 | the assistant's text is found exactly when the first choice's message has a `content` field |
| LegacyChat.OnResponseAsWritten | Source/GenerativeAISupport/Private/GenOAIChat.cpp:82-149 | as written, a handler makes one or two broadcasts, and a second one is always "Unexpected response format" with the history unchanged |
| LegacyChat.OnResponse | Source/GenerativeAISupport/Private/GenOAIChat.cpp:82-149 | one well-formed broadcast; success exactly when a parsed body has no `error` field and has content, and then the reply is appended to the history |
| LegacyChat.OnResponseVersionsAgree | Source/GenerativeAISupport/Private/GenOAIChat.cpp:103-113 | the two versions differ only by the extra trailing broadcast |
| LegacyChat.ErrorIsBroadcastTwice | Source/GenerativeAISupport/Private/GenOAIChat.cpp:103-113 | a body with an `error` field is broadcast as a failure twice as written and once as corrected, and the error wins over `choices` |
| LegacyChat.ObjectErrorReadsEmpty | Source/GenerativeAISupport/Private/GenOAIChat.cpp:105-112 | an OpenAI error object reads through `GetStringField` as an empty error text |
| LegacyChat.CompletionIsRecorded | Source/GenerativeAISupport/Private/GenOAIChat.cpp:114-137 | a completion is broadcast and recorded as one assistant message at the end of the history |
| LegacyChat.HandleJsonResponse | Source/GenerativeAISupport/Private/Serialize/Legacy/GenManualSerializerHelper.cpp:14-59 | the helper broadcasts at most once, and nothing exactly when the body does not parse or has neither `error` nor content; any broadcast is the one `OnResponse` makes |
| LegacyChat.HelperHistory | Source/GenerativeAISupport/Private/Serialize/Legacy/GenManualSerializerHelper.cpp:49-52 | the history grows by one assistant message exactly on a success and is otherwise unchanged |

## Left out

- Real sockets, threads and wall-clock time: the model interleaves the socket thread and the main thread as explicit sequential steps. The 10 s and 5 s limits become budgets of ticks or chunks. The unsynchronised sharing of the queue and the response dictionary is a concurrency concern, not something these functions can state.
- JSON text parsing and serialisation (Python `json`, Unreal `FJsonSerializer`): a parse oracle stands in for both. Serialised payloads are the field lists that would be written. String escaping is not modelled.
- UTF-8 decoding of socket bytes: chunks are text.
- The Unreal object model and reflection are passed in as data and lookup functions. This covers `LoadObject`, `FindObject`, `TFieldIterator`, `SpawnActor`, the component template cast, `GetIndexByName` of an enum, and an enum property's underlying numeric property.
- `MakeLinkTo` is modelled as a `Linker` parameter that either links two pins or refuses.
- Compiling and saving blueprints, and the log messages `CompileBlueprint` produces, are not modelled.
- Widget construction and naming are outside the model. `FindWidget` is modelled as the first match of the preorder walk.
- Float conversion and formatting (`Atof`, `SanitizeFloat`, Python float repr, vector arithmetic): numeric components stay as their text, and the locations of scene objects are opaque.
- Conversions.ToVector: a three-element list whose components are not numbers passes the arity check, and `unreal.Vector` or `unreal.Rotator` then raises `TypeError`. The model keeps components as JSON values and does not model that error, so such a list counts as a vector.
- `FCString::Atoi` returns a 32-bit `int32`: the model reads digit runs as unbounded integers and does not model overflow.
- Text.Lower: lower-cases ASCII letters only. Python's `str.lower()` and `re.IGNORECASE` also fold other letters (`İ`, the Kelvin sign, `ſ` under `re.IGNORECASE`) and `FString::ToLower` folds more than ASCII on some platforms, so the case-insensitive checks are stated for ASCII case only.
- An `FName` number suffix (`Name_12`) is modelled only as far as the trailing digit test of `GetPlainNameString`.
- Pin default values and `variable_name` from `node_properties` are not modelled, in the single `AddNode` (Source/GenerativeAISupportEditor/Private/MCP/GenBlueprintNodeCreator.cpp:87-125) or in the bulk add. After creating a node, `AddNode` writes each string, number or boolean property into the pin of that name, and for `VariableGet` and `VariableSet` it sets the variable reference. The model states which node is created and the GUID returned, not the new node's pin defaults or variable reference.
- The category argument of `AddVariable` only reaches the engine, so it is not modelled.
- BlueprintUtils.AddVariable: the engine's `AddMemberVariable` is not part of this model. The refusal of a taken name is modelled against the blueprint's own variables only; names taken in a parent class, and the engine's other name checks, are not modelled. The request's `default_value`, which lines 261-279 write into the class default object through `PropertyValueFromString`, is not modelled either: the variable list records name and pin type only.
- NodeCreator.AddNodesBulk: every entry's `AddNode` call sees the blueprint as it was before the bulk add, so a node added by an earlier entry is invisible to a later one. In the runtime copy a later BeginPlay or Tick entry would reuse such a node. Node positions and the opening of the blueprint editor are not modelled, and `FGuid::ToString` is the `format` parameter.
- The runtime `AddNode` is modelled up to the node kind it creates and the GUID it returns. Placement and the engine's node allocation are not modelled.
- `TArray::Sort` in the suggestion ranking is not stable. The model ranks with a stable insertion order, so suggestions with equal scores may appear in a different order.
- Python `try`/`except` around engine calls: an engine call is an outcome that either returns or raises, and only the resulting error text is modelled.
- Process and file I/O: the script runner's temporary files and `exec`, process spawning, and PID-file writing and deletion. Only the PID file's format and the decisions made on its contents are modelled.
- Logging, on-screen debug messages, Slate UI and editor integration are not modelled.
- HTTP request construction in the LLM clients: the URL, the headers and the timeout settings. The outcome of the exchange is a parameter.
- The Claude, DeepSeek and xAI payloads are a parameter of their `Start` functions, because only their key check decides anything. Their fields are plain copies of the settings.
- `FGenChatSettings` does not declare the temperature, top-p, stop, reasoning-effort and verbosity fields that the OpenAI client reads. The model passes them as `SamplingOptions`, and the reasoning-effort and verbosity names are abstract strings.
- `bUseSchema` of the structured settings is never read, so it is not modelled.
- `FJsonValue::AsObject` on a value that is not an object returns an empty object in the model, as current engine versions do.
- ObjectProperties.ToBool: the contract states only the six words. Numeric text is stated by `ToBoolOfNumber`, and any other text, which is read through `Atoi`, has no contract of its own.
- SecureKey.EnvVarName: the contract states the `PS_` prefix, the `APIKEY` suffix and that the names are distinct (`EnvVarNamesDistinct`), not each literal name.
- Text.Atoi: the contract states only that text without a sign or a digit reads as 0. The value of a digit run is stated by `AtoiOfDecimal`, `AtoiOfDigits` and `AtoiOfNegativeDigits`.

## Findings

| source | as written | input that shows it | evidently intended | confidence | as-written member | corrected member |
|---|---|---|---|---|---|---|
| Content/Python/handlers/python_commands.py:93-218 | the `finally` block names `script_file`, which is unbound when the handler returns before creating it; the `UnboundLocalError` replaces the early return's error | `{"type": "execute_python"}` with no `script` | the reply "Missing required parameter: script" | high, not executed | PythonCommands.ExecutePythonAsWritten, PythonCommands.MissingScriptMessageIsLost | PythonCommands.ExecutePython |
| Source/GenerativeAISupportEditor/Private/MCP/GenBlueprintNodeCreator.cpp:441 | an alias whose target is a library function, such as `floatplus` for `Add_FloatFloat`, resolves only inside `TryCreateKnownNodeType`; the library search is then given the unresolved name | node type `floatplus` | an `Add_FloatFloat` call node | medium, not executed | NodeCreator.AddNode, NodeCreator.FloatPlusAliasIsLost | NodeCreator.AddNodeResolvingAliases |
| Source/GenerativeAISupportEditor/Private/MCP/GenBlueprintUtils.cpp:641-644 | `LinkedTo.RemoveAt(1)` drops the link from one side only, and the other pin still lists the removed link | an exec output pin linked to two inputs | both sides of each removed link broken, as `BreakLinkTo` does | high, not executed | BlueprintUtils.CompileBlueprint, BlueprintUtils.TrimLeavesBackLink | BlueprintUtils.CompileBlueprintBreakingLinks, BlueprintUtils.BreakingLinksKeepsSymmetry |
| Source/GenerativeAISupportEditor/Private/MCP/GenObjectProperties.cpp:125 | the fallback path appends `FName(path).GetPlainNameString()`, which is the whole package path again | `/Game/Materials/M_BirdYellow` | `/Game/Materials/M_BirdYellow.M_BirdYellow`, as the comment beside it says | high, not executed | ObjectProperties.FallbackPathAsWritten, ObjectProperties.EditorEdit, ObjectProperties.FallbackRepeatsPackagePath, ObjectProperties.MaterialFallbackMissesAsset | ObjectProperties.FallbackPath, ObjectProperties.EditorEditCorrected, ObjectProperties.FallbackPathNamesTheAsset |
| Source/GenerativeAISupportEditor/Private/MCP/GenWidgetUtils.cpp:492-512 | `ImportText` returns non-null on success and null on failure, but the code treats a non-null result with a non-empty value as an error and a null one as a success | any non-empty value that imports cleanly | success exactly when the import returns non-null without an error message | high, not executed | WidgetUtils.ImportVerdictAsWritten, WidgetUtils.EditWidgetProperty, WidgetUtils.ImportVerdictIsInverted | WidgetUtils.ImportVerdict, WidgetUtils.EditWidgetPropertyCorrected |
| Source/GenerativeAISupportEditor/Private/Editor/GenEditorWindow.cpp:813-832 | `FindLastChar` always reports the last slash of the whole string, so the three-step loop stays on the last slash | a path over 40 characters shaped like `a/b/c/d` | `...` followed by the last three path components | high, not executed | EditorWindow.ShortenPath, EditorWindow.ShortenPathDropsParentFolders | EditorWindow.ShortenPathIntended |
| Source/GenerativeAISupport/Private/Models/OpenAI/GenOAIStructuredOpService.cpp:157-170 | `HasField("content")` is true for `"content": null`, so a refusal sent with null content is reported as an empty success | a message `{"content": null, "refusal": "..."}` | the refusal reported as the error | medium, not executed | ChatClients.StructuredProcessResponseAsWritten, ChatClients.StructuredComplete, ChatClients.StructuredCompleteMasksRefusal | ChatClients.StructuredProcessResponse, ChatClients.StructuredCompleteCorrected |
| Source/GenerativeAISupport/Private/GenOAIChat.cpp:105-149 | the `error` branch does not return, so control reaches the final "Unexpected response format" broadcast | a response with an `error` field | one broadcast of the error | high, not executed | LegacyChat.OnResponseAsWritten, LegacyChat.ErrorIsBroadcastTwice | LegacyChat.OnResponse |
