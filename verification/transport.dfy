/**
 * The command server that runs inside the editor's Python interpreter
 * (`Content/Python/unreal_socket_server.py`).
 *
 * A single socket thread accepts one connection at a time, reads one JSON
 * command, and either answers a handshake directly or queues the command
 * under a fresh id and polls a response dictionary until the editor's main
 * thread, which pops one queued command per tick, has stored an answer.
 *
 * Threads are modelled as explicit sequential steps: `ProcessCommands` is one
 * main-thread tick, and the ten-second wait is an abstract budget of ticks
 * that happen before the deadline. Socket reads are a sequence of chunks;
 * `json.loads` is a parse oracle.
 */
module Transport {
  import opened Wrappers
  import opened Text
  import opened Json

  /** The port the server binds and the client connects to. */
  const ServerPort: nat := 9877

  /** The command types registered in `CommandDispatcher.__init__`, in order. */
  const HandlerKeys: seq<string> := [
    "handshake",
    "spawn", "create_material", "modify_object",
    "create_blueprint", "add_component", "add_variable", "add_function",
    "add_node", "connect_nodes", "compile_blueprint", "spawn_blueprint",
    "delete_node",
    "get_node_guid", "get_all_nodes", "get_node_suggestions",
    "add_nodes_bulk", "connect_nodes_bulk",
    "execute_python", "execute_unreal_command",
    "edit_component_property", "add_component_with_events",
    "get_all_scene_objects", "create_project_folder", "get_files_in_folder",
    "add_input_binding",
    "add_widget_to_user_widget", "edit_widget_property"
  ]

  /** What running a Python callable does: return a value or raise. */
  datatype Outcome = Returned(value: Json) | Raised(message: string)

  /**
   * The registered handlers other than the built-in handshake, as an oracle:
   * the command type and the command's fields determine the outcome.
   */
  type Handlers = (string, Fields) -> Outcome

  /** Values the handshake reads from the engine and the clock. */
  datatype Engine = Engine(version: string, time: string, epochSeconds: nat)

  // ---------------------------------------------------------------------
  // Dispatch
  // ---------------------------------------------------------------------

  /** The `type` field as `command.get("type")` sees it. */
  function CommandType(cmd: Fields): Json {
    LookupOr(cmd, "type", JNull)
  }

  /** The message Python gives when an unhashable value is tested with `in` on a dict. */
  function UnhashableMessage(t: Json): string
    requires !Hashable(t)
  {
    if t.JArr? then "unhashable " + "type: 'list'" else "unhashable " + "type: 'dict'"
  }

  /** `_handle_handshake`. */
  function Handshake(cmd: Fields, eng: Engine): (r: Json)
    ensures Succeeded(r)
    ensures Field(r, "message") == Some(JStr("Received: " + PyStr(LookupOr(cmd, "message", JStr("")))))
  {
    var info := JObj([
      ("status", JStr("Connected")),
      ("engine_version", JStr(eng.version)),
      ("timestamp", JNum(eng.time)),
      ("session_id", JStr("UE-" + NatToDecimal(eng.epochSeconds)))
    ]);
    var fields := [
      ("success", JBool(true)),
      ("message", JStr("Received: " + PyStr(LookupOr(cmd, "message", JStr(""))))),
      ("connection_info", info)
    ];
    assert fields[..2][..1] == [fields[0]];
    assert Lookup(fields[..2][..1], "success") == Some(JBool(true));
    assert Lookup(fields[..2], "success") == Some(JBool(true));
    JObj(fields)
  }

  /**
   * `CommandDispatcher.dispatch`. The membership test on an unhashable type
   * raises before the `try`, so that is the one way dispatch can raise.
   */
  function Dispatch(cmd: Fields, eng: Engine, handlers: Handlers): Outcome {
    var t := CommandType(cmd);
    if !Hashable(t) then Raised(UnhashableMessage(t))
    else if !(t.JStr? && t.s in HandlerKeys) then Returned(ErrorObj("Unknown command " + "type: " + PyStr(t)))
    else if t.s == "handshake" then Returned(Handshake(cmd, eng))
    else
      match handlers(t.s, cmd)
      case Returned(v) => Returned(v)
      case Raised(m) => Returned(ErrorObj(m))
  }

  /**
   * What dispatch answers: unknown hashable types get the "Unknown command
   * type" failure, registered handlers' results pass through and their
   * exceptions become failures, and only an unhashable type raises.
   */
  lemma DispatchBehaviour(cmd: Fields, eng: Engine, handlers: Handlers)
    ensures var r := Dispatch(cmd, eng, handlers);
            var t := CommandType(cmd);
            && (r.Raised? <==> !Hashable(t))
            && (r.Raised? ==> r.message == UnhashableMessage(t))
            && (Hashable(t) && !(t.JStr? && t.s in HandlerKeys) ==>
                  r == Returned(ErrorObj("Unknown command " + "type: " + PyStr(t))))
            && (t == JStr("handshake") ==> r.Returned? && Succeeded(r.value))
            && (t.JStr? && t.s in HandlerKeys && t.s != "handshake" ==>
                  r == match handlers(t.s, cmd)
                       case Returned(v) => Returned(v)
                       case Raised(m) => Returned(ErrorObj(m)))
  {
  }

  /** A command whose type is a hashable value always gets a returned dict. */
  lemma DispatchTotal(cmd: Fields, eng: Engine, handlers: Handlers)
    requires Hashable(CommandType(cmd))
    ensures Dispatch(cmd, eng, handlers).Returned?
  {
  }

  /** `create_game_mode` is sent by the adapter but is not registered. */
  lemma CreateGameModeIsUnknown(cmd: Fields, eng: Engine, handlers: Handlers)
    requires CommandType(cmd) == JStr("create_game_mode")
    ensures Dispatch(cmd, eng, handlers) == Returned(ErrorObj("Unknown command " + "type: create_gam" + "e_mode"))
  {
    assert "create_game_mode" !in HandlerKeys;
    assert "Unknown command " + "type: " + "create_game_mode" == "Unknown command " + "type: create_gam" + "e_mode";
  }

  /** A command without a `type` field is reported as type `None`. */
  lemma MissingTypeIsUnknown(cmd: Fields, eng: Engine, handlers: Handlers)
    requires Lookup(cmd, "type").None?
    ensures Dispatch(cmd, eng, handlers) == Returned(ErrorObj("Unknown command " + "type: None"))
  {
    assert "Unknown command " + "type: " + "None" == "Unknown command " + "type: None";
  }

  // ---------------------------------------------------------------------
  // Queue, response dictionary and id counter
  // ---------------------------------------------------------------------

  /** `command_queue`, `response_dict` and the socket thread's `command_counter`. */
  datatype Server = Server(queue: seq<(nat, Fields)>, responses: map<nat, Json>, counter: nat)

  function Initial(): Server {
    Server([], map[], 0)
  }

  function QueuedIds(s: Server): set<nat> {
    set k | 0 <= k < |s.queue| :: s.queue[k].0
  }

  /**
   * Every id in use came from the counter, queued ids are strictly
   * increasing in queue order, and no queued id has a response yet.
   */
  predicate Valid(s: Server) {
    && (forall k :: 0 <= k < |s.queue| ==> s.queue[k].0 < s.counter && s.queue[k].0 !in s.responses)
    && (forall a, b :: 0 <= a < b < |s.queue| ==> s.queue[a].0 < s.queue[b].0)
    && (forall id :: id in s.responses ==> id < s.counter)
  }

  lemma InitialValid()
    ensures Valid(Initial())
  {
  }

  /** Appending a command under the next counter value (lines 209-211). */
  function Enqueue(s: Server, cmd: Fields): (r: (Server, nat))
    requires Valid(s)
    ensures Valid(r.0)
    ensures r.1 == s.counter && r.0.counter == s.counter + 1
    ensures r.0.queue == s.queue + [(r.1, cmd)] && r.0.responses == s.responses
    ensures forall k :: 0 <= k < |s.queue| ==> s.queue[k].0 < r.1
    ensures r.1 !in s.responses && r.1 !in QueuedIds(s)
  {
    (Server(s.queue + [(s.counter, cmd)], s.responses, s.counter + 1), s.counter)
  }

  /** The response stored for a dispatch outcome (lines 119-124). */
  function Stored(o: Outcome): Json {
    match o
    case Returned(v) => v
    case Raised(m) => ErrorObj(m)
  }

  /**
   * The response the main thread stores for a command: dispatch's result, or
   * the failure dict when dispatch raises (lines 119-124).
   */
  type Answer = Fields -> Json

  function MainThreadAnswer(eng: Engine, handlers: Handlers): Answer {
    cmd => Stored(Dispatch(cmd, eng, handlers))
  }

  /**
   * `process_commands`: one main-thread tick. It does nothing on an empty
   * queue; otherwise it removes exactly the head and stores exactly one
   * response under the head's id, also when dispatch raises.
   */
  function ProcessCommands(s: Server, answer: Answer): (r: Server)
    ensures Valid(s) ==> Valid(r)
    ensures |s.queue| == 0 ==> r == s
    ensures |s.queue| > 0 ==>
              && r.queue == s.queue[1..]
              && r.counter == s.counter
              && r.responses.Keys == s.responses.Keys + {s.queue[0].0}
              && (Valid(s) ==> s.queue[0].0 !in s.responses)
              && (forall id :: id in s.responses && id != s.queue[0].0 ==> r.responses[id] == s.responses[id])
    ensures |s.queue| > 0 ==> r.responses[s.queue[0].0] == answer(s.queue[0].1)
  {
    if |s.queue| == 0 then s
    else
      var (id, cmd) := s.queue[0];
      Server(s.queue[1..], s.responses[id := answer(cmd)], s.counter)
  }

  /** Ticks applied one after another. */
  function Pump(s: Server, n: nat, answer: Answer): (r: Server)
    ensures Valid(s) ==> Valid(r)
    decreases n
  {
    if n == 0 then s else Pump(ProcessCommands(s, answer), n - 1, answer)
  }

  /** `n` ticks consume exactly the first `n` queued commands. */
  lemma {:induction false} PumpConsumesPrefix(s: Server, n: nat, answer: Answer)
    requires n <= |s.queue|
    ensures Pump(s, n, answer).queue == s.queue[n..]
    ensures Pump(s, n, answer).counter == s.counter
    decreases n
  {
    if n > 0 {
      var s1 := ProcessCommands(s, answer);
      PumpConsumesPrefix(s1, n - 1, answer);
      assert s1.queue[n - 1..] == s.queue[n..];
    }
  }

  /** Ticks never remove or change a stored response. */
  lemma {:induction false} PumpKeepsResponses(s: Server, n: nat, answer: Answer, id: nat)
    requires Valid(s) && id in s.responses
    ensures id in Pump(s, n, answer).responses
    ensures Pump(s, n, answer).responses[id] == s.responses[id]
    decreases n
  {
    if n > 0 {
      var s1 := ProcessCommands(s, answer);
      assert id in s1.responses && s1.responses[id] == s.responses[id];
      PumpKeepsResponses(s1, n - 1, answer, id);
    }
  }

  /**
   * FIFO: after `n` ticks the command at queue position `k < n` has been
   * answered with its own dispatch result.
   */
  lemma {:induction false} PumpAnswersInOrder(s: Server, n: nat, k: nat, answer: Answer)
    requires Valid(s) && k < n <= |s.queue|
    ensures s.queue[k].0 in Pump(s, n, answer).responses
    ensures Pump(s, n, answer).responses[s.queue[k].0] == answer(s.queue[k].1)
    decreases n
  {
    var s1 := ProcessCommands(s, answer);
    if k == 0 {
      PumpKeepsResponses(s1, n - 1, answer, s.queue[0].0);
    } else {
      assert s.queue[k] == s1.queue[k - 1];
      PumpAnswersInOrder(s1, n - 1, k - 1, answer);
    }
  }

  // ---------------------------------------------------------------------
  // Waiting for an answer
  // ---------------------------------------------------------------------

  /** What the socket thread's wait loop ends with. */
  datatype Wait = Answered(response: Json) | TimedOut

  /**
   * The poll loop of lines 214-230 with `budget` main-thread ticks before the
   * deadline: pop the own response as soon as it is there, else time out.
   */
  function Await(s: Server, id: nat, budget: nat, answer: Answer): (r: (Server, Wait))
    requires Valid(s)
    ensures Valid(r.0)
    ensures r.0.counter == s.counter
    ensures r.1.Answered? ==> id !in r.0.responses
    ensures r.1.TimedOut? ==> id !in r.0.responses
    decreases budget
  {
    if id in s.responses then
      (Server(s.queue, s.responses - {id}, s.counter), Answered(s.responses[id]))
    else if budget == 0 then
      (s, TimedOut)
    else
      Await(ProcessCommands(s, answer), id, budget - 1, answer)
  }

  /** Await touches no response but its own. */
  lemma {:induction false} AwaitKeepsOthers(s: Server, id: nat, budget: nat, answer: Answer, other: nat)
    requires Valid(s) && other != id && other in s.responses
    ensures var r := Await(s, id, budget, answer).0;
            other in r.responses && r.responses[other] == s.responses[other]
    decreases budget
  {
    if id !in s.responses && budget > 0 {
      var s1 := ProcessCommands(s, answer);
      assert other in s1.responses && s1.responses[other] == s.responses[other];
      AwaitKeepsOthers(s1, id, budget - 1, answer, other);
    }
  }

  /**
   * A command that reaches the head of the queue within the budget is
   * answered with its own dispatch result.
   */
  lemma {:induction false} AwaitAnswersHead(s: Server, cmd: Fields, budget: nat, answer: Answer)
    requires Valid(s) && |s.queue| == 0 && budget > 0
    ensures var (s1, id) := Enqueue(s, cmd);
            Await(s1, id, budget, answer).1 == Answered(answer(cmd))
  {
  }

  /**
   * A command at queue position `k` is answered with its own dispatch
   * result when the socket thread can wait more than `k` ticks: the `k`
   * commands before it are served first, one per tick.
   */
  lemma {:induction false} AwaitAnswersQueued(s: Server, k: nat, budget: nat, answer: Answer)
    requires Valid(s) && k < |s.queue| && k < budget
    ensures Await(s, s.queue[k].0, budget, answer).1 == Answered(answer(s.queue[k].1))
    decreases k
  {
    var id := s.queue[k].0;
    var s1 := ProcessCommands(s, answer);
    assert id !in s.responses;
    assert Await(s, id, budget, answer) == Await(s1, id, budget - 1, answer);
    if k > 0 {
      assert s1.queue[k - 1] == s.queue[k];
      AwaitAnswersQueued(s1, k - 1, budget - 1, answer);
    } else {
      assert id in s1.responses && s1.responses[id] == answer(s.queue[0].1);
    }
  }

  /** With a zero budget a queued command times out and stays queued. */
  lemma TimeoutLeavesCommandQueued(s: Server, cmd: Fields, answer: Answer)
    requires Valid(s)
    ensures var (s1, id) := Enqueue(s, cmd);
            var (s2, w) := Await(s1, id, 0, answer);
            w == TimedOut && id in QueuedIds(s2)
  {
    var (s1, id) := Enqueue(s, cmd);
    assert s1.queue[|s.queue|].0 == id;
  }

  // ---------------------------------------------------------------------
  // Framing: receive_all_data
  // ---------------------------------------------------------------------

  /** One `recv` call: some bytes (empty means the peer closed), a timeout, or another error. */
  datatype Chunk = Bytes(text: string) | Timeout | Broken(message: string)

  /** The decode errors `receive_all_data` reads as "incomplete, keep reading". */
  predicate NeedsMore(message: string) {
    Contains(message, "Unterminated " + "string") || Contains(message, "Expecting")
  }

  /** The text of all data chunks, in order. */
  function Joined(chunks: seq<Chunk>): string {
    if |chunks| == 0 then ""
    else (if chunks[0].Bytes? then chunks[0].text else "") + Joined(chunks[1..])
  }

  lemma {:induction false} JoinedSnoc(chunks: seq<Chunk>, k: nat)
    requires k < |chunks| && chunks[k].Bytes?
    ensures Joined(chunks[..k + 1]) == Joined(chunks[..k]) + chunks[k].text
    decreases k
  {
    if k > 0 {
      JoinedSnoc(chunks[1..], k - 1);
      assert chunks[..k + 1][1..] == chunks[1..][..k];
      assert chunks[..k][1..] == chunks[1..][..k - 1];
    } else {
      assert chunks[..1][1..] == [];
    }
  }

  /**
   * The loop of `receive_all_data` with `buffer` already read. Running out of
   * chunks is the five-second socket timeout.
   */
  function ReceiveFrom(chunks: seq<Chunk>, buffer: string, parse: Parser): (r: Option<string>)
    ensures r.Some? ==> exists k :: 0 <= k <= |chunks| && r.value == buffer + Joined(chunks[..k])
    decreases |chunks|
  {
    if |chunks| == 0 then
      assert buffer == buffer + Joined(chunks[..0]);
      Some(buffer)
    else
      match chunks[0]
      case Timeout =>
        assert buffer == buffer + Joined(chunks[..0]);
        Some(buffer)
      case Broken(_) => None
      case Bytes(t) =>
        if t == "" then
          assert buffer == buffer + Joined(chunks[..0]);
          Some(buffer)
        else
          var data := buffer + t;
          assert Joined(chunks[..1]) == t by {
            assert chunks[..1][1..] == [];
          }
          match parse(data)
          case Parsed(_) => Some(data)
          case DecodeError(m) =>
            if NeedsMore(m) then
              var r := ReceiveFrom(chunks[1..], data, parse);
              assert r.Some? ==> exists k :: 0 <= k <= |chunks| && r.value == buffer + Joined(chunks[..k]) by {
                if r.Some? {
                  var k :| 0 <= k <= |chunks[1..]| && r.value == data + Joined(chunks[1..][..k]);
                  assert chunks[..k + 1][1..] == chunks[1..][..k];
                  assert r.value == buffer + Joined(chunks[..k + 1]);
                }
              }
              r
            else None
  }

  /** `receive_all_data(conn)`. */
  function ReceiveAllData(chunks: seq<Chunk>, parse: Parser): Option<string> {
    ReceiveFrom(chunks, "", parse)
  }

  /** The first `k` reads each brought data whose buffer was reported incomplete. */
  predicate KeepsReading(chunks: seq<Chunk>, k: nat, parse: Parser) {
    && k <= |chunks|
    && forall j :: 0 <= j < k ==>
         && chunks[j].Bytes? && chunks[j].text != ""
         && parse(Joined(chunks[..j + 1])).DecodeError?
         && NeedsMore(parse(Joined(chunks[..j + 1])).message)
  }

  lemma KeepsReadingFewer(chunks: seq<Chunk>, k: nat, parse: Parser)
    requires KeepsReading(chunks, k, parse) && k > 0
    ensures KeepsReading(chunks, k - 1, parse)
  {
  }

  /** After `k` incomplete reads the loop continues with the joined buffer. */
  lemma {:induction false} ReceiveSkipsIncomplete(chunks: seq<Chunk>, k: nat, parse: Parser)
    requires KeepsReading(chunks, k, parse)
    ensures ReceiveAllData(chunks, parse) == ReceiveFrom(chunks[k..], Joined(chunks[..k]), parse)
    decreases k
  {
    if k > 0 {
      KeepsReadingFewer(chunks, k, parse);
      ReceiveSkipsIncomplete(chunks, k - 1, parse);
      JoinedSnoc(chunks, k - 1);
      assert chunks[k - 1..][1..] == chunks[k..];
    }
  }

  /** The loop returns as soon as the buffer parses. */
  lemma ReceiveStopsWhenComplete(chunks: seq<Chunk>, k: nat, parse: Parser)
    requires KeepsReading(chunks, k, parse) && k < |chunks|
    requires chunks[k].Bytes? && chunks[k].text != ""
    requires parse(Joined(chunks[..k + 1])).Parsed?
    ensures ReceiveAllData(chunks, parse) == Some(Joined(chunks[..k + 1]))
  {
    ReceiveSkipsIncomplete(chunks, k, parse);
    JoinedSnoc(chunks, k);
  }

  /** A decode error that does not mention incompleteness gives `None`. */
  lemma ReceiveRejectsMalformed(chunks: seq<Chunk>, k: nat, parse: Parser)
    requires KeepsReading(chunks, k, parse) && k < |chunks|
    requires chunks[k].Bytes? && chunks[k].text != ""
    requires parse(Joined(chunks[..k + 1])).DecodeError?
    requires !NeedsMore(parse(Joined(chunks[..k + 1])).message)
    ensures ReceiveAllData(chunks, parse) == None
  {
    ReceiveSkipsIncomplete(chunks, k, parse);
    JoinedSnoc(chunks, k);
  }

  /** End of stream or a timeout returns what was buffered, possibly partial or empty. */
  lemma ReceiveReturnsBufferOnCloseOrTimeout(chunks: seq<Chunk>, k: nat, parse: Parser)
    requires KeepsReading(chunks, k, parse)
    requires k == |chunks| || chunks[k] == Timeout || chunks[k] == Bytes("")
    ensures ReceiveAllData(chunks, parse) == Some(Joined(chunks[..k]))
  {
    ReceiveSkipsIncomplete(chunks, k, parse);
  }

  /** Any other socket error gives `None`. */
  lemma ReceiveFailsOnError(chunks: seq<Chunk>, k: nat, parse: Parser)
    requires KeepsReading(chunks, k, parse) && k < |chunks| && chunks[k].Broken?
    ensures ReceiveAllData(chunks, parse) == None
  {
    ReceiveSkipsIncomplete(chunks, k, parse);
  }

  // ---------------------------------------------------------------------
  // One connection
  // ---------------------------------------------------------------------

  /**
   * The body of the accept loop for one connection (lines 191-248): the new
   * server state and the reply sent, if any. A payload that parses to
   * something other than a JSON object makes `command.get` raise outside the
   * inner `try`; the outer handler only closes the connection.
   */
  function Serve(s: Server, data: Option<string>, parse: Parser, budget: nat, eng: Engine, handlers: Handlers)
    : (r: (Server, Option<Json>))
    requires Valid(s)
    ensures Valid(r.0)
    ensures r.1.None? <==> data.Some? && data.value != "" && parse(data.value).Parsed? && !parse(data.value).value.JObj?
    ensures data.None? || data == Some("") ==> r == (s, Some(ErrorObj("No data received" + " or error " + "parsing data")))
    ensures data.Some? && data.value != "" && parse(data.value).DecodeError? ==>
              r == (s, Some(ErrorObj("Invalid JSON: " + parse(data.value).message)))
    ensures r.0.counter == s.counter || r.0.counter == s.counter + 1
  {
    if data.None? || data.value == "" then
      (s, Some(ErrorObj("No data received" + " or error " + "parsing data")))
    else
      match parse(data.value)
      case DecodeError(m) => (s, Some(ErrorObj("Invalid JSON: " + m)))
      case Parsed(v) =>
        if !v.JObj? then (s, None)
        else if Lookup(v.fields, "type") == Some(JStr("handshake")) then
          (s, Some(Dispatch(v.fields, eng, handlers).value))
        else
          var (s1, id) := Enqueue(s, v.fields);
          var (s2, w) := Await(s1, id, budget, MainThreadAnswer(eng, handlers));
          match w
          case Answered(resp) => (s2, Some(resp))
          case TimedOut => (s2, Some(ErrorObj("Command timed " + "out")))
  }

  /** Handshakes are answered on the socket thread and consume no id. */
  lemma HandshakeTakesFastPath(s: Server, data: string, parse: Parser, budget: nat, eng: Engine, handlers: Handlers)
    requires Valid(s) && data != ""
    requires parse(data).Parsed? && parse(data).value.JObj?
    requires Lookup(parse(data).value.fields, "type") == Some(JStr("handshake"))
    ensures Serve(s, Some(data), parse, budget, eng, handlers).0 == s
    ensures Succeeded(Serve(s, Some(data), parse, budget, eng, handlers).1.value)
  {
  }

  /** Every other object payload is queued under the current counter value. */
  lemma QueuedCommandsGetFreshIds(s: Server, data: string, parse: Parser, budget: nat, eng: Engine, handlers: Handlers)
    requires Valid(s) && data != ""
    requires parse(data).Parsed? && parse(data).value.JObj?
    requires Lookup(parse(data).value.fields, "type") != Some(JStr("handshake"))
    ensures Serve(s, Some(data), parse, budget, eng, handlers).0.counter == s.counter + 1
  {
  }

  /**
   * An orphaned result, stored after its waiter timed out, is never removed
   * by later connections: each waiter pops only its own, fresh id.
   */
  lemma OrphanPersists(s: Server, id: nat, data: Option<string>, parse: Parser, budget: nat, eng: Engine, handlers: Handlers)
    requires Valid(s) && id in s.responses
    ensures id in Serve(s, data, parse, budget, eng, handlers).0.responses
  {
    if data.Some? && data.value != "" && parse(data.value).Parsed? {
      var v := parse(data.value).value;
      if v.JObj? && Lookup(v.fields, "type") != Some(JStr("handshake")) {
        var (s1, nid) := Enqueue(s, v.fields);
        AwaitKeepsOthers(s1, nid, budget, MainThreadAnswer(eng, handlers), id);
      }
    }
  }

  /** A whole connection: read the payload, then serve it. */
  function HandleConnection(s: Server, chunks: seq<Chunk>, parse: Parser, budget: nat, eng: Engine, handlers: Handlers)
    : (r: (Server, Option<Json>))
    requires Valid(s)
    ensures Valid(r.0)
  {
    Serve(s, ReceiveAllData(chunks, parse), parse, budget, eng, handlers)
  }

  /**
   * Exactly one reply per connection unless the payload is JSON that is not
   * an object: empty and unreadable payloads are answered too.
   */
  lemma OneReplyPerConnection(s: Server, chunks: seq<Chunk>, parse: Parser, budget: nat, eng: Engine, handlers: Handlers)
    requires Valid(s)
    ensures var data := ReceiveAllData(chunks, parse);
            HandleConnection(s, chunks, parse, budget, eng, handlers).1.Some? <==>
              !(data.Some? && data.value != "" && parse(data.value).Parsed? && !parse(data.value).value.JObj?)
  {
  }
}
