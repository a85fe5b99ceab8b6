/**
 * The model clients' request-option rules and response decoders: OpenAI
 * chat, OpenAI structured output, Claude, DeepSeek and xAI. A request
 * starts by reading the organisation's key; an empty key answers the
 * callback at once. Otherwise a JSON payload goes out, and when the HTTP
 * exchange ends the callback receives exactly one `(content, error,
 * success)` reply, decoded from the response text through the lenient
 * `FJsonObject` getters. HTTP itself, headers and URLs are outside the
 * model; the exchange's outcome and the text parser are parameters.
 */
module ChatClients {
  import opened Wrappers
  import opened Text
  import opened Json
  import opened UeJson
  import opened OAIModels
  import SecureKey

  // ---------------------------------------------------------------------
  // Replies, exchanges and the start of a request
  // ---------------------------------------------------------------------

  /** What a response callback receives. */
  datatype Reply = Reply(content: string, error: string, success: bool)

  function Done(content: string): Reply {
    Reply(content, "", true)
  }

  function Fail(message: string): Reply {
    Reply("", message, false)
  }

  /** A success carries no error text and a failure no content. */
  predicate WellFormed(r: Reply) {
    (r.success ==> r.error == "") && (!r.success ==> r.content == "")
  }

  /** How the HTTP exchange ended: a response object with the request's success flag, or no response at all. */
  datatype Exchange =
    | Received(ok: bool, code: int, body: string)
    | NoResponse

  /** The body handed to `ProcessResponse`: present only when the request succeeded with a response. */
  function Delivered(e: Exchange): (r: Option<string>)
    ensures r.Some? <==> e.Received? && e.ok
  {
    if e.Received? && e.ok then Some(e.body) else None
  }

  /** The first step of `MakeRequest`: an immediate callback, a request sent, or neither. */
  datatype Start = CallsBack(reply: Reply) | Sends(payload: Fields) | Silent

  /** The callbacks one call makes, given how its request (if any) completes. */
  function Callbacks(start: Start, completion: Reply): (r: seq<Reply>)
    ensures |r| <= 1
    ensures |r| == 0 <==> start.Silent?
    ensures start.CallsBack? ==> r == [start.reply]
    ensures start.Sends? ==> r == [completion]
  {
    match start
    case CallsBack(reply) => [reply]
    case Sends(_) => [completion]
    case Silent => []
  }

  // ---------------------------------------------------------------------
  // Payload pieces
  // ---------------------------------------------------------------------

  /** No name is bound twice, so the serialised object is unambiguous. */
  predicate DistinctKeys(fields: Fields) {
    forall i, j :: 0 <= i < j < |fields| ==> fields[i].0 != fields[j].0
  }

  /** In an object without repeated names, a binding is what a lookup finds. */
  lemma LookupOfDistinct(fields: Fields, key: string, v: Json)
    requires DistinctKeys(fields)
    requires exists k :: 0 <= k < |fields| && fields[k] == (key, v)
    ensures Lookup(fields, key) == Some(v)
  {
    var k :| 0 <= k < |fields| && fields[k] == (key, v);
    var w := Lookup(fields, key).value;
    var k' :| 0 <= k' < |fields| && fields[k'] == (key, w);
    if k < k' {
      assert fields[k].0 == fields[k'].0;
    } else if k' < k {
      assert fields[k'].0 == fields[k].0;
    }
  }

  /** `SetNumberField` with an integer: the number's decimal text (formatting of doubles is outside the model). */
  function IntText(n: int): (r: string)
    ensures |r| > 0
    ensures n >= 0 ==> r == NatToDecimal(n)
    ensures n < 0 ==> r[0] == '-' && r[1..] == NatToDecimal(-n)
  {
    if n < 0 then "-" + NatToDecimal(-n) else NatToDecimal(n)
  }

  /** One history entry as the clients serialise it. */
  function MessageJson(m: ChatMessage): Json {
    JObj([("role", JStr(m.role)), ("content", JStr(m.content))])
  }

  /** How the server reads a message object back. */
  function MessageOfJson(j: Json): Option<ChatMessage> {
    match j
    case JObj(f) =>
      (match (Lookup(f, "role"), Lookup(f, "content"))
       case (Some(JStr(role)), Some(JStr(content))) => Some(ChatMessage(role, content))
       case _ => None)
    case _ => None
  }

  /** A serialised message reads back as itself. */
  lemma MessageRoundTrip(m: ChatMessage)
    ensures MessageOfJson(MessageJson(m)) == Some(m)
  {
    var f := [("role", JStr(m.role)), ("content", JStr(m.content))];
    assert f[..1] == [("role", JStr(m.role))];
    assert Lookup(f[..1], "role") == Some(JStr(m.role));
    assert Lookup(f, "role") == Some(JStr(m.role));
  }

  /** The history in order, one object per message. */
  function MessagesJson(ms: seq<ChatMessage>): (r: seq<Json>)
    ensures |r| == |ms|
  {
    seq(|ms|, i requires 0 <= i < |ms| => MessageJson(ms[i]))
  }

  /** The serialised history reads back as the history, message for message and in order. */
  lemma MessagesRoundTrip(ms: seq<ChatMessage>)
    ensures |MessagesJson(ms)| == |ms|
    ensures forall i :: 0 <= i < |ms| ==> MessageOfJson(MessagesJson(ms)[i]) == Some(ms[i])
  {
    forall i | 0 <= i < |ms|
      ensures MessageOfJson(MessagesJson(ms)[i]) == Some(ms[i])
    {
      MessageRoundTrip(ms[i]);
    }
  }

  // ---------------------------------------------------------------------
  // OpenAI chat (Models/OpenAI/GenOAIChat.cpp)
  // ---------------------------------------------------------------------

  /** A reasoning-effort or verbosity setting: the API default, or a named level. */
  datatype Tuning = DefaultTuning | Level(name: string)

  /**
   * The options the request reads besides `FGenChatSettings`' declared
   * fields. Temperature and top-p are doubles, kept as their JSON text.
   */
  datatype SamplingOptions = SamplingOptions(
    temperature: string,
    topP: string,
    stop: string,
    reasoningEffort: Tuning,
    verbosity: Tuning)

  /** An optional field: omitted for the default, otherwise the level's name in lower case. */
  function TuningField(key: string, t: Tuning): (r: Fields)
    ensures |r| <= 1
    ensures forall k :: 0 <= k < |r| ==> r[k].0 == key
  {
    match t
    case DefaultTuning => []
    case Level(name) => [(key, JStr(Lower(name)))]
  }

  /** The chat payload, built from the settings after `UpdateModel`. */
  function OpenAIPayload(s: ChatSettings, o: SamplingOptions): (r: Fields)
    ensures DistinctKeys(r)
  {
    var u := UpdateModel(s);
    var sampling := [ ("model", JStr(u.model)),
                      ("max_completion_tokens", JNum(IntText(u.maxTokens))),
                      ("temperature", JNum(o.temperature)),
                      ("top_p", JNum(o.topP)) ];
    var withStop := sampling + (if o.stop != "" then [("stop", JStr(o.stop))] else []);
    var withEffort := withStop + TuningField("reasoning_effort", o.reasoningEffort);
    var withVerbosity := withEffort + TuningField("verbosity", o.verbosity);
    AppendKeyed(sampling, "stop", if o.stop != "" then [("stop", JStr(o.stop))] else []);
    AppendKeyed(withStop, "reasoning_effort", TuningField("reasoning_effort", o.reasoningEffort));
    AppendKeyed(withEffort, "verbosity", TuningField("verbosity", o.verbosity));
    AppendKeyed(withVerbosity, "messages", [("messages", JArr(MessagesJson(u.messages)))]);
    withVerbosity + [("messages", JArr(MessagesJson(u.messages)))]
  }

  /** Adding at most one binding of a name the fields do not bind keeps the names distinct. */
  lemma AppendKeyed(fields: Fields, key: string, more: Fields)
    requires DistinctKeys(fields) && forall k :: 0 <= k < |fields| ==> fields[k].0 != key
    requires |more| <= 1 && forall k :: 0 <= k < |more| ==> more[k].0 == key
    ensures DistinctKeys(fields + more)
  {
  }

  /** The payload names the updated model and carries the history unchanged and in order. */
  lemma OpenAIPayloadModelAndMessages(s: ChatSettings, o: SamplingOptions)
    ensures Lookup(OpenAIPayload(s, o), "model") == Some(JStr(UpdateModel(s).model))
    ensures Lookup(OpenAIPayload(s, o), "messages") == Some(JArr(MessagesJson(s.messages)))
  {
    var p := OpenAIPayload(s, o);
    assert p[0] == ("model", JStr(UpdateModel(s).model));
    LookupOfDistinct(p, "model", JStr(UpdateModel(s).model));
    assert p[|p| - 1] == ("messages", JArr(MessagesJson(s.messages)));
    LookupOfDistinct(p, "messages", JArr(MessagesJson(s.messages)));
  }

  /** `stop` is sent exactly when it is non-empty, and then as given. */
  lemma OpenAIStopRule(s: ChatSettings, o: SamplingOptions)
    ensures HasKey(OpenAIPayload(s, o), "stop") <==> o.stop != ""
    ensures o.stop != "" ==> Lookup(OpenAIPayload(s, o), "stop") == Some(JStr(o.stop))
  {
    var p := OpenAIPayload(s, o);
    if o.stop != "" {
      assert p[4] == ("stop", JStr(o.stop));
      LookupOfDistinct(p, "stop", JStr(o.stop));
    }
  }

  /** `reasoning_effort` and `verbosity` are sent exactly when not left at the default, as the lower-cased level name. */
  lemma OpenAITuningRules(s: ChatSettings, o: SamplingOptions)
    ensures HasKey(OpenAIPayload(s, o), "reasoning_effort") <==> o.reasoningEffort.Level?
    ensures o.reasoningEffort.Level? ==>
      Lookup(OpenAIPayload(s, o), "reasoning_effort") == Some(JStr(Lower(o.reasoningEffort.name)))
    ensures HasKey(OpenAIPayload(s, o), "verbosity") <==> o.verbosity.Level?
    ensures o.verbosity.Level? ==>
      Lookup(OpenAIPayload(s, o), "verbosity") == Some(JStr(Lower(o.verbosity.name)))
  {
    var p := OpenAIPayload(s, o);
    var n := 4 + (if o.stop != "" then 1 else 0);
    if o.reasoningEffort.Level? {
      assert p[n] == ("reasoning_effort", JStr(Lower(o.reasoningEffort.name)));
      LookupOfDistinct(p, "reasoning_effort", JStr(Lower(o.reasoningEffort.name)));
    }
    if o.verbosity.Level? {
      var m := n + |TuningField("reasoning_effort", o.reasoningEffort)|;
      assert p[m] == ("verbosity", JStr(Lower(o.verbosity.name)));
      LookupOfDistinct(p, "verbosity", JStr(Lower(o.verbosity.name)));
    }
  }

  /** `MakeRequest`: an empty OpenAI key answers at once; otherwise the payload is sent. */
  function OpenAIStart(s: ChatSettings, o: SamplingOptions, keys: SecureKey.KeyStore, env: SecureKey.Environment): (r: Start)
    ensures SecureKey.GetKey(keys, SecureKey.OpenAI, env) == "" ==> r == CallsBack(Fail("API key not set"))
    ensures SecureKey.GetKey(keys, SecureKey.OpenAI, env) != "" ==> r == Sends(OpenAIPayload(s, o))
  {
    if SecureKey.GetKey(keys, SecureKey.OpenAI, env) == "" then CallsBack(Fail("API key not set"))
    else Sends(OpenAIPayload(s, o))
  }

  /** `choices[0].message.content`, read with the `TryGet` forms. */
  function OpenAIContent(obj: Fields): Option<string> {
    match TryGetArrayField(obj, "choices")
    case Some(choices) =>
      if |choices| == 0 then None
      else
        (match TryGetObject(choices[0])
         case Some(choice) =>
           (match TryGetObjectField(choice, "message")
            case Some(message) => TryGetStringField(message, "content")
            case None => None)
         case None => None)
    case None => None
  }

  /** `error.message`, read with the `TryGet` forms. */
  function OpenAIError(obj: Fields): Option<string> {
    match TryGetObjectField(obj, "error")
    case Some(error) => TryGetStringField(error, "message")
    case None => None
  }

  /** `ProcessResponse`: the content if there is one, else the error message, else the raw text quoted. */
  function OpenAIProcessResponse(raw: string, parse: JsonReader): (r: Reply)
    ensures WellFormed(r)
    ensures r.success <==> DeserializeObject(raw, parse).Some? && OpenAIContent(DeserializeObject(raw, parse).value).Some?
    ensures r.success ==> r.content == OpenAIContent(DeserializeObject(raw, parse).value).value
    ensures !r.success && DeserializeObject(raw, parse).Some? && OpenAIError(DeserializeObject(raw, parse).value).Some? ==>
      r.error == OpenAIError(DeserializeObject(raw, parse).value).value
    ensures !r.success && (DeserializeObject(raw, parse).None? || OpenAIError(DeserializeObject(raw, parse).value).None?) ==>
      r.error == "Failed to parse " + "response: " + raw
  {
    match DeserializeObject(raw, parse)
    case Some(obj) =>
      (match OpenAIContent(obj)
       case Some(content) => Done(content)
       case None =>
         (match OpenAIError(obj)
          case Some(message) => Fail(message)
          case None => Fail("Failed to parse " + "response: " + raw)))
    case None => Fail("Failed to parse " + "response: " + raw)
  }

  /** The completion handler: a failed exchange gives `Request failed`, a delivered body is decoded. */
  function OpenAIComplete(e: Exchange, parse: JsonReader): (r: Reply)
    ensures WellFormed(r)
    ensures Delivered(e).None? ==> r == Fail("Request failed")
    ensures Delivered(e).Some? ==> r == OpenAIProcessResponse(e.body, parse)
  {
    match Delivered(e)
    case Some(body) => OpenAIProcessResponse(body, parse)
    case None => Fail("Request failed")
  }

  /** Every chat request answers its callback exactly once, with a well-formed reply. */
  lemma OpenAIAnswersOnce(s: ChatSettings, o: SamplingOptions, keys: SecureKey.KeyStore, env: SecureKey.Environment, e: Exchange, parse: JsonReader)
    ensures |Callbacks(OpenAIStart(s, o, keys, env), OpenAIComplete(e, parse))| == 1
    ensures WellFormed(Callbacks(OpenAIStart(s, o, keys, env), OpenAIComplete(e, parse))[0])
  {
  }

  /** A chat completion as the API sends it: one choice whose message holds the content. */
  function CompletionJson(content: Json): Json {
    JObj([("id", JStr("chatcmpl")),
          ("choices", JArr([JObj([("index", JNum("0")),
                                  ("message", JObj([("role", JStr("assistant")), ("content", content)]))])]))])
  }

  /** An API error as the server sends it. */
  function ApiErrorJson(message: string): Json {
    JObj([("error", JObj([("message", JStr(message)), ("type", JStr("invalid_request_error"))]))])
  }

  lemma CompletionFields(content: Json)
    ensures GetArrayField(CompletionJson(content).fields, "choices") == CompletionJson(content).fields[1].1.items
    ensures TryGetArrayField(CompletionJson(content).fields, "choices") == Some(CompletionJson(content).fields[1].1.items)
    ensures HasField(CompletionJson(content).fields, "choices")
  {
  }

  lemma CompletionMessage(content: Json)
    ensures var choice := [("index", JNum("0")), ("message", JObj([("role", JStr("assistant")), ("content", content)]))];
      && GetField(choice, "message") == Some(JObj([("role", JStr("assistant")), ("content", content)]))
      && GetField([("role", JStr("assistant")), ("content", content)], "content") == Some(content)
  {
  }

  /** A completion with text content decodes to that text. */
  lemma OpenAIDecodesCompletion(content: string, raw: string, parse: JsonReader)
    requires parse(raw) == Some(CompletionJson(JStr(content)))
    ensures OpenAIProcessResponse(raw, parse) == Done(content)
  {
    CompletionFields(JStr(content));
    CompletionMessage(JStr(content));
  }

  /** An API error decodes to its message. */
  lemma OpenAIDecodesApiError(message: string, raw: string, parse: JsonReader)
    requires parse(raw) == Some(ApiErrorJson(message))
    ensures OpenAIProcessResponse(raw, parse) == Fail(message)
  {
    var err := [("message", JStr(message)), ("type", JStr("invalid_request_error"))];
    assert !EqualsIgnoreCase("type", "message") by {
      assert |Lower("type")| != |Lower("message")|;
    }
    assert err[..1] == [("message", JStr(message))];
    assert GetField(err, "message") == Some(JStr(message));
    assert !EqualsIgnoreCase("error", "choices") by {
      assert |Lower("error")| != |Lower("choices")|;
    }
  }

  // ---------------------------------------------------------------------
  // OpenAI structured output (Models/OpenAI/GenOAIStructuredOpService.cpp)
  // ---------------------------------------------------------------------

  /** `FGenOAIStructuredChatSettings`. */
  datatype StructuredSettings = StructuredSettings(chat: ChatSettings, useSchema: bool, name: string, schemaJson: string)

  const JsonOnlySuffix := " Generate " + "Response in " + "JSON only. Use " + "proper JSON " + "formatting and " + "avoid introducin" + "g line breaks " + "inside string " + "values."

  /** The message as sent: a `system` role (compared as `FString`s, so ignoring case) gets the JSON-only suffix. */
  function StructuredMessage(m: ChatMessage): (r: ChatMessage)
    ensures r.role == m.role
    ensures EqualsIgnoreCase(m.role, "system") ==> r.content == m.content + JsonOnlySuffix
    ensures !EqualsIgnoreCase(m.role, "system") ==> r == m
  {
    if EqualsIgnoreCase(m.role, "system") then m.(content := m.content + JsonOnlySuffix) else m
  }

  function StructuredMessagesJson(ms: seq<ChatMessage>): (r: seq<Json>)
    ensures |r| == |ms|
  {
    seq(|ms|, i requires 0 <= i < |ms| => MessageJson(StructuredMessage(ms[i])))
  }

  /** Only system messages are extended; every other message goes out unchanged, and the order is kept. */
  lemma StructuredMessagesRule(ms: seq<ChatMessage>)
    ensures |StructuredMessagesJson(ms)| == |ms|
    ensures forall i :: 0 <= i < |ms| && EqualsIgnoreCase(ms[i].role, "system") ==>
      MessageOfJson(StructuredMessagesJson(ms)[i]) == Some(ChatMessage(ms[i].role, ms[i].content + JsonOnlySuffix))
    ensures forall i :: 0 <= i < |ms| && !EqualsIgnoreCase(ms[i].role, "system") ==>
      MessageOfJson(StructuredMessagesJson(ms)[i]) == Some(ms[i])
  {
    forall i | 0 <= i < |ms|
      ensures MessageOfJson(StructuredMessagesJson(ms)[i]) == Some(StructuredMessage(ms[i]))
    {
      MessageRoundTrip(StructuredMessage(ms[i]));
    }
  }

  /** The structured payload: the model as stored (no `UpdateModel`), the schema wrapped in `response_format`, the token limit and the messages. */
  function StructuredPayload(ss: StructuredSettings, schema: Fields): (r: Fields)
    ensures DistinctKeys(r)
    ensures Lookup(r, "model") == Some(JStr(ss.chat.model))
    ensures Lookup(r, "messages") == Some(JArr(StructuredMessagesJson(ss.chat.messages)))
  {
    var format := JObj([("type", JStr("json_schema")),
                        ("json_schema", JObj([("name", JStr(ss.name)), ("schema", JObj(schema))]))]);
    var r := [("model", JStr(ss.chat.model)),
              ("response_format", format),
              ("max_completion_tokens", JNum(IntText(ss.chat.maxTokens))),
              ("messages", JArr(StructuredMessagesJson(ss.chat.messages)))];
    assert r[0] == ("model", JStr(ss.chat.model));
    LookupOfDistinct(r, "model", JStr(ss.chat.model));
    assert r[3] == ("messages", JArr(StructuredMessagesJson(ss.chat.messages)));
    LookupOfDistinct(r, "messages", JArr(StructuredMessagesJson(ss.chat.messages)));
    r
  }

  /** `MakeRequest`: an empty key answers at once; a schema that is not a JSON object ends the call with no callback at all. */
  function StructuredStart(ss: StructuredSettings, keys: SecureKey.KeyStore, env: SecureKey.Environment, parse: JsonReader): (r: Start)
    ensures SecureKey.GetKey(keys, SecureKey.OpenAI, env) == "" ==> r == CallsBack(Fail("API key not set"))
    ensures SecureKey.GetKey(keys, SecureKey.OpenAI, env) != "" && DeserializeObject(ss.schemaJson, parse).None? ==> r.Silent?
    ensures SecureKey.GetKey(keys, SecureKey.OpenAI, env) != "" && DeserializeObject(ss.schemaJson, parse).Some? ==>
      r == Sends(StructuredPayload(ss, DeserializeObject(ss.schemaJson, parse).value))
  {
    if SecureKey.GetKey(keys, SecureKey.OpenAI, env) == "" then CallsBack(Fail("API key not set"))
    else
      match DeserializeObject(ss.schemaJson, parse)
      case None => Silent
      case Some(schema) => Sends(StructuredPayload(ss, schema))
  }

  /** The message object of `choices[0]`, read with the lenient getters. */
  function FirstMessage(obj: Fields): Option<Fields> {
    if !HasField(obj, "choices") then None
    else
      var choices := GetArrayField(obj, "choices");
      if |choices| == 0 then None
      else
        var choice := AsObject(choices[0]);
        if HasField(choice, "message") then Some(GetObjectField(choice, "message")) else None
  }

  /**
   * `ProcessResponse` as written: a `content` field, even a JSON `null`,
   * wins, so a refusal that comes with `"content": null` reads as an empty
   * success.
   */
  function StructuredProcessResponseAsWritten(raw: string, parse: JsonReader): (r: Reply)
    ensures WellFormed(r)
    ensures DeserializeObject(raw, parse).None? ==> r == Fail("Failed to parse " + "JSON")
    ensures r.success <==> (DeserializeObject(raw, parse).Some? && FirstMessage(DeserializeObject(raw, parse).value).Some?
      && HasField(FirstMessage(DeserializeObject(raw, parse).value).value, "content"))
  {
    match DeserializeObject(raw, parse)
    case None => Fail("Failed to parse " + "JSON")
    case Some(obj) =>
      match FirstMessage(obj)
      case None => Fail("Unexpected JSON " + "structure")
      case Some(message) =>
        if HasField(message, "content") then Done(GetStringField(message, "content"))
        else if HasField(message, "refusal") then Fail(GetStringField(message, "refusal"))
        else Fail("Unexpected JSON " + "structure")
  }

  /** A `content` field that holds a value other than `null`. */
  predicate HasContent(message: Fields) {
    HasField(message, "content") && !GetField(message, "content").value.JNull?
  }

  /** `ProcessResponse` as intended: the refusal is consulted whenever there is no non-null content. */
  function StructuredProcessResponse(raw: string, parse: JsonReader): (r: Reply)
    ensures WellFormed(r)
    ensures DeserializeObject(raw, parse).None? ==> r == Fail("Failed to parse " + "JSON")
    ensures r.success <==> (DeserializeObject(raw, parse).Some? && FirstMessage(DeserializeObject(raw, parse).value).Some?
      && HasContent(FirstMessage(DeserializeObject(raw, parse).value).value))
    ensures DeserializeObject(raw, parse).Some? && FirstMessage(DeserializeObject(raw, parse).value).None? ==>
      r == Fail("Unexpected JSON " + "structure")
  {
    match DeserializeObject(raw, parse)
    case None => Fail("Failed to parse " + "JSON")
    case Some(obj) =>
      match FirstMessage(obj)
      case None => Fail("Unexpected JSON " + "structure")
      case Some(message) =>
        if HasContent(message) then Done(GetStringField(message, "content"))
        else if HasField(message, "refusal") then Fail(GetStringField(message, "refusal"))
        else Fail("Unexpected JSON " + "structure")
  }

  /** The two decoders differ only on a message whose `content` is `null`. */
  lemma StructuredDecodersAgreeOffNull(raw: string, parse: JsonReader)
    requires DeserializeObject(raw, parse).Some? ==>
      FirstMessage(DeserializeObject(raw, parse).value).None? ||
      !HasField(FirstMessage(DeserializeObject(raw, parse).value).value, "content") ||
      !GetField(FirstMessage(DeserializeObject(raw, parse).value).value, "content").value.JNull?
    ensures StructuredProcessResponse(raw, parse) == StructuredProcessResponseAsWritten(raw, parse)
  {
  }

  /** A refusal as the API sends it: the message has `content: null` and the refusal text. */
  function RefusalJson(refusal: string): Json {
    JObj([("choices", JArr([JObj([("message", JObj([("role", JStr("assistant")), ("content", JNull), ("refusal", JStr(refusal))]))])]))])
  }

  /** The refusal's message object, field by field. */
  lemma RefusalMessageFields(refusal: string)
    ensures var m := [("role", JStr("assistant")), ("content", JNull), ("refusal", JStr(refusal))];
      && GetField(m, "content") == Some(JNull)
      && GetField(m, "refusal") == Some(JStr(refusal))
  {
    var m := [("role", JStr("assistant")), ("content", JNull), ("refusal", JStr(refusal))];
    assert !EqualsIgnoreCase("refusal", "content") by {
      assert Lower("refusal")[0] == 'r' && Lower("content")[0] == 'c';
    }
    assert m[..2] == [("role", JStr("assistant")), ("content", JNull)];
  }

  /** As written, a refusal reads as an empty success; as intended it is a failure carrying the refusal text. */
  lemma RefusalIsMasked(refusal: string, raw: string, parse: JsonReader)
    requires parse(raw) == Some(RefusalJson(refusal))
    ensures StructuredProcessResponseAsWritten(raw, parse) == Done("")
    ensures StructuredProcessResponse(raw, parse) == Fail(refusal)
  {
    RefusalMessageFields(refusal);
  }

  /** A completion with text content decodes to that text either way. */
  lemma StructuredDecodesCompletion(content: string, raw: string, parse: JsonReader)
    requires parse(raw) == Some(CompletionJson(JStr(content)))
    ensures StructuredProcessResponse(raw, parse) == Done(content)
    ensures StructuredProcessResponseAsWritten(raw, parse) == Done(content)
  {
    CompletionFields(JStr(content));
    CompletionMessage(JStr(content));
  }

  /** `OnResponse` as written: a delivered body goes to the decoder that lets a null `content` win. */
  function StructuredComplete(e: Exchange, parse: JsonReader): (r: Reply)
    ensures WellFormed(r)
    ensures Delivered(e).None? ==> r == Fail("Request failed")
    ensures Delivered(e).Some? ==> r == StructuredProcessResponseAsWritten(e.body, parse)
  {
    match Delivered(e)
    case Some(body) => StructuredProcessResponseAsWritten(body, parse)
    case None => Fail("Request failed")
  }

  /** `OnResponse` with the corrected decoder, which reports a refusal sent with null content. */
  function StructuredCompleteCorrected(e: Exchange, parse: JsonReader): (r: Reply)
    ensures WellFormed(r)
    ensures Delivered(e).None? ==> r == Fail("Request failed")
    ensures Delivered(e).Some? ==> r == StructuredProcessResponse(e.body, parse)
  {
    match Delivered(e)
    case Some(body) => StructuredProcessResponse(body, parse)
    case None => Fail("Request failed")
  }

  /** A delivered refusal with null content completes as an empty success, and as the refusal once corrected. */
  lemma StructuredCompleteMasksRefusal(refusal: string, e: Exchange, parse: JsonReader)
    requires Delivered(e).Some? && parse(e.body) == Some(RefusalJson(refusal))
    ensures StructuredComplete(e, parse) == Done("")
    ensures StructuredCompleteCorrected(e, parse) == Fail(refusal)
  {
    RefusalIsMasked(refusal, e.body, parse);
  }

  /** The callback runs exactly once, except when the key is set and the schema does not parse: then never. */
  lemma StructuredAnswersAtMostOnce(ss: StructuredSettings, keys: SecureKey.KeyStore, env: SecureKey.Environment, e: Exchange, parse: JsonReader)
    ensures var calls := Callbacks(StructuredStart(ss, keys, env, parse), StructuredComplete(e, parse));
      && |calls| <= 1
      && (|calls| == 0 <==> SecureKey.GetKey(keys, SecureKey.OpenAI, env) != "" && DeserializeObject(ss.schemaJson, parse).None?)
  {
  }

  // ---------------------------------------------------------------------
  // Claude and DeepSeek transport failures
  // ---------------------------------------------------------------------

  const NoResponseText := "Request failed. " + "No response " + "received."
  const TimedOutText := "Request most " + "likely timed " + "out. No response" + " received."

  /** The failure text Claude and DeepSeek report: the body, or a fixed text without a response, and the timeout text for code 0. */
  function FailureText(e: Exchange): (r: string)
    ensures e.NoResponse? ==> r == NoResponseText
    ensures e.Received? && e.code == 0 ==> r == TimedOutText
    ensures e.Received? && e.code != 0 ==> r == e.body
  {
    match e
    case NoResponse => NoResponseText
    case Received(_, code, body) => if code == 0 then TimedOutText else body
  }

  // ---------------------------------------------------------------------
  // Claude (Models/Anthropic/GenClaudeChat.cpp)
  // ---------------------------------------------------------------------

  const ClaudeInvalid := "Invalid response" + " format from " + "Claude API"

  /** `content[0].text`: an array whose first element is an object with a `text` field. */
  function ClaudeText(obj: Fields): Option<string> {
    match TryGetArrayField(obj, "content")
    case Some(items) =>
      if |items| == 0 then None
      else
        (match TryGetObject(items[0])
         case Some(block) => if HasField(block, "text") then Some(GetStringField(block, "text")) else None
         case None => None)
    case None => None
  }

  /** The error object's `message`, defaulting when it has none. */
  function ClaudeErrorText(obj: Fields): string {
    var error := GetObjectField(obj, "error");
    if HasField(error, "message") then GetStringField(error, "message") else "Unknown error " + "from Claude API"
  }

  /**
   * `ProcessResponse`: a `content` field decides alone (text or the invalid
   * format message); only without one is `error` examined.
   */
  function ClaudeProcessResponse(raw: string, parse: JsonReader): (r: Reply)
    ensures WellFormed(r)
    ensures r.success <==> DeserializeObject(raw, parse).Some? && ClaudeText(DeserializeObject(raw, parse).value).Some?
    ensures r.success ==> r.content == ClaudeText(DeserializeObject(raw, parse).value).value
    ensures DeserializeObject(raw, parse).Some? && HasField(DeserializeObject(raw, parse).value, "content") && !r.success ==>
      r.error == ClaudeInvalid
    ensures (DeserializeObject(raw, parse).Some? && !HasField(DeserializeObject(raw, parse).value, "content")
      && HasField(DeserializeObject(raw, parse).value, "error")) ==>
      r == Fail(ClaudeErrorText(DeserializeObject(raw, parse).value))
    ensures (DeserializeObject(raw, parse).None? ||
             (!HasField(DeserializeObject(raw, parse).value, "content") && !HasField(DeserializeObject(raw, parse).value, "error"))) ==>
      r == Fail(ClaudeInvalid)
  {
    match DeserializeObject(raw, parse)
    case None => Fail(ClaudeInvalid)
    case Some(obj) =>
      if HasField(obj, "content") then
        match ClaudeText(obj)
        case Some(text) => Done(text)
        case None => Fail(ClaudeInvalid)
      else if HasField(obj, "error") then Fail(ClaudeErrorText(obj))
      else Fail(ClaudeInvalid)
  }

  /** `MakeRequest`'s key check and completion handler. */
  function ClaudeStart(payload: Fields, keys: SecureKey.KeyStore, env: SecureKey.Environment): (r: Start)
    ensures SecureKey.GetKey(keys, SecureKey.Anthropic, env) == "" <==> r == CallsBack(Fail("Anthropic API " + "key not set"))
    ensures !r.Silent?
  {
    if SecureKey.GetKey(keys, SecureKey.Anthropic, env) == "" then CallsBack(Fail("Anthropic API " + "key not set"))
    else Sends(payload)
  }

  function ClaudeComplete(e: Exchange, parse: JsonReader): (r: Reply)
    ensures WellFormed(r)
    ensures Delivered(e).None? ==> r == Fail(FailureText(e))
    ensures Delivered(e).Some? ==> r == ClaudeProcessResponse(e.body, parse)
  {
    match Delivered(e)
    case Some(body) => ClaudeProcessResponse(body, parse)
    case None => Fail(FailureText(e))
  }

  /** A message as the Messages API sends it: a list of content blocks, text first. */
  function ClaudeMessageJson(text: string): Json {
    JObj([("type", JStr("message")), ("content", JArr([JObj([("type", JStr("text")), ("text", JStr(text))])]))])
  }

  /** An error as the Messages API sends it. */
  function ClaudeErrorJson(message: string): Json {
    JObj([("type", JStr("error")), ("error", JObj([("type", JStr("overloaded_error")), ("message", JStr(message))]))])
  }

  /** A message decodes to its first text block. */
  lemma ClaudeDecodesMessage(text: string, raw: string, parse: JsonReader)
    requires parse(raw) == Some(ClaudeMessageJson(text))
    ensures ClaudeProcessResponse(raw, parse) == Done(text)
  {
  }

  /** An error decodes to its message. */
  lemma ClaudeDecodesError(message: string, raw: string, parse: JsonReader)
    requires parse(raw) == Some(ClaudeErrorJson(message))
    ensures ClaudeProcessResponse(raw, parse) == Fail(message)
  {
    var top := [("type", JStr("error")), ("error", JObj([("type", JStr("overloaded_error")), ("message", JStr(message))]))];
    assert !EqualsIgnoreCase("error", "content") by {
      assert |Lower("error")| != |Lower("content")|;
    }
    assert !EqualsIgnoreCase("type", "content") by {
      assert |Lower("type")| != |Lower("content")|;
    }
    assert top[..1] == [("type", JStr("error"))];
    assert !HasField(top, "content");
  }

  /** A malformed `content` hides an `error` beside it. */
  lemma ClaudeContentHidesError(raw: string, parse: JsonReader)
    requires DeserializeObject(raw, parse).Some?
    requires HasField(DeserializeObject(raw, parse).value, "content")
    requires ClaudeText(DeserializeObject(raw, parse).value).None?
    ensures ClaudeProcessResponse(raw, parse) == Fail(ClaudeInvalid)
  {
  }

  // ---------------------------------------------------------------------
  // DeepSeek (Models/DeepSeek/GenDSeekChat.cpp)
  // ---------------------------------------------------------------------

  const ReasoningSeparator := "\n\nReasoning:\n"

  /** The reply text: the content, then the reasoning when the message has a `reasoning_content` field. */
  function DeepSeekText(message: Fields): (r: string)
    ensures !HasField(message, "reasoning_content") ==> r == GetStringField(message, "content")
    ensures HasField(message, "reasoning_content") ==>
      r == GetStringField(message, "content") + ReasoningSeparator + GetStringField(message, "reasoning_content")
  {
    var content := GetStringField(message, "content");
    if HasField(message, "reasoning_content") then content + ReasoningSeparator + GetStringField(message, "reasoning_content")
    else content
  }

  /** `ProcessResponse`: any first choice with a `message` field succeeds, whatever the message holds. */
  function DeepSeekProcessResponse(raw: string, parse: JsonReader): (r: Reply)
    ensures WellFormed(r)
    ensures r.success <==> DeserializeObject(raw, parse).Some? && FirstMessage(DeserializeObject(raw, parse).value).Some?
    ensures r.success ==> r.content == DeepSeekText(FirstMessage(DeserializeObject(raw, parse).value).value)
    ensures !r.success ==> r.error == "Invalid response"
  {
    match DeserializeObject(raw, parse)
    case None => Fail("Invalid response")
    case Some(obj) =>
      match FirstMessage(obj)
      case Some(message) => Done(DeepSeekText(message))
      case None => Fail("Invalid response")
  }

  function DeepSeekStart(payload: Fields, keys: SecureKey.KeyStore, env: SecureKey.Environment): (r: Start)
    ensures SecureKey.GetKey(keys, SecureKey.DeepSeek, env) == "" <==> r == CallsBack(Fail("DeepSeek API " + "key not set"))
    ensures !r.Silent?
  {
    if SecureKey.GetKey(keys, SecureKey.DeepSeek, env) == "" then CallsBack(Fail("DeepSeek API " + "key not set"))
    else Sends(payload)
  }

  function DeepSeekComplete(e: Exchange, parse: JsonReader): (r: Reply)
    ensures WellFormed(r)
    ensures Delivered(e).None? ==> r == Fail(FailureText(e))
    ensures Delivered(e).Some? ==> r == DeepSeekProcessResponse(e.body, parse)
  {
    match Delivered(e)
    case Some(body) => DeepSeekProcessResponse(body, parse)
    case None => Fail(FailureText(e))
  }

  /** Claude and DeepSeek report a failed exchange identically. */
  lemma FailuresAgree(e: Exchange, parse: JsonReader)
    requires Delivered(e).None?
    ensures ClaudeComplete(e, parse) == DeepSeekComplete(e, parse)
    ensures e.Received? && e.code == 0 ==> DeepSeekComplete(e, parse) == Fail(TimedOutText)
  {
  }

  /** A reasoner completion as the API sends it. */
  function ReasonerJson(content: string, reasoning: string): Json {
    JObj([("choices", JArr([JObj([("message", JObj([("role", JStr("assistant")), ("content", JStr(content)), ("reasoning_content", JStr(reasoning))]))])]))])
  }

  /** The reasoning is appended after the content. */
  lemma DeepSeekAppendsReasoning(content: string, reasoning: string, raw: string, parse: JsonReader)
    requires parse(raw) == Some(ReasonerJson(content, reasoning))
    ensures DeepSeekProcessResponse(raw, parse) == Done(content + ReasoningSeparator + reasoning)
  {
    var m := [("role", JStr("assistant")), ("content", JStr(content)), ("reasoning_content", JStr(reasoning))];
    assert !EqualsIgnoreCase("reasoning_content", "content") by {
      assert |Lower("reasoning_content")| != |Lower("content")|;
    }
    assert m[..2] == [("role", JStr("assistant")), ("content", JStr(content))];
    assert GetField(m, "content") == Some(JStr(content));
  }

  /** A choice whose message is `null` still succeeds, with empty text. */
  lemma DeepSeekNullMessageSucceeds(raw: string, parse: JsonReader)
    requires parse(raw) == Some(JObj([("choices", JArr([JObj([("message", JNull)])]))]))
    ensures DeepSeekProcessResponse(raw, parse) == Done("")
  {
    assert GetObjectField([("message", JNull)], "message") == [];
    EmptyObjectReadsEmpty("content");
    EmptyObjectReadsEmpty("reasoning_content");
  }

  // ---------------------------------------------------------------------
  // xAI (Models/XAI/GenXAIChat.cpp)
  // ---------------------------------------------------------------------

  /** `ProcessResponse`: the first choice's message must have a `content` field. */
  function XAIProcessResponse(raw: string, parse: JsonReader): (r: Reply)
    ensures WellFormed(r)
    ensures DeserializeObject(raw, parse).None? ==> r == Fail("Failed to parse " + "JSON")
    ensures r.success <==> (DeserializeObject(raw, parse).Some? && FirstMessage(DeserializeObject(raw, parse).value).Some?
      && HasField(FirstMessage(DeserializeObject(raw, parse).value).value, "content"))
    ensures r.success ==> r.content == GetStringField(FirstMessage(DeserializeObject(raw, parse).value).value, "content")
    ensures DeserializeObject(raw, parse).Some? && !r.success ==> r.error == "Unexpected JSON " + "structure"
  {
    match DeserializeObject(raw, parse)
    case None => Fail("Failed to parse " + "JSON")
    case Some(obj) =>
      match FirstMessage(obj)
      case Some(message) =>
        if HasField(message, "content") then Done(GetStringField(message, "content"))
        else Fail("Unexpected JSON " + "structure")
      case None => Fail("Unexpected JSON " + "structure")
  }

  function XAIStart(payload: Fields, keys: SecureKey.KeyStore, env: SecureKey.Environment): (r: Start)
    ensures SecureKey.GetKey(keys, SecureKey.XAI, env) == "" <==> r == CallsBack(Fail("XAI API key not " + "set"))
    ensures !r.Silent?
  {
    if SecureKey.GetKey(keys, SecureKey.XAI, env) == "" then CallsBack(Fail("XAI API key not " + "set"))
    else Sends(payload)
  }

  function XAIComplete(e: Exchange, parse: JsonReader): (r: Reply)
    ensures WellFormed(r)
    ensures Delivered(e).None? ==> r == Fail("Request failed")
    ensures Delivered(e).Some? ==> r == XAIProcessResponse(e.body, parse)
  {
    match Delivered(e)
    case Some(body) => XAIProcessResponse(body, parse)
    case None => Fail("Request failed")
  }

  /** A completion decodes to its text. */
  lemma XAIDecodesCompletion(content: string, raw: string, parse: JsonReader)
    requires parse(raw) == Some(CompletionJson(JStr(content)))
    ensures XAIProcessResponse(raw, parse) == Done(content)
  {
    CompletionFields(JStr(content));
    CompletionMessage(JStr(content));
  }

  /** Where the structured decoder succeeds, xAI's succeeds with the same text. */
  lemma XAIAgreesWithStructured(raw: string, parse: JsonReader)
    requires StructuredProcessResponse(raw, parse).success
    ensures XAIProcessResponse(raw, parse) == StructuredProcessResponse(raw, parse)
  {
  }
}
