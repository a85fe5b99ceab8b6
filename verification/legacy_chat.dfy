/**
 * The legacy OpenAI chat node (`UGenOAIChat` in the module's root) and the
 * legacy serializer helper. Both read the same response shape; the node
 * broadcasts through its `Finished` delegate, and both append the
 * assistant's reply to the chat history on success. The key comes from
 * the legacy single-key store.
 */
module LegacyChat {
  import opened Wrappers
  import opened Text
  import opened Json
  import opened UeJson
  import opened OAIModels
  import opened SecureKey
  import opened ChatClients

  /** The broadcasts a handler makes and the settings (with the history) it leaves behind. */
  datatype Handled = Handled(broadcasts: seq<Reply>, settings: ChatSettings)

  const NoServerText := "Failed to get " + "response from " + "server"
  const UnexpectedText := "Unexpected " + "response format"

  /** `Activate`'s payload: the stored model name (no `UpdateModel`), the token limit and the history. */
  function LegacyPayload(s: ChatSettings): (r: Fields)
    ensures DistinctKeys(r)
    ensures Lookup(r, "model") == Some(JStr(s.model))
    ensures Lookup(r, "messages") == Some(JArr(MessagesJson(s.messages)))
  {
    var r := [("model", JStr(s.model)),
              ("max_completion_tokens", JNum(IntText(s.maxTokens))),
              ("messages", JArr(MessagesJson(s.messages)))];
    assert r[0] == ("model", JStr(s.model));
    LookupOfDistinct(r, "model", JStr(s.model));
    assert r[2] == ("messages", JArr(MessagesJson(s.messages)));
    LookupOfDistinct(r, "messages", JArr(MessagesJson(s.messages)));
    r
  }

  /** `Activate`: an empty legacy key broadcasts at once and sends nothing. */
  function Activate(s: ChatSettings, store: LegacyStore, env: Environment): (r: Start)
    ensures GetLegacyKey(store, env) == "" <==> r == CallsBack(Fail("API key is not " + "set"))
    ensures GetLegacyKey(store, env) != "" ==> r == Sends(LegacyPayload(s))
  {
    if GetLegacyKey(store, env) == "" then CallsBack(Fail("API key is not " + "set"))
    else Sends(LegacyPayload(s))
  }

  /** `AppendMessage`: one message at the end of the history; nothing else changes. */
  function AppendMessage(s: ChatSettings, role: string, content: string): (r: ChatSettings)
    ensures |r.messages| == |s.messages| + 1
    ensures r.messages[..|s.messages|] == s.messages
    ensures r.messages[|s.messages|] == ChatMessage(role, content)
    ensures r.modelEnum == s.modelEnum && r.customModel == s.customModel && r.model == s.model && r.maxTokens == s.maxTokens
  {
    s.(messages := s.messages + [ChatMessage(role, content)])
  }

  /** The assistant's text: `choices[0].message.content`, present as a field. */
  function LegacyContent(obj: Fields): (r: Option<string>)
    ensures r.Some? <==> FirstMessage(obj).Some? && HasField(FirstMessage(obj).value, "content")
    ensures r.Some? ==> r.value == GetStringField(FirstMessage(obj).value, "content")
  {
    match FirstMessage(obj)
    case Some(message) => if HasField(message, "content") then Some(GetStringField(message, "content")) else None
    case None => None
  }

  /**
   * `OnResponse` as written: the `error` branch broadcasts and then falls
   * through to the closing "unexpected format" broadcast, so an API error
   * is broadcast twice.
   */
  function OnResponseAsWritten(e: Exchange, s: ChatSettings, parse: JsonReader): (r: Handled)
    ensures Delivered(e).None? ==> r == Handled([Fail(NoServerText)], s)
    ensures 1 <= |r.broadcasts| <= 2
    ensures |r.broadcasts| == 2 ==> r.broadcasts[1] == Fail(UnexpectedText) && r.settings == s
  {
    match Delivered(e)
    case None => Handled([Fail(NoServerText)], s)
    case Some(body) =>
      match DeserializeObject(body, parse)
      case None => Handled([Fail(UnexpectedText)], s)
      case Some(obj) =>
        if HasField(obj, "error") then
          Handled([Fail(GetStringField(obj, "error")), Fail(UnexpectedText)], s)
        else
          match LegacyContent(obj)
          case Some(content) => Handled([Done(content)], AppendMessage(s, "assistant", content))
          case None => Handled([Fail(UnexpectedText)], s)
  }

  /** `OnResponse` as intended: the error branch returns after its broadcast. */
  function OnResponse(e: Exchange, s: ChatSettings, parse: JsonReader): (r: Handled)
    ensures |r.broadcasts| == 1 && WellFormed(r.broadcasts[0])
    ensures Delivered(e).None? ==> r == Handled([Fail(NoServerText)], s)
    ensures r.broadcasts[0].success <==>
      (Delivered(e).Some? && DeserializeObject(e.body, parse).Some?
       && !HasField(DeserializeObject(e.body, parse).value, "error")
       && LegacyContent(DeserializeObject(e.body, parse).value).Some?)
    ensures r.broadcasts[0].success ==>
      r.settings == AppendMessage(s, "assistant", r.broadcasts[0].content)
    ensures !r.broadcasts[0].success ==> r.settings == s
  {
    match Delivered(e)
    case None => Handled([Fail(NoServerText)], s)
    case Some(body) =>
      match DeserializeObject(body, parse)
      case None => Handled([Fail(UnexpectedText)], s)
      case Some(obj) =>
        if HasField(obj, "error") then Handled([Fail(GetStringField(obj, "error"))], s)
        else
          match LegacyContent(obj)
          case Some(content) => Handled([Done(content)], AppendMessage(s, "assistant", content))
          case None => Handled([Fail(UnexpectedText)], s)
  }

  /** Apart from the error case the two versions behave the same. */
  lemma OnResponseVersionsAgree(e: Exchange, s: ChatSettings, parse: JsonReader)
    ensures |OnResponseAsWritten(e, s, parse).broadcasts| == 1 ==> OnResponseAsWritten(e, s, parse) == OnResponse(e, s, parse)
    ensures |OnResponseAsWritten(e, s, parse).broadcasts| == 2 ==>
      OnResponseAsWritten(e, s, parse).broadcasts == OnResponse(e, s, parse).broadcasts + [Fail(UnexpectedText)]
  {
  }

  /** A delivered body with an `error` field: two broadcasts as written, one as intended, and the error wins over `choices` in both. */
  lemma ErrorIsBroadcastTwice(body: string, s: ChatSettings, parse: JsonReader)
    requires DeserializeObject(body, parse).Some? && HasField(DeserializeObject(body, parse).value, "error")
    ensures OnResponseAsWritten(Received(true, 200, body), s, parse).broadcasts ==
      [Fail(GetStringField(DeserializeObject(body, parse).value, "error")), Fail(UnexpectedText)]
    ensures OnResponse(Received(true, 200, body), s, parse) ==
      Handled([Fail(GetStringField(DeserializeObject(body, parse).value, "error"))], s)
  {
  }

  /**
   * OpenAI sends `error` as an object, and `GetStringField` reads an object
   * as `""`: the broadcast error text is empty.
   */
  lemma ObjectErrorReadsEmpty(message: string, body: string, s: ChatSettings, parse: JsonReader)
    requires parse(body) == Some(ApiErrorJson(message))
    ensures OnResponse(Received(true, 200, body), s, parse) == Handled([Fail("")], s)
  {
    assert GetField(ApiErrorJson(message).fields, "error").value.JObj?;
  }

  /** A completion is broadcast and appended to the history as one assistant message. */
  lemma CompletionIsRecorded(content: string, body: string, s: ChatSettings, parse: JsonReader)
    requires parse(body) == Some(CompletionJson(JStr(content)))
    ensures OnResponse(Received(true, 200, body), s, parse) ==
      Handled([Done(content)], s.(messages := s.messages + [ChatMessage("assistant", content)]))
  {
    CompletionFields(JStr(content));
    CompletionMessage(JStr(content));
    assert !EqualsIgnoreCase("choices", "error") by {
      assert |Lower("choices")| != |Lower("error")|;
    }
    assert !EqualsIgnoreCase("id", "error") by {
      assert |Lower("id")| != |Lower("error")|;
    }
    var top := CompletionJson(JStr(content)).fields;
    assert top[..1] == [("id", JStr("chatcmpl"))];
    assert !HasField(top, "error");
  }

  // ---------------------------------------------------------------------
  // The legacy serializer helper
  // ---------------------------------------------------------------------

  /**
   * `HandleJsonResponse`: the same reading as `OnResponse`, but an
   * unparseable or unexpected response broadcasts nothing.
   */
  function HandleJsonResponse(body: string, s: ChatSettings, parse: JsonReader): (r: Handled)
    ensures |r.broadcasts| <= 1
    ensures |r.broadcasts| == 0 <==>
      (DeserializeObject(body, parse).None?
       || (!HasField(DeserializeObject(body, parse).value, "error") && LegacyContent(DeserializeObject(body, parse).value).None?))
    ensures |r.broadcasts| == 0 ==> r.settings == s
    ensures |r.broadcasts| == 1 ==> r == OnResponse(Received(true, 200, body), s, parse)
  {
    match DeserializeObject(body, parse)
    case None => Handled([], s)
    case Some(obj) =>
      if HasField(obj, "error") then Handled([Fail(GetStringField(obj, "error"))], s)
      else
        match LegacyContent(obj)
        case Some(content) => Handled([Done(content)], AppendMessage(s, "assistant", content))
        case None => Handled([], s)
  }

  /** The helper grows the history by exactly one message when it reports success, and leaves it alone otherwise. */
  lemma HelperHistory(body: string, s: ChatSettings, parse: JsonReader)
    ensures var r := HandleJsonResponse(body, s, parse);
      && (|r.broadcasts| == 1 && r.broadcasts[0].success ==>
            r.settings.messages == s.messages + [ChatMessage("assistant", r.broadcasts[0].content)])
      && (!(|r.broadcasts| == 1 && r.broadcasts[0].success) ==> r.settings == s)
  {
  }
}
