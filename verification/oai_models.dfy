/**
 * The OpenAI model names (`UGenOAIModelUtils`) and the chat settings'
 * `UpdateModel`, which keeps the wire model name in step with the
 * selected enum or a custom name.
 */
module OAIModels {
  import opened Wrappers

  /** `EGenOAIChatModel`. */
  datatype ChatModel =
    | Gpt35Turbo | Gpt4 | Gpt4Turbo | Gpt41 | Gpt41Mini | Gpt41Nano
    | Gpt4oMini | Gpt4o | O3 | O3Mini | O4Mini
    | Custom

  /** `EGenOAIWhisperModel`. */
  datatype WhisperModel = Whisper1 | CustomWhisper

  /** `ChatModelToString`: the API's name for a model; `Custom` has none. */
  function ChatModelToString(m: ChatModel): (r: string)
    ensures r == "" <==> m == Custom
  {
    match m
    case Gpt35Turbo => "gpt-3.5-turbo"
    case Gpt4 => "gpt-4"
    case Gpt4Turbo => "gpt-4-turbo"
    case Gpt41 => "gpt-4.1"
    case Gpt41Mini => "gpt-4.1-mini"
    case Gpt41Nano => "gpt-4.1-nano"
    case Gpt4oMini => "gpt-4o-mini"
    case Gpt4o => "gpt-4o"
    case O3 => "o3"
    case O3Mini => "o3-mini"
    case O4Mini => "o4-mini"
    case Custom => ""
  }

  /** The model an API name stands for, if any: the inverse of `ChatModelToString`. */
  function ChatModelFromString(s: string): (r: Option<ChatModel>)
    ensures r.Some? ==> r.value != Custom && ChatModelToString(r.value) == s
  {
    if s == "gpt-3.5-turbo" then Some(Gpt35Turbo)
    else if s == "gpt-4" then Some(Gpt4)
    else if s == "gpt-4-turbo" then Some(Gpt4Turbo)
    else if s == "gpt-4.1" then Some(Gpt41)
    else if s == "gpt-4.1-mini" then Some(Gpt41Mini)
    else if s == "gpt-4.1-nano" then Some(Gpt41Nano)
    else if s == "gpt-4o-mini" then Some(Gpt4oMini)
    else if s == "gpt-4o" then Some(Gpt4o)
    else if s == "o3" then Some(O3)
    else if s == "o3-mini" then Some(O3Mini)
    else if s == "o4-mini" then Some(O4Mini)
    else None
  }

  /** Every named model's string reads back as that model. */
  lemma ChatModelRoundTrip(m: ChatModel)
    requires m != Custom
    ensures ChatModelFromString(ChatModelToString(m)) == Some(m)
  {
    match m
    case Gpt35Turbo =>
    case Gpt4 =>
      assert "gpt-4" != "gpt-3.5-turbo";
    case Gpt4Turbo =>
      assert "gpt-4-turbo" != "gpt-3.5-turbo" && "gpt-4-turbo" != "gpt-4";
    case Gpt41 =>
      assert "gpt-4.1"[5] == '.';
    case Gpt41Mini =>
      assert "gpt-4.1-mini"[5] == '.';
    case Gpt41Nano =>
      assert "gpt-4.1-nano"[5] == '.';
    case Gpt4oMini =>
      assert "gpt-4o-mini"[5] == 'o';
    case Gpt4o =>
      assert "gpt-4o"[5] == 'o';
    case O3 =>
      assert "o3"[0] == 'o';
    case O3Mini =>
      assert "o3-mini"[0] == 'o';
    case O4Mini =>
      assert "o4-mini"[1] == '4';
  }

  /** So the names of the named models are pairwise distinct. */
  lemma ChatModelNamesDistinct(a: ChatModel, b: ChatModel)
    requires a != Custom && b != Custom && a != b
    ensures ChatModelToString(a) != ChatModelToString(b)
  {
    ChatModelRoundTrip(a);
    ChatModelRoundTrip(b);
  }

  /** `WhisperModelToString`. */
  function WhisperModelToString(m: WhisperModel): (r: string)
    ensures r == "" <==> m == CustomWhisper
    ensures m == Whisper1 ==> r == "whisper-1"
  {
    match m
    case Whisper1 => "whisper-1"
    case CustomWhisper => ""
  }

  /** `FGenChatMessage`: a role (by default `user`) and the content. */
  datatype ChatMessage = ChatMessage(role: string, content: string)

  function UserMessage(content: string): ChatMessage {
    ChatMessage("user", content)
  }

  /** `FGenChatSettings`: the selected model, a custom name, the wire name, the token limit and the history. */
  datatype ChatSettings = ChatSettings(
    modelEnum: ChatModel,
    customModel: string,
    model: string,
    maxTokens: int,
    messages: seq<ChatMessage>)

  /** The declared defaults. */
  const DefaultSettings := ChatSettings(Gpt35Turbo, "", "gpt-3.5-turbo", 10000, [])

  /**
   * `UpdateModel`: a `Custom` selection with a non-empty custom name sends
   * that name; anything else sends the enum's string. Nothing else changes.
   */
  function UpdateModel(s: ChatSettings): (r: ChatSettings)
    ensures r == s.(model := r.model)
    ensures s.modelEnum == Custom && s.customModel != "" ==> r.model == s.customModel
    ensures s.modelEnum != Custom ==> ChatModelFromString(r.model) == Some(s.modelEnum)
    ensures s.modelEnum == Custom && s.customModel == "" ==> r.model == ""
  {
    ChatModelRoundTripIfNamed(s.modelEnum);
    if s.modelEnum == Custom && s.customModel != "" then s.(model := s.customModel)
    else s.(model := ChatModelToString(s.modelEnum))
  }

  lemma ChatModelRoundTripIfNamed(m: ChatModel)
    ensures m != Custom ==> ChatModelFromString(ChatModelToString(m)) == Some(m)
  {
    if m != Custom {
      ChatModelRoundTrip(m);
    }
  }

  /** Running `UpdateModel` twice is running it once. */
  lemma UpdateModelIdempotent(s: ChatSettings)
    ensures UpdateModel(UpdateModel(s)) == UpdateModel(s)
  {
  }

  /** The declared default wire name is the default enum's string, so updating the defaults changes nothing. */
  lemma DefaultsAreConsistent()
    ensures UpdateModel(DefaultSettings) == DefaultSettings
  {
  }
}
