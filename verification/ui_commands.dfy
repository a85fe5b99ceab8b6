/**
 * `Content/Python/handlers/ui_commands.py`: the two widget handlers. Each
 * fetches the `GenWidgetUtils` object, checks its arguments, calls C++ and
 * returns the decoded reply; every exception becomes an error prefixed with
 * `Python Handler Error: `.
 */
module UiCommands {
  import opened Wrappers
  import opened Json
  import Transport

  const HandlerErrorPrefix := "Python Handler " + "Error: "
  const AddWidgetMissing := "Missing required" + " arguments: " + "user_widget_path" + ", widget_type, " + "widget_name"
  const EditWidgetMissing := "Missing required" + " arguments: " + "user_widget_path" + ", widget_name, " + "property_name, " + "value"

  /**
   * The C++ reply as the handler uses it: decoded with `json.loads` and then
   * read with `.get`, which raises for anything but a dict.
   */
  function ReadWidgetReply(call: Transport.Outcome, parse: Parser): (r: Result<Json, string>)
    ensures r.Success? ==> r.value.JObj?
    ensures call.Returned? && call.value.JStr? && parse(call.value.s).Parsed? && parse(call.value.s).value.JObj? ==>
              r == Success(parse(call.value.s).value)
    ensures call.Raised? ==> r == Failure(call.message)
  {
    match call
    case Raised(m) => Failure(m)
    case Returned(v) =>
      match Loads(v, parse)
      case Failure(m) => Failure(m)
      case Success(j) => if j.JObj? then Success(j) else Failure(NoGetMessage(j))
  }

  /** The handler's reply once the arguments are accepted. */
  function WidgetReply(call: Transport.Outcome, parse: Parser): (r: Json)
    ensures ReadWidgetReply(call, parse).Success? ==> r == ReadWidgetReply(call, parse).value
    ensures ReadWidgetReply(call, parse).Failure? ==>
              IsFailureWith(r, HandlerErrorPrefix + ReadWidgetReply(call, parse).error)
  {
    match ReadWidgetReply(call, parse)
    case Success(j) => j
    case Failure(m) => ErrorObj(HandlerErrorPrefix + m)
  }

  /**
   * `handle_add_widget_to_user_widget`. `utilsError` is what creating
   * `GenWidgetUtils` raised, if anything; it happens before the argument
   * check.
   */
  function AddWidgetToUserWidget(cmd: Fields, utilsError: Option<string>, call: Transport.Outcome, parse: Parser): (r: Json)
    ensures utilsError.Some? ==> IsFailureWith(r, HandlerErrorPrefix + utilsError.value)
    ensures utilsError.None? && !(TruthyField(cmd, "user_widget_path") && TruthyField(cmd, "widget_type")
                                  && TruthyField(cmd, "widget_name")) ==>
              IsFailureWith(r, AddWidgetMissing)
    ensures (utilsError.None? && TruthyField(cmd, "user_widget_path") && TruthyField(cmd, "widget_type")
             && TruthyField(cmd, "widget_name")) ==> r == WidgetReply(call, parse)
  {
    if utilsError.Some? then ErrorObj(HandlerErrorPrefix + utilsError.value)
    else if !(TruthyField(cmd, "user_widget_path") && TruthyField(cmd, "widget_type") && TruthyField(cmd, "widget_name")) then
      ErrorObj(AddWidgetMissing)
    else WidgetReply(call, parse)
  }

  /** `handle_edit_widget_property`: the value only has to be present, not truthy. */
  function EditWidgetProperty(cmd: Fields, utilsError: Option<string>, call: Transport.Outcome, parse: Parser): (r: Json)
    ensures utilsError.Some? ==> IsFailureWith(r, HandlerErrorPrefix + utilsError.value)
    ensures utilsError.None? && !(TruthyField(cmd, "user_widget_path") && TruthyField(cmd, "widget_name")
                                  && TruthyField(cmd, "property_name") && LookupOr(cmd, "value", JNull) != JNull) ==>
              IsFailureWith(r, EditWidgetMissing)
    ensures (utilsError.None? && TruthyField(cmd, "user_widget_path") && TruthyField(cmd, "widget_name")
             && TruthyField(cmd, "property_name") && LookupOr(cmd, "value", JNull) != JNull) ==>
              r == WidgetReply(call, parse)
  {
    if utilsError.Some? then ErrorObj(HandlerErrorPrefix + utilsError.value)
    else if !(TruthyField(cmd, "user_widget_path") && TruthyField(cmd, "widget_name")
              && TruthyField(cmd, "property_name") && LookupOr(cmd, "value", JNull) != JNull) then
      ErrorObj(EditWidgetMissing)
    else WidgetReply(call, parse)
  }

  /**
   * A dict that C++ sends back is returned as it is, failures included: the
   * handler adds nothing to it and drops nothing from it.
   */
  lemma DictReplyPassesThrough(cmd: Fields, text: string, reply: Fields, parse: Parser)
    requires TruthyField(cmd, "user_widget_path") && TruthyField(cmd, "widget_type") && TruthyField(cmd, "widget_name")
    requires parse(text) == Parsed(JObj(reply))
    ensures AddWidgetToUserWidget(cmd, None, Transport.Returned(JStr(text)), parse) == JObj(reply)
  {
  }

  /** A reply that is not a dict surfaces as the `.get` error, prefixed. */
  lemma ListReplyIsHandlerError(cmd: Fields, text: string, parse: Parser)
    requires TruthyField(cmd, "user_widget_path") && TruthyField(cmd, "widget_name") && TruthyField(cmd, "property_name")
    requires LookupOr(cmd, "value", JNull) != JNull
    requires parse(text) == Parsed(JArr([]))
    ensures IsFailureWith(EditWidgetProperty(cmd, None, Transport.Returned(JStr(text)), parse),
                          HandlerErrorPrefix + NoGetMessage(JArr([])))
    ensures PyTypeName(JArr([])) == "list"
  {
    assert ReadWidgetReply(Transport.Returned(JStr(text)), parse) == Failure(NoGetMessage(JArr([])));
  }

  /**
   * The two handlers check presence differently: an empty string is a
   * usable `value` for the property editor, while an empty widget name is
   * missing.
   */
  lemma EmptyValueIsAccepted(cmd: Fields, call: Transport.Outcome, parse: Parser)
    requires TruthyField(cmd, "user_widget_path") && TruthyField(cmd, "widget_name") && TruthyField(cmd, "property_name")
    requires Lookup(cmd, "value") == Some(JStr(""))
    ensures EditWidgetProperty(cmd, None, call, parse) == WidgetReply(call, parse)
  {
  }

  /** An empty widget name, by contrast, is refused as missing by the add handler, whatever else the command holds. */
  lemma EmptyWidgetNameIsMissing(cmd: Fields, call: Transport.Outcome, parse: Parser)
    ensures IsFailureWith(AddWidgetToUserWidget(Assign(cmd, "widget_name", JStr("")), None, call, parse), AddWidgetMissing)
  {
    assert Lookup(Assign(cmd, "widget_name", JStr("")), "widget_name") == Some(JStr(""));
  }
}
