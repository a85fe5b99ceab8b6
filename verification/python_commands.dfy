/**
 * The guards of `Content/Python/handlers/python_commands.py`: the script
 * runner `handle_execute_python` and the console runner
 * `handle_execute_unreal_command`.
 *
 * What happens when a script or console command actually runs (the temporary
 * files, `exec`, the log tail) is an input: `ScriptRun` for a script and the
 * optional new log text for a console command.
 */
module PythonCommands {
  import opened Wrappers
  import opened Text
  import opened Json
  import Transport
  import Client

  /** What running a script produced: its status file, its captured output and error, the new log lines. */
  datatype ScriptRun = ScriptRun(success: bool, output: string, error: string, newLogs: Option<string>)

  /** The literals the in-editor script guard looks for; unlike the adapter, it compares case-sensitively. */
  const ScriptKeywords: seq<string> := [
    "unreal.EditorAssetLibrary.delete_asset",
    "unreal.EditorLevelLibrary.destroy_actor",
    "unreal.save_package",
    "os.remove",
    "shutil.rmtree",
    "file.write",
    "unreal.EditorAssetLibrary.save_asset"
  ]

  predicate IsDestructiveScript(script: string) {
    exists k :: 0 <= k < |ScriptKeywords| && Contains(script, ScriptKeywords[k])
  }

  const ScriptRefusal :=
    "This script may " + "involve destruct" + "ive actions " + "(e.g., deleting " + "or saving " + "files) "
    + "not explicitly " + "requested. " + "Please confirm " + "with 'Yes, " + "execute it' or " + "set force=True."

  /**
   * What the `finally` of `handle_execute_python` raises when the handler
   * leaves before `script_file` is bound (the Python 3.11 wording).
   */
  const UnboundScriptFile := "cannot access " + "local variable " + "'script_file' " + "where it is not " + "associated with " + "a value"

  /** `"".join(...)` of new log lines is appended only when it is non-empty. */
  function WithLogs(text: string, heading: string, logs: Option<string>): (r: string)
    ensures logs.None? || logs == Some("") ==> r == text
    ensures logs.Some? && logs.value != "" ==> r == text + heading + logs.value
  {
    if logs.Some? && logs.value != "" then text + heading + logs.value else text
  }

  /** The hint appended to a failed script's error for three common API mistakes. */
  function ErrorHint(error: string): string {
    if Contains(error, "set_world_locati" + "on() required " + "argument " + "'sweep'") then
      "\n\nHINT: The " + "set_world_locati" + "on() method " + "requires a " + "'sweep' paramete" + "r. Try: set_worl" + "d_location(locat" + "ion, sweep=False" + ")"
    else if Contains(error, "set_world_locati" + "on() required " + "argument " + "'teleport'") then
      "\n\nHINT: The " + "set_world_locati" + "on() method " + "requires " + "'teleport' " + "parameter. "
      + "Try: set_world_l" + "ocation(location" + ", sweep=False, " + "teleport=False)"
    else if Contains(error, "set_actor_locati" + "on() required " + "argument " + "'teleport'") then
      "\n\nHINT: The " + "set_actor_locati" + "on() method " + "requires a " + "'teleport' " + "parameter. "
      + "Try: set_actor_l" + "ocation(location" + ", sweep=False, " + "teleport=False)"
    else ""
  }

  /** The reply built from a finished run, once the script has been written out. */
  function ScriptResult(run: ScriptRun): (r: Json)
    ensures Succeeded(r) <==> run.success
    ensures run.success ==> Field(r, "output") == Some(JStr(WithLogs(run.output, LogHeading, run.newLogs)))
    ensures !run.success && run.error == "" ==>
              Field(r, "error") == Some(JStr("Execution " + "failed without " + "specific error"))
    ensures !run.success && run.error != "" ==>
              Field(r, "error") == Some(JStr(WithLogs(run.error + ErrorHint(run.error), LogHeading, run.newLogs)))
  {
    if run.success then
      var fields := [("success", JBool(true)), ("output", JStr(WithLogs(run.output, LogHeading, run.newLogs)))];
      assert Lookup(fields[..1], "success") == Some(JBool(true));
      JObj(fields)
    else
      var error := if run.error != "" then WithLogs(run.error + ErrorHint(run.error), LogHeading, run.newLogs) else "";
      var r := FailedRun(if error != "" then error else "Execution " + "failed without " + "specific error", run.output);
      FailureIsNotSuccess(r, r.fields[1].1.s);
      r
  }

  /** A failed run's reply: the error, and the run's output alongside it. */
  function FailedRun(error: string, output: string): (r: Json)
    ensures r.JObj? && |r.fields| == 3 && r.fields[1].1 == JStr(error)
    ensures IsFailureWith(r, error)
    ensures Field(r, "output") == Some(JStr(output))
  {
    var fields := [("success", JBool(false)), ("error", JStr(error)), ("output", JStr(output))];
    assert fields[..2][..1] == [fields[0]];
    assert Lookup(fields[..2], "success") == Some(JBool(false));
    assert Lookup(fields[..2], "error") == Some(fields[1].1);
    JObj(fields)
  }

  const LogHeading := "\n\nNew Unreal " + "logs during " + "execution:\n"

  /**
   * A script that is a list: `keyword in script` compares the elements,
   * so the guard fires only when some element is exactly a keyword.
   */
  predicate IsDestructiveList(items: seq<Json>) {
    exists k :: 0 <= k < |ScriptKeywords| && JStr(ScriptKeywords[k]) in items
  }

  /**
   * The `TypeError` a truthy script that is not text raises. A list passes
   * the slice and the guard and fails in `textwrap.dedent`, after
   * `script_file` is bound; anything else fails at `script[:50]`, before.
   */
  function NotTextMessage(script: Json): string {
    match script
    case JArr(_) => "expected string" + " or bytes-like " + "object"
    case JObj(_) => "unhashable type:" + " 'slice'"
    case _ => "'" + PyTypeName(script) + "' object is not " + "subscriptable"
  }

  /**
   * `handle_execute_python` as written. Both early returns happen before
   * `script_file` is bound, so the `finally` raises and the refusal is lost.
   * A script that is neither text nor a list raises at its slice, also
   * before `script_file` is bound, and ends the same way. A list gets past
   * the binding, so its `TypeError` is caught and returned.
   */
  function ExecutePythonAsWritten(cmd: Fields, run: ScriptRun): (r: Transport.Outcome)
    ensures !Truthy(LookupOr(cmd, "script", JNull)) ==> r == Transport.Raised(UnboundScriptFile)
    ensures var script := LookupOr(cmd, "script", JNull);
            Truthy(script) && !script.JStr? && !script.JArr? ==> r == Transport.Raised(UnboundScriptFile)
    ensures var script := LookupOr(cmd, "script", JNull);
            script.JArr? && script.items != [] ==>
              (r.Raised? <==> IsDestructiveList(script.items) && !Truthy(LookupOr(cmd, "force", JBool(false))))
    ensures var script := LookupOr(cmd, "script", JNull);
            script.JArr? && r.Returned? ==> r.value == ErrorObj(NotTextMessage(script))
    ensures var script := LookupOr(cmd, "script", JNull);
            (script.JStr? && script.s != "" && IsDestructiveScript(script.s)
             && !Truthy(LookupOr(cmd, "force", JBool(false)))) ==> r == Transport.Raised(UnboundScriptFile)
    ensures var script := LookupOr(cmd, "script", JNull);
            (script.JStr? && script.s != ""
             && (!IsDestructiveScript(script.s) || Truthy(LookupOr(cmd, "force", JBool(false))))) ==>
              r == Transport.Returned(ScriptResult(run))
  {
    var script := LookupOr(cmd, "script", JNull);
    var forced := Truthy(LookupOr(cmd, "force", JBool(false)));
    if !Truthy(script) then Transport.Raised(UnboundScriptFile)
    else if script.JArr? then
      if IsDestructiveList(script.items) && !forced then Transport.Raised(UnboundScriptFile)
      else Transport.Returned(ErrorObj(NotTextMessage(script)))
    else if !script.JStr? then Transport.Raised(UnboundScriptFile)
    else if IsDestructiveScript(script.s) && !forced then Transport.Raised(UnboundScriptFile)
    else Transport.Returned(ScriptResult(run))
  }

  /**
   * `handle_execute_python` as its early returns intend: the refusals reach
   * the caller. A script that is not text still fails, now with the message
   * of the error it raises.
   */
  function ExecutePython(cmd: Fields, run: ScriptRun): (r: Transport.Outcome)
    ensures r.Returned?
    ensures !Truthy(LookupOr(cmd, "script", JNull)) ==>
              IsFailureWith(r.value, "Missing required" + " parameter: " + "script")
    ensures var script := LookupOr(cmd, "script", JNull);
            (script.JStr? && script.s != "" && IsDestructiveScript(script.s)
             && !Truthy(LookupOr(cmd, "force", JBool(false)))) ==> IsFailureWith(r.value, ScriptRefusal)
    ensures var script := LookupOr(cmd, "script", JNull);
            (script.JStr? && script.s != ""
             && (!IsDestructiveScript(script.s) || Truthy(LookupOr(cmd, "force", JBool(false))))) ==>
              r.value == ScriptResult(run)
    ensures var script := LookupOr(cmd, "script", JNull);
            Truthy(script) && !script.JStr? ==> !Succeeded(r.value)
  {
    var script := LookupOr(cmd, "script", JNull);
    var forced := Truthy(LookupOr(cmd, "force", JBool(false)));
    if !Truthy(script) then Transport.Returned(ErrorObj("Missing required" + " parameter: " + "script"))
    else if script.JArr? && IsDestructiveList(script.items) && !forced then Transport.Returned(ErrorObj(ScriptRefusal))
    else if !script.JStr? then Transport.Returned(ErrorObj(NotTextMessage(script)))
    else if IsDestructiveScript(script.s) && !forced then Transport.Returned(ErrorObj(ScriptRefusal))
    else Transport.Returned(ScriptResult(run))
  }

  /** A list script of harmless lines is answered, as written, with the `TypeError` of `textwrap.dedent`. */
  lemma ListScriptIsAnswered(run: ScriptRun)
    ensures var cmd := [("type", JStr("execute_python")), ("script", JArr([JStr("print(1)")]))];
            && ExecutePythonAsWritten(cmd, run) == Transport.Returned(ErrorObj("expected string" + " or bytes-like " + "object"))
            && !Succeeded(ExecutePythonAsWritten(cmd, run).value)
  {
    var cmd := [("type", JStr("execute_python")), ("script", JArr([JStr("print(1)")]))];
    assert Lookup(cmd, "script") == Some(JArr([JStr("print(1)")]));
    assert !IsDestructiveList([JStr("print(1)")]) by {
      forall k | 0 <= k < |ScriptKeywords|
        ensures JStr(ScriptKeywords[k]) !in [JStr("print(1)")]
      {
        assert |ScriptKeywords[k]| > |"print(1)"|;
      }
    }
  }

  /**
   * The discrepancy: a command without a script, sent through the
   * dispatcher, is answered with the unbound-variable error instead of the
   * missing-parameter message. It still fails.
   */
  lemma MissingScriptMessageIsLost(eng: Transport.Engine, run: ScriptRun)
    ensures var cmd := [("type", JStr("execute_python"))];
            var handlers := (t: string, c: Fields) => ExecutePythonAsWritten(c, run);
            && Transport.Dispatch(cmd, eng, handlers) == Transport.Returned(ErrorObj(UnboundScriptFile))
            && ExecutePython(cmd, run) == Transport.Returned(ErrorObj("Missing required" + " parameter: " + "script"))
  {
    var cmd := [("type", JStr("execute_python"))];
    assert Lookup(cmd, "script") == None;
    assert Transport.CommandType(cmd) == JStr("execute_python");
    assert "execute_python" in Transport.HandlerKeys;
  }

  /** The same loss for the destructive-script refusal. */
  lemma DestructiveRefusalIsLost(run: ScriptRun)
    ensures var cmd := [("type", JStr("execute_python")), ("script", JStr("os.remove(p)"))];
            && ExecutePythonAsWritten(cmd, run) == Transport.Raised(UnboundScriptFile)
            && ExecutePython(cmd, run) == Transport.Returned(ErrorObj(ScriptRefusal))
  {
    var cmd := [("type", JStr("execute_python")), ("script", JStr("os.remove(p)"))];
    assert Lookup(cmd, "script") == Some(JStr("os.remove(p)"));
    assert Lookup(cmd, "force") == None;
    RemoveCallIsDestructive();
  }

  lemma RemoveCallIsDestructive()
    ensures IsDestructiveScript("os.remove(p)")
  {
    assert "os.remove(p)"[0..9] == ScriptKeywords[3];
    assert OccursAt("os.remove(p)", ScriptKeywords[3], 0);
  }

  /**
   * The two versions agree whenever the script gets to run; they differ
   * only in how a refusal is delivered, and both fail then.
   */
  lemma ExecutePythonAgreesWhenRun(cmd: Fields, run: ScriptRun)
    ensures ExecutePythonAsWritten(cmd, run).Returned? ==> ExecutePythonAsWritten(cmd, run) == ExecutePython(cmd, run)
    ensures ExecutePythonAsWritten(cmd, run).Raised? ==> !Succeeded(ExecutePython(cmd, run).value)
  {
  }

  /** `force` lets a destructive script run. */
  lemma ForceBypassesScriptGuard(cmd: Fields, run: ScriptRun)
    requires LookupOr(cmd, "script", JNull).JStr? && LookupOr(cmd, "script", JNull).s != ""
    requires Truthy(LookupOr(cmd, "force", JBool(false)))
    ensures ExecutePython(cmd, run) == Transport.Returned(ScriptResult(run))
    ensures ExecutePythonAsWritten(cmd, run) == Transport.Returned(ScriptResult(run))
  {
  }

  /**
   * The two script guards share their seven literals, and the adapter
   * ignores case, so every script the in-editor guard refuses has already
   * been held back by the adapter.
   */
  lemma AdapterCatchesEveryRefusedScript(script: string)
    requires IsDestructiveScript(script)
    ensures Client.IsPotentiallyDestructive(script)
  {
    var k :| 0 <= k < |ScriptKeywords| && Contains(script, ScriptKeywords[k]);
    assert ScriptKeywords[k] == Client.DestructivePatterns[k];
    ContainsLower(script, ScriptKeywords[k]);
    assert Client.SearchIgnoreCase(script, Client.DestructivePatterns[k]);
  }

  /** The in-editor guard is case-sensitive: an upper-cased call slips through. */
  lemma ScriptGuardIsCaseSensitive()
    ensures !IsDestructiveScript("OS.REMOVE(p)")
    ensures Client.IsPotentiallyDestructive("OS.REMOVE(p)")
  {
    HandlerMissesUpperCaseRemove();
    ClientCatchesUpperCaseRemove();
  }

  lemma HandlerMissesUpperCaseRemove()
    ensures !IsDestructiveScript("OS.REMOVE(p)")
  {
    UpperCaseCallHasNoKeyword("OS.REMOVE(p)");
  }

  lemma ClientCatchesUpperCaseRemove()
    ensures Client.IsPotentiallyDestructive("OS.REMOVE(p)")
  {
    Client.UpperCaseDeleteIsDestructive("", "(p)");
    assert "" + "OS.REMOVE" == "OS.REMOVE";
    assert "OS.REMOVE" + "(p)" == "OS.REMOVE(p)";
  }

  /** Every keyword starts with a lower-case letter, so text without those letters holds none of them. */
  lemma UpperCaseCallHasNoKeyword(s: string)
    requires forall i :: 0 <= i < |s| ==> s[i] !in {'u', 'o', 's', 'f'}
    ensures !IsDestructiveScript(s)
  {
    forall k | 0 <= k < |ScriptKeywords|
      ensures !Contains(s, ScriptKeywords[k])
    {
      var kw := ScriptKeywords[k];
      assert kw[0] in {'u', 'o', 's', 'f'};
      NotContainsFirstChar(s, kw);
    }
  }

  // ---------------------------------------------------------------------
  // handle_execute_unreal_command
  // ---------------------------------------------------------------------

  function ConsolePyRefusal(): string {
    "Use 'execute_pyt" + "hon' command to " + "run Python " + "scripts instead " + "of 'execute_unre" + "al_command' " + "with 'py'. "
    + "For example, " + "send {'type': " + "'execute_python'" + ", 'script': " + "'your_code_here'" + "}."
  }

  function ConsoleRefusal(): string {
    "This command " + "may involve " + "destructive " + "actions (e.g., " + "deleting or " + "saving). "
    + "Please confirm " + "with 'Yes, " + "execute it' or " + "set force=True."
  }

  /** The error text of a command that is not a string. */
  function CommandNotTextMessage(c: Json): string {
    "Error executing " + "command: " + NoAttributeMessage(c, "strip")
  }

  /** The first line of a console command's output. */
  function ExecutedHeading(command: string): string {
    "Command '" + command + "' executed " + "successfully"
  }

  /** Where `handle_execute_unreal_command`'s guards send a command. */
  datatype ConsoleStep =
    | MissingCommand
    | CommandNotText(value: Json)
    | RedirectToPython
    | AskToConfirm
    | RunCommand(command: string)

  /**
   * The guards of `handle_execute_unreal_command`, in order: a falsy
   * command, a command that is not text (it raises on `strip`), the `py `
   * prefix, then the destructive keywords unless `force` is truthy.
   */
  function ConsoleGuard(cmd: Fields): (d: ConsoleStep)
    ensures var c := LookupOr(cmd, "command", JNull);
            && (d == MissingCommand <==> !Truthy(c))
            && (d.CommandNotText? <==> Truthy(c) && !c.JStr?)
            && (d == RedirectToPython <==> c.JStr? && c.s != "" && Client.IsPyCommand(c.s))
            && (d == AskToConfirm <==>
                  c.JStr? && c.s != "" && !Client.IsPyCommand(c.s) && Client.HasConsoleKeyword(c.s)
                  && !Truthy(LookupOr(cmd, "force", JBool(false))))
            && (d.RunCommand? ==> c == JStr(d.command) && d.command != "")
  {
    var c := LookupOr(cmd, "command", JNull);
    if !Truthy(c) then MissingCommand
    else if !c.JStr? then CommandNotText(c)
    else if Client.IsPyCommand(c.s) then RedirectToPython
    else if Client.HasConsoleKeyword(c.s) && !Truthy(LookupOr(cmd, "force", JBool(false))) then AskToConfirm
    else RunCommand(c.s)
  }

  /** The error text of each refusing guard outcome. */
  function ConsoleError(step: ConsoleStep): string
    requires !step.RunCommand?
  {
    match step
    case MissingCommand => "Missing required" + " parameter: " + "command"
    case CommandNotText(c) => CommandNotTextMessage(c)
    case RedirectToPython => ConsolePyRefusal()
    case AskToConfirm => ConsoleRefusal()
  }

  /** The reply for each guard outcome; `newLogs` is what the log tail finds after a command ran. */
  function ConsoleReply(step: ConsoleStep, newLogs: Option<string>): (r: Json)
    ensures Succeeded(r) <==> step.RunCommand?
    ensures !step.RunCommand? ==> IsFailureWith(r, ConsoleError(step))
    ensures step.RunCommand? ==> Field(r, "output") == Some(JStr(CommandOutput(step.command, newLogs)))
  {
    if !step.RunCommand? then
      var m := ConsoleError(step);
      FailureIsNotSuccess(ErrorObj(m), m);
      ErrorObj(m)
    else
      CommandRan(step.command, newLogs)
  }

  /** A console command's output: its heading, then the new logs under their own heading when there are any. */
  function CommandOutput(command: string, newLogs: Option<string>): (out: string)
    ensures StartsWith(out, ExecutedHeading(command))
    ensures newLogs.None? || newLogs == Some("") ==> out == ExecutedHeading(command)
  {
    var head := ExecutedHeading(command);
    var out := WithLogs(head, "\n\nRelated " + "Unreal logs:\n", newLogs);
    assert out[..|head|] == head;
    out
  }

  /** The reply after a console command ran. */
  function CommandRan(command: string, newLogs: Option<string>): (r: Json)
    ensures Succeeded(r)
    ensures Field(r, "output") == Some(JStr(CommandOutput(command, newLogs)))
  {
    var fields := [("success", JBool(true)), ("output", JStr(CommandOutput(command, newLogs)))];
    assert Lookup(fields[..1], "success") == Some(JBool(true));
    JObj(fields)
  }

  /** `handle_execute_unreal_command`: the guards, then the reply for where they send the command. */
  function ExecuteUnrealCommand(cmd: Fields, newLogs: Option<string>): (r: Json)
    ensures Succeeded(r) <==> ConsoleGuard(cmd).RunCommand?
    ensures !ConsoleGuard(cmd).RunCommand? ==> IsFailureWith(r, ConsoleError(ConsoleGuard(cmd)))
    ensures ConsoleGuard(cmd).RunCommand? ==>
      Field(r, "output") == Some(JStr(CommandOutput(ConsoleGuard(cmd).command, newLogs)))
  {
    ConsoleReply(ConsoleGuard(cmd), newLogs)
  }

  /** The console guards refuse exactly the commands the adapter refuses, unless forced. */
  lemma ConsoleGuardsMatchAdapter(command: string, cmd: Fields, newLogs: Option<string>, unreal: Fields -> Json)
    requires command != "" && Lookup(cmd, "command") == Some(JStr(command))
    requires !Truthy(LookupOr(cmd, "force", JBool(false)))
    ensures Succeeded(ExecuteUnrealCommand(cmd, newLogs))
            <==> Client.ExecuteUnrealCommandTool(command, unreal).request.Some?
  {
    assert LookupOr(cmd, "command", JNull) == JStr(command);
  }
}
