/**
 * The logic inside `SGenEditorWindow` (both module copies) that is not
 * Slate layout: shortening a path for display, previewing an API key,
 * reading the MCP server's PID file, and recognising a generated MCP
 * client configuration. Files, processes and the key store's answer
 * become parameters.
 */
module EditorWindow {
  import opened Wrappers
  import opened Text
  import Client

  // ---------------------------------------------------------------------
  // ShortenPath
  // ---------------------------------------------------------------------

  const MaxPathLength: nat := 40

  /** The last index of `c` in `s`. */
  function LastIndexOfChar(s: string, c: char): (r: Option<nat>)
    ensures r.Some? ==> r.value < |s| && s[r.value] == c && forall j :: r.value < j < |s| ==> s[j] != c
    ensures r.None? <==> forall j :: 0 <= j < |s| ==> s[j] != c
    decreases |s|
  {
    if |s| == 0 then None
    else if s[|s| - 1] == c then Some(|s| - 1)
    else LastIndexOfChar(s[..|s| - 1], c)
  }

  /**
   * `FString::FindLastChar(c, Index)`: the out-parameter is overwritten
   * with the last occurrence in the WHOLE string; its incoming value is
   * never read.
   */
  function FindLastChar(s: string, c: char, index: int): (r: Option<nat>)
    ensures r == LastIndexOfChar(s, c)
  {
    LastIndexOfChar(s, c)
  }

  /** Whether a path has a `/` after its first character. */
  predicate SlashAfterStart(path: string) {
    LastIndexOfChar(path, '/').Some? && LastIndexOfChar(path, '/').value > 0
  }

  /**
   * `ShortenPath` as written: paths of at most 40 characters are kept; the
   * three-step backward search lands on the last `/` every time, so a
   * longer path becomes `...` and its last component (from the `/`), or
   * `...` and its last 37 characters when no `/` follows the first one.
   */
  method ShortenPath(path: string) returns (r: string)
    ensures |path| <= MaxPathLength ==> r == path
    ensures |path| > MaxPathLength && SlashAfterStart(path) ==>
              r == "..." + path[LastIndexOfChar(path, '/').value..] && r[3] == '/'
              && forall j :: 3 < j < |r| ==> r[j] != '/'
    ensures |path| > MaxPathLength && !SlashAfterStart(path) ==>
              r == "..." + path[|path| - (MaxPathLength - 3)..] && |r| == MaxPathLength
  {
    if |path| <= MaxPathLength {
      return path;
    }
    var slashPos: int := |path|;
    var i := 0;
    while i < 3
      invariant 0 <= i <= 3
      invariant i == 0 ==> slashPos == |path|
      invariant i > 0 ==> LastIndexOfChar(path, '/').Some? && slashPos == LastIndexOfChar(path, '/').value
    {
      var found := FindLastChar(path, '/', slashPos - 1);
      if found.None? {
        slashPos := 0;
        break;
      }
      slashPos := found.value;
      i := i + 1;
    }
    if slashPos <= 0 {
      return "..." + path[|path| - (MaxPathLength - 3)..];
    }
    r := "..." + path[slashPos..];
    assert forall j :: 3 < j < |r| ==> r[j] == path[slashPos + j - 3];
  }

  /** A search that honours its start: the last `c` before index `end`. */
  function LastIndexBefore(s: string, c: char, end: int): (r: Option<nat>)
    ensures r.Some? ==> r.value < |s| && s[r.value] == c && r.value < end
    ensures r.Some? ==> forall j :: r.value < j < |s| && j < end ==> s[j] != c
    ensures r.None? ==> forall j :: 0 <= j < |s| && j < end ==> s[j] != c
  {
    if end <= 0 then None
    else if end >= |s| then LastIndexOfChar(s, c)
    else LastIndexOfChar(s[..end], c)
  }

  /** The `n`-th `/` counting back from index `end` (the 0-th is `end` itself). */
  function NthSlashBack(s: string, n: nat, end: int): (r: Option<int>)
    ensures r.Some? && n > 0 ==> 0 <= r.value < |s| && s[r.value] == '/'
    decreases n
  {
    if n == 0 then Some(end)
    else
      match LastIndexBefore(s, '/', end)
      case None => None
      case Some(k) => NthSlashBack(s, n - 1, k)
  }

  /**
   * `ShortenPath` as its loop evidently means it: each step searches back
   * from before the previous `/`, so a long path keeps its last three
   * components.
   */
  method ShortenPathIntended(path: string) returns (r: string)
    ensures |path| <= MaxPathLength ==> r == path
    ensures |path| > MaxPathLength && NthSlashBack(path, 3, |path|).Some? && NthSlashBack(path, 3, |path|).value > 0 ==>
              r == "..." + path[NthSlashBack(path, 3, |path|).value..]
    ensures |path| > MaxPathLength && !(NthSlashBack(path, 3, |path|).Some? && NthSlashBack(path, 3, |path|).value > 0) ==>
              r == "..." + path[|path| - (MaxPathLength - 3)..] && |r| == MaxPathLength
  {
    if |path| <= MaxPathLength {
      return path;
    }
    var slashPos: int := |path|;
    var i := 0;
    while i < 3
      invariant 0 <= i <= 3
      invariant NthSlashBack(path, i, |path|) == Some(slashPos)
      invariant 0 <= slashPos <= |path|
    {
      NthSlashBackStep(path, i, |path|);
      var found := LastIndexBefore(path, '/', slashPos);
      if found.None? {
        slashPos := 0;
        assert NthSlashBack(path, 3, |path|).None? by {
          NthSlashBackStaysNone(path, i + 1, 3, |path|);
        }
        break;
      }
      slashPos := found.value;
      i := i + 1;
    }
    if slashPos <= 0 {
      return "..." + path[|path| - (MaxPathLength - 3)..];
    }
    r := "..." + path[slashPos..];
  }

  /** One more step back continues from the slash the previous step found. */
  lemma {:induction false} NthSlashBackStep(s: string, n: nat, end: int)
    requires NthSlashBack(s, n, end).Some?
    ensures NthSlashBack(s, n + 1, end)
            == match LastIndexBefore(s, '/', NthSlashBack(s, n, end).value)
               case None => None
               case Some(k) => Some(k)
    decreases n
  {
    if n > 0 {
      var k := LastIndexBefore(s, '/', end).value;
      NthSlashBackStep(s, n - 1, k);
    }
  }

  /** Once the search runs out of slashes it stays out. */
  lemma {:induction false} NthSlashBackStaysNone(s: string, n: nat, m: nat, end: int)
    requires n <= m && NthSlashBack(s, n, end).None?
    ensures NthSlashBack(s, m, end).None?
    decreases n
  {
    if n > 0 {
      match LastIndexBefore(s, '/', end)
      case None =>
      case Some(k) => NthSlashBackStaysNone(s, n - 1, m - 1, k);
    }
  }

  /** The last `c` of `x + [c] + y` when `y` has none. */
  lemma LastCharOf(x: string, c: char, y: string)
    requires forall j :: 0 <= j < |y| ==> y[j] != c
    ensures LastIndexOfChar(x + [c] + y, c) == Some(|x|)
  {
    NoCharAfter(x, c, y);
    LastIndexUnique(x + [c] + y, c, |x|);
  }

  lemma NoCharAfter(x: string, c: char, y: string)
    requires forall j :: 0 <= j < |y| ==> y[j] != c
    ensures (x + [c] + y)[|x|] == c
    ensures forall j :: |x| < j < |x + [c] + y| ==> (x + [c] + y)[j] != c
  {
    var s := x + [c] + y;
    forall j | |x| < j < |s|
      ensures s[j] != c
    {
      assert s[j] == y[j - |x| - 1];
    }
  }

  /** Any index holding `c` with no `c` after it is the last index of `c`. */
  lemma {:induction false} LastIndexUnique(s: string, c: char, k: nat)
    requires k < |s| && s[k] == c && forall j :: k < j < |s| ==> s[j] != c
    ensures LastIndexOfChar(s, c) == Some(k)
    decreases |s|
  {
    if k < |s| - 1 {
      LastIndexUnique(s[..|s| - 1], c, k);
    }
  }

  /**
   * For `a/b/c/d` with `a` non-empty and no `/` in `b`, `c`, `d`, the code
   * as written keeps only `/d`, while the intended search keeps `/b/c/d`.
   */
  lemma ShortenPathDropsParentFolders(a: string, b: string, c: string, d: string)
    requires |a| > 0
    requires forall j :: 0 <= j < |b| ==> b[j] != '/'
    requires forall j :: 0 <= j < |c| ==> c[j] != '/'
    requires forall j :: 0 <= j < |d| ==> d[j] != '/'
    ensures var path := a + "/" + b + "/" + c + "/" + d;
            && LastIndexOfChar(path, '/') == Some(|a| + |b| + |c| + 2)
            && path[|a| + |b| + |c| + 2..] == "/" + d
            && NthSlashBack(path, 3, |path|) == Some(|a|)
            && path[|a|..] == "/" + b + "/" + c + "/" + d
  {
    AsWrittenKeepsLastFolder(a + "/" + b + "/" + c, d);
    IntendedKeepsParentFolders(a, b, c, d);
  }

  /** The last `/` of `p + "/" + d`, with no `/` in `d`, is the one before `d`. */
  lemma AsWrittenKeepsLastFolder(p: string, d: string)
    requires forall j :: 0 <= j < |d| ==> d[j] != '/'
    ensures LastIndexOfChar(p + "/" + d, '/') == Some(|p|)
    ensures (p + "/" + d)[|p|..] == "/" + d
  {
    LastCharOf(p, '/', d);
    DropAcross(p, "/", |p|);
    DropAcross(p + "/", d, |p|);
  }

  /** Three steps back from the end of `a/b/c/d` reach the slash after `a`. */
  lemma IntendedKeepsParentFolders(a: string, b: string, c: string, d: string)
    requires forall j :: 0 <= j < |b| ==> b[j] != '/'
    requires forall j :: 0 <= j < |c| ==> c[j] != '/'
    requires forall j :: 0 <= j < |d| ==> d[j] != '/'
    ensures var path := a + "/" + b + "/" + c + "/" + d;
            && NthSlashBack(path, 3, |path|) == Some(|a|)
            && path[|a|..] == "/" + b + "/" + c + "/" + d
  {
    var path := a + "/" + b + "/" + c + "/" + d;
    var p1 := a + "/" + b + "/" + c;
    var p2 := a + "/" + b;
    assert path[..|p1|] == p1 && path[..|p2|] == p2;
    SlashBeforeSegment(path, p1, d);
    SlashBeforeSegment(path, p2, c);
    SlashBeforeSegment(path, a, b);
    assert NthSlashBack(path, 1, |p2|) == Some(|a|);
    assert NthSlashBack(path, 2, |p1|) == Some(|a|);
    DropAcross(a, "/", |a|);
    DropAcross(a + "/", b, |a|);
    DropAcross(p2, "/", |a|);
    DropAcross(p2 + "/", c, |a|);
    DropAcross(p1, "/", |a|);
    DropAcross(p1 + "/", d, |a|);
  }

  lemma DropAcross(x: string, y: string, k: nat)
    requires k <= |x|
    ensures (x + y)[k..] == x[k..] + y
  {
  }

  /** When `path` starts with `x + "/" + y` and `y` has no `/`, the search back from the end of `y` stops at that slash. */
  lemma SlashBeforeSegment(path: string, x: string, y: string)
    requires forall j :: 0 <= j < |y| ==> y[j] != '/'
    requires |x| + 1 + |y| <= |path| && path[..|x| + 1 + |y|] == x + "/" + y
    ensures LastIndexBefore(path, '/', |x| + 1 + |y|) == Some(|x|)
  {
    var e := |x| + 1 + |y|;
    LastCharOf(x, '/', y);
    if e >= |path| {
      assert path == path[..e];
    }
  }

  // ---------------------------------------------------------------------
  // GetAPIKeyPreview
  // ---------------------------------------------------------------------

  function Min(a: int, b: int): int { if a <= b then a else b }

  /** `n` asterisks. */
  function Stars(n: nat): (r: string)
    ensures |r| == n && forall j :: 0 <= j < n ==> r[j] == '*'
  {
    if n == 0 then "" else Stars(n - 1) + "*"
  }

  /**
   * `GetAPIKeyPreview` over the key the key store returns: an empty key is
   * reported as unset; otherwise the first (at most) four characters stay
   * and the rest of the key, up to eight characters, is masked.
   */
  method GetApiKeyPreview(key: string) returns (preview: string, keySet: bool)
    ensures keySet <==> key != ""
    ensures !keySet ==> preview == ""
    ensures |preview| <= 12
    ensures |key| <= 4 ==> preview == key
    ensures keySet ==> |preview| == Min(4, |key|) + Min(8, |key| - Min(4, |key|))
    ensures forall j :: 0 <= j < |preview| && j < 4 ==> preview[j] == key[j]
    ensures forall j :: 4 <= j < |preview| ==> preview[j] == '*'
  {
    keySet := key != "";
    if !keySet {
      return "", false;
    }
    var previewLength := Min(4, |key|);
    preview := key[..previewLength];
    var i := 0;
    while i < Min(8, |key| - previewLength)
      invariant 0 <= i <= Min(8, |key| - previewLength)
      invariant preview == key[..previewLength] + Stars(i)
    {
      preview := preview + "*";
      i := i + 1;
    }
  }

  // ---------------------------------------------------------------------
  // The MCP server's PID file
  // ---------------------------------------------------------------------

  predicate IsLineBreak(c: char) { c == '\r' || c == '\n' }

  predicate SingleLine(s: string) {
    forall j :: 0 <= j < |s| ==> !IsLineBreak(s[j])
  }

  /** Line splitting with `current` the line read so far; `\r\n`, `\r` and `\n` each end a line. */
  function SplitLinesFrom(s: string, current: string): (r: seq<string>)
    requires SingleLine(current)
    ensures |r| > 0 && forall k :: 0 <= k < |r| ==> SingleLine(r[k])
    decreases |s|
  {
    if |s| == 0 then [current]
    else if s[0] == '\r' && |s| > 1 && s[1] == '\n' then [current] + SplitLinesFrom(s[2..], "")
    else if IsLineBreak(s[0]) then [current] + SplitLinesFrom(s[1..], "")
    else SplitLinesFrom(s[1..], current + [s[0]])
  }

  /** `ParseIntoArrayLines(Lines, false)`: empty lines are kept, and empty text has no lines. */
  function ParseLines(s: string): (r: seq<string>)
    ensures r == [] <==> s == []
    ensures forall k :: 0 <= k < |r| ==> SingleLine(r[k])
  {
    if s == [] then [] else SplitLinesFrom(s, "")
  }

  lemma {:induction false} SplitLinesOfSingleLine(a: string, rest: string, current: string)
    requires SingleLine(current) && SingleLine(a)
    ensures SplitLinesFrom(a + rest, current) == SplitLinesFrom(rest, current + a)
    decreases |a|
  {
    if |a| > 0 {
      assert (a + rest)[0] == a[0];
      assert (a + rest)[1..] == a[1..] + rest;
      assert current + [a[0]] + a[1..] == current + a;
      SplitLinesOfSingleLine(a[1..], rest, current + [a[0]]);
    } else {
      assert a + rest == rest;
      assert current + a == current;
    }
  }

  /** Two single lines joined by any line ending read back as those two lines. */
  lemma ParseTwoLines(a: string, b: string, ending: string)
    requires SingleLine(a) && SingleLine(b)
    requires ending == "\n" || ending == "\r\n" || ending == "\r"
    ensures ParseLines(a + ending + b) == [a, b]
  {
    assert a + ending + b == a + (ending + b);
    SplitLinesOfSingleLine(a, ending + b, "");
    assert "" + a == a;
    assert SplitLinesFrom(b, "") == [b] by {
      SplitLinesOfSingleLine(b, "", "");
      assert b + "" == b;
      assert "" + b == b;
    }
    if ending == "\r\n" {
      assert (ending + b)[2..] == b;
    } else {
      assert (ending + b)[1..] == b;
      assert ending == "\r" ==> !(|ending + b| > 1 && (ending + b)[1] == '\n');
    }
  }

  datatype PidFile = NoPidFile | UnreadablePidFile | PidText(content: string)

  /** What the status check can observe: the PID file, live processes, and the two client configs (if readable). */
  datatype Host = Host(
    pidFile: PidFile,
    processRunning: int -> bool,
    pythonRunning: bool,
    claudeConfig: Option<string>,
    cursorConfig: Option<string>)

  /** The check's verdict, the details text it sets, and whether it deletes the PID file as stale. */
  datatype ServerStatus = ServerStatus(running: bool, details: Option<string>, deletesPidFile: bool)

  /** The name the generated configurations register the server under. */
  const HandshakeServer := "unreal-handshake"

  /** `IsClaudeConfigured` / `IsCursorConfigured`: the file exists, reads, and mentions the server. */
  predicate IsConfigured(config: Option<string>) {
    config.Some? && Contains(config.value, HandshakeServer)
  }

  /** The details text for a live server. */
  function RunningOnPort(port: string): string {
    "Running on port " + port
  }

  /** The PID of a readable PID file's first line, if it is positive and alive. */
  function LivePid(h: Host): (r: Option<int>)
    ensures r.Some? ==> r.value > 0 && h.processRunning(r.value) && h.pidFile.PidText?
    ensures r.Some? ==> |ParseLines(h.pidFile.content)| >= 1 && r.value == Atoi(ParseLines(h.pidFile.content)[0])
  {
    match h.pidFile
    case PidText(content) =>
      var lines := ParseLines(content);
      if |lines| >= 1 && Atoi(lines[0]) > 0 && h.processRunning(Atoi(lines[0])) then Some(Atoi(lines[0])) else None
    case _ => None
  }

  /** The older runtime copy's `IsMCPServerRunning`: a `python` process and a configured client. */
  predicate RuntimeIsMCPServerRunning(h: Host) {
    h.pythonRunning && (IsConfigured(h.claudeConfig) || IsConfigured(h.cursorConfig))
  }

  /**
   * The editor copy's `IsMCPServerRunning`: a live PID from the PID file
   * (showing its second line as the port), else the runtime copy's check,
   * deleting a PID file that did not name a live process.
   */
  function IsMCPServerRunning(h: Host): (r: ServerStatus)
    ensures r.running <==> LivePid(h).Some? || RuntimeIsMCPServerRunning(h)
    ensures r.deletesPidFile <==> !h.pidFile.NoPidFile? && LivePid(h).None?
    ensures r.details.Some? ==> LivePid(h).Some? && |ParseLines(h.pidFile.content)| >= 2
                                && r.details.value == RunningOnPort(ParseLines(h.pidFile.content)[1])
    ensures h.pidFile.NoPidFile? ==> r.running == RuntimeIsMCPServerRunning(h)
  {
    if LivePid(h).Some? then
      var lines := ParseLines(h.pidFile.content);
      ServerStatus(true, if |lines| >= 2 then Some(RunningOnPort(lines[1])) else None, false)
    else
      ServerStatus(RuntimeIsMCPServerRunning(h), None, !h.pidFile.NoPidFile?)
  }

  /** The PID file the Python server writes is read back: its PID is live, and the port shown is 9877. */
  lemma PidFileRoundTrip(pid: nat, h: Host, ending: string)
    requires pid > 0 && h.processRunning(pid)
    requires ending == "\n" || ending == "\r\n"
    requires h.pidFile == PidText(NatToDecimal(pid) + ending + "9877")
    ensures IsMCPServerRunning(h) == ServerStatus(true, Some(RunningOnPort("9877")), false)
  {
    PidFileLines(pid, h, ending);
    PidFileIsLive(pid, h);
  }

  lemma PidFileLines(pid: nat, h: Host, ending: string)
    requires ending == "\n" || ending == "\r\n"
    requires h.pidFile == PidText(NatToDecimal(pid) + ending + "9877")
    ensures ParseLines(h.pidFile.content) == [NatToDecimal(pid), "9877"]
  {
    PidLinesAreSingle(pid);
    ParseTwoLines(NatToDecimal(pid), "9877", ending);
  }

  lemma PidFileIsLive(pid: nat, h: Host)
    requires pid > 0 && h.processRunning(pid)
    requires h.pidFile.PidText? && ParseLines(h.pidFile.content) == [NatToDecimal(pid), "9877"]
    ensures LivePid(h) == Some(pid)
  {
    AtoiOfDecimal(pid);
  }

  lemma PidLinesAreSingle(pid: nat)
    ensures SingleLine(NatToDecimal(pid)) && SingleLine("9877")
  {
    var d := NatToDecimal(pid);
    assert forall j :: 0 <= j < |d| ==> IsDigit(d[j]);
  }

  /** The file `write_pid_file` writes is that format with a `\n` ending. */
  lemma WrittenPidFileIsRead(pid: nat, h: Host)
    requires pid > 0 && h.processRunning(pid)
    requires h.pidFile == PidText(Client.PidFileContent(pid))
    ensures IsMCPServerRunning(h).running && IsMCPServerRunning(h).details == Some(RunningOnPort("9877"))
  {
    var c := Client.PidFileContent(pid);
    var d := NatToDecimal(pid);
    assert c == d + "\n" + "9877" by {
      assert c[|c| - 5..] == "\n9877";
      assert |c| == |d| + 5 by { assert |NatToDecimal(9877)| == 4 by { DecimalOf9877(); } }
      assert c[..|d|] == d;
      assert c == c[..|d|] + c[|d|..];
    }
    PidFileRoundTrip(pid, h, "\n");
  }

  lemma DecimalOf9877()
    ensures NatToDecimal(9877) == "9877"
  {
    assert NatToDecimal(9) == "9";
    assert NatToDecimal(98) == "98";
    assert NatToDecimal(987) == "987";
  }

  /** A PID file naming no live process is deleted, and the answer is the runtime copy's. */
  lemma StalePidFileFallsBack(h: Host, content: string)
    requires h.pidFile == PidText(content)
    requires forall p :: !h.processRunning(p)
    ensures IsMCPServerRunning(h) == ServerStatus(RuntimeIsMCPServerRunning(h), None, true)
  {
  }

  /**
   * The two copies compared: whatever the runtime copy reports running the
   * editor copy does too, and beyond it the editor copy accepts exactly a
   * live PID.
   */
  lemma EditorCheckExtendsRuntime(h: Host)
    ensures RuntimeIsMCPServerRunning(h) ==> IsMCPServerRunning(h).running
    ensures !RuntimeIsMCPServerRunning(h) ==> (IsMCPServerRunning(h).running <==> LivePid(h).Some?)
  {
  }

  // ---------------------------------------------------------------------
  // The generated client configuration
  // ---------------------------------------------------------------------

  /** The configuration `Setup Claude` / `Setup Cursor` writes, around the server script's path. */
  function McpConfigJson(scriptPath: string): (r: string)
    ensures Contains(r, HandshakeServer)
    ensures Contains(r, "\"UNREAL_PORT\": " + "\"9877\"")
  {
    var head := "{\n  \"mcpServers\"" + ": {\n    \"";
    var middle := "\": {\n      " + "\"command\": " + "\"python\",\n      " + "\"args\": [\"";
    var env := "\"],\n      " + "\"env\": {\n       " + " \"UNREAL_HOST\": " + "\"localhost\",\n   " + "     ";
    var port := "\"UNREAL_PORT\": " + "\"9877\"";
    var tail := "\n      }\n    }\n " + " }\n}";
    var r := head + HandshakeServer + middle + scriptPath + env + port + tail;
    ContainsSelf(HandshakeServer);
    ContainsInRight(head, HandshakeServer, HandshakeServer);
    ContainsInLeft(head + HandshakeServer, middle + scriptPath + env + port + tail, HandshakeServer);
    assert r == (head + HandshakeServer) + (middle + scriptPath + env + port + tail);
    ContainsSelf(port);
    ContainsInRight(head + HandshakeServer + middle + scriptPath + env, port, port);
    ContainsInLeft(head + HandshakeServer + middle + scriptPath + env + port, tail, port);
    r
  }

  /** After a successful setup the configured check holds, so a running `python` counts as a running server. */
  lemma GeneratedConfigIsRecognised(h: Host, scriptPath: string)
    requires h.claudeConfig == Some(McpConfigJson(scriptPath)) || h.cursorConfig == Some(McpConfigJson(scriptPath))
    ensures RuntimeIsMCPServerRunning(h) <==> h.pythonRunning
  {
  }
}
