/**
 * The fuzzy function search of `UGenBlueprintNodeCreator`, identical in the
 * editor and runtime copies: names are split into parts, every visible
 * function of ten library classes is scored against the requested node
 * type, the positive scores are ranked, and the ranking either creates a
 * call node (`TryCreateNodeFromLibraries`) or is reported as a
 * `SUGGESTIONS:` list. Engine reflection is an input.
 */
module NodeRanking {
  import opened Wrappers
  import opened Text
  import BlueprintCommands

  // ---------------------------------------------------------------------
  // SplitName
  // ---------------------------------------------------------------------

  /** The non-empty strings of `xs`, in order. */
  function NonEmpty(xs: seq<string>): (r: seq<string>)
    ensures |r| <= |xs|
    ensures forall k :: 0 <= k < |r| ==> r[k] != "" && r[k] in xs
    ensures forall x :: x in xs && x != "" ==> x in r
    ensures (forall k :: 0 <= k < |xs| ==> xs[k] != "") ==> r == xs
    decreases |xs|
  {
    if |xs| == 0 then []
    else if xs[0] == "" then NonEmpty(xs[1..])
    else [xs[0]] + NonEmpty(xs[1..])
  }

  /** `ParseIntoArray(Parts, "_")`: the pieces between underscores, empty ones culled. */
  function UnderscorePieces(s: string): (r: seq<string>)
    ensures forall k :: 0 <= k < |r| ==> r[k] != "" && !Contains(r[k], "_")
    ensures s != "" && !Contains(s, "_") ==> r == [s]
  {
    NonEmpty(Split(s, "_"))
  }

  /** The index of the first upper-case character of `t` at or after `from`. */
  function FirstUpperFrom(t: string, from: nat): (r: Option<nat>)
    ensures r.Some? ==> from <= r.value < |t| && IsUpperChar(t[r.value])
    ensures r.Some? ==> forall i :: from <= i < r.value ==> !IsUpperChar(t[i])
    ensures r.None? ==> forall i :: from <= i < |t| ==> !IsUpperChar(t[i])
    decreases |t| - from
  {
    if from >= |t| then None
    else if IsUpperChar(t[from]) then Some(from)
    else FirstUpperFrom(t, from + 1)
  }

  /**
   * The camel-case loop of `SplitName`: cut before every upper-case
   * character that is not the first of the remaining text.
   */
  function CamelPieces(t: string): (r: seq<string>)
    ensures t == "" ==> r == []
    ensures IsLowerCase(t) && t != "" ==> r == [t]
    decreases |t|
  {
    if |t| == 0 then []
    else
      match FirstUpperFrom(t, 1)
      case None => [t]
      case Some(j) => [t[..j]] + CamelPieces(t[j..])
  }

  /**
   * `SplitName`: the underscore pieces, unless there is exactly one, in
   * which case the whole name (underscores included) is split at camel-case
   * boundaries.
   */
  function SplitName(name: string): seq<string> {
    var pieces := UnderscorePieces(name);
    if |pieces| == 1 then CamelPieces(name) else pieces
  }

  /**
   * The search only splits lower-cased names, where no camel-case boundary
   * exists: the parts are the underscore pieces, except that a single piece
   * is replaced by the whole name.
   */
  lemma SplitLowerName(name: string)
    requires IsLowerCase(name)
    ensures SplitName(name) == if |UnderscorePieces(name)| == 1 then [name] else UnderscorePieces(name)
  {
  }

  /** Culling empty pieces keeps a list that has none. */
  lemma {:induction false} NonEmptyKeeps(xs: seq<string>)
    requires forall k :: 0 <= k < |xs| ==> xs[k] != ""
    ensures NonEmpty(xs) == xs
  {
    if |xs| > 0 {
      NonEmptyKeeps(xs[1..]);
    }
  }

  /** A name that splits into two non-empty underscore pieces has those pieces as its parts. */
  lemma TwoPieces(name: string, a: string, b: string)
    requires Split(name, "_") == [a, b] && a != "" && b != ""
    ensures SplitName(name) == [a, b]
  {
    NonEmptyKeeps([a, b]);
  }

  /** A name without underscores is its own single part. */
  lemma WordIsOnePart(name: string)
    requires name != "" && IsLowerCase(name) && !Contains(name, "_")
    ensures SplitName(name) == [name]
  {
  }

  /** The single-piece case keeps its underscores: `_sin` is one part, not `sin`. */
  lemma SinglePieceKeepsUnderscores()
    ensures SplitName("_sin") == ["_sin"]
  {
    var s := "_sin";
    assert StartsWith(s, "_");
    assert IndexOf(s, "_") == Some(0);
    assert s[1..] == "sin";
    assert !Contains("sin", "_") by {
      NotContainsFirstChar("sin", "_");
    }
    assert Split("sin", "_") == ["sin"];
    assert Split(s, "_") == ["", "sin"];
    assert UnderscorePieces(s) == ["sin"];
    assert IsLowerCase(s);
  }

  // ---------------------------------------------------------------------
  // Candidates
  // ---------------------------------------------------------------------

  /** The `CommonLibraries` classes the search walks. */
  datatype Library =
    | KismetMathLibrary | KismetSystemLibrary | KismetStringLibrary | KismetArrayLibrary | KismetTextLibrary
    | GameplayStatics | BlueprintFunctionLibrary | Actor | Pawn | Character

  /** The libraries in the order they are searched. */
  const CommonLibraries: seq<Library> :=
    [KismetMathLibrary, KismetSystemLibrary, KismetStringLibrary, KismetArrayLibrary, KismetTextLibrary,
     GameplayStatics, BlueprintFunctionLibrary, Actor, Pawn, Character]

  function LibraryName(l: Library): string {
    match l
    case KismetMathLibrary => "KismetMathLibrary"
    case KismetSystemLibrary => "KismetSystemLibrary"
    case KismetStringLibrary => "KismetStringLibrary"
    case KismetArrayLibrary => "KismetArrayLibrary"
    case KismetTextLibrary => "KismetTextLibrary"
    case GameplayStatics => "GameplayStatics"
    case BlueprintFunctionLibrary => "BlueprintFunctionLibrary"
    case Actor => "Actor"
    case Pawn => "Pawn"
    case Character => "Character"
  }

  /** A reflected function: its name and whether it is marked deprecated or internal-only. */
  datatype FunctionInfo = FunctionInfo(name: string, hidden: bool)

  /** Engine reflection: the functions of a library class, or `None` when the class is not found. */
  type Reflection = Library -> Option<seq<FunctionInfo>>

  datatype Candidate = Candidate(library: Library, info: FunctionInfo)

  function LibraryCandidates(l: Library, fs: seq<FunctionInfo>): (r: seq<Candidate>)
    ensures |r| == |fs|
    ensures forall k :: 0 <= k < |r| ==> r[k] == Candidate(l, fs[k])
    decreases |fs|
  {
    if |fs| == 0 then [] else [Candidate(l, fs[0])] + LibraryCandidates(l, fs[1..])
  }

  /** Every function of every library found, library by library, in iteration order. */
  function Candidates(libs: seq<Library>, reflect: Reflection): (r: seq<Candidate>)
    ensures forall k :: 0 <= k < |r| ==>
              r[k].library in libs && reflect(r[k].library).Some? && r[k].info in reflect(r[k].library).value
    decreases |libs|
  {
    if |libs| == 0 then []
    else
      var here := match reflect(libs[0]) case None => [] case Some(fs) => LibraryCandidates(libs[0], fs);
      here + Candidates(libs[1..], reflect)
  }

  /** A function found in a library that was found is a candidate. */
  lemma {:induction false} EveryFunctionIsCandidate(libs: seq<Library>, reflect: Reflection, l: Library, k: nat)
    requires l in libs && reflect(l).Some? && k < |reflect(l).value|
    ensures Candidate(l, reflect(l).value[k]) in Candidates(libs, reflect)
    decreases |libs|
  {
    var here := match reflect(libs[0]) case None => [] case Some(fs) => LibraryCandidates(libs[0], fs);
    assert Candidates(libs, reflect) == here + Candidates(libs[1..], reflect);
    if libs[0] == l {
      assert here[k] == Candidate(l, reflect(l).value[k]);
    } else {
      EveryFunctionIsCandidate(libs[1..], reflect, l, k);
    }
  }

  // ---------------------------------------------------------------------
  // Scoring
  // ---------------------------------------------------------------------

  /** The score weights: exact match, substring match, per shared part, prefix bonus, length penalty. */
  datatype Weights = Weights(exact: int, substring: int, perPart: int, prefix: int, longPenalty: int)

  /** `TryCreateNodeFromLibraries`. */
  const LibraryWeights := Weights(120, 80, 20, 10, 15)

  /** `GetNodeSuggestions`. */
  const SuggestionWeights := Weights(100, 50, 10, 5, 10)

  /** How many node-type parts (counted with repetition) occur among the function's parts. */
  function SharedParts(nodeParts: seq<string>, funcParts: seq<string>): (r: nat)
    ensures r <= |nodeParts|
    ensures (forall k :: 0 <= k < |nodeParts| ==> nodeParts[k] in funcParts) ==> r == |nodeParts|
    ensures (forall k :: 0 <= k < |nodeParts| ==> nodeParts[k] !in funcParts) ==> r == 0
    decreases |nodeParts|
  {
    if |nodeParts| == 0 then 0
    else (if nodeParts[0] in funcParts then 1 else 0) + SharedParts(nodeParts[1..], funcParts)
  }

  /** The score of a lower-cased function name against a lower-cased node type. */
  function Score(w: Weights, funcLower: string, nodeLower: string): int {
    var base := if funcLower == nodeLower then w.exact else if Contains(funcLower, nodeLower) then w.substring else 0;
    base
    + w.perPart * SharedParts(SplitName(nodeLower), SplitName(funcLower))
    + (if StartsWith(funcLower, nodeLower) then w.prefix else 0)
    - (if |funcLower| > |nodeLower| * 2 then w.longPenalty else 0)
  }

  /** An exact match earns every bonus and no penalty. */
  lemma ExactScore(w: Weights, n: string)
    ensures Score(w, n, n) == w.exact + w.perPart * |SplitName(n)| + w.prefix
  {
    assert n[..|n|] == n;
  }

  /** A non-exact match earns at most the substring base plus every bonus. */
  lemma NonExactScoreBound(w: Weights, f: string, n: string)
    requires f != n && 0 <= w.substring && 0 <= w.perPart && 0 <= w.prefix && 0 <= w.longPenalty
    ensures Score(w, f, n) <= w.substring + w.perPart * |SplitName(n)| + w.prefix
  {
    var shared := SharedParts(SplitName(n), SplitName(f));
    ScaleMonotonic(w.perPart, shared, |SplitName(n)|);
  }

  lemma ScaleMonotonic(a: int, x: int, y: int)
    requires 0 <= a && x <= y
    ensures a * x <= a * y
  {
    assert a * y - a * x == a * (y - x);
  }

  /** A scored function: `Library.Function` for display, and its score. */
  datatype Match = Match(display: string, score: int, candidate: Candidate)

  function DisplayName(c: Candidate): string {
    LibraryName(c.library) + "." + c.info.name
  }

  function MatchOf(w: Weights, c: Candidate, nodeLower: string): Match {
    Match(DisplayName(c), Score(w, Lower(c.info.name), nodeLower), c)
  }

  /** Every candidate with its score, in search order. */
  function Scored(w: Weights, cs: seq<Candidate>, nodeLower: string): (r: seq<Match>)
    ensures |r| == |cs|
    ensures forall k :: 0 <= k < |r| ==> r[k] == MatchOf(w, cs[k], nodeLower)
  {
    MapCandidates((c: Candidate) => MatchOf(w, c, nodeLower), cs)
  }

  function MapCandidates(f: Candidate -> Match, cs: seq<Candidate>): (r: seq<Match>)
    ensures |r| == |cs|
    ensures forall k :: 0 <= k < |r| ==> r[k] == f(cs[k])
    decreases |cs|
  {
    if |cs| == 0 then [] else [f(cs[0])] + MapCandidates(f, cs[1..])
  }

  /** The `if (Score > 0)` filter, with hidden functions skipped. */
  function Kept(ms: seq<Match>): (r: seq<Match>)
    ensures |r| <= |ms|
    ensures forall k :: 0 <= k < |r| ==> r[k] in ms && r[k].score > 0 && !r[k].candidate.info.hidden
    ensures forall m :: m in ms && m.score > 0 && !m.candidate.info.hidden ==> m in r
    ensures (forall k :: 0 <= k < |ms| ==> ms[k].score <= 0 || ms[k].candidate.info.hidden) ==> r == []
    decreases |ms|
  {
    if |ms| == 0 then []
    else
      var rest := Kept(ms[1..]);
      assert forall m :: m in ms ==> m == ms[0] || m in ms[1..];
      assert forall k :: 1 <= k < |ms| ==> ms[1..][k - 1] == ms[k];
      if ms[0].score > 0 && !ms[0].candidate.info.hidden then [ms[0]] + rest else rest
  }

  /** The matches in search order: visible functions with a positive score. */
  function Matches(w: Weights, cs: seq<Candidate>, nodeLower: string): (r: seq<Match>)
    ensures |r| <= |cs|
    ensures forall m :: m in r ==> m.score > 0 && !m.candidate.info.hidden
    ensures forall m :: m in r ==> m.candidate in cs && m == MatchOf(w, m.candidate, nodeLower)
  {
    var scored := Scored(w, cs, nodeLower);
    var r := Kept(scored);
    assert forall m :: m in scored ==> exists k :: 0 <= k < |cs| && m == MatchOf(w, cs[k], nodeLower);
    r
  }

  /** Every visible candidate with a positive score is among the matches; without one there are none. */
  lemma MatchesAreComplete(w: Weights, cs: seq<Candidate>, nodeLower: string)
    ensures forall k :: 0 <= k < |cs| && !cs[k].info.hidden && MatchOf(w, cs[k], nodeLower).score > 0 ==>
              MatchOf(w, cs[k], nodeLower) in Matches(w, cs, nodeLower)
    ensures (forall k :: 0 <= k < |cs| ==> cs[k].info.hidden || MatchOf(w, cs[k], nodeLower).score <= 0) ==>
              Matches(w, cs, nodeLower) == []
  {
    var scored := Scored(w, cs, nodeLower);
    assert forall k :: 0 <= k < |cs| ==> scored[k] == MatchOf(w, cs[k], nodeLower);
  }

  // ---------------------------------------------------------------------
  // Ranking
  // ---------------------------------------------------------------------

  predicate SortedByScore(ms: seq<Match>) {
    forall i, j :: 0 <= i < j < |ms| ==> ms[i].score >= ms[j].score
  }

  /** Insert `m` before the first entry that does not outscore it. */
  function Insert(m: Match, s: seq<Match>): (r: seq<Match>)
    requires SortedByScore(s)
    ensures SortedByScore(r)
    ensures multiset(r) == multiset(s) + multiset{m}
    ensures |r| == |s| + 1
    ensures forall k :: 0 <= k < |r| ==> r[k] == m || r[k] in s
    decreases |s|
  {
    if |s| == 0 || m.score >= s[0].score then [m] + s
    else
      var tail := Insert(m, s[1..]);
      assert s == [s[0]] + s[1..];
      NoneOutscoresHead(m, s, tail);
      [s[0]] + tail
  }

  /** Inserting a lower-scored match into the rest of a ranking keeps its head on top. */
  lemma NoneOutscoresHead(m: Match, s: seq<Match>, tail: seq<Match>)
    requires SortedByScore(s) && |s| > 0 && m.score < s[0].score
    requires forall k :: 0 <= k < |tail| ==> tail[k] == m || tail[k] in s[1..]
    ensures forall k :: 0 <= k < |tail| ==> tail[k].score <= s[0].score
  {
    forall k | 0 <= k < |tail| ensures tail[k].score <= s[0].score {
      if tail[k] != m {
        var j :| 0 <= j < |s[1..]| && s[1..][j] == tail[k];
        assert s[j + 1] == tail[k];
      }
    }
  }

  /** `Matches.Sort` by descending score, as an insertion sort. */
  function SortByScore(ms: seq<Match>): (r: seq<Match>)
    ensures SortedByScore(r)
    ensures multiset(r) == multiset(ms)
    ensures |r| == |ms|
    decreases |ms|
  {
    if |ms| == 0 then []
    else
      assert ms == [ms[0]] + ms[1..];
      Insert(ms[0], SortByScore(ms[1..]))
  }

  /** The head of a ranking outscores every match. */
  lemma HeadIsBest(ms: seq<Match>)
    requires |ms| > 0
    ensures SortByScore(ms)[0] in ms
    ensures forall m :: m in ms ==> m.score <= SortByScore(ms)[0].score
  {
    var r := SortByScore(ms);
    assert multiset(r) == multiset(ms);
    assert r[0] in multiset(r);
    forall m | m in ms ensures m.score <= r[0].score {
      assert m in multiset(r);
      var k :| 0 <= k < |r| && r[k] == m;
    }
  }

  /** The matches for a node type, best first. */
  function Ranked(w: Weights, cs: seq<Candidate>, nodeType: string): (r: seq<Match>)
    ensures SortedByScore(r)
    ensures multiset(r) == multiset(Matches(w, cs, Lower(nodeType)))
    ensures |r| == |Matches(w, cs, Lower(nodeType))|
  {
    SortByScore(Matches(w, cs, Lower(nodeType)))
  }

  function Displays(ms: seq<Match>): (r: seq<string>)
    ensures |r| == |ms|
    ensures forall k :: 0 <= k < |r| ==> r[k] == ms[k].display
    decreases |ms|
  {
    if |ms| == 0 then [] else [ms[0].display] + Displays(ms[1..])
  }

  /** Dropping trailing entries until at most `n` remain. */
  function Truncate(xs: seq<string>, n: nat): (r: seq<string>)
    ensures |r| == if |xs| <= n then |xs| else n
    ensures r == xs[..|r|]
  {
    if |xs| <= n then xs else xs[..n]
  }

  // ---------------------------------------------------------------------
  // The two entry points
  // ---------------------------------------------------------------------

  const ScoreThreshold := 80
  const MaxLibrarySuggestions := 10
  const MaxSuggestions := 5

  /** What `TryCreateNodeFromLibraries` decides. */
  datatype LibraryOutcome = NoMatches | CreatedFrom(best: Match) | Suggested(names: seq<string>)

  function FromLibraries(cs: seq<Candidate>, nodeType: string): (r: LibraryOutcome)
    ensures var ms := Matches(LibraryWeights, cs, Lower(nodeType));
            && (r.NoMatches? <==> |ms| == 0)
            && (r.CreatedFrom? ==> r.best in ms && r.best.score >= ScoreThreshold
                                   && forall m :: m in ms ==> m.score <= r.best.score)
            && (r.Suggested? ==> |ms| > 0 && forall m :: m in ms ==> m.score < ScoreThreshold)
            && (r.Suggested? ==> 0 < |r.names| <= MaxLibrarySuggestions && |r.names| <= |ms|)
  {
    var ms := Matches(LibraryWeights, cs, Lower(nodeType));
    if |ms| == 0 then NoMatches
    else
      var ranked := SortByScore(ms);
      HeadIsBest(ms);
      if ranked[0].score >= ScoreThreshold then CreatedFrom(ranked[0])
      else Suggested(Truncate(Displays(ranked), MaxLibrarySuggestions))
  }

  /** The suggestions are the first display names of the ranking, best first. */
  lemma SuggestionsFollowRanking(cs: seq<Candidate>, nodeType: string)
    requires FromLibraries(cs, nodeType).Suggested?
    ensures var names := FromLibraries(cs, nodeType).names;
            var ranked := Ranked(LibraryWeights, cs, nodeType);
            SortedByScore(ranked) && forall k :: 0 <= k < |names| ==> names[k] == ranked[k].display
  {
  }

  /** The string `TryCreateNodeFromLibraries` returns. */
  function LibraryText(r: LibraryOutcome): (s: string)
    ensures r.NoMatches? ==> s == ""
    ensures r.Suggested? ==> StartsWith(s, BlueprintCommands.SuggestionsPrefix)
  {
    match r
    case NoMatches => ""
    case CreatedFrom(m) => m.display
    case Suggested(names) =>
      var s := BlueprintCommands.SuggestionsPrefix + Join(names, ", ");
      assert s[..|BlueprintCommands.SuggestionsPrefix|] == BlueprintCommands.SuggestionsPrefix;
      s
  }

  /**
   * An exact (case-insensitive) name match always wins: it scores above
   * the threshold and above every non-exact match, so the node created is
   * for a function of exactly that name.
   */
  lemma ExactMatchIsCreated(cs: seq<Candidate>, nodeType: string, c: Candidate)
    requires c in cs && !c.info.hidden && Lower(c.info.name) == Lower(nodeType)
    ensures FromLibraries(cs, nodeType).CreatedFrom?
    ensures Lower(FromLibraries(cs, nodeType).best.candidate.info.name) == Lower(nodeType)
  {
    var n := Lower(nodeType);
    var ms := Matches(LibraryWeights, cs, n);
    MatchesAreComplete(LibraryWeights, cs, n);
    ExactScore(LibraryWeights, n);
    var exact := MatchOf(LibraryWeights, c, n);
    assert exact.score == 130 + 20 * |SplitName(n)|;
    assert exact in ms;
    var r := FromLibraries(cs, nodeType);
    assert r.CreatedFrom?;
    var best := r.best;
    assert best.score >= exact.score;
    var k :| 0 <= k < |ms| && ms[k] == best;
    if Lower(best.candidate.info.name) != n {
      NonExactScoreBound(LibraryWeights, Lower(best.candidate.info.name), n);
    }
  }

  /** `GetNodeSuggestions`: at most five names with the prefix, or `""`; no node is created. */
  function SuggestionNames(cs: seq<Candidate>, nodeType: string): (r: seq<string>)
    ensures |r| <= MaxSuggestions
    ensures |r| == 0 <==> |Matches(SuggestionWeights, cs, Lower(nodeType))| == 0
    ensures forall k :: 0 <= k < |r| ==>
              k < |Ranked(SuggestionWeights, cs, nodeType)| && r[k] == Ranked(SuggestionWeights, cs, nodeType)[k].display
  {
    Truncate(Displays(Ranked(SuggestionWeights, cs, nodeType)), MaxSuggestions)
  }

  function GetNodeSuggestions(cs: seq<Candidate>, nodeType: string): (r: string)
    ensures r == "" <==> |Matches(SuggestionWeights, cs, Lower(nodeType))| == 0
    ensures r != "" ==> StartsWith(r, BlueprintCommands.SuggestionsPrefix)
  {
    var names := SuggestionNames(cs, nodeType);
    if |names| == 0 then ""
    else
      var s := BlueprintCommands.SuggestionsPrefix + Join(names, ", ");
      assert s[..|BlueprintCommands.SuggestionsPrefix|] == BlueprintCommands.SuggestionsPrefix;
      s
  }

  // ---------------------------------------------------------------------
  // The Python reader inverts the C++ writer
  // ---------------------------------------------------------------------

  predicate NoComma(s: string) {
    ',' !in s
  }

  lemma LibraryNameHasNoComma(l: Library)
    ensures NoComma(LibraryName(l))
  {
  }

  lemma DisplayHasNoSeparator(c: Candidate)
    requires NoComma(c.info.name)
    ensures !Contains(DisplayName(c), ", ")
  {
    LibraryNameHasNoComma(c.library);
    var d := DisplayName(c);
    assert NoComma(d) by {
      assert d == LibraryName(c.library) + "." + c.info.name;
    }
    assert forall i :: 0 <= i < |d| ==> d[i] in d;
    NotContainsFirstChar(d, ", ");
  }

  /**
   * When no function name contains a comma, `handle_get_node_suggestions`
   * reads back exactly the names `GetNodeSuggestions` joined, in ranking
   * order, and an empty result as the empty list.
   */
  lemma SuggestionsReachHandler(cs: seq<Candidate>, nodeType: string)
    requires forall k :: 0 <= k < |cs| ==> NoComma(cs[k].info.name)
    ensures BlueprintCommands.ReadSuggestions(GetNodeSuggestions(cs, nodeType))
            == Success(SuggestionNames(cs, nodeType))
  {
    var names := SuggestionNames(cs, nodeType);
    if |names| > 0 {
      var ranked := Ranked(SuggestionWeights, cs, nodeType);
      var ms := Matches(SuggestionWeights, cs, Lower(nodeType));
      forall k | 0 <= k < |names| ensures !Contains(names[k], ", ") {
        assert ranked[k] in multiset(ms);
        assert ranked[k] in ms;
        DisplayHasNoSeparator(ranked[k].candidate);
      }
      BlueprintCommands.SuggestionsRoundTrip(names);
    }
  }

  /** The same holds for the suggestions `TryCreateNodeFromLibraries` returns below the threshold. */
  lemma LibrarySuggestionsReachHandler(cs: seq<Candidate>, nodeType: string)
    requires forall k :: 0 <= k < |cs| ==> NoComma(cs[k].info.name)
    requires FromLibraries(cs, nodeType).Suggested?
    ensures BlueprintCommands.ReadSuggestions(LibraryText(FromLibraries(cs, nodeType)))
            == Success(FromLibraries(cs, nodeType).names)
  {
    var names := FromLibraries(cs, nodeType).names;
    var ranked := Ranked(LibraryWeights, cs, nodeType);
    var ms := Matches(LibraryWeights, cs, Lower(nodeType));
    forall k | 0 <= k < |names| ensures !Contains(names[k], ", ") {
      assert ranked[k] in multiset(ms);
      assert ranked[k] in ms;
      DisplayHasNoSeparator(ranked[k].candidate);
    }
    BlueprintCommands.SuggestionsRoundTrip(names);
  }
}
