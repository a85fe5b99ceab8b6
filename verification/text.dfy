/**
 * String utilities shared by the Python and C++ halves of the plugin:
 * ASCII case mapping, substring search, Python's `str.split` with a
 * separator and its inverse `join`, and decimal rendering of naturals.
 * Case mapping is ASCII-only; Unicode case folding is not modelled.
 */
module Text {
  import opened Wrappers

  // ---------------------------------------------------------------------
  // Case mapping
  // ---------------------------------------------------------------------

  predicate IsUpperChar(c: char) { 'A' <= c <= 'Z' }

  predicate IsLowerChar(c: char) { 'a' <= c <= 'z' }

  function LowerChar(c: char): (r: char)
    ensures !IsUpperChar(r)
    ensures IsUpperChar(c) ==> IsLowerChar(r)
    ensures !IsUpperChar(c) ==> r == c
  {
    if IsUpperChar(c) then (c as int - 'A' as int + 'a' as int) as char else c
  }

  /** Python `str.lower()` / Unreal `FString::ToLower` on ASCII text. */
  function Lower(s: string): (r: string)
    ensures |r| == |s|
    ensures forall i :: 0 <= i < |s| ==> r[i] == LowerChar(s[i])
  {
    seq(|s|, i requires 0 <= i < |s| => LowerChar(s[i]))
  }

  predicate IsLowerCase(s: string) {
    forall i :: 0 <= i < |s| ==> !IsUpperChar(s[i])
  }

  lemma LowerIsLowerCase(s: string)
    ensures IsLowerCase(Lower(s))
    ensures Lower(Lower(s)) == Lower(s)
  {
  }

  lemma LowerOfLowerCase(s: string)
    requires IsLowerCase(s)
    ensures Lower(s) == s
  {
  }

  lemma LowerAppend(a: string, b: string)
    ensures Lower(a + b) == Lower(a) + Lower(b)
  {
  }

  /** Unreal `FString::Equals(.., ESearchCase::IgnoreCase)`. */
  predicate EqualsIgnoreCase(a: string, b: string) {
    Lower(a) == Lower(b)
  }

  // ---------------------------------------------------------------------
  // Prefixes and substrings
  // ---------------------------------------------------------------------

  predicate StartsWith(s: string, p: string) {
    |p| <= |s| && s[..|p|] == p
  }

  predicate EndsWith(s: string, p: string) {
    |p| <= |s| && s[|s| - |p|..] == p
  }

  /** `sub` occurs in `s` starting at index `i`. */
  predicate OccursAt(s: string, sub: string, i: int) {
    0 <= i && i + |sub| <= |s| && s[i..i + |sub|] == sub
  }

  /**
   * Python `sub in s` / Unreal `FString::Contains` (case-sensitive),
   * computed by scanning; the contract ties it to the positional definition.
   */
  function Contains(s: string, sub: string): (r: bool)
    ensures r <==> exists i :: OccursAt(s, sub, i)
    decreases |s|
  {
    if StartsWith(s, sub) then
      assert OccursAt(s, sub, 0);
      true
    else if |s| == 0 then
      false
    else
      var r := Contains(s[1..], sub);
      assert forall i :: OccursAt(s[1..], sub, i) ==> OccursAt(s, sub, i + 1) by {
        forall i | OccursAt(s[1..], sub, i) ensures OccursAt(s, sub, i + 1) {
          assert s[i + 1..i + 1 + |sub|] == s[1..][i..i + |sub|];
        }
      }
      assert forall i :: OccursAt(s, sub, i) ==> i == 0 || OccursAt(s[1..], sub, i - 1) by {
        forall i | OccursAt(s, sub, i) && i != 0 ensures OccursAt(s[1..], sub, i - 1) {
          assert s[1..][i - 1..i - 1 + |sub|] == s[i..i + |sub|];
        }
      }
      r
  }

  lemma ContainsEmpty(s: string)
    ensures Contains(s, "")
  {
    assert OccursAt(s, "", 0);
  }

  lemma ContainsSelf(s: string)
    ensures Contains(s, s)
  {
    assert OccursAt(s, s, 0);
  }

  /** A substring of a substring is a substring. */
  lemma ContainsTransitive(s: string, mid: string, sub: string)
    requires Contains(s, mid) && Contains(mid, sub)
    ensures Contains(s, sub)
  {
    var i :| OccursAt(s, mid, i);
    var j :| OccursAt(mid, sub, j);
    var inner := s[i..i + |mid|][j..j + |sub|];
    var outer := s[i + j..i + j + |sub|];
    forall t | 0 <= t < |sub| ensures inner[t] == outer[t] {
    }
    assert inner == outer;
    assert OccursAt(s, sub, i + j);
  }

  lemma ContainsInLeft(a: string, b: string, sub: string)
    requires Contains(a, sub)
    ensures Contains(a + b, sub)
  {
    var i :| OccursAt(a, sub, i);
    assert (a + b)[i..i + |sub|] == a[i..i + |sub|];
    assert OccursAt(a + b, sub, i);
  }

  lemma ContainsInRight(a: string, b: string, sub: string)
    requires Contains(b, sub)
    ensures Contains(a + b, sub)
  {
    var i :| OccursAt(b, sub, i);
    assert (a + b)[|a| + i..|a| + i + |sub|] == b[i..i + |sub|];
    assert OccursAt(a + b, sub, |a| + i);
  }

  lemma StartsWithContains(s: string, p: string)
    requires StartsWith(s, p)
    ensures Contains(s, p)
  {
    assert OccursAt(s, p, 0);
  }

  /** Unreal `FString::Contains` with its default `ESearchCase::IgnoreCase`. */
  predicate ContainsIgnoreCase(s: string, sub: string) {
    Contains(Lower(s), Lower(sub))
  }

  /** Lower-casing preserves an occurrence. */
  lemma ContainsLower(s: string, sub: string)
    requires Contains(s, sub)
    ensures Contains(Lower(s), Lower(sub))
  {
    var i :| OccursAt(s, sub, i);
    assert Lower(s)[i..i + |sub|] == Lower(sub);
    assert OccursAt(Lower(s), Lower(sub), i);
  }

  /** A string with a character that never appears in `s` does not occur in it. */
  lemma NotContainsChar(s: string, sub: string, k: nat)
    requires k < |sub| && forall i :: 0 <= i < |s| ==> s[i] != sub[k]
    ensures !Contains(s, sub)
  {
    forall i | OccursAt(s, sub, i)
      ensures s[i + k] == sub[k]
    {
      assert s[i..i + |sub|][k] == sub[k];
    }
  }

  /** A non-empty string whose first character never appears in `s` does not occur in it. */
  lemma NotContainsFirstChar(s: string, sub: string)
    requires |sub| > 0 && forall i :: 0 <= i < |s| ==> s[i] != sub[0]
    ensures !Contains(s, sub)
  {
    forall i | OccursAt(s, sub, i)
      ensures s[i] == sub[0]
    {
      assert s[i..i + |sub|][0] == sub[0];
    }
  }

  /** Index of the first occurrence of a non-empty `sep` in `s`. */
  function IndexOf(s: string, sep: string): (r: Option<nat>)
    requires |sep| > 0
    ensures r.Some? ==> OccursAt(s, sep, r.value)
    ensures r.Some? ==> forall j :: 0 <= j < r.value ==> !OccursAt(s, sep, j)
    ensures r.None? <==> !Contains(s, sep)
    decreases |s|
  {
    if StartsWith(s, sep) then Some(0)
    else if |s| < |sep| then
      assert forall j :: !OccursAt(s, sep, j);
      None
    else
      match IndexOf(s[1..], sep)
      case None =>
        assert forall j :: OccursAt(s, sep, j) ==> j == 0 || OccursAt(s[1..], sep, j - 1) by {
          forall j | OccursAt(s, sep, j) && j != 0 ensures OccursAt(s[1..], sep, j - 1) {
            assert s[1..][j - 1..j - 1 + |sep|] == s[j..j + |sep|];
          }
        }
        None
      case Some(k) =>
        assert OccursAt(s, sep, k + 1) by {
          assert OccursAt(s[1..], sep, k);
          assert s[k + 1..k + 1 + |sep|] == s[1..][k..k + |sep|];
        }
        assert forall j :: 0 < j < k + 1 ==> !OccursAt(s, sep, j) by {
          forall j | 0 < j < k + 1 && OccursAt(s, sep, j) ensures false {
            assert s[1..][j - 1..j - 1 + |sep|] == s[j..j + |sep|];
            assert OccursAt(s[1..], sep, j - 1);
          }
        }
        Some(k + 1)
  }

  // ---------------------------------------------------------------------
  // split / join
  // ---------------------------------------------------------------------

  /** Python `sep.join(parts)` / Unreal `FString::Join(parts, sep)`. */
  function Join(parts: seq<string>, sep: string): string
    decreases |parts|
  {
    if |parts| == 0 then ""
    else if |parts| == 1 then parts[0]
    else parts[0] + sep + Join(parts[1..], sep)
  }

  /** Python `s.split(sep)` for a non-empty separator. */
  function Split(s: string, sep: string): (r: seq<string>)
    requires |sep| > 0
    ensures |r| > 0
    ensures forall k :: 0 <= k < |r| ==> !Contains(r[k], sep)
    ensures Join(r, sep) == s
    decreases |s|
  {
    match IndexOf(s, sep)
    case None => [s]
    case Some(i) =>
      BeforeFirstOccurrence(s, sep, i);
      var rest := Split(s[i + |sep|..], sep);
      JoinCons(s[..i], rest, sep);
      [s[..i]] + rest
  }

  /** The text before the first occurrence of `sep` does not contain it, and `s` is that text, `sep` and the rest. */
  lemma BeforeFirstOccurrence(s: string, sep: string, i: nat)
    requires |sep| > 0 && IndexOf(s, sep) == Some(i)
    ensures !Contains(s[..i], sep)
    ensures s == s[..i] + sep + s[i + |sep|..]
  {
    NoEarlierOccurrence(s, sep, i);
    assert OccursAt(s, sep, i);
    assert s[..i] + s[i..i + |sep|] + s[i + |sep|..] == s;
  }

  lemma NoEarlierOccurrence(s: string, sep: string, i: nat)
    requires |sep| > 0 && i <= |s| && forall j :: 0 <= j < i ==> !OccursAt(s, sep, j)
    ensures !Contains(s[..i], sep)
  {
    forall j | OccursAt(s[..i], sep, j)
      ensures j < i && OccursAt(s, sep, j)
    {
      assert s[..i][j..j + |sep|] == s[j..j + |sep|];
    }
  }

  lemma JoinCons(part: string, rest: seq<string>, sep: string)
    requires |rest| > 0
    ensures Join([part] + rest, sep) == part + sep + Join(rest, sep)
  {
    assert ([part] + rest)[1..] == rest;
  }

  /**
   * A separator that no proper prefix overlaps with a proper suffix of;
   * `", "` is one. For such separators `split` inverts `join`.
   */
  predicate Unbordered(sep: string) {
    forall k :: 0 < k < |sep| ==> sep[..k] != sep[|sep| - k..]
  }

  lemma {:induction false} FirstSeparatorAfterPart(x: string, sep: string, rest: string)
    requires |sep| > 0 && Unbordered(sep) && !Contains(x, sep)
    ensures IndexOf(x + sep + rest, sep) == Some(|x|)
  {
    var s := x + sep + rest;
    assert OccursAt(s, sep, |x|) by {
      assert s[|x|..|x| + |sep|] == sep;
    }
    forall j | 0 <= j < |x| ensures !OccursAt(s, sep, j) {
      if j + |sep| <= |x| {
        assert x[j..j + |sep|] == s[j..j + |sep|];
        assert !OccursAt(x, sep, j);
      } else {
        // an occurrence here would make sep's tail of length |sep| - k equal its head
        var k := |x| - j;
        assert s[|x|..j + |sep|] == sep[..|sep| - k];
        assert s[j + k..j + |sep|] == s[j..j + |sep|][k..];
        assert sep[..|sep| - k] != sep[|sep| - (|sep| - k)..];
      }
    }
  }

  /** `split` inverts `join` when no part contains an unbordered separator. */
  lemma {:induction false} SplitJoin(parts: seq<string>, sep: string)
    requires |sep| > 0 && Unbordered(sep) && |parts| > 0
    requires forall k :: 0 <= k < |parts| ==> !Contains(parts[k], sep)
    ensures Split(Join(parts, sep), sep) == parts
    decreases |parts|
  {
    if |parts| == 1 {
    } else {
      var tail := Join(parts[1..], sep);
      FirstSeparatorAfterPart(parts[0], sep, tail);
      var s := parts[0] + sep + tail;
      assert s[..|parts[0]|] == parts[0];
      assert s[|parts[0]| + |sep|..] == tail;
      SplitJoin(parts[1..], sep);
      assert parts == [parts[0]] + parts[1..];
    }
  }

  lemma CommaSpaceUnbordered()
    ensures Unbordered(", ")
  {
    assert ", "[..1] == ",";
    assert ", "[1..] == " ";
  }

  // ---------------------------------------------------------------------
  // Whitespace trimming
  // ---------------------------------------------------------------------

  /** The characters Python's `str.strip()` removes. */
  predicate IsPySpace(c: char) {
    || c == ' ' || c == '\t' || c == '\n' || c == '\r' || c == '\U{B}' || c == '\U{C}'
    || ('\U{1C}' <= c <= '\U{1F}') || c == '\U{85}' || c == '\U{A0}' || c == '\U{1680}'
    || ('\U{2000}' <= c <= '\U{200A}') || c == '\U{2028}' || c == '\U{2029}' || c == '\U{202F}'
    || c == '\U{205F}' || c == '\U{3000}'
  }

  function TrimStart(s: string): (r: string)
    ensures |r| <= |s| && r == s[|s| - |r|..]
    ensures r != "" ==> !IsPySpace(r[0])
    ensures forall i :: 0 <= i < |s| - |r| ==> IsPySpace(s[i])
    decreases |s|
  {
    if |s| > 0 && IsPySpace(s[0]) then TrimStart(s[1..]) else s
  }

  function TrimEnd(s: string): (r: string)
    ensures |r| <= |s| && r == s[..|r|]
    ensures r != "" ==> !IsPySpace(r[|r| - 1])
    ensures forall i :: |r| <= i < |s| ==> IsPySpace(s[i])
    decreases |s|
  {
    if |s| > 0 && IsPySpace(s[|s| - 1]) then TrimEnd(s[..|s| - 1]) else s
  }

  /** Python `str.strip()` without arguments. */
  function Strip(s: string): (r: string)
    ensures |r| <= |s|
    ensures r != "" ==> !IsPySpace(r[0]) && !IsPySpace(r[|r| - 1])
  {
    TrimEnd(TrimStart(s))
  }

  // ---------------------------------------------------------------------
  // Decimal numbers
  // ---------------------------------------------------------------------

  predicate IsDigit(c: char) { '0' <= c <= '9' }

  function DigitChar(d: nat): (c: char)
    requires d < 10
    ensures IsDigit(c)
  {
    ('0' as int + d) as char
  }

  /** Python `str(n)` for a natural number: shortest decimal form. */
  function NatToDecimal(n: nat): (r: string)
    ensures |r| > 0
    ensures forall i :: 0 <= i < |r| ==> IsDigit(r[i])
    ensures |r| > 1 ==> r[0] != '0'
  {
    if n < 10 then [DigitChar(n)] else NatToDecimal(n / 10) + [DigitChar(n % 10)]
  }

  /** Value of a string of decimal digits. */
  function DecimalValue(s: string): nat
    requires forall i :: 0 <= i < |s| ==> IsDigit(s[i])
  {
    if |s| == 0 then 0
    else
      var last := s[|s| - 1];
      assert IsDigit(last);
      10 * DecimalValue(s[..|s| - 1]) + (last as int - '0' as int)
  }

  /** Parse a non-empty string of digits; anything else is rejected. */
  function ParseNat(s: string): (r: Option<nat>)
    ensures r.Some? <==> |s| > 0 && forall i :: 0 <= i < |s| ==> IsDigit(s[i])
  {
    if |s| > 0 && forall i :: 0 <= i < |s| ==> IsDigit(s[i]) then Some(DecimalValue(s)) else None
  }

  lemma {:induction false} DecimalRoundTrip(n: nat)
    ensures ParseNat(NatToDecimal(n)) == Some(n)
    ensures DecimalValue(NatToDecimal(n)) == n
  {
    var s := NatToDecimal(n);
    if n < 10 {
      assert s[..|s| - 1] == [];
    } else {
      DecimalRoundTrip(n / 10);
      assert s[..|s| - 1] == NatToDecimal(n / 10);
    }
    assert DecimalValue(s) == n;
  }

  // ---------------------------------------------------------------------
  // C integer parsing
  // ---------------------------------------------------------------------

  /** The whitespace C's `atoi` skips. */
  predicate IsCSpace(c: char) { c == ' ' || '\t' <= c <= '\r' }

  function SkipCSpace(s: string): (r: string)
    ensures |r| <= |s| && r == s[|s| - |r|..]
    ensures r != [] ==> !IsCSpace(r[0])
  {
    if |s| > 0 && IsCSpace(s[0]) then SkipCSpace(s[1..]) else s
  }

  /** The longest prefix of decimal digits. */
  function LeadingDigits(s: string): (r: string)
    ensures |r| <= |s| && r == s[..|r|]
    ensures forall i :: 0 <= i < |r| ==> IsDigit(r[i])
    ensures |r| < |s| ==> !IsDigit(s[|r|])
  {
    if |s| > 0 && IsDigit(s[0]) then [s[0]] + LeadingDigits(s[1..]) else []
  }

  /**
   * `FCString::Atoi`: skip whitespace, read an optional sign and the digits
   * that follow; no digits gives 0. The 32-bit range is not modelled.
   */
  function Atoi(s: string): (r: int)
    ensures LeadingDigits(SkipCSpace(s)) == [] && (SkipCSpace(s) == [] || (SkipCSpace(s)[0] != '-' && SkipCSpace(s)[0] != '+')) ==> r == 0
  {
    var t := SkipCSpace(s);
    if |t| > 0 && (t[0] == '-' || t[0] == '+') then
      var n := DecimalValue(LeadingDigits(t[1..]));
      if t[0] == '-' then -(n as int) else n
    else
      DecimalValue(LeadingDigits(t))
  }

  lemma LeadingDigitsOfDigits(s: string)
    requires forall i :: 0 <= i < |s| ==> IsDigit(s[i])
    ensures LeadingDigits(s) == s
  {
  }

  lemma AtoiOfDigits(d: string)
    requires |d| > 0 && forall i :: 0 <= i < |d| ==> IsDigit(d[i])
    ensures Atoi(d) == DecimalValue(d)
  {
    assert SkipCSpace(d) == d by { assert IsDigit(d[0]); }
    assert d[0] != '-' && d[0] != '+' by { assert IsDigit(d[0]); }
    LeadingDigitsOfDigits(d);
  }

  lemma AtoiOfNegativeDigits(d: string)
    requires |d| > 0 && forall i :: 0 <= i < |d| ==> IsDigit(d[i])
    ensures Atoi(['-'] + d) == -(DecimalValue(d) as int)
  {
    LeadingDigitsOfDigits(d);
    var m := ['-'] + d;
    assert SkipCSpace(m) == m;
    assert m[1..] == d;
  }

  /** `Atoi` reads back the decimal form of any natural number, and its negation. */
  lemma AtoiOfDecimal(n: nat)
    ensures Atoi(NatToDecimal(n)) == n
    ensures Atoi(['-'] + NatToDecimal(n)) == -(n as int)
  {
    DecimalRoundTrip(n);
    AtoiOfDigits(NatToDecimal(n));
    AtoiOfNegativeDigits(NatToDecimal(n));
  }

  /** A value starting with a letter reads as 0. */
  lemma AtoiOfWord(s: string)
    requires |s| > 0 && ('A' <= s[0] <= 'Z' || 'a' <= s[0] <= 'z')
    ensures Atoi(s) == 0
  {
  }
}
