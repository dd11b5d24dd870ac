/**
 The fixed pattern `(?<account>\w+).blob.core.windows.net(?::\d+)?` and the match that the
 .NET regular-expression engine reports for it.

 The engine tries start positions from left to right and reports the first one at which the
 pattern matches. From that start, `\w+` first takes the whole run of word characters and then
 gives characters back, one at a time, until the 22 characters after it fit
 `.blob.core.windows.net`. The optional `(?::\d+)?` at the end can always match the empty
 string, so it changes neither whether there is a match nor what the `account` group holds; it
 is not modelled.

 Two character classes are left open: `\w` (Unicode word characters in .NET) and the class of a
 separator position. The pattern as written has unescaped dots, and an unescaped `.` matches
 every UTF-16 code unit except a line feed; an escaped `\.` would match only a dot. A `char`
 here is a Unicode scalar value, so the model agrees with .NET on text inside the Basic
 Multilingual Plane; a character above U+FFFF is two code units in .NET.
 */
module AccountPattern {
  import opened Wrappers

  /** The two character classes the pattern is built from. */
  datatype Pattern = Pattern(word: char -> bool, sep: char -> bool)

  /** The pattern as written: the four separators are `.` wildcards. */
  function AsWritten(word: char -> bool): Pattern {
    Pattern(word, c => c != '\n')
  }

  /** The pattern with its dots escaped: the four separators match only '.'. */
  function Escaped(word: char -> bool): Pattern {
    Pattern(word, c => c == '.')
  }

  /** Length of `.blob.core.windows.net`. */
  const SuffixLength: nat := 22

  /** The 22 characters of the pattern after the account group match s at index e. */
  predicate SuffixAt(p: Pattern, s: string, e: nat) {
    && e + SuffixLength <= |s|
    && p.sep(s[e]) && s[e + 1..e + 5] == "blob"
    && p.sep(s[e + 5]) && s[e + 6..e + 10] == "core"
    && p.sep(s[e + 10]) && s[e + 11..e + 18] == "windows"
    && p.sep(s[e + 18]) && s[e + 19..e + 22] == "net"
  }

  /** s[i..e] is a non-empty run of word characters. */
  ghost predicate WordRun(p: Pattern, s: string, i: nat, e: nat) {
    i < e <= |s| && forall k :: i <= k < e ==> p.word(s[k])
  }

  /** The pattern matches s from index i with the account group s[i..e]. */
  ghost predicate MatchAt(p: Pattern, s: string, i: nat, e: nat) {
    WordRun(p, s, i, e) && SuffixAt(p, s, e)
  }

  /** Some match of the pattern starts at index i. */
  ghost predicate MatchesAt(p: Pattern, s: string, i: nat) {
    exists e: nat :: MatchAt(p, s, i, e)
  }

  /** Some match of the pattern starts somewhere in s. */
  ghost predicate Matches(p: Pattern, s: string) {
    exists i: nat, e: nat :: MatchAt(p, s, i, e)
  }

  /**
   (i, e) is the match the engine reports: no match starts before i, and no match from i has a
   longer account group.
   */
  ghost predicate Reported(p: Pattern, s: string, i: nat, e: nat) {
    && MatchAt(p, s, i, e)
    && (forall i': nat, e': nat :: i' < i ==> !MatchAt(p, s, i', e'))
    && (forall e': nat :: e < e' ==> !MatchAt(p, s, i, e'))
  }

  /** The greedy step of `\w+`: the end of the longest run of word characters from i. */
  function RunEnd(p: Pattern, s: string, i: nat): (e: nat)
    requires i <= |s|
    ensures i <= e <= |s|
    ensures forall k :: i <= k < e ==> p.word(s[k])
    ensures e < |s| ==> !p.word(s[e])
    decreases |s| - i
  {
    if i < |s| && p.word(s[i]) then RunEnd(p, s, i + 1) else i
  }

  /**
   The backtracking step of `\w+`: starting with the account group s[i..e], give back one
   character at a time until the suffix fits. The result is the largest end in (i, e] at which
   the suffix matches.
   */
  function Backtrack(p: Pattern, s: string, i: nat, e: nat): (r: Option<nat>)
    requires i <= e <= |s|
    ensures r.Some? ==> i < r.value <= e && SuffixAt(p, s, r.value)
    ensures r.Some? ==> forall e': nat :: r.value < e' <= e ==> !SuffixAt(p, s, e')
    ensures r.None? <==> forall e': nat :: i < e' <= e ==> !SuffixAt(p, s, e')
    decreases e - i
  {
    if e == i then None
    else if SuffixAt(p, s, e) then Some(e)
    else Backtrack(p, s, i, e - 1)
  }

  /** One attempt of the engine at start index i: the greedy account end, if any. */
  function MatchFrom(p: Pattern, s: string, i: nat): (r: Option<nat>)
    requires i <= |s|
    ensures r.Some? ==> MatchAt(p, s, i, r.value)
    ensures r.Some? ==> forall e': nat :: r.value < e' ==> !MatchAt(p, s, i, e')
    ensures r.None? <==> !MatchesAt(p, s, i)
  {
    var run := RunEnd(p, s, i);
    var r := Backtrack(p, s, i, run);
    forall e': nat | run < e'
      ensures !WordRun(p, s, i, e')
    {
      if e' <= |s| {
        assert i <= run < |s| && !p.word(s[run]);
      }
    }
    assert r.None? ==> forall e': nat :: !MatchAt(p, s, i, e');
    assert r.Some? ==> MatchesAt(p, s, i) by {
      if r.Some? { assert MatchAt(p, s, i, r.value); }
    }
    r
  }

  /** The engine's scan: the first start index from i on at which an attempt succeeds. */
  function Scan(p: Pattern, s: string, i: nat): (r: Option<(nat, nat)>)
    requires i <= |s|
    ensures r.Some? ==> i <= r.value.0 && MatchAt(p, s, r.value.0, r.value.1)
    ensures r.Some? ==> forall e': nat :: r.value.1 < e' ==> !MatchAt(p, s, r.value.0, e')
    ensures r.Some? ==> forall i': nat, e': nat :: i <= i' < r.value.0 ==> !MatchAt(p, s, i', e')
    ensures r.None? <==> forall i': nat, e': nat :: i <= i' ==> !MatchAt(p, s, i', e')
    decreases |s| - i
  {
    if i == |s| then None
    else
      match MatchFrom(p, s, i)
      case Some(e) => Some((i, e))
      case None => Scan(p, s, i + 1)
  }

  /** `Regex.Match`: the start and end of the account group of the reported match, if any. */
  function FirstMatch(p: Pattern, s: string): (r: Option<(nat, nat)>)
    ensures r.None? <==> !Matches(p, s)
    ensures r.Some? ==> Reported(p, s, r.value.0, r.value.1)
  {
    Scan(p, s, 0)
  }

  /** The account group of the reported match, or None when the pattern matches nowhere. */
  function Account(p: Pattern, s: string): (r: Option<string>)
    ensures r.None? <==> !Matches(p, s)
    ensures r.Some? ==> exists i: nat, e: nat :: Reported(p, s, i, e) && r.value == s[i..e]
  {
    match FirstMatch(p, s)
    case None => None
    case Some((i, e)) => Some(s[i..e])
  }

  /** At most one match is the reported one. */
  lemma ReportedUnique(p: Pattern, s: string, i: nat, e: nat, i': nat, e': nat)
    requires Reported(p, s, i, e) && Reported(p, s, i', e')
    ensures i == i' && e == e'
  {
  }

  /** The account is determined by the reported match alone. */
  lemma AccountOfReported(p: Pattern, s: string, i: nat, e: nat)
    requires Reported(p, s, i, e)
    ensures Account(p, s) == Some(s[i..e])
  {
    match FirstMatch(p, s)
    case Some((i', e')) => ReportedUnique(p, s, i, e, i', e');
  }

  /**
   A non-empty account is a non-empty run of word characters that occurs in s and is
   immediately followed by the 22 characters of the suffix.
   */
  lemma AccountShape(p: Pattern, s: string)
    ensures Account(p, s).Some? ==>
      var a := Account(p, s).value;
      && |a| > 0
      && (forall k :: 0 <= k < |a| ==> p.word(a[k]))
      && exists i: nat, e: nat :: i <= e <= |s| && s[i..e] == a && SuffixAt(p, s, e)
  {
    if Account(p, s).Some? {
      var i: nat, e: nat :| Reported(p, s, i, e) && Account(p, s).value == s[i..e];
      var a := s[i..e];
      assert forall k :: 0 <= k < |a| ==> a[k] == s[i + k];
    }
  }

  /** No input shorter than one word character plus the suffix holds an account. */
  lemma ShortInputHasNoAccount(p: Pattern, s: string)
    requires |s| < 1 + SuffixLength
    ensures Account(p, s) == None
  {
    AccountShape(p, s);
  }

  /** The literal text `.blob.core.windows.net`. */
  const LiteralSuffix: string := ".blob.core.windows.net"

  /** s holds the literal text `.blob.core.windows.net` at index e. */
  predicate LiteralSuffixAt(s: string, e: nat) {
    e + SuffixLength <= |s| && s[e..e + SuffixLength] == LiteralSuffix
  }

  /** The literal suffix fits the pattern's suffix whenever a dot fits a separator. */
  lemma LiteralFitsSuffix(p: Pattern, s: string, e: nat)
    requires LiteralSuffixAt(s, e) && p.sep('.')
    ensures SuffixAt(p, s, e)
  {
    var u := s[e..e + SuffixLength];
    assert s[e] == u[0] && s[e + 5] == u[5] && s[e + 10] == u[10] && s[e + 18] == u[18];
    SliceOfSlice(s, e, 1, 5);
    SliceOfSlice(s, e, 6, 10);
    SliceOfSlice(s, e, 11, 18);
    SliceOfSlice(s, e, 19, 22);
    assert u[1..5] == "blob" && u[6..10] == "core" && u[11..18] == "windows" && u[19..22] == "net";
  }

  /** Part a..b of the 22 characters from e is the part e+a..e+b of s. */
  lemma SliceOfSlice(s: string, e: nat, a: nat, b: nat)
    requires a <= b <= SuffixLength && e + SuffixLength <= |s|
    ensures s[e..e + SuffixLength][a..b] == s[e + a..e + b]
  {
    var u := s[e..e + SuffixLength];
    assert forall k :: 0 <= k < b - a ==> u[a..b][k] == u[a + k] == s[e + a + k];
  }

  /**
   An account name w followed by `.blob.core.windows.net` and then anything at all: the
   account is w. What follows the suffix (a port `:443`, nothing, or other text) never
   changes the result. This holds whenever '.' fits a separator and is not a word character.
   */
  lemma {:induction false} AccountOfCanonicalAuthority(p: Pattern, w: string, rest: string)
    requires |w| > 0 && forall k :: 0 <= k < |w| ==> p.word(w[k])
    requires p.sep('.') && !p.word('.')
    ensures Account(p, w + LiteralSuffix + rest) == Some(w)
  {
    var s := w + LiteralSuffix + rest;
    var n := |w|;
    assert s[n..n + SuffixLength] == LiteralSuffix;
    LiteralFitsSuffix(p, s, n);
    assert s[..n] == w;
    assert MatchAt(p, s, 0, n);
    assert s[n] == '.';
    assert Reported(p, s, 0, n);
    AccountOfReported(p, s, 0, n);
  }

  /** An authority with every dot replaced by an 'X'. */
  const WildcardInput: string := "acctXblobXcoreXwindowsXnet"

  /** The input holds no literal `.blob.core.windows.net`: it holds no dot at all. */
  lemma WildcardInputHasNoLiteralSuffix()
    ensures forall e: nat :: !LiteralSuffixAt(WildcardInput, e)
  {
    var s := WildcardInput;
    forall e: nat | e + SuffixLength <= |s|
      ensures !LiteralSuffixAt(s, e)
    {
      assert s[e..e + SuffixLength][0] == s[e] != '.';
    }
  }

  /**
   Because the dots of the pattern are not escaped, a separator can be any code unit but a
   line feed: an input without the literal text `.blob.core.windows.net` still yields an
   account.
   */
  lemma WildcardSeparators(word: char -> bool)
    requires word('a') && word('c') && word('t')
    ensures forall e: nat :: !LiteralSuffixAt(WildcardInput, e)
    ensures Account(AsWritten(word), WildcardInput) == Some("acct")
  {
    var s, p := WildcardInput, AsWritten(word);
    WildcardInputHasNoLiteralSuffix();
    assert s[5..9] == "blob" && s[10..14] == "core" && s[15..22] == "windows" && s[23..26] == "net";
    assert SuffixAt(p, s, 4);
    assert MatchAt(p, s, 0, 4);
    assert Reported(p, s, 0, 4);
    assert s[0..4] == "acct" by {
      assert s[0] == 'a' && s[1] == 'c' && s[2] == 'c' && s[3] == 't';
    }
    AccountOfReported(p, s, 0, 4);
  }

  /** With escaped dots, the suffix the pattern accepts is exactly the literal one. */
  lemma EscapedSuffixIsLiteral(word: char -> bool, s: string, e: nat)
    ensures SuffixAt(Escaped(word), s, e) <==> LiteralSuffixAt(s, e)
  {
    var p := Escaped(word);
    if LiteralSuffixAt(s, e) {
      LiteralFitsSuffix(p, s, e);
    }
    if SuffixAt(p, s, e) {
      var u := s[e..e + SuffixLength];
      SliceOfSlice(s, e, 1, 5);
      SliceOfSlice(s, e, 6, 10);
      SliceOfSlice(s, e, 11, 18);
      SliceOfSlice(s, e, 19, 22);
      assert u[1..5] == "blob" && u[6..10] == "core" && u[11..18] == "windows" && u[19..22] == "net";
      assert u[0] == u[5] == u[10] == u[18] == '.';
      assert u == LiteralSuffix by {
        forall k | 0 <= k < SuffixLength
          ensures u[k] == LiteralSuffix[k]
        {
          if 1 <= k < 5 { assert u[k] == u[1..5][k - 1]; }
          else if 6 <= k < 10 { assert u[k] == u[6..10][k - 6]; }
          else if 11 <= k < 18 { assert u[k] == u[11..18][k - 11]; }
          else if 19 <= k < 22 { assert u[k] == u[19..22][k - 19]; }
        }
      }
    }
  }

  /**
   With escaped dots, an input that does not contain `.blob.core.windows.net` never yields an
   account.
   */
  lemma EscapedNeedsLiteralSuffix(word: char -> bool, s: string)
    ensures (forall e: nat :: !LiteralSuffixAt(s, e)) ==> Account(Escaped(word), s) == None
  {
    var p := Escaped(word);
    if FirstMatch(p, s).Some? {
      var e := FirstMatch(p, s).value.1;
      EscapedSuffixIsLiteral(word, s, e);
      assert LiteralSuffixAt(s, e);
    }
  }
}
