/**
 * The server-version extraction of `handleConfigChanged`: the leading match of the
 * JavaScript regular expression `/^[0-9]*.[0-9]*.[0-9]*(-[a-zA-Z0-9.-]*)?/g`, whose first
 * match is taken with `[0]`. The two `.` are unescaped, so each matches any character
 * except a line terminator. Matching follows the engine's backtracking order: each
 * greedy `[0-9]*` first takes the longest run of digits and gives digits back only when
 * the `.` after it cannot match. Positions are Unicode code points, where JavaScript
 * counts UTF-16 code units; the two agree on strings within the Basic Multilingual Plane.
 */
module VersionPattern {
  import opened Wrappers

  predicate IsDigit(c: char) { '0' <= c <= '9' }

  /** The characters a JavaScript `.` (without the `s` flag) refuses. */
  predicate IsLineTerminator(c: char) {
    c == '\n' || c == '\r' || c == '\U{2028}' || c == '\U{2029}'
  }

  /** The class `[a-zA-Z0-9.-]` of the pre-release suffix. */
  predicate IsSuffixChar(c: char) {
    ('a' <= c <= 'z') || ('A' <= c <= 'Z') || IsDigit(c) || c == '.' || c == '-'
  }

  /** The unescaped `.` matches the character at position `i`. */
  predicate MatchesDot(s: string, i: nat) {
    i < |s| && !IsLineTerminator(s[i])
  }

  /** No character of `s[lo..hi]` is a line terminator. */
  predicate NoLineTerminator(s: string, lo: nat, hi: nat)
    requires lo <= hi <= |s|
  {
    forall j :: lo <= j < hi ==> !IsLineTerminator(s[j])
  }

  lemma DigitsAreNotLineTerminators(s: string, lo: nat, hi: nat)
    requires lo <= hi <= |s|
    requires forall j :: lo <= j < hi ==> IsDigit(s[j])
    ensures NoLineTerminator(s, lo, hi)
  {
  }

  /** Length of the longest run of digits starting at `i`: what a greedy `[0-9]*` takes first. */
  function DigitRun(s: string, i: nat): (n: nat)
    requires i <= |s|
    ensures i + n <= |s|
    ensures forall k :: i <= k < i + n ==> IsDigit(s[k])
    ensures i + n == |s| || !IsDigit(s[i + n])
    decreases |s| - i
  {
    if i < |s| && IsDigit(s[i]) then 1 + DigitRun(s, i + 1) else 0
  }

  /** Length of the longest run of `[a-zA-Z0-9.-]` starting at `i`. */
  function SuffixRun(s: string, i: nat): (n: nat)
    requires i <= |s|
    ensures i + n <= |s|
    ensures forall k :: i <= k < i + n ==> IsSuffixChar(s[k])
    ensures i + n == |s| || !IsSuffixChar(s[i + n])
    decreases |s| - i
  {
    if i < |s| && IsSuffixChar(s[i]) then 1 + SuffixRun(s, i + 1) else 0
  }

  /**
   * `[0-9]*.` at position `i`, the star first taking `k` digits and then giving them
   * back one at a time; the position after the `.` of the first attempt that succeeds.
   */
  function DigitsThenDot(s: string, i: nat, k: nat): (r: Option<nat>)
    requires i + k <= |s|
    requires forall j :: i <= j < i + k ==> IsDigit(s[j])
    ensures r.Some? <==> k > 0 || MatchesDot(s, i)
    ensures r.Some? ==> i < r.value <= i + k + 1 && r.value <= |s| && NoLineTerminator(s, i, r.value)
    decreases k
  {
    DigitsAreNotLineTerminators(s, i, i + k);
    if MatchesDot(s, i + k) then Some(i + k + 1)
    else if k == 0 then None
    else assert IsDigit(s[i]); DigitsThenDot(s, i, k - 1)
  }

  /**
   * `^[0-9]*.[0-9]*.` with the first star first taking `k` digits and backtracking; the
   * position after the second `.` of the first combination that succeeds.
   */
  function TwoDots(s: string, k: nat): (r: Option<nat>)
    requires k <= |s|
    requires forall j :: 0 <= j < k ==> IsDigit(s[j])
    ensures r.Some? <==> MatchesDot(s, 0) && MatchesDot(s, 1)
    ensures r.Some? ==> 2 <= r.value <= |s| && NoLineTerminator(s, 0, r.value)
    decreases k
  {
    var second := if MatchesDot(s, k) then DigitsThenDot(s, k + 1, DigitRun(s, k + 1)) else None;
    if second.Some? then
      DigitsAreNotLineTerminators(s, 0, k);
      assert MatchesDot(s, 0) by { if k > 0 { assert IsDigit(s[0]); } }
      second
    else if k == 0 then None
    else TwoDots(s, k - 1)
  }

  /**
   * `serverVersion.match(...)[0]`: the matched prefix, or `None` where `match` returns
   * `null` (and indexing it throws). The third `[0-9]*` and the optional group are
   * followed by nothing that can fail, so they take their longest runs.
   */
  function ExtractVersion(s: string): (r: Option<string>)
    ensures r.Some? <==> |s| >= 2 && !IsLineTerminator(s[0]) && !IsLineTerminator(s[1])
    ensures r.Some? ==> 2 <= |r.value| <= |s| && r.value == s[..|r.value|]
    ensures r.Some? ==> NoLineTerminator(s, 0, |r.value|)
  {
    match TwoDots(s, DigitRun(s, 0))
    case None => None
    case Some(q) =>
      var e := q + DigitRun(s, q);
      var end := if e < |s| && s[e] == '-' then e + 1 + SuffixRun(s, e + 1) else e;
      Some(s[..end])
  }

  /** Every character of `t` is a digit. */
  predicate AllDigits(t: string) {
    forall i :: 0 <= i < |t| ==> IsDigit(t[i])
  }

  /** Every character of `t` is in the pre-release class `[a-zA-Z0-9.-]`. */
  predicate AllSuffixChars(t: string) {
    forall i :: 0 <= i < |t| ==> IsSuffixChar(t[i])
  }

  /** `DigitRun` is the length of the run of digits that ends at a non-digit or at the end. */
  lemma DigitRunIs(s: string, i: nat, n: nat)
    requires i + n <= |s|
    requires forall k :: i <= k < i + n ==> IsDigit(s[k])
    requires i + n == |s| || !IsDigit(s[i + n])
    ensures DigitRun(s, i) == n
  {
  }

  /** `SuffixRun` is the length of the run of the class that ends outside it or at the end. */
  lemma SuffixRunIs(s: string, i: nat, n: nat)
    requires i + n <= |s|
    requires forall k :: i <= k < i + n ==> IsSuffixChar(s[k])
    requires i + n == |s| || !IsSuffixChar(s[i + n])
    ensures SuffixRun(s, i) == n
  {
  }

  /**
   * When `a` digits, a `.`, `b` digits and a `.` open the string, the greedy choice of
   * both stars succeeds without backtracking, after the second `.`.
   */
  lemma TwoDotsAt(s: string, a: nat, b: nat)
    requires a + b + 2 <= |s|
    requires forall k :: 0 <= k < a ==> IsDigit(s[k])
    requires s[a] == '.'
    requires forall k :: a + 1 <= k < a + 1 + b ==> IsDigit(s[k])
    requires s[a + 1 + b] == '.'
    ensures TwoDots(s, DigitRun(s, 0)) == Some(a + b + 2)
  {
    DigitRunIs(s, 0, a);
    DigitRunIs(s, a + 1, b);
  }

  /**
   * When `MAJOR.MINOR.PATCH` opens the string, with `a`, `b` and `c` digits, the match is
   * that prefix, extended by the pre-release group exactly when a `-` follows it.
   */
  lemma ExtractAt(s: string, a: nat, b: nat, c: nat)
    requires a + b + c + 2 <= |s|
    requires forall k :: 0 <= k < a ==> IsDigit(s[k])
    requires s[a] == '.'
    requires forall k :: a + 1 <= k < a + 1 + b ==> IsDigit(s[k])
    requires s[a + 1 + b] == '.'
    requires forall k :: a + b + 2 <= k < a + b + 2 + c ==> IsDigit(s[k])
    requires a + b + c + 2 == |s| || !IsDigit(s[a + b + c + 2])
    ensures a + b + c + 2 < |s| && s[a + b + c + 2] == '-' ==>
      ExtractVersion(s) == Some(s[..a + b + c + 3 + SuffixRun(s, a + b + c + 3)])
    ensures a + b + c + 2 == |s| || s[a + b + c + 2] != '-' ==>
      ExtractVersion(s) == Some(s[..a + b + c + 2])
  {
    TwoDotsAt(s, a, b);
    assert TwoDots(s, DigitRun(s, 0)) == Some(a + b + 2);
    DigitRunIs(s, a + b + 2, c);
  }

  /** Where the digits and the two dots of `MAJOR.MINOR.PATCH` stand. */
  lemma VersionLayout(major: string, minor: string, patch: string)
    requires AllDigits(major) && AllDigits(minor) && AllDigits(patch)
    ensures var v := major + "." + minor + "." + patch; var a, b := |major|, |minor|;
      && |v| == a + b + |patch| + 2
      && (forall k :: 0 <= k < a ==> IsDigit(v[k]))
      && v[a] == '.'
      && (forall k :: a + 1 <= k < a + 1 + b ==> IsDigit(v[k]))
      && v[a + 1 + b] == '.'
      && (forall k :: a + b + 2 <= k < |v| ==> IsDigit(v[k]))
  {
    var v := major + "." + minor + "." + patch;
    var a, b := |major|, |minor|;
    assert forall k :: 0 <= k < a ==> v[k] == major[k];
    assert forall k :: a + 1 <= k < a + 1 + b ==> v[k] == minor[k - a - 1];
    assert forall k :: a + b + 2 <= k < |v| ==> v[k] == patch[k - a - b - 2];
  }

  /**
   * `MAJOR.MINOR.PATCH` followed by nothing, or by a character that is neither a digit
   * nor `-`, is extracted as exactly `MAJOR.MINOR.PATCH`.
   */
  lemma {:induction false} CoreVersionExtracted(major: string, minor: string, patch: string, rest: string)
    requires AllDigits(major) && AllDigits(minor) && AllDigits(patch)
    requires rest == [] || (!IsDigit(rest[0]) && rest[0] != '-')
    ensures ExtractVersion(major + "." + minor + "." + patch + rest) == Some(major + "." + minor + "." + patch)
  {
    var v := major + "." + minor + "." + patch;
    var s := v + rest;
    VersionLayout(major, minor, patch);
    assert forall k :: 0 <= k < |v| ==> s[k] == v[k];
    assert |v| < |s| ==> s[|v|] == rest[0];
    ExtractAt(s, |major|, |minor|, |patch|);
    assert s[..|v|] == v;
  }

  /** Where the version, the `-`, the pre-release suffix and the rest stand. */
  lemma PreReleaseLayout(v: string, pre: string, rest: string)
    ensures var w := v + "-" + pre; var s := w + rest;
      && (forall k :: 0 <= k < |v| ==> s[k] == v[k])
      && s[|v|] == '-'
      && (forall k :: |v| + 1 <= k < |w| ==> s[k] == pre[k - |v| - 1])
      && (|w| < |s| ==> s[|w|] == rest[0])
      && s[..|w|] == w
  {
  }

  /**
   * `MAJOR.MINOR.PATCH-PRE` followed by nothing, or by a character outside
   * `[a-zA-Z0-9.-]`, is extracted with its whole pre-release suffix.
   */
  lemma {:induction false} PreReleaseExtracted(major: string, minor: string, patch: string, pre: string, rest: string)
    requires AllDigits(major) && AllDigits(minor) && AllDigits(patch) && AllSuffixChars(pre)
    requires rest == [] || !IsSuffixChar(rest[0])
    ensures ExtractVersion(major + "." + minor + "." + patch + "-" + pre + rest) ==
      Some(major + "." + minor + "." + patch + "-" + pre)
  {
    var v := major + "." + minor + "." + patch;
    var w := v + "-" + pre;
    var s := w + rest;
    VersionLayout(major, minor, patch);
    PreReleaseLayout(v, pre, rest);
    ExtractAt(s, |major|, |minor|, |patch|);
    SuffixRunIs(s, |v| + 1, |pre|);
  }

  /** A match needs two characters, so `""` and every one-character string have none. */
  lemma ShortStringsHaveNoMatch(s: string)
    requires |s| < 2
    ensures ExtractVersion(s) == None
  {
  }

  /** Release announcements are extracted whole. */
  lemma ReleaseVersionsExtracted()
    ensures ExtractVersion("1.9.9") == Some("1.9.9")
    ensures ExtractVersion("2.0.0") == Some("2.0.0")
  {
    var s := "1.9.9";
    assert DigitRun(s, 4) == 1 && DigitRun(s, 2) == 1 && DigitRun(s, 0) == 1;
    assert DigitsThenDot(s, 2, 1) == Some(4);
    assert TwoDots(s, 1) == Some(4);
    assert s[..5] == s;
    var t := "2.0.0";
    assert DigitRun(t, 4) == 1 && DigitRun(t, 2) == 1 && DigitRun(t, 0) == 1;
    assert DigitsThenDot(t, 2, 1) == Some(4);
    assert TwoDots(t, 1) == Some(4);
    assert t[..5] == t;
  }

  /** A pre-release suffix is kept. */
  lemma PreReleaseVersionExtracted()
    ensures ExtractVersion("2.0.1-beta") == Some("2.0.1-beta")
  {
    var s := "2.0.1-beta";
    assert DigitRun(s, 4) == 1 && DigitRun(s, 2) == 1 && DigitRun(s, 0) == 1;
    assert DigitsThenDot(s, 2, 1) == Some(4);
    assert TwoDots(s, 1) == Some(4);
    assert SuffixRun(s, 6) == 4;
    assert s[..10] == s;
  }

  /** What follows `MAJOR.MINOR.PATCH` without a `-` is cut off, as in a build-number announcement. */
  lemma BuildSuffixDropped()
    ensures ExtractVersion("4.7.0.1234") == Some("4.7.0")
  {
    var s := "4.7.0.1234";
    assert DigitRun(s, 4) == 1 && DigitRun(s, 2) == 1 && DigitRun(s, 0) == 1;
    assert DigitsThenDot(s, 2, 1) == Some(4);
    assert TwoDots(s, 1) == Some(4);
    assert s[..5] == "4.7.0";
  }
}
