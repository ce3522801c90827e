/**
 * The four path-segment grammars of the service (values/Patterns.java), written
 * as predicates over strings. Every pattern is matched against a whole segment.
 */
module Patterns {

  // ---------------------------------------------------------------------------
  // Character classes
  // ---------------------------------------------------------------------------

  predicate IsLower(c: char) { 'a' <= c <= 'z' }

  predicate IsUpper(c: char) { 'A' <= c <= 'Z' }

  /** `\d` and `0-9`: ASCII decimal digits only. */
  predicate IsDigit(c: char) { '0' <= c <= '9' }

  /** The class `[0-9.]`. */
  predicate IsDigitOrDot(c: char) { IsDigit(c) || c == '.' }

  /** The class `[a-zA-Z0-9._-]`. */
  predicate IsDownloadChar(c: char) {
    IsLower(c) || IsUpper(c) || IsDigit(c) || c == '.' || c == '_' || c == '-'
  }

  predicate AllDigitsOrDots(s: string) {
    forall i :: 0 <= i < |s| ==> IsDigitOrDot(s[i])
  }

  // ---------------------------------------------------------------------------
  // The grammars
  // ---------------------------------------------------------------------------

  /** PROJECT_NAME = `[a-z]+` */
  predicate IsProjectName(s: string) {
    |s| > 0 && forall i :: 0 <= i < |s| ==> IsLower(s[i])
  }

  /** DOWNLOAD_NAME = `[a-zA-Z0-9._-]+` */
  predicate IsDownloadName(s: string) {
    |s| > 0 && forall i :: 0 <= i < |s| ==> IsDownloadChar(s[i])
  }

  /** BUILD_NUMBER = `\d+` */
  predicate IsBuildNumber(s: string) {
    |s| > 0 && forall i :: 0 <= i < |s| ==> IsDigit(s[i])
  }

  /** The optional `-?` part of VERSION_NAME. */
  predicate IsHyphen(h: string) { h == "" || h == "-" }

  /** The optional `(?:pre|SNAPSHOT)?` part of VERSION_NAME. */
  predicate IsMarker(m: string) { m == "" || m == "pre" || m == "SNAPSHOT" }

  /**
   * `s` splits at 0 < i <= j <= k <= |s| into a non-empty run of digits and dots,
   * an optional hyphen, an optional marker and a possibly empty run of digits and dots.
   */
  predicate VersionSplit(s: string, i: int, j: int, k: int) {
    && 0 < i <= j <= k <= |s|
    && AllDigitsOrDots(s[..i])
    && IsHyphen(s[i..j])
    && IsMarker(s[j..k])
    && AllDigitsOrDots(s[k..])
  }

  /** VERSION_NAME = `[0-9.]+-?(?:pre|SNAPSHOT)?(?:[0-9.]+)?` */
  ghost predicate IsVersionName(s: string) {
    exists i, j, k :: VersionSplit(s, i, j, k)
  }

  // ---------------------------------------------------------------------------
  // A deterministic matcher for VERSION_NAME, equivalent to the grammar
  // ---------------------------------------------------------------------------

  /** Length of the longest prefix of `s` drawn from `[0-9.]`. */
  function DigitsOrDotsPrefix(s: string): (n: nat)
    ensures n <= |s|
    ensures AllDigitsOrDots(s[..n])
    ensures n < |s| ==> !IsDigitOrDot(s[n])
  {
    if s == [] || !IsDigitOrDot(s[0]) then 0
    else
      var n := 1 + DigitsOrDotsPrefix(s[1..]);
      assert forall i :: 1 <= i < n ==> s[..n][i] == s[1..][..n - 1][i - 1];
      n
  }

  predicate StartsWith(s: string, p: string) {
    |p| <= |s| && s[..|p|] == p
  }

  /** Where the matcher ends the hyphen part, given the end `i` of the leading run. */
  function HyphenEnd(s: string, i: nat): nat
    requires i <= |s|
  {
    if i < |s| && s[i] == '-' then i + 1 else i
  }

  /** Where the matcher ends the marker part, given the end `j` of the hyphen part. */
  function MarkerEnd(s: string, j: nat): nat
    requires j <= |s|
  {
    if StartsWith(s[j..], "pre") then j + 3
    else if StartsWith(s[j..], "SNAPSHOT") then j + 8
    else j
  }

  /** Matches VERSION_NAME by taking each part greedily; no backtracking is needed. */
  predicate MatchesVersionName(s: string) {
    var i := DigitsOrDotsPrefix(s);
    var j := HyphenEnd(s, i);
    var k := MarkerEnd(s, j);
    i > 0 && k <= |s| && AllDigitsOrDots(s[k..])
  }

  lemma AllDigitsOrDotsSplit(s: string, n: nat)
    requires n <= |s|
    ensures AllDigitsOrDots(s) <==> AllDigitsOrDots(s[..n]) && AllDigitsOrDots(s[n..])
  {
    if AllDigitsOrDots(s[..n]) && AllDigitsOrDots(s[n..]) {
      forall i | 0 <= i < |s| ensures IsDigitOrDot(s[i]) {
        if i < n { assert s[i] == s[..n][i]; } else { assert s[i] == s[n..][i - n]; }
      }
    }
  }

  /** The matcher's leading run is the only prefix of digits and dots followed by something else. */
  lemma PrefixCharacterized(s: string, m: nat)
    requires m <= |s| && AllDigitsOrDots(s[..m]) && (m < |s| ==> !IsDigitOrDot(s[m]))
    ensures DigitsOrDotsPrefix(s) == m
  {
    var n := DigitsOrDotsPrefix(s);
    assert forall t :: 0 <= t < m ==> s[..m][t] == s[t];
    assert forall t :: 0 <= t < n ==> s[..n][t] == s[t];
  }

  /** The leading run of digits and dots of a split ends where the matcher's does. */
  lemma {:induction false} SplitRunIsLongest(s: string, i': int, j': int, k': int)
    requires VersionSplit(s, i', j', k')
    ensures i' < k' ==> DigitsOrDotsPrefix(s) == i'
    ensures i' == k' ==> DigitsOrDotsPrefix(s) == |s|
  {
    if i' == k' {
      AllDigitsOrDotsSplit(s, i');
      assert s[..|s|] == s;
      PrefixCharacterized(s, |s|);
    } else {
      if i' < j' { assert s[i'] == s[i'..j'][0]; } else { assert s[i'] == s[j'..k'][0]; }
      PrefixCharacterized(s, i');
    }
  }

  /** Given where the leading run ends, the rest of a split is forced. */
  lemma {:induction false} SplitRestIsForced(s: string, i': int, j': int, k': int)
    requires VersionSplit(s, i', j', k') && i' < k'
    ensures HyphenEnd(s, i') == j'
    ensures MarkerEnd(s, j') == k'
  {
    if j' == i' + 1 {
      assert s[i'] == s[i'..j'][0];
    } else {
      assert s[i'] == s[j'..k'][0];
    }
    if k' == j' + 3 {
      assert s[j'..][..3] == s[j'..k'];
    } else if k' == j' + 8 {
      assert s[j'..][..8] == s[j'..k'];
      assert s[j'..][..8][0] == 'S';
    } else {
      if j' < |s| {
        assert s[j'] == s[k'..][0];
        assert s[j'..][..1][0] == s[j'];
      }
    }
  }

  /** The greedy matcher accepts exactly the strings of the grammar. */
  lemma {:induction false} MatcherIsGrammar(s: string)
    ensures MatchesVersionName(s) <==> IsVersionName(s)
  {
    var i := DigitsOrDotsPrefix(s);
    var j := HyphenEnd(s, i);
    var k := MarkerEnd(s, j);
    if MatchesVersionName(s) {
      assert VersionSplit(s, i, j, k);
    }
    if IsVersionName(s) {
      var i', j', k' :| VersionSplit(s, i', j', k');
      SplitRunIsLongest(s, i', j', k');
      if i' == k' {
        assert s[k..] == [];
      } else {
        SplitRestIsForced(s, i', j', k');
      }
    }
  }

  // ---------------------------------------------------------------------------
  // The four patterns as values
  // ---------------------------------------------------------------------------

  /** The constants PROJECT_NAME, VERSION_NAME, DOWNLOAD_NAME and BUILD_NUMBER. */
  datatype Grammar = ProjectName | VersionName | DownloadName | BuildNumber

  /** The language of each pattern. */
  ghost predicate Matches(g: Grammar, s: string) {
    match g
    case ProjectName => IsProjectName(s)
    case VersionName => IsVersionName(s)
    case DownloadName => IsDownloadName(s)
    case BuildNumber => IsBuildNumber(s)
  }

  /** Whole-segment matching, as a route pattern or `@Pattern` constraint does it. */
  predicate Accepts(g: Grammar, s: string)
    ensures Accepts(g, s) <==> Matches(g, s)
  {
    MatcherIsGrammar(s);
    match g
    case ProjectName => IsProjectName(s)
    case VersionName => MatchesVersionName(s)
    case DownloadName => IsDownloadName(s)
    case BuildNumber => IsBuildNumber(s)
  }

  // ---------------------------------------------------------------------------
  // Segment facts
  // ---------------------------------------------------------------------------

  /** The characters a VERSION_NAME can contain. */
  predicate IsVersionChar(c: char) {
    IsDigitOrDot(c) || c == '-' || c in "preSNAPHOT"
  }

  lemma {:induction false} VersionNameChars(s: string)
    requires IsVersionName(s)
    ensures forall n :: 0 <= n < |s| ==> IsVersionChar(s[n])
  {
    var i, j, k :| VersionSplit(s, i, j, k);
    forall n | 0 <= n < |s| ensures IsVersionChar(s[n]) {
      if n < i {
        assert s[n] == s[..i][n];
      } else if n < j {
        assert s[n] == s[i..j][n - i];
      } else if n < k {
        assert s[n] == s[j..k][n - j];
      } else {
        assert s[n] == s[k..][n - k];
      }
    }
  }

  /** Every version character may also appear in a download name. */
  lemma VersionNameIsDownloadName(s: string)
    requires IsVersionName(s)
    ensures IsDownloadName(s)
  {
    VersionNameChars(s);
    var i, j, k :| VersionSplit(s, i, j, k);
  }

  /** No grammar admits '/': every accepted value is a single path segment. */
  lemma NoGrammarAdmitsSlash(s: string)
    requires IsProjectName(s) || IsVersionName(s) || IsDownloadName(s) || IsBuildNumber(s)
    ensures '/' !in s
    ensures |s| > 0
  {
    if IsVersionName(s) {
      VersionNameIsDownloadName(s);
    }
  }

  /** A project name is rejected as soon as it holds a digit, an upper-case letter or '/'. */
  lemma ProjectNameRejects(s: string, n: nat)
    requires n < |s| && (IsDigit(s[n]) || IsUpper(s[n]) || s[n] == '/')
    ensures !IsProjectName(s)
  {
  }

  /** The dot segments pass both the version and the download grammar. */
  lemma DotSegmentsAdmitted()
    ensures IsVersionName(".") && IsVersionName("..")
    ensures IsDownloadName(".") && IsDownloadName("..")
  {
    assert VersionSplit(".", 1, 1, 1);
    assert VersionSplit("..", 2, 2, 2);
  }

  /** Sample version names, accepted and rejected. */
  lemma VersionNameExamples()
    ensures IsVersionName("1.20.1")
    ensures IsVersionName("1.20-pre1")
    ensures IsVersionName("1.0-SNAPSHOT")
    ensures !IsVersionName("v1.0")
  {
    assert VersionSplit("1.20.1", 6, 6, 6);
    assert VersionSplit("1.20-pre1", 4, 5, 8) by {
      assert "1.20-pre1"[..4] == "1.20";
      assert "1.20-pre1"[4..5] == "-";
      assert "1.20-pre1"[5..8] == "pre";
      assert "1.20-pre1"[8..] == "1";
    }
    assert VersionSplit("1.0-SNAPSHOT", 3, 4, 12) by {
      assert "1.0-SNAPSHOT"[..3] == "1.0";
      assert "1.0-SNAPSHOT"[3..4] == "-";
      assert "1.0-SNAPSHOT"[4..12] == "SNAPSHOT";
    }
    MatcherIsGrammar("v1.0");
  }
}
