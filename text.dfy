/**
 * String predicates used by both the server's input rules and the client's form
 * checks: JavaScript's whitespace class, `trim`, the two regular expressions the
 * forms test (`/^[a-zA-Z\s]+$/` and `/^[^\s@]+@[^\s@]+\.[^\s@]+$/`), prefixes and
 * case-insensitive substring search.
 */
module Text {

  /** JavaScript's `\s` class; `String.prototype.trim` strips exactly these characters. */
  predicate IsSpace(c: char) {
    ('\U{9}' <= c <= '\U{D}') || c == ' ' || c == '\U{A0}' || c == '\U{1680}'
    || ('\U{2000}' <= c <= '\U{200A}') || c == '\U{2028}' || c == '\U{2029}'
    || c == '\U{202F}' || c == '\U{205F}' || c == '\U{3000}' || c == '\U{FEFF}'
  }

  predicate IsAsciiLetter(c: char) {
    ('a' <= c <= 'z') || ('A' <= c <= 'Z')
  }

  /** `/^[a-zA-Z\s]+$/.test(s)`: at least one character, each an ASCII letter or whitespace. */
  predicate MatchesNameRegex(s: string) {
    |s| > 0 && forall i :: 0 <= i < |s| ==> IsAsciiLetter(s[i]) || IsSpace(s[i])
  }

  predicate IsBlank(s: string) {
    forall i :: 0 <= i < |s| ==> IsSpace(s[i])
  }

  /** A character beyond U+FFFF, which a JavaScript string holds as a surrogate pair. */
  predicate IsAstral(c: char) {
    c as int > 0xFFFF
  }

  /** JavaScript's `s.length`: UTF-16 code units, so two for every astral character. */
  function Utf16Length(s: string): (n: nat)
    ensures |s| <= n <= 2 * |s|
    ensures (forall i :: 0 <= i < |s| ==> !IsAstral(s[i])) <==> n == |s|
  {
    if s == [] then 0
    else
      var rest := Utf16Length(s[1..]);
      assert forall i :: 1 <= i < |s| ==> s[1..][i - 1] == s[i];
      (if IsAstral(s[0]) then 2 else 1) + rest
  }

  /** Drops leading whitespace. */
  function TrimStart(s: string): (r: string)
    ensures |r| <= |s| && r == s[|s| - |r|..]
    ensures forall i :: 0 <= i < |s| - |r| ==> IsSpace(s[i])
    ensures r != [] ==> !IsSpace(r[0])
  {
    if |s| > 0 && IsSpace(s[0]) then TrimStart(s[1..]) else s
  }

  /** Drops trailing whitespace. */
  function TrimEnd(s: string): (r: string)
    ensures |r| <= |s| && r == s[..|r|]
    ensures forall i :: |r| <= i < |s| ==> IsSpace(s[i])
    ensures r != [] ==> !IsSpace(r[|r| - 1])
  {
    if |s| > 0 && IsSpace(s[|s| - 1]) then TrimEnd(s[..|s| - 1]) else s
  }

  /** `s.trim()` */
  function Trim(s: string): string {
    TrimEnd(TrimStart(s))
  }

  /** A string trims to nothing exactly when it is made of whitespace only. */
  lemma TrimEmptyIffBlank(s: string)
    ensures Trim(s) == [] <==> IsBlank(s)
  {
    var t := TrimStart(s);
    if Trim(s) == [] {
      forall i | |s| - |t| <= i < |s| ensures IsSpace(s[i]) {
        assert s[i] == t[i - (|s| - |t|)];
      }
    }
  }

  /** `s.startsWith(prefix)` */
  predicate StartsWith(s: string, prefix: string) {
    |prefix| <= |s| && s[..|prefix|] == prefix
  }

  predicate OccursAt(hay: string, needle: string, i: int) {
    0 <= i && i + |needle| <= |hay| && hay[i..i + |needle|] == needle
  }

  /** `hay.includes(needle)` */
  predicate Contains(hay: string, needle: string) {
    exists i :: 0 <= i <= |hay| - |needle| && OccursAt(hay, needle, i)
  }

  /** ASCII lower-casing; other characters are left as they are. */
  function LowerChar(c: char): char {
    if 'A' <= c <= 'Z' then (c as int + 32) as char else c
  }

  function Lower(s: string): (r: string)
    ensures |r| == |s| && forall i :: 0 <= i < |s| ==> r[i] == LowerChar(s[i])
  {
    seq(|s|, i requires 0 <= i < |s| => LowerChar(s[i]))
  }

  /** A case-insensitive substring match, as a `$regex` with option "i" whose pattern has no metacharacters. */
  predicate ContainsIgnoringCase(hay: string, needle: string) {
    Contains(Lower(hay), Lower(needle))
  }

  // ---- the e-mail shape /^[^\s@]+@[^\s@]+\.[^\s@]+$/ ----

  predicate EmailChar(c: char) {
    !IsSpace(c) && c != '@'
  }

  /** One `[^\s@]+` run. */
  predicate EmailRun(t: string) {
    |t| > 0 && forall i :: 0 <= i < |t| ==> EmailChar(t[i])
  }

  /** The regular expression read literally: s is run '@' run '.' run, with the '@' at i and the '.' at j. */
  ghost predicate SplitsAsEmail(s: string, i: int, j: int) {
    0 <= i < j < |s| && s[i] == '@' && s[j] == '.'
    && EmailRun(s[..i]) && EmailRun(s[i + 1..j]) && EmailRun(s[j + 1..])
  }

  /** Reference meaning of `/^[^\s@]+@[^\s@]+\.[^\s@]+$/.test(s)`. */
  ghost predicate EmailRegex(s: string) {
    exists i, j :: SplitsAsEmail(s, i, j)
  }

  /** Index of the first c in s, or |s| when there is none. */
  function IndexOf(s: string, c: char): (r: nat)
    ensures r <= |s|
    ensures r < |s| ==> s[r] == c
    ensures forall k :: 0 <= k < r ==> s[k] != c
  {
    if |s| == 0 then 0
    else if s[0] == c then 0
    else 1 + IndexOf(s[1..], c)
  }

  /**
   * Decides the e-mail regular expression without backtracking: no whitespace at
   * all, exactly one '@' and not in front, and after it a '.' with at least one
   * character on each side.
   */
  predicate IsEmailFormat(s: string) {
    (forall k :: 0 <= k < |s| ==> !IsSpace(s[k]))
    && var at := IndexOf(s, '@');
       0 < at < |s| && '@' !in s[at + 1..]
       && var d := s[at + 1..];
          |d| >= 3 && '.' in d[1..|d| - 1]
  }

  /** Every index in [lo, hi) of s holds an EmailChar. */
  predicate EmailCharsBetween(s: string, lo: int, hi: int)
    requires 0 <= lo <= hi <= |s|
  {
    forall k :: lo <= k < hi ==> EmailChar(s[k])
  }

  lemma RunIsCharsBetween(s: string, lo: int, hi: int)
    requires 0 <= lo <= hi <= |s|
    ensures EmailRun(s[lo..hi]) <==> lo < hi && EmailCharsBetween(s, lo, hi)
  {
    assert forall k :: lo <= k < hi ==> s[k] == s[lo..hi][k - lo];
  }

  lemma FormatGivesSplit(s: string)
    requires IsEmailFormat(s)
    ensures EmailRegex(s)
  {
    var at := IndexOf(s, '@');
    var d := s[at + 1..];
    var mid := d[1..|d| - 1];
    var m :| 0 <= m < |mid| && mid[m] == '.';
    var j := at + 2 + m;
    assert s[j] == mid[m];
    assert forall k :: at < k < |s| ==> s[k] == d[k - at - 1];
    RunIsCharsBetween(s, 0, at);
    RunIsCharsBetween(s, at + 1, j);
    RunIsCharsBetween(s, j + 1, |s|);
    assert SplitsAsEmail(s, at, j);
  }

  lemma SplitGivesFormat(s: string, i: int, j: int)
    requires SplitsAsEmail(s, i, j)
    ensures IsEmailFormat(s)
  {
    RunIsCharsBetween(s, 0, i);
    RunIsCharsBetween(s, i + 1, j);
    RunIsCharsBetween(s, j + 1, |s|);
    assert forall k :: 0 <= k < |s| ==> EmailChar(s[k]) || k == i || k == j;
    assert IndexOf(s, '@') == i;
    var d := s[i + 1..];
    assert forall k :: 0 <= k < |d| ==> d[k] == s[i + 1 + k];
    assert '@' !in d;
    var mid := d[1..|d| - 1];
    assert mid[j - i - 2] == '.';
  }

  /** The backtracking-free decision agrees with the regular expression on every string. */
  lemma EmailFormatIsRegex(s: string)
    ensures IsEmailFormat(s) <==> EmailRegex(s)
  {
    if IsEmailFormat(s) { FormatGivesSplit(s); }
    if EmailRegex(s) {
      var i, j :| SplitsAsEmail(s, i, j);
      SplitGivesFormat(s, i, j);
    }
  }

}
