/**
 * The JavaScript string operations the pages and routes rely on, for strings
 * modelled as sequences of characters: truthiness, `||` defaulting,
 * `String.prototype.trim` (used only to test for blank input) and
 * `String.prototype.includes`.
 */
module Text {
  import opened Common

  /** A string is truthy in JavaScript exactly when it is not empty. */
  predicate Truthy(s: string) {
    s != ""
  }

  /** A missing (`null`/`undefined`) string is falsy, a present one as `Truthy`. */
  predicate TruthyOpt(o: Option<string>) {
    o.Some? && Truthy(o.value)
  }

  /** `s || d` for a string `s`. */
  function OrElse(s: string, d: string): (r: string)
    ensures Truthy(s) ==> r == s
    ensures !Truthy(s) ==> r == d
  {
    if Truthy(s) then s else d
  }

  /** `o || d` for an optional string `o`. */
  function OptOrElse(o: Option<string>, d: string): (r: string)
    ensures TruthyOpt(o) ==> r == o.value
    ensures !TruthyOpt(o) ==> r == d
  {
    if TruthyOpt(o) then o.value else d
  }

  /**
   * The characters `trim` removes: the WhiteSpace and LineTerminator code
   * points of ECMA-262 (section 12.2 and 12.3 of the 2023 edition).
   */
  predicate IsWhitespace(c: char) {
    || c == ' ' || c == '\t' || c == '\n' || c == '\r'
    || c == '\U{000B}' || c == '\U{000C}' || c == '\U{00A0}' || c == '\U{FEFF}'
    || c == '\U{1680}' || ('\U{2000}' <= c <= '\U{200A}')
    || c == '\U{2028}' || c == '\U{2029}' || c == '\U{202F}' || c == '\U{205F}'
    || c == '\U{3000}'
  }

  /** Every character of `s` is whitespace (in particular, "" is blank). */
  predicate IsBlank(s: string) {
    forall i :: 0 <= i < |s| ==> IsWhitespace(s[i])
  }

  /** `s` with its leading whitespace removed. */
  function TrimStart(s: string): string {
    if s != [] && IsWhitespace(s[0]) then TrimStart(s[1..]) else s
  }

  /** `s` with its trailing whitespace removed. */
  function TrimEnd(s: string): string {
    if s != [] && IsWhitespace(s[|s| - 1]) then TrimEnd(s[..|s| - 1]) else s
  }

  /** `TrimStart` returns the longest suffix of `s` that does not start with whitespace. */
  lemma {:induction false} TrimStartIsLongestSuffix(s: string)
    ensures var r := TrimStart(s);
      && |r| <= |s| && r == s[|s| - |r|..]
      && (r == [] || !IsWhitespace(r[0]))
      && (forall i :: 0 <= i < |s| - |r| ==> IsWhitespace(s[i]))
  {
    if s != [] && IsWhitespace(s[0]) {
      TrimStartIsLongestSuffix(s[1..]);
    }
  }

  /** `TrimEnd` returns the longest prefix of `s` that does not end with whitespace. */
  lemma {:induction false} TrimEndIsLongestPrefix(s: string)
    ensures var r := TrimEnd(s);
      && |r| <= |s| && r == s[..|r|]
      && (r == [] || !IsWhitespace(r[|r| - 1]))
      && (forall i :: |r| <= i < |s| ==> IsWhitespace(s[i]))
  {
    if s != [] && IsWhitespace(s[|s| - 1]) {
      TrimEndIsLongestPrefix(s[..|s| - 1]);
    }
  }

  /** `s.trim()` */
  function Trim(s: string): string {
    TrimEnd(TrimStart(s))
  }

  /** `!s.trim()` holds exactly for the blank strings. */
  lemma TrimEmptyIffBlank(s: string)
    ensures Trim(s) == "" <==> IsBlank(s)
  {
    var t := TrimStart(s);
    TrimStartIsLongestSuffix(s);
    TrimEndIsLongestPrefix(t);
    if Trim(s) == "" {
      assert t == [];
    }
  }

  /** `s.startsWith(t)` */
  predicate StartsWith(s: string, t: string) {
    |t| <= |s| && s[..|t|] == t
  }

  /** `s.includes(t)`: `t` occurs in `s` as a contiguous substring. */
  predicate Includes(s: string, t: string)
    decreases |s|
  {
    StartsWith(s, t) || (s != [] && Includes(s[1..], t))
  }

  /** Every string includes the empty string, and every string includes itself. */
  lemma IncludesEmptyAndSelf(s: string)
    ensures Includes(s, "")
    ensures Includes(s, s)
  {
    assert StartsWith(s, "");
    assert StartsWith(s, s);
  }
}
