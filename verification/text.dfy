/**
 * The .NET string operations the core relies on: lower-casing, trimming,
 * ordinal prefix/suffix tests and the store's text comparison.
 */
module Text {

  /** `char.IsWhiteSpace`: the Unicode space separators plus U+0009..U+000D, U+0085, U+2028, U+2029. */
  predicate IsWhiteSpace(c: char) {
    c == ' ' || ('\t' <= c <= '\r') || c == '\U{0085}' || c == '\U{00A0}' || c == '\U{1680}'
    || ('\U{2000}' <= c <= '\U{200A}') || c == '\U{2028}' || c == '\U{2029}' || c == '\U{202F}'
    || c == '\U{205F}' || c == '\U{3000}'
  }

  predicate IsUpper(c: char) {
    ('A' <= c <= 'Z') || ('\U{00C0}' <= c <= '\U{00DE}' && c != '\U{00D7}')
  }

  /** `char.ToLowerInvariant` on ASCII and Latin-1 letters; every other character is unchanged. */
  function ToLowerChar(c: char): (r: char)
    ensures !IsUpper(r)
    ensures !IsUpper(c) ==> r == c
  {
    if IsUpper(c) then (c as int + 32) as char else c
  }

  /** `string.ToLowerInvariant`. */
  function ToLower(s: string): (r: string)
    ensures |r| == |s|
    ensures forall i :: 0 <= i < |s| ==> r[i] == ToLowerChar(s[i])
  {
    seq(|s|, i requires 0 <= i < |s| => ToLowerChar(s[i]))
  }

  /** Drops the leading characters that are in `cs`. */
  function TrimStart(s: string, cs: set<char>): (r: string)
    ensures |r| <= |s| && r == s[|s| - |r|..]
    ensures r == [] || r[0] !in cs
    ensures forall i :: 0 <= i < |s| - |r| ==> s[i] in cs
    decreases |s|
  {
    if s != [] && s[0] in cs then TrimStart(s[1..], cs) else s
  }

  /** Drops the trailing characters that are in `cs`. */
  function TrimEnd(s: string, cs: set<char>): (r: string)
    ensures |r| <= |s| && r == s[..|r|]
    ensures r == [] || r[|r| - 1] !in cs
    ensures forall i :: |r| <= i < |s| ==> s[i] in cs
    decreases |s|
  {
    if s != [] && s[|s| - 1] in cs then TrimEnd(s[..|s| - 1], cs) else s
  }

  /** `string.Trim(chars)`: drops characters in `cs` from both ends. */
  function TrimChars(s: string, cs: set<char>): (r: string)
    ensures |r| <= |s|
    ensures r == [] || (r[0] !in cs && r[|r| - 1] !in cs)
  {
    TrimEnd(TrimStart(s, cs), cs)
  }

  /** TrimChars keeps a middle slice of `s` whose cut-off ends consist of `cs` characters only. */
  lemma TrimCharsIsInfix(s: string, cs: set<char>)
    ensures var r, i := TrimChars(s, cs), |s| - |TrimStart(s, cs)|;
      i + |r| <= |s| && r == s[i..i + |r|]
      && (forall k :: 0 <= k < i ==> s[k] in cs)
      && (forall k :: i + |r| <= k < |s| ==> s[k] in cs)
  {
    var t := TrimStart(s, cs);
    var r := TrimEnd(t, cs);
    var i := |s| - |t|;
    assert t == s[i..];
    assert r == t[..|r|];
    forall k | i + |r| <= k < |s| ensures s[k] in cs {
      assert s[k] == t[k - i];
    }
  }

  /** `string.Trim()`. */
  function Trim(s: string): (r: string)
    ensures |r| <= |s|
    ensures r == [] || (!IsWhiteSpace(r[0]) && !IsWhiteSpace(r[|r| - 1]))
  {
    TrimChars(s, WhiteSpaceIn(s))
  }

  /** The white-space characters that occur in `s`. */
  function WhiteSpaceIn(s: string): set<char> {
    set c: char | c in s && IsWhiteSpace(c)
  }

  /** Trim keeps a middle slice of `s` whose cut-off ends are white space only. */
  lemma TrimIsInfix(s: string)
    ensures var r, i := Trim(s), |s| - |TrimStart(s, WhiteSpaceIn(s))|;
      i + |r| <= |s| && r == s[i..i + |r|]
      && (forall k :: 0 <= k < i ==> IsWhiteSpace(s[k]))
      && (forall k :: i + |r| <= k < |s| ==> IsWhiteSpace(s[k]))
  {
    var ws := WhiteSpaceIn(s);
    TrimCharsIsInfix(s, ws);
    assert Trim(s) == TrimChars(s, ws);
    forall c | c in ws ensures IsWhiteSpace(c) {
    }
  }

  /** `string.IsNullOrWhiteSpace` on a non-null string. */
  predicate IsWhiteSpaceOnly(s: string) {
    forall i :: 0 <= i < |s| ==> IsWhiteSpace(s[i])
  }

  /** Ordinal `EndsWith`, compared from the last character backwards. */
  function EndsWith(s: string, t: string): bool
    decreases |t|
  {
    |t| <= |s| && (|t| == 0 || (s[|s| - 1] == t[|t| - 1] && EndsWith(s[..|s| - 1], t[..|t| - 1])))
  }

  /** EndsWith holds exactly when `t` is the tail of `s`. */
  lemma {:induction false} EndsWithIsTail(s: string, t: string)
    ensures EndsWith(s, t) <==> |t| <= |s| && s[|s| - |t|..] == t
    decreases |t|
  {
    if |t| > 0 && |t| <= |s| {
      var s', t' := s[..|s| - 1], t[..|t| - 1];
      EndsWithIsTail(s', t');
      assert s[|s| - |t|..] == s'[|s'| - |t'|..] + [s[|s| - 1]];
      assert t == t' + [t[|t| - 1]];
    }
  }

  /** A difference `i` characters from the end rules out EndsWith. */
  lemma {:induction false} NotEndsWithAt(s: string, t: string, i: nat)
    requires 0 < i <= |t| && i <= |s| && s[|s| - i] != t[|t| - i]
    ensures !EndsWith(s, t)
    decreases i
  {
    if i > 1 {
      NotEndsWithAt(s[..|s| - 1], t[..|t| - 1], i - 1);
    }
  }

  /** Ordinal `StartsWith`. */
  predicate StartsWith(s: string, p: string) {
    |p| <= |s| && s[..|p|] == p
  }

  /** Text equality as the store evaluates it: exact, or ignoring case. */
  predicate TextEquals(a: string, b: string, ignoreCase: bool) {
    if ignoreCase then ToLower(a) == ToLower(b) else a == b
  }

  /** The store's begins-with test: exact, or ignoring case. */
  predicate TextStartsWith(s: string, p: string, ignoreCase: bool) {
    if ignoreCase then StartsWith(ToLower(s), ToLower(p)) else StartsWith(s, p)
  }

  /** Every string begins with the empty string, under either collation. */
  lemma StartsWithEmpty(s: string, ignoreCase: bool)
    ensures TextStartsWith(s, "", ignoreCase)
  {
  }
}
