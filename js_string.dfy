/** JavaScript string behaviour the forms rely on: `String.prototype.trim`, string
    truthiness, and the abstract result of `parseInt`/`parseFloat` on an input's text. */
module JsString {
  import opened Wrappers

  /** ECMAScript WhiteSpace and LineTerminator code points, which `trim` removes. */
  predicate IsWhitespace(c: char) {
    c == '\t' || c == '\n' || c == '\U{B}' || c == '\U{C}' || c == '\r' || c == ' '
    || c == '\U{A0}' || c == '\U{1680}' || ('\U{2000}' <= c <= '\U{200A}')
    || c == '\U{2028}' || c == '\U{2029}' || c == '\U{202F}' || c == '\U{205F}'
    || c == '\U{3000}' || c == '\U{FEFF}'
  }

  /** Every character of `s` is whitespace (vacuously true of ""). */
  predicate Blank(s: string) {
    forall i :: 0 <= i < |s| ==> IsWhitespace(s[i])
  }

  /** Drops leading whitespace: the result is the suffix of `s` that starts at its
      first non-whitespace character. */
  function TrimStart(s: string): (r: string)
    ensures |r| <= |s| && r == s[|s| - |r|..]
    ensures forall i :: 0 <= i < |s| - |r| ==> IsWhitespace(s[i])
    ensures r != [] ==> !IsWhitespace(r[0])
  {
    if s != [] && IsWhitespace(s[0]) then TrimStart(s[1..]) else s
  }

  /** Drops trailing whitespace: the result is the prefix of `s` that ends at its
      last non-whitespace character. */
  function TrimEnd(s: string): (r: string)
    ensures |r| <= |s| && r == s[..|r|]
    ensures forall i :: |r| <= i < |s| ==> IsWhitespace(s[i])
    ensures r != [] ==> !IsWhitespace(r[|r| - 1])
  {
    if s != [] && IsWhitespace(s[|s| - 1]) then TrimEnd(s[..|s| - 1]) else s
  }

  /** `r` is `s[i..j]`, and everything of `s` outside it is whitespace. */
  predicate TrimmedInfix(s: string, r: string, i: int, j: int) {
    && 0 <= i <= j <= |s| && r == s[i..j]
    && (forall k :: 0 <= k < i ==> IsWhitespace(s[k]))
    && (forall k :: j <= k < |s| ==> IsWhitespace(s[k]))
  }

  /** A prefix of a suffix of `s` is an infix of `s`. */
  lemma PrefixOfSuffix(s: string, i: nat, t: string, r: string)
    requires i <= |s| && t == s[i..] && |r| <= |t| && r == t[..|r|]
    ensures r == s[i..i + |r|]
  {
  }

  /** Whitespace past position `n` of a suffix `t == s[i..]` is whitespace past
      position `i + n` of `s`. */
  lemma WhitespaceTailOfSuffix(s: string, i: nat, t: string, n: nat)
    requires i <= |s| && t == s[i..] && n <= |t|
    requires forall k :: n <= k < |t| ==> IsWhitespace(t[k])
    ensures forall k :: i + n <= k < |s| ==> IsWhitespace(s[k])
  {
    forall k | i + n <= k < |s| ensures IsWhitespace(s[k]) {
      assert s[k] == t[k - i];
    }
  }

  /** What the two one-sided trims promise, put together: `r` is the infix of
      `s` left by both, empty exactly when `s` is blank. */
  lemma BothTrims(s: string, t: string, r: string)
    requires |t| <= |s| && t == s[|s| - |t|..]
    requires forall i :: 0 <= i < |s| - |t| ==> IsWhitespace(s[i])
    requires t != [] ==> !IsWhitespace(t[0])
    requires |r| <= |t| && r == t[..|r|]
    requires forall i :: |r| <= i < |t| ==> IsWhitespace(t[i])
    ensures TrimmedInfix(s, r, |s| - |t|, |s| - |t| + |r|)
    ensures r == [] <==> Blank(s)
    ensures r != [] ==> !IsWhitespace(r[0])
  {
    var i := |s| - |t|;
    PrefixOfSuffix(s, i, t, r);
    WhitespaceTailOfSuffix(s, i, t, |r|);
    if r != [] {
      assert r[0] == t[0] == s[i];
    }
  }

  /** `s.trim()`: `TrimStart` then `TrimEnd`. The result is empty exactly when
      `s` is blank, and otherwise starts and ends with a non-whitespace character;
      `TrimIsInfix` says which part of `s` it is. */
  function Trim(s: string): (r: string)
    ensures r == [] <==> Blank(s)
    ensures r != [] ==> !IsWhitespace(r[0]) && !IsWhitespace(r[|r| - 1])
  {
    var t := TrimStart(s);
    var r := TrimEnd(t);
    BothTrims(s, t, r);
    r
  }

  /** `s.trim()` is the infix of `s` left after removing its leading and trailing
      whitespace. */
  lemma TrimIsInfix(s: string)
    ensures exists i, j :: TrimmedInfix(s, Trim(s), i, j)
  {
    var t := TrimStart(s);
    var r := TrimEnd(t);
    assert Trim(s) == r;
    BothTrims(s, t, r);
    assert TrimmedInfix(s, Trim(s), |s| - |t|, |s| - |t| + |r|);
  }

  /** Trimming is idempotent. */
  lemma {:induction false} TrimIdempotent(s: string)
    ensures Trim(Trim(s)) == Trim(s)
  {
    var r := Trim(s);
    if r != [] {
      assert TrimStart(r) == r;
      assert TrimEnd(r) == r;
    }
  }

  /** The text of an input box together with what `parseInt(text)` and
      `parseFloat(text)` return; `None` stands for `NaN`. Parsing itself is not
      modelled, only its outcome. */
  datatype TextInput = TextInput(text: string, asInt: Option<int>, asFloat: Option<real>)

  /** An input holding `text` whose parses are both `NaN` (a name, an id). */
  function WordInput(text: string): TextInput {
    TextInput(text, None, None)
  }

  const EmptyInput: TextInput := WordInput("")
}
