/**
  Character classes and the string primitives the converter relies on:
  the whitespace of .NET's `Char.IsWhiteSpace` / regex `\s`, the classes
  used by the two row patterns, maximal runs of a class, and `String.Trim`.
 */
module Text {

  datatype Option<+T> = None | Some(value: T) {
    predicate IsFailure() { None? }
    function PropagateFailure<U>(): Option<U>
      requires None?
    {
      None
    }
    function Extract(): T
      requires Some?
    {
      value
    }
  }

  /** Whitespace as .NET's `Char.IsWhiteSpace` and the regex class `\s` see it. */
  predicate IsWhiteSpace(c: char) {
    || c == ' '
    || ('\t' <= c <= '\r')
    || c == '\U{85}' || c == '\U{A0}' || c == '\U{1680}'
    || ('\U{2000}' <= c <= '\U{200A}')
    || c == '\U{2028}' || c == '\U{2029}' || c == '\U{202F}' || c == '\U{205F}' || c == '\U{3000}'
  }

  /** The character classes the row patterns are built from. */
  datatype CharClass =
    | WhiteSpace   // `\s`
    | NotSpace     // `[^ ]`
    | LowerHex     // `[a-f0-9]`
    | Digit        // `\d`, ASCII digits only
    | NotNewline   // `.`

  predicate InClass(c: char, k: CharClass) {
    match k
    case WhiteSpace => IsWhiteSpace(c)
    case NotSpace => c != ' '
    case LowerHex => ('0' <= c <= '9') || ('a' <= c <= 'f')
    case Digit => '0' <= c <= '9'
    case NotNewline => c != '\n'
  }

  /** Every character of `s` is in class `k` (the empty string included). */
  predicate All(s: string, k: CharClass) {
    forall i :: 0 <= i < |s| ==> InClass(s[i], k)
  }

  /** `s` is a non-empty run of class `k`: what `k+` matches. */
  predicate IsRun(s: string, k: CharClass) {
    |s| > 0 && All(s, k)
  }

  /** Length of the longest prefix of `s` made of class `k`. */
  function Span(s: string, k: CharClass): (n: nat)
    ensures n <= |s|
    ensures All(s[..n], k)
    ensures n < |s| ==> !InClass(s[n], k)
  {
    if s == [] || !InClass(s[0], k) then 0
    else
      var n := 1 + Span(s[1..], k);
      assert s[..n] == [s[0]] + s[1..][..n - 1];
      n
  }

  /** Length of the longest suffix of `s` made of class `k`. */
  function SpanEnd(s: string, k: CharClass): (n: nat)
    ensures n <= |s|
    ensures All(s[|s| - n..], k)
    ensures n < |s| ==> !InClass(s[|s| - n - 1], k)
  {
    if s == [] || !InClass(s[|s| - 1], k) then 0
    else
      var p := s[..|s| - 1];
      var n := 1 + SpanEnd(p, k);
      assert s[|s| - n..] == p[|p| - (n - 1)..] + [s[|s| - 1]];
      n
  }

  /** `String.Trim()`: `s` without its leading and trailing whitespace. */
  function Trim(s: string): (r: string)
    ensures |r| <= |s|
    ensures r == [] || (!IsWhiteSpace(r[0]) && !IsWhiteSpace(r[|r| - 1]))
  {
    var a := Span(s, WhiteSpace);
    var e := |s| - SpanEnd(s, WhiteSpace);
    if e <= a then s[a..a] else s[a..e]
  }

  /** `Trim(s)` is what lies between the leading whitespace run of `s` and a trailing
      whitespace run. */
  lemma TrimCuts(s: string)
    ensures var a := Span(s, WhiteSpace);
      var r := Trim(s);
      && a + |r| <= |s|
      && All(s[..a], WhiteSpace) && r == s[a..a + |r|] && All(s[a + |r|..], WhiteSpace)
  {
    var a := Span(s, WhiteSpace);
    var e := |s| - SpanEnd(s, WhiteSpace);
    if e <= a {
      AllSuffix(s, e, a, WhiteSpace);
      assert Trim(s) == s[a..a];
    } else {
      assert Trim(s) == s[a..e] && a + |s[a..e]| == e;
    }
  }

  /** A suffix of a run of class `k` is a run of class `k`. */
  lemma AllSuffix(s: string, e: nat, a: nat, k: CharClass)
    requires e <= a <= |s| && All(s[e..], k)
    ensures All(s[a..], k)
  {
    forall i | 0 <= i < |s[a..]|
      ensures InClass(s[a..][i], k)
    {
      assert s[a..][i] == s[e..][i + a - e];
    }
  }

  /** Trimming a string that neither starts nor ends with whitespace changes nothing. */
  lemma {:induction false} TrimUnpadded(s: string)
    requires s == [] || (!IsWhiteSpace(s[0]) && !IsWhiteSpace(s[|s| - 1]))
    ensures Trim(s) == s
  {
    var r := Trim(s);
    TrimCuts(s);
    if s != [] {
      assert Span(s, WhiteSpace) == 0;
      if |r| < |s| {
        assert false;
      }
    }
  }

  /** Trimming is idempotent. */
  lemma TrimIdempotent(s: string)
    ensures Trim(Trim(s)) == Trim(s)
  {
    TrimUnpadded(Trim(s));
  }

  /** A string that starts with a non-whitespace character keeps it as its first character after trimming. */
  lemma {:induction false} TrimKeepsHead(s: string)
    requires s != [] && !IsWhiteSpace(s[0])
    ensures Trim(s) != [] && Trim(s)[0] == s[0]
  {
    assert Span(s, WhiteSpace) == 0;
    var r := Trim(s);
    TrimCuts(s);
    if r == [] {
      assert false;
    }
  }

  /** Value of a lowercase hexadecimal digit. */
  function HexDigitValue(c: char): (v: nat)
    ensures v < 16
  {
    if '0' <= c <= '9' then (c - '0') as nat
    else if 'a' <= c <= 'f' then (c - 'a') as nat + 10
    else 0
  }

  /** The number a string of hexadecimal digits denotes, most significant digit first. */
  function HexValue(s: string): nat {
    if s == [] then 0 else HexValue(s[..|s| - 1]) * 16 + HexDigitValue(s[|s| - 1])
  }
}
