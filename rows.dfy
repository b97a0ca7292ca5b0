/**
  The two row patterns of the converter, written as tokenizers.

  A segment row under "Memory map:" is
      \s+ name:[^ ]+ \s+ start:[a-f0-9]+ \s+ size:[a-f0-9]+ \s+ offset:[a-f0-9]+
  and a symbol row under "<segment> section layout" is
      \s+ start:[a-f0-9]+ \s+ size:[a-f0-9]+ \s+ address:[a-f0-9]+ \s+ type:\d+
      \s+ name:[^ ]+ \s* module:(.+)?
  Each tokenizer reads the row from its first character, taking every group
  as the longest run of its class, and returns every group it read,
  separators included, so that a match can be turned back into the
  line it came from.
 */
module Rows {
  import opened Text

  /** A run taken off the front of a string, and what follows it. */
  datatype Lexeme = Lexeme(text: string, rest: string)

  /** `s` is empty or starts with a character outside class `k`. */
  predicate StartsOutside(s: string, k: CharClass) {
    s == [] || !InClass(s[0], k)
  }

  /** The longest non-empty run of class `k` at the front of `s`, if there is one. */
  function Token(s: string, k: CharClass): (r: Option<Lexeme>)
    ensures r.Some? ==>
      && IsRun(r.value.text, k)
      && r.value.text + r.value.rest == s
      && StartsOutside(r.value.rest, k)
    ensures r.None? <==> StartsOutside(s, k)
  {
    var n := Span(s, k);
    assert s[..n] + s[n..] == s;
    if n == 0 then None else Some(Lexeme(s[..n], s[n..]))
  }

  /** `Span` stops exactly at the end of a prefix of class `k` followed by something outside it. */
  lemma {:induction false} SpanOfPrefix(run: string, rest: string, k: CharClass)
    requires All(run, k)
    requires StartsOutside(rest, k)
    ensures Span(run + rest, k) == |run|
    ensures (run + rest)[..|run|] == run && (run + rest)[|run|..] == rest
  {
  }

  /** A run of `k` followed by something outside `k` is exactly what `Token` takes. */
  lemma TokenOfRun(run: string, rest: string, k: CharClass)
    requires IsRun(run, k)
    requires StartsOutside(rest, k)
    ensures Token(run + rest, k) == Some(Lexeme(run, rest))
  {
    SpanOfPrefix(run, rest, k);
  }

  /** The strings of `parts`, one after the other. */
  function Join(parts: seq<string>): string {
    if parts == [] then "" else parts[0] + Join(parts[1..])
  }

  /** The groups a pattern read, and the text after the last one. */
  datatype Scan = Scan(groups: seq<string>, rest: string)

  /** Reading `pattern` off the front of `Join(groups) + rest` gives back exactly `groups`:
      one group per class, each a non-empty run of its class that cannot be extended. */
  predicate Reads(groups: seq<string>, pattern: seq<CharClass>, rest: string)
    decreases |groups|
  {
    && |groups| == |pattern|
    && (groups != [] ==>
          && IsRun(groups[0], pattern[0])
          && StartsOutside(Join(groups[1..]) + rest, pattern[0])
          && Reads(groups[1..], pattern[1..], rest))
  }

  /** What `Reads` says of the group at position `i`. */
  lemma {:induction false} ReadsAt(groups: seq<string>, pattern: seq<CharClass>, rest: string, i: nat)
    requires Reads(groups, pattern, rest)
    requires i < |groups|
    ensures IsRun(groups[i], pattern[i])
    ensures StartsOutside(Join(groups[i + 1..]) + rest, pattern[i])
    decreases i
  {
    if i > 0 {
      ReadsAt(groups[1..], pattern[1..], rest, i - 1);
      assert groups[1..][i..] == groups[i + 1..];
    }
  }

  /** Reads the classes of `pattern` off the front of `s`, one longest non-empty run each. */
  function ScanPattern(s: string, pattern: seq<CharClass>): (r: Option<Scan>)
    ensures r.Some? ==> Reads(r.value.groups, pattern, r.value.rest)
    ensures r.Some? ==> Join(r.value.groups) + r.value.rest == s
    decreases |pattern|
  {
    if pattern == [] then Some(Scan([], s))
    else
      var t :- Token(s, pattern[0]);
      var more :- ScanPattern(t.rest, pattern[1..]);
      var groups := [t.text] + more.groups;
      assert groups[0] == t.text && groups[1..] == more.groups;
      assert Join(groups) + more.rest == t.text + (Join(more.groups) + more.rest);
      Some(Scan(groups, more.rest))
  }

  /** `ScanPattern` reads back every sequence of groups that fits the pattern. */
  lemma {:induction false} ScanRoundTrip(groups: seq<string>, pattern: seq<CharClass>, rest: string)
    requires Reads(groups, pattern, rest)
    ensures ScanPattern(Join(groups) + rest, pattern) == Some(Scan(groups, rest))
    decreases |groups|
  {
    if groups != [] {
      var s := Join(groups) + rest;
      var after := Join(groups[1..]) + rest;
      assert s == groups[0] + after;
      TokenOfRun(groups[0], after, pattern[0]);
      assert Token(s, pattern[0]) == Some(Lexeme(groups[0], after));
      ScanRoundTrip(groups[1..], pattern[1..], rest);
      assert ScanPattern(s, pattern) == Some(Scan([groups[0]] + groups[1..], rest));
      assert [groups[0]] + groups[1..] == groups;
    } else {
      assert Join(groups) + rest == rest;
    }
  }

  /** The classes of the segment-row pattern, up to the offset group. */
  const SegmentPattern: seq<CharClass> :=
    [WhiteSpace, NotSpace, WhiteSpace, LowerHex, WhiteSpace, LowerHex, WhiteSpace, LowerHex]

  /** The groups of a successful match of the segment-row pattern, in pattern order
      (leading space, name, space, start, space, size, space, offset), and the text after them. */
  datatype SegmentMatch = SegmentMatch(groups: seq<string>, tail: string)
  {
    /** The groups have the shape the pattern gives them, each as long as it can be. */
    predicate WellFormed() {
      Reads(groups, SegmentPattern, tail)
    }

    /** The line this match covers. */
    function Text(): string {
      Join(groups) + tail
    }

    function Name(): string
      requires |groups| == |SegmentPattern|
    {
      groups[1]
    }

    function Start(): string
      requires |groups| == |SegmentPattern|
    {
      groups[3]
    }
  }

  /** The segment-row pattern of Program.cs:52 applied to one line. */
  function MatchSegmentRow(line: string): (r: Option<SegmentMatch>)
    ensures r.Some? ==> r.value.WellFormed() && r.value.Text() == line
  {
    var sc :- ScanPattern(line, SegmentPattern);
    Some(SegmentMatch(sc.groups, sc.rest))
  }

  /** The tokenizer reads back every well-formed segment row, so that
      `MatchSegmentRow(line) == Some(m)` holds exactly when `m` is well formed and covers `line`. */
  lemma SegmentRowRoundTrip(m: SegmentMatch)
    requires m.WellFormed()
    ensures MatchSegmentRow(m.Text()) == Some(m)
  {
    ScanRoundTrip(m.groups, SegmentPattern, m.tail);
  }

  /** The classes of the symbol-row pattern, up to the name group. */
  const SymbolPattern: seq<CharClass> :=
    [WhiteSpace, LowerHex, WhiteSpace, LowerHex, WhiteSpace, LowerHex, WhiteSpace, Digit, WhiteSpace, NotSpace]

  /** What follows the name group of a symbol row: the whitespace run `\s*`,
      the optional module group `(.+)?` and whatever the pattern leaves unread. */
  datatype ModulePart = ModulePart(gap: string, moduleName: Option<string>, tail: string)
  {
    /** The text of the module group, empty when the group did not match. */
    function ModuleText(): string {
      if moduleName.Some? then moduleName.value else ""
    }

    function Text(): string {
      gap + ModuleText() + tail
    }

    /** `gap` is the longest whitespace run, and the module group, when it matched,
        is the longest run of characters other than a newline after it. */
    predicate WellFormed() {
      && All(gap, WhiteSpace)
      && StartsOutside(ModuleText() + tail, WhiteSpace)
      && (moduleName.None? ==> tail == [])
      && (moduleName.Some? ==> IsRun(moduleName.value, NotNewline) && StartsOutside(tail, NotNewline))
    }
  }

  /** Reads `\s*(?<module>.+)?` off the text that follows the name group. */
  function ReadModule(rest: string): (p: ModulePart)
    ensures p.WellFormed() && p.Text() == rest
  {
    var w := Span(rest, WhiteSpace);
    assert rest[..w] + rest[w..] == rest;
    ReadModuleGroup(rest[..w], rest[w..])
  }

  /** Reads the optional module group `(?<module>.+)?` off `after`, which follows the
      whitespace run `gap`. */
  function ReadModuleGroup(gap: string, after: string): (p: ModulePart)
    requires All(gap, WhiteSpace) && StartsOutside(after, WhiteSpace)
    ensures p.WellFormed() && p.Text() == gap + after
  {
    var n := Span(after, NotNewline);
    if n == 0 then
      assert after == [];
      ModulePart(gap, None, after)
    else
      var p := ModulePart(gap, Some(after[..n]), after[n..]);
      assert p.ModuleText() + p.tail == after;
      p
  }

  /** `ReadModule` reads back every well-formed remainder. */
  lemma ModuleRoundTrip(p: ModulePart)
    requires p.WellFormed()
    ensures ReadModule(p.Text()) == p
  {
    var after := p.ModuleText() + p.tail;
    assert p.Text() == p.gap + after;
    SpanOfPrefix(p.gap, after, WhiteSpace);
    if p.moduleName.Some? {
      SpanOfPrefix(p.moduleName.value, p.tail, NotNewline);
    }
  }

  /** The groups of a successful match of the symbol-row pattern, in pattern order
      (leading space, start, space, size, space, address, space, type, space, name),
      and what follows the name. */
  datatype SymbolMatch = SymbolMatch(groups: seq<string>, after: ModulePart)
  {
    predicate WellFormed() {
      Reads(groups, SymbolPattern, after.Text()) && after.WellFormed()
    }

    /** The line this match covers. */
    function Text(): string {
      Join(groups) + after.Text()
    }

    function Address(): string
      requires |groups| == |SymbolPattern|
    {
      groups[5]
    }

    /** The `type` group. */
    function Kind(): string
      requires |groups| == |SymbolPattern|
    {
      groups[7]
    }

    function Name(): string
      requires |groups| == |SymbolPattern|
    {
      groups[9]
    }
  }

  /** The symbol-row pattern of Program.cs:80 applied to one line. */
  function MatchSymbolRow(line: string): (r: Option<SymbolMatch>)
    ensures r.Some? ==> r.value.WellFormed() && r.value.Text() == line
  {
    var sc :- ScanPattern(line, SymbolPattern);
    Some(SymbolMatch(sc.groups, ReadModule(sc.rest)))
  }

  /** The tokenizer reads back every well-formed symbol row, so that
      `MatchSymbolRow(line) == Some(m)` holds exactly when `m` is well formed and covers `line`. */
  lemma SymbolRowRoundTrip(m: SymbolMatch)
    requires m.WellFormed()
    ensures MatchSymbolRow(m.Text()) == Some(m)
  {
    ScanRoundTrip(m.groups, SymbolPattern, m.after.Text());
    ModuleRoundTrip(m.after);
  }

  /** The trimmed name of a row that this tokenizer matches is never empty and keeps
      the name's first character, so on those rows the `name[0]` test of Program.cs:89
      is always defined.  The backtracking matcher of the converter also accepts rows
      whose name is whitespace other than a space (see the README). */
  lemma SymbolNameTrimmed(m: SymbolMatch)
    requires m.WellFormed()
    ensures Trim(m.Name()) != [] && Trim(m.Name())[0] == m.Name()[0]
  {
    var g := m.groups;
    ReadsAt(g, SymbolPattern, m.after.Text(), 8);
    ReadsAt(g, SymbolPattern, m.after.Text(), 9);
    assert g[9..] == [m.Name()];
    assert (Join(g[9..]) + m.after.Text())[0] == m.Name()[0];
    TrimKeepsHead(m.Name());
  }
}
