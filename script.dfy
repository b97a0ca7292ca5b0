/**
  The script generator of the converter: from the split sections of a map
  file it writes an IDC script made of three routines, `main`, which calls
  the other two, `handleSegments`, which renames one segment per row of the
  "Memory map:" section, and `handleFunctions`, which names one symbol (and
  comments it with its module) per type-4 row of each segment's
  "<segment> section layout" section.
 */
module Script {
  import opened Text
  import opened Rows
  import Splitter

  /** The output stream: the lines written to it so far. */
  class ScriptWriter {
    var lines: seq<string>

    constructor ()
      ensures lines == []
    {
      lines := [];
    }

    method WriteLine(line: string)
      modifies this
      ensures lines == old(lines) + [line]
    {
      lines := lines + [line];
    }
  }

  /** The dictionary of sections, which `WriteSegments` adds the segment list to. */
  class SectionTable {
    var entries: map<string, seq<string>>

    constructor (entries: map<string, seq<string>>)
      ensures this.entries == entries
    {
      this.entries := entries;
    }
  }

  const MainTemplate: seq<string> :=
    ["static main()", "{", "\thandleSegments();", "\thandleFunctions();", "}"]

  const SegmentsHeader: seq<string> := ["static handleSegments()", "{"]
  const FunctionsHeader: seq<string> := ["static handleFunctions()", "{"]

  /** The section whose rows name the segments. */
  const MemoryMapTitle := "Memory map:"

  /** The key under which `WriteSegments` leaves the segment names for `WriteFunctions`. */
  const SegmentsKey := "segments"

  /** The title of the section that lists the symbols of `segment`. */
  function LayoutTitle(segment: string): string {
    segment + " section layout"
  }

  function RenameSegLine(start: string, name: string): string {
    "\tRenameSeg(0x" + start + ", \"" + name + "\");"
  }

  function MakeNameLine(address: string, name: string, flags: string): string {
    "\tMakeNameEx(0x" + address + ", \"" + name + "\", 0x" + flags + ");"
  }

  function MakeCommLine(address: string, comment: string): string {
    "\tMakeComm(0x" + address + ", \"" + comment + "\");"
  }

  /** The naming flags of a symbol: 0x101, plus 0x24 for a name starting with '@'
      and 0x42 for any other. */
  function NamingFlags(name: string): (flags: int)
    requires name != []
    ensures flags == 0x125 <==> name[0] == '@'
    ensures flags == 0x143 <==> name[0] != '@'
  {
    var flags := 0x101;
    if name[0] == '@' then flags + (0x04 + 0x20) else flags + (0x02 + 0x40)
  }

  /** The two flag values in lowercase hexadecimal without leading zeros (`{2:x}`). */
  function FlagsText(flags: int): (text: string)
    requires flags == 0x125 || flags == 0x143
    ensures IsRun(text, LowerHex) && text[0] != '0' && HexValue(text) == flags
  {
    assert "125"[..2] == "12" && "12"[..1] == "1";
    assert "143"[..2] == "14" && "14"[..1] == "1";
    if flags == 0x125 then "125" else "143"
  }

  /** The rows of `xs` mapped by `f` and laid end to end, in order. */
  function FlatMap<T, U>(f: T -> seq<U>, xs: seq<T>): seq<U>
    decreases |xs|
  {
    if xs == [] then [] else FlatMap(f, xs[..|xs| - 1]) + f(xs[|xs| - 1])
  }

  /** `FlatMap` keeps order: mapping two runs of rows is mapping their concatenation. */
  lemma {:induction false} FlatMapAppend<T, U>(f: T -> seq<U>, xs: seq<T>, ys: seq<T>)
    ensures FlatMap(f, xs + ys) == FlatMap(f, xs) + FlatMap(f, ys)
    decreases |ys|
  {
    if ys == [] {
      assert xs + ys == xs;
    } else {
      var ys' := ys[..|ys| - 1];
      assert (xs + ys)[..|xs + ys| - 1] == xs + ys';
      FlatMapAppend(f, xs, ys');
    }
  }

  /** One more row read: what a loop over `xs` has written after row `i`. */
  lemma FlatMapStep<T, U>(f: T -> seq<U>, xs: seq<T>, i: nat)
    requires i < |xs|
    ensures FlatMap(f, xs[..i + 1]) == FlatMap(f, xs[..i]) + f(xs[i])
  {
    assert xs[..i + 1][..i] == xs[..i];
  }

  /** Concatenation regrouped: a helper for the emitters' loop invariants. */
  lemma ConcatAssoc<T>(a: seq<T>, b: seq<T>, c: seq<T>)
    ensures a + (b + c) == a + b + c
  {
  }

  /** The segment a row of "Memory map:" describes, if it matches. */
  function SegmentMatches(line: string): seq<SegmentMatch> {
    match MatchSegmentRow(line)
    case None => []
    case Some(m) => [m]
  }

  /** What one row of "Memory map:" adds to `handleSegments`. */
  function SegmentRowLines(line: string): seq<string> {
    match MatchSegmentRow(line)
    case None => []
    case Some(m) => [RenameSegLine(m.Start(), m.Name())]
  }

  /** What one row of "Memory map:" adds to the segment list. */
  function SegmentRowNames(line: string): seq<string> {
    match MatchSegmentRow(line)
    case None => []
    case Some(m) => [Trim(m.Name())]
  }

  /** The statements of `handleSegments`. */
  function SegmentsBody(sections: map<string, seq<string>>): seq<string> {
    if MemoryMapTitle in sections then FlatMap(SegmentRowLines, sections[MemoryMapTitle]) else []
  }

  function SegmentsBlock(sections: map<string, seq<string>>): seq<string> {
    SegmentsHeader + SegmentsBody(sections) + ["}"]
  }

  /** The sections once `WriteSegments` has stored the segment list. */
  function WithSegments(sections: map<string, seq<string>>): map<string, seq<string>> {
    if MemoryMapTitle in sections
    then sections[SegmentsKey := FlatMap(SegmentRowNames, sections[MemoryMapTitle])]
    else sections
  }

  /** What a type-4 symbol row adds to `handleFunctions`: its `MakeNameEx` line, and its
      `MakeComm` line when the module group matched. */
  function SymbolLines(m: SymbolMatch): seq<string>
    requires m.WellFormed()
  {
    SymbolNameTrimmed(m);
    var name := Trim(m.Name());
    [MakeNameLine(m.Address(), name, FlagsText(NamingFlags(name)))]
    + (if m.after.moduleName.Some? then [MakeCommLine(m.Address(), Trim(m.after.moduleName.value))] else [])
  }

  /** What one row of a section layout adds to `handleFunctions`. */
  function SymbolRowLines(line: string): seq<string> {
    match MatchSymbolRow(line)
    case None => []
    case Some(m) => if m.Kind() == "4" then SymbolLines(m) else []
  }

  /** What the section layout of `segment` adds to `handleFunctions`; nothing when it is absent. */
  function LayoutLines(sections: map<string, seq<string>>, segment: string): seq<string> {
    var key := LayoutTitle(segment);
    if key in sections then FlatMap(SymbolRowLines, sections[key]) else []
  }

  /** The section layouts of `segments`, in list order. */
  function LayoutsBody(sections: map<string, seq<string>>, segments: seq<string>): seq<string>
    decreases |segments|
  {
    if segments == [] then []
    else LayoutsBody(sections, segments[..|segments| - 1]) + LayoutLines(sections, segments[|segments| - 1])
  }

  /** The statements of `handleFunctions`. */
  function FunctionsBody(sections: map<string, seq<string>>): seq<string> {
    if SegmentsKey in sections then LayoutsBody(sections, sections[SegmentsKey]) else []
  }

  function FunctionsBlock(sections: map<string, seq<string>>): seq<string> {
    FunctionsHeader + FunctionsBody(sections) + ["}"]
  }

  /** The whole script for the lines of a map file. */
  function Script(lines: seq<string>): seq<string> {
    var sections := Splitter.Split(lines);
    MainTemplate + SegmentsBlock(sections) + FunctionsBlock(WithSegments(sections))
  }

  /** WriteMain (Program.cs:29-39). */
  method WriteMain(out: ScriptWriter)
    modifies out
    ensures out.lines == old(out.lines) + MainTemplate
  {
    out.WriteLine("static main()");
    out.WriteLine("{");
    out.WriteLine("\thandleSegments();");
    out.WriteLine("\thandleFunctions();");
    out.WriteLine("}");
  }

  /** WriteSegments (Program.cs:40-63). */
  method WriteSegments(out: ScriptWriter, sections: SectionTable)
    modifies out, sections
    ensures out.lines == old(out.lines) + SegmentsBlock(old(sections.entries))
    ensures sections.entries == WithSegments(old(sections.entries))
  {
    ghost var entries := sections.entries;
    out.WriteLine("static handleSegments()");
    out.WriteLine("{");
    ghost var start := out.lines;
    assert start == old(out.lines) + SegmentsHeader;
    if MemoryMapTitle in sections.entries {
      var segmentLines := sections.entries[MemoryMapTitle];
      var segments: seq<string> := [];
      for i := 0 to |segmentLines|
        invariant out.lines == start + FlatMap(SegmentRowLines, segmentLines[..i])
        invariant segments == FlatMap(SegmentRowNames, segmentLines[..i])
        invariant sections.entries == entries
      {
        ghost var before := out.lines;
        var line := segmentLines[i];
        var row := MatchSegmentRow(line);
        if row.Some? {
          out.WriteLine(RenameSegLine(row.value.Start(), row.value.Name()));
          segments := segments + [Trim(row.value.Name())];
        }
        assert out.lines == before + SegmentRowLines(line);
        FlatMapStep(SegmentRowLines, segmentLines, i);
        FlatMapStep(SegmentRowNames, segmentLines, i);
        ConcatAssoc(start, FlatMap(SegmentRowLines, segmentLines[..i]), SegmentRowLines(line));
      }
      assert segmentLines[..|segmentLines|] == segmentLines;
      assert out.lines == start + SegmentsBody(entries);
      sections.entries := sections.entries[SegmentsKey := segments];
    } else {
      assert out.lines == start + SegmentsBody(entries);
    }
    ghost var written := out.lines;
    out.WriteLine("}");
    assert out.lines == written + ["}"];
    ghost var o := old(out.lines);
    ghost var body := SegmentsBody(entries);
    assert SegmentsBlock(entries) == SegmentsHeader + body + ["}"];
    ConcatAssoc(o, SegmentsHeader, body);
    ConcatAssoc(o, SegmentsHeader + body, ["}"]);
  }

  /** One row of a section layout, as the inner loop of WriteFunctions
      handles it (Program.cs:80-100): a type-4 row names its symbol and,
      when it has a module, comments it. */
  method WriteSymbolRow(out: ScriptWriter, line: string)
    modifies out
    ensures out.lines == old(out.lines) + SymbolRowLines(line)
  {
    var row := MatchSymbolRow(line);
    if row.Some? && row.value.Kind() == "4" {
      WriteSymbol(out, row.value);
    }
  }

  /** The statements of one type-4 symbol row (Program.cs:87-96). */
  method WriteSymbol(out: ScriptWriter, m: SymbolMatch)
    requires m.WellFormed()
    modifies out
    ensures out.lines == old(out.lines) + SymbolLines(m)
  {
    SymbolNameTrimmed(m);
    var name := Trim(m.Name());
    var flags := NamingFlags(name);
    out.WriteLine(MakeNameLine(m.Address(), name, FlagsText(flags)));
    if m.after.moduleName.Some? {
      out.WriteLine(MakeCommLine(m.Address(), Trim(m.after.moduleName.value)));
    }
  }

  /** WriteFunctions (Program.cs:64-105). */
  method WriteFunctions(out: ScriptWriter, sections: SectionTable)
    modifies out
    ensures out.lines == old(out.lines) + FunctionsBlock(sections.entries)
  {
    out.WriteLine("static handleFunctions()");
    out.WriteLine("{");
    ghost var start := out.lines;
    assert start == old(out.lines) + FunctionsHeader;
    if SegmentsKey in sections.entries {
      var segments := sections.entries[SegmentsKey];
      for i := 0 to |segments|
        invariant out.lines == start + LayoutsBody(sections.entries, segments[..i])
      {
        ghost var done := out.lines;
        var key := LayoutTitle(segments[i]);
        if key in sections.entries {
          var segmentLines := sections.entries[key];
          for j := 0 to |segmentLines|
            invariant out.lines == done + FlatMap(SymbolRowLines, segmentLines[..j])
          {
            var line := segmentLines[j];
            WriteSymbolRow(out, line);
            FlatMapStep(SymbolRowLines, segmentLines, j);
            ConcatAssoc(done, FlatMap(SymbolRowLines, segmentLines[..j]), SymbolRowLines(line));
          }
          assert segmentLines[..|segmentLines|] == segmentLines;
        }
        assert out.lines == done + LayoutLines(sections.entries, segments[i]);
        assert segments[..i + 1][..i] == segments[..i];
        ConcatAssoc(start, LayoutsBody(sections.entries, segments[..i]), LayoutLines(sections.entries, segments[i]));
      }
      assert segments[..|segments|] == segments;
    }
    assert out.lines == start + FunctionsBody(sections.entries);
    ghost var written := out.lines;
    out.WriteLine("}");
    assert out.lines == written + ["}"];
    ghost var body := FunctionsBody(sections.entries);
    assert FunctionsBlock(sections.entries) == FunctionsHeader + body + ["}"];
    ConcatAssoc(old(out.lines), FunctionsHeader, body);
    ConcatAssoc(old(out.lines), FunctionsHeader + body, ["}"]);
  }

  /** The converter without its file handling: the script written for the lines of a map file. */
  method Convert(lines: seq<string>) returns (script: seq<string>)
    ensures script == Script(lines)
  {
    var table := Splitter.SplitSections(lines);
    var sections := new SectionTable(table);
    var out := new ScriptWriter();
    WriteMain(out);
    assert out.lines == MainTemplate && sections.entries == table;
    WriteSegments(out, sections);
    ghost var segmentsBlock := SegmentsBlock(table);
    assert out.lines == MainTemplate + segmentsBlock;
    WriteFunctions(out, sections);
    script := out.lines;
  }

  /** The main template calls `handleSegments` and then `handleFunctions`, and is five lines long. */
  lemma MainTemplateCalls()
    ensures |MainTemplate| == 5
    ensures MainTemplate[2] == "\thandleSegments();" && MainTemplate[3] == "\thandleFunctions();"
  {
  }

  /** Each row of "Memory map:" yields one `RenameSeg` line and one segment name when it
      matches, and nothing when it does not. */
  lemma SegmentRowOutput(line: string)
    ensures MatchSegmentRow(line).None? <==> SegmentRowLines(line) == []
    ensures MatchSegmentRow(line).None? <==> SegmentRowNames(line) == []
    ensures MatchSegmentRow(line).Some? ==>
      var m := MatchSegmentRow(line).value;
      && SegmentRowLines(line) == [RenameSegLine(m.Start(), m.Name())]
      && SegmentRowNames(line) == [Trim(m.Name())]
  {
  }

  /** `handleSegments` holds one `RenameSeg` line per matching row, in row order, and the
      segment list holds the trimmed names of the same rows in the same order. */
  lemma {:induction false} SegmentRowsAgree(rows: seq<string>)
    ensures var ms := FlatMap(SegmentMatches, rows);
      var out := FlatMap(SegmentRowLines, rows);
      var names := FlatMap(SegmentRowNames, rows);
      && |out| == |ms| && |names| == |ms|
      && forall k :: 0 <= k < |ms| ==>
           && ms[k].WellFormed() && ms[k].Text() in rows
           && out[k] == RenameSegLine(ms[k].Start(), ms[k].Name())
           && names[k] == Trim(ms[k].Name())
    decreases |rows|
  {
    if rows != [] {
      var init := rows[..|rows| - 1];
      var last := rows[|rows| - 1];
      SegmentRowsAgree(init);
      assert forall r :: r in init ==> r in rows;
      var ms := FlatMap(SegmentMatches, rows);
      var ms0 := FlatMap(SegmentMatches, init);
      assert ms == ms0 + SegmentMatches(last);
      match MatchSegmentRow(last)
      case None =>
        assert ms == ms0;
      case Some(m) =>
        assert ms == ms0 + [m];
        assert ms[|ms0|] == m;
    }
  }

  /** The match of one row is the one well-formed segment match that covers it. */
  lemma SegmentMatchOfRow(line: string, m: SegmentMatch)
    ensures m in SegmentMatches(line) <==> m.WellFormed() && m.Text() == line
  {
    if m.WellFormed() && m.Text() == line {
      SegmentRowRoundTrip(m);
    }
  }

  /** What `FlatMap` yields is what `f` yields for some row. */
  lemma {:induction false} FlatMapMembers<T, U>(f: T -> seq<U>, xs: seq<T>, y: U)
    ensures y in FlatMap(f, xs) <==> exists x :: x in xs && y in f(x)
    decreases |xs|
  {
    if xs != [] {
      var init := xs[..|xs| - 1];
      var last := xs[|xs| - 1];
      FlatMapMembers(f, init, y);
      assert xs == init + [last];
      if y in f(last) {
        assert last in xs;
      }
      if y in FlatMap(f, init) {
        var x :| x in init && y in f(x);
        assert x in xs;
      }
    }
  }

  /** The matches of the rows of `rows` are exactly the well-formed segment matches
      whose text is one of the rows. */
  lemma SegmentMatchesOfRows(rows: seq<string>, m: SegmentMatch)
    ensures m in FlatMap(SegmentMatches, rows) <==> m.WellFormed() && m.Text() in rows
  {
    FlatMapMembers(SegmentMatches, rows, m);
    SegmentMatchOfRow(m.Text(), m);
    if m in FlatMap(SegmentMatches, rows) {
      var line :| line in rows && m in SegmentMatches(line);
      SegmentMatchOfRow(line, m);
    }
  }

  /** What one row of a section layout yields: nothing unless it matches with type "4";
      then a `MakeNameEx` line with the trimmed name and flags 125 when that name starts
      with '@' and 143 otherwise, followed by a `MakeComm` line exactly when the module
      group matched. */
  lemma SymbolRowOutput(line: string)
    ensures |SymbolRowLines(line)| <= 2
    ensures SymbolRowLines(line) != [] <==>
      MatchSymbolRow(line).Some? && MatchSymbolRow(line).value.Kind() == "4"
    ensures SymbolRowLines(line) != [] ==>
      var m := MatchSymbolRow(line).value;
      var name := Trim(m.Name());
      var out := SymbolRowLines(line);
      && name != []
      && out[0] == MakeNameLine(m.Address(), name, if name[0] == '@' then "125" else "143")
      && (|out| == 2 <==> m.after.moduleName.Some?)
      && (|out| == 2 ==> out[1] == MakeCommLine(m.Address(), Trim(m.after.moduleName.value)))
  {
    match MatchSymbolRow(line)
    case None =>
    case Some(m) =>
      if m.Kind() == "4" {
        assert SymbolRowLines(line) == SymbolLines(m);
        SymbolLinesShape(m);
      }
  }

  /** The lines of one type-4 match, spelled out. */
  lemma SymbolLinesShape(m: SymbolMatch)
    requires m.WellFormed()
    ensures var name := Trim(m.Name());
      var out := SymbolLines(m);
      && name != []
      && |out| == (if m.after.moduleName.Some? then 2 else 1)
      && out[0] == MakeNameLine(m.Address(), name, if name[0] == '@' then "125" else "143")
      && (|out| == 2 ==> out[1] == MakeCommLine(m.Address(), Trim(m.after.moduleName.value)))
  {
    SymbolNameTrimmed(m);
    var name := Trim(m.Name());
    assert NamingFlags(name) == 0x125 <==> name[0] == '@';
  }

  /** Symbols are written segment by segment, in the order of the segment list. */
  lemma {:induction false} LayoutsBodyAppend(sections: map<string, seq<string>>, a: seq<string>, b: seq<string>)
    ensures LayoutsBody(sections, a + b) == LayoutsBody(sections, a) + LayoutsBody(sections, b)
    decreases |b|
  {
    if b == [] {
      assert a + b == a;
    } else {
      var b' := b[..|b| - 1];
      var last := LayoutLines(sections, b[|b| - 1]);
      assert (a + b)[..|a + b| - 1] == a + b';
      assert (a + b)[|a + b| - 1] == b[|b| - 1];
      LayoutsBodyAppend(sections, a, b');
      ConcatAssoc(LayoutsBody(sections, a), LayoutsBody(sections, b'), last);
    }
  }

  /** A segment without a section layout adds nothing. */
  lemma SegmentWithoutLayout(sections: map<string, seq<string>>, a: seq<string>, segment: string, b: seq<string>)
    requires LayoutTitle(segment) !in sections
    ensures LayoutsBody(sections, a + [segment] + b) == LayoutsBody(sections, a) + LayoutsBody(sections, b)
  {
    LayoutsBodyAppend(sections, a + [segment], b);
    assert (a + [segment])[..|a|] == a;
  }

  /** The segment list never shadows a section layout: no layout title is "segments". */
  lemma {:induction false} LayoutsIgnoreSegmentList(sections: map<string, seq<string>>, names: seq<string>, segments: seq<string>)
    ensures LayoutsBody(sections[SegmentsKey := names], segments) == LayoutsBody(sections, segments)
    decreases |segments|
  {
    if segments != [] {
      var segment := segments[|segments| - 1];
      assert |LayoutTitle(segment)| != |SegmentsKey|;
      LayoutsIgnoreSegmentList(sections, names, segments[..|segments| - 1]);
    }
  }

  /** With a "Memory map:" section, the script renames its matching rows and then names the
      type-4 symbols of each renamed segment's layout, in segment order. */
  lemma ScriptWithMemoryMap(lines: seq<string>)
    requires MemoryMapTitle in Splitter.Split(lines)
    ensures var sections := Splitter.Split(lines);
      var rows := sections[MemoryMapTitle];
      Script(lines) ==
        MainTemplate
        + (SegmentsHeader + FlatMap(SegmentRowLines, rows) + ["}"])
        + (FunctionsHeader + LayoutsBody(sections, FlatMap(SegmentRowNames, rows)) + ["}"])
  {
    var sections := Splitter.Split(lines);
    var rows := sections[MemoryMapTitle];
    LayoutsIgnoreSegmentList(sections, FlatMap(SegmentRowNames, rows), FlatMap(SegmentRowNames, rows));
  }

  /** A list of segments none of which has a section layout adds nothing. */
  lemma {:induction false} NoLayouts(sections: map<string, seq<string>>, segments: seq<string>)
    requires forall segment :: segment in segments ==> LayoutTitle(segment) !in sections
    ensures LayoutsBody(sections, segments) == []
    decreases |segments|
  {
    if segments != [] {
      var init := segments[..|segments| - 1];
      assert segments[|segments| - 1] in segments;
      assert forall segment :: segment in init ==> segment in segments;
      NoLayouts(sections, init);
    }
  }

  /** Without a "Memory map:" section both routines are empty. An input section titled
      "segments" is then read as the segment list, but its lines are body lines, which
      start with a space, so no section layout title is made from them. */
  lemma ScriptWithoutMemoryMap(lines: seq<string>)
    requires MemoryMapTitle !in Splitter.Split(lines)
    ensures Script(lines) == MainTemplate + (SegmentsHeader + ["}"]) + (FunctionsHeader + ["}"])
  {
    var sections := Splitter.Split(lines);
    if SegmentsKey in sections {
      var segments := sections[SegmentsKey];
      Splitter.SplitSound(lines);
      Splitter.SplitKeysUnpadded(lines);
      forall segment | segment in segments
        ensures LayoutTitle(segment) !in sections
      {
        assert Splitter.IsBodyLine(segment);
        assert LayoutTitle(segment)[0] == ' ';
      }
      NoLayouts(sections, segments);
    }
  }
}
