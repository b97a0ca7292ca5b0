/**
  A worked example: a small map file with one segment and its section
  layout, and the script the converter writes for it.
 */
module Example {
  import opened Text
  import opened Rows
  import Splitter
  import opened Script

  /** The segment row, given by the groups of its pattern. */
  const SegmentRowMatch :=
    SegmentMatch(["   ", ".text", "            ", "80003100", " ", "00010000", " ", "000000a0"], "")

  /** The type-4 symbol row, given by the groups of its pattern. */
  const FuncRowMatch :=
    SymbolMatch(["  ", "80003100", " ", "00000004", " ", "80003100", "  ", "4", " ", "some_func"],
                ModulePart("     ", Some("module.o"), ""))

  /** The type-1 marker row, given by the groups of its pattern. */
  const MarkerRowMatch :=
    SymbolMatch(["  ", "80003100", " ", "00000004", " ", "80003100", "  ", "1", " ", ".text"],
                ModulePart("", None, ""))

  const SegmentRow := SegmentRowMatch.Text()
  const FuncRow := FuncRowMatch.Text()
  const MarkerRow := MarkerRowMatch.Text()

  /** A map file with a "Memory map:" section of one row and a ".text section layout"
      section of two rows, each section followed by a blank line after its title. */
  function MapFileOf(segmentRow: string, funcRow: string, markerRow: string): seq<string> {
    ["Memory map:", "", segmentRow, "", ".text section layout", "", funcRow, markerRow]
  }

  const MapFile := MapFileOf(SegmentRow, FuncRow, MarkerRow)

  /** `Reads` from what it says of each group: a run of its class, not followed by
      another character of that class. */
  lemma {:induction false} ReadsOfGroups(groups: seq<string>, pattern: seq<CharClass>, rest: string)
    requires |groups| == |pattern|
    requires forall i :: 0 <= i < |groups| ==> IsRun(groups[i], pattern[i])
    requires forall i :: 0 <= i < |groups| - 1 ==> StartsOutside(groups[i + 1], pattern[i])
    requires groups != [] ==> StartsOutside(rest, pattern[|groups| - 1])
    ensures Reads(groups, pattern, rest)
    decreases |groups|
  {
    if groups != [] {
      ReadsOfGroups(groups[1..], pattern[1..], rest);
      if |groups| > 1 {
        assert Join(groups[1..]) == groups[1] + Join(groups[2..]);
      } else {
        assert Join(groups[1..]) == [];
      }
    }
  }

  lemma SegmentRowWellFormed()
    ensures SegmentRowMatch.WellFormed()
  {
    ReadsOfGroups(SegmentRowMatch.groups, SegmentPattern, "");
  }

  lemma SegmentRowMatches()
    ensures MatchSegmentRow(SegmentRow) == Some(SegmentRowMatch)
  {
    SegmentRowWellFormed();
    SegmentRowRoundTrip(SegmentRowMatch);
  }

  lemma FuncRowWellFormed()
    ensures FuncRowMatch.WellFormed()
  {
    var after := FuncRowMatch.after;
    assert after.ModuleText() + after.tail == "module.o";
    assert after.WellFormed();
    ReadsOfGroups(FuncRowMatch.groups, SymbolPattern, after.Text());
  }

  lemma FuncRowMatches()
    ensures MatchSymbolRow(FuncRow) == Some(FuncRowMatch)
  {
    FuncRowWellFormed();
    SymbolRowRoundTrip(FuncRowMatch);
  }

  lemma MarkerRowWellFormed()
    ensures MarkerRowMatch.WellFormed()
  {
    var after := MarkerRowMatch.after;
    assert after.ModuleText() + after.tail == "";
    assert after.WellFormed();
    ReadsOfGroups(MarkerRowMatch.groups, SymbolPattern, after.Text());
  }

  lemma MarkerRowMatches()
    ensures MatchSymbolRow(MarkerRow) == Some(MarkerRowMatch)
  {
    MarkerRowWellFormed();
    SymbolRowRoundTrip(MarkerRowMatch);
  }

  /** Reading one more line of `lines` is one more `Step`. */
  lemma RunPrefix(st: Splitter.SplitState, lines: seq<string>, k: nat)
    requires k < |lines|
    ensures Splitter.Run(st, lines[..k + 1]) == Splitter.Step(Splitter.Run(st, lines[..k]), lines[k])
  {
    assert lines[..k + 1][..k] == lines[..k];
  }

  /** The three rows are body lines. */
  lemma RowsAreBodyLines()
    ensures Splitter.IsBodyLine(SegmentRow) && Splitter.IsBodyLine(FuncRow) && Splitter.IsBodyLine(MarkerRow)
  {
    assert SegmentRow[0] == ' ';
    assert FuncRow[0] == ' ';
    assert MarkerRow[0] == ' ';
  }

  /** A body line is buffered. */
  lemma StepBody(st: Splitter.SplitState, line: string)
    requires Splitter.IsBodyLine(line)
    ensures Splitter.Step(st, line) == st.(buffer := st.buffer + [line])
  {
  }

  lemma MapFileFirstLines(f: seq<string>)
    requires |f| == 8 && f[0] == "Memory map:" && f[1] == ""
    ensures Splitter.Run(Splitter.Initial, f[..2]) == Splitter.SplitState("Memory map:", [], map[])
  {
    assert f[..0] == [];
    RunPrefix(Splitter.Initial, f, 0);
    TrimUnpadded("Memory map:");
    RunPrefix(Splitter.Initial, f, 1);
  }

  lemma MapFileMemoryMap(f: seq<string>)
    requires |f| == 8 && f[0] == "Memory map:" && f[1] == "" && Splitter.IsBodyLine(f[2]) && f[3] == ""
    ensures Splitter.Run(Splitter.Initial, f[..4]) == Splitter.SplitState("Memory map:", [], map["Memory map:" := [f[2]]])
  {
    var s1 := Splitter.SplitState("Memory map:", [], map[]);
    MapFileFirstLines(f);
    RunPrefix(Splitter.Initial, f, 2);
    StepBody(s1, f[2]);
    assert [] + [f[2]] == [f[2]];
    assert Splitter.Run(Splitter.Initial, f[..3]) == s1.(buffer := [f[2]]);
    RunPrefix(Splitter.Initial, f, 3);
  }

  lemma MapFileLayoutTitle(f: seq<string>)
    requires |f| == 8 && f[0] == "Memory map:" && f[1] == "" && Splitter.IsBodyLine(f[2]) && f[3] == ""
    requires f[4] == ".text section layout" && f[5] == ""
    ensures Splitter.Run(Splitter.Initial, f[..6]) ==
      Splitter.SplitState(".text section layout", [], map["Memory map:" := [f[2]]])
  {
    MapFileMemoryMap(f);
    RunPrefix(Splitter.Initial, f, 4);
    TrimUnpadded(".text section layout");
    RunPrefix(Splitter.Initial, f, 5);
  }

  /** The map file splits into its two sections. */
  lemma MapFileSplits(segmentRow: string, funcRow: string, markerRow: string)
    requires Splitter.IsBodyLine(segmentRow) && Splitter.IsBodyLine(funcRow) && Splitter.IsBodyLine(markerRow)
    ensures Splitter.Split(MapFileOf(segmentRow, funcRow, markerRow)) ==
      map["Memory map:" := [segmentRow], ".text section layout" := [funcRow, markerRow]]
  {
    var f := MapFileOf(segmentRow, funcRow, markerRow);
    var s6 := Splitter.SplitState(".text section layout", [], map["Memory map:" := [segmentRow]]);
    MapFileLayoutTitle(f);
    RunPrefix(Splitter.Initial, f, 6);
    StepBody(s6, f[6]);
    assert [] + [funcRow] == [funcRow];
    assert Splitter.Run(Splitter.Initial, f[..7]) == s6.(buffer := [funcRow]);
    RunPrefix(Splitter.Initial, f, 7);
    StepBody(s6.(buffer := [funcRow]), f[7]);
    assert [funcRow] + [markerRow] == [funcRow, markerRow];
    assert f[..8] == f;
    assert Splitter.Run(Splitter.Initial, f) == s6.(buffer := [funcRow, markerRow]);
  }

  /** The statements of the example script, spelled out. */
  lemma ExampleStatements()
    ensures RenameSegLine("80003100", ".text") == "\tRenameSeg(0x80003100, \".text\");"
    ensures MakeNameLine("80003100", "some_func", "143") == "\tMakeNameEx(0x80003100, \"some_func\", 0x143);"
    ensures MakeCommLine("80003100", "module.o") == "\tMakeComm(0x80003100, \"module.o\");"
  {
    RenameStatement();
    NameStatement();
    CommentStatement();
  }

  lemma RenameStatement()
    ensures RenameSegLine("80003100", ".text") == "\tRenameSeg(0x80003100, \".text\");"
  {
  }

  lemma NameStatement()
    ensures MakeNameLine("80003100", "some_func", "143") == "\tMakeNameEx(0x80003100, \"some_func\", 0x143);"
  {
  }

  lemma CommentStatement()
    ensures MakeCommLine("80003100", "module.o") == "\tMakeComm(0x80003100, \"module.o\");"
  {
  }

  lemma TextLayoutTitle()
    ensures LayoutTitle(".text") == ".text section layout"
  {
  }

  lemma FlatMapOne<T, U>(f: T -> seq<U>, a: T)
    ensures FlatMap(f, [a]) == f(a)
  {
    assert [a][..0] == [];
  }

  lemma FlatMapTwo<T, U>(f: T -> seq<U>, a: T, b: T)
    ensures FlatMap(f, [a, b]) == f(a) + f(b)
  {
    assert [a, b][..1] == [a];
    FlatMapOne(f, a);
  }

  /** The names in the example have no surrounding whitespace. */
  lemma ExampleTrims()
    ensures Trim(".text") == ".text" && Trim("some_func") == "some_func" && Trim("module.o") == "module.o"
  {
    TrimSegmentName();
    TrimSymbolName();
    TrimModuleName();
  }

  lemma TrimSegmentName() ensures Trim(".text") == ".text" { TrimUnpadded(".text"); }
  lemma TrimSymbolName() ensures Trim("some_func") == "some_func" { TrimUnpadded("some_func"); }
  lemma TrimModuleName() ensures Trim("module.o") == "module.o" { TrimUnpadded("module.o"); }

  /** The segment row renames `.text` at 80003100. */
  lemma SegmentRowOutputExample(line: string)
    requires MatchSegmentRow(line) == Some(SegmentRowMatch)
    ensures SegmentRowLines(line) == ["\tRenameSeg(0x80003100, \".text\");"]
    ensures SegmentRowNames(line) == [".text"]
  {
    var m := SegmentRowMatch;
    assert m.Start() == "80003100" && m.Name() == ".text";
    assert SegmentRowLines(line) == [RenameSegLine("80003100", ".text")];
    ExampleStatements();
    ExampleTrims();
    assert SegmentRowNames(line) == [Trim(".text")];
  }

  /** The groups of the type-4 row that the script uses. */
  lemma FuncRowFields()
    ensures |FuncRowMatch.groups| == |SymbolPattern|
    ensures FuncRowMatch.Kind() == "4" && FuncRowMatch.Address() == "80003100"
    ensures FuncRowMatch.Name() == "some_func" && FuncRowMatch.after.moduleName == Some("module.o")
  {
  }

  /** The groups of the type-1 row that the script uses. */
  lemma MarkerRowFields()
    ensures |MarkerRowMatch.groups| == |SymbolPattern| && MarkerRowMatch.Kind() == "1"
  {
  }

  /** A type-4 row whose trimmed name does not start with '@' and whose module group
      matched yields its `MakeNameEx` line with flags 0x143 and its `MakeComm` line. */
  lemma PlainSymbolRowOutput(line: string, m: SymbolMatch, address: string, name: string, moduleName: string)
    requires MatchSymbolRow(line) == Some(m) && |m.groups| == |SymbolPattern|
    requires m.Kind() == "4" && m.Address() == address && Trim(m.Name()) == name
    requires name != [] && name[0] != '@' && m.after.moduleName == Some(moduleName)
    ensures SymbolRowLines(line) == [MakeNameLine(address, name, "143"), MakeCommLine(address, Trim(moduleName))]
  {
    SymbolRowOutput(line);
  }

  /** The type-4 row names `some_func` with flags 0x143 and comments it with `module.o`. */
  lemma FuncRowOutputExample(line: string)
    requires MatchSymbolRow(line) == Some(FuncRowMatch)
    ensures SymbolRowLines(line) ==
      ["\tMakeNameEx(0x80003100, \"some_func\", 0x143);", "\tMakeComm(0x80003100, \"module.o\");"]
  {
    FuncRowFields();
    ExampleTrims();
    PlainSymbolRowOutput(line, FuncRowMatch, "80003100", "some_func", "module.o");
    ExampleStatements();
  }

  /** The type-1 row yields nothing. */
  lemma MarkerRowOutputExample(line: string)
    requires MatchSymbolRow(line) == Some(MarkerRowMatch)
    ensures SymbolRowLines(line) == []
  {
    MarkerRowFields();
    SymbolRowOutput(line);
  }

  /** The script for a map file of this shape, in terms of what its rows yield. */
  lemma MapFileOfScript(segmentRow: string, funcRow: string, markerRow: string)
    requires Splitter.IsBodyLine(segmentRow) && Splitter.IsBodyLine(funcRow) && Splitter.IsBodyLine(markerRow)
    requires SegmentRowNames(segmentRow) == [".text"]
    ensures Script.Script(MapFileOf(segmentRow, funcRow, markerRow)) ==
      MainTemplate
      + (SegmentsHeader + SegmentRowLines(segmentRow) + ["}"])
      + (FunctionsHeader + (SymbolRowLines(funcRow) + SymbolRowLines(markerRow)) + ["}"])
  {
    var lines := MapFileOf(segmentRow, funcRow, markerRow);
    MapFileSplits(segmentRow, funcRow, markerRow);
    var sections := Splitter.Split(lines);
    ScriptWithMemoryMap(lines);
    assert sections[MemoryMapTitle] == [segmentRow];
    FlatMapOne(SegmentRowLines, segmentRow);
    FlatMapOne(SegmentRowNames, segmentRow);
    var layout := [funcRow, markerRow];
    FlatMapTwo(SymbolRowLines, funcRow, markerRow);
    TextLayoutTitle();
    assert sections[LayoutTitle(".text")] == layout;
    assert [".text"][..0] == [];
    assert LayoutsBody(sections, [".text"]) == FlatMap(SymbolRowLines, layout);
  }

  /** The example script laid out line by line. */
  lemma ExampleLayout(rename: string, name: string, comment: string)
    ensures MainTemplate + (SegmentsHeader + [rename] + ["}"]) + (FunctionsHeader + ([name, comment] + []) + ["}"]) ==
      MainTemplate + ["static handleSegments()", "{", rename, "}", "static handleFunctions()", "{", name, comment, "}"]
  {
  }

  /** The script for the map file: `.text` is renamed at 80003100, `some_func` is named there
      with flags 0x143 and commented with `module.o`, and the type-1 row yields nothing. */
  lemma MapFileScript()
    ensures Script.Script(MapFile) == MainTemplate + [
      "static handleSegments()", "{",
      "\tRenameSeg(0x80003100, \".text\");",
      "}",
      "static handleFunctions()", "{",
      "\tMakeNameEx(0x80003100, \"some_func\", 0x143);",
      "\tMakeComm(0x80003100, \"module.o\");",
      "}"]
  {
    RowsAreBodyLines();
    SegmentRowMatches();
    FuncRowMatches();
    MarkerRowMatches();
    SegmentRowOutputExample(SegmentRow);
    FuncRowOutputExample(FuncRow);
    MarkerRowOutputExample(MarkerRow);
    MapFileOfScript(SegmentRow, FuncRow, MarkerRow);
    ExampleLayout("\tRenameSeg(0x80003100, \".text\");",
                  "\tMakeNameEx(0x80003100, \"some_func\", 0x143);",
                  "\tMakeComm(0x80003100, \"module.o\");");
  }
}
