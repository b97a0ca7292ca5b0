/**
  The section splitter of the converter: it cuts the lines of a linker map
  file into titled sections.  A blank line commits the buffered body lines
  under the current title, a line that does not start with a space becomes
  the current title, every other line is buffered as it is, and whatever is
  still buffered at the end is committed too.
 */
module Splitter {
  import opened Text

  /** A line that does not start with a space: it becomes the current title. */
  predicate IsTitleLine(line: string) {
    line != [] && line[0] != ' '
  }

  /** A line that starts with a space: it is buffered as a body line. */
  predicate IsBodyLine(line: string) {
    line != [] && line[0] == ' '
  }

  /** The variables of the splitter's loop: the current title, the buffered
      body lines and the sections committed so far. */
  datatype SplitState = SplitState(title: string, buffer: seq<string>, sections: map<string, seq<string>>)

  /** The state before the first line: no title yet, nothing buffered, nothing committed. */
  const Initial := SplitState("", [], map[])

  /** What one line does to the state. */
  function Step(st: SplitState, line: string): SplitState {
    if line == [] then
      if st.buffer != [] then SplitState(st.title, [], st.sections[st.title := st.buffer]) else st
    else if line[0] != ' ' then
      st.(title := Trim(line))
    else
      st.(buffer := st.buffer + [line])
  }

  /** The state after the lines of `lines`, read in order, starting from `st`. */
  function Run(st: SplitState, lines: seq<string>): SplitState
    decreases |lines|
  {
    if lines == [] then st else Step(Run(st, lines[..|lines| - 1]), lines[|lines| - 1])
  }

  /** The sections once whatever is still buffered has been committed. */
  function Flush(st: SplitState): map<string, seq<string>> {
    if st.buffer != [] then st.sections[st.title := st.buffer] else st.sections
  }

  /** The sections of a map file, as a function of its lines. */
  function Split(lines: seq<string>): map<string, seq<string>> {
    Flush(Run(Initial, lines))
  }

  /** SplitSections (Program.cs:106-138). */
  method SplitSections(lines: seq<string>) returns (ret: map<string, seq<string>>)
    ensures ret == Split(lines)
  {
    ret := map[];
    var currentSegmentEntries: seq<string> := [];
    var currentSegment := "";
    for i := 0 to |lines|
      invariant Run(Initial, lines[..i]) == SplitState(currentSegment, currentSegmentEntries, ret)
    {
      var line := lines[i];
      if line == "" {
        if |currentSegmentEntries| > 0 {
          ret := ret[currentSegment := currentSegmentEntries];
          currentSegmentEntries := [];
        }
      } else if line[0] != ' ' {
        currentSegment := Trim(line);
      } else {
        currentSegmentEntries := currentSegmentEntries + [line];
      }
      assert lines[..i + 1][..i] == lines[..i];
    }
    assert lines[..|lines|] == lines;
    if |currentSegmentEntries| > 0 {
      ret := ret[currentSegment := currentSegmentEntries];
    }
  }

  /** Reading `a` and then `b` is reading `a + b`. */
  lemma {:induction false} RunAppend(st: SplitState, a: seq<string>, b: seq<string>)
    ensures Run(st, a + b) == Run(Run(st, a), b)
    decreases |b|
  {
    if b == [] {
      assert a + b == a;
    } else {
      var b' := b[..|b| - 1];
      assert (a + b)[..|a + b| - 1] == a + b';
      RunAppend(st, a, b');
    }
  }

  /** The trimmed titles of the title lines of `lines`, and the initial title "". */
  function Titles(lines: seq<string>): set<string>
    decreases |lines|
  {
    if lines == [] then {""}
    else
      var last := lines[|lines| - 1];
      Titles(lines[..|lines| - 1]) + (if IsTitleLine(last) then {Trim(last)} else {})
  }

  /** What holds of the state after reading `lines`: the title is one of theirs,
      everything buffered or committed is one of their body lines, and nothing
      committed is empty. */
  ghost predicate Sound(st: SplitState, lines: seq<string>) {
    && st.title in Titles(lines)
    && (forall line :: line in st.buffer ==> line in lines && IsBodyLine(line))
    && (forall k :: k in st.sections ==>
          && k in Titles(lines)
          && st.sections[k] != []
          && (forall line :: line in st.sections[k] ==> line in lines && IsBodyLine(line)))
  }

  lemma {:induction false} RunSound(lines: seq<string>)
    ensures Sound(Run(Initial, lines), lines)
    decreases |lines|
  {
    if lines != [] {
      var init := lines[..|lines| - 1];
      RunSound(init);
      StepSound(Run(Initial, init), init, lines[|lines| - 1]);
      assert init + [lines[|lines| - 1]] == lines;
    }
  }

  lemma StepSound(st: SplitState, lines: seq<string>, line: string)
    requires Sound(st, lines)
    ensures Sound(Step(st, line), lines + [line])
  {
    var more := lines + [line];
    assert more[..|more| - 1] == lines;
    assert Titles(lines) <= Titles(more);
    assert forall l :: l in lines ==> l in more;
    var next := Step(st, line);
    if line == [] {
      if st.buffer != [] {
        assert next.sections == st.sections[st.title := st.buffer];
      }
    } else if line[0] != ' ' {
      assert Trim(line) in Titles(more);
    } else {
      assert next.buffer == st.buffer + [line];
    }
  }

  /** Every committed section is non-empty, is keyed by the initial title "" or the
      trimmed text of a title line, and holds only body lines of the input. */
  lemma SplitSound(lines: seq<string>)
    ensures forall k :: k in Split(lines) ==>
      && k in Titles(lines)
      && Split(lines)[k] != []
      && (forall line :: line in Split(lines)[k] ==> line in lines && IsBodyLine(line))
  {
    RunSound(lines);
  }

  /** No title starts with whitespace: each is "" or a trimmed line. */
  lemma {:induction false} TitlesUnpadded(lines: seq<string>)
    ensures forall k :: k in Titles(lines) ==> k == [] || !IsWhiteSpace(k[0])
    decreases |lines|
  {
    if lines != [] {
      TitlesUnpadded(lines[..|lines| - 1]);
    }
  }

  /** No stored section is keyed by a string that starts with whitespace. */
  lemma SplitKeysUnpadded(lines: seq<string>)
    ensures forall k :: k in Split(lines) ==> k == [] || !IsWhiteSpace(k[0])
  {
    SplitSound(lines);
    TitlesUnpadded(lines);
  }

  /** A second blank line right after a blank line changes nothing. */
  lemma BlankLinesIdempotent(a: seq<string>, b: seq<string>)
    ensures Split(a + ["", ""] + b) == Split(a + [""] + b)
  {
    RunAppend(Initial, a + ["", ""], b);
    RunAppend(Initial, a + [""], b);
    assert (a + ["", ""])[..|a| + 1] == a + [""];
    assert (a + [""])[..|a|] == a;
  }

  /** Blank lines read while nothing is buffered change nothing, so the blank line
      that a map file puts between a section title and its body is harmless. */
  lemma {:induction false} BlanksWhileEmpty(st: SplitState, blanks: seq<string>)
    requires st.buffer == []
    requires forall line :: line in blanks ==> line == []
    ensures Run(st, blanks) == st
    decreases |blanks|
  {
    if blanks != [] {
      var init := blanks[..|blanks| - 1];
      assert blanks[|blanks| - 1] in blanks;
      assert forall line :: line in init ==> line in blanks;
      BlanksWhileEmpty(st, init);
    }
  }

  /** A title line right after body lines does not commit them: it only changes the
      title, so the next blank line (or the end of the input) stores everything buffered,
      the new body lines included, under the new title.  The splitter keeps this
      behaviour; see the README. */
  lemma TitleAfterBody(st: SplitState, body: seq<string>, title: string)
    requires forall line :: line in body ==> IsBodyLine(line)
    requires IsTitleLine(title)
    ensures Run(st, body + [title]) == SplitState(Trim(title), st.buffer + body, st.sections)
    ensures st.buffer + body != [] ==>
      Run(st, body + [title, ""]) == SplitState(Trim(title), [], st.sections[Trim(title) := st.buffer + body])
  {
    RunAppend(st, body, [title]);
    RunBody(st, body);
    assert [title][..0] == [];
    RunAppend(st, body + [title], [""]);
    assert [""][..0] == [];
    assert body + [title] + [""] == body + [title, ""];
  }

  /** The smallest instance: a title, one body line, a second title and a blank line
      store the body line under the second title only. */
  lemma TitleAfterBodyMisattributes(first: string, body: string, second: string)
    requires IsTitleLine(first) && IsBodyLine(body) && IsTitleLine(second)
    ensures Split([first, body, second, ""]) == map[Trim(second) := [body]]
  {
    var st := Run(Initial, [first]);
    assert [first][..0] == [];
    assert st == Step(Run(Initial, []), first);
    assert st.buffer == [] && st.sections == map[];
    var rest := [body] + [second, ""];
    TitleAfterBody(st, [body], second);
    assert st.buffer + [body] == [body];
    RunAppend(Initial, [first], rest);
    FourLines(first, body, second, "");
  }

  lemma FourLines(a: string, b: string, c: string, d: string)
    ensures [a] + ([b] + [c, d]) == [a, b, c, d]
  {
  }

  /** A section of a well-formed map file: a title line and the body lines under it. */
  datatype Section = Section(title: string, body: seq<string>)

  predicate WellFormedSection(s: Section) {
    IsTitleLine(s.title) && forall line :: line in s.body ==> IsBodyLine(line)
  }

  /** The lines of one section followed by the blank line that ends it. */
  function SectionLines(s: Section): seq<string> {
    [s.title] + s.body + [""]
  }

  /** The lines of a well-formed map file, section after section. */
  function Layout(secs: seq<Section>): seq<string>
    decreases |secs|
  {
    if secs == [] then [] else Layout(secs[..|secs| - 1]) + SectionLines(secs[|secs| - 1])
  }

  /** The sections `secs` should produce on top of `m`: each non-empty section in turn
      is stored under its trimmed title, a later one replacing an earlier one. */
  function Expected(m: map<string, seq<string>>, secs: seq<Section>): map<string, seq<string>>
    decreases |secs|
  {
    if secs == [] then m
    else
      var before := Expected(m, secs[..|secs| - 1]);
      var s := secs[|secs| - 1];
      if s.body != [] then before[Trim(s.title) := s.body] else before
  }

  /** A non-empty sequence is its prefix followed by its last element. */
  lemma InitLast<T>(xs: seq<T>)
    requires xs != []
    ensures xs == xs[..|xs| - 1] + [xs[|xs| - 1]]
    ensures forall x :: x in xs <==> x in xs[..|xs| - 1] || x == xs[|xs| - 1]
  {
    assert xs == xs[..|xs| - 1] + [xs[|xs| - 1]];
  }

  /** Body lines are buffered in order and touch nothing else. */
  lemma {:induction false} RunBody(st: SplitState, body: seq<string>)
    requires forall line :: line in body ==> IsBodyLine(line)
    ensures Run(st, body) == st.(buffer := st.buffer + body)
    decreases |body|
  {
    if body != [] {
      var init := body[..|body| - 1];
      var last := body[|body| - 1];
      InitLast(body);
      assert last in body;
      RunBody(st, init);
      assert st.buffer + init + [last] == st.buffer + (init + [last]);
    }
  }

  /** One well-formed section read with nothing buffered commits its body, if any,
      under its trimmed title. */
  lemma RunSection(st: SplitState, s: Section)
    requires st.buffer == [] && WellFormedSection(s)
    ensures Run(st, SectionLines(s)) ==
      SplitState(Trim(s.title), [], if s.body != [] then st.sections[Trim(s.title) := s.body] else st.sections)
  {
    var st1 := Step(st, s.title);
    assert [s.title][..0] == [];
    assert Run(st, [s.title]) == st1;
    RunAppend(st, [s.title], s.body);
    RunBody(st1, s.body);
    var st2 := Run(st, [s.title] + s.body);
    assert st2 == st1.(buffer := s.body);
    RunAppend(st, [s.title] + s.body, [""]);
    assert [""][..0] == [];
    assert Run(st2, [""]) == Step(st2, "");
  }

  lemma {:induction false} RunLayout(st: SplitState, secs: seq<Section>)
    requires st.buffer == []
    requires forall s :: s in secs ==> WellFormedSection(s)
    ensures Run(st, Layout(secs)).buffer == []
    ensures Run(st, Layout(secs)).sections == Expected(st.sections, secs)
    decreases |secs|
  {
    if secs != [] {
      var init := secs[..|secs| - 1];
      assert forall s :: s in init ==> s in secs;
      RunLayout(st, init);
      RunAppend(st, Layout(init), SectionLines(secs[|secs| - 1]));
      RunSection(Run(st, Layout(init)), secs[|secs| - 1]);
    }
  }

  /** A well-formed map file splits into exactly its non-empty sections, each
      holding its body lines in order, a repeated title keeping the later body. */
  lemma SplitLayout(secs: seq<Section>)
    requires forall s :: s in secs ==> WellFormedSection(s)
    ensures Split(Layout(secs)) == Expected(map[], secs)
  {
    RunLayout(Initial, secs);
  }

  /** A last section with no blank line after it is still committed. */
  lemma SplitTrailingSection(secs: seq<Section>, last: Section)
    requires forall s :: s in secs ==> WellFormedSection(s)
    requires WellFormedSection(last) && last.body != []
    ensures Split(Layout(secs) + [last.title] + last.body) == Expected(map[], secs)[Trim(last.title) := last.body]
  {
    RunLayout(Initial, secs);
    var st := Run(Initial, Layout(secs));
    RunAppend(Initial, Layout(secs), [last.title]);
    assert [last.title][..0] == [];
    assert Run(st, [last.title]) == Step(st, last.title);
    RunAppend(Initial, Layout(secs) + [last.title], last.body);
    RunBody(Step(st, last.title), last.body);
    var fin := Run(Initial, Layout(secs) + [last.title] + last.body);
    assert fin == SplitState(Trim(last.title), last.body, st.sections);
  }

  /** The expected sections are keyed by the trimmed titles of the non-empty sections. */
  lemma {:induction false} ExpectedKeys(secs: seq<Section>)
    ensures Expected(map[], secs).Keys == set s | s in secs && s.body != [] :: Trim(s.title)
    decreases |secs|
  {
    if secs != [] {
      var init := secs[..|secs| - 1];
      ExpectedKeys(init);
      InitLast(secs);
    }
  }
}
