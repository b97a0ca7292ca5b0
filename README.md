# map2idc in Dafny

map2idc converts the text memory-map report of a linker (a `.map` file) into an
IDA IDC script. It has two stages.

1. **Splitting.** The converter cuts the lines of the map file into titled sections:
   - a line that does not start with a space names the current section (trimmed);
   - lines that start with a space are collected under it;
   - a blank line, or the end of the file, stores what was collected.
2. **Writing.** It writes an IDC script of three routines:
   - `main`, which calls the other two;
   - `handleSegments`, with one `RenameSeg(0x<start>, "<name>")` per segment row of
     the `Memory map:` section. The trimmed segment names are also kept in a list
     stored under the key `"segments"`;
   - `handleFunctions`, which walks that list in order. For each segment it reads
     the `<segment> section layout` section, and for every row of type `4` it writes
     `MakeNameEx(0x<address>, "<name>", 0x<flags>)`. The flags are 0x125 for a name
     starting with `@` and 0x143 otherwise. A `MakeComm(0x<address>, "<module>")`
     follows when the row names a module.

The model has five modules, one file each:

- `text.dfy` (**Text**): the whitespace of .NET's `Char.IsWhiteSpace`, the character
  classes of the row patterns, maximal runs of a class (`Span`), `String.Trim`, and
  hexadecimal values.
- `rows.dfy` (**Rows**): the two row regular expressions, each as a tokenizer.
  - Each tokenizer reads every group as the longest run of its class, starting at
    the first character of the line.
  - It keeps every group, separators included, so a match turns back into its line.
  - The round-trip lemmas prove that `MatchSegmentRow(line) == Some(m)` holds exactly
    when `m` is well formed and `m.Text() == line`; the same holds for symbol rows.
- `splitter.dfy` (**Splitter**): the section splitter.
  - `SplitSections` keeps the loop of the source.
  - It is proved equal to the functional definition `Split` (a fold of `Step`, then
    `Flush`).
  - Its properties are proved about `Split`: soundness, blank lines, well-formed
    files and trailing sections.
- `script.dfy` (**Script**): the emitters.
  - `ScriptWriter` is the output stream; its field `lines` is what has been written
    so far.
  - `SectionTable` is the dictionary of sections; `WriteSegments` adds the segment
    list to it in place.
  - `WriteMain`, `WriteSegments` and `WriteFunctions` keep the loops of the source.
    Each is proved to append exactly the lines given by a specification function
    (`MainTemplate`, `SegmentsBlock`, `FunctionsBlock`).
  - `Convert` runs the three emitters in `Main`'s order and is proved to yield
    `Script(lines)`.
  - The properties of the script are proved about those functions.
- `example.dfy` (**Example**): a map file with one segment. The lemmas give both its
  exact sections and its exact script.

Three behaviours of the code worth knowing:
- The `RenameSeg` line carries the segment name as matched, untrimmed
  (Program.cs:55). Only the copy kept in the segment list is trimmed (Program.cs:56).
- A title line met while body lines are buffered changes the title first. The
  buffered lines are then stored under the *new* title when the next blank line comes
  (Program.cs:122-129); `Splitter.TitleAfterBody` states this for any state and any
  run of body lines, and `Splitter.TitleAfterBodyMisattributes` for a four-line file.
- In `\s*(?<module>.+)?`, a name followed only by whitespace leaves the module group
  unmatched. The regex engine's greedy `\s*` takes all of the whitespace, and the
  optional group then matches nothing, so no `MakeComm` line is written. The model
  does the same (`Rows.ReadModuleGroup`).

## Model

| member | source | states |
|---|---|---|
| `Text.Trim` | Program.cs:124 | the result is no longer than the input and starts and ends with a non-whitespace character (or is empty) |
| `Text.TrimCuts` | Program.cs:124 | the trimmed text is the slice of the input between a leading and a trailing whitespace run |
| `Text.TrimUnpadded` | Program.cs:124 | a string that neither starts nor ends with whitespace is left unchanged |
| `Text.TrimIdempotent` | Program.cs:124 | trimming twice is trimming once |
| `Text.TrimKeepsHead` | Program.cs:87-89 | a string starting with a non-whitespace character keeps its first character, so trimming cannot empty it |
| `Text.Span` | Program.cs:52 | the maximal run: at most the whole string, every character before it is in the class, and the next one is not |
| `Rows.Token` | Program.cs:52 | a group `k+` is taken exactly when the text starts with class `k`; it is a maximal non-empty run, and with the rest it gives back the text |
| `Rows.TokenOfRun` | Program.cs:52 | a run of `k` followed by a character outside `k` is exactly what `Token` takes |
| `Rows.ScanPattern` | Program.cs:52 | a successful scan yields groups that fit the pattern and, with the rest, make up the input |
| `Rows.ScanRoundTrip` | Program.cs:52 | every sequence of groups that fits a pattern is read back exactly by the scan |
| `Rows.MatchSegmentRow` | Program.cs:52 | a match of the segment-row pattern is well formed and covers its line |
| `Rows.SegmentRowRoundTrip` | Program.cs:52 | every well-formed segment match is what the tokenizer returns for its own text |
| `Rows.ReadModule` | Program.cs:80 | `\s*(?<module>.+)?` always succeeds, yields a well-formed remainder, and gives back its input |
| `Rows.ReadModuleGroup` | Program.cs:80 | the module group matches exactly when any text follows the whitespace gap, and then takes the longest run up to a newline |
| `Rows.ModuleRoundTrip` | Program.cs:80 | every well-formed remainder is read back exactly |
| `Rows.MatchSymbolRow` | Program.cs:80 | a match of the symbol-row pattern is well formed and covers its line |
| `Rows.SymbolRowRoundTrip` | Program.cs:80 | every well-formed symbol match is what the tokenizer returns for its own text |
| `Rows.SymbolNameTrimmed` | Program.cs:87-89 | the trimmed name of a row the tokenizer matches is never empty and starts with the name's first character, so on those rows `name[0]` is always defined |
| `Splitter.SplitSections` | Program.cs:106-138 | the loop returns exactly the sections `Split` defines for the same lines |
| `Splitter.RunAppend` | Program.cs:111-130 | reading two runs of lines one after the other is reading their concatenation |
| `Splitter.RunSound` | Program.cs:111-130 | after any prefix of the input, the title is the initial or a trimmed title, every buffered or stored line is a body line of the input, and no stored section is empty |
| `Splitter.StepSound` | Program.cs:113-129 | one more line keeps that invariant |
| `Splitter.SplitSound` | Program.cs:114-135 | every stored section is non-empty, keyed by `""` or a trimmed title line, and holds only body lines of the input |
| `Splitter.BlankLinesIdempotent` | Program.cs:114-121 | a second blank line right after a blank line changes nothing |
| `Splitter.TitlesUnpadded` | Program.cs:122-125 | every title is `""` or a trimmed line, so none starts with whitespace |
| `Splitter.SplitKeysUnpadded` | Program.cs:118-134 | no stored section is keyed by a string that starts with whitespace |
| `Splitter.BlanksWhileEmpty` | Program.cs:114-121 | blank lines read while nothing is buffered leave the whole state unchanged, such as the blank line between a title and its body |
| `Splitter.TitleAfterBody` | Program.cs:122-129 | from any state, a run of body lines followed by a title line only buffers the lines and changes the title; the next blank line stores everything buffered under the new title |
| `Splitter.TitleAfterBodyMisattributes` | Program.cs:122-129 | a title, a body line, a second title and a blank line store the body line under the second title only |
| `Splitter.RunBody` | Program.cs:126-129 | body lines are buffered verbatim and in order, and nothing else changes |
| `Splitter.RunSection` | Program.cs:113-121 | a title, its body lines and a blank line store the body under the trimmed title, and nothing when the body is empty |
| `Splitter.RunLayout` | Program.cs:111-130 | a file of well-formed sections leaves nothing buffered, and stores the sections one after the other |
| `Splitter.SplitLayout` | Program.cs:106-138 | a well-formed map file splits into exactly its non-empty sections; each holds its body lines in order, and a repeated title keeps the later body |
| `Splitter.SplitTrailingSection` | Program.cs:132-135 | a last section with no blank line after it is still stored |
| `Splitter.ExpectedKeys` | Program.cs:118 | the stored titles are exactly the trimmed titles of the non-empty sections |
| `Script.ScriptWriter.WriteLine` | Program.cs:31 | the stream gains the line at its end |
| `Script.NamingFlags` | Program.cs:88-92 | the flags are 0x125 exactly when the name starts with `@`, and 0x143 exactly when it does not |
| `Script.FlagsText` | Program.cs:94 | the flags are written as lowercase hexadecimal digits with no leading zero, denoting the flags' value |
| `Script.FlatMapAppend` | Program.cs:50-58 | rows are mapped in order: mapping the concatenation of two runs of rows is concatenating their images |
| `Script.FlatMapMembers` | Program.cs:50-58 | an element is in the mapped rows exactly when it comes from one of the rows |
| `Script.WriteMain` | Program.cs:29-39 | the stream gains exactly the five lines of the `main` template |
| `Script.MainTemplateCalls` | Program.cs:29-39 | the template is five lines long and calls `handleSegments` and then `handleFunctions` |
| `Script.WriteSegments` | Program.cs:40-63 | the stream gains the `handleSegments` header, one `RenameSeg` per matching row in row order, and `}`. The dictionary gains the trimmed names under `"segments"` exactly when `Memory map:` is present |
| `Script.SegmentRowOutput` | Program.cs:52-57 | a row writes and records nothing exactly when it does not match. A matching row writes `RenameSeg(0x<start>, "<name>")` and records the trimmed name |
| `Script.SegmentRowsAgree` | Program.cs:50-59 | the `RenameSeg` lines and the segment list both follow the matching rows one for one and in order: the same count, with the start and name of the same row |
| `Script.SegmentMatchOfRow` | Program.cs:52-53 | a segment match is the one a row yields exactly when it is well formed and covers that row |
| `Script.SegmentMatchesOfRows` | Program.cs:50-53 | the matches a section yields are exactly the well-formed matches whose text is one of its rows |
| `Script.WriteSymbolRow` | Program.cs:80-98 | a layout row appends exactly what `SymbolRowLines` gives for it |
| `Script.WriteSymbol` | Program.cs:87-96 | a type-4 row appends its `MakeNameEx` line and, when the module matched, its `MakeComm` line |
| `Script.SymbolRowOutput` | Program.cs:80-96 | a row writes nothing unless it matches with type exactly `4`. Then it writes one `MakeNameEx` with the address, the trimmed name and flags `125` for `@` or `143` otherwise. That line is followed by `MakeComm` with the trimmed module exactly when the module group matched |
| `Script.SymbolLinesShape` | Program.cs:87-96 | the lines of one type-4 match: one or two, the second exactly when the module matched |
| `Script.WriteFunctions` | Program.cs:64-105 | the stream gains the `handleFunctions` header, the layouts of the listed segments in list order, and `}` |
| `Script.LayoutsBodyAppend` | Program.cs:73-77 | symbols are written segment by segment in the order of the segment list |
| `Script.SegmentWithoutLayout` | Program.cs:75-76 | a segment whose section layout is absent adds nothing |
| `Script.LayoutsIgnoreSegmentList` | Program.cs:59-76 | storing the segment list under `"segments"` cannot hide a section layout, since no layout title is `"segments"` |
| `Script.Convert` | Program.cs:15-26 | splitting, then writing `main`, `handleSegments` and `handleFunctions` to one stream, yields `Script(lines)` |
| `Script.ScriptWithMemoryMap` | Program.cs:47-71 | with `Memory map:` present, the script renames its matching rows and then names the symbols of the renamed segments' layouts in segment order |
| `Script.NoLayouts` | Program.cs:73-77 | segments with no section layout among the sections produce no lines |
| `Script.ScriptWithoutMemoryMap` | Program.cs:47-104 | without `Memory map:`, both routines hold only their header and `}`, even when the map file has a section titled `segments` |
| `Example.MapFileSplits` | Program.cs:106-138 | the example map file splits into its `Memory map:` section of one row and its `.text section layout` section of two rows |
| `Example.PlainSymbolRowOutput` | Program.cs:87-96 | a type-4 row whose name does not start with `@` and whose module matched yields flags `143` and a `MakeComm` line |
| `Example.MapFileOfScript` | Program.cs:24-26 | the script of a map file of this shape is the template, the segment row's lines, and the layout rows' lines in order |
| `Example.MapFileScript` | Program.cs:29-105 | the example's script, line by line: `.text` renamed at 80003100, and `some_func` named there with flags 0x143 and commented with `module.o`; the type-1 row yields nothing |

## Left out

- `Main`'s file handling (Program.cs:10-28): reading the map file, the default paths,
  deleting and opening the output file, and the stream. It is file I/O. `Script.Convert`
  takes the lines of the map file and returns the lines of the script instead.
- The regular-expression engine. Both patterns are read from the first character of
  the line, each group taking the longest run of its class. `Regex.Match` is
  unanchored and backtracking: when that first reading fails, it may still find a
  match by giving back characters of a greedy group or by starting later on the line.
  One example is a segment name `[^ ]+` that swallows a tab and the start address.
  The model reports no match in those cases.
- `Rows.MatchSymbolRow`: `\d` is modelled as the ASCII digits, while .NET's `\d`
  accepts every Unicode decimal digit. Only the type text `4` ever produces output,
  either way.
- Strings are sequences of Dafny characters (Unicode scalar values). .NET strings are
  UTF-16 code units. Nothing in the converter depends on the difference except
  surrogate pairs, which none of the classes or literals involve.
- `string.Format` with `{2:x}` is not modelled in general. The flags take only the
  values 0x125 and 0x143, whose lowercase hexadecimal texts `125` and `143` are
  written directly (`Script.FlagsText` proves they denote those values).
- Null lines: `string.IsNullOrEmpty(line)` is modelled as the empty-line test, since
  the lines of a file are never null.
- `RegexOptions.Compiled`, the `ToArray` copies, `List.Clear` and stream flushing
  change no observable result.
- A type-4 row whose name group holds only whitespace other than a space, such as
  `"  0 0 0 4 \t"`. The converter's backtracking matcher accepts it with the name
  `"\t"`, which trims to `""`. The `name[0]` test of Program.cs:89 then throws, the
  conversion stops, and the script is left cut short. The model's tokenizer gives no
  match for such a row and goes on to the next one.
