# pytest fixture report parser — Dafny model

This project models the core of a VS Code extension that offers pytest
fixtures as completions. Everything modelled lives in `src/parse.ts`:

- `parsePytestOutput` reads the text printed by `pytest --fixtures`. Each
  declaration line `name -- path:line` opens a fixture. The indented lines
  after it form that fixture's docstring. A separator line (`--…` or `==…`)
  closes the fixture. So does the next declaration or the end of the report.
- `parseCommand` turns the configured pytest command into a program and its
  arguments. The command is either one string or an array of strings.
- `shouldSuggest` decides whether fixture names should be offered at a cursor
  position on a line of a test file.

The parser is a left fold over the report's lines through a state machine
(`FixtureParser.Step`). Its state is the fixtures emitted so far, the record
in progress and the docstring accumulator.

A record is flushed only when its name, path and line number are all truthy
in JavaScript's sense. An incomplete record is not reset. The next
declaration overwrites its fields, and the docstring gathered so far carries
over to it.

The JavaScript library behaviour the code relies on is written out in
`JsString` and `JsNumber`:

- `indexOf` answers -1 when nothing is found;
- `slice` reads negative positions from the end;
- `substring` and `substr` clamp;
- `trim` and `\s` use the ECMAScript white-space set;
- `split` always yields at least one piece;
- `Number()` and truthiness are modelled as far as the parser needs them.

Modules:

- `Optional`: the option type.
- `JsString`: the JavaScript string library.
- `JsNumber`: `Number()` and truthiness.
- `FixtureParser`: the report parser.
- `ParserProperties`: the whole-report properties and their reference
  definitions.
- `CommandParser`: `parseCommand`.
- `Suggest`: `shouldSuggest`.
- `ReportSamples` and `UsageSamples`: worked examples.

The main whole-report properties are these:

- The fixtures emitted are exactly the declaration lines with three truthy
  fields, in line order, with duplicates kept
  (`ParserProperties.ParseFollowsDeclarations`). This is stated against
  `CompleteDeclarations`, an independent definition that looks at each line
  on its own.
- A docstring is the kept indented lines and the blank lines joined by
  `"\n"`, with leading blank lines dropped and then trimmed
  (`ParserProperties.AccumulateJoin`).
- A docstring is null exactly when no indented line was kept
  (`ParserProperties.DocstringNullExactly`).

The docstring filter keeps a line when `indexOf("no docstring") <= 0`. That
means it keeps a line where the phrase is absent or opens the line, and drops
a line only where the phrase comes later. A line such as `a/b.py:10: no docstring available`, where
the phrase follows the fixture's location, is dropped, and a fixture whose
only docstring line is dropped gets a null docstring
(`FixtureParser.KeptDocLineMeaning`, `ReportSamples.NoDocstringAtStart`,
`ReportSamples.FooWithoutDocstring`).

## Model

| member | source | states |
|---|---|---|
| JsString.IndexOfMeaning | src/parse.ts:33 | `indexOf` answers the first position where the pattern occurs, and -1 exactly when it does not occur |
| JsString.IndexOfChar | src/parse.ts:47-49 | searching for a one-character string gives the first position of that character, or -1 |
| JsString.FirstIndex | src/parse.ts:47-49 | the position found holds the character and none comes before it; -1 exactly when the character is absent |
| JsString.Slice | src/parse.ts:47-48 | `slice(start, end)` is the text between the positions; a negative end counts back from the end of the string; crossed positions give "" |
| JsString.SliceFrom | src/parse.ts:49 | `slice(start)` is the text from `start` to the end, and "" when `start` is past the end |
| JsString.Substring | src/parse.ts:32 | `substring(4)` drops the first four characters and clamps its argument to the string |
| JsString.Substr | src/parse.ts:98 | `substr(0, n)` is the first n characters, clamped to the string, and "" when n is not positive |
| JsString.Trim | src/parse.ts:22 | trimming removes only white space at the two ends; the result is "" exactly when the input is all white space; otherwise it starts and ends with non-white-space |
| JsString.TrimPadded | src/parse.ts:53 | trimming text padded with white space gives back exactly that text |
| JsString.Split | src/parse.ts:21 | `split` gives at least one piece, no piece holds the separator, and joining the pieces gives the input back |
| JsString.SplitJoin | src/parse.ts:86 | splitting separator-free pieces after joining them gives the same pieces |
| JsNumber.ToNumberMeaning | src/parse.ts:49 | `Number()` reads white space alone as 0 and a run of digits as a non-negative integer; it gives NaN exactly when the trimmed text is not an optionally signed run of digits |
| JsNumber.ToNumberDecimal | src/parse.ts:49 | reading back the decimal spelling of a line number gives that number, with or without a minus sign |
| JsNumber.TruthyDecimal | src/parse.ts:51 | a printed line number is truthy exactly when it is not 0 |
| FixtureParser.ParseDeclaration | src/parse.ts:47 | the name read from a declaration line never holds a space |
| FixtureParser.DeclarationName | src/parse.ts:47 | the name is the text before the first space; with no space at all, `slice(0, -1)` drops the last character |
| FixtureParser.DeclarationPath | src/parse.ts:48 | the path runs from the end of the first ` -- ` to the first `:`, holds no `:`, and is "" when the `:` comes first |
| FixtureParser.DeclarationLineNumber | src/parse.ts:49 | the line-number text is what follows the first `:`, or the whole line when there is no `:` |
| FixtureParser.DeclarationSeparators | src/parse.ts:44-49 | in `name -- path:rest` the searches find the space and ` -- ` right after the name and the `:` right after the path |
| FixtureParser.DeclarationRoundTrip | src/parse.ts:42-49 | `name -- path:rest` is read back as name, path and `Number(rest)` when the name has no space or `:` and the path has no `:` |
| FixtureParser.DeclarationLine | src/parse.ts:39-49 | a printed declaration line whose name opens with a word character is read as exactly that declaration |
| FixtureParser.Classify | src/parse.ts:22-39 | a line is blank exactly when it is all white space; a non-blank line opening with four spaces is exactly the docstring line holding the rest; a declaration is exactly a non-blank line opening with a word character; a separator is exactly a line that is none of these and opens with `--` or `==` |
| FixtureParser.WordStartIsNotBlank | src/parse.ts:23-39 | a line opening with a word character is neither blank nor indented, so the declaration branch is reached |
| FixtureParser.KeptDocLineMeaning | src/parse.ts:33 | the filter keeps a docstring line exactly when the phrase is absent or opens the line |
| FixtureParser.Accumulate | src/parse.ts:23-38 | a blank line adds a newline to a non-empty docstring; a kept indented line is appended, after a newline when the docstring is non-empty; anything else leaves the docstring as it was |
| FixtureParser.TrimOrNull | src/parse.ts:53 | `trim() \|\| null` is null exactly when the docstring is all white space; otherwise it is the trimmed text |
| FixtureParser.FlushIfComplete | src/parse.ts:51-57 | a record with three truthy fields is pushed with its docstring, and the state is reset; otherwise nothing changes; well-formedness is kept |
| FixtureParser.Step | src/parse.ts:21-74 | a line adds a fixture exactly when it is a declaration or separator arriving after a complete record; a declaration always becomes the new record; other lines only feed the docstring |
| FixtureParser.ClassifyAllAppend | src/parse.ts:21 | lines are read one at a time, so classifying two runs of lines is classifying each run |
| FixtureParser.DeclarationsAreWordLines | src/parse.ts:39 | the declarations among the classified lines are exactly the lines opening with a word character |
| FixtureParser.Run | src/parse.ts:21-74 | the loop only appends fixtures, at most one per declaration, and keeps every emitted fixture well formed |
| FixtureParser.ParseKinds | src/parse.ts:75-78 | after the final flush there are no more fixtures than declarations, and each fixture is well formed |
| FixtureParser.ParsePytestOutput | src/parse.ts:13-81 | every fixture has a non-empty, space-free name, a non-empty path and a truthy line number; a docstring, when present, is non-empty and trimmed; there are at most as many fixtures as lines opening with a word character |
| ParserProperties.StepKeys | src/parse.ts:51-60 | one line moves the record in progress into the output or replaces it, so emitted plus pending declarations grow by exactly the line's complete declaration |
| ParserProperties.RunKeys | src/parse.ts:21-74 | over a run of lines, emitted plus pending declarations grow by the complete declarations of those lines, in order |
| ParserProperties.FlushKeys | src/parse.ts:75-78 | the final flush moves a complete pending record to the end of the output |
| ParserProperties.ParseFollowsDeclarations | src/parse.ts:13-81 | the fixtures carry, in order, the fields of exactly the declaration lines with three truthy fields; nothing is sorted or deduplicated |
| ParserProperties.KindsFollowDeclarations | src/parse.ts:21-78 | the same property, stated over classified lines |
| ParserProperties.CompleteDeclarationsBound | src/parse.ts:51 | complete declarations are at most all declarations |
| ParserProperties.CompleteDeclarationsEmpty | src/parse.ts:51 | there are no complete declarations exactly when no line is a declaration with three truthy fields |
| ParserProperties.ParseCount | src/parse.ts:13-81 | the number of fixtures is the number of complete declaration lines, and the output is empty exactly when there is none |
| ParserProperties.NoDeclarationLinesNoFixtures | src/parse.ts:39 | a report in which no line opens with a word character has no fixtures |
| ParserProperties.RunAppend | src/parse.ts:21 | running over two runs of lines is running over the first and then the second |
| ParserProperties.RunQuiet | src/parse.ts:23-38 | blank, indented and ignored lines touch only the docstring accumulator |
| ParserProperties.DropLeadingEmptyAppend | src/parse.ts:25-27 | a blank line before any docstring text adds nothing |
| ParserProperties.AccumulateJoin | src/parse.ts:23-38 | the accumulated docstring is the kept pieces joined by "\n", with leading blank pieces dropped |
| ParserProperties.AllWhitespaceConcat | src/parse.ts:53 | text is all white space exactly when both of its parts are |
| ParserProperties.DocstringNullExactly | src/parse.ts:53 | the docstring is null exactly when no indented line was kept; blank lines alone never make one |
| ParserProperties.SectionRun | src/parse.ts:58-60 | after a declaration and quiet lines, that declaration is the record in progress, with the docstring of those lines |
| ParserProperties.SingleFixtureRun | src/parse.ts:75-78 | a complete declaration followed only by quiet lines gives exactly one fixture, with the docstring of those lines |
| ParserProperties.SingleFixtureKinds | src/parse.ts:13-81 | the same fixture, with its docstring spelled as the kept pieces joined by "\n" |
| ParserProperties.ParseJoinedLines | src/parse.ts:21 | a report built by joining newline-free lines is parsed line by line |
| ParserProperties.ReportOfLines | src/parse.ts:21-39 | a report is parsed as the kinds of its lines |
| ParserProperties.SingleFixtureReport | src/parse.ts:13-81 | a report of one complete declaration line followed by quiet lines gives that one fixture |
| ParserProperties.SingleFixtureKindsDocstring | src/parse.ts:53 | in a one-declaration section the docstring is null exactly when no indented line was kept |
| ParserProperties.SingleFixtureDocstring | src/parse.ts:53 | the same, stated over the report text |
| ParserProperties.IncompleteOverwritten | src/parse.ts:51-60 | a declaration after a record that lacks a field flushes nothing: it replaces the fields and keeps the docstring gathered so far |
| ParserProperties.RunPrefix | src/parse.ts:54 | fixtures already pushed are never looked at again |
| ParserProperties.ParseSections | src/parse.ts:51-60 | when the first part is one complete declaration followed only by blank, indented or ignored lines, and the second part opens with a declaration, the whole parses as the two parts one after the other |
| ParserProperties.FlushDeclaration | src/parse.ts:51-60 | a declaration after a complete record pushes it after the fixtures already emitted and starts a fresh record with an empty docstring |
| CommandParser.ParseCommand | src/parse.ts:83-92 | a string is split on single spaces, and the program and arguments joined by spaces give it back; an array becomes program followed by arguments; an empty array gives the program "" and no arguments |
| CommandParser.TextRoundTrip | src/parse.ts:86-90 | a command whose program and arguments hold no space is read back from its space-joined spelling |
| CommandParser.TextAndTokensAgree | src/parse.ts:85-90 | space-free tokens give the same command as an array and as one space-joined string |
| CommandParser.EmptyCommand | src/parse.ts:90 | the empty string and the empty array both give the program "" and no arguments |
| Suggest.CursorEnd | src/parse.ts:98 | `substr(0, cursor)` is the line up to the cursor clamped to 0..length |
| Suggest.ShouldSuggest | src/parse.ts:94-107 | true exactly when the line holds `def test_` and the text before the cursor holds `(` and no `)` |
| Suggest.BeforeCursorGrows | src/parse.ts:98 | moving the cursor right keeps every character already before it |
| Suggest.ClosedStaysClosed | src/parse.ts:101 | once `)` is before the cursor, no cursor further right suggests |
| Suggest.OpenedStaysOpen | src/parse.ts:100-101 | a cursor left of a suggesting one, but past a `(`, also suggests |
| Suggest.NothingBeforeStart | src/parse.ts:100 | a cursor at or before the start of the line never suggests |
| ReportSamples.TmpdirDeclaration | src/parse.ts:42 | the example line `tmpdir -- tests/lib/python2.7/site-packages/_pytest/tmpdir.py:172` is read as fixture `tmpdir` at that path, line 172 |
| ReportSamples.WordSection | src/parse.ts:30-38 | a declaration, one indented word and a blank line give one fixture whose docstring is the word |
| ReportSamples.TwoSections | src/parse.ts:51-57 | two such sections give their two fixtures in report order, each with its own docstring |
| ReportSamples.TwoFixtureKinds | src/parse.ts:13-81 | the lines `foo -- a/b.py:10`, `    hello`, blank, `bar -- c/d.py:20`, `    world`, blank give foo with docstring "hello" and bar with "world" |
| ReportSamples.IndentedWord | src/parse.ts:30-32 | four spaces and a word are read as a docstring line holding the word |
| ReportSamples.OneSectionReport | src/parse.ts:13-81 | a declaration line, an indented word and an empty line, as report text, give one fixture whose docstring is the word |
| ReportSamples.TwoSectionReport | src/parse.ts:13-81 | two such sections, as report text, give their two fixtures in order |
| ReportSamples.FooBarLines | src/parse.ts:13-81 | any two report lines read as the foo and bar declarations, each followed by its indented one-word docstring line and a blank line, give foo with "hello" and bar with "world", in that order |
| ReportSamples.FooBarReport | src/parse.ts:13-81 | the report text `foo -- a/b.py:10`, `    hello`, "", `bar -- c/d.py:20`, `    world`, "" joined by line breaks gives exactly foo (docstring "hello", a/b.py, line 10) and bar (docstring "world", c/d.py, line 20) |
| ReportSamples.FooBarText | src/parse.ts:13-81 | the same report written as the single string `"foo -- a/b.py:10\n    hello\n\nbar -- c/d.py:20\n    world\n"` gives exactly those two fixtures |
| ReportSamples.FooReport | src/parse.ts:13-81 | the report `foo -- a/b.py:10`, `    hello`, "" gives fixture foo with docstring "hello", path a/b.py and line 10 |
| ReportSamples.LoneDeclarationReport | src/parse.ts:75-78 | a report of a single complete declaration line gives that fixture with a null docstring |
| ReportSamples.FooAlone | src/parse.ts:75-78 | the report `foo -- a/b.py:10` alone gives foo with a null docstring |
| ReportSamples.DuplicateSections | src/parse.ts:51-57 | a fixture reported twice is emitted twice |
| ReportSamples.NoDocstringAtStart | src/parse.ts:33 | the line `no docstring available` is kept by the filter |
| ReportSamples.PhraseAfter | src/parse.ts:33 | a docstring line in which `no docstring` follows non-empty text without an `n` is dropped, whatever comes after the phrase |
| ReportSamples.NoDocstringLater | src/parse.ts:33 | the line `see no docstring` is dropped by the filter |
| ReportSamples.DroppedLineSection | src/parse.ts:33-53 | a complete declaration whose only docstring line is dropped by the filter gets a null docstring |
| ReportSamples.DroppedLineReport | src/parse.ts:13-81 | the same, stated over report text |
| ReportSamples.MissingDocstringLine | src/parse.ts:30-33 | `    a/b.py:10: no docstring available` is a docstring line that the filter drops |
| ReportSamples.FooWithoutDocstring | src/parse.ts:13-81 | the report `foo -- a/b.py:10`, `    a/b.py:10: no docstring available`, "" gives foo with a null docstring |
| ReportSamples.SeparatorSection | src/parse.ts:61-72 | a separator after a complete record flushes it, so an indented line after the separator belongs to no fixture |
| ReportSamples.SeparatorReport | src/parse.ts:13-81 | the same, stated over report text |
| ReportSamples.DashLine | src/parse.ts:61 | `----` is read as a separator |
| ReportSamples.FooThenSeparator | src/parse.ts:13-81 | the report `foo -- a/b.py:10`, `----`, `    hello` gives foo with a null docstring |
| ReportSamples.IncompleteRun | src/parse.ts:51-60 | after a declaration and an indented word nothing is emitted; the declaration is the record in progress and the word is its docstring |
| ReportSamples.CarriedDocstring | src/parse.ts:51-60 | after an incomplete record, a complete declaration inherits the docstring gathered so far |
| ReportSamples.CarriedDocstringSample | src/parse.ts:51-60 | a record named `name` with an empty path and a NaN line number, then `first`, then foo and `hello`, gives foo with the docstring "first\nhello" |
| UsageSamples.PytestCommand | src/parse.ts:83-92 | `pytest -x -v` gives the program `pytest` and the arguments `-x`, `-v` |
| UsageSamples.DoubledSpace | src/parse.ts:86 | a doubled space gives an empty argument |
| UsageSamples.CommandArray | src/parse.ts:88-90 | the array `python -m pytest` gives the program `python` and the arguments `-m`, `pytest` |
| UsageSamples.SuggestAfterOpen | src/parse.ts:97-104 | `def test_foo(` with the cursor at its end suggests |
| UsageSamples.CursorPastEnd | src/parse.ts:98-104 | column 14 on `def test_foo(` suggests and column 15 on `def test_foo()` does not, because `substr` clamps past the end |
| UsageSamples.NoSuggestOutsideParameters | src/parse.ts:99-106 | `def test_foo()` with the cursor at its end does not suggest, and neither does a cursor before the `(` |
| UsageSamples.NoSuggestOutsideTests | src/parse.ts:97-106 | `def helper(` does not suggest at any cursor |

## Left out

- `console.log(fixtures)` (src/parse.ts:79) is output with no effect on the result, so it is not modelled.
- `src/extension.ts` is not part of this model. It holds the editor glue: spawning pytest, caching results per file, completion items and go-to-definition.
- Strings are sequences of code points. JavaScript strings are UTF-16 code units, so `slice`, `indexOf` and cursor positions differ for text outside the Basic Multilingual Plane.
- `\w` is ASCII letters, digits and `_`. `\s` and `trim` use the ECMAScript white-space and line-terminator set.
- JsNumber.ToNumberMeaning: `Number()` is modelled only for text that trims to an optionally signed run of decimal digits, and all such text is an integer. Any other text is NaN, including decimals, exponents, hexadecimal and `Infinity`. This is weaker than JavaScript, which gives numbers for those spellings. The parser only needs truthiness of printed line numbers.
- JsNumber.ToNumberMeaning: a run of digits is read as the exact integer it spells. JavaScript's `Number()` gives the nearest double instead. So `Number("9007199254740993")` is 9007199254740992, and 309 or more digits give `Infinity`. A `sourceLine` read from such text differs from what `parse.ts` produces.
- Suggest.ShouldSuggest: the cursor is an integer. A fractional cursor, which `substr` truncates, is not modelled.
- The `{} as Fixture` record of `parse.ts` is modelled as "no record in progress". A fixture pushed by `parse.ts` shares its object with no later state, so the object identity is not modelled.
- `parseCommand` on a string calls `toString()`, which returns the string unchanged, so it is not modelled separately.
