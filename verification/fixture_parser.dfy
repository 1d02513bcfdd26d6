/**
 * `parsePytestOutput`: the text printed by `pytest --fixtures --collect-only`
 * becomes the ordered list of fixtures it reports.
 *
 * The report is split into lines and folded, line by line, through a small
 * state machine. The state is the output so far, the record in progress
 * (absent after a flush, like the empty object `{}` that `parse.ts` assigns), and the
 * docstring accumulator. A line is read, in this order, as blank (only white
 * space), indented (four leading spaces: a docstring line), a declaration
 * (starts with a word character: `name -- path:line`), a separator (starts
 * with `--` or `==`), or something to ignore. A declaration, a separator and
 * the end of the input flush the record in progress, but only when its three
 * fields are truthy in JavaScript's sense; otherwise nothing is reset and a
 * later declaration simply overwrites the fields.
 */
module FixtureParser {
  import opened Optional
  import opened JsString
  import opened JsNumber

  const Indent: string := "    "
  const PathSeparator: string := " -- "
  const LineNumberSeparator: char := ':'
  const NoDocstring: string := "no docstring"

  /** One fixture of the report. */
  datatype Fixture = Fixture(
    name: string,
    docstring: Option<string>,
    sourceFile: string,
    sourceLine: Number)

  /** The three fields a declaration line writes into the record in progress. */
  datatype Declaration = Declaration(name: string, sourceFile: string, sourceLine: Number) {

    /** The JavaScript test `fixture.name && fixture.sourceFile && fixture.sourceLine`. */
    predicate Complete() {
      name != "" && sourceFile != "" && sourceLine.Truthy()
    }
  }

  /** How one report line is read. */
  datatype LineKind =
    | Blank
    | Indented(text: string)
    | Declares(decl: Declaration)
    | Separator
    | Other

  /** The parser between two lines. `pending == None` is the empty record `{}`. */
  datatype Parser = Parser(fixtures: seq<Fixture>, pending: Option<Declaration>, docstring: string)

  const Start: Parser := Parser([], None, "")

  predicate PendingComplete(pending: Option<Declaration>) {
    pending.Some? && pending.value.Complete()
  }

  /** What the model guarantees of every fixture it emits. */
  predicate WellFormed(f: Fixture) {
    && f.name != ""
    && ' ' !in f.name
    && f.sourceFile != ""
    && f.sourceLine.Truthy()
    && (f.docstring.Some? ==>
          && f.docstring.value != ""
          && !IsWhitespace(f.docstring.value[0])
          && !IsWhitespace(f.docstring.value[|f.docstring.value| - 1]))
  }

  predicate AllWellFormed(fs: seq<Fixture>) {
    forall i :: 0 <= i < |fs| ==> WellFormed(fs[i])
  }

  /** The invariant of the loop: what is emitted is well formed, and a pending
      name, having come from a declaration line, holds no space. */
  predicate Valid(p: Parser) {
    && AllWellFormed(p.fixtures)
    && (p.pending.Some? ==> ' ' !in p.pending.value.name)
  }

  /** The report's lines: `input.split("\n")`. */
  function Lines(input: string): seq<string> {
    Split(input, '\n')
  }

  /** The name of a declaration line: the text before its first space. */
  function DeclaredName(line: string): string {
    Slice(line, 0, FirstIndex(line, ' '))
  }

  /** The path of a declaration line: from the end of its first " -- " to its
      first colon. */
  function DeclaredPath(line: string): string {
    Slice(line, IndexOf(line, PathSeparator) + |PathSeparator|, FirstIndex(line, LineNumberSeparator))
  }

  /** The line-number text of a declaration line: what follows its first
      colon. */
  function DeclaredLineNumber(line: string): string {
    SliceFrom(line, FirstIndex(line, LineNumberSeparator) + 1)
  }

  /** The fields of a declaration line `name -- path:line`. Each search answers
      -1 when it finds nothing, and `slice` reads that -1 as it reads any
      negative position. */
  function ParseDeclaration(line: string): (d: Declaration)
    ensures ' ' !in d.name
  {
    DeclarationName(line);
    Declaration(DeclaredName(line), DeclaredPath(line), ToNumber(DeclaredLineNumber(line)))
  }

  /** The name is the text before the first space, without a space of its
      own; with no space at all, `slice(0, -1)` drops the line's last
      character. */
  lemma {:induction false} DeclarationName(line: string)
    ensures var name := DeclaredName(line);
      && ' ' !in name
      && (|line| > 0 ==> |name| < |line| && name == line[..|name|])
      && (' ' in line ==> line[|name|] == ' ')
      && (' ' !in line && |line| > 0 ==> |name| == |line| - 1)
  {
    var space := FirstIndex(line, ' ');
    var name := DeclaredName(line);
    if space >= 0 {
      assert name == line[..space];
    } else if |line| > 0 {
      assert name == line[..|line| - 1];
      assert forall k :: 0 <= k < |name| ==> name[k] == line[k];
    } else {
      assert name == "";
    }
  }

  /** The path runs from the end of the first " -- " to the first colon of
      the line, holds no colon, and is empty when that colon comes first. */
  lemma {:induction false} DeclarationPath(line: string)
    ensures var i := IndexOf(line, PathSeparator);
      var j := FirstIndex(line, LineNumberSeparator);
      var path := DeclaredPath(line);
      && LineNumberSeparator !in path
      && (0 <= i && i + |PathSeparator| <= j ==> path == line[i + |PathSeparator|..j])
      && (0 <= j < i + |PathSeparator| ==> path == "")
  {
    var i := IndexOf(line, PathSeparator);
    var j := FirstIndex(line, LineNumberSeparator);
    var path := DeclaredPath(line);
    var from := RelativeIndex(|line|, i + |PathSeparator|);
    var to := RelativeIndex(|line|, j);
    if from < to {
      assert path == line[from..to];
      if j >= 0 {
        assert forall k :: from <= k < to ==> line[k] == line[..j][k];
      } else {
        assert forall k :: from <= k < to ==> line[k] in line;
      }
    }
  }

  /** The line number is read from the text after the first colon, or from
      the whole line when there is no colon. */
  lemma {:induction false} DeclarationLineNumber(line: string)
    ensures var j := FirstIndex(line, LineNumberSeparator);
      DeclaredLineNumber(line) == if j >= 0 then line[j + 1..] else line
  {
  }

  /** In a line written as `name -- path:rest`, the searches find the first
      space and the separator right after the name and the first colon right
      after the path. */
  lemma {:induction false} DeclarationSeparators(name: string, path: string, rest: string)
    requires ' ' !in name && LineNumberSeparator !in name && LineNumberSeparator !in path
    ensures var line := name + PathSeparator + path + [LineNumberSeparator] + rest;
      && FirstIndex(line, ' ') == |name|
      && IndexOf(line, PathSeparator) == |name|
      && FirstIndex(line, LineNumberSeparator) == |name| + |PathSeparator| + |path|
  {
    var line := name + PathSeparator + path + [LineNumberSeparator] + rest;
    var n := |name|;
    var c := n + |PathSeparator| + |path|;
    assert FirstIndex(line, ' ') == n by {
      assert line[..n] == name;
      FirstSeparator(line, ' ', n);
    }
    assert FirstIndex(line, LineNumberSeparator) == c by {
      assert line[..c] == name + PathSeparator + path;
      assert LineNumberSeparator !in PathSeparator;
      FirstSeparator(line, LineNumberSeparator, c);
    }
    assert line[n..n + |PathSeparator|] == PathSeparator;
    forall k | 0 <= k < n ensures !OccursAt(line, PathSeparator, k) {
      assert line[k] == name[k];
      assert line[k..k + |PathSeparator|][0] == line[k];
    }
    FirstOccurrence(line, PathSeparator, n);
  }

  /** The three texts of a line written as `name -- path:rest`. */
  lemma {:induction false} DeclarationTexts(name: string, path: string, rest: string)
    requires ' ' !in name && LineNumberSeparator !in name && LineNumberSeparator !in path
    ensures var line := name + PathSeparator + path + [LineNumberSeparator] + rest;
      DeclaredName(line) == name && DeclaredPath(line) == path && DeclaredLineNumber(line) == rest
  {
    var line := name + PathSeparator + path + [LineNumberSeparator] + rest;
    var n := |name|;
    var c := n + |PathSeparator| + |path|;
    DeclarationSeparators(name, path, rest);
    assert line[..n] == name;
    assert line[n + |PathSeparator|..c] == path;
    assert line[c + 1..] == rest;
  }

  /** A declaration line written as `name -- path:rest` is read back as
      `name`, `path` and `Number(rest)`, provided the name holds no space and
      no colon and the path holds no colon. */
  lemma {:induction false} DeclarationRoundTrip(name: string, path: string, rest: string)
    requires ' ' !in name && LineNumberSeparator !in name && LineNumberSeparator !in path
    ensures ParseDeclaration(name + PathSeparator + path + [LineNumberSeparator] + rest)
      == Declaration(name, path, ToNumber(rest))
  {
    DeclarationTexts(name, path, rest);
  }

  /** A declaration line printed as `name -- path:line`, with a name that
      opens with a word character, is read as that declaration. */
  lemma {:induction false} DeclarationLine(name: string, path: string, n: nat)
    requires name != [] && IsWordChar(name[0])
    requires ' ' !in name && LineNumberSeparator !in name && LineNumberSeparator !in path
    ensures Classify(name + PathSeparator + path + [LineNumberSeparator] + Decimal(n))
      == Declares(Declaration(name, path, Num(n)))
  {
    var line := name + PathSeparator + path + [LineNumberSeparator] + Decimal(n);
    assert line[0] == name[0];
    DeclarationRoundTrip(name, path, Decimal(n));
    ToNumberDecimal(n);
  }

  /** Reads one line, trying the tests of `parsePytestOutput` in its order. */
  function Classify(line: string): (k: LineKind)
    ensures k.Blank? <==> AllWhitespace(line)
    ensures k.Indented? ==> line == Indent + k.text && !AllWhitespace(k.text)
    ensures k.Declares? <==> |line| > 0 && IsWordChar(line[0])
    ensures k.Declares? ==> k.decl == ParseDeclaration(line)
    ensures !AllWhitespace(line) && StartsWith(line, Indent) ==> k == Indented(line[|Indent|..])
    ensures k.Separator? <==>
      && !AllWhitespace(line)
      && !StartsWith(line, Indent)
      && !(|line| > 0 && IsWordChar(line[0]))
      && (StartsWith(line, "--") || StartsWith(line, "=="))
    ensures k.Separator? ==> |line| >= 2 && line[0] == line[1] && line[0] in "-="
  {
    assert |line| > 0 && IsWordChar(line[0]) ==> Trim(line) != "" && !StartsWith(line, Indent) by {
      if |line| > 0 && IsWordChar(line[0]) {
        WordStartIsNotBlank(line);
      }
    }
    if AllWhitespace(line) then Blank
    else if StartsWith(line, Indent) then
      assert line == Indent + line[4..];
      Indented(Substring(line, |Indent|))
    else if |line| > 0 && IsWordChar(line[0]) then Declares(ParseDeclaration(line))
    else if StartsWith(line, "--") || StartsWith(line, "==") then Separator
    else Other
  }

  /** A line opening with a word character is neither blank nor indented. */
  lemma {:induction false} WordStartIsNotBlank(line: string)
    requires |line| > 0 && IsWordChar(line[0])
    ensures !AllWhitespace(line) && Trim(line) != "" && !StartsWith(line, Indent)
  {
    assert !IsWhitespace(line[0]);
    assert line[0] != Indent[0];
  }

  /** The docstring-line filter of `parse.ts`, `indexOf("no docstring") <= 0`. */
  predicate KeptDocLine(text: string) {
    IndexOf(text, NoDocstring) <= 0
  }

  /** The filter keeps a line where the phrase is absent or opens the line, and
      drops it only where the phrase occurs later in the line. */
  lemma {:induction false} KeptDocLineMeaning(text: string)
    ensures KeptDocLine(text) <==> !Contains(text, NoDocstring) || StartsWith(text, NoDocstring)
  {
    IndexOfMeaning(text, NoDocstring);
  }

  /** How a blank or indented line extends the docstring accumulator. */
  function Accumulate(doc: string, kind: LineKind): (r: string)
    ensures doc <= r
    ensures kind.Blank? ==> r == (if doc == "" then "" else doc + "\n")
    ensures kind.Indented? && KeptDocLine(kind.text) && doc != "" ==> r == doc + "\n" + kind.text
    ensures kind.Indented? && KeptDocLine(kind.text) && doc == "" ==> r == kind.text
    ensures !kind.Blank? && !(kind.Indented? && KeptDocLine(kind.text)) ==> r == doc
  {
    match kind
    case Blank => if |doc| > 0 then doc + "\n" else doc
    case Indented(text) =>
      if KeptDocLine(text) then (if |doc| > 0 then doc + "\n" else doc) + text else doc
    case _ => doc
  }

  /** `docstring.trim() || null`. */
  function TrimOrNull(doc: string): (r: Option<string>)
    ensures r.None? <==> AllWhitespace(doc)
    ensures r.Some? ==>
      && r.value != ""
      && !IsWhitespace(r.value[0])
      && !IsWhitespace(r.value[|r.value| - 1])
      && exists k :: TrimmedFrom(doc, r.value, k)
  {
    var t := Trim(doc);
    if t == "" then None else Some(t)
  }

  /** The fixture a flush pushes. */
  function Emit(d: Declaration, doc: string): Fixture {
    Fixture(d.name, TrimOrNull(doc), d.sourceFile, d.sourceLine)
  }

  /** `parse.ts`'s `if (fixture.name && fixture.sourceFile && fixture.sourceLine) { ...push, reset... }`. */
  function FlushIfComplete(p: Parser): (r: Parser)
    ensures PendingComplete(p.pending) ==>
      r == Parser(p.fixtures + [Emit(p.pending.value, p.docstring)], None, "")
    ensures !PendingComplete(p.pending) ==> r == p
    ensures Valid(p) ==> Valid(r)
  {
    if PendingComplete(p.pending) then
      Parser(p.fixtures + [Emit(p.pending.value, p.docstring)], None, "")
    else p
  }

  /** A line of this kind flushes the record in progress. */
  predicate Flushes(p: Parser, kind: LineKind) {
    (kind.Declares? || kind.Separator?) && PendingComplete(p.pending)
  }

  /** One turn of the loop over lines, on a line already classified. */
  function Step(p: Parser, kind: LineKind): (r: Parser)
    ensures p.fixtures <= r.fixtures && |r.fixtures| <= |p.fixtures| + 1
    ensures |r.fixtures| == |p.fixtures| + 1 <==> Flushes(p, kind)
    ensures Flushes(p, kind) ==>
      r.fixtures[|p.fixtures|] == Emit(p.pending.value, p.docstring) && r.docstring == ""
    ensures !kind.Declares? && !kind.Separator? ==>
      r.pending == p.pending && r.docstring == Accumulate(p.docstring, kind)
    ensures !Flushes(p, kind) && (kind.Declares? || kind.Separator?) ==> r.docstring == p.docstring
    ensures kind.Declares? ==> r.pending == Some(kind.decl)
    ensures kind.Separator? ==> !PendingComplete(r.pending)
    ensures Valid(p) && (kind.Declares? ==> ' ' !in kind.decl.name) ==> Valid(r)
  {
    match kind
    case Declares(d) => FlushIfComplete(p).(pending := Some(d))
    case Separator => FlushIfComplete(p)
    case _ => p.(docstring := Accumulate(p.docstring, kind))
  }

  /** Each line read on its own, in order. */
  function ClassifyAll(lines: seq<string>): (kinds: seq<LineKind>)
    ensures |kinds| == |lines|
    decreases |lines|
  {
    if |lines| == 0 then []
    else ClassifyAll(lines[..|lines| - 1]) + [Classify(lines[|lines| - 1])]
  }

  lemma {:induction false} ClassifyAllAt(lines: seq<string>, i: nat)
    requires i < |lines|
    ensures ClassifyAll(lines)[i] == Classify(lines[i])
    decreases |lines|
  {
    if i < |lines| - 1 {
      ClassifyAllAt(lines[..|lines| - 1], i);
    }
  }

  lemma {:induction false} ClassifyAllAppend(a: seq<string>, b: seq<string>)
    ensures ClassifyAll(a + b) == ClassifyAll(a) + ClassifyAll(b)
    decreases |b|
  {
    if |b| == 0 {
      assert a + b == a;
    } else {
      assert (a + b)[..|a + b| - 1] == a + b[..|b| - 1];
      ClassifyAllAppend(a, b[..|b| - 1]);
    }
  }

  /** The first line is read first. */
  lemma {:induction false} ClassifyAllFirst(lines: seq<string>)
    requires |lines| >= 1
    ensures ClassifyAll(lines) == [Classify(lines[0])] + ClassifyAll(lines[1..])
  {
    ClassifyAllAppend(lines[..1], lines[1..]);
    assert lines[..1] + lines[1..] == lines;
    assert lines[..1][..0] == [];
  }

  /** Declarations hold names without spaces, as every classified line does. */
  predicate NamesWithoutSpace(kinds: seq<LineKind>) {
    forall i :: 0 <= i < |kinds| ==> kinds[i].Declares? ==> ' ' !in kinds[i].decl.name
  }

  function CountDeclarations(kinds: seq<LineKind>): (n: nat)
    ensures n <= |kinds|
  {
    if |kinds| == 0 then 0
    else CountDeclarations(kinds[..|kinds| - 1]) + (if kinds[|kinds| - 1].Declares? then 1 else 0)
  }

  /** Number of lines that start with a word character. */
  function CountWordLines(lines: seq<string>): (n: nat)
    ensures n <= |lines|
  {
    if |lines| == 0 then 0
    else
      var last := lines[|lines| - 1];
      CountWordLines(lines[..|lines| - 1]) + (if |last| > 0 && IsWordChar(last[0]) then 1 else 0)
  }

  /** The declarations among the classified lines are the lines that start
      with a word character. */
  lemma {:induction false} DeclarationsAreWordLines(lines: seq<string>)
    ensures CountDeclarations(ClassifyAll(lines)) == CountWordLines(lines)
    ensures NamesWithoutSpace(ClassifyAll(lines))
    decreases |lines|
  {
    if |lines| > 0 {
      var init := lines[..|lines| - 1];
      DeclarationsAreWordLines(init);
      assert ClassifyAll(lines)[..|lines| - 1] == ClassifyAll(init);
      assert ClassifyAll(lines)[|lines| - 1] == Classify(lines[|lines| - 1]);
    }
  }

  /** The loop `for (let line of input.split("\n"))`, from state `p`. */
  function Run(p: Parser, kinds: seq<LineKind>): (r: Parser)
    ensures p.fixtures <= r.fixtures
    ensures |r.fixtures| + (if PendingComplete(r.pending) then 1 else 0)
      <= |p.fixtures| + (if PendingComplete(p.pending) then 1 else 0) + CountDeclarations(kinds)
    ensures Valid(p) && NamesWithoutSpace(kinds) ==> Valid(r)
    decreases |kinds|
  {
    if |kinds| == 0 then p
    else
      assert NamesWithoutSpace(kinds) ==> NamesWithoutSpace(kinds[..|kinds| - 1]);
      Step(Run(p, kinds[..|kinds| - 1]), kinds[|kinds| - 1])
  }

  /** The loop and the final flush, over the classified lines. */
  function ParseKinds(kinds: seq<LineKind>): (r: seq<Fixture>)
    ensures NamesWithoutSpace(kinds) ==> AllWellFormed(r)
    ensures |r| <= CountDeclarations(kinds)
  {
    FlushIfComplete(Run(Start, kinds)).fixtures
  }

  /** `parsePytestOutput(input)`. */
  function ParsePytestOutput(input: string): (r: seq<Fixture>)
    ensures AllWellFormed(r)
    ensures |r| <= CountWordLines(Lines(input))
  {
    DeclarationsAreWordLines(Lines(input));
    ParseKinds(ClassifyAll(Lines(input)))
  }
}
