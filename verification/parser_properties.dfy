/**
 * What `parsePytestOutput` promises about its whole output, stated against
 * reference definitions that look at the report's lines one by one rather
 * than through the parser's state:
 *  - the fixtures emitted are exactly the declaration lines whose three fields
 *    are truthy, in the order of those lines, duplicates kept;
 *  - a docstring is built by joining, with "\n", the blank and kept indented
 *    lines seen since the last flush, blank lines before the first kept line
 *    left out, and it is null exactly when no indented line was kept.
 */
module ParserProperties {
  import opened Optional
  import opened JsString
  import opened JsNumber
  import opened FixtureParser

  /** The three fields a fixture takes from its declaration line. */
  function Key(f: Fixture): Declaration {
    Declaration(f.name, f.sourceFile, f.sourceLine)
  }

  function Keys(fs: seq<Fixture>): (ks: seq<Declaration>)
    ensures |ks| == |fs|
    ensures forall i :: 0 <= i < |fs| ==> ks[i] == Key(fs[i])
  {
    seq(|fs|, i requires 0 <= i < |fs| => Key(fs[i]))
  }

  /** The record in progress, as the fixture it would become at a flush. */
  function PendingKeys(pending: Option<Declaration>): seq<Declaration> {
    if PendingComplete(pending) then [pending.value] else []
  }

  /** The declaration a classified line contributes to the output, if any. */
  function CompleteDeclaration(kind: LineKind): seq<Declaration> {
    if kind.Declares? && kind.decl.Complete() then [kind.decl] else []
  }

  /** Reference: the complete declaration lines of a report, in line order. */
  function CompleteDeclarations(kinds: seq<LineKind>): seq<Declaration>
    decreases |kinds|
  {
    if |kinds| == 0 then []
    else CompleteDeclarations(kinds[..|kinds| - 1]) + CompleteDeclaration(kinds[|kinds| - 1])
  }

  lemma {:induction false} StepKeys(p: Parser, kind: LineKind)
    ensures Keys(Step(p, kind).fixtures) + PendingKeys(Step(p, kind).pending)
         == Keys(p.fixtures) + PendingKeys(p.pending) + CompleteDeclaration(kind)
  {
    var r := Step(p, kind);
    if Flushes(p, kind) {
      assert r.fixtures == p.fixtures + [Emit(p.pending.value, p.docstring)];
      assert Keys(r.fixtures) == Keys(p.fixtures) + [p.pending.value];
    } else {
      assert r.fixtures == p.fixtures;
    }
  }

  lemma {:induction false} RunKeys(p: Parser, kinds: seq<LineKind>)
    ensures Keys(Run(p, kinds).fixtures) + PendingKeys(Run(p, kinds).pending)
         == Keys(p.fixtures) + PendingKeys(p.pending) + CompleteDeclarations(kinds)
    decreases |kinds|
  {
    if |kinds| > 0 {
      var init := kinds[..|kinds| - 1];
      RunKeys(p, init);
      StepKeys(Run(p, init), kinds[|kinds| - 1]);
    }
  }

  /** Output and declarations agree: the fixtures emitted carry, in order, the
      fields of exactly the declaration lines whose name, path and line number
      are all truthy. Nothing is sorted and nothing is deduplicated. */
  lemma {:induction false} ParseFollowsDeclarations(input: string)
    ensures Keys(ParsePytestOutput(input)) == CompleteDeclarations(ClassifyAll(Lines(input)))
  {
    KindsFollowDeclarations(ClassifyAll(Lines(input)));
  }

  lemma {:induction false} KindsFollowDeclarations(kinds: seq<LineKind>)
    ensures Keys(ParseKinds(kinds)) == CompleteDeclarations(kinds)
  {
    var r := Run(Start, kinds);
    calc {
      Keys(ParseKinds(kinds));
    == { FlushKeys(r); }
      Keys(r.fixtures) + PendingKeys(r.pending);
    == { RunKeys(Start, kinds); }
      Keys(Start.fixtures) + PendingKeys(Start.pending) + CompleteDeclarations(kinds);
    == { assert Keys(Start.fixtures) + PendingKeys(Start.pending) == []; }
      CompleteDeclarations(kinds);
    }
  }

  lemma {:induction false} FlushKeys(p: Parser)
    ensures Keys(FlushIfComplete(p).fixtures) == Keys(p.fixtures) + PendingKeys(p.pending)
  {
    if PendingComplete(p.pending) {
      assert Keys(p.fixtures + [Emit(p.pending.value, p.docstring)]) == Keys(p.fixtures) + [p.pending.value];
    }
  }

  lemma {:induction false} CompleteDeclarationsBound(kinds: seq<LineKind>)
    ensures |CompleteDeclarations(kinds)| <= CountDeclarations(kinds)
    decreases |kinds|
  {
    if |kinds| > 0 {
      CompleteDeclarationsBound(kinds[..|kinds| - 1]);
    }
  }

  lemma {:induction false} CompleteDeclarationsEmpty(kinds: seq<LineKind>)
    ensures CompleteDeclarations(kinds) == [] <==>
      forall i :: 0 <= i < |kinds| ==> !(kinds[i].Declares? && kinds[i].decl.Complete())
    decreases |kinds|
  {
    if |kinds| > 0 {
      var init := kinds[..|kinds| - 1];
      CompleteDeclarationsEmpty(init);
      assert forall i :: 0 <= i < |init| ==> init[i] == kinds[i];
    }
  }

  /** The number of fixtures is the number of complete declaration lines, so
      at most the number of lines that start with a word character; the output
      is empty exactly when no line is a complete declaration. */
  lemma {:induction false} ParseCount(input: string)
    ensures |ParsePytestOutput(input)| == |CompleteDeclarations(ClassifyAll(Lines(input)))|
    ensures |ParsePytestOutput(input)| <= CountWordLines(Lines(input))
    ensures
      var kinds := ClassifyAll(Lines(input));
      ParsePytestOutput(input) == [] <==>
        forall i :: 0 <= i < |kinds| ==> !(kinds[i].Declares? && kinds[i].decl.Complete())
  {
    var kinds := ClassifyAll(Lines(input));
    ParseFollowsDeclarations(input);
    CompleteDeclarationsEmpty(kinds);
  }

  lemma {:induction false} NoWordLines(lines: seq<string>)
    requires forall i :: 0 <= i < |lines| ==> !(|lines[i]| > 0 && IsWordChar(lines[i][0]))
    ensures CountWordLines(lines) == 0
    decreases |lines|
  {
    if |lines| > 0 {
      NoWordLines(lines[..|lines| - 1]);
    }
  }

  /** A report in which no line starts with a word character has no fixtures. */
  lemma {:induction false} NoDeclarationLinesNoFixtures(input: string)
    requires forall i :: 0 <= i < |Lines(input)| ==>
      !(|Lines(input)[i]| > 0 && IsWordChar(Lines(input)[i][0]))
    ensures ParsePytestOutput(input) == []
  {
    NoWordLines(Lines(input));
  }

  lemma {:induction false} RunAppend(p: Parser, a: seq<LineKind>, b: seq<LineKind>)
    ensures Run(p, a + b) == Run(Run(p, a), b)
    decreases |b|
  {
    if |b| == 0 {
      assert a + b == a;
    } else {
      assert (a + b)[..|a + b| - 1] == a + b[..|b| - 1];
      RunAppend(p, a, b[..|b| - 1]);
    }
  }

  /** A line that neither flushes nor touches the record in progress: blank,
      indented or ignored. */
  predicate Quiet(kind: LineKind) {
    !kind.Declares? && !kind.Separator?
  }

  /** The docstring accumulator after a run of lines. */
  function AccumulateAll(doc: string, kinds: seq<LineKind>): string
    decreases |kinds|
  {
    if |kinds| == 0 then doc
    else Accumulate(AccumulateAll(doc, kinds[..|kinds| - 1]), kinds[|kinds| - 1])
  }

  /** Quiet lines only ever feed the docstring accumulator. */
  lemma {:induction false} RunQuiet(p: Parser, kinds: seq<LineKind>)
    requires forall i :: 0 <= i < |kinds| ==> Quiet(kinds[i])
    ensures Run(p, kinds) == p.(docstring := AccumulateAll(p.docstring, kinds))
    decreases |kinds|
  {
    if |kinds| > 0 {
      RunQuiet(p, kinds[..|kinds| - 1]);
    }
  }

  /** What one line contributes to a docstring: "" for a blank line, the text
      of an indented line the filter keeps, nothing otherwise. */
  function DocPiece(kind: LineKind): seq<string> {
    match kind
    case Blank => [""]
    case Indented(text) => if KeptDocLine(text) then [text] else []
    case _ => []
  }

  function DocPieces(kinds: seq<LineKind>): seq<string>
    decreases |kinds|
  {
    if |kinds| == 0 then [] else DocPieces(kinds[..|kinds| - 1]) + DocPiece(kinds[|kinds| - 1])
  }

  /** Empty pieces before the first non-empty one are dropped. */
  function DropLeadingEmpty(pieces: seq<string>): (r: seq<string>)
    ensures r == [] || r[0] != ""
    decreases |pieces|
  {
    if |pieces| > 0 && pieces[0] == "" then DropLeadingEmpty(pieces[1..]) else pieces
  }

  lemma {:induction false} DropLeadingEmptyAppend(pieces: seq<string>, x: string)
    ensures DropLeadingEmpty(pieces + [x]) ==
      if DropLeadingEmpty(pieces) == [] then (if x == "" then [] else [x])
      else DropLeadingEmpty(pieces) + [x]
    decreases |pieces|
  {
    if |pieces| == 0 {
      assert pieces + [x] == [x];
      assert [x][1..] == [];
    } else {
      assert (pieces + [x])[1..] == pieces[1..] + [x];
      if pieces[0] == "" {
        DropLeadingEmptyAppend(pieces[1..], x);
      }
    }
  }

  lemma {:induction false} JoinNonEmpty(pieces: seq<string>, sep: char)
    requires pieces != [] && pieces[0] != ""
    ensures Join(pieces, sep) != ""
  {
  }

  /** Incremental accumulation agrees with the reference: joining the pieces
      with "\n" once the leading empty ones are dropped. */
  lemma {:induction false} AccumulateJoin(kinds: seq<LineKind>)
    ensures AccumulateAll("", kinds) == Join(DropLeadingEmpty(DocPieces(kinds)), '\n')
    decreases |kinds|
  {
    if |kinds| > 0 {
      var init := kinds[..|kinds| - 1];
      var kind := kinds[|kinds| - 1];
      AccumulateJoin(init);
      var d := DropLeadingEmpty(DocPieces(init));
      if d != [] {
        JoinNonEmpty(d, '\n');
      }
      var piece := DocPiece(kind);
      if piece != [] {
        DropLeadingEmptyAppend(DocPieces(init), piece[0]);
        if d != [] {
          JoinAppend(d, piece[0], '\n');
        }
      } else {
        assert DocPieces(kinds) == DocPieces(init);
      }
    }
  }

  lemma {:induction false} AllWhitespaceConcat(a: string, b: string)
    ensures AllWhitespace(a + b) <==> AllWhitespace(a) && AllWhitespace(b)
  {
    if AllWhitespace(a) && AllWhitespace(b) {
      assert forall i :: 0 <= i < |a + b| ==> (a + b)[i] == if i < |a| then a[i] else b[i - |a|];
    }
    if AllWhitespace(a + b) {
      assert forall i :: 0 <= i < |b| ==> b[i] == (a + b)[|a| + i];
      assert forall i :: 0 <= i < |a| ==> a[i] == (a + b)[i];
    }
  }

  /** An indented line the docstring filter keeps. */
  predicate KeptIndented(kind: LineKind) {
    kind.Indented? && KeptDocLine(kind.text)
  }

  /** The docstring is null exactly when no indented line was kept: blank lines
      alone never make one. Indented text is never all white space, because a
      line of only white space is read as blank. */
  lemma {:induction false} DocstringNullExactly(kinds: seq<LineKind>)
    requires forall i :: 0 <= i < |kinds| ==> kinds[i].Indented? ==> !AllWhitespace(kinds[i].text)
    ensures TrimOrNull(AccumulateAll("", kinds)).None? <==>
      forall i :: 0 <= i < |kinds| ==> !KeptIndented(kinds[i])
    decreases |kinds|
  {
    if |kinds| > 0 {
      var init := kinds[..|kinds| - 1];
      var kind := kinds[|kinds| - 1];
      assert forall i :: 0 <= i < |init| ==> init[i] == kinds[i];
      DocstringNullExactly(init);
      var a := AccumulateAll("", init);
      match kind
      case Blank =>
        AllWhitespaceConcat(a, "\n");
      case Indented(text) =>
        if KeptDocLine(text) {
          AllWhitespaceConcat(if a == "" then "" else a + "\n", text);
          if a != "" {
            AllWhitespaceConcat(a, "\n");
          }
        }
      case _ =>
    }
  }

  /** A complete declaration followed only by blank, indented or ignored
      lines yields that one fixture, its docstring built from those lines. */
  lemma {:induction false} SingleFixtureRun(kinds: seq<LineKind>)
    requires |kinds| >= 1 && kinds[0].Declares? && kinds[0].decl.Complete()
    requires forall i :: 1 <= i < |kinds| ==> Quiet(kinds[i])
    ensures ParseKinds(kinds) == [Emit(kinds[0].decl, AccumulateAll("", kinds[1..]))]
  {
    SectionRun(kinds);
  }

  /** A declaration followed by quiet lines leaves its record in progress,
      with the docstring those lines build. */
  lemma {:induction false} SectionRun(kinds: seq<LineKind>)
    requires |kinds| >= 1 && kinds[0].Declares?
    requires forall i :: 1 <= i < |kinds| ==> Quiet(kinds[i])
    ensures Run(Start, kinds) == Parser([], Some(kinds[0].decl), AccumulateAll("", kinds[1..]))
  {
    var rest := kinds[1..];
    var p := Parser([], Some(kinds[0].decl), "");
    RunFirst(Start, kinds);
    QuietTail(kinds);
    RunQuiet(p, rest);
  }

  /** The first line is read first. */
  lemma {:induction false} RunFirst(p: Parser, kinds: seq<LineKind>)
    requires |kinds| >= 1
    ensures Run(p, kinds) == Run(Step(p, kinds[0]), kinds[1..])
  {
    RunAppend(p, kinds[..1], kinds[1..]);
    assert kinds[..1] + kinds[1..] == kinds;
    assert kinds[..1][..0] == [];
  }

  lemma {:induction false} QuietTail(kinds: seq<LineKind>)
    requires |kinds| >= 1
    requires forall i :: 1 <= i < |kinds| ==> Quiet(kinds[i])
    ensures forall i :: 0 <= i < |kinds[1..]| ==> Quiet(kinds[1..][i])
  {
    assert forall i :: 0 <= i < |kinds[1..]| ==> kinds[1..][i] == kinds[i + 1];
  }

  /** The same single fixture, its docstring spelled as the kept pieces joined
      by line breaks. */
  lemma {:induction false} SingleFixtureKinds(kinds: seq<LineKind>)
    requires |kinds| >= 1 && kinds[0].Declares? && kinds[0].decl.Complete()
    requires forall i :: 1 <= i < |kinds| ==> Quiet(kinds[i])
    ensures ParseKinds(kinds) == [Emit(kinds[0].decl, Join(DropLeadingEmpty(DocPieces(kinds[1..])), '\n'))]
  {
    SingleFixtureRun(kinds);
    AccumulateJoin(kinds[1..]);
  }

  lemma {:induction false} IndentedTextNotBlank(lines: seq<string>)
    ensures forall i :: 0 <= i < |lines| ==>
      ClassifyAll(lines)[i].Indented? ==> !AllWhitespace(ClassifyAll(lines)[i].text)
    decreases |lines|
  {
    if |lines| > 0 {
      IndentedTextNotBlank(lines[..|lines| - 1]);
    }
  }

  /** A report built from lines is parsed as those lines. */
  lemma {:induction false} ParseJoinedLines(lines: seq<string>)
    requires |lines| >= 1
    requires forall i :: 0 <= i < |lines| ==> '\n' !in lines[i]
    ensures ParsePytestOutput(Join(lines, '\n')) == ParseKinds(ClassifyAll(lines))
  {
    SplitJoin(lines, '\n');
  }

  /** A report is parsed as the kinds of its lines. */
  lemma {:induction false} ReportOfLines(lines: seq<string>, kinds: seq<LineKind>)
    requires |lines| >= 1
    requires forall i :: 0 <= i < |lines| ==> '\n' !in lines[i]
    requires |kinds| == |lines| && forall i :: 0 <= i < |lines| ==> Classify(lines[i]) == kinds[i]
    ensures ParsePytestOutput(Join(lines, '\n')) == ParseKinds(kinds)
  {
    KindsOfLines(lines, kinds);
    ParseJoinedLines(lines);
  }

  lemma {:induction false} KindsOfLines(lines: seq<string>, kinds: seq<LineKind>)
    requires |kinds| == |lines| && forall i :: 0 <= i < |lines| ==> Classify(lines[i]) == kinds[i]
    ensures ClassifyAll(lines) == kinds
  {
    forall i | 0 <= i < |lines| ensures ClassifyAll(lines)[i] == kinds[i] {
      ClassifyAllAt(lines, i);
    }
  }

  /** A report whose first line is a complete declaration and whose other
      lines are all blank, indented or ignored yields that one fixture, its
      docstring built from the lines that follow. */
  lemma {:induction false} SingleFixtureReport(lines: seq<string>)
    requires |lines| >= 1
    requires forall i :: 0 <= i < |lines| ==> '\n' !in lines[i]
    requires Classify(lines[0]).Declares? && Classify(lines[0]).decl.Complete()
    requires forall i :: 1 <= i < |lines| ==> Quiet(Classify(lines[i]))
    ensures ParsePytestOutput(Join(lines, '\n')) ==
      [Emit(Classify(lines[0]).decl, Join(DropLeadingEmpty(DocPieces(ClassifyAll(lines[1..]))), '\n'))]
  {
    var kinds := ClassifyAll(lines);
    assert kinds[0] == Classify(lines[0]) && kinds[1..] == ClassifyAll(lines[1..]) by {
      ClassifyAllFirst(lines);
    }
    forall i | 1 <= i < |kinds| ensures Quiet(kinds[i]) {
      ClassifyAllAt(lines, i);
    }
    ParseJoinedLines(lines);
    SingleFixtureKinds(kinds);
  }

  /** After one complete declaration and quiet lines only, the docstring is
      null exactly when no indented line was kept. */
  lemma {:induction false} SingleFixtureKindsDocstring(kinds: seq<LineKind>)
    requires |kinds| >= 1 && kinds[0].Declares? && kinds[0].decl.Complete()
    requires forall i :: 1 <= i < |kinds| ==> Quiet(kinds[i])
    requires forall i :: 1 <= i < |kinds| ==> kinds[i].Indented? ==> !AllWhitespace(kinds[i].text)
    ensures |ParseKinds(kinds)| == 1
    ensures ParseKinds(kinds)[0].docstring.None? <==>
      forall i :: 1 <= i < |kinds| ==> !KeptIndented(kinds[i])
  {
    var rest := kinds[1..];
    assert forall i :: 0 <= i < |rest| ==> rest[i] == kinds[i + 1];
    SingleFixtureRun(kinds);
    DocstringNullExactly(rest);
    if forall i :: 0 <= i < |rest| ==> !KeptIndented(rest[i]) {
      forall i | 1 <= i < |kinds| ensures !KeptIndented(kinds[i]) {
        assert kinds[i] == rest[i - 1];
      }
    }
  }

  /** In such a report the docstring is null exactly when no indented line
      after the declaration was kept. */
  lemma {:induction false} SingleFixtureDocstring(lines: seq<string>)
    requires |lines| >= 1
    requires forall i :: 0 <= i < |lines| ==> '\n' !in lines[i]
    requires Classify(lines[0]).Declares? && Classify(lines[0]).decl.Complete()
    requires forall i :: 1 <= i < |lines| ==> Quiet(Classify(lines[i]))
    ensures |ParsePytestOutput(Join(lines, '\n'))| == 1
    ensures ParsePytestOutput(Join(lines, '\n'))[0].docstring.None? <==>
      forall i :: 1 <= i < |lines| ==> !KeptIndented(Classify(lines[i]))
  {
    var kinds := ClassifyAll(lines);
    forall i | 0 <= i < |kinds| ensures kinds[i] == Classify(lines[i]) {
      ClassifyAllAt(lines, i);
    }
    IndentedTextNotBlank(lines);
    ParseJoinedLines(lines);
    SingleFixtureKindsDocstring(kinds);
  }

  /** A declaration after a record that lacks a field flushes nothing: it
      overwrites the record and keeps the docstring gathered so far. */
  lemma {:induction false} IncompleteOverwritten(p: Parser, d: Declaration)
    requires !PendingComplete(p.pending)
    ensures Step(p, Declares(d)) == p.(pending := Some(d))
  {
  }

  /** The parser never looks back at the fixtures it has emitted: earlier
      output is carried along untouched. */
  lemma {:induction false} StepPrefix(f: seq<Fixture>, p: Parser, kind: LineKind)
    ensures Step(p.(fixtures := f + p.fixtures), kind) == Step(p, kind).(fixtures := f + Step(p, kind).fixtures)
  {
    if PendingComplete(p.pending) {
      var e := Emit(p.pending.value, p.docstring);
      assert f + (p.fixtures + [e]) == (f + p.fixtures) + [e];
    }
  }

  lemma {:induction false} RunPrefix(f: seq<Fixture>, p: Parser, kinds: seq<LineKind>)
    ensures Run(p.(fixtures := f + p.fixtures), kinds) == Run(p, kinds).(fixtures := f + Run(p, kinds).fixtures)
    decreases |kinds|
  {
    if |kinds| > 0 {
      var init := kinds[..|kinds| - 1];
      RunPrefix(f, p, init);
      StepPrefix(f, Run(p, init), kinds[|kinds| - 1]);
    }
  }

  /** A report cut before a declaration parses as its two parts one after the
      other, when the first part is one declaration and its docstring lines:
      each fixture's docstring is built from its own lines only. */
  lemma {:induction false} ParseSections(a: seq<LineKind>, b: seq<LineKind>)
    requires |a| >= 1 && a[0].Declares? && a[0].decl.Complete()
    requires forall i :: 1 <= i < |a| ==> Quiet(a[i])
    requires |b| >= 1 && b[0].Declares?
    ensures ParseKinds(a + b) == ParseKinds(a) + ParseKinds(b)
  {
    SectionRun(a);
    SingleFixtureRun(a);
    ParseAfterSection(a, b, a[0].decl, AccumulateAll("", a[1..]));
  }

  lemma {:induction false} ParseAfterSection(a: seq<LineKind>, b: seq<LineKind>, d: Declaration, doc: string)
    requires Run(Start, a) == Parser([], Some(d), doc) && d.Complete()
    requires |b| >= 1 && b[0].Declares?
    ensures ParseKinds(a + b) == [Emit(d, doc)] + ParseKinds(b)
  {
    var e := Emit(d, doc);
    var q := Parser([], Some(b[0].decl), "");
    var r := Run(q, b[1..]);
    assert q.(fixtures := [e] + q.fixtures) == Parser([e], Some(b[0].decl), "") by {
      assert [e] + [] == [e];
    }
    calc {
      ParseKinds(a + b);
      FlushIfComplete(Run(Start, a + b)).fixtures;
    == { SectionThenDeclaration(a, b, d, doc); }
      FlushIfComplete(Run(q.(fixtures := [e] + q.fixtures), b[1..])).fixtures;
    == { RunPrefix([e], q, b[1..]); }
      FlushIfComplete(r.(fixtures := [e] + r.fixtures)).fixtures;
    == { FlushPrefix([e], r); }
      [e] + FlushIfComplete(r).fixtures;
    == { RunFirst(Start, b); }
      [e] + ParseKinds(b);
    }
  }

  /** A declaration after a complete record flushes it and starts anew. */
  lemma {:induction false} SectionThenDeclaration(a: seq<LineKind>, b: seq<LineKind>, d: Declaration, doc: string)
    requires Run(Start, a) == Parser([], Some(d), doc) && d.Complete()
    requires |b| >= 1 && b[0].Declares?
    ensures Run(Start, a + b) == Run(Parser([Emit(d, doc)], Some(b[0].decl), ""), b[1..])
  {
    var pa := Run(Start, a);
    calc {
      Run(Start, a + b);
    == { RunAppend(Start, a, b); }
      Run(pa, b);
    == { RunFirst(pa, b); }
      Run(Step(pa, b[0]), b[1..]);
    == { FlushDeclaration(pa, b[0].decl); }
      Run(Parser([] + [Emit(d, doc)], Some(b[0].decl), ""), b[1..]);
    == { assert [] + [Emit(d, doc)] == [Emit(d, doc)]; }
      Run(Parser([Emit(d, doc)], Some(b[0].decl), ""), b[1..]);
    }
  }

  /** A declaration after a complete record pushes that record after the
      fixtures already emitted and starts a fresh record with an empty
      docstring. */
  lemma {:induction false} FlushDeclaration(p: Parser, d: Declaration)
    requires PendingComplete(p.pending)
    ensures Step(p, Declares(d)) == Parser(p.fixtures + [Emit(p.pending.value, p.docstring)], Some(d), "")
  {
  }

  lemma {:induction false} FlushPrefix(f: seq<Fixture>, r: Parser)
    ensures FlushIfComplete(r.(fixtures := f + r.fixtures)) == FlushIfComplete(r).(fixtures := f + FlushIfComplete(r).fixtures)
  {
    if PendingComplete(r.pending) {
      var e := Emit(r.pending.value, r.docstring);
      assert f + (r.fixtures + [e]) == (f + r.fixtures) + [e];
    }
  }
}
