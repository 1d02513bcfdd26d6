/**
 * Worked examples: concrete report lines and what the model makes of them.
 */
module ReportSamples {
  import opened Optional
  import opened JsString
  import opened JsNumber
  import opened FixtureParser
  import opened ParserProperties

  const TmpdirPath: string := "tests/lib/python2.7/" + "site-packages/" + "_pytest/tmpdir.py"

  lemma {:induction false} TmpdirPathHasNoColon()
    ensures LineNumberSeparator !in TmpdirPath
  {
    NoColon("tests/lib/python2.7/");
    NoColon("site-packages/");
    NoColon("_pytest/tmpdir.py");
  }

  lemma {:induction false} DecimalSample()
    ensures Decimal(172) == "172"
    ensures Decimal(10) == "10"
    ensures Decimal(20) == "20"
  {
  }

  /** Colon-free text, checked character by character. */
  lemma {:induction false} NoColon(s: string)
    requires forall i :: 0 <= i < |s| ==> s[i] != ':'
    ensures LineNumberSeparator !in s
  {
  }

  /** A declaration line from a real report. */
  lemma {:induction false} TmpdirDeclaration()
    ensures Classify("tmpdir -- " + TmpdirPath + ":172")
      == Declares(Declaration("tmpdir", TmpdirPath, Num(172)))
  {
    TmpdirPathHasNoColon();
    DecimalSample();
    assert "tmpdir -- " + TmpdirPath + ":172"
      == "tmpdir" + PathSeparator + TmpdirPath + [LineNumberSeparator] + Decimal(172);
    DeclarationLine("tmpdir", TmpdirPath, 172);
  }

  const Foo: Declaration := Declaration("foo", "a/b.py", Num(10))
  const Bar: Declaration := Declaration("bar", "c/d.py", Num(20))

  /** A one-word docstring line followed by a line break trims to the word. */
  lemma {:induction false} WordDocstring(word: string)
    requires word != [] && forall i :: 0 <= i < |word| ==> IsWordChar(word[i])
    ensures TrimOrNull(word + "\n") == Some(word)
  {
    assert !IsWhitespace(word[0]) && !IsWhitespace(word[|word| - 1]);
    assert "" + word + "\n" == word + "\n";
    TrimPadded("", word, "\n");
  }

  /** A single word is never filtered out of a docstring: the filtered phrase
      holds a space. */
  lemma {:induction false} WordKept(word: string)
    requires forall i :: 0 <= i < |word| ==> IsWordChar(word[i])
    ensures KeptDocLine(word)
  {
    KeptDocLineMeaning(word);
    forall k | 0 <= k <= |word| ensures !OccursAt(word, NoDocstring, k) {
      if k + |NoDocstring| <= |word| {
        assert word[k..k + |NoDocstring|][2] == word[k + 2] != NoDocstring[2];
      }
    }
  }

  /** A one-word docstring line and a blank line accumulate the word and a
      line break. */
  lemma {:induction false} WordAccumulated(word: string)
    requires word != [] && forall i :: 0 <= i < |word| ==> IsWordChar(word[i])
    ensures AccumulateAll("", [Indented(word), Blank]) == word + "\n"
  {
    var doc := [Indented(word), Blank];
    WordKept(word);
    assert doc[..1] == [Indented(word)];
    assert [Indented(word)][..0] == [];
    assert AccumulateAll("", doc[..1]) == Accumulate("", Indented(word)) == word;
  }

  /** A declaration, a one-word docstring line and a blank line give one
      fixture whose docstring is that word. */
  lemma {:induction false} WordSection(d: Declaration, word: string)
    requires d.Complete()
    requires word != [] && forall i :: 0 <= i < |word| ==> IsWordChar(word[i])
    ensures ParseKinds([Declares(d), Indented(word), Blank])
      == [Fixture(d.name, Some(word), d.sourceFile, d.sourceLine)]
  {
    var kinds := [Declares(d), Indented(word), Blank];
    calc {
      ParseKinds(kinds);
    == { SingleFixtureRun(kinds); }
      [Emit(d, AccumulateAll("", kinds[1..]))];
    == { assert kinds[1..] == [Indented(word), Blank]; WordAccumulated(word); }
      [Emit(d, word + "\n")];
    == { WordDocstring(word); }
      [Fixture(d.name, Some(word), d.sourceFile, d.sourceLine)];
    }
  }

  /** Two declarations, each followed by a one-word docstring line and a
      blank line, give two fixtures in report order, each with its own
      docstring. */
  lemma {:induction false} TwoSections(d: Declaration, w: string, e: Declaration, v: string)
    requires d.Complete() && e.Complete()
    requires w != [] && forall i :: 0 <= i < |w| ==> IsWordChar(w[i])
    requires v != [] && forall i :: 0 <= i < |v| ==> IsWordChar(v[i])
    ensures ParseKinds([Declares(d), Indented(w), Blank] + [Declares(e), Indented(v), Blank])
      == [Fixture(d.name, Some(w), d.sourceFile, d.sourceLine), Fixture(e.name, Some(v), e.sourceFile, e.sourceLine)]
    ensures ParseKinds([Declares(d), Indented(w), Blank, Declares(e), Indented(v), Blank])
      == [Fixture(d.name, Some(w), d.sourceFile, d.sourceLine), Fixture(e.name, Some(v), e.sourceFile, e.sourceLine)]
  {
    var first := [Declares(d), Indented(w), Blank];
    var second := [Declares(e), Indented(v), Blank];
    assert first + second == [Declares(d), Indented(w), Blank, Declares(e), Indented(v), Blank];
    ParseSections(first, second);
    WordSection(d, w);
    WordSection(e, v);
    var f := Fixture(d.name, Some(w), d.sourceFile, d.sourceLine);
    var g := Fixture(e.name, Some(v), e.sourceFile, e.sourceLine);
    assert [f] + [g] == [f, g];
  }

  /** The report `foo -- a/b.py:10`, `    hello`, ``, `bar -- c/d.py:20`,
      `    world`, `` read line by line. */
  lemma {:induction false} TwoFixtureKinds()
    ensures ParseKinds([Declares(Foo), Indented("hello"), Blank, Declares(Bar), Indented("world"), Blank])
      == [Fixture("foo", Some("hello"), "a/b.py", Num(10)), Fixture("bar", Some("world"), "c/d.py", Num(20))]
  {
    TwoSections(Foo, "hello", Bar, "world");
  }

  /** An indented word is a docstring line holding that word. */
  lemma {:induction false} IndentedWord(w: string)
    requires w != [] && forall i :: 0 <= i < |w| ==> IsWordChar(w[i])
    ensures Classify(Indent + w) == Indented(w)
    ensures '\n' !in Indent + w
  {
    assert forall i :: 0 <= i < |w| ==> (Indent + w)[i + 4] == w[i];
    var line := Indent + w;
    assert line[|Indent|] == w[0] && !IsWhitespace(w[0]);
    assert line[..|Indent|] == Indent;
    assert line[|Indent|..] == w;
  }

  /** A declaration line followed by an indented one-word docstring line and
      an empty line, as a report. */
  lemma {:induction false} OneSectionReport(l: string, d: Declaration, w: string)
    requires Classify(l) == Declares(d) && d.Complete() && '\n' !in l
    requires w != [] && forall i :: 0 <= i < |w| ==> IsWordChar(w[i])
    ensures ParsePytestOutput(Join([l, Indent + w, ""], '\n'))
      == [Fixture(d.name, Some(w), d.sourceFile, d.sourceLine)]
  {
    var lines := [l, Indent + w, ""];
    var kinds := [Declares(d), Indented(w), Blank];
    forall i | 0 <= i < |lines|
      ensures '\n' !in lines[i] && Classify(lines[i]) == kinds[i]
    {
      if i == 1 {
        IndentedWord(w);
      }
    }
    ReportOfLines(lines, kinds);
    WordSection(d, w);
  }

  lemma {:induction false} FooLine()
    ensures Classify("foo -- a/b.py:10") == Declares(Foo)
  {
    DecimalSample();
    assert "foo -- a/b.py:10" == "foo" + PathSeparator + "a/b.py" + [LineNumberSeparator] + Decimal(10);
    DeclarationLine("foo", "a/b.py", 10);
  }

  lemma {:induction false} FooReportTexts()
    ensures '\n' !in "foo -- a/b.py:10"
    ensures "hello" != [] && forall i :: 0 <= i < |"hello"| ==> IsWordChar("hello"[i])
    ensures Indent + "hello" == "    hello"
  {
  }

  /** The three lines of a one-word section are read as declaration,
      docstring line and blank line. */
  lemma {:induction false} SectionLines(l: string, d: Declaration, w: string)
    requires Classify(l) == Declares(d) && '\n' !in l
    requires w != [] && forall i :: 0 <= i < |w| ==> IsWordChar(w[i])
    ensures ClassifyAll([l, Indent + w, ""]) == [Declares(d), Indented(w), Blank]
    ensures forall i :: 0 <= i < |[l, Indent + w, ""]| ==> '\n' !in [l, Indent + w, ""][i]
  {
    var lines := [l, Indent + w, ""];
    var kinds := [Declares(d), Indented(w), Blank];
    forall i | 0 <= i < |lines|
      ensures '\n' !in lines[i] && Classify(lines[i]) == kinds[i]
    {
      if i == 1 {
        IndentedWord(w);
      }
    }
    KindsOfLines(lines, kinds);
  }

  /** Two one-word sections as a report give their two fixtures. */
  lemma {:induction false} TwoSectionReport(l: string, d: Declaration, w: string, m: string, e: Declaration, v: string)
    requires Classify(l) == Declares(d) && d.Complete() && '\n' !in l
    requires Classify(m) == Declares(e) && e.Complete() && '\n' !in m
    requires w != [] && forall i :: 0 <= i < |w| ==> IsWordChar(w[i])
    requires v != [] && forall i :: 0 <= i < |v| ==> IsWordChar(v[i])
    ensures ParsePytestOutput(Join([l, Indent + w, ""] + [m, Indent + v, ""], '\n'))
      == [Fixture(d.name, Some(w), d.sourceFile, d.sourceLine), Fixture(e.name, Some(v), e.sourceFile, e.sourceLine)]
  {
    var a := [l, Indent + w, ""];
    var b := [m, Indent + v, ""];
    SectionLines(l, d, w);
    SectionLines(m, e, v);
    JoinedParts(a, b, [Declares(d), Indented(w), Blank], [Declares(e), Indented(v), Blank]);
    TwoSections(d, w, e, v);
  }

  /** Lines put together from two runs of lines are classified as the two runs
      of kinds put together. */
  lemma {:induction false} JoinedParts(a: seq<string>, b: seq<string>, ka: seq<LineKind>, kb: seq<LineKind>)
    requires |a| >= 1
    requires ClassifyAll(a) == ka && ClassifyAll(b) == kb
    requires forall i :: 0 <= i < |a| ==> '\n' !in a[i]
    requires forall i :: 0 <= i < |b| ==> '\n' !in b[i]
    ensures ParsePytestOutput(Join(a + b, '\n')) == ParseKinds(ka + kb)
  {
    NoBreaks(a, b);
    ParseJoinedLines(a + b);
    ClassifyAllAppend(a, b);
  }

  lemma {:induction false} NoBreaks(a: seq<string>, b: seq<string>)
    requires forall i :: 0 <= i < |a| ==> '\n' !in a[i]
    requires forall i :: 0 <= i < |b| ==> '\n' !in b[i]
    ensures forall i :: 0 <= i < |a + b| ==> '\n' !in (a + b)[i]
  {
  }

  /** The report `foo -- a/b.py:10`, `    hello`, `` as text. */
  lemma {:induction false} FooReport()
    ensures ParsePytestOutput(Join(["foo -- a/b.py:10", "    hello", ""], '\n'))
      == [Fixture("foo", Some("hello"), "a/b.py", Num(10))]
  {
    FooLine();
    FooReportTexts();
    OneSectionReport("foo -- a/b.py:10", Foo, "hello");
  }

  /** The report `foo -- a/b.py:10`, `    hello`, ``, `bar -- c/d.py:20`,
      `    world`, `` as text gives foo and bar, each with its docstring. */
  lemma {:induction false} FooBarReport()
    ensures ParsePytestOutput(Join(["foo -- a/b.py:10", "    hello", ""] + ["bar -- c/d.py:20", "    world", ""], '\n'))
      == [Fixture("foo", Some("hello"), "a/b.py", Num(10)), Fixture("bar", Some("world"), "c/d.py", Num(20))]
  {
    FooLine();
    BarLine();
    FooReportTexts();
    BarTexts();
    FooBarLines("foo -- a/b.py:10", "bar -- c/d.py:20");
  }

  /** The same report written as one string with its line breaks. */
  lemma {:induction false} FooBarText()
    ensures ParsePytestOutput("foo -- a/b.py:10\n    hello\n\nbar -- c/d.py:20\n    world\n")
      == [Fixture("foo", Some("hello"), "a/b.py", Num(10)), Fixture("bar", Some("world"), "c/d.py", Num(20))]
  {
    FooBarSpelling();
    FooBarReport();
  }

  lemma {:induction false} FooBarSpelling()
    ensures Join(["foo -- a/b.py:10", "    hello", ""] + ["bar -- c/d.py:20", "    world", ""], '\n')
      == "foo -- a/b.py:10\n    hello\n\nbar -- c/d.py:20\n    world\n"
  {
    SixLines("foo -- a/b.py:10", "    hello", "", "bar -- c/d.py:20", "    world", "");
    FooBarPieces();
    FooBarHalves();
  }

  /** The pieces of the foo and bar report, put together character by
      character. */
  lemma {:induction false} FooBarPieces()
    ensures "foo -- a/b.py:10" + "\n" + "    hello" + "\n" == "foo -- a/b.py:10\n    hello\n"
    ensures "" + "\n" + "bar -- c/d.py:20" + "\n" + "    world" + "\n" + "" == "\nbar -- c/d.py:20\n    world\n"
  {
  }

  lemma {:induction false} FooBarHalves()
    ensures "foo -- a/b.py:10\n    hello\n" + "\nbar -- c/d.py:20\n    world\n"
      == "foo -- a/b.py:10\n    hello\n\nbar -- c/d.py:20\n    world\n"
  {
  }

  /** Six lines joined by line breaks, spelled out. */
  lemma {:induction false} SixLines(a: string, b: string, c: string, d: string, e: string, f: string)
    ensures Join([a, b, c] + [d, e, f], '\n')
      == a + "\n" + b + "\n" + c + "\n" + d + "\n" + e + "\n" + f
  {
    var s := [a, b, c, d, e, f];
    assert [a, b, c] + [d, e, f] == s;
    calc {
      Join(s, '\n');
      a + "\n" + Join([b, c, d, e, f], '\n');
      { assert [b, c, d, e, f][1..] == [c, d, e, f]; }
      a + "\n" + (b + "\n" + Join([c, d, e, f], '\n'));
      { assert [c, d, e, f][1..] == [d, e, f]; }
      a + "\n" + (b + "\n" + (c + "\n" + Join([d, e, f], '\n')));
      { assert [d, e, f][1..] == [e, f]; }
      a + "\n" + (b + "\n" + (c + "\n" + (d + "\n" + Join([e, f], '\n'))));
      { assert [e, f][1..] == [f]; }
      a + "\n" + (b + "\n" + (c + "\n" + (d + "\n" + (e + "\n" + f))));
      a + "\n" + b + "\n" + c + "\n" + d + "\n" + e + "\n" + f;
    }
  }

  /** Any two lines read as the foo and bar declarations, each followed by
      its one-word docstring line and a blank line, give foo and bar. */
  lemma {:induction false} FooBarLines(l: string, m: string)
    requires Classify(l) == Declares(Foo) && '\n' !in l
    requires Classify(m) == Declares(Bar) && '\n' !in m
    ensures ParsePytestOutput(Join([l, Indent + "hello", ""] + [m, Indent + "world", ""], '\n'))
      == [Fixture("foo", Some("hello"), "a/b.py", Num(10)), Fixture("bar", Some("world"), "c/d.py", Num(20))]
  {
    FooReportTexts();
    BarTexts();
    TwoSectionReport(l, Foo, "hello", m, Bar, "world");
  }

  lemma {:induction false} BarLine()
    ensures Classify("bar -- c/d.py:20") == Declares(Bar)
  {
    DecimalSample();
    assert "bar -- c/d.py:20" == "bar" + PathSeparator + "c/d.py" + [LineNumberSeparator] + Decimal(20);
    DeclarationLine("bar", "c/d.py", 20);
  }

  lemma {:induction false} BarTexts()
    ensures '\n' !in "bar -- c/d.py:20"
    ensures "world" != [] && forall i :: 0 <= i < |"world"| ==> IsWordChar("world"[i])
    ensures Indent + "world" == "    world"
  {
  }

  /** A declaration with no docstring lines after it has a null docstring. */
  lemma {:induction false} LoneDeclaration(d: Declaration)
    requires d.Complete()
    ensures ParseKinds([Declares(d)]) == [Fixture(d.name, None, d.sourceFile, d.sourceLine)]
  {
    calc {
      ParseKinds([Declares(d)]);
    == { SingleFixtureRun([Declares(d)]); }
      [Emit(d, AccumulateAll("", [Declares(d)][1..]))];
    == { assert [Declares(d)][1..] == []; }
      [Emit(d, "")];
    }
  }

  /** A report of one declaration line and nothing else. */
  lemma {:induction false} LoneDeclarationReport(l: string, d: Declaration)
    requires Classify(l) == Declares(d) && d.Complete() && '\n' !in l
    ensures ParsePytestOutput(l) == [Fixture(d.name, None, d.sourceFile, d.sourceLine)]
  {
    calc {
      ParsePytestOutput(l);
    == { assert Join([l], '\n') == l; }
      ParsePytestOutput(Join([l], '\n'));
    == { ReportOfLines([l], [Declares(d)]); }
      ParseKinds([Declares(d)]);
    == { LoneDeclaration(d); }
      [Fixture(d.name, None, d.sourceFile, d.sourceLine)];
    }
  }

  /** The report `foo -- a/b.py:10` alone. */
  lemma {:induction false} FooAlone()
    ensures ParsePytestOutput("foo -- a/b.py:10") == [Fixture("foo", None, "a/b.py", Num(10))]
  {
    FooLine();
    FooReportTexts();
    LoneDeclarationReport("foo -- a/b.py:10", Foo);
  }

  /** The same section twice gives the same fixture twice: nothing removes
      duplicates. */
  lemma {:induction false} DuplicateSections()
    ensures ParseKinds([Declares(Foo), Indented("hello"), Blank, Declares(Foo), Indented("hello"), Blank])
      == [Fixture("foo", Some("hello"), "a/b.py", Num(10)), Fixture("foo", Some("hello"), "a/b.py", Num(10))]
  {
    TwoSections(Foo, "hello", Foo, "hello");
  }

  /** The filter keeps a line that opens with the phrase. */
  lemma {:induction false} NoDocstringAtStart()
    ensures KeptDocLine("no docstring available")
  {
    var s := "no docstring available";
    assert s[..|NoDocstring|] == NoDocstring;
    FirstOccurrence(s, NoDocstring, 0);
  }

  /** The filter drops a line where text without an `n` comes before the
      phrase, whatever follows it. */
  lemma {:induction false} PhraseAfter(p: string, rest: string)
    requires p != [] && 'n' !in p
    ensures !KeptDocLine(p + NoDocstring + rest)
  {
    var t := p + NoDocstring + rest;
    forall k | 0 <= k < |p|
      ensures !OccursAt(t, NoDocstring, k)
    {
      assert t[k] == p[k];
      if k + |NoDocstring| <= |t| {
        assert t[k..k + |NoDocstring|][0] == t[k];
      }
    }
    assert t[|p|..|p| + |NoDocstring|] == NoDocstring;
    FirstOccurrence(t, NoDocstring, |p|);
  }

  /** The filter drops a line where the phrase comes later. */
  lemma {:induction false} NoDocstringLater()
    ensures !KeptDocLine("see no docstring")
  {
    assert "see no docstring" == "see " + NoDocstring + "";
    PhraseAfter("see ", "");
  }

  /** A docstring line the filter drops and a blank line accumulate nothing. */
  lemma {:induction false} DroppedLineAccumulated(t: string)
    requires !KeptDocLine(t)
    ensures AccumulateAll("", [Indented(t), Blank]) == ""
  {
    var doc := [Indented(t), Blank];
    assert doc[..1] == [Indented(t)];
    assert [Indented(t)][..0] == [];
    assert AccumulateAll("", doc[..1]) == Accumulate("", Indented(t)) == "";
  }

  /** A docstring line the filter drops leaves a section without a docstring:
      the fixture's docstring is null. */
  lemma {:induction false} DroppedLineSection(d: Declaration, t: string)
    requires d.Complete() && !KeptDocLine(t)
    ensures ParseKinds([Declares(d), Indented(t), Blank]) == [Fixture(d.name, None, d.sourceFile, d.sourceLine)]
  {
    var kinds := [Declares(d), Indented(t), Blank];
    calc {
      ParseKinds(kinds);
    == { SingleFixtureRun(kinds); }
      [Emit(d, AccumulateAll("", kinds[1..]))];
    == { assert kinds[1..] == [Indented(t), Blank]; DroppedLineAccumulated(t); }
      [Emit(d, "")];
    }
  }

  /** The same section as report text. */
  lemma {:induction false} DroppedLineReport(l: string, d: Declaration, t: string)
    requires Classify(l) == Declares(d) && d.Complete() && '\n' !in l
    requires Classify(Indent + t) == Indented(t) && '\n' !in Indent + t && !KeptDocLine(t)
    ensures ParsePytestOutput(Join([l, Indent + t, ""], '\n'))
      == [Fixture(d.name, None, d.sourceFile, d.sourceLine)]
  {
    var lines := [l, Indent + t, ""];
    var kinds := [Declares(d), Indented(t), Blank];
    forall i | 0 <= i < |lines|
      ensures '\n' !in lines[i] && Classify(lines[i]) == kinds[i]
    {
    }
    calc {
      ParsePytestOutput(Join(lines, '\n'));
    == { ReportOfLines(lines, kinds); }
      ParseKinds(kinds);
    == { DroppedLineSection(d, t); }
      [Fixture(d.name, None, d.sourceFile, d.sourceLine)];
    }
  }

  /** The docstring line pytest prints, after the fixture's location, for a
      fixture without a docstring. */
  const MissingDocstring: string := "a/b.py:10: " + NoDocstring + " available"

  lemma {:induction false} MissingDocstringLine()
    ensures !KeptDocLine(MissingDocstring)
    ensures '\n' !in Indent + MissingDocstring
    ensures Classify(Indent + MissingDocstring) == Indented(MissingDocstring)
  {
    PhraseAfter("a/b.py:10: ", " available");
    var line := Indent + MissingDocstring;
    assert !IsWhitespace(line[4]);
    assert line[..|Indent|] == Indent;
    assert line[|Indent|..] == MissingDocstring;
    NoNewline(Indent);
    NoNewline("a/b.py:10: ");
    NoNewline(NoDocstring);
    NoNewline(" available");
  }

  lemma {:induction false} NoNewline(s: string)
    requires forall i :: 0 <= i < |s| ==> s[i] != '\n'
    ensures '\n' !in s
  {
  }

  /** A report whose only docstring line is `a/b.py:10: no docstring
      available` gives the fixture a null docstring. */
  lemma {:induction false} FooWithoutDocstring()
    ensures ParsePytestOutput(Join(["foo -- a/b.py:10", Indent + MissingDocstring, ""], '\n'))
      == [Fixture("foo", None, "a/b.py", Num(10))]
  {
    FooLine();
    FooReportTexts();
    MissingDocstringLine();
    DroppedLineReport("foo -- a/b.py:10", Foo, MissingDocstring);
  }

  /** A separator line flushes the record in progress: the indented line after
      it belongs to no fixture. */
  lemma {:induction false} SeparatorSection(d: Declaration, w: string)
    requires d.Complete()
    ensures ParseKinds([Declares(d), Separator, Indented(w)]) == [Fixture(d.name, None, d.sourceFile, d.sourceLine)]
  {
    var kinds := [Declares(d), Separator, Indented(w)];
    var flushed := Parser([Emit(d, "")], None, "");
    calc {
      Run(Start, kinds);
    == { RunFirst(Start, kinds); }
      Run(Step(Start, Declares(d)), kinds[1..]);
    == { RunFirst(Step(Start, Declares(d)), kinds[1..]); }
      Run(Step(Step(Start, Declares(d)), Separator), kinds[1..][1..]);
    == { assert Step(Step(Start, Declares(d)), Separator) == flushed by {
           assert [] + [Emit(d, "")] == [Emit(d, "")];
         }
         assert kinds[1..][1..] == [Indented(w)];
         assert [Indented(w)][..0] == []; }
      Step(flushed, Indented(w));
    }
  }

  /** The same section as report text. */
  lemma {:induction false} SeparatorReport(l: string, d: Declaration, m: string, w: string)
    requires Classify(l) == Declares(d) && d.Complete() && '\n' !in l
    requires Classify(m) == Separator && '\n' !in m
    requires w != [] && forall i :: 0 <= i < |w| ==> IsWordChar(w[i])
    ensures ParsePytestOutput(Join([l, m, Indent + w], '\n'))
      == [Fixture(d.name, None, d.sourceFile, d.sourceLine)]
  {
    var lines := [l, m, Indent + w];
    var kinds := [Declares(d), Separator, Indented(w)];
    forall i | 0 <= i < |lines|
      ensures '\n' !in lines[i] && Classify(lines[i]) == kinds[i]
    {
      if i == 2 {
        IndentedWord(w);
      }
    }
    calc {
      ParsePytestOutput(Join(lines, '\n'));
    == { ReportOfLines(lines, kinds); }
      ParseKinds(kinds);
    == { SeparatorSection(d, w); }
      [Fixture(d.name, None, d.sourceFile, d.sourceLine)];
    }
  }

  /** A line of dashes is a separator. */
  lemma {:induction false} DashLine()
    ensures Classify("----") == Separator && '\n' !in "----"
  {
    assert !IsWhitespace("----"[0]);
    assert "----"[..4] != Indent;
    assert "----"[..2] == "--";
  }

  /** The report `foo -- a/b.py:10`, `----`, `    hello`: the separator
      closes foo before `hello` is read, so foo has no docstring. */
  lemma {:induction false} FooThenSeparator()
    ensures ParsePytestOutput(Join(["foo -- a/b.py:10", "----", Indent + "hello"], '\n'))
      == [Fixture("foo", None, "a/b.py", Num(10))]
  {
    FooLine();
    FooReportTexts();
    DashLine();
    SeparatorReport("foo -- a/b.py:10", Foo, "----", "hello");
  }

  /** Two one-word docstring lines and a blank line after a record: the
      docstring is the two words on two lines, then a line break. */
  lemma {:induction false} TwoWordsAccumulated(w: string, v: string)
    requires w != [] && forall i :: 0 <= i < |w| ==> IsWordChar(w[i])
    requires v != [] && forall i :: 0 <= i < |v| ==> IsWordChar(v[i])
    ensures AccumulateAll(w, [Indented(v), Blank]) == w + "\n" + v + "\n"
  {
    var doc := [Indented(v), Blank];
    WordKept(v);
    assert doc[..1] == [Indented(v)];
    assert [Indented(v)][..0] == [];
    assert AccumulateAll(w, doc[..1]) == Accumulate(w, Indented(v)) == w + "\n" + v;
  }

  /** After a declaration missing a field and one docstring line, the record
      in progress holds the declaration and that line. */
  lemma {:induction false} IncompleteRun(x: Declaration, w: string)
    requires w != [] && forall i :: 0 <= i < |w| ==> IsWordChar(w[i])
    ensures Run(Start, [Declares(x), Indented(w)]) == Parser([], Some(x), w)
  {
    var a := [Declares(x), Indented(w)];
    SectionRun(a);
    WordKept(w);
    assert a[1..] == [Indented(w)];
    assert [Indented(w)][..0] == [];
  }

  /** The run over a declaration that lacks a field, a docstring line, a
      complete declaration, a docstring line and a blank line. */
  lemma {:induction false} CarriedRun(x: Declaration, w: string, d: Declaration, v: string)
    requires !x.Complete()
    requires w != [] && forall i :: 0 <= i < |w| ==> IsWordChar(w[i])
    requires v != [] && forall i :: 0 <= i < |v| ==> IsWordChar(v[i])
    ensures Run(Start, [Declares(x), Indented(w)] + [Declares(d), Indented(v), Blank])
      == Parser([], Some(d), w + "\n" + v + "\n")
  {
    var a := [Declares(x), Indented(w)];
    var b := [Declares(d), Indented(v), Blank];
    var q := Parser([], Some(d), w);
    calc {
      Run(Start, a + b);
    == { RunAppend(Start, a, b); }
      Run(Run(Start, a), b);
    == { IncompleteRun(x, w); }
      Run(Parser([], Some(x), w), b);
    == { RunFirst(Parser([], Some(x), w), b); IncompleteOverwritten(Parser([], Some(x), w), d); }
      Run(q, b[1..]);
    == { assert b[1..] == [Indented(v), Blank]; RunQuiet(q, [Indented(v), Blank]); TwoWordsAccumulated(w, v); }
      Parser([], Some(d), w + "\n" + v + "\n");
    }
  }

  /** Two words on two lines, then a line break, trim to the two lines. */
  lemma {:induction false} TwoWordDocstring(w: string, v: string)
    requires w != [] && forall i :: 0 <= i < |w| ==> IsWordChar(w[i])
    requires v != [] && forall i :: 0 <= i < |v| ==> IsWordChar(v[i])
    ensures TrimOrNull(w + "\n" + v + "\n") == Some(w + "\n" + v)
  {
    var t := w + "\n" + v;
    assert t[0] == w[0] && t[|t| - 1] == v[|v| - 1];
    assert "" + t + "\n" == t + "\n";
    TrimPadded("", t, "\n");
  }

  /** The end of the input flushes the record with its docstring trimmed. */
  lemma {:induction false} FlushWords(d: Declaration, w: string, v: string)
    requires d.Complete()
    requires w != [] && forall i :: 0 <= i < |w| ==> IsWordChar(w[i])
    requires v != [] && forall i :: 0 <= i < |v| ==> IsWordChar(v[i])
    ensures FlushIfComplete(Parser([], Some(d), w + "\n" + v + "\n")).fixtures
      == [Fixture(d.name, Some(w + "\n" + v), d.sourceFile, d.sourceLine)]
  {
    var t := w + "\n" + v;
    var p := Parser([], Some(d), t + "\n");
    TwoWordDocstring(w, v);
    calc {
      FlushIfComplete(p).fixtures;
      [] + [Emit(d, t + "\n")];
    == { assert [] + [Emit(d, t + "\n")] == [Emit(d, t + "\n")]; }
      [Emit(d, t + "\n")];
    }
  }

  /** A declaration that lacks a field is overwritten by the next one, and
      the docstring lines read after it are carried over to that one. */
  lemma {:induction false} CarriedDocstring(x: Declaration, w: string, d: Declaration, v: string)
    requires !x.Complete() && d.Complete()
    requires w != [] && forall i :: 0 <= i < |w| ==> IsWordChar(w[i])
    requires v != [] && forall i :: 0 <= i < |v| ==> IsWordChar(v[i])
    ensures ParseKinds([Declares(x), Indented(w), Declares(d), Indented(v), Blank])
      == [Fixture(d.name, Some(w + "\n" + v), d.sourceFile, d.sourceLine)]
  {
    assert [Declares(x), Indented(w), Declares(d), Indented(v), Blank]
      == [Declares(x), Indented(w)] + [Declares(d), Indented(v), Blank];
    CarriedRun(x, w, d, v);
    FlushWords(d, w, v);
  }

  lemma {:induction false} TwoLineText()
    ensures "first" + "\n" + "hello" == "first\nhello"
  {
  }

  /** A record with a name but an empty path and a NaN line number, which
      is not complete, then `    first`, then `foo -- a/b.py:10`, `    hello`,
      ``: the first docstring line is carried over to `foo`. */
  lemma {:induction false} CarriedDocstringSample()
    ensures ParseKinds([Declares(Declaration("name", "", NaN)), Indented("first"), Declares(Foo), Indented("hello"), Blank])
      == [Fixture("foo", Some("first\nhello"), "a/b.py", Num(10))]
  {
    CarriedDocstring(Declaration("name", "", NaN), "first", Foo, "hello");
    TwoLineText();
  }
}
