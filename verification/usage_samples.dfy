/**
 * Worked examples for the two small helpers: reading the configured pytest
 * command, and deciding whether to offer fixture names at a cursor.
 */
module UsageSamples {
  import opened JsString
  import opened CommandParser
  import opened Suggest

  lemma {:induction false} CommandText()
    ensures Join(["pytest", "-x", "-v"], ArgumentSeparator) == "pytest -x -v"
    ensures Join(["pytest", "", "-x"], ArgumentSeparator) == "pytest  -x"
  {
  }

  /** A command string is split on its spaces. */
  lemma {:induction false} PytestCommand()
    ensures ParseCommand(Text("pytest -x -v")) == Command("pytest", ["-x", "-v"])
  {
    CommandText();
    TextRoundTrip(Command("pytest", ["-x", "-v"]));
  }

  /** A doubled space gives an empty argument. */
  lemma {:induction false} DoubledSpace()
    ensures ParseCommand(Text("pytest  -x")) == Command("pytest", ["", "-x"])
  {
    CommandText();
    TextRoundTrip(Command("pytest", ["", "-x"]));
  }

  /** An array is taken as it is, spaces included. */
  lemma {:induction false} CommandArray()
    ensures ParseCommand(Tokens(["python", "-m", "pytest"])) == Command("python", ["-m", "pytest"])
  {
  }

  lemma {:induction false} DefinesTest(line: string)
    requires |line| >= |TestDefinition| && line[..|TestDefinition|] == TestDefinition
    ensures Contains(line, TestDefinition)
  {
    assert OccursAt(line, TestDefinition, 0);
  }

  lemma {:induction false} OpenLineTexts()
    ensures Contains("def test_foo(", TestDefinition)
    ensures OpenParen in BeforeCursor("def test_foo(", 13)
    ensures CloseParen !in BeforeCursor("def test_foo(", 13)
  {
    DefinesTest("def test_foo(");
    assert BeforeCursor("def test_foo(", 13) == "def test_foo(";
    assert "def test_foo("[12] == OpenParen;
  }

  /** Right after the `(` of a test function, names are offered. */
  lemma {:induction false} SuggestAfterOpen()
    ensures ShouldSuggest("def test_foo(", 13)
  {
    OpenLineTexts();
  }

  lemma {:induction false} ClosedLineTexts()
    ensures CloseParen in BeforeCursor("def test_foo()", 14)
    ensures OpenParen !in BeforeCursor("def test_foo(", 12)
  {
    assert BeforeCursor("def test_foo()", 14) == "def test_foo()";
    assert "def test_foo()"[13] == CloseParen;
    assert BeforeCursor("def test_foo(", 12) == "def test_foo";
  }

  /** Once the parameter list is closed, or before it opens, nothing is
      offered. */
  lemma {:induction false} NoSuggestOutsideParameters()
    ensures !ShouldSuggest("def test_foo()", 14)
    ensures !ShouldSuggest("def test_foo(", 12)
  {
    ClosedLineTexts();
  }

  lemma {:induction false} HelperLineText()
    ensures !Contains("def helper(", TestDefinition)
  {
    var line := "def helper(";
    forall k | 0 <= k <= |line| ensures !OccursAt(line, TestDefinition, k) {
      if k + |TestDefinition| <= |line| {
        assert line[k..k + |TestDefinition|][4] == line[k + 4] != TestDefinition[4];
      }
    }
  }

  /** A function that is not a test gets no suggestions, wherever the cursor
      is. */
  lemma {:induction false} NoSuggestOutsideTests(cursor: int)
    ensures !ShouldSuggest("def helper(", cursor)
  {
    HelperLineText();
  }

  /** A cursor past the end of the line reads the whole line: column 14 on
      `def test_foo(` suggests, and column 15 on `def test_foo()` does not. */
  lemma {:induction false} CursorPastEnd()
    ensures ShouldSuggest("def test_foo(", 14)
    ensures !ShouldSuggest("def test_foo()", 15)
  {
    SuggestAfterOpen();
    NoSuggestOutsideParameters();
    assert BeforeCursor("def test_foo(", 14) == BeforeCursor("def test_foo(", 13);
    assert BeforeCursor("def test_foo()", 15) == BeforeCursor("def test_foo()", 14);
  }
}
