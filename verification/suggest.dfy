/**
 * `shouldSuggest`: whether fixture names should be offered at a cursor. The
 * line must define a test function (`def test_` anywhere in it), and the text
 * before the cursor must have opened the parameter list without closing it.
 */
module Suggest {
  import opened JsString

  const TestDefinition: string := "def test_"
  const OpenParen: char := '('
  const CloseParen: char := ')'

  /** Where `substr(0, cursor)` ends: the cursor clamped to the line. */
  function CursorEnd(line: string, cursor: int): (n: nat)
    ensures n <= |line|
    ensures Substr(line, 0, cursor) == line[..n]
    ensures 0 <= cursor <= |line| ==> n == cursor
    ensures cursor < 0 ==> n == 0
    ensures cursor > |line| ==> n == |line|
  {
    if cursor < 0 then 0 else if cursor > |line| then |line| else cursor
  }

  /** The characters of the line before the cursor. */
  function BeforeCursor(line: string, cursor: int): string {
    line[..CursorEnd(line, cursor)]
  }

  /** `shouldSuggest(lineText, cursorPosition)`: true exactly when the line
      holds `def test_` and the text before the cursor holds a `(` and no
      `)`. */
  function ShouldSuggest(lineText: string, cursor: int): (r: bool)
    ensures r <==>
      && Contains(lineText, TestDefinition)
      && OpenParen in BeforeCursor(lineText, cursor)
      && CloseParen !in BeforeCursor(lineText, cursor)
  {
    if Contains(lineText, TestDefinition) then
      var prefix := Substr(lineText, 0, cursor);
      assert prefix == BeforeCursor(lineText, cursor);
      IndexOfChar(prefix, OpenParen);
      IndexOfChar(prefix, CloseParen);
      IndexOf(prefix, [OpenParen]) > -1 && IndexOf(prefix, [CloseParen]) == -1
    else
      false
  }

  /** A longer prefix keeps every character of a shorter one. */
  lemma {:induction false} BeforeCursorGrows(line: string, c1: int, c2: int, ch: char)
    requires c1 <= c2
    requires ch in BeforeCursor(line, c1)
    ensures ch in BeforeCursor(line, c2)
  {
    var a := BeforeCursor(line, c1);
    var b := BeforeCursor(line, c2);
    var k :| 0 <= k < |a| && a[k] == ch;
    assert b[k] == a[k];
  }

  /** Once the parameter list is closed before the cursor, moving the cursor
      further right never brings the suggestion back. */
  lemma {:induction false} ClosedStaysClosed(line: string, c1: int, c2: int)
    requires c1 <= c2
    requires CloseParen in BeforeCursor(line, c1)
    ensures !ShouldSuggest(line, c1)
    ensures !ShouldSuggest(line, c2)
  {
    BeforeCursorGrows(line, c1, c2, CloseParen);
  }

  /** Inside an open parameter list the suggestion holds from the `(` onward:
      a cursor left of a suggesting one still suggests if it is past a `(`. */
  lemma {:induction false} OpenedStaysOpen(line: string, c1: int, c2: int)
    requires c1 <= c2
    requires ShouldSuggest(line, c2)
    requires OpenParen in BeforeCursor(line, c1)
    ensures ShouldSuggest(line, c1)
  {
    if CloseParen in BeforeCursor(line, c1) {
      BeforeCursorGrows(line, c1, c2, CloseParen);
    }
  }

  /** A cursor at or before the start of the line never suggests. */
  lemma {:induction false} NothingBeforeStart(line: string, cursor: int)
    requires cursor <= 0
    ensures !ShouldSuggest(line, cursor)
  {
    assert BeforeCursor(line, cursor) == [];
  }
}
