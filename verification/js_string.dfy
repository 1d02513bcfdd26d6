/**
 * The JavaScript string operations the fixture parser relies on, with their
 * edge cases written out rather than idealised: `indexOf` answers -1 when the
 * needle is absent, `slice` counts negative positions from the end, clamps to
 * the string and yields "" when the start passes the end, `substr` clamps its
 * length, `trim` strips JavaScript white space, `split` on a one-character
 * separator always yields at least one piece.
 *
 * A string is a sequence of code points.
 */
module JsString {

  /** The code points JavaScript's `\s` matches and `trim()` removes:
      WhiteSpace and LineTerminator of the ECMAScript grammar (tab, line feed,
      vertical tab, form feed, carriage return, space, no-break space, the
      Ogham space mark, U+2000 to U+200A, the line and paragraph separators,
      the narrow no-break space, the medium mathematical space, the
      ideographic space and the byte order mark). */
  const Whitespace: set<char> := {
    '\t', '\n', '\U{000B}', '\U{000C}', '\r', ' ', '\U{00A0}',
    '\U{1680}', '\U{2000}', '\U{2001}', '\U{2002}', '\U{2003}', '\U{2004}', '\U{2005}',
    '\U{2006}', '\U{2007}', '\U{2008}', '\U{2009}', '\U{200A}', '\U{2028}', '\U{2029}',
    '\U{202F}', '\U{205F}', '\U{3000}', '\U{FEFF}'
  }

  predicate IsWhitespace(c: char) {
    c in Whitespace
  }

  /** The characters of a regular expression's `\w` without the `u` flag. */
  predicate IsWordChar(c: char) {
    ('a' <= c <= 'z') || ('A' <= c <= 'Z') || ('0' <= c <= '9') || c == '_'
  }

  predicate AllWhitespace(s: string) {
    forall i :: 0 <= i < |s| ==> IsWhitespace(s[i])
  }

  /** `pat` occurs in `s` starting at position `k`. */
  predicate OccursAt(s: string, pat: string, k: int) {
    0 <= k && k + |pat| <= |s| && s[k..k + |pat|] == pat
  }

  predicate Contains(s: string, pat: string) {
    exists k :: 0 <= k <= |s| && OccursAt(s, pat, k)
  }

  predicate StartsWith(s: string, prefix: string) {
    OccursAt(s, prefix, 0)
  }

  /** `s.indexOf(pat)`: the first position where `pat` occurs, -1 when it
      does not occur at all (lemma `IndexOfMeaning`). */
  function IndexOf(s: string, pat: string): (r: int)
    ensures -1 <= r
    ensures r >= 0 ==> r + |pat| <= |s|
    decreases |s|
  {
    if |s| < |pat| then -1
    else if s[..|pat|] == pat then 0
    else
      var r := IndexOf(s[1..], pat);
      if r < 0 then -1 else r + 1
  }

  /** `indexOf` answers the first occurrence, and -1 exactly when there is
      none. */
  lemma {:induction false} IndexOfMeaning(s: string, pat: string)
    ensures var r := IndexOf(s, pat);
      && (r >= 0 ==> OccursAt(s, pat, r))
      && (r >= 0 ==> forall k :: 0 <= k < r ==> !OccursAt(s, pat, k))
      && (r == -1 <==> !Contains(s, pat))
    decreases |s|
  {
    var r := IndexOf(s, pat);
    if |s| < |pat| {
      assert forall k :: 0 <= k <= |s| ==> !OccursAt(s, pat, k);
    } else if s[..|pat|] == pat {
      assert OccursAt(s, pat, 0);
    } else {
      var t := s[1..];
      IndexOfMeaning(t, pat);
      ShiftOccurrence(s, pat);
      assert !OccursAt(s, pat, 0);
      if r >= 0 {
        assert OccursAt(t, pat, r - 1);
      } else {
        assert !Contains(t, pat);
        forall k | 0 <= k <= |s|
          ensures !OccursAt(s, pat, k)
        {
          if k > 0 {
            assert !OccursAt(t, pat, k - 1);
          }
        }
      }
    }
  }

  /** Occurrences in `s` past its first character are occurrences in its
      tail, one position earlier. */
  lemma {:induction false} ShiftOccurrence(s: string, pat: string)
    requires |s| > 0
    ensures forall k :: 1 <= k <= |s| ==> OccursAt(s, pat, k) == OccursAt(s[1..], pat, k - 1)
  {
    forall k | 1 <= k <= |s|
      ensures OccursAt(s, pat, k) == OccursAt(s[1..], pat, k - 1)
    {
      if k + |pat| <= |s| {
        var a := s[k..k + |pat|];
        var b := s[1..][k - 1..k - 1 + |pat|];
        assert |a| == |b|;
        assert forall j :: 0 <= j < |a| ==> a[j] == s[k + j] == b[j];
      }
    }
  }

  /** An occurrence with none before it is what `indexOf` finds. */
  lemma {:induction false} FirstOccurrence(s: string, pat: string, n: nat)
    requires OccursAt(s, pat, n)
    requires forall k :: 0 <= k < n ==> !OccursAt(s, pat, k)
    ensures IndexOf(s, pat) == n
  {
    IndexOfMeaning(s, pat);
  }

  lemma {:induction false} OccursAtChar(s: string, c: char, k: int)
    ensures OccursAt(s, [c], k) <==> 0 <= k < |s| && s[k] == c
  {
    if 0 <= k < |s| {
      assert s[k..k + 1] == [s[k]];
    }
  }

  /** `s.indexOf(c)` for a one-character needle: the first position holding
      `c`, -1 when there is none. */
  function FirstIndex(s: string, c: char): (r: int)
    ensures -1 <= r < |s|
    ensures r == -1 <==> c !in s
    ensures r >= 0 ==> r < |s| && s[r] == c && c !in s[..r]
    decreases |s|
  {
    if |s| == 0 then -1
    else if s[0] == c then 0
    else
      var r := FirstIndex(s[1..], c);
      if r < 0 then -1
      else
        assert s[..r + 1] == [s[0]] + s[1..][..r];
        r + 1
  }

  /** The one-character search is `indexOf` with a one-character needle. */
  lemma {:induction false} IndexOfChar(s: string, c: char)
    ensures IndexOf(s, [c]) == FirstIndex(s, c)
  {
    forall k ensures OccursAt(s, [c], k) <==> 0 <= k < |s| && s[k] == c {
      OccursAtChar(s, c, k);
    }
    IndexOfMeaning(s, [c]);
    var r := IndexOf(s, [c]);
    var f := FirstIndex(s, c);
    assert f >= 0 ==> forall k :: 0 <= k < f ==> s[k] == s[..f][k];
  }

  /** How `slice` reads one of its positions: a negative position counts back
      from the end, and the result is clamped to 0..len. */
  function RelativeIndex(len: nat, i: int): (r: nat)
    ensures r <= len
    ensures 0 <= i <= len ==> r == i
    ensures -(len as int) <= i < 0 ==> r == len + i
  {
    if i < 0 then (if len + i < 0 then 0 else len + i)
    else if i > len then len
    else i
  }

  /** `s.slice(start, end)`. */
  function Slice(s: string, start: int, end: int): (r: string)
    ensures 0 <= start <= end <= |s| ==> r == s[start..end]
    ensures 0 <= start && -|s| <= end < 0 && start <= |s| + end ==> r == s[start..|s| + end]
    ensures RelativeIndex(|s|, end) <= RelativeIndex(|s|, start) ==> r == ""
  {
    var from := RelativeIndex(|s|, start);
    var to := RelativeIndex(|s|, end);
    if from < to then s[from..to] else ""
  }

  /** `s.slice(start)`: from `start` to the end of the string. */
  function SliceFrom(s: string, start: int): (r: string)
    ensures 0 <= start <= |s| ==> r == s[start..]
    ensures start > |s| ==> r == ""
  {
    Slice(s, start, |s|)
  }

  /** `s.substring(start)`: a negative start counts as 0, one past the end
      as the end. */
  function Substring(s: string, start: int): (r: string)
    ensures 0 <= start <= |s| ==> r == s[start..]
    ensures start < 0 ==> r == s
    ensures start > |s| ==> r == ""
  {
    if start < 0 then s else if start > |s| then "" else s[start..]
  }

  /** `s.substr(start, length)`: the start is read as by `slice`, the length
      is clamped to what remains after the start. */
  function Substr(s: string, start: int, length: int): (r: string)
    ensures 0 <= start <= |s| && 0 <= length <= |s| - start ==> r == s[start..start + length]
    ensures length <= 0 ==> r == ""
    ensures 0 <= start <= |s| && length >= |s| - start ==> r == s[start..]
  {
    var from := RelativeIndex(|s|, start);
    var n := if length < 0 then 0 else if length > |s| - from then |s| - from else length;
    s[from..from + n]
  }

  /** Number of white-space characters at the front of `s`. */
  function LeadingWhitespace(s: string): (n: nat)
    ensures n <= |s|
    ensures forall k :: 0 <= k < n ==> IsWhitespace(s[k])
    ensures n < |s| ==> !IsWhitespace(s[n])
  {
    if |s| == 0 || !IsWhitespace(s[0]) then 0
    else 1 + LeadingWhitespace(s[1..])
  }

  /** Number of white-space characters at the back of `s`. */
  function TrailingWhitespace(s: string): (n: nat)
    ensures n <= |s|
    ensures forall k :: |s| - n <= k < |s| ==> IsWhitespace(s[k])
    ensures n < |s| ==> !IsWhitespace(s[|s| - n - 1])
  {
    if |s| == 0 || !IsWhitespace(s[|s| - 1]) then 0
    else 1 + TrailingWhitespace(s[..|s| - 1])
  }

  /** `r` is `s` with white space only removed from its two ends. */
  predicate TrimmedFrom(s: string, r: string, k: int) {
    && 0 <= k <= |s| - |r|
    && s[k..k + |r|] == r
    && AllWhitespace(s[..k])
    && AllWhitespace(s[k + |r|..])
  }

  /** `s.trim()`, and equally `s.replace(/^\s+|\s+$/g, "")`. */
  function Trim(s: string): (r: string)
    ensures exists k :: TrimmedFrom(s, r, k)
    ensures r == "" <==> AllWhitespace(s)
    ensures r != "" ==> !IsWhitespace(r[0]) && !IsWhitespace(r[|r| - 1])
  {
    var lead := LeadingWhitespace(s);
    if lead == |s| then
      assert s[..|s|] == s;
      assert TrimmedFrom(s, "", |s|);
      ""
    else
      var trail := TrailingWhitespace(s);
      assert trail < |s| - lead;
      var r := s[lead..|s| - trail];
      var tail := s[|s| - trail..];
      assert AllWhitespace(tail) by {
        assert forall k :: 0 <= k < |tail| ==> tail[k] == s[|s| - trail + k];
      }
      assert TrimmedFrom(s, r, lead);
      r
  }

  /** `trim` removes exactly the white space padding around text that does
      not itself start or end with white space. */
  lemma {:induction false} TrimPadded(before: string, s: string, after: string)
    requires AllWhitespace(before) && AllWhitespace(after)
    requires s != "" && !IsWhitespace(s[0]) && !IsWhitespace(s[|s| - 1])
    ensures Trim(before + s + after) == s
  {
    var t := before + s + after;
    var lead := LeadingWhitespace(t);
    var trail := TrailingWhitespace(t);
    assert t[|before|] == s[0];
    assert t[|before| + |s| - 1] == s[|s| - 1];
    assert forall k :: 0 <= k < |before| ==> t[k] == before[k];
    assert forall k :: |before| + |s| <= k < |t| ==> t[k] == after[k - |before| - |s|];
    assert lead == |before|;
    assert trail == |after|;
    assert t[|before|..|t| - |after|] == s;
  }

  /** Glue `parts` together with `sep` between neighbours (`Array.join`). */
  function Join(parts: seq<string>, sep: char): (r: string)
    decreases |parts|
  {
    if |parts| == 0 then ""
    else if |parts| == 1 then parts[0]
    else parts[0] + [sep] + Join(parts[1..], sep)
  }

  /** `s.split(sep)` for a one-character separator. */
  function Split(s: string, sep: char): (r: seq<string>)
    ensures |r| >= 1
    ensures forall i :: 0 <= i < |r| ==> sep !in r[i]
    ensures Join(r, sep) == s
    decreases |s|
  {
    var i := FirstIndex(s, sep);
    if i < 0 then [s]
    else
      var rest := Split(s[i + 1..], sep);
      var r := [s[..i]] + rest;
      assert r[0] == s[..i] && r[1..] == rest;
      assert Join(r, sep) == s[..i] + [sep] + Join(rest, sep);
      assert s == s[..i] + [sep] + s[i + 1..];
      r
  }

  lemma {:induction false} JoinAppend(parts: seq<string>, last: string, sep: char)
    requires |parts| >= 1
    ensures Join(parts + [last], sep) == Join(parts, sep) + [sep] + last
    decreases |parts|
  {
    if |parts| == 1 {
      assert parts + [last] == [parts[0], last];
    } else {
      assert (parts + [last])[1..] == parts[1..] + [last];
      JoinAppend(parts[1..], last, sep);
    }
  }

  /** Splitting undoes joining when no piece holds the separator. */
  lemma {:induction false} SplitJoin(parts: seq<string>, sep: char)
    requires |parts| >= 1
    requires forall i :: 0 <= i < |parts| ==> sep !in parts[i]
    ensures Split(Join(parts, sep), sep) == parts
    decreases |parts|
  {
    var s := Join(parts, sep);
    if |parts| == 1 {
    } else {
      var n := |parts[0]|;
      var rest := Join(parts[1..], sep);
      assert s == parts[0] + [sep] + rest;
      assert s[..n] == parts[0];
      assert s[n + 1..] == rest;
      FirstSeparator(s, sep, n);
      SplitJoin(parts[1..], sep);
    }
  }

  /** A separator at `n` with none before it is what the search finds. */
  lemma {:induction false} FirstSeparator(s: string, sep: char, n: nat)
    requires n < |s| && s[n] == sep && sep !in s[..n]
    ensures FirstIndex(s, sep) == n
  {
    var r := FirstIndex(s, sep);
    assert forall k :: 0 <= k < n ==> s[..n][k] == s[k];
    assert r >= 0 ==> forall k :: 0 <= k < r ==> s[..r][k] == s[k];
  }

  /** Text that neither starts nor ends in white space is its own trim. */
  lemma {:induction false} TrimUnpadded(s: string)
    requires s != "" && !IsWhitespace(s[0]) && !IsWhitespace(s[|s| - 1])
    ensures Trim(s) == s
  {
    assert LeadingWhitespace(s) == 0;
    assert TrailingWhitespace(s) == 0;
  }
}
