/** Python's `str.splitlines()`. */
module Lines {
  import opened Text
  import opened Joins


  /** Index of the first line break in `s`, or `|s|` when there is none. */
  function LineEnd(s: string): (n: nat)
    ensures n <= |s|
    ensures forall i | 0 <= i < n :: !IsLineBreak(s[i])
    ensures n < |s| ==> IsLineBreak(s[n])
  {
    if s == [] || IsLineBreak(s[0]) then 0 else 1 + LineEnd(s[1..])
  }

  predicate NoLineBreak(s: string) { forall i | 0 <= i < |s| :: !IsLineBreak(s[i]) }

  /**
   * Python's `s.splitlines()`: lines without their terminators; `"\r\n"` ends
   * one line; a terminator at the very end does not open an empty last line.
   */
  function SplitLines(s: string): (r: seq<string>)
    ensures r == [] <==> s == []
    ensures forall k | 0 <= k < |r| :: NoLineBreak(r[k])
    decreases |s|
  {
    if s == [] then []
    else
      var n := LineEnd(s);
      if n == |s| then [s]
      else
        var brk := if s[n] == '\r' && n + 1 < |s| && s[n + 1] == '\n' then 2 else 1;
        [s[..n]] + SplitLines(s[n + brk..])
  }

  /** Joining lines that hold no line break with newlines and splitting again gives them back. */
  lemma {:induction false} SplitLinesOfJoin(lines: seq<string>)
    requires forall k | 0 <= k < |lines| :: NoLineBreak(lines[k])
    requires lines == [] || lines[|lines| - 1] != []
    ensures SplitLines(Join(lines, "\n")) == lines
    decreases |lines|
  {
    if |lines| == 0 {
    } else if |lines| == 1 {
      assert LineEnd(lines[0]) == |lines[0]|;
    } else {
      var rest := Join(lines[1..], "\n");
      var s := lines[0] + "\n" + rest;
      assert Join(lines, "\n") == s;
      assert LineEnd(s) == |lines[0]| by {
        assert s[|lines[0]|] == '\n';
        forall i | 0 <= i < |lines[0]| ensures !IsLineBreak(s[i]) { assert s[i] == lines[0][i]; }
        LineEndIs(s, |lines[0]|);
      }
      assert s[..|lines[0]|] == lines[0];
      assert s[|lines[0]| + 1..] == rest;
      SplitLinesOfJoin(lines[1..]);
      assert lines == [lines[0]] + lines[1..];
    }
  }

  lemma {:induction false} LineEndIs(s: string, n: nat)
    requires n < |s| && IsLineBreak(s[n])
    requires forall i | 0 <= i < n :: !IsLineBreak(s[i])
    ensures LineEnd(s) == n
    decreases n
  {
    if n > 0 {
      LineEndIs(s[1..], n - 1);
    }
  }
}
