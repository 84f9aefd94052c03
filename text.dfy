/**
 * The fragment of Python's `str` semantics the application relies on:
 * whitespace and stripping, `lower()`, `startswith`, `endswith` and `in`.
 */
module Text {

  // ---------------------------------------------------------------------------
  // Characters

  /** Python's `str.isspace()` for one character. */
  predicate IsSpace(c: char) {
    c == ' ' || ('\t' <= c <= '\r') || ('\U{1c}' <= c <= '\U{1f}')
    || c == '\U{85}' || c == '\U{a0}' || c == '\U{1680}'
    || ('\U{2000}' <= c <= '\U{200a}') || c == '\U{2028}' || c == '\U{2029}'
    || c == '\U{202f}' || c == '\U{205f}' || c == '\U{3000}'
  }

  predicate NotSpace(c: char) { !IsSpace(c) }

  predicate IsDigit(c: char) { '0' <= c <= '9' }

  /** The characters at which Python's `str.splitlines()` breaks a line. */
  predicate IsLineBreak(c: char) {
    c == '\n' || c == '\r' || c == '\U{b}' || c == '\U{c}'
    || ('\U{1c}' <= c <= '\U{1e}') || c == '\U{85}' || c == '\U{2028}' || c == '\U{2029}'
  }

  /**
   * `lower()` on one character, for ASCII letters and the Polish letters
   * (Ą Ć Ę Ł Ń Ó Ś Ź Ż); every other character is left as it is.
   */
  function LowerChar(c: char): (r: char)
    ensures 'A' <= c <= 'Z' ==> 'a' <= r <= 'z'
    ensures !('A' <= c <= 'Z') && c < '\U{80}' ==> r == c
  {
    if 'A' <= c <= 'Z' then (c as int + 32) as char
    else if c == 'Ó' then 'ó'
    else if c == 'Ą' || c == 'Ć' || c == 'Ę' || c == 'Ł' || c == 'Ń'
         || c == 'Ś' || c == 'Ź' || c == 'Ż' then (c as int + 1) as char
    else c
  }

  function Lower(s: string): (r: string)
    ensures |r| == |s|
    ensures forall i | 0 <= i < |s| :: r[i] == LowerChar(s[i])
  {
    seq(|s|, i requires 0 <= i < |s| => LowerChar(s[i]))
  }

  lemma {:induction false} LowerConcat(a: string, b: string)
    ensures Lower(a + b) == Lower(a) + Lower(b)
  {
  }

  // ---------------------------------------------------------------------------
  // Prefixes, suffixes, substrings

  predicate StartsWith(s: string, p: string) { |p| <= |s| && s[..|p|] == p }

  predicate EndsWith(s: string, p: string) { |p| <= |s| && s[|s| - |p|..] == p }

  predicate OccursAt(s: string, sub: string, i: int) {
    0 <= i && i + |sub| <= |s| && s[i..i + |sub|] == sub
  }

  /** Python's `sub in s`. */
  predicate Contains(s: string, sub: string) {
    exists i | 0 <= i <= |s| - |sub| :: OccursAt(s, sub, i)
  }

  predicate HasChar(s: string, c: char) { exists i | 0 <= i < |s| :: s[i] == c }

  // ---------------------------------------------------------------------------
  // Stripping

  /** Python's `lstrip`: `s` without its longest prefix of characters satisfying `p`. */
  function DropWhile(s: string, p: char -> bool): (r: string)
    ensures |r| <= |s| && r == s[|s| - |r|..]
  {
    if s != [] && p(s[0]) then DropWhile(s[1..], p) else s
  }

  /** Python's `rstrip`: `s` without its longest suffix of characters satisfying `p`. */
  function DropWhileEnd(s: string, p: char -> bool): (r: string)
    ensures |r| <= |s| && r == s[..|r|]
  {
    if s != [] && p(s[|s| - 1]) then DropWhileEnd(s[..|s| - 1], p) else s
  }

  /** Exactly the longest prefix of characters satisfying `p` is dropped. */
  lemma {:induction false} DropWhileShape(s: string, p: char -> bool)
    ensures DropWhile(s, p) != [] ==> !p(DropWhile(s, p)[0])
    ensures forall i | 0 <= i < |s| - |DropWhile(s, p)| :: p(s[i])
    decreases |s|
  {
    if s != [] && p(s[0]) {
      DropWhileShape(s[1..], p);
      assert forall i | 1 <= i < |s| :: s[i] == s[1..][i - 1];
    }
  }

  /** Exactly the longest suffix of characters satisfying `p` is dropped. */
  lemma {:induction false} DropWhileEndShape(s: string, p: char -> bool)
    ensures DropWhileEnd(s, p) != [] ==> !p(DropWhileEnd(s, p)[|DropWhileEnd(s, p)| - 1])
    ensures forall i | |DropWhileEnd(s, p)| <= i < |s| :: p(s[i])
    decreases |s|
  {
    if s != [] && p(s[|s| - 1]) {
      DropWhileEndShape(s[..|s| - 1], p);
    }
  }

  /** Python's `str.strip()` with no argument. */
  function Strip(s: string): string {
    DropWhileEnd(DropWhile(s, IsSpace), IsSpace)
  }

  predicate IsBlank(s: string) { forall i | 0 <= i < |s| :: IsSpace(s[i]) }

  predicate IsNonBlank(s: string) { !IsBlank(s) }

  /** `s.strip()` is empty exactly when `s` is made of whitespace only. */
  lemma {:induction false} StripEmptyIffBlank(s: string)
    ensures Strip(s) == [] <==> IsBlank(s)
  {
    var d := DropWhile(s, IsSpace);
    DropWhileShape(s, IsSpace);
    DropWhileEndShape(d, IsSpace);
    if d != [] {
      assert !IsSpace(d[0]);
      assert d[0] == s[|s| - |d|];
      assert DropWhileEnd(d, IsSpace) != [];
    }
  }

  /** The first character of `s.strip()` is the first non-whitespace character of `s`. */
  lemma {:induction false} StripStartsAtFirstNonSpace(s: string)
    requires IsNonBlank(s)
    ensures Strip(s) != [] && Strip(s)[0] == DropWhile(s, IsSpace)[0]
  {
    StripEmptyIffBlank(s);
  }

  /** Text that neither starts nor ends with whitespace is left as it is. */
  lemma {:induction false} StripTrimmed(s: string)
    requires s != [] ==> !IsSpace(s[0]) && !IsSpace(s[|s| - 1])
    ensures Strip(s) == s
  {
  }

  /** One leading whitespace character before trimmed text is removed. */
  lemma {:induction false} StripLeadingSpace(c: char, s: string)
    requires IsSpace(c) && s != [] && !IsSpace(s[0]) && !IsSpace(s[|s| - 1])
    ensures Strip([c] + s) == s
  {
    assert ([c] + s)[1..] == s;
    StripTrimmed(s);
  }

  /** `s.strip()` neither starts nor ends with whitespace. */
  lemma {:induction false} StripEnds(s: string)
    ensures Strip(s) != [] ==> !IsSpace(Strip(s)[0]) && !IsSpace(Strip(s)[|Strip(s)| - 1])
  {
    var d := DropWhile(s, IsSpace);
    DropWhileShape(s, IsSpace);
    DropWhileEndShape(d, IsSpace);
  }

  /** One whitespace character on each side of trimmed text is removed. */
  lemma {:induction false} StripAround(c: char, s: string, d: char)
    requires IsSpace(c) && IsSpace(d) && s != [] && !IsSpace(s[0]) && !IsSpace(s[|s| - 1])
    ensures Strip([c] + s + [d]) == s
  {
    assert [c] + s + [d] == [c] + (s + [d]);
    DropWhileFirst(c, s + [d], IsSpace);
    assert (s + [d])[0] == s[0];
    DropWhileStop(s + [d], IsSpace);
    DropWhileEndLast(s, d, IsSpace);
    DropWhileEndStop(s, IsSpace);
  }

  lemma {:induction false} DropWhileFirst(c: char, s: string, p: char -> bool)
    requires p(c)
    ensures DropWhile([c] + s, p) == DropWhile(s, p)
  {
    assert ([c] + s)[1..] == s;
  }

  lemma {:induction false} DropWhileStop(s: string, p: char -> bool)
    requires s != [] && !p(s[0])
    ensures DropWhile(s, p) == s
  {
  }

  lemma {:induction false} DropWhileEndLast(s: string, d: char, p: char -> bool)
    requires p(d)
    ensures DropWhileEnd(s + [d], p) == DropWhileEnd(s, p)
  {
    assert (s + [d])[..|s|] == s;
  }

  lemma {:induction false} DropWhileEndStop(s: string, p: char -> bool)
    requires s != [] && !p(s[|s| - 1])
    ensures DropWhileEnd(s, p) == s
  {
  }
}
