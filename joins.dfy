/** Python's `sep.join(parts)` and `s.split(sep)`. */
module Joins {
  import opened Text


  /** Python's `sep.join(parts)`. */
  function Join(parts: seq<string>, sep: string): string
    decreases |parts|
  {
    if |parts| == 0 then ""
    else if |parts| == 1 then parts[0]
    else parts[0] + sep + Join(parts[1..], sep)
  }

  lemma {:induction false} JoinCons(x: string, parts: seq<string>, sep: string)
    requires parts != []
    ensures Join([x] + parts, sep) == x + sep + Join(parts, sep)
  {
    assert ([x] + parts)[1..] == parts;
  }

  lemma {:induction false} JoinAppend(a: seq<string>, b: seq<string>, sep: string)
    requires a != [] && b != []
    ensures Join(a + b, sep) == Join(a, sep) + sep + Join(b, sep)
    decreases |a|
  {
    if |a| == 1 {
      JoinCons(a[0], b, sep);
      assert a + b == [a[0]] + b;
    } else {
      assert a + b == [a[0]] + (a[1..] + b);
      JoinCons(a[0], a[1..] + b, sep);
      JoinAppend(a[1..], b, sep);
    }
  }

  /** Python's `s.split(sep)` for a non-empty separator: cuts at the leftmost non-overlapping occurrences. */
  function Split(s: string, sep: string): (r: seq<string>)
    requires |sep| > 0
    ensures |r| >= 1
    decreases |s|
  {
    if |s| < |sep| then [s]
    else if s[..|sep|] == sep then [""] + Split(s[|sep|..], sep)
    else var r := Split(s[1..], sep); [[s[0]] + r[0]] + r[1..]
  }

  lemma {:induction false} SplitAtSeparator(s: string, sep: string)
    requires |sep| > 0 && |s| >= |sep| && s[..|sep|] == sep
    ensures Split(s, sep) == [""] + Split(s[|sep|..], sep)
  {
  }

  lemma {:induction false} SplitPastChar(s: string, sep: string)
    requires |sep| > 0 && |s| >= |sep| && s[..|sep|] != sep
    ensures var r := Split(s[1..], sep); Split(s, sep) == [[s[0]] + r[0]] + r[1..]
  {
  }

  /** Joining the pieces of a split with the same separator restores the text. */
  lemma {:induction false} JoinSplit(s: string, sep: string)
    requires |sep| > 0
    ensures Join(Split(s, sep), sep) == s
    decreases |s|
  {
    if |s| < |sep| {
    } else if s[..|sep|] == sep {
      JoinSplit(s[|sep|..], sep);
      JoinSplitAtSeparator(s, sep);
    } else {
      JoinSplit(s[1..], sep);
      JoinSplitPastChar(s, sep);
    }
  }

  lemma {:induction false} JoinSplitAtSeparator(s: string, sep: string)
    requires |sep| > 0 && |s| >= |sep| && s[..|sep|] == sep
    requires Join(Split(s[|sep|..], sep), sep) == s[|sep|..]
    ensures Join(Split(s, sep), sep) == s
  {
    var t := s[|sep|..];
    var r := Split(t, sep);
    SplitAtSeparator(s, sep);
    assert Split(s, sep) == [""] + r;
    JoinCons("", r, sep);
    assert Join([""] + r, sep) == "" + sep + Join(r, sep);
    assert "" + sep + t == sep + t;
    assert s == sep + t;
  }

  lemma {:induction false} JoinSplitPastChar(s: string, sep: string)
    requires |sep| > 0 && |s| >= |sep| && s[..|sep|] != sep
    requires Join(Split(s[1..], sep), sep) == s[1..]
    ensures Join(Split(s, sep), sep) == s
  {
    var r := Split(s[1..], sep);
    SplitPastChar(s, sep);
    JoinExtendFirst(s[0], r, sep);
    assert s == [s[0]] + s[1..];
  }

  /** Putting a character in front of the first part puts it in front of the join. */
  lemma {:induction false} JoinExtendFirst(c: char, r: seq<string>, sep: string)
    requires |r| >= 1
    ensures Join([[c] + r[0]] + r[1..], sep) == [c] + Join(r, sep)
  {
    var head := [c] + r[0];
    var rest := r[1..];
    if rest == [] {
      assert r == [r[0]];
      assert [head] + rest == [head];
    } else {
      JoinCons(head, rest, sep);
      assert r == [r[0]] + rest;
      JoinCons(r[0], rest, sep);
      assert head + sep + Join(rest, sep) == [c] + (r[0] + sep + Join(rest, sep));
    }
  }

  /** Splitting on a one-character separator that occurs nowhere in the text gives the text back whole. */
  lemma {:induction false} SplitWithoutSeparator(s: string, sep: string)
    requires |sep| == 1 && !HasChar(s, sep[0])
    ensures Split(s, sep) == [s]
    decreases |s|
  {
    if |s| >= 1 {
      assert s[..1] != sep by { assert s[0] != sep[0]; }
      assert !HasChar(s[1..], sep[0]) by {
        forall i | 0 <= i < |s[1..]| ensures s[1..][i] != sep[0] { assert s[1..][i] == s[i + 1]; }
      }
      SplitWithoutSeparator(s[1..], sep);
      assert [s[0]] + s[1..] == s;
    }
  }

  /** A one-character split undoes a join of pieces that do not contain that character. */
  lemma {:induction false} SplitJoin(parts: seq<string>, sep: string)
    requires |sep| == 1 && |parts| >= 1
    requires forall k | 0 <= k < |parts| :: !HasChar(parts[k], sep[0])
    ensures Split(Join(parts, sep), sep) == parts
    decreases |parts|
  {
    if |parts| == 1 {
      SplitWithoutSeparator(parts[0], sep);
    } else {
      SplitJoin(parts[1..], sep);
      SplitPrefix(parts[0], Join(parts[1..], sep), sep);
      assert parts == [parts[0]] + parts[1..];
    }
  }

  lemma {:induction false} SplitPrefix(a: string, b: string, sep: string)
    requires |sep| == 1 && !HasChar(a, sep[0])
    ensures Split(a + sep + b, sep) == [a] + Split(b, sep)
    decreases |a|
  {
    var s := a + sep + b;
    if a == [] {
      assert s[..1] == sep;
      assert s[1..] == b;
    } else {
      assert s[..1] != sep by { assert s[0] == a[0]; }
      assert !HasChar(a[1..], sep[0]) by {
        forall i | 0 <= i < |a[1..]| ensures a[1..][i] != sep[0] { assert a[1..][i] == a[i + 1]; }
      }
      SplitPrefix(a[1..], b, sep);
      assert s[1..] == a[1..] + sep + b;
      assert [a[0]] + a[1..] == a;
    }
  }

  /** No piece of a one-character split contains that character. */
  lemma {:induction false} SplitPiecesFree(s: string, sep: string)
    requires |sep| == 1
    ensures forall k | 0 <= k < |Split(s, sep)| :: !HasChar(Split(s, sep)[k], sep[0])
    decreases |s|
  {
    if |s| < |sep| {
      assert Split(s, sep) == [s];
    } else if s[..|sep|] == sep {
      SplitPiecesFree(s[|sep|..], sep);
      assert forall k | 1 <= k < |Split(s, sep)| :: Split(s, sep)[k] == Split(s[|sep|..], sep)[k - 1];
    } else {
      SplitPiecesFree(s[1..], sep);
      var r := Split(s[1..], sep);
      assert s[0] != sep[0] by { assert s[..1][0] == s[0]; }
      assert !HasChar([s[0]] + r[0], sep[0]) by {
        forall i | 0 <= i < |[s[0]] + r[0]| ensures ([s[0]] + r[0])[i] != sep[0] {
          if i > 0 { assert ([s[0]] + r[0])[i] == r[0][i - 1]; }
        }
      }
      assert forall k | 1 <= k < |Split(s, sep)| :: Split(s, sep)[k] == r[k];
    }
  }

  /** Every piece of a split of a blank text is blank. */
  lemma {:induction false} SplitBlank(s: string, sep: string)
    requires |sep| > 0 && IsBlank(s)
    ensures forall k | 0 <= k < |Split(s, sep)| :: IsBlank(Split(s, sep)[k])
    decreases |s|
  {
    if |s| < |sep| {
    } else if s[..|sep|] == sep {
      SplitBlank(s[|sep|..], sep);
    } else {
      SplitBlank(s[1..], sep);
      var r := Split(s[1..], sep);
      assert IsBlank([s[0]] + r[0]) by {
        forall i | 0 <= i < |[s[0]] + r[0]| ensures IsSpace(([s[0]] + r[0])[i]) {
          if i > 0 { assert ([s[0]] + r[0])[i] == r[0][i - 1]; }
        }
      }
    }
  }
}
