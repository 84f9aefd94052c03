/** Maximal runs of a character class: Python's `split()` and `re.split` on a negated class. */
module CharRuns {
  import opened Text


  /** Length of the longest prefix of `s` whose characters satisfy `p`. */
  function RunLen(s: string, p: char -> bool): (n: nat)
    ensures n <= |s|
    ensures forall i | 0 <= i < n :: p(s[i])
    ensures n < |s| ==> !p(s[n])
  {
    if s == [] || !p(s[0]) then 0 else 1 + RunLen(s[1..], p)
  }

  /** The maximal non-empty runs of characters satisfying `p`, in order. */
  function Runs(s: string, p: char -> bool): seq<string>
    decreases |s|
  {
    if s == [] then []
    else if !p(s[0]) then Runs(s[1..], p)
    else
      var n := RunLen(s, p);
      [s[..n]] + Runs(s[n..], p)
  }

  lemma {:induction false} RunLenOfCut(a: string, c: char, b: string, p: char -> bool)
    requires !p(c)
    ensures RunLen(a + [c] + b, p) == RunLen(a, p)
    decreases |a|
  {
    if a != [] && p(a[0]) {
      assert (a + [c] + b)[1..] == a[1..] + [c] + b;
      RunLenOfCut(a[1..], c, b, p);
    }
  }

  /**
   * A character outside the class separates runs: the runs of `a + [c] + b`
   * are the runs of `a` followed by the runs of `b`.  Together with
   * `RunsOfRun` this pins `Runs` down to the maximal runs.
   */
  lemma {:induction false} RunsCut(a: string, c: char, b: string, p: char -> bool)
    requires !p(c)
    ensures Runs(a + [c] + b, p) == Runs(a, p) + Runs(b, p)
    decreases |a|
  {
    var s := a + [c] + b;
    if a == [] {
      RunsSkip(s, p);
      assert s[1..] == b;
    } else if !p(a[0]) {
      RunsSkip(s, p);
      RunsSkip(a, p);
      assert s[1..] == a[1..] + [c] + b;
      RunsCut(a[1..], c, b, p);
    } else {
      var n := RunLen(a, p);
      RunLenOfCut(a, c, b, p);
      RunsTake(s, p);
      RunsTake(a, p);
      assert s[..n] == a[..n];
      assert s[n..] == a[n..] + [c] + b;
      RunsCut(a[n..], c, b, p);
    }
  }

  /** Every run is non-empty and made of class characters only. */
  lemma {:induction false} RunsShape(s: string, p: char -> bool)
    ensures forall k | 0 <= k < |Runs(s, p)| ::
      |Runs(s, p)[k]| > 0 && forall i | 0 <= i < |Runs(s, p)[k]| :: p(Runs(s, p)[k][i])
    decreases |s|
  {
    if s != [] {
      if !p(s[0]) {
        RunsShape(s[1..], p);
        RunsSkip(s, p);
      } else {
        var n := RunLen(s, p);
        RunsShape(s[n..], p);
        RunsTake(s, p);
        assert n > 0;
        assert forall i | 0 <= i < n :: p(s[..n][i]);
      }
    }
  }

  lemma {:induction false} RunsSkip(s: string, p: char -> bool)
    requires s != [] && !p(s[0])
    ensures Runs(s, p) == Runs(s[1..], p)
  {
  }

  lemma {:induction false} RunsTake(s: string, p: char -> bool)
    requires s != [] && p(s[0])
    ensures Runs(s, p) == [s[..RunLen(s, p)]] + Runs(s[RunLen(s, p)..], p)
  {
  }

  /** A non-empty text made only of class characters is one run. */
  lemma {:induction false} RunsOfRun(w: string, p: char -> bool)
    requires |w| > 0 && forall i | 0 <= i < |w| :: p(w[i])
    ensures Runs(w, p) == [w]
  {
    RunLenAll(w, p);
    assert p(w[0]);
    assert w[..|w|] == w;
    assert Runs(w[|w|..], p) == [] by { assert w[|w|..] == []; }
  }

  lemma {:induction false} RunLenAll(w: string, p: char -> bool)
    requires forall i | 0 <= i < |w| :: p(w[i])
    ensures RunLen(w, p) == |w|
    decreases |w|
  {
    if w != [] {
      assert forall i | 0 <= i < |w[1..]| :: w[1..][i] == w[i + 1];
      RunLenAll(w[1..], p);
    }
  }

  /** Python's `s.split()`: the maximal runs of non-whitespace characters. */
  function Words(s: string): seq<string> {
    Runs(s, NotSpace)
  }
}
