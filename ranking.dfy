/**
 * The ranking step of `RAGEngine.search` (aifr/rag.py): keep the chunks with
 * a positive score, sort them by score, highest first, with Python's stable
 * `list.sort(reverse=True)`, and cut the list with the slice `[:k]`.
 */
module Ranking {

  /** A chunk, by its position in the index, with its score. */
  datatype Scored = Scored(doc: nat, score: real)

  /** The chunks whose score is positive, in index order: the `if score > 0` filter. */
  function Survivors(scores: seq<real>): seq<Scored>
    decreases |scores|
  {
    if scores == [] then []
    else
      var n := |scores| - 1;
      Survivors(scores[..n]) + (if scores[n] > 0.0 then [Scored(n, scores[n])] else [])
  }

  lemma {:induction false} SurvivorsStep(scores: seq<real>)
    requires scores != []
    ensures var n := |scores| - 1;
      Survivors(scores) == Survivors(scores[..n]) + (if scores[n] > 0.0 then [Scored(n, scores[n])] else [])
  {
  }

  /** Looking at one more score. */
  lemma {:induction false} SurvivorsExtend(scores: seq<real>, i: nat)
    requires i < |scores|
    ensures Survivors(scores[..i + 1]) == Survivors(scores[..i]) + (if scores[i] > 0.0 then [Scored(i, scores[i])] else [])
  {
    SurvivorsStep(scores[..i + 1]);
    assert scores[..i + 1][..i] == scores[..i];
  }

  /** Every survivor is a positively scored chunk, with its own score. */
  lemma {:induction false} SurvivorsScored(scores: seq<real>)
    ensures forall x | x in Survivors(scores) :: x.doc < |scores| && x.score == scores[x.doc] > 0.0
    decreases |scores|
  {
    if scores != [] {
      var n := |scores| - 1;
      SurvivorsScored(scores[..n]);
      SurvivorsStep(scores);
    }
  }

  /** The survivors come in increasing index order. */
  lemma {:induction false} SurvivorsIncreasing(scores: seq<real>)
    ensures forall i, j | 0 <= i < j < |Survivors(scores)| :: Survivors(scores)[i].doc < Survivors(scores)[j].doc
    decreases |scores|
  {
    if scores != [] {
      var n := |scores| - 1;
      SurvivorsIncreasing(scores[..n]);
      SurvivorsScored(scores[..n]);
      SurvivorsStep(scores);
      var init := Survivors(scores[..n]);
      assert forall j | 0 <= j < |init| :: init[j] in init;
    }
  }

  /** Every positively scored chunk survives. */
  lemma {:induction false} SurvivorsComplete(scores: seq<real>, d: nat)
    requires d < |scores| && scores[d] > 0.0
    ensures Scored(d, scores[d]) in Survivors(scores)
    decreases |scores|
  {
    var n := |scores| - 1;
    SurvivorsStep(scores);
    if d < n {
      SurvivorsComplete(scores[..n], d);
    }
  }

  /** No chunk survives when none has a positive score. */
  lemma {:induction false} SurvivorsNone(scores: seq<real>)
    requires forall d | 0 <= d < |scores| :: scores[d] <= 0.0
    ensures Survivors(scores) == []
    decreases |scores|
  {
    if scores != [] {
      SurvivorsNone(scores[..|scores| - 1]);
    }
  }

  // ---------------------------------------------------------------------------
  // Stable descending sort

  /** Inserts `x` after every element whose score is at least its own. */
  function Insert(s: seq<Scored>, x: Scored): (r: seq<Scored>)
    decreases |s|
  {
    if s == [] then [x]
    else if s[0].score >= x.score then [s[0]] + Insert(s[1..], x)
    else [x] + s
  }

  /** Python's stable `sort(key=score, reverse=True)`, as an insertion sort over the list from left to right. */
  function SortDesc(s: seq<Scored>): seq<Scored>
    decreases |s|
  {
    if s == [] then [] else Insert(SortDesc(s[..|s| - 1]), s[|s| - 1])
  }

  /** `a` comes before `b` in the ranking: a higher score, or the same score and a lower index. */
  predicate Before(a: Scored, b: Scored) {
    a.score > b.score || (a.score == b.score && a.doc < b.doc)
  }

  /** Ordered by score, highest first, and among equal scores by index. */
  predicate Ranked(s: seq<Scored>) {
    forall i, j | 0 <= i < j < |s| :: Before(s[i], s[j])
  }

  lemma {:induction false} InsertPermutes(s: seq<Scored>, x: Scored)
    ensures multiset(Insert(s, x)) == multiset(s) + multiset{x}
    decreases |s|
  {
    if s != [] && s[0].score >= x.score {
      InsertPermutes(s[1..], x);
      assert s == [s[0]] + s[1..];
    }
  }

  lemma {:induction false} InsertMember(s: seq<Scored>, x: Scored)
    ensures forall y :: y in Insert(s, x) <==> y in s || y == x
  {
    InsertPermutes(s, x);
    forall y ensures y in Insert(s, x) <==> y in s || y == x {
      assert y in Insert(s, x) <==> y in multiset(Insert(s, x));
      assert y in s <==> y in multiset(s);
    }
  }

  /** A ranked list stays ranked under an element that comes before all of it. */
  lemma {:induction false} RankedCons(y: Scored, t: seq<Scored>)
    requires Ranked(t) && forall z | z in t :: Before(y, z)
    ensures Ranked([y] + t)
  {
    var r := [y] + t;
    forall i, j | 0 <= i < j < |r| ensures Before(r[i], r[j]) {
      assert r[j] == t[j - 1];
      if i > 0 {
        assert r[i] == t[i - 1];
      }
    }
  }

  lemma {:induction false} RankedTail(s: seq<Scored>)
    requires Ranked(s) && s != []
    ensures Ranked(s[1..]) && forall z | z in s[1..] :: Before(s[0], z)
  {
    forall i, j | 0 <= i < j < |s[1..]| ensures Before(s[1..][i], s[1..][j]) {
      assert s[1..][i] == s[i + 1] && s[1..][j] == s[j + 1];
    }
    forall z | z in s[1..] ensures Before(s[0], z) {
      var m :| 0 <= m < |s[1..]| && s[1..][m] == z;
      assert s[m + 1] == z;
    }
  }

  /** Inserting an element with a larger index than all others keeps the list ranked. */
  lemma {:induction false} InsertRanked(s: seq<Scored>, x: Scored)
    requires Ranked(s) && forall y | y in s :: y.doc < x.doc
    ensures Ranked(Insert(s, x))
    decreases |s|
  {
    if s == [] {
    } else if s[0].score >= x.score {
      RankedTail(s);
      InsertRanked(s[1..], x);
      InsertMember(s[1..], x);
      RankedCons(s[0], Insert(s[1..], x));
    } else {
      RankedTail(s);
      assert forall z | z in s :: z == s[0] || z in s[1..];
      RankedCons(x, s);
    }
  }

  /** The sort rearranges its input: the same elements, each as often. */
  lemma {:induction false} SortDescPermutes(s: seq<Scored>)
    ensures multiset(SortDesc(s)) == multiset(s)
    decreases |s|
  {
    if s != [] {
      var init := s[..|s| - 1];
      SortDescPermutes(init);
      InsertPermutes(SortDesc(init), s[|s| - 1]);
      assert s == init + [s[|s| - 1]];
    }
  }

  lemma {:induction false} SortDescMember(s: seq<Scored>)
    ensures forall y :: y in SortDesc(s) <==> y in s
  {
    SortDescPermutes(s);
    forall y ensures y in SortDesc(s) <==> y in s {
      assert y in SortDesc(s) <==> y in multiset(SortDesc(s));
      assert y in s <==> y in multiset(s);
    }
  }

  /**
   * Sorting survivors, which come in increasing index order, ranks them: by
   * score, highest first, and ties in index order, as a stable sort leaves them.
   */
  lemma {:induction false} SortDescRanked(s: seq<Scored>)
    requires forall i, j | 0 <= i < j < |s| :: s[i].doc < s[j].doc
    ensures Ranked(SortDesc(s))
    decreases |s|
  {
    if s != [] {
      var init := s[..|s| - 1];
      var x := s[|s| - 1];
      SortDescRanked(init);
      SortDescMember(init);
      forall y | y in SortDesc(init) ensures y.doc < x.doc {
        var m :| 0 <= m < |init| && init[m] == y;
      }
      InsertRanked(SortDesc(init), x);
    }
  }

  // ---------------------------------------------------------------------------
  // The cut

  /** Python's `s[:k]`: the first `k` elements, or for negative `k` all but the last `-k`. */
  function PyTake<T>(s: seq<T>, k: int): (r: seq<T>)
    ensures |r| == if k >= 0 then (if k < |s| then k else |s|) else (if |s| + k > 0 then |s| + k else 0)
    ensures r == s[..|r|]
  {
    if k >= 0 then (if k < |s| then s[..k] else s)
    else if |s| + k > 0 then s[..|s| + k] else []
  }

  /** The ranked survivors, cut to `k`: what `search` returns, by index and score. */
  function TopK(scores: seq<real>, k: int): seq<Scored> {
    PyTake(SortDesc(Survivors(scores)), k)
  }

  /** What `search` returns is ranked, and holds only positively scored chunks with their own scores. */
  lemma {:induction false} RankingRanked(scores: seq<real>, k: int)
    ensures Ranked(TopK(scores, k))
    ensures forall x | x in TopK(scores, k) :: x.doc < |scores| && x.score == scores[x.doc] > 0.0
  {
    var surv := Survivors(scores);
    SurvivorsIncreasing(scores);
    SurvivorsScored(scores);
    SortDescRanked(surv);
    SortDescMember(surv);
    var sorted := SortDesc(surv);
    var r := TopK(scores, k);
    assert r == sorted[..|r|];
    forall i, j | 0 <= i < j < |r| ensures Before(r[i], r[j]) {
      assert r[i] == sorted[i] && r[j] == sorted[j];
    }
    forall x | x in r ensures x in sorted {
      var m :| 0 <= m < |r| && r[m] == x;
      assert sorted[m] == x;
    }
  }

  /** Any positively scored chunk left out of the result scores no higher than each one returned. */
  lemma {:induction false} RankingTopK(scores: seq<real>, k: int, d: nat)
    requires d < |scores| && scores[d] > 0.0 && Scored(d, scores[d]) !in TopK(scores, k)
    ensures forall x | x in TopK(scores, k) :: scores[d] <= x.score
  {
    var surv := Survivors(scores);
    SurvivorsComplete(scores, d);
    SurvivorsIncreasing(scores);
    SortDescRanked(surv);
    SortDescMember(surv);
    var sorted := SortDesc(surv);
    var r := TopK(scores, k);
    assert r == sorted[..|r|];
    var p :| 0 <= p < |sorted| && sorted[p] == Scored(d, scores[d]);
    assert p >= |r| by {
      assert forall i | 0 <= i < |r| :: sorted[i] == r[i] && r[i] in r;
    }
    forall x | x in r ensures scores[d] <= x.score {
      var m :| 0 <= m < |r| && r[m] == x;
      assert sorted[m] == x;
      assert Before(sorted[m], sorted[p]);
    }
  }

  /** Nothing is returned when no chunk scores above zero. */
  lemma {:induction false} RankingEmpty(scores: seq<real>, k: int)
    requires forall d | 0 <= d < |scores| :: scores[d] <= 0.0
    ensures TopK(scores, k) == []
  {
    SurvivorsNone(scores);
  }
}
