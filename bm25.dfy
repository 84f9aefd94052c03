/**
 * Okapi BM25 scoring of the retrieval engine (`RAGEngine._idf`, `_score` and
 * the scoring loop of `search`, aifr/rag.py), over real numbers with the
 * natural logarithm left abstract.
 */
module Bm25 {
  import opened TermStats

  /** What the proofs need of `math.log`: it is positive above one. */
  ghost predicate IsLogarithm(ln: real -> real) {
    forall x: real :: x > 1.0 ==> ln(x) > 0.0
  }

  /** The engine's parameters keep every BM25 denominator positive: `k1 >= 0` and `0 <= b <= 1`. */
  predicate ParamsOk(k1: real, b: real) {
    0.0 <= k1 && 0.0 <= b <= 1.0
  }

  /** `_idf`: the probabilistic inverse document frequency of a term found in `df` of `n` chunks. */
  function Idf(n: nat, df: nat, ln: real -> real): real {
    ln((n as real - df as real + 0.5) / (df as real + 0.5) + 1.0)
  }

  /** `_idf` on the index's document frequencies; an unknown term has frequency 0. */
  function IndexIdf(n: nat, docFreqs: Freqs, ln: real -> real): string -> real {
    t => Idf(n, Get(docFreqs, t), ln)
  }

  /** The inverse document frequency `_score` uses on an empty index. */
  function UnitIdf(): string -> real {
    t => 1.0
  }

  lemma {:induction false} UnitIdfPositive()
    ensures forall t :: UnitIdf()(t) > 0.0
  {
  }

  /** The denominator of the BM25 weight of a term seen `freq` times in a chunk of `dl` tokens. */
  function Den(freq: nat, dl: nat, avgDl: real, k1: real, b: real): real
    requires avgDl != 0.0
  {
    freq as real + k1 * (1.0 - b + b * (dl as real / avgDl))
  }

  /** The BM25 weight of one term: `freq * (k1 + 1) / den`. */
  function Weight(freq: nat, dl: nat, avgDl: real, k1: real, b: real): real
    requires avgDl != 0.0 && Den(freq, dl, avgDl, k1, b) != 0.0
  {
    freq as real * (k1 + 1.0) / Den(freq, dl, avgDl, k1, b)
  }

  /**
   * The divisions that scoring the query against a chunk performs are defined:
   * the average length and the denominator of every query term the chunk contains.
   */
  predicate Scorable(query: seq<string>, tf: Freqs, dl: nat, avgDl: real, k1: real, b: real) {
    forall i | 0 <= i < |query| && query[i] in tf ::
      avgDl != 0.0 && Den(tf[query[i]], dl, avgDl, k1, b) != 0.0
  }

  /**
   * The BM25 score of a chunk with term table `tf` and `dl` tokens: the sum,
   * over the query tokens in order and with repetitions, of `idf * weight`
   * for the tokens the chunk contains.
   */
  function Score(query: seq<string>, tf: Freqs, dl: nat, avgDl: real, k1: real, b: real, idf: string -> real): real
    requires Scorable(query, tf, dl, avgDl, k1, b)
    decreases |query|
  {
    if query == [] then 0.0
    else
      var init := query[..|query| - 1];
      var t := query[|query| - 1];
      assert forall i | 0 <= i < |init| :: init[i] == query[i];
      Score(init, tf, dl, avgDl, k1, b, idf) + Term(t, tf, dl, avgDl, k1, b, idf)
  }

  /** What one query token adds to the score: `idf * weight` if the chunk contains it, nothing otherwise. */
  function Term(t: string, tf: Freqs, dl: nat, avgDl: real, k1: real, b: real, idf: string -> real): real
    requires t in tf ==> avgDl != 0.0 && Den(tf[t], dl, avgDl, k1, b) != 0.0
  {
    if t in tf then idf(t) * Weight(tf[t], dl, avgDl, k1, b) else 0.0
  }

  /** With `df <= n` the argument of the logarithm exceeds one, so the idf is positive. */
  lemma {:induction false} IdfPositive(n: nat, df: nat, ln: real -> real)
    requires IsLogarithm(ln) && df <= n
    ensures Idf(n, df, ln) > 0.0
  {
    var num := n as real - df as real + 0.5;
    var den := df as real + 0.5;
    assert num > 0.0 && den > 0.0;
    assert num / den > 0.0;
  }

  /** For valid parameters, a present term's denominator is at least its frequency and its weight is positive. */
  lemma {:induction false} WeightPositive(freq: nat, dl: nat, avgDl: real, k1: real, b: real)
    requires ParamsOk(k1, b) && freq >= 1 && avgDl > 0.0
    ensures Den(freq, dl, avgDl, k1, b) >= freq as real
    ensures Weight(freq, dl, avgDl, k1, b) > 0.0
  {
    var ratio := dl as real / avgDl;
    assert ratio >= 0.0;
    assert b * ratio >= 0.0;
    var inner := 1.0 - b + b * ratio;
    assert inner >= 0.0;
    assert k1 * inner >= 0.0;
    var den := Den(freq, dl, avgDl, k1, b);
    assert den >= 1.0;
    var num := freq as real * (k1 + 1.0);
    assert num >= 1.0;
    assert num / den > 0.0;
  }

  /** For valid parameters every chunk can be scored once the average length is positive. */
  lemma {:induction false} ScorableWhenValid(query: seq<string>, tf: Freqs, dl: nat, avgDl: real, k1: real, b: real)
    requires ParamsOk(k1, b) && Positive(tf) && avgDl > 0.0
    ensures Scorable(query, tf, dl, avgDl, k1, b)
  {
    forall i | 0 <= i < |query| && query[i] in tf
      ensures Den(tf[query[i]], dl, avgDl, k1, b) != 0.0
    {
      WeightPositive(tf[query[i]], dl, avgDl, k1, b);
    }
  }

  /**
   * With positive idf for the terms involved, the score is never negative, and
   * it is positive exactly when some query token occurs in the chunk.
   */
  lemma {:induction false} ScorePositiveIff(query: seq<string>, tf: Freqs, dl: nat, avgDl: real, k1: real, b: real, idf: string -> real)
    requires ParamsOk(k1, b) && Positive(tf) && avgDl >= 0.0 && Scorable(query, tf, dl, avgDl, k1, b)
    requires forall i | 0 <= i < |query| && query[i] in tf :: idf(query[i]) > 0.0
    ensures Score(query, tf, dl, avgDl, k1, b, idf) >= 0.0
    ensures Score(query, tf, dl, avgDl, k1, b, idf) > 0.0 <==> exists i | 0 <= i < |query| :: query[i] in tf
    decreases |query|
  {
    if query != [] {
      var init := query[..|query| - 1];
      var t := query[|query| - 1];
      assert forall i | 0 <= i < |init| :: init[i] == query[i];
      ScorePositiveIff(init, tf, dl, avgDl, k1, b, idf);
      if t in tf {
        assert avgDl != 0.0;
        WeightPositive(tf[t], dl, avgDl, k1, b);
        assert Term(t, tf, dl, avgDl, k1, b, idf) > 0.0;
      } else {
        if exists i | 0 <= i < |query| :: query[i] in tf {
          var i :| 0 <= i < |query| && query[i] in tf;
          assert i < |init| && init[i] in tf;
        }
      }
    }
  }

  /** A prefix of a scorable query is scorable. */
  lemma {:induction false} ScorablePrefix(query: seq<string>, i: nat, tf: Freqs, dl: nat, avgDl: real, k1: real, b: real)
    requires i <= |query| && Scorable(query, tf, dl, avgDl, k1, b)
    ensures Scorable(query[..i], tf, dl, avgDl, k1, b)
  {
    assert forall j | 0 <= j < i :: query[..i][j] == query[j];
  }

  /** Scoring one more query token adds that token's term. */
  lemma {:induction false} ScoreStep(query: seq<string>, i: nat, tf: Freqs, dl: nat, avgDl: real, k1: real, b: real, idf: string -> real)
    requires i < |query| && Scorable(query, tf, dl, avgDl, k1, b)
    ensures Scorable(query[..i], tf, dl, avgDl, k1, b) && Scorable(query[..i + 1], tf, dl, avgDl, k1, b)
    ensures Score(query[..i + 1], tf, dl, avgDl, k1, b, idf)
      == Score(query[..i], tf, dl, avgDl, k1, b, idf) + Term(query[i], tf, dl, avgDl, k1, b, idf)
  {
    ScorablePrefix(query, i, tf, dl, avgDl, k1, b);
    ScorablePrefix(query, i + 1, tf, dl, avgDl, k1, b);
    assert query[..i + 1][..i] == query[..i];
  }

  /**
   * The loop `for token in query_tokens: ... score += idf * (num / den)` of
   * `_score` and `search`: it computes the BM25 score.
   */
  method AccumulateScore(query: seq<string>, tf: Freqs, dl: nat, avgDl: real, k1: real, b: real, idf: string -> real)
    returns (score: real)
    requires Scorable(query, tf, dl, avgDl, k1, b)
    ensures score == Score(query, tf, dl, avgDl, k1, b, idf)
  {
    score := 0.0;
    for i := 0 to |query|
      invariant Scorable(query[..i], tf, dl, avgDl, k1, b) && score == Score(query[..i], tf, dl, avgDl, k1, b, idf)
    {
      ScoreStep(query, i, tf, dl, avgDl, k1, b, idf);
      var token := query[i];
      if token !in tf {
        continue;
      }
      assert avgDl != 0.0 && Den(tf[token], dl, avgDl, k1, b) != 0.0;
      var term := idf(token) * Weight(tf[token], dl, avgDl, k1, b);
      score := score + term;
    }
    assert query[..|query|] == query;
  }
}
