/**
 * The statistics the retrieval engine keeps about its chunks (aifr/rag.py):
 * per-chunk term frequencies, their sums, and document frequencies.
 */
module TermStats {

  /** A term-frequency table: Python's `Dict[str, int]` built by counting. */
  type Freqs = map<string, nat>

  /** The value stored for `t`, or 0: Python's `d.get(t, 0)`. */
  function Get(m: Freqs, t: string): nat {
    if t in m then m[t] else 0
  }

  /** The table `freqs[t] = freqs.get(t, 0) + 1` builds over `tokens`, left to right. */
  function Counts(tokens: seq<string>): Freqs
    decreases |tokens|
  {
    if tokens == [] then map[]
    else
      var m := Counts(tokens[..|tokens| - 1]);
      var x := tokens[|tokens| - 1];
      m[x := Get(m, x) + 1]
  }

  /** The table holds exactly the tokens, each with the number of its occurrences. */
  lemma {:induction false} CountsMeaning(tokens: seq<string>)
    ensures forall t :: t in Counts(tokens) <==> t in tokens
    ensures forall t | t in Counts(tokens) :: Counts(tokens)[t] == multiset(tokens)[t] && Counts(tokens)[t] >= 1
    decreases |tokens|
  {
    if tokens != [] {
      var init := tokens[..|tokens| - 1];
      var x := tokens[|tokens| - 1];
      CountsMeaning(init);
      assert tokens == init + [x];
      assert multiset(tokens) == multiset(init) + multiset{x};
      forall t ensures t in tokens <==> t in init || t == x {
        if t in tokens {
          var i :| 0 <= i < |tokens| && tokens[i] == t;
          if i < |init| { assert init[i] == t; }
        }
      }
    }
  }

  /** Every count is at least one. */
  predicate Positive(m: Freqs) {
    forall t | t in m :: m[t] >= 1
  }

  /** Sum of the values of a table: Python's `sum(d.values())`. */
  ghost function SumValues(m: Freqs): nat
    decreases |m.Keys|
  {
    if m == map[] then 0
    else
      var k :| k in m;
      assert (m - {k}).Keys == m.Keys - {k};
      m[k] + SumValues(m - {k})
  }

  /** Any key can be taken out first. */
  lemma {:induction false} SumValuesRemove(m: Freqs, k: string)
    requires k in m
    ensures SumValues(m) == m[k] + SumValues(m - {k})
    decreases |m.Keys|
  {
    var j :| j in m && SumValues(m) == m[j] + SumValues(m - {j});
    if j != k {
      assert (m - {j}).Keys == m.Keys - {j};
      assert (m - {k}).Keys == m.Keys - {k};
      SumValuesRemove(m - {j}, k);
      SumValuesRemove(m - {k}, j);
      assert (m - {j}) - {k} == (m - {k}) - {j};
    }
  }

  /** The counts add up to the number of tokens. */
  lemma {:induction false} SumOfCounts(tokens: seq<string>)
    ensures SumValues(Counts(tokens)) == |tokens|
    decreases |tokens|
  {
    if tokens != [] {
      var init := tokens[..|tokens| - 1];
      var x := tokens[|tokens| - 1];
      var m := Counts(init);
      SumOfCounts(init);
      var m' := m[x := Get(m, x) + 1];
      SumValuesRemove(m', x);
      assert m' - {x} == m - {x};
      if x in m {
        SumValuesRemove(m, x);
      } else {
        assert m - {x} == m;
      }
    }
  }

  // ---------------------------------------------------------------------------
  // Document frequencies

  /** The number of tables that contain `t`. */
  function DocCount(tables: seq<Freqs>, t: string): nat
    decreases |tables|
  {
    if tables == [] then 0
    else DocCount(tables[..|tables| - 1], t) + (if t in tables[|tables| - 1] then 1 else 0)
  }

  /** The terms of any table. */
  function Terms(tables: seq<Freqs>): set<string>
    decreases |tables|
  {
    if tables == [] then {} else Terms(tables[..|tables| - 1]) + tables[|tables| - 1].Keys
  }

  /** `doc_freqs`: for each term of the index, the number of chunks containing it. */
  function DocFreqs(tables: seq<Freqs>): Freqs {
    map t | t in Terms(tables) :: DocCount(tables, t)
  }

  /** The loop `for t in freqs: doc_freqs[t] = doc_freqs.get(t, 0) + 1`, as a value. */
  function AddKeys(df: Freqs, keys: set<string>): Freqs {
    map t | t in df.Keys + keys :: Get(df, t) + (if t in keys then 1 else 0)
  }

  /** A term is counted in some table exactly when it is a term of the tables. */
  lemma {:induction false} DocCountPositive(tables: seq<Freqs>, t: string)
    ensures DocCount(tables, t) > 0 <==> t in Terms(tables)
    ensures DocCount(tables, t) <= |tables|
    decreases |tables|
  {
    if tables != [] {
      DocCountPositive(tables[..|tables| - 1], t);
    }
  }

  /** One more chunk adds one to the document frequency of each of its terms. */
  lemma {:induction false} DocFreqsAppend(tables: seq<Freqs>, f: Freqs)
    ensures DocFreqs(tables + [f]) == AddKeys(DocFreqs(tables), f.Keys)
  {
    var all := tables + [f];
    assert all[..|all| - 1] == tables;
    assert Terms(all) == Terms(tables) + f.Keys;
    forall t | t in Terms(all)
      ensures DocCount(all, t) == Get(DocFreqs(tables), t) + (if t in f.Keys then 1 else 0)
    {
      DocCountPositive(tables, t);
    }
  }

  /** Every document frequency of the index is at least one and at most the number of chunks. */
  lemma {:induction false} DocFreqsBounded(tables: seq<Freqs>)
    ensures forall t | t in DocFreqs(tables) :: 1 <= DocFreqs(tables)[t] <= |tables|
  {
    forall t | t in DocFreqs(tables) ensures 1 <= DocFreqs(tables)[t] <= |tables| {
      DocCountPositive(tables, t);
    }
  }

  /** A term a chunk contains has a document frequency of at least one. */
  lemma {:induction false} DocFreqsCover(tables: seq<Freqs>, i: nat, t: string)
    requires i < |tables| && t in tables[i]
    ensures t in DocFreqs(tables)
    decreases |tables|
  {
    if i < |tables| - 1 {
      DocFreqsCover(tables[..|tables| - 1], i, t);
    }
  }

  /** The tables' total, Python's running `total_len`. */
  function Total(lengths: seq<nat>): nat
    decreases |lengths|
  {
    if lengths == [] then 0 else Total(lengths[..|lengths| - 1]) + lengths[|lengths| - 1]
  }

  /** Some positive length makes the total positive. */
  lemma {:induction false} TotalPositive(lengths: seq<nat>, i: nat)
    requires i < |lengths| && lengths[i] > 0
    ensures Total(lengths) >= lengths[i]
    decreases |lengths|
  {
    if i < |lengths| - 1 {
      TotalPositive(lengths[..|lengths| - 1], i);
    }
  }

  /** A zero total means every length is zero. */
  lemma {:induction false} TotalZero(lengths: seq<nat>)
    requires Total(lengths) == 0
    ensures forall i | 0 <= i < |lengths| :: lengths[i] == 0
  {
    forall i | 0 <= i < |lengths| ensures lengths[i] == 0 {
      if lengths[i] > 0 {
        TotalPositive(lengths, i);
      }
    }
  }

  /** The total of one more length. */
  lemma {:induction false} TotalAppend(lengths: seq<nat>, x: nat)
    ensures Total(lengths + [x]) == Total(lengths) + x
  {
    assert (lengths + [x])[..|lengths|] == lengths;
  }

  /** The loop `for t in tokens: freqs[t] = freqs.get(t, 0) + 1`. */
  method CountTerms(tokens: seq<string>) returns (freqs: Freqs)
    ensures freqs == Counts(tokens)
  {
    freqs := map[];
    for i := 0 to |tokens|
      invariant freqs == Counts(tokens[..i])
    {
      assert tokens[..i + 1][..i] == tokens[..i];
      freqs := freqs[tokens[i] := Get(freqs, tokens[i]) + 1];
    }
    assert tokens[..|tokens|] == tokens;
  }

  /** The loop `for t in freqs: doc_freqs[t] = doc_freqs.get(t, 0) + 1`, in any order of the keys. */
  method AddDocFreqs(df: Freqs, keys: set<string>) returns (r: Freqs)
    ensures r == AddKeys(df, keys)
  {
    r := df;
    var todo, done := keys, {};
    while todo != {}
      invariant todo + done == keys && todo !! done
      invariant r == AddKeys(df, done)
      decreases todo
    {
      var t :| t in todo;
      AddKeysStep(df, done, t);
      r := r[t := Get(r, t) + 1];
      todo, done := todo - {t}, done + {t};
    }
  }

  lemma {:induction false} AddKeysStep(df: Freqs, done: set<string>, t: string)
    requires t !in done
    ensures AddKeys(df, done + {t}) == AddKeys(df, done)[t := Get(AddKeys(df, done), t) + 1]
  {
  }
}
