/**
 * The retrieval engine `RAGEngine` (aifr/rag.py): it indexes the chunks of a
 * set of files with BM25 statistics and answers a query with the best
 * scoring chunks.
 */
module Engine {
  import opened Tokenizer
  import opened Chunker
  import opened TermStats
  import opened Bm25
  import opened Ranking

  /** The engine's default BM25 parameters and the default number of results. */
  const DefaultK1: real := 1.5
  const DefaultB: real := 0.75
  const DefaultTopK: int := 3

  /** `total_len / n_docs`: the mean chunk length; zero only when every chunk is empty. */
  function Mean(total: nat, n: nat): (r: real)
    requires n > 0
    ensures r >= 0.0 && (r == 0.0 <==> total == 0)
  {
    total as real / n as real
  }

  /** The number of tokens of each text. */
  function Lengths(texts: seq<string>): seq<nat> {
    seq(|texts|, k requires 0 <= k < |texts| => |Tokenize(texts[k])|)
  }

  /** `doc_len`: chunk number to token count. */
  function DocLengths(texts: seq<string>): map<nat, nat> {
    map k: nat | k < |texts| :: |Tokenize(texts[k])|
  }

  /** `term_freqs`: the term table of each text. */
  function Tables(texts: seq<string>): seq<Freqs> {
    seq(|texts|, k requires 0 <= k < |texts| => Counts(Tokenize(texts[k])))
  }

  /** Each chunk as its path and its text. */
  function Entries(chunks: seq<DocumentChunk>): seq<(string, string)> {
    seq(|chunks|, k requires 0 <= k < |chunks| => (chunks[k].filePath, chunks[k].content))
  }

  /** The chunks of one file, each with the file's path. */
  function FileEntries(path: string, texts: seq<string>): seq<(string, string)> {
    seq(|texts|, k requires 0 <= k < |texts| => (path, texts[k]))
  }

  /** The chunks `index_files` collects from files given as (path, content), in order. */
  function IndexEntries(files: seq<(string, string)>): seq<(string, string)>
    decreases |files|
  {
    if files == [] then []
    else
      var f := files[|files| - 1];
      IndexEntries(files[..|files| - 1]) + FileEntries(f.0, ChunkTexts(f.1, f.0))
  }

  lemma {:induction false} LengthsAppend(texts: seq<string>, x: string)
    ensures Lengths(texts + [x]) == Lengths(texts) + [|Tokenize(x)|]
  {
  }

  lemma {:induction false} TablesAppend(texts: seq<string>, x: string)
    ensures Tables(texts + [x]) == Tables(texts) + [Counts(Tokenize(x))]
  {
  }

  lemma {:induction false} DocLengthsAppend(texts: seq<string>, x: string)
    ensures DocLengths(texts + [x]) == DocLengths(texts)[|texts| := |Tokenize(x)|]
  {
  }

  /** `doc_len` and the list of lengths agree. */
  lemma {:induction false} DocLengthsAgree(texts: seq<string>)
    ensures forall i | 0 <= i < |texts| :: i in DocLengths(texts) && DocLengths(texts)[i] == Lengths(texts)[i]
  {
  }

  lemma {:induction false} ContentsAppend1(chunks: seq<DocumentChunk>, c: DocumentChunk)
    ensures Contents(chunks + [c]) == Contents(chunks) + [c.content]
    ensures Entries(chunks + [c]) == Entries(chunks) + [(c.filePath, c.content)]
  {
  }

  lemma {:induction false} EntriesAppend(a: seq<DocumentChunk>, b: seq<DocumentChunk>)
    ensures Entries(a + b) == Entries(a) + Entries(b)
  {
  }

  /** The chunks of one file, as `chunk` returns them, are its entries. */
  lemma {:induction false} ChunkEntries(chunks: seq<DocumentChunk>, path: string, content: string)
    requires Contents(chunks) == ChunkTexts(content, path)
    requires forall c | c in chunks :: c.filePath == path
    ensures Entries(chunks) == FileEntries(path, ChunkTexts(content, path))
  {
    assert forall k | 0 <= k < |chunks| :: Contents(chunks)[k] == chunks[k].content && chunks[k] in chunks;
  }

  lemma {:induction false} IndexEntriesStep(files: seq<(string, string)>, f: nat)
    requires f < |files|
    ensures IndexEntries(files[..f + 1]) == IndexEntries(files[..f]) + FileEntries(files[f].0, ChunkTexts(files[f].1, files[f].0))
  {
    assert files[..f + 1][..f] == files[..f];
  }

  lemma {:induction false} DistinctAppend<T>(s: seq<T>, x: T)
    requires Distinct(s) && x !in s
    ensures Distinct(s + [x])
  {
    var r := s + [x];
    forall i, j | 0 <= i < j < |r| ensures r[i] != r[j] {
      assert r[i] == s[i];
      if j < |s| {
        assert r[j] == s[j];
      }
    }
  }

  lemma {:induction false} PrefixExtend<T>(a: seq<T>, s: seq<T>, j: nat)
    requires j <= |s|
    ensures j < |s| ==> a + s[..j] + [s[j]] == a + s[..j + 1]
    ensures j == |s| ==> a + s[..j] == a + s
  {
    if j < |s| {
      assert s[..j + 1] == s[..j] + [s[j]];
    } else {
      assert s[..j] == s;
    }
  }

  /** A newly made chunk is none of the chunks indexed before it. */
  lemma {:induction false} NotYetIndexed(docs: seq<DocumentChunk>, chunks: seq<DocumentChunk>, j: nat)
    requires j < |chunks| && Distinct(chunks) && chunks[j] !in docs
    ensures chunks[j] !in docs + chunks[..j]
  {
    assert forall i | 0 <= i < j :: chunks[..j][i] == chunks[i] != chunks[j];
  }

  /** Every chunk can be scored against the query. */
  predicate AllScorable(query: seq<string>, tables: seq<Freqs>, lens: seq<nat>, avgDl: real, k1: real, b: real) {
    |tables| == |lens| && forall i | 0 <= i < |tables| :: Scorable(query, tables[i], lens[i], avgDl, k1, b)
  }

  /** The BM25 score of each chunk, the score `search` computes for it. */
  function DocScores(query: seq<string>, tables: seq<Freqs>, lens: seq<nat>, avgDl: real, k1: real, b: real,
                     idf: string -> real): (r: seq<real>)
    requires AllScorable(query, tables, lens, avgDl, k1, b)
    ensures |r| == |tables|
  {
    seq(|tables|, i requires 0 <= i < |tables| => Score(query, tables[i], lens[i], avgDl, k1, b, idf))
  }

  /** The chunks of `ranked`, by their positions. */
  function Pick(documents: seq<DocumentChunk>, ranked: seq<Scored>): (r: seq<DocumentChunk>)
    requires forall x | x in ranked :: x.doc < |documents|
    ensures |r| == |ranked|
  {
    seq(|ranked|, j requires 0 <= j < |ranked| => documents[ranked[j].doc])
  }

  /** Scoring against a token list with positive idf: defined, never negative, and positive exactly on a shared token. */
  lemma {:induction false} TokenScore(query: seq<string>, tokens: seq<string>, avgDl: real, k1: real, b: real, idf: string -> real)
    requires ParamsOk(k1, b) && avgDl > 0.0 && forall t :: idf(t) > 0.0
    ensures Scorable(query, Counts(tokens), |tokens|, avgDl, k1, b)
    ensures Score(query, Counts(tokens), |tokens|, avgDl, k1, b, idf) >= 0.0
    ensures Score(query, Counts(tokens), |tokens|, avgDl, k1, b, idf) > 0.0
      <==> exists i | 0 <= i < |query| :: query[i] in tokens
  {
    var tf := Counts(tokens);
    CountsMeaning(tokens);
    ScorableWhenValid(query, tf, |tokens|, avgDl, k1, b);
    ScorePositiveIff(query, tf, |tokens|, avgDl, k1, b, idf);
  }

  class RagEngine {
    const k1: real
    const b: real
    /** The natural logarithm `math.log`, left abstract. */
    const ln: real -> real

    var documents: seq<DocumentChunk>
    var docLen: map<nat, nat>
    var avgDl: real
    var termFreqs: seq<Freqs>
    var docFreqs: Freqs
    var nDocs: nat

    /** The index statistics describe the chunks held. */
    ghost predicate Indexed()
      reads this
    {
      && nDocs == |documents|
      && docLen == DocLengths(Contents(documents))
      && termFreqs == Tables(Contents(documents))
      && docFreqs == DocFreqs(termFreqs)
      && Distinct(documents)
    }

    /** The engine's invariant: valid parameters, statistics that describe the chunks, and their mean length. */
    ghost predicate Valid()
      reads this
    {
      && ParamsOk(k1, b) && IsLogarithm(ln)
      && Indexed()
      && avgDl >= 0.0
      && (nDocs > 0 ==> avgDl == Mean(Total(Lengths(Contents(documents))), nDocs))
    }

    /** `RAGEngine(k1, b)`: an empty index. */
    constructor(ln: real -> real, k1: real, b: real)
      requires ParamsOk(k1, b) && IsLogarithm(ln)
      ensures Valid()
      ensures this.k1 == k1 && this.b == b && this.ln == ln
      ensures documents == [] && avgDl == 0.0
    {
      this.k1 := k1;
      this.b := b;
      this.ln := ln;
      documents := [];
      docLen := map[];
      avgDl := 0.0;
      termFreqs := [];
      docFreqs := map[];
      nDocs := 0;
    }

    /** `_idf` on the current statistics. */
    function IdfOf(): string -> real
      reads this
    {
      IndexIdf(nDocs, docFreqs, ln)
    }

    /** The body of the loop over a file's chunks in `index_files`: index one more chunk. */
    method AddChunk(chunk: DocumentChunk, totalLen: nat) returns (total: nat)
      requires Indexed() && totalLen == Total(Lengths(Contents(documents)))
      requires chunk !in documents
      modifies this
      ensures Indexed() && total == Total(Lengths(Contents(documents)))
      ensures documents == old(documents) + [chunk]
      ensures avgDl == old(avgDl)
    {
      ghost var texts := Contents(documents);
      var tokens := Tokenize(chunk.content);
      var docId := nDocs;
      documents := documents + [chunk];
      ContentsAppend1(old(documents), chunk);
      docLen := docLen[docId := |tokens|];
      DocLengthsAppend(texts, chunk.content);
      total := totalLen + |tokens|;
      LengthsAppend(texts, chunk.content);
      TotalAppend(Lengths(texts), |tokens|);
      var freqs := CountTerms(tokens);
      DocFreqsAppend(termFreqs, freqs);
      termFreqs := termFreqs + [freqs];
      TablesAppend(texts, chunk.content);
      docFreqs := AddDocFreqs(docFreqs, freqs.Keys);
      nDocs := nDocs + 1;
      DistinctAppend(old(documents), chunk);
    }

    /** The loop over a file's chunks in `index_files`: index each in turn. */
    method AddChunks(chunks: seq<DocumentChunk>, totalLen: nat) returns (total: nat)
      requires Indexed() && totalLen == Total(Lengths(Contents(documents)))
      requires Distinct(chunks) && forall c | c in chunks :: c !in documents
      modifies this
      ensures Indexed() && total == Total(Lengths(Contents(documents)))
      ensures documents == old(documents) + chunks
      ensures avgDl == old(avgDl)
    {
      total := totalLen;
      for j := 0 to |chunks|
        invariant Indexed() && total == Total(Lengths(Contents(documents)))
        invariant documents == old(documents) + chunks[..j]
        invariant avgDl == old(avgDl)
      {
        NotYetIndexed(old(documents), chunks, j);
        total := AddChunk(chunks[j], total);
        PrefixExtend(old(documents), chunks, j);
      }
      PrefixExtend(old(documents), chunks, |chunks|);
    }

    /** The body of the loop over files in `index_files`: chunk one file and index its chunks. */
    method IndexFile(files: seq<(string, string)>, f: nat, totalLen: nat) returns (total: nat)
      requires f < |files|
      requires Indexed() && totalLen == Total(Lengths(Contents(documents)))
      requires Entries(documents) == IndexEntries(files[..f])
      modifies this
      ensures Indexed() && total == Total(Lengths(Contents(documents)))
      ensures Entries(documents) == IndexEntries(files[..f + 1])
      ensures forall c | c in documents :: c in old(documents) || (fresh(c) && c.score == 0.0)
      ensures avgDl == old(avgDl)
    {
      var (path, content) := files[f];
      var chunks := Chunk(content, path);
      total := AddChunks(chunks, totalLen);
      forall c | c in documents ensures c in old(documents) || (fresh(c) && c.score == 0.0) {
        if c !in old(documents) {
          assert c in chunks;
        }
      }
      ChunkEntries(chunks, path, content);
      EntriesAppend(old(documents), chunks);
      IndexEntriesStep(files, f);
    }

    /**
     * `index_files`, over the files found, given as (path, content) in the
     * order the directory scan yields them: the index is rebuilt from their
     * chunks. The mean length is only updated when some chunk was indexed.
     */
    method IndexFiles(files: seq<(string, string)>)
      requires Valid()
      modifies this
      ensures Valid()
      ensures Entries(documents) == IndexEntries(files)
      ensures forall c | c in documents :: fresh(c) && c.score == 0.0
      ensures nDocs == 0 ==> avgDl == old(avgDl)
    {
      documents := [];
      termFreqs := [];
      docFreqs := map[];
      docLen := map[];
      nDocs := 0;
      var totalLen := 0;
      for f := 0 to |files|
        invariant Indexed() && totalLen == Total(Lengths(Contents(documents)))
        invariant Entries(documents) == IndexEntries(files[..f])
        invariant forall c | c in documents :: fresh(c) && c.score == 0.0
        invariant avgDl == old(avgDl)
      {
        totalLen := IndexFile(files, f, totalLen);
      }
      assert files[..|files|] == files;
      if nDocs > 0 {
        avgDl := Mean(totalLen, nDocs);
      }
    }

    /** The mean length is positive as soon as some chunk has a token. */
    lemma {:induction false} MeanLengthPositive(i: nat)
      requires Valid() && i < nDocs && Tokenize(documents[i].content) != []
      ensures avgDl > 0.0
    {
      var texts := Contents(documents);
      assert Lengths(texts)[i] == |Tokenize(texts[i])| > 0;
      TotalPositive(Lengths(texts), i);
    }

    /** The term counts of a chunk add up to its length, as `doc_len` records it. */
    lemma {:induction false} FreqsSumToLength(i: nat)
      requires Valid() && i < nDocs
      ensures i in docLen && SumValues(termFreqs[i]) == docLen[i]
    {
      SumOfCounts(Tokenize(Contents(documents)[i]));
    }

    /** A chunk's term table holds exactly its tokens. */
    lemma {:induction false} TableMeaning(i: nat)
      requires Valid() && i < nDocs
      ensures Positive(termFreqs[i])
      ensures forall t :: t in termFreqs[i] <==> t in Tokenize(documents[i].content)
    {
      CountsMeaning(Tokenize(Contents(documents)[i]));
    }

    /** Every division of the scoring loop in `search` is defined. */
    lemma {:induction false} ScoresDefined(query: seq<string>)
      requires Valid()
      ensures AllScorable(query, termFreqs, Lengths(Contents(documents)), avgDl, k1, b)
    {
      var lens := Lengths(Contents(documents));
      forall i | 0 <= i < |termFreqs| ensures Scorable(query, termFreqs[i], lens[i], avgDl, k1, b) {
        TableMeaning(i);
        if avgDl > 0.0 {
          ScorableWhenValid(query, termFreqs[i], lens[i], avgDl, k1, b);
        } else {
          TotalZero(lens);
          assert Tokenize(documents[i].content) == [] by {
            assert lens[i] == |Tokenize(documents[i].content)|;
          }
          assert termFreqs[i] == map[];
        }
      }
    }

    /** `_idf` is positive for every term, since no document frequency exceeds the number of chunks. */
    lemma {:induction false} IdfPositiveEverywhere()
      requires Valid()
      ensures forall t :: IdfOf()(t) > 0.0
    {
      DocFreqsBounded(termFreqs);
      forall t ensures IdfOf()(t) > 0.0 {
        IdfPositive(nDocs, Get(docFreqs, t), ln);
      }
    }

    /** The score of every chunk against the query, as `search` computes it. */
    ghost function Scores(query: seq<string>): (r: seq<real>)
      reads this
      requires Valid()
      ensures |r| == nDocs
    {
      ScoresDefined(query);
      DocScores(query, termFreqs, Lengths(Contents(documents)), avgDl, k1, b, IdfOf())
    }

    /** A chunk's score is never negative, and positive exactly when the chunk contains a query token. */
    lemma {:induction false} ScoreMeaning(query: seq<string>, i: nat)
      requires Valid() && i < nDocs
      ensures Scores(query)[i] >= 0.0
      ensures Scores(query)[i] > 0.0 <==> exists j | 0 <= j < |query| :: query[j] in Tokenize(documents[i].content)
    {
      var lens := Lengths(Contents(documents));
      ScoresDefined(query);
      TableMeaning(i);
      IdfPositiveEverywhere();
      ScorePositiveIff(query, termFreqs[i], lens[i], avgDl, k1, b, IdfOf());
    }

    /** `_score`: BM25 of a query against a token list, with fallbacks for an empty index. */
    method ScoreTokens(queryTokens: seq<string>, docTokens: seq<string>) returns (score: real)
      requires Valid()
      ensures var avg := if avgDl > 0.0 then avgDl else if |docTokens| != 0 then |docTokens| as real else 1.0;
        Scorable(queryTokens, Counts(docTokens), |docTokens|, avg, k1, b)
        && score == Score(queryTokens, Counts(docTokens), |docTokens|, avg, k1, b, if nDocs > 0 then IdfOf() else UnitIdf())
      ensures score >= 0.0
      ensures score > 0.0 <==> exists i | 0 <= i < |queryTokens| :: queryTokens[i] in docTokens
    {
      var docLength := |docTokens|;
      var freqs := CountTerms(docTokens);
      var avg := if avgDl > 0.0 then avgDl else if docLength != 0 then docLength as real else 1.0;
      var idf: string -> real;
      if nDocs > 0 {
        idf := IdfOf();
        IdfPositiveEverywhere();
      } else {
        idf := UnitIdf();
        UnitIdfPositive();
      }
      TokenScore(queryTokens, docTokens, avg, k1, b, idf);
      score := AccumulateScore(queryTokens, freqs, docLength, avg, k1, b, idf);
    }

    /**
     * `search`: score every chunk, record the positive scores on the chunks,
     * and return the best `k` chunks, highest score first.
     */
    method Search(query: string, k: int) returns (r: seq<DocumentChunk>)
      requires Valid()
      modifies documents
      ensures Valid()
      ensures var all := old(Scores(Tokenize(query)));
        && |all| == |documents|
        && (forall x | x in TopK(all, k) :: x.doc < |documents|)
        && r == Pick(documents, TopK(all, k))
        && forall i | 0 <= i < |documents| :: documents[i].score == if all[i] > 0.0 then all[i] else old(documents[i].score)
    {
      RankingRanked(Scores(Tokenize(query)), k);
      if documents == [] {
        return [];
      }
      var queryTokens := Tokenize(query);
      ScoresDefined(queryTokens);
      var lens := Lengths(Contents(documents));
      DocLengthsAgree(Contents(documents));
      var scored := ScoreAll(queryTokens, documents, termFreqs, docLen, lens, avgDl, IdfOf());
      assert unchanged(this);
      var ranked := PyTake(SortDesc(scored), k);
      r := Pick(documents, ranked);
    }

    /** The loop of `search` over the chunks, on the index's statistics. */
    method ScoreAll(queryTokens: seq<string>, docs: seq<DocumentChunk>, tables: seq<Freqs>, docLen: map<nat, nat>,
                    ghost lens: seq<nat>, avgDl: real, idf: string -> real)
      returns (scored: seq<Scored>)
      requires |docs| == |tables| && Distinct(docs)
      requires AllScorable(queryTokens, tables, lens, avgDl, k1, b)
      requires forall i | 0 <= i < |docs| :: i in docLen && docLen[i] == lens[i]
      modifies docs
      ensures var all := DocScores(queryTokens, tables, lens, avgDl, k1, b, idf);
        && scored == Survivors(all)
        && forall i | 0 <= i < |docs| :: docs[i].score == if all[i] > 0.0 then all[i] else old(docs[i].score)
    {
      ghost var all := DocScores(queryTokens, tables, lens, avgDl, k1, b, idf);
      scored := [];
      for idx := 0 to |docs|
        invariant scored == Survivors(all[..idx])
        invariant forall i | 0 <= i < idx :: docs[i].score == if all[i] > 0.0 then all[i] else old(docs[i].score)
        invariant forall i | idx <= i < |docs| :: docs[i].score == old(docs[i].score)
      {
        var score := AccumulateScore(queryTokens, tables[idx], docLen[idx], avgDl, k1, b, idf);
        SurvivorsExtend(all, idx);
        if score > 0.0 {
          assert forall i | 0 <= i < |docs| && i != idx :: docs[i] != docs[idx];
          docs[idx].score := score;
          scored := scored + [Scored(idx, score)];
        }
      }
      assert all[..|docs|] == all;
    }

    /** Every chunk `search` returns contains a query token. */
    lemma {:induction false} SearchReturnsMatches(query: seq<string>, k: int)
      requires Valid()
      ensures forall x | x in TopK(Scores(query), k) ::
        x.doc < nDocs && exists j | 0 <= j < |query| :: query[j] in Tokenize(documents[x.doc].content)
    {
      RankingRanked(Scores(query), k);
      forall x | x in TopK(Scores(query), k)
        ensures x.doc < nDocs && exists j | 0 <= j < |query| :: query[j] in Tokenize(documents[x.doc].content)
      {
        ScoreMeaning(query, x.doc);
      }
    }

    /** A query none of whose tokens occurs in any chunk finds nothing. */
    lemma {:induction false} SearchNoMatch(query: seq<string>, k: int)
      requires Valid()
      requires forall i, j | 0 <= i < nDocs && 0 <= j < |query| :: query[j] !in Tokenize(documents[i].content)
      ensures TopK(Scores(query), k) == []
    {
      forall i | 0 <= i < nDocs ensures Scores(query)[i] <= 0.0 {
        ScoreMeaning(query, i);
      }
      RankingEmpty(Scores(query), k);
    }

    /** A matching chunk that `search` leaves out scores no higher than any chunk it returns. */
    lemma {:induction false} SearchTopK(query: seq<string>, k: int, d: nat, j: nat)
      requires Valid() && d < nDocs && j < |query| && query[j] in Tokenize(documents[d].content)
      requires Scored(d, Scores(query)[d]) !in TopK(Scores(query), k)
      ensures forall x | x in TopK(Scores(query), k) :: Scores(query)[d] <= x.score
    {
      ScoreMeaning(query, d);
      RankingTopK(Scores(query), k, d);
    }
  }
}
