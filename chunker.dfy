/** Document chunks and the smart chunker of the retrieval engine (`DocumentChunk`, `SmartChunker`, aifr/rag.py). */
module Chunker {
  import opened Text
  import opened Joins
  import opened Lines
  import opened Seqs
  import opened CharRuns

  /** A piece of a file's text; the search writes its score. */
  class DocumentChunk {
    const filePath: string
    const content: string
    var score: real

    constructor(filePath: string, content: string)
      ensures this.filePath == filePath && this.content == content && score == 0.0
    {
      this.filePath := filePath;
      this.content := content;
      score := 0.0;
    }
  }

  /** The texts of a list of chunks. */
  function Contents(chunks: seq<DocumentChunk>): seq<string> {
    seq(|chunks|, k requires 0 <= k < |chunks| => chunks[k].content)
  }

  /** No chunk object occurs twice. */
  predicate Distinct<T(==)>(s: seq<T>) {
    forall i, j | 0 <= i < j < |s| :: s[i] != s[j]
  }

  // ---------------------------------------------------------------------------
  // Line classes

  /** A match of `^(def|class)\s+`: a top-level definition line. */
  predicate IsDefLine(line: string) {
    || (StartsWith(line, "def") && |line| > 3 && IsSpace(line[3]))
    || (StartsWith(line, "class") && |line| > 5 && IsSpace(line[5]))
  }

  predicate IsHash(c: char) { c == '#' }

  /**
   * A match of `^#{1,3}\s+`: one to three `#` followed by white space. A longer
   * run of `#` never matches, since the character after any three of them is `#`.
   */
  predicate IsHeadingLine(line: string) {
    var h := RunLen(line, IsHash);
    1 <= h <= 3 && h < |line| && IsSpace(line[h])
  }

  /** The first line of a text (up to the first line break). */
  function FirstLine(s: string): string {
    s[..LineEnd(s)]
  }

  // ---------------------------------------------------------------------------
  // Grouping lines into chunks

  /**
   * The lines grouped the way both line-oriented chunkers group them: a new
   * group begins at every start line that has a group before it.
   */
  function Group(lines: seq<string>, isStart: string -> bool): seq<seq<string>>
    decreases |lines|
  {
    if lines == [] then []
    else
      var g := Group(lines[..|lines| - 1], isStart);
      var x := lines[|lines| - 1];
      if g == [] || isStart(x) then g + [[x]]
      else g[..|g| - 1] + [g[|g| - 1] + [x]]
  }

  /**
   * The shape of the groups: there are none exactly when there are no lines;
   * none is empty; each after the first begins with a start line; and no
   * start line occurs inside a group other than at its head.
   */
  lemma {:induction false} GroupShape(lines: seq<string>, isStart: string -> bool)
    ensures var g := Group(lines, isStart);
      && (g == [] <==> lines == [])
      && (forall k | 0 <= k < |g| :: g[k] != [])
      && (forall k | 0 < k < |g| :: isStart(g[k][0]))
      && (forall k, j | 0 <= k < |g| && 0 < j < |g[k]| :: !isStart(g[k][j]))
  {
    GroupNonEmpty(lines, isStart);
    GroupStarts(lines, isStart);
    GroupInner(lines, isStart);
  }

  lemma {:induction false} GroupNonEmpty(lines: seq<string>, isStart: string -> bool)
    ensures (Group(lines, isStart) == []) == (lines == [])
    ensures forall k | 0 <= k < |Group(lines, isStart)| :: Group(lines, isStart)[k] != []
    decreases |lines|
  {
    if lines != [] {
      var init := lines[..|lines| - 1];
      GroupNonEmpty(init, isStart);
    }
  }

  lemma {:induction false} GroupStarts(lines: seq<string>, isStart: string -> bool)
    ensures forall k | 0 < k < |Group(lines, isStart)| ::
      Group(lines, isStart)[k] != [] && isStart(Group(lines, isStart)[k][0])
    decreases |lines|
  {
    if lines != [] {
      var init := lines[..|lines| - 1];
      var g := Group(init, isStart);
      var x := lines[|lines| - 1];
      GroupStarts(init, isStart);
      GroupNonEmpty(init, isStart);
      if !(g == [] || isStart(x)) {
        var r := g[..|g| - 1] + [g[|g| - 1] + [x]];
        assert forall k | 0 <= k < |g| - 1 :: r[k] == g[k];
        assert r[|g| - 1][0] == g[|g| - 1][0];
      }
    }
  }

  lemma {:induction false} GroupInner(lines: seq<string>, isStart: string -> bool)
    ensures forall k, j | 0 <= k < |Group(lines, isStart)| && 0 < j < |Group(lines, isStart)[k]| ::
      !isStart(Group(lines, isStart)[k][j])
    decreases |lines|
  {
    if lines != [] {
      var init := lines[..|lines| - 1];
      var g := Group(init, isStart);
      var x := lines[|lines| - 1];
      GroupInner(init, isStart);
      if !(g == [] || isStart(x)) {
        var r := g[..|g| - 1] + [g[|g| - 1] + [x]];
        assert forall k | 0 <= k < |g| - 1 :: r[k] == g[k];
        var last := g[|g| - 1];
        assert r[|g| - 1] == last + [x];
        assert forall j | 0 <= j < |last| :: (last + [x])[j] == last[j];
      }
    }
  }

  /** The groups, read in order, are the lines: nothing is lost, repeated or reordered. */
  lemma {:induction false} GroupConcat(lines: seq<string>, isStart: string -> bool)
    ensures Concat(Group(lines, isStart)) == lines
    decreases |lines|
  {
    if lines != [] {
      var init := lines[..|lines| - 1];
      var g := Group(init, isStart);
      var x := lines[|lines| - 1];
      GroupConcat(init, isStart);
      assert lines == init + [x];
      if g == [] || isStart(x) {
        ConcatAppend(g, [[x]]);
        assert Concat([[x]]) == [x];
      } else {
        var last := g[|g| - 1];
        assert g == g[..|g| - 1] + [last];
        ConcatAppend(g[..|g| - 1], [last]);
        ConcatAppend(g[..|g| - 1], [last + [x]]);
        assert Concat([last]) == last;
        assert Concat([last + [x]]) == last + [x];
      }
    }
  }

  /** The text of each group: its lines joined with newlines. */
  function JoinEach(groups: seq<seq<string>>): seq<string> {
    seq(|groups|, k requires 0 <= k < |groups| => Join(groups[k], "\n"))
  }

  /** One more line either opens a new group or extends the last one. */
  lemma {:induction false} GroupStep(lines: seq<string>, x: string, isStart: string -> bool)
    ensures var g := Group(lines, isStart);
      Group(lines + [x], isStart) ==
        if g == [] || isStart(x) then g + [[x]] else g[..|g| - 1] + [g[|g| - 1] + [x]]
  {
    assert (lines + [x])[..|lines|] == lines;
  }

  /** The groups finished so far followed by the one being collected, if any. */
  function Pending(done: seq<seq<string>>, current: seq<string>): seq<seq<string>> {
    done + if current == [] then [] else [current]
  }

  /**
   * The chunkers' loop step: a start line closes the group being collected
   * and opens a new one; any other line joins the group being collected.
   */
  lemma {:induction false} GroupAdvance(lines: seq<string>, x: string, isStart: string -> bool, done: seq<seq<string>>, current: seq<string>)
    requires Group(lines, isStart) == Pending(done, current)
    requires current == [] ==> done == [] || isStart(x)
    ensures isStart(x) && current != [] ==> Group(lines + [x], isStart) == Pending(done + [current], [x])
    ensures !(isStart(x) && current != []) ==> Group(lines + [x], isStart) == Pending(done, current + [x])
  {
    GroupStep(lines, x, isStart);
    var g := Group(lines, isStart);
    if current == [] {
      assert g == done;
      assert current + [x] == [x];
      if !isStart(x) {
        assert g == [];
        assert Group(lines + [x], isStart) == [[x]];
      }
    } else {
      assert g == done + [current];
      if !isStart(x) {
        assert g[..|g| - 1] == done;
        assert g[|g| - 1] == current;
      }
    }
  }

  lemma {:induction false} JoinEachAppend(groups: seq<seq<string>>, g: seq<string>)
    ensures JoinEach(groups + [g]) == JoinEach(groups) + [Join(g, "\n")]
  {
  }

  lemma {:induction false} ContentsAppend(chunks: seq<DocumentChunk>, c: DocumentChunk)
    ensures Contents(chunks + [c]) == Contents(chunks) + [c.content]
  {
  }

  lemma {:induction false} ConcatNonEmpty(groups: seq<seq<string>>)
    requires groups != [] && forall k | 0 <= k < |groups| :: groups[k] != []
    ensures Concat(groups) != []
  {
    assert Concat(groups) == groups[0] + Concat(groups[1..]);
  }

  /** Joining the group texts with newlines is joining all their lines with newlines. */
  lemma {:induction false} JoinEachConcat(groups: seq<seq<string>>)
    requires forall k | 0 <= k < |groups| :: groups[k] != []
    ensures Join(JoinEach(groups), "\n") == Join(Concat(groups), "\n")
    decreases |groups|
  {
    if |groups| > 1 {
      var rest := groups[1..];
      JoinEachConcat(rest);
      assert JoinEach(groups) == [Join(groups[0], "\n")] + JoinEach(rest);
      JoinCons(Join(groups[0], "\n"), JoinEach(rest), "\n");
      ConcatNonEmpty(rest);
      JoinAppend(groups[0], Concat(rest), "\n");
    } else if |groups| == 1 {
      assert Concat(groups) == groups[0] + Concat(groups[1..]);
      assert groups[0] + Concat(groups[1..]) == groups[0];
    }
  }

  /** The first line of the text of a group is the group's first line. */
  lemma {:induction false} FirstLineOfJoin(g: seq<string>)
    requires g != [] && forall k | 0 <= k < |g| :: NoLineBreak(g[k])
    ensures FirstLine(Join(g, "\n")) == g[0]
  {
    var s := Join(g, "\n");
    if |g| == 1 {
      assert LineEnd(s) == |s|;
    } else {
      JoinCons(g[0], g[1..], "\n");
      assert g == [g[0]] + g[1..];
      assert s == g[0] + "\n" + Join(g[1..], "\n");
      forall i | 0 <= i < |g[0]| ensures !IsLineBreak(s[i]) { assert s[i] == g[0][i]; }
      LineEndIs(s, |g[0]|);
    }
  }

  // ---------------------------------------------------------------------------
  // What each chunker produces

  /** The texts of a line-oriented chunker; the whole content when it has no lines. */
  function LineChunkTexts(content: string, isStart: string -> bool): seq<string> {
    var g := Group(SplitLines(content), isStart);
    if g == [] then [content] else JoinEach(g)
  }

  /** `_chunk_python`: the header lines, then one chunk per top-level definition. */
  function PythonChunkTexts(content: string): seq<string> {
    LineChunkTexts(content, IsDefLine)
  }

  /** `_chunk_markdown`: one chunk per heading of level one to three, after any leading text. */
  function MarkdownChunkTexts(content: string): seq<string> {
    LineChunkTexts(content, IsHeadingLine)
  }

  /** `_chunk_generic`: the non-blank paragraphs between double newlines. */
  function GenericChunkTexts(content: string): seq<string> {
    Filter(Split(content, "\n\n"), IsNonBlank)
  }

  /** `chunk`: dispatch on the path's extension. */
  function ChunkTexts(content: string, filePath: string): seq<string> {
    if EndsWith(filePath, ".py") then PythonChunkTexts(content)
    else if EndsWith(filePath, ".md") then MarkdownChunkTexts(content)
    else GenericChunkTexts(content)
  }

  /**
   * A line-oriented chunker always yields at least one chunk; an empty text
   * yields one empty chunk.
   */
  lemma {:induction false} LineChunksFallback(content: string, isStart: string -> bool)
    ensures |LineChunkTexts(content, isStart)| >= 1
    ensures content == "" ==> LineChunkTexts(content, isStart) == [""]
  {
  }

  /** Joining the chunks of a line-oriented chunker with newlines gives the content's lines joined with newlines. */
  lemma {:induction false} LineChunksCover(content: string, isStart: string -> bool)
    ensures Join(LineChunkTexts(content, isStart), "\n") == Join(SplitLines(content), "\n")
  {
    var lines := SplitLines(content);
    var g := Group(lines, isStart);
    GroupShape(lines, isStart);
    if g != [] {
      GroupConcat(lines, isStart);
      JoinEachConcat(g);
    }
  }

  /** Every chunk of a line-oriented chunker after the first begins with a start line. */
  lemma {:induction false} LineChunksStart(content: string, isStart: string -> bool)
    ensures var texts := LineChunkTexts(content, isStart);
      forall k | 0 < k < |texts| :: isStart(FirstLine(texts[k]))
  {
    var lines := SplitLines(content);
    var g := Group(lines, isStart);
    GroupShape(lines, isStart);
    if g != [] {
      GroupConcat(lines, isStart);
      forall k | 0 < k < |g| ensures isStart(FirstLine(Join(g[k], "\n"))) {
        forall j | 0 <= j < |g[k]| ensures NoLineBreak(g[k][j]) {
          ConcatMember(g, k, j);
        }
        FirstLineOfJoin(g[k]);
      }
    }
  }

  /** A line of a group is a line of the concatenation. */
  lemma {:induction false} ConcatMember(groups: seq<seq<string>>, k: nat, j: nat)
    requires k < |groups| && j < |groups[k]|
    ensures groups[k][j] in Concat(groups)
    decreases k
  {
    assert Concat(groups) == groups[0] + Concat(groups[1..]);
    if k > 0 {
      ConcatMember(groups[1..], k - 1, j);
    }
  }

  /** Every Python chunk after the first begins with a `def` or `class` line. */
  lemma {:induction false} PythonChunksStartAtDefinitions(content: string)
    ensures var texts := PythonChunkTexts(content);
      forall k | 0 < k < |texts| :: IsDefLine(FirstLine(texts[k]))
  {
    LineChunksStart(content, IsDefLine);
  }

  /** Every Markdown chunk after the first begins with a heading line. */
  lemma {:induction false} MarkdownChunksStartAtHeadings(content: string)
    ensures var texts := MarkdownChunkTexts(content);
      forall k | 0 < k < |texts| :: IsHeadingLine(FirstLine(texts[k]))
  {
    LineChunksStart(content, IsHeadingLine);
  }

  /** Generic chunks are never blank, and a blank text yields none: there is no fallback chunk. */
  lemma {:induction false} GenericChunks(content: string)
    ensures forall k | 0 <= k < |GenericChunkTexts(content)| :: IsNonBlank(GenericChunkTexts(content)[k])
    ensures IsBlank(content) ==> GenericChunkTexts(content) == []
  {
    FilterShape(Split(content, "\n\n"), IsNonBlank);
    if IsBlank(content) {
      SplitBlank(content, "\n\n");
      FilterNone(Split(content, "\n\n"), IsNonBlank);
    }
  }

  // ---------------------------------------------------------------------------
  // The chunker's methods

  /** Appends a new chunk of `filePath` holding `text`. */
  method AppendChunk(chunks: seq<DocumentChunk>, filePath: string, text: string) returns (r: seq<DocumentChunk>)
    requires Distinct(chunks)
    ensures exists c: DocumentChunk :: r == chunks + [c] && fresh(c) && c.filePath == filePath && c.score == 0.0
    ensures Contents(r) == Contents(chunks) + [text]
    ensures Distinct(r)
  {
    var c := new DocumentChunk(filePath, text);
    ContentsAppend(chunks, c);
    r := chunks + [c];
  }

  /** Closes the group being collected: its text becomes a new chunk. */
  method Flush(chunks: seq<DocumentChunk>, filePath: string, ghost done: seq<seq<string>>, current: seq<string>)
    returns (r: seq<DocumentChunk>)
    requires Distinct(chunks) && Contents(chunks) == JoinEach(done)
    ensures exists c: DocumentChunk :: r == chunks + [c] && fresh(c) && c.filePath == filePath && c.score == 0.0
    ensures Contents(r) == JoinEach(done + [current])
    ensures Distinct(r)
  {
    JoinEachAppend(done, current);
    r := AppendChunk(chunks, filePath, Join(current, "\n"));
  }

  /**
   * The end of both line-oriented chunkers: the group being collected becomes
   * the last chunk, and a text without lines becomes a single chunk.
   */
  method Finish(content: string, filePath: string, isStart: string -> bool, chunks: seq<DocumentChunk>,
                ghost done: seq<seq<string>>, current: seq<string>)
    returns (r: seq<DocumentChunk>)
    requires Group(SplitLines(content), isStart) == Pending(done, current)
    requires Contents(chunks) == JoinEach(done) && Distinct(chunks)
    ensures Contents(r) == LineChunkTexts(content, isStart)
    ensures forall c | c in r :: c in chunks || (fresh(c) && c.filePath == filePath && c.score == 0.0)
    ensures Distinct(r)
  {
    r := chunks;
    ghost var all := done;
    if current != [] {
      r := Flush(r, filePath, done, current);
      all := done + [current];
    }
    assert Group(SplitLines(content), isStart) == all && Contents(r) == JoinEach(all);
    if r == [] {
      assert all == [];
      r := AppendChunk(r, filePath, content);
    }
  }

  /** The header loop of `_chunk_python`: the lines before the first definition line. */
  method PythonHeader(lines: seq<string>) returns (header: seq<string>, idx: nat)
    ensures idx <= |lines| && header == lines[..idx]
    ensures Group(lines[..idx], IsDefLine) == Pending([], header)
    ensures idx < |lines| ==> IsDefLine(lines[idx])
  {
    header := [];
    idx := 0;
    while idx < |lines|
      invariant idx <= |lines| && header == lines[..idx]
      invariant Group(lines[..idx], IsDefLine) == Pending([], header)
    {
      var line := lines[idx];
      if IsDefLine(line) {
        break;
      }
      assert lines[..idx + 1] == lines[..idx] + [line];
      GroupAdvance(lines[..idx], line, IsDefLine, [], header);
      header := header + [line];
      idx := idx + 1;
    }
  }

  /** The header chunk of `_chunk_python`, when there are lines before the first definition. */
  method PythonHeaderChunk(lines: seq<string>, filePath: string)
    returns (chunks: seq<DocumentChunk>, ghost done: seq<seq<string>>, idx: nat)
    ensures idx <= |lines| && Group(lines[..idx], IsDefLine) == Pending(done, [])
    ensures idx < |lines| ==> IsDefLine(lines[idx])
    ensures Contents(chunks) == JoinEach(done)
    ensures forall c | c in chunks :: fresh(c) && c.filePath == filePath && c.score == 0.0
    ensures Distinct(chunks)
  {
    var header;
    header, idx := PythonHeader(lines);
    chunks := [];
    done := [];
    if header != [] {
      chunks := Flush(chunks, filePath, done, header);
      done := done + [header];
    }
    assert Pending(done, []) == Pending([], header);
  }

  /** One turn of the grouping loop, on line `idx`. */
  method Advance(lines: seq<string>, idx: nat, isStart: string -> bool, filePath: string,
                 chunks0: seq<DocumentChunk>, ghost done0: seq<seq<string>>, current0: seq<string>)
    returns (chunks: seq<DocumentChunk>, ghost done: seq<seq<string>>, current: seq<string>)
    requires idx < |lines| && Group(lines[..idx], isStart) == Pending(done0, current0)
    requires current0 == [] ==> done0 == [] || isStart(lines[idx])
    requires Contents(chunks0) == JoinEach(done0) && Distinct(chunks0)
    ensures Group(lines[..idx + 1], isStart) == Pending(done, current) && current != []
    ensures Contents(chunks) == JoinEach(done) && Distinct(chunks)
    ensures forall c | c in chunks :: c in chunks0 || (fresh(c) && c.filePath == filePath && c.score == 0.0)
  {
    var line := lines[idx];
    assert lines[..idx + 1] == lines[..idx] + [line];
    GroupAdvance(lines[..idx], line, isStart, done0, current0);
    chunks, done, current := chunks0, done0, current0;
    if isStart(line) && current != [] {
      chunks := Flush(chunks, filePath, done, current);
      done := done + [current];
      current := [];
      assert current + [line] == [line];
    }
    current := current + [line];
  }

  /**
   * The grouping loop that `_chunk_python` runs over the definitions and
   * `_chunk_markdown` over all lines: a start line closes the group being
   * collected, if there is one, and every line joins the group being collected.
   */
  method CollectGroups(lines: seq<string>, isStart: string -> bool, filePath: string, start: nat,
                       chunks0: seq<DocumentChunk>, ghost done0: seq<seq<string>>)
    returns (chunks: seq<DocumentChunk>, ghost done: seq<seq<string>>, current: seq<string>)
    requires start <= |lines| && Group(lines[..start], isStart) == Pending(done0, [])
    requires start < |lines| ==> done0 == [] || isStart(lines[start])
    requires Contents(chunks0) == JoinEach(done0) && Distinct(chunks0)
    ensures Group(lines, isStart) == Pending(done, current)
    ensures Contents(chunks) == JoinEach(done) && Distinct(chunks)
    ensures forall c | c in chunks :: c in chunks0 || (fresh(c) && c.filePath == filePath && c.score == 0.0)
  {
    chunks, done, current := chunks0, done0, [];
    var idx := start;
    while idx < |lines|
      invariant start <= idx <= |lines|
      invariant Group(lines[..idx], isStart) == Pending(done, current)
      invariant current == [] ==> idx == start && done == done0
      invariant Contents(chunks) == JoinEach(done) && Distinct(chunks)
      invariant forall c | c in chunks :: c in chunks0 || (fresh(c) && c.filePath == filePath && c.score == 0.0)
    {
      chunks, done, current := Advance(lines, idx, isStart, filePath, chunks, done, current);
      idx := idx + 1;
    }
    assert lines[..idx] == lines;
  }

  /** `_chunk_python`. */
  method ChunkPython(content: string, filePath: string) returns (chunks: seq<DocumentChunk>)
    ensures Contents(chunks) == PythonChunkTexts(content)
    ensures forall c | c in chunks :: fresh(c) && c.filePath == filePath && c.score == 0.0
    ensures Distinct(chunks)
  {
    var lines := SplitLines(content);
    ghost var done: seq<seq<string>>;
    var idx, current;
    chunks, done, idx := PythonHeaderChunk(lines, filePath);
    chunks, done, current := CollectGroups(lines, IsDefLine, filePath, idx, chunks, done);
    chunks := Finish(content, filePath, IsDefLine, chunks, done, current);
  }

  /** `_chunk_markdown`. */
  method ChunkMarkdown(content: string, filePath: string) returns (chunks: seq<DocumentChunk>)
    ensures Contents(chunks) == MarkdownChunkTexts(content)
    ensures forall c | c in chunks :: fresh(c) && c.filePath == filePath && c.score == 0.0
    ensures Distinct(chunks)
  {
    var lines := SplitLines(content);
    ghost var done: seq<seq<string>>;
    var current;
    assert lines[..0] == [];
    chunks, done, current := CollectGroups(lines, IsHeadingLine, filePath, 0, [], []);
    chunks := Finish(content, filePath, IsHeadingLine, chunks, done, current);
  }

  /** `_chunk_generic`. */
  method ChunkGeneric(content: string, filePath: string) returns (chunks: seq<DocumentChunk>)
    ensures Contents(chunks) == GenericChunkTexts(content)
    ensures forall c | c in chunks :: fresh(c) && c.filePath == filePath && c.score == 0.0
    ensures Distinct(chunks)
  {
    var parts := Split(content, "\n\n");
    chunks := [];
    for i := 0 to |parts|
      invariant Contents(chunks) == Filter(parts[..i], IsNonBlank)
      invariant forall c | c in chunks :: fresh(c) && c.filePath == filePath && c.score == 0.0
      invariant Distinct(chunks)
    {
      assert parts[..i + 1][..i] == parts[..i];
      if IsNonBlank(parts[i]) {
        chunks := AppendChunk(chunks, filePath, parts[i]);
      }
    }
    assert parts[..|parts|] == parts;
  }

  /** `chunk`. */
  method Chunk(content: string, filePath: string) returns (chunks: seq<DocumentChunk>)
    ensures Contents(chunks) == ChunkTexts(content, filePath)
    ensures forall c | c in chunks :: fresh(c) && c.filePath == filePath && c.score == 0.0
    ensures Distinct(chunks)
  {
    if EndsWith(filePath, ".py") {
      chunks := ChunkPython(content, filePath);
    } else if EndsWith(filePath, ".md") {
      chunks := ChunkMarkdown(content, filePath);
    } else {
      chunks := ChunkGeneric(content, filePath);
    }
  }
}
