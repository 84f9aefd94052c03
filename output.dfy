/**
 * What the command line prints (aifr/output.py): the colour decision, the
 * answer cut into fixed-size pieces, and the one-line token usage summary.
 * The terminal is a parameter (`isTty`), and a print is modelled by the
 * string it is given.
 */
module Output {
  import opened Wrappers
  import opened Joins
  import opened Seqs
  import opened Numbers
  import opened Markdown

  /** `should_colorize`: colours only on a terminal, and never in raw mode. */
  predicate ShouldColorize(rawFlag: bool, isTty: bool) {
    if rawFlag then false else isTty
  }

  lemma {:induction false} ColorizeCases(rawFlag: bool, isTty: bool)
    ensures ShouldColorize(rawFlag, isTty) <==> !rawFlag && isTty
  {
  }

  // ---------------------------------------------------------------------------
  // `_chunk`

  function Min(a: int, b: int): int {
    if a <= b then a else b
  }

  /** The slices `text[idx : idx + size]` for `idx` in `range(start, len(text), size)`. */
  function PiecesFrom(text: string, size: nat, start: nat): seq<string>
    requires size > 0
    decreases |text| - start
  {
    if start >= |text| then []
    else [text[start..Min(start + size, |text|)]] + PiecesFrom(text, size, start + size)
  }

  /** The pieces from `start` on put back together are the text from `start` on. */
  lemma {:induction false} PiecesConcat(text: string, size: nat, start: nat)
    requires size > 0 && start <= |text|
    ensures Concat(PiecesFrom(text, size, start)) == text[start..]
    decreases |text| - start
  {
    if start < |text| {
      var p := PiecesFrom(text, size, start);
      assert p[1..] == PiecesFrom(text, size, start + size);
      if start + size < |text| {
        PiecesConcat(text, size, start + size);
        assert text[start..] == text[start..start + size] + text[start + size..];
      } else {
        assert PiecesFrom(text, size, start + size) == [];
      }
    }
  }

  /** Full pieces of `size` characters, then one non-empty last piece of at most `size`. */
  predicate FullThenRest(p: seq<string>, size: nat) {
    && (forall k | 0 <= k < |p| - 1 :: |p[k]| == size)
    && (p != [] ==> 0 < |p[|p| - 1]| <= size)
  }

  lemma {:induction false} PiecesShape(text: string, size: nat, start: nat)
    requires size > 0
    ensures FullThenRest(PiecesFrom(text, size, start), size)
    ensures PiecesFrom(text, size, start) == [] <==> start >= |text|
    decreases |text| - start
  {
    if start < |text| {
      var p := PiecesFrom(text, size, start);
      var rest := PiecesFrom(text, size, start + size);
      assert p == [p[0]] + rest;
      PiecesShape(text, size, start + size);
      if rest != [] {
        assert start + size < |text|;
        assert |p[0]| == size;
        forall k | 0 <= k < |p| - 1 ensures |p[k]| == size {
          if k > 0 {
            assert p[k] == rest[k - 1];
          }
        }
      }
    }
  }

  /**
   * `_chunk(text, size)`: Python's `range` refuses a zero step (None here),
   * a negative step yields nothing, and a positive one cuts the text into
   * full pieces and a shorter non-empty last one that put back together give
   * the text.
   */
  function Chunk(text: string, size: int): (r: Option<seq<string>>)
    ensures r.None? <==> size == 0
    ensures size < 0 ==> r == Some([])
    ensures size > 0 ==> r.Some? && Concat(r.value) == text && FullThenRest(r.value, size)
    ensures size > 0 ==> (r.value == [] <==> text == [])
  {
    if size == 0 then None
    else if size < 0 then Some([])
    else
      PiecesConcat(text, size, 0);
      PiecesShape(text, size, 0);
      Some(PiecesFrom(text, size, 0))
  }

  /** Every piece but the last is full, so a step of at least the length gives the text in one piece. */
  lemma {:induction false} ShortTextOnePiece(text: string, size: int)
    requires text != [] && |text| <= size
    ensures Chunk(text, size) == Some([text])
  {
    var p := Chunk(text, size).value;
    assert Concat(p) == p[0] + Concat(p[1..]);
    assert |p| == 1 && p[1..] == [];
    assert Concat(p) == p[0] + Concat(p[1..]) == p[0];
    assert p == [text];
  }

  // ---------------------------------------------------------------------------
  // `print_chunks`

  /**
   * The strings `print_chunks` hands to `print`, one line each: nothing for
   * an empty text, the text itself when not colouring, and otherwise the
   * rendered Markdown in pieces of `chunkSize`; None is the error a zero
   * piece size raises. `inline` stands for `_render_inline`.
   */
  function PrintChunks(text: string, chunkSize: int, rawFlag: bool, isTty: bool, inline: string -> string)
    : (r: Option<seq<string>>)
    ensures text == "" ==> r == Some([])
    ensures text != "" && !ShouldColorize(rawFlag, isTty) ==> r == Some([text])
    ensures r.None? <==> text != "" && ShouldColorize(rawFlag, isTty) && chunkSize == 0
    ensures text != "" && ShouldColorize(rawFlag, isTty) && chunkSize > 0 ==>
      r.Some? && Concat(r.value) == Rendered(text, inline)
  {
    if text == "" then Some([])
    else if !ShouldColorize(rawFlag, isTty) then Some([text])
    else Chunk(Rendered(text, inline), chunkSize)
  }

  /** Raw output never goes through the renderer: what is printed does not depend on it. */
  lemma {:induction false} RawSkipsRender(text: string, chunkSize: int, isTty: bool, f: string -> string, g: string -> string)
    ensures PrintChunks(text, chunkSize, true, isTty, f) == PrintChunks(text, chunkSize, true, isTty, g)
    ensures text != "" ==> PrintChunks(text, chunkSize, true, isTty, f) == Some([text])
  {
  }

  // ---------------------------------------------------------------------------
  // `print_usage_summary`

  const InputLabel := "wejście tokeny: "
  const OutputLabel := "wyjście tokeny: "
  const TotalLabel := "razem: "
  const NoTokenData := "brak danych o tokenach"
  const ModelLabel := "Model: "

  /** The field of one count, as `f"{name}{count}"`, when the count is present. */
  function Field(name: string, count: Option<int>): seq<string> {
    if count.Some? then [name + IntToString(count.value)] else []
  }

  /** The present counts, input, output and total, in that order. */
  function TokenFields(prompt: Option<int>, completion: Option<int>, total: Option<int>): seq<string> {
    Field(InputLabel, prompt) + Field(OutputLabel, completion) + Field(TotalLabel, total)
  }

  function Present(count: Option<int>): nat {
    if count.Some? then 1 else 0
  }

  /** One field per present count, each in its place. */
  lemma {:induction false} TokenFieldsShape(prompt: Option<int>, completion: Option<int>, total: Option<int>)
    ensures var f := TokenFields(prompt, completion, total);
      && |f| == Present(prompt) + Present(completion) + Present(total)
      && (prompt.Some? ==> f[0] == InputLabel + IntToString(prompt.value))
      && (completion.Some? ==> f[Present(prompt)] == OutputLabel + IntToString(completion.value))
      && (total.Some? ==> f[|f| - 1] == TotalLabel + IntToString(total.value))
  {
  }

  /** The summary line: the model, then the present counts or the no-data notice, joined by `" | "`. */
  function UsageLine(model: string, prompt: Option<int>, completion: Option<int>, total: Option<int>): string {
    var f := TokenFields(prompt, completion, total);
    Join([ModelLabel + model] + (if f == [] then [NoTokenData] else f), " | ")
  }

  /** `print_usage_summary`: the line it prints. */
  method UsageSummary(model: string, prompt: Option<int>, completion: Option<int>, total: Option<int>)
    returns (line: string)
    ensures line == UsageLine(model, prompt, completion, total)
  {
    var tokens: seq<string> := [];
    if prompt.Some? {
      tokens := tokens + [InputLabel + IntToString(prompt.value)];
    }
    if completion.Some? {
      tokens := tokens + [OutputLabel + IntToString(completion.value)];
    }
    if total.Some? {
      tokens := tokens + [TotalLabel + IntToString(total.value)];
    }
    ghost var f := TokenFields(prompt, completion, total);
    assert tokens == f;
    if tokens == [] {
      tokens := tokens + [NoTokenData];
    }
    assert tokens == if f == [] then [NoTokenData] else f;
    line := Join([ModelLabel + model] + tokens, " | ");
  }

  /** Without any count the line names the model and says there is no token data. */
  lemma {:induction false} UsageWithoutCounts(model: string)
    ensures UsageLine(model, None, None, None) == ModelLabel + model + " | " + NoTokenData
  {
    assert TokenFields(None, None, None) == [];
    JoinCons(ModelLabel + model, [NoTokenData], " | ");
  }

  /** With all three counts the line lists them in the order input, output, total. */
  lemma {:induction false} UsageWithAllCounts(model: string, p: int, c: int, t: int)
    ensures UsageLine(model, Some(p), Some(c), Some(t))
      == ModelLabel + model + " | " + (InputLabel + IntToString(p)) + " | " + (OutputLabel + IntToString(c))
         + " | " + (TotalLabel + IntToString(t))
  {
    var a, b, d := InputLabel + IntToString(p), OutputLabel + IntToString(c), TotalLabel + IntToString(t);
    assert TokenFields(Some(p), Some(c), Some(t)) == [a, b, d];
    JoinFour(ModelLabel + model, a, b, d, " | ");
  }

  lemma {:induction false} JoinFour(w: string, x: string, y: string, z: string, sep: string)
    ensures Join([w] + [x, y, z], sep) == w + sep + x + sep + y + sep + z
  {
    JoinCons(y, [z], sep);
    assert [x, y, z] == [x] + [y, z];
    JoinCons(x, [y, z], sep);
    JoinCons(w, [x, y, z], sep);
  }

  /** The line always starts with the model and a separator: something follows it in every case. */
  lemma {:induction false} UsageStartsWithModel(model: string, prompt: Option<int>, completion: Option<int>, total: Option<int>)
    ensures var prefix := ModelLabel + model + " | ";
      var line := UsageLine(model, prompt, completion, total);
      |prefix| < |line| && line[..|prefix|] == prefix
  {
    var f := TokenFields(prompt, completion, total);
    var rest := if f == [] then [NoTokenData] else f;
    JoinCons(ModelLabel + model, rest, " | ");
    var j := Join(rest, " | ");
    if f == [] {
      assert j == NoTokenData;
    } else {
      assert |f[0]| > 0;
      JoinHeadPrefix(f, " | ");
    }
    assert |j| > 0;
    var prefix := ModelLabel + model + " | ";
    assert UsageLine(model, prompt, completion, total) == prefix + j;
  }

  /** A join starts with its first part. */
  lemma {:induction false} JoinHeadPrefix(parts: seq<string>, sep: string)
    requires parts != []
    ensures |parts[0]| <= |Join(parts, sep)| && Join(parts, sep)[..|parts[0]|] == parts[0]
  {
    if |parts| > 1 {
      assert Join(parts, sep) == parts[0] + (sep + Join(parts[1..], sep));
    }
  }
}
