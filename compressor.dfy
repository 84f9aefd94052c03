/** The context compressor of the retrieval engine (`ContextCompressor`, aifr/rag.py). */
module Compressor {
  import opened Text
  import opened Joins
  import opened Lines
  import opened Seqs

  /** A Python line survives compression when it is not blank and not a `#` comment line. */
  predicate KeepPythonLine(line: string) {
    IsNonBlank(line) && !StartsWith(Strip(line), "#")
  }

  /** The lines that `compress` keeps, in their original order and with their indentation. */
  function KeptLines(content: string, filePath: string): seq<string> {
    if EndsWith(filePath, ".py") then Filter(SplitLines(content), KeepPythonLine)
    else Filter(SplitLines(content), IsNonBlank)
  }

  /** What `compress` returns: the kept lines joined with newlines. */
  function Compressed(content: string, filePath: string): string {
    Join(KeptLines(content, filePath), "\n")
  }

  /** `_compress_python`: drop blank lines and lines whose stripped form starts with `#`. */
  method CompressPython(content: string) returns (r: string)
    ensures r == Join(Filter(SplitLines(content), KeepPythonLine), "\n")
  {
    var all := SplitLines(content);
    var lines: seq<string> := [];
    for i := 0 to |all|
      invariant lines == Filter(all[..i], KeepPythonLine)
    {
      assert all[..i + 1][..i] == all[..i];
      var line := all[i];
      var stripped := Strip(line);
      StripEmptyIffBlank(line);
      if stripped == [] {
        continue;
      }
      if StartsWith(stripped, "#") {
        continue;
      }
      lines := lines + [line];
    }
    assert all[..|all|] == all;
    r := Join(lines, "\n");
  }

  /** `_compress_generic`: drop the blank lines. */
  function CompressGeneric(content: string): string {
    Join(Filter(SplitLines(content), IsNonBlank), "\n")
  }

  /** `compress`: Python rules for paths ending in `.py`, the generic rule otherwise. */
  method Compress(content: string, filePath: string) returns (r: string)
    ensures r == Compressed(content, filePath)
  {
    if EndsWith(filePath, ".py") {
      r := CompressPython(content);
    } else {
      r := CompressGeneric(content);
    }
  }

  /**
   * The compressed text consists of exactly the kept lines: splitting it into
   * lines gives them back, so no kept line is merged, split or altered.
   */
  lemma {:induction false} CompressedLines(content: string, filePath: string)
    ensures SplitLines(Compressed(content, filePath)) == KeptLines(content, filePath)
  {
    var all := SplitLines(content);
    var kept := KeptLines(content, filePath);
    FilterShape(all, KeepPythonLine);
    FilterShape(all, IsNonBlank);
    forall k | 0 <= k < |kept| ensures NoLineBreak(kept[k]) && kept[k] != [] {
      assert kept[k] in all;
      assert IsNonBlank(kept[k]);
    }
    SplitLinesOfJoin(kept);
  }

  /** Every line of the compressed text is non-blank and, for Python, not a comment line. */
  lemma {:induction false} CompressedLinesKept(content: string, filePath: string)
    ensures forall k | 0 <= k < |SplitLines(Compressed(content, filePath))| ::
      var line := SplitLines(Compressed(content, filePath))[k];
      IsNonBlank(line) && (EndsWith(filePath, ".py") ==> !StartsWith(Strip(line), "#"))
  {
    CompressedLines(content, filePath);
    FilterShape(SplitLines(content), KeepPythonLine);
    FilterShape(SplitLines(content), IsNonBlank);
  }

  /** Compressing twice gives the same text as compressing once. */
  lemma {:induction false} CompressIdempotent(content: string, filePath: string)
    ensures Compressed(Compressed(content, filePath), filePath) == Compressed(content, filePath)
  {
    CompressedLines(content, filePath);
    if EndsWith(filePath, ".py") {
      FilterIdempotent(SplitLines(content), KeepPythonLine);
    } else {
      FilterIdempotent(SplitLines(content), IsNonBlank);
    }
  }
}
