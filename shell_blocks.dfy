/**
 * The extraction of fenced shell blocks from a model's answer
 * (`CommandParser.extract_commands`, aifr/executor.py).
 */
module ShellBlocks {
  import opened Wrappers
  import opened Text

  // ---------------------------------------------------------------------------
  // `re.compile(r"```(?:bash|sh|zsh)(.*?)```", re.DOTALL).findall(text)`

  const Fence := "```"

  /** The tag of the group `(?:bash|sh|zsh)` at the start of `s`, by its length. */
  function TagLen(s: string): (r: Option<nat>)
    ensures r.Some? ==> r.value <= |s|
  {
    if StartsWith(s, "bash") then Some(4)
    else if StartsWith(s, "sh") then Some(2)
    else if StartsWith(s, "zsh") then Some(3)
    else None
  }

  /** The first position from `i` on at which `sub` occurs in `s`, if any. */
  function FindFrom(s: string, sub: string, i: nat): (r: Option<nat>)
    ensures r.Some? ==> i <= r.value && OccursAt(s, sub, r.value)
    ensures forall j | i <= j && (r.None? || j < r.value) :: !OccursAt(s, sub, j)
    decreases |s| - i
  {
    if i + |sub| > |s| then None
    else if OccursAt(s, sub, i) then Some(i)
    else FindFrom(s, sub, i + 1)
  }

  /**
   * The match starting at the beginning of `s`, if any: the fence, a tag, the
   * shortest body up to the next fence, and that fence; the body and the match length.
   */
  function BlockAt(s: string): (r: Option<(string, nat)>)
    ensures r.Some? ==> 6 <= r.value.1 <= |s|
  {
    if !StartsWith(s, Fence) then None
    else
      match TagLen(s[3..])
      case None => None
      case Some(t) =>
        match FindFrom(s, Fence, 3 + t)
        case None => None
        case Some(j) => Some((s[3 + t..j], j + 3))
  }

  /** `findall`: the bodies of the matches, scanning from the left, each search resuming after the previous match. */
  function FindAll(s: string): seq<string>
    decreases |s|
  {
    if s == [] then []
    else
      match BlockAt(s)
      case Some((body, n)) => [body] + FindAll(s[n..])
      case None => FindAll(s[1..])
  }

  /** A match is a fence, a tag, a body holding no fence, and a fence. */
  lemma {:induction false} BlockAtMeaning(s: string)
    requires BlockAt(s).Some?
    ensures var (body, n) := BlockAt(s).value;
      exists tag | tag in ["bash", "sh", "zsh"] :: s[..n] == Fence + tag + body + Fence
    ensures !Contains(BlockAt(s).value.0, Fence)
  {
    var t := TagLen(s[3..]).value;
    var j := FindFrom(s, Fence, 3 + t).value;
    var body := s[3 + t..j];
    var tag := s[3..3 + t];
    assert tag == s[3..][..t];
    assert s[..j + 3] == s[..3] + tag + body + s[j..j + 3];
    forall i | 0 <= i <= |body| - |Fence| ensures !OccursAt(body, Fence, i) {
      assert body[i..i + 3] == s[3 + t + i..3 + t + i + 3];
      assert !OccursAt(s, Fence, 3 + t + i);
    }
  }

  /** Text without a fence holds no block. */
  lemma {:induction false} FindAllNoFence(s: string)
    requires !Contains(s, Fence)
    ensures FindAll(s) == []
    decreases |s|
  {
    if s != [] {
      assert !StartsWith(s, Fence) by {
        assert !OccursAt(s, Fence, 0);
      }
      assert !Contains(s[1..], Fence) by {
        forall i | 0 <= i <= |s[1..]| - 3 ensures !OccursAt(s[1..], Fence, i) {
          assert !OccursAt(s, Fence, i + 1);
          assert s[1..][i..i + 3] == s[i + 1..i + 4];
        }
      }
      FindAllNoFence(s[1..]);
    }
  }

  // ---------------------------------------------------------------------------
  // `extract_commands`

  /** The stripped matches that are not empty, in order. */
  function Cleaned(matches: seq<string>): seq<string>
    decreases |matches|
  {
    if matches == [] then []
    else
      var n := |matches| - 1;
      var cmd := Strip(matches[n]);
      Cleaned(matches[..n]) + (if cmd != "" then [cmd] else [])
  }

  lemma {:induction false} CleanedExtend(matches: seq<string>, i: nat)
    requires i < |matches|
    ensures var cmd := Strip(matches[i]);
      Cleaned(matches[..i + 1]) == Cleaned(matches[..i]) + (if cmd != "" then [cmd] else [])
  {
    assert matches[..i + 1][..i] == matches[..i];
  }

  lemma {:induction false} CleanedSnoc(ms: seq<string>, m: string)
    ensures Cleaned(ms + [m]) == Cleaned(ms) + (if Strip(m) != "" then [Strip(m)] else [])
  {
    assert (ms + [m])[..|ms|] == ms;
  }

  /** What `extract_commands` returns. */
  function Commands(text: string): seq<string> {
    Cleaned(FindAll(text))
  }

  /** `extract_commands`. */
  method ExtractCommands(text: string) returns (cmds: seq<string>)
    ensures cmds == Commands(text)
  {
    var matches := FindAll(text);
    cmds := [];
    var i := 0;
    while i < |matches|
      invariant 0 <= i <= |matches|
      invariant cmds == Cleaned(matches[..i])
    {
      var cmd := Strip(matches[i]);
      CleanedExtend(matches, i);
      if cmd != "" {
        cmds := cmds + [cmd];
      }
      i := i + 1;
    }
    assert matches[..i] == matches;
  }

  /** Every command is non-empty and has no surrounding whitespace. */
  lemma {:induction false} CleanedTrimmed(matches: seq<string>)
    ensures forall k | 0 <= k < |Cleaned(matches)| :: Trimmed(Cleaned(matches)[k])
    decreases |matches|
  {
    if matches != [] {
      var n := |matches| - 1;
      CleanedTrimmed(matches[..n]);
      StripEnds(matches[n]);
    }
  }

  predicate Trimmed(c: string) {
    c != "" && !IsSpace(c[0]) && !IsSpace(c[|c| - 1])
  }

  lemma {:induction false} CommandsTrimmed(text: string)
    ensures forall k | 0 <= k < |Commands(text)| :: Trimmed(Commands(text)[k])
  {
    CleanedTrimmed(FindAll(text));
  }

  /** Text without a fence yields no command. */
  lemma {:induction false} CommandsNoFence(text: string)
    requires !Contains(text, Fence)
    ensures Commands(text) == []
  {
    FindAllNoFence(text);
  }

  /** Text without a backtick before the rest contributes no match. */
  lemma {:induction false} FindAllNoTick(a: string, rest: string)
    requires forall i | 0 <= i < |a| :: a[i] != '`'
    ensures FindAll(a + rest) == FindAll(rest)
    decreases |a|
  {
    if a != [] {
      var s := a + rest;
      assert s[0] == a[0];
      assert !StartsWith(s, Fence) by {
        if |s| >= 3 {
          assert s[..3][0] == s[0];
        }
      }
      assert BlockAt(s) == None;
      assert FindAll(s) == FindAll(s[1..]);
      assert s[1..] == a[1..] + rest;
      FindAllNoTick(a[1..], rest);
    } else {
      assert a + rest == rest;
    }
  }

  /** The search for the closing fence stops at the first one. */
  lemma {:induction false} FindFromAt(s: string, i: nat, j: nat)
    requires i <= j && OccursAt(s, Fence, j)
    requires forall k | i <= k < j :: s[k] != '`'
    ensures FindFrom(s, Fence, i) == Some(j)
  {
    forall k | i <= k < j ensures !OccursAt(s, Fence, k) {
      if k + 3 <= |s| {
        assert s[k..k + 3][0] == s[k];
      }
    }
  }

  /** A block with a tag and a body free of backticks is matched whole. */
  lemma {:induction false} FindAllBlock(tag: string, body: string, rest: string)
    requires tag == "bash" || tag == "sh" || tag == "zsh"
    requires forall i | 0 <= i < |body| :: body[i] != '`'
    ensures FindAll(Fence + tag + body + Fence + rest) == [body] + FindAll(rest)
  {
    var s := Fence + tag + body + Fence + rest;
    var t := |tag|;
    var j := 3 + t + |body|;
    FiveParts(s, Fence, tag, body, Fence, rest);
    TagLenOf(s[3..], tag);
    FindFromAt(s, 3 + t, j);
  }

  /** A text that starts with one of the three tags is read as that tag. */
  lemma {:induction false} TagLenOf(x: string, tag: string)
    requires IsTag(tag) && |tag| <= |x| && x[..|tag|] == tag
    ensures TagLen(x) == Some(|tag|)
  {
    assert x[0] == x[..|tag|][0] && x[1] == x[..|tag|][1];
    if |x| >= 4 {
      assert x[..4][0] == x[0] && x[..4][1] == x[1];
    }
  }

  /** The parts of a concatenation of five strings, cut back out of it. */
  lemma {:induction false} FiveParts(s: string, a: string, b: string, c: string, d: string, e: string)
    requires s == a + b + c + d + e
    ensures var i, j, k, l := |a|, |a| + |b|, |a| + |b| + |c|, |a| + |b| + |c| + |d|;
      && s[..i] == a && s[i..][..|b|] == b && s[j..k] == c && s[k..l] == d && s[l..] == e
  {
  }

  predicate NoTick(s: string) { forall i | 0 <= i < |s| :: s[i] != '`' }

  predicate IsTag(tag: string) { tag == "bash" || tag == "sh" || tag == "zsh" }

  /** The matches of one block between texts without backticks. */
  lemma {:induction false} FindAllOne(before: string, tag: string, body: string, after: string)
    requires NoTick(before) && IsTag(tag) && NoTick(body) && NoTick(after)
    ensures FindAll(before + (Fence + tag + body + Fence + after)) == [body]
  {
    FindAllNoTick(before, Fence + tag + body + Fence + after);
    FindAllBlock(tag, body, after);
    FindAllNoTick(after, []);
    assert after + [] == after;
  }

  /** The matches of two blocks separated and surrounded by texts without backticks. */
  lemma {:induction false} FindAllTwo(before: string, tag1: string, body1: string, between: string,
                                      tag2: string, body2: string, after: string)
    requires NoTick(before) && IsTag(tag1) && NoTick(body1) && NoTick(between)
    requires IsTag(tag2) && NoTick(body2) && NoTick(after)
    ensures FindAll(before + (Fence + tag1 + body1 + Fence + (between + (Fence + tag2 + body2 + Fence + after)))) == [body1, body2]
  {
    var tail := between + (Fence + tag2 + body2 + Fence + after);
    FindAllNoTick(before, Fence + tag1 + body1 + Fence + tail);
    FindAllBlock(tag1, body1, tail);
    FindAllOne(between, tag2, body2, after);
  }

  /** One match gives its stripped body, unless that is empty. */
  lemma {:induction false} CleanedOne(ms: seq<string>)
    requires |ms| == 1
    ensures Cleaned(ms) == if Strip(ms[0]) != "" then [Strip(ms[0])] else []
  {
    assert ms[..0] == [];
  }

  /** Two matches with non-blank bodies give both stripped bodies, in order. */
  lemma {:induction false} CleanedTwo(a: string, b: string, x: string, y: string)
    requires x == Strip(a) && y == Strip(b) && x != "" && y != ""
    ensures Cleaned([a, b]) == [x, y]
  {
    CleanedSnoc([], a);
    assert [] + [a] == [a];
    CleanedSnoc([a], b);
    assert [a] + [b] == [a, b];
    assert Cleaned([]) == [];
    assert [] + [x] == [x];
    assert [x] + [y] == [x, y];
  }

  /** A body on a line of its own strips to that line. */
  lemma {:induction false} StripBody(line: string)
    requires Trimmed(line)
    ensures Strip("\n" + line + "\n") == line
  {
    StripAround('\n', line, '\n');
  }

  lemma {:induction false} NoTickBody(line: string)
    requires NoTick(line)
    ensures NoTick("\n" + line + "\n")
  {
  }

  /** A line without backticks, alone in a block, is the one command. */
  lemma {:induction false} CommandsOne(before: string, tag: string, line: string, after: string)
    requires NoTick(before) && IsTag(tag) && NoTick(line) && NoTick(after) && Trimmed(line)
    ensures Commands(before + (Fence + tag + ("\n" + line + "\n") + Fence + after)) == [line]
  {
    NoTickBody(line);
    FindAllOne(before, tag, "\n" + line + "\n", after);
    StripBody(line);
    CleanedOne(["\n" + line + "\n"]);
  }

  /** Two such blocks give their two lines, in order. */
  lemma {:induction false} CommandsTwo(before: string, tag1: string, l1: string, between: string,
                                       tag2: string, l2: string, after: string)
    requires NoTick(before) && IsTag(tag1) && NoTick(l1) && Trimmed(l1) && NoTick(between)
    requires IsTag(tag2) && NoTick(l2) && Trimmed(l2) && NoTick(after)
    ensures Commands(before + (Fence + tag1 + ("\n" + l1 + "\n") + Fence
      + (between + (Fence + tag2 + ("\n" + l2 + "\n") + Fence + after)))) == [l1, l2]
  {
    var b1, b2 := "\n" + l1 + "\n", "\n" + l2 + "\n";
    NoTickBody(l1);
    NoTickBody(l2);
    FindAllTwo(before, tag1, b1, between, tag2, b2, after);
    StripBody(l1);
    StripBody(l2);
    CleanedTwo(b1, b2, l1, l2);
  }

  /** The first example of the executor's tests: one `bash` block between two lines of text. */
  lemma {:induction false} ExtractSingleExample(before: string, line: string, after: string)
    requires before == "\nHere is the command:\n" && line == "ls -la" && after == "\nEnjoy.\n"
    ensures Commands(before + (Fence + "bash" + ("\n" + line + "\n") + Fence + after)) == [line]
  {
    CommandsOne(before, "bash", line, after);
  }

  /** The second example: an `sh` block and a `bash` block, in order. */
  lemma {:induction false} ExtractMultipleExample(before: string, l1: string, between: string, l2: string, after: string)
    requires before == "\nFirst step:\n" && l1 == "mkdir test" && between == "\nSecond step:\n"
    requires l2 == "cd test && touch file.txt" && after == "\n"
    ensures Commands(before + (Fence + "sh" + ("\n" + l1 + "\n") + Fence
      + (between + (Fence + "bash" + ("\n" + l2 + "\n") + Fence + after)))) == [l1, l2]
  {
    CommandsTwo(before, "sh", l1, between, "bash", l2, after);
  }

  /** The third example: plain text has no command. */
  lemma {:induction false} ExtractNoneExample(text: string)
    requires text == "Just some text without code blocks."
    ensures Commands(text) == []
  {
    FindAllNoTick(text, []);
    assert text + [] == text;
  }
}
