/**
 * The terminal Markdown renderer (aifr/markdown_renderer.py): ANSI escape
 * helpers, and a renderer that goes through the text line by line with a
 * two-state flag for fenced code blocks.
 */
module Markdown {
  import opened Wrappers
  import opened Text
  import opened Joins
  import opened Numbers

  // ---------------------------------------------------------------------------
  // ANSI escape codes

  /** The escape character `\033`. */
  const Esc := "\U{1b}"

  /** `rgb_to_ansi`: a 24-bit foreground colour. */
  function RgbToAnsi(r: int, g: int, b: int): string {
    Esc + "[38;2;" + IntToString(r) + ";" + IntToString(g) + ";" + IntToString(b) + "m"
  }

  /** The text of `s` before the first `c`. */
  function Before(s: string, c: char): string
    decreases |s|
  {
    if s == [] then [] else if s[0] == c then [] else [s[0]] + Before(s[1..], c)
  }

  /** The text of `s` after the first `c`. */
  function After(s: string, c: char): string
    decreases |s|
  {
    if s == [] then [] else if s[0] == c then s[1..] else After(s[1..], c)
  }

  /** Text without `c`, then `c`: the cut at the first `c` gives both sides back. */
  lemma {:induction false} CutAt(x: string, y: string, c: char)
    requires forall i | 0 <= i < |x| :: x[i] != c
    ensures Before(x + [c] + y, c) == x && After(x + [c] + y, c) == y
    decreases |x|
  {
    var s := x + [c] + y;
    if x == [] {
      assert s == [c] + y;
    } else {
      assert s[0] == x[0] && s[1..] == x[1..] + [c] + y;
      CutAt(x[1..], y, c);
    }
  }

  /** A written integer holds neither `;` nor `m`. */
  lemma {:induction false} IntStringPlain(n: int)
    ensures forall i | 0 <= i < |IntToString(n)| :: IntToString(n)[i] != ';' && IntToString(n)[i] != 'm'
  {
    var s := IntToString(n);
    if n < 0 {
      assert forall i | 1 <= i < |s| :: s[i] == NatToString(-n)[i - 1];
    }
  }

  /** The decimal text of an integer determines it. */
  lemma {:induction false} IntStringInjective(a: int, b: int)
    requires IntToString(a) == IntToString(b)
    ensures a == b
  {
    ParseIntOfString(a);
    ParseIntOfString(b);
  }

  /** After the fixed prefix, the escape code is the three numbers, each followed by its terminator. */
  lemma {:induction false} RgbFields(r: int, g: int, b: int)
    ensures |Esc + "[38;2;"| <= |RgbToAnsi(r, g, b)|
    ensures RgbToAnsi(r, g, b)[|Esc + "[38;2;"|..]
      == IntToString(r) + [';'] + (IntToString(g) + [';'] + (IntToString(b) + ['m']))
  {
    var p := Esc + "[38;2;";
    var a, c, d := IntToString(r), IntToString(g), IntToString(b);
    assert RgbToAnsi(r, g, b) == p + (a + [';'] + (c + [';'] + (d + ['m'])));
  }

  /** The escape code of a colour determines the colour: no two colours share one. */
  lemma {:induction false} RgbToAnsiInjective(r: int, g: int, b: int, r2: int, g2: int, b2: int)
    requires RgbToAnsi(r, g, b) == RgbToAnsi(r2, g2, b2)
    ensures r == r2 && g == g2 && b == b2
  {
    var n := |Esc + "[38;2;"|;
    RgbFields(r, g, b);
    RgbFields(r2, g2, b2);
    var t := RgbToAnsi(r, g, b)[n..];
    IntStringPlain(r);
    IntStringPlain(r2);
    IntStringPlain(g);
    IntStringPlain(g2);
    IntStringPlain(b);
    IntStringPlain(b2);
    CutAt(IntToString(r), IntToString(g) + [';'] + (IntToString(b) + ['m']), ';');
    CutAt(IntToString(r2), IntToString(g2) + [';'] + (IntToString(b2) + ['m']), ';');
    IntStringInjective(r, r2);
    var u := After(t, ';');
    CutAt(IntToString(g), IntToString(b) + ['m'], ';');
    CutAt(IntToString(g2), IntToString(b2) + ['m'], ';');
    IntStringInjective(g, g2);
    var v := After(u, ';');
    assert v[..|v| - 1] == IntToString(b) && v[..|v| - 1] == IntToString(b2);
    IntStringInjective(b, b2);
  }

  /** `rgb_to_ansi_bg`: a 24-bit background colour. */
  function RgbToAnsiBg(r: int, g: int, b: int): string {
    Esc + "[48;2;" + IntToString(r) + ";" + IntToString(g) + ";" + IntToString(b) + "m"
  }

  /** `reset_color()`, `bold()`, `italic()` and `dim()`. */
  const ResetColor := Esc + "[0m"
  const Bold := Esc + "[1m"
  const Italic := Esc + "[3m"
  const Dim := Esc + "[2m"

  datatype Rgb = Rgb(r: int, g: int, b: int)

  /** `RETRO_COLORS`. */
  const Cyan := Rgb(0x68, 0xc7, 0xc1)
  const Yellow := Rgb(0xfa, 0xca, 0x78)
  const Coral := Rgb(0xf5, 0x7f, 0x5b)
  const Red := Rgb(0xdd, 0x53, 0x41)
  const Brown := Rgb(0x79, 0x4a, 0x3a)
  const RetroColors: map<string, Rgb> := map["cyan" := Cyan, "yellow" := Yellow, "coral" := Coral, "red" := Red, "brown" := Brown]

  /** `rgb_to_ansi(*color)`. */
  function Ansi(c: Rgb): string { RgbToAnsi(c.r, c.g, c.b) }

  predicate IsChannel(v: int) { 0 <= v <= 255 }

  /** Each palette colour has three channels, all within 0..255. */
  lemma {:induction false} RetroColorsInRange(name: string)
    requires name in RetroColors
    ensures var c := RetroColors[name]; IsChannel(c.r) && IsChannel(c.g) && IsChannel(c.b)
  {
  }

  /** The five colour names the renderer uses are all in the palette. */
  lemma {:induction false} RetroColorsDefined()
    ensures forall name | name in ["cyan", "yellow", "coral", "red", "brown"] :: name in RetroColors
  {
  }

  /** The escapes the tests expect, for the colour 255, 128, 64. */
  lemma {:induction false} RgbExample(r: int, g: int, b: int)
    requires r == 255 && g == 128 && b == 64
    ensures RgbToAnsi(r, g, b) == Esc + "[38;2;255;128;64m"
    ensures RgbToAnsiBg(r, g, b) == Esc + "[48;2;255;128;64m"
  {
    NumberExample(r, "255");
    NumberExample(g, "128");
    NumberExample(b, "64");
  }

  lemma {:induction false} NumberExample(n: int, s: string)
    requires (n == 255 && s == "255") || (n == 128 && s == "128") || (n == 64 && s == "64")
    ensures IntToString(n) == s
  {
    if n == 255 {
      assert NatToString(25) == NatToString(2) + [DigitChar(5)];
    } else if n == 128 {
      assert NatToString(12) == NatToString(1) + [DigitChar(2)];
    }
  }

  /** The plain codes are the escape character followed by `[0m`, `[1m`, `[3m` and `[2m`. */
  lemma {:induction false} CodesExample()
    ensures ResetColor == "\U{1b}[0m" && Bold == "\U{1b}[1m" && Italic == "\U{1b}[3m" && Dim == "\U{1b}[2m"
    ensures ResetColor != Bold && Bold != Italic && Italic != Dim && Dim != ResetColor
  {
    assert ResetColor[2] == '0' && Bold[2] == '1' && Italic[2] == '3' && Dim[2] == '2';
  }

  // ---------------------------------------------------------------------------
  // Headers: `re.match(r'^(#{1,6})\s+(.+)$', line)`

  /** `c * n`. */
  function Repeat(c: char, n: nat): (r: string)
    ensures |r| == n && forall i | 0 <= i < n :: r[i] == c
  {
    if n == 0 then "" else Repeat(c, n - 1) + [c]
  }

  /** The number of leading `c`s of `s`. */
  function LeadingRun(s: string, c: char): (r: nat)
    ensures r <= |s| && (forall i | 0 <= i < r :: s[i] == c) && (r < |s| ==> s[r] != c)
  {
    if s == [] || s[0] != c then 0
    else
      var n := LeadingRun(s[1..], c);
      assert forall i | 1 <= i <= n :: s[i] == s[1..][i - 1];
      n + 1
  }

  /**
   * The level and the text of a header line: the run of `#`, then a
   * whitespace run as long as leaves a non-empty text.
   */
  function Header(line: string): Option<(nat, string)> {
    var h := LeadingRun(line, '#');
    if 1 <= h <= 6 && h < |line| && IsSpace(line[h]) then
      var rest := line[h..];
      var t := DropWhile(rest, IsSpace);
      if t != [] then Some((h, t))
      else if |rest| >= 2 then Some((h, rest[|rest| - 1..]))
      else None
    else None
  }

  /**
   * The regular expression matches with the first group ending at `l` and the
   * second starting at `k`: one to six `#`, whitespace, then at least one character.
   */
  predicate HeaderSplit(line: string, l: int, k: int) {
    && 1 <= l <= 6 && l < k < |line|
    && (forall i | 0 <= i < l :: line[i] == '#')
    && (forall i | l <= i < k :: IsSpace(line[i]))
  }

  /** For a line without a newline, the header pattern matches exactly when `Header` finds one. */
  lemma {:induction false} HeaderMatches(line: string)
    ensures Header(line).Some? <==> exists l, k | 0 <= l && 0 <= k :: HeaderSplit(line, l, k)
  {
    var h := LeadingRun(line, '#');
    if Header(line).Some? {
      var rest := line[h..];
      var t := DropWhile(rest, IsSpace);
      DropWhileShape(rest, IsSpace);
      assert forall i | h <= i < |line| - |t| :: IsSpace(line[i]) by {
        forall i | h <= i < |line| - |t| ensures IsSpace(line[i]) { assert line[i] == rest[i - h]; }
      }
      if t != [] {
        assert t != rest;
        assert HeaderSplit(line, h, |line| - |t|);
      } else {
        assert HeaderSplit(line, h, |line| - 1);
      }
    }
    if exists l, k | 0 <= l && 0 <= k :: HeaderSplit(line, l, k) {
      var l, k :| 0 <= l && 0 <= k && HeaderSplit(line, l, k);
      assert line[l] != '#' by { assert IsSpace(line[l]); }
      assert h == l;
    }
  }

  /**
   * The groups are the greedy ones: the level is the whole run of `#`, and the
   * text starts after the longest whitespace run that leaves it non-empty.
   */
  lemma {:induction false} HeaderGroups(line: string)
    requires Header(line).Some?
    ensures var (l, t) := Header(line).value;
      && HeaderSplit(line, l, |line| - |t|) && t == line[|line| - |t|..]
      && forall k | |line| - |t| < k < |line| :: !HeaderSplit(line, l, k)
  {
    var h := LeadingRun(line, '#');
    var rest := line[h..];
    var t := DropWhile(rest, IsSpace);
    DropWhileShape(rest, IsSpace);
    assert forall i | h <= i < |line| - |t| :: IsSpace(line[i]) by {
      forall i | h <= i < |line| - |t| ensures IsSpace(line[i]) { assert line[i] == rest[i - h]; }
    }
    if t != [] {
      assert t != rest;
      assert line[|line| - |t|] == t[0];
    }
  }

  /** A header line of the usual shape: its level and its text. */
  lemma {:induction false} HeaderOfShape(level: nat, space: string, text: string)
    requires 1 <= level <= 6 && space != [] && IsBlank(space) && text != [] && !IsSpace(text[0])
    ensures Header(Repeat('#', level) + space + text) == Some((level, text))
  {
    var line := Repeat('#', level) + space + text;
    assert line[level] == space[0];
    var h := LeadingRun(line, '#');
    assert h == level;
    var rest := line[h..];
    assert rest == space + text;
    DropWhileBlank(space, text);
  }

  /** Leading whitespace is dropped up to the first other character. */
  lemma {:induction false} DropWhileBlank(space: string, text: string)
    requires IsBlank(space) && text != [] && !IsSpace(text[0])
    ensures DropWhile(space + text, IsSpace) == text
    decreases |space|
  {
    if space == [] {
      assert space + text == text;
    } else {
      assert (space + text)[1..] == space[1..] + text;
      DropWhileBlank(space[1..], text);
    }
  }

  /** Seven `#` are not a header. */
  lemma {:induction false} SevenHashes(line: string)
    requires StartsWith(line, Repeat('#', 7))
    ensures Header(line) == None
  {
    var h := LeadingRun(line, '#');
    assert h >= 7 by {
      assert forall i | 0 <= i < 7 :: line[i] == Repeat('#', 7)[i];
    }
  }

  // ---------------------------------------------------------------------------
  // The line renderer

  /** `in_code_block` and `code_block_lang`. */
  datatype Mode = Mode(inCodeBlock: bool, codeBlockLang: Option<string>)

  /** The state of a new renderer. */
  const Initial := Mode(false, None)

  const Fence := "```"

  /** `line.strip()[3:].strip() or None`. */
  function CodeLang(stripped: string): Option<string>
    requires |stripped| >= 3
  {
    var lang := Strip(stripped[3..]);
    if lang == "" then None else Some(lang)
  }

  /** The marker that opens a code block, labelled with the language or `code`. */
  function OpenMarker(lang: Option<string>): string {
    Dim + Ansi(Brown) + "┌─ " + (if lang.Some? then lang.value else "code") + " " + ResetColor
  }

  /** The marker that closes a code block. */
  function CloseMarker(): string {
    Dim + Ansi(Brown) + "└─────" + ResetColor
  }

  /** A line inside a code block. */
  function CodeLine(line: string): string {
    Ansi(Coral) + line + ResetColor
  }

  /** A header line. */
  function HeaderLine(level: nat, text: string): string {
    Bold + Ansi(Cyan) + Repeat('#', level) + " " + text + ResetColor
  }

  /**
   * `_render_line` as a function of the state: the rendered line and the new
   * state. `inline` stands for `_render_inline`.
   */
  function LineStep(m: Mode, line: string, inline: string -> string): (string, Mode) {
    var s := Strip(line);
    if StartsWith(s, Fence) then
      if !m.inCodeBlock then
        var lang := CodeLang(s);
        (OpenMarker(lang), Mode(true, lang))
      else (CloseMarker(), Mode(false, None))
    else if m.inCodeBlock then (CodeLine(line), m)
    else match Header(line)
      case Some((level, text)) => (HeaderLine(level, text), m)
      case None => (inline(line), m)
  }

  /**
   * A fence line flips the code-block flag: opening records the language
   * (none when the rest of the line is blank), closing forgets it.
   */
  lemma {:induction false} FenceToggles(m: Mode, line: string, inline: string -> string)
    requires StartsWith(Strip(line), Fence)
    ensures var m' := LineStep(m, line, inline).1;
      && m'.inCodeBlock == !m.inCodeBlock
      && (m'.inCodeBlock ==> m'.codeBlockLang == CodeLang(Strip(line)))
      && (!m'.inCodeBlock ==> m'.codeBlockLang.None?)
      && (m'.codeBlockLang.Some? ==> m'.codeBlockLang.value != "")
  {
  }

  /** Inside a code block every other line is kept as it is, between the code colour and the reset. */
  lemma {:induction false} CodeVerbatim(m: Mode, line: string, inline: string -> string)
    requires m.inCodeBlock && !StartsWith(Strip(line), Fence)
    ensures LineStep(m, line, inline) == (Ansi(Coral) + line + ResetColor, m)
  {
  }

  /** Outside a code block a header renders as bold cyan `#`s, one space and the text. */
  lemma {:induction false} HeaderRendered(m: Mode, level: nat, space: string, text: string, inline: string -> string)
    requires !m.inCodeBlock && 1 <= level <= 6 && space != [] && IsBlank(space) && text != [] && !IsSpace(text[0])
    ensures LineStep(m, Repeat('#', level) + space + text, inline)
      == (Bold + Ansi(Cyan) + Repeat('#', level) + " " + text + ResetColor, m)
  {
    var line := Repeat('#', level) + space + text;
    HeaderOfShape(level, space, text);
    StripLeading(line);
  }

  /** A line that starts with `#` does not start with a fence after stripping. */
  lemma {:induction false} StripLeading(line: string)
    requires line != [] && line[0] == '#'
    ensures !StartsWith(Strip(line), Fence)
  {
    DropWhileStop(line, IsSpace);
    var d := DropWhileEnd(line, IsSpace);
    if |d| >= 3 {
      assert d[0] == line[0];
    }
  }

  /** A fence followed by a trimmed language opens a block with that language. */
  lemma {:induction false} OpeningFence(m: Mode, line: string, lang: string, inline: string -> string)
    requires !m.inCodeBlock && Trimmed(lang) && line == Fence + lang
    ensures LineStep(m, line, inline).1 == Mode(true, if lang == "" then None else Some(lang))
  {
    CodeLangOf(lang);
    FenceStripped(lang);
    FenceToggles(m, line, inline);
  }

  /** The language of a fence followed by trimmed text is that text. */
  lemma {:induction false} CodeLangOf(lang: string)
    requires Trimmed(lang)
    ensures CodeLang(Fence + lang) == if lang == "" then None else Some(lang)
  {
    assert (Fence + lang)[3..] == lang;
    StripTrimmed(lang);
  }

  /** Text that neither starts nor ends with whitespace. */
  predicate Trimmed(s: string) {
    s != [] ==> !IsSpace(s[0]) && !IsSpace(s[|s| - 1])
  }

  /** A fence followed by a trimmed language is trimmed. */
  lemma {:induction false} FenceStripped(lang: string)
    requires Trimmed(lang)
    ensures Strip(Fence + lang) == Fence + lang
  {
    var line := Fence + lang;
    assert line[0] == '`';
    assert line[|line| - 1] == if lang == "" then '`' else lang[|lang| - 1];
    StripTrimmed(line);
  }

  /** A bare fence inside a block closes it. */
  lemma {:induction false} ClosingFence(m: Mode, line: string, inline: string -> string)
    requires m.inCodeBlock && line == Fence
    ensures LineStep(m, line, inline).1 == Initial
  {
    StripTrimmed(line);
  }

  /** The state test: `"```python"` opens a Python block and `"```"` closes it again. */
  lemma {:induction false} CodeBlockStateExample(line: string, lang: string, inline: string -> string)
    requires line == Fence + lang && lang == "python"
    ensures var m := LineStep(Initial, line, inline).1;
      && m == Mode(true, Some("python"))
      && LineStep(m, Fence, inline).1 == Initial
  {
    OpeningFence(Initial, line, lang, inline);
    ClosingFence(Mode(true, Some(lang)), Fence, inline);
  }

  // ---------------------------------------------------------------------------
  // `render`

  /** The outputs and the final state of a line-by-line step function run over `lines` in order. */
  function Scan(step: (Mode, string) -> (string, Mode), m: Mode, lines: seq<string>): (r: (seq<string>, Mode))
    ensures |r.0| == |lines|
    decreases |lines|
  {
    if lines == [] then ([], m)
    else
      var init := Scan(step, m, lines[..|lines| - 1]);
      var last := step(init.1, lines[|lines| - 1]);
      (init.0 + [last.0], last.1)
  }

  /** Each output is the step on its line, in the state the lines before it left. */
  lemma {:induction false} ScanAt(step: (Mode, string) -> (string, Mode), m: Mode, lines: seq<string>, k: nat)
    requires k < |lines|
    ensures Scan(step, m, lines).0[k] == step(Scan(step, m, lines[..k]).1, lines[k]).0
    decreases |lines|
  {
    var n := |lines| - 1;
    if k < n {
      ScanAt(step, m, lines[..n], k);
      assert lines[..n][..k] == lines[..k];
    } else {
      assert lines[..k] == lines[..n];
    }
  }

  lemma {:induction false} ScanStep(step: (Mode, string) -> (string, Mode), m: Mode, lines: seq<string>, i: nat)
    requires i < |lines|
    ensures var init := Scan(step, m, lines[..i]);
      var last := step(init.1, lines[i]);
      Scan(step, m, lines[..i + 1]) == (init.0 + [last.0], last.1)
  {
    assert lines[..i + 1][..i] == lines[..i];
  }

  /** `_render_line` with a given `_render_inline`, as a step function. */
  function StepOf(inline: string -> string): (Mode, string) -> (string, Mode) {
    (m: Mode, line: string) => LineStep(m, line, inline)
  }

  /** The rendered lines and the final state after rendering `lines` in order. */
  function RenderLines(m: Mode, lines: seq<string>, inline: string -> string): (r: (seq<string>, Mode))
    ensures |r.0| == |lines|
  {
    Scan(StepOf(inline), m, lines)
  }

  /** Each rendered line is its input line rendered in the state the lines before it left. */
  lemma {:induction false} RenderLinesAt(m: Mode, lines: seq<string>, inline: string -> string, k: nat)
    requires k < |lines|
    ensures RenderLines(m, lines, inline).0[k] == LineStep(RenderLines(m, lines[..k], inline).1, lines[k], inline).0
  {
    ScanAt(StepOf(inline), m, lines, k);
  }

  lemma {:induction false} RenderLinesStep(m: Mode, lines: seq<string>, inline: string -> string, i: nat)
    requires i < |lines|
    ensures var init := RenderLines(m, lines[..i], inline);
      var last := LineStep(init.1, lines[i], inline);
      RenderLines(m, lines[..i + 1], inline) == (init.0 + [last.0], last.1)
  {
    ScanStep(StepOf(inline), m, lines, i);
  }

  /** `MarkdownRenderer`, with `_render_inline` given as `inline`. */
  class MarkdownRenderer {
    var inCodeBlock: bool
    var codeBlockLang: Option<string>
    const inline: string -> string

    function State(): Mode
      reads this
    {
      Mode(inCodeBlock, codeBlockLang)
    }

    /** A new renderer is outside any code block. */
    constructor (inline: string -> string)
      ensures State() == Initial && this.inline == inline
    {
      this.inline := inline;
      inCodeBlock := false;
      codeBlockLang := None;
    }

    /** `_render_line`. */
    method RenderLine(line: string) returns (r: string)
      modifies this
      ensures r == LineStep(old(State()), line, inline).0
      ensures State() == LineStep(old(State()), line, inline).1
    {
      ghost var step := LineStep(State(), line, inline);
      var s := Strip(line);
      if StartsWith(s, Fence) {
        inCodeBlock := !inCodeBlock;
        if inCodeBlock {
          codeBlockLang := CodeLang(s);
          assert step == (OpenMarker(codeBlockLang), State());
          return OpenMarker(codeBlockLang);
        } else {
          codeBlockLang := None;
          assert step == (CloseMarker(), State());
          return CloseMarker();
        }
      }
      if inCodeBlock {
        assert step == (CodeLine(line), State());
        return CodeLine(line);
      }
      var header := Header(line);
      if header.Some? {
        assert step == (HeaderLine(header.value.0, header.value.1), State());
        return HeaderLine(header.value.0, header.value.1);
      }
      assert step == (inline(line), State());
      return inline(line);
    }

    /** `render`: the lines of the text rendered in order, joined by newlines. */
    method Render(text: string) returns (r: string)
      modifies this
      ensures var (out, m) := RenderLines(old(State()), Split(text, "\n"), inline);
        r == Join(out, "\n") && State() == m
    {
      var lines := Split(text, "\n");
      var rendered: seq<string> := [];
      ghost var start := State();
      assert lines[..0] == [];
      for i := 0 to |lines|
        invariant RenderLines(start, lines[..i], inline) == (rendered, State())
      {
        RenderLinesStep(start, lines, inline, i);
        ghost var before := State();
        var line := RenderLine(lines[i]);
        assert line == LineStep(before, lines[i], inline).0 && State() == LineStep(before, lines[i], inline).1;
        rendered := rendered + [line];
      }
      assert lines[..|lines|] == lines;
      return Join(rendered, "\n");
    }
  }

  /** What `render_markdown` returns: the text rendered from the initial state. */
  function Rendered(text: string, inline: string -> string): string {
    Join(RenderLines(Initial, Split(text, "\n"), inline).0, "\n")
  }

  /** `render_markdown`: a new renderer each time, so no code block carries over from an earlier call. */
  method RenderMarkdown(text: string, inline: string -> string) returns (r: string)
    ensures r == Rendered(text, inline)
  {
    var renderer := new MarkdownRenderer(inline);
    r := renderer.Render(text);
  }

  /** The empty text renders as the empty text. */
  lemma {:induction false} RenderEmpty(inline: string -> string)
    requires inline("") == ""
    ensures Rendered("", inline) == ""
  {
    assert Split("", "\n") == [""];
    assert Strip("") == "";
    assert Header("") == None;
  }

  // ---------------------------------------------------------------------------
  // One rendered line per input line

  predicate OneLine(s: string) { !HasChar(s, '\n') }

  lemma {:induction false} OneLineConcat(a: string, b: string)
    ensures OneLine(a + b) <==> OneLine(a) && OneLine(b)
  {
    if OneLine(a) && OneLine(b) {
      forall i | 0 <= i < |a + b| ensures (a + b)[i] != '\n' {
        if i >= |a| { assert (a + b)[i] == b[i - |a|]; }
      }
    }
    if OneLine(a + b) {
      assert forall i | 0 <= i < |a| :: a[i] == (a + b)[i];
      assert forall i | 0 <= i < |b| :: b[i] == (a + b)[i + |a|];
    }
  }

  lemma {:induction false} OneLineSlice(s: string, i: int, j: int)
    requires OneLine(s) && 0 <= i <= j <= |s|
    ensures OneLine(s[i..j])
  {
    assert forall k | 0 <= k < j - i :: s[i..j][k] == s[i + k];
  }

  lemma {:induction false} OneLineStrip(s: string)
    requires OneLine(s)
    ensures OneLine(Strip(s))
  {
    var d := DropWhile(s, IsSpace);
    OneLineSlice(s, |s| - |d|, |s|);
    OneLineSlice(d, 0, |Strip(s)|);
  }

  lemma {:induction false} OneLineNumber(n: int)
    ensures OneLine(IntToString(n))
  {
    var s := NatToString(if n < 0 then -n else n);
    assert OneLine(s) by {
      forall i | 0 <= i < |s| ensures s[i] != '\n' { assert IsDigit(s[i]); }
    }
    if n < 0 {
      OneLineConcat("-", s);
    }
  }

  lemma {:induction false} OneLineAnsi(c: Rgb)
    ensures OneLine(Ansi(c))
  {
    OneLineNumber(c.r);
    OneLineNumber(c.g);
    OneLineNumber(c.b);
    var a, b, d, e := Esc + "[38;2;", IntToString(c.r), ";", IntToString(c.g);
    OneLineConcat(a, b);
    OneLineConcat(a + b, d);
    OneLineConcat(a + b + d, e);
    OneLineConcat(a + b + d + e, d);
    OneLineConcat(a + b + d + e + d, IntToString(c.b));
    OneLineConcat(a + b + d + e + d + IntToString(c.b), "m");
  }

  lemma {:induction false} OneLineCodes()
    ensures OneLine(ResetColor) && OneLine(Bold) && OneLine(Dim)
    ensures OneLine("┌─ ") && OneLine(" ") && OneLine("└─────") && OneLine("code")
  {
  }

  lemma {:induction false} OneLineRepeat(c: char, n: nat)
    requires c != '\n'
    ensures OneLine(Repeat(c, n))
  {
  }

  /** For a one-line `line` and an `inline` that keeps lines whole, the rendered line is one line. */
  lemma {:induction false} LineStepOneLine(m: Mode, line: string, inline: string -> string)
    requires OneLine(line) && OneLine(inline(line))
    ensures OneLine(LineStep(m, line, inline).0)
  {
    OneLineCodes();
    OneLineAnsi(Brown);
    OneLineAnsi(Coral);
    OneLineAnsi(Cyan);
    var s := Strip(line);
    if StartsWith(s, Fence) {
      if !m.inCodeBlock {
        OneLineStrip(line);
        OneLineSlice(s, 3, |s|);
        OneLineStrip(s[3..]);
        var lang := CodeLang(s);
        var tag := if lang.Some? then lang.value else "code";
        OneLineConcat(Dim, Ansi(Brown));
        OneLineConcat(Dim + Ansi(Brown), "┌─ ");
        OneLineConcat(Dim + Ansi(Brown) + "┌─ ", tag);
        OneLineConcat(Dim + Ansi(Brown) + "┌─ " + tag, " ");
        OneLineConcat(Dim + Ansi(Brown) + "┌─ " + tag + " ", ResetColor);
      } else {
        OneLineConcat(Dim, Ansi(Brown));
        OneLineConcat(Dim + Ansi(Brown), "└─────");
        OneLineConcat(Dim + Ansi(Brown) + "└─────", ResetColor);
      }
    } else if m.inCodeBlock {
      OneLineConcat(Ansi(Coral), line);
      OneLineConcat(Ansi(Coral) + line, ResetColor);
    } else if Header(line).Some? {
      var (level, text) := Header(line).value;
      HeaderGroups(line);
      OneLineSlice(line, |line| - |text|, |line|);
      OneLineRepeat('#', level);
      OneLineConcat(Bold, Ansi(Cyan));
      OneLineConcat(Bold + Ansi(Cyan), Repeat('#', level));
      OneLineConcat(Bold + Ansi(Cyan) + Repeat('#', level), " ");
      OneLineConcat(Bold + Ansi(Cyan) + Repeat('#', level) + " ", text);
      OneLineConcat(Bold + Ansi(Cyan) + Repeat('#', level) + " " + text, ResetColor);
    }
  }

  /** Every rendered line of one-line input lines is one line. */
  lemma {:induction false} RenderLinesOneLine(m: Mode, lines: seq<string>, inline: string -> string)
    requires forall k | 0 <= k < |lines| :: OneLine(lines[k]) && OneLine(inline(lines[k]))
    ensures forall k | 0 <= k < |lines| :: OneLine(RenderLines(m, lines, inline).0[k])
  {
    forall k | 0 <= k < |lines| ensures OneLine(RenderLines(m, lines, inline).0[k]) {
      RenderLinesAt(m, lines, inline, k);
      LineStepOneLine(RenderLines(m, lines[..k], inline).1, lines[k], inline);
    }
  }

  /**
   * When `inline` keeps a line one line, the output has exactly one line per
   * input line, and its `k`-th line is the `k`-th input line rendered.
   */
  lemma {:induction false} RenderedLines(text: string, inline: string -> string)
    requires forall s | OneLine(s) :: OneLine(inline(s))
    ensures Split(Rendered(text, inline), "\n") == RenderLines(Initial, Split(text, "\n"), inline).0
    ensures |Split(Rendered(text, inline), "\n")| == |Split(text, "\n")|
  {
    var lines := Split(text, "\n");
    SplitPiecesFree(text, "\n");
    RenderLinesOneLine(Initial, lines, inline);
    SplitJoin(RenderLines(Initial, lines, inline).0, "\n");
  }
}
