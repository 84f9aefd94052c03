/**
 * The legacy command syntax `aifr $ask: ... $file: ... $model: ...
 * $context_limit: ... $console: ...` (`parse_command`, aifr/command_parser.py).
 */
module CommandParser {
  import opened Wrappers
  import opened Text
  import opened Numbers

  /** The parsed command; `console` is `None` for no console, `""` for stdin, or a shell command. */
  datatype Command = Command(
    ask: string,
    file: Option<string>,
    model: Option<string>,
    contextLimit: Option<int>,
    console: Option<string>)

  /** The message of the `CommandError` for an empty command. */
  const NoCommand := "Brak polecenia"
  /** The message of the `CommandError` for a command without a question. */
  const NeedsAsk := "Polecenie wymaga $ask: <pytanie>"

  // ---------------------------------------------------------------------------
  // Input clean-up

  predicate IsDashOrSpace(c: char) { c == ' ' || c == '-' }

  /** `raw.strip()`, then a leading `aifr` dropped together with the spaces and dashes after it. */
  function Clean(raw: string): string {
    var text := Strip(raw);
    if StartsWith(text, "aifr") then DropWhile(text[4..], IsDashOrSpace) else text
  }

  // ---------------------------------------------------------------------------
  // `re.split(r"\$(ask|file|model|context_limit|cons(?:ole)?):", text, flags=re.IGNORECASE)`

  /** The alternatives of the marker group, in the order the regular expression tries them (`console` before `cons`). */
  const Keywords: seq<string> := ["ask", "file", "model", "context_limit", "console", "cons"]

  /** `kw` matches the start of `t`, ignoring ASCII case, and is followed by `:`. */
  predicate KeyAt(t: string, kw: string) {
    |t| > |kw| && t[|kw|] == ':' && forall i | 0 <= i < |kw| :: LowerChar(t[i]) == kw[i]
  }

  /** The length of the first alternative that matches at the start of `t`. */
  function MatchKey(t: string, kws: seq<string>): (r: Option<nat>)
    ensures r.Some? ==> r.value < |t|
    decreases |kws|
  {
    if kws == [] then None
    else if KeyAt(t, kws[0]) then Some(|kws[0]|)
    else MatchKey(t, kws[1..])
  }

  /** The first alternative that matches is the one captured; no alternative matches when none is found. */
  lemma {:induction false} MatchKeyMeaning(t: string, kws: seq<string>)
    ensures MatchKey(t, kws).Some? ==> exists k | 0 <= k < |kws| :: |kws[k]| == MatchKey(t, kws).value && KeyAt(t, kws[k])
    ensures MatchKey(t, kws).None? ==> forall k | 0 <= k < |kws| :: !KeyAt(t, kws[k])
    decreases |kws|
  {
    if kws != [] && !KeyAt(t, kws[0]) {
      MatchKeyMeaning(t, kws[1..]);
      if MatchKey(t, kws).Some? {
        var k :| 0 <= k < |kws[1..]| && |kws[1..][k]| == MatchKey(t, kws).value && KeyAt(t, kws[1..][k]);
        assert kws[k + 1] == kws[1..][k];
      } else {
        forall k | 0 <= k < |kws| ensures !KeyAt(t, kws[k]) {
          if k > 0 { assert kws[k] == kws[1..][k - 1]; }
        }
      }
    }
  }

  /** The length of the group a marker at the start of `s` captures: `$`, a keyword, `:`. */
  function MarkerLen(s: string): (r: Option<nat>)
    ensures r.Some? ==> r.value + 2 <= |s|
  {
    if |s| > 0 && s[0] == '$' then MatchKey(s[1..], Keywords) else None
  }

  /** A marker is a `$`, one of the keywords in any letter case, and a `:`. */
  lemma {:induction false} MarkerMeaning(s: string)
    ensures MarkerLen(s).Some? ==> s[0] == '$' && exists k | 0 <= k < |Keywords| ::
      |Keywords[k]| == MarkerLen(s).value && KeyAt(s[1..], Keywords[k])
    ensures MarkerLen(s).None? ==> !(|s| > 0 && s[0] == '$' && exists k | 0 <= k < |Keywords| :: KeyAt(s[1..], Keywords[k]))
  {
    if |s| > 0 && s[0] == '$' {
      MatchKeyMeaning(s[1..], Keywords);
    }
  }

  /**
   * `re.split` with one capturing group: the text before the first marker,
   * then for each marker the captured keyword and the text up to the next.
   */
  function SplitParts(s: string): (r: seq<string>)
    ensures |r| % 2 == 1
    decreases |s|
  {
    if s == [] then [""]
    else
      match MarkerLen(s)
      case Some(n) => ["", s[1..n + 1]] + SplitParts(s[n + 2..])
      case None =>
        var rest := SplitParts(s[1..]);
        [[s[0]] + rest[0]] + rest[1..]
  }

  /** Ignoring the case of letters does not change where markers are. */
  lemma {:induction false} MarkerCaseInsensitive(s: string, t: string)
    requires Lower(s) == Lower(t)
    ensures MarkerLen(s) == MarkerLen(t)
  {
    if |s| > 0 {
      LowerKeepsSymbol(s[0], t[0], '$');
      forall k | 0 <= k < |Keywords| ensures KeyAt(s[1..], Keywords[k]) <==> KeyAt(t[1..], Keywords[k]) {
        var kw := Keywords[k];
        if |s| > |kw| + 1 {
          assert LowerChar(s[1..][|kw|]) == LowerChar(t[1..][|kw|]);
          LowerKeepsSymbol(s[1..][|kw|], t[1..][|kw|], ':');
          assert forall i | 0 <= i < |kw| :: LowerChar(s[1..][i]) == LowerChar(t[1..][i]);
        }
      }
      MatchKeySame(s[1..], t[1..], Keywords);
    }
  }

  /** Lower-casing maps only `c` itself to a character that is neither a letter nor a Polish letter. */
  lemma {:induction false} LowerKeepsSymbol(a: char, b: char, c: char)
    requires LowerChar(a) == LowerChar(b) && (c == '$' || c == ':')
    ensures a == c <==> b == c
  {
  }

  lemma {:induction false} MatchKeySame(s: string, t: string, kws: seq<string>)
    requires forall k | 0 <= k < |kws| :: KeyAt(s, kws[k]) <==> KeyAt(t, kws[k])
    ensures MatchKey(s, kws) == MatchKey(t, kws)
    decreases |kws|
  {
    if kws != [] {
      assert forall k | 0 <= k < |kws[1..]| :: kws[1..][k] == kws[k + 1];
      MatchKeySame(s, t, kws[1..]);
    }
  }

  /** Text without a marker is not split. */
  lemma {:induction false} SplitPartsNoMarker(s: string)
    requires forall i | 0 <= i < |s| :: MarkerLen(s[i..]).None?
    ensures SplitParts(s) == [s]
    decreases |s|
  {
    if s != [] {
      assert MarkerLen(s[0..]).None? && s[0..] == s;
      forall i | 0 <= i < |s[1..]| ensures MarkerLen(s[1..][i..]).None? {
        assert s[1..][i..] == s[i + 1..];
      }
      SplitPartsNoMarker(s[1..]);
      assert [s[0]] + s[1..] == s;
    }
  }

  /** The text of a marker with the captured keyword `key`. */
  function Marker(key: string): string { "$" + key + ":" }

  /** The parts put back together: the first text, then each marker followed by the text after it. */
  function Unsplit(r: seq<string>): string
    requires |r| % 2 == 1
    decreases |r|
  {
    if |r| == 1 then r[0] else r[0] + Marker(r[1]) + Unsplit(r[2..])
  }

  /** No marker starts anywhere in `t`. */
  predicate MarkerFree(t: string) {
    forall i | 0 <= i <= |t| :: MarkerLen(t[i..]).None?
  }

  /**
   * What `re.split` returns for the marker pattern: the parts rebuild the
   * text, no text part holds a marker, and every key part is one of the
   * keywords in some letter case.
   */
  lemma {:induction false} SplitPartsRoundTrip(s: string)
    ensures Unsplit(SplitParts(s)) == s
    ensures forall i | 0 <= i < |SplitParts(s)| && i % 2 == 0 :: MarkerFree(SplitParts(s)[i])
    ensures forall i | 0 <= i < |SplitParts(s)| && i % 2 == 1 :: Lower(SplitParts(s)[i]) in Keywords
  {
    SplitPartsUnsplit(s);
    SplitPartsFree(s);
    SplitPartsKeys(s);
  }

  lemma {:induction false} SplitPartsUnsplit(s: string)
    ensures Unsplit(SplitParts(s)) == s
    decreases |s|
  {
    if s != [] {
      var m := MarkerLen(s);
      if m.Some? {
        var n := m.value;
        SplitPartsUnsplit(s[n + 2..]);
        SplitAtMarker(s, n);
        MarkerText(s, n);
        UnsplitAtMarker(s, n, SplitParts(s[n + 2..]));
      } else {
        SplitPartsUnsplit(s[1..]);
        SplitAtChar(s);
        UnsplitAtChar(s, SplitParts(s[1..]));
      }
    }
  }

  /** A marker followed by rebuildable parts rebuilds the whole text. */
  lemma {:induction false} UnsplitAtMarker(s: string, n: nat, rest: seq<string>)
    requires n + 2 <= |s| && Marker(s[1..n + 1]) == s[..n + 2]
    requires |rest| % 2 == 1 && Unsplit(rest) == s[n + 2..]
    ensures Unsplit(["", s[1..n + 1]] + rest) == s
  {
    UnsplitCons("", s[1..n + 1], rest);
    assert s == s[..n + 2] + s[n + 2..];
  }

  /** A character prepended to the first part of rebuildable parts rebuilds the whole text. */
  lemma {:induction false} UnsplitAtChar(s: string, rest: seq<string>)
    requires s != [] && |rest| % 2 == 1 && Unsplit(rest) == s[1..]
    ensures Unsplit([[s[0]] + rest[0]] + rest[1..]) == s
  {
    UnsplitExtend(s[0], rest);
    assert [s[0]] + s[1..] == s;
  }

  /** A marker at the start ends an empty text part and gives its keyword as the next part. */
  lemma {:induction false} SplitAtMarker(s: string, n: nat)
    requires s != [] && MarkerLen(s) == Some(n)
    ensures SplitParts(s) == ["", s[1..n + 1]] + SplitParts(s[n + 2..])
  {
  }

  /** The text of the marker at the start of `s`, and its keyword. */
  lemma {:induction false} MarkerText(s: string, n: nat)
    requires MarkerLen(s) == Some(n)
    ensures Marker(s[1..n + 1]) == s[..n + 2]
    ensures Lower(s[1..n + 1]) in Keywords
  {
    var t := s[1..];
    MatchKeyText(t, Keywords);
    assert t[..n] == s[1..n + 1] && t[n] == s[n + 1];
    assert s[..n + 2] == [s[0]] + s[1..n + 1] + [s[n + 1]];
  }

  /** The alternative `MatchKey` finds is the lower-cased text before the `:`. */
  lemma {:induction false} MatchKeyText(t: string, kws: seq<string>)
    requires MatchKey(t, kws).Some?
    ensures Lower(t[..MatchKey(t, kws).value]) in kws && t[MatchKey(t, kws).value] == ':'
    decreases |kws|
  {
    if KeyAt(t, kws[0]) {
      KeyAtText(t, kws[0]);
    } else {
      MatchKeyText(t, kws[1..]);
    }
  }

  /** A keyword matched at the start of `t` is the lower-cased text before the `:`. */
  lemma {:induction false} KeyAtText(t: string, kw: string)
    requires KeyAt(t, kw)
    ensures Lower(t[..|kw|]) == kw && t[|kw|] == ':'
  {
    var l := Lower(t[..|kw|]);
    assert forall i | 0 <= i < |kw| :: l[i] == kw[i];
  }

  lemma {:induction false} UnsplitCons(p: string, key: string, rest: seq<string>)
    requires |rest| % 2 == 1
    ensures Unsplit([p, key] + rest) == p + Marker(key) + Unsplit(rest)
  {
    assert ([p, key] + rest)[2..] == rest;
  }

  lemma {:induction false} UnsplitExtend(c: char, rest: seq<string>)
    requires |rest| % 2 == 1
    ensures Unsplit([[c] + rest[0]] + rest[1..]) == [c] + Unsplit(rest)
  {
    var r := [[c] + rest[0]] + rest[1..];
    if |rest| > 1 {
      assert r[2..] == rest[2..] && r[1] == rest[1];
    }
  }

  /** Every even-indexed part: a text part. */
  predicate TextPartsFree(r: seq<string>) {
    forall i | 0 <= i < |r| && i % 2 == 0 :: MarkerFree(r[i])
  }

  /** Every odd-indexed part: a key part. */
  predicate KeyPartsKnown(r: seq<string>) {
    forall i | 0 <= i < |r| && i % 2 == 1 :: Lower(r[i]) in Keywords
  }

  lemma {:induction false} SplitPartsFree(s: string)
    ensures TextPartsFree(SplitParts(s))
    decreases |s|
  {
    if s == [] {
      assert SplitParts(s) == [""];
      EmptyFree();
    } else {
      var m := MarkerLen(s);
      if m.Some? {
        var n := m.value;
        SplitPartsFree(s[n + 2..]);
        SplitAtMarker(s, n);
        TextsCons(s[1..n + 1], SplitParts(s[n + 2..]));
      } else {
        var rest := SplitParts(s[1..]);
        SplitPartsFree(s[1..]);
        SplitPartsUnsplit(s[1..]);
        SplitAtChar(s);
        UnsplitStarts(rest);
        assert MarkerFree(rest[0]);
        FreeCons(s, rest[0]);
        TextsExtend([s[0]] + rest[0], rest);
      }
    }
  }

  lemma {:induction false} SplitPartsKeys(s: string)
    ensures KeyPartsKnown(SplitParts(s))
    decreases |s|
  {
    if s != [] {
      var m := MarkerLen(s);
      if m.Some? {
        var n := m.value;
        SplitPartsKeys(s[n + 2..]);
        SplitAtMarker(s, n);
        MarkerText(s, n);
        KeysCons(s[1..n + 1], SplitParts(s[n + 2..]));
      } else {
        var rest := SplitParts(s[1..]);
        SplitPartsKeys(s[1..]);
        SplitAtChar(s);
        KeysExtend([s[0]] + rest[0], rest);
      }
    }
  }

  /** Where no marker starts, the first character joins the first text part. */
  lemma {:induction false} SplitAtChar(s: string)
    requires s != [] && MarkerLen(s).None?
    ensures SplitParts(s) == [[s[0]] + SplitParts(s[1..])[0]] + SplitParts(s[1..])[1..]
  {
  }

  lemma {:induction false} EmptyFree()
    ensures MarkerFree("")
  {
    assert ""[0..] == "";
  }

  lemma {:induction false} TextsCons(key: string, rest: seq<string>)
    requires TextPartsFree(rest)
    ensures TextPartsFree(["", key] + rest)
  {
    var r := ["", key] + rest;
    forall i | 0 <= i < |r| && i % 2 == 0 ensures MarkerFree(r[i]) {
      if i == 0 {
        EmptyFree();
      } else {
        assert r[i] == rest[i - 2] && (i - 2) % 2 == 0;
      }
    }
  }

  lemma {:induction false} TextsExtend(p: string, rest: seq<string>)
    requires rest != [] && TextPartsFree(rest) && MarkerFree(p)
    ensures TextPartsFree([p] + rest[1..])
  {
    var r := [p] + rest[1..];
    forall i | 0 <= i < |r| && i % 2 == 0 ensures MarkerFree(r[i]) {
      if i > 0 {
        assert r[i] == rest[i];
      }
    }
  }

  lemma {:induction false} KeysCons(key: string, rest: seq<string>)
    requires KeyPartsKnown(rest) && Lower(key) in Keywords
    ensures KeyPartsKnown(["", key] + rest)
  {
    var r := ["", key] + rest;
    forall i | 0 <= i < |r| && i % 2 == 1 ensures Lower(r[i]) in Keywords {
      if i > 1 {
        assert r[i] == rest[i - 2] && (i - 2) % 2 == 1;
      }
    }
  }

  lemma {:induction false} KeysExtend(p: string, rest: seq<string>)
    requires rest != [] && KeyPartsKnown(rest)
    ensures KeyPartsKnown([p] + rest[1..])
  {
    var r := [p] + rest[1..];
    forall i | 0 <= i < |r| && i % 2 == 1 ensures Lower(r[i]) in Keywords {
      assert r[i] == rest[i];
    }
  }

  /** A character where no marker starts, before marker-free text, gives marker-free text. */
  lemma {:induction false} FreeCons(s: string, p: string)
    requires s != [] && MarkerLen(s).None? && MarkerFree(p)
    requires |p| < |s| && s[1..][..|p|] == p
    ensures MarkerFree([s[0]] + p)
  {
    var t := [s[0]] + p;
    forall i | 0 <= i <= |t| ensures MarkerLen(t[i..]).None? {
      if i == 0 {
        assert s[..|t|] == t;
        MarkerPrefix(t, s);
      } else {
        assert t[i..] == p[i - 1..];
      }
    }
  }

  /** The rebuilt text starts with the first part. */
  lemma {:induction false} UnsplitStarts(r: seq<string>)
    requires |r| % 2 == 1
    ensures |r[0]| <= |Unsplit(r)| && Unsplit(r)[..|r[0]|] == r[0]
  {
    if |r| > 1 {
      assert Unsplit(r) == r[0] + (Marker(r[1]) + Unsplit(r[2..]));
    }
  }

  /** A marker at the start of a prefix of `s` is a marker at the start of `s`. */
  lemma {:induction false} MarkerPrefix(u: string, s: string)
    requires |u| <= |s| && s[..|u|] == u
    ensures MarkerLen(u).Some? ==> MarkerLen(s).Some?
  {
    if MarkerLen(u).Some? {
      MarkerMeaning(u);
      var k :| 0 <= k < |Keywords| && |Keywords[k]| == MarkerLen(u).value && KeyAt(u[1..], Keywords[k]);
      assert u[1..] == s[1..][..|u| - 1];
      assert KeyAt(s[1..], Keywords[k]);
      MarkerMeaning(s);
    }
  }

  // ---------------------------------------------------------------------------
  // The `parsed` dictionary

  /** The `parsed` dictionary: one optional value per key. */
  datatype Fields = Fields(
    ask: Option<string>,
    file: Option<string>,
    model: Option<string>,
    contextLimit: Option<int>,
    console: Option<string>)

  const NoFields := Fields(None, None, None, None, None)

  /** The entry of the dictionary one marker writes. */
  datatype Field = AskField | FileField | ModelField | LimitField | ConsoleField | NoField

  /** `parts[idx].lower()`, with `cons` and `console` both naming the console. */
  function FieldOf(key: string): Field {
    var k := Lower(key);
    if k == "ask" then AskField
    else if k == "file" then FileField
    else if k == "model" then ModelField
    else if k == "context_limit" then LimitField
    else if k == "cons" || k == "console" then ConsoleField
    else NoField
  }

  /** `_safe_int`: `int(value)`, or `None` where `int` raises `ValueError`. */
  function SafeInt(value: Option<string>): Option<int> {
    if value.None? then None else ParseInt(value.value)
  }

  /** A string entry that is set and non-empty: Python's truth value of `Optional[str]`. */
  predicate Truthy(v: Option<string>) { v.Some? && v.value != "" }

  /** One iteration of the loop: the entry the key names gets the stripped value. */
  function Apply(f: Fields, fld: Field, value: string): Fields {
    match fld
    case LimitField => f.(contextLimit := SafeInt(Some(value)))
    case ConsoleField => f.(console := Some(value))
    case AskField => f.(ask := if value != "" then Some(value) else None)
    case FileField => f.(file := if value != "" then Some(value) else None)
    case ModelField => f.(model := if value != "" then Some(value) else None)
    case NoField => f
  }

  /** `parts[idx + 1].strip() if idx + 1 < len(parts) else ""`. */
  function ValueAt(parts: seq<string>, idx: nat): string {
    if idx + 1 < |parts| then Strip(parts[idx + 1]) else ""
  }

  /** The key of iteration `j` of the loop, at `idx = 2 * j + 1`. */
  function KeyOf(parts: seq<string>, j: nat): string
    requires 2 * j + 1 < |parts|
  {
    parts[2 * j + 1]
  }

  /** The value of iteration `j` of the loop. */
  function ValueOf(parts: seq<string>, j: nat): string {
    ValueAt(parts, 2 * j + 1)
  }

  /** What one iteration of the loop does: the entry its key names, and the value it stores there. */
  datatype Write = Write(field: Field, value: string)

  /** The writes of the first `c` iterations of `for idx in range(1, len(parts), 2)`, in order. */
  function Writes(parts: seq<string>, c: nat): (r: seq<Write>)
    requires 2 * c <= |parts|
    ensures |r| == c
  {
    if c == 0 then []
    else Writes(parts, c - 1) + [Write(FieldOf(KeyOf(parts, c - 1)), ValueOf(parts, c - 1))]
  }

  /** Iteration `j` writes the value after the `j`-th marker to the entry that marker's keyword names. */
  lemma {:induction false} WritesAt(parts: seq<string>, c: nat, j: nat)
    requires 2 * c <= |parts| && j < c
    ensures Writes(parts, c)[j] == Write(FieldOf(KeyOf(parts, j)), ValueOf(parts, j))
    decreases c
  {
    if j < c - 1 {
      WritesAt(parts, c - 1, j);
    }
  }

  /** The dictionary after the writes, applied in order to an empty one. */
  function Fold(ws: seq<Write>): Fields
    decreases |ws|
  {
    if ws == [] then NoFields
    else
      var n := |ws| - 1;
      Apply(Fold(ws[..n]), ws[n].field, ws[n].value)
  }

  /** One more iteration of the loop applies one more write. */
  lemma {:induction false} FoldStep(parts: seq<string>, c: nat)
    requires 2 * c + 1 < |parts|
    ensures Fold(Writes(parts, c + 1)) == Apply(Fold(Writes(parts, c)), FieldOf(KeyOf(parts, c)), ValueAt(parts, 2 * c + 1))
  {
    FoldAppend(Writes(parts, c), Write(FieldOf(KeyOf(parts, c)), ValueOf(parts, c)));
  }

  /** One more write applied last. */
  lemma {:induction false} FoldAppend(ws: seq<Write>, w: Write)
    ensures Fold(ws + [w]) == Apply(Fold(ws), w.field, w.value)
  {
    assert (ws + [w])[..|ws|] == ws;
  }

  /** The dictionary `parse_command` ends with: the question alone, or the loop's entries with the prefix rule. */
  function Collected(parts: seq<string>): Fields
    requires |parts| >= 1
  {
    if |parts| == 1 then NoFields.(ask := Some(Strip(parts[0])))
    else
      var looped := Fold(Writes(parts, |parts| / 2));
      var prefix := Strip(parts[0]);
      if prefix != "" && !Truthy(looped.ask) then looped.(ask := Some(prefix)) else looped
  }

  /** The `Command` built from the dictionary, or the error for a missing question. */
  function Build(parsed: Fields): (r: Result<Command, string>)
    ensures r.Ok? ==> r.value.ask != ""
    ensures r.Err? <==> !Truthy(parsed.ask)
  {
    if !Truthy(parsed.ask) then Err(NeedsAsk)
    else Ok(Command(
      parsed.ask.value,
      if Truthy(parsed.file) then parsed.file else None,
      if Truthy(parsed.model) then parsed.model else None,
      parsed.contextLimit,
      parsed.console))
  }

  /** What `parse_command` returns, or the message of the `CommandError` it raises. */
  function Parse(raw: string): (r: Result<Command, string>)
    ensures Clean(raw) == [] ==> r == Err(NoCommand)
    ensures r.Ok? ==> r.value.ask != ""
  {
    var text := Clean(raw);
    if text == [] then Err(NoCommand) else Build(Collected(SplitParts(text)))
  }

  /** `parse_command`. */
  method ParseCommand(raw: string) returns (r: Result<Command, string>)
    ensures r == Parse(raw)
  {
    var text := Strip(raw);
    if StartsWith(text, "aifr") {
      text := DropWhile(text[4..], IsDashOrSpace);
    }
    if text == [] {
      return Err(NoCommand);
    }
    var parts := SplitParts(text);
    var parsed := NoFields;
    if |parts| == 1 {
      parsed := parsed.(ask := Some(Strip(parts[0])));
    } else {
      var prefix := Strip(parts[0]);
      parsed := ParseMarkers(parts);
      if prefix != "" && !Truthy(parsed.ask) {
        parsed := parsed.(ask := Some(prefix));
      }
    }
    if !Truthy(parsed.ask) {
      return Err(NeedsAsk);
    }
    r := Ok(Command(
      parsed.ask.value,
      if Truthy(parsed.file) then parsed.file else None,
      if Truthy(parsed.model) then parsed.model else None,
      parsed.contextLimit,
      parsed.console));
  }

  /** The loop `for idx in range(1, len(parts), 2)` of `parse_command`. */
  method ParseMarkers(parts: seq<string>) returns (parsed: Fields)
    ensures parsed == Fold(Writes(parts, |parts| / 2))
  {
    parsed := NoFields;
    var idx := 1;
    ghost var c := 0;
    while idx < |parts|
      invariant idx == 2 * c + 1 && 2 * c <= |parts|
      invariant parsed == Fold(Writes(parts, c))
      decreases |parts| - idx
    {
      var value := ValueAt(parts, idx);
      assert parts[idx] == KeyOf(parts, c);
      FoldStep(parts, c);
      parsed := Store(parsed, parts[idx], value);
      idx, c := idx + 2, c + 1;
    }
    assert c == |parts| / 2;
  }

  /** The body of that loop: the entry the lower-cased key names gets the value. */
  method Store(parsed: Fields, rawKey: string, value: string) returns (r: Fields)
    ensures r == Apply(parsed, FieldOf(rawKey), value)
  {
    var key := Lower(rawKey);
    if key == "cons" || key == "console" {
      key := "console";
    }
    r := parsed;
    if key == "context_limit" {
      r := r.(contextLimit := SafeInt(Some(value)));
    } else if key == "console" {
      r := r.(console := Some(value));
    } else {
      var v := if value != "" then Some(value) else None;
      if key == "ask" {
        r := r.(ask := v);
      } else if key == "file" {
        r := r.(file := v);
      } else if key == "model" {
        r := r.(model := v);
      }
    }
  }

  // ---------------------------------------------------------------------------
  // Properties

  /** Text without any marker is all question, and every other field is unset. */
  lemma {:induction false} ParseWithoutMarkers(raw: string)
    requires Clean(raw) != []
    requires forall i | 0 <= i < |Clean(raw)| :: MarkerLen(Clean(raw)[i..]).None?
    ensures Parse(raw) == if Strip(Clean(raw)) == "" then Err(NeedsAsk) else Ok(Command(Strip(Clean(raw)), None, None, None, None))
  {
    SplitPartsNoMarker(Clean(raw));
  }

  /** The value one marker stores in its entry, whatever the dictionary held before. */
  datatype Entry = Text(s: Option<string>) | Number(n: Option<int>) | Nothing

  function Get(f: Fields, fld: Field): Entry {
    match fld
    case AskField => Text(f.ask)
    case FileField => Text(f.file)
    case ModelField => Text(f.model)
    case LimitField => Number(f.contextLimit)
    case ConsoleField => Text(f.console)
    case NoField => Nothing
  }

  /** A marker writes only the entry it names. */
  lemma {:induction false} ApplyFrame(f: Fields, w: Field, value: string, fld: Field)
    requires fld != w
    ensures Get(Apply(f, w, value), fld) == Get(f, fld)
  {
  }

  /**
   * What a marker stores depends on its value alone: an empty console value
   * stays `""` (stdin), an empty `ask`, `file` or `model` value becomes `None`,
   * and `context_limit` holds an integer exactly when `int()` accepts the value.
   */
  lemma {:induction false} ApplyStores(f: Fields, w: Field, value: string)
    ensures w == ConsoleField ==> Apply(f, w, value).console == Some(value)
    ensures w == AskField || w == FileField || w == ModelField ==>
      Get(Apply(f, w, value), w) == Text(if value == "" then None else Some(value))
    ensures w == LimitField ==> Apply(f, w, value).contextLimit == ParseInt(value)
  {
  }

  /** `$cons:` and `$console:` are the same marker, in any case. */
  lemma {:induction false} ConsoleAliases(key: string)
    requires Lower(key) == "cons" || Lower(key) == "console"
    ensures FieldOf(key) == ConsoleField
  {
  }

  /** Markers are recognised in any letter case. */
  lemma {:induction false} MarkerUpperCase(rest: string)
    ensures MarkerLen("$ASK:" + rest) == Some(3)
  {
    var t := ("$ASK:" + rest)[1..];
    assert t[0] == 'A' && t[1] == 'S' && t[2] == 'K' && t[3] == ':';
    assert KeyAt(t, Keywords[0]);
  }

  /** `$cons:` is a marker: `console` fails at its fifth character and `cons` matches. */
  lemma {:induction false} MarkerCons(rest: string)
    ensures MarkerLen("$cons:" + rest) == Some(4)
  {
    var t := ("$cons:" + rest)[1..];
    assert t[0] == 'c' && t[1] == 'o' && t[2] == 'n' && t[3] == 's' && t[4] == ':';
    assert !KeyAt(t, Keywords[0]) && !KeyAt(t, Keywords[1]) && !KeyAt(t, Keywords[2]);
    assert !KeyAt(t, Keywords[3]) && !KeyAt(t, Keywords[4]);
    assert KeyAt(t, Keywords[5]);
  }

  /** `$Console:` is a marker: the longer alternative is tried first. */
  lemma {:induction false} MarkerConsole(rest: string)
    ensures MarkerLen("$Console:" + rest) == Some(7)
  {
    var t := ("$Console:" + rest)[1..];
    assert t[0] == 'C' && t[1] == 'o' && t[2] == 'n' && t[3] == 's' && t[7] == ':';
    assert t[4] == 'o' && t[5] == 'l' && t[6] == 'e';
    assert !KeyAt(t, Keywords[0]) && !KeyAt(t, Keywords[1]) && !KeyAt(t, Keywords[2]);
    assert !KeyAt(t, Keywords[3]);
    assert KeyAt(t, Keywords[4]);
  }

  /** The position of the last write to entry `fld`, if any. */
  function LastWrite(ws: seq<Write>, fld: Field): (r: Option<nat>)
    ensures r.Some? ==>
      && r.value < |ws| && ws[r.value].field == fld
      && forall j | r.value < j < |ws| :: ws[j].field != fld
    ensures r.None? ==> forall j | 0 <= j < |ws| :: ws[j].field != fld
    decreases |ws|
  {
    if ws == [] then None
    else if ws[|ws| - 1].field == fld then Some(|ws| - 1)
    else LastWrite(ws[..|ws| - 1], fld)
  }

  /**
   * The last marker for an entry decides it: after the loop, an entry holds what
   * the last write to it stored, and is unset when nothing wrote it.
   */
  lemma {:induction false} FoldLastWins(ws: seq<Write>, fld: Field)
    ensures match LastWrite(ws, fld)
      case None => Get(Fold(ws), fld) == Get(NoFields, fld)
      case Some(j) => Get(Fold(ws), fld) == Get(Apply(NoFields, fld, ws[j].value), fld)
    decreases |ws|
  {
    if ws != [] {
      var n := |ws| - 1;
      if ws[n].field != fld {
        FoldLastWins(ws[..n], fld);
        ApplyFrame(Fold(ws[..n]), ws[n].field, ws[n].value, fld);
      } else {
        ApplyOverwrites(Fold(ws[..n]), NoFields, ws[n].field, ws[n].value);
      }
    }
  }

  /** What a marker stores in its own entry does not depend on what was there. */
  lemma {:induction false} ApplyOverwrites(f: Fields, g: Fields, w: Field, value: string)
    ensures Get(Apply(f, w, value), w) == Get(Apply(g, w, value), w)
  {
  }

  /**
   * The text before the first marker is the question only when no non-empty
   * `$ask:` value was given; a command that still has no question is refused.
   */
  lemma {:induction false} PrefixRule(parts: seq<string>)
    requires |parts| > 1
    ensures var looped := Fold(Writes(parts, |parts| / 2));
      var prefix := Strip(parts[0]);
      var r := Build(Collected(parts));
      && (Truthy(looped.ask) ==> r.Ok? && r.value.ask == looped.ask.value)
      && (!Truthy(looped.ask) && prefix != "" ==> r.Ok? && r.value.ask == prefix)
      && (!Truthy(looped.ask) && prefix == "" ==> r == Err(NeedsAsk))
  {
  }

  /** The example of the smoke test. */
  lemma {:induction false} ParseExample(raw: string)
    requires raw == "$ask: Test question"
    ensures Parse(raw) == Ok(Command("Test question", None, None, None, None))
  {
    CleanExample(raw);
    SplitExample(raw);
    CollectedExample(SplitParts(raw));
  }

  lemma {:induction false} CollectedExample(parts: seq<string>)
    requires |parts| == 3 && parts[0] == "" && parts[1] == "ask" && parts[2] == " Test question"
    ensures Collected(parts) == NoFields.(ask := Some("Test question"))
  {
    WritesExample(parts);
    var q := parts[2][1..];
    assert q == "Test question" by {
      assert forall i | 0 <= i < 13 :: q[i] == parts[2][i + 1];
    }
    FoldAppend([], Write(AskField, q));
    assert [] + [Write(AskField, q)] == Writes(parts, 1);
    assert Strip(parts[0]) == "";
  }

  lemma {:induction false} CleanExample(raw: string)
    requires raw == "$ask: Test question"
    ensures Clean(raw) == raw
  {
    assert !StartsWith(raw, "aifr") by {
      assert raw[..4][0] == '$';
    }
    assert raw[0] == '$' && raw[18] == 'n';
    StripTrimmed(raw);
  }

  lemma {:induction false} SplitExample(raw: string)
    requires raw == "$ask: Test question"
    ensures SplitParts(raw) == ["", "ask", " Test question"]
  {
    assert raw[1..4] == "ask" by {
      assert raw[1..4][0] == 'a' && raw[1..4][1] == 's' && raw[1..4][2] == 'k';
    }
    assert raw[5..] == " Test question" by {
      assert forall i | 0 <= i < 14 :: raw[5..][i] == raw[i + 5];
    }
    MarkerExample(raw);
    RestExample(raw[5..]);
  }

  lemma {:induction false} RestExample(rest: string)
    requires rest == " Test question"
    ensures SplitParts(rest) == [rest]
  {
    NoMarkerIn(rest);
    SplitPartsNoMarker(rest);
  }

  lemma {:induction false} WritesExample(parts: seq<string>)
    requires |parts| == 3 && parts[0] == "" && parts[1] == "ask" && parts[2] == " Test question"
    ensures Writes(parts, 1) == [Write(AskField, parts[2][1..])]
  {
    var q := parts[2][1..];
    assert q[0] == 'T' && q[12] == 'n';
    assert [' '] + q == parts[2];
    StripLeadingSpace(' ', q);
    assert Lower(parts[1]) == "ask";
  }

  lemma {:induction false} MarkerExample(raw: string)
    requires raw == "$ask: Test question"
    ensures MarkerLen(raw) == Some(3)
  {
    var t := raw[1..];
    assert t[0] == 'a' && t[1] == 's' && t[2] == 'k' && t[3] == ':';
    assert KeyAt(t, Keywords[0]);
  }

  lemma {:induction false} NoMarkerIn(s: string)
    requires forall i | 0 <= i < |s| :: s[i] != '$'
    ensures forall i | 0 <= i < |s| :: MarkerLen(s[i..]).None?
  {
    forall i | 0 <= i < |s| ensures MarkerLen(s[i..]).None? {
      assert s[i..][0] == s[i];
    }
  }
}
