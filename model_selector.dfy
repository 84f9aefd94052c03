/**
 * The routing of a question to a model (aifr/model_selector.py): a model the
 * user names wins, a question about a file goes to Bielik 2.6, and otherwise
 * groups of whole words, tried in order, pick the model.
 */
module ModelSelector {
  import opened Wrappers
  import opened Text

  const Bielik26 := "Bielik-11B-v2.6-Instruct"
  const Bielik23 := "Bielik-11B-v2.3-Instruct"
  const GptOss := "openai/gpt-oss-120b"
  const Pllum := "CYFRAGOVPL/PLLuM-8x7B-chat"
  const Llama31 := "Llama-3.1-8B-Instruct"
  const Llama33 := "Llama-3.3-70B-Instruct"
  const DeepSeek := "DeepSeek-R1-Distill-Llama-70B"

  /** `AVAILABLE_MODELS`. */
  const AvailableModels: set<string> := {Bielik26, Bielik23, GptOss, Pllum, Llama31, Llama33, DeepSeek}

  /** The alternatives of the four keyword patterns, in the order `select_model` tries them. */
  const BielikWords: seq<string> := ["bielik", "opowiedz"]
  const CreativeWords: seq<string> := ["twórz", "zaplanuj", "narracja", "kreaty", "oss", "gpt", "creative"]
  const DialogWords: seq<string> := ["pllum", "rozmowa"]
  const AnalysisWords: seq<string> := ["analiza", "rozumowanie", "think", "deep"]

  /** A character `\w` matches: ASCII letters and digits, `_`, and the Polish letters. */
  predicate IsWordChar(c: char) {
    ('a' <= c <= 'z') || ('A' <= c <= 'Z') || ('0' <= c <= '9') || c == '_'
    || c in "ąćęłńóśźżĄĆĘŁŃÓŚŹŻ"
  }

  /** `\bw\b` matches at `i`, for a word `w` made of word characters. */
  predicate WordAt(s: string, w: string, i: int) {
    && OccursAt(s, w, i)
    && (i == 0 || !IsWordChar(s[i - 1]))
    && (i + |w| == |s| || !IsWordChar(s[i + |w|]))
  }

  /** `re.search(r"\b(w1|...|wn)\b", s)` finds a match. */
  predicate WholeWord(s: string, words: seq<string>) {
    exists k, i | 0 <= k < |words| && 0 <= i <= |s| :: WordAt(s, words[k], i)
  }

  /** A non-empty `provided` model, which Python's `if provided:` accepts. */
  predicate Given(provided: Option<string>) { provided.Some? && provided.value != "" }

  /** The model chosen from the words of the question alone. */
  function ByKeywords(normalized: string): (r: string)
    ensures r in AvailableModels
    ensures r == Llama31 <==>
      !WholeWord(normalized, BielikWords) && !WholeWord(normalized, CreativeWords)
      && !WholeWord(normalized, DialogWords) && !WholeWord(normalized, AnalysisWords)
  {
    if WholeWord(normalized, BielikWords) then Bielik26
    else if WholeWord(normalized, CreativeWords) then GptOss
    else if WholeWord(normalized, DialogWords) then Pllum
    else if WholeWord(normalized, AnalysisWords) then DeepSeek
    else Llama31
  }

  /**
   * `select_model`: the provided model unchanged when there is one; otherwise
   * always a model of `AVAILABLE_MODELS`, Bielik 2.6 for a question about a file.
   */
  function SelectModel(query: string, provided: Option<string>, hasFile: bool): (r: string)
    ensures Given(provided) ==> r == provided.value
    ensures !Given(provided) ==> r in AvailableModels
    ensures !Given(provided) && hasFile ==> r == Bielik26
  {
    if Given(provided) then provided.value
    else
      var normalized := Lower(query);
      if hasFile then Bielik26
      else ByKeywords(normalized)
  }

  /** Without a model or a file, the first group that matches decides, in the order Bielik, creative, dialog, analysis. */
  lemma {:induction false} KeywordPriority(query: string, provided: Option<string>)
    requires !Given(provided)
    ensures var s := Lower(query);
      var r := SelectModel(query, provided, false);
      && (WholeWord(s, BielikWords) ==> r == Bielik26)
      && (!WholeWord(s, BielikWords) && WholeWord(s, CreativeWords) ==> r == GptOss)
      && (!WholeWord(s, BielikWords) && !WholeWord(s, CreativeWords) && WholeWord(s, DialogWords) ==> r == Pllum)
      && ((!WholeWord(s, BielikWords) && !WholeWord(s, CreativeWords) && !WholeWord(s, DialogWords)
           && WholeWord(s, AnalysisWords)) ==> r == DeepSeek)
  {
  }

  /** `is_supported`. */
  predicate IsSupported(model: string) { model in AvailableModels }

  /** An automatically chosen model is always supported. */
  lemma {:induction false} SelectedSupported(query: string, provided: Option<string>, hasFile: bool)
    requires !Given(provided)
    ensures IsSupported(SelectModel(query, provided, hasFile))
  {
  }

  /** `get_large_context_model`. */
  function LargeContextModel(): (r: string)
    ensures IsSupported(r)
  {
    GptOss
  }

  // ---------------------------------------------------------------------------
  // `sorted(AVAILABLE_MODELS)`

  /** Python's `<` on strings: code points compared from the left, a proper prefix first. */
  predicate Less(a: string, b: string)
    decreases |a|
  {
    if a == [] then b != []
    else b != [] && (a[0] < b[0] || (a[0] == b[0] && Less(a[1..], b[1..])))
  }

  lemma {:induction false} LessAsymmetric(a: string, b: string)
    ensures !(Less(a, b) && Less(b, a))
    decreases |a|
  {
    if a != [] && b != [] && a[0] == b[0] {
      LessAsymmetric(a[1..], b[1..]);
    }
  }

  lemma {:induction false} LessTransitive(a: string, b: string, c: string)
    requires Less(a, b) && Less(b, c)
    ensures Less(a, c)
    decreases |a|
  {
    if a != [] && a[0] == b[0] && b[0] == c[0] {
      LessTransitive(a[1..], b[1..], c[1..]);
    }
  }

  predicate StrictlySorted(s: seq<string>) {
    forall i, j | 0 <= i < j < |s| :: Less(s[i], s[j])
  }

  function Elements(s: seq<string>): set<string> {
    set x | x in s
  }

  /** A list ordered pair by pair is ordered throughout. */
  lemma {:induction false} SortedByNeighbours(s: seq<string>)
    requires forall i | 0 <= i < |s| - 1 :: Less(s[i], s[i + 1])
    ensures StrictlySorted(s)
    decreases |s|
  {
    if |s| > 1 {
      var t := s[1..];
      assert forall i | 0 <= i < |t| :: t[i] == s[i + 1];
      SortedByNeighbours(t);
      forall i, j | 0 <= i < j < |s| ensures Less(s[i], s[j]) {
        if i > 0 {
          assert s[i] == t[i - 1] && s[j] == t[j - 1];
        } else if j > 1 {
          assert s[1] == t[0] && s[j] == t[j - 1];
          LessTransitive(s[0], s[1], s[j]);
        }
      }
    }
  }

  /** A set has one strictly increasing listing: what `sorted` returns for it. */
  lemma {:induction false} SortedUnique(a: seq<string>, b: seq<string>)
    requires StrictlySorted(a) && StrictlySorted(b) && Elements(a) == Elements(b)
    ensures a == b
    decreases |a|
  {
    NoElements(a);
    NoElements(b);
    if a != [] {
      assert a[0] in Elements(b);
      assert b != [] && b[0] in Elements(a);
      if a[0] != b[0] {
        var i :| 0 <= i < |a| && a[i] == b[0];
        var j :| 0 <= j < |b| && b[j] == a[0];
        LessAsymmetric(a[0], b[0]);
        assert false;
      }
      AfterHead(a);
      AfterHead(b);
      assert Elements(a[1..]) == Elements(a) - {a[0]};
      SortedUnique(a[1..], b[1..]);
    }
  }

  lemma {:induction false} NoElements(s: seq<string>)
    ensures Elements(s) == {} <==> s == []
  {
    if s != [] {
      assert s[0] in Elements(s);
    }
  }

  /** Dropping the head of a strictly sorted list leaves it sorted, without the head. */
  lemma {:induction false} AfterHead(s: seq<string>)
    requires StrictlySorted(s) && s != []
    ensures StrictlySorted(s[1..]) && Elements(s[1..]) == Elements(s) - {s[0]}
  {
    forall x | x in s[1..] ensures x != s[0] {
      var m :| 0 <= m < |s[1..]| && s[1..][m] == x;
      assert s[m + 1] == x;
      LessAsymmetric(s[0], x);
    }
    assert forall x | x in s :: x == s[0] || x in s[1..];
  }

  /** `get_all_models`: every available model once, in Python's string order. */
  function AllModels(): (r: seq<string>)
    ensures Elements(r) == AvailableModels
  {
    [Bielik23, Bielik26, Pllum, DeepSeek, Llama31, Llama33, GptOss]
  }

  /** The listing is strictly increasing. */
  lemma {:induction false} AllModelsSorted()
    ensures StrictlySorted(AllModels())
  {
    Neighbours(AllModels());
    SortedByNeighbours(AllModels());
  }

  lemma {:induction false} Neighbours(r: seq<string>)
    requires r == [Bielik23, Bielik26, Pllum, DeepSeek, Llama31, Llama33, GptOss]
    ensures forall i | 0 <= i < |r| - 1 :: Less(r[i], r[i + 1])
  {
    forall i | 0 <= i < |r| - 1 ensures Less(r[i], r[i + 1]) {
      if i == 0 {
        BielikOrder(r[0], r[1]);
      } else if i == 1 {
        FirstLetterOrder(r[1], r[2]);
      } else if i == 2 {
        FirstLetterOrder(r[2], r[3]);
      } else if i == 3 {
        FirstLetterOrder(r[3], r[4]);
      } else if i == 4 {
        LlamaOrder(r[4], r[5]);
      } else {
        FirstLetterOrder(r[5], r[6]);
      }
    }
  }

  lemma {:induction false} FirstLetterOrder(a: string, b: string)
    requires a != [] && b != [] && a[0] < b[0]
    ensures Less(a, b)
  {
  }

  lemma {:induction false} BielikOrder(a: string, b: string)
    requires a == Bielik23 && b == Bielik26
    ensures Less(a, b)
  {
    assert forall i | 0 <= i < 14 :: a[i] == b[i];
    LessAt(a, b, 14);
  }

  lemma {:induction false} LlamaOrder(a: string, b: string)
    requires a == Llama31 && b == Llama33
    ensures Less(a, b)
  {
    assert forall i | 0 <= i < 8 :: a[i] == b[i];
    LessAt(a, b, 8);
  }

  /** `sorted(AVAILABLE_MODELS)` is this listing: it is the only strictly increasing one of the set. */
  lemma {:induction false} AllModelsIsSorted(s: seq<string>)
    requires StrictlySorted(s) && Elements(s) == AvailableModels
    ensures s == AllModels()
  {
    AllModelsSorted();
    SortedUnique(s, AllModels());
  }

  /** Two strings that agree before `k` and differ at `k` in favour of `a`. */
  lemma {:induction false} LessAt(a: string, b: string, k: nat)
    requires k < |a| && k < |b| && a[k] < b[k]
    requires forall i | 0 <= i < k :: a[i] == b[i]
    ensures Less(a, b)
    decreases k
  {
    if k > 0 {
      assert forall i | 0 <= i < k - 1 :: a[1..][i] == a[i + 1] && b[1..][i] == b[i + 1];
      LessAt(a[1..], b[1..], k - 1);
    }
  }
}
