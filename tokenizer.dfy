/** The tokenizer of the retrieval engine (`RAGEngine._tokenize`, aifr/rag.py). */
module Tokenizer {
  import opened Text
  import opened Seqs
  import opened CharRuns

  /** The engine's English and Polish stop words. */
  const StopWords: set<string> := {
    "the", "is", "at", "which", "on", "and", "a", "an", "in", "to", "or", "for", "of",
    "i", "w", "na", "z", "do", "o", "że", "się", "jest", "za", "od", "po", "lub", "czy"
  }

  /** The characters of `[a-z0-9]`. */
  predicate IsTokenChar(c: char) { 'a' <= c <= 'z' || '0' <= c <= '9' }

  predicate IsTerm(t: string) { t !in StopWords }

  /**
   * `re.split(r'[^a-z0-9]+', text.lower())` with empty pieces and stop words
   * dropped: the maximal `[a-z0-9]` runs of the lower-cased text, in order,
   * duplicates kept.
   */
  function Tokenize(text: string): seq<string> {
    Filter(Runs(Lower(text), IsTokenChar), IsTerm)
  }

  /** No token is empty, holds a character outside `[a-z0-9]`, or is a stop word. */
  lemma {:induction false} TokenizeTokens(text: string)
    ensures forall k | 0 <= k < |Tokenize(text)| :: IsToken(Tokenize(text)[k])
  {
    var runs := Runs(Lower(text), IsTokenChar);
    RunsShape(Lower(text), IsTokenChar);
    assert forall j | 0 <= j < |runs| :: IsRun(runs[j]);
    var r := Filter(runs, IsTerm);
    FilterShape(runs, IsTerm);
    assert forall k | 0 <= k < |r| :: r[k] in runs && IsTerm(r[k]);
  }

  /** A token: a non-empty run of `[a-z0-9]` that is not a stop word. */
  predicate IsToken(t: string) {
    IsRun(t) && t !in StopWords
  }

  predicate IsRun(t: string) {
    |t| > 0 && forall i | 0 <= i < |t| :: IsTokenChar(t[i])
  }

  /**
   * A character that is not a token character once lower-cased splits the
   * text: the tokens of `a + [c] + b` are those of `a` followed by those of `b`.
   */
  lemma {:induction false} TokenizeCut(a: string, c: char, b: string)
    requires !IsTokenChar(LowerChar(c))
    ensures Tokenize(a + [c] + b) == Tokenize(a) + Tokenize(b)
  {
    assert Lower(a + [c] + b) == Lower(a) + [LowerChar(c)] + Lower(b);
    RunsCut(Lower(a), LowerChar(c), Lower(b), IsTokenChar);
    FilterAppend(Runs(Lower(a), IsTokenChar), Runs(Lower(b), IsTokenChar), IsTerm);
  }

  /** A word made of token characters (after lower-casing) is one token, or none if it is a stop word. */
  lemma {:induction false} TokenizeWord(w: string)
    requires |w| > 0 && forall i | 0 <= i < |w| :: IsTokenChar(LowerChar(w[i]))
    ensures Tokenize(w) == if Lower(w) in StopWords then [] else [Lower(w)]
  {
    RunsOfRun(Lower(w), IsTokenChar);
    assert [Lower(w)][..0] == [];
    assert Filter([Lower(w)][..0], IsTerm) == [];
  }

  /** Text without any token character yields no tokens. */
  lemma {:induction false} TokenizeNoTokenChars(s: string)
    requires forall i | 0 <= i < |s| :: !IsTokenChar(LowerChar(s[i]))
    ensures Tokenize(s) == []
    decreases |s|
  {
    if s != [] {
      TokenizeNoTokenChars(s[1..]);
      TokenizeCut([], s[0], s[1..]);
      assert [] + [s[0]] + s[1..] == s;
      assert Tokenize([]) == [];
    }
  }

  /** The tokens of one word between two separators, with the tokens of the rest after it. */
  lemma {:induction false} TokenizeWordThen(w: string, c: char, rest: string)
    requires |w| > 0 && forall i | 0 <= i < |w| :: IsTokenChar(LowerChar(w[i]))
    requires !IsTokenChar(LowerChar(c))
    ensures Tokenize(w + [c] + rest) == (if Lower(w) in StopWords then [] else [Lower(w)]) + Tokenize(rest)
  {
    TokenizeWord(w);
    TokenizeCut(w, c, rest);
  }

  /** ASCII letters lower-case to token characters. */
  lemma {:induction false} AsciiLetters(w: string)
    requires forall i | 0 <= i < |w| :: 'A' <= w[i] <= 'Z' || 'a' <= w[i] <= 'z'
    ensures forall i | 0 <= i < |w| :: IsTokenChar(LowerChar(w[i]))
  {
  }

  /** A word between two separators, then the rest of the text. */
  lemma {:induction false} SeparatedWordThen(c0: char, w: string, c: char, rest: string)
    requires !IsTokenChar(LowerChar(c0))
    requires |w| > 0 && forall i | 0 <= i < |w| :: IsTokenChar(LowerChar(w[i]))
    requires !IsTokenChar(LowerChar(c))
    ensures Tokenize([c0] + w + [c] + rest) == (if Lower(w) in StopWords then [] else [Lower(w)]) + Tokenize(rest)
  {
    TokenizeWordThen(w, c, rest);
    TokenizeCut([], c0, w + [c] + rest);
    assert [] + [c0] + (w + [c] + rest) == [c0] + w + [c] + rest;
    assert Tokenize([]) == [];
  }

  /** The words of the example below, and which of them are stop words. */
  lemma {:induction false} ExampleWords()
    ensures forall i | 0 <= i < 5 :: IsTokenChar(LowerChar("Hello"[i])) && IsTokenChar(LowerChar("World"[i]))
    ensures forall i | 0 <= i < 4 :: IsTokenChar(LowerChar("This"[i])) && IsTokenChar(LowerChar("Test"[i]))
    ensures forall i | 0 <= i < 2 :: IsTokenChar(LowerChar("is"[i]))
    ensures IsTokenChar(LowerChar("a"[0]))
    ensures Lower("Hello") == "hello" && Lower("World") == "world" && Lower("This") == "this"
    ensures Lower("is") == "is" && Lower("a") == "a" && Lower("Test") == "test"
  {
    AsciiLetters("Hello");
    AsciiLetters("World");
    AsciiLetters("This");
    AsciiLetters("is");
    AsciiLetters("a");
    AsciiLetters("Test");
  }

  lemma {:induction false} ExampleStopWords()
    ensures "hello" !in StopWords && "world" !in StopWords && "this" !in StopWords && "test" !in StopWords
    ensures "is" in StopWords && "a" in StopWords
  {
  }

  /** How the example text below splits into words and separators. */
  lemma {:induction false} ExampleText(text: string)
    requires text == "Hello, World! This is a Test."
    ensures text == "Hello" + [','] + ([' '] + "World" + ['!'] + ([' '] + "This" + [' '] + ("is" + [' '] + ("a" + [' '] + ("Test" + ['.'] + [])))))
  {
  }

  /** The example of the engine's tests: words are lower-cased, punctuation and stop words vanish. */
  lemma {:induction false} TokenizeExample(text: string)
    requires text == "Hello, World! This is a Test."
    ensures Tokenize(text) == ["hello", "world", "this", "test"]
  {
    ExampleText(text);
    ExampleWords();
    ExampleStopWords();
    var s5: string := "Test" + ['.'] + [];
    var s4 := "a" + [' '] + s5;
    var s3 := "is" + [' '] + s4;
    var s2 := [' '] + "This" + [' '] + s3;
    var s1 := [' '] + "World" + ['!'] + s2;
    assert Tokenize([]) == [];
    TokenizeWordThen("Test", '.', []);
    TokenizeWordThen("a", ' ', s5);
    TokenizeWordThen("is", ' ', s4);
    SeparatedWordThen(' ', "This", ' ', s3);
    SeparatedWordThen(' ', "World", '!', s2);
    TokenizeWordThen("Hello", ',', s1);
  }
}
