/**
 * The conversation history of the chat client (`ContextManager`,
 * aifr/context.py): a sliding window over the last turns and pruning of the
 * oldest turns while the history is longer, in words, than a token budget.
 */
module Context {
  import opened CharRuns
  import opened Seqs

  /** Turns kept by default; a turn is one user and one assistant message. */
  const DefaultMaxTurns := 5

  /** One message of the history, and one entry of the payload sent to the model. */
  datatype Message = Message(role: string, content: string)

  /** `len(content.split())`: the word count the manager uses as a token estimate. */
  function WordCount(m: Message): nat {
    |Words(m.content)|
  }

  /** `_token_count`: the words of all messages. */
  function TokenCount(msgs: seq<Message>): nat
    decreases |msgs|
  {
    if msgs == [] then 0 else WordCount(msgs[0]) + TokenCount(msgs[1..])
  }

  /** The word counts of two histories add up. */
  lemma {:induction false} TokenCountAppend(a: seq<Message>, b: seq<Message>)
    ensures TokenCount(a + b) == TokenCount(a) + TokenCount(b)
    decreases |a|
  {
    if a == [] {
      assert a + b == b;
    } else {
      assert (a + b)[1..] == a[1..] + b;
      TokenCountAppend(a[1..], b);
    }
  }

  /** Dropping the oldest messages never adds words. */
  lemma {:induction false} TokenCountSuffix(msgs: seq<Message>, k: nat)
    requires k <= |msgs|
    ensures TokenCount(msgs[k..]) <= TokenCount(msgs)
  {
    TokenCountAppend(msgs[..k], msgs[k..]);
    assert msgs[..k] + msgs[k..] == msgs;
  }

  // ---------------------------------------------------------------------------
  // The sliding window

  /** `_apply_sliding_window`: `messages[-2 * max_turns:]` when the history has more than `2 * max_turns` messages. */
  function Window(msgs: seq<Message>, maxTurns: int): seq<Message> {
    var maxMessages := maxTurns * 2;
    if |msgs| > maxMessages then PyDrop(msgs, -maxMessages) else msgs
  }

  /** With at least one turn allowed, the window is the last `min(len, 2 * max_turns)` messages, in order. */
  lemma {:induction false} WindowKeepsLatest(msgs: seq<Message>, maxTurns: int)
    requires maxTurns >= 1
    ensures var n := if |msgs| < 2 * maxTurns then |msgs| else 2 * maxTurns;
      Window(msgs, maxTurns) == msgs[|msgs| - n..]
  {
  }

  /** With no turns allowed, the slice `[-0:]` keeps the whole history. */
  lemma {:induction false} WindowZero(msgs: seq<Message>)
    ensures Window(msgs, 0) == msgs
  {
  }

  /** A negative turn count drops the `-2 * max_turns` oldest messages instead. */
  lemma {:induction false} WindowNegative(msgs: seq<Message>, maxTurns: int)
    requires maxTurns < 0
    ensures var n := if -2 * maxTurns < |msgs| then -2 * maxTurns else |msgs|;
      Window(msgs, maxTurns) == msgs[n..]
  {
  }

  /** The window keeps a suffix of the history, and applying it twice changes nothing more. */
  lemma {:induction false} WindowIdempotent(msgs: seq<Message>, maxTurns: int)
    requires maxTurns >= 0
    ensures Window(Window(msgs, maxTurns), maxTurns) == Window(msgs, maxTurns)
    ensures |Window(msgs, maxTurns)| <= |msgs| && Window(msgs, maxTurns) == msgs[|msgs| - |Window(msgs, maxTurns)|..]
  {
  }

  // ---------------------------------------------------------------------------
  // Pruning by tokens

  /** The pruning loop goes on while the history is over budget and more than two messages remain. */
  predicate OverBudget(msgs: seq<Message>, maxTokens: int) {
    TokenCount(msgs) > maxTokens && |msgs| > 2
  }

  /** `_prune_by_tokens`: the two oldest messages go, one turn at a time, while the history is over budget. */
  function Pruned(msgs: seq<Message>, maxTokens: int): seq<Message>
    decreases |msgs|
  {
    if OverBudget(msgs, maxTokens) then Pruned(msgs[2..], maxTokens) else msgs
  }

  /** The number of turns the pruning loop removes. */
  function PruneSteps(msgs: seq<Message>, maxTokens: int): nat
    decreases |msgs|
  {
    if OverBudget(msgs, maxTokens) then 1 + PruneSteps(msgs[2..], maxTokens) else 0
  }

  /**
   * Pruning removes the `2 * k` oldest messages for the first `k` at which the
   * history is no longer over budget: every shorter cut still was, and the
   * result is within budget or has at most two messages.
   */
  lemma {:induction false} PrunedMeaning(msgs: seq<Message>, maxTokens: int)
    ensures var k := PruneSteps(msgs, maxTokens);
      && 2 * k <= |msgs|
      && Pruned(msgs, maxTokens) == msgs[2 * k..]
      && !OverBudget(Pruned(msgs, maxTokens), maxTokens)
      && forall j | 0 <= j < k :: OverBudget(msgs[2 * j..], maxTokens)
    decreases |msgs|
  {
    if OverBudget(msgs, maxTokens) {
      var rest := msgs[2..];
      PrunedMeaning(rest, maxTokens);
      var k := PruneSteps(rest, maxTokens);
      assert rest[2 * k..] == msgs[2 * (k + 1)..];
      forall j | 0 <= j < k + 1 ensures OverBudget(msgs[2 * j..], maxTokens) {
        if j > 0 {
          assert msgs[2 * j..] == rest[2 * (j - 1)..];
        }
      }
    }
  }

  /** The result is within budget, or it is what no further pruning may shorten. */
  lemma {:induction false} PrunedWithinBudget(msgs: seq<Message>, maxTokens: int)
    ensures TokenCount(Pruned(msgs, maxTokens)) <= maxTokens || |Pruned(msgs, maxTokens)| <= 2
    decreases |msgs|
  {
    if OverBudget(msgs, maxTokens) {
      PrunedWithinBudget(msgs[2..], maxTokens);
    }
  }

  /** Pruning keeps an even-offset suffix, keeps a non-empty history non-empty and keeps two messages out of an even history of two or more. */
  lemma {:induction false} PrunedKeepsLatest(msgs: seq<Message>, maxTokens: int)
    ensures var r := Pruned(msgs, maxTokens);
      && |r| <= |msgs| && (|msgs| - |r|) % 2 == 0 && r == msgs[|msgs| - |r|..]
      && (msgs != [] ==> r != [])
      && (|msgs| >= 2 && |msgs| % 2 == 0 ==> |r| >= 2)
    decreases |msgs|
  {
    if OverBudget(msgs, maxTokens) {
      var rest := msgs[2..];
      PrunedKeepsLatest(rest, maxTokens);
      var r := Pruned(rest, maxTokens);
      assert rest[|rest| - |r|..] == msgs[|msgs| - |r|..];
    }
  }

  /** A history that is not over budget is left alone, so pruning twice is pruning once. */
  lemma {:induction false} PrunedIdempotent(msgs: seq<Message>, maxTokens: int)
    ensures Pruned(Pruned(msgs, maxTokens), maxTokens) == Pruned(msgs, maxTokens)
  {
    PrunedMeaning(msgs, maxTokens);
  }

  // ---------------------------------------------------------------------------
  // Both limits

  /** `enforce_limit`: the window, then the pruning. */
  function Limited(msgs: seq<Message>, maxTurns: int, maxTokens: int): seq<Message> {
    Pruned(Window(msgs, maxTurns), maxTokens)
  }

  /** Enforcing the limits a second time changes nothing. */
  lemma {:induction false} LimitedIdempotent(msgs: seq<Message>, maxTurns: int, maxTokens: int)
    requires maxTurns >= 0
    ensures Limited(Limited(msgs, maxTurns, maxTokens), maxTurns, maxTokens) == Limited(msgs, maxTurns, maxTokens)
  {
    var w := Window(msgs, maxTurns);
    var p := Pruned(w, maxTokens);
    PrunedKeepsLatest(w, maxTokens);
    WindowIdempotent(msgs, maxTurns);
    assert Window(p, maxTurns) == p;
    PrunedIdempotent(w, maxTokens);
  }

  /** The messages `add_turn` appends. */
  function Turn(userMessage: string, assistantMessage: string): seq<Message> {
    [Message("user", userMessage), Message("assistant", assistantMessage)]
  }

  /** The window over a history of whole turns ending in a turn keeps that turn and whole turns. */
  lemma {:induction false} WindowKeepsTurn(msgs: seq<Message>, turn: seq<Message>, maxTurns: int)
    requires maxTurns >= 0 && |msgs| % 2 == 0 && |turn| == 2
    ensures var w := Window(msgs + turn, maxTurns);
      |w| >= 2 && |w| % 2 == 0 && w[|w| - 2..] == turn
  {
    var all := msgs + turn;
    assert all[|all| - 2..] == turn;
    if maxTurns >= 1 {
      WindowKeepsLatest(all, maxTurns);
    }
  }

  /** The last two elements of a suffix with at least two elements are the last two of the whole. */
  lemma {:induction false} SuffixEnds<T>(s: seq<T>, r: seq<T>)
    requires |r| >= 2 && |r| <= |s| && r == s[|s| - |r|..]
    ensures r[|r| - 2..] == s[|s| - 2..]
  {
  }

  /**
   * After a turn is added to a history of whole turns, the history ends with
   * that turn, whatever the budget, as long as turns are not negative.
   */
  lemma {:induction false} AddTurnKeepsLatest(msgs: seq<Message>, u: string, a: string, maxTurns: int, maxTokens: int)
    requires maxTurns >= 0 && |msgs| % 2 == 0
    ensures var r := Limited(msgs + Turn(u, a), maxTurns, maxTokens);
      |r| >= 2 && r[|r| - 2..] == Turn(u, a)
  {
    var w := Window(msgs + Turn(u, a), maxTurns);
    WindowKeepsTurn(msgs, Turn(u, a), maxTurns);
    PrunedKeepsLatest(w, maxTokens);
    SuffixEnds(w, Pruned(w, maxTokens));
  }

  // ---------------------------------------------------------------------------
  // The manager

  /** `ContextManager`: the history and its two limits. */
  class ContextManager {
    var maxTokens: int
    var messages: seq<Message>
    var maxTurns: int

    /** `ContextManager(max_tokens, messages, max_turns)`. */
    constructor(maxTokens: int, messages: seq<Message>, maxTurns: int)
      ensures this.maxTokens == maxTokens && this.messages == messages && this.maxTurns == maxTurns
    {
      this.maxTokens := maxTokens;
      this.messages := messages;
      this.maxTurns := maxTurns;
    }

    /** `ContextManager(max_tokens)`: an empty history and the default of five turns. */
    constructor WithDefaults(maxTokens: int)
      ensures this.maxTokens == maxTokens && messages == [] && maxTurns == DefaultMaxTurns
    {
      this.maxTokens := maxTokens;
      messages := [];
      maxTurns := DefaultMaxTurns;
    }

    /** `_token_count`. */
    function CurrentTokens(): (r: nat)
      reads this
      ensures r == TokenCount(messages)
    {
      TokenCount(messages)
    }

    /** `build_messages`: the system prompt, then the history in order, then the new user message; the history is left as it is. */
    function BuildMessages(systemPrompt: string, userMessage: string): (r: seq<Message>)
      reads this
      ensures |r| == |messages| + 2
      ensures r[0] == Message("system", systemPrompt) && r[|r| - 1] == Message("user", userMessage)
      ensures r[1..|r| - 1] == messages
    {
      [Message("system", systemPrompt)] + messages + [Message("user", userMessage)]
    }

    /** `_apply_sliding_window`. */
    method ApplySlidingWindow()
      modifies this
      ensures messages == Window(old(messages), maxTurns)
      ensures maxTokens == old(maxTokens) && maxTurns == old(maxTurns)
    {
      var maxMessages := maxTurns * 2;
      if |messages| > maxMessages {
        messages := PyDrop(messages, -maxMessages);
      }
    }

    /** `_prune_by_tokens`: `pop(0)` twice while over budget. */
    method PruneByTokens()
      modifies this
      ensures messages == Pruned(old(messages), maxTokens)
      ensures maxTokens == old(maxTokens) && maxTurns == old(maxTurns)
    {
      while CurrentTokens() > maxTokens && |messages| > 2
        invariant Pruned(messages, maxTokens) == Pruned(old(messages), maxTokens)
        invariant maxTokens == old(maxTokens) && maxTurns == old(maxTurns)
        decreases |messages|
      {
        messages := messages[1..];
        messages := messages[1..];
      }
    }

    /** `enforce_limit`. */
    method EnforceLimit()
      modifies this
      ensures messages == Limited(old(messages), maxTurns, maxTokens)
      ensures maxTokens == old(maxTokens) && maxTurns == old(maxTurns)
    {
      ApplySlidingWindow();
      PruneByTokens();
    }

    /** `add_turn`: append the user and the assistant message, then enforce both limits. */
    method AddTurn(userMessage: string, assistantMessage: string)
      modifies this
      ensures messages == Limited(old(messages) + Turn(userMessage, assistantMessage), maxTurns, maxTokens)
      ensures maxTokens == old(maxTokens) && maxTurns == old(maxTurns)
    {
      messages := messages + [Message("user", userMessage)];
      messages := messages + [Message("assistant", assistantMessage)];
      assert messages == old(messages) + Turn(userMessage, assistantMessage);
      ApplySlidingWindow();
      PruneByTokens();
    }

    /** `clear`: the history is emptied, the limits stay. */
    method Clear()
      modifies this
      ensures messages == []
      ensures maxTokens == old(maxTokens) && maxTurns == old(maxTurns)
    {
      messages := [];
    }
  }
}
