/**
 * The persisted conversation (aifr/session_store.py): pruning to the last ten
 * messages before saving, and the decisions `load_session` takes on the
 * decoded file: expiry after two hours and the filter over stored entries.
 */
module SessionStore {
  import opened Wrappers
  import Context

  type Message = Context.Message

  /** `DEFAULT_CONTEXT_LIMIT` (aifr/config.py). */
  const DefaultContextLimit := 6000
  /** `SESSION_TTL_SECONDS`: two hours. */
  const SessionTtlSeconds := 2 * 60 * 60
  /** `MAX_HISTORY_TURNS`: five exchanges, ten messages. */
  const MaxHistoryTurns := 5

  // ---------------------------------------------------------------------------
  // `prune_messages`

  /** `prune_messages`: the list itself when it is short enough, else its last ten messages. */
  function PruneMessages<T>(messages: seq<T>): (r: seq<T>)
    ensures |r| == if |messages| <= MaxHistoryTurns * 2 then |messages| else MaxHistoryTurns * 2
    ensures r == messages[|messages| - |r|..]
  {
    if |messages| <= MaxHistoryTurns * 2 then messages
    else messages[|messages| - MaxHistoryTurns * 2..]
  }

  /** Pruning twice is pruning once. */
  lemma {:induction false} PruneIdempotent<T>(messages: seq<T>)
    ensures PruneMessages(PruneMessages(messages)) == PruneMessages(messages)
  {
  }

  // ---------------------------------------------------------------------------
  // The decoded session file

  /** A value `json.loads` can return. */
  datatype Json =
    | JNull
    | JBool(b: bool)
    | JInt(i: int)
    | JFloat(f: real)
    | JStr(s: string)
    | JArray(items: seq<Json>)
    | JObject(fields: map<string, Json>)

  /** Python's `dict.get(key, default)`. */
  function Get(fields: map<string, Json>, key: string, default: Json): Json {
    if key in fields then fields[key] else default
  }

  /** `isinstance(v, (int, float))`, with `bool` counting as `int` as in Python; the number. */
  function AsNumber(v: Json): Option<real> {
    match v
    case JInt(i) => Some(i as real)
    case JFloat(f) => Some(f)
    case JBool(b) => Some(if b then 1.0 else 0.0)
    case _ => None
  }

  /** Python's truth value. */
  predicate Truthy(v: Json) {
    match v
    case JNull => false
    case JBool(b) => b
    case JInt(i) => i != 0
    case JFloat(f) => f != 0.0
    case JStr(s) => s != ""
    case JArray(items) => items != []
    case JObject(fields) => fields != map[]
  }

  /** The stored session is too old, or its timestamp is not a number. */
  predicate Expired(fields: map<string, Json>, now: real) {
    var ts := AsNumber(Get(fields, "timestamp", JNull));
    ts.None? || now - ts.value > SessionTtlSeconds as real
  }

  /** An entry with a string `role` and a string `content` becomes a message; others are skipped. */
  function Entry(item: map<string, Json>): Option<Message> {
    var role := Get(item, "role", JNull);
    var content := Get(item, "content", JNull);
    if role.JStr? && content.JStr? then Some(Context.Message(role.s, content.s)) else None
  }

  /** The messages of the entries, in order, skipping the invalid ones. */
  function Kept(items: seq<Json>): seq<Message>
    requires forall i | 0 <= i < |items| :: items[i].JObject?
    decreases |items|
  {
    if items == [] then []
    else
      var n := |items| - 1;
      var e := Entry(items[n].fields);
      Kept(items[..n]) + (if e.Some? then [e.value] else [])
  }

  predicate AllObjects(items: seq<Json>) {
    forall i | 0 <= i < |items| :: items[i].JObject?
  }

  /**
   * The filtering loop of `load_session`: `item.get` fails on an item that is
   * not a dictionary, which ends the call with an exception (`None` here).
   */
  method FilterEntries(items: seq<Json>) returns (r: Option<seq<Message>>)
    ensures r.Some? <==> AllObjects(items)
    ensures r.Some? ==> r.value == Kept(items)
  {
    var messages: seq<Message> := [];
    var i := 0;
    while i < |items|
      invariant 0 <= i <= |items|
      invariant AllObjects(items[..i])
      invariant messages == Kept(items[..i])
    {
      if !items[i].JObject? {
        return None;
      }
      KeptExtend(items, i);
      var e := Entry(items[i].fields);
      if e.Some? {
        messages := messages + [e.value];
      }
      i := i + 1;
    }
    assert items[..i] == items;
    return Some(messages);
  }

  lemma {:induction false} KeptExtend(items: seq<Json>, i: nat)
    requires i < |items| && AllObjects(items[..i]) && items[i].JObject?
    ensures AllObjects(items[..i + 1])
    ensures var e := Entry(items[i].fields);
      Kept(items[..i + 1]) == Kept(items[..i]) + (if e.Some? then [e.value] else [])
  {
    assert items[..i + 1][..i] == items[..i];
  }

  /** The messages come from the entries in order: appending an entry appends its message, if any. */
  lemma {:induction false} KeptAppend(items: seq<Json>, more: seq<Json>)
    requires AllObjects(items) && AllObjects(more)
    ensures AllObjects(items + more) && Kept(items + more) == Kept(items) + Kept(more)
    decreases |more|
  {
    if more == [] {
      assert items + more == items;
    } else {
      var n := |more| - 1;
      KeptAppend(items, more[..n]);
      assert (items + more)[..|items| + n] == items + more[..n];
    }
  }

  /** Every kept message is the message of an entry with a string role and a string content. */
  lemma {:induction false} KeptFromEntries(items: seq<Json>)
    requires AllObjects(items)
    ensures forall m | m in Kept(items) :: exists i | 0 <= i < |items| :: Entry(items[i].fields) == Some(m)
    decreases |items|
  {
    if items != [] {
      var n := |items| - 1;
      KeptFromEntries(items[..n]);
      forall m | m in Kept(items) ensures exists i | 0 <= i < |items| :: Entry(items[i].fields) == Some(m) {
        if m in Kept(items[..n]) {
          var i :| 0 <= i < n && Entry(items[..n][i].fields) == Some(m);
          assert items[..n][i] == items[i];
        } else {
          assert Entry(items[n].fields) == Some(m);
        }
      }
    }
  }

  /** `data.get("messages") or []`: a falsy value is no message; a list is iterated; anything else fails. */
  function RawMessages(v: Json): Option<seq<Json>> {
    if !Truthy(v) then Some([])
    else if v.JArray? then Some(v.items)
    else None
  }

  /** What `load_session` returns, or an exception it lets escape. */
  datatype Loaded = Session(maxTokens: Json, messages: seq<Message>) | Failure

  /** The empty default session. */
  function Fresh(): Loaded {
    Session(JInt(DefaultContextLimit), [])
  }

  /**
   * `load_session` after the file was read: `None` when it is missing or does
   * not decode; the decoded data and the current time otherwise.
   */
  function LoadOutcome(stored: Option<Json>, now: real): Loaded {
    match stored
    case None => Fresh()
    case Some(data) =>
      if !data.JObject? then Failure
      else if Expired(data.fields, now) then Fresh()
      else
        var maxTokens := Get(data.fields, "max_tokens", JInt(DefaultContextLimit));
        match RawMessages(Get(data.fields, "messages", JNull))
        case None => Failure
        case Some(items) => if AllObjects(items) then Session(maxTokens, Kept(items)) else Failure
  }

  /** `load_session`, with its loop. */
  method LoadSession(stored: Option<Json>, now: real) returns (r: Loaded)
    ensures r == LoadOutcome(stored, now)
  {
    if stored.None? {
      return Fresh();
    }
    var data := stored.value;
    if !data.JObject? {
      return Failure;
    }
    if Expired(data.fields, now) {
      return Fresh();
    }
    var maxTokens := Get(data.fields, "max_tokens", JInt(DefaultContextLimit));
    var raw := RawMessages(Get(data.fields, "messages", JNull));
    if raw.None? {
      return Failure;
    }
    var messages := FilterEntries(raw.value);
    if messages.None? {
      return Failure;
    }
    return Session(maxTokens, messages.value);
  }

  /** A session older than two hours, or without a numeric timestamp, loads as the empty default. */
  lemma {:induction false} ExpiredIsFresh(fields: map<string, Json>, now: real)
    requires Expired(fields, now)
    ensures LoadOutcome(Some(JObject(fields)), now) == Fresh()
  {
  }

  // ---------------------------------------------------------------------------
  // `save_session` and the round trip

  /** A message as `save_session` stores it. */
  function Encoded(m: Message): Json {
    JObject(map["role" := JStr(m.role), "content" := JStr(m.content)])
  }

  function EncodedAll(messages: seq<Message>): (r: seq<Json>)
    ensures |r| == |messages| && AllObjects(r)
    ensures forall i | 0 <= i < |messages| :: r[i] == Encoded(messages[i])
  {
    seq(|messages|, i requires 0 <= i < |messages| => Encoded(messages[i]))
  }

  /** The payload of `save_session` at time `now`. */
  function SavePayload(maxTokens: int, messages: seq<Message>, now: real): Json {
    JObject(map[
      "timestamp" := JFloat(now),
      "max_tokens" := JInt(maxTokens),
      "messages" := JArray(EncodedAll(PruneMessages(messages)))
    ])
  }

  lemma {:induction false} EntryEncoded(m: Message)
    ensures Entry(Encoded(m).fields) == Some(m)
  {
  }

  /** Every stored message is read back. */
  lemma {:induction false} KeptEncoded(messages: seq<Message>)
    ensures Kept(EncodedAll(messages)) == messages
    decreases |messages|
  {
    if messages != [] {
      var n := |messages| - 1;
      var enc := EncodedAll(messages);
      KeptEncoded(messages[..n]);
      assert enc[..n] == EncodedAll(messages[..n]);
      EntryEncoded(messages[n]);
    }
  }

  /**
   * Saving and loading again within two hours gives back the token budget and
   * the pruned history (with the file's JSON encoding taken as faithful).
   */
  lemma {:induction false} SaveThenLoad(maxTokens: int, messages: seq<Message>, saved: real, now: real)
    requires now - saved <= SessionTtlSeconds as real
    ensures LoadOutcome(Some(SavePayload(maxTokens, messages, saved)), now)
      == Session(JInt(maxTokens), PruneMessages(messages))
  {
    var pruned := PruneMessages(messages);
    KeptEncoded(pruned);
    PayloadFields(maxTokens, messages, saved);
  }

  /** The three keys of the payload are different, so each one reads back its own value. */
  lemma {:induction false} PayloadFields(maxTokens: int, messages: seq<Message>, saved: real)
    ensures var fields := SavePayload(maxTokens, messages, saved).fields;
      && Get(fields, "timestamp", JNull) == JFloat(saved)
      && Get(fields, "max_tokens", JInt(DefaultContextLimit)) == JInt(maxTokens)
      && Get(fields, "messages", JNull) == JArray(EncodedAll(PruneMessages(messages)))
  {
    var t, m, s := "timestamp", "max_tokens", "messages";
    assert t[0] != m[0] && t[0] != s[0] && m[1] != s[1];
  }

  /** A stored `true` passes as the timestamp 1, as `isinstance(True, int)` holds in Python. */
  lemma {:induction false} BoolTimestamp(fields: map<string, Json>, now: real)
    requires Get(fields, "timestamp", JNull) == JBool(true) && now <= 7201.0
    ensures !Expired(fields, now)
  {
  }
}
