/** Values of the chat screen and the pure list transforms its state changes are built from:
    the history flattening done on mount, the admission test of a send, and the
    append / remove-last operations of the send protocol. */
module ChatModel {

  datatype Option<T> = None | Some(value: T)

  /** Who authored a message. */
  datatype Role = User | Bot

  /** One rendered entry of the conversation. `isTyping` marks the ephemeral
      "response pending" placeholder; every other message has it false (the
      screen's objects simply lack the key). Timestamps are opaque text. */
  datatype Message = Message(role: Role, content: string, timestamp: string, isTyping: bool)

  /** One server-recorded exchange from GET /chat/history: a user message, the
      bot's response and the single timestamp they share. */
  datatype Exchange = Exchange(message: string, response: string, timestamp: string)

  /** How the POST /chat/ call settles: the reply and its server timestamp, or a thrown error. */
  datatype Outcome = Success(response: string, timestamp: string) | Failure

  /** The body of the typing placeholder. */
  const TypingText: string := "Bot is typing..."

  function UserMessage(content: string, timestamp: string): Message {
    Message(User, content, timestamp, false)
  }

  function BotMessage(content: string, timestamp: string): Message {
    Message(Bot, content, timestamp, false)
  }

  function TypingPlaceholder(timestamp: string): Message {
    Message(Bot, TypingText, timestamp, true)
  }

  // ---------------------------------------------------------------------------
  // History flattening: `res.data.reverse().flatMap(entry => [user, bot])`
  // ---------------------------------------------------------------------------

  /** Array.prototype.reverse, taken as a value (the in-place update of the
      response body is not observable afterwards). */
  function Reverse<T>(s: seq<T>): (r: seq<T>)
    ensures |r| == |s|
    ensures forall k :: 0 <= k < |s| ==> r[k] == s[|s| - 1 - k]
  {
    if s == [] then [] else [s[|s| - 1]] + Reverse(s[..|s| - 1])
  }

  /** The two messages one exchange becomes, in order: the user turn, then the bot turn. */
  function Turns(e: Exchange): seq<Message> {
    [UserMessage(e.message, e.timestamp), BotMessage(e.response, e.timestamp)]
  }

  /** flatMap of Turns over the exchanges, in the order given. */
  function FlatMapTurns(exchanges: seq<Exchange>): (r: seq<Message>)
    ensures |r| == 2 * |exchanges|
  {
    if exchanges == [] then [] else Turns(exchanges[0]) + FlatMapTurns(exchanges[1..])
  }

  lemma {:induction false} FlatMapTurnsAt(exchanges: seq<Exchange>, i: nat)
    requires i < |exchanges|
    ensures FlatMapTurns(exchanges)[2 * i] == UserMessage(exchanges[i].message, exchanges[i].timestamp)
    ensures FlatMapTurns(exchanges)[2 * i + 1] == BotMessage(exchanges[i].response, exchanges[i].timestamp)
  {
    if i > 0 {
      FlatMapTurnsAt(exchanges[1..], i - 1);
      assert FlatMapTurns(exchanges) == Turns(exchanges[0]) + FlatMapTurns(exchanges[1..]);
    }
  }

  /** The message list built from a newest-first history: oldest exchange first,
      each as its user turn followed by its bot turn. */
  function FlattenHistory(exchanges: seq<Exchange>): (r: seq<Message>)
    ensures |r| == 2 * |exchanges|
  {
    FlatMapTurns(Reverse(exchanges))
  }

  /** Element 2i is the user turn and element 2i+1 the bot turn of the i-th oldest
      exchange (the i-th from the end of the newest-first input), both stamped
      with that exchange's timestamp. */
  lemma FlattenHistoryAt(exchanges: seq<Exchange>, i: nat)
    requires i < |exchanges|
    ensures var e := exchanges[|exchanges| - 1 - i];
      && FlattenHistory(exchanges)[2 * i] == UserMessage(e.message, e.timestamp)
      && FlattenHistory(exchanges)[2 * i + 1] == BotMessage(e.response, e.timestamp)
  {
    FlatMapTurnsAt(Reverse(exchanges), i);
  }

  /** Every flattened message alternates role with its position (user at even,
      bot at odd indices), shares its exchange's timestamp with its partner and
      is not a placeholder. */
  lemma FlattenHistoryShape(exchanges: seq<Exchange>)
    ensures forall j :: 0 <= j < |FlattenHistory(exchanges)| ==>
      FlattenHistory(exchanges)[j].role == (if j % 2 == 0 then User else Bot)
    ensures forall j :: 0 <= j < |exchanges| ==>
      FlattenHistory(exchanges)[2 * j].timestamp == FlattenHistory(exchanges)[2 * j + 1].timestamp
    ensures NoTyping(FlattenHistory(exchanges))
  {
    var r := FlattenHistory(exchanges);
    forall j | 0 <= j < |r|
      ensures r[j].role == (if j % 2 == 0 then User else Bot) && !r[j].isTyping
    {
      FlattenHistoryAt(exchanges, j / 2);
    }
    forall j | 0 <= j < |exchanges|
      ensures r[2 * j].timestamp == r[2 * j + 1].timestamp
    {
      FlattenHistoryAt(exchanges, j);
    }
  }

  /** The worked example: two exchanges, newest first, become four messages in chronological order. */
  lemma FlattenHistoryExample()
    ensures FlattenHistory([Exchange("hi", "hello", "T2"), Exchange("yo", "hey", "T1")])
         == [UserMessage("yo", "T1"), BotMessage("hey", "T1"), UserMessage("hi", "T2"), BotMessage("hello", "T2")]
  {
  }

  // ---------------------------------------------------------------------------
  // Admission: `!input.trim() || isLoading` rejects
  // ---------------------------------------------------------------------------

  /** The code points String.prototype.trim strips: the WhiteSpace and
      LineTerminator productions of ECMA-262 (tab, vertical tab, form feed,
      no-break space, zero-width no-break space, every Unicode space separator,
      line feed, carriage return, line and paragraph separators). */
  predicate IsJsWhitespace(c: char) {
    || c == '\t' || c == '\n' || c == '\U{000B}' || c == '\U{000C}' || c == '\r'
    || c == ' ' || c == '\U{00A0}' || c == '\U{1680}'
    || ('\U{2000}' <= c <= '\U{200A}')
    || c == '\U{2028}' || c == '\U{2029}' || c == '\U{202F}' || c == '\U{205F}'
    || c == '\U{3000}' || c == '\U{FEFF}'
  }

  /** `s` with its leading whitespace removed. */
  function TrimStart(s: string): (r: string)
    ensures |r| <= |s| && r == s[|s| - |r|..]
    ensures forall i :: 0 <= i < |s| - |r| ==> IsJsWhitespace(s[i])
    ensures r == [] || !IsJsWhitespace(r[0])
  {
    if s != [] && IsJsWhitespace(s[0]) then TrimStart(s[1..]) else s
  }

  /** `s` with its trailing whitespace removed. */
  function TrimEnd(s: string): (r: string)
    ensures |r| <= |s| && r == s[..|r|]
    ensures forall i :: |r| <= i < |s| ==> IsJsWhitespace(s[i])
    ensures r == [] || !IsJsWhitespace(r[|r| - 1])
  {
    if s != [] && IsJsWhitespace(s[|s| - 1]) then TrimEnd(s[..|s| - 1]) else s
  }

  /** String.prototype.trim: no longer than the input, neither starting nor ending
      with whitespace, and empty exactly when every character of the input is
      whitespace. */
  function Trim(s: string): (r: string)
    ensures |r| <= |s|
    ensures r == [] || (!IsJsWhitespace(r[0]) && !IsJsWhitespace(r[|r| - 1]))
    ensures r == [] <==> forall i :: 0 <= i < |s| ==> IsJsWhitespace(s[i])
  {
    TrimEnd(TrimStart(s))
  }

  /** A send is admitted when the input holds some non-whitespace character and no
      send is in flight. */
  function Admits(input: string, isLoading: bool): (ok: bool)
    ensures ok <==> !isLoading && exists i :: 0 <= i < |input| && !IsJsWhitespace(input[i])
  {
    Trim(input) != [] && !isLoading
  }

  // ---------------------------------------------------------------------------
  // The list operations of the send protocol
  // ---------------------------------------------------------------------------

  /** Array.prototype.slice(0, -k) for k > 0: all but the last k elements, and the
      empty list when there are fewer than k. (slice(0, -0) would be the empty
      list, a case the screen never uses.) */
  function DropLast<T>(s: seq<T>, k: nat): (r: seq<T>)
    requires k > 0
    ensures |r| == if k <= |s| then |s| - k else 0
    ensures r <= s
  {
    if k <= |s| then s[..|s| - k] else []
  }

  /** The optimistic phase: the old list kept as it was, then the user's message,
      then the typing placeholder as the new last element. */
  function Optimistic(messages: seq<Message>, text: string, userTs: string, typingTs: string): (r: seq<Message>)
    ensures |r| == |messages| + 2 && r[..|messages|] == messages
    ensures r[|messages|] == UserMessage(text, userTs) && r[|messages|].role == User && !r[|messages|].isTyping
    ensures r[|r| - 1].role == Bot && r[|r| - 1].isTyping && r[|r| - 1].content == TypingText
  {
    messages + [UserMessage(text, userTs), TypingPlaceholder(typingTs)]
  }

  /** The reconciliation phase: on success the last element gives way to the
      bot's reply, on failure the last two elements are discarded. Either way what
      is kept is a prefix of the old list. */
  function Reconcile(messages: seq<Message>, outcome: Outcome): (r: seq<Message>)
    ensures outcome.Success? ==>
      && |r| == (if |messages| == 0 then 1 else |messages|)
      && r[..|r| - 1] <= messages
      && r[|r| - 1] == BotMessage(outcome.response, outcome.timestamp)
    ensures outcome.Failure? ==>
      && |r| == (if |messages| < 2 then 0 else |messages| - 2)
      && r <= messages
  {
    match outcome
    case Success(response, timestamp) => DropLast(messages, 1) + [BotMessage(response, timestamp)]
    case Failure => DropLast(messages, 2)
  }

  // ---------------------------------------------------------------------------
  // The placeholder invariant
  // ---------------------------------------------------------------------------

  predicate NoTyping(messages: seq<Message>) {
    forall i :: 0 <= i < |messages| ==> !messages[i].isTyping
  }

  /** A placeholder, if any, is the last element. */
  predicate TypingOnlyLast(messages: seq<Message>) {
    forall i :: 0 <= i < |messages| - 1 ==> !messages[i].isTyping
  }

  /** The number of placeholders in the list. */
  function TypingCount(messages: seq<Message>): nat {
    if messages == [] then 0
    else TypingCount(messages[..|messages| - 1]) + (if messages[|messages| - 1].isTyping then 1 else 0)
  }

  lemma {:induction false} NoTypingCount(messages: seq<Message>)
    requires NoTyping(messages)
    ensures TypingCount(messages) == 0
  {
    if messages != [] {
      NoTypingCount(messages[..|messages| - 1]);
    }
  }

  /** Where placeholders appear only last there is at most one, and there is one
      exactly when the last element is a placeholder. */
  lemma TypingOnlyLastCount(messages: seq<Message>)
    requires TypingOnlyLast(messages)
    ensures TypingCount(messages) <= 1
    ensures TypingCount(messages) == 1 <==> messages != [] && messages[|messages| - 1].isTyping
  {
  }

  /** After the optimistic phase from a list without placeholders, the placeholder
      is the unique one and it is last, preceded by the user's message. */
  lemma OptimisticPlaceholder(messages: seq<Message>, text: string, userTs: string, typingTs: string)
    requires NoTyping(messages)
    ensures var r := Optimistic(messages, text, userTs, typingTs);
      && |r| == |messages| + 2 && r[..|messages|] == messages
      && r[|messages|] == UserMessage(text, userTs)
      && TypingOnlyLast(r) && r[|r| - 1].isTyping && TypingCount(r) == 1
  {
    var r := Optimistic(messages, text, userTs, typingTs);
    assert r[..|r| - 1] == messages + [UserMessage(text, userTs)];
    NoTypingCount(r[..|r| - 1]);
  }

  /** Reconciliation of a list whose only placeholder is last leaves no placeholder. */
  lemma ReconcileClearsTyping(messages: seq<Message>, outcome: Outcome)
    requires TypingOnlyLast(messages)
    ensures NoTyping(Reconcile(messages, outcome))
  {
  }

  /** A failed send restores exactly the list it started from. */
  lemma RollbackRestores(messages: seq<Message>, text: string, userTs: string, typingTs: string)
    ensures Reconcile(Optimistic(messages, text, userTs, typingTs), Failure) == messages
  {
  }

  /** A successful send leaves the list grown by exactly the user's message and the
      bot's reply, the placeholder gone. */
  lemma SuccessReplacesPlaceholder(messages: seq<Message>, text: string, userTs: string, typingTs: string,
                                   response: string, serverTs: string)
    ensures Reconcile(Optimistic(messages, text, userTs, typingTs), Success(response, serverTs))
         == messages + [UserMessage(text, userTs), BotMessage(response, serverTs)]
  {
  }
}
