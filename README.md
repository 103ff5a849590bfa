# Chat session state machine

A Dafny model of the conversation screen of a chatbot front end (`ChatPage`).
The screen holds three pieces of state: the ordered message list, the text in
the input box, and an `isLoading` flag that guards against overlapping sends.
Each message has a role (user or bot), content, a timestamp and an optional
`isTyping` marker.

The screen does two things with that state:

- **Mount and history load.** If no bearer token is stored, mounting only
  redirects to the entry page. Otherwise the screen fetches the server's
  history, which comes back newest first. The fetched exchanges are reversed
  and flat-mapped into user/bot message pairs, and that list replaces the
  message list wholesale. If the fetch fails, the list is left untouched.
- **Sending.** A send runs in four steps:
  1. It is rejected if the trimmed input is empty or a send is already in flight.
  2. Otherwise it clears the input, sets the guard, and appends the user's
     message and a "Bot is typing..." placeholder.
  3. It posts the text to the server.
  4. On success it replaces the placeholder with the bot's reply. On failure it
     drops both appended entries. In both cases it clears the guard.

`chat_model.dfy` (module `ChatModel`) holds the values and the pure list
transforms:

- the history flattening;
- JavaScript's `trim`, over the ECMA-262 WhiteSpace and LineTerminator code
  points;
- `slice(0, -k)`;
- the optimistic and reconcile steps as functions;
- the lemmas about all of these.

`chat_page.dfy` (module `Session`) holds the class `ChatPage`:

- its fields are `messages`, `input` and `isLoading`, and the `token` the current render read;
- `Mount`, `LoadHistory`, `SetInput`, `Submit` and `Resolve` are methods;
- the `await` between the send phases becomes the boundary between `Submit`,
  which returns the request it would post, and `Resolve(outcome)`, which takes
  how the request settled;
- `HandleSubmit` runs one whole cycle with nothing interleaved.

The object invariant `Valid()` says two things: a typing placeholder can only be
the last message, and none remains when no send is in flight.

The model uses only `src/pages/ChatPage.jsx`. `src/api/axios.js` is not part of
this model. It only configures the HTTP client.

## Model

| member | source | states |
|---|---|---|
| ChatModel.Reverse | src/pages/ChatPage.jsx:27 | the reversed history has the same length, and element k is element n-1-k of the input |
| ChatModel.FlatMapTurnsAt | src/pages/ChatPage.jsx:27-38 | the flatMap puts exchange i's user turn at index 2i and its bot turn at 2i+1, with the exchange's message, response and timestamp |
| ChatModel.FlatMapTurns | src/pages/ChatPage.jsx:27-38 | the flatMap emits exactly two messages per exchange; their contents and order are stated by FlatMapTurnsAt |
| ChatModel.FlattenHistory | src/pages/ChatPage.jsx:27-38 | n exchanges yield exactly 2n messages |
| ChatModel.FlattenHistoryAt | src/pages/ChatPage.jsx:27-38 | element 2i is the user message and 2i+1 the bot message of the i-th oldest exchange (index n-1-i of the newest-first input), both carrying that exchange's timestamp |
| ChatModel.FlattenHistoryShape | src/pages/ChatPage.jsx:27-38 | roles alternate user, bot from the start; each pair shares one timestamp; no flattened message is a typing placeholder |
| ChatModel.FlattenHistoryExample | src/pages/ChatPage.jsx:27-40 | [hi/hello@T2, yo/hey@T1] becomes [user yo@T1, bot hey@T1, user hi@T2, bot hello@T2] |
| ChatModel.TrimStart | src/pages/ChatPage.jsx:56 | the result is a suffix of the input, everything removed is whitespace, and the result does not start with whitespace |
| ChatModel.TrimEnd | src/pages/ChatPage.jsx:56 | the result is a prefix of the input, everything removed is whitespace, and the result does not end with whitespace |
| ChatModel.Trim | src/pages/ChatPage.jsx:56 | `trim()` is no longer than its input, neither starts nor ends with whitespace, and is empty exactly when every character of the input is JavaScript whitespace (both directions) |
| ChatModel.Admits | src/pages/ChatPage.jsx:56 | a send is admitted exactly when no send is in flight and the input holds some non-whitespace character |
| ChatModel.DropLast | src/pages/ChatPage.jsx:92-103 | `slice(0, -k)` is a prefix of the list, k shorter, or empty when the list has fewer than k elements |
| ChatModel.Optimistic | src/pages/ChatPage.jsx:59-77 | the two appends keep the old list as a prefix, add the user message, and end with the bot-role typing placeholder; uniqueness of the placeholder is OptimisticPlaceholder |
| ChatModel.Reconcile | src/pages/ChatPage.jsx:91-103 | success keeps a prefix of the old list one shorter (or none) and ends with the bot reply and its server timestamp; failure keeps a prefix two shorter, or nothing; RollbackRestores, SuccessReplacesPlaceholder and ReconcileClearsTyping relate it to the optimistic step |
| ChatModel.NoTypingCount | src/pages/ChatPage.jsx:71-77 | a list with no placeholder counts zero placeholders |
| ChatModel.TypingOnlyLastCount | src/pages/ChatPage.jsx:71-77 | if placeholders can only be last, there is at most one, and exactly one iff the last element is a placeholder |
| ChatModel.OptimisticPlaceholder | src/pages/ChatPage.jsx:59-77 | from a list without placeholders, the optimistic step keeps the old list as a prefix, appends the user message, and leaves exactly one placeholder, which is the last element |
| ChatModel.ReconcileClearsTyping | src/pages/ChatPage.jsx:91-103 | reconciling a list whose placeholder can only be last, on success or failure, leaves no placeholder |
| ChatModel.RollbackRestores | src/pages/ChatPage.jsx:100-103 | the optimistic step followed by the failure rollback gives back exactly the pre-send list |
| ChatModel.SuccessReplacesPlaceholder | src/pages/ChatPage.jsx:91-99 | the optimistic step followed by success gives the pre-send list plus the user message and the bot reply with the server timestamp |
| Session.ChatPage.constructor | src/pages/ChatPage.jsx:6-9 | the screen starts with an empty list, an empty input, no send in flight, and the stored token |
| Session.ChatPage.Mount | src/pages/ChatPage.jsx:13-17 | a missing or empty (falsy) token only redirects and touches no state; otherwise the history is fetched with that token |
| Session.ChatPage.LoadHistory | src/pages/ChatPage.jsx:19-44 | a fetched history replaces the list with its flattening, which has no placeholder; a failed fetch leaves the list unchanged |
| Session.ChatPage.SetInput | src/pages/ChatPage.jsx:141 | typing sets the input and keeps the invariant |
| Session.ChatPage.Submit | src/pages/ChatPage.jsx:54-89 | a rejected send issues no request and changes nothing; an admitted one posts the original input with the screen's token for the bearer header, clears the input, sets the guard, and appends the user message then the placeholder, which is then the unique placeholder and last |
| Session.ChatPage.Resolve | src/pages/ChatPage.jsx:91-106 | success drops the last element and appends the bot reply; failure drops the last two; the guard is cleared and no placeholder remains |
| Session.ChatPage.HandleSubmit | src/pages/ChatPage.jsx:54-107 | over a whole uninterrupted cycle: a rejected send changes nothing; success leaves the old list plus the user and bot messages; failure leaves exactly the old list; the input is empty and the guard is clear either way |
| Session.SecondSubmitWhileInFlight | src/pages/ChatPage.jsx:56-61 | while one send is in flight, a second submit issues no request and leaves the first send's list and guard in place, whatever the (UI-disabled) input field holds |

## Left out

- HTTP calls (`api.get`, `api.post`), `localStorage`, `navigate` and `console.error` are external. The token is a constructor parameter. A settled fetch or post is a parameter: `Option<seq<Exchange>>` for the history, `Outcome` for the send. `Mount` returns the action it takes instead of performing it.
- `token` is fixed when a `ChatPage` is constructed. The source calls `localStorage.getItem` on every render, and its mount effect depends on `token`, so a changed token re-runs the gate or a fresh history fetch and wholesale replacement, possibly in the middle of a send. The POST uses the token of the render whose handler was invoked. The model covers one token value per object; a token change mid-session is not modelled.
- Clock reads (`new Date().toISOString()`) are timestamp parameters. The placeholder's timestamp is a second parameter because the source reads the clock twice. Time formatting for display is not modelled.
- The scroll-to-bottom effect and all rendering and styling are not modelled.
- Async interleaving is not modelled. Phases run as strictly sequential method calls on one object. This leaves out React's stale-closure reading of `isLoading` and the Enter-key handler that also submits. One consequence: every method keeps `Valid()`, but if a history load landed between `Submit` and `Resolve`, `Resolve` would drop entries of the loaded history. `HandleSubmit`'s guarantees cover only the uninterrupted cycle.
- The in-place mutation of the response array by `reverse()` is modelled as a pure reverse.
- Code points stand in for UTF-16 code units in `trim`. Every whitespace character `trim` removes is a single code unit, so the emptiness test is the same.
