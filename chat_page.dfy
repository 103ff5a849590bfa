/** The chat screen's state and the handlers that change it. The two remote calls
    are not made here: a phase method returns the request it would issue, and the
    settled result comes back as a parameter of the next phase. */
module Session {
  import opened ChatModel

  /** What mounting the screen does: redirect to the entry page, or fetch the
      history with the given bearer token. */
  datatype MountAction = RedirectToEntry | FetchHistory(bearer: string)

  /** The POST /chat/ a send issues: the message text and the token its
      `Bearer` header is built from (an absent token still goes out, as the
      text "Bearer null"). */
  datatype SendRequest = SendRequest(message: string, bearer: Option<string>)

  /** The single-writer state of one conversation screen. */
  class ChatPage {
    /** The stored credential as the current render read it. This object keeps
        one value for its whole life; a token that changes between renders is
        not modelled. */
    const token: Option<string>
    var messages: seq<Message>
    var input: string
    var isLoading: bool

    /** A placeholder can only be the last message, and none is left once no send is in flight. */
    ghost predicate Valid()
      reads this
    {
      TypingOnlyLast(messages) && (!isLoading ==> NoTyping(messages))
    }

    /** A fresh screen: empty list, empty input, nothing in flight. */
    constructor (token: Option<string>)
      ensures this.token == token
      ensures messages == [] && input == "" && !isLoading
      ensures Valid()
    {
      this.token := token;
      messages := [];
      input := "";
      isLoading := false;
    }

    /** The mount gate: a missing token, or the empty string (also falsy), only
        redirects; otherwise the history is fetched with that token. Nothing in
        the screen's state changes. */
    method Mount() returns (action: MountAction)
      ensures action == RedirectToEntry <==> token == None || token == Some("")
      ensures action.FetchHistory? ==> token == Some(action.bearer) && action.bearer != ""
    {
      if token.None? || token.value == "" {
        action := RedirectToEntry;
      } else {
        action := FetchHistory(token.value);
      }
    }

    /** The settled history fetch: a returned newest-first history replaces the
        list wholesale with its chronological flattening; a failed fetch (None)
        changes nothing. */
    method LoadHistory(result: Option<seq<Exchange>>)
      requires Valid()
      modifies this`messages
      ensures Valid()
      ensures result.Some? ==> messages == FlattenHistory(result.value) && NoTyping(messages)
      ensures result.None? ==> messages == old(messages)
    {
      if result.Some? {
        messages := FlattenHistory(result.value);
        FlattenHistoryShape(result.value);
      }
    }

    /** The input field's change handler. */
    method SetInput(text: string)
      requires Valid()
      modifies this`input
      ensures Valid()
      ensures input == text
    {
      input := text;
    }

    /** The send handler up to the remote call: the admission check, then the
        optimistic phase. Returns the request to POST (the original text and
        the screen's token), or None when the send is
        rejected (blank input, or a send already in flight), in which case
        nothing changes. `userTs` and `typingTs` are the two client clock reads. */
    method Submit(userTs: string, typingTs: string) returns (request: Option<SendRequest>)
      requires Valid()
      modifies this`messages, this`input, this`isLoading
      ensures Valid()
      ensures request.Some? <==> Admits(old(input), old(isLoading))
      ensures request.None? ==>
        messages == old(messages) && input == old(input) && isLoading == old(isLoading)
      ensures request.Some? ==>
        && request.value == SendRequest(old(input), token)
        && messages == Optimistic(old(messages), old(input), userTs, typingTs)
        && input == "" && isLoading
        && TypingCount(messages) == 1 && messages[|messages| - 1].isTyping
    {
      if !Admits(input, isLoading) {
        return None;
      }
      var userInput := input;
      input := "";
      isLoading := true;
      OptimisticPlaceholder(messages, userInput, userTs, typingTs);
      messages := messages + [UserMessage(userInput, userTs)];
      messages := messages + [TypingPlaceholder(typingTs)];
      request := Some(SendRequest(userInput, token));
    }

    /** The send handler after the remote call settles: reconcile (success) or
        roll back (failure), then release the in-flight guard. */
    method Resolve(outcome: Outcome)
      requires Valid()
      modifies this`messages, this`isLoading
      ensures Valid()
      ensures messages == Reconcile(old(messages), outcome)
      ensures NoTyping(messages) && !isLoading
    {
      match outcome {
        case Success(response, timestamp) =>
          messages := DropLast(messages, 1) + [BotMessage(response, timestamp)];
        case Failure =>
          messages := DropLast(messages, 2);
      }
      ReconcileClearsTyping(old(messages), outcome);
      isLoading := false;
    }

    /** One whole send cycle with nothing else landing between its phases. A
        rejected send changes nothing; an admitted one clears the input and the
        guard, and leaves the list either grown by the user's message and the
        bot's reply (success) or exactly as it was (failure). */
    method HandleSubmit(userTs: string, typingTs: string, outcome: Outcome) returns (request: Option<SendRequest>)
      requires Valid()
      modifies this`messages, this`input, this`isLoading
      ensures Valid()
      ensures request.Some? <==> Admits(old(input), old(isLoading))
      ensures request.None? ==>
        messages == old(messages) && input == old(input) && isLoading == old(isLoading)
      ensures request.Some? ==> request.value == SendRequest(old(input), token) && input == "" && !isLoading && NoTyping(messages)
      ensures request.Some? && outcome.Success? ==>
        messages == old(messages) + [UserMessage(old(input), userTs), BotMessage(outcome.response, outcome.timestamp)]
      ensures request.Some? && outcome.Failure? ==> messages == old(messages)
    {
      request := Submit(userTs, typingTs);
      if request.Some? {
        Resolve(outcome);
        match outcome {
          case Success(response, timestamp) =>
            SuccessReplacesPlaceholder(old(messages), old(input), userTs, typingTs, response, timestamp);
          case Failure =>
            RollbackRestores(old(messages), old(input), userTs, typingTs);
        }
      }
    }
  }

  /** Serialization of sends: with the first send still in flight, a second
      submit issues no request and leaves the list and the guard as the first
      send left them. The screen disables the input field while a send is in
      flight, so the user cannot type `second`; it stands for whatever the field
      holds then (the "" the first send left, or text set by other means), and
      the guard alone rejects the submit whatever it is. */
  method SecondSubmitWhileInFlight(page: ChatPage, first: string, second: string, ts: string)
      returns (request1: Option<SendRequest>, request2: Option<SendRequest>)
    requires page.Valid() && !page.isLoading
    modifies page
    ensures request1.Some? <==> Admits(first, false)
    ensures request2.None?
    ensures request1.Some? ==>
      page.messages == Optimistic(old(page.messages), first, ts, ts) && page.input == second && page.isLoading
  {
    page.SetInput(first);
    request1 := page.Submit(ts, ts);
    if request1.None? {
      return request1, None;
    }
    page.SetInput(second);
    request2 := page.Submit(ts, ts);
  }
}
