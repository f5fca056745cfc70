/** The request a turn sends: a windowed load, the aggregate that records its window, and the
    token budget, taken together. */
module Requests {
  import opened Common
  import opened Conversations
  import opened ConversationStore
  import opened Tables
  import opened Turn
  import Context
  import MessageOrder
  import Text

  function PromptCost(ms: seq<PromptMessage>): nat {
    if ms == [] then 0 else Context.EstimateTokens(ms[0].content) + PromptCost(ms[1..])
  }

  function RequestCost(request: Request): nat {
    PromptCost(request.messages)
  }

  ghost predicate EndsWithInput(c: Snapshot, text: string) {
    && c.messages != []
    && c.messages[|c.messages| - 1].role == User
    && c.messages[|c.messages| - 1].content == text
  }

  /** The request costs at most `limit`, opens with the system prompt and ends with the turn's
      own input. */
  ghost predicate Fits(request: Request, systemPrompt: string, limit: int, text: string) {
    && RequestCost(request) <= limit
    && request.messages != []
    && request.messages[0] == PromptMessage(System, systemPrompt)
    && request.messages[|request.messages| - 1] == PromptMessage(User, text)
  }

  lemma {:induction false} PromptCostOf(ms: seq<Message>)
    ensures PromptCost(PromptOf(ms)) == Context.Cost(ms)
  {
    if ms != [] {
      PromptCostOf(ms[1..]);
      assert PromptOf(ms)[1..] == PromptOf(ms[1..]);
    }
  }

  /** Messages that end with the turn's input and fit beside the system prompt. */
  ghost predicate Sendable(c: Command, systemPrompt: string, sent: seq<Message>, text: string) {
    && sent != [] && sent[|sent| - 1].role == User && sent[|sent| - 1].content == text
    && Context.Cost(sent) <= HistoryBudget(c, systemPrompt)
  }

  lemma SentKeepsInput(c: Command, systemPrompt: string, recent: seq<Message>, text: string)
    requires recent != [] && recent[|recent| - 1].role == User && recent[|recent| - 1].content == text
    ensures
      var sent := SentBy(c, systemPrompt, recent);
      if Context.EstimateTokens(systemPrompt) + Context.EstimateTokens(text) > c.limits.maxContextTokens then sent == []
      else Sendable(c, systemPrompt, sent, text)
  {
    var budget := HistoryBudget(c, systemPrompt);
    Context.LongestFitIsLongest(recent, budget);
    Context.NewestMessageSurvives(recent, budget);
  }

  lemma SentFits(c: Command, systemPrompt: string, sent: seq<Message>, text: string)
    requires Sendable(c, systemPrompt, sent, text)
    ensures Fits(RequestFrom(c, systemPrompt, sent).value, systemPrompt, c.limits.maxContextTokens, text)
  {
    PromptCostOf(sent);
    assert ([PromptMessage(System, systemPrompt)] + PromptOf(sent))[1..] == PromptOf(sent);
  }

  lemma BuiltFrom(c: Command, systemPrompt: string, conversation: Snapshot, text: string)
    requires 0 < c.window && EndsWithInput(conversation, text)
    requires conversation.Recent(c.window).Ok?
    ensures
      var recent := Last(conversation.messages, c.window);
      && recent != [] && recent[|recent| - 1].role == User && recent[|recent| - 1].content == text
      && BuildRequest(c, systemPrompt, conversation) == RequestFrom(c, systemPrompt, SentBy(c, systemPrompt, recent))
  {
  }

  /** Every request that is built fits, system prompt included, and ends with the input. */
  lemma BuiltRequestsFit(c: Command, systemPrompt: string, conversation: Snapshot, text: string)
    requires 0 < c.window && EndsWithInput(conversation, text)
    requires BuildRequest(c, systemPrompt, conversation).Ok?
    ensures Fits(BuildRequest(c, systemPrompt, conversation).value, systemPrompt, c.limits.maxContextTokens, text)
  {
    BuiltFrom(c, systemPrompt, conversation, text);
    var recent := Last(conversation.messages, c.window);
    SentKeepsInput(c, systemPrompt, recent, text);
    SentFits(c, systemPrompt, SentBy(c, systemPrompt, recent), text);
  }

  /** The stored history of a conversation, oldest first. */
  function HistoryOf(t: Tables, conversation: Id): seq<Message> {
    MessageOrder.History(t.messages, conversation)
  }

  /** The turn's own question of its aggregate is never refused, and is answered from the true
      history extended by the input. */
  lemma TurnContextIsAnswered(t: Tables, conversation: Id, window: nat, input: Message)
    requires MessageOrder.UniqueIds(t.messages) && conversation in t.conversations && 0 < window
    ensures LoadConversation(t, conversation, window).value.Append(input).Recent(window)
         == Ok(Last(HistoryOf(t, conversation) + [input], window))
  {
    LoadedKnows(t, conversation, window);
    var loaded := LoadConversation(t, conversation, window).value;
    AppendKeepsKnowledge(loaded, HistoryOf(t, conversation), input);
    if loaded.window.Some? {
      LastOfLast(HistoryOf(t, conversation) + [input], window + 1, window);
    }
  }

  lemma StartedConversation(t: Tables, c: Command, text: string, now: Instant, messageId: Id, runId: Id)
    requires StartTurn(t, c, text, now, messageId, runId).Ok?
    ensures c.conversation in t.conversations && !Text.Blank(text) && 0 < c.window
    ensures
      var input := Message(messageId, c.conversation, User, text, now);
      StartTurn(t, c, text, now, messageId, runId).value.conversation
      == LoadConversation(t, c.conversation, c.window).value.Append(input)
  {
  }

  lemma HistoryIsStored(t: Tables, conversation: Id)
    ensures forall m :: m in HistoryOf(t, conversation) ==> m in t.messages && m.conversation == conversation
  {
    var mine := MessageOrder.Of(t.messages, conversation);
    forall m | m in HistoryOf(t, conversation)
      ensures m in mine
    {
      assert m in multiset(HistoryOf(t, conversation));
    }
  }

  lemma HistoryIsPosted(t: Tables, conversation: Id, input: Message)
    requires Context.AllPosted(t.messages) && !Text.Blank(input.content)
    ensures Context.AllPosted(HistoryOf(t, conversation) + [input])
  {
    HistoryIsStored(t, conversation);
  }

  /** Of the messages `full` the request carries, behind the system prompt and to the provider and model
      of the command, the longest suffix that fits what the prompt leaves of the token budget, cut to
      `window` messages, and not cut at all when the window is at least a fifth of that. */
  ghost predicate CarriesFit(c: Command, systemPrompt: string, full: seq<Message>, built: Result<Request>)
  {
    && 0 < c.window
    && var budget := c.limits.maxContextTokens - Context.EstimateTokens(systemPrompt);
    var sent := Last(Context.LongestFit(full, budget), c.window);
    && (c.window >= budget / 5 ==> sent == Context.LongestFit(full, budget))
    && built == if sent == [] then Err(BUDGET_EXHAUSTED)
                else Ok(Request(c.provider, c.model, [PromptMessage(System, systemPrompt)] + PromptOf(sent)))
  }

  lemma FitIsSent(c: Command, systemPrompt: string, conversation: Snapshot, full: seq<Message>)
    requires 0 < c.window && Context.AllPosted(full) && conversation.Recent(c.window) == Ok(Last(full, c.window))
    ensures
      var sent := Last(SentBy(c, systemPrompt, full), c.window);
      && BuildRequest(c, systemPrompt, conversation) == RequestFrom(c, systemPrompt, sent)
      && (c.window >= HistoryBudget(c, systemPrompt) / 5 ==> sent == SentBy(c, systemPrompt, full))
  {
    Context.FitOfWindowOrAll(full, c.window, HistoryBudget(c, systemPrompt));
  }

  lemma RequestSays(c: Command, systemPrompt: string, sent: seq<Message>)
    ensures RequestFrom(c, systemPrompt, sent)
         == if sent == [] then Err(BUDGET_EXHAUSTED)
            else Ok(Request(c.provider, c.model, [PromptMessage(System, systemPrompt)] + PromptOf(sent)))
  {
  }

  lemma BuiltCarriesFit(c: Command, systemPrompt: string, conversation: Snapshot, full: seq<Message>)
    requires 0 < c.window && Context.AllPosted(full) && conversation.Recent(c.window) == Ok(Last(full, c.window))
    ensures CarriesFit(c, systemPrompt, full, BuildRequest(c, systemPrompt, conversation))
  {
    FitIsSent(c, systemPrompt, conversation, full);
    RequestSays(c, systemPrompt, Last(SentBy(c, systemPrompt, full), c.window));
  }

  /** The context a turn sends: of the stored history followed by the input, the longest suffix
      that fits the budget, cut to `window` messages.  It is exactly the uncut suffix whenever
      `window` is at least a fifth of the budget. */
  lemma BoundedContextIsLossless(t: Tables, c: Command, text: string, systemPrompt: string,
                                 now: Instant, messageId: Id, runId: Id)
    requires MessageOrder.UniqueIds(t.messages) && Context.AllPosted(t.messages)
    requires StartTurn(t, c, text, now, messageId, runId).Ok?
    ensures
      var start := StartTurn(t, c, text, now, messageId, runId).value;
      var full := HistoryOf(t, c.conversation) + [Message(messageId, c.conversation, User, text, now)];
      CarriesFit(c, systemPrompt, full, BuildRequest(c, systemPrompt, start.conversation))
  {
    var input := Message(messageId, c.conversation, User, text, now);
    StartedConversation(t, c, text, now, messageId, runId);
    TurnContextIsAnswered(t, c.conversation, c.window, input);
    HistoryIsPosted(t, c.conversation, input);
    BuiltCarriesFit(c, systemPrompt, StartTurn(t, c, text, now, messageId, runId).value.conversation,
                    HistoryOf(t, c.conversation) + [input]);
  }

  lemma BuiltExactly(c: Command, systemPrompt: string, conversation: Snapshot, text: string)
    requires 0 < c.window && EndsWithInput(conversation, text)
    requires conversation.Recent(c.window).Ok?
    ensures BuildRequest(c, systemPrompt, conversation).Err? <==>
              Context.EstimateTokens(systemPrompt) + Context.EstimateTokens(text) > c.limits.maxContextTokens
  {
    BuiltFrom(c, systemPrompt, conversation, text);
    SentKeepsInput(c, systemPrompt, Last(conversation.messages, c.window), text);
  }

  /** A turn with valid input that was started is still refused exactly when its input does not fit
      beside the system prompt: input validation does not reserve the prompt. */
  lemma RefusedExactlyWhenPromptCrowdsOutInput(
    t: Tables, c: Command, systemPrompt: string, now: Instant, messageId: Id, runId: Id)
    requires MessageOrder.UniqueIds(t.messages) && ValidateInput(c).Ok?
    requires StartTurn(t, c, ValidateInput(c).value, now, messageId, runId).Ok?
    ensures
      var start := StartTurn(t, c, ValidateInput(c).value, now, messageId, runId).value;
      var built := BuildRequest(c, systemPrompt, start.conversation);
      && (built.Err? <==> Context.EstimateTokens(systemPrompt) + Context.EstimateTokens(ValidateInput(c).value)
                          > c.limits.maxContextTokens)
      && (built.Err? ==> built == Err(BUDGET_EXHAUSTED))
  {
    var text := ValidateInput(c).value;
    var input := Message(messageId, c.conversation, User, text, now);
    StartedConversation(t, c, text, now, messageId, runId);
    TurnContextIsAnswered(t, c.conversation, c.window, input);
    BuiltExactly(c, systemPrompt, StartTurn(t, c, text, now, messageId, runId).value.conversation, text);
  }
}
