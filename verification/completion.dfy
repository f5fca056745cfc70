/** From every state an unfailed key can still be completed. */
module Completion {
  import opened Common
  import opened Conversations
  import opened Runs
  import opened Tables
  import opened Turn
  import opened TurnTransactions
  import opened Protocol
  import opened Invariant
  import opened Effects
  import opened Outcomes
  import opened Executions
  import opened Claims
  import opened Progress
  import opened Sequential
  import opened Takeovers
  import Context
  import ConversationStore
  import MessageOrder
  import Requests
  import RunStore

  /** Everything happens at one instant, every commit is applied, and the model answers. */
  function Smooth(at: Instant, id: Id, response: Response): Environment {
    Environment(at, at, id, id + 1, Applied, at, id + 2, id + 3, Applied, at, Ok(response), at, id + 4, Applied,
                at, Applied, Applied)
  }

  /** Who may be answered: a valid, keyed command of an active user about an active conversation, with
      room for three steps, and for its input beside the system prompt. */
  predicate Answerable(t: Tables, c: Command, systemPrompt: string) {
    && Keyed(c) && MayStart(t, c) && 3 <= c.limits.maxSteps
    && Context.EstimateTokens(systemPrompt) + Context.EstimateTokens(ValidateInput(c).value)
       <= c.limits.maxContextTokens
  }

  /** No message and no run has an id from `id` on. */
  ghost predicate Unused(t: Tables, id: Id) {
    && MessageOrder.UniqueIds(t.messages)
    && (forall m :: m in t.messages ==> m.id < id)
    && (forall run :: run in t.runs.rows ==> run < id)
    && (forall k :: k in t.runs.steps ==> k.run < id)
  }

  lemma StartedNow(t: Tables, c: Command, text: string, now: Instant, messageId: Id, runId: Id)
    requires StartTurn(t, c, text, now, messageId, runId).Ok?
    ensures StartTurn(t, c, text, now, messageId, runId).value.run.startedAt == Some(now)
  {
    var loaded := ConversationStore.LoadConversation(t, c.conversation, c.window).value;
    StartedRunShape(NewRun(runId, t.users[c.telegramUser].id, loaded.id, c.provider, c.model, c.limits), now);
  }

  /** The turn starts, and the model's answer is usable. */
  lemma TurnIsReplied(t: Tables, c: Command, systemPrompt: string, at: Instant, id: Id, response: Response)
    requires Answerable(t, c, systemPrompt) && Unused(t, id) && ValidateResponse(response).Ok?
    ensures
      var started := StartTurn(t, c, ValidateInput(c).value, at, id + 2, id + 3);
      && started.Ok?
      && Starts(t, c, Message(id + 2, c.conversation, User, ValidateInput(c).value, at), id + 3, started.value)
      && ReplyOf(c, systemPrompt, started.value, Smooth(at, id, response))
         == Ok((ValidateResponse(response).value, response.usage))
  {
    StartSucceedsExactly(t, c, at, id + 2, id + 3);
    StartEffect(t, c, ValidateInput(c).value, at, id + 2, id + 3);
    StartedNow(t, c, ValidateInput(c).value, at, id + 2, id + 3);
    Requests.RefusedExactlyWhenPromptCrowdsOutInput(t, c, systemPrompt, at, id + 2, id + 3);
  }

  /** The claim is held, the turn was started, and the answer is at hand. */
  ghost predicate AboutToSettle(t: Tables, c: Command, claim: Option<Claim>, m: Message, id: Id, start: Start) {
    && Unused(t, id) && Starts(t, c, m, id + 3, start) && m.id == id + 2 && 3 <= c.limits.maxSteps
    && MaySettle(t.records, claim)
  }

  function ConcludedWith(start: Start, response: Response, at: Instant, id: Id): Result<Conclusion>
    requires ValidateResponse(response).Ok?
  {
    Conclude(start.run, start.conversation, ValidateResponse(response).value, response.usage, at, id + 4)
  }

  lemma TurnConcludes(
    t: Tables, c: Command, claim: Option<Claim>, m: Message, id: Id, start: Start, response: Response, at: Instant)
    requires AboutToSettle(t, c, claim, m, id, start) && ValidateResponse(response).Ok?
    ensures
      var concluded := ConcludedWith(start, response, at, id);
      && concluded.Ok? && concluded.value.message.id == id + 4
      && RunStore.SameIdentity(start.run, concluded.value.run)
      && concluded.value.run.Numbered() && start.run.steps <= concluded.value.run.steps
  {
    var content := ValidateResponse(response).value;
    ValidContentIsNotBlank(response);
    ConcludeShape(start.run, start.conversation, content, response.usage, at, id + 4);
    ConcludedRunIsDisciplined(start.run, start.conversation, content, response.usage, at, id + 4);
  }

  lemma TurnSettles(
    t: Tables, c: Command, claim: Option<Claim>, m: Message, id: Id, start: Start, response: Response, at: Instant)
    requires AboutToSettle(t, c, claim, m, id, start) && ValidateResponse(response).Ok?
    ensures
      var concluded := ConcludedWith(start, response, at, id);
      && concluded.Ok? && FinishTurn(start.tables, concluded.value, claim).Ok?
      && FinishTurn(start.tables, concluded.value, claim).value.records
         == SettledRecords(t.records, claim, concluded.value.result)
  {
    TurnConcludes(t, c, claim, m, id, start, response, at);
    var done := ConcludedWith(start, response, at, id).value;
    FinishEffect(start.tables, start.run, done, claim);
  }

  lemma TurnIsAnswered(
    t: Tables, c: Command, claim: Option<Claim>, m: Message, id: Id, start: Start, response: Response, at: Instant)
    requires AboutToSettle(t, c, claim, m, id, start) && ValidateResponse(response).Ok?
    ensures
      var out := AnsweredTurn(start.tables, start, ValidateResponse(response).value, response.usage, claim,
                              Smooth(at, id, response));
      out.reply.Ok? && out.tables.records == SettledRecords(t.records, claim, out.reply.value)
  {
    TurnSettles(t, c, claim, m, id, start, response, at);
  }

  lemma StartedTurnCompletes(
    t: Tables, c: Command, systemPrompt: string, claim: Option<Claim>, at: Instant, id: Id, response: Response)
    requires Answerable(t, c, systemPrompt) && Unused(t, id) && ValidateResponse(response).Ok?
    requires MaySettle(t.records, claim)
    ensures
      var out := StartedTurn(t, c, systemPrompt, ValidateInput(c).value, claim, Smooth(at, id, response));
      out.reply.Ok? && out.tables.records == SettledRecords(t.records, claim, out.reply.value)
  {
    var text := ValidateInput(c).value;
    TurnIsReplied(t, c, systemPrompt, at, id, response);
    TurnIsAnswered(t, c, claim, Message(id + 2, c.conversation, User, text, at), id,
                   StartTurn(t, c, text, at, id + 2, id + 3).value, response, at);
  }

  lemma ExecutedCompletes(t: Tables, c: Command, systemPrompt: string, at: Instant, id: Id, response: Response)
    requires Answerable(t, c, systemPrompt) && Unused(t, id) && ValidateResponse(response).Ok?
    requires Claimable(t, KeyOf(c), Smooth(at, id, response))
    ensures
      var out := Executed(t, c, systemPrompt, Smooth(at, id, response));
      && out.reply.Ok? && KeyOf(c) in out.tables.records
      && out.tables.records[KeyOf(c)].state == ClaimCompleted
  {
    var env := Smooth(at, id, response);
    ExecutedClaims(t, c, systemPrompt, env);
    var claimed := t.(records := ClaimedFor(t.records, c, env));
    StartedTurnCompletes(claimed, c, systemPrompt, ClaimFor(c, env), at, id, response);
  }

  // ---- Over executions ----

  predicate KeyIs(s: State, c: Command, state: RecordState)
    requires Keyed(c)
  {
    KeyOf(c) in s.tables.records && s.tables.records[KeyOf(c)].state == state
  }

  lemma UnusedFrom(s: State, id: Id)
    requires MessagesOk(s) && RunsOk(s) && forall i :: i in s.issued ==> i < id
    ensures Unused(s.tables, id)
  {
    assert forall m :: m in s.tables.messages ==> MessageOk(s, m);
  }

  lemma UnusedHere(e: Execution, id: Id)
    requires e.Valid() && forall i :: i in EndOf(e).issued ==> i < id
    ensures Unused(EndOf(e).tables, id)
  {
    ExecutionsAreSafe(e, |e.actions|);
    UnusedFrom(EndOf(e), id);
  }

  /** An execution of the code that nobody interferes with goes on from the end of any other. */
  lemma ExecuteHere(e: Execution, w: WorkerId, c: Command, env: Environment) returns (e': Execution)
    requires e.Valid() && w !in EndOf(e).workers
    requires EndOf(e).now <= env.judgedAt && Ordered(env) && NewIds(EndOf(e), env)
    ensures e'.Valid() && Continues(e', e, |e.actions|)
    ensures Ends(EndOf(e'), w, Executed(EndOf(e).tables, c, EndOf(e).prompt, env))
  {
    var t := ExecuteIsARunOfTheProtocol(EndOf(e), w, c, env);
    e' := AppendHere(e, t.states, t.actions);
  }

  lemma SmoothIsNew(s: State, at: Instant, id: Id, response: Response)
    requires forall i :: i in s.issued ==> i < id
    ensures Ordered(Smooth(at, id, response)) && NewIds(s, Smooth(at, id, response))
  {
  }

  lemma CompletesAt(
    t: Tables, c: Command, systemPrompt: string, at: Instant, id: Id, response: Response, s: State, w: WorkerId)
    requires Answerable(t, c, systemPrompt) && Unused(t, id) && ValidateResponse(response).Ok?
    requires Claimable(t, KeyOf(c), Smooth(at, id, response))
    requires Ends(s, w, Executed(t, c, systemPrompt, Smooth(at, id, response)))
    ensures KeyIs(s, c, ClaimCompleted) && w in s.workers && s.workers[w].pc.Returned?
  {
    ExecutedCompletes(t, c, systemPrompt, at, id, response);
  }

  /** When an uncontended attempt obtains the key: now, or as soon as the standing claim is a
      time-to-live old. */
  function Opportunity(s: State, c: Command): Instant
    requires Keyed(c)
  {
    if KeyOf(c) in s.tables.records && s.now < s.tables.records[KeyOf(c)].claimedAt + CLAIM_TTL then
      s.tables.records[KeyOf(c)].claimedAt + CLAIM_TTL
    else s.now
  }

  /** Every execution at a key that is free or STARTED goes on to one in which the key is COMPLETED and
      a new worker has returned the result, for every answer the model may give. */
  lemma OpenKeysComplete(e: Execution, c: Command, response: Response) returns (e': Execution, w: WorkerId)
    requires e.Valid() && Answerable(EndOf(e).tables, c, EndOf(e).prompt) && ValidateResponse(response).Ok?
    requires KeyOf(c) !in EndOf(e).tables.records || KeyIs(EndOf(e), c, ClaimStarted)
    ensures e'.Valid() && Continues(e', e, |e.actions|) && KeyIs(EndOf(e'), c, ClaimCompleted)
    ensures w !in EndOf(e).workers && w in EndOf(e').workers && EndOf(e').workers[w].pc.Returned?
  {
    var s, at := EndOf(e), Opportunity(EndOf(e), c);
    var id := Beyond(s.issued);
    w := Beyond(s.workers.Keys);
    UnusedHere(e, id);
    SmoothIsNew(s, at, id, response);
    e' := ExecuteHere(e, w, c, Smooth(at, id, response));
    CompletesAt(s.tables, c, s.prompt, at, id, response, EndOf(e'), w);
  }

  lemma FailedStays(e': Execution, e: Execution, c: Command)
    requires e.Valid() && e'.Valid() && Continues(e', e, |e.actions|) && Keyed(c) && KeyIs(EndOf(e), c, ClaimFailed)
    ensures KeyIs(EndOf(e'), c, ClaimFailed)
  {
    assert e'.states[|e.actions|] == e'.states[..|e.actions| + 1][|e.actions|] == EndOf(e);
    RecordsStay(e', |e.actions|, |e'.actions|);
  }

  /** Nothing but a decided failure keeps a key from being answered: while its command is answerable
      and the model has something to say, an execution goes on to one in which the key is COMPLETED
      exactly when the key is not FAILED. */
  lemma KeysCompleteUnlessFailed(e: Execution, c: Command, response: Response)
    requires e.Valid() && Answerable(EndOf(e).tables, c, EndOf(e).prompt) && ValidateResponse(response).Ok?
    ensures (exists e': Execution ::
               e'.Valid() && Continues(e', e, |e.actions|) && KeyIs(EndOf(e'), c, ClaimCompleted))
       <==> !KeyIs(EndOf(e), c, ClaimFailed)
  {
    if KeyIs(EndOf(e), c, ClaimFailed) {
      forall e': Execution | e'.Valid() && Continues(e', e, |e.actions|)
        ensures !KeyIs(EndOf(e'), c, ClaimCompleted)
      {
        FailedStays(e', e, c);
      }
    } else if KeyIs(EndOf(e), c, ClaimCompleted) {
      assert Continues(e, e, |e.actions|);
    } else {
      var e', w := OpenKeysComplete(e, c, response);
      assert KeyIs(EndOf(e'), c, ClaimCompleted);
    }
  }
}
