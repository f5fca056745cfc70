/** src/nexabot/application/agent/use_cases.py: the transactions of `RunAgentTurn` as they are
    written, one unit of work each, and what each of them leaves in the database. */
module TurnTransactions {
  import opened Common
  import opened Conversations
  import opened ConversationStore
  import opened Runs
  import opened Tables
  import opened Turn
  import Context
  import Idempotency
  import RunStore

  /** The tables after a unit of work: its changes, if it was not refused or rolled back. */
  function Committed(before: Tables, after: Result<Tables>, fate: Fate): Tables {
    if after.Ok? && fate != Lost then after.value else before
  }

  function RaisedBy(after: Result<Tables>, fate: Fate): Option<Error> {
    if after.Err? then Some(after.error) else if fate != Applied then Some(DATABASE_UNAVAILABLE) else None
  }

  // ---- One execution that nobody interferes with ----

  /** What the outside world contributes to one execution: instants, fresh ids, how each commit
      ends, and what the model answers. */
  datatype Environment = Environment(
    judgedAt: Instant, claimedAt: Instant, recordId: Id, token: Id, claimFate: Fate,
    startedAt: Instant, messageId: Id, runId: Id, startFate: Fate,
    calledAt: Instant, response: Result<Response>,
    answeredAt: Instant, answerId: Id, answerFate: Fate,
    failedAt: Instant, runFate: Fate, failureFate: Fate)

  datatype Checked = Cached(result: TurnResult) | Owned(claim: Claim)

  /** What a read of a decided or busy key tells its caller. */
  function ReadReply(row: Record): Result<Checked> {
    match row.state
    case ClaimCompleted =>
      (match FromStored(row.result) case Some(result) => Ok(Cached(result)) case None => Err(MALFORMED_RESULT))
    case ClaimFailed => Err(PREVIOUS_FAILED)
    case ClaimStarted => Err(IN_PROGRESS)
  }

  predicate Claimable(t: Tables, key: RecordKey, env: Environment) {
    key in t.records ==>
      && t.records[key].state.ClaimStarted?
      && Idempotency.Expired(t.records[key], env.judgedAt, Idempotency.DEFAULT_CLAIM_TTL_SECONDS)
  }

  function ClaimedRecords(t: Tables, key: RecordKey, env: Environment): Records {
    if key in t.records then Idempotency.TakeOver(t.records, key, env.claimedAt, env.token)
    else Idempotency.InsertClaim(t.records, key, env.recordId, env.claimedAt, env.token)
  }

  function CheckedTables(t: Tables, key: RecordKey, env: Environment): Tables {
    if Claimable(t, key, env) && env.claimFate != Lost then t.(records := ClaimedRecords(t, key, env)) else t
  }

  function CheckedKey(t: Tables, key: string, env: Environment): Result<Checked> {
    if env.claimFate != Applied then Err(DATABASE_UNAVAILABLE)
    else if Claimable(t, RecordKeyOf(key), env) then Ok(Owned(Claim(key, env.token)))
    else ReadReply(t.records[RecordKeyOf(key)])
  }

  /** The outcome of one execution: tables, and what its caller gets. */
  datatype Outcome = Outcome(tables: Tables, reply: Result<TurnResult>)

  /** A started turn that failed settles its run, then its claim. */
  function FailedTurn(t: Tables, run: Run, claim: Option<Claim>, error: Error, env: Environment): Outcome {
    var settled := Committed(t, SettleFailedRun(t, run, error.message, env.failedAt), env.runFate);
    Outcome(if claim.None? then settled
            else Committed(settled, SettleFailedClaim(settled, claim.value, error.message), env.failureFate),
            Err(error))
  }

  function AnsweredTurn(
    t: Tables, start: Start, content: string, usage: Usage, claim: Option<Claim>, env: Environment): Outcome
  {
    match Conclude(start.run, start.conversation, content, usage, env.answeredAt, env.answerId)
    case Err(e) => FailedTurn(t, start.run, claim, e, env)
    case Ok(done) =>
      var tables := FinishTurn(t, done, claim);
      var left := Committed(t, tables, env.answerFate);
      match RaisedBy(tables, env.answerFate)
      case None => Outcome(left, Ok(done.result))
      case Some(e) => FailedTurn(left, done.run, claim, e, env)
  }

  /** The model call of a started turn: a refused request, a passed deadline, a failed call and
      an unusable answer all fail the turn. */
  function ReplyOf(c: Command, systemPrompt: string, start: Start, env: Environment): Result<(string, Usage)> {
    match BuildRequest(c, systemPrompt, start.conversation)
    case Err(e) => Err(e)
    case Ok(_) =>
      if DeadlinePassed(start.run, env.calledAt) then Err(DEADLINE_EXCEEDED)
      else match env.response
           case Err(e) => Err(e)
           case Ok(response) =>
             match ValidateResponse(response)
             case Err(e) => Err(e)
             case Ok(content) => Ok((content, response.usage))
  }

  function StartedTurn(
    t: Tables, c: Command, systemPrompt: string, text: string, claim: Option<Claim>, env: Environment): Outcome
  {
    var start := StartTurn(t, c, text, env.startedAt, env.messageId, env.runId);
    var tables := if start.Ok? then Ok(start.value.tables) else Err(start.error);
    var left := Committed(t, tables, env.startFate);
    match RaisedBy(tables, env.startFate)
    case Some(e) => Outcome(left, Err(e))
    case None =>
      match ReplyOf(c, systemPrompt, start.value, env)
      case Err(e) => FailedTurn(left, start.value.run, claim, e, env)
      case Ok(reply) => AnsweredTurn(left, start.value, reply.0, reply.1, claim, env)
  }

  function Executed(t: Tables, c: Command, systemPrompt: string, env: Environment): Outcome {
    match ValidateInput(c)
    case Err(e) => Outcome(t, Err(e))
    case Ok(text) =>
      if c.key.None? then StartedTurn(t, c, systemPrompt, text, None, env)
      else
        var left := CheckedTables(t, RecordKeyOf(c.key.value), env);
        match CheckedKey(t, c.key.value, env)
        case Err(e) => Outcome(left, Err(e))
        case Ok(Cached(result)) => Outcome(left, Ok(result))
        case Ok(Owned(claim)) => StartedTurn(left, c, systemPrompt, text, Some(claim), env)
  }

  class RunAgentTurn {
    const database: Database
    const systemPrompt: string

    constructor (database: Database, systemPrompt: string)
      ensures this.database == database && this.systemPrompt == systemPrompt
    {
      this.database, this.systemPrompt := database, systemPrompt;
    }

    /** `execute`, as it is written. */
    method Execute(c: Command, env: Environment) returns (r: Result<TurnResult>)
      modifies database
      ensures Outcome(database.tables, r) == Executed(old(database.tables), c, systemPrompt, env)
    {
      var text := ValidateInput(c);
      if text.Err? {
        return Err(text.error);
      }
      var claim: Option<Claim> := None;
      if c.key.Some? {
        var checked := CheckIdempotency(c.key.value, env);
        if checked.Err? {
          return Err(checked.error);
        }
        if checked.value.Cached? {
          return Ok(checked.value.result);
        }
        claim := Some(checked.value.claim);
      }
      var started := StartTurn(c, text.value, env.startedAt, env.messageId, env.runId, env.startFate);
      if started.Err? {
        return Err(started.error);
      }
      var conversation, run := started.value.0, started.value.1;
      r := Attempt(c, conversation, run, claim, env);
      if r.Err? {
        FailTurn(run, claim, r.error.message, env.failedAt, env.runFate, env.failureFate);
      }
    }

    /** The `try` block of `execute`. */
    method Attempt(c: Command, conversation: Conversation, run: AgentRun, claim: Option<Claim>, env: Environment)
      returns (r: Result<TurnResult>)
      modifies database, conversation, run
      ensures
        var start := Start(old(database.tables), old(conversation.Value()), old(run.Value()));
        match ReplyOf(c, systemPrompt, start, env)
        case Err(e) => r == Err(e) && database.tables == old(database.tables) && run.Value() == old(run.Value())
        case Ok(reply) =>
          match Turn.Conclude(start.run, start.conversation, reply.0, reply.1, env.answeredAt, env.answerId)
          case Err(e) => r == Err(e) && database.tables == old(database.tables) && run.Value() == old(run.Value())
          case Ok(done) =>
            var tables := Turn.FinishTurn(old(database.tables), done, claim);
            && run.Value() == done.run
            && database.tables == Committed(old(database.tables), tables, env.answerFate)
            && r == (match RaisedBy(tables, env.answerFate) case None => Ok(done.result) case Some(e) => Err(e))
    {
      var request := BuildRequest(c, conversation);
      if request.Err? {
        return Err(request.error);
      }
      if DeadlinePassed(run.Value(), env.calledAt) {
        return Err(DEADLINE_EXCEEDED);
      }
      if env.response.Err? {
        return Err(env.response.error);
      }
      var content := ValidateResponse(env.response.value);
      if content.Err? {
        return Err(content.error);
      }
      r := FinishTurn(run, conversation, content.value, env.response.value.usage, claim,
                      env.answeredAt, env.answerId, env.answerFate);
    }

    /** `_check_idempotency`: a cached result, an owned claim, or a refusal. */
    method CheckIdempotency(key: string, env: Environment) returns (r: Result<Checked>)
      modifies database
      ensures r == CheckedKey(old(database.tables), key, env)
      ensures database.tables == CheckedTables(old(database.tables), RecordKeyOf(key), env)
    {
      var unit := new UnitOfWork(database);
      var session := unit.Enter();
      var records := new Idempotency.IdempotencyRepository(session);
      var record := records.Start(RecordKeyOf(key), Idempotency.DEFAULT_CLAIM_TTL_SECONDS,
                                  env.judgedAt, env.claimedAt, env.recordId, env.token);
      var left := unit.Exit(None, env.claimFate);
      if left.Err? {
        return Err(left.error);
      }
      if record.state == ClaimCompleted {
        var result := FromStored(record.result);
        return if result.Some? then Ok(Cached(result.value)) else Err(MALFORMED_RESULT);
      }
      if record.state == ClaimFailed {
        return Err(PREVIOUS_FAILED);
      }
      if !record.owned || record.token.None? {
        return Err(IN_PROGRESS);
      }
      return Ok(Owned(Claim(key, record.token.value)));
    }

    method ResolveActor(session: Session, telegramUser: int) returns (r: Result<UserRow>)
      ensures r == (if telegramUser !in session.tables.users then Err(UNKNOWN_ACTOR)
                    else if session.tables.users[telegramUser].status != UserActive then Err(USER_NOT_ACTIVE)
                    else Ok(session.tables.users[telegramUser]))
    {
      if telegramUser !in session.tables.users {
        return Err(UNKNOWN_ACTOR);
      }
      var user := session.tables.users[telegramUser];
      if user.status != UserActive {
        return Err(USER_NOT_ACTIVE);
      }
      return Ok(user);
    }

    method LoadOwned(conversations: ConversationRepository, c: Command, actor: Id) returns (r: Result<Conversation>)
      ensures
        match GetConversation(conversations.session.tables, c.conversation, c.window)
        case Err(e) => r == Err(e)
        case Ok(None) => r == Err(CONVERSATION_NOT_FOUND)
        case Ok(Some(loaded)) =>
          if loaded.owner != actor then r == Err(CONVERSATION_NOT_OWNED)
          else r.Ok? && fresh(r.value) && r.value.Value() == loaded
    {
      var got := conversations.Get(c.conversation, c.window);
      if got.Err? {
        return Err(got.error);
      }
      if got.value == null {
        return Err(CONVERSATION_NOT_FOUND);
      }
      var conversation: Conversation := got.value;
      if conversation.owner != actor {
        return Err(CONVERSATION_NOT_OWNED);
      }
      return Ok(conversation);
    }

    method StartRun(runId: Id, user: Id, conversation: Id, c: Command, now: Instant)
      returns (run: AgentRun, r: Result<()>)
      ensures fresh(run)
      ensures
        var started := StartedRun(NewRun(runId, user, conversation, c.provider, c.model, c.limits), now);
        if started.Ok? then r.Ok? && run.Value() == started.value else r == Err(started.error)
    {
      run := new AgentRun(NewRun(runId, user, conversation, c.provider, c.model, c.limits));
      r := run.Start(now);
      r := run.RecordStep(Planning, map[], now);
      if r.Ok? {
        r := run.RecordStep(ModelCall, map[], now);
      }
    }

    /** The block of `_start_turn`. */
    method OpenTurn(session: Session, c: Command, text: string, now: Instant, messageId: Id, runId: Id)
      returns (r: Result<(Conversation, AgentRun)>)
      modifies session
      ensures
        var start := Turn.StartTurn(old(session.tables), c, text, now, messageId, runId);
        if start.Err? then r == Err(start.error)
        else
          && r.Ok? && fresh(r.value.0) && fresh(r.value.1)
          && session.tables == start.value.tables
          && r.value.0.Value() == start.value.conversation && r.value.1.Value() == start.value.run
    {
      var actor := ResolveActor(session, c.telegramUser);
      if actor.Err? {
        return Err(actor.error);
      }
      var conversations := new ConversationRepository(session);
      var owned := LoadOwned(conversations, c, actor.value.id);
      if owned.Err? {
        return Err(owned.error);
      }
      var conversation := owned.value;
      var message := conversation.AppendMessage(messageId, User, text, now);
      if message.Err? {
        return Err(message.error);
      }
      var posted := conversations.AppendMessage(message.value);
      if posted.Err? {
        return Err(posted.error);
      }
      var run, started := StartRun(runId, actor.value.id, conversation.id, c, now);
      if started.Err? {
        return Err(started.error);
      }
      var runs := new RunStore.AgentRunRepository(session);
      var added := runs.Add(run);
      if added.Err? {
        return Err(added.error);
      }
      return Ok((conversation, run));
    }
  
    /** `_start_turn`: the user message and the started run are committed together, or neither. */
    method StartTurn(c: Command, text: string, now: Instant, messageId: Id, runId: Id, fate: Fate)
      returns (r: Result<(Conversation, AgentRun)>)
      modifies database
      ensures
        var start := Turn.StartTurn(old(database.tables), c, text, now, messageId, runId);
        var tables := if start.Ok? then Ok(start.value.tables) else Err(start.error);
        && database.tables == Committed(old(database.tables), tables, fate)
        && (r.Err? <==> RaisedBy(tables, fate).Some?) && (r.Err? ==> r.error == RaisedBy(tables, fate).value)
        && (r.Ok? ==> fresh(r.value.0) && fresh(r.value.1)
                      && r.value.0.Value() == start.value.conversation && r.value.1.Value() == start.value.run)
    {
      var unit := new UnitOfWork(database);
      var session := unit.Enter();
      r := OpenTurn(session, c, text, now, messageId, runId);
      var left := unit.Exit(if r.Err? then Some(r.error) else None, fate);
      if left.Err? {
        return Err(left.error);
      }
    }

    /** `_build_request`: the budgeted history behind the system prompt. */
    method BuildRequest(c: Command, conversation: Conversation) returns (r: Result<Request>)
      ensures r == Turn.BuildRequest(c, systemPrompt, conversation.Value())
    {
      var recent := conversation.RecentMessages(c.window);
      if recent.Err? {
        return Err(recent.error);
      }
      var budget := c.limits.maxContextTokens - Context.EstimateTokens(systemPrompt);
      var history := Context.SelectWithinTokenBudget(recent.value, budget);
      if history == [] {
        return Err(BUDGET_EXHAUSTED);
      }
      var messages := PromptMessages(history);
      return Ok(Request(c.provider, c.model, [PromptMessage(System, systemPrompt)] + messages));
    }

    method PromptMessages(history: seq<Message>) returns (messages: seq<PromptMessage>)
      ensures messages == PromptOf(history)
    {
      messages := [];
      for n := 0 to |history|
        invariant |messages| == n
        invariant forall i :: 0 <= i < n ==> messages[i] == PromptMessage(history[i].role, history[i].content)
      {
        messages := messages + [PromptMessage(history[n].role, history[n].content)];
      }
    }

    /** The part of `_finish_turn` that happens in memory. */
    method Conclude(
      run: AgentRun, conversation: Conversation, content: string, usage: Usage, now: Instant, messageId: Id)
      returns (r: Result<Conclusion>)
      modifies run, conversation
      ensures r == Turn.Conclude(old(run.Value()), old(conversation.Value()), content, usage, now, messageId)
      ensures run.Value() == if r.Ok? then r.value.run else old(run.Value())
      ensures r.Ok? ==> conversation.Value() == old(conversation.Value()).Append(r.value.message)
    {
      var message := conversation.AppendMessage(messageId, Assistant, content, now);
      if message.Err? {
        return Err(message.error);
      }
      var validated := run.RecordStep(Validation, map[], now);
      if validated.Err? {
        return Err(validated.error);
      }
      var finished := run.Finish(content, UsageMetadata(usage), now);
      return Ok(Conclusion(message.value, run.Value(), ResultOf(run.Value(), message.value)));
    }

    /** The block of `_finish_turn`. */
    method SettleTurn(session: Session, run: AgentRun, done: Conclusion, claim: Option<Claim>) returns (r: Result<()>)
      requires run.Value() == done.run
      modifies session
      ensures
        var tables := Turn.FinishTurn(old(session.tables), done, claim);
        if tables.Err? then r == Err(tables.error) else r.Ok? && session.tables == tables.value
    {
      var conversations := new ConversationRepository(session);
      r := conversations.AppendMessage(done.message);
      if r.Err? {
        return;
      }
      var runs := new RunStore.AgentRunRepository(session);
      r := runs.Save(run);
      if r.Err? {
        return;
      }
      if claim.Some? {
        var records := new Idempotency.IdempotencyRepository(session);
        r := records.Complete(RecordKeyOf(claim.value.key), claim.value.token, ToStored(done.result));
      }
    }

    /** `_finish_turn`: the run is finished in memory first, and stays finished there even when the
        transaction that says so is refused or rolled back. */
    method FinishTurn(
      run: AgentRun, conversation: Conversation, content: string, usage: Usage, claim: Option<Claim>,
      now: Instant, messageId: Id, fate: Fate)
      returns (r: Result<TurnResult>)
      modifies database, run, conversation
      ensures
        var concluded := Turn.Conclude(old(run.Value()), old(conversation.Value()), content, usage, now, messageId);
        if concluded.Err? then
          r == Err(concluded.error) && database.tables == old(database.tables) && run.Value() == old(run.Value())
        else
          var tables := Turn.FinishTurn(old(database.tables), concluded.value, claim);
          && run.Value() == concluded.value.run
          && database.tables == Committed(old(database.tables), tables, fate)
          && r == (if RaisedBy(tables, fate).Some? then Err(RaisedBy(tables, fate).value)
                   else Ok(concluded.value.result))
    {
      var concluded := Conclude(run, conversation, content, usage, now, messageId);
      if concluded.Err? {
        return Err(concluded.error);
      }
      var unit := new UnitOfWork(database);
      var session := unit.Enter();
      var settled := SettleTurn(session, run, concluded.value, claim);
      var left := unit.Exit(if settled.Err? then Some(settled.error) else None, fate);
      if left.Err? {
        return Err(left.error);
      }
      return Ok(concluded.value.result);
    }

    /** The block of `_settle_failed_run`. */
    method FailRun(session: Session, run: AgentRun, reason: string, now: Instant) returns (r: Result<()>)
      modifies session, run
      ensures
        var tables := Turn.SettleFailedRun(old(session.tables), old(run.Value()), reason, now);
        if tables.Err? then r == Err(tables.error) else r.Ok? && session.tables == tables.value
    {
      var runs := new RunStore.AgentRunRepository(session);
      var persisted := runs.Get(run.id);
      var target: AgentRun := if persisted == null then run else persisted;
      if target.status == Succeeded || target.status == Failed || target.status == Cancelled {
        return Ok(());
      }
      r := target.Fail(reason, now);
      r := runs.Save(target);
    }

    /** `_settle_failed_run`: whatever goes wrong here is logged, not raised. */
    method SettleFailedRun(run: AgentRun, reason: string, now: Instant, fate: Fate)
      modifies database, run
      ensures database.tables ==
              Committed(old(database.tables),
                        Turn.SettleFailedRun(old(database.tables), old(run.Value()), reason, now), fate)
    {
      var unit := new UnitOfWork(database);
      var session := unit.Enter();
      var failed := FailRun(session, run, reason, now);
      var left := unit.Exit(if failed.Err? then Some(failed.error) else None, fate);
    }

    /** `_settle_failed_claim`: a lost claim is logged, not raised. */
    method SettleFailedClaim(claim: Claim, reason: string, fate: Fate)
      modifies database
      ensures database.tables ==
              Committed(old(database.tables), Turn.SettleFailedClaim(old(database.tables), claim, reason), fate)
    {
      var unit := new UnitOfWork(database);
      var session := unit.Enter();
      var records := new Idempotency.IdempotencyRepository(session);
      var failed := records.Fail(RecordKeyOf(claim.key), claim.token, reason);
      var left := unit.Exit(if failed.Err? then Some(failed.error) else None, fate);
    }

    /** `_fail_turn`: the run and the claim are settled in two transactions, so that a refused
        claim cannot roll the run back. */
    method FailTurn(run: AgentRun, claim: Option<Claim>, reason: string, now: Instant, runFate: Fate, claimFate: Fate)
      modifies database, run
      ensures
        var before := old(database.tables);
        var settled := Committed(before, Turn.SettleFailedRun(before, old(run.Value()), reason, now), runFate);
        database.tables
        == (if claim.None? then settled
            else Committed(settled, Turn.SettleFailedClaim(settled, claim.value, reason), claimFate))
    {
      SettleFailedRun(run, reason, now, runFate);
      if claim.Some? {
        SettleFailedClaim(claim.value, reason, claimFate);
      }
    }
  }
}
