/** What one execution leaves and replies, read off its command, the rows it found and the outside world,
    case by case. */
module Outcomes {
  import opened Common
  import opened Conversations
  import opened Runs
  import opened Tables
  import opened Turn
  import opened TurnTransactions
  import opened Effects
  import Context
  import Idempotency
  import MessageOrder
  import Requests
  import RunStore
  import Text

  // ---- The input and the start ----

  /** Which input is valid, what is left of it, and why other input is not. */
  lemma InputIsJudged(c: Command)
    ensures
      var text := Text.Strip(c.text);
      ValidateInput(c)
      == if forall i :: 0 <= i < |c.text| ==> Text.IsSpace(c.text[i]) then Err(INPUT_REQUIRED)
         else if 32_000 < |text| then Err(INPUT_TOO_LONG)
         else if c.window < 1 || 500 < c.window then Err(WINDOW_INVALID)
         else if c.limits.maxContextTokens < Context.EstimateTokens(text) then Err(INPUT_EXCEEDS_BUDGET)
         else Ok(text)
  {
    Text.BlankIsAllSpace(c.text);
  }

  /** Why a turn with valid input is not started: the first of these that holds. */
  function StartRefusal(t: Tables, c: Command): Option<Error> {
    if c.telegramUser !in t.users then Some(UNKNOWN_ACTOR)
    else if t.users[c.telegramUser].status != UserActive then Some(USER_NOT_ACTIVE)
    else if c.conversation !in t.conversations then Some(CONVERSATION_NOT_FOUND)
    else if t.conversations[c.conversation].owner != t.users[c.telegramUser].id then Some(CONVERSATION_NOT_OWNED)
    else if t.conversations[c.conversation].status != Active then Some(NOT_ACTIVE)
    else if c.limits.maxSteps < 2 then Some(STEP_LIMIT)
    else None
  }

  lemma StartsUnlessRefused(t: Tables, c: Command, now: Instant, messageId: Id, runId: Id)
    requires ValidateInput(c).Ok? && IdsUnused(t, messageId, runId)
    ensures
      var started := StartTurn(t, c, ValidateInput(c).value, now, messageId, runId);
      && (started.Err? <==> StartRefusal(t, c).Some?)
      && (started.Err? ==> started.error == StartRefusal(t, c).value)
  {
    StartSucceedsExactly(t, c, now, messageId, runId);
    ValidInputIsUsable(c);
    if StartRefusal(t, c) == Some(STEP_LIMIT) {
      var run := NewRun(runId, t.users[c.telegramUser].id, c.conversation, c.provider, c.model, c.limits);
      StartedRunIsRefused(run, now);
    }
  }

  lemma StartedRunIsRefused(run: Run, now: Instant)
    requires run == NewRun(run.id, run.user, run.conversation, run.provider, run.model, run.limits)
    requires run.limits.maxSteps < 2
    ensures StartedRun(run, now) == Err(STEP_LIMIT)
  {
  }

  // ---- The settlement of a failure ----

  /** The record of a claim that was failed. */
  function RecordAsFailed(record: Record, reason: string): Record {
    Record(record.id, ClaimFailed, map["reason" := Json.Text(reason)], record.claimedAt, record.token)
  }

  lemma FailedRunLeaves(t: Tables, stored: Run, inMemory: Run, error: Error, env: Environment)
    requires RunStore.Stores(t.runs, stored) && stored.id == inMemory.id && stored.Numbered() && stored.status.Running?
    ensures
      var settled := Committed(t, SettleFailedRun(t, inMemory, error.message, env.failedAt), env.runFate);
      && settled == t.(runs := settled.runs)
      && RunStore.GetRun(settled.runs, stored.id)
         == Some(if env.runFate == Lost then stored else AsFailed(stored, error.message, env.failedAt))
      && RunStore.SameElsewhere(t.runs, settled.runs, stored.id)
  {
    SettleRunEffect(t, stored, inMemory, error.message, env.failedAt);
    RunStore.StoredIsRead(t.runs, stored);
    var settled := SettleFailedRun(t, inMemory, error.message, env.failedAt).value;
    RunStore.StoredIsRead(settled.runs, AsFailed(stored, error.message, env.failedAt));
  }

  lemma FailedClaimLeaves(t: Tables, claim: Claim, error: Error)
    requires MaySettle(t.records, Some(claim))
    ensures
      var key := RecordKey("agent_run", claim.key);
      SettleFailedClaim(t, claim, error.message)
      == Ok(t.(records := t.records[key := RecordAsFailed(t.records[key], error.message)]))
  {
  }

  /** A running run and a held claim are failed with the reason, each unless its own transaction is
      rolled back; nothing else is written, and the caller gets the error. */
  lemma FailedTurnLeaves(t: Tables, stored: Run, inMemory: Run, claim: Option<Claim>, error: Error, env: Environment)
    requires RunStore.Stores(t.runs, stored) && stored.id == inMemory.id && stored.Numbered() && stored.status.Running?
    requires MaySettle(t.records, claim)
    ensures
      var out := FailedTurn(t, inMemory, claim, error, env);
      && out.reply == Err(error)
      && out.tables == t.(runs := out.tables.runs, records := out.tables.records)
      && RunStore.GetRun(out.tables.runs, stored.id)
         == Some(if env.runFate == Lost then stored else AsFailed(stored, error.message, env.failedAt))
      && RunStore.SameElsewhere(t.runs, out.tables.runs, stored.id)
      && out.tables.records == FailedRecords(t.records, claim, error, env)
  {
    FailedRunLeaves(t, stored, inMemory, error, env);
    if claim.Some? {
      FailedClaimLeaves(Committed(t, SettleFailedRun(t, inMemory, error.message, env.failedAt), env.runFate),
                        claim.value, error);
    }
  }

  /** The records once a turn has failed. */
  function FailedRecords(records: Records, claim: Option<Claim>, error: Error, env: Environment): Records {
    if claim.None? || env.failureFate == Lost then records
    else
      var key := RecordKey("agent_run", claim.value.key);
      if key in records then records[key := RecordAsFailed(records[key], error.message)] else records
  }

  /** A terminal run and a settled claim are left alone. */
  lemma FailedTurnSpares(t: Tables, stored: Run, inMemory: Run, claim: Option<Claim>, error: Error, env: Environment)
    requires RunStore.Stores(t.runs, stored) && stored.id == inMemory.id && stored.Numbered()
    requires stored.status.Succeeded?
    requires claim.Some? ==> !Idempotency.Holds(t.records, RecordKeyOf(claim.value.key), claim.value.token)
    ensures FailedTurn(t, inMemory, claim, error, env) == Outcome(t, Err(error))
  {
    SettleRunEffect(t, stored, inMemory, error.message, env.failedAt);
  }

  // ---- A started turn ----

  /** Why a started turn does not get a usable answer from the model: the first of these that holds. */
  function ModelFailure(c: Command, systemPrompt: string, text: string, env: Environment): Option<Error> {
    if c.limits.maxContextTokens < Context.EstimateTokens(systemPrompt) + Context.EstimateTokens(text) then
      Some(BUDGET_EXHAUSTED)
    else if c.limits.maxExecutionSeconds * 1_000_000 <= env.calledAt - env.startedAt then Some(DEADLINE_EXCEEDED)
    else if env.response.Err? then Some(env.response.error)
    else if 0 < env.response.value.toolCalls then Some(TOOLS_UNSUPPORTED)
    else if env.response.value.content.None? || Text.Blank(env.response.value.content.value) then Some(EMPTY_RESPONSE)
    else None
  }

  /** Why a started turn is not answered, in memory. */
  function Refusal(c: Command, systemPrompt: string, text: string, env: Environment): Option<Error> {
    if ModelFailure(c, systemPrompt, text, env).Some? then ModelFailure(c, systemPrompt, text, env)
    else if c.limits.maxSteps < 3 then Some(STEP_LIMIT)
    else None
  }

  /** What the model said, if the turn came to call it and can use the answer. */
  function Said(env: Environment): string {
    if env.response.Ok? && env.response.value.content.Some? then Text.Strip(env.response.value.content.value) else ""
  }

  lemma AnswerIsJudged(r: Response)
    ensures ValidateResponse(r)
         == if 0 < r.toolCalls then Err(TOOLS_UNSUPPORTED)
            else if r.content.None? || Text.Blank(r.content.value) then Err(EMPTY_RESPONSE)
            else Ok(Text.Strip(r.content.value))
  {
  }

  lemma CallIsJudged(c: Command, systemPrompt: string, text: string, start: Start, env: Environment)
    requires start.run.startedAt == Some(env.startedAt) && start.run.limits == c.limits
    requires BuildRequest(c, systemPrompt, start.conversation).Err?
      <==> c.limits.maxContextTokens < Context.EstimateTokens(systemPrompt) + Context.EstimateTokens(text)
    requires BuildRequest(c, systemPrompt, start.conversation).Err? ==>
               BuildRequest(c, systemPrompt, start.conversation).error == BUDGET_EXHAUSTED
    ensures
      var reply, failure := ReplyOf(c, systemPrompt, start, env), ModelFailure(c, systemPrompt, text, env);
      if failure.Some? then reply == Err(failure.value)
      else env.response.Ok? && reply == Ok((Said(env), env.response.value.usage))
  {
    if env.response.Ok? {
      AnswerIsJudged(env.response.value);
    }
  }

  lemma ReplyIsJudged(t: Tables, c: Command, systemPrompt: string, start: Start, env: Environment)
    requires ValidateInput(c).Ok? && MessageOrder.UniqueIds(t.messages)
    requires StartTurn(t, c, ValidateInput(c).value, env.startedAt, env.messageId, env.runId) == Ok(start)
    requires start.run.startedAt == Some(env.startedAt) && start.run.limits == c.limits
    ensures
      var reply, failure :=
        ReplyOf(c, systemPrompt, start, env), ModelFailure(c, systemPrompt, ValidateInput(c).value, env);
      if failure.Some? then reply == Err(failure.value)
      else env.response.Ok? && reply == Ok((Said(env), env.response.value.usage))
  {
    Requests.RefusedExactlyWhenPromptCrowdsOutInput(t, c, systemPrompt, env.startedAt, env.messageId, env.runId);
    CallIsJudged(c, systemPrompt, ValidateInput(c).value, start, env);
  }

  function AnswerOf(c: Command, env: Environment): Message {
    Message(env.answerId, c.conversation, Assistant, Said(env), env.answeredAt)
  }

  /** The result of an answered turn. */
  function ResultFor(c: Command, env: Environment): TurnResult
    requires env.response.Ok?
  {
    TurnResult(env.runId, c.conversation, env.answerId, Said(env), Succeeded, CountsOf(env.response.value.usage))
  }

  /** The records once a turn was answered. */
  function AnsweredRecords(records: Records, claim: Option<Claim>, result: TurnResult): Records {
    if claim.None? then records
    else
      var key := RecordKey("agent_run", claim.value.key);
      if key !in records then records
      else
        var row := records[key];
        records[key := Record(row.id, ClaimCompleted, ToStored(result), row.claimedAt, row.token)]
  }

  /** What a committed answer leaves: the message, the run and the record, and nothing else. */
  ghost predicate AnswerStands(t: Tables, c: Command, started: Run, claim: Option<Claim>, env: Environment, t': Tables)
    requires env.response.Ok?
  {
    && t' == t.(messages := t.messages + [AnswerOf(c, env)], runs := t'.runs,
                records := AnsweredRecords(t.records, claim, ResultFor(c, env)))
    && RunStore.Stores(t'.runs, AsAnswered(started, Said(env), env.response.value.usage, env.answeredAt))
    && RunStore.SameElsewhere(t.runs, t'.runs, started.id)
  }

  /** A started turn that has a usable answer and room for it. */
  ghost predicate Answering(t: Tables, c: Command, start: Start, claim: Option<Claim>, env: Environment) {
    && env.response.Ok? && !Text.Blank(Said(env)) && 3 <= c.limits.maxSteps
    && start.tables == t && start.run.id == env.runId && start.run.conversation == c.conversation
    && start.run.limits == c.limits && start.run.status.Running? && |start.run.steps| == 2 && start.run.Disciplined()
    && RunStore.Stores(t.runs, start.run)
    && start.conversation.id == c.conversation && start.conversation.status.Active?
    && MaySettle(t.records, claim) && forall m :: m in t.messages ==> m.id != env.answerId
  }

  lemma AnswerIsCommitted(t: Tables, c: Command, start: Start, claim: Option<Claim>, env: Environment)
    requires Answering(t, c, start, claim, env)
    ensures
      var concluded :=
        Conclude(start.run, start.conversation, Said(env), env.response.value.usage, env.answeredAt, env.answerId);
      && concluded.Ok? && concluded.value.result == ResultFor(c, env)
      && concluded.value.run == AsAnswered(start.run, Said(env), env.response.value.usage, env.answeredAt)
      && FinishTurn(t, concluded.value, claim).Ok?
      && AnswerStands(t, c, start.run, claim, env, FinishTurn(t, concluded.value, claim).value)
  {
    var usage := env.response.value.usage;
    ConcludeShape(start.run, start.conversation, Said(env), usage, env.answeredAt, env.answerId);
    ConcludedRunIsDisciplined(start.run, start.conversation, Said(env), usage, env.answeredAt, env.answerId);
    FinishEffect(t, start.run,
                 Conclude(start.run, start.conversation, Said(env), usage, env.answeredAt, env.answerId).value, claim);
  }

  /** How a turn that was answered in memory ends: its commit is applied, misreported or rolled back. */
  ghost predicate EndsAnswered(t: Tables, c: Command, start: Run, claim: Option<Claim>, env: Environment, out: Outcome)
    requires env.response.Ok?
  {
    if env.answerFate == Lost then EndsFailed(t, start, claim, DATABASE_UNAVAILABLE, env, out)
    else
      && AnswerStands(t, c, start, claim, env, out.tables)
      && out.reply == if env.answerFate == Applied then Ok(ResultFor(c, env)) else Err(DATABASE_UNAVAILABLE)
  }

  /** How a turn ends that failed: run and claim say why, each unless its settlement is rolled back. */
  ghost predicate EndsFailed(
    t: Tables, start: Run, claim: Option<Claim>, error: Error, env: Environment, out: Outcome)
  {
    && out.reply == Err(error)
    && out.tables == t.(runs := out.tables.runs, records := FailedRecords(t.records, claim, error, env))
    && RunStore.GetRun(out.tables.runs, start.id)
       == Some(if env.runFate == Lost then start else AsFailed(start, error.message, env.failedAt))
    && RunStore.SameElsewhere(t.runs, out.tables.runs, start.id)
  }

  lemma MisreportedIsLeft(
    t: Tables, c: Command, start: Start, claim: Option<Claim>, env: Environment, done: Run, t': Tables)
    requires Answering(t, c, start, claim, env) && AnswerStands(t, c, start.run, claim, env, t')
    requires done == AsAnswered(start.run, Said(env), env.response.value.usage, env.answeredAt) && done.Numbered()
    ensures FailedTurn(t', done, claim, DATABASE_UNAVAILABLE, env) == Outcome(t', Err(DATABASE_UNAVAILABLE))
  {
    FailedTurnSpares(t', done, done, claim, DATABASE_UNAVAILABLE, env);
  }

  lemma AnsweredTurnGoesOn(
    t: Tables, start: Start, content: string, usage: Usage, claim: Option<Claim>, env: Environment, done: Conclusion)
    requires Conclude(start.run, start.conversation, content, usage, env.answeredAt, env.answerId) == Ok(done)
    requires FinishTurn(t, done, claim).Ok?
    ensures AnsweredTurn(t, start, content, usage, claim, env)
         == match env.answerFate
            case Applied => Outcome(FinishTurn(t, done, claim).value, Ok(done.result))
            case Reported =>
              FailedTurn(FinishTurn(t, done, claim).value, done.run, claim, DATABASE_UNAVAILABLE, env)
            case Lost => FailedTurn(t, done.run, claim, DATABASE_UNAVAILABLE, env)
  {
  }

  lemma AnsweredTurnEnds(t: Tables, c: Command, start: Start, claim: Option<Claim>, env: Environment)
    requires Answering(t, c, start, claim, env)
    ensures EndsAnswered(t, c, start.run, claim, env,
                    AnsweredTurn(t, start, Said(env), env.response.value.usage, claim, env))
  {
    AnswerIsCommitted(t, c, start, claim, env);
    var usage := env.response.value.usage;
    var done := Conclude(start.run, start.conversation, Said(env), usage, env.answeredAt, env.answerId).value;
    AnsweredTurnGoesOn(t, start, Said(env), usage, claim, env, done);
    if env.answerFate == Lost {
      FailedTurnLeaves(t, start.run, done.run, claim, DATABASE_UNAVAILABLE, env);
    } else if env.answerFate == Reported {
      ConcludedRunIsDisciplined(start.run, start.conversation, Said(env), usage, env.answeredAt, env.answerId);
      MisreportedIsLeft(t, c, start, claim, env, done.run, FinishTurn(t, done, claim).value);
    }
  }

  lemma UnansweredTurnEnds(t: Tables, c: Command, start: Start, claim: Option<Claim>, env: Environment, usage: Usage)
    requires RunStore.Stores(t.runs, start.run) && start.run.Disciplined() && start.run.status.Running?
    requires start.run.limits == c.limits && c.limits.maxSteps == 2 && |start.run.steps| == 2
    requires start.conversation.status.Active? && !Text.Blank(Said(env)) && MaySettle(t.records, claim)
    ensures EndsFailed(t, start.run, claim, STEP_LIMIT, env, AnsweredTurn(t, start, Said(env), usage, claim, env))
  {
    ConcludeShape(start.run, start.conversation, Said(env), usage, env.answeredAt, env.answerId);
    FailedTurnLeaves(t, start.run, start.run, claim, STEP_LIMIT, env);
  }

  // ---- The whole turn ----

  /** The tables once a turn was started: one user message, and one run with two steps. */
  ghost predicate StartedWith(t: Tables, c: Command, env: Environment, run: Run, t': Tables) {
    && c.telegramUser in t.users && ValidateInput(c).Ok?
    && run == AsStarted(env.runId, t.users[c.telegramUser].id, c.conversation, c.provider, c.model, c.limits,
                        env.startedAt)
    && t' == t.(messages := t.messages
                            + [Message(env.messageId, c.conversation, User, ValidateInput(c).value, env.startedAt)],
                runs := t'.runs)
    && RunStore.Stores(t'.runs, run) && RunStore.SameElsewhere(t.runs, t'.runs, env.runId)
  }

  /** The ids of a turn are new to the tables. */
  ghost predicate NewHere(t: Tables, env: Environment) {
    && MessageOrder.UniqueIds(t.messages) && IdsUnused(t, env.messageId, env.runId)
    && env.answerId != env.messageId && forall m :: m in t.messages ==> m.id != env.answerId
  }

  lemma TurnStarts(t: Tables, c: Command, env: Environment) returns (start: Start)
    requires ValidateInput(c).Ok? && NewHere(t, env) && StartRefusal(t, c).None?
    ensures StartTurn(t, c, ValidateInput(c).value, env.startedAt, env.messageId, env.runId) == Ok(start)
    ensures StartedWith(t, c, env, start.run, start.tables) && start.run.Disciplined() && 2 <= c.limits.maxSteps
    ensures start.conversation.id == c.conversation && start.conversation.status.Active?
  {
    StartsUnlessRefused(t, c, env.startedAt, env.messageId, env.runId);
    start := StartTurn(t, c, ValidateInput(c).value, env.startedAt, env.messageId, env.runId).value;
    StartEffect(t, c, ValidateInput(c).value, env.startedAt, env.messageId, env.runId);
  }

  /** How a started turn ends. */
  ghost predicate TurnEndsWith(
    t: Tables, c: Command, systemPrompt: string, run: Run, claim: Option<Claim>, env: Environment, out: Outcome)
    requires ValidateInput(c).Ok?
  {
    var refusal := Refusal(c, systemPrompt, ValidateInput(c).value, env);
    if refusal.Some? then EndsFailed(t, run, claim, refusal.value, env, out)
    else env.response.Ok? && EndsAnswered(t, c, run, claim, env, out)
  }

  lemma StartedTurnGoesOn(
    t: Tables, c: Command, systemPrompt: string, text: string, claim: Option<Claim>, env: Environment, start: Start)
    requires env.startFate.Applied?
    requires StartTurn(t, c, text, env.startedAt, env.messageId, env.runId) == Ok(start)
    ensures StartedTurn(t, c, systemPrompt, text, claim, env)
         == match ReplyOf(c, systemPrompt, start, env)
            case Err(e) => FailedTurn(start.tables, start.run, claim, e, env)
            case Ok(reply) => AnsweredTurn(start.tables, start, reply.0, reply.1, claim, env)
  {
  }

  lemma RepliedTurnEnds(
    t: Tables, c: Command, systemPrompt: string, claim: Option<Claim>, env: Environment, start: Start)
    requires NewHere(t, env) && MaySettle(t.records, claim)
    requires StartedWith(t, c, env, start.run, start.tables) && start.run.Disciplined() && 2 <= c.limits.maxSteps
    requires start.conversation.id == c.conversation && start.conversation.status.Active?
    requires ModelFailure(c, systemPrompt, ValidateInput(c).value, env).None?
    ensures env.response.Ok?
    ensures TurnEndsWith(start.tables, c, systemPrompt, start.run, claim, env,
                         AnsweredTurn(start.tables, start, Said(env), env.response.value.usage, claim, env))
  {
    Text.StripIsIdempotent(env.response.value.content.value);
    if c.limits.maxSteps < 3 {
      UnansweredTurnEnds(start.tables, c, start, claim, env, env.response.value.usage);
    } else {
      AnsweredTurnEnds(start.tables, c, start, claim, env);
    }
  }

  lemma StartedTurnEnds(
    t: Tables, c: Command, systemPrompt: string, claim: Option<Claim>, env: Environment, start: Start)
    requires ValidateInput(c).Ok? && NewHere(t, env) && env.startFate.Applied? && MaySettle(t.records, claim)
    requires StartTurn(t, c, ValidateInput(c).value, env.startedAt, env.messageId, env.runId) == Ok(start)
    requires StartedWith(t, c, env, start.run, start.tables) && start.run.Disciplined() && 2 <= c.limits.maxSteps
    requires start.conversation.id == c.conversation && start.conversation.status.Active?
    ensures TurnEndsWith(start.tables, c, systemPrompt, start.run, claim, env,
                         StartedTurn(t, c, systemPrompt, ValidateInput(c).value, claim, env))
  {
    StartedTurnGoesOn(t, c, systemPrompt, ValidateInput(c).value, claim, env, start);
    ReplyIsJudged(t, c, systemPrompt, start, env);
    var failure := ModelFailure(c, systemPrompt, ValidateInput(c).value, env);
    if failure.Some? {
      FailedTurnLeaves(start.tables, start.run, start.run, claim, failure.value, env);
    } else {
      RepliedTurnEnds(t, c, systemPrompt, claim, env, start);
    }
  }

  /** The records once the key of a command was claimed. */
  function ClaimedFor(records: Records, c: Command, env: Environment): Records {
    if c.key.None? then records
    else
      var key := RecordKey("agent_run", c.key.value);
      records[key := if key !in records then Record(env.recordId, ClaimStarted, map[], env.claimedAt, env.token)
                     else Record(records[key].id, ClaimStarted, records[key].result, env.claimedAt, env.token)]
  }

  /** The key of a command is free, or its claim has stood for the time-to-live of 300 seconds. */
  predicate Obtainable(records: Records, c: Command, env: Environment) {
    c.key.Some? ==>
      var key := RecordKey("agent_run", c.key.value);
      key in records ==> records[key].state == ClaimStarted && 300_000_000 <= env.judgedAt - records[key].claimedAt
  }

  function ClaimFor(c: Command, env: Environment): Option<Claim> {
    if c.key.None? then None else Some(Claim(c.key.value, env.token))
  }

  lemma ExecutedClaims(t: Tables, c: Command, systemPrompt: string, env: Environment)
    requires ValidateInput(c).Ok? && Obtainable(t.records, c, env) && (c.key.Some? ==> env.claimFate.Applied?)
    ensures
      var claimed := t.(records := ClaimedFor(t.records, c, env));
      && MaySettle(claimed.records, ClaimFor(c, env))
      && Executed(t, c, systemPrompt, env)
         == StartedTurn(claimed, c, systemPrompt, ValidateInput(c).value, ClaimFor(c, env), env)
  {
  }

  lemma RefusedTurnStops(t: Tables, c: Command, systemPrompt: string, claim: Option<Claim>, env: Environment)
    requires ValidateInput(c).Ok? && NewHere(t, env) && StartRefusal(t, c).Some?
    ensures StartedTurn(t, c, systemPrompt, ValidateInput(c).value, claim, env)
         == Outcome(t, Err(StartRefusal(t, c).value))
  {
    StartsUnlessRefused(t, c, env.startedAt, env.messageId, env.runId);
  }

  lemma UnappliedTurnStops(
    t: Tables, c: Command, systemPrompt: string, text: string, claim: Option<Claim>, env: Environment, start: Start)
    requires StartTurn(t, c, text, env.startedAt, env.messageId, env.runId) == Ok(start) && !env.startFate.Applied?
    ensures StartedTurn(t, c, systemPrompt, text, claim, env)
         == Outcome(if env.startFate.Lost? then t else start.tables, Err(DATABASE_UNAVAILABLE))
  {
  }

  /** What an execution leaves and replies when its input is valid and its key is free or long since
      abandoned: the claim; if nothing refuses the start and its commit is not rolled back, the user
      message and the run as its command describes them; and then, unless the commit was misreported,
      either the answer, the run and the record that say what the model said, or a run and a record that
      say why the turn failed.  The caller is told the same. */
  lemma ExecutedEnds(t: Tables, c: Command, systemPrompt: string, env: Environment) returns (run: Run, started: Tables)
    requires ValidateInput(c).Ok? && NewHere(t, env)
    requires Obtainable(t.records, c, env) && (c.key.Some? ==> env.claimFate.Applied?)
    ensures
      var claimed, out := t.(records := ClaimedFor(t.records, c, env)), Executed(t, c, systemPrompt, env);
      if StartRefusal(t, c).Some? then out == Outcome(claimed, Err(StartRefusal(t, c).value))
      else if env.startFate == Lost then out == Outcome(claimed, Err(DATABASE_UNAVAILABLE))
      else
        && StartedWith(claimed, c, env, run, started)
        && if env.startFate == Reported then out == Outcome(started, Err(DATABASE_UNAVAILABLE))
           else TurnEndsWith(started, c, systemPrompt, run, ClaimFor(c, env), env, out)
  {
    var claimed := t.(records := ClaimedFor(t.records, c, env));
    ExecutedClaims(t, c, systemPrompt, env);
    if StartRefusal(t, c).Some? {
      assert StartRefusal(claimed, c) == StartRefusal(t, c);
      RefusedTurnStops(claimed, c, systemPrompt, ClaimFor(c, env), env);
      run, started := NewRun(env.runId, 0, c.conversation, c.provider, c.model, c.limits), t;
    } else {
      var start := TurnStarts(claimed, c, env);
      run, started := start.run, start.tables;
      if env.startFate.Applied? {
        StartedTurnEnds(claimed, c, systemPrompt, ClaimFor(c, env), env, start);
      } else {
        UnappliedTurnStops(claimed, c, systemPrompt, ValidateInput(c).value, ClaimFor(c, env), env, start);
      }
    }
  }

  // ---- Executions that stop before they start a turn ----

  /** Invalid input is refused, and nothing changes. */
  lemma InvalidInputStops(t: Tables, c: Command, systemPrompt: string, env: Environment)
    requires ValidateInput(c).Err?
    ensures Executed(t, c, systemPrompt, env) == Outcome(t, Err(ValidateInput(c).error))
  {
  }

  /** An execution whose claim transaction is reported as failed stops there; the claim is written if it
      could be and was not rolled back. */
  lemma UnappliedClaimStops(t: Tables, c: Command, systemPrompt: string, env: Environment)
    requires ValidateInput(c).Ok? && c.key.Some? && !env.claimFate.Applied?
    ensures Executed(t, c, systemPrompt, env)
         == Outcome(if Obtainable(t.records, c, env) && env.claimFate.Reported?
                    then t.(records := ClaimedFor(t.records, c, env)) else t,
                    Err(DATABASE_UNAVAILABLE))
  {
  }

  /** Without interference, a decided or busy key is answered from its record, and nothing changes. */
  lemma ExecutedTells(t: Tables, c: Command, systemPrompt: string, env: Environment, result: TurnResult)
    requires ValidateInput(c).Ok? && c.key.Some? && RecordKey("agent_run", c.key.value) in t.records
    requires env.claimFate.Applied?
    ensures
      var row, out := t.records[RecordKey("agent_run", c.key.value)], Executed(t, c, systemPrompt, env);
      && (row.state == ClaimCompleted && row.result == ToStored(result) ==> out == Outcome(t, Ok(result)))
      && (row.state == ClaimCompleted && FromStored(row.result).None? ==> out == Outcome(t, Err(MALFORMED_RESULT)))
      && (row.state == ClaimFailed ==> out == Outcome(t, Err(PREVIOUS_FAILED)))
      && (row.state == ClaimStarted && env.judgedAt - row.claimedAt < 300_000_000 ==>
            out == Outcome(t, Err(IN_PROGRESS)))
  {
    StoredRoundTrip(result);
  }
}
