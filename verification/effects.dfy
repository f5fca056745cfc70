/** What the transactions of a turn change, in the terms the invariant counts. */
module Effects {
  import opened Common
  import opened Conversations
  import opened ConversationStore
  import opened Runs
  import opened Tables
  import opened Turn
  import opened Invariant
  import opened Requests
  import Idempotency
  import RunStore
  import Text

  // ---- Counting ----

  lemma CountAppend(ms: seq<Message>, m: Message, conversation: Id, role: MessageRole)
    ensures CountRole(ms + [m], conversation, role)
         == CountRole(ms, conversation, role) + (if m.conversation == conversation && m.role == role then 1 else 0)
  {
    assert (ms + [m])[..|ms|] == ms;
  }

  /** `after` is `before` except for the row of one run. */
  ghost predicate RowWritten(before: map<Id, RunRow>, after: map<Id, RunRow>, run: Run) {
    after == before[run.id := RunStore.RowOf(run)]
  }

  lemma WrittenElsewhere(before: RunTables, after: RunTables, run: Run)
    requires RunStore.SameElsewhere(before, after, run.id) && RunStore.Stores(after, run)
    ensures RowWritten(before.rows, after.rows, run)
  {
  }

  lemma RunAdded(before: map<Id, RunRow>, after: map<Id, RunRow>, run: Run, conversation: Id)
    requires run.id !in before && run.status.Running? && RowWritten(before, after, run)
    ensures |RunsOf(after, conversation)|
         == |RunsOf(before, conversation)| + (if run.conversation == conversation then 1 else 0)
  {
    if run.conversation == conversation {
      assert RunsOf(after, conversation) == RunsOf(before, conversation) + {run.id};
    } else {
      assert RunsOf(after, conversation) == RunsOf(before, conversation);
    }
  }

  lemma RunAddedRunning(before: map<Id, RunRow>, after: map<Id, RunRow>, run: Run, conversation: Id)
    requires run.id !in before && run.status.Running? && RowWritten(before, after, run)
    ensures SucceededOf(after, conversation) == SucceededOf(before, conversation)
  {
  }

  lemma RunUpdated(before: map<Id, RunRow>, after: map<Id, RunRow>, run: Run, conversation: Id)
    requires run.id in before && before[run.id].conversation == run.conversation && !before[run.id].status.Succeeded?
    requires RowWritten(before, after, run)
    ensures RunsOf(after, conversation) == RunsOf(before, conversation)
    ensures
      var more := if run.status.Succeeded? && run.conversation == conversation then 1 else 0;
      |SucceededOf(after, conversation)| == |SucceededOf(before, conversation)| + more
  {
    if run.status.Succeeded? && run.conversation == conversation {
      assert SucceededOf(after, conversation) == SucceededOf(before, conversation) + {run.id};
    } else {
      assert SucceededOf(after, conversation) == SucceededOf(before, conversation);
    }
  }

  // ---- The start transaction ----

  /** A turn's run is started with two steps, which is possible exactly when its budget has room
      for two. */
  lemma StartedRunShape(run: Run, now: Instant)
    requires run == NewRun(run.id, run.user, run.conversation, run.provider, run.model, run.limits)
    ensures StartedRun(run, now).Ok? <==> run.limits.maxSteps >= 2
    ensures StartedRun(run, now).Ok? ==>
      var started := StartedRun(run, now).value;
      && RunStore.SameIdentity(run, started)
      && started.status.Running? && started.startedAt == Some(now) && started.failureReason.None?
      && StartedTrace(started)
      && started == AsStarted(run.id, run.user, run.conversation, run.provider, run.model, run.limits, now)
  {
  }

  /** The run that a turn stores when it starts, column by column. */
  function AsStarted(
    id: Id, user: Id, conversation: Id, provider: string, model: string, limits: AgentLimits, now: Instant): Run
  {
    Run(id, user, conversation, provider, model, limits, Running,
        [Step(id, 1, Planning, map[], now), Step(id, 2, ModelCall, map[], now)],
        Some(now), None, None, None, map[])
  }

  /** The token counts of the model's answer, under their names. */
  function CountsOf(usage: Usage): JsonObject {
    map["input_tokens" := Number(usage.inputTokens), "output_tokens" := Number(usage.outputTokens),
        "total_tokens" := Number(usage.totalTokens)]
  }

  /** A run that was answered, column by column. */
  function AsAnswered(run: Run, content: string, usage: Usage, now: Instant): Run {
    Run(run.id, run.user, run.conversation, run.provider, run.model, run.limits, Succeeded,
        run.steps + [Step(run.id, |run.steps| + 1, Validation, map[], now),
                     Step(run.id, |run.steps| + 2, FinalResponse, map[], now)],
        run.startedAt, Some(now), run.failureReason, Some(content), CountsOf(usage))
  }

  /** A running run that failed, column by column. */
  function AsFailed(run: Run, reason: string, now: Instant): Run {
    Run(run.id, run.user, run.conversation, run.provider, run.model, run.limits, Failed,
        run.steps + [Step(run.id, |run.steps| + 1, ErrorStep, map["reason" := Json.Text(reason)], now)],
        run.startedAt, Some(now), Some(reason), run.finalResponse, run.usage)
  }

  lemma StartedRunIsDisciplined(run: Run, now: Instant)
    requires run == NewRun(run.id, run.user, run.conversation, run.provider, run.model, run.limits)
    requires StartedRun(run, now).Ok?
    ensures StartedRun(run, now).value.Disciplined()
  {
  }

  ghost predicate IdsUnused(t: Tables, messageId: Id, runId: Id) {
    && (forall m :: m in t.messages ==> m.id != messageId)
    && runId !in t.runs.rows
    && (forall k :: k in t.runs.steps ==> k.run != runId)
  }

  /** What a successful start transaction changes: one user message and one running run. */
  ghost predicate Starts(t: Tables, c: Command, m: Message, runId: Id, start: Start) {
    && start.tables == t.(messages := t.messages + [m], runs := start.tables.runs)
    && c.telegramUser in t.users
    && start.run == AsStarted(runId, t.users[c.telegramUser].id, m.conversation, c.provider, c.model, c.limits,
                              m.createdAt)
    && start.run.id == runId && start.run.conversation == m.conversation && start.run.limits == c.limits
    && start.run.status.Running? && start.run.Disciplined() && 2 <= c.limits.maxSteps
    && StartedTrace(start.run) && start.run.failureReason.None?
    && RunStore.Stores(start.tables.runs, start.run)
    && RunStore.SameElsewhere(t.runs, start.tables.runs, runId)
    && start.conversation.id == m.conversation && start.conversation.status.Active?
    && EndsWithInput(start.conversation, m.content) && !Text.Blank(m.content)
  }

  lemma StartLoadedEffect(
    t: Tables, c: Command, loaded: Snapshot, actor: Id, text: string, now: Instant, messageId: Id, runId: Id)
    requires IdsUnused(t, messageId, runId) && loaded.status.Active?
    requires c.telegramUser in t.users && actor == t.users[c.telegramUser].id
    requires StartLoaded(t, c, loaded, actor, text, now, messageId, runId).Ok?
    ensures Starts(t, c, Message(messageId, loaded.id, User, text, now), runId,
                   StartLoaded(t, c, loaded, actor, text, now, messageId, runId).value)
  {
    var run := NewRun(runId, actor, loaded.id, c.provider, c.model, c.limits);
    StartedRunShape(run, now);
    StartedRunIsDisciplined(run, now);
    RunStore.AddStores(t.runs, StartedRun(run, now).value);
  }

  lemma StartEffect(t: Tables, c: Command, text: string, now: Instant, messageId: Id, runId: Id)
    requires IdsUnused(t, messageId, runId)
    requires StartTurn(t, c, text, now, messageId, runId).Ok?
    ensures Starts(t, c, Message(messageId, c.conversation, User, text, now), runId,
                   StartTurn(t, c, text, now, messageId, runId).value)
  {
    var loaded := LoadConversation(t, c.conversation, c.window).value;
    StartLoadedEffect(t, c, loaded, t.users[c.telegramUser].id, text, now, messageId, runId);
  }

  /** Who may start a turn, and on what. */
  predicate MayStart(t: Tables, c: Command) {
    && c.telegramUser in t.users && t.users[c.telegramUser].status.UserActive?
    && c.conversation in t.conversations
    && t.conversations[c.conversation].owner == t.users[c.telegramUser].id
    && t.conversations[c.conversation].status.Active?
    && 2 <= c.limits.maxSteps
  }

  lemma ValidInputIsUsable(c: Command)
    requires ValidateInput(c).Ok?
    ensures !Text.Blank(ValidateInput(c).value) && ValidateMessageWindow(c.window) == Ok(c.window)
  {
    Text.StripIsIdempotent(c.text);
  }

  /** Once its input is valid, a turn is started exactly when an active user owns an active
      conversation and its budget has room for two steps. */
  lemma StartSucceedsExactly(t: Tables, c: Command, now: Instant, messageId: Id, runId: Id)
    requires ValidateInput(c).Ok? && IdsUnused(t, messageId, runId)
    ensures StartTurn(t, c, ValidateInput(c).value, now, messageId, runId).Ok? <==> MayStart(t, c)
  {
    ValidInputIsUsable(c);
    if c.telegramUser in t.users && c.conversation in t.conversations {
      var run := NewRun(runId, t.users[c.telegramUser].id, c.conversation, c.provider, c.model, c.limits);
      StartedRunShape(run, now);
      if StartedRun(run, now).Ok? {
        StartedRunIsDisciplined(run, now);
        RunStore.AddStores(t.runs, StartedRun(run, now).value);
      }
    }
  }

  lemma StartLeavesRecords(t: Tables, c: Command, text: string, now: Instant, messageId: Id, runId: Id)
    requires StartTurn(t, c, text, now, messageId, runId).Ok?
    ensures StartTurn(t, c, text, now, messageId, runId).value.tables.records == t.records
  {
  }

  // ---- The settlement transactions ----

  /** The in-memory end of a turn succeeds exactly when the budget has room for the validation
      step (the conversation was active when loaded, and the model's answer is not blank). */
  lemma ConcludeShape(run: Run, conversation: Snapshot, content: string, usage: Usage, now: Instant, messageId: Id)
    requires run.status.Running?
    ensures Conclude(run, conversation, content, usage, now, messageId)
         == if !conversation.status.Active? then Err(NOT_ACTIVE)
            else if Text.Blank(content) then Err(CONTENT_REQUIRED)
            else if run.limits.maxSteps <= |run.steps| then Err(STEP_LIMIT)
            else Ok(Conclusion(
                      Message(messageId, conversation.id, Assistant, content, now),
                      AsAnswered(run, content, usage, now),
                      TurnResult(run.id, conversation.id, messageId, content, Succeeded, CountsOf(usage))))
    ensures Conclude(run, conversation, content, usage, now, messageId).Ok? <==>
              conversation.status.Active? && !Text.Blank(content) && |run.steps| < run.limits.maxSteps
    ensures Conclude(run, conversation, content, usage, now, messageId).Ok? ==>
      var done := Conclude(run, conversation, content, usage, now, messageId).value;
      && done.message == Message(messageId, conversation.id, Assistant, content, now)
      && done.result == ResultOf(done.run, done.message)
      && RunStore.SameIdentity(run, done.run)
      && done.run.status.Succeeded? && run.steps <= done.run.steps
      && (StartedTrace(run) && run.failureReason.None? ==> AnsweredTrace(done.run, done.message))
  {
    var n := |run.steps|;
    var validated, final :=
      Step(run.id, n + 1, Validation, map[], now), Step(run.id, n + 2, FinalResponse, map[], now);
    assert run.steps + [validated] + [final] == run.steps + [validated, final];
  }

  lemma ConcludedRunIsDisciplined(
    run: Run, conversation: Snapshot, content: string, usage: Usage, now: Instant, messageId: Id)
    requires run.status.Running? && run.Disciplined()
    requires Conclude(run, conversation, content, usage, now, messageId).Ok?
    ensures Conclude(run, conversation, content, usage, now, messageId).value.run.Disciplined()
  {
    CallKeepsDiscipline(run, CallRecord(Validation, map[]), now);
    CallKeepsDiscipline(run.RecordStep(Validation, map[], now).value, CallFinish(content, UsageMetadata(usage)), now);
  }

  /** What a settled claim leaves in the records. */
  function SettledRecords(records: Records, claim: Option<Claim>, result: TurnResult): Records {
    match claim
    case None => records
    case Some(c) =>
      var key := RecordKeyOf(c.key);
      if key in records then records[key := records[key].(state := ClaimCompleted, result := ToStored(result))]
      else records
  }

  predicate MaySettle(records: Records, claim: Option<Claim>) {
    claim.Some? ==> Idempotency.Holds(records, RecordKeyOf(claim.value.key), claim.value.token)
  }

  /** What a committed settlement changes: one answer, its run, and its claim. */
  ghost predicate Settles(t: Tables, done: Conclusion, claim: Option<Claim>, t': Tables) {
    && t' == t.(messages := t.messages + [done.message], runs := t'.runs,
                records := SettledRecords(t.records, claim, done.result))
    && RunStore.Stores(t'.runs, done.run)
    && RunStore.SameElsewhere(t.runs, t'.runs, done.run.id)
  }

  /** The settlement commits all of its three facts exactly when its claim still holds, and none
      of them otherwise. */
  lemma FinishEffect(t: Tables, stored: Run, done: Conclusion, claim: Option<Claim>)
    requires RunStore.Stores(t.runs, stored) && RunStore.SameIdentity(stored, done.run)
    requires done.run.Numbered() && stored.steps <= done.run.steps
    requires forall m :: m in t.messages ==> m.id != done.message.id
    ensures FinishTurn(t, done, claim).Ok? <==> MaySettle(t.records, claim)
    ensures FinishTurn(t, done, claim).Ok? ==> Settles(t, done, claim, FinishTurn(t, done, claim).value)
  {
    RunStore.SaveStores(t.runs, stored, done.run);
  }

  lemma FinishSettlesRecords(t: Tables, done: Conclusion, claim: Option<Claim>)
    requires FinishTurn(t, done, claim).Ok?
    ensures MaySettle(t.records, claim)
    ensures FinishTurn(t, done, claim).value.records == SettledRecords(t.records, claim, done.result)
  {
  }

  lemma SettleRunWritesRuns(t: Tables, inMemory: Run, reason: string, now: Instant)
    requires SettleFailedRun(t, inMemory, reason, now).Ok?
    ensures
      var t' := SettleFailedRun(t, inMemory, reason, now).value;
      t' == t.(runs := t'.runs)
  {
  }

  /** Failing reads the persisted run back and fails that one; a terminal one is left alone. */
  lemma SettleRunEffect(t: Tables, stored: Run, inMemory: Run, reason: string, now: Instant)
    requires RunStore.Stores(t.runs, stored) && stored.id == inMemory.id && stored.Numbered()
    ensures SettleFailedRun(t, inMemory, reason, now).Ok?
    ensures stored.status.Terminal() ==> SettleFailedRun(t, inMemory, reason, now).value == t
    ensures !stored.status.Terminal() ==>
      var t' := SettleFailedRun(t, inMemory, reason, now).value;
      var failed := stored.Fail(reason, now).value;
      && t' == t.(runs := t'.runs)
      && RunStore.Stores(t'.runs, failed) && (stored.status.Running? ==> failed == AsFailed(stored, reason, now))
      && RunStore.SameElsewhere(t.runs, t'.runs, stored.id)
  {
    RunStore.StoredIsRead(t.runs, stored);
    if !stored.status.Terminal() {
      RunStore.SaveStores(t.runs, stored, stored.Fail(reason, now).value);
    }
  }
}
