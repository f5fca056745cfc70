/** src/nexabot/application/agent/use_cases.py: the pure parts of one agent turn, and what each
    of its transactions does to the tables. */
module Turn {
  import opened Common
  import opened Conversations
  import opened ConversationStore
  import opened Runs
  import opened Tables
  import Context
  import Idempotency
  import RunStore
  import Text

  const IDEMPOTENCY_NAMESPACE := "agent_run"
  const MAX_INPUT_CHARACTERS := 32_000

  const INPUT_REQUIRED := Error("agent_turn_input_required", "Agent turn input is required.")
  const INPUT_TOO_LONG := Error("agent_turn_input_too_long", "Agent turn input is too long.")
  const WINDOW_INVALID := Error("agent_context_window_invalid", "Context window is out of range.")
  const INPUT_EXCEEDS_BUDGET :=
    Error("agent_turn_input_exceeds_context_budget", "Agent turn input exceeds the context token budget.")
  const BUDGET_EXHAUSTED :=
    Error("agent_context_budget_exhausted", "The system prompt leaves no room for conversation context.")
  const UNKNOWN_ACTOR := Error("unknown_actor", "Unknown Telegram user.")
  const USER_NOT_ACTIVE := Error("user_not_active", "User is not active.")
  const CONVERSATION_NOT_FOUND := Error("conversation_not_found", "Conversation not found.")
  const CONVERSATION_NOT_OWNED :=
    Error("conversation_not_owned", "You are not allowed to use this conversation.")
  const TOOLS_UNSUPPORTED :=
    Error("agent_tool_execution_unsupported", "The model requested a tool call, but no ToolExecutor port is wired yet.")
  const EMPTY_RESPONSE := Error("agent_run_empty_response", "The model returned an empty response.")
  const DEADLINE_EXCEEDED := Error("agent_run_deadline_exceeded", "The agent run exceeded its execution budget.")

  const CONTENDED := Error("idempotency_key_contended", "The idempotency key is contended.")
  const IN_PROGRESS := Error("agent_run_in_progress", "This request is already being processed.")
  const PREVIOUS_FAILED :=
    Error("agent_run_idempotency_failed", "A previous attempt for this request failed and was not retried.")
  const MALFORMED_RESULT := Error("stored_result_malformed", "The stored result cannot be decoded.")

  datatype Command = Command(
    telegramUser: int,
    conversation: Id,
    text: string,
    provider: string,
    model: string,
    limits: AgentLimits,
    key: Option<string>,
    window: int)

  datatype TurnResult = TurnResult(
    run: Id, conversation: Id, message: Id, response: string, status: RunStatus, usage: JsonObject)

  function RecordKeyOf(key: string): (r: RecordKey)
    ensures r.namespace == "agent_run" && r.key == key
  {
    RecordKey(IDEMPOTENCY_NAMESPACE, key)
  }

  function ValidateInput(c: Command): Result<string> {
    var text := Text.Strip(c.text);
    if text == "" then Err(INPUT_REQUIRED)
    else if |text| > MAX_INPUT_CHARACTERS then Err(INPUT_TOO_LONG)
    else if c.window <= 0 || c.window > MAX_MESSAGE_WINDOW then Err(WINDOW_INVALID)
    else if Context.EstimateTokens(text) > c.limits.maxContextTokens then Err(INPUT_EXCEEDS_BUDGET)
    else Ok(text)
  }

  // ---- The stored form of a result ----

  function StatusText(status: RunStatus): string {
    match status
    case Pending => "pending"
    case Running => "running"
    case Succeeded => "succeeded"
    case Failed => "failed"
    case Cancelled => "cancelled"
  }

  /** `AgentRunStatus(text)` raises on anything else. */
  function ParseStatus(text: string): Option<RunStatus> {
    if text == "pending" then Some(Pending)
    else if text == "running" then Some(Running)
    else if text == "succeeded" then Some(Succeeded)
    else if text == "failed" then Some(Failed)
    else if text == "cancelled" then Some(Cancelled)
    else None
  }

  function ToStored(r: TurnResult): JsonObject {
    map[
      "agent_run_id" := Uuid(r.run),
      "conversation_id" := Uuid(r.conversation),
      "assistant_message_id" := Uuid(r.message),
      "response" := Json.Text(r.response),
      "status" := Json.Text(StatusText(r.status)),
      "usage_metadata" := Object(r.usage)]
  }

  predicate HasUuid(o: JsonObject, field: string) {
    field in o && o[field].Uuid?
  }

  predicate HasText(o: JsonObject, field: string) {
    field in o && o[field].Text?
  }

  /** Decoding raises when a field is missing or is not of the expected kind; only the usage
      is optional. */
  function FromStored(o: JsonObject): Option<TurnResult> {
    if HasUuid(o, "agent_run_id") && HasUuid(o, "conversation_id") && HasUuid(o, "assistant_message_id")
       && HasText(o, "response") && HasText(o, "status") && ParseStatus(o["status"].text).Some? then
      Some(TurnResult(
             o["agent_run_id"].id, o["conversation_id"].id, o["assistant_message_id"].id,
             o["response"].text, ParseStatus(o["status"].text).value,
             if "usage_metadata" in o && o["usage_metadata"].Object? then o["usage_metadata"].fields else map[]))
    else None
  }

  /** The stored form: six fields under the names that other readers of the table know. */
  lemma StoredForm(r: TurnResult)
    ensures
      var o := ToStored(r);
      && o.Keys == {"agent_run_id", "conversation_id", "assistant_message_id", "response", "status", "usage_metadata"}
      && o["agent_run_id"] == Uuid(r.run) && o["conversation_id"] == Uuid(r.conversation)
      && o["assistant_message_id"] == Uuid(r.message) && o["response"] == Json.Text(r.response)
      && o["usage_metadata"] == Object(r.usage) && (r.status.Succeeded? ==> o["status"] == Json.Text("succeeded"))
  {
  }

  /** Decoding undoes encoding. */
  lemma StoredRoundTrip(r: TurnResult)
    ensures FromStored(ToStored(r)) == Some(r)
  {
    assert ParseStatus(StatusText(r.status)) == Some(r.status);
  }

  // ---- The model call ----

  datatype PromptMessage = PromptMessage(role: MessageRole, content: string)

  datatype Request = Request(provider: string, model: string, messages: seq<PromptMessage>)

  datatype Usage = Usage(inputTokens: int, outputTokens: int, totalTokens: int)

  datatype Response = Response(content: Option<string>, toolCalls: nat, usage: Usage)

  function PromptOf(ms: seq<Message>): (r: seq<PromptMessage>)
    ensures |r| == |ms|
    ensures forall i :: 0 <= i < |ms| ==> r[i] == PromptMessage(ms[i].role, ms[i].content)
  {
    seq(|ms|, i requires 0 <= i < |ms| => PromptMessage(ms[i].role, ms[i].content))
  }

  /** What the token budget leaves for history once the system prompt has its share. */
  function HistoryBudget(c: Command, systemPrompt: string): int {
    c.limits.maxContextTokens - Context.EstimateTokens(systemPrompt)
  }

  /** The history a request carries beside the system prompt. */
  function SentBy(c: Command, systemPrompt: string, recent: seq<Message>): seq<Message> {
    Context.LongestFit(recent, HistoryBudget(c, systemPrompt))
  }

  function RequestFrom(c: Command, systemPrompt: string, sent: seq<Message>): Result<Request> {
    if sent == [] then Err(BUDGET_EXHAUSTED)
    else Ok(Request(c.provider, c.model, [PromptMessage(System, systemPrompt)] + PromptOf(sent)))
  }

  function BuildRequest(c: Command, systemPrompt: string, conversation: Snapshot): Result<Request> {
    match conversation.Recent(c.window)
    case Err(e) => Err(e)
    case Ok(recent) => RequestFrom(c, systemPrompt, SentBy(c, systemPrompt, recent))
  }

  predicate DeadlinePassed(run: Run, now: Instant) {
    run.startedAt.Some? && run.limits.maxExecutionSeconds * SECOND <= now - run.startedAt.value
  }

  function ValidateResponse(r: Response): Result<string> {
    if r.toolCalls > 0 then Err(TOOLS_UNSUPPORTED)
    else
      var content := Text.Strip(match r.content case Some(text) => text case None => "");
      if content == "" then Err(EMPTY_RESPONSE) else Ok(content)
  }

  lemma ValidContentIsNotBlank(r: Response)
    requires ValidateResponse(r).Ok?
    ensures !Text.Blank(ValidateResponse(r).value)
  {
    Text.StripIsIdempotent(match r.content case Some(text) => text case None => "");
  }

  function UsageMetadata(u: Usage): JsonObject {
    map[
      "input_tokens" := Number(u.inputTokens),
      "output_tokens" := Number(u.outputTokens),
      "total_tokens" := Number(u.totalTokens)]
  }

  // ---- The start transaction ----

  /** The run a turn starts: planning, then the model call. */
  function StartedRun(run: Run, now: Instant): Result<Run> {
    match run.Start(now)
    case Err(e) => Err(e)
    case Ok(started) =>
      match started.RecordStep(Planning, map[], now)
      case Err(e) => Err(e)
      case Ok(planned) => planned.RecordStep(ModelCall, map[], now)
  }

  /** The trace a started turn leaves. */
  predicate StartedTrace(run: Run) {
    |run.steps| == 2 && run.steps[0].kind.Planning? && run.steps[1].kind.ModelCall?
  }

  /** The trace of an answered turn, whose run and message tell the same answer. */
  predicate AnsweredTrace(run: Run, m: Message) {
    && |run.steps| == 4
    && run.steps[0].kind.Planning? && run.steps[1].kind.ModelCall?
    && run.steps[2].kind.Validation? && run.steps[3].kind.FinalResponse?
    && run.finalResponse == Some(m.content) && run.failureReason.None?
  }

  datatype Start = Start(tables: Tables, conversation: Snapshot, run: Run)

  function StartTurn(t: Tables, c: Command, text: string, now: Instant, messageId: Id, runId: Id): Result<Start> {
    if c.telegramUser !in t.users then Err(UNKNOWN_ACTOR)
    else
      var actor := t.users[c.telegramUser];
      if actor.status != UserActive then Err(USER_NOT_ACTIVE)
      else match GetConversation(t, c.conversation, c.window)
           case Err(e) => Err(e)
           case Ok(None) => Err(CONVERSATION_NOT_FOUND)
           case Ok(Some(loaded)) =>
             if loaded.owner != actor.id then Err(CONVERSATION_NOT_OWNED)
             else if loaded.status != Active then Err(NOT_ACTIVE)
             else StartLoaded(t, c, loaded, actor.id, text, now, messageId, runId)
  }

  function StartLoaded(
    t: Tables, c: Command, loaded: Snapshot, actor: Id, text: string, now: Instant, messageId: Id, runId: Id)
    : Result<Start>
  {
    match NewMessage(messageId, loaded.id, User, text, now)
    case Err(e) => Err(e)
    case Ok(message) =>
      match InsertMessage(t, message)
      case Err(e) => Err(e)
      case Ok(posted) =>
        match StartedRun(NewRun(runId, actor, loaded.id, c.provider, c.model, c.limits), now)
        case Err(e) => Err(e)
        case Ok(run) =>
          match RunStore.AddRun(posted.runs, run)
          case Err(e) => Err(e)
          case Ok(runs) => Ok(Start(posted.(runs := runs), loaded.Append(message), run))
  }

  // ---- The settlement transactions ----

  /** What a turn computes in memory before it settles. */
  datatype Conclusion = Conclusion(message: Message, run: Run, result: TurnResult)

  function Conclude(
    run: Run, conversation: Snapshot, content: string, usage: Usage, now: Instant, messageId: Id): Result<Conclusion>
  {
    if conversation.status != Active then Err(NOT_ACTIVE)
    else match NewMessage(messageId, conversation.id, Assistant, content, now)
         case Err(e) => Err(e)
         case Ok(message) =>
           match run.RecordStep(Validation, map[], now)
           case Err(e) => Err(e)
           case Ok(validated) =>
             match validated.Finish(content, UsageMetadata(usage), now)
             case Err(e) => Err(e)
             case Ok(finished) => Ok(Conclusion(message, finished, ResultOf(finished, message)))
  }

  function ResultOf(run: Run, message: Message): TurnResult {
    TurnResult(run.id, message.conversation, message.id, message.content, run.status, run.usage)
  }

  /** The claim a turn holds, if it has a key. */
  datatype Claim = Claim(key: string, token: Id)

  /** Answer, run and claim reach the tables together, or the refusal leaves all three out. */
  function FinishTurn(t: Tables, done: Conclusion, claim: Option<Claim>): Result<Tables> {
    match InsertMessage(t, done.message)
    case Err(e) => Err(e)
    case Ok(posted) =>
      match RunStore.SaveRun(posted.runs, done.run)
      case Err(e) => Err(e)
      case Ok(runs) =>
        var saved := posted.(runs := runs);
        match claim
        case None => Ok(saved)
        case Some(c) =>
          match Idempotency.CompleteClaim(saved.records, RecordKeyOf(c.key), c.token, ToStored(done.result))
          case Err(e) => Err(e)
          case Ok(records) => Ok(saved.(records := records))
  }

  /** Fails the run that is read back, or the given one if there is no row; never a terminal one. */
  function SettleFailedRun(t: Tables, inMemory: Run, reason: string, now: Instant): Result<Tables> {
    var target := match RunStore.GetRun(t.runs, inMemory.id) case Some(persisted) => persisted case None => inMemory;
    if target.status.Terminal() then Ok(t)
    else match target.Fail(reason, now)
         case Err(e) => Err(e)
         case Ok(failed) =>
           match RunStore.SaveRun(t.runs, failed)
           case Err(e) => Err(e)
           case Ok(runs) => Ok(t.(runs := runs))
  }

  function SettleFailedClaim(t: Tables, claim: Claim, reason: string): Result<Tables> {
    match Idempotency.FailClaim(t.records, RecordKeyOf(claim.key), claim.token, reason)
    case Err(e) => Err(e)
    case Ok(records) => Ok(t.(records := records))
  }
}
