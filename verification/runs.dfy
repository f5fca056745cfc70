/** src/nexabot/domain/agent/entities.py: the agent run state machine. */
module Runs {
  import opened Common
  import Text

  datatype RunStatus = Pending | Running | Succeeded | Failed | Cancelled {
    predicate Terminal() {
      Succeeded? || Failed? || Cancelled?
    }
  }

  datatype StepType = Planning | ModelCall | ToolCall | ToolResult | Validation | FinalResponse | ErrorStep {
    /** Steps that record how a run ended; they are exempt from the step budget. */
    predicate Terminal() {
      FinalResponse? || ErrorStep?
    }
  }

  datatype Limits = Limits(
    maxSteps: int, maxToolCalls: int, maxRetries: int, maxExecutionSeconds: int, maxContextTokens: int)
  {
    predicate Positive() {
      maxSteps > 0 && maxToolCalls > 0 && maxRetries > 0 && maxExecutionSeconds > 0 && maxContextTokens > 0
    }
  }

  /** `AgentLimits` refuses to be built with a budget that is not positive. */
  type AgentLimits = l: Limits | l.Positive() witness Limits(12, 6, 2, 60, 12_000)

  datatype Step = Step(run: Id, index: int, kind: StepType, metadata: JsonObject, createdAt: Instant)

  const NOT_PENDING := Error("agent_run_not_pending", "Only pending agent runs can be started.")
  const NOT_RUNNING := Error("agent_run_not_running", "Agent run is not running.")
  const STEP_LIMIT := Error("agent_step_limit_exceeded", "Agent step limit exceeded.")
  const TOOL_LIMIT := Error("agent_tool_limit_exceeded", "Agent tool call limit exceeded.")
  const RESPONSE_REQUIRED := Error("validation_error", "Final response is required.")
  const RUN_TERMINAL := Error("agent_run_terminal", "Terminal agent runs cannot transition again.")

  function ToolCalls(steps: seq<Step>): (n: nat)
    ensures n <= |steps|
  {
    if steps == [] then 0
    else ToolCalls(steps[..|steps| - 1]) + (if steps[|steps| - 1].kind.ToolCall? then 1 else 0)
  }

  function WorkSteps(steps: seq<Step>): (n: nat)
    ensures n <= |steps|
  {
    if steps == [] then 0
    else WorkSteps(steps[..|steps| - 1]) + (if steps[|steps| - 1].kind.Terminal() then 0 else 1)
  }

  /** The value of an `AgentRun`.  Each operation answers the run's next value, or the error
      that leaves the run as it was. */
  datatype Run = Run(
    id: Id,
    user: Id,
    conversation: Id,
    provider: string,
    model: string,
    limits: AgentLimits,
    status: RunStatus,
    steps: seq<Step>,
    startedAt: Option<Instant>,
    finishedAt: Option<Instant>,
    failureReason: Option<string>,
    finalResponse: Option<string>,
    usage: JsonObject)
  {
    function Start(now: Instant): Result<Run> {
      if status != Pending then Err(NOT_PENDING)
      else Ok(this.(status := Running, startedAt := Some(now)))
    }

    function StepBudget(kind: StepType): Result<()> {
      if kind.Terminal() then Ok(())
      else if |steps| >= limits.maxSteps then Err(STEP_LIMIT)
      else if kind.ToolCall? && ToolCalls(steps) >= limits.maxToolCalls then Err(TOOL_LIMIT)
      else Ok(())
    }

    function NextStep(kind: StepType, metadata: JsonObject, now: Instant): Step {
      Step(id, |steps| + 1, kind, metadata, now)
    }

    function RecordStep(kind: StepType, metadata: JsonObject, now: Instant): Result<Run> {
      if status != Running then Err(NOT_RUNNING)
      else match StepBudget(kind)
           case Err(e) => Err(e)
           case Ok(_) => Ok(this.(steps := steps + [NextStep(kind, metadata, now)]))
    }

    function Finish(response: string, usageMetadata: JsonObject, now: Instant): Result<Run> {
      if status != Running then Err(NOT_RUNNING)
      else if Text.Blank(response) then Err(RESPONSE_REQUIRED)
      else Ok(this.(steps := steps + [NextStep(FinalResponse, map[], now)],
                    status := Succeeded,
                    finalResponse := Some(response),
                    usage := usageMetadata,
                    finishedAt := Some(now)))
    }

    function Fail(reason: string, now: Instant): Result<Run> {
      if status.Terminal() then Err(RUN_TERMINAL)
      else Ok(this.(steps := if status.Running? then steps + [NextStep(ErrorStep, map["reason" := Text(reason)], now)]
                             else steps,
                    status := Failed,
                    failureReason := Some(reason),
                    finishedAt := Some(now)))
    }

    /** Steps are numbered 1, 2, ..., n and belong to this run. */
    ghost predicate Numbered() {
      forall i :: 0 <= i < |steps| ==> steps[i].index == i + 1 && steps[i].run == id
    }

    /** The table's `agent_run_terminal_state_recorded` constraint. */
    predicate TerminalStateRecorded() {
      && (status.Terminal() ==> finishedAt.Some?)
      && (status.Succeeded? ==> finalResponse.Some?)
      && (status.Failed? ==> failureReason.Some?)
    }

    ghost predicate WithinBudgets() {
      WorkSteps(steps) <= limits.maxSteps && ToolCalls(steps) <= limits.maxToolCalls
    }

    /** What any sequence of calls keeps. */
    ghost predicate Sound() {
      && Numbered() && WithinBudgets() && TerminalStateRecorded()
      && !status.Cancelled?
      && (status.Pending? ==> steps == [])
      && (startedAt.Some? || status.Pending? || status.Failed?)
      && (finishedAt.Some? <==> status.Terminal())
    }

    /** What holds besides when nobody records a terminal step by hand. */
    ghost predicate Disciplined() {
      && Sound()
      && (forall i :: 0 <= i < |steps| - 1 ==> !steps[i].kind.Terminal())
      && (!status.Terminal() ==>
            |steps| <= limits.maxSteps && (steps != [] ==> !steps[|steps| - 1].kind.Terminal()))
      && (status.Succeeded? ==> steps != [] && steps[|steps| - 1].kind.FinalResponse?)
      && (status.Failed? && steps != [] ==> steps[|steps| - 1].kind.ErrorStep?)
      && |steps| <= limits.maxSteps + 1
    }
  }

  function NewRun(id: Id, user: Id, conversation: Id, provider: string, model: string, limits: AgentLimits): Run {
    Run(id, user, conversation, provider, model, limits, Pending, [], None, None, None, None, map[])
  }

  function ToolPositions(steps: seq<Step>): set<nat> {
    set i: nat | i < |steps| && steps[i].kind == ToolCall
  }

  lemma {:induction false} ToolCallsCounts(steps: seq<Step>)
    ensures ToolCalls(steps) == |ToolPositions(steps)|
  {
    if steps != [] {
      var n := |steps| - 1;
      ToolCallsCounts(steps[..n]);
      assert ToolPositions(steps) == ToolPositions(steps[..n]) + if steps[n].kind == ToolCall then {n} else {};
    } else {
      assert ToolPositions(steps) == {};
    }
  }

  datatype Call =
    | CallStart
    | CallRecord(kind: StepType, metadata: JsonObject)
    | CallFinish(response: string, usage: JsonObject)
    | CallFail(reason: string)
  {
    predicate Work() {
      CallRecord? ==> !kind.Terminal()
    }
  }

  function Try(run: Run, call: Call, now: Instant): Result<Run> {
    match call
    case CallStart => run.Start(now)
    case CallRecord(kind, metadata) => run.RecordStep(kind, metadata, now)
    case CallFinish(response, usage) => run.Finish(response, usage, now)
    case CallFail(reason) => run.Fail(reason, now)
  }

  /** A refused call raises and leaves the run alone. */
  function Do(run: Run, call: Call, now: Instant): Run {
    match Try(run, call, now)
    case Ok(next) => next
    case Err(_) => run
  }

  function Replay(run: Run, calls: seq<(Call, Instant)>): Run {
    if calls == [] then run
    else
      var (call, now) := calls[|calls| - 1];
      Do(Replay(run, calls[..|calls| - 1]), call, now)
  }

  lemma AppendedCounts(steps: seq<Step>, step: Step)
    ensures WorkSteps(steps + [step]) == WorkSteps(steps) + (if step.kind.Terminal() then 0 else 1)
    ensures ToolCalls(steps + [step]) == ToolCalls(steps) + (if step.kind.ToolCall? then 1 else 0)
  {
    assert (steps + [step])[..|steps|] == steps;
  }

  lemma RecordKeepsSound(run: Run, kind: StepType, metadata: JsonObject, now: Instant)
    requires run.Sound() && run.RecordStep(kind, metadata, now).Ok?
    ensures run.RecordStep(kind, metadata, now).value.Sound()
  {
    AppendedCounts(run.steps, run.NextStep(kind, metadata, now));
  }

  lemma FinishKeepsSound(run: Run, response: string, usage: JsonObject, now: Instant)
    requires run.Sound()
    ensures Do(run, CallFinish(response, usage), now).Sound()
  {
    AppendedCounts(run.steps, run.NextStep(FinalResponse, map[], now));
  }

  lemma FailKeepsSound(run: Run, reason: string, now: Instant)
    requires run.Sound()
    ensures Do(run, CallFail(reason), now).Sound()
  {
    AppendedCounts(run.steps, run.NextStep(ErrorStep, map["reason" := Text(reason)], now));
  }

  lemma CallKeepsSound(run: Run, call: Call, now: Instant)
    requires run.Sound()
    ensures Do(run, call, now).Sound()
  {
    match call
    case CallStart =>
    case CallRecord(kind, metadata) =>
      if Try(run, call, now).Ok? {
        RecordKeepsSound(run, kind, metadata, now);
      }
    case CallFinish(response, usage) =>
      FinishKeepsSound(run, response, usage, now);
    case CallFail(reason) =>
      FailKeepsSound(run, reason, now);
  }

  lemma CallKeepsDiscipline(run: Run, call: Call, now: Instant)
    requires run.Disciplined() && call.Work()
    ensures Do(run, call, now).Disciplined()
  {
    CallKeepsSound(run, call, now);
  }

  /** Over every sequence of calls, refused or not: indexes are 1..n, work steps stay within
      `max_steps` and tool calls within `max_tool_calls`, and the table's terminal-state
      constraint holds.  If only work steps are recorded directly, there are at most
      `max_steps` + 1 steps, and a terminal step is the last one and matches the outcome. */
  lemma {:induction false} EveryCallSequenceIsSound(run: Run, calls: seq<(Call, Instant)>)
    requires run == NewRun(run.id, run.user, run.conversation, run.provider, run.model, run.limits)
    ensures Replay(run, calls).Sound()
    ensures (forall c :: c in calls ==> c.0.Work()) ==> Replay(run, calls).Disciplined()
  {
    if calls != [] {
      var front := calls[..|calls| - 1];
      EveryCallSequenceIsSound(run, front);
      CallKeepsSound(Replay(run, front), calls[|calls| - 1].0, calls[|calls| - 1].1);
      if forall c :: c in calls ==> c.0.Work() {
        CallKeepsDiscipline(Replay(run, front), calls[|calls| - 1].0, calls[|calls| - 1].1);
      }
    }
  }

  /** Somebody records a terminal step by hand while the run is still running. */
  ghost predicate RecordsTerminalStep(run: Run, calls: seq<(Call, Instant)>) {
    exists i :: 0 <= i < |calls| && !calls[i].0.Work() && Replay(run, calls[..i]).status.Running?
  }

  /** A terminal step that is not the last one, or that did not end the run. */
  ghost predicate Misplaced(run: Run) {
    exists i :: 0 <= i < |run.steps| && run.steps[i].kind.Terminal() && (i < |run.steps| - 1 || run.status.Running?)
  }

  lemma MisplacedStays(run: Run, call: Call, now: Instant)
    requires run.Sound() && Misplaced(run)
    ensures Misplaced(Do(run, call, now))
  {
    var i :| 0 <= i < |run.steps| && run.steps[i].kind.Terminal() && (i < |run.steps| - 1 || run.status.Running?);
    assert Do(run, call, now).steps[i] == run.steps[i];
  }

  lemma RecordedByHandIsMisplaced(run: Run, call: Call, now: Instant)
    requires run.status.Running? && !call.Work()
    ensures Misplaced(Do(run, call, now))
  {
    var after := Do(run, call, now);
    assert after.steps[|after.steps| - 1].kind == call.kind;
  }

  lemma RecordsInFront(run: Run, calls: seq<(Call, Instant)>)
    requires calls != []
    ensures
      var front, last := calls[..|calls| - 1], calls[|calls| - 1];
      RecordsTerminalStep(run, calls)
      <==> RecordsTerminalStep(run, front) || (!last.0.Work() && Replay(run, front).status.Running?)
  {
    var front := calls[..|calls| - 1];
    forall i | 0 <= i < |front|
      ensures front[..i] == calls[..i] && front[i] == calls[i]
    {
    }
  }

  lemma {:induction false} DisciplineOrMisplaced(run: Run, calls: seq<(Call, Instant)>)
    requires run == NewRun(run.id, run.user, run.conversation, run.provider, run.model, run.limits)
    ensures if RecordsTerminalStep(run, calls) then Misplaced(Replay(run, calls)) else Replay(run, calls).Disciplined()
  {
    if calls != [] {
      var front, last := calls[..|calls| - 1], calls[|calls| - 1];
      var before := Replay(run, front);
      DisciplineOrMisplaced(run, front);
      EveryCallSequenceIsSound(run, front);
      RecordsInFront(run, calls);
      if RecordsTerminalStep(run, front) {
        MisplacedStays(before, last.0, last.1);
      } else if last.0.Work() {
        CallKeepsDiscipline(before, last.0, last.1);
      } else if before.status.Running? {
        RecordedByHandIsMisplaced(before, last.0, last.1);
      }
    }
  }

  /** A run keeps to one terminal step, and last, exactly when nobody records a terminal step by
      hand while it is running. */
  lemma DisciplineExactly(run: Run, calls: seq<(Call, Instant)>)
    requires run == NewRun(run.id, run.user, run.conversation, run.provider, run.model, run.limits)
    ensures Replay(run, calls).Disciplined() <==> !RecordsTerminalStep(run, calls)
  {
    DisciplineOrMisplaced(run, calls);
  }

  /** Terminal states absorb every call. */
  lemma {:induction false} TerminalRunsAbsorb(run: Run, calls: seq<(Call, Instant)>)
    requires run.status.Terminal()
    ensures Replay(run, calls) == run
  {
    if calls != [] {
      TerminalRunsAbsorb(run, calls[..|calls| - 1]);
    }
  }

  /** No budget strands a run: a run can be failed exactly while it is not terminal, and
      finished exactly while it is running and the answer is not blank. */
  lemma BudgetsNeverStrandARun(run: Run, response: string, usage: JsonObject, reason: string, now: Instant)
    ensures run.Fail(reason, now).Ok? <==> run.status.Pending? || run.status.Running?
    ensures run.Finish(response, usage, now).Ok? <==> run.status.Running? && !Text.Blank(response)
    ensures run.status.Running? ==>
              run.RecordStep(FinalResponse, usage, now).Ok? && run.RecordStep(ErrorStep, usage, now).Ok?
  {
  }

  /** An instance: whatever its budgets, a running run takes two terminal steps by hand, and
      still runs. */
  lemma TerminalStepsRecordedByHandEscape(run: Run, now: Instant)
    requires run.status.Running?
    ensures
      var once := Do(run, CallRecord(ErrorStep, map[]), now);
      var twice := Do(once, CallRecord(FinalResponse, map[]), now);
      twice.status.Running? && |twice.steps| == |run.steps| + 2 && !twice.Disciplined()
  {
  }

  /** The aggregate itself. */
  class AgentRun {
    const id: Id
    const user: Id
    const conversation: Id
    const provider: string
    const model: string
    const limits: AgentLimits
    var status: RunStatus
    var steps: seq<Step>
    var startedAt: Option<Instant>
    var finishedAt: Option<Instant>
    var failureReason: Option<string>
    var finalResponse: Option<string>
    var usageMetadata: JsonObject

    function Value(): Run
      reads this
    {
      Run(id, user, conversation, provider, model, limits,
          status, steps, startedAt, finishedAt, failureReason, finalResponse, usageMetadata)
    }

    constructor (run: Run)
      ensures Value() == run
    {
      id, user, conversation := run.id, run.user, run.conversation;
      provider, model, limits := run.provider, run.model, run.limits;
      status, steps, startedAt, finishedAt := run.status, run.steps, run.startedAt, run.finishedAt;
      failureReason, finalResponse, usageMetadata := run.failureReason, run.finalResponse, run.usage;
    }

    method Start(now: Instant) returns (r: Result<()>)
      modifies this`status, this`startedAt
      ensures Value() == Do(old(Value()), CallStart, now)
      ensures r == if old(status).Pending? then Ok(()) else Err(NOT_PENDING)
      ensures status == if r.Ok? then Running else old(status)
      ensures startedAt == if r.Ok? then Some(now) else old(startedAt)
    {
      if status != Pending {
        return Err(NOT_PENDING);
      }
      status := Running;
      startedAt := Some(now);
      return Ok(());
    }

    /** A recorded step carries the next index, its metadata and its instant.  It is refused by the
        status, the step budget or the tool budget, in this order; terminal steps have no budget. */
    method RecordStep(kind: StepType, metadata: JsonObject, now: Instant) returns (r: Result<()>)
      modifies this`steps
      ensures Value() == Do(old(Value()), CallRecord(kind, metadata), now)
      ensures r.Ok? <==> old(Value()).RecordStep(kind, metadata, now).Ok?
      ensures r == if !status.Running? then Err(NOT_RUNNING)
                   else if !kind.FinalResponse? && !kind.ErrorStep? && limits.maxSteps <= |old(steps)| then
                     Err(STEP_LIMIT)
                   else if kind.ToolCall? && limits.maxToolCalls <= |ToolPositions(old(steps))| then Err(TOOL_LIMIT)
                   else Ok(())
      ensures steps == old(steps) + if r.Ok? then [Step(id, |old(steps)| + 1, kind, metadata, now)] else []
    {
      if status != Running {
        return Err(NOT_RUNNING);
      }
      r := EnsureStepBudget(kind);
      if r.Ok? {
        steps := steps + [Step(id, |steps| + 1, kind, metadata, now)];
      }
    }

    method EnsureStepBudget(kind: StepType) returns (r: Result<()>)
      ensures r == Value().StepBudget(kind)
      ensures r == if !kind.FinalResponse? && !kind.ErrorStep? && limits.maxSteps <= |steps| then Err(STEP_LIMIT)
                   else if kind.ToolCall? && limits.maxToolCalls <= |ToolPositions(steps)| then Err(TOOL_LIMIT)
                   else Ok(())
    {
      ToolCallsCounts(steps);
      if kind.Terminal() {
        return Ok(());
      }
      if |steps| >= limits.maxSteps {
        return Err(STEP_LIMIT);
      }
      if kind == ToolCall && ToolCalls(steps) >= limits.maxToolCalls {
        return Err(TOOL_LIMIT);
      }
      return Ok(());
    }

    /** Finishing records the final step, the answer, its usage and the instant. */
    method Finish(response: string, usage: JsonObject, now: Instant) returns (r: Result<()>)
      modifies this
      ensures Value() == Do(old(Value()), CallFinish(response, usage), now)
      ensures r == if !old(status).Running? then Err(NOT_RUNNING)
                   else if Text.Blank(response) then Err(RESPONSE_REQUIRED)
                   else Ok(())
      ensures r.Err? ==> unchanged(this)
      ensures r.Ok? ==>
                && status == Succeeded && finalResponse == Some(response) && usageMetadata == usage
                && finishedAt == Some(now) && startedAt == old(startedAt) && failureReason == old(failureReason)
                && steps == old(steps) + [Step(id, |old(steps)| + 1, FinalResponse, map[], now)]
    {
      if status != Running {
        return Err(NOT_RUNNING);
      }
      if Text.Blank(response) {
        return Err(RESPONSE_REQUIRED);
      }
      r := RecordStep(FinalResponse, map[], now);
      status := Succeeded;
      finalResponse := Some(response);
      usageMetadata := usage;
      finishedAt := Some(now);
    }

    /** Failing records the reason and the instant, and on a running run one last step that says so. */
    method Fail(reason: string, now: Instant) returns (r: Result<()>)
      modifies this
      ensures Value() == Do(old(Value()), CallFail(reason), now)
      ensures r == if old(status).Pending? || old(status).Running? then Ok(()) else Err(RUN_TERMINAL)
      ensures r.Err? ==> unchanged(this)
      ensures r.Ok? ==>
                && status == Failed && failureReason == Some(reason) && finishedAt == Some(now)
                && startedAt == old(startedAt) && finalResponse == old(finalResponse)
                && usageMetadata == old(usageMetadata)
                && steps == old(steps)
                            + if old(status).Running?
                              then [Step(id, |old(steps)| + 1, ErrorStep, map["reason" := Text(reason)], now)] else []
    {
      if status == Succeeded || status == Failed || status == Cancelled {
        return Err(RUN_TERMINAL);
      }
      r := Ok(());
      if status == Running {
        r := RecordStep(ErrorStep, map["reason" := Text(reason)], now);
      }
      status := Failed;
      failureReason := Some(reason);
      finishedAt := Some(now);
    }
  }
}
