/** What callers are told, down to the fields: results that are true of the tables and of the model's
    own answer, decided keys that are answered from the record, and keys that do not touch each
    other. */
module Answers {
  import opened Common
  import opened Conversations
  import opened Runs
  import opened Tables
  import opened Turn
  import opened TurnTransactions
  import opened Protocol
  import opened Invariant
  import opened Effects
  import opened Preservation
  import opened Executions
  import opened Register
  import opened Progress
  import opened Takeovers
  import opened Completion
  import opened Conservation
  import opened Outcomes
  import RunStore
  import Text

  // ---- Returned results ----

  /** The result names, field by field, the message, the run and the usage that author `v` committed. */
  ghost predicate TrueOf(s: State, result: TurnResult, v: WorkerId, m: Message, run: Run) {
    && m in s.tables.messages && m.role.Assistant? && m.id in s.authors && s.authors[m.id] == v
    && OwnsRow(s, v, run.id) && RunStore.GetRun(s.tables.runs, run.id) == Some(run)
    && run.status.Succeeded? && run.finalResponse == Some(m.content)
    && result == TurnResult(run.id, run.conversation, m.id, m.content, Succeeded, run.usage)
  }

  lemma UnkeyedResult(s: State, w: WorkerId)
    requires WorkersOk(s) && w in s.workers && s.workers[w].pc.Returned? && s.workers[w].command.key.None?
    ensures s.workers[w].reply.Some? && s.workers[w].stored.Some?
    ensures TrueOf(s, s.workers[w].pc.result, w, s.workers[w].reply.value, s.workers[w].stored.value)
  {
    var k := s.workers[w];
    assert WorkerOk(s, w, k);
    RunStore.StoredIsRead(s.tables.runs, k.stored.value);
  }

  lemma AnswerIsTrue(s: State, key: RecordKey, m: Message)
    requires WorkersOk(s) && MessagesOk(s) && m in s.tables.messages && AnswerFor(s, key, m)
    ensures key in s.tables.records && FromStored(s.tables.records[key].result).Some?
    ensures s.workers[s.authors[m.id]].stored.Some?
    ensures TrueOf(s, FromStored(s.tables.records[key].result).value, s.authors[m.id], m,
                   s.workers[s.authors[m.id]].stored.value)
  {
    AnswerIsSettled(s, key, m);
  }

  lemma KeyedResult(s: State, w: WorkerId)
    requires WorkersOk(s) && w in s.workers && s.workers[w].pc.Returned? && s.workers[w].command.key.Some?
    ensures s.workers[w].Key() in s.tables.records && s.tables.records[s.workers[w].Key()].state == ClaimCompleted
    ensures FromStored(s.tables.records[s.workers[w].Key()].result) == Some(s.workers[w].pc.result)
  {
    assert WorkerOk(s, w, s.workers[w]);
    StoredRoundTrip(s.workers[w].pc.result);
  }

  lemma SameKeySameText(a: string, b: string)
    requires RecordKeyOf(a) == RecordKeyOf(b)
    ensures a == b
  {
  }

  /** Every result that is returned, computed or cached, with a key or without, is true: it names a
      stored answer, the stored run that succeeded with it, and that run's usage; and whoever committed
      them carried the very same key, or is the caller's own turn if it has none. */
  lemma ReturnedResultsAreTrue(e: Execution, n: nat, w: WorkerId) returns (v: WorkerId, m: Message, run: Run)
    requires e.Valid() && n < |e.states| && w in e.states[n].workers && e.states[n].workers[w].pc.Returned?
    ensures TrueOf(e.states[n], e.states[n].workers[w].pc.result, v, m, run)
    ensures v in e.states[n].workers && e.states[n].workers[v].command.key == e.states[n].workers[w].command.key
    ensures e.states[n].workers[w].command.key.None? ==> v == w
  {
    var s := e.states[n];
    ExecutionsAreSafe(e, n);
    if s.workers[w].command.key.None? {
      UnkeyedResult(s, w);
      v, m, run := w, s.workers[w].reply.value, s.workers[w].stored.value;
    } else {
      var key := s.workers[w].Key();
      KeyedResult(s, w);
      var i := CompletedIsAnswered(s, key);
      m := s.tables.messages[i];
      AnswerIsTrue(s, key, m);
      v := s.authors[m.id];
      run := s.workers[v].stored.value;
      SameKeySameText(s.workers[v].command.key.value, s.workers[w].command.key.value);
    }
  }

  // ---- The model's answer ----

  /** Step `q` gave worker `w` the content and usage it is about to settle. */
  predicate RepliesAt(e: Execution, q: nat, w: WorkerId, content: string, usage: Usage)
    requires q < |e.actions|
  {
    && e.actions[q].Answer? && e.actions[q].w == w && e.actions[q].response.Ok?
    && e.actions[q].response.value.toolCalls == 0 && e.actions[q].response.value.content.Some?
    && content == Text.Strip(e.actions[q].response.value.content.value) && content != ""
    && usage == e.actions[q].response.value.usage
  }

  lemma AnswersReply(s: State, w: WorkerId, response: Result<Response>)
    requires Enabled(s, Answer(w, response)) && DoAnswer(s, w, response).workers[w].pc.Replied?
    ensures response.Ok? && response.value.toolCalls == 0 && response.value.content.Some?
    ensures
      var pc := DoAnswer(s, w, response).workers[w].pc;
      pc.content == Text.Strip(response.value.content.value) && pc.content != "" && pc.usage == response.value.usage
  {
    AnswerIsJudged(response.value);
  }

  lemma CrashingIsNotReplying(s: State, w: WorkerId)
    requires w in s.workers
    ensures !Exit(s, w, Crashed).workers[w].pc.Replied?
  {
  }

  lemma OnlyAnswersReply(s: State, a: Action, s': State)
    requires Enabled(s, a) && AllEquipped(s) && s' == Apply(s, a) && Actor(a).Some? && a.w in s.workers
    requires Footprint(s, s', a.w) && s'.workers[a.w].pc.Replied?
    ensures a.Answer?
  {
    assert s.workers[a.w].pc.Calling?;
    if a.Crash? {
      CrashingIsNotReplying(s, a.w);
    }
  }

  lemma RepliedStep(e: Execution, n: nat, w: WorkerId)
    requires e.Valid() && n < |e.actions| && w in e.states[n + 1].workers && e.states[n + 1].workers[w].pc.Replied?
    ensures w in e.states[n].workers
    ensures
      var pc := e.states[n + 1].workers[w].pc;
      e.states[n].workers[w].pc == pc || RepliesAt(e, n, w, pc.content, pc.usage)
  {
    OneStep(e, n);
    RepliedIsEquipped(e.states[n + 1], w);
    if Actor(e.actions[n]).Some? {
      RepliedKept(e.states[n], e.states[n + 1], e.actions[n].w, w);
    }
    if Actor(e.actions[n]) == Some(w) {
      RepliedNow(e, n, w);
    }
  }

  lemma RepliedNow(e: Execution, n: nat, w: WorkerId)
    requires e.Valid() && n < |e.actions| && Actor(e.actions[n]) == Some(w) && w in e.states[n].workers
    requires w in e.states[n + 1].workers && e.states[n + 1].workers[w].pc.Replied?
    ensures RepliesAt(e, n, w, e.states[n + 1].workers[w].pc.content, e.states[n + 1].workers[w].pc.usage)
  {
    OneStep(e, n);
    OnlyAnswersReply(e.states[n], e.actions[n], e.states[n + 1]);
    AnswersReply(e.states[n], w, e.actions[n].response);
  }

  lemma RepliedKept(s: State, s': State, v: WorkerId, w: WorkerId)
    requires Footprint(s, s', v) && Adds(s, s', v) && w in s'.workers && s'.workers[w].stored.Some?
    ensures w in s.workers && (v != w ==> s.workers[w] == s'.workers[w])
  {
  }

  lemma {:induction false} RepliedSince(e: Execution, n: nat, w: WorkerId) returns (q: nat)
    requires e.Valid() && n < |e.states| && w in e.states[n].workers && e.states[n].workers[w].pc.Replied?
    ensures q < n && RepliesAt(e, q, w, e.states[n].workers[w].pc.content, e.states[n].workers[w].pc.usage)
  {
    q := n - 1;
    RepliedStep(e, n - 1, w);
    if e.states[n - 1].workers[w].pc == e.states[n].workers[w].pc {
      q := RepliedSince(e, n - 1, w);
    }
  }

  /** Step `p` committed the answer of worker `w`. */
  predicate AnsweredAt(e: Execution, p: nat, w: WorkerId, k: Worker)
    requires p < |e.actions| && p < |e.states|
  {
    && e.actions[p].Finish? && e.actions[p].w == w && w in e.states[p].workers
    && AnswerWritten(e.states[p].workers[w], k, e.actions[p].messageId, e.actions[p].stamp)
  }

  lemma FinishWrites(s: State, w: WorkerId, messageId: Id, stamp: Instant, fate: Fate, s': State)
    requires WorkersOk(s) && Enabled(s, Finish(w, messageId, stamp, fate)) && Equipped(s.workers[w])
    requires s' == DoFinish(s, w, messageId, stamp, fate) && w in s'.workers && s'.workers[w].Answered()
    ensures AnswerWritten(s.workers[w], s'.workers[w], messageId, stamp)
  {
    var k := s.workers[w];
    NoReplyYet(s, w);
    var concluded := Conclude(k.run.value, k.conversation.value, k.pc.content, k.pc.usage, stamp, messageId);
    FinishCases(s, w, messageId, stamp, fate, concluded);
    if concluded.Ok? {
      ConcludeShape(k.run.value, k.conversation.value, k.pc.content, k.pc.usage, stamp, messageId);
      ConclusionWritten(s, w, concluded.value, FinishTurn(s.tables, concluded.value, k.HeldClaim()), fate, s');
    }
  }

  /** What a worker holds once it has committed its answer. */
  predicate AnswerWritten(k: Worker, k': Worker, messageId: Id, stamp: Instant) {
    && k.pc.Replied? && k.stored.Some? && k'.stored.Some? && k'.reply.Some?
    && k'.reply.value.id == messageId && k'.reply.value.content == k.pc.content && k'.reply.value.createdAt == stamp
    && k'.stored.value == AsAnswered(k.stored.value, k.pc.content, k.pc.usage, stamp)
  }

  lemma ConclusionWritten(s: State, w: WorkerId, done: Conclusion, finished: Result<Tables>, fate: Fate, s': State)
    requires w in s.workers && !s.workers[w].Answered()
    requires s' == (if finished.Err? then Unfinish(s, w, done, finished.error)
                    else if fate == Lost then Unfinish(s, w, done, DATABASE_UNAVAILABLE)
                    else Finished(s, w, done, finished.value, fate))
    requires w in s'.workers && s'.workers[w].Answered()
    ensures s'.workers[w].reply == Some(done.message) && s'.workers[w].stored == Some(done.run)
  {
  }

  lemma SettledStays(s: State, s': State, v: WorkerId, w: WorkerId)
    requires WorkersOk(s) && Footprint(s, s', v) && Adds(s, s', v) && w in s'.workers && s'.workers[w].Answered()
    ensures w in s.workers
    ensures if s.workers[w].Answered() then
              s'.workers[w].stored == s.workers[w].stored && s'.workers[w].reply == s.workers[w].reply
            else v == w && s.workers[w].pc.Replied? && !s'.workers[w].pc.Crashed?
  {
    if w in s.workers && s.workers[w].Answered() {
      assert WorkerOk(s, w, s.workers[w]);
    }
  }

  lemma AnsweredStep(e: Execution, n: nat, w: WorkerId)
    requires e.Valid() && n < |e.actions| && w in e.states[n + 1].workers && e.states[n + 1].workers[w].Answered()
    ensures w in e.states[n].workers
    ensures if e.states[n].workers[w].Answered() then
              e.states[n + 1].workers[w].stored == e.states[n].workers[w].stored
              && e.states[n + 1].workers[w].reply == e.states[n].workers[w].reply
            else AnsweredAt(e, n, w, e.states[n + 1].workers[w])
  {
    OneStep(e, n);
    if Actor(e.actions[n]).Some? {
      SettledStays(e.states[n], e.states[n + 1], e.actions[n].w, w);
      if !e.states[n].workers[w].Answered() {
        var a := e.actions[n];
        FinishWrites(e.states[n], w, a.messageId, a.stamp, a.fate, e.states[n + 1]);
      }
    }
  }

  lemma {:induction false} AnsweredSince(e: Execution, n: nat, w: WorkerId) returns (p: nat)
    requires e.Valid() && n < |e.states| && w in e.states[n].workers && e.states[n].workers[w].Answered()
    ensures p < n && AnsweredAt(e, p, w, e.states[n].workers[w])
  {
    p := n - 1;
    AnsweredStep(e, n - 1, w);
    if e.states[n - 1].workers[w].Answered() {
      p := AnsweredSince(e, n - 1, w);
    }
  }

  /** What a turn answers is what the model said: the stored answer and the run's final response are the
      model's content without the spaces around it, and the run's usage is the model's token counts,
      each under its name. */
  lemma EveryAnswerIsTheModels(e: Execution, n: nat, w: WorkerId) returns (q: nat)
    requires e.Valid() && n < |e.states| && w in e.states[n].workers && e.states[n].workers[w].Answered()
    ensures q < n && e.actions[q].Answer? && e.actions[q].w == w && e.actions[q].response.Ok?
    ensures e.actions[q].response.value.content.Some? && e.actions[q].response.value.toolCalls == 0
    ensures
      var k, response := e.states[n].workers[w], e.actions[q].response.value;
      && k.reply.Some? && k.reply.value.content == Text.Strip(response.content.value)
      && k.stored.value.finalResponse == Some(k.reply.value.content)
      && k.stored.value.usage.Keys == {"input_tokens", "output_tokens", "total_tokens"}
      && k.stored.value.usage["input_tokens"] == Number(response.usage.inputTokens)
      && k.stored.value.usage["output_tokens"] == Number(response.usage.outputTokens)
      && k.stored.value.usage["total_tokens"] == Number(response.usage.totalTokens)
  {
    var p := AnsweredSince(e, n, w);
    q := RepliedSince(e, p, w);
  }

  // ---- Keys that are decided, or busy ----

  lemma RowsAreTold(s: State, w: WorkerId)
    requires WorkersOk(s) && RecordsOk(s) && w in s.workers && s.workers[w].pc.Observed?
    ensures
      var row, pc := s.workers[w].pc.row, DoJudge(s, w).workers[w].pc;
      match row.state
      case ClaimCompleted =>
        pc.Returned? && ToStored(pc.result) == row.result && FromStored(row.result) == Some(pc.result)
      case ClaimFailed => pc.PreviouslyFailed?
      case ClaimStarted =>
        pc == if s.now - row.claimedAt < 300_000_000 then Raised(IN_PROGRESS) else Swapping(row, s.now)
  {
    assert WorkerOk(s, w, s.workers[w]);
    if s.workers[w].pc.row.state.ClaimCompleted? {
      CompletedDecodes(s, s.workers[w].Key());
    }
  }

  /** Who reads a COMPLETED row is given the result that is stored in it, who reads a FAILED one is told
      so, and who reads a STARTED one is refused for as long as its claim is younger than the
      time-to-live of 300 seconds, and only so long. */
  lemma JudgesTellTheRow(e: Execution, n: nat, w: WorkerId)
    requires e.Valid() && n < |e.actions| && e.actions[n] == Judge(w)
    ensures w in e.states[n].workers && e.states[n].workers[w].pc.Observed? && w in e.states[n + 1].workers
    ensures
      var row, pc := e.states[n].workers[w].pc.row, e.states[n + 1].workers[w].pc;
      match row.state
      case ClaimCompleted =>
        pc.Returned? && ToStored(pc.result) == row.result && FromStored(row.result) == Some(pc.result)
      case ClaimFailed => pc.PreviouslyFailed?
      case ClaimStarted =>
        pc == if e.states[n].now - row.claimedAt < 300_000_000 then Raised(IN_PROGRESS)
              else Swapping(row, e.states[n].now)
  {
    OneStep(e, n);
    RowsAreTold(e.states[n], w);
  }

  lemma CheckedTells(t: Tables, c: Command, systemPrompt: string, env: Environment)
    requires Keyed(c) && KeyOf(c) in t.records && env.claimFate.Applied?
    ensures
      var row, out := t.records[KeyOf(c)], Executed(t, c, systemPrompt, env);
      && (row.state == ClaimCompleted && FromStored(row.result).Some? ==>
            out == Outcome(t, Ok(FromStored(row.result).value)))
      && (row.state == ClaimFailed ==> out == Outcome(t, Err(PREVIOUS_FAILED)))
  {
  }

  /** The instants and ids of an execution that happens at once. */
  function AtOnce(at: Instant, id: Id): Environment {
    Smooth(at, id, Response(None, 0, Usage(0, 0, 0)))
  }

  lemma CompletedHere(e: Execution, c: Command)
    requires e.Valid() && Keyed(c) && KeyIs(EndOf(e), c, ClaimCompleted)
    ensures FromStored(EndOf(e).tables.records[KeyOf(c)].result).Some?
  {
    ExecutionsAreSafe(e, |e.actions|);
    CompletedDecodes(EndOf(e), KeyOf(c));
  }

  /** Every execution at a COMPLETED key goes on to one in which a new worker has returned the result
      that is stored there, and at a FAILED one to one in which a new worker was told that the previous
      attempt failed; no table changes. */
  lemma DecidedKeysAreTold(e: Execution, c: Command) returns (e': Execution, w: WorkerId)
    requires e.Valid() && Keyed(c) && (KeyIs(EndOf(e), c, ClaimCompleted) || KeyIs(EndOf(e), c, ClaimFailed))
    ensures e'.Valid() && Continues(e', e, |e.actions|) && EndOf(e').tables == EndOf(e).tables
    ensures w !in EndOf(e).workers && w in EndOf(e').workers
    ensures
      var row, pc := EndOf(e).tables.records[KeyOf(c)], EndOf(e').workers[w].pc;
      if row.state == ClaimCompleted then pc.Returned? && FromStored(row.result) == Some(pc.result)
      else pc.PreviouslyFailed? || pc == Raised(PREVIOUS_FAILED)
  {
    var s := EndOf(e);
    var id := Beyond(s.issued);
    w := Beyond(s.workers.Keys);
    SmoothIsNew(s, s.now, id, Response(None, 0, Usage(0, 0, 0)));
    if KeyIs(s, c, ClaimCompleted) {
      CompletedHere(e, c);
    }
    CheckedTells(s.tables, c, s.prompt, AtOnce(s.now, id));
    e' := ExecuteHere(e, w, c, AtOnce(s.now, id));
  }

  // ---- One key does not touch another ----

  /** Nothing is written under record key `key`. */
  predicate Untouched(before: Records, after: Records, key: RecordKey) {
    (key in after <==> key in before) && (key in before ==> after[key] == before[key])
  }

  /** `key` is not the record key of the command. */
  predicate Foreign(c: Command, key: RecordKey) {
    c.key.Some? ==> key != RecordKey("agent_run", c.key.value)
  }

  predicate ClaimsOnly(c: Command, claim: Option<Claim>) {
    claim.Some? ==> c.key == Some(claim.value.key)
  }

  lemma FailedTurnIsForeign(
    t: Tables, run: Run, c: Command, claim: Option<Claim>, error: Error, env: Environment, key: RecordKey)
    requires ClaimsOnly(c, claim) && Foreign(c, key)
    ensures Untouched(t.records, FailedTurn(t, run, claim, error, env).tables.records, key)
  {
    if SettleFailedRun(t, run, error.message, env.failedAt).Ok? {
      SettleRunWritesRuns(t, run, error.message, env.failedAt);
    }
  }

  lemma FinishIsForeign(t: Tables, done: Conclusion, c: Command, claim: Option<Claim>, key: RecordKey)
    requires ClaimsOnly(c, claim) && Foreign(c, key) && FinishTurn(t, done, claim).Ok?
    ensures Untouched(t.records, FinishTurn(t, done, claim).value.records, key)
  {
    FinishSettlesRecords(t, done, claim);
  }

  lemma AnsweredTurnIsForeign(
    t: Tables, start: Start, content: string, usage: Usage, c: Command, claim: Option<Claim>, env: Environment,
    key: RecordKey)
    requires ClaimsOnly(c, claim) && Foreign(c, key)
    ensures Untouched(t.records, AnsweredTurn(t, start, content, usage, claim, env).tables.records, key)
  {
    var concluded := Conclude(start.run, start.conversation, content, usage, env.answeredAt, env.answerId);
    if concluded.Err? {
      FailedTurnIsForeign(t, start.run, c, claim, concluded.error, env, key);
    } else {
      var tables := FinishTurn(t, concluded.value, claim);
      var left := Committed(t, tables, env.answerFate);
      if tables.Ok? {
        FinishIsForeign(t, concluded.value, c, claim, key);
      }
      if RaisedBy(tables, env.answerFate).Some? {
        FailedTurnIsForeign(left, concluded.value.run, c, claim, RaisedBy(tables, env.answerFate).value, env, key);
      }
    }
  }

  lemma StartedTurnIsForeign(
    t: Tables, c: Command, systemPrompt: string, text: string, claim: Option<Claim>, env: Environment, key: RecordKey)
    requires ClaimsOnly(c, claim) && Foreign(c, key)
    ensures Untouched(t.records, StartedTurn(t, c, systemPrompt, text, claim, env).tables.records, key)
  {
    var start := StartTurn(t, c, text, env.startedAt, env.messageId, env.runId);
    if start.Ok? {
      StartLeavesRecords(t, c, text, env.startedAt, env.messageId, env.runId);
      if env.startFate == Applied {
        var left := start.value.tables;
        match ReplyOf(c, systemPrompt, start.value, env)
        case Err(e) => FailedTurnIsForeign(left, start.value.run, c, claim, e, env, key);
        case Ok(reply) => AnsweredTurnIsForeign(left, start.value, reply.0, reply.1, c, claim, env, key);
      }
    }
  }

  /** An execution writes no idempotency record but the one of its own namespace and key. */
  lemma ExecutedLeavesOtherKeys(t: Tables, c: Command, systemPrompt: string, env: Environment, key: RecordKey)
    requires Foreign(c, key)
    ensures Untouched(t.records, Executed(t, c, systemPrompt, env).tables.records, key)
  {
    if ValidateInput(c).Ok? {
      var text := ValidateInput(c).value;
      if c.key.None? {
        StartedTurnIsForeign(t, c, systemPrompt, text, None, env, key);
      } else {
        var checked, left := CheckedKey(t, c.key.value, env), CheckedTables(t, RecordKeyOf(c.key.value), env);
        if checked.Ok? && checked.value.Owned? {
          StartedTurnIsForeign(left, c, systemPrompt, text, Some(checked.value.claim), env, key);
        }
      }
    }
  }

  /** Neither does any step of a worker. */
  lemma StepsLeaveOtherKeys(e: Execution, n: nat, w: WorkerId, key: RecordKey)
    requires e.Valid() && n < |e.actions| && Actor(e.actions[n]) == Some(w)
    ensures w in e.states[n + 1].workers
    ensures Foreign(e.states[n + 1].workers[w].command, key) ==>
              && Untouched(e.states[n].tables.records, e.states[n + 1].tables.records, key)
              && e.states[n + 1].ClaimsOf(key) == e.states[n].ClaimsOf(key)
  {
    OneStep(e, n);
    if Foreign(e.states[n + 1].workers[w].command, key) {
      assert !e.states[n + 1].workers[w].Carries(key);
    }
  }

  /** A key that has no record of its own can be claimed at once, whatever other keys hold. */
  lemma FreshKeysAreClaimed(e: Execution, c: Command) returns (e': Execution, w: WorkerId)
    requires e.Valid() && Keyed(c) && RecordKey("agent_run", c.key.value) !in EndOf(e).tables.records
    ensures e'.Valid() && Continues(e', e, |e.actions|)
    ensures w !in EndOf(e).workers && w in EndOf(e').workers && OwnsClaim(EndOf(e'), w)
    ensures EndOf(e').workers[w].pc.Starting? && EndOf(e').workers[w].command == c
  {
    var id := Beyond(EndOf(e).issued);
    w := Beyond(EndOf(e).workers.Keys);
    e' := FirstClaim(e, w, c, id, id + 1);
  }

  // ---- The deadline ----

  lemma PromptTells(s: State, w: WorkerId)
    requires Enabled(s, Prompt(w)) && s.workers[w].conversation.Some? && s.workers[w].run.Some?
    requires s.workers[w].run.value.startedAt.Some?
    ensures
      var k, pc := s.workers[w], DoPrompt(s, w).workers[w].pc;
      var built := BuildRequest(k.command, s.prompt, k.conversation.value);
      pc == if built.Err? then FailingRun(built.error)
            else if k.run.value.limits.maxExecutionSeconds * 1_000_000 <= s.now - k.run.value.startedAt.value then
              FailingRun(DEADLINE_EXCEEDED)
            else Calling(built.value)
  {
  }

  lemma PrompterOk(s: State, w: WorkerId)
    requires WorkersOk(s) && w in s.workers && s.workers[w].pc.Prompting?
    ensures s.workers[w].conversation.Some? && s.workers[w].stored.Some? && s.workers[w].run == s.workers[w].stored
  {
    assert WorkerOk(s, w, s.workers[w]);
  }

  lemma AskedWhenStarted(e: Execution, n: nat, w: WorkerId)
    requires e.Valid() && n < |e.states| && w in e.states[n].workers && e.states[n].workers[w].stored.Some?
    ensures e.states[n].workers[w].input.Some?
    ensures e.states[n].workers[w].stored.value.startedAt == Some(e.states[n].workers[w].input.value.createdAt)
    ensures e.states[n].workers[w].stored.value.limits == e.states[n].workers[w].command.limits
  {
    OriginsAreKnown(e, n);
    assert OpenedOk(e.states[n], w, e.states[n].workers[w]);
    var m := OpenedSometime(e, n, w);
    StartedRunAt(e, m, e.states[n].workers[w], w);
  }

  /** The model is called exactly when the request can be built and less than `max_execution_seconds`
      have passed since the turn's question was stamped; otherwise the turn fails, and says why. */
  lemma CallsStartInTime(e: Execution, n: nat, w: WorkerId)
    requires e.Valid() && n < |e.actions| && e.actions[n] == Prompt(w)
    ensures w in e.states[n].workers && w in e.states[n + 1].workers
    ensures e.states[n].workers[w].input.Some? && e.states[n].workers[w].conversation.Some?
    ensures
      var s, k := e.states[n], e.states[n].workers[w];
      var built := BuildRequest(k.command, s.prompt, k.conversation.value);
      e.states[n + 1].workers[w].pc
      == if built.Err? then FailingRun(built.error)
         else if k.command.limits.maxExecutionSeconds * 1_000_000 <= s.now - k.input.value.createdAt then
           FailingRun(DEADLINE_EXCEEDED)
         else Calling(built.value)
  {
    OneStep(e, n);
    PrompterOk(e.states[n], w);
    AskedWhenStarted(e, n, w);
    PromptTells(e.states[n], w);
  }
}
