/** The idempotency records as a write-once register: each key goes once from undecided to
    completed or failed, and every answer a caller gets agrees with it. */
module Register {
  import opened Common
  import opened Conversations
  import opened Runs
  import opened Tables
  import opened Turn
  import opened Protocol
  import opened Invariant
  import opened Effects
  import opened Executions
  import opened Preservation
  import Idempotency
  import RunStore

  datatype Decision = Completed(result: TurnResult) | FailedWith(details: JsonObject)

  function DecisionOf(record: Record): Option<Decision> {
    match record.state
    case ClaimStarted => None
    case ClaimCompleted =>
      (match FromStored(record.result) case Some(result) => Some(Completed(result)) case None => None)
    case ClaimFailed => Some(FailedWith(record.result))
  }

  type Decisions = map<RecordKey, Decision>

  function RegisterOf(records: Records): Decisions {
    map key | key in records && DecisionOf(records[key]).Some? :: DecisionOf(records[key]).value
  }

  // ---- The write-once specification ----

  datatype Op = Stutter | Decide(key: RecordKey, decision: Decision)

  predicate WritesOnce(r: Decisions, r': Decisions, op: Op) {
    match op
    case Stutter => r' == r
    case Decide(key, decision) => key !in r && r' == r[key := decision]
  }

  predicate OwnsClaim(s: State, w: WorkerId) {
    && w in s.workers && s.workers[w].HeldClaim().Some?
    && Idempotency.Holds(s.tables.records, s.workers[w].Key(), s.workers[w].token.value)
  }

  /** The register operation that a step performs. */
  function OpOf(s: State, a: Action, s': State): Op {
    if a.Finish? && OwnsClaim(s, a.w)
       && a.w in s'.workers && s'.workers[a.w].Answered() && s'.workers[a.w].reply.Some? then
      Decide(s.workers[a.w].Key(), Completed(ResultOf(s'.workers[a.w].stored.value, s'.workers[a.w].reply.value)))
    else if a.SettleClaim? && OwnsClaim(s, a.w) && a.fate != Lost && s.workers[a.w].pc.FailingClaim? then
      Decide(s.workers[a.w].Key(), FailedWith(map["reason" := Json.Text(s.workers[a.w].pc.error.message)]))
    else Stutter
  }

  lemma SettledOnce(records: Records, key: RecordKey, record: Record)
    requires key in records && records[key].state.ClaimStarted? && DecisionOf(record).Some?
    ensures WritesOnce(RegisterOf(records), RegisterOf(records[key := record]), Decide(key, DecisionOf(record).value))
  {
  }

  lemma InsertDecidesNothing(s: State, w: WorkerId, id: Id, token: Id, stamp: Instant, fate: Fate)
    requires w in s.workers && s.workers[w].command.key.Some?
    ensures RegisterOf(DoInsert(s, w, id, token, stamp, fate).tables.records) == RegisterOf(s.tables.records)
  {
  }

  lemma SwapDecidesNothing(s: State, w: WorkerId, token: Id, stamp: Instant, fate: Fate)
    requires w in s.workers && s.workers[w].pc.Swapping? && s.workers[w].command.key.Some?
    ensures RegisterOf(DoSwap(s, w, token, stamp, fate).tables.records) == RegisterOf(s.tables.records)
  {
  }

  lemma OpenLeavesRecords(s: State, w: WorkerId, messageId: Id, runId: Id, stamp: Instant, fate: Fate)
    requires w in s.workers
    ensures DoOpen(s, w, messageId, runId, stamp, fate).tables.records == s.tables.records
  {
    var k := s.workers[w];
    if StartTurn(s.tables, k.command, k.text, stamp, messageId, runId).Ok? {
      StartLeavesRecords(s.tables, k.command, k.text, stamp, messageId, runId);
    }
  }

  lemma SettleRunLeaves(s: State, w: WorkerId, fate: Fate)
    requires w in s.workers && s.workers[w].pc.FailingRun? && s.workers[w].run.Some? && s.workers[w].stored.Some?
    ensures DoSettleRun(s, w, fate).tables.records == s.tables.records
  {
    var k := s.workers[w];
    var settled := SettleFailedRun(s.tables, k.run.value, k.pc.error.message, s.now);
    SettleRunCases(s, w, fate, settled);
    if settled.Ok? {
      SettleRunWritesRuns(s.tables, k.run.value, k.pc.error.message, s.now);
    }
  }

  lemma OtherStepsLeaveRecords(s: State, a: Action)
    requires Enabled(s, a) && AllEquipped(s)
    requires !a.InsertRow? && !a.Swap? && !a.OpenTurn? && !a.Finish? && !a.SettleRun? && !a.SettleClaim?
    ensures Apply(s, a).tables.records == s.tables.records
  {
  }

  /** No step but a settlement of an owned claim decides anything. */
  lemma UndecidedSteps(s: State, a: Action)
    requires Enabled(s, a) && AllEquipped(s) && !a.Finish? && !a.SettleClaim?
    requires a.Swap? || a.InsertRow? ==> s.workers[a.w].command.key.Some?
    ensures RegisterOf(Apply(s, a).tables.records) == RegisterOf(s.tables.records)
  {
    if a.InsertRow? {
      InsertDecidesNothing(s, a.w, a.id, a.token, a.stamp, a.fate);
    } else if a.Swap? {
      SwapDecidesNothing(s, a.w, a.token, a.stamp, a.fate);
    } else if a.OpenTurn? {
      OpenLeavesRecords(s, a.w, a.messageId, a.runId, a.stamp, a.fate);
    } else if a.SettleRun? {
      SettleRunLeaves(s, a.w, a.fate);
    } else {
      OtherStepsLeaveRecords(s, a);
    }
  }

  lemma FinishedDecides(s: State, w: WorkerId, done: Conclusion, tables: Tables, fate: Fate)
    requires w in s.workers && s.workers[w].pc.Replied?
    requires done.run.status.Succeeded? && done.result == ResultOf(done.run, done.message)
    requires FinishTurn(s.tables, done, s.workers[w].HeldClaim()) == Ok(tables)
    ensures WritesOnce(RegisterOf(s.tables.records), RegisterOf(tables.records),
                       OpOf(s, Finish(w, done.message.id, done.message.createdAt, fate),
                            Finished(s, w, done, tables, fate)))
  {
    var k := s.workers[w];
    FinishSettlesRecords(s.tables, done, k.HeldClaim());
    if k.HeldClaim().Some? {
      StoredRoundTrip(done.result);
      SettledOnce(s.tables.records, k.Key(), tables.records[k.Key()]);
    }
  }

  lemma FinishRefines(s: State, w: WorkerId, messageId: Id, stamp: Instant, fate: Fate)
    requires WorkersOk(s) && Enabled(s, Finish(w, messageId, stamp, fate)) && Equipped(s.workers[w])
    ensures
      var s' := DoFinish(s, w, messageId, stamp, fate);
      WritesOnce(RegisterOf(s.tables.records), RegisterOf(s'.tables.records),
                 OpOf(s, Finish(w, messageId, stamp, fate), s'))
  {
    NoReplyYet(s, w);
    var k := s.workers[w];
    var concluded := Conclude(k.run.value, k.conversation.value, k.pc.content, k.pc.usage, stamp, messageId);
    FinishCases(s, w, messageId, stamp, fate, concluded);
    if concluded.Ok? {
      ConcludesAnswer(s, w, messageId, stamp, concluded.value);
      ConcludedRefines(s, w, concluded.value, FinishTurn(s.tables, concluded.value, k.HeldClaim()), fate,
                       DoFinish(s, w, messageId, stamp, fate));
    } else {
      RefusalDecidesNothing(s, w, messageId, stamp, fate, concluded.error);
    }
  }

  lemma ConcludesAnswer(s: State, w: WorkerId, messageId: Id, stamp: Instant, done: Conclusion)
    requires w in s.workers && s.workers[w].pc.Replied? && s.workers[w].stored.Some?
    requires s.workers[w].conversation.Some? && s.workers[w].run == s.workers[w].stored
    requires s.workers[w].stored.value.status.Running?
    requires Conclude(s.workers[w].run.value, s.workers[w].conversation.value, s.workers[w].pc.content,
                      s.workers[w].pc.usage, stamp, messageId) == Ok(done)
    ensures done.run.status.Succeeded? && done.result == ResultOf(done.run, done.message)
    ensures done.message.id == messageId && done.message.createdAt == stamp
  {
    var k := s.workers[w];
    ConcludeShape(k.run.value, k.conversation.value, k.pc.content, k.pc.usage, stamp, messageId);
  }

  lemma RefusalDecidesNothing(s: State, w: WorkerId, messageId: Id, stamp: Instant, fate: Fate, error: Error)
    requires w in s.workers && !s.workers[w].Answered()
    ensures
      var s' := Exit(s, w, FailingRun(error));
      s'.tables == s.tables && OpOf(s, Finish(w, messageId, stamp, fate), s') == Stutter
  {
  }

  lemma ConcludedRefines(s: State, w: WorkerId, done: Conclusion, finished: Result<Tables>, fate: Fate, s': State)
    requires w in s.workers && s.workers[w].pc.Replied? && !s.workers[w].Answered()
    requires done.run.status.Succeeded? && done.result == ResultOf(done.run, done.message)
    requires finished == FinishTurn(s.tables, done, s.workers[w].HeldClaim())
    requires s' == (if finished.Err? then Unfinish(s, w, done, finished.error)
                    else if fate == Lost then Unfinish(s, w, done, DATABASE_UNAVAILABLE)
                    else Finished(s, w, done, finished.value, fate))
    ensures WritesOnce(RegisterOf(s.tables.records), RegisterOf(s'.tables.records),
                       OpOf(s, Finish(w, done.message.id, done.message.createdAt, fate), s'))
  {
    if finished.Ok? && fate != Lost {
      FinishedDecides(s, w, done, finished.value, fate);
    } else {
      UnfinishedDecidesNothing(s, w, done, if finished.Err? then finished.error else DATABASE_UNAVAILABLE, fate);
    }
  }

  lemma UnfinishedDecidesNothing(s: State, w: WorkerId, done: Conclusion, error: Error, fate: Fate)
    requires w in s.workers && !s.workers[w].Answered()
    ensures
      var s' := Unfinish(s, w, done, error);
      s'.tables == s.tables && OpOf(s, Finish(w, done.message.id, done.message.createdAt, fate), s') == Stutter
  {
  }

  lemma SettleClaimRefines(s: State, w: WorkerId, fate: Fate)
    requires Enabled(s, SettleClaim(w, fate)) && s.workers[w].HeldClaim().Some?
    ensures
      var s' := DoSettleClaim(s, w, fate);
      WritesOnce(RegisterOf(s.tables.records), RegisterOf(s'.tables.records), OpOf(s, SettleClaim(w, fate), s'))
  {
  }

  lemma ApplyRefines(s: State, a: Action)
    requires WorkersOk(s) && Enabled(s, a) && AllEquipped(s)
    ensures WritesOnce(RegisterOf(s.tables.records), RegisterOf(Apply(s, a).tables.records), OpOf(s, a, Apply(s, a)))
  {
    if a.Finish? {
      FinishRefines(s, a.w, a.messageId, a.stamp, a.fate);
    } else if a.SettleClaim? {
      SettleClaimRefines(s, a.w, a.fate);
    } else {
      UndecidedSteps(s, a);
    }
  }

  /** Every step of the protocol refines one operation of the register. */
  lemma StepRefinesRegister(s: State, a: Action, s': State)
    requires Inv(s) && Next(s, a, s')
    ensures WritesOnce(RegisterOf(s.tables.records), RegisterOf(s'.tables.records), OpOf(s, a, s'))
  {
    OkMeansEquipped(s);
    ApplyRefines(s, a);
  }

  // ---- Over whole executions ----

  lemma LaterDecisions(s: State, s': State, key: RecordKey)
    requires RecordsLater(s, s') && key in RegisterOf(s.tables.records)
    ensures key in RegisterOf(s'.tables.records)
    ensures RegisterOf(s'.tables.records)[key] == RegisterOf(s.tables.records)[key]
  {
  }

  /** Every execution refines the write-once register: the system starts undecided, each step is
      one register operation, and a decision never changes. */
  lemma ExecutionsRefineRegister(e: Execution, i: nat, j: nat)
    requires e.Valid() && i <= j < |e.states|
    ensures RegisterOf(e.states[0].tables.records) == map[]
    ensures j < |e.actions| ==>
              WritesOnce(RegisterOf(e.states[j].tables.records), RegisterOf(e.states[j + 1].tables.records),
                         OpOf(e.states[j], e.actions[j], e.states[j + 1]))
    ensures forall key :: key in RegisterOf(e.states[i].tables.records) ==>
              key in RegisterOf(e.states[j].tables.records)
              && RegisterOf(e.states[j].tables.records)[key] == RegisterOf(e.states[i].tables.records)[key]
  {
    DecisionsStay(e, i, j);
    if j < |e.actions| {
      StepOfExecutionRefines(e, j);
    }
  }

  lemma DecisionsStay(e: Execution, i: nat, j: nat)
    requires e.Valid() && i <= j < |e.states|
    ensures forall key :: key in RegisterOf(e.states[i].tables.records) ==>
              key in RegisterOf(e.states[j].tables.records)
              && RegisterOf(e.states[j].tables.records)[key] == RegisterOf(e.states[i].tables.records)[key]
  {
    RecordsStay(e, i, j);
    forall key | key in RegisterOf(e.states[i].tables.records)
      ensures key in RegisterOf(e.states[j].tables.records)
      ensures RegisterOf(e.states[j].tables.records)[key] == RegisterOf(e.states[i].tables.records)[key]
    {
      LaterDecisions(e.states[i], e.states[j], key);
    }
  }

  lemma StepOfExecutionRefines(e: Execution, n: nat)
    requires e.Valid() && n < |e.actions|
    ensures WritesOnce(RegisterOf(e.states[n].tables.records), RegisterOf(e.states[n + 1].tables.records),
                       OpOf(e.states[n], e.actions[n], e.states[n + 1]))
  {
    ExecutionsAreSafe(e, n);
    StepRefinesRegister(e.states[n], e.actions[n], e.states[n + 1]);
  }

  lemma ReplyAgrees(s: State, w: WorkerId)
    requires WorkersOk(s) && w in s.workers && s.workers[w].command.key.Some?
    ensures
      var k := s.workers[w];
      var register := RegisterOf(s.tables.records);
      && (k.pc.Returned? ==> k.Key() in register && register[k.Key()] == Completed(k.pc.result))
      && (k.pc.PreviouslyFailed? ==> k.Key() in register && register[k.Key()].FailedWith?)
  {
    assert WorkerOk(s, w, s.workers[w]);
    if s.workers[w].pc.Returned? {
      StoredRoundTrip(s.workers[w].pc.result);
    }
  }

  /** Whatever a caller with a key was told agrees with the register, then and at any later
      time: a result is the decided result, and "a previous attempt failed" is a decided failure. */
  lemma RepliesAgreeWithRegister(e: Execution, i: nat, j: nat, w: WorkerId)
    requires e.Valid() && i <= j < |e.states|
    requires w in e.states[i].workers && e.states[i].workers[w].command.key.Some?
    ensures
      var k := e.states[i].workers[w];
      var register := RegisterOf(e.states[j].tables.records);
      && (k.pc.Returned? ==> k.Key() in register && register[k.Key()] == Completed(k.pc.result))
      && (k.pc.PreviouslyFailed? ==> k.Key() in register && register[k.Key()].FailedWith?)
  {
    TimeOnlyAdds(e, i, j);
    ReplyAgrees(e.states[i], w);
    var k := e.states[i].workers[w];
    if k.pc.Returned? || k.pc.PreviouslyFailed? {
      LaterDecisions(e.states[i], e.states[j], k.Key());
    }
  }

  /** All successful executions with the same key return equal results, whoever runs them and
      whenever, computed or decoded from the store. */
  lemma SameKeySameResult(e: Execution, i: nat, j: nat, v: WorkerId, w: WorkerId)
    requires e.Valid() && i <= j < |e.states|
    requires v in e.states[i].workers && e.states[i].workers[v].pc.Returned?
    requires w in e.states[j].workers && e.states[j].workers[w].pc.Returned?
    requires e.states[i].workers[v].command.key.Some?
    requires e.states[i].workers[v].command.key == e.states[j].workers[w].command.key
    ensures e.states[i].workers[v].pc.result == e.states[j].workers[w].pc.result
  {
    RepliesAgreeWithRegister(e, i, j, v);
    RepliesAgreeWithRegister(e, j, j, w);
  }

  // ---- Exactly one answer ----

  /** The positions of the assistant messages that were committed for a key. */
  function AnswersFor(s: State, key: RecordKey): set<nat> {
    set i: nat | i < |s.tables.messages| && AnswerFor(s, key, s.tables.messages[i])
  }

  predicate AnswerFor(s: State, key: RecordKey, m: Message) {
    && m.role.Assistant?
    && m.id in s.authors && s.authors[m.id] in s.workers
    && s.workers[s.authors[m.id]].Carries(key)
  }

  /** The row, the answer, and the run that a completed key names: its result is decoded field by
      field to theirs. */
  ghost predicate NamedBy(s: State, key: RecordKey, m: Message, run: Run)
    requires key in s.tables.records
  {
    && FromStored(s.tables.records[key].result)
       == Some(TurnResult(run.id, run.conversation, m.id, m.content, Succeeded, run.usage))
    && m.conversation == run.conversation
    && RunStore.GetRun(s.tables.runs, run.id) == Some(run) && run.status.Succeeded? && AnsweredTrace(run, m)
  }

  lemma AnswerIsSettled(s: State, key: RecordKey, m: Message)
    requires WorkersOk(s) && MessagesOk(s)
    requires m in s.tables.messages && AnswerFor(s, key, m)
    ensures
      var k := s.workers[s.authors[m.id]];
      && k.reply == Some(m) && k.stored.Some?
      && key in s.tables.records && s.tables.records[key].state == ClaimCompleted
      && k.token == Some(s.tables.records[key].token)
      && NamedBy(s, key, m, k.stored.value)
  {
    assert MessageOk(s, m);
    var w := s.authors[m.id];
    assert WorkerOk(s, w, s.workers[w]);
    RunStore.StoredIsRead(s.tables.runs, s.workers[w].stored.value);
    StoredRoundTrip(ResultOf(s.workers[w].stored.value, m));
  }

  lemma AtMostOneAnswer(s: State, key: RecordKey, i: nat, j: nat)
    requires WorkersOk(s) && MessagesOk(s) && Separate(s)
    requires i in AnswersFor(s, key) && j in AnswersFor(s, key)
    ensures i == j
  {
    var a, b := s.tables.messages[i], s.tables.messages[j];
    AnswerIsSettled(s, key, a);
    AnswerIsSettled(s, key, b);
    assert s.authors[a.id] == s.authors[b.id];
    assert a == b;
  }

  lemma CompletedIsAnswered(s: State, key: RecordKey) returns (i: nat)
    requires WorkersOk(s) && RecordsOk(s) && key in s.tables.records && s.tables.records[key].state == ClaimCompleted
    ensures i in AnswersFor(s, key)
  {
    assert RecordOk(s, key);
    var w := LastClaim(s, key).owner;
    assert WorkerOk(s, w, s.workers[w]);
    i :| 0 <= i < |s.tables.messages| && s.tables.messages[i] == s.workers[w].reply.value;
  }

  /** Exactly-once: whatever takeovers happened, the assistant messages committed for a key are
      one if its record is completed, which then names exactly that message and a run that
      succeeded, and none otherwise. */
  lemma ExactlyOneAnswer(s: State, key: RecordKey)
    requires WorkersOk(s) && RecordsOk(s) && MessagesOk(s) && Separate(s)
    ensures key !in s.tables.records || s.tables.records[key].state != ClaimCompleted ==> AnswersFor(s, key) == {}
    ensures key in s.tables.records && s.tables.records[key].state == ClaimCompleted ==>
              exists i, run :: AnswersFor(s, key) == {i} && NamedBy(s, key, s.tables.messages[i], run)
  {
    forall i | i in AnswersFor(s, key)
      ensures key in s.tables.records && s.tables.records[key].state == ClaimCompleted
    {
      AnswerIsSettled(s, key, s.tables.messages[i]);
    }
    if key in s.tables.records && s.tables.records[key].state == ClaimCompleted {
      var i := CompletedIsAnswered(s, key);
      AnswerIsSettled(s, key, s.tables.messages[i]);
      forall j | j in AnswersFor(s, key)
        ensures j == i
      {
        AtMostOneAnswer(s, key, i, j);
      }
      assert AnswersFor(s, key) == {i};
    }
  }

  lemma AnswersOnce(s: State, key: RecordKey)
    requires WorkersOk(s) && RecordsOk(s) && MessagesOk(s) && Separate(s)
    ensures
      var completed := key in s.tables.records && s.tables.records[key].state == ClaimCompleted;
      && |AnswersFor(s, key)| == (if completed then 1 else 0)
      && (completed ==> exists m, run :: m in s.tables.messages && AnswerFor(s, key, m) && NamedBy(s, key, m, run))
  {
    ExactlyOneAnswer(s, key);
  }

  lemma EveryStateAnswersOnce(e: Execution, i: nat, key: RecordKey)
    requires e.Valid() && i < |e.states|
    ensures
      var s := e.states[i];
      var completed := key in s.tables.records && s.tables.records[key].state == ClaimCompleted;
      && |AnswersFor(s, key)| == (if completed then 1 else 0)
      && (completed ==> exists m, run :: m in s.tables.messages && AnswerFor(s, key, m) && NamedBy(s, key, m, run))
  {
    ExecutionsAreSafe(e, i);
    AnswersOnce(e.states[i], key);
  }
}
