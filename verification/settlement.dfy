/** What becomes of the runs that turns open. */
module SettlementOfTurns {
  import opened Common
  import opened Runs
  import opened Tables
  import opened Turn
  import opened Protocol
  import opened Invariant
  import opened Effects
  import opened Preservation
  import opened Executions
  import RunStore

  lemma StoredIsPersisted(s: State, w: WorkerId)
    requires WorkersOk(s) && w in s.workers && s.workers[w].stored.Some?
    ensures RunStore.GetRun(s.tables.runs, s.workers[w].stored.value.id) == s.workers[w].stored
  {
    assert WorkerOk(s, w, s.workers[w]);
    RunStore.StoredIsRead(s.tables.runs, s.workers[w].stored.value);
  }

  // ---- The prefix condition, and what each save stores ----

  /** Whatever a turn saves, the stored steps are a prefix of it: the settlement of an answer ... */
  lemma FinishExtendsStored(e: Execution, n: nat, w: WorkerId, messageId: Id, stamp: Instant, done: Conclusion)
    requires e.Valid() && n < |e.states|
    requires Enabled(e.states[n], Finish(w, messageId, stamp, Applied)) && Equipped(e.states[n].workers[w])
    requires
      var s, k := e.states[n], e.states[n].workers[w];
      Conclude(k.run.value, k.conversation.value, k.pc.content, k.pc.usage, stamp, messageId) == Ok(done)
    ensures
      var runs, stored := e.states[n].tables.runs, e.states[n].workers[w].stored;
      && stored.Some? && RunStore.GetRun(runs, done.run.id) == stored
      && stored.value.steps < done.run.steps
      && RunStore.SaveRun(runs, done.run).Ok?
      && RunStore.GetRun(RunStore.SaveRun(runs, done.run).value, done.run.id) == Some(done.run)
  {
    ExecutionsAreSafe(e, n);
    SaveAfterConclude(e.states[n], w, messageId, stamp, done);
  }

  lemma SaveAfterConclude(s: State, w: WorkerId, messageId: Id, stamp: Instant, done: Conclusion)
    requires WorkersOk(s) && Enabled(s, Finish(w, messageId, stamp, Applied)) && Equipped(s.workers[w])
    requires
      var k := s.workers[w];
      Conclude(k.run.value, k.conversation.value, k.pc.content, k.pc.usage, stamp, messageId) == Ok(done)
    ensures
      var runs, stored := s.tables.runs, s.workers[w].stored;
      && stored.Some? && RunStore.GetRun(runs, done.run.id) == stored
      && stored.value.steps < done.run.steps
      && RunStore.SaveRun(runs, done.run).Ok?
      && RunStore.GetRun(RunStore.SaveRun(runs, done.run).value, done.run.id) == Some(done.run)
  {
    var k := s.workers[w];
    NoReplyYet(s, w);
    ConcludeEffect(s, w, messageId, stamp, done);
    RunStore.StoredIsRead(s.tables.runs, k.stored.value);
    RunStore.SaveThenGet(s.tables.runs, k.stored.value, done.run);
  }

  /** ... and the settlement of a failure, which starts from what it reads back: the row
      decides, though the run in memory may already say "succeeded".  A terminal run is left alone; a
      running one keeps its columns and steps, and gets the reason, the instant and one last step that
      carries both. */
  lemma PersistedStateWins(e: Execution, n: nat, w: WorkerId, fate: Fate)
    requires e.Valid() && n < |e.actions| && e.actions[n] == SettleRun(w, fate) && fate != Lost
    ensures w in e.states[n].workers && e.states[n].workers[w].pc.FailingRun? && e.states[n].workers[w].stored.Some?
    ensures w in e.states[n + 1].workers
    ensures
      var s, s', k := e.states[n], e.states[n + 1], e.states[n].workers[w];
      var run := k.stored.value;
      && RunStore.GetRun(s.tables.runs, run.id) == Some(run)
      && (run.status.Running? || run.status.Succeeded? || run.status.Failed?)
      && RunStore.GetRun(s'.tables.runs, run.id)
         == Some(if !run.status.Running? then run
                 else
                   var reason := k.pc.error.message;
                   var last := Step(run.id, |run.steps| + 1, ErrorStep, map["reason" := Json.Text(reason)], s.now);
                   Run(run.id, run.user, run.conversation, run.provider, run.model, run.limits, Failed,
                       run.steps + [last], run.startedAt, Some(s.now), Some(reason), run.finalResponse, run.usage))
      && s'.workers[w].settlement.Settled?
  {
    FailureIsPersisted(e, n, w, fate);
  }

  lemma FailureIsPersisted(e: Execution, n: nat, w: WorkerId, fate: Fate)
    requires e.Valid() && n < |e.actions| && e.actions[n] == SettleRun(w, fate) && fate != Lost
    ensures w in e.states[n].workers && e.states[n].workers[w].pc.FailingRun? && e.states[n].workers[w].stored.Some?
    ensures w in e.states[n + 1].workers && e.states[n + 1].workers[w].settlement.Settled?
    ensures
      var s, s', k := e.states[n], e.states[n + 1], e.states[n].workers[w];
      var run := k.stored.value;
      && RunStore.GetRun(s.tables.runs, run.id) == Some(run)
      && (run.status.Running? || run.status.Succeeded? || run.status.Failed?)
      && RunStore.GetRun(s'.tables.runs, run.id)
         == Some(if run.status.Terminal() then run else AsFailed(run, k.pc.error.message, s.now))
  {
    OneStep(e, n);
    FailurePersists(e.states[n], w, fate);
  }

  lemma FailurePersists(s: State, w: WorkerId, fate: Fate)
    requires WorkersOk(s) && Enabled(s, SettleRun(w, fate)) && Equipped(s.workers[w])
    ensures
      var s', k := DoSettleRun(s, w, fate), s.workers[w];
      var run := k.stored.value;
      && RunStore.GetRun(s.tables.runs, run.id) == Some(run)
      && (fate != Lost ==>
            RunStore.GetRun(s'.tables.runs, run.id)
            == Some(if run.status.Terminal() then run else AsFailed(run, k.pc.error.message, s.now)))
      && (run.status.Running? || run.status.Succeeded? || run.status.Failed?)
      && (s'.workers[w].settlement.Settled? <==> fate != Lost || k.settlement.Settled?)
  {
    var k := s.workers[w];
    FailingIsSound(s, w);
    RunStore.StoredIsRead(s.tables.runs, k.stored.value);
    SettleRunEffect(s.tables, k.stored.value, k.run.value, k.pc.error.message, s.now);
    if fate != Lost && !k.stored.value.status.Terminal() {
      RunStore.StoredIsRead(DoSettleRun(s, w, fate).tables.runs, AsFailed(k.stored.value, k.pc.error.message, s.now));
    }
  }

  // ---- Terminal runs ----

  /** A terminal run never changes again, not a column and not a step. */
  lemma TerminalRunsStay(e: Execution, i: nat, j: nat, id: Id)
    requires e.Valid() && i <= j < |e.states|
    requires id in e.states[i].tables.runs.rows && e.states[i].tables.runs.rows[id].status.Terminal()
    ensures RunStore.GetRun(e.states[j].tables.runs, id) == RunStore.GetRun(e.states[i].tables.runs, id)
  {
    TimeOnlyAdds(e, i, j);
  }

  /** A finish that was applied but reported as failed stays: the run is persisted as succeeded
      from then on, though the caller gets an error. */
  lemma ReportedFinishStays(e: Execution, n: nat, m: nat, w: WorkerId, messageId: Id, stamp: Instant)
    requires e.Valid() && n < m < |e.states|
    requires e.actions[n] == Finish(w, messageId, stamp, Reported)
    requires w in e.states[n + 1].workers && e.states[n + 1].workers[w].Answered()
    ensures
      var run := e.states[n + 1].workers[w].stored.value;
      && e.states[n + 1].workers[w].pc.FailingRun?
      && run.status.Succeeded? && RunStore.GetRun(e.states[m].tables.runs, run.id) == Some(run)
  {
    ReportedFinishFails(e, n, w, messageId, stamp);
    ExecutionsAreSafe(e, n + 1);
    var s' := e.states[n + 1];
    StoredRowOf(s', w);
    StoredIsPersisted(s', w);
    TerminalRunsStay(e, n + 1, m, s'.workers[w].stored.value.id);
  }

  lemma ReportedFinishFails(e: Execution, n: nat, w: WorkerId, messageId: Id, stamp: Instant)
    requires e.Valid() && n < |e.actions| && e.actions[n] == Finish(w, messageId, stamp, Reported)
    ensures w in e.states[n + 1].workers && e.states[n + 1].workers[w].pc.FailingRun?
  {
    OneStep(e, n);
    ReportedIsNotReturned(e.states[n], w, messageId, stamp);
  }

  lemma ReportedIsNotReturned(s: State, w: WorkerId, messageId: Id, stamp: Instant)
    requires Enabled(s, Finish(w, messageId, stamp, Reported)) && Equipped(s.workers[w])
    ensures DoFinish(s, w, messageId, stamp, Reported).workers[w].pc.FailingRun?
  {
  }

  // ---- Every started run is settled ----

  lemma UnsettledStep(s: State, a: Action, s': State, w: WorkerId)
    requires WorkersOk(s) && Enabled(s, a) && AllEquipped(s) && s' == Apply(s, a)
    requires if Actor(a).Some? then Footprint(s, s', a.w) else s'.workers == s.workers
    requires w in s'.workers && s'.workers[w].settlement.Unsettled?
    ensures w in s.workers
    ensures s.workers[w].settlement.Unsettled? || (a == SettleRun(w, Lost) && !s.workers[w].settlement.Settled?)
  {
    if Actor(a) == Some(w) && w in s.workers && !s.workers[w].settlement.Unsettled? {
      OnlyLossUnsettles(s, a, s');
    }
  }

  lemma OnlyLossUnsettles(s: State, a: Action, s': State)
    requires WorkersOk(s) && Enabled(s, a) && AllEquipped(s) && Actor(a).Some? && s' == Apply(s, a)
    requires a.w in s.workers && s.workers[a.w].pc.FailingRun? && !s.workers[a.w].settlement.Unsettled?
    requires a.w in s'.workers && !s'.workers[a.w].pc.Crashed? && s'.workers[a.w].settlement.Unsettled?
    ensures a == SettleRun(a.w, Lost)
  {
    FailurePersists(s, a.w, if a.SettleRun? then a.fate else Lost);
  }

  /** The transaction that was to fail worker `w`'s unsettled run was rolled back. */
  predicate LostSettlement(e: Execution, m: nat, w: WorkerId)
    requires m < |e.actions| && m < |e.states|
  {
    && e.actions[m] == SettleRun(w, Lost)
    && w in e.states[m].workers && !e.states[m].workers[w].settlement.Settled?
  }

  lemma {:induction false} UnsettledByLoss(e: Execution, n: nat, w: WorkerId)
    requires e.Valid() && n < |e.states|
    requires w in e.states[n].workers && e.states[n].workers[w].settlement.Unsettled?
    ensures exists m :: 0 <= m < n && LostSettlement(e, m, w)
  {
    if n > 0 {
      ExecutionsAreSafe(e, n - 1);
      StepIsSafe(e.states[n - 1], e.actions[n - 1], e.states[n]);
      UnsettledStep(e.states[n - 1], e.actions[n - 1], e.states[n], w);
      if w in e.states[n - 1].workers && e.states[n - 1].workers[w].settlement.Unsettled? {
        UnsettledByLoss(e, n - 1, w);
      } else {
        assert LostSettlement(e, n - 1, w);
      }
    }
  }

  lemma PromptingIsOpened(s: State, w: WorkerId)
    requires WorkersOk(s) && w in s.workers && s.workers[w].pc.Prompting?
    ensures !s.workers[w].settlement.Unopened?
  {
    assert WorkerOk(s, w, s.workers[w]);
  }

  lemma ExitIsSettled(s: State, w: WorkerId)
    requires WorkersOk(s) && w in s.workers && !s.workers[w].settlement.Unopened?
    requires s.workers[w].pc.Final() && !s.workers[w].pc.Crashed?
    ensures s.workers[w].stored.Some?
    ensures s.workers[w].settlement.Unsettled? || s.workers[w].stored.value.status.Terminal()
  {
    assert WorkerOk(s, w, s.workers[w]);
  }

  /** Once `_start_turn` has returned, every exit but a crash leaves the persisted run terminal,
      unless the very transaction that was to fail it was rolled back. */
  lemma StartedRunsAreSettled(e: Execution, i: nat, j: nat, w: WorkerId)
    requires e.Valid() && i <= j < |e.states|
    requires w in e.states[i].workers && e.states[i].workers[w].pc.Prompting?
    requires w in e.states[j].workers && e.states[j].workers[w].pc.Final() && !e.states[j].workers[w].pc.Crashed?
    ensures
      var run := e.states[j].workers[w].stored;
      && run.Some? && RunStore.GetRun(e.states[j].tables.runs, run.value.id) == run
      && (run.value.status.Terminal() || exists m :: 0 <= m < j && LostSettlement(e, m, w))
  {
    TimeOnlyAdds(e, i, j);
    PromptingIsOpened(e.states[i], w);
    ExitIsSettled(e.states[j], w);
    StoredIsPersisted(e.states[j], w);
    if e.states[j].workers[w].settlement.Unsettled? {
      UnsettledByLoss(e, j, w);
    }
  }

  // ---- Exactly which runs are left open ----

  /** The start of worker `w`'s turn was committed, but reported to it as failed. */
  predicate ReportedStart(e: Execution, m: nat, w: WorkerId)
    requires m < |e.actions| && m < |e.states|
  {
    e.actions[m].OpenTurn? && e.actions[m].w == w && e.actions[m].fate == Reported
  }

  lemma StoringStep(s: State, a: Action, w: WorkerId)
    requires Enabled(s, a) && AllEquipped(s) && Actor(a) == Some(w) && w in s.workers && s.workers[w].pc.Starting?
    requires !Apply(s, a).workers[w].pc.Crashed? && s.workers[w].stored.None?
    requires Apply(s, a).workers[w].stored.Some? && Apply(s, a).workers[w].settlement.Unopened?
    ensures a.OpenTurn? && a.fate == Reported
  {
  }

  lemma UnopenedStep(s: State, a: Action, s': State, w: WorkerId)
    requires Enabled(s, a) && AllEquipped(s) && s' == Apply(s, a)
    requires if Actor(a).Some? then Footprint(s, s', a.w) else s'.workers == s.workers
    requires w in s'.workers && s'.workers[w].stored.Some? && s'.workers[w].settlement.Unopened?
    ensures w in s.workers
    ensures if s.workers[w].stored.Some? then s.workers[w].settlement.Unopened?
            else a.OpenTurn? && a.w == w && a.fate == Reported
  {
    if w in s.workers && s.workers[w].stored.None? {
      StoringStep(s, a, w);
    }
  }

  lemma {:induction false} UnopenedByReport(e: Execution, n: nat, w: WorkerId)
    requires e.Valid() && n < |e.states|
    requires w in e.states[n].workers && e.states[n].workers[w].stored.Some?
    requires e.states[n].workers[w].settlement.Unopened?
    ensures exists m :: 0 <= m < n && ReportedStart(e, m, w)
  {
    if n > 0 {
      ExecutionsAreSafe(e, n - 1);
      StepIsSafe(e.states[n - 1], e.actions[n - 1], e.states[n]);
      UnopenedStep(e.states[n - 1], e.actions[n - 1], e.states[n], w);
      if e.states[n - 1].workers[w].stored.Some? {
        UnopenedByReport(e, n - 1, w);
      } else {
        assert ReportedStart(e, n - 1, w);
      }
    }
  }

  lemma SettlementStays(e: Execution, i: nat, j: nat, w: WorkerId)
    requires e.Valid() && i <= j < |e.states| && w in e.states[i].workers
    ensures w in e.states[j].workers
    ensures e.states[i].workers[w].settlement.Unsettled? ==> e.states[j].workers[w].settlement.Unsettled?
    ensures e.states[i].workers[w].pc.Final() ==> e.states[j].workers[w] == e.states[i].workers[w]
  {
    TimeOnlyAdds(e, i, j);
    FinalStays(e.states[i], e.states[j], w);
  }

  lemma FinalStays(s: State, s': State, w: WorkerId)
    requires WorkersLater(s, s') && w in s.workers
    ensures w in s'.workers
    ensures s.workers[w].settlement.Unsettled? ==> s'.workers[w].settlement.Unsettled?
    ensures s.workers[w].pc.Final() ==> s'.workers[w] == s.workers[w]
  {
    assert Onward(s.workers[w], s'.workers[w]);
  }

  lemma LostSettlementUnsettles(e: Execution, m: nat, n: nat, w: WorkerId)
    requires e.Valid() && m < n < |e.states| && LostSettlement(e, m, w)
    ensures w in e.states[n].workers && e.states[n].workers[w].settlement.Unsettled?
  {
    OneStep(e, m);
    LostIsUnsettled(e.states[m], w);
    SettlementStays(e, m + 1, n, w);
  }

  lemma LostIsUnsettled(s: State, w: WorkerId)
    requires Enabled(s, SettleRun(w, Lost)) && Equipped(s.workers[w]) && !s.workers[w].settlement.Settled?
    ensures DoSettleRun(s, w, Lost).workers[w].settlement.Unsettled?
  {
  }

  lemma ReportedStartIsFinal(e: Execution, m: nat, n: nat, w: WorkerId)
    requires e.Valid() && m < n < |e.states| && ReportedStart(e, m, w)
    ensures w in e.states[n].workers && e.states[n].workers[w].settlement.Unopened?
  {
    OneStep(e, m);
    StartingIsUnopened(e.states[m], w);
    ReportedRaises(e.states[m], w, e.actions[m].messageId, e.actions[m].runId, e.actions[m].stamp);
    SettlementStays(e, m + 1, n, w);
  }

  lemma StartingIsUnopened(s: State, w: WorkerId)
    requires WorkersOk(s) && w in s.workers && s.workers[w].pc.Starting?
    ensures s.workers[w].settlement.Unopened?
  {
    assert WorkerOk(s, w, s.workers[w]);
  }

  lemma ReportedRaises(s: State, w: WorkerId, messageId: Id, runId: Id, stamp: Instant)
    requires Enabled(s, OpenTurn(w, messageId, runId, stamp, Reported)) && Equipped(s.workers[w])
    ensures
      var k' := DoOpen(s, w, messageId, runId, stamp, Reported).workers[w];
      k'.pc.Raised? && k'.settlement == s.workers[w].settlement
  {
  }

  /** The worker died, or was cancelled, before the run it had opened was settled. */
  predicate CutShort(e: Execution, m: nat, w: WorkerId)
    requires m < |e.actions| && m < |e.states|
  {
    e.actions[m] == Crash(w) && w in e.states[m].workers && e.states[m].workers[w].settlement.Unfinished?
  }

  lemma FinishSurvives(s: State, w: WorkerId, messageId: Id, stamp: Instant, fate: Fate)
    requires Enabled(s, Finish(w, messageId, stamp, fate)) && Equipped(s.workers[w])
    ensures !DoFinish(s, w, messageId, stamp, fate).workers[w].pc.Crashed?
  {
  }

  lemma OpenSurvives(s: State, w: WorkerId, messageId: Id, runId: Id, stamp: Instant, fate: Fate)
    requires Enabled(s, OpenTurn(w, messageId, runId, stamp, fate))
    ensures !DoOpen(s, w, messageId, runId, stamp, fate).workers[w].pc.Crashed?
  {
  }

  lemma SettleSurvives(s: State, w: WorkerId, fate: Fate)
    requires Enabled(s, SettleRun(w, fate)) && Equipped(s.workers[w])
    ensures !DoSettleRun(s, w, fate).workers[w].pc.Crashed?
  {
  }

  lemma ClaimSettlementSurvives(s: State, w: WorkerId, fate: Fate)
    requires Enabled(s, SettleClaim(w, fate)) && Equipped(s.workers[w])
    ensures !DoSettleClaim(s, w, fate).workers[w].pc.Crashed?
  {
  }

  lemma ClaimStepSurvives(s: State, a: Action)
    requires Enabled(s, a) && AllEquipped(s) && Actor(a).Some?
    requires a.Begin? || a.Read? || a.InsertRow? || a.Reread? || a.Judge? || a.Swap? || a.Abort?
    requires a.w in Apply(s, a).workers
    ensures !Apply(s, a).workers[a.w].pc.Crashed?
  {
  }

  lemma ModelStepSurvives(s: State, a: Action)
    requires Enabled(s, a) && AllEquipped(s) && (a.Prompt? || a.Answer?) && a.w in Apply(s, a).workers
    ensures !Apply(s, a).workers[a.w].pc.Crashed?
  {
  }

  lemma TurnStepSurvives(s: State, a: Action)
    requires Enabled(s, a) && AllEquipped(s) && Actor(a).Some?
    requires a.OpenTurn? || a.Prompt? || a.Answer? || a.Finish? || a.SettleRun? || a.SettleClaim?
    requires a.w in Apply(s, a).workers
    ensures !Apply(s, a).workers[a.w].pc.Crashed?
  {
    if a.OpenTurn? {
      OpenSurvives(s, a.w, a.messageId, a.runId, a.stamp, a.fate);
    } else if a.Finish? {
      FinishSurvives(s, a.w, a.messageId, a.stamp, a.fate);
    } else if a.SettleRun? {
      SettleSurvives(s, a.w, a.fate);
    } else if a.SettleClaim? {
      ClaimSettlementSurvives(s, a.w, a.fate);
    } else {
      ModelStepSurvives(s, a);
    }
  }

  lemma OnlyCrashCrashes(s: State, a: Action)
    requires Enabled(s, a) && AllEquipped(s) && Actor(a).Some? && a.w in Apply(s, a).workers
    requires Apply(s, a).workers[a.w].pc.Crashed?
    ensures a.Crash?
  {
    if a.Begin? || a.Read? || a.InsertRow? || a.Reread? || a.Judge? || a.Swap? || a.Abort? {
      ClaimStepSurvives(s, a);
    } else if !a.Crash? {
      TurnStepSurvives(s, a);
    }
  }

  lemma CrashedStep(s: State, a: Action, s': State, w: WorkerId)
    requires Enabled(s, a) && AllEquipped(s) && s' == Apply(s, a)
    requires if Actor(a).Some? then Footprint(s, s', a.w) else s'.workers == s.workers
    requires w in s'.workers && s'.workers[w].pc.Crashed?
    ensures w in s.workers && s'.workers[w].settlement == s.workers[w].settlement
    ensures s.workers[w].pc.Crashed? || a == Crash(w)
  {
    if Actor(a) == Some(w) {
      OnlyCrashCrashes(s, a);
    }
  }

  lemma CrashedBefore(e: Execution, n: nat, w: WorkerId)
    requires e.Valid() && n < |e.actions| && w in e.states[n + 1].workers && e.states[n + 1].workers[w].pc.Crashed?
    ensures w in e.states[n].workers && e.states[n + 1].workers[w].settlement == e.states[n].workers[w].settlement
    ensures e.states[n].workers[w].pc.Crashed? || e.actions[n] == Crash(w)
  {
    OneStep(e, n);
    CrashedStep(e.states[n], e.actions[n], e.states[n + 1], w);
  }

  lemma {:induction false} UnfinishedByCrash(e: Execution, n: nat, w: WorkerId)
    requires e.Valid() && n < |e.states|
    requires w in e.states[n].workers && e.states[n].workers[w].pc.Crashed?
    requires e.states[n].workers[w].settlement.Unfinished?
    ensures exists m :: 0 <= m < n && CutShort(e, m, w)
  {
    if n > 0 {
      CrashedBefore(e, n - 1, w);
      if e.states[n - 1].workers[w].pc.Crashed? {
        UnfinishedByCrash(e, n - 1, w);
      } else {
        assert CutShort(e, n - 1, w);
      }
    }
  }

  lemma CutShortStays(e: Execution, m: nat, n: nat, w: WorkerId)
    requires e.Valid() && m < n < |e.states| && CutShort(e, m, w)
    ensures w in e.states[n].workers && e.states[n].workers[w].settlement.Unfinished?
  {
    OneStep(e, m);
    SettlementStays(e, m + 1, n, w);
  }

  /** What may leave a run RUNNING: a start that is committed but reported as failed, a failure
      settlement that is rolled back, and a death or a cancellation in between. */
  predicate LeavesRunning(e: Execution, m: nat, w: WorkerId)
    requires m < |e.actions| && m < |e.states|
  {
    ReportedStart(e, m, w) || LostSettlement(e, m, w) || CutShort(e, m, w)
  }

  predicate LeftOpen(k: Worker) {
    k.settlement.Unopened? || k.settlement.Unsettled? || k.settlement.Unfinished?
  }

  lemma RunningIsOpen(s: State, w: WorkerId)
    requires WorkersOk(s) && w in s.workers && s.workers[w].stored.Some? && s.workers[w].pc.Final()
    ensures s.workers[w].stored.value.status.Running? <==> LeftOpen(s.workers[w])
    ensures s.workers[w].settlement.Unfinished? ==> s.workers[w].pc.Crashed?
  {
    assert WorkerOk(s, w, s.workers[w]);
  }

  lemma OpenByCause(e: Execution, n: nat, w: WorkerId) returns (m: nat)
    requires e.Valid() && n < |e.states| && w in e.states[n].workers && e.states[n].workers[w].stored.Some?
    requires e.states[n].workers[w].settlement.Unfinished? ==> e.states[n].workers[w].pc.Crashed?
    requires LeftOpen(e.states[n].workers[w])
    ensures m < n && LeavesRunning(e, m, w)
  {
    if e.states[n].workers[w].settlement.Unopened? {
      UnopenedByReport(e, n, w);
      m :| 0 <= m < n && ReportedStart(e, m, w);
    } else if e.states[n].workers[w].settlement.Unsettled? {
      UnsettledByLoss(e, n, w);
      m :| 0 <= m < n && LostSettlement(e, m, w);
    } else {
      UnfinishedByCrash(e, n, w);
      m :| 0 <= m < n && CutShort(e, m, w);
    }
  }

  lemma OpenHasCause(e: Execution, n: nat, w: WorkerId)
    requires e.Valid() && n < |e.states| && w in e.states[n].workers && e.states[n].workers[w].stored.Some?
    requires e.states[n].workers[w].pc.Final()
    ensures LeftOpen(e.states[n].workers[w]) <==> exists m :: 0 <= m < n && LeavesRunning(e, m, w)
  {
    ExecutionsAreSafe(e, n);
    RunningIsOpen(e.states[n], w);
    if LeftOpen(e.states[n].workers[w]) {
      var m := OpenByCause(e, n, w);
      assert LeavesRunning(e, m, w);
    }
    forall m | 0 <= m < n && LeavesRunning(e, m, w)
      ensures LeftOpen(e.states[n].workers[w])
    {
      if ReportedStart(e, m, w) {
        ReportedStartIsFinal(e, m, n, w);
      } else if LostSettlement(e, m, w) {
        LostSettlementUnsettles(e, m, n, w);
      } else {
        CutShortStays(e, m, n, w);
      }
    }
  }

  /** Every row of the table of runs was opened by one worker.  Once that worker is gone, however
      it went, the row is RUNNING exactly when the start was committed but reported as failed, the
      transaction that was to fail the run was rolled back, or the worker died or was cancelled
      before it had settled the run. */
  lemma RunsLeftRunning(e: Execution, n: nat, id: Id) returns (w: WorkerId)
    requires e.Valid() && n < |e.states| && id in e.states[n].tables.runs.rows
    ensures OwnsRow(e.states[n], w, id)
    ensures RunStore.GetRun(e.states[n].tables.runs, id) == e.states[n].workers[w].stored
    ensures e.states[n].workers[w].pc.Final() ==>
              (e.states[n].tables.runs.rows[id].status.Running? <==> exists m :: 0 <= m < n && LeavesRunning(e, m, w))
  {
    ExecutionsAreSafe(e, n);
    OriginsAreKnown(e, n);
    w :| OwnsRow(e.states[n], w, id);
    StoredIsPersisted(e.states[n], w);
    if e.states[n].workers[w].pc.Final() {
      RunningIsOpen(e.states[n], w);
      OpenHasCause(e, n, w);
    }
  }
}
