/** Laws of the tables in every reachable state. */
module Conservation {
  import opened Common
  import opened Conversations
  import opened Tables
  import opened Turn
  import opened Protocol
  import opened Invariant
  import opened Effects
  import opened Preservation
  import opened Executions
  import opened Register
  import opened Requests
  import opened Claims
  import Context
  import MessageOrder
  import RunStore
  import Text

  /** The succeeded runs of turns that carried a key. */
  function KeyedSuccesses(s: State): set<Id> {
    set w | w in KeyedAnswers(s.workers) :: s.workers[w].stored.value.id
  }

  lemma KeyedRunsSucceeded(s: State, w: WorkerId)
    requires WorkersOk(s) && w in KeyedAnswers(s.workers)
    ensures
      var id := s.workers[w].stored.value.id;
      id in s.tables.runs.rows && s.tables.runs.rows[id].status.Succeeded?
  {
    assert WorkerOk(s, w, s.workers[w]);
  }

  lemma KeyedSuccessesCount(s: State)
    requires Separate(s)
    ensures |KeyedSuccesses(s)| == |KeyedAnswers(s.workers)|
  {
    var answers := KeyedAnswers(s.workers);
    var f := map w | w in answers :: s.workers[w].stored.value.id;
    forall v, w | v in answers && w in answers && f[v] == f[w]
      ensures v == w
    {
      assert s.workers[v].stored.value.id == s.workers[w].stored.value.id;
    }
    ImageSize(answers, f);
    assert KeyedSuccesses(s) == Image(answers, f);
  }

  /** Conservation: in every conversation there are as many user messages as runs and as many
      assistant messages as succeeded runs, and as many keys are completed as keyed runs
      succeeded. */
  lemma NothingIsLostOrDoubled(e: Execution, n: nat, conversation: Id)
    requires e.Valid() && n < |e.states|
    ensures
      var t := e.states[n].tables;
      && CountRole(t.messages, conversation, User) == |RunsOf(t.runs.rows, conversation)|
      && CountRole(t.messages, conversation, Assistant) == |SucceededOf(t.runs.rows, conversation)|
      && |CompletedKeys(t.records)| == |KeyedSuccesses(e.states[n])|
    ensures forall id :: id in KeyedSuccesses(e.states[n]) ==>
              id in e.states[n].tables.runs.rows && e.states[n].tables.runs.rows[id].status.Succeeded?
  {
    ExecutionsAreSafe(e, n);
    KeyedSuccessesCount(e.states[n]);
    forall w | w in KeyedAnswers(e.states[n].workers)
      ensures
        var id := e.states[n].workers[w].stored.value.id;
        id in e.states[n].tables.runs.rows && e.states[n].tables.runs.rows[id].status.Succeeded?
    {
      KeyedRunsSucceeded(e.states[n], w);
    }
  }

  /** Every row of the table of runs, whoever wrote it, is read back as a run that satisfies the
      table's own constraint and its budgets, and has at most `max_steps` + 1 steps with any
      terminal step last; no row is ever PENDING. */
  lemma EveryStoredRunIsDisciplined(e: Execution, n: nat, id: Id)
    requires e.Valid() && n < |e.states| && id in e.states[n].tables.runs.rows
    ensures
      var runs := e.states[n].tables.runs;
      var read := RunStore.GetRun(runs, id);
      && read.Some? && read.value.Disciplined() && read.value.TerminalStateRecorded()
      && runs.rows[id] == RunStore.RowOf(read.value) && !runs.rows[id].status.Pending?
  {
    ExecutionsAreSafe(e, n);
    OriginsAreKnown(e, n);
    var w :| OwnsRow(e.states[n], w, id);
    DisciplinedAndStored(e.states[n], w);
  }

  lemma DisciplinedAndStored(s: State, w: WorkerId)
    requires WorkersOk(s) && w in s.workers && s.workers[w].stored.Some?
    ensures
      var run := s.workers[w].stored.value;
      && RunStore.GetRun(s.tables.runs, run.id) == Some(run) && run.Disciplined() && !run.status.Pending?
      && run.id in s.tables.runs.rows && s.tables.runs.rows[run.id] == RunStore.RowOf(run)
  {
    assert WorkerOk(s, w, s.workers[w]);
    RunStore.StoredIsRead(s.tables.runs, s.workers[w].stored.value);
  }

  // ---- What the model is sent ----

  /** Every request in flight fits the token budget, system prompt included, and ends with the
      turn's own input. */
  lemma EveryRequestFits(e: Execution, n: nat, w: WorkerId)
    requires e.Valid() && n < |e.states| && w in e.states[n].workers && e.states[n].workers[w].pc.Calling?
    ensures
      var s, k := e.states[n], e.states[n].workers[w];
      Fits(k.pc.request, s.prompt, k.command.limits.maxContextTokens, k.text)
  {
    ExecutionsAreSafe(e, n);
    assert WorkerOk(e.states[n], w, e.states[n].workers[w]);
  }

  lemma StoredMessagesArePosted(s: State)
    requires MessagesOk(s)
    ensures MessageOrder.UniqueIds(s.tables.messages) && Context.AllPosted(s.tables.messages)
  {
  }

  /** In every reachable state a turn that starts builds its context from the whole stored
      history: the longest suffix that fits, cut to the window, and not cut at all when the window
      is at least a fifth of the token budget. */
  lemma EveryContextIsLossless(e: Execution, n: nat, c: Command, text: string, stamp: Instant, messageId: Id, runId: Id)
    requires e.Valid() && n < |e.states|
    requires StartTurn(e.states[n].tables, c, text, stamp, messageId, runId).Ok?
    ensures
      var s := e.states[n];
      var start := StartTurn(s.tables, c, text, stamp, messageId, runId).value;
      var full := HistoryOf(s.tables, c.conversation) + [Message(messageId, c.conversation, User, text, stamp)];
      CarriesFit(c, s.prompt, full, BuildRequest(c, s.prompt, start.conversation))
  {
    ExecutionsAreSafe(e, n);
    StoredMessagesArePosted(e.states[n]);
    BoundedContextIsLossless(e.states[n].tables, c, text, e.states[n].prompt, stamp, messageId, runId);
  }

  /** Step `m` started worker `w`'s turn, on the history that the transaction saw. */
  ghost predicate OpenedAt(e: Execution, m: nat, k: Worker, w: WorkerId)
    requires m < |e.actions| && m < |e.states|
  {
    var s, a := e.states[m], e.actions[m];
    && a.OpenTurn? && a.w == w && w in s.workers && s.workers[w].command == k.command
    && k.input == Some(Question(s.workers[w], a.messageId, a.stamp))
    && var start := StartTurn(s.tables, k.command, s.workers[w].text, a.stamp, a.messageId, a.runId);
    && start.Ok? && k.conversation == Some(start.value.conversation)
    && k.stored.Some? && RunStore.SameOrigin(start.value.run, k.stored.value)
  }

  lemma OpeningStep(s: State, w: WorkerId, messageId: Id, runId: Id, stamp: Instant, fate: Fate)
    requires Enabled(s, OpenTurn(w, messageId, runId, stamp, fate)) && s.workers[w].input.None?
    requires DoOpen(s, w, messageId, runId, stamp, fate).workers[w].input.Some?
    ensures
      var k, k' := s.workers[w], DoOpen(s, w, messageId, runId, stamp, fate).workers[w];
      var start := StartTurn(s.tables, k.command, k.text, stamp, messageId, runId);
      && k'.input == Some(Question(k, messageId, stamp)) && k'.command == k.command
      && start.Ok? && k'.conversation == Some(start.value.conversation) && k'.stored == Some(start.value.run)
  {
  }

  lemma QuestionsAreKept(s: State, s': State, v: WorkerId, w: WorkerId)
    requires Footprint(s, s', v) && Adds(s, s', v) && w in s'.workers && s'.workers[w].input.Some?
    ensures w in s.workers
    ensures if s.workers[w].input.Some? then
              s'.workers[w].input == s.workers[w].input && s'.workers[w].conversation == s.workers[w].conversation
              && s'.workers[w].command == s.workers[w].command
              && (s.workers[w].stored.Some? ==>
                    s'.workers[w].stored.Some?
                    && RunStore.SameOrigin(s.workers[w].stored.value, s'.workers[w].stored.value))
            else v == w && s.workers[w].pc.Starting? && !s'.workers[w].pc.Crashed?
  {
  }

  lemma OnlyStartsPost(s: State, a: Action)
    requires Enabled(s, a) && AllEquipped(s) && Actor(a).Some? && a.w in s.workers && s.workers[a.w].pc.Starting?
    requires Apply(s, a).workers[a.w].input != s.workers[a.w].input
    ensures a.OpenTurn?
  {
  }

  lemma PostedByStart(e: Execution, n: nat, w: WorkerId)
    requires e.Valid() && n < |e.actions| && w in e.states[n + 1].workers && e.states[n + 1].workers[w].input.Some?
    ensures w in e.states[n].workers
    ensures if e.states[n].workers[w].input.Some? then
              && e.states[n + 1].workers[w].input == e.states[n].workers[w].input
              && e.states[n + 1].workers[w].conversation == e.states[n].workers[w].conversation
              && e.states[n + 1].workers[w].command == e.states[n].workers[w].command
              && (e.states[n].workers[w].stored.Some? ==>
                    e.states[n + 1].workers[w].stored.Some?
                    && RunStore.SameOrigin(e.states[n].workers[w].stored.value,
                                           e.states[n + 1].workers[w].stored.value))
            else OpenedAt(e, n, e.states[n + 1].workers[w], w)
  {
    OneStep(e, n);
    if Actor(e.actions[n]).Some? {
      QuestionsAreKept(e.states[n], e.states[n + 1], e.actions[n].w, w);
      if e.states[n].workers[w].input.None? {
        OnlyStartsPost(e.states[n], e.actions[n]);
        OpeningStep(e.states[n], w, e.actions[n].messageId, e.actions[n].runId, e.actions[n].stamp, e.actions[n].fate);
      }
    }
  }

  lemma {:induction false} OpenedSometime(e: Execution, n: nat, w: WorkerId) returns (m: nat)
    requires e.Valid() && n < |e.states| && w in e.states[n].workers && e.states[n].workers[w].input.Some?
    ensures m < n && OpenedAt(e, m, e.states[n].workers[w], w)
  {
    m := n - 1;
    PostedByStart(e, n - 1, w);
    if e.states[n - 1].workers[w].input.Some? {
      m := OpenedSometime(e, n - 1, w);
    }
  }

  /** Every row of the table of runs says who asked for what: its columns are those of the command of
      the worker that opened it, its user is the one who then stood behind the command's Telegram
      identity, and it started when its user message was stamped. */
  lemma EveryRowSaysWhoAsked(e: Execution, n: nat, id: Id) returns (w: WorkerId, m: nat)
    requires e.Valid() && n < |e.states| && id in e.states[n].tables.runs.rows
    ensures OwnsRow(e.states[n], w, id) && m < n && e.actions[m].OpenTurn? && e.actions[m].w == w
    ensures
      var row, c := e.states[n].tables.runs.rows[id], e.states[n].workers[w].command;
      && c.telegramUser in e.states[m].tables.users && row.user == e.states[m].tables.users[c.telegramUser].id
      && row.conversation == c.conversation && row.provider == c.provider && row.model == c.model
      && row.limits == c.limits && row.startedAt == Some(e.actions[m].stamp)
  {
    ExecutionsKeepBoth(e, n);
    w :| OwnsRow(e.states[n], w, id);
    assert OpenedOk(e.states[n], w, e.states[n].workers[w]);
    m := OpenedSometime(e, n, w);
    DisciplinedAndStored(e.states[n], w);
    StartedRunAt(e, m, e.states[n].workers[w], w);
  }

  lemma StartedRunAt(e: Execution, m: nat, k: Worker, w: WorkerId)
    requires e.Valid() && m < |e.actions| && OpenedAt(e, m, k, w)
    ensures
      var t, run, c := e.states[m].tables, k.stored.value, k.command;
      && c.telegramUser in t.users && run.user == t.users[c.telegramUser].id
      && run.conversation == c.conversation && run.provider == c.provider && run.model == c.model
      && run.limits == c.limits && run.startedAt == Some(e.actions[m].stamp)
  {
    var a := e.actions[m];
    OneStep(e, m);
    FreshIdsAreUnused(e.states[m], a.messageId, a.runId);
    StartEffect(e.states[m].tables, k.command, e.states[m].workers[w].text, a.stamp, a.messageId, a.runId);
  }

  lemma CallersAsked(e: Execution, n: nat, w: WorkerId)
    requires e.Valid() && n < |e.states| && w in e.states[n].workers && e.states[n].workers[w].pc.Calling?
    ensures
      var s, k := e.states[n], e.states[n].workers[w];
      && k.input.Some? && k.conversation.Some? && 0 < k.command.window
      && BuildRequest(k.command, s.prompt, k.conversation.value) == Ok(k.pc.request)
  {
    ExecutionsKeepBoth(e, n);
    assert WorkerOk(e.states[n], w, e.states[n].workers[w]);
    assert OpenedOk(e.states[n], w, e.states[n].workers[w]);
  }

  /** Whatever was posted since: a request in flight carries the longest fitting suffix of the
      history that its own start transaction saw, followed by its own question, cut to the window,
      and not cut at all when the window is at least a fifth of the token budget. */
  lemma RequestsInFlightAreLossless(e: Execution, n: nat, w: WorkerId) returns (m: nat)
    requires e.Valid() && n < |e.states| && w in e.states[n].workers && e.states[n].workers[w].pc.Calling?
    ensures m < n && e.actions[m].OpenTurn? && e.actions[m].w == w
    ensures e.states[n].workers[w].input.Some? && 0 < e.states[n].workers[w].command.window
    ensures
      var s, k := e.states[n], e.states[n].workers[w];
      var full := HistoryOf(e.states[m].tables, k.command.conversation) + [k.input.value];
      CarriesFit(k.command, s.prompt, full, Ok(k.pc.request))
  {
    CallersAsked(e, n, w);
    m := OpenedSometime(e, n, w);
    PromptStays(e, m, n);
    var k, a := e.states[n].workers[w], e.actions[m];
    EveryContextIsLossless(e, m, k.command, e.states[m].workers[w].text, a.stamp, a.messageId, a.runId);
  }

  lemma PromptStays(e: Execution, i: nat, j: nat)
    requires e.Valid() && i <= j < |e.states|
    ensures e.states[i].prompt == e.states[j].prompt
  {
    TimeOnlyAdds(e, i, j);
  }

  // ---- What decides a turn ----

  /** In every reachable state a turn with valid input is started exactly when an active user owns
      an active conversation and the step budget is at least two. */
  lemma TurnsStartExactly(e: Execution, n: nat, c: Command, stamp: Instant, messageId: Id, runId: Id)
    requires e.Valid() && n < |e.states| && ValidateInput(c).Ok?
    requires Fresh(e.states[n], messageId) && Fresh(e.states[n], runId)
    ensures
      var s := e.states[n];
      StartTurn(s.tables, c, ValidateInput(c).value, stamp, messageId, runId).Ok? <==> MayStart(s.tables, c)
  {
    ExecutionsAreSafe(e, n);
    FreshIdsAreUnused(e.states[n], messageId, runId);
    StartSucceedsExactly(e.states[n].tables, c, stamp, messageId, runId);
  }

  lemma RepliedRun(s: State, w: WorkerId)
    requires WorkersOk(s) && w in s.workers && s.workers[w].pc.Replied?
    ensures
      var k := s.workers[w];
      && k.run.Some? && k.run == k.stored && k.conversation.Some? && k.run.value.status.Running?
      && StartedTrace(k.run.value)
      && k.run.value.limits == k.command.limits && 2 <= k.command.limits.maxSteps
      && k.conversation.value.status.Active? && !Text.Blank(k.pc.content)
      && (k.command.key.Some? <==> k.HeldClaim().Some?)
  {
    assert WorkerOk(s, w, s.workers[w]);
  }

  predicate MayAnswer(s: State, w: WorkerId)
    requires w in s.workers
  {
    3 <= s.workers[w].command.limits.maxSteps && (s.workers[w].command.key.Some? ==> OwnsClaim(s, w))
  }

  lemma ConcludesExactly(s: State, w: WorkerId, messageId: Id, stamp: Instant)
    requires WorkersOk(s) && Enabled(s, Finish(w, messageId, stamp, Applied))
    ensures s.workers[w].run.Some? && s.workers[w].conversation.Some? && s.workers[w].stored.Some?
    ensures
      var k := s.workers[w];
      var concluded := Conclude(k.run.value, k.conversation.value, k.pc.content, k.pc.usage, stamp, messageId);
      && (concluded.Ok? <==> 3 <= k.command.limits.maxSteps)
      && (concluded.Ok? ==> Concludes(s, w, concluded.value) && concluded.value.message.id == messageId)
  {
    var k := s.workers[w];
    RepliedRun(s, w);
    ConcludeShape(k.run.value, k.conversation.value, k.pc.content, k.pc.usage, stamp, messageId);
    if 3 <= k.command.limits.maxSteps {
      ConcludeEffect(s, w, messageId, stamp,
                     Conclude(k.run.value, k.conversation.value, k.pc.content, k.pc.usage, stamp, messageId).value);
    }
  }

  lemma SettlesExactly(s: State, w: WorkerId, done: Conclusion)
    requires WorkersOk(s) && MessagesOk(s) && Concludes(s, w, done)
    ensures FinishTurn(s.tables, done, s.workers[w].HeldClaim()).Ok?
      <==> (s.workers[w].command.key.Some? ==> OwnsClaim(s, w))
  {
    NoReplyYet(s, w);
    RepliedRun(s, w);
    MessageIdsAreUnused(s, done.message.id);
    FinishEffect(s.tables, s.workers[w].stored.value, done, s.workers[w].HeldClaim());
  }

  lemma AnswerOutcome(s: State, w: WorkerId, messageId: Id, stamp: Instant, fate: Fate)
    requires WorkersOk(s) && MessagesOk(s) && Enabled(s, Finish(w, messageId, stamp, fate)) && Equipped(s.workers[w])
    ensures
      var s' := DoFinish(s, w, messageId, stamp, fate);
      && w in s'.workers
      && (s'.workers[w].Answered() <==> MayAnswer(s, w) && fate != Lost)
      && (s'.workers[w].pc.Returned? <==> MayAnswer(s, w) && fate == Applied)
  {
    var k := s.workers[w];
    ConcludesExactly(s, w, messageId, stamp);
    NoReplyYet(s, w);
    var concluded := Conclude(k.run.value, k.conversation.value, k.pc.content, k.pc.usage, stamp, messageId);
    FinishCases(s, w, messageId, stamp, fate, concluded);
    if concluded.Ok? {
      SettlesExactly(s, w, concluded.value);
      ConcludedOutcome(s, w, concluded.value, FinishTurn(s.tables, concluded.value, k.HeldClaim()), fate,
                       DoFinish(s, w, messageId, stamp, fate));
    }
  }

  lemma ConcludedOutcome(s: State, w: WorkerId, done: Conclusion, finished: Result<Tables>, fate: Fate, s': State)
    requires w in s.workers && !s.workers[w].Answered() && done.run.status.Succeeded?
    requires s' == (if finished.Err? then Unfinish(s, w, done, finished.error)
                    else if fate == Lost then Unfinish(s, w, done, DATABASE_UNAVAILABLE)
                    else Finished(s, w, done, finished.value, fate))
    ensures w in s'.workers
    ensures s'.workers[w].Answered() <==> finished.Ok? && fate != Lost
    ensures s'.workers[w].pc.Returned? <==> finished.Ok? && fate == Applied
  {
  }

  /** A step budget of one rolls the start back, and of two fails every turn after its model call.
      An answer is committed exactly when the budget has room for three steps, a claim is still
      held if there is a key, and the commit is not rolled back; it is returned exactly when the
      commit is also reported as it is. */
  lemma AnswersCommitExactly(e: Execution, n: nat, w: WorkerId, messageId: Id, stamp: Instant, fate: Fate)
    requires e.Valid() && n < |e.actions| && e.actions[n] == Finish(w, messageId, stamp, fate)
    ensures w in e.states[n].workers && w in e.states[n + 1].workers
    ensures
      var s, k' := e.states[n], e.states[n + 1].workers[w];
      && 2 <= s.workers[w].command.limits.maxSteps
      && (k'.Answered() <==> MayAnswer(s, w) && fate != Lost)
      && (k'.pc.Returned? <==> MayAnswer(s, w) && fate == Applied)
  {
    OneStep(e, n);
    RepliedRun(e.states[n], w);
    AnswerOutcome(e.states[n], w, messageId, stamp, fate);
  }
}
