/** The order in which the messages of a conversation are committed, and the one in which they are
    read. */
module CommitOrder {
  import opened Common
  import opened Conversations
  import opened Turn
  import opened Protocol
  import opened Invariant
  import opened Preservation
  import opened Executions
  import opened Requests
  import opened Conservation
  import opened Takeovers
  import MessageOrder

  // ---- The clock ----

  lemma {:induction false} TimePasses(e: Execution, i: nat, j: nat)
    requires e.Valid() && i <= j < |e.states|
    ensures e.states[i].now <= e.states[j].now
  {
    TimeOnlyAdds(e, i, j);
  }

  lemma StepIsTimed(e: Execution, n: nat)
    requires e.Valid() && n < |e.actions|
    ensures
      var s, a, s' := e.states[n], e.actions[n], e.states[n + 1];
      s'.since == if Actor(a).Some? then s.since[a.w := s'.now] else s.since
  {
    OneStep(e, n);
  }

  /** After a step at `q` a worker never reads an earlier instant than that of the step. */
  lemma {:induction false} SinceStep(e: Execution, q: nat, n: nat, w: WorkerId)
    requires e.Valid() && q < n < |e.states| && Actor(e.actions[q]) == Some(w)
    ensures w in e.states[n].since && e.states[q].now <= e.states[n].since[w]
    decreases n
  {
    StepIsTimed(e, n - 1);
    TimePasses(e, q, n);
    if q < n - 1 {
      SinceStep(e, q, n - 1, w);
    }
  }

  // ---- Commits ----

  /** Step `p` committed a message. */
  predicate Commits(e: Execution, p: nat) {
    && p < |e.actions| && |e.states| == |e.actions| + 1
    && |e.states[p + 1].tables.messages| == |e.states[p].tables.messages| + 1
  }

  function MessageAt(e: Execution, p: nat): Message
    requires Commits(e, p)
  {
    e.states[p + 1].tables.messages[|e.states[p].tables.messages|]
  }

  predicate CommitsIn(e: Execution, p: nat, conversation: Id) {
    Commits(e, p) && MessageAt(e, p).conversation == conversation
  }

  lemma AddsOneMessage(s: State, s': State, w: WorkerId)
    requires Adds(s, s', w)
    ensures s'.tables.messages == s.tables.messages
      || exists m :: s'.tables.messages == s.tables.messages + [m] && Reads(s, w, m.createdAt)
  {
    if w in s.workers && s'.tables.messages != s.tables.messages {
      var k, k' := s.workers[w], s'.workers[w];
      var m := if k'.input != k.input then k'.input.value else k'.reply.value;
      assert s'.tables.messages == s.tables.messages + [m];
    }
  }

  lemma StepAppends(e: Execution, p: nat)
    requires e.Valid() && p < |e.actions|
    ensures
      var s, a, s' := e.states[p], e.actions[p], e.states[p + 1];
      s'.tables.messages == s.tables.messages
      || (Actor(a).Some? && exists m :: s'.tables.messages == s.tables.messages + [m] && Reads(s, a.w, m.createdAt))
  {
    OneStep(e, p);
    if Actor(e.actions[p]).Some? {
      AddsOneMessage(e.states[p], e.states[p + 1], e.actions[p].w);
    }
  }

  lemma StepCommits(e: Execution, p: nat)
    requires e.Valid() && p < |e.actions|
    ensures
      var s, s' := e.states[p], e.states[p + 1];
      if Commits(e, p) then
        && Actor(e.actions[p]).Some? && s'.tables.messages == s.tables.messages + [MessageAt(e, p)]
        && Reads(s, e.actions[p].w, MessageAt(e, p).createdAt)
      else s'.tables.messages == s.tables.messages
  {
    StepAppends(e, p);
  }

  /** Every stored message was committed by a step. */
  lemma {:induction false} CommittedSometime(e: Execution, n: nat, i: nat) returns (p: nat)
    requires e.Valid() && n < |e.states| && i < |e.states[n].tables.messages|
    ensures p < n && Commits(e, p) && MessageAt(e, p) == e.states[n].tables.messages[i]
  {
    p := n - 1;
    StepCommits(e, n - 1);
    if i < |e.states[n - 1].tables.messages| {
      p := CommittedSometime(e, n - 1, i);
    }
  }

  // ---- Turns that do not overlap ----

  /** Between its committing the earlier and the later of two messages the author of the later one
      took a step: it began, or it opened the transaction that wrote the message, only then. */
  predicate Apart(e: Execution, p: nat, r: nat)
    requires r < |e.actions|
  {
    exists q :: p <= q < r && Actor(e.actions[q]) == Actor(e.actions[r])
  }

  /** A message of a transaction that was opened after another message was committed does not carry
      the earlier instant. */
  lemma LaterTransactionsReadLater(e: Execution, p: nat, r: nat)
    requires e.Valid() && p < r && Commits(e, p) && Commits(e, r) && Apart(e, p, r)
    ensures MessageAt(e, p).createdAt <= MessageAt(e, r).createdAt
  {
    StepCommits(e, p);
    StepCommits(e, r);
    var q :| p <= q < r && Actor(e.actions[q]) == Actor(e.actions[r]);
    TimePasses(e, p, q);
    SinceStep(e, q, r, e.actions[r].w);
  }

  lemma ArrivalIsOwnStep(s: State, s': State, v: WorkerId, w: WorkerId)
    requires Footprint(s, s', v) && w !in s.workers && w in s'.workers
    ensures v == w
  {
  }

  lemma ArrivedNow(e: Execution, n: nat, w: WorkerId)
    requires e.Valid() && n < |e.actions| && w !in e.states[n].workers && w in e.states[n + 1].workers
    ensures Actor(e.actions[n]) == Some(w)
  {
    OneStep(e, n);
    if Actor(e.actions[n]).Some? {
      ArrivalIsOwnStep(e.states[n], e.states[n + 1], e.actions[n].w, w);
    }
  }

  lemma {:induction false} ArrivedBetween(e: Execution, i: nat, j: nat, w: WorkerId) returns (q: nat)
    requires e.Valid() && i <= j < |e.states| && w !in e.states[i].workers && w in e.states[j].workers
    ensures i <= q < j && Actor(e.actions[q]) == Some(w)
    decreases j
  {
    q := j - 1;
    if w in e.states[j - 1].workers {
      q := ArrivedBetween(e, i, j - 1, w);
    } else {
      ArrivedNow(e, j - 1, w);
    }
  }

  /** A turn that begins after a message was committed is apart from it. */
  lemma LaterTurnsAreApart(e: Execution, p: nat, r: nat)
    requires e.Valid() && p < r < |e.actions| && Actor(e.actions[r]).Some?
    requires e.actions[r].w in e.states[r].workers && e.actions[r].w !in e.states[p + 1].workers
    ensures Apart(e, p, r)
  {
    var q := ArrivedBetween(e, p + 1, r, e.actions[r].w);
  }

  /** Whenever two turns post in the conversation, the later message was written by a transaction
      that was opened after the earlier one was committed, as it is when each turn begins after the
      others have ended (`LaterTurnsAreApart`). */
  ghost predicate Serial(e: Execution, n: nat, conversation: Id)
    requires n < |e.states|
  {
    forall p, r :: 0 <= p < r < n && CommitsIn(e, p, conversation) && CommitsIn(e, r, conversation) ==>
      Actor(e.actions[p]) == Actor(e.actions[r]) || Apart(e, p, r)
  }

  function InCommitOrder(e: Execution, n: nat, conversation: Id): seq<Message>
    requires n < |e.states|
  {
    MessageOrder.Of(e.states[n].tables.messages, conversation)
  }

  lemma EarlierThanNext(e: Execution, n: nat, conversation: Id, m: Message)
    requires e.Valid() && n < |e.actions| && Serial(e, n + 1, conversation) && CommitsIn(e, n, conversation)
    requires m in InCommitOrder(e, n, conversation)
    ensures m.createdAt <= MessageAt(e, n).createdAt
  {
    var i :| 0 <= i < |e.states[n].tables.messages| && e.states[n].tables.messages[i] == m;
    var p := CommittedSometime(e, n, i);
    assert CommitsIn(e, p, conversation);
    if Actor(e.actions[p]) == Actor(e.actions[n]) {
      assert Apart(e, p, n);
    }
    LaterTransactionsReadLater(e, p, n);
  }

  lemma NextCommit(e: Execution, n: nat, conversation: Id)
    requires e.Valid() && n < |e.actions|
    ensures InCommitOrder(e, n + 1, conversation)
         == InCommitOrder(e, n, conversation) + if CommitsIn(e, n, conversation) then [MessageAt(e, n)] else []
  {
    StepCommits(e, n);
    if Commits(e, n) {
      MessageOrder.OfAppend(e.states[n].tables.messages, MessageAt(e, n), conversation);
    }
  }

  lemma {:induction false} SerialCommitsAscend(e: Execution, n: nat, conversation: Id)
    requires e.Valid() && n < |e.states| && Serial(e, n, conversation)
    ensures MessageOrder.NonDescending(InCommitOrder(e, n, conversation))
  {
    if n > 0 {
      SerialCommitsAscend(e, n - 1, conversation);
      NextCommit(e, n - 1, conversation);
      if CommitsIn(e, n - 1, conversation) {
        forall m | m in InCommitOrder(e, n - 1, conversation)
          ensures m.createdAt <= MessageAt(e, n - 1).createdAt
        {
          EarlierThanNext(e, n - 1, conversation, m);
        }
      }
    }
  }

  /** A conversation whose turns do not overlap is read in the order of its commits, up to messages
      of equal instants: the instants of the two agree place by place. */
  lemma HistoryIsCommitOrder(e: Execution, n: nat, conversation: Id)
    requires e.Valid() && n < |e.states| && Serial(e, n, conversation)
    ensures
      var committed, history := InCommitOrder(e, n, conversation), HistoryOf(e.states[n].tables, conversation);
      && MessageOrder.NonDescending(committed)
      && multiset(history) == multiset(committed) && MessageOrder.SameInstants(history, committed)
      && ((forall i, j :: 0 <= i < j < |committed| ==> committed[i].createdAt != committed[j].createdAt) ==>
            history == committed)
  {
    SerialCommitsAscend(e, n, conversation);
    ExecutionsAreSafe(e, n);
    StoredMessagesArePosted(e.states[n]);
    MessageOrder.OrderByKeepsInstants(InCommitOrder(e, n, conversation));
    MessageOrder.HistoryIsStorageOrder(e.states[n].tables.messages, conversation);
  }

  // ---- Turns that overlap ----

  /** Execution `e'` is `e` and one more step, in which worker `w` commits a message that carries an
      earlier instant than message `m`. */
  predicate CommitsBefore(e': Execution, e: Execution, w: WorkerId, m: Message)
    requires e.states != []
  {
    && Continues(e', e, |e.actions|) && |e'.actions| == |e.actions| + 1 && Commits(e', |e.actions|)
    && Actor(e'.actions[|e.actions|]) == Some(w) && MessageAt(e', |e.actions|).createdAt < m.createdAt
  }

  /** A worker that is about to start its turn may still commit a message that will be read before one
      that is committed already, exactly when its last step was taken before that one was stamped; and
      then it may be stamped with the instant of that step, however long ago it was. */
  lemma OverlapsMayReorder(e: Execution, w: WorkerId, c: Command, m: Message, messageId: Id, runId: Id)
    requires e.Valid() && MayOpen(EndOf(e), w, c)
    requires Fresh(EndOf(e), messageId) && Fresh(EndOf(e), runId) && messageId != runId
    ensures (exists e': Execution :: e'.Valid() && CommitsBefore(e', e, w, m)) <==> EndOf(e).Since(w) < m.createdAt
  {
    forall e': Execution | e'.Valid() && CommitsBefore(e', e, w, m)
      ensures EndOf(e).Since(w) < m.createdAt
    {
      StepCommits(e', |e.actions|);
      assert e'.states[|e.actions|] == EndOf(e);
    }
    if EndOf(e).Since(w) < m.createdAt {
      var e' := OpenHere(e, w, c, messageId, runId, EndOf(e).Since(w));
      assert CommitsBefore(e', e, w, m);
    }
  }

  /** An answer never carries an earlier instant than its question, whatever time passes and
      whoever else posts in between. */
  lemma AnswersFollowQuestions(e: Execution, n: nat, w: WorkerId)
    requires e.Valid() && n < |e.states| && w in e.states[n].workers && e.states[n].workers[w].Answered()
    ensures
      var s, k := e.states[n], e.states[n].workers[w];
      && k.input.Some? && k.reply.Some?
      && k.input.value in s.tables.messages && k.reply.value in s.tables.messages
      && k.input.value.createdAt <= k.reply.value.createdAt
  {
    ExecutionsKeepBoth(e, n);
    assert WorkerOk(e.states[n], w, e.states[n].workers[w]);
    assert OpenedOk(e.states[n], w, e.states[n].workers[w]);
  }
}
