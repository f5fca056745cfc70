/** The code as it is written is a run of the protocol: whatever `Executed` computes, a worker
    that nobody interferes with reaches by steps of the transition system. */
module Sequential {
  import opened Common
  import opened Runs
  import opened Tables
  import opened Turn
  import opened TurnTransactions
  import opened Protocol
  import opened Executions
  import opened Preservation
  import opened Progress

  datatype Trail = Trail(states: seq<State>, actions: seq<Action>)
  {
    /** Consecutive steps of worker `w` alone, from `s`, with time passing between them. */
    ghost predicate Solo(s: State, w: WorkerId) {
      && Path(states, actions) && states[0] == s
      && forall a :: a in actions ==> a.Tick? || Actor(a) == Some(w)
    }

    function End(): State
      requires |states| == |actions| + 1
    {
      states[|actions|]
    }
  }

  lemma Stay(s: State, w: WorkerId) returns (t: Trail)
    ensures t.Solo(s, w) && t.End() == s
  {
    t := Trail([s], []);
  }

  lemma TakeStep(t: Trail, s: State, w: WorkerId, a: Action, s': State) returns (t': Trail)
    requires t.Solo(s, w) && Next(t.End(), a, s') && (a.Tick? || Actor(a) == Some(w))
    ensures t'.Solo(s, w) && t'.End() == s'
  {
    ExtendPath(t.states, t.actions, a, s');
    t' := Trail(t.states + [s'], t.actions + [a]);
  }

  lemma Wait(t: Trail, s: State, w: WorkerId, until: Instant) returns (t': Trail)
    requires t.Solo(s, w) && t.End().now <= until
    ensures t'.Solo(s, w) && t'.End() == t.End().(now := until)
  {
    t' := TakeStep(t, s, w, Tick(until - t.End().now), t.End().(now := until));
  }

  // ---- The claim ----

  predicate Waiting(s: State, w: WorkerId, c: Command, text: string) {
    && w in s.workers && c.key.Some? && s.workers[w].pc.Reading?
    && s.workers[w].command == c && s.workers[w].text == text && s.workers[w].token.None?
  }

  /** The worker's last step lies in the past. */
  predicate Paced(s: State, w: WorkerId) {
    s.Since(w) <= s.now
  }

  /** What the claim leaves behind, and where the worker goes from it. */
  predicate Resolved(s: State, s': State, w: WorkerId, c: Command, text: string, env: Environment) {
    && w in s'.workers && c.key.Some? && Paced(s', w)
    && s'.prompt == s.prompt && s'.issued <= s.issued + {env.recordId, env.token} && s'.now <= env.claimedAt
    && s'.tables == CheckedTables(s.tables, RecordKeyOf(c.key.value), env)
    && Told(s'.workers[w], c, text, CheckedKey(s.tables, c.key.value, env))
  }

  predicate Told(k: Worker, c: Command, text: string, checked: Result<Checked>) {
    match checked
    case Err(e) => if e == PREVIOUS_FAILED then k.pc.PreviouslyFailed? else k.pc == Raised(e)
    case Ok(Cached(result)) => k.pc == Returned(result)
    case Ok(Owned(claim)) => k.pc.Starting? && k.command == c && k.text == text && k.HeldClaim() == Some(claim)
  }

  function Aborted(s: State, w: WorkerId): State
    requires w in s.workers
  {
    DoAbort(s, w, DATABASE_UNAVAILABLE)
  }

  function Judged(s: State, w: WorkerId, c: Command, text: string, env: Environment): State
    requires Waiting(s, w, c, text) && RecordKeyOf(c.key.value) in s.tables.records
  {
    DoJudge(DoRead(s, w).(now := env.judgedAt), w)
  }

  /** Where the claim ends when nobody interferes: on a free key, on an expired claim, and on a
      key that is decided or busy. */
  function FreeEnd(s: State, w: WorkerId, c: Command, text: string, env: Environment): State
    requires Waiting(s, w, c, text)
  {
    var read := DoRead(s, w).(now := env.claimedAt);
    if env.claimFate == Lost then Aborted(read, w)
    else DoInsert(read, w, env.recordId, env.token, env.claimedAt, env.claimFate)
  }

  function ExpiredEnd(s: State, w: WorkerId, c: Command, text: string, env: Environment): State
    requires Waiting(s, w, c, text) && RecordKeyOf(c.key.value) in s.tables.records
    requires Claimable(s.tables, RecordKeyOf(c.key.value), env)
  {
    var judged := Judged(s, w, c, text, env).(now := env.claimedAt);
    if env.claimFate == Lost then Aborted(judged, w) else DoSwap(judged, w, env.token, env.claimedAt, env.claimFate)
  }

  function RefusedEnd(s: State, w: WorkerId, c: Command, text: string, env: Environment): State
    requires Waiting(s, w, c, text) && !Claimable(s.tables, RecordKeyOf(c.key.value), env)
  {
    if env.claimFate != Applied then Aborted(DoRead(s, w), w) else Judged(s, w, c, text, env)
  }

  lemma FreeIsResolved(s: State, w: WorkerId, c: Command, text: string, env: Environment)
    requires Waiting(s, w, c, text) && s.now <= env.claimedAt && RecordKeyOf(c.key.value) !in s.tables.records
    ensures Resolved(s, FreeEnd(s, w, c, text, env), w, c, text, env)
  {
  }

  lemma ExpiredIsResolved(s: State, w: WorkerId, c: Command, text: string, env: Environment)
    requires Waiting(s, w, c, text) && RecordKeyOf(c.key.value) in s.tables.records
    requires Claimable(s.tables, RecordKeyOf(c.key.value), env)
    ensures Resolved(s, ExpiredEnd(s, w, c, text, env), w, c, text, env)
  {
  }

  lemma RefusedIsResolved(s: State, w: WorkerId, c: Command, text: string, env: Environment)
    requires Waiting(s, w, c, text) && s.now <= env.judgedAt <= env.claimedAt
    requires !Claimable(s.tables, RecordKeyOf(c.key.value), env)
    ensures Resolved(s, RefusedEnd(s, w, c, text, env), w, c, text, env)
  {
  }

  lemma JudgedTrail(t: Trail, s: State, w: WorkerId, c: Command, text: string, env: Environment) returns (t': Trail)
    requires t.Solo(s, w) && Waiting(t.End(), w, c, text)
    requires t.End().now <= env.judgedAt && RecordKeyOf(c.key.value) in t.End().tables.records
    ensures t'.Solo(s, w) && t'.End() == Judged(t.End(), w, c, text, env)
  {
    t' := TakeStep(t, s, w, Read(w), DoRead(t.End(), w));
    t' := Wait(t', s, w, env.judgedAt);
    t' := TakeStep(t', s, w, Judge(w), DoJudge(t'.End(), w));
  }

  lemma FreeTrail(t: Trail, s: State, w: WorkerId, c: Command, text: string, env: Environment) returns (t': Trail)
    requires t.Solo(s, w) && Waiting(t.End(), w, c, text) && t.End().now <= env.claimedAt
    requires Fresh(t.End(), env.recordId) && Fresh(t.End(), env.token) && env.recordId != env.token
    requires RecordKeyOf(c.key.value) !in t.End().tables.records
    ensures t'.Solo(s, w) && t'.End() == FreeEnd(t.End(), w, c, text, env)
  {
    t' := TakeStep(t, s, w, Read(w), DoRead(t.End(), w));
    t' := Wait(t', s, w, env.claimedAt);
    t' := TakeStep(t', s, w, if env.claimFate == Lost then Abort(w, DATABASE_UNAVAILABLE)
                         else InsertRow(w, env.recordId, env.token, env.claimedAt, env.claimFate),
               FreeEnd(t.End(), w, c, text, env));
  }

  lemma ExpiredTrail(t: Trail, s: State, w: WorkerId, c: Command, text: string, env: Environment) returns (t': Trail)
    requires t.Solo(s, w) && Waiting(t.End(), w, c, text) && t.End().now <= env.judgedAt <= env.claimedAt
    requires Fresh(t.End(), env.token) && RecordKeyOf(c.key.value) in t.End().tables.records
    requires Claimable(t.End().tables, RecordKeyOf(c.key.value), env)
    ensures t'.Solo(s, w) && t'.End() == ExpiredEnd(t.End(), w, c, text, env)
  {
    t' := JudgedTrail(t, s, w, c, text, env);
    t' := Wait(t', s, w, env.claimedAt);
    t' := TakeStep(t', s, w, if env.claimFate == Lost then Abort(w, DATABASE_UNAVAILABLE)
                         else Swap(w, env.token, env.claimedAt, env.claimFate),
               ExpiredEnd(t.End(), w, c, text, env));
  }

  lemma RefusedTrail(t: Trail, s: State, w: WorkerId, c: Command, text: string, env: Environment) returns (t': Trail)
    requires t.Solo(s, w) && Waiting(t.End(), w, c, text) && t.End().now <= env.judgedAt
    requires !Claimable(t.End().tables, RecordKeyOf(c.key.value), env)
    ensures t'.Solo(s, w) && t'.End() == RefusedEnd(t.End(), w, c, text, env)
  {
    if env.claimFate == Applied {
      t' := JudgedTrail(t, s, w, c, text, env);
    } else {
      t' := TakeStep(t, s, w, Read(w), DoRead(t.End(), w));
      t' := TakeStep(t', s, w, Abort(w, DATABASE_UNAVAILABLE), Aborted(t'.End(), w));
    }
  }

  lemma ClaimTrail(t: Trail, s: State, w: WorkerId, c: Command, text: string, env: Environment) returns (t': Trail)
    requires t.Solo(s, w) && Waiting(t.End(), w, c, text) && t.End().now <= env.judgedAt <= env.claimedAt
    requires Fresh(t.End(), env.recordId) && Fresh(t.End(), env.token) && env.recordId != env.token
    ensures t'.Solo(s, w) && Resolved(t.End(), t'.End(), w, c, text, env)
  {
    if RecordKeyOf(c.key.value) !in t.End().tables.records {
      t' := FreeTrail(t, s, w, c, text, env);
      FreeIsResolved(t.End(), w, c, text, env);
    } else if Claimable(t.End().tables, RecordKeyOf(c.key.value), env) {
      t' := ExpiredTrail(t, s, w, c, text, env);
      ExpiredIsResolved(t.End(), w, c, text, env);
    } else {
      t' := RefusedTrail(t, s, w, c, text, env);
      RefusedIsResolved(t.End(), w, c, text, env);
    }
  }

  // ---- The start ----

  /** The worker is about to start its turn. */
  predicate Ready(s: State, w: WorkerId, c: Command, text: string, claim: Option<Claim>) {
    && w in s.workers && s.workers[w].pc.Starting?
    && s.workers[w].command == c && s.workers[w].text == text && s.workers[w].HeldClaim() == claim
    && Paced(s, w)
  }

  function Started(s: State, c: Command, text: string, env: Environment): Result<Start> {
    StartTurn(s.tables, c, text, env.startedAt, env.messageId, env.runId)
  }

  function OpenEnd(s: State, w: WorkerId, c: Command, text: string, env: Environment): State
    requires w in s.workers
  {
    var here, started := s.(now := env.startedAt), Started(s, c, text, env);
    if started.Ok? && env.startFate == Lost then Aborted(here, w)
    else DoOpen(here, w, env.messageId, env.runId, env.startedAt, if started.Ok? then env.startFate else Applied)
  }

  /** The worker holds a started run and has not settled it. */
  predicate Holding(s: State, w: WorkerId, c: Command, claim: Option<Claim>, run: Run) {
    && w in s.workers && s.workers[w].command == c && s.workers[w].HeldClaim() == claim
    && s.workers[w].run == Some(run) && s.workers[w].stored.Some? && Paced(s, w)
  }

  /** What the start transaction leaves behind. */
  predicate Begun(s: State, s': State, w: WorkerId, c: Command, text: string, claim: Option<Claim>, env: Environment) {
    var started := Started(s, c, text, env);
    var tables := if started.Ok? then Ok(started.value.tables) else Err(started.error);
    && s'.prompt == s.prompt && s'.now == env.startedAt && s'.issued <= s.issued + {env.messageId, env.runId}
    && s'.tables == Committed(s.tables, tables, env.startFate)
    && w in s'.workers
    && (match RaisedBy(tables, env.startFate)
        case Some(e) => s'.workers[w].pc == Raised(e)
        case None =>
          && Holding(s', w, c, claim, started.value.run) && s'.workers[w].pc.Prompting?
          && s'.workers[w].conversation == Some(started.value.conversation))
  }

  lemma RefusedIsBegun(s: State, w: WorkerId, c: Command, text: string, claim: Option<Claim>, env: Environment)
    requires Ready(s, w, c, text, claim) && Started(s, c, text, env).Err?
    ensures Begun(s, OpenEnd(s, w, c, text, env), w, c, text, claim, env)
  {
  }

  lemma OpenedIsBegun(s: State, w: WorkerId, c: Command, text: string, claim: Option<Claim>, env: Environment)
    requires Ready(s, w, c, text, claim) && Started(s, c, text, env).Ok?
    ensures Begun(s, OpenEnd(s, w, c, text, env), w, c, text, claim, env)
  {
  }

  lemma OpenTrail(t: Trail, s: State, w: WorkerId, c: Command, text: string, claim: Option<Claim>, env: Environment)
    returns (t': Trail)
    requires t.Solo(s, w) && Ready(t.End(), w, c, text, claim) && t.End().now <= env.startedAt
    requires Fresh(t.End(), env.messageId) && Fresh(t.End(), env.runId) && env.messageId != env.runId
    ensures t'.Solo(s, w) && t'.End() == OpenEnd(t.End(), w, c, text, env)
  {
    var started := Started(t.End(), c, text, env);
    t' := Wait(t, s, w, env.startedAt);
    if started.Ok? && env.startFate == Lost {
      t' := AbortStep(t', s, w);
    } else {
      t' := OpenStep(t', s, w, env.messageId, env.runId, env.startedAt, if started.Ok? then env.startFate else Applied);
    }
  }

  lemma AbortStep(t: Trail, s: State, w: WorkerId) returns (t': Trail)
    requires t.Solo(s, w) && Enabled(t.End(), Abort(w, DATABASE_UNAVAILABLE))
    ensures t'.Solo(s, w) && t'.End() == Aborted(t.End(), w)
  {
    t' := TakeStep(t, s, w, Abort(w, DATABASE_UNAVAILABLE), Aborted(t.End(), w));
  }

  lemma OpenStep(t: Trail, s: State, w: WorkerId, messageId: Id, runId: Id, stamp: Instant, fate: Fate)
    returns (t': Trail)
    requires t.Solo(s, w) && Enabled(t.End(), OpenTurn(w, messageId, runId, stamp, fate))
    ensures t'.Solo(s, w) && t'.End() == DoOpen(t.End(), w, messageId, runId, stamp, fate)
  {
    t' := TakeStep(t, s, w, OpenTurn(w, messageId, runId, stamp, fate),
                   DoOpen(t.End(), w, messageId, runId, stamp, fate));
  }

  // ---- The model call ----

  function PromptEnd(s: State, w: WorkerId, env: Environment): State
    requires w in s.workers && s.workers[w].conversation.Some? && s.workers[w].run.Some?
  {
    var prompted := DoPrompt(s.(now := env.calledAt), w);
    if prompted.workers[w].pc.Calling? then DoAnswer(prompted, w, env.response) else prompted
  }

  lemma PromptIsSent(s: State, w: WorkerId, c: Command, claim: Option<Claim>, start: Start)
    requires Holding(s, w, c, claim, start.run) && s.workers[w].conversation == Some(start.conversation)
    ensures
      var s' := DoPrompt(s, w);
      && s'.prompt == s.prompt && s'.now == s.now && s'.issued == s.issued && s'.tables == s.tables
      && Holding(s', w, c, claim, start.run) && s'.workers[w].conversation == Some(start.conversation)
      && s'.workers[w].pc == (match BuildRequest(c, s.prompt, start.conversation)
                              case Err(e) => FailingRun(e)
                              case Ok(request) =>
                                if DeadlinePassed(start.run, s.now) then FailingRun(DEADLINE_EXCEEDED)
                                else Calling(request))
  {
  }

  lemma CallIsAnswered(
    s: State, w: WorkerId, c: Command, claim: Option<Claim>, start: Start, response: Result<Response>)
    requires Holding(s, w, c, claim, start.run) && s.workers[w].conversation == Some(start.conversation)
    ensures
      var s' := DoAnswer(s, w, response);
      && s'.prompt == s.prompt && s'.now == s.now && s'.issued == s.issued && s'.tables == s.tables
      && Holding(s', w, c, claim, start.run) && s'.workers[w].conversation == Some(start.conversation)
      && s'.workers[w].pc == (match response
                              case Err(e) => FailingRun(e)
                              case Ok(r) =>
                                if ValidateResponse(r).Err? then FailingRun(ValidateResponse(r).error)
                                else Replied(ValidateResponse(r).value, r.usage))
  {
  }

  lemma ReplyIsEither(c: Command, systemPrompt: string, start: Start, env: Environment)
    ensures
      var built := BuildRequest(c, systemPrompt, start.conversation);
      ReplyOf(c, systemPrompt, start, env)
      == if built.Err? then Err(built.error)
         else if DeadlinePassed(start.run, env.calledAt) then Err(DEADLINE_EXCEEDED)
         else if env.response.Err? then Err(env.response.error)
         else if ValidateResponse(env.response.value).Err? then Err(ValidateResponse(env.response.value).error)
         else Ok((ValidateResponse(env.response.value).value, env.response.value.usage))
  {
  }

  lemma PromptIsReplied(s: State, w: WorkerId, c: Command, claim: Option<Claim>, start: Start, env: Environment)
    requires Holding(s, w, c, claim, start.run) && s.workers[w].conversation == Some(start.conversation)
    requires s.now <= env.calledAt
    ensures
      var s' := PromptEnd(s, w, env);
      && s'.prompt == s.prompt && s'.now == env.calledAt && s'.issued == s.issued && s'.tables == s.tables
      && Holding(s', w, c, claim, start.run) && s'.workers[w].conversation == Some(start.conversation)
      && s'.workers[w].pc == (match ReplyOf(c, s.prompt, start, env)
                              case Err(e) => FailingRun(e)
                              case Ok(reply) => Replied(reply.0, reply.1))
  {
    var here := s.(now := env.calledAt);
    PromptIsSent(here, w, c, claim, start);
    ReplyIsEither(c, s.prompt, start, env);
    if DoPrompt(here, w).workers[w].pc.Calling? {
      CallIsAnswered(DoPrompt(here, w), w, c, claim, start, env.response);
    }
  }

  lemma PromptTrail(t: Trail, s: State, w: WorkerId, env: Environment) returns (t': Trail)
    requires t.Solo(s, w) && w in t.End().workers && t.End().workers[w].pc.Prompting? && t.End().now <= env.calledAt
    requires t.End().workers[w].conversation.Some? && t.End().workers[w].run.Some?
    ensures t'.Solo(s, w) && t'.End() == PromptEnd(t.End(), w, env)
  {
    t' := Wait(t, s, w, env.calledAt);
    t' := PromptStep(t', s, w);
    if t'.End().workers[w].pc.Calling? {
      t' := AnswerStep(t', s, w, env.response);
    }
  }

  lemma PromptStep(t: Trail, s: State, w: WorkerId) returns (t': Trail)
    requires t.Solo(s, w) && w in t.End().workers && t.End().workers[w].pc.Prompting?
    requires t.End().workers[w].conversation.Some? && t.End().workers[w].run.Some?
    ensures t'.Solo(s, w) && t'.End() == DoPrompt(t.End(), w)
  {
    t' := TakeStep(t, s, w, Prompt(w), DoPrompt(t.End(), w));
  }

  lemma AnswerStep(t: Trail, s: State, w: WorkerId, response: Result<Response>) returns (t': Trail)
    requires t.Solo(s, w) && w in t.End().workers && t.End().workers[w].pc.Calling?
    ensures t'.Solo(s, w) && t'.End() == DoAnswer(t.End(), w, response)
  {
    t' := TakeStep(t, s, w, Answer(w, response), DoAnswer(t.End(), w, response));
  }

  // ---- The settlement of an answer ----

  lemma RefusedAnswer(
    s: State, w: WorkerId, c: Command, claim: Option<Claim>, start: Start, reply: (string, Usage), env: Environment)
    requires Holding(s, w, c, claim, start.run) && s.workers[w].conversation == Some(start.conversation)
    requires s.workers[w].pc == Replied(reply.0, reply.1)
    requires Concluded(start, reply, env).Err?
    requires s.now <= env.answeredAt
    ensures
      var s' := DoFinish(s.(now := env.answeredAt), w, env.answerId, env.answeredAt, env.answerFate);
      && s'.tables == s.tables && s'.now == env.answeredAt
      && Holding(s', w, c, claim, start.run) && s'.workers[w].pc == FailingRun(Concluded(start, reply, env).error)
  {
  }

  lemma ConcludedAnswer(
    s: State, w: WorkerId, c: Command, claim: Option<Claim>, start: Start, reply: (string, Usage), env: Environment)
    requires Holding(s, w, c, claim, start.run) && s.workers[w].conversation == Some(start.conversation)
    requires s.workers[w].pc == Replied(reply.0, reply.1)
    requires Concluded(start, reply, env).Ok?
    requires s.now <= env.answeredAt
    ensures
      var s' := DoFinish(s.(now := env.answeredAt), w, env.answerId, env.answeredAt, env.answerFate);
      var done := Concluded(start, reply, env).value;
      AnswerLeft(s, s', w, c, claim, done, FinishTurn(s.tables, done, claim), env)
  {
    var here := s.(now := env.answeredAt);
    var done := Concluded(start, reply, env).value;
    FinishCases(here, w, env.answerId, env.answeredAt, env.answerFate, Ok(done));
    FinishedAnswer(s, w, c, claim, done, FinishTurn(s.tables, done, claim), env);
  }

  lemma FinishedAnswer(
    s: State, w: WorkerId, c: Command, claim: Option<Claim>, done: Conclusion, tables: Result<Tables>, env: Environment)
    requires w in s.workers && s.workers[w].command == c && s.workers[w].HeldClaim() == claim
    requires s.workers[w].stored.Some?
    ensures
      var here := s.(now := env.answeredAt);
      AnswerLeft(s, if tables.Err? then Unfinish(here, w, done, tables.error)
                  else if env.answerFate == Lost then Unfinish(here, w, done, DATABASE_UNAVAILABLE)
                  else Finished(here, w, done, tables.value, env.answerFate), w, c, claim, done, tables, env)
  {
  }

  /** What a concluded answer leaves behind. */
  predicate AnswerLeft(
    s: State, s': State, w: WorkerId, c: Command, claim: Option<Claim>, done: Conclusion, tables: Result<Tables>,
    env: Environment)
  {
    && s'.tables == Committed(s.tables, tables, env.answerFate) && s'.now == env.answeredAt
    && Holding(s', w, c, claim, done.run)
    && s'.workers[w].pc == (match RaisedBy(tables, env.answerFate)
                            case None => Returned(done.result)
                            case Some(e) => FailingRun(e))
  }

  function Concluded(start: Start, reply: (string, Usage), env: Environment): Result<Conclusion> {
    Conclude(start.run, start.conversation, reply.0, reply.1, env.answeredAt, env.answerId)
  }

  lemma FinishStep(t: Trail, s: State, w: WorkerId, messageId: Id, stamp: Instant, fate: Fate)
    returns (t': Trail)
    requires t.Solo(s, w) && Enabled(t.End(), Finish(w, messageId, stamp, fate))
    requires t.End().workers[w].conversation.Some? && t.End().workers[w].run.Some?
    ensures t'.Solo(s, w) && t'.End() == DoFinish(t.End(), w, messageId, stamp, fate)
  {
    t' := TakeStep(t, s, w, Finish(w, messageId, stamp, fate), DoFinish(t.End(), w, messageId, stamp, fate));
  }

  // ---- The settlement of a failure ----

  function FailEnd(s: State, w: WorkerId, env: Environment): State
    requires w in s.workers && s.workers[w].pc.FailingRun? && s.workers[w].run.Some? && s.workers[w].stored.Some?
  {
    var settled := DoSettleRun(s.(now := env.failedAt), w, env.runFate);
    if settled.workers[w].pc.FailingClaim? then DoSettleClaim(settled, w, env.failureFate) else settled
  }

  lemma SettleRunIsCommitted(
    s: State, w: WorkerId, c: Command, claim: Option<Claim>, run: Run, error: Error, fate: Fate)
    requires Holding(s, w, c, claim, run) && s.workers[w].pc == FailingRun(error)
    ensures
      var s' := DoSettleRun(s, w, fate);
      && s'.tables == Committed(s.tables, SettleFailedRun(s.tables, run, error.message, s.now), fate)
      && w in s'.workers && s'.workers[w].HeldClaim() == claim
      && s'.workers[w].pc == (if claim.Some? then FailingClaim(error) else Raised(error))
  {
  }

  lemma SettleClaimIsCommitted(s: State, w: WorkerId, claim: Claim, error: Error, fate: Fate)
    requires w in s.workers && s.workers[w].HeldClaim() == Some(claim) && s.workers[w].pc == FailingClaim(error)
    ensures
      var s' := DoSettleClaim(s, w, fate);
      && s'.tables == Committed(s.tables, SettleFailedClaim(s.tables, claim, error.message), fate)
      && w in s'.workers && s'.workers[w].pc == Raised(error)
  {
  }

  lemma FailIsFailed(s: State, w: WorkerId, c: Command, claim: Option<Claim>, run: Run, error: Error, env: Environment)
    requires Holding(s, w, c, claim, run) && s.workers[w].pc == FailingRun(error)
    requires s.now <= env.failedAt
    ensures
      var s' := FailEnd(s, w, env);
      && s'.tables == FailedTurn(s.tables, run, claim, error, env).tables
      && w in s'.workers && s'.workers[w].pc == Raised(error)
  {
    var here := s.(now := env.failedAt);
    SettleRunIsCommitted(here, w, c, claim, run, error, env.runFate);
    if claim.Some? {
      SettleClaimIsCommitted(DoSettleRun(here, w, env.runFate), w, claim.value, error, env.failureFate);
    }
  }

  lemma FailTrail(t: Trail, s: State, w: WorkerId, env: Environment) returns (t': Trail)
    requires t.Solo(s, w) && w in t.End().workers && t.End().workers[w].pc.FailingRun? && t.End().now <= env.failedAt
    requires t.End().workers[w].run.Some? && t.End().workers[w].stored.Some?
    ensures t'.Solo(s, w) && t'.End() == FailEnd(t.End(), w, env)
  {
    t' := Wait(t, s, w, env.failedAt);
    t' := SettleRunStep(t', s, w, env.runFate);
    if t'.End().workers[w].pc.FailingClaim? {
      t' := SettleClaimStep(t', s, w, env.failureFate);
    }
  }

  lemma SettleRunStep(t: Trail, s: State, w: WorkerId, fate: Fate) returns (t': Trail)
    requires t.Solo(s, w) && w in t.End().workers && t.End().workers[w].pc.FailingRun?
    requires t.End().workers[w].run.Some? && t.End().workers[w].stored.Some?
    ensures t'.Solo(s, w) && t'.End() == DoSettleRun(t.End(), w, fate)
  {
    t' := TakeStep(t, s, w, SettleRun(w, fate), DoSettleRun(t.End(), w, fate));
  }

  lemma SettleClaimStep(t: Trail, s: State, w: WorkerId, fate: Fate) returns (t': Trail)
    requires t.Solo(s, w) && w in t.End().workers && t.End().workers[w].pc.FailingClaim?
    requires t.End().workers[w].HeldClaim().Some?
    ensures t'.Solo(s, w) && t'.End() == DoSettleClaim(t.End(), w, fate)
  {
    t' := TakeStep(t, s, w, SettleClaim(w, fate), DoSettleClaim(t.End(), w, fate));
  }

  // ---- The whole execution ----

  /** How a worker exits with a reply. */
  predicate Exited(k: Worker, reply: Result<TurnResult>) {
    match reply
    case Ok(result) => k.pc == Returned(result)
    case Err(e) => k.pc == Raised(e) || (e == PREVIOUS_FAILED && k.pc.PreviouslyFailed?)
  }

  predicate Ends(s: State, w: WorkerId, outcome: Outcome) {
    && s.tables == outcome.tables && w in s.workers && Exited(s.workers[w], outcome.reply)
  }

  lemma FailureEnds(
    t: Trail, s: State, w: WorkerId, c: Command, claim: Option<Claim>, run: Run, error: Error, env: Environment)
    returns (t': Trail)
    requires t.Solo(s, w) && Holding(t.End(), w, c, claim, run) && t.End().workers[w].pc == FailingRun(error)
    requires t.End().now <= env.failedAt
    ensures t'.Solo(s, w) && Ends(t'.End(), w, FailedTurn(t.End().tables, run, claim, error, env))
  {
    FailIsFailed(t.End(), w, c, claim, run, error, env);
    t' := FailTrail(t, s, w, env);
  }

  lemma AnswerEnds(
    t: Trail, s: State, w: WorkerId, c: Command, claim: Option<Claim>, start: Start, reply: (string, Usage),
    env: Environment)
    returns (t': Trail)
    requires t.Solo(s, w) && Holding(t.End(), w, c, claim, start.run)
    requires t.End().workers[w].conversation == Some(start.conversation)
    requires t.End().workers[w].pc == Replied(reply.0, reply.1)
    requires t.End().now <= env.answeredAt <= env.failedAt && Fresh(t.End(), env.answerId)
    ensures t'.Solo(s, w) && Ends(t'.End(), w, AnsweredTurn(t.End().tables, start, reply.0, reply.1, claim, env))
  {
    t' := Wait(t, s, w, env.answeredAt);
    t' := FinishStep(t', s, w, env.answerId, env.answeredAt, env.answerFate);
    var concluded := Concluded(start, reply, env);
    if concluded.Err? {
      RefusedAnswer(t.End(), w, c, claim, start, reply, env);
      t' := FailureEnds(t', s, w, c, claim, start.run, concluded.error, env);
    } else {
      ConcludedAnswer(t.End(), w, c, claim, start, reply, env);
      var raised := RaisedBy(FinishTurn(t.End().tables, concluded.value, claim), env.answerFate);
      if raised.Some? {
        t' := FailureEnds(t', s, w, c, claim, concluded.value.run, raised.value, env);
      }
    }
  }

  /** Instants do not run backwards. */
  predicate Ordered(env: Environment) {
    env.judgedAt <= env.claimedAt <= env.startedAt <= env.calledAt <= env.answeredAt <= env.failedAt
  }

  lemma BegunEnds(t: Trail, s: State, w: WorkerId, c: Command, claim: Option<Claim>, start: Start, env: Environment)
    returns (t': Trail)
    requires t.Solo(s, w) && Holding(t.End(), w, c, claim, start.run) && t.End().workers[w].pc.Prompting?
    requires t.End().workers[w].conversation == Some(start.conversation)
    requires t.End().now <= env.calledAt && Ordered(env) && Fresh(t.End(), env.answerId)
    ensures t'.Solo(s, w)
    ensures
      var left := t.End().tables;
      Ends(t'.End(), w, match ReplyOf(c, t.End().prompt, start, env)
                        case Err(e) => FailedTurn(left, start.run, claim, e, env)
                        case Ok(reply) => AnsweredTurn(left, start, reply.0, reply.1, claim, env))
  {
    PromptIsReplied(t.End(), w, c, claim, start, env);
    var replied := ReplyOf(c, t.End().prompt, start, env);
    t' := PromptTrail(t, s, w, env);
    if replied.Err? {
      t' := FailureEnds(t', s, w, c, claim, start.run, replied.error, env);
    } else {
      t' := AnswerEnds(t', s, w, c, claim, start, replied.value, env);
    }
  }

  lemma RefusedEnds(s: State, w: WorkerId, c: Command, text: string, claim: Option<Claim>, env: Environment)
    requires Ready(s, w, c, text, claim) && Started(s, c, text, env).Err?
    ensures Ends(OpenEnd(s, w, c, text, env), w, StartedTurn(s.tables, c, s.prompt, text, claim, env))
  {
    RefusedIsBegun(s, w, c, text, claim, env);
  }

  lemma UnappliedEnds(s: State, w: WorkerId, c: Command, text: string, claim: Option<Claim>, env: Environment)
    requires Ready(s, w, c, text, claim) && Started(s, c, text, env).Ok? && env.startFate != Applied
    ensures Ends(OpenEnd(s, w, c, text, env), w, StartedTurn(s.tables, c, s.prompt, text, claim, env))
  {
    OpenedIsBegun(s, w, c, text, claim, env);
  }

  lemma AppliedEnds(
    t: Trail, s: State, ready: State, w: WorkerId, c: Command, text: string, claim: Option<Claim>, env: Environment)
    returns (t': Trail)
    requires t.Solo(s, w) && Ready(ready, w, c, text, claim) && Started(ready, c, text, env).Ok?
    requires env.startFate == Applied && t.End() == OpenEnd(ready, w, c, text, env) && Ordered(env)
    requires env.answerId !in ready.issued + {env.messageId, env.runId}
    ensures t'.Solo(s, w) && Ends(t'.End(), w, StartedTurn(ready.tables, c, ready.prompt, text, claim, env))
  {
    OpenedIsBegun(ready, w, c, text, claim, env);
    t' := BegunEnds(t, s, w, c, claim, Started(ready, c, text, env).value, env);
  }

  lemma TurnEnds(t: Trail, s: State, w: WorkerId, c: Command, text: string, claim: Option<Claim>, env: Environment)
    returns (t': Trail)
    requires t.Solo(s, w) && Ready(t.End(), w, c, text, claim) && t.End().now <= env.startedAt && Ordered(env)
    requires {env.messageId, env.runId, env.answerId} !! t.End().issued
    requires env.messageId != env.runId && env.answerId !in {env.messageId, env.runId}
    ensures t'.Solo(s, w) && Ends(t'.End(), w, StartedTurn(t.End().tables, c, t.End().prompt, text, claim, env))
  {
    var started := Started(t.End(), c, text, env);
    t' := OpenTrail(t, s, w, c, text, claim, env);
    if started.Err? {
      RefusedEnds(t.End(), w, c, text, claim, env);
    } else if env.startFate != Applied {
      UnappliedEnds(t.End(), w, c, text, claim, env);
    } else {
      t' := AppliedEnds(t', s, t.End(), w, c, text, claim, env);
    }
  }

  /** The ids of one execution are new and distinct. */
  predicate NewIds(s: State, env: Environment) {
    && {env.recordId, env.token, env.messageId, env.runId, env.answerId} !! s.issued
    && env.recordId != env.token && env.messageId != env.runId && env.answerId !in {env.messageId, env.runId}
    && {env.recordId, env.token} !! {env.messageId, env.runId, env.answerId}
  }

  /** What `execute` computes when nobody interferes is what a new worker of the protocol reaches
      by its own steps: the same tables, and the same reply. */
  lemma ExecuteIsARunOfTheProtocol(s: State, w: WorkerId, c: Command, env: Environment) returns (t: Trail)
    requires w !in s.workers && s.now <= env.judgedAt && Ordered(env) && NewIds(s, env)
    ensures t.Solo(s, w) && Ends(t.End(), w, Executed(s.tables, c, s.prompt, env))
  {
    var begun := s.With(w, Began(c));
    t := Stay(s, w);
    t := TakeStep(t, s, w, Begin(w, c), begun);
    var valid := ValidateInput(c);
    if valid.Ok? {
      if c.key.None? {
        t := TurnEnds(t, s, w, c, valid.value, None, env);
      } else {
        t := ClaimTrail(t, s, w, c, valid.value, env);
        var checked := CheckedKey(s.tables, c.key.value, env);
        if checked.Ok? && checked.value.Owned? {
          t := TurnEnds(t, s, w, c, valid.value, Some(checked.value.claim), env);
        }
      }
    }
  }
}
