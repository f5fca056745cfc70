/** Any number of executions of `RunAgentTurn.execute` against one database, as a transition
    system.  A worker is one execution.  Reads and compare-and-swaps of a claim are separate
    steps; every other transaction is one step, because it commits or rolls back as a whole.
    Commits may apply and be reported as failed, and workers may crash anywhere.

    `input`, `stored`, `ticket`, `settlement`, `transactions`, `claims`, `calls` and `authors`
    are history: no step reads them to decide what it does.  `since` only bounds the instants that
    a worker may read from the clock. */
module Protocol {
  import opened Common
  import opened Conversations
  import opened Runs
  import opened Tables
  import opened Turn
  import Idempotency

  type WorkerId = nat

  datatype Pc =
    | Reading                                     // _check_idempotency, before the first read
    | Inserting(readAt: Instant)                  // the key was free when read
    | Rereading                                   // the insert lost a race
    | Observed(row: Record)                       // a row was read; it may have changed since
    | Swapping(row: Record, judgedAt: Instant)    // the row was judged expired
    | Starting                                    // _start_turn
    | Prompting                                   // _build_request
    | Calling(request: Request)                   // the model call is in flight
    | Replied(content: string, usage: Usage)      // _finish_turn
    | FailingRun(error: Error)                    // _settle_failed_run
    | FailingClaim(error: Error)                  // _settle_failed_claim
    | Returned(result: TurnResult)
    | PreviouslyFailed                            // "A previous attempt for this request failed ..."
    | Raised(error: Error)
    | Crashed
  {
    predicate Final() {
      Returned? || PreviouslyFailed? || Raised? || Crashed?
    }

    /** `_check_idempotency` has not decided yet. */
    predicate Claiming() {
      Reading? || Inserting? || Rereading? || Observed? || Swapping?
    }

    /** `_start_turn` has returned and nothing was settled yet. */
    predicate Running() {
      Prompting? || Calling? || Replied?
    }
  }

  /** Own steps a worker may still take. */
  function Rank(pc: Pc): nat {
    match pc
    case Reading => 11
    case Inserting(_) => 10
    case Rereading => 9
    case Observed(_) => 8
    case Swapping(_, _) => 7
    case Starting => 6
    case Prompting => 5
    case Calling(_) => 4
    case Replied(_, _) => 3
    case FailingRun(_) => 2
    case FailingClaim(_) => 1
    case _ => 0
  }

  /** What became of the run this worker opened. */
  datatype Settlement = Unopened | Unfinished | Settled | Unsettled

  datatype Worker = Worker(
    command: Command,
    text: string,
    pc: Pc,
    token: Option<Id>,
    conversation: Option<Snapshot>,
    run: Option<Run>,
    input: Option<Message>,
    reply: Option<Message>,
    stored: Option<Run>,
    ticket: nat,
    settlement: Settlement,
    transactions: nat)
  {
    function Key(): RecordKey
      requires command.key.Some?
    {
      RecordKeyOf(command.key.value)
    }

    function HeldClaim(): Option<Claim> {
      if command.key.Some? && token.Some? then Some(Claim(command.key.value, token.value)) else None
    }

    predicate Carries(key: RecordKey) {
      command.key.Some? && Key() == key
    }

    predicate Answered() {
      stored.Some? && stored.value.status.Succeeded?
    }
  }

  datatype IssuedClaim = IssuedClaim(at: Instant, token: Id, owner: WorkerId)

  datatype State = State(
    prompt: string,
    now: Instant,
    tables: Tables,
    issued: set<Id>,
    workers: map<WorkerId, Worker>,
    since: map<WorkerId, Instant>,
    claims: map<RecordKey, seq<IssuedClaim>>,
    calls: seq<WorkerId>,
    authors: map<Id, WorkerId>)
  {
    /** Worker `w` takes a step, now. */
    function With(w: WorkerId, k: Worker): State {
      this.(workers := workers[w := k], since := since[w := now])
    }

    /** When worker `w` took its last step. */
    function Since(w: WorkerId): Instant {
      if w in since then since[w] else now
    }

    function Issue(ids: set<Id>): State {
      this.(issued := issued + ids)
    }

    function ClaimsOf(key: RecordKey): seq<IssuedClaim> {
      if key in claims then claims[key] else []
    }

    /** A statement wrote a fresh claim for worker `w`. */
    function WithClaim(w: WorkerId, records: Records, key: RecordKey, stamp: Instant, token: Id): State {
      this.(tables := tables.(records := records),
            claims := claims[key := ClaimsOf(key) + [IssuedClaim(stamp, token, w)]])
    }
  }

  datatype Action =
    | Tick(elapsed: nat)
    | Administer(users: map<int, UserRow>, conversations: map<Id, ConversationRow>)
    | Begin(w: WorkerId, command: Command)
    | Read(w: WorkerId)
    | InsertRow(w: WorkerId, id: Id, token: Id, stamp: Instant, fate: Fate)
    | Reread(w: WorkerId)
    | Judge(w: WorkerId)
    | Swap(w: WorkerId, token: Id, stamp: Instant, fate: Fate)
    | OpenTurn(w: WorkerId, messageId: Id, runId: Id, stamp: Instant, fate: Fate)
    | Prompt(w: WorkerId)
    | Answer(w: WorkerId, response: Result<Response>)
    | Finish(w: WorkerId, messageId: Id, stamp: Instant, fate: Fate)
    | SettleRun(w: WorkerId, fate: Fate)
    | SettleClaim(w: WorkerId, fate: Fate)
    | Abort(w: WorkerId, error: Error)
    | Crash(w: WorkerId)

  /** The worker that takes the step, if it is not the world. */
  function Actor(a: Action): Option<WorkerId> {
    if a.Tick? || a.Administer? then None else Some(a.w)
  }

  predicate Fresh(s: State, id: Id) {
    id !in s.issued
  }

  /** A worker reads the clock after its last step and not later than it commits. */
  predicate Reads(s: State, w: WorkerId, stamp: Instant) {
    s.Since(w) <= stamp <= s.now
  }

  predicate Enabled(s: State, a: Action) {
    match a
    case Tick(_) => true
    case Administer(_, _) => true
    case Begin(w, _) => w !in s.workers
    case Read(w) => w in s.workers && s.workers[w].pc.Reading?
    case InsertRow(w, id, token, stamp, fate) =>
      && w in s.workers && s.workers[w].pc.Inserting?
      && Fresh(s, id) && Fresh(s, token) && id != token
      && s.workers[w].pc.readAt <= stamp <= s.now && fate != Lost
    case Reread(w) => w in s.workers && s.workers[w].pc.Rereading?
    case Judge(w) => w in s.workers && s.workers[w].pc.Observed?
    case Swap(w, token, stamp, fate) =>
      && w in s.workers && s.workers[w].pc.Swapping? && Fresh(s, token)
      && s.workers[w].pc.judgedAt <= stamp <= s.now && fate != Lost
    case OpenTurn(w, messageId, runId, stamp, fate) =>
      && w in s.workers && s.workers[w].pc.Starting?
      && Fresh(s, messageId) && Fresh(s, runId) && messageId != runId && Reads(s, w, stamp) && fate != Lost
    case Prompt(w) => w in s.workers && s.workers[w].pc.Prompting?
    case Answer(w, _) => w in s.workers && s.workers[w].pc.Calling?
    case Finish(w, messageId, stamp, _) =>
      && w in s.workers && s.workers[w].pc.Replied? && Fresh(s, messageId) && Reads(s, w, stamp)
    case SettleRun(w, _) => w in s.workers && s.workers[w].pc.FailingRun?
    case SettleClaim(w, _) => w in s.workers && s.workers[w].pc.FailingClaim?
    case Abort(w, _) => w in s.workers && (s.workers[w].pc.Claiming() || s.workers[w].pc.Starting?)
    case Crash(w) => w in s.workers && !s.workers[w].pc.Final()
  }

  function Ticked(s: State, elapsed: nat): State {
    s.(now := s.now + elapsed)
  }

  /** Users and conversations may change in any way between two transactions of a turn. */
  function Administered(s: State, users: map<int, UserRow>, conversations: map<Id, ConversationRow>): State {
    s.(tables := s.tables.(users := users, conversations := conversations))
  }

  // ---- _check_idempotency ----

  function Began(command: Command): Worker {
    var k := Worker(command, "", Starting, None, None, None, None, None, None, 0, Unopened, 0);
    match ValidateInput(command)
    case Err(e) => k.(pc := Raised(e))
    case Ok(text) => k.(text := text, pc := if command.key.Some? then Reading else Starting)
  }

  function DoRead(s: State, w: WorkerId): State
    requires w in s.workers && s.workers[w].command.key.Some?
  {
    var k := s.workers[w];
    var entered := k.(transactions := k.transactions + 1);
    if k.Key() in s.tables.records then s.With(w, entered.(pc := Observed(s.tables.records[k.Key()])))
    else s.With(w, entered.(pc := Inserting(s.now)))
  }

  /** A claim whose commit is reported as failed is written, but nobody holds its token. */
  function Claimed(s: State, w: WorkerId, token: Id, fate: Fate): Worker
    requires w in s.workers && s.workers[w].command.key.Some?
  {
    var k := s.workers[w];
    if fate == Applied then k.(pc := Starting, token := Some(token), ticket := |s.ClaimsOf(k.Key())|)
    else k.(pc := Raised(DATABASE_UNAVAILABLE))
  }

  function DoInsert(s: State, w: WorkerId, id: Id, token: Id, stamp: Instant, fate: Fate): State
    requires w in s.workers && s.workers[w].command.key.Some?
  {
    var k := s.workers[w];
    if k.Key() in s.tables.records then s.With(w, k.(pc := Rereading))
    else
      var records := Idempotency.InsertClaim(s.tables.records, k.Key(), id, stamp, token);
      s.WithClaim(w, records, k.Key(), stamp, token).With(w, Claimed(s, w, token, fate)).Issue({id, token})
  }

  function DoReread(s: State, w: WorkerId): State
    requires w in s.workers && s.workers[w].command.key.Some?
  {
    var k := s.workers[w];
    if k.Key() in s.tables.records then s.With(w, k.(pc := Observed(s.tables.records[k.Key()])))
    else s.With(w, k.(pc := Raised(CONTENDED)))
  }

  function DoJudge(s: State, w: WorkerId): State
    requires w in s.workers && s.workers[w].pc.Observed?
  {
    var k := s.workers[w];
    var row := k.pc.row;
    s.With(w, k.(pc :=
      match row.state
      case ClaimCompleted =>
        (match FromStored(row.result) case Some(result) => Returned(result) case None => Raised(MALFORMED_RESULT))
      case ClaimFailed => PreviouslyFailed
      case ClaimStarted =>
        if Idempotency.Expired(row, s.now, Idempotency.DEFAULT_CLAIM_TTL_SECONDS) then Swapping(row, s.now)
        else Raised(IN_PROGRESS)))
  }

  function DoSwap(s: State, w: WorkerId, token: Id, stamp: Instant, fate: Fate): State
    requires w in s.workers && s.workers[w].pc.Swapping? && s.workers[w].command.key.Some?
  {
    var k := s.workers[w];
    if Idempotency.Unchanged(s.tables.records, k.Key(), k.pc.row) then
      var records := Idempotency.TakeOver(s.tables.records, k.Key(), stamp, token);
      s.WithClaim(w, records, k.Key(), stamp, token).With(w, Claimed(s, w, token, fate)).Issue({token})
    else s.With(w, k.(pc := Raised(IN_PROGRESS)))
  }

  // ---- _start_turn, _build_request, _call_model ----

  /** The user message a worker posts. */
  function Question(k: Worker, messageId: Id, stamp: Instant): Message {
    Message(messageId, k.command.conversation, User, k.text, stamp)
  }

  /** The instants a transaction writes are read before it commits, so two transactions that
      overlap may commit in another order than that of their instants. */
  function DoOpen(s: State, w: WorkerId, messageId: Id, runId: Id, stamp: Instant, fate: Fate): State
    requires w in s.workers
  {
    var k := s.workers[w];
    var counted := k.(transactions := k.transactions + 1);
    match StartTurn(s.tables, k.command, k.text, stamp, messageId, runId)
    case Err(e) => s.With(w, counted.(pc := Raised(e)))
    case Ok(start) => Opened(s, w, start, Question(k, messageId, stamp), runId, fate)
  }

  /** A start whose commit is reported as failed leaves its rows behind, as a crash would. */
  function Opened(s: State, w: WorkerId, start: Start, m: Message, runId: Id, fate: Fate): State
    requires w in s.workers
  {
    var k := s.workers[w];
    var entered := k.(conversation := Some(start.conversation), run := Some(start.run), input := Some(m),
                      stored := Some(start.run), transactions := k.transactions + 1);
    s.(tables := start.tables, authors := s.authors[m.id := w]).Issue({m.id, runId}).With(w,
      if fate == Applied then entered.(pc := Prompting, settlement := Unfinished)
      else entered.(pc := Raised(DATABASE_UNAVAILABLE)))
  }

  function DoPrompt(s: State, w: WorkerId): State
    requires w in s.workers && s.workers[w].conversation.Some? && s.workers[w].run.Some?
  {
    var k := s.workers[w];
    match BuildRequest(k.command, s.prompt, k.conversation.value)
    case Err(e) => s.With(w, k.(pc := FailingRun(e)))
    case Ok(request) =>
      if DeadlinePassed(k.run.value, s.now) then s.With(w, k.(pc := FailingRun(DEADLINE_EXCEEDED)))
      else s.With(w, k.(pc := Calling(request))).(calls := s.calls + [w])
  }

  /** The provider answers, fails, or is cut off by the deadline. */
  function DoAnswer(s: State, w: WorkerId, response: Result<Response>): State
    requires w in s.workers
  {
    var k := s.workers[w];
    s.With(w, k.(pc :=
      match response
      case Err(e) => FailingRun(e)
      case Ok(r) =>
        (match ValidateResponse(r)
         case Err(e) => FailingRun(e)
         case Ok(content) => Replied(content, r.usage))))
  }

  // ---- _finish_turn, _fail_turn ----

  function DoFinish(s: State, w: WorkerId, messageId: Id, stamp: Instant, fate: Fate): State
    requires w in s.workers && s.workers[w].pc.Replied?
    requires s.workers[w].conversation.Some? && s.workers[w].run.Some?
  {
    var k := s.workers[w];
    match Conclude(k.run.value, k.conversation.value, k.pc.content, k.pc.usage, stamp, messageId)
    case Err(e) => Exit(s, w, FailingRun(e))
    case Ok(done) =>
      match FinishTurn(s.tables, done, k.HeldClaim())
      case Err(e) => Unfinish(s, w, done, e)
      case Ok(tables) =>
        if fate == Lost then Unfinish(s, w, done, DATABASE_UNAVAILABLE) else Finished(s, w, done, tables, fate)
  }

  /** The run is finished in memory, but the transaction that says so was rolled back. */
  function Unfinish(s: State, w: WorkerId, done: Conclusion, error: Error): State
    requires w in s.workers
  {
    var k := s.workers[w];
    s.Issue({done.message.id}).With(w,
      k.(run := Some(done.run), reply := Some(done.message), transactions := k.transactions + 1,
         pc := FailingRun(error)))
  }

  function Finished(s: State, w: WorkerId, done: Conclusion, tables: Tables, fate: Fate): State
    requires w in s.workers
  {
    var k := s.workers[w];
    s.(tables := tables, authors := s.authors[done.message.id := w]).Issue({done.message.id}).With(w,
      k.(run := Some(done.run), reply := Some(done.message), stored := Some(done.run), settlement := Settled,
         transactions := k.transactions + 1,
         pc := if fate == Applied then Returned(done.result) else FailingRun(DATABASE_UNAVAILABLE)))
  }

  function DoSettleRun(s: State, w: WorkerId, fate: Fate): State
    requires w in s.workers && s.workers[w].pc.FailingRun?
    requires s.workers[w].run.Some? && s.workers[w].stored.Some?
  {
    var k := s.workers[w];
    match SettleFailedRun(s.tables, k.run.value, k.pc.error.message, s.now)
    case Err(_) => RunMissed(s, w)
    case Ok(tables) => if fate == Lost then RunMissed(s, w) else RunSettled(s, w, tables)
  }

  function AfterRun(k: Worker): Worker
    requires k.pc.FailingRun?
  {
    k.(pc := if k.HeldClaim().Some? then FailingClaim(k.pc.error) else Raised(k.pc.error),
       transactions := k.transactions + 1)
  }

  /** Settlement problems are logged, never raised. */
  function RunMissed(s: State, w: WorkerId): State
    requires w in s.workers && s.workers[w].pc.FailingRun?
  {
    var k := s.workers[w];
    s.With(w, AfterRun(k).(settlement := if k.settlement.Settled? then Settled else Unsettled))
  }

  function RunSettled(s: State, w: WorkerId, tables: Tables): State
    requires w in s.workers && s.workers[w].pc.FailingRun? && s.workers[w].stored.Some?
  {
    var k := s.workers[w];
    s.(tables := tables).With(w,
      AfterRun(k).(settlement := Settled, stored := Some(FailedIfOpen(k.stored.value, k.pc.error, s.now))))
  }

  function FailedIfOpen(run: Run, error: Error, now: Instant): Run {
    match run.Fail(error.message, now) case Ok(failed) => failed case Err(_) => run
  }

  function DoSettleClaim(s: State, w: WorkerId, fate: Fate): State
    requires w in s.workers && s.workers[w].pc.FailingClaim? && s.workers[w].HeldClaim().Some?
  {
    var k := s.workers[w];
    var next := k.(pc := Raised(k.pc.error), transactions := k.transactions + 1);
    match SettleFailedClaim(s.tables, k.HeldClaim().value, k.pc.error.message)
    case Err(_) => s.With(w, next)
    case Ok(tables) => if fate == Lost then s.With(w, next) else s.(tables := tables).With(w, next)
  }

  /** An exception in the claim or the start transaction, before anything was applied.  It is
      not caught, and nothing is settled. */
  function DoAbort(s: State, w: WorkerId, error: Error): State
    requires w in s.workers
  {
    var k := s.workers[w];
    var opening := k.pc.Reading? || k.pc.Starting?;
    s.With(w, k.(pc := Raised(error), transactions := k.transactions + if opening then 1 else 0))
  }

  function Exit(s: State, w: WorkerId, pc: Pc): State
    requires w in s.workers
  {
    s.With(w, s.workers[w].(pc := pc))
  }

  /** What a worker must carry at each program point for its next step to make sense. */
  predicate Equipped(k: Worker) {
    && (k.pc.Claiming() ==> k.command.key.Some?)
    && (k.pc.Running() || k.pc.FailingRun? ==> k.conversation.Some? && k.run.Some? && k.stored.Some?)
    && (k.pc.FailingClaim? ==> k.HeldClaim().Some?)
  }

  ghost predicate AllEquipped(s: State) {
    forall w :: w in s.workers ==> Equipped(s.workers[w])
  }

  function Apply(s: State, a: Action): State
    requires Enabled(s, a)
    requires AllEquipped(s)
  {
    match a
    case Tick(elapsed) => Ticked(s, elapsed)
    case Administer(users, conversations) => Administered(s, users, conversations)
    case Begin(w, command) => s.With(w, Began(command))
    case Read(w) => DoRead(s, w)
    case InsertRow(w, id, token, stamp, fate) => DoInsert(s, w, id, token, stamp, fate)
    case Reread(w) => DoReread(s, w)
    case Judge(w) => DoJudge(s, w)
    case Swap(w, token, stamp, fate) => DoSwap(s, w, token, stamp, fate)
    case OpenTurn(w, messageId, runId, stamp, fate) => DoOpen(s, w, messageId, runId, stamp, fate)
    case Prompt(w) => DoPrompt(s, w)
    case Answer(w, response) => DoAnswer(s, w, response)
    case Finish(w, messageId, stamp, fate) => DoFinish(s, w, messageId, stamp, fate)
    case SettleRun(w, fate) => DoSettleRun(s, w, fate)
    case SettleClaim(w, fate) => DoSettleClaim(s, w, fate)
    case Abort(w, error) => DoAbort(s, w, error)
    case Crash(w) => Exit(s, w, Crashed)
  }

  /** An empty system: users and conversations exist, nothing has run yet. */
  predicate Initial(s: State) {
    && s.tables.messages == [] && s.tables.records == map[]
    && s.tables.runs == RunTables(map[], map[])
    && s.issued == {} && s.workers == map[] && s.since == map[]
    && s.claims == map[] && s.calls == [] && s.authors == map[]
  }
}
