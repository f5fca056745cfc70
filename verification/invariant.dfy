/** What every reachable state of the protocol satisfies. */
module Invariant {
  import opened Common
  import opened Conversations
  import opened Runs
  import opened Tables
  import opened Turn
  import opened Protocol
  import opened Requests
  import Idempotency
  import MessageOrder
  import RunStore
  import Text

  // ---- Counting ----

  function CountRole(ms: seq<Message>, conversation: Id, role: MessageRole): (n: nat)
    ensures ms == [] ==> n == 0
  {
    if ms == [] then 0
    else
      var m := ms[|ms| - 1];
      var more := if m.conversation == conversation && m.role == role then 1 else 0;
      CountRole(ms[..|ms| - 1], conversation, role) + more
  }

  function RunsOf(rows: map<Id, RunRow>, conversation: Id): set<Id> {
    set id | id in rows && rows[id].conversation == conversation
  }

  function SucceededOf(rows: map<Id, RunRow>, conversation: Id): set<Id> {
    set id | id in rows && rows[id].conversation == conversation && rows[id].status == Succeeded
  }

  function CompletedKeys(records: Records): set<RecordKey> {
    set key | key in records && records[key].state == ClaimCompleted
  }

  function KeyedAnswers(workers: map<WorkerId, Worker>): set<WorkerId> {
    set w | w in workers && workers[w].command.key.Some? && workers[w].Answered()
  }

  // ---- One worker ----

  /** A row that was read: its state is final, or it still tells the claim instant of the
      token it carries. */
  ghost predicate RowSeen(s: State, key: RecordKey, row: Record) {
    && key in s.tables.records
    && row.id == s.tables.records[key].id
    && row.token in s.issued
    && (!row.state.ClaimStarted? ==> s.tables.records[key] == row)
    && (s.tables.records[key].token == row.token ==> s.tables.records[key].claimedAt == row.claimedAt)
  }

  ghost predicate ClaimingOk(s: State, k: Worker) {
    && k.command.key.Some? && k.token.None?
    && (k.pc.Inserting? ==> k.pc.readAt <= s.now)
    && (k.pc.Rereading? ==> k.Key() in s.tables.records)
    && (k.pc.Observed? ==> RowSeen(s, k.Key(), k.pc.row))
    && (k.pc.Swapping? ==>
          && RowSeen(s, k.Key(), k.pc.row)
          && k.pc.row.state.ClaimStarted?
          && k.pc.judgedAt <= s.now
          && Idempotency.Expired(k.pc.row, k.pc.judgedAt, Idempotency.DEFAULT_CLAIM_TTL_SECONDS))
  }

  /** A token was issued to the worker that holds it, for its key. */
  ghost predicate TokenOk(s: State, w: WorkerId, k: Worker)
    requires k.token.Some?
  {
    && k.command.key.Some?
    && k.token.value in s.issued
    && k.Key() in s.tables.records
    && k.Key() in s.claims
    && k.ticket < |s.claims[k.Key()]|
    && s.claims[k.Key()][k.ticket].token == k.token.value
    && s.claims[k.Key()][k.ticket].owner == w
  }

  /** The stored run and the run in memory. */
  ghost predicate StoredOk(s: State, w: WorkerId, k: Worker)
    requires k.stored.Some?
  {
    && k.run.Some? && k.conversation.Some?
    && RunStore.Stores(s.tables.runs, k.stored.value)
    && RunStore.SameIdentity(k.stored.value, k.run.value)
    && k.stored.value.Disciplined() && k.run.value.Disciplined()
    && k.stored.value.id in s.issued
    && k.conversation.value.id == k.stored.value.conversation
    && (k.stored.value.status.Running? || k.stored.value.status.Terminal())
    && (k.stored.value.status.Running? ==> k.stored.value.steps <= k.run.value.steps)
    && (k.Answered() ==>
          && k.reply.Some? && k.reply.value in s.tables.messages && k.run == k.stored
          && AnsweredTrace(k.stored.value, k.reply.value)
          && k.reply.value.id in s.authors && s.authors[k.reply.value.id] == w)
  }

  /** A reply is committed exactly when the run that produced it is stored as succeeded. */
  ghost predicate ReplyOk(s: State, k: Worker)
    requires k.reply.Some?
  {
    && k.reply.value.role == Assistant
    && k.reply.value.id in s.issued
    && k.stored.Some?
    && k.reply.value.conversation == k.stored.value.conversation
    && (k.reply.value in s.tables.messages ==> k.Answered())
  }

  /** An answered key is settled, by this worker's claim, with this worker's result. */
  ghost predicate AnswerOk(s: State, k: Worker)
    requires k.stored.Some? && k.reply.Some?
  {
    k.command.key.Some? ==>
      && k.token.Some?
      && k.Key() in s.tables.records
      && s.tables.records[k.Key()].state == ClaimCompleted
      && s.tables.records[k.Key()].token == k.token.value
      && s.tables.records[k.Key()].result == ToStored(ResultOf(k.stored.value, k.reply.value))
  }

  /** Between its start and its settlement a turn holds the run it stored, two steps long, and
      an active conversation. */
  predicate RunningOk(k: Worker) {
    && k.stored.Some? && k.run == k.stored && k.stored.value.status.Running?
    && StartedTrace(k.stored.value) && k.stored.value.failureReason.None?
    && 2 <= k.command.limits.maxSteps && k.stored.value.limits == k.command.limits
    && k.conversation.Some? && k.conversation.value.status.Active?
    && (k.pc.Replied? ==> !Text.Blank(k.pc.content))
  }

  predicate NothingYet(k: Worker) {
    k.input.None? && k.conversation.None? && k.stored.None? && k.reply.None?
  }

  ghost predicate SettlementOk(k: Worker) {
    && (k.pc.Running() ==> k.settlement.Unfinished? && k.reply.None? && RunningOk(k))
    && (k.pc.FailingRun? ==> k.stored.Some? && (k.settlement.Unfinished? || (k.settlement.Settled? && k.Answered())))
    && (k.settlement.Unfinished? ==> k.stored.Some? && k.stored.value.status.Running?)
    && (k.settlement.Settled? ==> k.stored.Some? && k.stored.value.status.Terminal())
    && (k.settlement.Unopened? ==> k.stored.Some? ==> k.stored.value.status.Running?)
    && (k.settlement.Unsettled? ==> k.stored.Some? && k.stored.value.status.Running?)
    && (k.settlement.Unfinished? ==> k.pc.Running() || k.pc.FailingRun? || k.pc.Crashed?)
    && (k.pc.Claiming() || k.pc.Starting? ==> k.settlement.Unopened? && NothingYet(k))
    && (k.pc.FailingClaim? ==> k.settlement.Settled? || k.settlement.Unsettled?)
  }

  /** Transactions this execution may still open. */
  function TransactionsLeft(pc: Pc): nat {
    match pc
    case Reading => 5
    case Inserting(_) => 4
    case Rereading => 4
    case Observed(_) => 4
    case Swapping(_, _) => 4
    case Starting => 4
    case Prompting => 3
    case Calling(_) => 3
    case Replied(_, _) => 3
    case FailingRun(_) => 2
    case FailingClaim(_) => 1
    case Returned(_) => 0
    case PreviouslyFailed => 0
    case Raised(_) => 0
    case Crashed => 0
  }

  ghost predicate PcOk(s: State, w: WorkerId, k: Worker) {
    && (k.pc.Claiming() ==> ClaimingOk(s, k))
    && (k.pc.Starting? || k.pc.Running() || k.pc.FailingRun? || k.pc.FailingClaim? ==>
          (k.command.key.Some? <==> k.token.Some?))
    && (k.pc.Claiming() || k.pc.Starting? || k.pc.Running() ==> 0 < k.command.window)
    && (k.pc.FailingClaim? ==> k.token.Some?)
    && (k.pc.Prompting? ==> k.conversation.Some? && EndsWithInput(k.conversation.value, k.text))
    && (k.pc.Calling? ==>
          && k.conversation.Some? && BuildRequest(k.command, s.prompt, k.conversation.value) == Ok(k.pc.request)
          && Fits(k.pc.request, s.prompt, k.command.limits.maxContextTokens, k.text))
    && (k.pc.Returned? && k.command.key.Some? ==>
          && k.Key() in s.tables.records
          && s.tables.records[k.Key()].state == ClaimCompleted
          && s.tables.records[k.Key()].result == ToStored(k.pc.result))
    && (k.pc.Returned? && k.command.key.None? ==>
          k.Answered() && k.reply.Some? && k.pc.result == ResultOf(k.stored.value, k.reply.value))
    && (k.pc.PreviouslyFailed? ==>
          k.command.key.Some? && k.Key() in s.tables.records && s.tables.records[k.Key()].state == ClaimFailed)
  }

  ghost predicate WorkerOk(s: State, w: WorkerId, k: Worker) {
    && PcOk(s, w, k)
    && SettlementOk(k)
    && k.transactions + TransactionsLeft(k.pc) <= 5
    && (k.token.Some? ==> TokenOk(s, w, k))
    && (k.stored.Some? ==> StoredOk(s, w, k))
    && (k.reply.Some? ==> ReplyOk(s, k))
    && (k.stored.Some? && k.Answered() && k.reply.Some? ==> AnswerOk(s, k))
  }

  ghost predicate WorkersOk(s: State) {
    forall w :: w in s.workers ==> WorkerOk(s, w, s.workers[w])
  }

  // ---- The tables ----

  /** Nothing is shared between two workers. */
  ghost predicate Separate(s: State) {
    forall v, w :: v in s.workers && w in s.workers && v != w ==>
      && (s.workers[v].token.Some? && s.workers[w].token.Some? ==> s.workers[v].token != s.workers[w].token)
      && (s.workers[v].stored.Some? && s.workers[w].stored.Some? ==>
            s.workers[v].stored.value.id != s.workers[w].stored.value.id)
  }

  /** Successive claims are a TTL apart. */
  ghost predicate Spaced(claims: seq<IssuedClaim>) {
    forall i :: 0 < i < |claims| ==>
      claims[i].at - claims[i - 1].at >= Idempotency.DEFAULT_CLAIM_TTL_SECONDS * SECOND
  }

  /** Every claim was issued its own token. */
  ghost predicate DistinctTokens(s: State, claims: seq<IssuedClaim>) {
    && (forall i :: 0 <= i < |claims| ==> claims[i].token in s.issued)
    && (forall i, j :: 0 <= i < j < |claims| ==> claims[i].token != claims[j].token)
  }

  ghost predicate RecordOk(s: State, key: RecordKey)
    requires key in s.tables.records
  {
    var record := s.tables.records[key];
    && record.token in s.issued
    && key in s.claims && s.claims[key] != []
    && LastClaim(s, key).token == record.token && LastClaim(s, key).at == record.claimedAt
    && Spaced(s.claims[key]) && DistinctTokens(s, s.claims[key])
    && (record.state.ClaimCompleted? ==> CompletedByLastClaim(s, key))
  }

  ghost function LastClaim(s: State, key: RecordKey): IssuedClaim
    requires key in s.claims && s.claims[key] != []
  {
    s.claims[key][|s.claims[key]| - 1]
  }

  ghost predicate CompletedByLastClaim(s: State, key: RecordKey)
    requires key in s.claims && s.claims[key] != [] && key in s.tables.records
  {
    var w := LastClaim(s, key).owner;
    && w in s.workers
    && s.workers[w].Carries(key)
    && s.workers[w].token == Some(s.tables.records[key].token)
    && s.workers[w].Answered()
  }

  ghost predicate RecordsOk(s: State) {
    && s.claims.Keys == s.tables.records.Keys
    && forall key :: key in s.tables.records ==> RecordOk(s, key)
  }

  ghost predicate MessageOk(s: State, m: Message) {
    && m.id in s.issued && !Text.Blank(m.content)
    && (m.role.Assistant? ==>
          m.id in s.authors && s.authors[m.id] in s.workers && s.workers[s.authors[m.id]].reply == Some(m))
  }

  ghost predicate MessagesOk(s: State) {
    && MessageOrder.UniqueIds(s.tables.messages)
    && (forall m :: m in s.tables.messages ==> MessageOk(s, m))
    && (forall id :: id in s.authors ==> id in s.issued)
  }

  ghost predicate RunsOk(s: State) {
    && (forall id :: id in s.tables.runs.rows ==> id in s.issued)
    && (forall k :: k in s.tables.runs.steps ==> k.run in s.issued)
  }

  /** Each worker calls the model at most once, and only with a claim if it has a key. */
  ghost predicate CallsOk(s: State) {
    && (forall i :: 0 <= i < |s.calls| ==> s.calls[i] in s.workers && Called(s.workers[s.calls[i]]))
    && (forall i, j :: 0 <= i < j < |s.calls| ==> s.calls[i] != s.calls[j])
  }

  predicate Called(k: Worker) {
    && !k.pc.Claiming() && !k.pc.Starting? && !k.pc.Prompting?
    && (k.command.key.Some? ==> k.token.Some?)
  }

  ghost predicate Conserved(s: State) {
    && (forall c: Id :: CountRole(s.tables.messages, c, User) == |RunsOf(s.tables.runs.rows, c)|)
    && (forall c: Id :: CountRole(s.tables.messages, c, Assistant) == |SucceededOf(s.tables.runs.rows, c)|)
    && |CompletedKeys(s.tables.records)| == |KeyedAnswers(s.workers)|
  }

  ghost predicate Inv(s: State) {
    && WorkersOk(s) && Separate(s) && RecordsOk(s) && MessagesOk(s) && RunsOk(s) && CallsOk(s) && Conserved(s)
  }

  // ---- Where rows come from ----

  predicate OwnsRow(s: State, w: WorkerId, id: Id) {
    w in s.workers && s.workers[w].stored.Some? && s.workers[w].stored.value.id == id
  }

  /** A run that was opened under a key was opened with a claim, and with one user message, which
      carries an instant not later than its worker's last step. */
  predicate OpenedOk(s: State, w: WorkerId, k: Worker) {
    && w in s.since && s.since[w] <= s.now
    && (k.input.Some? <==> k.stored.Some?)
    && (k.stored.Some? && k.command.key.Some? ==> k.token.Some?)
    && (k.input.Some? ==>
          && k.input.value.role.User? && k.input.value in s.tables.messages
          && k.input.value.id in s.authors && s.authors[k.input.value.id] == w
          && k.input.value.createdAt <= s.since[w])
    && (k.Answered() && k.input.Some? && k.reply.Some? ==> k.input.value.createdAt <= k.reply.value.createdAt)
  }

  predicate PostedOk(s: State, m: Message) {
    && m.createdAt <= s.now
    && (m.role.User? || m.role.Assistant?)
    && (m.role.User? ==>
          m.id in s.authors && s.authors[m.id] in s.workers && s.workers[s.authors[m.id]].input == Some(m))
  }

  /** The worker that made a claim carries its key and has left the claim behind it. */
  predicate MadeBy(s: State, key: RecordKey, claim: IssuedClaim) {
    && claim.owner in s.workers && s.workers[claim.owner].Carries(key)
    && !s.workers[claim.owner].pc.Claiming()
    && (s.workers[claim.owner].token.Some? ==> s.workers[claim.owner].token.value == claim.token)
  }

  /** Every run, every message and every claim has the worker that made it. */
  ghost predicate OriginsOk(s: State) {
    && (forall w :: w in s.workers ==> OpenedOk(s, w, s.workers[w]))
    && (forall id :: id in s.tables.runs.rows ==> exists w :: OwnsRow(s, w, id))
    && (forall m :: m in s.tables.messages ==> PostedOk(s, m))
    && (forall key, i :: key in s.claims && 0 <= i < |s.claims[key]| ==> MadeBy(s, key, s.claims[key][i]))
  }

  lemma InitiallyOk(s: State)
    requires Initial(s)
    ensures Inv(s) && OriginsOk(s)
  {
  }

  lemma OkMeansEquipped(s: State)
    requires WorkersOk(s)
    ensures AllEquipped(s)
  {
  }
}
