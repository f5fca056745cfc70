/** Every step of the protocol keeps the invariant. */
module Preservation {
  import opened Common
  import opened Conversations
  import opened Runs
  import opened Tables
  import opened Turn
  import opened Protocol
  import opened Invariant
  import opened Requests
  import Idempotency
  import MessageOrder
  import RunStore
  import Text
  import opened Effects

  // ---- What a step leaves alone ----

  ghost predicate RecordEvolves(s: State, s': State, key: RecordKey)
    requires key in s.tables.records
  {
    && key in s'.tables.records
    && var before, after := s.tables.records[key], s'.tables.records[key];
    && after.id == before.id
    && (!before.state.ClaimStarted? ==> after == before)
    && (after.token == before.token ==> after.claimedAt == before.claimedAt)
    && (after.token != before.token ==> after.token !in s.issued)
  }

  /** How the shared state may change under a worker that did not take the step. */
  ghost predicate Evolves(s: State, s': State) {
    && s'.prompt == s.prompt && s.now <= s'.now && s.issued <= s'.issued
    && (forall key :: key in s.tables.records ==> RecordEvolves(s, s', key))
    && (forall key :: key in s.claims ==> key in s'.claims && s.claims[key] <= s'.claims[key])
    && s.tables.messages <= s'.tables.messages
    && (forall m :: m in s'.tables.messages ==> m in s.tables.messages || m.id !in s.issued)
    && (forall id :: id in s.authors ==> id in s'.authors && s'.authors[id] == s.authors[id])
  }

  /** A worker only moves forward, and keeps what it was given. */
  predicate Forward(k: Worker, k': Worker) {
    && Rank(k'.pc) < Rank(k.pc)
    && k'.command == k.command
    && (k.token.Some? ==> k'.token == k.token)
    && (k.stored.Some? ==> k'.stored.Some? && RunStore.SameOrigin(k.stored.value, k'.stored.value))
    && (!k.settlement.Unopened? ==> !k'.settlement.Unopened?)
    && (k.settlement.Settled? ==> k'.settlement.Settled? && k'.stored == k.stored)
    && (k.settlement.Unsettled? ==> k'.settlement.Unsettled?)
    && (k.input.Some? ==> k'.input == k.input)
    && (k.conversation.Some? ==> k'.conversation == k.conversation)
  }

  /** One step: a run is opened by the start, missed by its failure settlement, and a claim is
      only ever dropped by the start or by its own settlement. */
  predicate Advances(k: Worker, k': Worker) {
    && Forward(k, k')
    && (k.stored.None? && k'.stored.Some? ==> k.pc.Starting? && !k'.pc.Crashed?)
    && (k'.pc.Replied? ==> k.pc.Calling?)
    && (k'.Answered() ==> k.Answered() || (k.pc.Replied? && !k'.pc.Crashed?))
    && (k'.settlement.Unsettled? ==> k.settlement.Unsettled? || (k.pc.FailingRun? && !k'.pc.Crashed?))
    && (k'.pc.Raised? && k.HeldClaim().Some? ==> k.pc.Claiming() || k.pc.Starting? || k.pc.FailingClaim?)
  }

  ghost predicate KeyUntouched(s: State, s': State, key: RecordKey) {
    && (key in s'.tables.records <==> key in s.tables.records)
    && (key in s.tables.records ==> s'.tables.records[key] == s.tables.records[key])
    && s'.ClaimsOf(key) == s.ClaimsOf(key)
  }

  /** No run was written but the worker's own, and not even that one if it was terminal. */
  ghost predicate OnlyOwnRun(s: State, s': State, k: Worker) {
    || s'.tables.runs == s.tables.runs
    || (&& k.stored.Some?
        && RunStore.SameElsewhere(s.tables.runs, s'.tables.runs, k.stored.value.id)
        && (k.stored.value.id in s.tables.runs.rows ==> !s.tables.runs.rows[k.stored.value.id].status.Terminal()))
  }

  /** All that a step of worker `w` may touch. */
  ghost predicate Footprint(s: State, s': State, w: WorkerId) {
    && w in s'.workers && s'.workers == s.workers[w := s'.workers[w]]
    && (w in s.workers ==> Advances(s.workers[w], s'.workers[w]))
    && (forall key :: !s'.workers[w].Carries(key) ==> KeyUntouched(s, s', key))
    && OnlyOwnRun(s, s', s'.workers[w])
    && s.calls <= s'.calls
  }

  /** The messages and authors after a step that posts `m` for worker `w`. */
  predicate Posts(s: State, s': State, w: WorkerId, m: Message) {
    && s'.tables.messages == s.tables.messages + [m] && s'.authors == s.authors[m.id := w]
    && Reads(s, w, m.createdAt)
  }

  /** A step posts the question when it opens the run, the answer when it stores it as answered,
      and nothing otherwise. */
  predicate AddsMessage(s: State, s': State, w: WorkerId, k: Worker, k': Worker) {
    if k'.input != k.input then
      && k.pc.Starting? && k.stored.None? && k'.stored.Some? && !k'.Answered() && k'.conversation.Some?
      && k'.input.Some? && k'.input.value.role.User? && Posts(s, s', w, k'.input.value)
    else
      && (k'.stored.Some? <==> k.stored.Some?) && k'.conversation == k.conversation
      && (k'.Answered() && !k.Answered() ==>
            && k'.reply.Some? && k'.reply.value.role.Assistant?
            && Posts(s, s', w, k'.reply.value))
      && ((k'.Answered() <==> k.Answered()) ==>
            s'.tables.messages == s.tables.messages && s'.authors == s.authors
            && (k.Answered() && k.reply.Some? ==> k'.reply == k.reply))
      && (k.Answered() ==> k'.Answered())
  }

  /** A step makes one claim when it ends the claiming of a key, and none otherwise. */
  predicate AddsClaim(s: State, s': State, w: WorkerId, k: Worker, k': Worker) {
    if s'.claims == s.claims then k'.token == k.token
    else
      && k.pc.Claiming() && !k'.pc.Claiming() && k.command.key.Some?
      && s'.ClaimsOf(k.Key()) != []
      && var claim := s'.ClaimsOf(k.Key())[|s'.ClaimsOf(k.Key())| - 1];
      && claim.owner == w && (k'.token.Some? ==> k'.token.value == claim.token)
      && s'.claims == s.claims[k.Key() := s.ClaimsOf(k.Key()) + [claim]]
  }

  /** What a step of worker `w` adds to messages and claims. */
  predicate Adds(s: State, s': State, w: WorkerId) {
    && w in s'.workers && s'.since == s.since[w := s'.now]
    && var k' := s'.workers[w];
    if w in s.workers then AddsMessage(s, s', w, s.workers[w], k') && AddsClaim(s, s', w, s.workers[w], k')
    else
      && k'.input.None? && k'.stored.None? && k'.token.None?
      && s'.tables.messages == s.tables.messages && s'.authors == s.authors && s'.claims == s.claims
  }

  ghost predicate Kept(s: State, s': State, w: WorkerId) {
    Inv(s') && Evolves(s, s') && Footprint(s, s', w) && Adds(s, s', w)
  }

  lemma Bystander(s: State, s': State, w: WorkerId, k: Worker)
    requires WorkerOk(s, w, k) && Evolves(s, s')
    requires k.stored.Some? ==> RunStore.Stores(s'.tables.runs, k.stored.value)
    ensures WorkerOk(s', w, k)
  {
  }

  // ---- Steps that leave the tables alone ----

  /** The step changed one worker and none of its claims, runs or committed messages. */
  ghost predicate Local(s: State, s': State, w: WorkerId, k: Worker) {
    && s'.workers == s.workers[w := k] && s'.since == s.since[w := s.now]
    && s'.prompt == s.prompt && s'.now == s.now && s.issued <= s'.issued
    && s'.tables == s.tables && s'.claims == s.claims && s'.authors == s.authors
    && (w !in s.workers ==> k.token.None? && k.input.None? && k.stored.None? && k.reply.None?)
    && (w in s.workers ==>
          && k.command == s.workers[w].command
          && k.token == s.workers[w].token && k.stored == s.workers[w].stored
          && k.input == s.workers[w].input && k.conversation == s.workers[w].conversation
          && (k.reply == s.workers[w].reply || s.workers[w].reply.None?)
          && (Called(s.workers[w]) ==> Called(k)))
  }

  lemma LocalWorkers(s: State, s': State, w: WorkerId, k: Worker)
    requires WorkersOk(s)
    requires Local(s, s', w, k) && WorkerOk(s', w, k)
    ensures WorkersOk(s')
  {
  }

  lemma LocalRecords(s: State, s': State, w: WorkerId, k: Worker)
    requires RecordsOk(s)
    requires Local(s, s', w, k)
    ensures RecordsOk(s')
  {
  }

  lemma LocalMessages(s: State, s': State, w: WorkerId, k: Worker)
    requires MessagesOk(s)
    requires Local(s, s', w, k)
    ensures MessagesOk(s')
  {
  }

  lemma LocalConserved(s: State, s': State, w: WorkerId, k: Worker)
    requires Conserved(s)
    requires Local(s, s', w, k)
    ensures Conserved(s')
  {
    assert KeyedAnswers(s'.workers) == KeyedAnswers(s.workers);
  }

  lemma LocalCalls(s: State, s': State, w: WorkerId, k: Worker)
    requires CallsOk(s)
    requires Local(s, s', w, k)
    requires s'.calls == s.calls
    ensures CallsOk(s')
  {
  }

  lemma LocalSeparate(s: State, s': State, w: WorkerId, k: Worker)
    requires Separate(s) && Local(s, s', w, k)
    ensures Separate(s')
  {
  }

  lemma LocalRuns(s: State, s': State, w: WorkerId, k: Worker)
    requires RunsOk(s) && Local(s, s', w, k)
    ensures RunsOk(s')
  {
  }

  lemma LocalFootprint(s: State, s': State, w: WorkerId, k: Worker)
    requires Local(s, s', w, k)
    requires w in s.workers ==> Advances(s.workers[w], k)
    requires s.calls <= s'.calls
    ensures Evolves(s, s') && Footprint(s, s', w) && Adds(s, s', w)
  {
  }

  lemma LocalStep(s: State, s': State, w: WorkerId, k: Worker)
    requires Inv(s) && Local(s, s', w, k) && WorkerOk(s', w, k)
    requires w in s.workers ==> Advances(s.workers[w], k)
    requires s'.calls == s.calls
    ensures Kept(s, s', w)
  {
    LocalFootprint(s, s', w, k);
    LocalWorkers(s, s', w, k);
    LocalSeparate(s, s', w, k);
    LocalRecords(s, s', w, k);
    LocalMessages(s, s', w, k);
    LocalRuns(s, s', w, k);
    LocalCalls(s, s', w, k);
    LocalConserved(s, s', w, k);
  }

  /** Only the clock, the users and the conversations moved. */
  ghost predicate Ambient(s: State, s': State) {
    && s.now <= s'.now
    && s' == s.(now := s'.now,
                tables := s.tables.(users := s'.tables.users, conversations := s'.tables.conversations))
  }

  lemma AmbientWorkers(s: State, s': State)
    requires WorkersOk(s) && Ambient(s, s')
    ensures WorkersOk(s')
  {
  }

  lemma AmbientTables(s: State, s': State)
    requires RecordsOk(s) && MessagesOk(s) && RunsOk(s) && Conserved(s) && Ambient(s, s')
    ensures RecordsOk(s') && MessagesOk(s') && RunsOk(s') && Conserved(s')
  {
    assert forall key :: key in s.tables.records ==> RecordOk(s, key);
    assert forall m :: m in s.tables.messages ==> MessageOk(s, m);
  }

  lemma AmbientKeeps(s: State, s': State)
    requires Inv(s) && Ambient(s, s')
    ensures Inv(s')
  {
    AmbientWorkers(s, s');
    AmbientTables(s, s');
  }

  lemma BeginKeeps(s: State, w: WorkerId, command: Command)
    requires Inv(s) && w !in s.workers
    ensures Kept(s, s.With(w, Began(command)), w)
  {
    LocalStep(s, s.With(w, Began(command)), w, Began(command));
  }

  lemma RowsAreSeen(s: State, key: RecordKey)
    requires RecordsOk(s) && key in s.tables.records
    ensures RowSeen(s, key, s.tables.records[key])
  {
    assert RecordOk(s, key);
  }

  lemma ReadOwn(s: State, w: WorkerId)
    requires WorkersOk(s) && RecordsOk(s) && w in s.workers && s.workers[w].pc.Reading?
    ensures s.workers[w].command.key.Some?
    ensures WorkerOk(DoRead(s, w), w, DoRead(s, w).workers[w])
  {
    var k := s.workers[w];
    assert WorkerOk(s, w, k);
    var entered := k.(transactions := k.transactions + 1);
    if k.Key() in s.tables.records {
      ReadObserves(s, w, entered.(pc := Observed(s.tables.records[k.Key()])));
    } else {
      ReadFindsNothing(s, w, entered.(pc := Inserting(s.now)));
    }
  }

  lemma ReadObserves(s: State, w: WorkerId, k: Worker)
    requires WorkersOk(s) && RecordsOk(s) && w in s.workers && s.workers[w].pc.Reading?
    requires k.command.key.Some? && k.Key() in s.tables.records
    requires k == s.workers[w].(transactions := s.workers[w].transactions + 1,
                                pc := Observed(s.tables.records[k.Key()]))
    ensures WorkerOk(s.With(w, k), w, k)
  {
    assert WorkerOk(s, w, s.workers[w]);
    RowsAreSeen(s, k.Key());
    assert RowSeen(s.With(w, k), k.Key(), k.pc.row);
  }

  lemma ReadFindsNothing(s: State, w: WorkerId, k: Worker)
    requires WorkersOk(s) && w in s.workers && s.workers[w].pc.Reading?
    requires k == s.workers[w].(transactions := s.workers[w].transactions + 1, pc := Inserting(s.now))
    ensures WorkerOk(s.With(w, k), w, k)
  {
    assert WorkerOk(s, w, s.workers[w]);
  }

  lemma ReadIsLocal(s: State, w: WorkerId)
    requires w in s.workers && s.workers[w].pc.Reading? && s.workers[w].command.key.Some?
    ensures
      var s' := DoRead(s, w);
      Local(s, s', w, s'.workers[w]) && Advances(s.workers[w], s'.workers[w]) && s'.calls == s.calls
  {
    var k := s.workers[w];
    var next := if k.Key() in s.tables.records then Observed(s.tables.records[k.Key()]) else Inserting(s.now);
    EnteringAdvances(k, next);
    assert DoRead(s, w) == s.With(w, k.(transactions := k.transactions + 1, pc := next));
  }

  lemma EnteringAdvances(k: Worker, next: Pc)
    requires k.pc.Reading? && (next.Observed? || next.Inserting?)
    ensures Advances(k, k.(transactions := k.transactions + 1, pc := next))
  {
  }

  lemma ReadKeeps(s: State, w: WorkerId)
    requires Inv(s) && w in s.workers && s.workers[w].pc.Reading?
    ensures s.workers[w].command.key.Some? && Kept(s, DoRead(s, w), w)
  {
    ReadOwn(s, w);
    ReadIsLocal(s, w);
    LocalStep(s, DoRead(s, w), w, DoRead(s, w).workers[w]);
  }

  lemma RereadOwn(s: State, w: WorkerId)
    requires WorkersOk(s) && RecordsOk(s) && w in s.workers && s.workers[w].pc.Rereading?
    ensures s.workers[w].command.key.Some? && s.workers[w].Key() in s.tables.records
    ensures WorkerOk(DoReread(s, w), w, DoReread(s, w).workers[w])
  {
    var k := s.workers[w];
    assert WorkerOk(s, w, k);
    assert RecordOk(s, k.Key());
  }

  /** Losing the insert race always finds the winner's row, because rows are never deleted. */
  lemma RereadKeeps(s: State, w: WorkerId)
    requires Inv(s) && w in s.workers && s.workers[w].pc.Rereading?
    ensures s.workers[w].command.key.Some? && Kept(s, DoReread(s, w), w)
    ensures DoReread(s, w).workers[w].pc.Observed?
  {
    RereadOwn(s, w);
    LocalStep(s, DoReread(s, w), w, DoReread(s, w).workers[w]);
  }

  lemma JudgeOwn(s: State, w: WorkerId)
    requires WorkersOk(s) && RecordsOk(s) && w in s.workers && s.workers[w].pc.Observed?
    ensures WorkerOk(DoJudge(s, w), w, DoJudge(s, w).workers[w])
  {
    var k := s.workers[w];
    assert WorkerOk(s, w, k);
    assert RowSeen(s, k.Key(), k.pc.row);
    if k.pc.row.state.ClaimCompleted? {
      CompletedDecodes(s, k.Key());
      JudgeCompleted(s, w, FromStored(k.pc.row.result).value);
    }
  }

  lemma JudgeCompleted(s: State, w: WorkerId, result: TurnResult)
    requires WorkersOk(s) && w in s.workers && s.workers[w].pc.Observed? && s.workers[w].pc.row.state.ClaimCompleted?
    requires s.workers[w].command.key.Some? && RowSeen(s, s.workers[w].Key(), s.workers[w].pc.row)
    requires ToStored(result) == s.workers[w].pc.row.result
    ensures
      var k' := s.workers[w].(pc := Returned(result));
      WorkerOk(s.With(w, k'), w, k')
  {
    assert WorkerOk(s, w, s.workers[w]);
  }

  lemma JudgeIsLocal(s: State, w: WorkerId)
    requires w in s.workers && s.workers[w].pc.Observed?
    ensures
      var s' := DoJudge(s, w);
      Local(s, s', w, s'.workers[w]) && Advances(s.workers[w], s'.workers[w]) && s'.calls == s.calls
  {
  }

  lemma JudgeKeeps(s: State, w: WorkerId)
    requires Inv(s) && w in s.workers && s.workers[w].pc.Observed?
    ensures Kept(s, DoJudge(s, w), w)
  {
    JudgeOwn(s, w);
    JudgeIsLocal(s, w);
    LocalStep(s, DoJudge(s, w), w, DoJudge(s, w).workers[w]);
  }

  /** A completed record holds an encoded result, so decoding it never fails. */
  lemma CompletedDecodes(s: State, key: RecordKey)
    requires WorkersOk(s) && RecordsOk(s) && key in s.tables.records && s.tables.records[key].state.ClaimCompleted?
    ensures FromStored(s.tables.records[key].result).Some?
    ensures ToStored(FromStored(s.tables.records[key].result).value) == s.tables.records[key].result
  {
    assert RecordOk(s, key);
    var w := LastClaim(s, key).owner;
    var k := s.workers[w];
    assert WorkerOk(s, w, k);
    StoredRoundTrip(ResultOf(k.stored.value, k.reply.value));
  }

  lemma AbortOwn(s: State, w: WorkerId, error: Error)
    requires WorkersOk(s) && Enabled(s, Abort(w, error))
    ensures WorkerOk(DoAbort(s, w, error), w, DoAbort(s, w, error).workers[w])
  {
    assert WorkerOk(s, w, s.workers[w]);
  }

  lemma AbortKeeps(s: State, w: WorkerId, error: Error)
    requires Inv(s) && Enabled(s, Abort(w, error))
    ensures Kept(s, DoAbort(s, w, error), w)
  {
    AbortOwn(s, w, error);
    LocalStep(s, DoAbort(s, w, error), w, DoAbort(s, w, error).workers[w]);
  }

  /** A worker may stop, or move on to settling its failure, wherever the source lets it. */
  lemma ExitOwn(s: State, w: WorkerId, pc: Pc)
    requires WorkersOk(s) && w in s.workers
    requires pc.Crashed? || (pc.FailingRun? && s.workers[w].pc.Running())
    ensures WorkerOk(Exit(s, w, pc), w, s.workers[w].(pc := pc))
  {
    assert WorkerOk(s, w, s.workers[w]);
  }

  lemma GiveUpKeeps(s: State, w: WorkerId, error: Error)
    requires Inv(s) && w in s.workers && s.workers[w].pc.Running()
    ensures Kept(s, Exit(s, w, FailingRun(error)), w)
  {
    ExitOwn(s, w, FailingRun(error));
    LocalStep(s, Exit(s, w, FailingRun(error)), w, s.workers[w].(pc := FailingRun(error)));
  }

  lemma CrashKeeps(s: State, w: WorkerId)
    requires Inv(s) && w in s.workers && !s.workers[w].pc.Final()
    ensures Kept(s, Exit(s, w, Crashed), w)
  {
    ExitOwn(s, w, Crashed);
    CrashIsLocal(s, w);
    LocalStep(s, Exit(s, w, Crashed), w, s.workers[w].(pc := Crashed));
  }

  lemma CrashIsLocal(s: State, w: WorkerId)
    requires w in s.workers && !s.workers[w].pc.Final()
    ensures
      var s', k' := Exit(s, w, Crashed), s.workers[w].(pc := Crashed);
      Local(s, s', w, k') && Advances(s.workers[w], k') && s'.calls == s.calls
  {
  }

  // ---- Claims ----

  /** A fresh claim `record` replaces nothing, or an unsettled claim at least a TTL older. */
  ghost predicate Grants(s: State, key: RecordKey, record: Record) {
    && record.state.ClaimStarted? && Fresh(s, record.token)
    && (key in s.tables.records ==>
          && s.tables.records[key].state.ClaimStarted?
          && s.tables.records[key].id == record.id
          && record.claimedAt - s.tables.records[key].claimedAt >= Idempotency.DEFAULT_CLAIM_TTL_SECONDS * SECOND)
  }

  ghost function GrantState(s: State, w: WorkerId, record: Record, fate: Fate, ids: set<Id>): State
    requires w in s.workers && s.workers[w].command.key.Some?
  {
    var key := s.workers[w].Key();
    s.WithClaim(w, s.tables.records[key := record], key, record.claimedAt, record.token)
     .With(w, Claimed(s, w, record.token, fate)).Issue(ids)
  }

  ghost predicate Granting(s: State, w: WorkerId, record: Record, fate: Fate, ids: set<Id>) {
    && w in s.workers && s.workers[w].pc.Claiming() && s.workers[w].command.key.Some?
    && !s.workers[w].pc.Reading?
    && Grants(s, s.workers[w].Key(), record) && record.token in ids
  }

  lemma GrantEvolves(s: State, w: WorkerId, record: Record, fate: Fate, ids: set<Id>)
    requires RecordsOk(s)
    requires Granting(s, w, record, fate, ids)
    ensures Evolves(s, GrantState(s, w, record, fate, ids))
  {
  }

  lemma GrantOwn(s: State, w: WorkerId, record: Record, fate: Fate, ids: set<Id>)
    requires WorkersOk(s)
    requires Granting(s, w, record, fate, ids)
    ensures WorkerOk(GrantState(s, w, record, fate, ids), w, GrantState(s, w, record, fate, ids).workers[w])
  {
    assert WorkerOk(s, w, s.workers[w]);
  }

  lemma GrantWorkers(s: State, w: WorkerId, record: Record, fate: Fate, ids: set<Id>)
    requires WorkersOk(s) && RecordsOk(s)
    requires Granting(s, w, record, fate, ids)
    ensures WorkersOk(GrantState(s, w, record, fate, ids))
  {
    var s' := GrantState(s, w, record, fate, ids);
    GrantEvolves(s, w, record, fate, ids);
    GrantOwn(s, w, record, fate, ids);
    forall v | v in s'.workers
      ensures WorkerOk(s', v, s'.workers[v])
    {
      if v != w {
        assert WorkerOk(s, v, s.workers[v]);
        Bystander(s, s', v, s.workers[v]);
      }
    }
  }

  lemma GrantOtherRecord(s: State, w: WorkerId, record: Record, fate: Fate, ids: set<Id>, other: RecordKey)
    requires WorkersOk(s) && RecordsOk(s)
    requires Granting(s, w, record, fate, ids)
    requires other in s.tables.records && other != s.workers[w].Key()
    ensures RecordOk(GrantState(s, w, record, fate, ids), other)
  {
    assert RecordOk(s, other);
    assert WorkerOk(s, w, s.workers[w]);
  }

  lemma GrantOwnRecord(s: State, w: WorkerId, record: Record, fate: Fate, ids: set<Id>)
    requires RecordsOk(s)
    requires Granting(s, w, record, fate, ids)
    ensures
      var s' := GrantState(s, w, record, fate, ids);
      s.workers[w].Key() in s'.tables.records && RecordOk(s', s.workers[w].Key())
  {
  }

  lemma GrantRecords(s: State, w: WorkerId, record: Record, fate: Fate, ids: set<Id>)
    requires WorkersOk(s) && RecordsOk(s)
    requires Granting(s, w, record, fate, ids)
    ensures RecordsOk(GrantState(s, w, record, fate, ids))
  {
    var s' := GrantState(s, w, record, fate, ids);
    GrantOwnRecord(s, w, record, fate, ids);
    forall other | other in s'.tables.records
      ensures RecordOk(s', other)
    {
      if other != s.workers[w].Key() {
        GrantOtherRecord(s, w, record, fate, ids, other);
      }
    }
  }

  lemma GrantSeparate(s: State, w: WorkerId, record: Record, fate: Fate, ids: set<Id>)
    requires WorkersOk(s) && Separate(s)
    requires Granting(s, w, record, fate, ids)
    ensures Separate(GrantState(s, w, record, fate, ids))
  {
  }

  lemma GrantMessages(s: State, w: WorkerId, record: Record, fate: Fate, ids: set<Id>)
    requires MessagesOk(s) && RunsOk(s)
    requires Granting(s, w, record, fate, ids)
    ensures MessagesOk(GrantState(s, w, record, fate, ids))
    ensures RunsOk(GrantState(s, w, record, fate, ids))
  {
  }

  lemma GrantCalls(s: State, w: WorkerId, record: Record, fate: Fate, ids: set<Id>)
    requires WorkersOk(s) && CallsOk(s)
    requires Granting(s, w, record, fate, ids)
    ensures CallsOk(GrantState(s, w, record, fate, ids))
  {
  }

  lemma SameAnswers(before: map<WorkerId, Worker>, w: WorkerId, k: Worker)
    requires w in before && k.command == before[w].command && (k.Answered() <==> before[w].Answered())
    ensures KeyedAnswers(before[w := k]) == KeyedAnswers(before)
  {
  }

  lemma StillOpenKey(before: Records, key: RecordKey, record: Record)
    requires key in before ==> before[key].state != ClaimCompleted
    requires record.state != ClaimCompleted
    ensures CompletedKeys(before[key := record]) == CompletedKeys(before)
  {
  }

  lemma GrantConserved(s: State, w: WorkerId, record: Record, fate: Fate, ids: set<Id>)
    requires Conserved(s) && WorkersOk(s)
    requires Granting(s, w, record, fate, ids)
    ensures Conserved(GrantState(s, w, record, fate, ids))
  {
    SameAnswers(s.workers, w, Claimed(s, w, record.token, fate));
    StillOpenKey(s.tables.records, s.workers[w].Key(), record);
    var s' := GrantState(s, w, record, fate, ids);
    assert s'.tables.messages == s.tables.messages && s'.tables.runs == s.tables.runs;
  }

  lemma GrantFootprint(s: State, w: WorkerId, record: Record, fate: Fate, ids: set<Id>)
    requires WorkersOk(s)
    requires Granting(s, w, record, fate, ids)
    ensures Footprint(s, GrantState(s, w, record, fate, ids), w)
  {
    assert WorkerOk(s, w, s.workers[w]);
  }

  lemma GrantAdds(s: State, w: WorkerId, record: Record, fate: Fate, ids: set<Id>)
    requires WorkersOk(s)
    requires Granting(s, w, record, fate, ids)
    ensures Adds(s, GrantState(s, w, record, fate, ids), w)
  {
    assert WorkerOk(s, w, s.workers[w]);
  }

  lemma GrantKeeps(s: State, w: WorkerId, record: Record, fate: Fate, ids: set<Id>)
    requires Inv(s)
    requires Granting(s, w, record, fate, ids)
    ensures Kept(s, GrantState(s, w, record, fate, ids), w)
  {
    GrantWorkers(s, w, record, fate, ids);
    GrantRecords(s, w, record, fate, ids);
    GrantSeparate(s, w, record, fate, ids);
    GrantMessages(s, w, record, fate, ids);
    GrantCalls(s, w, record, fate, ids);
    GrantConserved(s, w, record, fate, ids);
    GrantEvolves(s, w, record, fate, ids);
    GrantFootprint(s, w, record, fate, ids);
    GrantAdds(s, w, record, fate, ids);
  }

  lemma InsertRaced(s: State, w: WorkerId)
    requires WorkersOk(s) && w in s.workers && s.workers[w].pc.Inserting?
    ensures s.workers[w].command.key.Some?
    ensures s.workers[w].Key() in s.tables.records ==>
              WorkerOk(s.With(w, s.workers[w].(pc := Rereading)), w, s.workers[w].(pc := Rereading))
  {
    assert WorkerOk(s, w, s.workers[w]);
  }

  lemma InsertKeeps(s: State, w: WorkerId, id: Id, token: Id, stamp: Instant, fate: Fate)
    requires Inv(s) && Enabled(s, InsertRow(w, id, token, stamp, fate))
    ensures s.workers[w].command.key.Some? && Kept(s, DoInsert(s, w, id, token, stamp, fate), w)
  {
    var k := s.workers[w];
    InsertRaced(s, w);
    if k.Key() in s.tables.records {
      LocalStep(s, DoInsert(s, w, id, token, stamp, fate), w, k.(pc := Rereading));
    } else {
      GrantKeeps(s, w, Record(id, ClaimStarted, map[], stamp, token), fate, {id, token});
    }
  }

  lemma SwapLost(s: State, w: WorkerId)
    requires WorkersOk(s) && w in s.workers && s.workers[w].pc.Swapping?
    ensures WorkerOk(s.With(w, s.workers[w].(pc := Raised(IN_PROGRESS))), w, s.workers[w].(pc := Raised(IN_PROGRESS)))
  {
    assert WorkerOk(s, w, s.workers[w]);
  }

  lemma SwapWon(s: State, w: WorkerId, token: Id, stamp: Instant, fate: Fate)
    requires WorkersOk(s) && Enabled(s, Swap(w, token, stamp, fate))
    ensures s.workers[w].command.key.Some?
    ensures Idempotency.Unchanged(s.tables.records, s.workers[w].Key(), s.workers[w].pc.row) ==>
              Granting(s, w, s.tables.records[s.workers[w].Key()].(claimedAt := stamp, token := token), fate, {token})
  {
    assert WorkerOk(s, w, s.workers[w]);
  }

  lemma SwapLostIsLocal(s: State, w: WorkerId)
    requires w in s.workers && s.workers[w].pc.Swapping?
    ensures
      var k' := s.workers[w].(pc := Raised(IN_PROGRESS));
      Local(s, s.With(w, k'), w, k') && Advances(s.workers[w], k') && s.With(w, k').calls == s.calls
  {
  }

  lemma SwapLostKeeps(s: State, w: WorkerId)
    requires Inv(s) && w in s.workers && s.workers[w].pc.Swapping?
    ensures Kept(s, s.With(w, s.workers[w].(pc := Raised(IN_PROGRESS))), w)
  {
    SwapLost(s, w);
    SwapLostIsLocal(s, w);
    LocalStep(s, s.With(w, s.workers[w].(pc := Raised(IN_PROGRESS))), w, s.workers[w].(pc := Raised(IN_PROGRESS)));
  }

  lemma SwapKeeps(s: State, w: WorkerId, token: Id, stamp: Instant, fate: Fate)
    requires Inv(s) && Enabled(s, Swap(w, token, stamp, fate))
    ensures s.workers[w].command.key.Some? && Kept(s, DoSwap(s, w, token, stamp, fate), w)
  {
    var k := s.workers[w];
    SwapWon(s, w, token, stamp, fate);
    if Idempotency.Unchanged(s.tables.records, k.Key(), k.pc.row) {
      GrantKeeps(s, w, s.tables.records[k.Key()].(claimedAt := stamp, token := token), fate, {token});
    } else {
      SwapLostKeeps(s, w);
    }
  }

  // ---- The start transaction ----

  /** Worker `w` committed its user message `m` and its running run. */
  ghost predicate Opens(s: State, s': State, w: WorkerId, k: Worker, m: Message, run: Run) {
    && w in s.workers && s.workers[w].pc.Starting?
    && s' == s.(tables := s.tables.(messages := s.tables.messages + [m], runs := s'.tables.runs),
                issued := s.issued + {m.id, run.id}, authors := s.authors[m.id := w],
                workers := s.workers[w := k], since := s.since[w := s.now])
    && Fresh(s, m.id) && Fresh(s, run.id) && Reads(s, w, m.createdAt)
    && m.role == User && !Text.Blank(m.content) && m.conversation == run.conversation
    && run.status.Running? && run.Disciplined()
    && RunStore.Stores(s'.tables.runs, run) && RunStore.SameElsewhere(s.tables.runs, s'.tables.runs, run.id)
    && k.command == s.workers[w].command && k.token == s.workers[w].token && k.reply.None?
    && k.stored == Some(run) && k.run == Some(run) && k.input == Some(m) && k.conversation.Some?
    && !k.pc.Claiming() && !k.pc.Replied? && (Called(s.workers[w]) ==> Called(k))
  }

  lemma OpenEvolves(s: State, s': State, w: WorkerId, k: Worker, m: Message, run: Run)
    requires MessagesOk(s)
    requires Opens(s, s', w, k, m, run)
    ensures Evolves(s, s')
  {
    assert forall key :: key in s.tables.records ==> RecordEvolves(s, s', key);
  }

  lemma OpenAdds(s: State, s': State, w: WorkerId, k: Worker, m: Message, run: Run)
    requires WorkersOk(s)
    requires Opens(s, s', w, k, m, run)
    ensures Adds(s, s', w)
  {
    NothingOpenedYet(s, w);
  }

  lemma OpenFootprint(s: State, s': State, w: WorkerId, k: Worker, m: Message, run: Run)
    requires WorkersOk(s) && RunsOk(s)
    requires Opens(s, s', w, k, m, run) && Rank(k.pc) < Rank(Starting)
    requires !k.pc.Crashed? && !k.settlement.Unsettled?
    ensures Footprint(s, s', w)
  {
    NothingOpenedYet(s, w);
  }

  lemma OpenWorkers(s: State, s': State, w: WorkerId, k: Worker, m: Message, run: Run)
    requires WorkersOk(s) && Separate(s) && MessagesOk(s)
    requires Opens(s, s', w, k, m, run) && WorkerOk(s', w, k)
    ensures WorkersOk(s')
  {
    OpenEvolves(s, s', w, k, m, run);
    forall v | v in s'.workers
      ensures WorkerOk(s', v, s'.workers[v])
    {
      if v != w {
        var other := s.workers[v];
        assert WorkerOk(s, v, other);
        if other.stored.Some? {
          RunStore.StoredElsewhere(s.tables.runs, s'.tables.runs, run.id, other.stored.value);
        }
        Bystander(s, s', v, other);
      }
    }
  }

  lemma OpenSeparate(s: State, s': State, w: WorkerId, k: Worker, m: Message, run: Run)
    requires WorkersOk(s) && Separate(s)
    requires Opens(s, s', w, k, m, run)
    ensures Separate(s')
  {
  }

  lemma OpenRecords(s: State, s': State, w: WorkerId, k: Worker, m: Message, run: Run)
    requires WorkersOk(s) && RecordsOk(s)
    requires Opens(s, s', w, k, m, run)
    ensures RecordsOk(s')
  {
    assert WorkerOk(s, w, s.workers[w]);
    forall key | key in s'.tables.records
      ensures RecordOk(s', key)
    {
      assert RecordOk(s, key);
    }
  }

  lemma AppendedMessages(s: State, s': State, m: Message)
    requires MessagesOk(s) && Fresh(s, m.id)
    requires s'.tables.messages == s.tables.messages + [m]
    ensures MessageOrder.UniqueIds(s'.tables.messages)
  {
    forall i | 0 <= i < |s.tables.messages|
      ensures s.tables.messages[i].id != m.id
    {
      assert MessageOk(s, s.tables.messages[i]);
    }
  }

  lemma OpenMessages(s: State, s': State, w: WorkerId, k: Worker, m: Message, run: Run)
    requires WorkersOk(s) && MessagesOk(s)
    requires Opens(s, s', w, k, m, run)
    ensures MessagesOk(s')
  {
    assert WorkerOk(s, w, s.workers[w]);
    AppendedMessages(s, s', m);
    forall row | row in s'.tables.messages
      ensures MessageOk(s', row)
    {
      if row != m {
        assert row in s.tables.messages && MessageOk(s, row);
      }
    }
  }

  lemma OpenRuns(s: State, s': State, w: WorkerId, k: Worker, m: Message, run: Run)
    requires RunsOk(s) && CallsOk(s)
    requires Opens(s, s', w, k, m, run)
    ensures RunsOk(s') && CallsOk(s')
  {
  }

  lemma OpenCounts(s: State, s': State, w: WorkerId, k: Worker, m: Message, run: Run, c: Id)
    requires Conserved(s) && RunsOk(s)
    requires Opens(s, s', w, k, m, run)
    ensures CountRole(s'.tables.messages, c, User) == |RunsOf(s'.tables.runs.rows, c)|
    ensures CountRole(s'.tables.messages, c, Assistant) == |SucceededOf(s'.tables.runs.rows, c)|
  {
    CountAppend(s.tables.messages, m, c, User);
    CountAppend(s.tables.messages, m, c, Assistant);
    WrittenElsewhere(s.tables.runs, s'.tables.runs, run);
    RunAdded(s.tables.runs.rows, s'.tables.runs.rows, run, c);
    RunAddedRunning(s.tables.runs.rows, s'.tables.runs.rows, run, c);
  }

  lemma NothingOpenedYet(s: State, w: WorkerId)
    requires WorkersOk(s) && w in s.workers && s.workers[w].pc.Starting?
    ensures s.workers[w].input.None? && s.workers[w].stored.None? && s.workers[w].reply.None?
    ensures s.workers[w].conversation.None? && s.workers[w].settlement.Unopened?
  {
    assert WorkerOk(s, w, s.workers[w]);
  }

  lemma OpenConserved(s: State, s': State, w: WorkerId, k: Worker, m: Message, run: Run)
    requires WorkersOk(s) && Conserved(s) && RunsOk(s)
    requires Opens(s, s', w, k, m, run)
    ensures Conserved(s')
  {
    NothingOpenedYet(s, w);
    forall c: Id
      ensures CountRole(s'.tables.messages, c, User) == |RunsOf(s'.tables.runs.rows, c)|
      ensures CountRole(s'.tables.messages, c, Assistant) == |SucceededOf(s'.tables.runs.rows, c)|
    {
      OpenCounts(s, s', w, k, m, run, c);
    }
    SameAnswers(s.workers, w, k);
  }

  lemma OpensKeeps(s: State, s': State, w: WorkerId, k: Worker, m: Message, run: Run)
    requires Inv(s)
    requires Opens(s, s', w, k, m, run) && WorkerOk(s', w, k) && Rank(k.pc) < Rank(Starting)
    requires !k.pc.Crashed? && !k.settlement.Unsettled?
    ensures Kept(s, s', w)
  {
    OpenEvolves(s, s', w, k, m, run);
    OpenFootprint(s, s', w, k, m, run);
    OpenAdds(s, s', w, k, m, run);
    OpenWorkers(s, s', w, k, m, run);
    OpenSeparate(s, s', w, k, m, run);
    OpenRecords(s, s', w, k, m, run);
    OpenMessages(s, s', w, k, m, run);
    OpenRuns(s, s', w, k, m, run);
    OpenConserved(s, s', w, k, m, run);
  }

  lemma FreshIdsAreUnused(s: State, messageId: Id, runId: Id)
    requires Inv(s) && Fresh(s, messageId) && Fresh(s, runId)
    ensures IdsUnused(s.tables, messageId, runId)
  {
  }

  /** `start` is what worker `w`'s start transaction computed for message `m`. */
  ghost predicate Startable(s: State, w: WorkerId, m: Message, runId: Id, start: Start) {
    && w in s.workers && s.workers[w].pc.Starting?
    && Fresh(s, m.id) && Fresh(s, runId) && Reads(s, w, m.createdAt)
    && m == Message(m.id, s.workers[w].command.conversation, User, s.workers[w].text, m.createdAt)
    && Starts(s.tables, s.workers[w].command, m, runId, start)
  }

  lemma OpenRelates(s: State, w: WorkerId, m: Message, runId: Id, start: Start, fate: Fate)
    requires WorkersOk(s)
    requires Startable(s, w, m, runId, start)
    ensures
      var s' := Opened(s, w, start, m, runId, fate);
      Opens(s, s', w, s'.workers[w], m, start.run)
  {
    assert WorkerOk(s, w, s.workers[w]);
  }

  lemma OpenOwn(s: State, w: WorkerId, m: Message, runId: Id, start: Start, fate: Fate)
    requires WorkersOk(s)
    requires Startable(s, w, m, runId, start)
    ensures
      var s' := Opened(s, w, start, m, runId, fate);
      WorkerOk(s', w, s'.workers[w])
  {
    var s' := Opened(s, w, start, m, runId, fate);
    assert WorkerOk(s, w, s.workers[w]);
    assert StoredOk(s', w, s'.workers[w]);
  }

  lemma OpenedKeeps(s: State, w: WorkerId, m: Message, runId: Id, start: Start, fate: Fate)
    requires Inv(s)
    requires Startable(s, w, m, runId, start)
    ensures Kept(s, Opened(s, w, start, m, runId, fate), w)
  {
    var s' := Opened(s, w, start, m, runId, fate);
    OpenRelates(s, w, m, runId, start, fate);
    OpenOwn(s, w, m, runId, start, fate);
    OpensKeeps(s, s', w, s'.workers[w], m, start.run);
  }

  function OpenRefused(s: State, w: WorkerId, error: Error): State
    requires w in s.workers
  {
    s.With(w, s.workers[w].(transactions := s.workers[w].transactions + 1, pc := Raised(error)))
  }

  lemma OpenRefusedOwn(s: State, w: WorkerId, error: Error)
    requires WorkersOk(s) && w in s.workers && s.workers[w].pc.Starting?
    ensures WorkerOk(OpenRefused(s, w, error), w, OpenRefused(s, w, error).workers[w])
  {
    assert WorkerOk(s, w, s.workers[w]);
  }

  lemma OpenRefusedKeeps(s: State, w: WorkerId, error: Error)
    requires Inv(s) && w in s.workers && s.workers[w].pc.Starting?
    ensures Kept(s, OpenRefused(s, w, error), w)
  {
    OpenRefusedOwn(s, w, error);
    LocalStep(s, OpenRefused(s, w, error), w, OpenRefused(s, w, error).workers[w]);
  }

  lemma OpenAcceptedKeeps(s: State, w: WorkerId, messageId: Id, runId: Id, stamp: Instant, start: Start, fate: Fate)
    requires Inv(s) && Enabled(s, OpenTurn(w, messageId, runId, stamp, fate))
    requires StartTurn(s.tables, s.workers[w].command, s.workers[w].text, stamp, messageId, runId) == Ok(start)
    ensures Kept(s, Opened(s, w, start, Question(s.workers[w], messageId, stamp), runId, fate), w)
  {
    var k := s.workers[w];
    FreshIdsAreUnused(s, messageId, runId);
    StartEffect(s.tables, k.command, k.text, stamp, messageId, runId);
    OpenedKeeps(s, w, Question(k, messageId, stamp), runId, start, fate);
  }

  lemma OpenCases(s: State, w: WorkerId, messageId: Id, runId: Id, stamp: Instant, fate: Fate, started: Result<Start>)
    requires w in s.workers
    requires started == StartTurn(s.tables, s.workers[w].command, s.workers[w].text, stamp, messageId, runId)
    ensures
      DoOpen(s, w, messageId, runId, stamp, fate)
      == (if started.Ok? then Opened(s, w, started.value, Question(s.workers[w], messageId, stamp), runId, fate)
          else OpenRefused(s, w, started.error))
  {
  }

  lemma OpenKeeps(s: State, w: WorkerId, messageId: Id, runId: Id, stamp: Instant, fate: Fate)
    requires Inv(s) && Enabled(s, OpenTurn(w, messageId, runId, stamp, fate))
    ensures Kept(s, DoOpen(s, w, messageId, runId, stamp, fate), w)
  {
    var started := StartTurn(s.tables, s.workers[w].command, s.workers[w].text, stamp, messageId, runId);
    OpenCases(s, w, messageId, runId, stamp, fate, started);
    if started.Ok? {
      OpenAcceptedKeeps(s, w, messageId, runId, stamp, started.value, fate);
    } else {
      OpenRefusedKeeps(s, w, started.error);
    }
  }

  // ---- The model call ----

  lemma PromptingIsReady(s: State, w: WorkerId)
    requires WorkersOk(s) && w in s.workers && s.workers[w].pc.Prompting?
    ensures s.workers[w].conversation.Some? && s.workers[w].run.Some? && 0 < s.workers[w].command.window
    ensures EndsWithInput(s.workers[w].conversation.value, s.workers[w].text)
  {
    assert WorkerOk(s, w, s.workers[w]);
  }

  lemma PromptKeeps(s: State, w: WorkerId)
    requires Inv(s) && w in s.workers && s.workers[w].pc.Prompting?
    ensures s.workers[w].conversation.Some? && s.workers[w].run.Some? && Kept(s, DoPrompt(s, w), w)
  {
    var k := s.workers[w];
    PromptingIsReady(s, w);
    match BuildRequest(k.command, s.prompt, k.conversation.value)
    case Err(e) => GiveUpKeeps(s, w, e);
    case Ok(request) =>
      if DeadlinePassed(k.run.value, s.now) {
        GiveUpKeeps(s, w, DEADLINE_EXCEEDED);
      } else {
        BuiltRequestsFit(k.command, s.prompt, k.conversation.value, k.text);
        CallKeeps(s, w, request);
      }
  }

  function CallMade(s: State, w: WorkerId, request: Request): State
    requires w in s.workers
  {
    s.With(w, s.workers[w].(pc := Calling(request))).(calls := s.calls + [w])
  }

  ghost predicate Callable(s: State, w: WorkerId, request: Request) {
    && w in s.workers && s.workers[w].pc.Prompting? && s.workers[w].conversation.Some?
    && BuildRequest(s.workers[w].command, s.prompt, s.workers[w].conversation.value) == Ok(request)
    && Fits(request, s.prompt, s.workers[w].command.limits.maxContextTokens, s.workers[w].text)
  }

  lemma CallOwn(s: State, w: WorkerId, request: Request)
    requires WorkersOk(s) && Callable(s, w, request)
    ensures WorkerOk(CallMade(s, w, request), w, s.workers[w].(pc := Calling(request)))
    ensures Called(s.workers[w].(pc := Calling(request)))
  {
    assert WorkerOk(s, w, s.workers[w]);
  }

  lemma CallCalls(s: State, w: WorkerId, request: Request)
    requires CallsOk(s) && Callable(s, w, request) && Called(s.workers[w].(pc := Calling(request)))
    ensures CallsOk(CallMade(s, w, request))
  {
    PrompterHasNotCalled(s, w);
    NewCall(s, w, s.workers[w].(pc := Calling(request)), CallMade(s, w, request));
  }

  lemma PrompterHasNotCalled(s: State, w: WorkerId)
    requires CallsOk(s) && w in s.workers && s.workers[w].pc.Prompting?
    ensures w !in s.calls
  {
  }

  lemma NewCall(s: State, w: WorkerId, k: Worker, s': State)
    requires CallsOk(s) && w !in s.calls && Called(k)
    requires s'.workers == s.workers[w := k] && s'.calls == s.calls + [w]
    ensures CallsOk(s')
  {
  }

  lemma CallKeeps(s: State, w: WorkerId, request: Request)
    requires Inv(s) && Callable(s, w, request)
    ensures Kept(s, CallMade(s, w, request), w)
  {
    var k' := s.workers[w].(pc := Calling(request));
    var s' := CallMade(s, w, request);
    CallOwn(s, w, request);
    LocalWorkers(s, s', w, k');
    LocalSeparate(s, s', w, k');
    LocalRecords(s, s', w, k');
    LocalMessages(s, s', w, k');
    LocalRuns(s, s', w, k');
    LocalConserved(s, s', w, k');
    CallCalls(s, w, request);
    LocalFootprint(s, s', w, k');
  }

  /** The provider's answer is used, or it fails the turn. */
  lemma AnswerCases(s: State, w: WorkerId, response: Result<Response>)
    requires w in s.workers
    ensures
      var s' := DoAnswer(s, w, response);
      || (exists error :: s' == Exit(s, w, FailingRun(error)))
      || (exists content, usage :: !Text.Blank(content) && s' == Exit(s, w, Replied(content, usage)))
  {
    if response.Ok? && ValidateResponse(response.value).Ok? {
      ValidContentIsNotBlank(response.value);
      var content := ValidateResponse(response.value).value;
      assert DoAnswer(s, w, response) == Exit(s, w, Replied(content, response.value.usage));
    } else {
      var error := if response.Err? then response.error else ValidateResponse(response.value).error;
      assert DoAnswer(s, w, response) == Exit(s, w, FailingRun(error));
    }
  }

  lemma RepliedOwn(s: State, w: WorkerId, content: string, usage: Usage)
    requires WorkersOk(s) && w in s.workers && s.workers[w].pc.Calling? && !Text.Blank(content)
    ensures WorkerOk(Exit(s, w, Replied(content, usage)), w, s.workers[w].(pc := Replied(content, usage)))
  {
    assert WorkerOk(s, w, s.workers[w]);
  }

  lemma RepliedKeeps(s: State, w: WorkerId, content: string, usage: Usage)
    requires Inv(s) && w in s.workers && s.workers[w].pc.Calling? && !Text.Blank(content)
    ensures Kept(s, Exit(s, w, Replied(content, usage)), w)
  {
    RepliedOwn(s, w, content, usage);
    LocalStep(s, Exit(s, w, Replied(content, usage)), w, s.workers[w].(pc := Replied(content, usage)));
  }

  lemma AnswerKeeps(s: State, w: WorkerId, response: Result<Response>)
    requires Inv(s) && w in s.workers && s.workers[w].pc.Calling?
    ensures Kept(s, DoAnswer(s, w, response), w)
  {
    AnswerCases(s, w, response);
    var s' := DoAnswer(s, w, response);
    if error :| s' == Exit(s, w, FailingRun(error)) {
      GiveUpKeeps(s, w, error);
    } else {
      var content, usage :| !Text.Blank(content) && s' == Exit(s, w, Replied(content, usage));
      RepliedKeeps(s, w, content, usage);
    }
  }

  // ---- The settlement of an answered turn ----

  /** Worker `w` committed its answer `m` and its succeeded run, and settled its claim. */
  ghost predicate Finishes(s: State, s': State, w: WorkerId, m: Message, run: Run, fate: Fate) {
    && w in s.workers && s.workers[w].pc.Replied? && s.workers[w].stored.Some?
    && MaySettle(s.tables.records, s.workers[w].HeldClaim())
    && Fresh(s, m.id) && m.role == Assistant && !Text.Blank(m.content) && m.conversation == run.conversation
    && Reads(s, w, m.createdAt)
    && run.status.Succeeded? && run.Disciplined() && RunStore.SameOrigin(s.workers[w].stored.value, run)
    && AnsweredTrace(run, m)
    && RunStore.Stores(s'.tables.runs, run) && RunStore.SameElsewhere(s.tables.runs, s'.tables.runs, run.id)
    && s' == s.(tables := s.tables.(messages := s.tables.messages + [m], runs := s'.tables.runs,
                                    records := SettledRecords(s.tables.records, s.workers[w].HeldClaim(),
                                                              ResultOf(run, m))),
                issued := s.issued + {m.id}, authors := s.authors[m.id := w],
                workers := s.workers[w := Finisher(s.workers[w], m, run, fate)], since := s.since[w := s.now])
  }

  function Finisher(k: Worker, m: Message, run: Run, fate: Fate): Worker {
    k.(run := Some(run), reply := Some(m), stored := Some(run), settlement := Settled,
       transactions := k.transactions + 1,
       pc := if fate == Applied then Returned(ResultOf(run, m)) else FailingRun(DATABASE_UNAVAILABLE))
  }

  lemma FinishEvolves(s: State, s': State, w: WorkerId, m: Message, run: Run, fate: Fate)
    requires MessagesOk(s)
    requires Finishes(s, s', w, m, run, fate)
    ensures Evolves(s, s')
  {
  }

  lemma FinishStored(s: State, s': State, w: WorkerId, m: Message, run: Run, fate: Fate)
    requires WorkersOk(s)
    requires Finishes(s, s', w, m, run, fate)
    ensures StoredOk(s', w, s'.workers[w]) && ReplyOk(s', s'.workers[w])
  {
    assert WorkerOk(s, w, s.workers[w]);
    assert m in s'.tables.messages;
  }

  lemma FinishOwn(s: State, s': State, w: WorkerId, m: Message, run: Run, fate: Fate)
    requires WorkersOk(s) && MessagesOk(s)
    requires Finishes(s, s', w, m, run, fate)
    ensures WorkerOk(s', w, s'.workers[w])
  {
    assert WorkerOk(s, w, s.workers[w]);
    FinishStored(s, s', w, m, run, fate);
    FinishAnswers(s, s', w, m, run, fate);
    FinishSettles(s, s', w, m, run, fate);
  }

  lemma FinishAnswers(s: State, s': State, w: WorkerId, m: Message, run: Run, fate: Fate)
    requires WorkersOk(s)
    requires Finishes(s, s', w, m, run, fate)
    ensures AnswerOk(s', s'.workers[w])
  {
    KeyedRepliesHoldClaims(s, w);
  }

  lemma FinishSettles(s: State, s': State, w: WorkerId, m: Message, run: Run, fate: Fate)
    requires Finishes(s, s', w, m, run, fate)
    ensures SettlementOk(s'.workers[w])
  {
  }

  lemma FinishWorkers(s: State, s': State, w: WorkerId, m: Message, run: Run, fate: Fate)
    requires WorkersOk(s) && Separate(s) && MessagesOk(s)
    requires Finishes(s, s', w, m, run, fate)
    ensures WorkersOk(s')
  {
    FinishEvolves(s, s', w, m, run, fate);
    FinishOwn(s, s', w, m, run, fate);
    forall v | v in s'.workers
      ensures WorkerOk(s', v, s'.workers[v])
    {
      if v != w {
        var other := s.workers[v];
        assert WorkerOk(s, v, other);
        if other.stored.Some? {
          RunStore.StoredElsewhere(s.tables.runs, s'.tables.runs, run.id, other.stored.value);
        }
        Bystander(s, s', v, other);
      }
    }
  }

  /** The holder of an unsettled key's current token is the owner of its last claim. */
  lemma HolderOwnsLastClaim(s: State, w: WorkerId)
    requires WorkersOk(s) && RecordsOk(s)
    requires w in s.workers && s.workers[w].HeldClaim().Some?
    requires MaySettle(s.tables.records, s.workers[w].HeldClaim())
    ensures
      var key := s.workers[w].Key();
      key in s.claims && s.claims[key] != [] && LastClaim(s, key).owner == w
  {
    assert WorkerOk(s, w, s.workers[w]);
    assert RecordOk(s, s.workers[w].Key());
  }

  lemma FinishOwnRecord(s: State, s': State, w: WorkerId, m: Message, run: Run, fate: Fate)
    requires Finishes(s, s', w, m, run, fate) && s.workers[w].HeldClaim().Some?
    requires RecordOk(s, s.workers[w].Key()) && LastClaim(s, s.workers[w].Key()).owner == w
    ensures s.workers[w].Key() in s'.tables.records && RecordOk(s', s.workers[w].Key())
  {
    FinishCompletes(s, s', w, m, run, fate);
  }

  lemma FinishCompletes(s: State, s': State, w: WorkerId, m: Message, run: Run, fate: Fate)
    requires Finishes(s, s', w, m, run, fate) && s.workers[w].HeldClaim().Some?
    requires
      var key := s.workers[w].Key();
      key in s.claims && s.claims[key] != [] && LastClaim(s, key).owner == w
    ensures s.workers[w].Key() in s'.tables.records && CompletedByLastClaim(s', s.workers[w].Key())
  {
  }

  lemma FinishOtherRecord(s: State, s': State, w: WorkerId, m: Message, run: Run, fate: Fate, key: RecordKey)
    requires RecordsOk(s)
    requires Finishes(s, s', w, m, run, fate) && key in s.tables.records
    requires s.workers[w].HeldClaim().Some? ==> s.workers[w].Key() != key
    ensures key in s'.tables.records && RecordOk(s', key)
  {
    assert RecordOk(s, key);
    if s.tables.records[key].state.ClaimCompleted? {
      OthersStayAnswered(s, s', w, m, run, fate, key);
    }
  }

  lemma OthersStayAnswered(s: State, s': State, w: WorkerId, m: Message, run: Run, fate: Fate, key: RecordKey)
    requires Finishes(s, s', w, m, run, fate) && key in s.tables.records
    requires s.workers[w].HeldClaim().Some? ==> s.workers[w].Key() != key
    requires key in s.claims && s.claims[key] != [] && CompletedByLastClaim(s, key)
    ensures key in s'.tables.records && s'.tables.records[key] == s.tables.records[key] && CompletedByLastClaim(s', key)
  {
  }

  lemma FinishRecords(s: State, s': State, w: WorkerId, m: Message, run: Run, fate: Fate)
    requires WorkersOk(s) && RecordsOk(s)
    requires Finishes(s, s', w, m, run, fate)
    ensures RecordsOk(s')
  {
    assert s'.tables.records.Keys == s.tables.records.Keys;
    forall key | key in s'.tables.records
      ensures RecordOk(s', key)
    {
      if s.workers[w].HeldClaim().Some? && s.workers[w].Key() == key {
        HolderOwnsLastClaim(s, w);
        FinishOwnRecord(s, s', w, m, run, fate);
      } else {
        FinishOtherRecord(s, s', w, m, run, fate, key);
      }
    }
  }

  lemma FinishSeparate(s: State, s': State, w: WorkerId, m: Message, run: Run, fate: Fate)
    requires Separate(s)
    requires Finishes(s, s', w, m, run, fate)
    ensures Separate(s')
  {
  }

  lemma FinishCalls(s: State, s': State, w: WorkerId, m: Message, run: Run, fate: Fate)
    requires CallsOk(s)
    requires Finishes(s, s', w, m, run, fate)
    ensures CallsOk(s')
  {
  }

  lemma NoReplyYet(s: State, w: WorkerId)
    requires WorkersOk(s) && w in s.workers && s.workers[w].pc.Replied?
    ensures s.workers[w].reply.None? && !s.workers[w].Answered()
    ensures s.workers[w].stored.Some? && s.workers[w].stored == s.workers[w].run
    ensures s.workers[w].stored.value.status.Running? && s.workers[w].settlement.Unfinished?
    ensures RunStore.Stores(s.tables.runs, s.workers[w].stored.value)
  {
    assert WorkerOk(s, w, s.workers[w]);
  }

  lemma FinishMessages(s: State, s': State, w: WorkerId, m: Message, run: Run, fate: Fate)
    requires WorkersOk(s) && MessagesOk(s)
    requires Finishes(s, s', w, m, run, fate)
    ensures MessagesOk(s')
  {
    NoReplyYet(s, w);
    AppendedMessages(s, s', m);
    forall row | row in s'.tables.messages
      ensures MessageOk(s', row)
    {
      if row != m {
        assert row in s.tables.messages && MessageOk(s, row);
      }
    }
  }

  lemma FinishRuns(s: State, s': State, w: WorkerId, m: Message, run: Run, fate: Fate)
    requires WorkersOk(s) && RunsOk(s)
    requires Finishes(s, s', w, m, run, fate)
    ensures RunsOk(s')
  {
  }

  lemma FinishCounts(s: State, s': State, w: WorkerId, m: Message, run: Run, fate: Fate, c: Id)
    requires WorkersOk(s) && Conserved(s)
    requires Finishes(s, s', w, m, run, fate)
    ensures CountRole(s'.tables.messages, c, User) == |RunsOf(s'.tables.runs.rows, c)|
    ensures CountRole(s'.tables.messages, c, Assistant) == |SucceededOf(s'.tables.runs.rows, c)|
  {
    NoReplyYet(s, w);
    CountAppend(s.tables.messages, m, c, User);
    CountAppend(s.tables.messages, m, c, Assistant);
    WrittenElsewhere(s.tables.runs, s'.tables.runs, run);
    RunUpdated(s.tables.runs.rows, s'.tables.runs.rows, run, c);
  }

  lemma CompletesOneKey(records: Records, claim: Option<Claim>, result: TurnResult)
    requires MaySettle(records, claim)
    ensures |CompletedKeys(SettledRecords(records, claim, result))|
         == |CompletedKeys(records)| + (if claim.Some? then 1 else 0)
  {
    if claim.Some? {
      var key := RecordKeyOf(claim.value.key);
      assert CompletedKeys(SettledRecords(records, claim, result)) == CompletedKeys(records) + {key};
    }
  }

  lemma OneMoreAnswer(before: map<WorkerId, Worker>, w: WorkerId, k: Worker)
    requires w in before && k.command == before[w].command && k.Answered() && !before[w].Answered()
    ensures |KeyedAnswers(before[w := k])| == |KeyedAnswers(before)| + (if k.command.key.Some? then 1 else 0)
  {
    if k.command.key.Some? {
      assert KeyedAnswers(before[w := k]) == KeyedAnswers(before) + {w};
    } else {
      assert KeyedAnswers(before[w := k]) == KeyedAnswers(before);
    }
  }

  lemma KeyedRepliesHoldClaims(s: State, w: WorkerId)
    requires WorkersOk(s) && w in s.workers && s.workers[w].pc.Replied?
    ensures s.workers[w].HeldClaim().Some? <==> s.workers[w].command.key.Some?
  {
    assert WorkerOk(s, w, s.workers[w]);
  }

  lemma FinishConserved(s: State, s': State, w: WorkerId, m: Message, run: Run, fate: Fate)
    requires WorkersOk(s) && Conserved(s)
    requires Finishes(s, s', w, m, run, fate)
    ensures Conserved(s')
  {
    forall c: Id
      ensures CountRole(s'.tables.messages, c, User) == |RunsOf(s'.tables.runs.rows, c)|
      ensures CountRole(s'.tables.messages, c, Assistant) == |SucceededOf(s'.tables.runs.rows, c)|
    {
      FinishCounts(s, s', w, m, run, fate, c);
    }
    NoReplyYet(s, w);
    KeyedRepliesHoldClaims(s, w);
    CompletesOneKey(s.tables.records, s.workers[w].HeldClaim(), ResultOf(run, m));
    OneMoreAnswer(s.workers, w, s'.workers[w]);
  }

  lemma FinishFootprint(s: State, s': State, w: WorkerId, m: Message, run: Run, fate: Fate)
    requires WorkersOk(s)
    requires Finishes(s, s', w, m, run, fate)
    ensures Footprint(s, s', w)
  {
    NoReplyYet(s, w);
    FinisherAdvances(s.workers[w], m, run, fate);
    FinishWritesOwnRun(s, s', w, m, run, fate);
    FinishTouchesOwnKey(s, s', w, m, run, fate);
  }

  lemma FinishAdds(s: State, s': State, w: WorkerId, m: Message, run: Run, fate: Fate)
    requires WorkersOk(s)
    requires Finishes(s, s', w, m, run, fate)
    ensures Adds(s, s', w)
  {
    NoReplyYet(s, w);
  }

  lemma FinisherAdvances(k: Worker, m: Message, run: Run, fate: Fate)
    requires k.pc.Replied? && k.stored.Some? && RunStore.SameOrigin(k.stored.value, run) && k.settlement.Unfinished?
    ensures Advances(k, Finisher(k, m, run, fate))
  {
  }

  lemma FinishWritesOwnRun(s: State, s': State, w: WorkerId, m: Message, run: Run, fate: Fate)
    requires WorkersOk(s)
    requires Finishes(s, s', w, m, run, fate)
    ensures OnlyOwnRun(s, s', s'.workers[w])
  {
    StoredRowOf(s, w);
    NoReplyYet(s, w);
  }

  lemma FinishTouchesOwnKey(s: State, s': State, w: WorkerId, m: Message, run: Run, fate: Fate)
    requires Finishes(s, s', w, m, run, fate)
    ensures forall key :: !s'.workers[w].Carries(key) ==> KeyUntouched(s, s', key)
  {
  }

  lemma FinishesKeeps(s: State, s': State, w: WorkerId, m: Message, run: Run, fate: Fate)
    requires Inv(s)
    requires Finishes(s, s', w, m, run, fate)
    ensures Kept(s, s', w)
  {
    FinishWorkers(s, s', w, m, run, fate);
    FinishRecords(s, s', w, m, run, fate);
    FinishSeparate(s, s', w, m, run, fate);
    FinishCalls(s, s', w, m, run, fate);
    FinishMessages(s, s', w, m, run, fate);
    FinishRuns(s, s', w, m, run, fate);
    FinishConserved(s, s', w, m, run, fate);
    FinishEvolves(s, s', w, m, run, fate);
    FinishFootprint(s, s', w, m, run, fate);
    FinishAdds(s, s', w, m, run, fate);
  }

  /** `done` is what worker `w` computed in memory. */
  ghost predicate Concludes(s: State, w: WorkerId, done: Conclusion) {
    && w in s.workers && s.workers[w].pc.Replied? && s.workers[w].stored.Some?
    && Fresh(s, done.message.id) && done.message.role == Assistant && !Text.Blank(done.message.content)
    && done.message.conversation == done.run.conversation
    && Reads(s, w, done.message.createdAt)
    && done.result == ResultOf(done.run, done.message)
    && done.run.status.Succeeded? && done.run.Disciplined() && AnsweredTrace(done.run, done.message)
    && RunStore.SameOrigin(s.workers[w].stored.value, done.run)
    && s.workers[w].stored.value.steps <= done.run.steps
  }

  lemma ConcludeEffect(s: State, w: WorkerId, messageId: Id, stamp: Instant, done: Conclusion)
    requires WorkersOk(s) && Enabled(s, Finish(w, messageId, stamp, Applied))
    requires s.workers[w].conversation.Some? && s.workers[w].run.Some?
    requires Conclude(s.workers[w].run.value, s.workers[w].conversation.value, s.workers[w].pc.content,
                      s.workers[w].pc.usage, stamp, messageId) == Ok(done)
    ensures done.message.id == messageId && Concludes(s, w, done)
  {
    var k := s.workers[w];
    assert WorkerOk(s, w, k);
    ConcludeShape(k.run.value, k.conversation.value, k.pc.content, k.pc.usage, stamp, messageId);
    ConcludedRunIsDisciplined(k.run.value, k.conversation.value, k.pc.content, k.pc.usage, stamp, messageId);
  }

  lemma MessageIdsAreUnused(s: State, id: Id)
    requires MessagesOk(s) && Fresh(s, id)
    ensures forall m :: m in s.tables.messages ==> m.id != id
  {
  }

  lemma UnfinishOwn(s: State, w: WorkerId, done: Conclusion, error: Error)
    requires WorkersOk(s) && MessagesOk(s) && Concludes(s, w, done)
    ensures WorkerOk(Unfinish(s, w, done, error), w, Unfinish(s, w, done, error).workers[w])
  {
    assert WorkerOk(s, w, s.workers[w]);
    MessageIdsAreUnused(s, done.message.id);
  }

  lemma UnfinishKeeps(s: State, w: WorkerId, done: Conclusion, error: Error)
    requires Inv(s) && Concludes(s, w, done)
    ensures Kept(s, Unfinish(s, w, done, error), w)
  {
    NoReplyYet(s, w);
    UnfinishOwn(s, w, done, error);
    LocalStep(s, Unfinish(s, w, done, error), w, Unfinish(s, w, done, error).workers[w]);
  }

  lemma FinishedRelates(s: State, w: WorkerId, done: Conclusion, tables: Tables, fate: Fate)
    requires Concludes(s, w, done)
    requires MaySettle(s.tables.records, s.workers[w].HeldClaim())
    requires Settles(s.tables, done, s.workers[w].HeldClaim(), tables)
    ensures Finishes(s, Finished(s, w, done, tables, fate), w, done.message, done.run, fate)
  {
  }

  lemma FinishedKeeps(s: State, w: WorkerId, done: Conclusion, tables: Tables, fate: Fate)
    requires Inv(s) && Concludes(s, w, done) && fate != Lost
    requires FinishTurn(s.tables, done, s.workers[w].HeldClaim()) == Ok(tables)
    ensures Kept(s, Finished(s, w, done, tables, fate), w)
  {
    NoReplyYet(s, w);
    MessageIdsAreUnused(s, done.message.id);
    FinishEffect(s.tables, s.workers[w].stored.value, done, s.workers[w].HeldClaim());
    FinishedRelates(s, w, done, tables, fate);
    FinishesKeeps(s, Finished(s, w, done, tables, fate), w, done.message, done.run, fate);
  }

  lemma FinishCases(s: State, w: WorkerId, messageId: Id, stamp: Instant, fate: Fate, concluded: Result<Conclusion>)
    requires w in s.workers && s.workers[w].pc.Replied?
    requires s.workers[w].conversation.Some? && s.workers[w].run.Some?
    requires concluded == Conclude(s.workers[w].run.value, s.workers[w].conversation.value, s.workers[w].pc.content,
                                   s.workers[w].pc.usage, stamp, messageId)
    ensures concluded.Err? ==> DoFinish(s, w, messageId, stamp, fate) == Exit(s, w, FailingRun(concluded.error))
    ensures concluded.Ok? ==>
      var finished := FinishTurn(s.tables, concluded.value, s.workers[w].HeldClaim());
      DoFinish(s, w, messageId, stamp, fate)
      == (if finished.Err? then Unfinish(s, w, concluded.value, finished.error)
          else if fate == Lost then Unfinish(s, w, concluded.value, DATABASE_UNAVAILABLE)
          else Finished(s, w, concluded.value, finished.value, fate))
  {
  }

  lemma RepliedIsEquipped(s: State, w: WorkerId)
    requires WorkersOk(s) && w in s.workers && (s.workers[w].pc.Replied? || s.workers[w].pc.FailingRun?)
    ensures s.workers[w].conversation.Some? && s.workers[w].run.Some? && s.workers[w].stored.Some?
  {
    assert WorkerOk(s, w, s.workers[w]);
  }

  lemma FinishKeeps(s: State, w: WorkerId, messageId: Id, stamp: Instant, fate: Fate)
    requires Inv(s) && Enabled(s, Finish(w, messageId, stamp, fate))
    ensures s.workers[w].conversation.Some? && s.workers[w].run.Some?
    ensures Kept(s, DoFinish(s, w, messageId, stamp, fate), w)
  {
    RepliedIsEquipped(s, w);
    var k := s.workers[w];
    var concluded := Conclude(k.run.value, k.conversation.value, k.pc.content, k.pc.usage, stamp, messageId);
    FinishCases(s, w, messageId, stamp, fate, concluded);
    if concluded.Err? {
      GiveUpKeeps(s, w, concluded.error);
    } else {
      ConcludeEffect(s, w, messageId, stamp, concluded.value);
      var finished := FinishTurn(s.tables, concluded.value, k.HeldClaim());
      if finished.Err? {
        UnfinishKeeps(s, w, concluded.value, finished.error);
      } else if fate == Lost {
        UnfinishKeeps(s, w, concluded.value, DATABASE_UNAVAILABLE);
      } else {
        FinishedKeeps(s, w, concluded.value, finished.value, fate);
      }
    }
  }

  // ---- The settlement of a failed turn ----

  lemma RunMissedOwn(s: State, w: WorkerId)
    requires WorkersOk(s) && w in s.workers && s.workers[w].pc.FailingRun?
    ensures WorkerOk(RunMissed(s, w), w, RunMissed(s, w).workers[w])
  {
    assert WorkerOk(s, w, s.workers[w]);
  }

  lemma RunMissedKeeps(s: State, w: WorkerId)
    requires Inv(s) && w in s.workers && s.workers[w].pc.FailingRun?
    ensures Kept(s, RunMissed(s, w), w)
  {
    RunMissedOwn(s, w);
    LocalStep(s, RunMissed(s, w), w, RunMissed(s, w).workers[w]);
  }

  /** Worker `w`'s persisted run, still running, was failed. */
  ghost predicate Fails(s: State, s': State, w: WorkerId, k: Worker, run: Run) {
    && w in s.workers && s.workers[w].pc.FailingRun? && s.workers[w].stored.Some?
    && s.workers[w].stored.value.status.Running?
    && run.status.Failed? && run.Disciplined() && RunStore.SameOrigin(s.workers[w].stored.value, run)
    && RunStore.Stores(s'.tables.runs, run) && RunStore.SameElsewhere(s.tables.runs, s'.tables.runs, run.id)
    && s' == s.(tables := s.tables.(runs := s'.tables.runs), workers := s.workers[w := k], since := s.since[w := s.now])
    && k == AfterRun(s.workers[w]).(settlement := Settled, stored := Some(run))
  }

  lemma FailOwn(s: State, s': State, w: WorkerId, k: Worker, run: Run)
    requires WorkersOk(s)
    requires Fails(s, s', w, k, run)
    ensures WorkerOk(s', w, k)
  {
    assert WorkerOk(s, w, s.workers[w]);
    assert StoredOk(s', w, k);
  }

  lemma FailEvolves(s: State, s': State, w: WorkerId, k: Worker, run: Run)
    requires Fails(s, s', w, k, run)
    ensures Evolves(s, s')
  {
    assert forall key :: key in s.tables.records ==> RecordEvolves(s, s', key);
  }

  lemma AfterRunAdvances(k: Worker, run: Run)
    requires !run.status.Succeeded? && k.pc.FailingRun? && k.settlement.Unfinished?
    requires k.stored.Some? && RunStore.SameOrigin(k.stored.value, run)
    ensures Advances(k, AfterRun(k).(settlement := Settled, stored := Some(run)))
  {
  }

  lemma FailWritesOwnRun(s: State, s': State, w: WorkerId, k: Worker, run: Run)
    requires WorkersOk(s)
    requires Fails(s, s', w, k, run)
    ensures OnlyOwnRun(s, s', k)
  {
    StoredRowOf(s, w);
  }

  lemma FailFootprint(s: State, s': State, w: WorkerId, k: Worker, run: Run)
    requires WorkersOk(s)
    requires Fails(s, s', w, k, run)
    ensures Footprint(s, s', w)
  {
    FailingIsUnfinished(s, w);
    AfterRunAdvances(s.workers[w], run);
    FailWritesOwnRun(s, s', w, k, run);
  }

  lemma FailingIsUnfinished(s: State, w: WorkerId)
    requires WorkersOk(s) && w in s.workers && s.workers[w].pc.FailingRun?
    requires s.workers[w].stored.Some? && s.workers[w].stored.value.status.Running?
    ensures s.workers[w].settlement.Unfinished?
  {
    assert WorkerOk(s, w, s.workers[w]);
  }

  lemma FailAdds(s: State, s': State, w: WorkerId, k: Worker, run: Run)
    requires Fails(s, s', w, k, run)
    ensures Adds(s, s', w)
  {
  }

  lemma FailWorkers(s: State, s': State, w: WorkerId, k: Worker, run: Run)
    requires WorkersOk(s) && Separate(s)
    requires Fails(s, s', w, k, run)
    ensures WorkersOk(s')
  {
    FailOwn(s, s', w, k, run);
    FailEvolves(s, s', w, k, run);
    forall v | v in s'.workers
      ensures WorkerOk(s', v, s'.workers[v])
    {
      if v != w {
        var other := s.workers[v];
        assert WorkerOk(s, v, other);
        if other.stored.Some? {
          RunStore.StoredElsewhere(s.tables.runs, s'.tables.runs, run.id, other.stored.value);
        }
        Bystander(s, s', v, other);
      }
    }
  }

  lemma FailRecords(s: State, s': State, w: WorkerId, k: Worker, run: Run)
    requires RecordsOk(s)
    requires Fails(s, s', w, k, run)
    ensures RecordsOk(s')
  {
  }

  lemma FailMessages(s: State, s': State, w: WorkerId, k: Worker, run: Run)
    requires MessagesOk(s)
    requires Fails(s, s', w, k, run)
    ensures MessagesOk(s')
  {
  }

  lemma StoredRowOf(s: State, w: WorkerId)
    requires WorkersOk(s) && w in s.workers && s.workers[w].stored.Some?
    ensures
      var run := s.workers[w].stored.value;
      run.id in s.tables.runs.rows && s.tables.runs.rows[run.id] == RunStore.RowOf(run)
  {
    assert WorkerOk(s, w, s.workers[w]);
  }

  lemma FailRuns(s: State, s': State, w: WorkerId, k: Worker, run: Run)
    requires WorkersOk(s) && RunsOk(s)
    requires Fails(s, s', w, k, run)
    ensures RunsOk(s')
  {
  }

  lemma FailSeparate(s: State, s': State, w: WorkerId, k: Worker, run: Run)
    requires Separate(s)
    requires Fails(s, s', w, k, run)
    ensures Separate(s')
  {
  }

  lemma FailCalls(s: State, s': State, w: WorkerId, k: Worker, run: Run)
    requires CallsOk(s)
    requires Fails(s, s', w, k, run)
    ensures CallsOk(s')
  {
  }

  lemma FailConserved(s: State, s': State, w: WorkerId, k: Worker, run: Run)
    requires WorkersOk(s) && Conserved(s)
    requires Fails(s, s', w, k, run)
    ensures Conserved(s')
  {
    StoredRowOf(s, w);
    WrittenElsewhere(s.tables.runs, s'.tables.runs, run);
    forall c: Id
      ensures RunsOf(s'.tables.runs.rows, c) == RunsOf(s.tables.runs.rows, c)
      ensures |SucceededOf(s'.tables.runs.rows, c)| == |SucceededOf(s.tables.runs.rows, c)|
    {
      RunUpdated(s.tables.runs.rows, s'.tables.runs.rows, run, c);
    }
    SameAnswers(s.workers, w, k);
  }

  lemma FailsKeeps(s: State, s': State, w: WorkerId, k: Worker, run: Run)
    requires Inv(s)
    requires Fails(s, s', w, k, run)
    ensures Kept(s, s', w)
  {
    FailWorkers(s, s', w, k, run);
    FailRecords(s, s', w, k, run);
    FailMessages(s, s', w, k, run);
    FailRuns(s, s', w, k, run);
    FailSeparate(s, s', w, k, run);
    FailCalls(s, s', w, k, run);
    FailConserved(s, s', w, k, run);
    FailEvolves(s, s', w, k, run);
    FailFootprint(s, s', w, k, run);
    FailAdds(s, s', w, k, run);
  }

  lemma AlreadySettledOwn(s: State, w: WorkerId)
    requires WorkersOk(s) && w in s.workers && s.workers[w].pc.FailingRun? && s.workers[w].stored.Some?
    requires s.workers[w].stored.value.status.Terminal()
    ensures WorkerOk(RunSettled(s, w, s.tables), w, RunSettled(s, w, s.tables).workers[w])
  {
    assert WorkerOk(s, w, s.workers[w]);
  }

  lemma AlreadySettledKeeps(s: State, w: WorkerId)
    requires Inv(s) && w in s.workers && s.workers[w].pc.FailingRun? && s.workers[w].stored.Some?
    requires s.workers[w].stored.value.status.Terminal()
    ensures Kept(s, RunSettled(s, w, s.tables), w)
  {
    AlreadySettledOwn(s, w);
    LocalStep(s, RunSettled(s, w, s.tables), w, RunSettled(s, w, s.tables).workers[w]);
  }

  lemma FailedRelates(s: State, w: WorkerId, tables: Tables)
    requires WorkersOk(s) && w in s.workers && s.workers[w].pc.FailingRun?
    requires s.workers[w].stored.Some? && s.workers[w].run.Some? && !s.workers[w].stored.value.status.Terminal()
    requires SettleFailedRun(s.tables, s.workers[w].run.value, s.workers[w].pc.error.message, s.now) == Ok(tables)
    ensures
      var s' := RunSettled(s, w, tables);
      var k := s.workers[w];
      Fails(s, s', w, s'.workers[w], k.stored.value.Fail(k.pc.error.message, s.now).value)
  {
    var k := s.workers[w];
    FailingIsSound(s, w);
    SettleRunEffect(s.tables, k.stored.value, k.run.value, k.pc.error.message, s.now);
    CallKeepsDiscipline(k.stored.value, CallFail(k.pc.error.message), s.now);
  }

  lemma RunSettledKeeps(s: State, w: WorkerId, tables: Tables)
    requires Inv(s) && w in s.workers && s.workers[w].pc.FailingRun?
    requires s.workers[w].stored.Some? && s.workers[w].run.Some?
    requires SettleFailedRun(s.tables, s.workers[w].run.value, s.workers[w].pc.error.message, s.now) == Ok(tables)
    ensures Kept(s, RunSettled(s, w, tables), w)
  {
    var k := s.workers[w];
    if k.stored.value.status.Terminal() {
      FailingIsSound(s, w);
      SettleRunEffect(s.tables, k.stored.value, k.run.value, k.pc.error.message, s.now);
      AlreadySettledKeeps(s, w);
    } else {
      FailedRelates(s, w, tables);
      var s' := RunSettled(s, w, tables);
      FailsKeeps(s, s', w, s'.workers[w], k.stored.value.Fail(k.pc.error.message, s.now).value);
    }
  }

  lemma FailingIsSound(s: State, w: WorkerId)
    requires WorkersOk(s) && w in s.workers && s.workers[w].stored.Some?
    ensures
      var k := s.workers[w];
      && k.run.Some? && k.stored.value.Disciplined() && k.stored.value.id == k.run.value.id
      && RunStore.Stores(s.tables.runs, k.stored.value)
      && (k.stored.value.status.Running? || k.stored.value.status.Terminal())
      && !k.stored.value.status.Cancelled?
  {
    assert WorkerOk(s, w, s.workers[w]);
  }

  lemma SettleRunCases(s: State, w: WorkerId, fate: Fate, settled: Result<Tables>)
    requires w in s.workers && s.workers[w].pc.FailingRun? && s.workers[w].run.Some? && s.workers[w].stored.Some?
    requires settled == SettleFailedRun(s.tables, s.workers[w].run.value, s.workers[w].pc.error.message, s.now)
    ensures DoSettleRun(s, w, fate)
         == if settled.Err? || fate == Lost then RunMissed(s, w) else RunSettled(s, w, settled.value)
  {
  }

  lemma SettleRunKeeps(s: State, w: WorkerId, fate: Fate)
    requires Inv(s) && Enabled(s, SettleRun(w, fate))
    ensures s.workers[w].run.Some? && s.workers[w].stored.Some? && Kept(s, DoSettleRun(s, w, fate), w)
  {
    RepliedIsEquipped(s, w);
    var k := s.workers[w];
    var settled := SettleFailedRun(s.tables, k.run.value, k.pc.error.message, s.now);
    SettleRunCases(s, w, fate, settled);
    if settled.Err? || fate == Lost {
      RunMissedKeeps(s, w);
    } else {
      RunSettledKeeps(s, w, settled.value);
    }
  }

  ghost function ClaimFailedState(s: State, w: WorkerId, record: Record): State
    requires w in s.workers && s.workers[w].pc.FailingClaim? && s.workers[w].command.key.Some?
  {
    var k := s.workers[w];
    s.(tables := s.tables.(records := s.tables.records[k.Key() := record])).With(w,
      k.(pc := Raised(k.pc.error), transactions := k.transactions + 1))
  }

  /** Worker `w` settled its own, still current claim as failed. */
  ghost predicate FailsClaim(s: State, w: WorkerId, record: Record) {
    && w in s.workers && s.workers[w].pc.FailingClaim? && s.workers[w].HeldClaim().Some?
    && Idempotency.Holds(s.tables.records, s.workers[w].Key(), s.workers[w].token.value)
    && record == s.tables.records[s.workers[w].Key()].(state := ClaimFailed, result := record.result)
  }

  lemma ClaimFailedOwn(s: State, w: WorkerId, record: Record)
    requires WorkersOk(s)
    requires FailsClaim(s, w, record)
    ensures WorkerOk(ClaimFailedState(s, w, record), w, ClaimFailedState(s, w, record).workers[w])
  {
    assert WorkerOk(s, w, s.workers[w]);
  }

  lemma ClaimFailedEvolves(s: State, w: WorkerId, record: Record)
    requires FailsClaim(s, w, record)
    ensures Evolves(s, ClaimFailedState(s, w, record))
  {
    var s' := ClaimFailedState(s, w, record);
    assert forall key :: key in s.tables.records ==> RecordEvolves(s, s', key);
  }

  lemma ClaimFailedFootprint(s: State, w: WorkerId, record: Record)
    requires FailsClaim(s, w, record)
    ensures Footprint(s, ClaimFailedState(s, w, record), w) && Adds(s, ClaimFailedState(s, w, record), w)
  {
  }

  lemma ClaimFailedWorkers(s: State, w: WorkerId, record: Record)
    requires WorkersOk(s)
    requires FailsClaim(s, w, record)
    ensures WorkersOk(ClaimFailedState(s, w, record))
  {
    var s' := ClaimFailedState(s, w, record);
    ClaimFailedOwn(s, w, record);
    ClaimFailedEvolves(s, w, record);
    forall v | v in s'.workers
      ensures WorkerOk(s', v, s'.workers[v])
    {
      if v != w {
        assert WorkerOk(s, v, s.workers[v]);
        Bystander(s, s', v, s.workers[v]);
      }
    }
  }

  lemma ClaimFailedRecords(s: State, w: WorkerId, record: Record)
    requires RecordsOk(s)
    requires FailsClaim(s, w, record)
    ensures RecordsOk(ClaimFailedState(s, w, record))
  {
    var s' := ClaimFailedState(s, w, record);
    assert s'.tables.records.Keys == s.tables.records.Keys;
    forall key | key in s'.tables.records
      ensures RecordOk(s', key)
    {
      assert RecordOk(s, key);
    }
  }

  lemma ClaimFailedRest(s: State, w: WorkerId, record: Record)
    requires Separate(s) && MessagesOk(s) && RunsOk(s) && CallsOk(s)
    requires FailsClaim(s, w, record)
    ensures
      var s' := ClaimFailedState(s, w, record);
      Separate(s') && MessagesOk(s') && RunsOk(s') && CallsOk(s')
  {
  }

  lemma ClaimFailedConserved(s: State, w: WorkerId, record: Record)
    requires Conserved(s)
    requires FailsClaim(s, w, record)
    ensures Conserved(ClaimFailedState(s, w, record))
  {
    StillOpenKey(s.tables.records, s.workers[w].Key(), record);
    SameAnswers(s.workers, w, ClaimFailedState(s, w, record).workers[w]);
  }

  lemma ClaimFailedKeeps(s: State, w: WorkerId, record: Record)
    requires Inv(s)
    requires FailsClaim(s, w, record)
    ensures Kept(s, ClaimFailedState(s, w, record), w)
  {
    ClaimFailedWorkers(s, w, record);
    ClaimFailedRecords(s, w, record);
    ClaimFailedRest(s, w, record);
    ClaimFailedConserved(s, w, record);
    ClaimFailedEvolves(s, w, record);
    ClaimFailedFootprint(s, w, record);
  }

  function ClaimMissed(s: State, w: WorkerId): State
    requires w in s.workers && s.workers[w].pc.FailingClaim?
  {
    var k := s.workers[w];
    s.With(w, k.(pc := Raised(k.pc.error), transactions := k.transactions + 1))
  }

  lemma ClaimMissedOwn(s: State, w: WorkerId)
    requires WorkersOk(s) && w in s.workers && s.workers[w].pc.FailingClaim?
    ensures WorkerOk(ClaimMissed(s, w), w, ClaimMissed(s, w).workers[w])
  {
    assert WorkerOk(s, w, s.workers[w]);
  }

  lemma ClaimMissedKeeps(s: State, w: WorkerId)
    requires Inv(s) && w in s.workers && s.workers[w].pc.FailingClaim?
    ensures Kept(s, ClaimMissed(s, w), w)
  {
    ClaimMissedOwn(s, w);
    LocalStep(s, ClaimMissed(s, w), w, ClaimMissed(s, w).workers[w]);
  }

  lemma FailingHoldsAClaim(s: State, w: WorkerId)
    requires WorkersOk(s) && w in s.workers && s.workers[w].pc.FailingClaim?
    ensures s.workers[w].HeldClaim().Some?
  {
    assert WorkerOk(s, w, s.workers[w]);
  }

  function FailedRecord(s: State, w: WorkerId): Record
    requires w in s.workers && s.workers[w].pc.FailingClaim? && s.workers[w].HeldClaim().Some?
    requires s.workers[w].Key() in s.tables.records
  {
    s.tables.records[s.workers[w].Key()].(
      state := ClaimFailed, result := map["reason" := Json.Text(s.workers[w].pc.error.message)])
  }

  lemma SettleClaimCases(s: State, w: WorkerId, fate: Fate)
    requires w in s.workers && s.workers[w].pc.FailingClaim? && s.workers[w].HeldClaim().Some?
    ensures
      var k := s.workers[w];
      DoSettleClaim(s, w, fate)
      == (if fate != Lost && Idempotency.Holds(s.tables.records, k.Key(), k.token.value)
          then ClaimFailedState(s, w, FailedRecord(s, w)) else ClaimMissed(s, w))
  {
  }

  lemma SettleClaimKeeps(s: State, w: WorkerId, fate: Fate)
    requires Inv(s) && Enabled(s, SettleClaim(w, fate))
    ensures s.workers[w].HeldClaim().Some? && Kept(s, DoSettleClaim(s, w, fate), w)
  {
    FailingHoldsAClaim(s, w);
    SettleClaimCases(s, w, fate);
    var k := s.workers[w];
    if fate != Lost && Idempotency.Holds(s.tables.records, k.Key(), k.token.value) {
      ClaimFailedKeeps(s, w, FailedRecord(s, w));
    } else {
      ClaimMissedKeeps(s, w);
    }
  }

  // ---- Every step ----

  lemma BeginStepKeeps(s: State, a: Action)
    requires Inv(s) && Enabled(s, a) && AllEquipped(s) && a.Begin?
    ensures Kept(s, Apply(s, a), a.w)
  {
    BeginKeeps(s, a.w, a.command);
  }

  lemma ReadStepKeeps(s: State, a: Action)
    requires Inv(s) && Enabled(s, a) && AllEquipped(s) && a.Read?
    ensures Kept(s, Apply(s, a), a.w)
  {
    ReadKeeps(s, a.w);
  }

  lemma InsertRowStepKeeps(s: State, a: Action)
    requires Inv(s) && Enabled(s, a) && AllEquipped(s) && a.InsertRow?
    ensures Kept(s, Apply(s, a), a.w)
  {
    InsertKeeps(s, a.w, a.id, a.token, a.stamp, a.fate);
  }

  lemma RereadStepKeeps(s: State, a: Action)
    requires Inv(s) && Enabled(s, a) && AllEquipped(s) && a.Reread?
    ensures Kept(s, Apply(s, a), a.w)
  {
    RereadKeeps(s, a.w);
  }

  lemma JudgeStepKeeps(s: State, a: Action)
    requires Inv(s) && Enabled(s, a) && AllEquipped(s) && a.Judge?
    ensures Kept(s, Apply(s, a), a.w)
  {
    JudgeKeeps(s, a.w);
  }

  lemma SwapStepKeeps(s: State, a: Action)
    requires Inv(s) && Enabled(s, a) && AllEquipped(s) && a.Swap?
    ensures Kept(s, Apply(s, a), a.w)
  {
    SwapKeeps(s, a.w, a.token, a.stamp, a.fate);
  }

  lemma OpenTurnStepKeeps(s: State, a: Action)
    requires Inv(s) && Enabled(s, a) && AllEquipped(s) && a.OpenTurn?
    ensures Kept(s, Apply(s, a), a.w)
  {
    OpenKeeps(s, a.w, a.messageId, a.runId, a.stamp, a.fate);
  }

  lemma PromptStepKeeps(s: State, a: Action)
    requires Inv(s) && Enabled(s, a) && AllEquipped(s) && a.Prompt?
    ensures Kept(s, Apply(s, a), a.w)
  {
    PromptKeeps(s, a.w);
  }

  lemma AnswerStepKeeps(s: State, a: Action)
    requires Inv(s) && Enabled(s, a) && AllEquipped(s) && a.Answer?
    ensures Kept(s, Apply(s, a), a.w)
  {
    AnswerKeeps(s, a.w, a.response);
  }

  lemma FinishStepKeeps(s: State, a: Action)
    requires Inv(s) && Enabled(s, a) && AllEquipped(s) && a.Finish?
    ensures Kept(s, Apply(s, a), a.w)
  {
    FinishKeeps(s, a.w, a.messageId, a.stamp, a.fate);
  }

  lemma SettleRunStepKeeps(s: State, a: Action)
    requires Inv(s) && Enabled(s, a) && AllEquipped(s) && a.SettleRun?
    ensures Kept(s, Apply(s, a), a.w)
  {
    SettleRunKeeps(s, a.w, a.fate);
  }

  lemma SettleClaimStepKeeps(s: State, a: Action)
    requires Inv(s) && Enabled(s, a) && AllEquipped(s) && a.SettleClaim?
    ensures Kept(s, Apply(s, a), a.w)
  {
    SettleClaimKeeps(s, a.w, a.fate);
  }

  lemma AbortStepKeeps(s: State, a: Action)
    requires Inv(s) && Enabled(s, a) && AllEquipped(s) && a.Abort?
    ensures Kept(s, Apply(s, a), a.w)
  {
    AbortKeeps(s, a.w, a.error);
  }

  lemma CrashStepKeeps(s: State, a: Action)
    requires Inv(s) && Enabled(s, a) && AllEquipped(s) && a.Crash?
    ensures Kept(s, Apply(s, a), a.w)
  {
    CrashKeeps(s, a.w);
  }

  /** A worker's step keeps the invariant and stays within its own footprint. */
  lemma WorkerStepKeeps(s: State, a: Action)
    requires Inv(s) && Enabled(s, a) && AllEquipped(s) && Actor(a).Some?
    ensures Kept(s, Apply(s, a), a.w)
  {
    if a.Begin? {
      BeginStepKeeps(s, a);
    } else if a.Read? {
      ReadStepKeeps(s, a);
    } else if a.InsertRow? {
      InsertRowStepKeeps(s, a);
    } else if a.Reread? {
      RereadStepKeeps(s, a);
    } else if a.Judge? {
      JudgeStepKeeps(s, a);
    } else if a.Swap? {
      SwapStepKeeps(s, a);
    } else if a.OpenTurn? {
      OpenTurnStepKeeps(s, a);
    } else if a.Prompt? {
      PromptStepKeeps(s, a);
    } else if a.Answer? {
      AnswerStepKeeps(s, a);
    } else if a.Finish? {
      FinishStepKeeps(s, a);
    } else if a.SettleRun? {
      SettleRunStepKeeps(s, a);
    } else if a.SettleClaim? {
      SettleClaimStepKeeps(s, a);
    } else if a.Abort? {
      AbortStepKeeps(s, a);
    } else {
      CrashStepKeeps(s, a);
    }
  }

  lemma WorldStepKeeps(s: State, a: Action)
    requires Inv(s) && Enabled(s, a) && AllEquipped(s) && Actor(a).None?
    ensures Inv(Apply(s, a)) && Ambient(s, Apply(s, a))
  {
    AmbientKeeps(s, Apply(s, a));
  }
}
