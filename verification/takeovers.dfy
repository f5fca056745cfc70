/** Executions that go on from where another one stopped, and a key that is taken over again and
    again. */
module Takeovers {
  import opened Common
  import opened Tables
  import opened Turn
  import opened Protocol
  import opened Effects
  import opened Executions
  import opened Invariant
  import opened Preservation
  import opened Claims
  import opened Progress

  // ---- Going on from an execution ----

  /** Execution `e'` goes on from state `n` of execution `e`. */
  predicate Continues(e': Execution, e: Execution, n: nat) {
    && n < |e.states| && n <= |e.actions| && n < |e'.states| && n <= |e'.actions|
    && e'.states[..n + 1] == e.states[..n + 1] && e'.actions[..n] == e.actions[..n]
  }

  function EndOf(e: Execution): State
    requires e.states != []
  {
    e.states[|e.states| - 1]
  }

  /** Worker `w` carries the command and has stored a run. */
  predicate HasOpened(s: State, w: WorkerId, c: Command) {
    && w in s.workers && s.workers[w].command == c && s.workers[w].stored.Some?
  }

  /** Worker `w` is about to start the command's turn. */
  predicate MayOpen(s: State, w: WorkerId, c: Command) {
    && ValidateInput(c).Ok? && MayStart(s.tables, c)
    && w in s.workers && s.workers[w].pc.Starting? && s.Since(w) <= s.now
    && s.workers[w].command == c && s.workers[w].text == ValidateInput(c).value
  }

  lemma Extend(e: Execution, a: Action, s': State) returns (e': Execution)
    requires e.Valid() && Next(EndOf(e), a, s')
    ensures e'.Valid() && Continues(e', e, |e.actions|) && e'.actions == e.actions + [a] && EndOf(e') == s'
  {
    e' := Execution(e.states + [s'], e.actions + [a]);
  }

  /** The turn of worker `w` was started between two states. */
  predicate Begins(s: State, s': State, w: WorkerId, c: Command, messageId: Id, runId: Id, stamp: Instant) {
    && w in s.workers && HasOpened(s', w, c) && MayStart(s'.tables, c)
    && s'.tables.records == s.tables.records && s'.now == s.now && s'.issued == s.issued + {messageId, runId}
    && s'.workers == s.workers[w := s'.workers[w]] && s'.workers[w].pc.Prompting?
    && runId in s'.tables.runs.rows && s'.tables.runs.rows[runId].status.Running?
    && s'.tables.messages == s.tables.messages + [Question(s.workers[w], messageId, stamp)]
    && s'.claims == s.claims && s'.since == s.since[w := s'.now]
  }

  lemma OpenBegins(s: State, w: WorkerId, c: Command, messageId: Id, runId: Id, stamp: Instant)
    requires MayOpen(s, w, c) && IdsUnused(s.tables, messageId, runId)
    ensures Begins(s, DoOpen(s, w, messageId, runId, stamp, Applied), w, c, messageId, runId, stamp)
  {
    StartSucceedsExactly(s.tables, c, stamp, messageId, runId);
    StartEffect(s.tables, c, s.workers[w].text, stamp, messageId, runId);
  }

  lemma OpenIsAStep(s: State, w: WorkerId, messageId: Id, runId: Id, stamp: Instant)
    requires Enabled(s, OpenTurn(w, messageId, runId, stamp, Applied))
    ensures Next(s, OpenTurn(w, messageId, runId, stamp, Applied), DoOpen(s, w, messageId, runId, stamp, Applied))
  {
  }

  lemma FinalIdsAreUnused(e: Execution, messageId: Id, runId: Id)
    requires e.Valid() && Fresh(EndOf(e), messageId) && Fresh(EndOf(e), runId)
    ensures IdsUnused(EndOf(e).tables, messageId, runId)
  {
    ExecutionsAreSafe(e, |e.actions|);
    FreshIdsAreUnused(EndOf(e), messageId, runId);
  }

  lemma OpenHere(e: Execution, w: WorkerId, c: Command, messageId: Id, runId: Id, stamp: Instant)
    returns (e': Execution)
    requires e.Valid() && MayOpen(EndOf(e), w, c) && Reads(EndOf(e), w, stamp)
    requires Fresh(EndOf(e), messageId) && Fresh(EndOf(e), runId) && messageId != runId
    ensures e'.Valid() && Continues(e', e, |e.actions|)
    ensures e'.actions == e.actions + [OpenTurn(w, messageId, runId, stamp, Applied)]
    ensures Begins(EndOf(e), EndOf(e'), w, c, messageId, runId, stamp)
  {
    var s := EndOf(e);
    FinalIdsAreUnused(e, messageId, runId);
    OpenBegins(s, w, c, messageId, runId, stamp);
    OpenIsAStep(s, w, messageId, runId, stamp);
    e' := Extend(e, OpenTurn(w, messageId, runId, stamp, Applied), DoOpen(s, w, messageId, runId, stamp, Applied));
  }

  lemma ContinuesOn(e'': Execution, e': Execution, e: Execution, n: nat)
    requires e'.Valid() && e''.Valid() && Continues(e'', e', |e'.actions|) && Continues(e', e, n)
    ensures Continues(e'', e, n)
  {
    assert e''.states[..n + 1] == e''.states[..|e'.actions| + 1][..n + 1] == e'.states[..n + 1];
    assert e''.actions[..n] == e''.actions[..|e'.actions|][..n] == e'.actions[..n];
  }

  lemma AppendHere(e: Execution, states: seq<State>, actions: seq<Action>) returns (e': Execution)
    requires e.Valid() && Path(states, actions) && states[0] == EndOf(e)
    ensures e'.Valid() && Continues(e', e, |e.actions|) && EndOf(e') == states[|actions|]
  {
    e' := AppendPath(e, |e.actions|, states, actions);
    assert e.actions[..|e.actions|] == e.actions;
    assert e'.states[|e.actions|] == states[0];
  }

  /** A worker arrives at a free key and claims it. */
  function FreshlyClaimed(s: State, w: WorkerId, c: Command, recordId: Id, token: Id): State
    requires Keyed(c)
  {
    DoInsert(Arrived(s, w, c, 0), w, recordId, token, s.now, Applied)
  }

  lemma FreeIsClaimed(s: State, w: WorkerId, c: Command, recordId: Id, token: Id)
    requires Keyed(c) && KeyOf(c) !in s.tables.records && w !in s.workers
    ensures
      var s' := FreshlyClaimed(s, w, c, recordId, token);
      && JustClaimed(s', w, c, token) && AddsOneClaim(s, s', w, c, token)
      && s'.now == s.now && s'.issued == s.issued + {recordId, token}
  {
    ArrivalReads(s, w, c, 0);
  }

  lemma ClaimHere(e: Execution, w: WorkerId, c: Command, recordId: Id, token: Id) returns (e': Execution)
    requires e.Valid() && Keyed(c) && KeyOf(c) !in EndOf(e).tables.records && w !in EndOf(e).workers
    requires Fresh(EndOf(e), recordId) && Fresh(EndOf(e), token) && recordId != token
    ensures e'.Valid() && Continues(e', e, |e.actions|) && EndOf(e') == FreshlyClaimed(EndOf(e), w, c, recordId, token)
  {
    var s := EndOf(e);
    ArrivalIsAPath(s, w, c, 0);
    ArrivalReads(s, w, c, 0);
    e' := AppendHere(e, [s, Ticked(s, 0), Ticked(s, 0).With(w, Began(c)), Arrived(s, w, c, 0)],
                     [Tick(0), Begin(w, c), Read(w)]);
    var e'' := Extend(e', InsertRow(w, recordId, token, s.now, Applied), FreshlyClaimed(s, w, c, recordId, token));
    ContinuesOn(e'', e', e, |e.actions|);
    e' := e'';
  }

  /** Once the claim is a time-to-live old, another worker takes it over. */
  lemma TakeOverHere(e: Execution, w: WorkerId, c: Command, token: Id) returns (e': Execution)
    requires e.Valid() && Keyed(c) && w !in EndOf(e).workers && Fresh(EndOf(e), token)
    requires KeyOf(c) in EndOf(e).tables.records && EndOf(e).tables.records[KeyOf(c)].state.ClaimStarted?
    requires EndOf(e).tables.records[KeyOf(c)].claimedAt <= EndOf(e).now
    ensures e'.Valid() && Continues(e', e, |e.actions|)
    ensures JustClaimed(EndOf(e'), w, c, token) && AddsOneClaim(EndOf(e), EndOf(e'), w, c, token)
    ensures EndOf(e').now == EndOf(e).now + CLAIM_TTL && EndOf(e').issued <= EndOf(e).issued + {token}
  {
    var states, actions := AttemptAtStarted(EndOf(e), w, c, CLAIM_TTL, token);
    e' := AppendHere(e, states, actions);
  }

  lemma FirstClaim(e: Execution, w: WorkerId, c: Command, recordId: Id, token: Id) returns (e': Execution)
    requires e.Valid() && Keyed(c) && KeyOf(c) !in EndOf(e).tables.records && w !in EndOf(e).workers
    requires Fresh(EndOf(e), recordId) && Fresh(EndOf(e), token) && recordId != token
    ensures e'.Valid() && Continues(e', e, |e.actions|)
    ensures JustClaimed(EndOf(e'), w, c, token) && AddsOneClaim(EndOf(e), EndOf(e'), w, c, token)
    ensures EndOf(e').now == EndOf(e).now && EndOf(e').issued == EndOf(e).issued + {recordId, token}
  {
    e' := ClaimHere(e, w, c, recordId, token);
    FreeIsClaimed(EndOf(e), w, c, recordId, token);
  }

  /** Worker `w` claimed the key and started its turn between two states. */
  predicate Restarts(s: State, s': State, w: WorkerId, c: Command)
    requires Keyed(c)
  {
    && HasOpened(s', w, c) && s'.workers[w].pc.Prompting? && s'.workers == s.workers[w := s'.workers[w]]
    && MayStart(s'.tables, c)
    && KeyOf(c) in s'.tables.records && s'.tables.records[KeyOf(c)].state.ClaimStarted?
    && s'.tables.records[KeyOf(c)].claimedAt == s'.now
    && |s'.ClaimsOf(KeyOf(c))| == |s.ClaimsOf(KeyOf(c))| + 1
    && s.ClaimsOf(KeyOf(c)) <= s'.ClaimsOf(KeyOf(c)) && s'.ClaimsOf(KeyOf(c))[|s.ClaimsOf(KeyOf(c))|].at == s'.now
  }

  lemma ClaimThenBegin(
    s: State, claimed: State, s': State, w: WorkerId, c: Command, token: Id, messageId: Id, runId: Id, stamp: Instant)
    requires Keyed(c) && JustClaimed(claimed, w, c, token) && AddsOneClaim(s, claimed, w, c, token)
    requires Begins(claimed, s', w, c, messageId, runId, stamp)
    ensures Restarts(s, s', w, c)
  {
  }

  /** A worker claims a free key and starts its turn. */
  lemma FirstStart(e: Execution, w: WorkerId, c: Command, recordId: Id, token: Id, messageId: Id, runId: Id)
    returns (e': Execution)
    requires e.Valid() && Keyed(c) && KeyOf(c) !in EndOf(e).tables.records && w !in EndOf(e).workers
    requires MayStart(EndOf(e).tables, c)
    requires {recordId, token, messageId, runId} !! EndOf(e).issued && recordId != token && messageId != runId
    requires {recordId, token} !! {messageId, runId}
    ensures e'.Valid() && Continues(e', e, |e.actions|) && Restarts(EndOf(e), EndOf(e'), w, c)
    ensures EndOf(e').now == EndOf(e).now
    ensures runId in EndOf(e').tables.runs.rows && EndOf(e').tables.runs.rows[runId].status.Running?
  {
    var claimed := FirstClaim(e, w, c, recordId, token);
    e' := OpenHere(claimed, w, c, messageId, runId, EndOf(claimed).now);
    ContinuesOn(e', claimed, e, |e.actions|);
    ClaimThenBegin(EndOf(e), EndOf(claimed), EndOf(e'), w, c, token, messageId, runId, EndOf(claimed).now);
  }

  /** Another worker takes the key over and starts its turn again. */
  lemma NextStart(e: Execution, w: WorkerId, c: Command, token: Id, messageId: Id, runId: Id) returns (e': Execution)
    requires e.Valid() && Keyed(c) && w !in EndOf(e).workers && MayStart(EndOf(e).tables, c)
    requires KeyOf(c) in EndOf(e).tables.records && EndOf(e).tables.records[KeyOf(c)].state.ClaimStarted?
    requires EndOf(e).tables.records[KeyOf(c)].claimedAt <= EndOf(e).now
    requires Fresh(EndOf(e), token) && Fresh(EndOf(e), messageId) && Fresh(EndOf(e), runId)
    requires token != messageId && messageId != runId && runId != token
    ensures e'.Valid() && Continues(e', e, |e.actions|) && Restarts(EndOf(e), EndOf(e'), w, c)
    ensures EndOf(e').now == EndOf(e).now + CLAIM_TTL
  {
    var claimed := TakeOverHere(e, w, c, token);
    e' := OpenHere(claimed, w, c, messageId, runId, EndOf(claimed).now);
    ContinuesOn(e', claimed, e, |e.actions|);
    ClaimThenBegin(EndOf(e), EndOf(claimed), EndOf(e'), w, c, token, messageId, runId, EndOf(claimed).now);
  }

  lemma DieHere(e: Execution, w: WorkerId) returns (e': Execution)
    requires e.Valid() && w in EndOf(e).workers && !EndOf(e).workers[w].pc.Final()
    ensures e'.Valid() && Continues(e', e, |e.actions|) && EndOf(e') == Exit(EndOf(e), w, Crashed)
  {
    e' := Extend(e, Crash(w), Exit(EndOf(e), w, Crashed));
  }

  /** A worker claims a free key, starts its turn and dies. */
  lemma StartAndDie(e: Execution, w: WorkerId, c: Command, recordId: Id, token: Id, messageId: Id, runId: Id)
    returns (e': Execution)
    requires e.Valid() && Keyed(c) && KeyOf(c) !in EndOf(e).tables.records && w !in EndOf(e).workers
    requires MayStart(EndOf(e).tables, c)
    requires {recordId, token, messageId, runId} !! EndOf(e).issued && recordId != token && messageId != runId
    requires {recordId, token} !! {messageId, runId}
    ensures e'.Valid() && Continues(e', e, |e.actions|)
    ensures w in EndOf(e').workers && EndOf(e').workers[w].pc.Crashed?
    ensures runId in EndOf(e').tables.runs.rows && EndOf(e').tables.runs.rows[runId].status.Running?
    ensures KeyOf(c) in EndOf(e').tables.records && EndOf(e').tables.records[KeyOf(c)].state.ClaimStarted?
  {
    var started := FirstStart(e, w, c, recordId, token, messageId, runId);
    e' := DieHere(started, w);
    ContinuesOn(e', started, e, |e.actions|);
  }

  lemma SameBeginning(e': Execution, e: Execution, n: nat)
    requires Continues(e', e, n)
    ensures e'.states[0] == e.states[0]
  {
    assert e'.states[..n + 1][0] == e.states[..n + 1][0];
  }

  // ---- As many turns as claims, as many claims as time allows ----

  /** A number beyond all of them, which is new. */
  lemma {:induction false} Beyond(ids: set<nat>) returns (id: nat)
    ensures forall i :: i in ids ==> i < id
    decreases |ids|
  {
    if ids == {} {
      id := 0;
    } else {
      var i := Pick(ids);
      var rest := Beyond(ids - {i});
      id := if rest <= i then i + 1 else rest;
      assert ids == (ids - {i}) + {i};
    }
  }

  lemma OneMoreOpener(s: State, s': State, w: WorkerId, c: Command)
    requires Keyed(c) && w !in s.workers && Restarts(s, s', w, c)
    ensures |OpenersFor(s', KeyOf(c))| == |OpenersFor(s, KeyOf(c))| + 1
  {
    assert OpenersFor(s', KeyOf(c)) == OpenersFor(s, KeyOf(c)) + {w};
  }

  lemma FreeKeysAreUnopened(e: Execution, n: nat, key: RecordKey)
    requires e.Valid() && n < |e.states| && key !in e.states[n].tables.records
    ensures e.states[n].ClaimsOf(key) == [] && |OpenersFor(e.states[n], key)| == 0
  {
    ExecutionsAreSafe(e, n);
    EveryRunHasItsClaim(e, n, key, 0, 0);
  }

  /** The key was claimed `k` times since instant `start`, a time-to-live apart, and each claim
      started its turn. */
  predicate Repeated(s: State, c: Command, k: nat, start: Instant)
    requires Keyed(c)
  {
    && MayStart(s.tables, c) && s.now == start + (k - 1) * CLAIM_TTL
    && KeyOf(c) in s.tables.records && s.tables.records[KeyOf(c)].state.ClaimStarted?
    && s.tables.records[KeyOf(c)].claimedAt == s.now
    && |s.ClaimsOf(KeyOf(c))| == k && |OpenersFor(s, KeyOf(c))| == k
    && forall i :: 0 <= i < k ==> start <= s.ClaimsOf(KeyOf(c))[i].at <= s.now
  }

  lemma RepeatedOnce(s: State, s': State, w: WorkerId, c: Command, k: nat, start: Instant)
    requires Keyed(c) && w !in s.workers && Restarts(s, s', w, c)
    requires if k == 0 then s.ClaimsOf(KeyOf(c)) == [] && |OpenersFor(s, KeyOf(c))| == 0 && s'.now == start
             else Repeated(s, c, k, start) && s'.now == s.now + CLAIM_TTL
    ensures Repeated(s', c, k + 1, start)
  {
    OneMoreOpener(s, s', w, c);
  }

  lemma RepeatedFirst(e: Execution, c: Command) returns (e': Execution)
    requires e.Valid() && Keyed(c) && KeyOf(c) !in EndOf(e).tables.records && MayStart(EndOf(e).tables, c)
    ensures e'.Valid() && Continues(e', e, |e.actions|) && Repeated(EndOf(e'), c, 1, EndOf(e).now)
  {
    var w := Beyond(EndOf(e).workers.Keys);
    var id := Beyond(EndOf(e).issued);
    e' := FirstStart(e, w, c, id, id + 1, id + 2, id + 3);
    FreeKeysAreUnopened(e, |e.actions|, KeyOf(c));
    RepeatedOnce(EndOf(e), EndOf(e'), w, c, 0, EndOf(e).now);
  }

  lemma RepeatedNext(e: Execution, c: Command, k: nat, start: Instant) returns (e': Execution)
    requires e.Valid() && Keyed(c) && 0 < k && Repeated(EndOf(e), c, k, start)
    ensures e'.Valid() && Continues(e', e, |e.actions|) && Repeated(EndOf(e'), c, k + 1, start)
  {
    var w := Beyond(EndOf(e).workers.Keys);
    var id := Beyond(EndOf(e).issued);
    e' := NextStart(e, w, c, id, id + 1, id + 2);
    RepeatedOnce(EndOf(e), EndOf(e'), w, c, k, start);
  }

  lemma {:induction false} RepeatedTakeovers(e: Execution, c: Command, k: nat) returns (e': Execution)
    requires e.Valid() && Keyed(c) && KeyOf(c) !in EndOf(e).tables.records && MayStart(EndOf(e).tables, c) && 0 < k
    ensures e'.Valid() && Continues(e', e, |e.actions|) && Repeated(EndOf(e'), c, k, EndOf(e).now)
    decreases k
  {
    if k == 1 {
      e' := RepeatedFirst(e, c);
    } else {
      var before := RepeatedTakeovers(e, c, k - 1);
      e' := RepeatedNext(before, c, k - 1, EndOf(e).now);
      ContinuesOn(e', before, e, |e.actions|);
    }
  }

  lemma WholeQuotient(count: nat)
    ensures count * CLAIM_TTL / CLAIM_TTL == count
  {
    assert CLAIM_TTL == 300_000_000;
  }

  lemma AllWithin(s: State, key: RecordKey, start: Instant, length: nat)
    requires WorkersOk(s) && OriginsOk(s)
    requires forall i :: 0 <= i < |s.ClaimsOf(key)| ==> start <= s.ClaimsOf(key)[i].at <= start + length
    ensures OpenersWithin(s, key, start, length) == OpenersFor(s, key)
  {
    forall w | w in OpenersFor(s, key)
      ensures w in OpenersWithin(s, key, start, length)
    {
      OpenerHoldsTicket(s, key, w);
    }
  }

  lemma AllWithinHere(e: Execution, key: RecordKey, start: Instant, length: nat)
    requires e.Valid()
    requires forall i :: 0 <= i < |EndOf(e).ClaimsOf(key)| ==> start <= EndOf(e).ClaimsOf(key)[i].at <= start + length
    ensures OpenersWithin(EndOf(e), key, start, length) == OpenersFor(EndOf(e), key)
  {
    ExecutionsKeepBoth(e, |e.actions|);
    AllWithin(EndOf(e), key, start, length);
  }

  /** The bounds on claims, user messages and runs are met.  For every `k`, a turn that may start on a
      free key may come to have `k` claims, `k` user messages and `k` runs within `k - 1`
      times-to-live: each worker stalls for that long after its start was committed, and the next one
      takes the key over and starts again. */
  lemma TakeoversRepeat(e: Execution, c: Command, k: nat) returns (e': Execution)
    requires e.Valid() && Keyed(c) && KeyOf(c) !in EndOf(e).tables.records && MayStart(EndOf(e).tables, c) && 0 < k
    ensures e'.Valid() && Continues(e', e, |e.actions|)
    ensures
      var s, key, length := EndOf(e'), KeyOf(c), (k - 1) * CLAIM_TTL;
      && |s.ClaimsOf(key)| == |QuestionsFor(s, key)| == |RunsFor(s, key)| == k
      && |OpenersWithin(s, key, EndOf(e).now, length)| == length / CLAIM_TTL + 1 == k
  {
    e' := RepeatedTakeovers(e, c, k);
    EveryRunHasItsClaim(e', |e'.actions|, KeyOf(c), EndOf(e).now, (k - 1) * CLAIM_TTL);
    AllWithinHere(e', KeyOf(c), EndOf(e).now, (k - 1) * CLAIM_TTL);
    WholeQuotient(k - 1);
  }
}
