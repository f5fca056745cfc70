/** Claims exclude each other, lie a time-to-live apart, and bound the model calls made for a key;
    a worker whose claim was taken over can only write its own run. */
module Claims {
  import opened Common
  import opened Conversations
  import opened Tables
  import opened Turn
  import opened Protocol
  import opened Invariant
  import opened Effects
  import opened Preservation
  import opened Executions
  import opened Register
  import Idempotency
  import RunStore

  // ---- Counting by injection ----

  function Below(n: nat): (r: set<nat>)
    ensures |r| == n && forall i: nat :: i in r <==> i < n
  {
    if n == 0 then {} else Below(n - 1) + {n - 1}
  }

  lemma SubsetIsSmaller<T>(a: set<T>, b: set<T>)
    requires a <= b
    ensures |a| <= |b|
  {
    assert b == a + (b - a);
  }

  function Image(s: set<nat>, f: map<nat, nat>): set<nat>
    requires s <= f.Keys
  {
    set i | i in s :: f[i]
  }

  lemma {:induction false} ImageSize(s: set<nat>, f: map<nat, nat>)
    requires s <= f.Keys && forall i, j :: i in s && j in s && f[i] == f[j] ==> i == j
    ensures |Image(s, f)| == |s|
    decreases |s|
  {
    if s != {} {
      var x := Pick(s);
      var rest := s - {x};
      ImageSize(rest, f);
      assert Image(s, f) == Image(rest, f) + {f[x]};
    } else {
      assert Image(s, f) == {};
    }
  }

  /** A set that maps one to one below `n` has at most `n` elements. */
  lemma AtMost(s: set<nat>, f: map<nat, nat>, n: nat)
    requires s <= f.Keys && forall i, j :: i in s && j in s && f[i] == f[j] ==> i == j
    requires forall i :: i in s ==> f[i] < n
    ensures |s| <= n
  {
    ImageSize(s, f);
    SubsetIsSmaller(Image(s, f), Below(n));
  }

  // ---- Spacing ----

  const CLAIM_TTL := Idempotency.DEFAULT_CLAIM_TTL_SECONDS * SECOND

  lemma {:induction false} ClaimsAreSpaced(claims: seq<IssuedClaim>, i: nat, j: nat)
    requires Spaced(claims) && i <= j < |claims|
    ensures claims[j].at - claims[i].at >= (j - i) * CLAIM_TTL
    decreases j
  {
    if i < j {
      ClaimsAreSpaced(claims, i, j - 1);
    }
  }

  function ClaimsWithin(claims: seq<IssuedClaim>, start: Instant, length: nat): set<nat> {
    set i: nat | i < |claims| && start <= claims[i].at <= start + length
  }

  /** The earliest claim of a window. */
  lemma FirstWithin(claims: seq<IssuedClaim>, start: Instant, length: nat) returns (first: nat)
    requires ClaimsWithin(claims, start, length) != {}
    ensures first in ClaimsWithin(claims, start, length)
    ensures forall i :: i in ClaimsWithin(claims, start, length) ==> first <= i
  {
    first := 0;
    while first !in ClaimsWithin(claims, start, length)
      invariant forall i :: i in ClaimsWithin(claims, start, length) ==> first <= i < |claims|
      decreases |claims| - first
    {
      assert Pick(ClaimsWithin(claims, start, length)) != first;
      first := first + 1;
    }
  }

  lemma QuotientBounds(count: nat, length: nat)
    requires count * CLAIM_TTL <= length
    ensures count <= length / CLAIM_TTL
  {
    assert CLAIM_TTL == 300_000_000;
  }

  /** Any window of time of length T holds at most T / TTL + 1 claims. */
  lemma ClaimsPerWindow(claims: seq<IssuedClaim>, start: Instant, length: nat)
    requires Spaced(claims)
    ensures |ClaimsWithin(claims, start, length)| <= length / CLAIM_TTL + 1
  {
    var within := ClaimsWithin(claims, start, length);
    if within != {} {
      var first := FirstWithin(claims, start, length);
      forall i | i in within
        ensures i - first < length / CLAIM_TTL + 1
      {
        ClaimsAreSpaced(claims, first, i);
        QuotientBounds(i - first, length);
      }
      AtMost(within, map i: nat | i in within :: i - first, length / CLAIM_TTL + 1);
    }
  }

  /** In every reachable state the claims of a key lie a TTL apart, pairwise and by window, even
      though staleness was judged on an earlier read. */
  lemma EveryKeyIsClaimedSlowly(e: Execution, n: nat, key: RecordKey, start: Instant, length: nat)
    requires e.Valid() && n < |e.states|
    ensures
      var claims := e.states[n].ClaimsOf(key);
      && (forall i, j :: 0 <= i <= j < |claims| ==> claims[j].at - claims[i].at >= (j - i) * CLAIM_TTL)
      && |ClaimsWithin(claims, start, length)| <= length / CLAIM_TTL + 1
  {
    ExecutionsAreSafe(e, n);
    var claims := e.states[n].ClaimsOf(key);
    assert Spaced(claims) by {
      if key in e.states[n].tables.records {
        assert RecordOk(e.states[n], key);
      }
    }
    forall i, j | 0 <= i <= j < |claims|
      ensures claims[j].at - claims[i].at >= (j - i) * CLAIM_TTL
    {
      ClaimsAreSpaced(claims, i, j);
    }
    ClaimsPerWindow(claims, start, length);
  }

  // ---- Exclusion ----

  /** Every token is held by at most one worker, so at most one worker can settle a key, and it
      is the one that made the key's last claim. */
  lemma TokensExclude(e: Execution, n: nat, v: WorkerId, w: WorkerId)
    requires e.Valid() && n < |e.states|
    requires v in e.states[n].workers && w in e.states[n].workers
    ensures
      var s := e.states[n];
      && (s.workers[v].token.Some? && s.workers[v].token == s.workers[w].token ==> v == w)
      && (OwnsClaim(s, v) && OwnsClaim(s, w) && s.workers[v].Key() == s.workers[w].Key() ==> v == w)
      && (OwnsClaim(s, w) ==>
            s.ClaimsOf(s.workers[w].Key()) != [] && Last(s.ClaimsOf(s.workers[w].Key()), 1)[0].owner == w)
  {
    ExecutionsAreSafe(e, n);
    HoldersExclude(e.states[n], v, w);
  }

  lemma HoldersExclude(s: State, v: WorkerId, w: WorkerId)
    requires WorkersOk(s) && RecordsOk(s) && Separate(s) && v in s.workers && w in s.workers
    ensures s.workers[v].token.Some? && s.workers[v].token == s.workers[w].token ==> v == w
    ensures OwnsClaim(s, v) && OwnsClaim(s, w) && s.workers[v].Key() == s.workers[w].Key() ==> v == w
    ensures OwnsClaim(s, w) ==>
              s.ClaimsOf(s.workers[w].Key()) != [] && Last(s.ClaimsOf(s.workers[w].Key()), 1)[0].owner == w
  {
    if OwnsClaim(s, w) {
      HolderOwnsLastClaim(s, w);
    }
  }

  // ---- Model calls ----

  /** The positions of the model calls made for a key. */
  function CallsFor(s: State, key: RecordKey): set<nat> {
    set i: nat | i < |s.calls| && s.calls[i] in s.workers && s.workers[s.calls[i]].Carries(key)
  }

  lemma CallerHoldsTicket(s: State, key: RecordKey, i: nat)
    requires WorkersOk(s) && CallsOk(s) && i in CallsFor(s, key)
    ensures
      var k := s.workers[s.calls[i]];
      k.ticket < |s.ClaimsOf(key)| && s.ClaimsOf(key)[k.ticket].owner == s.calls[i]
  {
    assert WorkerOk(s, s.calls[i], s.workers[s.calls[i]]);
    assert Called(s.workers[s.calls[i]]);
  }

  lemma CallsWithinClaims(s: State, key: RecordKey)
    requires WorkersOk(s) && CallsOk(s)
    ensures |CallsFor(s, key)| <= |s.ClaimsOf(key)|
  {
    var calls := CallsFor(s, key);
    forall i | i in calls
      ensures s.workers[s.calls[i]].ticket < |s.ClaimsOf(key)|
      ensures s.ClaimsOf(key)[s.workers[s.calls[i]].ticket].owner == s.calls[i]
    {
      CallerHoldsTicket(s, key, i);
    }
    AtMost(calls, map i: nat | i in calls :: s.workers[s.calls[i]].ticket, |s.ClaimsOf(key)|);
  }

  /** The model is called for a key at most as often as the key is claimed, and at most once by
      each execution. */
  lemma EveryCallHasItsClaim(e: Execution, n: nat, key: RecordKey)
    requires e.Valid() && n < |e.states|
    ensures |CallsFor(e.states[n], key)| <= |e.states[n].ClaimsOf(key)|
    ensures forall i, j :: 0 <= i < j < |e.states[n].calls| ==> e.states[n].calls[i] != e.states[n].calls[j]
  {
    ExecutionsAreSafe(e, n);
    CallsWithinClaims(e.states[n], key);
  }

  // ---- User messages and runs ----

  /** The executions that carry a key and have opened a run, and their runs. */
  function OpenersFor(s: State, key: RecordKey): set<WorkerId> {
    set w | w in s.workers && s.workers[w].Carries(key) && s.workers[w].stored.Some?
  }

  function RunsFor(s: State, key: RecordKey): set<Id> {
    set w | w in OpenersFor(s, key) :: s.workers[w].stored.value.id
  }

  /** The positions of the user messages that were posted for a key. */
  function QuestionsFor(s: State, key: RecordKey): set<nat> {
    set i: nat | i < |s.tables.messages| && QuestionFor(s, key, s.tables.messages[i])
  }

  predicate QuestionFor(s: State, key: RecordKey, m: Message) {
    && m.role.User?
    && m.id in s.authors && s.authors[m.id] in s.workers
    && s.workers[s.authors[m.id]].Carries(key)
  }

  /** The executions that opened a run with a claim made in a window of time. */
  function OpenersWithin(s: State, key: RecordKey, start: Instant, length: nat): set<WorkerId> {
    set w | w in OpenersFor(s, key) && s.workers[w].ticket in ClaimsWithin(s.ClaimsOf(key), start, length)
  }

  lemma OpenerHoldsTicket(s: State, key: RecordKey, w: WorkerId)
    requires WorkersOk(s) && OriginsOk(s) && w in OpenersFor(s, key)
    ensures s.workers[w].ticket < |s.ClaimsOf(key)| && s.ClaimsOf(key)[s.workers[w].ticket].owner == w
  {
    assert WorkerOk(s, w, s.workers[w]);
    assert OpenedOk(s, w, s.workers[w]);
  }

  lemma RunsAreOpeners(s: State, key: RecordKey)
    requires Separate(s)
    ensures |RunsFor(s, key)| == |OpenersFor(s, key)|
  {
    var openers := OpenersFor(s, key);
    var f := map w | w in openers :: s.workers[w].stored.value.id;
    ImageSize(openers, f);
    assert RunsFor(s, key) == Image(openers, f);
  }

  lemma QuestionHasAuthor(s: State, key: RecordKey, i: nat)
    requires OriginsOk(s) && i in QuestionsFor(s, key)
    ensures
      var m := s.tables.messages[i];
      s.authors[m.id] in OpenersFor(s, key) && s.workers[s.authors[m.id]].input == Some(m)
  {
    var m := s.tables.messages[i];
    assert PostedOk(s, m);
    assert OpenedOk(s, s.authors[m.id], s.workers[s.authors[m.id]]);
  }

  lemma OpenerAsked(s: State, key: RecordKey, w: WorkerId) returns (i: nat)
    requires OriginsOk(s) && w in OpenersFor(s, key)
    ensures i in QuestionsFor(s, key) && s.authors[s.tables.messages[i].id] == w
  {
    assert OpenedOk(s, w, s.workers[w]);
    i :| 0 <= i < |s.tables.messages| && s.tables.messages[i] == s.workers[w].input.value;
  }

  lemma QuestionsAreOpeners(s: State, key: RecordKey)
    requires MessagesOk(s) && OriginsOk(s)
    ensures |QuestionsFor(s, key)| == |OpenersFor(s, key)|
  {
    var questions := QuestionsFor(s, key);
    var f := map i | i in questions :: s.authors[s.tables.messages[i].id];
    forall i, j | i in questions && j in questions && f[i] == f[j]
      ensures i == j
    {
      QuestionHasAuthor(s, key, i);
      QuestionHasAuthor(s, key, j);
    }
    ImageSize(questions, f);
    forall w | w in OpenersFor(s, key)
      ensures w in Image(questions, f)
    {
      var i := OpenerAsked(s, key, w);
      assert f[i] == w;
    }
    forall i | i in questions
      ensures f[i] in OpenersFor(s, key)
    {
      QuestionHasAuthor(s, key, i);
    }
    assert Image(questions, f) == OpenersFor(s, key);
  }

  lemma OpenersWithinClaims(s: State, key: RecordKey, among: set<WorkerId>, tickets: set<nat>)
    requires WorkersOk(s) && OriginsOk(s) && among <= OpenersFor(s, key)
    requires forall w :: w in among ==> s.workers[w].ticket in tickets
    ensures |among| <= |tickets|
  {
    var f := map w | w in among :: s.workers[w].ticket;
    forall v, w | v in among && w in among && f[v] == f[w]
      ensures v == w
    {
      OpenerHoldsTicket(s, key, v);
      OpenerHoldsTicket(s, key, w);
    }
    ImageSize(among, f);
    SubsetIsSmaller(Image(among, f), tickets);
  }

  /** User messages and runs are not exactly-once: a key has as many user messages as runs, one of
      each for every claim that got as far as starting its turn.  So there are at most as many as
      claims, hence at most one as long as nobody took the key over, and claims made in a window of
      time T start at most T / TTL + 1 turns. */
  lemma EveryRunHasItsClaim(e: Execution, n: nat, key: RecordKey, start: Instant, length: nat)
    requires e.Valid() && n < |e.states|
    ensures
      var s := e.states[n];
      && |QuestionsFor(s, key)| == |RunsFor(s, key)| == |OpenersFor(s, key)| <= |s.ClaimsOf(key)|
      && |OpenersWithin(s, key, start, length)| <= length / CLAIM_TTL + 1
    ensures forall id :: id in RunsFor(e.states[n], key) ==> id in e.states[n].tables.runs.rows
  {
    ExecutionsKeepBoth(e, n);
    var s := e.states[n];
    QuestionsAreOpeners(s, key);
    RunsAreOpeners(s, key);
    forall w | w in OpenersFor(s, key)
      ensures s.workers[w].ticket in Below(|s.ClaimsOf(key)|)
      ensures s.workers[w].stored.value.id in s.tables.runs.rows
    {
      OpenerHoldsTicket(s, key, w);
      assert WorkerOk(s, w, s.workers[w]);
    }
    OpenersWithinClaims(s, key, OpenersFor(s, key), Below(|s.ClaimsOf(key)|));
    EveryKeyIsClaimedSlowly(e, n, key, start, length);
    OpenersWithinClaims(s, key, OpenersWithin(s, key, start, length), ClaimsWithin(s.ClaimsOf(key), start, length));
  }

  // ---- Stale workers ----

  lemma StaleFinish(s: State, w: WorkerId, messageId: Id, stamp: Instant, fate: Fate)
    requires Enabled(s, Finish(w, messageId, stamp, fate)) && Equipped(s.workers[w])
    requires s.workers[w].HeldClaim().Some? && !OwnsClaim(s, w)
    ensures DoFinish(s, w, messageId, stamp, fate).tables == s.tables
  {
    var k := s.workers[w];
    var concluded := Conclude(k.run.value, k.conversation.value, k.pc.content, k.pc.usage, stamp, messageId);
    FinishCases(s, w, messageId, stamp, fate, concluded);
    if concluded.Ok? && FinishTurn(s.tables, concluded.value, k.HeldClaim()).Ok? {
      FinishSettlesRecords(s.tables, concluded.value, k.HeldClaim());
    }
  }

  lemma StaleSettleRun(s: State, w: WorkerId, fate: Fate)
    requires Enabled(s, SettleRun(w, fate)) && Equipped(s.workers[w])
    ensures DoSettleRun(s, w, fate).tables == s.tables.(runs := DoSettleRun(s, w, fate).tables.runs)
  {
    var k := s.workers[w];
    var settled := SettleFailedRun(s.tables, k.run.value, k.pc.error.message, s.now);
    SettleRunCases(s, w, fate, settled);
    if settled.Ok? {
      SettleRunWritesRuns(s.tables, k.run.value, k.pc.error.message, s.now);
    }
  }

  lemma StaleSettleClaim(s: State, w: WorkerId, fate: Fate)
    requires Enabled(s, SettleClaim(w, fate)) && Equipped(s.workers[w]) && !OwnsClaim(s, w)
    ensures DoSettleClaim(s, w, fate).tables == s.tables
  {
    SettleClaimCases(s, w, fate);
  }

  lemma StaleStep(s: State, a: Action)
    requires Enabled(s, a) && AllEquipped(s) && (a.Finish? || a.SettleRun? || a.SettleClaim?)
    requires s.workers[a.w].HeldClaim().Some? && !OwnsClaim(s, a.w)
    ensures Apply(s, a).tables == s.tables.(runs := Apply(s, a).tables.runs)
    ensures a.SettleRun? || Apply(s, a).tables == s.tables
  {
    if a.Finish? {
      StaleFinish(s, a.w, a.messageId, a.stamp, a.fate);
    } else if a.SettleRun? {
      StaleSettleRun(s, a.w, a.fate);
    } else {
      StaleSettleClaim(s, a.w, a.fate);
    }
  }

  lemma OtherRunsAreRead(s: State, s': State, k: Worker, other: Id)
    requires OnlyOwnRun(s, s', k)
    requires k.stored.Some? ==> k.stored.value.id != other
    ensures RunStore.GetRun(s'.tables.runs, other) == RunStore.GetRun(s.tables.runs, other)
  {
    if s'.tables.runs != s.tables.runs {
      RunStore.ReadElsewhere(s.tables.runs, s'.tables.runs, k.stored.value.id, other);
    }
  }

  predicate Settling(a: Action) {
    a.Finish? || a.SettleRun? || a.SettleClaim?
  }

  /** A worker whose claim was taken over, or settled, leaves messages and records as they
      are when it finishes or fails; only failing its run writes anything, and what that
      changes is no run but its own. */
  lemma StaleWorkersAreHarmless(e: Execution, n: nat, w: WorkerId, other: Id)
    requires e.Valid() && n < |e.actions| && Settling(e.actions[n]) && e.actions[n].w == w
    requires w in e.states[n].workers && e.states[n].workers[w].HeldClaim().Some? && !OwnsClaim(e.states[n], w)
    ensures
      var s, s' := e.states[n], e.states[n + 1];
      && s'.tables == s.tables.(runs := s'.tables.runs)
      && (e.actions[n].SettleRun? || s'.tables == s.tables)
      && w in s'.workers && s'.workers == s.workers[w := s'.workers[w]]
      && (Some(other) != OwnRun(s'.workers[w]) ==>
            RunStore.GetRun(s'.tables.runs, other) == RunStore.GetRun(s.tables.runs, other))
  {
    var s, s' := e.states[n], e.states[n + 1];
    ExecutionsAreSafe(e, n);
    StepIsSafe(s, e.actions[n], s');
    StaleStep(s, e.actions[n]);
    if Some(other) != OwnRun(s'.workers[w]) {
      OtherRunsAreRead(s, s', s'.workers[w], other);
    }
  }

  function OwnRun(k: Worker): Option<Id> {
    if k.stored.Some? then Some(k.stored.value.id) else None
  }
}
