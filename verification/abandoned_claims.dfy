/** Which claims are left STARTED by the workers that made them. */
module AbandonedClaims {
  import opened Common
  import opened Tables
  import opened Turn
  import opened Protocol
  import opened Invariant
  import opened Preservation
  import opened Executions
  import opened Register
  import opened SettlementOfTurns

  predicate HasClaims(s: State, key: RecordKey) {
    key in s.tables.records && key in s.claims && s.claims[key] != []
  }

  ghost predicate OwnedBy(s: State, key: RecordKey, w: WorkerId) {
    HasClaims(s, key) && LastClaim(s, key).owner == w
  }

  predicate Undecided(s: State, key: RecordKey) {
    key in s.tables.records && s.tables.records[key].state.ClaimStarted?
  }

  predicate Decided(s: State, key: RecordKey) {
    key in s.tables.records && !s.tables.records[key].state.ClaimStarted?
  }

  predicate Gone(s: State, w: WorkerId) {
    w in s.workers && s.workers[w].pc.Final()
  }

  // ---- The causes ----

  /** The claim itself was committed, but reported to its maker as failed. */
  predicate ReportedClaim(e: Execution, m: nat, w: WorkerId)
    requires m < |e.actions| && |e.states| == |e.actions| + 1
  {
    && (e.actions[m].InsertRow? || e.actions[m].Swap?) && e.actions[m].w == w && e.actions[m].fate == Reported
    && Gone(e.states[m + 1], w)
  }

  /** The start transaction raised, outside the handler that settles. */
  predicate FailedStart(e: Execution, m: nat, w: WorkerId)
    requires m < |e.actions| && |e.states| == |e.actions| + 1
  {
    && (e.actions[m].OpenTurn? || e.actions[m].Abort?) && e.actions[m].w == w
    && w in e.states[m].workers && e.states[m].workers[w].pc.Starting? && Gone(e.states[m + 1], w)
  }

  /** The transaction that was to fail the claim was rolled back. */
  predicate LostFailure(e: Execution, m: nat, w: WorkerId)
    requires m < |e.actions| && m < |e.states|
  {
    e.actions[m] == SettleClaim(w, Lost) && w in e.states[m].workers && !e.states[m].workers[w].Answered()
  }

  /** The worker died, or was cancelled, before it had stored an answer. */
  predicate DiedUnanswered(e: Execution, m: nat, w: WorkerId)
    requires m < |e.actions| && m < |e.states|
  {
    e.actions[m] == Crash(w) && w in e.states[m].workers && !e.states[m].workers[w].Answered()
  }

  predicate LeavesStarted(e: Execution, m: nat, w: WorkerId)
    requires m < |e.actions| && |e.states| == |e.actions| + 1
  {
    ReportedClaim(e, m, w) || FailedStart(e, m, w) || LostFailure(e, m, w) || DiedUnanswered(e, m, w)
  }

  // ---- While its maker is at work ----

  lemma LastOf(s: State, key: RecordKey)
    requires RecordsOk(s) && key in s.tables.records
    ensures HasClaims(s, key) && LastClaim(s, key).token == s.tables.records[key].token
    ensures s.tables.records[key].state == ClaimCompleted ==> CompletedByLastClaim(s, key)
  {
    assert RecordOk(s, key);
  }

  lemma MadeByOwner(s: State, key: RecordKey)
    requires OriginsOk(s) && HasClaims(s, key)
    ensures MadeBy(s, key, LastClaim(s, key))
  {
  }

  lemma AnsweredIsCompleted(s: State, key: RecordKey, w: WorkerId)
    requires WorkersOk(s) && w in s.workers && s.workers[w].Carries(key) && s.workers[w].Answered()
    ensures key in s.tables.records && s.tables.records[key].state == ClaimCompleted
  {
    assert WorkerOk(s, w, s.workers[w]);
  }

  /** The row of a claim is completed exactly when its maker has stored an answer. */
  lemma CompletedMeansAnswered(s: State, key: RecordKey)
    requires WorkersOk(s) && RecordsOk(s) && OriginsOk(s) && key in s.tables.records
    ensures HasClaims(s, key) && LastClaim(s, key).owner in s.workers
    ensures s.tables.records[key].state == ClaimCompleted <==> s.workers[LastClaim(s, key).owner].Answered()
  {
    LastOf(s, key);
    MadeByOwner(s, key);
    if s.workers[LastClaim(s, key).owner].Answered() {
      AnsweredIsCompleted(s, key, LastClaim(s, key).owner);
    }
  }

  // ---- One step ----

  lemma OnlyMakersAddClaims(s: State, s': State, v: WorkerId, key: RecordKey)
    requires Adds(s, s', v) && HasClaims(s', key)
    ensures s'.ClaimsOf(key) == s.ClaimsOf(key) || LastClaim(s', key).owner == v
  {
  }

  lemma DecidedInRegister(s: State, key: RecordKey)
    requires WorkersOk(s) && RecordsOk(s)
    ensures Decided(s, key) <==> key in RegisterOf(s.tables.records)
  {
    if key in s.tables.records && s.tables.records[key].state == ClaimCompleted {
      CompletedDecodes(s, key);
    }
  }

  lemma DecidingStep(s: State, a: Action, s': State, key: RecordKey)
    requires WritesOnce(RegisterOf(s.tables.records), RegisterOf(s'.tables.records), OpOf(s, a, s'))
    requires key !in RegisterOf(s.tables.records) && key in RegisterOf(s'.tables.records)
    ensures a.Finish? || a.SettleClaim?
    ensures OwnsClaim(s, a.w) && s.workers[a.w].Key() == key
    ensures s'.tables.records[key].state.ClaimFailed? ==> a.SettleClaim?
  {
    assert OpOf(s, a, s') == Decide(key, RegisterOf(s'.tables.records)[key]);
  }

  lemma SettlersAreOwners(s: State, w: WorkerId)
    requires WorkersOk(s) && RecordsOk(s) && OwnsClaim(s, w)
    ensures OwnedBy(s, s.workers[w].Key(), w)
  {
    HolderOwnsLastClaim(s, w);
  }

  /** Only the maker of a key's last claim decides the key. */
  lemma OnlyOwnersDecide(e: Execution, n: nat, key: RecordKey)
    requires e.Valid() && n < |e.actions| && !Decided(e.states[n], key) && Decided(e.states[n + 1], key)
    ensures Actor(e.actions[n]).Some? && e.actions[n].w in e.states[n].workers
    ensures OwnedBy(e.states[n], key, e.actions[n].w)
    ensures e.states[n + 1].tables.records[key].state.ClaimFailed? ==> e.actions[n].SettleClaim?
  {
    OneStep(e, n);
    StepRefinesRegister(e.states[n], e.actions[n], e.states[n + 1]);
    DecidedInRegister(e.states[n], key);
    DecidedInRegister(e.states[n + 1], key);
    DecidingStep(e.states[n], e.actions[n], e.states[n + 1], key);
    SettlersAreOwners(e.states[n], e.actions[n].w);
  }

  lemma ClaimsGrow(e: Execution, n: nat, key: RecordKey)
    requires e.Valid() && n < |e.actions| && HasClaims(e.states[n + 1], key)
    ensures e.states[n + 1].ClaimsOf(key) == e.states[n].ClaimsOf(key)
      || (Actor(e.actions[n]).Some? && LastClaim(e.states[n + 1], key).owner == e.actions[n].w)
  {
    OneStep(e, n);
    if Actor(e.actions[n]).Some? {
      OnlyMakersAddClaims(e.states[n], e.states[n + 1], e.actions[n].w, key);
    }
  }

  // ---- Once its maker is gone ----

  lemma GoneDoNotMove(s: State, s': State, v: WorkerId, w: WorkerId)
    requires Gone(s, w) && Footprint(s, s', v)
    ensures v != w
  {
  }

  lemma GoneDoNotAct(e: Execution, n: nat, w: WorkerId)
    requires e.Valid() && n < |e.actions| && Gone(e.states[n], w)
    ensures Actor(e.actions[n]) != Some(w)
  {
    OneStep(e, n);
    if Actor(e.actions[n]).Some? {
      GoneDoNotMove(e.states[n], e.states[n + 1], e.actions[n].w, w);
    }
  }

  lemma GoneStay(e: Execution, m: nat, n: nat, w: WorkerId)
    requires e.Valid() && m <= n < |e.states| && Gone(e.states[m], w)
    ensures Gone(e.states[n], w)
  {
    SettlementStays(e, m, n, w);
  }

  lemma DecidedStays(s: State, s': State, key: RecordKey)
    requires RecordsLater(s, s') && key in s.tables.records
    ensures key in s'.tables.records
    ensures Undecided(s', key) ==> Undecided(s, key)
  {
  }

  lemma RowsLater(e: Execution, n: nat, key: RecordKey)
    requires e.Valid() && n < |e.actions| && key in e.states[n].tables.records
    ensures key in e.states[n + 1].tables.records
    ensures Undecided(e.states[n + 1], key) ==> Undecided(e.states[n], key)
  {
    RecordsStay(e, n, n + 1);
    DecidedStays(e.states[n], e.states[n + 1], key);
  }

  lemma LeftByStep(e: Execution, n: nat, key: RecordKey, w: WorkerId)
    requires e.Valid() && n < |e.actions| && Gone(e.states[n], w) && OwnedBy(e.states[n + 1], key, w)
    ensures OwnedBy(e.states[n], key, w)
    ensures Undecided(e.states[n + 1], key) <==> Undecided(e.states[n], key)
  {
    GoneDoNotAct(e, n, w);
    ClaimsGrow(e, n, key);
    KeysAreRecords(e, n, key);
    RowsLater(e, n, key);
    if Decided(e.states[n + 1], key) && !Decided(e.states[n], key) {
      OnlyOwnersDecide(e, n, key);
    }
  }

  lemma KeysAreRecords(e: Execution, n: nat, key: RecordKey)
    requires e.Valid() && n < |e.states|
    ensures key in e.states[n].claims <==> key in e.states[n].tables.records
    ensures key in e.states[n].claims ==> HasClaims(e.states[n], key)
  {
    ExecutionsAreSafe(e, n);
    if key in e.states[n].tables.records {
      LastOf(e.states[n], key);
    }
  }

  /** What a worker that is gone has claimed last is as it left it. */
  lemma {:induction false} LeftAsItWas(e: Execution, m: nat, n: nat, key: RecordKey, w: WorkerId)
    requires e.Valid() && m <= n < |e.states| && Gone(e.states[m], w) && OwnedBy(e.states[n], key, w)
    ensures OwnedBy(e.states[m], key, w)
    ensures Undecided(e.states[n], key) <==> Undecided(e.states[m], key)
    decreases n
  {
    if m < n {
      GoneStay(e, m, n - 1, w);
      LeftByStep(e, n - 1, key, w);
      LeftAsItWas(e, m, n - 1, key, w);
    }
  }

  // ---- A failed claim was failed by its maker, which then was gone ----

  lemma SettlersLeave(s: State, w: WorkerId, fate: Fate)
    requires Enabled(s, SettleClaim(w, fate)) && Equipped(s.workers[w])
    ensures Gone(DoSettleClaim(s, w, fate), w)
  {
  }

  lemma SettlementLeaves(e: Execution, n: nat)
    requires e.Valid() && n < |e.actions| && e.actions[n].SettleClaim?
    ensures Gone(e.states[n + 1], e.actions[n].w)
  {
    OneStep(e, n);
    SettlersLeave(e.states[n], e.actions[n].w, e.actions[n].fate);
  }

  lemma FailersAreGone(e: Execution, n: nat, key: RecordKey)
    requires e.Valid() && n < |e.actions| && !Decided(e.states[n], key) && Decided(e.states[n + 1], key)
    requires e.states[n + 1].tables.records[key].state.ClaimFailed?
    ensures HasClaims(e.states[n + 1], key) && Gone(e.states[n + 1], LastClaim(e.states[n + 1], key).owner)
  {
    OnlyOwnersDecide(e, n, key);
    KeysAreRecords(e, n + 1, key);
    ClaimsGrow(e, n, key);
    SettlementLeaves(e, n);
  }

  lemma SameRecordSameClaim(s: State, s': State, key: RecordKey)
    requires RecordsOk(s) && RecordsOk(s') && RecordsLater(s, s') && Decided(s, key)
    ensures Decided(s', key) && s'.tables.records[key] == s.tables.records[key]
    ensures HasClaims(s, key) && HasClaims(s', key) && LastClaim(s', key) == LastClaim(s, key)
  {
    assert RecordOk(s, key) && RecordOk(s', key);
    assert s'.claims[key][|s.claims[key]| - 1] == LastClaim(s, key);
  }

  lemma RecordsAreOk(e: Execution, n: nat)
    requires e.Valid() && n < |e.states|
    ensures RecordsOk(e.states[n])
  {
    ExecutionsAreSafe(e, n);
  }

  lemma DecidedByStep(e: Execution, n: nat, key: RecordKey)
    requires e.Valid() && n < |e.actions| && Decided(e.states[n], key)
    ensures Decided(e.states[n + 1], key) && e.states[n + 1].tables.records[key] == e.states[n].tables.records[key]
    ensures HasClaims(e.states[n], key) && HasClaims(e.states[n + 1], key)
    ensures LastClaim(e.states[n + 1], key) == LastClaim(e.states[n], key)
  {
    RecordsAreOk(e, n);
    RecordsAreOk(e, n + 1);
    RecordsStay(e, n, n + 1);
    SameRecordSameClaim(e.states[n], e.states[n + 1], key);
  }

  lemma {:induction false} FailedMeansGone(e: Execution, n: nat, key: RecordKey)
    requires e.Valid() && n < |e.states| && key in e.states[n].tables.records
    requires e.states[n].tables.records[key].state.ClaimFailed?
    ensures HasClaims(e.states[n], key) && Gone(e.states[n], LastClaim(e.states[n], key).owner)
  {
    if n > 0 {
      if Decided(e.states[n - 1], key) {
        DecidedByStep(e, n - 1, key);
        FailedMeansGone(e, n - 1, key);
        GoneStay(e, n - 1, n, LastClaim(e.states[n], key).owner);
      } else {
        FailersAreGone(e, n - 1, key);
      }
    }
  }

  /** While its maker is at work, a claim is STARTED exactly until the answer is stored. */
  lemma StartedUntilAnswered(e: Execution, n: nat, key: RecordKey, w: WorkerId)
    requires e.Valid() && n < |e.states| && OwnedBy(e.states[n], key, w) && !Gone(e.states[n], w)
    ensures w in e.states[n].workers
    ensures Undecided(e.states[n], key) <==> !e.states[n].workers[w].Answered()
  {
    ExecutionsKeepBoth(e, n);
    CompletedMeansAnswered(e.states[n], key);
    if e.states[n].tables.records[key].state.ClaimFailed? {
      FailedMeansGone(e, n, key);
    }
  }

  // ---- How its maker left ----

  /** Step `m` is the last one of the maker of the key's last claim. */
  ghost predicate LeavesAt(e: Execution, m: nat, key: RecordKey, w: WorkerId) {
    && e.Valid() && m < |e.actions|
    && !Gone(e.states[m], w) && Gone(e.states[m + 1], w) && OwnedBy(e.states[m + 1], key, w)
  }

  lemma OthersStandStill(s: State, s': State, v: WorkerId, w: WorkerId)
    requires Footprint(s, s', v) && v != w
    ensures Gone(s', w) <==> Gone(s, w)
  {
  }

  lemma LeaversAct(e: Execution, m: nat, w: WorkerId)
    requires e.Valid() && m < |e.actions| && !Gone(e.states[m], w) && Gone(e.states[m + 1], w)
    ensures Actor(e.actions[m]) == Some(w)
  {
    OneStep(e, m);
    if Actor(e.actions[m]).Some? && e.actions[m].w != w {
      OthersStandStill(e.states[m], e.states[m + 1], e.actions[m].w, w);
    }
  }

  lemma InsertGrants(s: State, w: WorkerId, id: Id, token: Id, stamp: Instant, fate: Fate, key: RecordKey)
    requires Enabled(s, InsertRow(w, id, token, stamp, fate)) && Equipped(s.workers[w])
    requires
      var s' := DoInsert(s, w, id, token, stamp, fate);
      Gone(s', w) && s'.ClaimsOf(key) != s.ClaimsOf(key)
    ensures fate == Reported && Undecided(DoInsert(s, w, id, token, stamp, fate), key)
  {
  }

  lemma SwapGrants(s: State, w: WorkerId, token: Id, stamp: Instant, fate: Fate, key: RecordKey)
    requires Enabled(s, Swap(w, token, stamp, fate)) && Equipped(s.workers[w])
    requires
      var s' := DoSwap(s, w, token, stamp, fate);
      Gone(s', w) && s'.ClaimsOf(key) != s.ClaimsOf(key)
    ensures fate == Reported && Undecided(DoSwap(s, w, token, stamp, fate), key)
  {
  }

  /** A worker that left while it was claiming made its claim in that very step. */
  lemma GrantedWhenLeaving(s: State, a: Action, s': State, key: RecordKey)
    requires Enabled(s, a) && AllEquipped(s) && Actor(a).Some? && a.w in s.workers && s.workers[a.w].pc.Claiming()
    requires s' == Apply(s, a) && Gone(s', a.w) && s'.ClaimsOf(key) != s.ClaimsOf(key)
    ensures (a.InsertRow? || a.Swap?) && a.fate == Reported && Undecided(s', key)
  {
    if a.InsertRow? {
      InsertGrants(s, a.w, a.id, a.token, a.stamp, a.fate, key);
    } else if a.Swap? {
      SwapGrants(s, a.w, a.token, a.stamp, a.fate, key);
    }
  }

  lemma OwnersHaveClaimed(e: Execution, n: nat, key: RecordKey, w: WorkerId)
    requires e.Valid() && n < |e.states| && OwnedBy(e.states[n], key, w)
    ensures w in e.states[n].workers && MadeBy(e.states[n], key, LastClaim(e.states[n], key))
  {
    OriginsAreKnown(e, n);
    MadeByOwner(e.states[n], key);
  }

  lemma OnlyClaimersClaim(s: State, s': State, w: WorkerId, key: RecordKey)
    requires Adds(s, s', w) && s'.ClaimsOf(key) != s.ClaimsOf(key)
    ensures w in s.workers && s.workers[w].pc.Claiming()
  {
  }

  lemma ClaimedInLastStep(e: Execution, m: nat, key: RecordKey, w: WorkerId)
    requires LeavesAt(e, m, key, w) && Actor(e.actions[m]) == Some(w)
    requires e.states[m + 1].ClaimsOf(key) != e.states[m].ClaimsOf(key)
    ensures w in e.states[m].workers && e.states[m].workers[w].pc.Claiming()
    ensures Undecided(e.states[m + 1], key) && ReportedClaim(e, m, w)
  {
    OneStep(e, m);
    OnlyClaimersClaim(e.states[m], e.states[m + 1], w, key);
    GrantedWhenLeaving(e.states[m], e.actions[m], e.states[m + 1], key);
  }

  lemma ClaimedBefore(e: Execution, m: nat, key: RecordKey, w: WorkerId)
    requires LeavesAt(e, m, key, w) && e.states[m + 1].ClaimsOf(key) == e.states[m].ClaimsOf(key)
    ensures OwnedBy(e.states[m], key, w) && w in e.states[m].workers
    ensures MadeBy(e.states[m], key, LastClaim(e.states[m], key))
    ensures Undecided(e.states[m], key) <==> !e.states[m].workers[w].Answered()
  {
    KeysAreRecords(e, m, key);
    OwnersHaveClaimed(e, m, key, w);
    StartedUntilAnswered(e, m, key, w);
  }

  lemma StartingIsUnanswered(s: State, w: WorkerId)
    requires WorkersOk(s) && w in s.workers && s.workers[w].pc.Starting?
    ensures !s.workers[w].Answered()
  {
    assert WorkerOk(s, w, s.workers[w]);
  }

  lemma LeftByStart(e: Execution, m: nat, key: RecordKey, w: WorkerId)
    requires LeavesAt(e, m, key, w) && OwnedBy(e.states[m], key, w) && e.actions[m].OpenTurn? && e.actions[m].w == w
    ensures Undecided(e.states[m + 1], key) == Undecided(e.states[m], key)
    ensures FailedStart(e, m, w) && !e.states[m].workers[w].Answered()
  {
    OneStep(e, m);
    var s, a := e.states[m], e.actions[m];
    StartingIsUnanswered(s, w);
    OpenLeavesRecords(s, w, a.messageId, a.runId, a.stamp, a.fate);
  }

  lemma LeftByAbort(e: Execution, m: nat, key: RecordKey, w: WorkerId)
    requires LeavesAt(e, m, key, w) && OwnedBy(e.states[m], key, w) && e.actions[m].Abort? && e.actions[m].w == w
    requires w in e.states[m].workers && !e.states[m].workers[w].pc.Claiming()
    ensures Undecided(e.states[m + 1], key) == Undecided(e.states[m], key)
    ensures FailedStart(e, m, w) && !e.states[m].workers[w].Answered()
  {
    OneStep(e, m);
    StartingIsUnanswered(e.states[m], w);
  }

  lemma LeftByDeath(e: Execution, m: nat, key: RecordKey, w: WorkerId)
    requires LeavesAt(e, m, key, w) && e.actions[m] == Crash(w)
    ensures Undecided(e.states[m + 1], key) == Undecided(e.states[m], key)
  {
    OneStep(e, m);
  }

  lemma FinishersReturn(s: State, w: WorkerId, messageId: Id, stamp: Instant, fate: Fate)
    requires Enabled(s, Finish(w, messageId, stamp, fate)) && Equipped(s.workers[w])
    ensures
      var s' := DoFinish(s, w, messageId, stamp, fate);
      Gone(s', w) ==> s'.workers[w].pc.Returned?
  {
    var k := s.workers[w];
    FinishCases(s, w, messageId, stamp, fate,
                Conclude(k.run.value, k.conversation.value, k.pc.content, k.pc.usage, stamp, messageId));
  }

  lemma FinishReturns(e: Execution, m: nat, w: WorkerId)
    requires e.Valid() && m < |e.actions| && e.actions[m].Finish? && e.actions[m].w == w && Gone(e.states[m + 1], w)
    ensures e.states[m + 1].workers[w].pc.Returned?
  {
    OneStep(e, m);
    FinishersReturn(e.states[m], w, e.actions[m].messageId, e.actions[m].stamp, e.actions[m].fate);
  }

  lemma ReturnedIsCompleted(s: State, w: WorkerId, key: RecordKey)
    requires WorkersOk(s) && w in s.workers && s.workers[w].Carries(key) && s.workers[w].pc.Returned?
    ensures !Undecided(s, key)
  {
    assert WorkerOk(s, w, s.workers[w]);
  }

  lemma LeftByFinish(e: Execution, m: nat, key: RecordKey, w: WorkerId)
    requires LeavesAt(e, m, key, w) && e.actions[m].Finish? && e.actions[m].w == w
    ensures !Undecided(e.states[m + 1], key)
  {
    FinishReturns(e, m, w);
    OwnersHaveClaimed(e, m + 1, key, w);
    ExecutionsAreSafe(e, m + 1);
    ReturnedIsCompleted(e.states[m + 1], w, key);
  }

  lemma HeldWhileFailing(s: State, w: WorkerId, key: RecordKey)
    requires WorkersOk(s) && w in s.workers && s.workers[w].Carries(key) && s.workers[w].pc.FailingRun?
    ensures s.workers[w].HeldClaim().Some?
  {
    assert WorkerOk(s, w, s.workers[w]);
  }

  lemma HoldersFailOn(s: State, w: WorkerId, fate: Fate)
    requires Enabled(s, SettleRun(w, fate)) && Equipped(s.workers[w]) && s.workers[w].HeldClaim().Some?
    ensures !Gone(DoSettleRun(s, w, fate), w)
  {
  }

  lemma HoldersDoNotLeave(e: Execution, m: nat, key: RecordKey, w: WorkerId)
    requires e.Valid() && m < |e.actions| && e.actions[m].SettleRun? && e.actions[m].w == w
    requires w in e.states[m].workers && e.states[m].workers[w].Carries(key)
    ensures !Gone(e.states[m + 1], w)
  {
    OneStep(e, m);
    HeldWhileFailing(e.states[m], w, key);
    HoldersFailOn(e.states[m], w, e.actions[m].fate);
  }

  lemma SettledOrLost(s: State, w: WorkerId, fate: Fate, key: RecordKey)
    requires Enabled(s, SettleClaim(w, fate)) && Equipped(s.workers[w]) && s.workers[w].Carries(key)
    requires RecordsOk(s) && OwnedBy(s, key, w) && MadeBy(s, key, LastClaim(s, key))
    ensures Undecided(DoSettleClaim(s, w, fate), key) <==> Undecided(s, key) && fate == Lost
  {
    LastOf(s, key);
    SettleClaimCases(s, w, fate);
  }

  lemma LeftBySettlement(e: Execution, m: nat, key: RecordKey, w: WorkerId)
    requires LeavesAt(e, m, key, w) && e.actions[m].SettleClaim? && e.actions[m].w == w
    requires OwnedBy(e.states[m], key, w) && MadeBy(e.states[m], key, LastClaim(e.states[m], key))
    ensures Undecided(e.states[m + 1], key) <==> Undecided(e.states[m], key) && e.actions[m].fate == Lost
  {
    OneStep(e, m);
    SettledOrLost(e.states[m], w, e.actions[m].fate, key);
  }

  lemma PromptersGoOn(s: State, w: WorkerId)
    requires Enabled(s, Prompt(w)) && Equipped(s.workers[w])
    ensures !Gone(DoPrompt(s, w), w)
  {
  }

  lemma CallersGoOn(s: State, w: WorkerId, response: Result<Response>)
    requires Enabled(s, Answer(w, response))
    ensures !Gone(DoAnswer(s, w, response), w)
  {
  }

  lemma NobodyLeavesMidway(e: Execution, m: nat, w: WorkerId)
    requires e.Valid() && m < |e.actions| && Actor(e.actions[m]) == Some(w)
    requires e.actions[m].Prompt? || e.actions[m].Answer?
    ensures !Gone(e.states[m + 1], w)
  {
    OneStep(e, m);
    if e.actions[m].Prompt? {
      PromptersGoOn(e.states[m], w);
    } else {
      CallersGoOn(e.states[m], w, e.actions[m].response);
    }
  }

  lemma NotClaiming(s: State, a: Action, w: WorkerId)
    requires Enabled(s, a) && Actor(a) == Some(w) && w in s.workers && !s.workers[w].pc.Claiming()
    ensures a.OpenTurn? || a.Prompt? || a.Answer? || a.Finish? || a.SettleRun? || a.SettleClaim? || a.Abort? || a.Crash?
  {
  }

  /** The last step of its maker decides whether the claim stays STARTED. */
  lemma LeftByMaker(e: Execution, m: nat, key: RecordKey, w: WorkerId)
    requires LeavesAt(e, m, key, w)
    ensures Undecided(e.states[m + 1], key) <==> LeavesStarted(e, m, w)
  {
    LeaversAct(e, m, w);
    if e.states[m + 1].ClaimsOf(key) != e.states[m].ClaimsOf(key) {
      ClaimedInLastStep(e, m, key, w);
    } else {
      ClaimedBefore(e, m, key, w);
      NotClaiming(e.states[m], e.actions[m], w);
      match e.actions[m]
      case OpenTurn(_, _, _, _, _) => LeftByStart(e, m, key, w);
      case Prompt(_) => NobodyLeavesMidway(e, m, w);
      case Answer(_, _) => NobodyLeavesMidway(e, m, w);
      case Finish(_, _, _, _) => LeftByFinish(e, m, key, w);
      case SettleRun(_, _) => HoldersDoNotLeave(e, m, key, w);
      case SettleClaim(_, _) => LeftBySettlement(e, m, key, w);
      case Abort(_, _) => LeftByAbort(e, m, key, w);
      case Crash(_) => LeftByDeath(e, m, key, w);
    }
  }

  lemma {:induction false} LeftSometime(e: Execution, n: nat, w: WorkerId) returns (m: nat)
    requires e.Valid() && n < |e.states| && Gone(e.states[n], w)
    ensures m < n && !Gone(e.states[m], w) && Gone(e.states[m + 1], w)
  {
    m := n - 1;
    if Gone(e.states[n - 1], w) {
      m := LeftSometime(e, n - 1, w);
    }
  }

  lemma CausesAreLastSteps(e: Execution, m: nat, w: WorkerId)
    requires e.Valid() && m < |e.actions| && LeavesStarted(e, m, w)
    ensures !Gone(e.states[m], w) && Gone(e.states[m + 1], w)
  {
    if Gone(e.states[m], w) {
      GoneDoNotAct(e, m, w);
    }
    if LostFailure(e, m, w) {
      SettlementLeaves(e, m);
    } else if DiedUnanswered(e, m, w) {
      DeathLeaves(e, m, w);
    }
  }

  lemma DeathLeaves(e: Execution, m: nat, w: WorkerId)
    requires e.Valid() && m < |e.actions| && e.actions[m] == Crash(w)
    ensures Gone(e.states[m + 1], w)
  {
    OneStep(e, m);
  }

  /** Every claim that stands was made by one worker.  While that worker is at work the claim is
      STARTED exactly until the answer is stored.  Once it is gone, however it went, the claim is
      STARTED exactly when its own commit was reported as failed, the start raised, the transaction
      that was to fail it was rolled back, or the worker died or was cancelled unanswered. */
  lemma ClaimsLeftStarted(e: Execution, n: nat, key: RecordKey) returns (w: WorkerId)
    requires e.Valid() && n < |e.states| && key in e.states[n].tables.records
    ensures OwnedBy(e.states[n], key, w) && w in e.states[n].workers && e.states[n].workers[w].Carries(key)
    ensures
      var started := e.states[n].tables.records[key].state.ClaimStarted?;
      if e.states[n].workers[w].pc.Final() then started <==> exists m :: 0 <= m < n && LeavesStarted(e, m, w)
      else started <==> !e.states[n].workers[w].Answered()
  {
    KeysAreRecords(e, n, key);
    w := LastClaim(e.states[n], key).owner;
    OwnersHaveClaimed(e, n, key, w);
    if Gone(e.states[n], w) {
      var m := LeftSometime(e, n, w);
      LeftStarted(e, m, n, key, w);
      forall c | 0 <= c < n && LeavesStarted(e, c, w)
        ensures Undecided(e.states[n], key)
      {
        CausesAreLastSteps(e, c, w);
        LeftStarted(e, c, n, key, w);
      }
    } else {
      StartedUntilAnswered(e, n, key, w);
    }
  }

  lemma LeftStarted(e: Execution, m: nat, n: nat, key: RecordKey, w: WorkerId)
    requires e.Valid() && m < n < |e.states| && OwnedBy(e.states[n], key, w)
    requires !Gone(e.states[m], w) && Gone(e.states[m + 1], w)
    ensures Undecided(e.states[n], key) <==> LeavesStarted(e, m, w)
  {
    LeftAsItWas(e, m + 1, n, key, w);
    LeftByMaker(e, m, key, w);
  }
}
