/** Executions of the protocol from the empty system, and what no further execution undoes. */
module Executions {
  import opened Common
  import opened Conversations
  import opened Tables
  import opened Protocol
  import opened Invariant
  import opened Preservation
  import RunStore

  /** The steps the system can take.  A worker whose next step would not make sense could do
      anything; `ExecutionsAreSafe` shows that there is none. */
  ghost predicate Next(s: State, a: Action, s': State) {
    && Enabled(s, a)
    && (AllEquipped(s) ==> s' == Apply(s, a))
  }

  datatype Execution = Execution(states: seq<State>, actions: seq<Action>)
  {
    ghost predicate Valid() {
      && |states| == |actions| + 1
      && Initial(states[0])
      && forall i :: 0 <= i < |actions| ==> Next(states[i], actions[i], states[i + 1])
    }
  }

  lemma StepIsSafe(s: State, a: Action, s': State)
    requires Inv(s) && Next(s, a, s')
    ensures AllEquipped(s) && s' == Apply(s, a) && Inv(s')
    ensures if Actor(a).Some? then Kept(s, s', a.w) else Ambient(s, s')
  {
    OkMeansEquipped(s);
    if Actor(a).Some? {
      WorkerStepKeeps(s, a);
    } else {
      WorldStepKeeps(s, a);
    }
  }

  // ---- Where rows come from ----

  lemma OpenedStays(s: State, s': State, w: WorkerId, v: WorkerId)
    requires WorkersOk(s) && OriginsOk(s) && Evolves(s, s') && Footprint(s, s', w) && Adds(s, s', w)
    requires v in s'.workers
    ensures OpenedOk(s', v, s'.workers[v])
  {
    if v in s.workers {
      assert OpenedOk(s, v, s.workers[v]) && WorkerOk(s, v, s.workers[v]);
    }
  }

  lemma RowsStay(s: State, s': State, w: WorkerId, id: Id)
    requires OriginsOk(s) && Footprint(s, s', w) && id in s'.tables.runs.rows
    ensures exists v :: OwnsRow(s', v, id)
  {
    if id in s.tables.runs.rows {
      var v :| OwnsRow(s, v, id);
      assert OwnsRow(s', v, id);
    } else {
      assert OwnsRow(s', w, id);
    }
  }

  lemma PostedStays(s: State, s': State, w: WorkerId, m: Message)
    requires MessagesOk(s) && OriginsOk(s) && Evolves(s, s') && Footprint(s, s', w) && Adds(s, s', w)
    requires m in s'.tables.messages
    ensures PostedOk(s', m)
  {
    if m in s.tables.messages {
      assert PostedOk(s, m);
    }
  }

  lemma MadeByStays(s: State, s': State, w: WorkerId, key: RecordKey, i: nat)
    requires OriginsOk(s) && Footprint(s, s', w) && Adds(s, s', w)
    requires key in s'.claims && i < |s'.claims[key]|
    ensures MadeBy(s', key, s'.claims[key][i])
  {
    if key in s.claims && i < |s.claims[key]| && s'.claims[key][i] == s.claims[key][i] {
      assert MadeBy(s, key, s.claims[key][i]);
    }
  }

  lemma OriginsStay(s: State, s': State, w: WorkerId)
    requires WorkersOk(s) && MessagesOk(s) && OriginsOk(s)
    requires Evolves(s, s') && Footprint(s, s', w) && Adds(s, s', w)
    ensures OriginsOk(s')
  {
    forall v | v in s'.workers
      ensures OpenedOk(s', v, s'.workers[v])
    {
      OpenedStays(s, s', w, v);
    }
    forall id | id in s'.tables.runs.rows
      ensures exists v :: OwnsRow(s', v, id)
    {
      RowsStay(s, s', w, id);
    }
    forall m | m in s'.tables.messages
      ensures PostedOk(s', m)
    {
      PostedStays(s, s', w, m);
    }
    forall key, i | key in s'.claims && 0 <= i < |s'.claims[key]|
      ensures MadeBy(s', key, s'.claims[key][i])
    {
      MadeByStays(s, s', w, key, i);
    }
  }

  lemma AmbientOrigins(s: State, s': State)
    requires OriginsOk(s) && Ambient(s, s')
    ensures OriginsOk(s')
  {
    forall id | id in s'.tables.runs.rows
      ensures exists v :: OwnsRow(s', v, id)
    {
      var v :| OwnsRow(s, v, id);
      assert OwnsRow(s', v, id);
    }
    assert forall m :: m in s.tables.messages ==> PostedOk(s, m);
    assert forall key, i :: key in s.claims && 0 <= i < |s.claims[key]| ==> MadeBy(s, key, s.claims[key][i]);
  }

  lemma StepKeepsOrigins(s: State, a: Action, s': State)
    requires Inv(s) && OriginsOk(s) && Next(s, a, s')
    ensures OriginsOk(s')
  {
    StepIsSafe(s, a, s');
    if Actor(a).Some? {
      OriginsStay(s, s', a.w);
    } else {
      AmbientOrigins(s, s');
    }
  }

  lemma {:induction false} ExecutionsKeepBoth(e: Execution, i: nat)
    requires e.Valid() && i < |e.states|
    ensures Inv(e.states[i]) && OriginsOk(e.states[i])
    decreases i
  {
    if i == 0 {
      InitiallyOk(e.states[0]);
    } else {
      ExecutionsKeepBoth(e, i - 1);
      StepIsSafe(e.states[i - 1], e.actions[i - 1], e.states[i]);
      StepKeepsOrigins(e.states[i - 1], e.actions[i - 1], e.states[i]);
    }
  }

  /** Every state of every execution satisfies the invariant. */
  lemma ExecutionsAreSafe(e: Execution, i: nat)
    requires e.Valid() && i < |e.states|
    ensures Inv(e.states[i])
  {
    ExecutionsKeepBoth(e, i);
  }

  /** In every state of every execution each run, message and claim has the worker that made it. */
  lemma OriginsAreKnown(e: Execution, i: nat)
    requires e.Valid() && i < |e.states|
    ensures OriginsOk(e.states[i])
  {
    ExecutionsKeepBoth(e, i);
  }

  lemma OneStep(e: Execution, n: nat)
    requires e.Valid() && n < |e.actions|
    ensures Inv(e.states[n]) && AllEquipped(e.states[n])
    ensures Enabled(e.states[n], e.actions[n]) && e.states[n + 1] == Apply(e.states[n], e.actions[n])
    ensures Inv(e.states[n + 1])
    ensures if Actor(e.actions[n]).Some? then Kept(e.states[n], e.states[n + 1], e.actions[n].w)
            else Ambient(e.states[n], e.states[n + 1])
  {
    assert Next(e.states[n], e.actions[n], e.states[n + 1]);
    ExecutionsAreSafe(e, n);
    StepIsSafe(e.states[n], e.actions[n], e.states[n + 1]);
  }

  // ---- What stays ----

  predicate Onward(k: Worker, k': Worker) {
    k' == k || Forward(k, k')
  }

  predicate RunKept(before: RunTables, after: RunTables, id: Id) {
    RunStore.GetRun(after, id) == RunStore.GetRun(before, id)
  }

  ghost predicate RecordsLater(s: State, s': State) {
    && (forall key :: key in s.tables.records ==>
          key in s'.tables.records
          && (!s.tables.records[key].state.ClaimStarted? ==> s'.tables.records[key] == s.tables.records[key]))
    && (forall key :: key in s.claims ==> key in s'.claims && s.claims[key] <= s'.claims[key])
  }

  ghost predicate RunsLater(s: State, s': State) {
    forall id :: id in s.tables.runs.rows ==>
      id in s'.tables.runs.rows
      && (s.tables.runs.rows[id].status.Terminal() ==> RunKept(s.tables.runs, s'.tables.runs, id))
  }

  ghost predicate WorkersLater(s: State, s': State) {
    forall w :: w in s.workers ==> w in s'.workers && Onward(s.workers[w], s'.workers[w])
  }

  /** Settled records, terminal runs, messages, claims, model calls and what workers hold. */
  ghost predicate Later(s: State, s': State) {
    && s.prompt == s'.prompt && s.now <= s'.now
    && RecordsLater(s, s') && RunsLater(s, s') && WorkersLater(s, s')
    && s.tables.messages <= s'.tables.messages && s.calls <= s'.calls
  }

  lemma RunsStepLater(s: State, s': State, w: WorkerId)
    requires Footprint(s, s', w)
    ensures RunsLater(s, s')
  {
    if s'.tables.runs != s.tables.runs {
      var own := s'.workers[w].stored.value.id;
      forall id | id in s.tables.runs.rows && s.tables.runs.rows[id].status.Terminal()
        ensures RunKept(s.tables.runs, s'.tables.runs, id)
      {
        RunStore.ReadElsewhere(s.tables.runs, s'.tables.runs, own, id);
      }
    }
  }

  lemma WorkerStepIsLater(s: State, s': State, w: WorkerId)
    requires Evolves(s, s') && Footprint(s, s', w)
    ensures Later(s, s')
  {
    RunsStepLater(s, s', w);
    assert forall key :: key in s.tables.records ==> RecordEvolves(s, s', key);
  }

  lemma AmbientStepIsLater(s: State, s': State)
    requires Ambient(s, s')
    ensures Later(s, s')
  {
  }

  lemma StepIsLater(s: State, a: Action, s': State)
    requires Inv(s) && Next(s, a, s')
    ensures Later(s, s')
  {
    StepIsSafe(s, a, s');
    if Actor(a).Some? {
      WorkerStepIsLater(s, s', a.w);
    } else {
      AmbientStepIsLater(s, s');
    }
  }

  lemma LaterIsTransitive(a: State, b: State, c: State)
    requires Later(a, b) && Later(b, c)
    ensures Later(a, c)
  {
    forall id | id in a.tables.runs.rows && a.tables.runs.rows[id].status.Terminal()
      ensures RunKept(a.tables.runs, c.tables.runs, id)
    {
      assert RunKept(a.tables.runs, b.tables.runs, id);
      assert RunKept(b.tables.runs, c.tables.runs, id);
    }
  }

  /** Nothing that was settled is ever taken back. */
  lemma {:induction false} TimeOnlyAdds(e: Execution, i: nat, j: nat)
    requires e.Valid() && i <= j < |e.states|
    ensures Inv(e.states[i]) && Inv(e.states[j]) && Later(e.states[i], e.states[j])
    decreases j
  {
    ExecutionsAreSafe(e, i);
    if i < j {
      TimeOnlyAdds(e, i, j - 1);
      StepIsSafe(e.states[j - 1], e.actions[j - 1], e.states[j]);
      StepIsLater(e.states[j - 1], e.actions[j - 1], e.states[j]);
      LaterIsTransitive(e.states[i], e.states[j - 1], e.states[j]);
    }
  }

  lemma RecordsStay(e: Execution, i: nat, j: nat)
    requires e.Valid() && i <= j < |e.states|
    ensures RecordsLater(e.states[i], e.states[j])
  {
    TimeOnlyAdds(e, i, j);
  }
}
