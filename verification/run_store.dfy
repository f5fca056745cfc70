/** src/nexabot/infrastructure/database/repositories/agent.py: runs and their steps, appended
    by index. */
module RunStore {
  import opened Common
  import opened Runs
  import opened Tables

  const RUN_NOT_FOUND := Error("agent_run_not_found", "Agent run not found.")

  function RowOf(run: Run): RunRow {
    RunRow(run.user, run.conversation, run.provider, run.model, run.limits, run.status,
           run.startedAt, run.finishedAt, run.failureReason, run.finalResponse, run.usage)
  }

  function StepRowOf(step: Step): StepRow {
    StepRow(step.kind, step.metadata, step.createdAt)
  }

  function StepOf(run: Id, index: int, row: StepRow): Step {
    Step(run, index, row.kind, row.metadata, row.createdAt)
  }

  function RunOf(id: Id, row: RunRow, steps: seq<Step>): Run {
    Run(id, row.user, row.conversation, row.provider, row.model, row.limits, row.status, steps,
        row.startedAt, row.finishedAt, row.failureReason, row.finalResponse, row.usage)
  }

  function Indexes(t: RunTables, id: Id): set<int> {
    set k | k in t.steps && k.run == id :: k.index
  }

  /** Inserting a step fails on a duplicate `(run_id, index)` or an index below 1. */
  function InsertStep(t: RunTables, step: Step): Result<RunTables> {
    var key := StepKey(step.run, step.index);
    if key in t.steps || step.index < 1 then Err(DATABASE_CONFLICT)
    else Ok(t.(steps := t.steps[key := StepRowOf(step)]))
  }

  /** The loop of `save`: insert, in order, the steps whose index exceeds `highest`. */
  function InsertAbove(t: RunTables, steps: seq<Step>, highest: int): Result<RunTables>
    decreases |steps|
  {
    if steps == [] then Ok(t)
    else if steps[0].index <= highest then InsertAbove(t, steps[1..], highest)
    else match InsertStep(t, steps[0])
         case Err(e) => Err(e)
         case Ok(next) => InsertAbove(next, steps[1..], highest)
  }

  lemma {:induction false} MaximumExists(s: set<int>)
    requires s != {}
    ensures exists h :: h in s && forall i :: i in s ==> i <= h
  {
    var x := Pick(s);
    var rest := s - {x};
    assert forall i :: i in s ==> i in rest || i == x;
    if rest != {} {
      MaximumExists(rest);
      var h :| h in rest && forall i :: i in rest ==> i <= h;
      assert h in s;
      assert x in s;
    } else {
      assert x in s && forall i :: i in s ==> i <= x;
    }
  }

  /** `coalesce(max(index), 0)`. */
  function Highest(indexes: set<int>): (h: int)
    ensures indexes == {} ==> h == 0
    ensures indexes != {} ==> h in indexes && forall i :: i in indexes ==> i <= h
  {
    if indexes == {} then 0
    else
      MaximumExists(indexes);
      var h :| h in indexes && forall i :: i in indexes ==> i <= h; h
  }

  function AddRun(t: RunTables, run: Run): Result<RunTables> {
    if run.id in t.rows then Err(DATABASE_CONFLICT)
    else InsertAbove(t.(rows := t.rows[run.id := RowOf(run)]), run.steps, 0)
  }

  /** `save` assigns the mutable columns only. */
  function Updated(row: RunRow, run: Run): RunRow {
    row.(status := run.status, startedAt := run.startedAt, finishedAt := run.finishedAt,
         failureReason := run.failureReason, finalResponse := run.finalResponse, usage := run.usage)
  }

  function SaveRun(t: RunTables, run: Run): Result<RunTables> {
    if run.id !in t.rows then Err(RUN_NOT_FOUND)
    else InsertAbove(t.(rows := t.rows[run.id := Updated(t.rows[run.id], run)]), run.steps, Highest(Indexes(t, run.id)))
  }

  /** `ORDER BY index ASC`. */
  function Ascending(indexes: set<int>): seq<int> {
    if indexes == {} then []
    else
      var h := Highest(indexes);
      Ascending(indexes - {h}) + [h]
  }

  function StepsAt(t: RunTables, id: Id, indexes: seq<int>): seq<Step>
    requires forall i :: i in indexes ==> StepKey(id, i) in t.steps
  {
    if indexes == [] then [] else
    var i := indexes[|indexes| - 1];
    StepsAt(t, id, indexes[..|indexes| - 1]) + [StepOf(id, i, t.steps[StepKey(id, i)])]
  }

  lemma {:induction false} AscendingElements(indexes: set<int>)
    ensures forall i :: i in Ascending(indexes) <==> i in indexes
    ensures forall i, j :: 0 <= i < j < |Ascending(indexes)| ==> Ascending(indexes)[i] < Ascending(indexes)[j]
  {
    if indexes != {} {
      var h := Highest(indexes);
      var rest := Ascending(indexes - {h});
      AscendingElements(indexes - {h});
      forall i | 0 <= i < |rest|
        ensures rest[i] < h
      {
        assert rest[i] in indexes - {h};
      }
    }
  }

  function GetRun(t: RunTables, id: Id): Option<Run> {
    if id !in t.rows then None
    else
      AscendingElements(Indexes(t, id));
      Some(RunOf(id, t.rows[id], StepsAt(t, id, Ascending(Indexes(t, id)))))
  }

  /** The rows hold exactly this run: its columns, and its steps at indexes 1..n. */
  ghost predicate Stores(t: RunTables, run: Run) {
    && run.id in t.rows && t.rows[run.id] == RowOf(run)
    && StoresSteps(t, run.id, run.steps)
  }

  ghost predicate StoresSteps(t: RunTables, id: Id, steps: seq<Step>) {
    && (forall i {:trigger StepKey(id, i)} :: StepKey(id, i) in t.steps <==> 1 <= i <= |steps|)
    && (forall i :: 1 <= i <= |steps| ==>
          t.steps[StepKey(id, i)] == StepRowOf(steps[i - 1]) && steps[i - 1].index == i && steps[i - 1].run == id)
  }

  function UpTo(n: nat): (r: seq<int>)
    ensures |r| == n && forall i :: 0 <= i < n ==> r[i] == i + 1
  {
    seq(n, i => i + 1)
  }

  function Range(n: nat): (r: set<int>)
    ensures forall i :: i in r <==> 1 <= i <= n
  {
    if n == 0 then {} else Range(n - 1) + {n}
  }

  lemma {:induction false} AscendingUpTo(n: nat)
    ensures Ascending(Range(n)) == UpTo(n)
  {
    if n > 0 {
      assert n in Range(n);
      assert Highest(Range(n)) == n;
      assert Range(n) - {n} == Range(n - 1);
      AscendingUpTo(n - 1);
      assert UpTo(n) == UpTo(n - 1) + [n];
    }
  }

  lemma StoredIndexes(t: RunTables, id: Id, steps: seq<Step>)
    requires StoresSteps(t, id, steps)
    ensures Indexes(t, id) == Range(|steps|)
    ensures Highest(Indexes(t, id)) == |steps|
  {
    var s := Range(|steps|);
    forall i | i in s
      ensures i in Indexes(t, id)
    {
      assert StepKey(id, i) in t.steps;
    }
    forall i | i in Indexes(t, id)
      ensures i in s
    {
      assert StepKey(id, i) in t.steps;
    }
    if steps != [] {
      assert |steps| in s;
    }
  }

  lemma {:induction false} StepsAtStored(t: RunTables, id: Id, steps: seq<Step>, n: nat)
    requires StoresSteps(t, id, steps) && n <= |steps|
    ensures StepsAt(t, id, UpTo(n)) == steps[..n]
  {
    if n > 0 {
      StepsAtStored(t, id, steps, n - 1);
      assert UpTo(n)[..n - 1] == UpTo(n - 1);
      assert steps[..n] == steps[..n - 1] + [steps[n - 1]];
    }
  }

  /** Reading back what is stored. */
  lemma StoredIsRead(t: RunTables, run: Run)
    requires Stores(t, run)
    ensures GetRun(t, run.id) == Some(run)
  {
    StoredIndexes(t, run.id, run.steps);
    AscendingUpTo(|run.steps|);
    StepsAtStored(t, run.id, run.steps, |run.steps|);
    assert run.steps[..|run.steps|] == run.steps;
  }

  /** Everything outside run `id` is the same in both tables. */
  ghost predicate SameElsewhere(before: RunTables, after: RunTables, id: Id) {
    && after.rows.Keys == before.rows.Keys + {id}
    && (forall other :: other in before.rows && other != id ==> after.rows[other] == before.rows[other])
    && (forall k: StepKey :: k.run != id ==> (k in after.steps <==> k in before.steps))
    && (forall k: StepKey :: k.run != id && k in before.steps ==> after.steps[k] == before.steps[k])
  }

  lemma InsertNext(t: RunTables, run: Run, n: nat)
    requires run.Numbered() && n < |run.steps|
    requires StoresSteps(t, run.id, run.steps[..n])
    ensures InsertStep(t, run.steps[n]).Ok?
    ensures StoresSteps(InsertStep(t, run.steps[n]).value, run.id, run.steps[..n + 1])
  {
    assert StepKey(run.id, n + 1) !in t.steps;
  }

  /** The loop of `save` from step `next` on, when the first `highest` steps are stored. */
  lemma {:induction false} InsertRest(t: RunTables, run: Run, highest: nat, next: nat)
    requires run.Numbered() && highest <= |run.steps| && next <= |run.steps|
    requires run.id in t.rows
    requires StoresSteps(t, run.id, run.steps[..if next < highest then highest else next])
    ensures InsertAbove(t, run.steps[next..], highest).Ok?
    ensures StoresSteps(InsertAbove(t, run.steps[next..], highest).value, run.id, run.steps)
    ensures InsertAbove(t, run.steps[next..], highest).value.rows == t.rows
    ensures SameElsewhere(t, InsertAbove(t, run.steps[next..], highest).value, run.id)
    decreases |run.steps| - next
  {
    var rest := run.steps[next..];
    if rest == [] {
      assert run.steps[..if next < highest then highest else next] == run.steps;
      assert t.rows.Keys + {run.id} == t.rows.Keys;
    } else {
      assert rest[1..] == run.steps[next + 1..];
      if next < highest {
        InsertRest(t, run, highest, next + 1);
      } else {
        InsertNext(t, run, next);
        InsertRest(InsertStep(t, rest[0]).value, run, highest, next + 1);
      }
    }
  }

  /** Adding a new run stores it and disturbs no other run. */
  lemma AddStores(t: RunTables, run: Run)
    requires run.Numbered()
    requires run.id !in t.rows && forall i {:trigger StepKey(run.id, i)} :: StepKey(run.id, i) !in t.steps
    ensures AddRun(t, run).Ok?
    ensures Stores(AddRun(t, run).value, run)
    ensures SameElsewhere(t, AddRun(t, run).value, run.id)
  {
    var inserted := t.(rows := t.rows[run.id := RowOf(run)]);
    assert run.steps[0..] == run.steps;
    assert run.steps[..0] == [];
    InsertRest(inserted, run, 0, 0);
  }

  /** The columns `save` does not write. */
  predicate SameIdentity(a: Run, b: Run) {
    && a.id == b.id && a.user == b.user && a.conversation == b.conversation
    && a.provider == b.provider && a.model == b.model && a.limits == b.limits
  }

  /** What a run keeps from its start on. */
  predicate SameOrigin(a: Run, b: Run) {
    SameIdentity(a, b) && a.startedAt == b.startedAt
  }

  /** When the stored steps are a prefix of the run's steps, `save` succeeds, stores exactly the
      run, and disturbs no other run. */
  lemma SaveStores(t: RunTables, stored: Run, run: Run)
    requires Stores(t, stored) && SameIdentity(stored, run)
    requires run.Numbered() && stored.steps <= run.steps
    ensures SaveRun(t, run).Ok?
    ensures Stores(SaveRun(t, run).value, run)
    ensures SameElsewhere(t, SaveRun(t, run).value, run.id)
  {
    StoredIndexes(t, run.id, stored.steps);
    var updated := t.(rows := t.rows[run.id := Updated(t.rows[run.id], run)]);
    assert run.steps[0..] == run.steps;
    assert run.steps[..|stored.steps|] == stored.steps;
    InsertRest(updated, run, |stored.steps|, 0);
  }

  /** The round trip: save, then get, is the run, with all of its steps in order. */
  lemma SaveThenGet(t: RunTables, stored: Run, run: Run)
    requires Stores(t, stored) && SameIdentity(stored, run)
    requires run.Numbered() && stored.steps <= run.steps
    ensures SaveRun(t, run).Ok? && GetRun(SaveRun(t, run).value, run.id) == Some(run)
  {
    SaveStores(t, stored, run);
    StoredIsRead(SaveRun(t, run).value, run);
  }

  /** A run stored elsewhere stays stored. */
  lemma StoredElsewhere(before: RunTables, after: RunTables, id: Id, other: Run)
    requires SameElsewhere(before, after, id) && Stores(before, other) && other.id != id
    ensures Stores(after, other)
  {
    forall i | 1 <= i <= |other.steps|
      ensures StepKey(other.id, i) in after.steps
      ensures after.steps[StepKey(other.id, i)] == before.steps[StepKey(other.id, i)]
    {
      assert StepKey(other.id, i) in before.steps;
    }
  }

  lemma {:induction false} StepsAtElsewhere(before: RunTables, after: RunTables, id: Id, other: Id, indexes: seq<int>)
    requires SameElsewhere(before, after, id) && other != id
    requires forall i :: i in indexes ==> StepKey(other, i) in before.steps && StepKey(other, i) in after.steps
    ensures StepsAt(before, other, indexes) == StepsAt(after, other, indexes)
  {
    if indexes != [] {
      var front, i := indexes[..|indexes| - 1], indexes[|indexes| - 1];
      assert forall j :: j in front ==> j in indexes;
      assert StepKey(other, i) in before.steps && StepKey(other, i).run != id;
      StepsAtElsewhere(before, after, id, other, front);
    }
  }

  lemma IndexesElsewhere(before: RunTables, after: RunTables, id: Id, other: Id)
    requires SameElsewhere(before, after, id) && other != id
    ensures Indexes(before, other) == Indexes(after, other)
  {
  }

  /** Writing one run changes what is read of no other. */
  lemma ReadElsewhere(before: RunTables, after: RunTables, id: Id, other: Id)
    requires SameElsewhere(before, after, id) && other != id
    ensures GetRun(before, other) == GetRun(after, other)
  {
    if other in before.rows {
      IndexesElsewhere(before, after, id, other);
      AscendingElements(Indexes(before, other));
      StepsAtElsewhere(before, after, id, other, Ascending(Indexes(before, other)));
    }
  }

  /** The repository, bound to one session.  When an operation is refused, the session is left
      to be rolled back. */
  class AgentRunRepository {
    const session: Session

    constructor (session: Session)
      ensures this.session == session
    {
      this.session := session;
    }

    method Get(id: Id) returns (r: AgentRun?)
      ensures r == null <==> GetRun(session.tables.runs, id).None?
      ensures r != null ==> fresh(r) && GetRun(session.tables.runs, id) == Some(r.Value())
    {
      var t := session.tables.runs;
      if id !in t.rows {
        return null;
      }
      AscendingElements(Indexes(t, id));
      var order := Ascending(Indexes(t, id));
      var steps: seq<Step> := [];
      assert forall i :: i in order ==> StepKey(id, i) in t.steps;
      for n := 0 to |order|
        invariant forall i :: i in order[..n] ==> i in order
        invariant steps == StepsAt(t, id, order[..n])
      {
        assert order[n] in order && order[..n + 1][..n] == order[..n];
        steps := steps + [StepOf(id, order[n], t.steps[StepKey(id, order[n])])];
      }
      assert order[..|order|] == order;
      r := new AgentRun(RunOf(id, t.rows[id], steps));
    }

    method AppendStep(step: Step) returns (r: Result<()>)
      modifies session
      ensures r.Ok? <==> InsertStep(old(session.tables).runs, step).Ok?
      ensures r.Ok? ==> session.tables == old(session.tables).(runs := InsertStep(old(session.tables).runs, step).value)
      ensures r.Err? ==> session.tables == old(session.tables) && r.error == DATABASE_CONFLICT
    {
      var t := session.tables.runs;
      var key := StepKey(step.run, step.index);
      if key in t.steps || step.index < 1 {
        return Err(DATABASE_CONFLICT);
      }
      session.tables := session.tables.(runs := t.(steps := t.steps[key := StepRowOf(step)]));
      return Ok(());
    }

    method AppendAbove(steps: seq<Step>, highest: int) returns (r: Result<()>)
      modifies session
      ensures r.Ok? <==> InsertAbove(old(session.tables).runs, steps, highest).Ok?
      ensures r.Ok? ==> session.tables ==
                        old(session.tables).(runs := InsertAbove(old(session.tables).runs, steps, highest).value)
      ensures r.Err? ==> r.error == InsertAbove(old(session.tables).runs, steps, highest).error
    {
      r := Ok(());
      var n := 0;
      while n < |steps|
        invariant 0 <= n <= |steps| && r.Ok?
        invariant session.tables == old(session.tables).(runs := session.tables.runs)
        invariant InsertAbove(old(session.tables).runs, steps, highest)
                  == InsertAbove(session.tables.runs, steps[n..], highest)
      {
        assert steps[n..][1..] == steps[n + 1..];
        if steps[n].index > highest {
          r := AppendStep(steps[n]);
          if r.Err? {
            return;
          }
        }
        n := n + 1;
      }
    }

    method Add(run: AgentRun) returns (r: Result<()>)
      modifies session
      ensures r.Ok? <==> AddRun(old(session.tables).runs, run.Value()).Ok?
      ensures r.Ok? ==> session.tables ==
                        old(session.tables).(runs := AddRun(old(session.tables).runs, run.Value()).value)
      ensures r.Err? ==> r.error == AddRun(old(session.tables).runs, run.Value()).error
    {
      var t := session.tables.runs;
      if run.id in t.rows {
        return Err(DATABASE_CONFLICT);
      }
      session.tables := session.tables.(runs := t.(rows := t.rows[run.id := RowOf(run.Value())]));
      r := AppendAbove(run.steps, 0);
    }

    method Save(run: AgentRun) returns (r: Result<()>)
      modifies session
      ensures r.Ok? <==> SaveRun(old(session.tables).runs, run.Value()).Ok?
      ensures r.Ok? ==> session.tables ==
                        old(session.tables).(runs := SaveRun(old(session.tables).runs, run.Value()).value)
      ensures r.Err? ==> r.error == SaveRun(old(session.tables).runs, run.Value()).error
    {
      var t := session.tables.runs;
      if run.id !in t.rows {
        return Err(RUN_NOT_FOUND);
      }
      var row := t.rows[run.id];
      row := row.(status := run.status, startedAt := run.startedAt, finishedAt := run.finishedAt);
      row := row.(failureReason := run.failureReason, finalResponse := run.finalResponse, usage := run.usageMetadata);
      session.tables := session.tables.(runs := t.(rows := t.rows[run.id := row]));
      r := AppendAbove(run.steps, Highest(Indexes(session.tables.runs, run.id)));
    }
  }
}
