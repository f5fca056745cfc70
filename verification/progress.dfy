/** Executions of a turn are bounded, and no key stays claimed for ever. */
module Progress {
  import opened Common
  import opened Tables
  import opened Turn
  import opened Protocol
  import opened Invariant
  import opened Preservation
  import opened Executions
  import opened Register
  import opened Claims
  import Idempotency

  // ---- Bounded executions ----

  function StepsBy(actions: seq<Action>, w: WorkerId): nat {
    if actions == [] then 0
    else StepsBy(actions[..|actions| - 1], w) + (if Actor(actions[|actions| - 1]) == Some(w) then 1 else 0)
  }

  lemma StepsByAppend(actions: seq<Action>, a: Action, w: WorkerId)
    ensures StepsBy(actions + [a], w) == StepsBy(actions, w) + (if Actor(a) == Some(w) then 1 else 0)
  {
    assert (actions + [a])[..|actions|] == actions;
  }

  /** Steps that worker `w` may still take. */
  function StepsLeft(s: State, w: WorkerId): nat {
    if w in s.workers then Rank(s.workers[w].pc) else Rank(Reading) + 1
  }

  lemma StepUsesOne(s: State, a: Action, s': State, w: WorkerId)
    requires Enabled(s, a) && AllEquipped(s) && s' == Apply(s, a)
    requires if Actor(a).Some? then Footprint(s, s', a.w) else s'.workers == s.workers
    ensures StepsLeft(s', w) + (if Actor(a) == Some(w) then 1 else 0) <= StepsLeft(s, w)
  {
  }

  lemma EachStepUsesOne(e: Execution, n: nat, w: WorkerId)
    requires e.Valid() && n < |e.actions|
    ensures StepsLeft(e.states[n + 1], w) + (if Actor(e.actions[n]) == Some(w) then 1 else 0)
         <= StepsLeft(e.states[n], w)
  {
    OneStep(e, n);
    StepUsesOne(e.states[n], e.actions[n], e.states[n + 1], w);
  }

  /** In any execution a worker takes at most twelve steps, opens at most five transactions and
      calls the model at most once. */
  lemma WorkIsBounded(e: Execution, n: nat, w: WorkerId)
    requires e.Valid() && n < |e.states|
    ensures StepsBy(e.actions[..n], w) <= 12
    ensures w in e.states[n].workers ==> e.states[n].workers[w].transactions <= 5
    ensures forall i, j :: 0 <= i < j < |e.states[n].calls| ==> !(e.states[n].calls[i] == w == e.states[n].calls[j])
  {
    ExecutionsAreSafe(e, n);
    StepsAreBounded(e, n, w);
    if w in e.states[n].workers {
      TransactionsAreBounded(e.states[n], w);
    }
  }

  lemma {:induction false} StepsAreBounded(e: Execution, n: nat, w: WorkerId)
    requires e.Valid() && n < |e.states|
    ensures StepsBy(e.actions[..n], w) + StepsLeft(e.states[n], w) <= 12
  {
    if n == 0 {
      assert e.actions[..n] == [];
    } else {
      StepsAreBounded(e, n - 1, w);
      EachStepUsesOne(e, n - 1, w);
      assert e.actions[..n] == e.actions[..n - 1] + [e.actions[n - 1]];
      StepsByAppend(e.actions[..n - 1], e.actions[n - 1], w);
    }
  }

  lemma TransactionsAreBounded(s: State, w: WorkerId)
    requires WorkersOk(s) && w in s.workers
    ensures s.workers[w].transactions <= 5
  {
    assert WorkerOk(s, w, s.workers[w]);
  }

  /** Losing the insert race finds the winner's row, if the second read sees what was committed, so
      the refusal for a contended key is then never reached. */
  lemma LosersFindTheWinner(e: Execution, n: nat, w: WorkerId)
    requires e.Valid() && n < |e.states| && w in e.states[n].workers && e.states[n].workers[w].pc.Rereading?
    ensures e.states[n].workers[w].command.key.Some?
    ensures e.states[n].workers[w].Key() in e.states[n].tables.records
  {
    ExecutionsAreSafe(e, n);
    RereadOwn(e.states[n], w);
  }

  // ---- No key is poisoned ----

  /** Consecutive steps of the protocol. */
  ghost predicate Path(states: seq<State>, actions: seq<Action>) {
    && |states| == |actions| + 1
    && forall i :: 0 <= i < |actions| ==> Next(states[i], actions[i], states[i + 1])
  }

  /** A valid command that carries a key. */
  predicate Keyed(command: Command) {
    command.key.Some? && ValidateInput(command).Ok?
  }

  function KeyOf(command: Command): RecordKey
    requires Keyed(command)
  {
    RecordKeyOf(command.key.value)
  }

  /** After `elapsed`, a new worker `w` begins and reads its key, and nobody else moves. */
  function Arrived(s: State, w: WorkerId, command: Command, elapsed: nat): State
    requires Keyed(command)
  {
    DoRead(Ticked(s, elapsed).With(w, Began(command)), w)
  }

  lemma ArrivalIsAPath(s: State, w: WorkerId, command: Command, elapsed: nat)
    requires Keyed(command) && w !in s.workers
    ensures Path([s, Ticked(s, elapsed), Ticked(s, elapsed).With(w, Began(command)), Arrived(s, w, command, elapsed)],
                 [Tick(elapsed), Begin(w, command), Read(w)])
  {
  }

  lemma ReadAfterBegin(s: State, w: WorkerId, k: Worker)
    requires k.command.key.Some?
    ensures
      var s' := DoRead(s.With(w, k), w);
      && s' == s.With(w, s'.workers[w])
      && s'.workers[w].command == k.command && s'.workers[w].text == k.text
      && s'.workers[w].pc == (if k.Key() in s.tables.records then Observed(s.tables.records[k.Key()])
                              else Inserting(s.now))
  {
    var k' := DoRead(s.With(w, k), w).workers[w];
    assert s.workers[w := k][w := k'] == s.workers[w := k'];
  }

  lemma ArrivalReads(s: State, w: WorkerId, command: Command, elapsed: nat)
    requires Keyed(command) && w !in s.workers
    ensures
      var s' := Arrived(s, w, command, elapsed);
      && s' == Ticked(s, elapsed).With(w, s'.workers[w])
      && s'.workers[w].command == command && s'.workers[w].text == ValidateInput(command).value
      && s'.workers[w].pc == (if KeyOf(command) in s.tables.records then Observed(s.tables.records[KeyOf(command)])
                              else Inserting(s.now + elapsed))
  {
    ReadAfterBegin(Ticked(s, elapsed), w, Began(command));
  }

  lemma ExtendPath(states: seq<State>, actions: seq<Action>, a: Action, s': State)
    requires Path(states, actions) && Next(states[|actions|], a, s')
    ensures Path(states + [s'], actions + [a])
  {
  }

  /** An uncontended attempt at a key that is STARTED, up to the judgement of what it read. */
  lemma AttemptJudges(s: State, w: WorkerId, command: Command, elapsed: nat)
    returns (states: seq<State>, actions: seq<Action>)
    requires Keyed(command) && w !in s.workers
    requires KeyOf(command) in s.tables.records && s.tables.records[KeyOf(command)].state.ClaimStarted?
    ensures |actions| == 4 && Path(states, actions) && states[0] == s
    ensures
      var s' := states[4];
      var row := s.tables.records[KeyOf(command)];
      && w in s'.workers && s' == Ticked(s, elapsed).With(w, s'.workers[w])
      && s'.workers[w].command == command && s'.workers[w].text == ValidateInput(command).value
      && s'.workers[w].token.None?
      && s'.workers[w].pc == (if s.now + elapsed - row.claimedAt >= CLAIM_TTL then Swapping(row, s.now + elapsed)
                              else Raised(IN_PROGRESS))
  {
    var begun := Ticked(s, elapsed).With(w, Began(command));
    var read := Arrived(s, w, command, elapsed);
    var judged := DoJudge(read, w);
    ArrivalIsAPath(s, w, command, elapsed);
    ArrivalReads(s, w, command, elapsed);
    ExtendPath([s, Ticked(s, elapsed), begun, read], [Tick(elapsed), Begin(w, command), Read(w)], Judge(w), judged);
    states := [s, Ticked(s, elapsed), begun, read] + [judged];
    actions := [Tick(elapsed), Begin(w, command), Read(w)] + [Judge(w)];
  }

  /** Worker `w` has just made the key's last claim, and is about to start its turn. */
  predicate JustClaimed(s: State, w: WorkerId, command: Command, token: Id)
    requires Keyed(command)
  {
    && w in s.workers && s.workers[w].pc.Starting? && s.workers[w].token == Some(token)
    && s.workers[w].command == command && s.workers[w].text == ValidateInput(command).value
    && s.Since(w) == s.now && OwnsClaim(s, w) && s.tables.records[KeyOf(command)].claimedAt == s.now
  }

  /** One claim was added, and nothing else but worker `w` has changed. */
  predicate AddsOneClaim(s: State, s': State, w: WorkerId, command: Command, token: Id)
    requires Keyed(command)
  {
    && s'.tables == s.tables.(records := s'.tables.records)
    && w in s'.workers && s'.workers == s.workers[w := s'.workers[w]]
    && s'.claims == s.claims[KeyOf(command) := s.ClaimsOf(KeyOf(command)) + [IssuedClaim(s'.now, token, w)]]
  }

  lemma SwapTakesOver(s: State, w: WorkerId, command: Command, token: Id)
    requires Keyed(command) && w in s.workers && s.workers[w].pc.Swapping?
    requires s.workers[w].command == command && s.workers[w].text == ValidateInput(command).value
    requires Idempotency.Unchanged(s.tables.records, KeyOf(command), s.workers[w].pc.row)
    ensures
      var s' := DoSwap(s, w, token, s.now, Applied);
      && JustClaimed(s', w, command, token) && AddsOneClaim(s, s', w, command, token)
      && s'.now == s.now && s'.issued == s.issued + {token}
  {
  }

  /** The attempt obtains the claim, with a fresh token, exactly when the claim it found is a TTL
      old; otherwise it is refused and changes nothing. */
  lemma AttemptAtStarted(s: State, w: WorkerId, command: Command, elapsed: nat, token: Id)
    returns (states: seq<State>, actions: seq<Action>)
    requires Keyed(command) && w !in s.workers && Fresh(s, token)
    requires KeyOf(command) in s.tables.records && s.tables.records[KeyOf(command)].state.ClaimStarted?
    ensures Path(states, actions) && states[0] == s
    ensures
      var s' := states[|actions|];
      && w in s'.workers && s'.workers[w].command == command
      && s'.now == s.now + elapsed && s'.issued <= s.issued + {token}
      && if s.now + elapsed - s.tables.records[KeyOf(command)].claimedAt >= CLAIM_TTL then
           JustClaimed(s', w, command, token) && AddsOneClaim(s, s', w, command, token)
         else
           s'.workers[w].pc == Raised(IN_PROGRESS) && s'.workers[w].token.None? && s'.tables == s.tables
  {
    states, actions := AttemptJudges(s, w, command, elapsed);
    var judged := states[4];
    if judged.workers[w].pc.Swapping? {
      var taken := DoSwap(judged, w, token, judged.now, Applied);
      SwapTakesOver(judged, w, command, token);
      SwapIsAStep(judged, w, token);
      ExtendPath(states, actions, Swap(w, token, judged.now, Applied), taken);
      states, actions := states + [taken], actions + [Swap(w, token, judged.now, Applied)];
    }
  }

  lemma SwapIsAStep(s: State, w: WorkerId, token: Id)
    requires Enabled(s, Swap(w, token, s.now, Applied)) && s.workers[w].command.key.Some?
    ensures Next(s, Swap(w, token, s.now, Applied), DoSwap(s, w, token, s.now, Applied))
  {
  }

  lemma AppendPath(e: Execution, n: nat, states: seq<State>, actions: seq<Action>) returns (e': Execution)
    requires e.Valid() && n < |e.states| && Path(states, actions) && states[0] == e.states[n]
    ensures e'.Valid() && e'.actions == e.actions[..n] + actions && e'.states == e.states[..n] + states
  {
    e' := Execution(e.states[..n] + states, e.actions[..n] + actions);
    forall i | 0 <= i < |e'.actions|
      ensures Next(e'.states[i], e'.actions[i], e'.states[i + 1])
    {
      if i < n {
        assert Next(e.states[i], e.actions[i], e.states[i + 1]);
      } else {
        assert Next(states[i - n], actions[i - n], states[i - n + 1]);
      }
    }
  }

  /** No key is poisoned: however the owner of a STARTED claim died or was refused, every execution
      that reached such a state extends to one in which, once the claim is a TTL old, an
      uncontended attempt holds the key with a fresh token. */
  lemma NoKeyIsPoisoned(e: Execution, n: nat, w: WorkerId, command: Command, elapsed: nat, token: Id)
    returns (e': Execution)
    requires e.Valid() && n < |e.states| && Keyed(command) && w !in e.states[n].workers && Fresh(e.states[n], token)
    requires KeyOf(command) in e.states[n].tables.records
    requires e.states[n].tables.records[KeyOf(command)].state.ClaimStarted?
    requires e.states[n].now + elapsed - e.states[n].tables.records[KeyOf(command)].claimedAt >= CLAIM_TTL
    ensures e'.Valid() && |e'.states| > n && e'.states[n] == e.states[n] && e'.actions[..n] == e.actions[..n]
    ensures
      var s' := e'.states[|e'.actions|];
      w in s'.workers && s'.workers[w].Carries(KeyOf(command)) && s'.workers[w].token == Some(token) && OwnsClaim(s', w)
  {
    var states, actions := AttemptAtStarted(e.states[n], w, command, elapsed, token);
    e' := AppendPath(e, n, states, actions);
    assert e'.states[|e'.actions|] == states[|actions|];
  }
}
