/** Inputs and executions at which promises end: for each finding, one that shows it. */
module Witnesses {
  import opened Common
  import opened Conversations
  import opened Runs
  import opened Tables
  import opened Turn
  import opened TurnTransactions
  import opened Protocol
  import opened Executions
  import opened Sequential
  import opened Claims
  import opened Takeovers
  import opened Completion
  import opened Register
  import Context
  import opened Effects
  import Identity
  import MessageOrder
  import Requests
  import Text

  // ---- One user, one conversation, nothing else ----

  const QUIET := Tables(map[1 := UserRow(0, UserActive)], map[0 := ConversationRow(0, Active, 0)], [],
                        RunTables(map[], map[]), map[])

  function Asking(telegramUser: int, maxContextTokens: int, key: Option<string>): (c: Command)
    requires 5 <= maxContextTokens
    ensures ValidateInput(c) == Ok("hi")
  {
    assert Text.StripLeft("hi") == "hi" && Text.StripRight("hi") == "hi";
    Command(telegramUser, 0, "hi", "openai", "gpt", Limits(12, 6, 2, 60, maxContextTokens), key, 10)
  }

  function Beginning(prompt: string): State {
    State(prompt, 0, QUIET, {}, map[], map[], map[], [], map[])
  }

  /** Every commit but those of the start and of the failure settlement is applied, and the model does
      not answer. */
  function Outside(startFate: Fate, failureFate: Fate): Environment {
    Environment(0, 0, 0, 1, Applied, 0, 2, 3, startFate, 0, Err(DATABASE_UNAVAILABLE),
                0, 4, Applied, 0, failureFate, failureFate)
  }

  const KEY := RecordKeyOf("k")

  /** What one execution computes, an execution of the protocol reaches. */
  lemma IsReached(prompt: string, c: Command, startFate: Fate, failureFate: Fate) returns (e: Execution)
    ensures e.Valid() && e.states[0] == Beginning(prompt)
    ensures Ends(EndOf(e), 0, Executed(QUIET, c, prompt, Outside(startFate, failureFate)))
  {
    var t := ExecuteIsARunOfTheProtocol(Beginning(prompt), 0, c, Outside(startFate, failureFate));
    e := Execution(t.states, t.actions);
  }

  lemma QuietStarts(c: Command, records: Records)
    requires ValidateInput(c) == Ok("hi") && MayStart(QUIET, c)
    ensures StartTurn(QUIET.(records := records), c, "hi", 0, 2, 3).Ok?
  {
    StartSucceedsExactly(QUIET.(records := records), c, 0, 2, 3);
  }

  /** A start that was committed but reported as failed leaves its run RUNNING and its claim
      STARTED, and its caller is told that the turn failed. */
  lemma ReportedStartStands(prompt: string) returns (e: Execution)
    ensures e.Valid() && e.states[0] == Beginning(prompt)
    ensures 0 in EndOf(e).workers && EndOf(e).workers[0].pc == Raised(DATABASE_UNAVAILABLE)
    ensures
      var t := EndOf(e).tables;
      && 3 in t.runs.rows && t.runs.rows[3].status.Running?
      && KEY in t.records && t.records[KEY].state.ClaimStarted?
  {
    var c := Asking(1, 12_000, Some("k"));
    ReportedOutcome(prompt, c);
    e := IsReached(prompt, c, Reported, Applied);
  }

  lemma ReportedOutcome(prompt: string, c: Command)
    requires c.key == Some("k") && ValidateInput(c) == Ok("hi") && MayStart(QUIET, c)
    ensures
      var out := Executed(QUIET, c, prompt, Outside(Reported, Applied));
      && out.reply == Err(DATABASE_UNAVAILABLE)
      && 3 in out.tables.runs.rows && out.tables.runs.rows[3].status.Running?
      && KEY in out.tables.records && out.tables.records[KEY].state.ClaimStarted?
  {
    var t := CheckedTables(QUIET, KEY, Outside(Reported, Applied));
    QuietStarts(c, t.records);
    StartEffect(t, c, "hi", 0, 2, 3);
    ReportedIsLeft(QUIET, c, prompt, Outside(Reported, Applied));
  }

  lemma ReportedTurn(t: Tables, c: Command, prompt: string, text: string, claim: Option<Claim>, env: Environment)
    requires env.startFate.Reported? && StartTurn(t, c, text, env.startedAt, env.messageId, env.runId).Ok?
    ensures
      var start := StartTurn(t, c, text, env.startedAt, env.messageId, env.runId).value;
      StartedTurn(t, c, prompt, text, claim, env) == Outcome(start.tables, Err(DATABASE_UNAVAILABLE))
  {
  }

  /** A start on a free key that is applied and reported as failed is all that is left. */
  lemma ReportedIsLeft(t: Tables, c: Command, prompt: string, env: Environment)
    requires ValidateInput(c).Ok? && c.key.Some? && RecordKeyOf(c.key.value) !in t.records
    requires env.claimFate.Applied? && env.startFate.Reported?
    requires
      var claimed := CheckedTables(t, RecordKeyOf(c.key.value), env);
      StartTurn(claimed, c, ValidateInput(c).value, env.startedAt, env.messageId, env.runId).Ok?
    ensures
      var claimed := CheckedTables(t, RecordKeyOf(c.key.value), env);
      var start := StartTurn(claimed, c, ValidateInput(c).value, env.startedAt, env.messageId, env.runId).value;
      Executed(t, c, prompt, env) == Outcome(start.tables, Err(DATABASE_UNAVAILABLE))
  {
    ReportedTurn(CheckedTables(t, RecordKeyOf(c.key.value), env), c, prompt, ValidateInput(c).value,
                 Some(Claim(c.key.value, env.token)), env);
  }

  /** A turn that is cancelled or dies after its start was committed leaves both behind, too. */
  lemma CancelledTurn(prompt: string) returns (e: Execution)
    ensures e.Valid() && e.states[0] == Beginning(prompt)
    ensures 0 in EndOf(e).workers && EndOf(e).workers[0].pc.Crashed?
    ensures
      var t := EndOf(e).tables;
      && 3 in t.runs.rows && t.runs.rows[3].status.Running?
      && KEY in t.records && t.records[KEY].state.ClaimStarted?
  {
    var nothing := Execution([Beginning(prompt)], []);
    e := StartAndDie(nothing, 0, Asking(1, 12_000, Some("k")), 0, 1, 2, 3);
    SameBeginning(e, nothing, 0);
  }

  /** A refused start leaves its claim STARTED, though every commit was applied. */
  lemma RefusedStart(prompt: string) returns (e: Execution)
    ensures e.Valid() && e.states[0] == Beginning(prompt)
    ensures 0 in EndOf(e).workers && EndOf(e).workers[0].pc == Raised(UNKNOWN_ACTOR)
    ensures KEY in EndOf(e).tables.records && EndOf(e).tables.records[KEY].state.ClaimStarted?
    ensures EndOf(e).tables.runs == QUIET.runs
  {
    var c := Asking(2, 12_000, Some("k"));
    RefusedOutcome(prompt, c);
    e := IsReached(prompt, c, Applied, Applied);
  }

  lemma RefusedOutcome(prompt: string, c: Command)
    requires c.key == Some("k") && ValidateInput(c) == Ok("hi") && c.telegramUser == 2
    ensures
      var out := Executed(QUIET, c, prompt, Outside(Applied, Applied));
      && out == Outcome(CheckedTables(QUIET, KEY, Outside(Applied, Applied)), Err(UNKNOWN_ACTOR))
      && KEY in out.tables.records && out.tables.records[KEY].state.ClaimStarted?
  {
  }

  /** A turn whose model call failed leaves both behind when the two transactions that were to fail
      them are rolled back. */
  lemma LostSettlementStands(prompt: string) returns (e: Execution)
    ensures e.Valid() && e.states[0] == Beginning(prompt)
    ensures 0 in EndOf(e).workers && EndOf(e).workers[0].pc.Raised?
    ensures
      var t := EndOf(e).tables;
      && 3 in t.runs.rows && t.runs.rows[3].status.Running?
      && KEY in t.records && t.records[KEY].state.ClaimStarted?
  {
    var c := Asking(1, 12_000, Some("k"));
    LostOutcome(prompt, c);
    e := IsReached(prompt, c, Applied, Lost);
  }

  lemma LostOutcome(prompt: string, c: Command)
    requires c.key == Some("k") && ValidateInput(c) == Ok("hi") && MayStart(QUIET, c)
    ensures
      var out := Executed(QUIET, c, prompt, Outside(Applied, Lost));
      && out.reply.Err? && out.reply.error != PREVIOUS_FAILED
      && 3 in out.tables.runs.rows && out.tables.runs.rows[3].status.Running?
      && KEY in out.tables.records && out.tables.records[KEY].state.ClaimStarted?
  {
    var t := CheckedTables(QUIET, KEY, Outside(Applied, Lost));
    QuietStarts(c, t.records);
    StartEffect(t, c, "hi", 0, 2, 3);
    LostIsLeft(t, c, prompt, "hi", Some(Claim("k", 1)), Outside(Applied, Lost));
  }

  /** A started turn that the model does not answer, and that cannot be settled, stays as it was. */
  lemma LostIsLeft(t: Tables, c: Command, prompt: string, text: string, claim: Option<Claim>, env: Environment)
    requires env.startFate.Applied? && StartTurn(t, c, text, env.startedAt, env.messageId, env.runId).Ok?
    requires env.response == Err(DATABASE_UNAVAILABLE) && env.runFate.Lost? && env.failureFate.Lost?
    ensures
      var start := StartTurn(t, c, text, env.startedAt, env.messageId, env.runId).value;
      var out := StartedTurn(t, c, prompt, text, claim, env);
      out.tables == start.tables && out.reply.Err? && out.reply.error != PREVIOUS_FAILED
  {
  }

  /** A key that is taken over has two user messages and two runs. */
  lemma DoubledQuestion(prompt: string) returns (e: Execution)
    ensures e.Valid() && e.states[0] == Beginning(prompt)
    ensures |QuestionsFor(EndOf(e), KEY)| == |RunsFor(EndOf(e), KEY)| == 2
  {
    var nothing := Execution([Beginning(prompt)], []);
    e := TakeoversRepeat(nothing, Asking(1, 12_000, Some("k")), 2);
    SameBeginning(e, nothing, 0);
  }

  /** A first execution answers its key, whatever the model says that is usable. */
  lemma CompletedKey(prompt: string, response: Response) returns (e: Execution)
    requires Context.EstimateTokens(prompt) <= 11_995 && ValidateResponse(response).Ok?
    ensures e.Valid() && e.states[0] == Beginning(prompt)
    ensures KEY in EndOf(e).tables.records && EndOf(e).tables.records[KEY].state == ClaimCompleted
    ensures |AnswersFor(EndOf(e), KEY)| == 1
  {
    var nothing, c := Execution([Beginning(prompt)], []), Asking(1, 12_000, Some("k"));
    var w: WorkerId;
    e, w := OpenKeysComplete(nothing, c, response);
    SameBeginning(e, nothing, 0);
    EveryStateAnswersOnce(e, |e.actions|, KEY);
  }

  /** Valid input of a turn that was started, and refused whatever the system prompt is. */
  lemma ValidButCrowdedOut(prompt: string)
    ensures
      var c := Asking(1, 5, None);
      var started := StartTurn(QUIET, c, ValidateInput(c).value, 0, 2, 3);
      started.Ok? && BuildRequest(c, prompt, started.value.conversation) == Err(BUDGET_EXHAUSTED)
  {
    var c := Asking(1, 5, None);
    QuietStarts(c, map[]);
    Requests.RefusedExactlyWhenPromptCrowdsOutInput(QUIET, c, prompt, 0, 2, 3);
  }

  /** A turn without a key begins. */
  lemma BeginHere(e: Execution, w: WorkerId, c: Command) returns (e': Execution)
    requires e.Valid() && w !in EndOf(e).workers
    ensures e'.Valid() && Continues(e', e, |e.actions|) && EndOf(e') == EndOf(e).With(w, Began(c))
  {
    e' := Extend(e, Begin(w, c), EndOf(e).With(w, Began(c)));
  }

  lemma TickHere(e: Execution, elapsed: nat) returns (e': Execution)
    requires e.Valid()
    ensures e'.Valid() && Continues(e', e, |e.actions|) && EndOf(e') == Ticked(EndOf(e), elapsed)
  {
    e' := Extend(e, Tick(elapsed), Ticked(EndOf(e), elapsed));
  }

  lemma TwoArrived(prompt: string, c: Command) returns (e: Execution)
    ensures e.Valid() && e.states[0] == Beginning(prompt)
    ensures EndOf(e) == Beginning(prompt).With(0, Began(c)).With(1, Began(c))
  {
    var nothing := Execution([Beginning(prompt)], []);
    var one := BeginHere(nothing, 0, c);
    e := BeginHere(one, 1, c);
    SameBeginning(one, nothing, 0);
    SameBeginning(e, one, |one.actions|);
  }

  /** Two turns are about to start, and then time passes. */
  lemma TwoBegun(prompt: string, c: Command, gap: nat) returns (e: Execution)
    ensures e.Valid() && e.states[0] == Beginning(prompt)
    ensures EndOf(e) == Ticked(Beginning(prompt).With(0, Began(c)).With(1, Began(c)), gap)
  {
    var two := TwoArrived(prompt, c);
    e := TickHere(two, gap);
    SameBeginning(e, two, |two.actions|);
  }

  /** The first turn reads the clock late and the second early; the first commits first. */
  lemma TwoStarted(prompt: string, c: Command, gap: nat) returns (e: Execution)
    requires c.key.None? && ValidateInput(c) == Ok("hi") && MayStart(QUIET, c)
    ensures e.Valid() && e.states[0] == Beginning(prompt)
    ensures EndOf(e).tables.messages == [Question(Began(c), 2, gap), Question(Began(c), 4, 0)]
  {
    var begun := TwoBegun(prompt, c, gap);
    var started := OpenHere(begun, 0, c, 2, 3, gap);
    SameBeginning(started, begun, |begun.actions|);
    e := OpenHere(started, 1, c, 4, 5, 0);
    SameBeginning(e, started, |started.actions|);
  }

  /** Two turns that overlap may commit their questions in another order than that in which they
      read the clock, and any time apart; then they are read in the reverse of the order of their
      commits. */
  lemma CommitsMayReorder(prompt: string, gap: nat) returns (e: Execution)
    requires 0 < gap
    ensures e.Valid() && e.states[0] == Beginning(prompt)
    ensures
      var rows := EndOf(e).tables.messages;
      && |rows| == 2 && rows[0].createdAt - rows[1].createdAt == gap
      && MessageOrder.Of(rows, 0) == rows && MessageOrder.History(rows, 0) == [rows[1], rows[0]]
  {
    var c := Asking(1, 12_000, None);
    e := TwoStarted(prompt, c, gap);
    LaterFirst(Question(Began(c), 2, gap), Question(Began(c), 4, 0));
  }

  lemma LaterFirst(first: Message, second: Message)
    requires first.conversation == second.conversation == 0 && second.createdAt < first.createdAt
    ensures MessageOrder.Of([first, second], 0) == [first, second]
    ensures MessageOrder.History([first, second], 0) == [second, first]
  {
    assert MessageOrder.Of([first], 0) == [first];
    assert [first, second][..1] == [first];
    assert MessageOrder.OrderBy(false, [second]) == [second];
  }

  /** Of two messages of one instant, the later one comes first if its random id is smaller. */
  lemma EqualInstantsMayReorder()
    ensures
      var first, second := Message(5, 0, User, "hi", 0), Message(3, 0, Assistant, "ho", 0);
      MessageOrder.History([first, second], 0) == [second, first]
  {
    var first, second := Message(5, 0, User, "hi", 0), Message(3, 0, Assistant, "ho", 0);
    assert MessageOrder.Of([first], 0) == [first];
    assert MessageOrder.Of([first, second], 0) == [first, second];
    assert MessageOrder.OrderBy(false, [second]) == [second];
  }

  /** Two roles of one name cannot be saved. */
  method SaveTwoRolesOfOneName() returns (r: Result<()>)
    ensures r.Err?
  {
    var user := new Identity.UserRepository(Identity.Access(map[], map[], {}, {}));
    var plain, powerful := Identity.Role("admin", {}), Identity.Role("admin", {Identity.Permission("users", "ban")});
    assert plain in {plain, powerful} && powerful in {plain, powerful} && plain != powerful;
    r := user.SyncRoles(1, {plain, powerful});
  }
}
