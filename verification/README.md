# A verified model of NexaBot's agent turns

NexaBot answers a user's message in one *agent turn*: it claims an idempotency key, commits the
user message together with a started run, calls a language model with no transaction open, and
commits the answer, the finished run and the settled claim as one fact.  When anything goes wrong
in between, it settles the run and the claim as failed in two further transactions.  Any number
of workers do this against one database, and each of them may be slow, be overtaken by another
worker, be told that a commit failed although it was applied, or die.

The project models that protocol and proves what it is for.  Its layers, bottom up:

* `text`, `conversations`, `context`, `message_order`: messages, the conversation aggregate that
  knows how much of its history it holds, the token budget, and the newest-page query.
* `runs`: the run state machine with its budgets.
* `tables`, `conversation_store`, `run_store`, `idempotency`: the rows, the unit of work, and the
  repositories as classes over a session's tables, each method proved against a function.
* `turn`, `turn_transactions`: the pure parts of a turn, what each transaction does to the tables,
  and `RunAgentTurn` as a class whose methods follow the source statement by statement.
* `requests`: the windowed load, the aggregate and the token budget composed.
* `protocol`: the transition system.  A worker has a program counter; reading a claim, judging it
  and swapping it are separate steps, every other transaction is one step, time passes, users and
  conversations change at will, commits may be reported as failed after being applied or be rolled
  back, and a worker may crash at every point.
* `invariant`, `effects`, `preservation`: one inductive invariant over tokens, records, runs,
  steps, messages, workers and history, kept by every step, and the footprint of every step.
* `executions`, `register`, `claims`, `settlement`, `abandoned_claims`, `conservation`, `progress`,
  `commit_order`: the theorems about all executions from an empty system.
* `outcomes`: what one execution leaves and replies, case by case, read off its command, the rows it
  found and the outside world; a second definition of `execute`, proved equal to the composed one.
* `answers`: what callers are told in every execution, down to the fields.
* `sequential`: the class `RunAgentTurn`, run without interference, takes exactly a path of the
  transition system, so the protocol does what the code does.
* `takeovers`, `completion`: how any execution can go on: its keys be taken over again and again, or
  be answered.
* `witnesses`: executions and inputs at which promises end, one for each finding.
* `identity`: roles and permissions written into normalised tables and read back.

Messages, runs, steps, claims and tokens are named by numbers that are new when they are chosen;
all workers read one clock, an integer number of microseconds that never runs backwards.

## Findings

Where the code and its own words part, the model follows the code.  Each finding names the theorem
that gives its exact condition and, in brackets, inputs or executions that show it where the theorem
does not already compute them.

* `docs/architecture/architecture.md:312-313` says a turn settles its run on every in-process exit,
  and names the death of the process as the exception.  `RunsLeftRunning` says of every row of the
  runs table, once its worker is gone, that it is RUNNING exactly when the start was committed but
  reported as failed, the transaction that was to fail the run was rolled back, or the worker died
  or was cancelled in between.  The first, the second and a cancellation, which `except Exception`
  at `src/nexabot/application/agent/use_cases.py:146` does not catch, leave the process alive
  [`Witnesses.ReportedStartStands`, `Witnesses.LostSettlementStands`, `Witnesses.CancelledTurn`].
* `_start_turn` is called outside the handler that settles
  (`src/nexabot/application/agent/use_cases.py:139-141`), so an error raised there leaves the key's
  claim STARTED until its time-to-live has passed.  `ClaimsLeftStarted` says of every claim that
  stands, once its maker is gone, that it is STARTED exactly when its own commit was reported as
  failed, the start raised, the transaction that was to fail it was rolled back, or the worker died
  or was cancelled unanswered [`Witnesses.RefusedStart`, `Witnesses.ReportedStartStands`,
  `Witnesses.LostSettlementStands`, `Witnesses.CancelledTurn`].
* The comment at `src/nexabot/application/agent/use_cases.py:289-295` says that the newest message
  always survives.  Input validation does not reserve the system prompt, so a valid turn is refused
  after it was started exactly when prompt and input together exceed the budget
  (`RefusedExactlyWhenPromptCrowdsOutInput`) [`Witnesses.ValidButCrowdedOut`].
* A step budget of one rolls the start back and a budget of two fails the turn after the model was
  paid for (`TurnsStartExactly`, `AnswersCommitExactly`).
* `record_step` accepts terminal step types from any caller.  A run keeps to one terminal step, and
  last, exactly when none is recorded by hand while the run is running (`DisciplineExactly`)
  [`Runs.TerminalStepsRecordedByHandEscape`].
* `docs/architecture/architecture.md:300-308` says that messages are read out of append order at most
  within one microsecond, and calls that unreachable because a turn is the only writer.  As long as
  turns of a conversation do not overlap, so it is: a message whose author took a step after another
  message was committed does not carry the earlier instant (`LaterTransactionsReadLater`), and such a
  conversation is read in commit order up to equal instants (`HistoryIsCommitOrder`), which their
  random ids decide [`Witnesses.EqualInstantsMayReorder`].  But nothing keeps two turns apart, and
  each reads the clock before it commits.  A turn can still commit a question with an earlier instant
  than a committed message exactly when its last step lies before that message's instant
  (`OverlapsMayReorder`), and by any length of time [`Witnesses.CommitsMayReorder`].  An answer never
  carries an earlier instant than its question (`AnswersFollowQuestions`).
* Two roles of one name in the set to be saved clash on the primary key of `user_roles`
  (`Identity.UserRepository.SyncRoles`) [`Witnesses.SaveTwoRolesOfOneName`].
* The refusal for a contended key can never happen as long as the loser's second read sees the
  winner's committed row, because rows are never deleted (`LosersFindTheWinner`).  Under snapshot
  isolation it may not see it; isolation levels are not modelled.
* Only answers are exactly-once.  A key has as many user messages as runs, one for each claim that
  got as far as starting its turn: at most one without a takeover, and at most T / TTL + 1 for
  claims made in a window of length T (`EveryRunHasItsClaim`).  Both bounds are met for every number
  of takeovers (`TakeoversRepeat`) [`Witnesses.DoubledQuestion`].

## Model

| member | source | states |
|---|---|---|
| `Executions.ExecutionsAreSafe` | src/nexabot/application/agent/use_cases.py:130-153 | every state of every execution, whatever is interleaved, crashes, or is misreported, satisfies the invariant over tokens, records, runs, messages and workers |
| `Executions.TimeOnlyAdds` | src/nexabot/infrastructure/database/repositories/idempotency.py:105-148 | settled records, terminal runs, messages, claims, model calls and what a worker holds are never taken back |
| `Executions.OriginsAreKnown` | src/nexabot/application/agent/use_cases.py:268-282 | in every state of every execution each row of the runs table, each message and each claim has the worker that made it, and a run opened under a key was opened with a claim and exactly one user message |
| `Preservation.WorkerStepKeeps` | src/nexabot/application/agent/use_cases.py:130-153 | every step of a worker keeps the invariant and touches only that worker, its own key and its own non-terminal run |
| `Register.StepRefinesRegister` | src/nexabot/infrastructure/database/repositories/idempotency.py:105-148 | every step refines one operation of a write-once register per key, and only a settlement by the holder of an unsettled claim writes it |
| `Register.ExecutionsRefineRegister` | src/nexabot/infrastructure/database/repositories/idempotency.py:105-199 | every execution refines the write-once register: it starts undecided, and a decision never changes |
| `Register.RepliesAgreeWithRegister` | src/nexabot/application/agent/use_cases.py:181-199 | a result returned for a key is the decided result, and "a previous attempt failed" is a decided failure, then and ever after |
| `Register.SameKeySameResult` | src/nexabot/application/agent/use_cases.py:185-186 | all executions with one key that return at all return equal results, computed or decoded |
| `Register.ExactlyOneAnswer` | src/nexabot/application/agent/use_cases.py:393-406 | the answers committed for a key are exactly one if its record is COMPLETED, whose result decodes, field by field, to the id, content and conversation of that message and the id, SUCCEEDED status and usage of a stored run that ended with the same answer, and none otherwise |
| `Register.EveryStateAnswersOnce` | src/nexabot/application/agent/use_cases.py:393-406 | the same, counted, in every state of every execution |
| `Answers.ReturnedResultsAreTrue` | src/nexabot/application/agent/use_cases.py:379-408 | every returned result, computed or cached, keyed or not, names field by field a stored answer, the stored run that succeeded with it, its SUCCEEDED status and its usage, committed by a worker with the very same key or by the caller itself |
| `Answers.EveryAnswerIsTheModels` | src/nexabot/application/agent/use_cases.py:371-392 | the stored answer and the run's final response are the model's content without the spaces around it, and the run's usage is the model's three token counts, each under its name |
| `Answers.JudgesTellTheRow` | src/nexabot/application/agent/use_cases.py:185-198 | who reads a COMPLETED row returns the result stored in it, who reads a FAILED one is told so, and who reads a STARTED one is refused exactly while its claim is younger than 300 seconds |
| `Answers.DecidedKeysAreTold` | src/nexabot/application/agent/use_cases.py:181-193 | every execution at a COMPLETED key extends to one in which a new worker has returned the stored result, and at a FAILED key to one in which a new worker was told of the failure; no table changes |
| `Answers.ExecutedLeavesOtherKeys` | src/nexabot/application/agent/use_cases.py:181-183 | an execution leaves the record of every namespace and key but its own as it is |
| `Answers.StepsLeaveOtherKeys` | src/nexabot/infrastructure/database/repositories/idempotency.py:201-209 | so does every step of a worker in every execution |
| `Answers.FreshKeysAreClaimed` | src/nexabot/infrastructure/database/repositories/idempotency.py:34-60 | a key without a record of its own can be claimed at once, whatever other keys hold |
| `Answers.CallsStartInTime` | src/nexabot/application/agent/use_cases.py:142-143 | the model is called exactly when the request can be built and less than `max_execution_seconds` have passed since the question was stamped |
| `Claims.TokensExclude` | src/nexabot/infrastructure/database/repositories/idempotency.py:123-148 | no token is held by two workers, at most one worker can settle a key, and it made the key's last claim |
| `Claims.StaleWorkersAreHarmless` | src/nexabot/application/agent/use_cases.py:332-361 | a worker whose claim was taken over or settled leaves messages, records and every other run as they are when it finishes or fails |
| `Claims.EveryKeyIsClaimedSlowly` | src/nexabot/infrastructure/database/repositories/idempotency.py:165-199 | claims of a key lie a time-to-live apart pairwise, and a window of length T holds at most T / TTL + 1 of them, though staleness is judged on an earlier read |
| `Claims.EveryCallHasItsClaim` | src/nexabot/application/agent/use_cases.py:130-145 | the model is called for a key at most as often as the key is claimed, and at most once by each execution |
| `Claims.EveryRunHasItsClaim` | src/nexabot/application/agent/use_cases.py:268-282 | user messages and runs of a key are equally many, at most as many as its claims, and at most T / TTL + 1 for claims made in a window of length T |
| `Takeovers.TakeoversRepeat` | src/nexabot/application/agent/use_cases.py:268-282 | for every k, an execution at a free key whose turn may start extends to one with exactly k claims, k user messages and k runs of the key within k - 1 times-to-live, which meets the bounds on claims and per window |
| `SettlementOfTurns.StartedRunsAreSettled` | src/nexabot/application/agent/use_cases.py:141-153 | once the start has returned, every exit but death and cancellation leaves the persisted run terminal, unless the transaction that was to fail it was rolled back |
| `SettlementOfTurns.RunsLeftRunning` | src/nexabot/application/agent/use_cases.py:139-153 | every row of the runs table has the worker that opened it and reads back as that worker stored it; once the worker is gone the row is RUNNING exactly when its start was applied but reported as failed, failing the run was rolled back, or the worker died or was cancelled before settling it |
| `AbandonedClaims.ClaimsLeftStarted` | src/nexabot/application/agent/use_cases.py:132-153 | every idempotency record has the worker that claimed it last; while it works the record is STARTED exactly until the answer is stored, and once it is gone exactly when its claim was applied but reported as failed, its start raised, failing the claim was rolled back, or it died or was cancelled unanswered |
| `SettlementOfTurns.TerminalRunsStay` | src/nexabot/application/agent/use_cases.py:338-345 | a terminal run never changes again, not a column and not a step |
| `SettlementOfTurns.ReportedFinishStays` | src/nexabot/application/agent/use_cases.py:338-345 | a finish that was applied but reported as failed stays SUCCEEDED through the failure settlement and ever after |
| `SettlementOfTurns.PersistedStateWins` | src/nexabot/application/agent/use_cases.py:332-345 | failing a run starts from the persisted run, whatever the one in memory says, leaves a terminal one alone, and otherwise writes FAILED, the reason, the instant and one last step that carries both, and keeps every other column and step |
| `SettlementOfTurns.FinishExtendsStored` | src/nexabot/infrastructure/database/repositories/agent.py:69-82 | at every finish of every execution the stored steps are a proper prefix of the run's steps, so saving stores exactly the run |
| `Progress.NoKeyIsPoisoned` | src/nexabot/infrastructure/database/repositories/idempotency.py:176-199 | every execution that reached a STARTED claim extends to one where, once the claim is a TTL old, an uncontended attempt holds the key with a fresh token |
| `Completion.KeysCompleteUnlessFailed` | src/nexabot/application/agent/use_cases.py:130-153 | when the command is answerable (active actor and conversation, three steps of budget, input fits beside the prompt) and the model says something usable, some extension of an execution has the key COMPLETED exactly when the key is not FAILED |
| `Completion.OpenKeysComplete` | src/nexabot/application/agent/use_cases.py:130-153 | every execution at a free or STARTED key of an answerable command extends to one in which the key is COMPLETED and a new worker has returned the result |
| `Progress.AttemptAtStarted` | src/nexabot/infrastructure/database/repositories/idempotency.py:150-199 | an uncontended attempt at a STARTED key obtains it exactly when its claim is a TTL old, and otherwise changes nothing |
| `Progress.WorkIsBounded` | src/nexabot/application/agent/use_cases.py:130-153 | in any execution a worker takes at most twelve steps, opens at most five transactions and calls the model at most once |
| `Progress.LosersFindTheWinner` | src/nexabot/infrastructure/database/repositories/idempotency.py:66-75 | a worker that lost the insert race finds a row whenever its second read sees what is committed, so the contended refusal is then unreachable |
| `Conservation.NothingIsLostOrDoubled` | src/nexabot/application/agent/use_cases.py:268-282 | per conversation, user messages equal runs and assistant messages equal succeeded runs; completed keys equal succeeded keyed runs |
| `Conservation.EveryStoredRunIsDisciplined` | src/nexabot/infrastructure/database/models.py:158-178 | every row of the runs table, in every state of every execution, reads back as a run that satisfies the terminal-state constraint and its budgets and ends with its only terminal step; none is PENDING |
| `Conservation.EveryRowSaysWhoAsked` | src/nexabot/application/agent/use_cases.py:271-282 | every row of the runs table names the user behind its command's identity at its start, the command's conversation, provider, model and limits, and the instant of its question |
| `Conservation.EveryRequestFits` | src/nexabot/application/agent/use_cases.py:296-316 | every request in flight costs at most `max_context_tokens` with its system prompt and ends with the turn's own input |
| `Conservation.EveryContextIsLossless` | src/nexabot/application/agent/use_cases.py:257-309 | in every reachable state a started turn sends, behind the system prompt and to its own provider and model, the longest fitting suffix of the whole stored history and its input, cut to the window, and uncut when the window is at least budget / 5 |
| `Conservation.RequestsInFlightAreLossless` | src/nexabot/application/agent/use_cases.py:257-309 | whatever was posted since, a request in flight carries, behind the system prompt, the longest fitting suffix of the history its own start transaction saw, followed by its question, cut to the window, and uncut when the window is at least budget / 5 |
| `CommitOrder.LaterTransactionsReadLater` | src/nexabot/domain/conversations/entities.py:62-84 | of two committed messages the later one carries no earlier instant if its author took a step after the earlier one was committed |
| `CommitOrder.LaterTurnsAreApart` | src/nexabot/application/agent/use_cases.py:130-153 | which is so when the turn of the later message began after the earlier message was committed |
| `CommitOrder.HistoryIsCommitOrder` | docs/architecture/architecture.md:300-308 | a conversation whose turns do not overlap is read in the order of its commits up to equal instants: history and commit order hold the same messages, with the same instants place by place, and are equal when instants differ |
| `CommitOrder.OverlapsMayReorder` | docs/architecture/architecture.md:300-308 | a turn about to start can commit a question with an earlier instant than a given committed message exactly when its own last step lies before that instant |
| `CommitOrder.AnswersFollowQuestions` | src/nexabot/domain/conversations/entities.py:62-84 | a committed answer and its question are both stored, and the answer never carries the earlier instant, because the clock is read after the last step |
| `Conservation.TurnsStartExactly` | src/nexabot/application/agent/use_cases.py:248-284 | in every reachable state a turn with valid input starts exactly when an active user owns an active conversation and `max_steps` is at least two |
| `Conservation.AnswersCommitExactly` | src/nexabot/application/agent/use_cases.py:363-408 | an answer is committed exactly when `max_steps` is at least three, a claim is still held if there is a key, and the commit is not rolled back; it is returned exactly when the commit is also reported as applied |
| `Sequential.ExecuteIsARunOfTheProtocol` | src/nexabot/application/agent/use_cases.py:130-153 | what `execute` computes without interference, for every outcome of every commit and of the model, is reached by a new worker's own steps: same tables, same reply |
| `Outcomes.ExecutedEnds` | src/nexabot/application/agent/use_cases.py:130-153 | with valid input and a key that is free or long abandoned: the claim, the refusals of the start in order, the user message and run of the command, and then answer, run and record that say what the model said, or run and record that say the first thing that went wrong; the caller is told the same |
| `Outcomes.ExecutedTells` | src/nexabot/application/agent/use_cases.py:181-198 | a COMPLETED key replies its stored result, or that it is malformed, a FAILED one the earlier failure, and one claimed less than 300 seconds ago that it is in progress; nothing changes |
| `Outcomes.UnappliedClaimStops` | src/nexabot/application/agent/use_cases.py:181-183 | a claim whose commit is reported as failed ends the execution, and is written exactly if it could be and was not rolled back |
| `Outcomes.InvalidInputStops` | src/nexabot/application/agent/use_cases.py:130-131 | invalid input is refused and changes nothing |
| `Outcomes.InputIsJudged` | src/nexabot/application/agent/use_cases.py:155-179 | which input is valid: stripped, not empty, at most 32 000 characters, a window of 1 to 500, and within the token budget; and the error for everything else, in order |
| `Outcomes.StartsUnlessRefused` | src/nexabot/application/agent/use_cases.py:248-284 | the six refusals of a start, in order, and no other |
| `Witnesses.ReportedStartStands` | src/nexabot/application/agent/use_cases.py:139-141 | an execution whose start was applied but reported as failed ends with its run RUNNING and its claim STARTED |
| `Witnesses.CancelledTurn` | src/nexabot/application/agent/use_cases.py:146-153 | an execution that is cancelled after its start ends with its run RUNNING and its claim STARTED |
| `Witnesses.RefusedStart` | src/nexabot/application/agent/use_cases.py:139-141 | an execution whose start is refused ends with its claim STARTED, though every commit was applied |
| `Witnesses.DoubledQuestion` | src/nexabot/application/agent/use_cases.py:268-282 | an execution in which one key has exactly two user messages and two runs |
| `Witnesses.LostSettlementStands` | src/nexabot/application/agent/use_cases.py:318-361 | an execution whose failure settlements are rolled back ends with its run RUNNING and its claim STARTED |
| `Witnesses.CompletedKey` | src/nexabot/application/agent/use_cases.py:130-153 | an execution from the empty system that completes a key, for every usable answer and every prompt that leaves room |
| `Witnesses.ValidButCrowdedOut` | src/nexabot/application/agent/use_cases.py:173-178 | a valid command that is started and then refused under every system prompt |
| `Witnesses.CommitsMayReorder` | docs/architecture/architecture.md:300-308 | for every length of time, an execution of two overlapping turns whose questions lie that far apart, are committed in one order and read in the other |
| `Witnesses.EqualInstantsMayReorder` | src/nexabot/infrastructure/database/repositories/conversations.py:115-124 | two messages of one instant, the later one with the smaller id, are read in reverse |
| `Witnesses.SaveTwoRolesOfOneName` | src/nexabot/infrastructure/database/repositories/identity.py:140-148 | two different roles of one name cannot be saved |
| `TurnTransactions.RunAgentTurn.Execute` | src/nexabot/application/agent/use_cases.py:130-153 | tables and reply of one execution are those of the composed specification |
| `TurnTransactions.RunAgentTurn.CheckIdempotency` | src/nexabot/application/agent/use_cases.py:181-199 | a cached result, an owned fresh claim, or a refusal, and the records each of them leaves |
| `TurnTransactions.RunAgentTurn.StartTurn` | src/nexabot/application/agent/use_cases.py:248-284 | the user message and the started run are committed together or not at all, with the refusals in the source's order |
| `TurnTransactions.RunAgentTurn.BuildRequest` | src/nexabot/application/agent/use_cases.py:286-316 | the budgeted recent history behind the system prompt, or the refusal |
| `TurnTransactions.RunAgentTurn.FinishTurn` | src/nexabot/application/agent/use_cases.py:363-408 | answer, finished run and settled claim are one transaction; the run stays finished in memory when it is refused or rolled back |
| `TurnTransactions.RunAgentTurn.SettleFailedRun` | src/nexabot/application/agent/use_cases.py:332-347 | the persisted run is failed unless it is terminal, and nothing is raised |
| `TurnTransactions.RunAgentTurn.SettleFailedClaim` | src/nexabot/application/agent/use_cases.py:349-361 | the claim is failed only while it is still held, and nothing is raised |
| `TurnTransactions.RunAgentTurn.FailTurn` | src/nexabot/application/agent/use_cases.py:318-330 | run and claim are settled in two transactions, neither of which can roll back the other |
| `Turn.StoredRoundTrip` | src/nexabot/application/agent/use_cases.py:436-456 | decoding a stored result undoes encoding it |
| `Turn.StoredForm` | src/nexabot/application/agent/use_cases.py:436-444 | the stored form has six fields under these names |
| `Preservation.CompletedDecodes` | src/nexabot/application/agent/use_cases.py:447-456 | a COMPLETED record always holds an encoded result, so a cached answer is never malformed |
| `Turn.ValidContentIsNotBlank` | src/nexabot/application/agent/use_cases.py:234-246 | a validated answer makes a legal message |
| `Text.StripTrims` | src/nexabot/application/agent/use_cases.py:156 | stripping removes all spaces at both ends and nothing else |
| `Text.BlankIsAllSpace` | src/nexabot/domain/agent/entities.py:126-127 | text is blank exactly when it is spaces throughout |
| `Effects.StartedRunShape` | src/nexabot/application/agent/use_cases.py:271-282 | a turn's run can be started exactly when `max_steps` is at least two, and then its columns and its two steps are these |
| `Effects.StartSucceedsExactly` | src/nexabot/application/agent/use_cases.py:248-284 | on any tables with unused ids, valid input is started exactly when the actor, the conversation and the step budget allow it |
| `Effects.ConcludeShape` | src/nexabot/application/agent/use_cases.py:371-391 | the in-memory end of a turn succeeds exactly on an active conversation, with a non-blank answer and room for validation, and then message, run and result are these, column by column; each refusal is named |
| `Effects.FinishEffect` | src/nexabot/application/agent/use_cases.py:393-406 | the settlement commits its three facts exactly when its claim still holds, and none otherwise |
| `Effects.SettleRunEffect` | src/nexabot/application/agent/use_cases.py:338-345 | failing a stored run never errs, changes that run only, and writes these columns |
| `Idempotency.IdempotencyRepository.Start` | src/nexabot/infrastructure/database/repositories/idempotency.py:34-83 | the caller owns the claim exactly when the key was free or its claim had expired unsettled, and then the row carries the caller's token |
| `Idempotency.IdempotencyRepository.ClaimExisting` | src/nexabot/infrastructure/database/repositories/idempotency.py:150-163 | an earlier read is reported as it was read; it is owned exactly when it was expired and the row is still the one read |
| `Idempotency.IdempotencyRepository.ReclaimIfExpired` | src/nexabot/infrastructure/database/repositories/idempotency.py:165-199 | the takeover is a compare-and-swap on id, state and token |
| `Idempotency.IdempotencyRepository.SettleRow` | src/nexabot/infrastructure/database/repositories/idempotency.py:105-148 | only the holder of a STARTED claim settles it; otherwise nothing changes and the row's absence or loss is reported |
| `Idempotency.IdempotencyRepository.Complete` | src/nexabot/infrastructure/database/repositories/idempotency.py:85-94 | completing is settling with the result |
| `Idempotency.IdempotencyRepository.Fail` | src/nexabot/infrastructure/database/repositories/idempotency.py:96-103 | failing is settling with the reason |
| `Tables.UnitOfWork.Enter` | src/nexabot/infrastructure/database/unit_of_work.py:46-53 | a fresh session that sees the committed tables |
| `Tables.UnitOfWork.Exit` | src/nexabot/infrastructure/database/unit_of_work.py:55-82 | all of a session's changes are committed, or on an error none of them, and the original error is kept |
| `Conversations.WindowedAggregateRefinesHistory` | src/nexabot/domain/conversations/entities.py:62-96 | after any load and appends, the newest n are those of the true history, and are refused exactly when the page was full and n exceeds page and appends |
| `Conversations.AppendKeepsKnowledge` | src/nexabot/domain/conversations/entities.py:77-84 | appending to a windowed aggregate is appending to the history it stands for |
| `Conversations.Conversation.AppendMessage` | src/nexabot/domain/conversations/entities.py:62-84 | succeeds exactly on an active conversation with non-blank content, extends every history it stood for by that message, and otherwise changes nothing |
| `Conversations.Conversation.RecentMessages` | src/nexabot/domain/conversations/entities.py:86-96 | an answer is the newest part of every history the aggregate may stand for, never a truncated one |
| `Conversations.Conversation.Archive` | src/nexabot/domain/conversations/entities.py:98-101 | only an active conversation is archived |
| `Conversations.Conversation.Delete` | src/nexabot/domain/conversations/entities.py:103-109 | any conversation is deleted once |
| `ConversationStore.ConversationRepository.LoadMessages` | src/nexabot/infrastructure/database/repositories/conversations.py:112-138 | the newest `limit` messages of the history, oldest first |
| `ConversationStore.ConversationRepository.Get` | src/nexabot/infrastructure/database/repositories/conversations.py:30-39 | a missing row, a refused window, or the loaded conversation |
| `ConversationStore.ConversationRepository.AppendMessage` | src/nexabot/infrastructure/database/repositories/conversations.py:87-103 | one row is added, or a taken id is refused |
| `ConversationStore.LoadedKnows` | src/nexabot/infrastructure/database/repositories/conversations.py:140-156 | the loaded aggregate knows the stored history, and records its window exactly when the page was full |
| `MessageOrder.LoadIsNewestPage` | src/nexabot/infrastructure/database/repositories/conversations.py:126-138 | descending order, limit and reversal give exactly the last `limit` of the ascending history |
| `MessageOrder.StorageOrderIsIrrelevant` | src/nexabot/infrastructure/database/repositories/conversations.py:112-125 | the history does not depend on the order in which rows are stored |
| `MessageOrder.AppendOrder` | src/nexabot/infrastructure/database/repositories/conversations.py:115-124 | a new row is last in its history exactly when it comes after every earlier row in (instant, id) order |
| `MessageOrder.HistoryIsStorageOrder` | src/nexabot/infrastructure/database/repositories/conversations.py:115-124 | over any rows with unique ids, the history is the storage order exactly when every earlier row of the conversation precedes every later one |
| `MessageOrder.SmallerPageIsSuffix` | src/nexabot/infrastructure/database/repositories/conversations.py:112-138 | a smaller page is the newest part of a larger one |
| `MessageOrder.OtherConversationsDoNotMatter` | src/nexabot/infrastructure/database/repositories/conversations.py:127-132 | rows of other conversations do not move a history |
| `Context.SelectWithinTokenBudget` | src/nexabot/domain/agent/context.py:45-66 | the greedy newest-first loop returns the longest suffix that fits |
| `Context.LongestFitIsLongest` | src/nexabot/domain/agent/context.py:45-66 | that suffix fits, and every longer one does not |
| `Context.NewestMessageSurvives` | src/nexabot/domain/agent/context.py:60-66 | the newest message is kept exactly when it fits alone, and is then last |
| `Context.LargerBudgetExtends` | src/nexabot/domain/agent/context.py:45-66 | a larger budget returns an extension of what a smaller one returned |
| `Context.WindowIsLossless` | src/nexabot/application/agent/use_cases.py:254-259 | a window of at least budget / 5 messages loses nothing, because every message costs at least five tokens |
| `Context.SmallerWindowLoses` | src/nexabot/application/agent/use_cases.py:254-259 | that bound is tight: every smaller window loses part of some legal history |
| `Requests.TurnContextIsAnswered` | src/nexabot/application/agent/use_cases.py:254-269 | the turn's own question of its aggregate is never refused, and is answered from the true history and its input |
| `Requests.BoundedContextIsLossless` | src/nexabot/application/agent/use_cases.py:286-309 | windowed load, append, window and budget together send the system prompt and then the longest fitting suffix of history and input, message for message, cut to the window, and uncut when the window is at least budget / 5 |
| `Requests.BuiltRequestsFit` | src/nexabot/application/agent/use_cases.py:296-316 | every request that is built fits its budget and ends with the input |
| `Requests.RefusedExactlyWhenPromptCrowdsOutInput` | src/nexabot/application/agent/use_cases.py:286-304 | a turn with valid input that was started is refused exactly when system prompt and input together exceed the budget, and always with the same error |
| `Runs.EveryCallSequenceIsSound` | src/nexabot/domain/agent/entities.py:96-172 | over every sequence of calls indexes are 1..n, budgets and the terminal-state constraint hold; with work steps only, at most `max_steps` + 1 steps and any terminal step last |
| `Runs.TerminalRunsAbsorb` | src/nexabot/domain/agent/entities.py:134-157 | no sequence of calls changes a terminal run |
| `Runs.BudgetsNeverStrandARun` | src/nexabot/domain/agent/entities.py:39-46 | a running run can be failed, and finished with a non-blank answer, whatever its budgets |
| `Runs.DisciplineExactly` | src/nexabot/domain/agent/entities.py:104-172 | over every sequence of calls a run ends with its only terminal step exactly when no terminal step was recorded by hand while it was running |
| `Runs.TerminalStepsRecordedByHandEscape` | src/nexabot/domain/agent/entities.py:159-161 | such a step leaves a run that still runs and may end with a second one |
| `Runs.AgentRun.Start` | src/nexabot/domain/agent/entities.py:96-102 | only a pending run is started |
| `Runs.AgentRun.RecordStep` | src/nexabot/domain/agent/entities.py:104-120 | the next value of the run, or a refusal that leaves it alone |
| `Runs.AgentRun.Finish` | src/nexabot/domain/agent/entities.py:122-132 | succeeds exactly on a running run with a non-blank answer |
| `Runs.AgentRun.Fail` | src/nexabot/domain/agent/entities.py:134-147 | succeeds exactly on a run that is not terminal |
| `RunStore.SaveThenGet` | src/nexabot/infrastructure/database/repositories/agent.py:58-82 | when the stored steps are a prefix of the run's, saving and reading back gives the run with all steps in order |
| `RunStore.SaveStores` | src/nexabot/infrastructure/database/repositories/agent.py:69-82 | such a save succeeds, stores exactly the run, and disturbs no other run |
| `RunStore.AddStores` | src/nexabot/infrastructure/database/repositories/agent.py:54-56 | adding a new run stores exactly it and disturbs no other run |
| `RunStore.StoredIsRead` | src/nexabot/infrastructure/database/repositories/agent.py:100-139 | reading back what is stored gives it back, steps in index order |
| `RunStore.ReadElsewhere` | src/nexabot/infrastructure/database/repositories/agent.py:58-98 | writing one run changes what is read of no other |
| `RunStore.AgentRunRepository.Get` | src/nexabot/infrastructure/database/repositories/agent.py:100-139 | the run as stored, or nothing |
| `RunStore.AgentRunRepository.Add` | src/nexabot/infrastructure/database/repositories/agent.py:54-56 | the run's row and steps are inserted, or a conflict is reported |
| `RunStore.AgentRunRepository.Save` | src/nexabot/infrastructure/database/repositories/agent.py:58-82 | the row is updated and exactly the steps above the highest stored index are inserted, or the refusal is reported |
| `RunStore.AgentRunRepository.AppendStep` | src/nexabot/infrastructure/database/repositories/agent.py:84-98 | one step is inserted, or a duplicate or non-positive index is refused |
| `Identity.UserRepository.SyncRoles` | src/nexabot/infrastructure/database/repositories/identity.py:140-148 | succeeds exactly when the given roles have distinct names, and then exactly these roles are written for this user |
| `Identity.UserRepository.GetOrCreateRole` | src/nexabot/infrastructure/database/repositories/identity.py:150-176 | the role's only row, created only for a new name, with its previous permissions and the given ones, and no other role changed |
| `Identity.UserRepository.GetOrCreatePermission` | src/nexabot/infrastructure/database/repositories/identity.py:178-196 | the permission's only row, created only if there was none |
| `Identity.UserRepository.LoadRoles` | src/nexabot/infrastructure/database/repositories/identity.py:116-138 | exactly the user's roles with everything they allow |
| `Identity.SyncedRolesAreRead` | src/nexabot/infrastructure/database/repositories/identity.py:116-148 | saving, then loading, gives exactly the given names, each with its previous permissions united with the given ones |
| `Identity.SyncedLeavesOthers` | src/nexabot/infrastructure/database/repositories/identity.py:140-176 | other users keep exactly their role rows, and no role loses a permission |
| `Identity.SavingALoadedUserChangesNothing` | src/nexabot/infrastructure/database/repositories/identity.py:56-63 | saving a user that was just loaded changes no role, permission or assignment |

## Left out

- SQL sessions, savepoints and driver errors: a unit of work is atomic, a conditional update counts its rows, a unique key refuses a second row; isolation anomalies between the statements of one transaction are not modelled, except that a claim's read, judgement and swap are separate steps.
- A commit that is applied only after its caller was told that it failed: it is applied at that moment or never.
- Cancellation: `except Exception` does not catch it, so it ends a worker as its death does; both are the step `Crash`.
- Instants of one transaction: it reads the clock once, at or before its commit; the failure settlement stamps the run when it commits.
- Waiting for row locks and connections: a worker can always take its next step.
- Progress.LosersFindTheWinner: assumes that a read after a unique-key conflict sees the committed row, which snapshot isolation does not promise.
- Idempotency.IdempotencyRepository.Start: has no concurrent inserter, so the branch for a lost insert race is modelled in the transition system only.
- The language model and its deadline: a call answers, fails or times out at any later instant; a late answer is not cut off by the clock.
- Random UUIDs and their text form: ids and tokens are numbers that were never issued before, ordered as numbers; surrogate ids of steps are left out.
- Titles, metadata and creation instants of conversations, metadata of messages, descriptions of roles: carried along by the source, decided by nothing.
- Unicode normalisation and encodings: text is a sequence of characters, stripped of the characters Python calls space.
- The use cases that append messages by hand, archive, delete, ban and unban: in the protocol users and conversations change arbitrarily between any two steps, but no other writer posts messages, which the conservation law needs.
- Telegram identities and user rows in the identity repository: one row each, written and read as they are.
- HTTP, authentication, settings, logging, redaction, health checks, migrations, queues, blobs and tools: wiring, or interfaces without behaviour.
- The session after a refused repository call: it is rolled back by its unit of work, so its contents are not described.
- TurnTransactions.RunAgentTurn.FinishTurn: when concluding is refused in memory, what the conversation object holds afterwards is not described, because it is discarded.
- Identity.NewId: stands for a random UUID and only promises an unused number.
