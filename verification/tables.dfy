/** The rows a turn reads and writes (src/nexabot/infrastructure/database/models.py), and the
    transaction boundary over them (src/nexabot/infrastructure/database/unit_of_work.py). */
module Tables {
  import opened Common
  import Conversations
  import Runs

  datatype UserStatus = UserActive | UserBanned | UserDisabled

  datatype UserRow = UserRow(id: Id, status: UserStatus)

  datatype ConversationRow = ConversationRow(owner: Id, status: Conversations.ConversationStatus, updatedAt: Instant)

  datatype RunRow = RunRow(
    user: Id,
    conversation: Id,
    provider: string,
    model: string,
    limits: Runs.AgentLimits,
    status: Runs.RunStatus,
    startedAt: Option<Instant>,
    finishedAt: Option<Instant>,
    failureReason: Option<string>,
    finalResponse: Option<string>,
    usage: JsonObject)

  /** `uq_agent_steps_run_index` makes the pair a key. */
  datatype StepKey = StepKey(run: Id, index: int)

  datatype StepRow = StepRow(kind: Runs.StepType, metadata: JsonObject, createdAt: Instant)

  datatype RunTables = RunTables(rows: map<Id, RunRow>, steps: map<StepKey, StepRow>)

  datatype RecordState = ClaimStarted | ClaimCompleted | ClaimFailed

  /** `uq_idempotency_namespace_key` makes the pair a key. */
  datatype RecordKey = RecordKey(namespace: string, key: string)

  datatype Record = Record(id: Id, state: RecordState, result: JsonObject, claimedAt: Instant, token: Id)

  type Records = map<RecordKey, Record>

  /** The database.  `users` is `telegram_identities` joined with `users`. */
  datatype Tables = Tables(
    users: map<int, UserRow>,
    conversations: map<Id, ConversationRow>,
    messages: seq<Conversations.Message>,
    runs: RunTables,
    records: Records)

  /** How a commit ends: applied, applied although its caller is told it failed, or not
      applied (and its caller is told so). */
  datatype Fate = Applied | Reported | Lost

  class Database {
    var tables: Tables

    constructor (t: Tables)
      ensures tables == t
    {
      tables := t;
    }
  }

  /** An open transaction's view of the tables. */
  class Session {
    var tables: Tables

    constructor (t: Tables)
      ensures tables == t
    {
      tables := t;
    }
  }

  /** Entering opens a session; leaving commits it unless the block raised. */
  class UnitOfWork {
    const database: Database
    var session: Session?

    constructor (database: Database)
      ensures this.database == database && session == null
    {
      this.database := database;
      session := null;
    }

    method Enter() returns (started: Session)
      modifies this`session
      ensures fresh(started) && session == started
      ensures started.tables == database.tables
    {
      started := new Session(database.tables);
      session := started;
    }

    /** All of the session's changes reach the database, or none of them do; a rollback that
        fails never replaces the error that caused it. */
    method Exit(raised: Option<Error>, fate: Fate) returns (r: Result<()>)
      modifies this`session, database
      ensures session == null
      ensures database.tables ==
              if old(session) != null && raised.None? && fate != Lost then old(session).tables else old(database.tables)
      ensures old(session) != null && raised.Some? ==> r == Err(raised.value)
      ensures old(session) != null && raised.None? ==>
                r == if fate == Applied then Ok(()) else Err(DATABASE_UNAVAILABLE)
    {
      if session == null {
        return Ok(());
      }
      if raised.None? {
        if fate != Lost {
          database.tables := session.tables;
        }
        r := if fate == Applied then Ok(()) else Err(DATABASE_UNAVAILABLE);
      } else {
        r := Err(raised.value);
      }
      session := null;
    }
  }
}
