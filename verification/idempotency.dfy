/** src/nexabot/infrastructure/database/repositories/idempotency.py: one row per key, claimed
    by insert or by compare-and-swap, settled by the holder of the current token.

    Each SQL statement is atomic; the functions say what one statement does to the table. */
module Idempotency {
  import opened Common
  import opened Tables

  const CLAIM_LOST := Error("idempotency_claim_lost", "This attempt no longer owns the idempotency claim.")
  const RECORD_NOT_FOUND := Error("idempotency_record_not_found", "Idempotency record not found.")

  const DEFAULT_CLAIM_TTL_SECONDS := 300

  /** INSERT of a fresh claim.  The caller must know that the key is free: the statement fails
      on a taken key. */
  function InsertClaim(records: Records, key: RecordKey, id: Id, stamp: Instant, token: Id): Records
    requires key !in records
  {
    records[key := Record(id, ClaimStarted, map[], stamp, token)]
  }

  predicate Expired(row: Record, judgedAt: Instant, ttlSeconds: int) {
    judgedAt - row.claimedAt >= ttlSeconds * SECOND
  }

  /** WHERE clause of the takeover: the row is still the one observed, and still unsettled. */
  predicate Unchanged(records: Records, key: RecordKey, observed: Record) {
    && key in records
    && records[key].id == observed.id
    && records[key].state == ClaimStarted
    && records[key].token == observed.token
  }

  function TakeOver(records: Records, key: RecordKey, stamp: Instant, token: Id): Records
    requires key in records
  {
    records[key := records[key].(claimedAt := stamp, token := token)]
  }

  /** WHERE clause of a settlement. */
  predicate Holds(records: Records, key: RecordKey, token: Id) {
    && key in records
    && records[key].state == ClaimStarted
    && records[key].token == token
  }

  function Settle(
    records: Records, key: RecordKey, token: Id, state: RecordState, result: JsonObject): Result<Records>
  {
    if Holds(records, key, token) then Ok(records[key := records[key].(state := state, result := result)])
    else if key !in records then Err(RECORD_NOT_FOUND)
    else Err(CLAIM_LOST)
  }

  function CompleteClaim(records: Records, key: RecordKey, token: Id, result: JsonObject): Result<Records> {
    Settle(records, key, token, ClaimCompleted, result)
  }

  function FailClaim(records: Records, key: RecordKey, token: Id, reason: string): Result<Records> {
    Settle(records, key, token, ClaimFailed, map["reason" := Text(reason)])
  }

  /** What `start` tells its caller. */
  datatype ClaimReport = ClaimReport(state: RecordState, result: JsonObject, owned: bool, token: Option<Id>)

  class IdempotencyRepository {
    const session: Session

    constructor (session: Session)
      ensures this.session == session
    {
      this.session := session;
    }

    /** Without interference: the caller owns the claim exactly when the key was free or its
        claim had expired unsettled, and then the row carries the caller's own token. */
    method Start(key: RecordKey, ttlSeconds: int, judgedAt: Instant, stamp: Instant, id: Id, token: Id)
      returns (r: ClaimReport)
      modifies session
      ensures
        var before := old(session.tables).records;
        && (r.owned <==>
              key !in before || (before[key].state.ClaimStarted? && Expired(before[key], judgedAt, ttlSeconds)))
        && r.token == (if r.owned then Some(token) else None)
        && r.state == (if key in before then before[key].state else ClaimStarted)
        && (key in before ==> r.result == before[key].result)
        && (r.owned ==> Holds(session.tables.records, key, token) && session.tables.records[key].claimedAt == stamp)
        && (!r.owned ==> session.tables == old(session.tables))
        && session.tables == old(session.tables).(records := session.tables.records)
        && session.tables.records == (if !r.owned then before
                                      else if key in before then TakeOver(before, key, stamp, token)
                                      else InsertClaim(before, key, id, stamp, token))
        && (r.owned ==>
              session.tables.records
              == before[key := if key !in before then Record(id, ClaimStarted, map[], stamp, token)
                               else Record(before[key].id, ClaimStarted, before[key].result, stamp, token)])
        && (key !in before ==> r.result == map[])
    {
      if key in session.tables.records {
        r := ClaimExisting(key, session.tables.records[key], ttlSeconds, judgedAt, stamp, token);
        return;
      }
      session.tables := session.tables.(records := InsertClaim(session.tables.records, key, id, stamp, token));
      r := ClaimReport(ClaimStarted, map[], true, Some(token));
    }

    /** `row` is what an earlier read saw; the table may have moved on since. */
    method ClaimExisting(
      key: RecordKey, row: Record, ttlSeconds: int, judgedAt: Instant, stamp: Instant, token: Id)
      returns (r: ClaimReport)
      modifies session
      ensures
        var before := old(session.tables).records;
        var owned := row.state.ClaimStarted? && Expired(row, judgedAt, ttlSeconds) && Unchanged(before, key, row);
        && r == ClaimReport(row.state, row.result, owned, if owned then Some(token) else None)
        && session.tables == (if owned then old(session.tables).(records := TakeOver(before, key, stamp, token))
                              else old(session.tables))
    {
      var taken: Option<Id> := None;
      if row.state == ClaimStarted {
        taken := ReclaimIfExpired(key, row, ttlSeconds, judgedAt, stamp, token);
      }
      r := ClaimReport(row.state, row.result, taken.Some?, taken);
    }

    method ReclaimIfExpired(
      key: RecordKey, row: Record, ttlSeconds: int, judgedAt: Instant, stamp: Instant, token: Id)
      returns (r: Option<Id>)
      modifies session
      ensures
        var before := old(session.tables).records;
        var won := Expired(row, judgedAt, ttlSeconds) && Unchanged(before, key, row);
        && r == (if won then Some(token) else None)
        && session.tables == (if won then old(session.tables).(records := TakeOver(before, key, stamp, token))
                              else old(session.tables))
        && (won <==> judgedAt - row.claimedAt >= ttlSeconds * 1_000_000 && key in before && before[key].id == row.id
                     && before[key].state.ClaimStarted? && before[key].token == row.token)
        && (won ==> session.tables.records[key] == before[key].(claimedAt := stamp, token := token))
    {
      if judgedAt - row.claimedAt < ttlSeconds * SECOND {
        return None;
      }
      var rowcount := 0;
      if Unchanged(session.tables.records, key, row) {
        session.tables := session.tables.(records := TakeOver(session.tables.records, key, stamp, token));
        rowcount := 1;
      }
      if rowcount != 1 {
        return None;
      }
      return Some(token);
    }

    method Complete(key: RecordKey, token: Id, result: JsonObject) returns (r: Result<()>)
      modifies session
      ensures
        var settled := CompleteClaim(old(session.tables).records, key, token, result);
        if settled.Err? then r == Err(settled.error) && session.tables == old(session.tables)
        else r.Ok? && session.tables == old(session.tables).(records := settled.value)
      ensures r.Ok? ==>
                key in session.tables.records && session.tables.records[key].state == ClaimCompleted
                && session.tables.records[key].result == result
    {
      r := SettleRow(key, token, ClaimCompleted, result);
    }

    method Fail(key: RecordKey, token: Id, reason: string) returns (r: Result<()>)
      modifies session
      ensures
        var settled := FailClaim(old(session.tables).records, key, token, reason);
        if settled.Err? then r == Err(settled.error) && session.tables == old(session.tables)
        else r.Ok? && session.tables == old(session.tables).(records := settled.value)
      ensures r.Ok? ==>
                key in session.tables.records && session.tables.records[key].state == ClaimFailed
                && session.tables.records[key].result == map["reason" := Text(reason)]
    {
      r := SettleRow(key, token, ClaimFailed, map["reason" := Text(reason)]);
    }

    method SettleRow(key: RecordKey, token: Id, state: RecordState, result: JsonObject) returns (r: Result<()>)
      modifies session
      ensures r.Ok? <==> Holds(old(session.tables).records, key, token)
      ensures r.Ok? ==> session.tables == old(session.tables).(
                          records := Settle(old(session.tables).records, key, token, state, result).value)
      ensures r.Err? ==> session.tables == old(session.tables)
                         && r.error == Settle(old(session.tables).records, key, token, state, result).error
      ensures
        var before := old(session.tables).records;
        if key in before && before[key].state == ClaimStarted && before[key].token == token then
          r.Ok? && session.tables.records
                   == before[key := Record(before[key].id, state, result, before[key].claimedAt, token)]
        else r == Err(if key in before then CLAIM_LOST else RECORD_NOT_FOUND)
    {
      var rowcount := 0;
      var records := session.tables.records;
      if Holds(records, key, token) {
        session.tables := session.tables.(records := records[key := records[key].(state := state, result := result)]);
        rowcount := 1;
      }
      if rowcount == 1 {
        return Ok(());
      }
      if key !in session.tables.records {
        return Err(RECORD_NOT_FOUND);
      }
      return Err(CLAIM_LOST);
    }
  }
}
