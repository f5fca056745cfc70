/** Vocabulary shared by every module: optional values, results, the error
    taxonomy, identifiers, and the JSON values the database stores. */
module Common {

  datatype Option<+T> = None | Some(value: T)

  datatype Result<+T> = Ok(value: T) | Err(error: Error)

  /** A domain error: its stable code and its curated, user-facing message. */
  datatype Error = Error(code: string, message: string)

  /** UUIDs and claim tokens.  Canonical UUID texts compare like the numbers they spell,
      so a number carries the same order as the stored text. */
  type Id = nat

  /** Microseconds, the resolution of a Python `datetime`. */
  type Instant = int

  const SECOND: int := 1_000_000

  /** JSON as stored in a JSON column.  `Uuid(id)` is the canonical text of an id. */
  datatype Json = Text(text: string) | Uuid(id: Id) | Number(number: int) | Object(fields: map<string, Json>)

  type JsonObject = map<string, Json>

  const DATABASE_UNAVAILABLE := Error("database_unavailable", "The database is currently unavailable.")
  const DATABASE_CONFLICT := Error("database_conflict", "The requested change conflicts with existing data.")

  ghost function Pick<T>(s: set<T>): (x: T)
    requires s != {}
    ensures x in s
  {
    var x :| x in s; x
  }

  function Last<T>(s: seq<T>, n: nat): (r: seq<T>)
    ensures |r| == if n < |s| then n else |s|
  {
    if n < |s| then s[|s| - n..] else s
  }

  /** Taking fewer of the newest elements of a window is taking them of the whole. */
  lemma LastOfLast<T>(s: seq<T>, outer: nat, inner: nat)
    requires inner <= outer
    ensures Last(Last(s, outer), inner) == Last(s, inner)
  {
  }

  lemma LastOfAppend<T>(s: seq<T>, x: T, n: nat)
    ensures Last(s + [x], n + 1) == Last(s, n) + [x]
  {
  }
}
