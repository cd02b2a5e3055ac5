/**
 * The SQLite side of adas.py, seen only through its outcomes: the driver
 * either returns the fetched rows or raises a DatabaseError carrying a
 * message. check_db classifies the probe's outcome; submit_query keeps the
 * second element of every fetched row.
 */
module Database {
  import opened Wrappers

  /** What the driver gives back for one statement. */
  datatype DbReply = Rows(rows: seq<seq<string>>) | DbError(message: string)

  /** An open connection, as the reply it gives to each SQL string. */
  type Connection = string -> DbReply

  /** `adas_tables`. */
  const AdasTable: string := "adas_events"

  /** The sanity probe check_db executes. */
  const ProbeSql: string := "SELECT 1 FROM " + AdasTable + " LIMIT 1"

  /** The prefix of the driver's message for a missing table. */
  const NoSuchTable: string := "no such table"

  /** The message of the IndexError that `x[1]` raises on a one-column row. */
  const IndexErrorMessage: string := "tuple index out of range"

  /** `db_status_code`: 0 usable, 1 table missing, 2 not a database. */
  function StatusCode(reply: DbReply): (code: nat)
    ensures code <= 2
    ensures code == 0 <==> reply.Rows?
  {
    match reply
    case Rows(_) => 0
    case DbError(m) => if NoSuchTable <= m then 1 else 2
  }

  /** Status 1 exactly for an error whose message begins with "no such table", 2 for every other error. */
  lemma StatusCodeClassifies(reply: DbReply)
    ensures StatusCode(reply) == 1 <==>
      reply.DbError? && exists rest: string :: reply.message == NoSuchTable + rest
    ensures StatusCode(reply) == 2 <==>
      reply.DbError? && !exists rest: string :: reply.message == NoSuchTable + rest
  {
    if reply.DbError? {
      var m := reply.message;
      if NoSuchTable <= m {
        assert m == NoSuchTable + m[|NoSuchTable|..];
      } else {
        forall rest: string ensures m != NoSuchTable + rest {
          assert (NoSuchTable + rest)[..|NoSuchTable|] == NoSuchTable;
        }
      }
    }
  }

  /** A file without the table and a file that is not a database get different codes. */
  lemma StatusCodeExamples()
    ensures StatusCode(DbError("no such table: adas_events")) == 1
    ensures StatusCode(DbError("file is not a database")) == 2
    ensures StatusCode(Rows([["1"]])) == 0
  {
    var missing := "no such table: adas_events";
    assert missing == NoSuchTable + ": adas_events";
    StatusCodeClassifies(DbError(missing));
    var notDb := "file is not a database";
    assert notDb[0] != NoSuchTable[0];
  }

  /** `[x[1] for x in rows]`, or None when some row is too short and `x[1]` raises. */
  function LogNames(rows: seq<seq<string>>): (r: Option<seq<string>>)
    ensures r.Some? <==> forall i | 0 <= i < |rows| :: |rows[i]| >= 2
    ensures r.Some? ==> |r.value| == |rows|
    ensures r.Some? ==> forall i | 0 <= i < |rows| :: r.value[i] == rows[i][1]
  {
    if rows == [] then Some([])
    else if |rows[0]| < 2 then None
    else match LogNames(rows[1..])
      case None => None
      case Some(rest) => Some([rows[0][1]] + rest)
  }

  /** The outcome of running a search: the log names, or the message of the exception raised. */
  function Search(reply: DbReply): (r: Result<seq<string>, string>)
    ensures r.Success? <==> reply.Rows? && forall i | 0 <= i < |reply.rows| :: |reply.rows[i]| >= 2
    ensures r.Success? ==> |r.value| == |reply.rows|
    ensures r.Success? ==> forall i | 0 <= i < |reply.rows| :: r.value[i] == reply.rows[i][1]
    ensures reply.DbError? ==> r == Failure(reply.message)
  {
    match reply
    case DbError(m) => Failure(m)
    case Rows(rows) =>
      match LogNames(rows)
      case None => Failure(IndexErrorMessage)
      case Some(names) => Success(names)
  }
}
