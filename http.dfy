/** What a route handler does, seen from outside: the statements it sends to the
    database, in order, and the reply it sends. */
module Http {
  import opened Js

  /** `res.status(status).json({ error: message })` */
  datatype Failure = Failure(status: nat, message: string)

  /** The reply of every handler's `catch` block. */
  const ServerError := Failure(500, "Erreur serveur")

  /** A `{ success: true, ... }` reply (its rows come from the database and are not
      modelled), or an error reply. */
  datatype Reply = Succeeded | Failed(failure: Failure)

  /** A write statement with its parameters: `INSERT INTO table (...) VALUES ($1, ...)`
      with `values`; the same with a status column holding the SQL literal `'status'`;
      `UPDATE table SET status = 'status', ... WHERE ...` with `values`;
      `UPDATE table SET column = value, ... WHERE id = ...` with its column assignments
      in order, each value a parameter or a literal (a trailing
      `updated_at = CURRENT_TIMESTAMP` is left implicit); or `DELETE FROM table WHERE id = $1`
      with `id`. */
  datatype Write =
    | Insert(table: string, values: seq<Value>)
    | InsertWithStatus(table: string, status: string, values: seq<Value>)
    | SetStatus(table: string, status: string, values: seq<Value>)
    | Update(table: string, assignments: seq<(string, Value)>, id: Value)
    | Delete(table: string, id: Value)

  /** The writes a handler performs before it replies, and the reply. */
  datatype Outcome = Outcome(writes: seq<Write>, reply: Reply)

  /** An early error reply: nothing is written. */
  function Reject(f: Failure): (o: Outcome)
    ensures o.writes == [] && o.reply == Failed(f)
  {
    Outcome([], Failed(f))
  }
}
