/** The parts of the storage engine's interface that the link service touches:
    its dynamically-typed value, record ids, per-statement responses, and the
    `execute` entry point, which the model takes as a parameter. */
module Surreal {

  /** Success or failure; the service's `Result` / `anyhow::Result`. */
  datatype Result<+T, +E> = Ok(value: T) | Err(error: E)

  datatype Option<+T> = None | Some(value: T)

  /** A record id such as `link:abc123`: the table and the id inside it. */
  datatype Thing = Thing(tb: string, id: string)

  /** The engine's tagged value. Variants the service never inspects
      (durations, datetimes, geometries, ...) are folded into `Other`. */
  datatype Value =
    | NoneValue
    | Null
    | Bool(b: bool)
    | Number(n: int)
    | Strand(s: string)
    | Array(items: seq<Value>)
    | Object(fields: map<string, Value>)
    | Thing(thing: Thing)
    | Other(kind: string)

  /** A record: a mapping from field name to value. */
  type Object = map<string, Value>

  /** An error raised by the engine while running a statement. */
  datatype DbError = DbError(detail: string)

  /** The service's error type: an engine error passed through `?`, or a
      message built by the decoder itself. */
  datatype Error = Db(cause: DbError) | Anyhow(message: string)

  /** The outcome of one statement of a query. */
  datatype Response = Response(result: Result<Value, DbError>)

  /** A statement and its bound variables, as handed to `execute`. */
  datatype Query = Query(sql: string, vars: Option<map<string, Value>>)

  /** The engine's `execute`: one response per statement of the query. */
  type Engine = Query -> seq<Response>
}
