/** Shared vocabulary of the three stores: optional and fallible values,
    identifiers, clock instants, opaque JSON bytes, the errors a statement can
    report, and the keyed-table behaviour that stands behind the SQL text. */
module Base {

  datatype Option<+T> = None | Some(value: T)

  datatype Result<+T, +E> = Success(value: T) | Failure(error: E)

  /** A 128-bit UUID, as github.com/google/uuid represents one. */
  newtype Uuid = x: int | 0 <= x < 0x1_0000_0000_0000_0000_0000_0000_0000_0000

  /** uuid.Nil, the zero UUID: the ID of a struct nobody has filled in. */
  const Nil: Uuid := 0

  /** A UUID as uuid.New() produces it: random version-4 bits, so never uuid.Nil.
      The randomness itself is a parameter of every Create operation. */
  type MintedUuid = u: Uuid | u != Nil witness 1

  /** An instant handed out by a store's clock, the stand-in for time.Now(). */
  type Time = nat

  /** A json.RawMessage: the bytes of a JSON document, stored and read back verbatim. */
  type Bytes = seq<bv8>

  /** What the database can report for one statement. */
  datatype DbError =
    | Unavailable      // connection, transport or scan failure
    | UniqueViolation  // INSERT of a key the table already holds

  /** fmt.Errorf("<context>: %w", cause) */
  datatype StoreError = StoreError(context: string, cause: DbError)

  /** A Go pointer to a struct that the callee may overwrite field by field. */
  class Ptr<T> {
    var val: T

    constructor (v: T)
      ensures val == v
    {
      val := v;
    }
  }

  /** The error an INSERT of key `id` reports: none exactly when the database
      is reachable and the key is new. */
  function InsertError<R>(rows: map<Uuid, R>, id: Uuid, dbUp: bool, context: string): (e: Option<StoreError>)
    ensures e.None? <==> dbUp && id !in rows
    ensures e.Some? ==> e.value.context == context
    ensures e.Some? && dbUp ==> e.value.cause == UniqueViolation
  {
    if !dbUp then Some(StoreError(context, Unavailable))
    else if id in rows then Some(StoreError(context, UniqueViolation))
    else None
  }

  /** A SELECT by key followed by Scan: a missing row is an absent result, not
      an error; only an unreachable database is an error. */
  function Lookup<R>(rows: map<Uuid, R>, id: Uuid, dbUp: bool, context: string): (r: Result<Option<R>, StoreError>)
    ensures r.Failure? <==> !dbUp
    ensures r.Failure? ==> r.error == StoreError(context, Unavailable)
    ensures r.Success? ==> (r.value.Some? <==> id in rows)
    ensures r.Success? && id in rows ==> r.value == Some(rows[id])
  {
    if !dbUp then Failure(StoreError(context, Unavailable))
    else if id in rows then Success(Some(rows[id]))
    else Success(None)
  }
}
