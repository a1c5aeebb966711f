/** Shared value types of the shop backend: optional values, partial updates
    (a field that a JSON body may or may not carry), and the error responses
    the route handlers return instead of a success body. */
module Common {

  datatype Option<+T> = None | Some(value: T) {
    /** The value, or `default` when there is none (Python's `dict.get(key, default)`). */
    function GetOr(default: T): T {
      match this
      case Some(v) => v
      case None => default
    }
  }

  /** One field of a partial update: `Keep` when the key is absent from the
      request body, `Set(v)` when it is present with value `v`. */
  datatype Patch<+T> = Keep | Set(value: T)

  /** The value a field holds after a partial update. */
  function Patched<T>(p: Patch<T>, current: T): T {
    match p
    case Keep => current
    case Set(v) => v
  }

  /** The position of a row whose `key` is `id` (the row a `WHERE id = ?`
      query selects), or `None` when no row has that key. */
  function IndexOf<T>(rows: seq<T>, key: T -> nat, id: nat): (r: Option<nat>)
    ensures r.Some? ==> r.value < |rows| && key(rows[r.value]) == id
    ensures r.None? ==> forall i :: 0 <= i < |rows| ==> key(rows[i]) != id
    decreases |rows|
  {
    if rows == [] then None
    else if key(rows[|rows| - 1]) == id then Some(|rows| - 1)
    else IndexOf(rows[..|rows| - 1], key, id)
  }

  /** The error responses of the handlers; `Code` gives the HTTP status. */
  datatype Error =
    | MissingField(field: string)   // "Missing required field: ..."
    | NotFound(entity: string)      // "... not found"
    | InvalidState                  // "Can only ... pending estimates"
    | InvalidValue(field: string)   // a value out of range or malformed
    | NotOwned(entity: string)      // "... does not belong to this estimate"
    | DuplicateName                 // "Insurance company with this name already exists"

  function Code(e: Error): (c: int)
    ensures c == 404 <==> e.NotFound?
    ensures c == 400 || c == 404
  {
    match e
    case NotFound(_) => 404
    case _ => 400
  }

  /** A handler result that carries a value on success. */
  datatype Result<+T> = Ok(value: T) | Err(error: Error)

  /** A handler result with nothing but success or an error. */
  datatype Outcome = Success | Failure(error: Error)
}
