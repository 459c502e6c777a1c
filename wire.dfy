/**
 * Values that cross the boundary between the HTTP handlers and the stores:
 * request-body keys that may be missing, nullable record fields, and the
 * outcome of a handler (its status code, as a datatype).
 */
module Wire {

  /** A nullable record field (`string | null` in the source's record types). */
  datatype Option<+T> = None | Some(value: T)

  /**
   * One key of a JSON request body: `Absent` is JavaScript's `undefined`
   * (the key was not sent), `Given(v)` is a key that was sent with value `v`.
   */
  datatype Field<+T> = Absent | Given(value: T) {

    /** The sent value, or `current` when the key was not sent (`x !== undefined ? x : current`). */
    function Or(current: T): (r: T)
      ensures this.Absent? ==> r == current
      ensures this.Given? ==> r == this.value
    {
      match this
      case Absent => current
      case Given(v) => v
    }
  }

  /** Instants are opaque: the handlers stamp whatever `now` they are given. */
  type Timestamp = string

  /**
   * JavaScript truthiness of a string-valued body key: `undefined` and the
   * empty string are falsy, every other string is truthy.
   */
  predicate Truthy(f: Field<string>): (b: bool)
    ensures !b <==> f == Absent || f == Given("")
  {
    f.Given? && f.value != ""
  }

  /** `x ?? null` for an optional, nullable body key. */
  function OrNull(f: Field<Option<string>>): (r: Option<string>)
    ensures f.Absent? ==> r == None
    ensures f.Given? ==> r == f.value
  {
    match f
    case Absent => None
    case Given(v) => v
  }

  /**
   * What a handler answers. `Ok` carries the record of a 200/201 response;
   * the other cases are the 400, 404, 409 and 401 responses.
   */
  datatype Reply<+T> = Ok(value: T) | BadRequest | NotFound | Conflict | Unauthorized
}
