/**
 * Shared vocabulary of the backend model: identifiers, clock readings,
 * stored documents, HTTP-style responses and JavaScript truthiness.
 */
module Common {

  /** A document identifier as the client sends it (an ObjectId's string form). */
  type Id = string

  /** A clock reading in milliseconds. */
  type Time = int

  datatype Option<+T> = None | Some(value: T)

  /** A stored document: its `_id` and the fields of its schema. */
  datatype Doc<T> = Doc(id: Id, body: T)

  /**
   * What a route handler sends back: a success status with a body, an error
   * status with a message, or the 403 "Your account has been banned" answer
   * carrying the ban reason.
   */
  datatype Response<T> = Ok(status: int, body: T) | Err(status: int, msg: string) | Banned(banReason: string)
  {
    function Code(): int
    {
      match this
      case Ok(s, _) => s
      case Err(s, _) => s
      case Banned(_) => 403
    }
  }

  const ServerError := "Server Error"

  /** The consoles of the Player schema's `console` enum (the User schema adds ""). */
  const Consoles: seq<string> :=
    ["PlayStation 5", "Xbox Series X", "Xbox Series S", "PC", "PlayStation 4", "Xbox One"]

  /** The time zones of the Player schema's `timezone` enum (the User schema adds ""). */
  const Timezones: seq<string> :=
    ["EST", "CST", "MST", "PST", "GMT", "CET", "JST", "AEST", "UTC", "BRT", "ART"]

  /** The image path both schemas use when no picture is given. */
  const Placeholder := "/placeholder.svg?height=100&width=100"

  /** JavaScript truthiness of an optional string: `undefined` and `""` are falsy. */
  predicate Truthy(s: Option<string>)
  {
    s.Some? && s.value != ""
  }

  /** The value of `o` when present, `default` otherwise. */
  function Or<T>(o: Option<T>, default: T): T
  {
    if o.Some? then o.value else default
  }
}
