/** Vocabulary shared by the controllers: identifiers, optional request
    fields, the caller's token, handler outcomes and JavaScript truthiness. */
module Common {

  /** A document identifier (a MongoDB ObjectId), kept opaque. */
  type Id = string

  /** A request or document field that may be absent: None stands for
      JavaScript's `undefined`. */
  datatype Option<+T> = None | Some(value: T)

  /** What a handler answers. `Ok` is a success response carrying its body;
      `NotFound` (HTTP 404) and `Rejected` (HTTP 400 or 401) carry the message
      the handler sends; `Internal` is the catch-all HTTP 500 of every
      handler's `catch` block. Status codes and JSON shapes are not modelled. */
  datatype Outcome<+T> = Ok(value: T) | NotFound(message: string) | Rejected(message: string) | Internal

  /** The verified token payload `{ user: { id, role } }`. */
  datatype Token = Token(id: Id, role: Option<string>)

  /** JavaScript truthiness of an optional string: defined and non-empty. */
  predicate TruthyString(v: Option<string>) {
    v.Some? && v.value != ""
  }

  /** JavaScript truthiness of an optional number: defined and not 0. */
  predicate TruthyNumber(v: Option<int>) {
    v.Some? && v.value != 0
  }

  /** JavaScript truthiness of an optional boolean: defined and true. */
  predicate TruthyBool(v: Option<bool>) {
    v == Some(true)
  }

  /** `a || b` on optional strings. */
  function OrString(a: Option<string>, b: Option<string>): (r: Option<string>)
  {
    if TruthyString(a) then a else b
  }

  /** `a || b` on optional numbers. */
  function OrNumber(a: Option<int>, b: Option<int>): (r: Option<int>)
  {
    if TruthyNumber(a) then a else b
  }

  /** `a || b` on optional booleans. */
  function OrBool(a: Option<bool>, b: Option<bool>): (r: Option<bool>)
  {
    if TruthyBool(a) then a else b
  }

  /** `typeof a !== 'undefined' ? a : b`. */
  function IfDefined<T>(a: Option<T>, b: Option<T>): (r: Option<T>)
  {
    if a.Some? then a else b
  }
}
