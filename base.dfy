/** Values shared by every module of the model: an optional value and the
    shape of an HTTP reply that a request handler sends. */
module Base {

  /** An optional value; `None` stands for a JavaScript `undefined` or `null`. */
  datatype Option<+T> = None | Some(value: T) {
    function GetOr(default: T): T {
      match this
      case Some(v) => v
      case None => default
    }
  }

  /** A key that may be absent, null or a value, read as a nullable value:
      an absent key and a null one both give `None`. */
  function Flatten<T>(o: Option<Option<T>>): (r: Option<T>)
    ensures r.Some? <==> o.Some? && o.value.Some?
    ensures r.Some? ==> r.value == o.value.value
  {
    if o.Some? then o.value else None
  }

  /** The user id a session carries, when it is truthy: a missing id and the
      id 0 are both read as no session. */
  function SessionUser(session: Option<int>): (r: Option<int>)
    ensures r.Some? <==> session.Some? && session.value != 0
    ensures r.Some? ==> r.value == session.value
  {
    if session.Some? && session.value != 0 then session else None
  }

  /** The status codes the request handlers send. */
  datatype Status = Ok | Created | BadRequest | Unauthorized | Forbidden | NotFound | ServerError {
    function Code(): nat {
      match this
      case Ok => 200
      case Created => 201
      case BadRequest => 400
      case Unauthorized => 401
      case Forbidden => 403
      case NotFound => 404
      case ServerError => 500
    }
  }

  /** A reply body: either the JSON document a handler returns or a JSON
      object whose only interesting field is `message`. */
  datatype Payload<+T> = Body(value: T) | Message(text: string)

  datatype Reply<+T> = Reply(status: Status, payload: Payload<T>)

  /** Messages the handlers repeat verbatim. */
  const UNAUTHORIZED := "Unauthorized"
  const BUSINESS_NOT_FOUND := "Business not found"
  const INTERNAL_ERROR := "Internal server error"
  const VALIDATION_ERROR := "Validation error"

  /** A refusal: an error status and its message. */
  function Fail<T>(status: Status, text: string): Reply<T> {
    Reply(status, Message(text))
  }

  /** A success that only carries a message. It builds the same reply as
      `Fail`; the two names only say which outcome the handler means. */
  function Notice<T>(status: Status, text: string): Reply<T> {
    Reply(status, Message(text))
  }
}
