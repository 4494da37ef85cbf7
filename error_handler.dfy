/**
 * What the API answers when no handler does: the `/api` catch-all fallback for a
 * request no route matched, and the global error handler for an error a
 * route passed on. Errors are classified by their `name`, then by their
 * `code`; anything else keeps its own `status` and `message`.
 */
module ErrorHandler {
  import opened Wrappers

  /** The fields of a thrown error that the handler reads. */
  datatype ServerError = ServerError(
    name: string, code: Option<int>, status: Option<int>, message: Option<string>, stack: Option<string>)

  /** A request that reached the end of the `/api` stack unanswered. */
  datatype Unanswered =
    | NoRoute(path: string, httpMethod: string)
    | Thrown(err: ServerError)

  /** The JSON error reply: `success` is always false; absent fields are omitted. */
  datatype ErrorReply = ErrorReply(
    status: int, error: string, details: Option<string>,
    path: Option<string>, httpMethod: Option<string>, stack: Option<string>)

  const NotFound := "API endpoint not found"
  const ValidationFailed := "Validation error"
  const DuplicateResource := "Duplicate resource"
  const DuplicateDetails := "A resource with this information already exists"
  const InvalidIdFormat := "Invalid ID format"
  const InternalError := "Internal server error"

  /** The error is one of the three kinds the handler names. */
  predicate Classified(err: ServerError) {
    err.name == "ValidationError" || (err.name == "MongoError" && err.code == Some(11000)) || err.name == "CastError"
  }

  /**
   * The reply to an unanswered request. `development` is whether
   * `NODE_ENV` is `development`, the only case in which a stack is sent.
   */
  function Fallback(u: Unanswered, development: bool): (r: ErrorReply)
    ensures u.NoRoute? ==>
      r.status == 404 && r.error == NotFound && r.path == Some(u.path) && r.httpMethod == Some(u.httpMethod)
    ensures u.NoRoute? || Classified(u.err) ==> r.stack.None?
    ensures u.Thrown? && u.err.name == "ValidationError" ==>
      r == ErrorReply(400, ValidationFailed, u.err.message, None, None, None)
    ensures u.Thrown? && u.err.name == "MongoError" && u.err.code == Some(11000) ==>
      r == ErrorReply(409, DuplicateResource, Some(DuplicateDetails), None, None, None)
    ensures u.Thrown? && u.err.name == "CastError" ==> r == ErrorReply(400, InvalidIdFormat, None, None, None, None)
    ensures u.Thrown? && !Classified(u.err) ==>
      && r.status == (if u.err.status.None? || u.err.status.value == 0 then 500 else u.err.status.value)
      && r.error == (if u.err.message.None? || u.err.message.value == "" then InternalError else u.err.message.value)
      && r.details.None? && r.path.None? && r.httpMethod.None?
      && r.stack == (if development then u.err.stack else None)
  {
    match u
    case NoRoute(path, httpMethod) => ErrorReply(404, NotFound, None, Some(path), Some(httpMethod), None)
    case Thrown(err) =>
      if err.name == "ValidationError" then ErrorReply(400, ValidationFailed, err.message, None, None, None)
      else if err.name == "MongoError" && err.code == Some(11000) then
        ErrorReply(409, DuplicateResource, Some(DuplicateDetails), None, None, None)
      else if err.name == "CastError" then ErrorReply(400, InvalidIdFormat, None, None, None, None)
      else
        var status := if err.status.Some? && err.status.value != 0 then err.status.value else 500;
        var message := if err.message.Some? && err.message.value != "" then err.message.value else InternalError;
        ErrorReply(status, message, None, None, None, if development then err.stack else None)
  }

  /** A stack trace leaves the server only in development. */
  lemma StackOnlyInDevelopment(u: Unanswered)
    ensures Fallback(u, false).stack.None?
  {
  }

  /** For the three named kinds, the error's own status and message are ignored. */
  lemma ClassifiedIgnoresOwnStatus(err: ServerError, status: Option<int>, message: Option<string>, development: bool)
    requires Classified(err) && err.name != "ValidationError"
    ensures Fallback(Thrown(err.(status := status, message := message)), development) == Fallback(Thrown(err), development)
  {
  }

  /** Every reply is an error status whenever the error brings none, or brings an error status of its own. */
  lemma RepliesAreErrors(u: Unanswered, development: bool)
    requires u.Thrown? ==> u.err.status.None? || u.err.status.value == 0 || 400 <= u.err.status.value <= 599
    ensures 400 <= Fallback(u, development).status <= 599
  {
  }
}
