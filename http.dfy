/**
 * What every Express handler of the API produces: a status code and a JSON
 * body that is either `{ success: true, data, message? }` or
 * `{ success: false, error }`, and the `parseInt` reading of query values.
 */
module Http {
  import opened Wrappers
  import opened Schema
  import Text

  datatype Reply<T> =
    | Success(status: int, data: T, message: Option<string>)
    | Failure(status: int, error: string)

  /** `parseInt(req.query.x as string)`: a missing value reads as NaN. */
  function QueryInt(x: Option<string>): (r: Option<int>)
    ensures x.None? ==> r.None?
  {
    if x.Some? then Text.ParseInt(x.value) else None
  }

  /** A query value that is a printed integer is read as that integer. */
  lemma QueryIntPrinted(i: int)
    ensures QueryInt(Some(Text.IntToString(i))) == Some(i)
  {
    Text.ParseIntRoundTrip(i);
  }

  /** `!x` on a string that may be missing: missing or empty. */
  predicate Falsy(x: Option<string>) {
    x.None? || x.value == ""
  }

  /** `!x || x.trim().length === 0`: missing, or nothing but white space. */
  predicate Blank(x: Option<string>) {
    x.None? || Text.Trim(x.value) == ""
  }

  /** JavaScript truthiness of a JSON body field; a missing field is `undefined`. */
  predicate Present(b: Body, key: string) {
    key in b &&
    match b[key]
    case JString(s) => s != ""
    case JNumber(n) => n != 0
    case JBool(flag) => flag
    case JNull => false
    case JComposite => true
  }
}
