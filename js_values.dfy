/** The JavaScript values the sync script handles, in the narrow form the
    script uses them: optional strings read from JSON or from remote pages,
    the arguments handed to the property mapper, string truthiness and
    `String.prototype.slice(0, n)`. */
module JsValues {

  /** A field that is either set to a string or absent (`null` or `undefined`). */
  datatype Option<+T> = None | Some(value: T)

  /** A JSON value as the script hands it to the property mapper: left out
      (`undefined`), `null`, a string, or a boolean. */
  datatype Arg = Missing | Null | Text(s: string) | Flag(b: bool)

  /** JavaScript truthiness of an optional string field: set and non-empty. */
  predicate Truthy(o: Option<string>)
  {
    o.Some? && o.value != ""
  }

  /** The mapper argument for an optional string field that the builder only
      passes on when it is set: an unset field is passed as `undefined`. */
  function ArgOf(o: Option<string>): (a: Arg)
    ensures !a.Flag? && !a.Null?
    ensures a.Missing? <==> o.None?
    ensures o.Some? ==> a == Text(o.value)
  {
    match o
    case None => Missing
    case Some(s) => Text(s)
  }

  /** `s.slice(0, n)` for a non-negative `n`: the longest prefix of `s` that
      is at most `n` characters long. */
  function Slice(s: string, n: nat): (r: string)
    ensures r <= s
    ensures |r| == if |s| < n then |s| else n
  {
    if |s| <= n then s else s[..n]
  }
}
