/**
 * JavaScript's truthiness for the string fields of a request body or a row:
 * an `Option<string>` is `None` when the value is `undefined` or `null`;
 * `JsonField` keeps the two apart where the driver treats them differently.
 */
module Js {
  import opened Wrappers

  /** `!!v` for a string that may be missing: present and non-empty. */
  predicate Truthy(v: Option<string>) {
    v.Some? && v.value != ""
  }

  /** `v || fallback`. */
  function Or(v: Option<string>, fallback: string): (r: string)
    ensures Truthy(v) ==> r == v.value
    ensures !Truthy(v) ==> r == fallback
  {
    if Truthy(v) then v.value else fallback
  }

  /** `v || null`: a falsy value is stored as SQL NULL. */
  function OrNull(v: Option<string>): (r: Option<string>)
    ensures r.Some? <==> Truthy(v)
    ensures r.Some? ==> r == v
  {
    if Truthy(v) then v else None
  }

  /**
   * A field of a parsed JSON body as the handler destructures it: missing
   * (`undefined`), `null`, or a string.
   */
  datatype JsonField = Undefined | Null | Str(s: string)

  /** The field as a value that may be NULL: `undefined` and `null` are equally falsy. */
  function ValueOf(f: JsonField): Option<string> {
    if f.Str? then Some(f.s) else None
  }

  /** mysql2's `execute` accepts `null` as SQL NULL but rejects a parameter that is `undefined`. */
  predicate Bindable(f: JsonField) {
    !f.Undefined?
  }

  /** How a template literal renders a column that may be NULL. */
  function Text(v: Option<string>): string {
    match v
    case Some(s) => s
    case None => "null"
  }
}

/** The JSON responses of the route handlers: a status code and either data or `{ error }`. */
module Http {
  datatype Body<T> = Data(value: T) | Error(error: string)

  datatype Response<T> = Response(status: int, body: Body<T>)
}
