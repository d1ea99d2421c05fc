/**
 * The two kinds of "missing" the front end deals with: a SQL column that may
 * be NULL (as a fetched row carries it), and a JavaScript value that may be
 * `undefined`, `null` or present (as records and form values carry it).
 */
module JsValues {

  /** A nullable database column: `T | null` in the generated schema. */
  datatype Option<+T> = None | Some(value: T)

  /** A JavaScript value of type `T | null | undefined`. */
  datatype Nullable<+T> = Undefined | Null | Val(value: T)

  /** A column value once it is read into a JavaScript object: NULL becomes `null`. */
  function FromColumn<T>(o: Option<T>): (r: Nullable<T>)
    ensures r.Undefined? == false
    ensures r.Val? <==> o.Some?
    ensures o.Some? ==> r.value == o.value
  {
    match o
    case None => Null
    case Some(v) => Val(v)
  }

  /** JavaScript truthiness of a possibly missing string: `undefined`, `null` and "" are falsy. */
  predicate TruthyString(v: Nullable<string>) {
    v.Val? && v.value != ""
  }

  /** JavaScript truthiness of a possibly missing boolean. */
  predicate TruthyBool(v: Nullable<bool>) {
    v == Val(true)
  }

  /** `v || fallback` for a possibly missing string. */
  function StringOr(v: Nullable<string>, fallback: string): (r: string)
    ensures TruthyString(v) ==> r == v.value
    ensures !TruthyString(v) ==> r == fallback
    ensures r == fallback || (v.Val? && r == v.value)
  {
    if TruthyString(v) then v.value else fallback
  }

  /** `v || undefined` for a possibly missing string: "" and `null` both become `undefined`. */
  function StringOrUndefined(v: Nullable<string>): (r: Nullable<string>)
    ensures r.Null? == false
    ensures r.Val? <==> TruthyString(v)
    ensures r.Val? ==> r == v
  {
    if TruthyString(v) then v else Undefined
  }
}
