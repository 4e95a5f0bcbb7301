/** JavaScript values as the portal's TypeScript code sees them: JSON-shaped data,
    `null`, and `undefined` for a property that is not there. */
module JsValues {

  datatype Option<+T> = None | Some(value: T)

  /** A JSON-shaped JavaScript value. `undefined` is not a constructor: where a value
      may be missing it has type Option<Json> and `undefined` is None. Numbers are
      integers here (counts, identifiers); NaN and fractions do not arise. */
  datatype Json =
    | JNull
    | JBool(b: bool)
    | JNum(n: int)
    | JStr(s: string)
    | JArr(items: seq<Json>)
    | JObj(fields: map<string, Json>)

  /** JavaScript truthiness: undefined, null, false, 0 and '' are falsy; every object
      and array is truthy. */
  predicate Truthy(v: Option<Json>) {
    match v
    case None => false
    case Some(JNull) => false
    case Some(JBool(b)) => b
    case Some(JNum(n)) => n != 0
    case Some(JStr(s)) => s != ""
    case Some(_) => true
  }

  /** Optional property access `o?.k`: undefined unless `o` is an object with key `k`. */
  function Prop(o: Option<Json>, k: string): Option<Json> {
    if o.Some? && o.value.JObj? && k in o.value.fields then Some(o.value.fields[k]) else None
  }

  /** `a || b`: the left operand when it is truthy, otherwise the right one. */
  function Or(a: Option<Json>, b: Json): Json {
    if Truthy(a) then a.value else b
  }
}
