/**
 * The loosely typed report record the forms build and the PDF generators read: a JavaScript
 * object whose fields hold strings (text inputs, image data URLs), booleans (PPE check boxes)
 * or `null`; a key that was never set reads as `undefined`, modelled as `Null`.
 */
module FormData {

  datatype Value = Str(s: string) | Flag(b: bool) | Null

  type Record = map<string, Value>

  /** `data[k]`, with an absent key read as `undefined`. */
  function Get(data: Record, k: string): Value {
    if k in data then data[k] else Null
  }

  /** JavaScript truthiness of a field value: non-empty strings and `true`. */
  predicate Truthy(v: Value) {
    match v
    case Str(s) => s != ""
    case Flag(b) => b
    case Null => false
  }

  /** The string a truthy value converts to. */
  function Show(v: Value): string {
    match v
    case Str(s) => s
    case Flag(b) => if b then "true" else "false"
    case Null => "null"
  }

  /** `v || fallback` where the result is used as text: the value when truthy, otherwise the fallback. */
  function OrElse(v: Value, fallback: string): (r: string)
    ensures Truthy(v) ==> r == Show(v) && r != ""
    ensures !Truthy(v) ==> r == fallback
  {
    if Truthy(v) then Show(v) else fallback
  }

  /** `a || b || fallback`: the first truthy of two values, otherwise the fallback. */
  function FirstOf(a: Value, b: Value, fallback: string): (r: string)
    ensures Truthy(a) ==> r == Show(a)
    ensures !Truthy(a) && Truthy(b) ==> r == Show(b)
    ensures !Truthy(a) && !Truthy(b) ==> r == fallback
  {
    if Truthy(a) then Show(a) else OrElse(b, fallback)
  }

  /** The field `k` as text, or `fallback` when it is falsy: `data.k || fallback`. */
  function Field(data: Record, k: string, fallback: string): string {
    OrElse(Get(data, k), fallback)
  }
}
