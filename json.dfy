/** The JSON values that request bodies, stored rows and responses are made
    of, with JavaScript's truthiness and the object idioms the handlers use:
    `o.k || d`, `o.k !== undefined ? o.k : d`, and `const { k, ...rest } = o`.
    A key that is absent from an object stands for `undefined`. */
module Json {
  import opened Wrappers

  datatype Json =
    | Null
    | Bool(b: bool)
    | Num(n: int)
    | Str(s: string)
    | Arr(items: seq<Json>)
    | Obj(fields: map<string, Json>)

  type Object = map<string, Json>

  /** JavaScript truthiness (numbers are integers here, so NaN does not arise). */
  predicate Truthy(v: Json) {
    match v
    case Null => false
    case Bool(b) => b
    case Num(n) => n != 0
    case Str(s) => s != ""
    case Arr(_) => true
    case Obj(_) => true
  }

  /** `o.k` is truthy; an absent key is `undefined`, which is falsy. */
  predicate Has(o: Object, k: string) {
    k in o && Truthy(o[k])
  }

  /** `o.k || d` */
  function OrElse(o: Object, k: string, d: Json): (v: Json)
    ensures Has(o, k) ==> v == o[k]
    ensures !Has(o, k) ==> v == d
  {
    if Has(o, k) then o[k] else d
  }

  /** `o.k !== undefined ? o.k : d` */
  function IfDefined(o: Object, k: string, d: Json): (v: Json)
    ensures k in o ==> v == o[k]
    ensures k !in o ==> v == d
  {
    if k in o then o[k] else d
  }

  /** `o.k` as an optional value. */
  function Field(o: Object, k: string): Option<Json> {
    if k in o then Some(o[k]) else None
  }

  /** `rest` in `const { k, ...rest } = o`: every other key, unchanged. */
  function Without(o: Object, k: string): (r: Object)
    ensures k !in r
    ensures forall j :: j in o && j != k ==> j in r && r[j] == o[j]
    ensures forall j :: j in r ==> j in o
  {
    o - {k}
  }
}
