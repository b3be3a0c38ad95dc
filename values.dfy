/**
 * JavaScript values as the components see them: what a node's `data` record,
 * a `style` object or a decoded JSON document can hold, and JavaScript truthiness.
 * Numbers are reals: NaN, infinities and rounding are outside the model.
 */
module Values {

  datatype Value =
    | Undefined
    | Null
    | Bool(b: bool)
    | Num(n: real)
    | Str(s: string)
    | Arr(items: seq<Value>)
    | Obj(fields: map<string, Value>)

  /** A JavaScript object used as a record of named fields. */
  type Record = map<string, Value>

  /** `!!v`: false exactly for undefined, null, false, 0 and the empty string. */
  predicate Truthy(v: Value) {
    match v
    case Undefined => false
    case Null => false
    case Bool(b) => b
    case Num(n) => n != 0.0
    case Str(s) => s != ""
    case Arr(_) => true
    case Obj(_) => true
  }

  /** `r[k]` (or `r?.[k]`): undefined when the field is absent. */
  function Get(r: Record, k: string): Value {
    if k in r then r[k] else Undefined
  }

  function StrArray(xs: seq<string>): (v: Value)
    ensures v.Arr? && |v.items| == |xs|
    ensures forall i :: 0 <= i < |xs| ==> v.items[i] == Str(xs[i])
  {
    Arr(seq(|xs|, i requires 0 <= i < |xs| => Str(xs[i])))
  }
}
