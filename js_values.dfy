/** The dynamic values the core inspects, and the JavaScript coercions it
    applies to them: `typeof`, truthiness, property lookup and `String(v)`. */
module JsValues {

  /** A JavaScript value. Numbers are integers here. An object lists its own
      enumerable properties in enumeration order, the order `for…in` visits
      them; a property that is absent reads as `Undefined`. */
  datatype JsValue =
    | Undefined
    | Null
    | Bool(b: bool)
    | Num(n: int)
    | Str(s: string)
    | Arr(items: seq<JsValue>)
    | Obj(props: seq<(string, JsValue)>)

  /** An object's own properties. */
  type Props = seq<(string, JsValue)>

  /** `typeof v === "object" && v !== null`: arrays and plain objects. */
  predicate IsObjectLike(v: JsValue) {
    v.Arr? || v.Obj?
  }

  /** No property name occurs twice, as in every JavaScript object. */
  predicate DistinctKeys(props: Props) {
    forall i, j :: 0 <= i < j < |props| ==> props[i].0 != props[j].0
  }

  /** `obj[key]`: the value of the property named `key`, `Undefined` when absent. */
  function Get(props: Props, key: string): (r: JsValue)
    ensures r != Undefined ==> exists i :: 0 <= i < |props| && props[i] == (key, r)
  {
    if props == [] then Undefined
    else if props[0].0 == key then props[0].1
    else
      var r := Get(props[1..], key);
      assert r != Undefined ==> exists i :: 0 <= i < |props[1..]| && props[1..][i] == (key, r);
      r
  }

  /** The decimal digits of a natural number, as `String(n)` writes them. */
  function NatToDecimal(n: nat): (r: string)
    ensures r != []
    decreases n
  {
    if n < 10 then ["0123456789"[n]]
    else NatToDecimal(n / 10) + ["0123456789"[n % 10]]
  }

  /** `String(v)`: numbers in decimal, arrays joined with commas (their
      `null`/`undefined` elements written as empty), plain objects as
      "[object Object]". */
  function ToJsString(v: JsValue): (r: string)
    ensures v.Str? ==> r == v.s
  {
    match v
    case Undefined => "undefined"
    case Null => "null"
    case Bool(b) => if b then "true" else "false"
    case Num(n) => if n < 0 then "-" + NatToDecimal(-n) else NatToDecimal(n)
    case Str(s) => s
    case Arr(items) =>
      JoinWithCommas(seq(|items|, i requires 0 <= i < |items| =>
        if items[i].Undefined? || items[i].Null? then "" else ToJsString(items[i])))
    case Obj(_) => "[object Object]"
  }

  /** `parts.join(",")`. */
  function JoinWithCommas(parts: seq<string>): string {
    if parts == [] then ""
    else if |parts| == 1 then parts[0]
    else parts[0] + "," + JoinWithCommas(parts[1..])
  }
}
