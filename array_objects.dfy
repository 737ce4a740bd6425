/** `isArrayWithObjects`: a value is an array whose every element is a
    non-null object (`typeof item === "object"`, so nested arrays count). */
module ArrayObjects {
  import opened JsValues

  /** `items.every(item => typeof item === "object" && item !== null)`,
      visiting the elements from the first and stopping at the first failure. */
  function EveryObject(items: seq<JsValue>): (r: bool)
    ensures r <==> forall i :: 0 <= i < |items| ==> IsObjectLike(items[i])
  {
    if items == [] then true
    else if !IsObjectLike(items[0]) then false
    else
      var rest := EveryObject(items[1..]);
      assert forall i :: 1 <= i < |items| ==> items[i] == items[1..][i - 1];
      rest
  }

  /** `value instanceof Array && value.every(…)`. */
  function IsArrayWithObjects(value: JsValue): (r: bool)
    ensures r <==> value.Arr? && forall i :: 0 <= i < |value.items| ==> IsObjectLike(value.items[i])
  {
    value.Arr? && EveryObject(value.items)
  }

  /** No value other than an array is accepted. */
  lemma NonArrayRejected(value: JsValue)
    requires !value.Arr?
    ensures !IsArrayWithObjects(value)
  {
  }

  /** The empty array is accepted: `every` holds vacuously. */
  lemma EmptyArrayAccepted()
    ensures IsArrayWithObjects(Arr([]))
  {
  }

  /** One `null` or primitive element (string, number, boolean, undefined)
      anywhere in the array makes it rejected. */
  lemma PrimitiveElementRejected(items: seq<JsValue>, k: nat)
    requires k < |items|
    requires items[k] in {Undefined, Null} || items[k].Bool? || items[k].Num? || items[k].Str?
    ensures !IsArrayWithObjects(Arr(items))
  {
  }

  /** Acceptance splits over concatenation: an array is accepted exactly when
      both of its parts are. */
  lemma {:induction false} ConcatAccepted(a: seq<JsValue>, b: seq<JsValue>)
    ensures IsArrayWithObjects(Arr(a + b)) <==> IsArrayWithObjects(Arr(a)) && IsArrayWithObjects(Arr(b))
  {
    assert forall i :: 0 <= i < |a| ==> (a + b)[i] == a[i];
    assert forall i :: 0 <= i < |b| ==> (a + b)[|a| + i] == b[i];
  }

  /** An array of arrays is accepted, whatever the inner arrays hold. */
  lemma NestedArraysAccepted(inner: seq<seq<JsValue>>)
    ensures IsArrayWithObjects(Arr(seq(|inner|, i requires 0 <= i < |inner| => Arr(inner[i]))))
  {
  }
}
