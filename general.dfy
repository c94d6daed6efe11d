/** `getKeyByValue`: the first key of an object whose value is the given one. */
module General {
  import opened Js

  /** The index of the first of `keys` that `obj` maps to `value`, or |keys|
      when there is none: the scan `Array.prototype.find` performs. */
  function FirstMatch(obj: Props, keys: seq<string>, value: JsValue): (i: nat)
    ensures i <= |keys|
    ensures i < |keys| ==> Lookup(obj, keys[i]) == Some(value)
    ensures forall j :: 0 <= j < i ==> Lookup(obj, keys[j]) != Some(value)
    decreases |keys|
  {
    if keys == [] then 0
    else if Lookup(obj, keys[0]) == Some(value) then 0
    else 1 + FirstMatch(obj, keys[1..], value)
  }

  /** `getKeyByValue(obj, value)`: `Object.keys(obj).find(k => obj[k] === value)`.
      Strict equality is equality of values here. */
  function GetKeyByValue(obj: Props, value: JsValue): (r: Option<string>)
    ensures r.Some? ==> r.value in Keys(obj) && Lookup(obj, r.value) == Some(value)
    ensures forall j :: 0 <= j < |obj| && Lookup(obj, obj[j].0) == Some(value) ==>
              r.Some? && r.value in Keys(obj)[..j + 1]
    ensures r.None? <==> forall k :: k in Keys(obj) ==> Lookup(obj, k) != Some(value)
  {
    var keys := Keys(obj);
    var i := FirstMatch(obj, keys, value);
    if i < |keys| then
      Some(keys[i])
    else None
  }
}
