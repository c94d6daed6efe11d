/** Pagination helpers: the page count for a limit and a total, and the
    `key` props that list rendering needs. */
module Pagination {
  import opened Js

  /** p pages of `limit` items hold `total` items. */
  predicate Holds(p: nat, limit: int, total: int)
  {
    p * limit >= total
  }

  lemma {:induction false} FewerPagesHoldLess(p: nat, q: nat, limit: int)
    requires p <= q && limit > 0
    ensures p * limit <= q * limit
  {
    var d := q - p;
    assert q * limit == p * limit + d * limit;
  }

  /** `getTotalPage(limit, total)`: throws "invalid_input_number" on a
      non-positive limit or a negative total, and otherwise returns the
      fewest pages that hold every item. */
  function GetTotalPage(limit: int, total: int): (r: Result<nat>)
    ensures r.Throws? <==> limit <= 0 || total < 0
    ensures r.Throws? ==> r.error == "invalid_input_number"
    ensures r.Ok? ==> Holds(r.value, limit, total)
    ensures r.Ok? ==> forall p: nat :: Holds(p, limit, total) ==> p >= r.value
    ensures r.Ok? && total == 0 ==> r.value == 0
  {
    if limit <= 0 || total < 0 then Throws("invalid_input_number")
    else
      var res := total / limit;
      CeilingIsLeast(limit, total);
      if total % limit > 0 then Ok(res + 1) else Ok(res)
  }

  lemma CeilingIsLeast(limit: int, total: int)
    requires limit > 0 && total >= 0
    ensures var c := if total % limit > 0 then total / limit + 1 else total / limit;
            c >= 0 && Holds(c, limit, total) && forall p: nat :: Holds(p, limit, total) ==> p >= c
  {
    var q, m := total / limit, total % limit;
    assert total == q * limit + m && 0 <= m < limit;
    assert q >= 0;
    var c: nat := if m > 0 then q + 1 else q;
    assert Holds(c, limit, total) by {
      if m > 0 { assert c * limit == q * limit + limit; }
    }
    assert c > 0 ==> (c - 1) * limit < total by {
      if m > 0 {
        assert (c - 1) * limit == q * limit;
      } else if c > 0 {
        assert q * limit == (c - 1) * limit + limit;
      }
    }
    forall p: nat | Holds(p, limit, total) ensures p >= c {
      if p < c {
        FewerPagesHoldLess(p, c - 1, limit);
      }
    }
  }

  /** `item.key` on an element of the list. */
  function KeyOf(item: Props): JsValue
  {
    Prop(Obj(item), "key")
  }

  /** `extractKeysFromList(arr)`: the elements' keys, in order. */
  method ExtractKeysFromList(arr: seq<Props>) returns (keyList: seq<JsValue>)
    ensures |keyList| == |arr|
    ensures forall i :: 0 <= i < |arr| ==> keyList[i] == KeyOf(arr[i])
  {
    keyList := [];
    for i := 0 to |arr|
      invariant |keyList| == i
      invariant forall j :: 0 <= j < i ==> keyList[j] == KeyOf(arr[j])
    {
      keyList := keyList + [KeyOf(arr[i])];
    }
  }

  /** `addKeysPropsForAnArray(arr, keyGenerator)`: each element becomes
      `{...element, key: keyGenerator(element)}`. */
  function AddKeysPropsForAnArray(arr: seq<Props>, keyGenerator: Props -> JsValue): (r: seq<Props>)
    ensures |r| == |arr|
  {
    seq(|arr|, i requires 0 <= i < |arr| => Assign(arr[i], "key", keyGenerator(arr[i])))
  }

  /** Each element gains the generated key, keeps every other property and
      keeps its property order (a new `key` goes last). */
  lemma AddedKeyKeepsTheRest(arr: seq<Props>, keyGenerator: Props -> JsValue, i: nat, k: string)
    requires i < |arr|
    ensures var r := AddKeysPropsForAnArray(arr, keyGenerator);
            && Lookup(r[i], "key") == Some(keyGenerator(arr[i]))
            && (k != "key" ==> Lookup(r[i], k) == Lookup(arr[i], k))
            && Keys(r[i]) == if "key" in Keys(arr[i]) then Keys(arr[i]) else Keys(arr[i]) + ["key"]
  {
    LookupAssign(arr[i], "key", keyGenerator(arr[i]), "key");
    LookupAssign(arr[i], "key", keyGenerator(arr[i]), k);
    KeysAssign(arr[i], "key", keyGenerator(arr[i]));
  }

  /** The keys extracted from a keyed list are the generated keys, in order. */
  lemma KeysOfKeyedList(arr: seq<Props>, keyGenerator: Props -> JsValue)
    ensures var r := AddKeysPropsForAnArray(arr, keyGenerator);
            forall i :: 0 <= i < |arr| ==> KeyOf(r[i]) == keyGenerator(arr[i])
  {
    var r := AddKeysPropsForAnArray(arr, keyGenerator);
    forall i | 0 <= i < |arr| ensures KeyOf(r[i]) == keyGenerator(arr[i]) {
      AddedKeyKeepsTheRest(arr, keyGenerator, i, "key");
    }
  }
}
