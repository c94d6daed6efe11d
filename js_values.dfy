/** JavaScript values as the front end's helpers see them: the JSON-like
    values that reach them from the backend, the clipboard and the UI.

    Numbers are integers (no NaN, no fractions). An object is the list of
    its own enumerable properties in insertion order, which is the order
    `Object.keys`, spreading and `JSON.stringify` follow. */
module Js {

  /** A value that may be absent; each use says what `None` stands for. */
  datatype Option<+T> = None | Some(value: T)

  /** A normal return, or a `throw` of a string. */
  datatype Result<+T> = Ok(value: T) | Throws(error: string)

  datatype JsValue =
    | Undefined
    | Null
    | Bool(b: bool)
    | Num(n: int)
    | Str(s: string)
    | Arr(items: seq<JsValue>)
    | Obj(props: Props)

  /** The own properties of an object, in insertion order. */
  type Props = seq<(string, JsValue)>

  /** `Boolean(v)`: what `if (v)`, `!v` and `filter(Boolean)` test. */
  predicate Truthy(v: JsValue)
  {
    match v
    case Undefined => false
    case Null => false
    case Bool(b) => b
    case Num(n) => n != 0
    case Str(s) => s != ""
    case Arr(_) => true
    case Obj(_) => true
  }

  /** Reading any property of these throws a TypeError. */
  predicate Nullish(v: JsValue)
  {
    v.Undefined? || v.Null?
  }

  /** `object[key]` on an object's own properties (the first entry wins). */
  function Lookup(p: Props, key: string): (r: Option<JsValue>)
    ensures r.Some? ==> (key, r.value) in p
  {
    if p == [] then None
    else if p[0].0 == key then Some(p[0].1)
    else Lookup(p[1..], key)
  }

  /** `v.key` on a value that is not null or undefined. The property names
      the helpers read (`detail`, `name`, `message`, `key`) are not own or
      inherited properties of strings, numbers, booleans or arrays, so on
      those the read gives undefined. */
  function Prop(v: JsValue, key: string): JsValue
  {
    match v
    case Obj(p) => (match Lookup(p, key) case Some(x) => x case None => Undefined)
    case _ => Undefined
  }

  /** `Object.keys(object)`. */
  function Keys(p: Props): (ks: seq<string>)
    ensures |ks| == |p|
    ensures forall i :: 0 <= i < |p| ==> ks[i] == p[i].0
  {
    if p == [] then [] else [p[0].0] + Keys(p[1..])
  }

  /** Every key occurs once, as in any JavaScript object. */
  ghost predicate DistinctKeys(p: Props)
  {
    forall i, j :: 0 <= i < j < |p| ==> p[i].0 != p[j].0
  }

  /** `object[key] = v`: an existing key keeps its position, a new key goes last. */
  function Assign(p: Props, key: string, v: JsValue): (r: Props)
    ensures |r| == if key in Keys(p) then |p| else |p| + 1
  {
    if p == [] then [(key, v)]
    else if p[0].0 == key then [(key, v)] + p[1..]
    else [p[0]] + Assign(p[1..], key, v)
  }

  /** `{...p, ...q}`: the properties of q assigned, in order, onto a copy of p. */
  function Spread(p: Props, q: Props): Props
    decreases |q|
  {
    if q == [] then p else Spread(Assign(p, q[0].0, q[0].1), q[1..])
  }

  lemma {:induction false} LookupFindsKey(p: Props, key: string)
    ensures Lookup(p, key).Some? <==> key in Keys(p)
  {
    if p != [] {
      LookupFindsKey(p[1..], key);
    }
  }

  /** Assigning one key changes what that key reads and nothing else. */
  lemma {:induction false} LookupAssign(p: Props, key: string, v: JsValue, k: string)
    ensures Lookup(Assign(p, key, v), k) == if k == key then Some(v) else Lookup(p, k)
  {
    if p != [] && p[0].0 != key {
      LookupAssign(p[1..], key, v, k);
    }
  }

  /** Assigning keeps the key order; a new key is appended. */
  lemma {:induction false} KeysAssign(p: Props, key: string, v: JsValue)
    ensures Keys(Assign(p, key, v)) == if key in Keys(p) then Keys(p) else Keys(p) + [key]
  {
    if p != [] {
      var tail := p[1..];
      if p[0].0 != key {
        KeysAssign(tail, key, v);
        assert Assign(p, key, v) == [p[0]] + Assign(tail, key, v);
        assert (key in Keys(p)) == (key in Keys(tail));
      } else {
        assert Assign(p, key, v) == [(key, v)] + tail;
        assert Assign(p, key, v)[1..] == tail;
      }
    }
  }

  /** In an object with distinct keys, each entry's key reads its value. */
  lemma {:induction false} LookupDistinct(p: Props, i: nat)
    requires DistinctKeys(p) && i < |p|
    ensures Lookup(p, p[i].0) == Some(p[i].1)
  {
    if i > 0 {
      var rest := p[1..];
      assert DistinctKeys(rest) by {
        forall a, b | 0 <= a < b < |rest| ensures rest[a].0 != rest[b].0 {
          assert rest[a] == p[a + 1] && rest[b] == p[b + 1];
        }
      }
      LookupDistinct(rest, i - 1);
      assert rest[i - 1] == p[i];
    }
  }

  /** In `{...p, ...q}` every key of q reads q's value, every other key p's. */
  lemma {:induction false} LookupSpread(p: Props, q: Props, k: string)
    requires DistinctKeys(q)
    ensures Lookup(Spread(p, q), k) == if Lookup(q, k).Some? then Lookup(q, k) else Lookup(p, k)
    decreases |q|
  {
    if q != [] {
      var rest := q[1..];
      assert DistinctKeys(rest) by {
        forall i, j | 0 <= i < j < |rest| ensures rest[i].0 != rest[j].0 {
          assert rest[i] == q[i + 1] && rest[j] == q[j + 1];
        }
      }
      LookupSpread(Assign(p, q[0].0, q[0].1), rest, k);
      LookupAssign(p, q[0].0, q[0].1, k);
      if k == q[0].0 {
        LookupFindsKey(rest, k);
        assert k !in Keys(rest) by {
          forall i | 0 <= i < |rest| ensures Keys(rest)[i] != k {
            assert rest[i] == q[i + 1];
          }
        }
      }
    }
  }

  /** The decimal digits of n. */
  function NatText(n: nat): (s: string)
    ensures |s| > 0
    decreases n
  {
    var d := "0123456789"[n % 10];
    if n < 10 then [d] else NatText(n / 10) + [d]
  }

  /** `String(n)` for an integer. */
  function IntText(n: int): string
  {
    if n < 0 then "-" + NatText(-n) else NatText(n)
  }

  /** `String(v)`, which template literals and `+` on a string also use.
      A plain object has no `toString` of its own. */
  function ToText(v: JsValue): string
    decreases v
  {
    match v
    case Undefined => "undefined"
    case Null => "null"
    case Bool(b) => if b then "true" else "false"
    case Num(n) => IntText(n)
    case Str(s) => s
    case Arr(items) => JoinTexts(seq(|items|, i requires 0 <= i < |items| =>
                         if Nullish(items[i]) then "" else ToText(items[i])))
    case Obj(_) => "[object Object]"
  }

  /** `Array.prototype.join` with its default separator ",". */
  function JoinTexts(ts: seq<string>): string
  {
    if ts == [] then "" else if |ts| == 1 then ts[0] else ts[0] + "," + JoinTexts(ts[1..])
  }
}
