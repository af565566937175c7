/**
 The two JavaScript values the metrics module works with: numbers that are
 counts (or NaN, which `undefined + 1` produces), and plain objects with string
 keys, kept as their own keys in enumeration order — the order that
 `Object.keys` and object spread (`{...o}`) follow — and the value stored
 under each.
 */
module Js {

  datatype Option<T> = None | Some(value: T)

  /** A JavaScript number as the metrics module uses it: an integer count, or NaN. */
  datatype Num = Int(i: int) | NaN

  /** `x + 1` where `x` is the value read from an object slot; `undefined + 1` and `NaN + 1` are NaN. */
  function PlusOne(x: Option<Num>): (r: Num)
    ensures r.Int? <==> x.Some? && x.value.Int?
    ensures r.Int? ==> r.i == x.value.i + 1
  {
    match x
    case Some(Int(n)) => Int(n + 1)
    case _ => NaN
  }

  ghost predicate Distinct(ks: seq<string>)
  {
    forall i, j :: 0 <= i < j < |ks| ==> ks[i] != ks[j]
  }

  /** Own keys in enumeration order, and the value stored under each key. */
  datatype RawObject<V> = RawObject(keys: seq<string>, values: map<string, V>)

  /** A plain object: every key is listed once and holds a value; entries of the map under unlisted keys are never read. */
  type Object<V> = o: RawObject<V> | Distinct(o.keys) && (forall i :: 0 <= i < |o.keys| ==> o.keys[i] in o.values)
    witness RawObject([], map[])

  /** `{}` */
  function Empty<V>(): Object<V>
  {
    RawObject([], map[])
  }

  /** `{ k: v }` */
  function Single<V>(k: string, v: V): Object<V>
  {
    RawObject([k], map[k := v])
  }

  /** `o[k]`: the value stored under `k`, or None where JavaScript reads `undefined`. */
  function Get<V>(o: Object<V>, k: string): (r: Option<V>)
    ensures r.Some? <==> k in o.keys
  {
    if k in o.keys then Some(o.values[k]) else None
  }

  /**
   `o[k] = v`: a key already present keeps its place and takes the new value;
   a new key is appended after all existing ones; every other key reads as before.
   */
  function Put<V>(o: Object<V>, k: string, v: V): (r: Object<V>)
    ensures r.keys == if k in o.keys then o.keys else o.keys + [k]
    ensures Get(r, k) == Some(v)
    ensures forall k' :: k' != k ==> Get(r, k') == Get(o, k')
  {
    RawObject(if k in o.keys then o.keys else o.keys + [k], o.values[k := v])
  }
}
