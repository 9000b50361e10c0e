/** A Python `dict` with string keys, as a value: the keys in insertion order
    beside the key-to-value map. Assigning to a key that is present keeps its
    position, assigning to a new key appends it, and `del` removes the key
    from the order. Iterating over `items()` or `values()` follows `keys`. */
module Dicts {

  datatype Dict<V> = Dict(keys: seq<string>, items: map<string, V>)

  predicate Distinct(ks: seq<string>)
  {
    forall i, j :: 0 <= i < j < |ks| ==> ks[i] != ks[j]
  }

  /** Every key occurs once in the order, and the order holds exactly the keys of the map. */
  predicate Valid<V>(d: Dict<V>)
  {
    && Distinct(d.keys)
    && (forall k :: k in d.items ==> k in d.keys)
    && (forall k :: k in d.keys ==> k in d.items)
  }

  function Empty<V>(): (d: Dict<V>)
    ensures Valid(d) && d.keys == [] && d.items == map[]
  {
    Dict([], map[])
  }

  /** `d[k] = v` */
  function Put<V>(d: Dict<V>, k: string, v: V): (r: Dict<V>)
    requires Valid(d)
    ensures Valid(r)
  {
    Dict(if k in d.items then d.keys else d.keys + [k], d.items[k := v])
  }

  /** The keys of `ks` other than `k`, in their order. */
  function Without(ks: seq<string>, k: string): (r: seq<string>)
    ensures forall x :: x in r <==> x in ks && x != k
    ensures Distinct(ks) ==> Distinct(r)
    ensures Distinct(ks) && k in ks ==> |r| == |ks| - 1
    ensures k !in ks ==> r == ks
  {
    if ks == [] then []
    else
      var front := Without(ks[..|ks| - 1], k);
      var last := ks[|ks| - 1];
      assert ks == ks[..|ks| - 1] + [last];
      assert Distinct(ks) ==> last !in ks[..|ks| - 1] && Distinct(ks[..|ks| - 1]);
      assert Distinct(ks) ==> last !in front;
      assert Distinct(front) && last !in front ==> Distinct(front + [last]);
      if last == k then front else front + [last]
  }

  /** Taking out a key that occurs once, at position `i`, closes the gap and
      keeps every other key in its place in the order. */
  lemma {:induction false} WithoutAt(ks: seq<string>, k: string, i: nat)
    requires Distinct(ks) && i < |ks| && ks[i] == k
    ensures Without(ks, k) == ks[..i] + ks[i + 1..]
  {
    var n := |ks|;
    var front := ks[..n - 1];
    assert Distinct(front);
    if i == n - 1 {
      assert k !in front;
      assert ks[..i] + ks[i + 1..] == front;
    } else {
      assert ks[n - 1] != k;
      WithoutAt(front, k, i);
      assert ks[..i] + ks[i + 1..] == front[..i] + front[i + 1..] + [ks[n - 1]];
    }
  }

  /** `del d[k]` (the caller has checked that `k` is present). */
  function Del<V>(d: Dict<V>, k: string): (r: Dict<V>)
    requires Valid(d) && k in d.items
    ensures Valid(r) && |r.keys| == |d.keys| - 1
    ensures r.keys == Without(d.keys, k) && r.items == d.items - {k}
  {
    Dict(Without(d.keys, k), d.items - {k})
  }

  /** The sum of `f` over the values stored at `ks`, accumulated in the order of `ks`. */
  function Sum<V>(ks: seq<string>, m: map<string, V>, f: V -> int): int
    requires forall k :: k in ks ==> k in m
  {
    if ks == [] then 0 else Sum(ks[..|ks| - 1], m, f) + f(m[ks[|ks| - 1]])
  }

  /** The sum of `f` over `d.values()`. */
  function SumValues<V>(d: Dict<V>, f: V -> int): int
    requires Valid(d)
  {
    Sum(d.keys, d.items, f)
  }

  /** A sum only depends on the values at the keys it visits. */
  lemma {:induction false} SumFrame<V>(ks: seq<string>, m1: map<string, V>, m2: map<string, V>, f: V -> int)
    requires forall k :: k in ks ==> k in m1 && k in m2 && m1[k] == m2[k]
    ensures Sum(ks, m1, f) == Sum(ks, m2, f)
  {
    if ks != [] {
      SumFrame(ks[..|ks| - 1], m1, m2, f);
    }
  }

  /** Taking one key out of the order takes its value out of the sum. */
  lemma {:induction false} SumWithout<V>(ks: seq<string>, k: string, m: map<string, V>, f: V -> int)
    requires Distinct(ks) && k in ks
    requires forall x :: x in ks ==> x in m
    ensures Sum(ks, m, f) == Sum(Without(ks, k), m, f) + f(m[k])
  {
    var n := |ks|;
    var front := ks[..n - 1];
    assert ks == front + [ks[n - 1]];
    if ks[n - 1] == k {
      assert forall i :: 0 <= i < n - 1 ==> front[i] != k;
      assert Without(front, k) == front;
    } else {
      SumWithout(front, k, m, f);
      var w := Without(front, k);
      assert (w + [ks[n - 1]])[..|w|] == w;
    }
  }

  /** `d[k] = v` replaces the old value of `k`, if any, by `v` in the sum. */
  lemma SumValuesPut<V>(d: Dict<V>, k: string, v: V, f: V -> int)
    requires Valid(d)
    ensures SumValues(Put(d, k, v), f)
            == SumValues(d, f) - (if k in d.items then f(d.items[k]) else 0) + f(v)
  {
    var m' := d.items[k := v];
    if k in d.items {
      SumWithout(d.keys, k, m', f);
      SumWithout(d.keys, k, d.items, f);
      SumFrame(Without(d.keys, k), m', d.items, f);
    } else {
      var ks := d.keys + [k];
      assert ks[..|ks| - 1] == d.keys;
      SumFrame(d.keys, m', d.items, f);
    }
  }

  /** `del d[k]` takes the value of `k` out of the sum. */
  lemma SumValuesDel<V>(d: Dict<V>, k: string, f: V -> int)
    requires Valid(d) && k in d.items
    ensures SumValues(Del(d, k), f) == SumValues(d, f) - f(d.items[k])
  {
    SumWithout(d.keys, k, d.items, f);
    SumFrame(Without(d.keys, k), d.items - {k}, d.items, f);
  }

  /** A sum of non-negative terms is non-negative. */
  lemma {:induction false} SumNonNegative<V>(ks: seq<string>, m: map<string, V>, f: V -> int)
    requires forall k :: k in ks ==> k in m && f(m[k]) >= 0
    ensures Sum(ks, m, f) >= 0
  {
    if ks != [] {
      SumNonNegative(ks[..|ks| - 1], m, f);
    }
  }

  /** Deleting a key that was just added restores the dict, order included. */
  lemma DelPutNew<V>(d: Dict<V>, k: string, v: V)
    requires Valid(d) && k !in d.items
    ensures Del(Put(d, k, v), k) == d
  {
    var ks := d.keys + [k];
    assert ks[..|ks| - 1] == d.keys;
    assert Without(ks, k) == Without(d.keys, k) == d.keys;
    assert d.items[k := v] - {k} == d.items;
  }
}
