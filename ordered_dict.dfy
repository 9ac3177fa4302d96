/**
 * A Python dict with string keys, as a sequence of (key, value) entries in
 * insertion order. Assigning to an existing key keeps the key's position,
 * a new key goes last, and deleting a key lets the others keep their order
 * (so a key deleted and assigned again moves to the end).
 */
module OrderedDict {
  import opened Wrappers

  type Dict<V> = seq<(string, V)>

  /** `d.keys()`, in iteration order. */
  function Keys<V>(d: Dict<V>): (ks: seq<string>)
    ensures |ks| == |d|
    ensures forall i :: 0 <= i < |d| ==> ks[i] == d[i].0
  {
    if d == [] then [] else [d[0].0] + Keys(d[1..])
  }

  /** No key occurs twice: what every dict satisfies. */
  predicate Distinct(keys: seq<string>)
  {
    forall i, j :: 0 <= i < j < |keys| ==> keys[i] != keys[j]
  }

  /** `keys` with every occurrence of `k` taken out, the rest in order. */
  function Without(keys: seq<string>, k: string): (r: seq<string>)
    ensures k !in r
    ensures forall x :: x in r <==> x in keys && x != k
  {
    if keys == [] then []
    else if keys[0] == k then Without(keys[1..], k)
    else [keys[0]] + Without(keys[1..], k)
  }

  /** `d.get(k)`: the value stored under `k`, if any. */
  function Get<V>(d: Dict<V>, k: string): (r: Option<V>)
    ensures r.Some? <==> k in Keys(d)
    ensures r.Some? ==> (k, r.value) in d
  {
    if d == [] then None
    else if d[0].0 == k then Some(d[0].1)
    else Get(d[1..], k)
  }

  /** `d[k] = v`. */
  function Set<V>(d: Dict<V>, k: string, v: V): (r: Dict<V>)
    ensures Keys(r) == if k in Keys(d) then Keys(d) else Keys(d) + [k]
    ensures Get(r, k) == Some(v)
    ensures forall k' :: k' != k ==> Get(r, k') == Get(d, k')
  {
    if d == [] then [(k, v)]
    else if d[0].0 == k then [(k, v)] + d[1..]
    else [d[0]] + Set(d[1..], k, v)
  }

  /** `del d[k]`, with the `KeyError` of an absent key ignored. */
  function Delete<V>(d: Dict<V>, k: string): (r: Dict<V>)
    ensures k !in Keys(d) ==> r == d
    ensures forall k' :: k' != k ==> Get(r, k') == Get(d, k')
  {
    if d == [] then []
    else if d[0].0 == k then d[1..]
    else [d[0]] + Delete(d[1..], k)
  }

  /** In a dict, deleting `k` leaves the other keys in their order. */
  lemma {:induction false} DeleteKeys<V>(d: Dict<V>, k: string)
    requires Distinct(Keys(d))
    ensures Keys(Delete(d, k)) == Without(Keys(d), k)
  {
    if d != [] {
      assert Keys(d[1..]) == Keys(d)[1..];
      if d[0].0 == k {
        assert k !in Keys(d[1..]);
        WithoutAbsent(Keys(d[1..]), k);
      } else {
        DeleteKeys(d[1..], k);
      }
    }
  }

  lemma {:induction false} WithoutAbsent(keys: seq<string>, k: string)
    requires k !in keys
    ensures Without(keys, k) == keys
  {
    if keys != [] {
      WithoutAbsent(keys[1..], k);
    }
  }

  /** Assigning keeps the keys distinct. */
  lemma SetKeepsDistinct<V>(d: Dict<V>, k: string, v: V)
    requires Distinct(Keys(d))
    ensures Distinct(Keys(Set(d, k, v)))
  {
  }

  /** Deleting keeps the keys distinct and takes the key out. */
  lemma DeleteKeepsDistinct<V>(d: Dict<V>, k: string)
    requires Distinct(Keys(d))
    ensures Distinct(Keys(Delete(d, k)))
    ensures k !in Keys(Delete(d, k))
  {
    DeleteKeys(d, k);
    WithoutKeepsDistinct(Keys(d), k);
  }

  lemma {:induction false} WithoutKeepsDistinct(keys: seq<string>, k: string)
    requires Distinct(keys)
    ensures Distinct(Without(keys, k))
  {
    if keys != [] {
      assert Distinct(keys[1..]);
      WithoutKeepsDistinct(keys[1..], k);
      assert keys[0] !in keys[1..];
    }
  }

  /** Assigning a key and then deleting it is the same as deleting it. */
  lemma {:induction false} DeleteAfterSet<V>(d: Dict<V>, k: string, v: V)
    requires Distinct(Keys(d))
    ensures Delete(Set(d, k, v), k) == Delete(d, k)
  {
    if d != [] && d[0].0 != k {
      assert Distinct(Keys(d[1..]));
      DeleteAfterSet(d[1..], k, v);
    }
  }

  /** Deleting a present key and assigning it again moves it to the end. */
  lemma {:induction false} SetAfterDeleteMovesLast<V>(d: Dict<V>, k: string, v: V)
    requires Distinct(Keys(d))
    ensures Set(Delete(d, k), k, v) == Delete(d, k) + [(k, v)]
  {
    DeleteKeepsDistinct(d, k);
    SetOfAbsentAppends(Delete(d, k), k, v);
  }

  lemma {:induction false} SetOfAbsentAppends<V>(d: Dict<V>, k: string, v: V)
    requires k !in Keys(d)
    ensures Set(d, k, v) == d + [(k, v)]
  {
    if d != [] {
      assert Keys(d)[0] == d[0].0;
      SetOfAbsentAppends(d[1..], k, v);
    }
  }
}
