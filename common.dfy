/**
 * Shared vocabulary of the model: optional values, results carrying an error
 * message (Go's `(value, error)` pairs), the unsigned 64-bit integers of the
 * counter math, and the order-independent sum of a map's values that every
 * `for ... range` accumulation over a Go map is specified with.
 */
module Common {

  datatype Option<T> = None | Some(value: T)

  /** A Go `(value, error)` pair: either a value and a nil error, or an error. */
  datatype Result<T> = Ok(value: T) | Err(error: string)

  const U64_LIMIT: int := 0x1_0000_0000_0000_0000

  /** Go's `uint64`. */
  type U64 = x: int | 0 <= x < U64_LIMIT

  /** `a + b` on Go `uint64`: the sum wraps around modulo 2^64. */
  function AddU64(a: U64, b: U64): (r: U64)
    ensures a + b < U64_LIMIT ==> r == a + b
    ensures a + b >= U64_LIMIT ==> r == a + b - U64_LIMIT
  {
    if a + b < U64_LIMIT then a + b else a + b - U64_LIMIT
  }

  /** An element of a non-empty set: the key a Go `range` loop visits next. */
  method Pick<T>(s: set<T>) returns (x: T)
    requires s != {}
    ensures x in s
  {
    x :| x in s;
  }

  /**
   * The sum of the values of a map. The element taken first is an arbitrary
   * choice, so MapSumRemove below is what makes the sum independent of the
   * order in which a Go `range` loop visits the keys.
   */
  ghost function MapSum<K>(m: map<K, int>): int
    decreases |m|
  {
    if |m| == 0 then 0
    else
      var k := SomeKey(m);
      m[k] + MapSum(m - {k})
  }

  /** The key MapSum takes first: an arbitrary but fixed key of a non-empty map. */
  ghost function SomeKey<K, V>(m: map<K, V>): (k: K)
    requires |m| > 0
    ensures k in m
  {
    var k :| k in m; k
  }

  lemma MapSumEmpty<K>(m: map<K, int>)
    requires |m| == 0
    ensures MapSum(m) == 0
  {
  }

  lemma MapRemoveSize<K, V>(m: map<K, V>, k: K)
    requires k in m
    ensures |m - {k}| == |m| - 1
  {
    assert (m - {k}).Keys == m.Keys - {k};
  }

  /** Any key may be summed first: the sum does not depend on visiting order. */
  lemma {:induction false} MapSumRemove<K>(m: map<K, int>, k: K)
    requires k in m
    ensures MapSum(m) == m[k] + MapSum(m - {k})
    decreases |m|
  {
    var j := SomeKey(m);
    if j != k {
      MapRemoveSize(m, j);
      MapRemoveSize(m, k);
      var rest := (m - {j}) - {k};
      MapSumRemove(m - {j}, k);
      assert MapSum(m) == m[j] + (m[k] + MapSum(rest));
      MapSumRemove(m - {k}, j);
      assert (m - {k}) - {j} == rest;
      assert MapSum(m - {k}) == m[j] + MapSum(rest);
    }
  }

  /** The entries of `m` whose keys lie in `keys`. */
  ghost function Restrict<K>(m: map<K, int>, keys: set<K>): map<K, int> {
    map k | k in m && k in keys :: m[k]
  }

  /** Removing one key from the restriction removes its value from the sum. */
  lemma RestrictRemove<K>(m: map<K, int>, keys: set<K>, k: K)
    requires k in m && k in keys
    ensures MapSum(Restrict(m, keys)) == m[k] + MapSum(Restrict(m, keys - {k}))
  {
    MapSumRemove(Restrict(m, keys), k);
    assert Restrict(m, keys) - {k} == Restrict(m, keys - {k});
  }

  /** Adding a fresh key adds its value to the sum. */
  lemma MapSumInsert<K>(m: map<K, int>, k: K, v: int)
    requires k !in m
    ensures MapSum(m[k := v]) == MapSum(m) + v
  {
    MapSumRemove(m[k := v], k);
    assert m[k := v] - {k} == m;
  }

  /** A sum of non-negative values is non-negative. */
  lemma {:induction false} MapSumNonNegative<K>(m: map<K, int>)
    requires forall k :: k in m ==> m[k] >= 0
    ensures MapSum(m) >= 0
    decreases |m|
  {
    if |m| > 0 {
      var k :| k in m;
      MapSumRemove(m, k);
      MapRemoveSize(m, k);
      MapSumNonNegative(m - {k});
    }
  }
}
