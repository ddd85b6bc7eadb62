/** The array operations the reducers and updaters are built from, over records
    identified by a key: `findIndex`/`find`, `some`, `filter` by key, replacement
    of the first match, and `reduce` with `+`. Each is defined once here and used
    by the cart, food and user slices, the cart hook and the topping toggle. */
module ListOps {

  /** Index of the first element whose key is `k`, or -1 (`Array.prototype.findIndex`). */
  function FindIndex<T, K(==)>(xs: seq<T>, key: T -> K, k: K): (r: int)
    ensures -1 <= r < |xs|
    ensures r == -1 <==> forall j :: 0 <= j < |xs| ==> key(xs[j]) != k
    ensures 0 <= r ==> key(xs[r]) == k && forall j :: 0 <= j < r ==> key(xs[j]) != k
  {
    if xs == [] then -1
    else if key(xs[0]) == k then 0
    else
      var r := FindIndex(xs[1..], key, k);
      if r == -1 then -1 else r + 1
  }

  /** Some element has key `k` (`Array.prototype.some` on an id). */
  predicate HasKey<T, K(==)>(xs: seq<T>, key: T -> K, k: K) {
    exists j :: 0 <= j < |xs| && key(xs[j]) == k
  }

  /** No two elements share a key. */
  predicate DistinctKeys<T, K(==)>(xs: seq<T>, key: T -> K) {
    forall i, j :: 0 <= i < j < |xs| ==> key(xs[i]) != key(xs[j])
  }

  /** `xs.filter(x => key(x) !== k)`. */
  function RemoveAll<T, K(==)>(xs: seq<T>, key: T -> K, k: K): (r: seq<T>)
    ensures |r| <= |xs|
    ensures forall j :: 0 <= j < |r| ==> r[j] in xs && key(r[j]) != k
    ensures forall j :: 0 <= j < |xs| && key(xs[j]) != k ==> xs[j] in r
  {
    if xs == [] then []
    else if key(xs[0]) == k then RemoveAll(xs[1..], key, k)
    else [xs[0]] + RemoveAll(xs[1..], key, k)
  }

  /** `i = xs.findIndex(y => key(y) === key(x)); if (i !== -1) xs[i] = x`. */
  function ReplaceFirst<T, K(==)>(xs: seq<T>, key: T -> K, x: T): (r: seq<T>)
    ensures |r| == |xs|
    ensures (forall j :: 0 <= j < |xs| ==> key(xs[j]) != key(x)) ==> r == xs
    ensures forall i :: (0 <= i < |xs| && key(xs[i]) == key(x) &&
                         forall j :: 0 <= j < i ==> key(xs[j]) != key(x)) ==> r == xs[i := x]
  {
    var i := FindIndex(xs, key, key(x));
    if i == -1 then xs else xs[i := x]
  }

  /** `xs.reduce((sum, x) => sum + f(x), 0)`. */
  function Sum<T>(xs: seq<T>, f: T -> int): int {
    if xs == [] then 0 else f(xs[0]) + Sum(xs[1..], f)
  }

  lemma HasKeyIffFound<T, K>(xs: seq<T>, key: T -> K, k: K)
    ensures HasKey(xs, key, k) <==> FindIndex(xs, key, k) != -1
  {
  }

  /** Filtering distributes over concatenation: the survivors keep their relative order. */
  lemma {:induction false} RemoveAllAppend<T, K>(xs: seq<T>, ys: seq<T>, key: T -> K, k: K)
    ensures RemoveAll(xs + ys, key, k) == RemoveAll(xs, key, k) + RemoveAll(ys, key, k)
  {
    if xs != [] {
      assert (xs + ys)[0] == xs[0] && (xs + ys)[1..] == xs[1..] + ys;
      RemoveAllAppend(xs[1..], ys, key, k);
    } else {
      assert xs + ys == ys;
    }
  }

  /** Filtering out a key nobody has changes nothing. */
  lemma {:induction false} RemoveAllAbsent<T, K>(xs: seq<T>, key: T -> K, k: K)
    requires forall j :: 0 <= j < |xs| ==> key(xs[j]) != k
    ensures RemoveAll(xs, key, k) == xs
  {
    if xs != [] {
      RemoveAllAbsent(xs[1..], key, k);
    }
  }

  /** Filtering twice by the same key is filtering once. */
  lemma RemoveAllIdempotent<T, K>(xs: seq<T>, key: T -> K, k: K)
    ensures RemoveAll(RemoveAll(xs, key, k), key, k) == RemoveAll(xs, key, k)
  {
    RemoveAllAbsent(RemoveAll(xs, key, k), key, k);
  }

  /** Filtering keeps distinct keys distinct. */
  lemma {:induction false} RemoveAllKeepsDistinct<T, K>(xs: seq<T>, key: T -> K, k: K)
    requires DistinctKeys(xs, key)
    ensures DistinctKeys(RemoveAll(xs, key, k), key)
  {
    if xs != [] {
      var tail := xs[1..];
      assert DistinctKeys(tail, key) by {
        forall i, j | 0 <= i < j < |tail| ensures key(tail[i]) != key(tail[j]) {
          assert tail[i] == xs[i + 1] && tail[j] == xs[j + 1];
        }
      }
      RemoveAllKeepsDistinct(tail, key, k);
      if key(xs[0]) != k {
        var rest := RemoveAll(tail, key, k);
        var r := [xs[0]] + rest;
        forall i, j | 0 <= i < j < |r| ensures key(r[i]) != key(r[j]) {
          if i == 0 {
            assert r[j] == rest[j - 1] && r[j] in tail;
            var m :| 0 <= m < |tail| && tail[m] == r[j];
            assert xs[m + 1] == r[j];
          } else {
            assert r[i] == rest[i - 1] && r[j] == rest[j - 1];
          }
        }
      }
    }
  }

  /** Replacing the first match keeps every position's key, so which keys are
      present, and whether they are distinct, does not change. */
  lemma ReplaceFirstKeepsKeys<T, K>(xs: seq<T>, key: T -> K, x: T)
    ensures var r := ReplaceFirst(xs, key, x);
            (forall j :: 0 <= j < |xs| ==> key(r[j]) == key(xs[j])) &&
            (DistinctKeys(xs, key) <==> DistinctKeys(r, key))
  {
    var r := ReplaceFirst(xs, key, x);
    var i := FindIndex(xs, key, key(x));
    forall j | 0 <= j < |xs| ensures key(r[j]) == key(xs[j]) {
      if i != -1 && j == i {
        assert r[j] == x;
      }
    }
  }

  /** Replacing the first match and then storing again the same record changes nothing more. */
  lemma ReplaceFirstIdempotent<T, K>(xs: seq<T>, key: T -> K, x: T)
    ensures ReplaceFirst(ReplaceFirst(xs, key, x), key, x) == ReplaceFirst(xs, key, x)
  {
    var r := ReplaceFirst(xs, key, x);
    ReplaceFirstKeepsKeys(xs, key, x);
    var i := FindIndex(xs, key, key(x));
    if i != -1 {
      assert FindIndex(r, key, key(x)) == i;
    }
  }

  /** Overwriting an element that has key `k` with another that has key `k`
      is invisible to a filter on `k`. */
  lemma {:induction false} RemoveAllUpdateSameKey<T, K>(xs: seq<T>, i: nat, y: T, key: T -> K, k: K)
    requires i < |xs| && key(xs[i]) == k && key(y) == k
    ensures RemoveAll(xs[i := y], key, k) == RemoveAll(xs, key, k)
  {
    if i > 0 {
      assert xs[i := y][1..] == xs[1..][i - 1 := y];
      RemoveAllUpdateSameKey(xs[1..], i - 1, y, key, k);
    } else {
      assert xs[i := y][1..] == xs[1..];
    }
  }

  /** Deleting a key after replacing the record with that key is deleting it outright. */
  lemma ReplaceThenRemove<T, K>(xs: seq<T>, key: T -> K, x: T)
    ensures RemoveAll(ReplaceFirst(xs, key, x), key, key(x)) == RemoveAll(xs, key, key(x))
  {
    var i := FindIndex(xs, key, key(x));
    if i != -1 {
      RemoveAllUpdateSameKey(xs, i, x, key, key(x));
    }
  }

  /** The sum over a concatenation is the sum of the sums. */
  lemma {:induction false} SumAppend<T>(xs: seq<T>, ys: seq<T>, f: T -> int)
    ensures Sum(xs + ys, f) == Sum(xs, f) + Sum(ys, f)
  {
    if xs != [] {
      assert (xs + ys)[0] == xs[0] && (xs + ys)[1..] == xs[1..] + ys;
      SumAppend(xs[1..], ys, f);
    } else {
      assert xs + ys == ys;
    }
  }

  /** Replacing one element shifts the sum by the difference of the two terms. */
  lemma {:induction false} SumUpdate<T>(xs: seq<T>, i: nat, y: T, f: T -> int)
    requires i < |xs|
    ensures Sum(xs[i := y], f) == Sum(xs, f) - f(xs[i]) + f(y)
  {
    if i > 0 {
      assert xs[i := y][1..] == xs[1..][i - 1 := y];
      SumUpdate(xs[1..], i - 1, y, f);
    } else {
      assert xs[i := y][1..] == xs[1..];
    }
  }

  /** With distinct keys, filtering out a present key removes exactly one term from the sum. */
  lemma {:induction false} SumRemoveAll<T, K>(xs: seq<T>, key: T -> K, k: K, f: T -> int)
    requires DistinctKeys(xs, key)
    requires FindIndex(xs, key, k) != -1
    ensures Sum(RemoveAll(xs, key, k), f) == Sum(xs, f) - f(xs[FindIndex(xs, key, k)])
  {
    var tail := xs[1..];
    if key(xs[0]) == k {
      forall j | 0 <= j < |tail| ensures key(tail[j]) != k {
        assert tail[j] == xs[j + 1];
      }
      RemoveAllAbsent(tail, key, k);
    } else {
      assert DistinctKeys(tail, key) by {
        forall i, j | 0 <= i < j < |tail| ensures key(tail[i]) != key(tail[j]) {
          assert tail[i] == xs[i + 1] && tail[j] == xs[j + 1];
        }
      }
      SumRemoveAll(tail, key, k, f);
    }
  }

  /** A sum of non-negative terms is non-negative. */
  lemma {:induction false} SumNonNegative<T>(xs: seq<T>, f: T -> int)
    requires forall j :: 0 <= j < |xs| ==> f(xs[j]) >= 0
    ensures Sum(xs, f) >= 0
  {
    if xs != [] {
      SumNonNegative(xs[1..], f);
    }
  }
}
