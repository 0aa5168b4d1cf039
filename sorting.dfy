/** `OrderByDescending(key)`: a stable sort on a sequence, highest key first. */
module Sorting {

  predicate SortedDesc<T>(xs: seq<T>, key: T -> int) {
    forall i, j :: 0 <= i < j < |xs| ==> key(xs[i]) >= key(xs[j])
  }

  /** The elements of `xs` whose key is `k`, in their order in `xs`. */
  function WithKey<T>(xs: seq<T>, key: T -> int, k: int): seq<T>
    decreases |xs|
  {
    if |xs| == 0 then []
    else WithKey(xs[..|xs| - 1], key, k) + (if key(xs[|xs| - 1]) == k then [xs[|xs| - 1]] else [])
  }

  /** Inserts `x` into a descending sequence after every element whose key is at least `x`'s. */
  function Insert<T>(x: T, xs: seq<T>, key: T -> int): (r: seq<T>)
    ensures multiset(r) == multiset(xs) + multiset{x}
    ensures |r| == |xs| + 1
    decreases |xs|
  {
    if |xs| == 0 then [x]
    else if key(xs[|xs| - 1]) >= key(x) then xs + [x]
    else
      assert xs == xs[..|xs| - 1] + [xs[|xs| - 1]];
      Insert(x, xs[..|xs| - 1], key) + [xs[|xs| - 1]]
  }

  function SortDesc<T>(xs: seq<T>, key: T -> int): (r: seq<T>)
    ensures multiset(r) == multiset(xs)
    ensures |r| == |xs|
    decreases |xs|
  {
    if |xs| == 0 then []
    else
      assert xs == xs[..|xs| - 1] + [xs[|xs| - 1]];
      Insert(xs[|xs| - 1], SortDesc(xs[..|xs| - 1], key), key)
  }

  lemma {:induction false} InsertSorted<T>(x: T, xs: seq<T>, key: T -> int)
    requires SortedDesc(xs, key)
    ensures SortedDesc(Insert(x, xs, key), key)
    ensures |xs| > 0 ==> Insert(x, xs, key)[|xs|] == x || Insert(x, xs, key)[|xs|] == xs[|xs| - 1]
    decreases |xs|
  {
    if |xs| > 0 && key(xs[|xs| - 1]) < key(x) {
      var init := xs[..|xs| - 1];
      InsertSorted(x, init, key);
      var r := Insert(x, init, key);
      assert forall y :: y in multiset(r) ==> y == x || y in multiset(init);
      forall i | 0 <= i < |r|
        ensures key(r[i]) >= key(xs[|xs| - 1])
      {
        assert r[i] in multiset(r);
        if r[i] != x {
          assert r[i] in multiset(init);
          var j :| 0 <= j < |init| && init[j] == r[i];
        }
      }
    }
  }

  lemma {:induction false} SortDescSorted<T>(xs: seq<T>, key: T -> int)
    ensures SortedDesc(SortDesc(xs, key), key)
    decreases |xs|
  {
    if |xs| > 0 {
      SortDescSorted(xs[..|xs| - 1], key);
      InsertSorted(xs[|xs| - 1], SortDesc(xs[..|xs| - 1], key), key);
    }
  }

  lemma {:induction false} WithKeyAppend<T>(xs: seq<T>, ys: seq<T>, key: T -> int, k: int)
    ensures WithKey(xs + ys, key, k) == WithKey(xs, key, k) + WithKey(ys, key, k)
    decreases |ys|
  {
    if |ys| == 0 {
      assert xs + ys == xs;
    } else {
      assert (xs + ys)[..|xs + ys| - 1] == xs + ys[..|ys| - 1];
      WithKeyAppend(xs, ys[..|ys| - 1], key, k);
    }
  }

  lemma WithKeySingle<T>(x: T, key: T -> int, k: int)
    ensures WithKey([x], key, k) == if key(x) == k then [x] else []
  {
    assert [x][..0] == [];
  }

  /** Elements whose key is at least `x`'s stay ahead of it, so among equal keys `x` comes last. */
  lemma {:induction false} InsertWithKey<T>(x: T, xs: seq<T>, key: T -> int, k: int)
    ensures WithKey(Insert(x, xs, key), key, k) == WithKey(xs, key, k) + WithKey([x], key, k)
    decreases |xs|
  {
    if |xs| == 0 {
      assert Insert(x, xs, key) == [x];
    } else if key(xs[|xs| - 1]) >= key(x) {
      assert Insert(x, xs, key) == xs + [x];
      WithKeyAppend(xs, [x], key, k);
    } else {
      var init := xs[..|xs| - 1];
      var last := xs[|xs| - 1];
      assert Insert(x, xs, key) == Insert(x, init, key) + [last];
      InsertWithKey(x, init, key, k);
      WithKeyAppend(Insert(x, init, key), [last], key, k);
      WithKeyAppend(init, [last], key, k);
      assert init + [last] == xs;
      WithKeySingle(x, key, k);
      WithKeySingle(last, key, k);
      assert WithKey([x], key, k) + WithKey([last], key, k) == WithKey([last], key, k) + WithKey([x], key, k);
    }
  }

  /** The sort is stable: the elements sharing any one key keep their relative order. */
  lemma {:induction false} SortDescStable<T>(xs: seq<T>, key: T -> int, k: int)
    ensures WithKey(SortDesc(xs, key), key, k) == WithKey(xs, key, k)
    decreases |xs|
  {
    if |xs| > 0 {
      var init := xs[..|xs| - 1];
      var last := xs[|xs| - 1];
      assert init + [last] == xs;
      assert SortDesc(xs, key) == Insert(last, SortDesc(init, key), key);
      SortDescStable(init, key, k);
      InsertWithKey(last, SortDesc(init, key), key, k);
      WithKeyAppend(init, [last], key, k);
    }
  }
}
