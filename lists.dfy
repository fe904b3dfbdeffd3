/**
 * The list operations the source relies on: `filter`, a sort by a numeric key
 * (the comparator sort of Array.prototype.sort and Python's list.sort are both
 * stable) and `slice(0, n)` / `[:n]`. Both recommendation engines keep the
 * candidates in range, sort them and take the first few; the trip store
 * filters its scheduled stops.
 *
 * The sort is specified by a stable insertion sort: each element goes in front
 * of the first element whose key is not smaller, so among equal keys the input
 * order survives.
 */
module Lists {
  import opened Wrappers

  /** The elements of `xs` that `p` accepts, in their input order. */
  function Filter<T(!new)>(xs: seq<T>, p: T -> bool): (r: seq<T>)
    ensures |r| <= |xs|
  {
    if xs == [] then []
    else (if p(xs[0]) then [xs[0]] else []) + Filter(xs[1..], p)
  }

  /** Each accepted element is kept as often as it occurs, and no other is. */
  lemma {:induction false} FilterCount<T(!new)>(xs: seq<T>, p: T -> bool)
    ensures forall x :: multiset(Filter(xs, p))[x] == if p(x) then multiset(xs)[x] else 0
  {
    if xs != [] {
      FilterCount(xs[1..], p);
      assert xs == [xs[0]] + xs[1..];
    }
  }

  /** Filtering a list grown at its end, as a loop that appends does. */
  lemma FilterSnoc<T(!new)>(xs: seq<T>, x: T, p: T -> bool)
    ensures Filter(xs + [x], p) == Filter(xs, p) + (if p(x) then [x] else [])
  {
    FilterAppend(xs, [x], p);
    assert [x][1..] == [];
  }

  /** Filtering distributes over concatenation, so the kept elements keep their relative order. */
  lemma {:induction false} FilterAppend<T(!new)>(xs: seq<T>, ys: seq<T>, p: T -> bool)
    ensures Filter(xs + ys, p) == Filter(xs, p) + Filter(ys, p)
  {
    if xs == [] {
      assert [] + ys == ys;
    } else {
      var head := if p(xs[0]) then [xs[0]] else [];
      assert (xs + ys)[0] == xs[0] && (xs + ys)[1..] == xs[1..] + ys;
      FilterAppend(xs[1..], ys, p);
      calc {
        Filter(xs + ys, p);
        head + Filter(xs[1..] + ys, p);
        head + (Filter(xs[1..], p) + Filter(ys, p));
        (head + Filter(xs[1..], p)) + Filter(ys, p);
        Filter(xs, p) + Filter(ys, p);
      }
    }
  }

  /** A filter that accepts every element changes nothing. */
  lemma {:induction false} FilterAll<T(!new)>(xs: seq<T>, p: T -> bool)
    requires forall x :: x in xs ==> p(x)
    ensures Filter(xs, p) == xs
  {
    if xs != [] {
      assert xs[0] in xs;
      assert forall x :: x in xs[1..] ==> x in xs;
      FilterAll(xs[1..], p);
      assert [xs[0]] + xs[1..] == xs;
    }
  }

  /** Every element is accepted, and all accepted elements are kept. */
  lemma FilterMembers<T(!new)>(xs: seq<T>, p: T -> bool)
    ensures forall x :: x in Filter(xs, p) <==> x in xs && p(x)
  {
    FilterCount(xs, p);
    forall x
      ensures x in Filter(xs, p) <==> x in xs && p(x)
    {
      assert x in Filter(xs, p) <==> multiset(Filter(xs, p))[x] > 0;
      assert x in xs <==> multiset(xs)[x] > 0;
    }
  }

  /** Non-decreasing keys. */
  predicate SortedBy<T>(xs: seq<T>, key: T -> real) {
    forall i, j :: 0 <= i < j < |xs| ==> key(xs[i]) <= key(xs[j])
  }

  /** `x` placed in front of the first element of `ys` whose key is at least its own. */
  function Insert<T>(x: T, ys: seq<T>, key: T -> real): (r: seq<T>)
    ensures |r| == |ys| + 1
    ensures multiset(r) == multiset(ys) + multiset{x}
  {
    if ys == [] || key(x) <= key(ys[0]) then [x] + ys
    else
      assert ys == [ys[0]] + ys[1..];
      [ys[0]] + Insert(x, ys[1..], key)
  }

  /** The stable sort by `key`. */
  function SortBy<T>(xs: seq<T>, key: T -> real): (r: seq<T>)
    ensures |r| == |xs|
    ensures multiset(r) == multiset(xs)
  {
    if xs == [] then []
    else
      assert xs == [xs[0]] + xs[1..];
      Insert(xs[0], SortBy(xs[1..], key), key)
  }

  /** A lower bound on every key, the inserted one included, bounds every key after the insertion. */
  lemma {:induction false} InsertLowerBound<T>(x: T, ys: seq<T>, key: T -> real, b: real)
    requires b <= key(x)
    requires forall k :: 0 <= k < |ys| ==> b <= key(ys[k])
    ensures forall k :: 0 <= k < |ys| + 1 ==> b <= key(Insert(x, ys, key)[k])
  {
    if ys != [] && key(ys[0]) < key(x) {
      InsertLowerBound(x, ys[1..], key, b);
    }
  }

  lemma {:induction false} InsertSorted<T>(x: T, ys: seq<T>, key: T -> real)
    requires SortedBy(ys, key)
    ensures SortedBy(Insert(x, ys, key), key)
  {
    if ys != [] && key(ys[0]) < key(x) {
      InsertSorted(x, ys[1..], key);
      InsertLowerBound(x, ys[1..], key, key(ys[0]));
      assert Insert(x, ys, key) == [ys[0]] + Insert(x, ys[1..], key);
    }
  }

  /** The sort's output is in non-decreasing key order. */
  lemma {:induction false} SortBySorted<T>(xs: seq<T>, key: T -> real)
    ensures SortedBy(SortBy(xs, key), key)
  {
    if xs != [] {
      SortBySorted(xs[1..], key);
      InsertSorted(xs[0], SortBy(xs[1..], key), key);
    }
  }

  /** The elements whose key is `e`, in order. */
  function WithKey<T>(xs: seq<T>, key: T -> real, e: real): seq<T> {
    if xs == [] then []
    else (if key(xs[0]) == e then [xs[0]] else []) + WithKey(xs[1..], key, e)
  }

  lemma {:induction false} InsertWithKey<T>(x: T, ys: seq<T>, key: T -> real, e: real)
    ensures WithKey(Insert(x, ys, key), key, e)
         == (if key(x) == e then [x] else []) + WithKey(ys, key, e)
  {
    if ys == [] || key(x) <= key(ys[0]) {
      assert ([x] + ys)[1..] == ys;
    } else {
      var t := Insert(x, ys[1..], key);
      var here := if key(ys[0]) == e then [ys[0]] else [];
      var mine := if key(x) == e then [x] else [];
      assert Insert(x, ys, key) == [ys[0]] + t;
      assert ([ys[0]] + t)[1..] == t;
      InsertWithKey(x, ys[1..], key, e);
      calc {
        WithKey(Insert(x, ys, key), key, e);
        here + WithKey(t, key, e);
        here + (mine + WithKey(ys[1..], key, e));
        { assert here == [] || mine == [] || here == mine; }
        mine + (here + WithKey(ys[1..], key, e));
        mine + WithKey(ys, key, e);
      }
    }
  }

  /** Stability: the elements of each key keep their input order. */
  lemma {:induction false} SortByStable<T>(xs: seq<T>, key: T -> real, e: real)
    ensures WithKey(SortBy(xs, key), key, e) == WithKey(xs, key, e)
  {
    if xs != [] {
      SortByStable(xs[1..], key, e);
      InsertWithKey(xs[0], SortBy(xs[1..], key), key, e);
    }
  }

  /** Whether an element's key is at most `bound` (the inclusive range test). */
  function AtMost<T>(key: T -> real, bound: real): T -> bool {
    x => key(x) <= bound
  }

  /** Filtering on the key keeps each key's elements whole, in order, or drops them all. */
  lemma {:induction false} WithKeyAtMost<T(!new)>(xs: seq<T>, key: T -> real, bound: real, e: real)
    ensures WithKey(Filter(xs, AtMost(key, bound)), key, e) == if e <= bound then WithKey(xs, key, e) else []
  {
    if xs != [] {
      WithKeyAtMost(xs[1..], key, bound, e);
      var f := Filter(xs[1..], AtMost(key, bound));
      if key(xs[0]) <= bound {
        assert Filter(xs, AtMost(key, bound)) == [xs[0]] + f;
        assert ([xs[0]] + f)[1..] == f;
      } else {
        assert Filter(xs, AtMost(key, bound)) == f;
      }
    }
  }

  /** The candidates whose key is at most `bound`, stably sorted by that key. */
  function Within<T(!new)>(xs: seq<T>, key: T -> real, bound: real): seq<T> {
    SortBy(Filter(xs, AtMost(key, bound)), key)
  }

  /**
   * `Within` keeps exactly the elements within the bound, each as often as it
   * occurs, puts them nearest first, and leaves ties in input order.
   */
  lemma WithinSpec<T(!new)>(xs: seq<T>, key: T -> real, bound: real)
    ensures forall x :: multiset(Within(xs, key, bound))[x] == if key(x) <= bound then multiset(xs)[x] else 0
    ensures SortedBy(Within(xs, key, bound), key)
    ensures forall e :: WithKey(Within(xs, key, bound), key, e) == if e <= bound then WithKey(xs, key, e) else []
  {
    var f := Filter(xs, AtMost(key, bound));
    FilterCount(xs, AtMost(key, bound));
    SortBySorted(f, key);
    forall e
      ensures WithKey(Within(xs, key, bound), key, e) == if e <= bound then WithKey(xs, key, e) else []
    {
      SortByStable(f, key, e);
      WithKeyAtMost(xs, key, bound, e);
    }
  }

  /** The first `n` elements, or all of them when there are fewer (`slice(0, n)`, `[:n]`). */
  function Take<T>(xs: seq<T>, n: nat): (r: seq<T>)
    ensures |r| <= n && |r| <= |xs|
    ensures |r| == n || |r| == |xs|
    ensures r <= xs
  {
    if |xs| <= n then xs else xs[..n]
  }

  /** Taking from a sorted list keeps it sorted and keeps the nearest: nothing left behind comes before what was taken. */
  lemma TakeNearest<T>(xs: seq<T>, key: T -> real, n: nat)
    requires SortedBy(xs, key)
    ensures SortedBy(Take(xs, n), key)
    ensures forall i, j :: 0 <= i < |Take(xs, n)| <= j < |xs| ==> key(Take(xs, n)[i]) <= key(xs[j])
  {
    var r := Take(xs, n);
    assert forall i :: 0 <= i < |r| ==> r[i] == xs[i];
  }

  /** `xs.find(x => key(x) === k)`: the first element whose key is `k`, if there is one. */
  function FindFirst<T, K(==)>(xs: seq<T>, key: T -> K, k: K): (r: Option<T>)
    ensures r.None? <==> forall i :: 0 <= i < |xs| ==> key(xs[i]) != k
    ensures r.Some? ==> exists i :: 0 <= i < |xs| && xs[i] == r.value && key(xs[i]) == k &&
                          forall j :: 0 <= j < i ==> key(xs[j]) != k
  {
    if xs == [] then None
    else if key(xs[0]) == k then Some(xs[0])
    else
      var r := FindFirst(xs[1..], key, k);
      assert r.Some? ==> exists i :: 1 <= i < |xs| && xs[i] == r.value && key(xs[i]) == k &&
                            forall j :: 0 <= j < i ==> key(xs[j]) != k by {
        if r.Some? {
          var m :| 0 <= m < |xs| - 1 && xs[1..][m] == r.value && key(xs[1..][m]) == k &&
                   forall j :: 0 <= j < m ==> key(xs[1..][j]) != k;
          assert forall j :: 0 <= j < m + 1 ==> key(xs[j]) != k by {
            forall j | 0 <= j < m + 1
              ensures key(xs[j]) != k
            {
              if j > 0 {
                assert xs[j] == xs[1..][j - 1];
              }
            }
          }
        }
      }
      r
  }
}
