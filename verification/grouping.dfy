/**
 * Grouping a sequence by a key, as Swift's
 * `dictionary[key, default: []].append(element)` loop does, and the
 * order-keeping `filter` and `compactMap` over a sequence.
 */
module Grouping {
  import opened Wrappers
  import opened Sorting

  /** The reference bucket: the elements under `k`, in input order. */
  function Bucket<T(!new), K(==,!new)>(xs: seq<T>, key: T -> K, k: K): (b: seq<T>)
    ensures |b| <= |xs|
    ensures forall i :: 0 <= i < |b| ==> key(b[i]) == k
    ensures forall x :: x in b <==> x in xs && key(x) == k
  {
    if |xs| == 0 then []
    else
      var last := xs[|xs| - 1];
      assert xs == xs[..|xs| - 1] + [last];
      Bucket(xs[..|xs| - 1], key, k) + (if key(last) == k then [last] else [])
  }

  /**
   * A bucket is the input filtered by its key: each element under `k`, as
   * often as it occurs and in input order.
   */
  lemma {:induction false} BucketIsFilter<T(!new), K(!new)>(xs: seq<T>, key: T -> K, k: K)
    ensures Bucket(xs, key, k) == Filter(xs, x => key(x) == k)
    decreases |xs|
  {
    if |xs| > 0 {
      var init, last := xs[..|xs| - 1], xs[|xs| - 1];
      var keep := x => key(x) == k;
      calc {
        Bucket(xs, key, k);
      ==
        Bucket(init, key, k) + (if key(last) == k then [last] else []);
      == { BucketIsFilter(init, key, k); }
        Filter(init, keep) + (if key(last) == k then [last] else []);
      == { assert [last][1..] == []; }
        Filter(init, keep) + Filter([last], keep);
      == { FilterAppend(init, [last], keep); assert init + [last] == xs; }
        Filter(xs, keep);
      }
    }
  }

  /** The dictionary the append loop builds: every bucket that is not empty. */
  function BuildBuckets<T(!new), K(==,!new)>(xs: seq<T>, key: T -> K): (m: map<K, seq<T>>)
    ensures forall k :: k in m <==> 0 < |Bucket(xs, key, k)|
    ensures forall k :: k in m ==> m[k] == Bucket(xs, key, k)
  {
    if |xs| == 0 then map[]
    else
      var m := BuildBuckets(xs[..|xs| - 1], key);
      var last := xs[|xs| - 1];
      var k := key(last);
      m[k := (if k in m then m[k] else []) + [last]]
  }

  /** `xs.filter(keep)`: every passing element as often as it occurs, and nothing else. */
  function Filter<T(!new)>(xs: seq<T>, keep: T -> bool): (r: seq<T>)
    ensures |r| <= |xs|
    ensures forall x :: x in r <==> x in xs && keep(x)
  {
    if |xs| == 0 then []
    else (if keep(xs[0]) then [xs[0]] else []) + Filter(xs[1..], keep)
  }

  /** Each passing element occurs in the result exactly as often as in the input. */
  lemma {:induction false} FilterCounts<T(!new)>(xs: seq<T>, keep: T -> bool)
    ensures forall x :: multiset(Filter(xs, keep))[x] == if keep(x) then multiset(xs)[x] else 0
    decreases |xs|
  {
    if |xs| > 0 {
      assert xs == [xs[0]] + xs[1..];
      FilterCounts(xs[1..], keep);
    }
  }

  /** Filtering works element by element, so it keeps the input order. */
  lemma {:induction false} FilterAppend<T(!new)>(xs: seq<T>, ys: seq<T>, keep: T -> bool)
    ensures Filter(xs + ys, keep) == Filter(xs, keep) + Filter(ys, keep)
    decreases |xs|
  {
    if |xs| == 0 {
      assert xs + ys == ys;
    } else {
      var h := if keep(xs[0]) then [xs[0]] else [];
      calc {
        Filter(xs + ys, keep);
      == { assert (xs + ys)[0] == xs[0] && (xs + ys)[1..] == xs[1..] + ys; }
        h + Filter(xs[1..] + ys, keep);
      == { FilterAppend(xs[1..], ys, keep); }
        h + (Filter(xs[1..], keep) + Filter(ys, keep));
      ==
        (h + Filter(xs[1..], keep)) + Filter(ys, keep);
      }
    }
  }

  lemma {:induction false} FilterAll<T(!new)>(xs: seq<T>, keep: T -> bool)
    requires forall x :: x in xs ==> keep(x)
    ensures Filter(xs, keep) == xs
    decreases |xs|
  {
    if |xs| > 0 {
      FilterAll(xs[1..], keep);
      assert xs == [xs[0]] + xs[1..];
    }
  }

  /** Filtering keeps the relative order of what it keeps. */
  lemma {:induction false} FilterKeepsOrder<T(!new)>(xs: seq<T>, keep: T -> bool, lt: (T, T) -> bool)
    requires SortedBy(xs, lt)
    ensures SortedBy(Filter(xs, keep), lt)
    decreases |xs|
  {
    if |xs| > 0 {
      FilterKeepsOrder(xs[1..], keep, lt);
      var rest := Filter(xs[1..], keep);
      var r := Filter(xs, keep);
      forall j | 0 <= j < |rest| ensures !lt(rest[j], xs[0]) {
        assert rest[j] in xs[1..];
        var k :| 0 <= k < |xs[1..]| && xs[1..][k] == rest[j];
        assert xs[k + 1] == rest[j];
      }
      var head := if keep(xs[0]) then [xs[0]] else [];
      assert r == head + rest;
      var n := |head|;
      forall i, j | 0 <= i < j < |r| ensures !lt(r[j], r[i]) {
        assert r[j] == rest[j - n];
        if i >= n {
          assert r[i] == rest[i - n];
          assert !lt(rest[j - n], rest[i - n]);
        } else {
          assert r[i] == xs[0];
          assert !lt(rest[j - n], xs[0]);
        }
      }
    }
  }

  /** No element occurs twice. */
  predicate Distinct<T(==)>(xs: seq<T>) {
    forall i, j :: 0 <= i < j < |xs| ==> xs[i] != xs[j]
  }

  lemma {:induction false} FilterDistinct<T(!new)>(xs: seq<T>, keep: T -> bool)
    requires Distinct(xs)
    ensures Distinct(Filter(xs, keep))
    decreases |xs|
  {
    if |xs| > 0 {
      FilterDistinct(xs[1..], keep);
      var rest := Filter(xs[1..], keep);
      if keep(xs[0]) {
        var r := [xs[0]] + rest;
        forall i, j | 0 <= i < j < |r| ensures r[i] != r[j] {
          assert r[j] == rest[j - 1];
          if i > 0 {
            assert r[i] == rest[i - 1];
          } else {
            assert rest[j - 1] in xs[1..];
            var k :| 0 <= k < |xs[1..]| && xs[1..][k] == rest[j - 1];
            assert xs[k + 1] == rest[j - 1];
          }
        }
      }
    }
  }

  /** `xs` without its element at position `k`. */
  function RemoveAt<T>(xs: seq<T>, k: nat): (r: seq<T>)
    requires k < |xs|
    ensures |r| == |xs| - 1
    ensures forall i :: 0 <= i < k ==> r[i] == xs[i]
    ensures forall i :: k <= i < |r| ==> r[i] == xs[i + 1]
  {
    xs[..k] + xs[k + 1..]
  }

  /** Filtering out exactly the element at `k` removes it and nothing else. */
  lemma {:induction false} FilterDropsOne<T(!new)>(xs: seq<T>, keep: T -> bool, k: nat)
    requires k < |xs|
    requires forall i :: 0 <= i < |xs| ==> (keep(xs[i]) <==> i != k)
    ensures Filter(xs, keep) == RemoveAt(xs, k)
    decreases |xs|
  {
    var tail := xs[1..];
    if k == 0 {
      calc {
        Filter(xs, keep);
      == { assert !keep(xs[0]); }
        Filter(tail, keep);
      == { forall x | x in tail ensures keep(x) {
             var j :| 0 <= j < |tail| && tail[j] == x;
             assert xs[j + 1] == x;
           }
           FilterAll(tail, keep); }
        tail;
      }
    } else {
      calc {
        Filter(xs, keep);
      == { assert keep(xs[0]); }
        [xs[0]] + Filter(tail, keep);
      == { forall i | 0 <= i < |tail| ensures keep(tail[i]) <==> i != k - 1 {
             assert tail[i] == xs[i + 1];
           }
           FilterDropsOne(tail, keep, k - 1); }
        [xs[0]] + RemoveAt(tail, k - 1);
      == { assert xs[..k] == [xs[0]] + tail[..k - 1] && xs[k + 1..] == tail[k..]; }
        RemoveAt(xs, k);
      }
    }
  }

  lemma {:induction false} FilterNone<T(!new)>(xs: seq<T>, keep: T -> bool)
    requires forall i :: 0 <= i < |xs| ==> !keep(xs[i])
    ensures Filter(xs, keep) == []
    decreases |xs|
  {
    if |xs| > 0 {
      assert !keep(xs[0]);
      forall i | 0 <= i < |xs[1..]| ensures !keep(xs[1..][i]) {
        assert xs[1..][i] == xs[i + 1];
      }
      FilterNone(xs[1..], keep);
    }
  }

  /** When no two elements both pass, at most one comes through. */
  lemma {:induction false} FilterAtMostOne<T(!new)>(xs: seq<T>, keep: T -> bool)
    requires forall i, j :: 0 <= i < j < |xs| ==> !keep(xs[i]) || !keep(xs[j])
    ensures |Filter(xs, keep)| <= 1
    decreases |xs|
  {
    if |xs| > 0 {
      forall i | 0 <= i < |xs[1..]| ensures keep(xs[0]) ==> !keep(xs[1..][i]) {
        assert xs[1..][i] == xs[i + 1];
      }
      if keep(xs[0]) {
        FilterNone(xs[1..], keep);
      } else {
        forall i, j | 0 <= i < j < |xs[1..]| ensures !keep(xs[1..][i]) || !keep(xs[1..][j]) {
          assert xs[1..][i] == xs[i + 1] && xs[1..][j] == xs[j + 1];
        }
        FilterAtMostOne(xs[1..], keep);
      }
    }
  }

  /** `xs.compactMap(f)`: the present results of `f`, in order. */
  function FilterMap<T(!new), U(!new)>(xs: seq<T>, f: T -> Option<U>): (r: seq<U>)
    ensures |r| <= |xs|
    ensures forall y :: y in r <==> exists x :: x in xs && f(x) == Some(y)
  {
    if |xs| == 0 then []
    else
      var head := match f(xs[0]) case Some(y) => [y] case None => [];
      var rest := FilterMap(xs[1..], f);
      assert forall x :: x in xs <==> x == xs[0] || x in xs[1..];
      head + rest
  }

  /** `compactMap` works element by element, so it keeps the input order. */
  lemma {:induction false} FilterMapAppend<T(!new), U(!new)>(xs: seq<T>, ys: seq<T>, f: T -> Option<U>)
    ensures FilterMap(xs + ys, f) == FilterMap(xs, f) + FilterMap(ys, f)
    decreases |xs|
  {
    if |xs| == 0 {
      assert xs + ys == ys;
    } else {
      var h := match f(xs[0]) case Some(y) => [y] case None => [];
      calc {
        FilterMap(xs + ys, f);
      == { assert (xs + ys)[0] == xs[0] && (xs + ys)[1..] == xs[1..] + ys; }
        h + FilterMap(xs[1..] + ys, f);
      == { FilterMapAppend(xs[1..], ys, f); }
        h + (FilterMap(xs[1..], f) + FilterMap(ys, f));
      ==
        (h + FilterMap(xs[1..], f)) + FilterMap(ys, f);
      }
    }
  }

  /** On one element, `compactMap` yields its result if present and nothing otherwise. */
  lemma FilterMapSingle<T(!new), U(!new)>(x: T, f: T -> Option<U>)
    ensures FilterMap([x], f) == match f(x) case Some(y) => [y] case None => []
  {
    assert [x][1..] == [];
  }

  /** A `compactMap` that returns every element unchanged is the identity. */
  lemma {:induction false} FilterMapIdentity<T(!new)>(xs: seq<T>, f: T -> Option<T>)
    requires forall x :: x in xs ==> f(x) == Some(x)
    ensures FilterMap(xs, f) == xs
    decreases |xs|
  {
    if |xs| > 0 {
      assert xs[0] in xs;
      FilterMapIdentity(xs[1..], f);
      assert xs == [xs[0]] + xs[1..];
    }
  }
}
