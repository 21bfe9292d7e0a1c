/**
 * The stable comparison sort behind Swift's `sorted(by:)`, written as an
 * insertion sort over a "strictly before" relation `lt`.
 */
module Sorting {

  /** What `sorted(by:)` demands of its predicate: irreflexive, transitive,
      and with incomparability transitive (negative transitivity). */
  ghost predicate StrictWeakOrder<T(!new)>(lt: (T, T) -> bool) {
    && (forall a :: !lt(a, a))
    && (forall a, b, c :: lt(a, b) && lt(b, c) ==> lt(a, c))
    && (forall a, b, c :: lt(a, c) ==> lt(a, b) || lt(b, c))
  }

  /** No element is strictly before an element to its left. */
  ghost predicate SortedBy<T>(s: seq<T>, lt: (T, T) -> bool) {
    forall i, j :: 0 <= i < j < |s| ==> !lt(s[j], s[i])
  }

  /** Neither element is strictly before the other. */
  predicate Tied<T>(lt: (T, T) -> bool, a: T, b: T) {
    !lt(a, b) && !lt(b, a)
  }

  /** The elements of `s` tied with `x`, in their order in `s`. */
  function Ties<T>(s: seq<T>, lt: (T, T) -> bool, x: T): (r: seq<T>)
    ensures |r| <= |s|
  {
    if |s| == 0 then []
    else (if Tied(lt, s[0], x) then [s[0]] else []) + Ties(s[1..], lt, x)
  }

  /** Puts `x` in front of the first element it is strictly before. */
  function Insert<T>(x: T, s: seq<T>, lt: (T, T) -> bool): (r: seq<T>)
    ensures |r| == |s| + 1
    ensures multiset(r) == multiset(s) + multiset{x}
  {
    if |s| == 0 then [x]
    else if lt(x, s[0]) then [x] + s
    else
      assert s == [s[0]] + s[1..];
      [s[0]] + Insert(x, s[1..], lt)
  }

  /** Inserts the elements one after another, in input order. */
  function Sort<T>(s: seq<T>, lt: (T, T) -> bool): (r: seq<T>)
    ensures |r| == |s|
    ensures multiset(r) == multiset(s)
  {
    if |s| == 0 then []
    else
      assert s == s[..|s| - 1] + [s[|s| - 1]];
      Insert(s[|s| - 1], Sort(s[..|s| - 1], lt), lt)
  }

  /** Sorting neither adds nor loses elements. */
  lemma SortKeepsMembers<T>(s: seq<T>, lt: (T, T) -> bool)
    ensures forall x :: x in Sort(s, lt) <==> x in s
  {
    var r := Sort(s, lt);
    forall x ensures x in r <==> x in s {
      assert x in r <==> x in multiset(r);
      assert x in s <==> x in multiset(s);
    }
  }

  lemma {:induction false} InsertSorted<T(!new)>(x: T, s: seq<T>, lt: (T, T) -> bool)
    requires StrictWeakOrder(lt) && SortedBy(s, lt)
    ensures SortedBy(Insert(x, s, lt), lt)
    decreases |s|
  {
    if |s| == 0 {
    } else if lt(x, s[0]) {
      var r := [x] + s;
      forall i, j | 0 <= i < j < |r| ensures !lt(r[j], r[i]) {
        if i == 0 {
          assert r[j] == s[j - 1];
          if j > 1 { assert !lt(s[j - 1], s[0]); }
        } else {
          assert r[i] == s[i - 1] && r[j] == s[j - 1];
        }
      }
    } else {
      var t := Insert(x, s[1..], lt);
      InsertSorted(x, s[1..], lt);
      forall y | y in t ensures !lt(y, s[0]) {
        assert y in multiset(t);
        if y != x {
          assert y in multiset(s[1..]);
          var k :| 0 <= k < |s[1..]| && s[1..][k] == y;
          assert s[k + 1] == y;
        }
      }
      var r := [s[0]] + t;
      forall i, j | 0 <= i < j < |r| ensures !lt(r[j], r[i]) {
        assert r[j] == t[j - 1];
        if i == 0 {
          assert t[j - 1] in t;
        } else {
          assert r[i] == t[i - 1];
        }
      }
    }
  }

  lemma {:induction false} SortSorted<T(!new)>(s: seq<T>, lt: (T, T) -> bool)
    requires StrictWeakOrder(lt)
    ensures SortedBy(Sort(s, lt), lt)
    decreases |s|
  {
    if |s| > 0 {
      SortSorted(s[..|s| - 1], lt);
      InsertSorted(s[|s| - 1], Sort(s[..|s| - 1], lt), lt);
    }
  }

  lemma {:induction false} TiesAppend<T>(a: seq<T>, b: seq<T>, lt: (T, T) -> bool, x: T)
    ensures Ties(a + b, lt, x) == Ties(a, lt, x) + Ties(b, lt, x)
    decreases |a|
  {
    if |a| == 0 {
      assert a + b == b;
    } else {
      var h := if Tied(lt, a[0], x) then [a[0]] else [];
      assert (a + b)[0] == a[0];
      assert (a + b)[1..] == a[1..] + b;
      assert Ties(a + b, lt, x) == h + Ties(a[1..] + b, lt, x);
      TiesAppend(a[1..], b, lt, x);
      assert Ties(a, lt, x) == h + Ties(a[1..], lt, x);
      assert h + (Ties(a[1..], lt, x) + Ties(b, lt, x)) == (h + Ties(a[1..], lt, x)) + Ties(b, lt, x);
    }
  }

  /** Nothing in `s` is tied with `x` when `y`, tied with `x`, is strictly before all of `s`. */
  lemma {:induction false} NoTiesAfter<T(!new)>(y: T, s: seq<T>, lt: (T, T) -> bool, x: T)
    requires StrictWeakOrder(lt) && Tied(lt, y, x)
    requires forall i :: 0 <= i < |s| ==> lt(y, s[i])
    ensures Ties(s, lt, x) == []
    decreases |s|
  {
    if |s| > 0 {
      assert lt(y, x) || lt(x, s[0]);
      NoTiesAfter(y, s[1..], lt, x);
    }
  }

  lemma BeforeFirstIsBeforeAll<T(!new)>(y: T, s: seq<T>, lt: (T, T) -> bool)
    requires StrictWeakOrder(lt) && SortedBy(s, lt)
    requires 0 < |s| && lt(y, s[0])
    ensures forall i :: 0 <= i < |s| ==> lt(y, s[i])
  {
  }

  lemma {:induction false} InsertTies<T(!new)>(y: T, s: seq<T>, lt: (T, T) -> bool, x: T)
    requires StrictWeakOrder(lt) && SortedBy(s, lt)
    ensures Ties(Insert(y, s, lt), lt, x) == Ties(s, lt, x) + Ties([y], lt, x)
    decreases |s|
  {
    var yt := Ties([y], lt, x);
    assert yt == if Tied(lt, y, x) then [y] else [];
    if |s| == 0 {
      assert Ties(s, lt, x) == [];
    } else if lt(y, s[0]) {
      TiesAppend([y], s, lt, x);
      if Tied(lt, y, x) {
        BeforeFirstIsBeforeAll(y, s, lt);
        NoTiesAfter(y, s, lt, x);
      }
    } else {
      var h := if Tied(lt, s[0], x) then [s[0]] else [];
      var ins := Insert(y, s[1..], lt);
      InsertTies(y, s[1..], lt, x);
      assert Insert(y, s, lt) == [s[0]] + ins;
      assert ([s[0]] + ins)[0] == s[0] && ([s[0]] + ins)[1..] == ins;
      assert Ties(Insert(y, s, lt), lt, x) == h + Ties(ins, lt, x);
      assert Ties(s, lt, x) == h + Ties(s[1..], lt, x);
      assert h + (Ties(s[1..], lt, x) + yt) == (h + Ties(s[1..], lt, x)) + yt;
    }
  }

  /** Stability: elements tied with any `x` come out in their input order. */
  lemma {:induction false} SortStable<T(!new)>(s: seq<T>, lt: (T, T) -> bool, x: T)
    requires StrictWeakOrder(lt)
    ensures Ties(Sort(s, lt), lt, x) == Ties(s, lt, x)
    decreases |s|
  {
    if |s| > 0 {
      var init, last := s[..|s| - 1], s[|s| - 1];
      calc {
        Ties(Sort(s, lt), lt, x);
      == { assert Sort(s, lt) == Insert(last, Sort(init, lt), lt); }
        Ties(Insert(last, Sort(init, lt), lt), lt, x);
      == { SortSorted(init, lt); InsertTies(last, Sort(init, lt), lt, x); }
        Ties(Sort(init, lt), lt, x) + Ties([last], lt, x);
      == { SortStable(init, lt, x); }
        Ties(init, lt, x) + Ties([last], lt, x);
      == { TiesAppend(init, [last], lt, x); assert s == init + [last]; }
        Ties(s, lt, x);
      }
    }
  }

  lemma SortOfShort<T>(s: seq<T>, lt: (T, T) -> bool)
    requires |s| <= 1
    ensures Sort(s, lt) == s
  {
  }
}
