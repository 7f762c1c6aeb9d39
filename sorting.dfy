/** Python's `sorted(xs, key=...)` as a stable insertion sort over a
    "less than or equal" relation on the keys. */
module Sorting {

  /** `le` orders every pair and is transitive, as `<=` on Python tuples of
      strings and ints is. */
  ghost predicate TotalPreorder<T(!new)>(le: (T, T) -> bool) {
    && (forall a, b :: le(a, b) || le(b, a))
    && (forall a, b, c :: le(a, b) && le(b, c) ==> le(a, c))
  }

  ghost predicate SortedBy<T>(s: seq<T>, le: (T, T) -> bool) {
    forall i, j :: 0 <= i < j < |s| ==> le(s[i], s[j])
  }

  /** Inserts `x` after every element of `s` that is not greater than it, so
      that equal keys keep their original order. */
  function Insert<T>(x: T, s: seq<T>, le: (T, T) -> bool): (r: seq<T>)
    ensures multiset(r) == multiset(s) + multiset{x}
  {
    if s == [] then [x]
    else if le(s[|s| - 1], x) then s + [x]
    else
      assert s == s[..|s| - 1] + [s[|s| - 1]];
      Insert(x, s[..|s| - 1], le) + [s[|s| - 1]]
  }

  function SortBy<T>(s: seq<T>, le: (T, T) -> bool): (r: seq<T>)
    ensures multiset(r) == multiset(s)
  {
    if s == [] then []
    else
      assert s == s[..|s| - 1] + [s[|s| - 1]];
      Insert(s[|s| - 1], SortBy(s[..|s| - 1], le), le)
  }

  lemma {:induction false} InsertSorted<T(!new)>(x: T, s: seq<T>, le: (T, T) -> bool)
    requires TotalPreorder(le) && SortedBy(s, le)
    ensures SortedBy(Insert(x, s, le), le)
  {
    if s != [] {
      var last := s[|s| - 1];
      var init := s[..|s| - 1];
      if le(last, x) {
        var r := s + [x];
        forall i, j | 0 <= i < j < |r| ensures le(r[i], r[j]) {
          if j == |s| && i < |s| - 1 {
            assert le(s[i], last);
          }
        }
      } else {
        assert le(x, last);
        InsertSorted(x, init, le);
        var m := Insert(x, init, le);
        var r := m + [last];
        forall i, j | 0 <= i < j < |r| ensures le(r[i], r[j]) {
          if j == |m| {
            assert r[i] in multiset(m);
            assert r[i] == x || r[i] in multiset(init);
            if r[i] != x {
              var k :| 0 <= k < |init| && init[k] == r[i];
              assert le(s[k], s[|s| - 1]);
            }
          }
        }
      }
    }
  }

  /** `SortBy` returns its input sorted by `le`. */
  lemma {:induction false} SortBySorted<T(!new)>(s: seq<T>, le: (T, T) -> bool)
    requires TotalPreorder(le)
    ensures SortedBy(SortBy(s, le), le)
  {
    if s != [] {
      SortBySorted(s[..|s| - 1], le);
      InsertSorted(s[|s| - 1], SortBy(s[..|s| - 1], le), le);
    }
  }

  /** The elements of `s` whose key ties with `y`'s (each `le` the other),
      in the order `s` holds them. */
  function Tied<T>(s: seq<T>, y: T, le: (T, T) -> bool): (r: seq<T>)
    ensures |r| <= |s|
    ensures forall k :: 0 <= k < |r| ==> le(r[k], y) && le(y, r[k])
  {
    if s == [] then []
    else
      var x := s[|s| - 1];
      Tied(s[..|s| - 1], y, le) + (if le(x, y) && le(y, x) then [x] else [])
  }

  lemma TiedSnoc<T>(s: seq<T>, x: T, y: T, le: (T, T) -> bool)
    ensures Tied(s + [x], y, le) == Tied(s, y, le) + (if le(x, y) && le(y, x) then [x] else [])
  {
    assert (s + [x])[..|s|] == s;
  }

  lemma Transitive<T(!new)>(le: (T, T) -> bool, a: T, b: T, c: T)
    requires TotalPreorder(le) && le(a, b) && le(b, c)
    ensures le(a, c)
  {
  }

  /** Inserting `x` adds it to the elements tied with `y` after all of them:
      it is placed after every element that is not greater, and a greater
      element cannot tie with `y` when `x` does. */
  lemma {:induction false} InsertTied<T(!new)>(x: T, s: seq<T>, y: T, le: (T, T) -> bool)
    requires TotalPreorder(le)
    ensures Tied(Insert(x, s, le), y, le) == Tied(s, y, le) + (if le(x, y) && le(y, x) then [x] else [])
  {
    if s != [] {
      var last := s[|s| - 1];
      var init := s[..|s| - 1];
      assert s == init + [last];
      var tx := if le(x, y) && le(y, x) then [x] else [];
      var tl := if le(last, y) && le(y, last) then [last] else [];
      TiedSnoc(init, last, y, le);
      if le(last, x) {
        assert Insert(x, s, le) == s + [x];
        TiedSnoc(s, x, y, le);
      } else {
        var m := Insert(x, init, le);
        assert Insert(x, s, le) == m + [last];
        InsertTied(x, init, y, le);
        TiedSnoc(m, last, y, le);
        if tx != [] {
          if le(last, y) {
            Transitive(le, last, y, x);
          }
          assert tl == [];
        }
        assert tx + tl == tl + tx;
      }
    }
  }

  /** `sorted` is stable: the elements whose keys tie with any given one
      come out in the order they went in. */
  lemma {:induction false} SortByStable<T(!new)>(s: seq<T>, y: T, le: (T, T) -> bool)
    requires TotalPreorder(le)
    ensures Tied(SortBy(s, le), y, le) == Tied(s, y, le)
  {
    if s != [] {
      var init := s[..|s| - 1];
      SortByStable(init, y, le);
      InsertTied(s[|s| - 1], SortBy(init, le), y, le);
    }
  }

  /** Sorting keeps exactly the elements it was given. */
  lemma SortByMembers<T>(s: seq<T>, le: (T, T) -> bool, x: T)
    ensures x in SortBy(s, le) <==> x in s
  {
    assert x in SortBy(s, le) <==> x in multiset(SortBy(s, le));
    assert x in s <==> x in multiset(s);
  }
}
