/** Python's `sorted(...)` as the reports use it: on the keys of a dict (a set),
    on a list of period starts (which may repeat), and on service names, which
    Python compares code point by code point. */
module Ordering {
  import opened Calendar

  ghost predicate StrictTotalOrder<T(!new)>(less: (T, T) -> bool) {
    && (forall a :: !less(a, a))
    && (forall a, b, c :: less(a, b) && less(b, c) ==> less(a, c))
    && (forall a, b :: a != b ==> less(a, b) || less(b, a))
  }

  /** Ascending, repeats allowed. */
  predicate Sorted<T>(s: seq<T>, less: (T, T) -> bool) {
    forall i, j :: 0 <= i < j < |s| ==> !less(s[j], s[i])
  }

  /** Ascending without repeats. */
  predicate StrictlySorted<T>(s: seq<T>, less: (T, T) -> bool) {
    forall i, j :: 0 <= i < j < |s| ==> less(s[i], s[j])
  }

  /** Python's `str` order: code point by code point, a proper prefix first. */
  predicate StrLess(a: string, b: string) {
    if |a| == 0 then |b| > 0
    else if |b| == 0 then false
    else if a[0] != b[0] then a[0] < b[0]
    else StrLess(a[1..], b[1..])
  }

  lemma {:induction false} StrLessIrreflexive(a: string)
    ensures !StrLess(a, a)
    decreases |a|
  {
    if |a| > 0 {
      StrLessIrreflexive(a[1..]);
    }
  }

  lemma {:induction false} StrLessTransitive(a: string, b: string, c: string)
    requires StrLess(a, b) && StrLess(b, c)
    ensures StrLess(a, c)
    decreases |a|
  {
    if |a| > 0 && |b| > 0 && |c| > 0 && a[0] == b[0] && b[0] == c[0] {
      StrLessTransitive(a[1..], b[1..], c[1..]);
    }
  }

  lemma {:induction false} StrLessTotal(a: string, b: string)
    requires a != b
    ensures StrLess(a, b) || StrLess(b, a)
    decreases |a|
  {
    if |a| > 0 && |b| > 0 && a[0] == b[0] {
      assert a == [a[0]] + a[1..] && b == [b[0]] + b[1..];
      StrLessTotal(a[1..], b[1..]);
    }
  }

  lemma StrLessIsStrictTotalOrder()
    ensures StrictTotalOrder(StrLess)
  {
    forall a: string ensures !StrLess(a, a) {
      StrLessIrreflexive(a);
    }
    forall a: string, b: string, c: string | StrLess(a, b) && StrLess(b, c) ensures StrLess(a, c) {
      StrLessTransitive(a, b, c);
    }
    forall a: string, b: string | a != b ensures StrLess(a, b) || StrLess(b, a) {
      StrLessTotal(a, b);
    }
  }

  /** Period keys sort chronologically. */
  lemma BeforeIsStrictTotalOrder()
    ensures StrictTotalOrder(Before)
  {
  }

  function Insert<T>(x: T, s: seq<T>, less: (T, T) -> bool): (r: seq<T>)
    ensures multiset(r) == multiset(s) + multiset{x}
  {
    if s == [] then [x]
    else if less(s[0], x) then
      assert s == [s[0]] + s[1..];
      [s[0]] + Insert(x, s[1..], less)
    else [x] + s
  }

  lemma {:induction false} InsertSorted<T(!new)>(x: T, s: seq<T>, less: (T, T) -> bool)
    requires StrictTotalOrder(less) && Sorted(s, less)
    ensures Sorted(Insert(x, s, less), less)
    decreases |s|
  {
    if s != [] {
      var r := Insert(x, s, less);
      if less(s[0], x) {
        var rest := Insert(x, s[1..], less);
        InsertSorted(x, s[1..], less);
        assert r == [s[0]] + rest;
        forall k | 0 <= k < |rest| ensures !less(rest[k], s[0]) {
          assert rest[k] in multiset(rest);
          if rest[k] != x {
            assert rest[k] in multiset(s[1..]);
            var j :| 0 <= j < |s[1..]| && s[1..][j] == rest[k];
            assert s[j + 1] == rest[k];
          }
        }
      } else {
        assert r == [x] + s;
        forall k | 0 <= k < |s| ensures !less(s[k], x) {
          assert !less(s[k], s[0]);
        }
      }
    }
  }

  /** `sorted(xs)` as an insertion sort; `Insert` puts `x` before the first
      element not below it. */
  function InsertionSort<T(!new)>(s: seq<T>, less: (T, T) -> bool): (r: seq<T>)
    requires StrictTotalOrder(less)
    ensures multiset(r) == multiset(s)
    ensures Sorted(r, less)
  {
    if s == [] then []
    else
      assert s == s[..|s| - 1] + [s[|s| - 1]];
      var sorted := InsertionSort(s[..|s| - 1], less);
      InsertSorted(s[|s| - 1], sorted, less);
      Insert(s[|s| - 1], sorted, less)
  }

  /** The least element of a non-empty finite set. */
  method MinOf<T(==,!new)>(s: set<T>, less: (T, T) -> bool) returns (m: T)
    requires s != {} && StrictTotalOrder(less)
    ensures m in s
    ensures forall y :: y in s && y != m ==> less(m, y)
  {
    m :| m in s;
    var todo := s - {m};
    while todo != {}
      invariant todo <= s && m in s && m !in todo
      invariant forall y :: y in s && y !in todo && y != m ==> less(m, y)
      decreases todo
    {
      var y :| y in todo;
      if less(y, m) {
        m := y;
      }
      todo := todo - {y};
    }
  }

  /** `sorted(d.keys())`: the keys of a dict in strictly ascending order. */
  method SortSet<T(==,!new)>(s: set<T>, less: (T, T) -> bool) returns (r: seq<T>)
    requires StrictTotalOrder(less)
    ensures forall x :: x in r <==> x in s
    ensures StrictlySorted(r, less)
  {
    r := [];
    var rest := s;
    while rest != {}
      invariant rest <= s
      invariant forall x :: x in r <==> x in s && x !in rest
      invariant StrictlySorted(r, less)
      invariant forall i, y :: 0 <= i < |r| && y in rest ==> less(r[i], y)
      decreases rest
    {
      var m := MinOf(rest, less);
      r := r + [m];
      rest := rest - {m};
    }
  }

  /** `sorted(...)` on a set of strings. */
  method SortStrings(s: set<string>) returns (r: seq<string>)
    ensures forall x :: x in r <==> x in s
    ensures StrictlySorted(r, StrLess)
  {
    StrLessIsStrictTotalOrder();
    r := SortSet(s, StrLess);
  }
}
