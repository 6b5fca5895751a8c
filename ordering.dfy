/** Python's comparison of strings and of lists, and `sorted(...)` applied to a set. */
module Ordering {

  ghost predicate StrictTotalOrder<T(!new)>(less: (T, T) -> bool) {
    && (forall a :: !less(a, a))
    && (forall a, b, c :: less(a, b) && less(b, c) ==> less(a, c))
    && (forall a, b :: a != b ==> less(a, b) || less(b, a))
  }

  /** Element-by-element comparison in which a proper prefix comes first:
      how Python orders two strings, and two lists. */
  function LexLess<T(==)>(a: seq<T>, b: seq<T>, less: (T, T) -> bool): bool
    decreases |a|
  {
    if |a| == 0 then |b| > 0
    else if |b| == 0 then false
    else if a[0] == b[0] then LexLess(a[1..], b[1..], less)
    else less(a[0], b[0])
  }

  lemma {:induction false} LexLessIrreflexive<T>(a: seq<T>, less: (T, T) -> bool)
    ensures !LexLess(a, a, less)
    decreases |a|
  {
    if |a| > 0 {
      LexLessIrreflexive(a[1..], less);
    }
  }

  lemma {:induction false} LexLessTransitive<T(!new)>(a: seq<T>, b: seq<T>, c: seq<T>, less: (T, T) -> bool)
    requires StrictTotalOrder(less)
    requires LexLess(a, b, less) && LexLess(b, c, less)
    ensures LexLess(a, c, less)
    decreases |a|
  {
    if |a| > 0 && a[0] == b[0] && b[0] == c[0] {
      LexLessTransitive(a[1..], b[1..], c[1..], less);
    }
  }

  lemma {:induction false} LexLessTotal<T>(a: seq<T>, b: seq<T>, less: (T, T) -> bool)
    requires forall x, y :: x != y ==> less(x, y) || less(y, x)
    requires a != b
    ensures LexLess(a, b, less) || LexLess(b, a, less)
    decreases |a|
  {
    if |a| > 0 && |b| > 0 && a[0] == b[0] {
      assert a == [a[0]] + a[1..] && b == [b[0]] + b[1..];
      LexLessTotal(a[1..], b[1..], less);
    }
  }

  function CharLess(a: char, b: char): bool {
    a < b
  }

  /** Python's `a < b` on two `str` values (code point by code point). */
  function StrLess(a: string, b: string): bool {
    LexLess(a, b, CharLess)
  }

  lemma StrLessIsStrictTotal()
    ensures StrictTotalOrder(StrLess)
  {
    assert StrictTotalOrder(CharLess);
    forall a: string ensures !StrLess(a, a) {
      LexLessIrreflexive(a, CharLess);
    }
    forall a: string, b: string, c: string | StrLess(a, b) && StrLess(b, c) ensures StrLess(a, c) {
      LexLessTransitive(a, b, c, CharLess);
    }
    forall a: string, b: string | a != b ensures StrLess(a, b) || StrLess(b, a) {
      LexLessTotal(a, b, CharLess);
    }
  }

  predicate StrictlySorted<T>(r: seq<T>, less: (T, T) -> bool) {
    forall i, j :: 0 <= i < j < |r| ==> less(r[i], r[j])
  }

  /** A sorted sequence stays sorted when an element above all of it is added. */
  lemma SortedSnoc<T>(r: seq<T>, x: T, less: (T, T) -> bool)
    requires StrictlySorted(r, less)
    requires forall k :: 0 <= k < |r| ==> less(r[k], x)
    ensures StrictlySorted(r + [x], less)
  {
    forall i, j | 0 <= i < j < |r + [x]| ensures less((r + [x])[i], (r + [x])[j]) {
      if j < |r| {
        assert (r + [x])[i] == r[i] && (r + [x])[j] == r[j];
      }
    }
  }

  /** Neighbours in order is enough for the whole sequence to be in order. */
  lemma {:induction false} SortedByNeighbours<T(!new)>(r: seq<T>, less: (T, T) -> bool)
    requires StrictTotalOrder(less)
    requires forall i :: 0 <= i < |r| - 1 ==> less(r[i], r[i + 1])
    ensures StrictlySorted(r, less)
    decreases |r|
  {
    if |r| > 1 {
      SortedByNeighbours(r[1..], less);
      forall j | 1 <= j < |r| ensures less(r[0], r[j]) {
        if j > 1 {
          assert less(r[1..][0], r[1..][j - 1]);
        }
      }
    }
  }

  predicate IsLeast<T>(m: T, s: set<T>, less: (T, T) -> bool) {
    m in s && forall y :: y in s && y != m ==> less(m, y)
  }

  /** Every non-empty finite set has a least element. */
  lemma {:induction false} LeastExists<T(!new)>(s: set<T>, less: (T, T) -> bool)
    requires StrictTotalOrder(less) && s != {}
    ensures exists m :: IsLeast(m, s, less)
    decreases |s|
  {
    var x :| x in s;
    var rest := s - {x};
    if rest == {} {
      assert s == {x};
      assert IsLeast(x, s, less);
    } else {
      LeastExists(rest, less);
      var m :| IsLeast(m, rest, less);
      if less(m, x) {
        assert IsLeast(m, s, less);
      } else {
        assert m != x && less(x, m);
        assert IsLeast(x, s, less);
      }
    }
  }

  lemma LeastUnique<T(!new)>(s: set<T>, less: (T, T) -> bool)
    requires StrictTotalOrder(less)
    ensures forall m, n :: IsLeast(m, s, less) && IsLeast(n, s, less) ==> m == n
  {
  }

  /** `sorted(s)` for a set: its elements in increasing order, each once. */
  function SortedOf<T(!new)>(s: set<T>, less: (T, T) -> bool): (r: seq<T>)
    requires StrictTotalOrder(less)
    ensures StrictlySorted(r, less)
    ensures forall x :: x in r <==> x in s
    ensures |r| == |s|
    decreases |s|
  {
    if s == {} then []
    else
      LeastExists(s, less);
      LeastUnique(s, less);
      var m :| IsLeast(m, s, less);
      [m] + SortedOf(s - {m}, less)
  }

  /** A strictly sorted sequence is determined by its set of elements. */
  lemma {:induction false} SortedUnique<T(!new)>(a: seq<T>, b: seq<T>, less: (T, T) -> bool)
    requires StrictTotalOrder(less)
    requires StrictlySorted(a, less) && StrictlySorted(b, less)
    requires forall x :: x in a <==> x in b
    ensures a == b
    decreases |a|
  {
    if |b| > 0 {
      assert b[0] in a;
    }
    if |a| > 0 {
      assert |b| > 0 by { assert a[0] in b; }
      assert a[0] in b && b[0] in a;
      assert a[0] == b[0];
      forall x ensures x in a[1..] <==> x in b[1..] {
        if x in a[1..] {
          var k :| 1 <= k < |a| && a[k] == x;
          assert less(a[0], a[k]);
        }
        if x in b[1..] {
          var k :| 1 <= k < |b| && b[k] == x;
          assert less(b[0], b[k]);
        }
        assert x in a <==> x == a[0] || x in a[1..] by { assert a == [a[0]] + a[1..]; }
        assert x in b <==> x == b[0] || x in b[1..] by { assert b == [b[0]] + b[1..]; }
      }
      SortedUnique(a[1..], b[1..], less);
      assert a == [a[0]] + a[1..] && b == [b[0]] + b[1..];
    }
  }
}
