/**
 * Sorted sets as strictly increasing sequences.  A `java.util.TreeSet` and a
 * sorted array of distinct values are both modelled by a sequence that is
 * strictly increasing under a strict total order `lt`; such a sequence is
 * determined by its set of elements (`IncreasingUnique`), which lets a
 * specification speak of "the sorted sequence of a set" (`SortedOf`).
 */
module OrderedSets {

  /** `lt` is irreflexive, transitive and relates any two distinct values. */
  ghost predicate StrictTotalOrder<T(!new)>(lt: (T, T) -> bool) {
    && (forall x :: !lt(x, x))
    && (forall x, y, z :: lt(x, y) && lt(y, z) ==> lt(x, z))
    && (forall x, y :: x != y ==> lt(x, y) || lt(y, x))
  }

  /** Every element is `lt`-below every later element (so there are no duplicates). */
  predicate Increasing<T>(s: seq<T>, lt: (T, T) -> bool) {
    forall i, j :: 0 <= i < j < |s| ==> lt(s[i], s[j])
  }

  /** The set of elements of a sequence. */
  ghost function Elems<T>(s: seq<T>): set<T> {
    set x | x in s
  }

  /** Some element of a non-empty set (the next one an iteration over the set yields). */
  method Choose<T>(s: set<T>) returns (x: T)
    requires s != {}
    ensures x in s
  {
    x :| x in s;
  }

  /** The numeric order on reals (float and double values). */
  function RealLess(a: real, b: real): bool {
    a < b
  }

  /** The numeric order on integers (instants in milliseconds). */
  function IntLess(a: int, b: int): bool {
    a < b
  }

  lemma RealLessIsStrictTotal()
    ensures StrictTotalOrder(RealLess)
  {
  }

  lemma IntLessIsStrictTotal()
    ensures StrictTotalOrder(IntLess)
  {
  }

  /**
   * `TreeSet.add`: puts `x` in its place, or leaves the set as it is when an
   * element comparing equal to `x` is already there.
   */
  function Insert<T(!new)>(s: seq<T>, x: T, lt: (T, T) -> bool): (r: seq<T>)
    requires StrictTotalOrder(lt) && Increasing(s, lt)
    ensures Increasing(r, lt)
    ensures Elems(r) == Elems(s) + {x}
    decreases |s|
  {
    if |s| == 0 then [x]
    else if lt(x, s[0]) then [x] + s
    else if lt(s[0], x) then
      var tail := Insert(s[1..], x, lt);
      assert Elems(s) == {s[0]} + Elems(s[1..]);
      assert forall y :: y in tail ==> lt(s[0], y) by {
        forall y | y in tail ensures lt(s[0], y) {
          assert y in Elems(tail);
        }
      }
      assert Elems([s[0]] + tail) == {s[0]} + Elems(tail);
      [s[0]] + tail
    else s
  }

  /** `TreeSet.addAll`: inserts the elements of `xs` one after the other. */
  function InsertAll<T(!new)>(s: seq<T>, xs: seq<T>, lt: (T, T) -> bool): (r: seq<T>)
    requires StrictTotalOrder(lt) && Increasing(s, lt)
    ensures Increasing(r, lt)
    ensures Elems(r) == Elems(s) + Elems(xs)
    decreases |xs|
  {
    if |xs| == 0 then s
    else
      assert Elems(xs) == {xs[0]} + Elems(xs[1..]);
      InsertAll(Insert(s, xs[0], lt), xs[1..], lt)
  }

  lemma ElemsEmpty<T>(s: seq<T>)
    ensures Elems(s) == {} <==> |s| == 0
  {
    if |s| > 0 {
      assert s[0] in Elems(s);
    }
  }

  /** A strictly increasing sequence is determined by its elements. */
  lemma {:induction false} IncreasingUnique<T(!new)>(a: seq<T>, b: seq<T>, lt: (T, T) -> bool)
    requires StrictTotalOrder(lt)
    requires Increasing(a, lt) && Increasing(b, lt) && Elems(a) == Elems(b)
    ensures a == b
    decreases |a|
  {
    ElemsEmpty(a);
    ElemsEmpty(b);
    if |a| > 0 {
      assert a[0] == b[0] by {
        assert a[0] in Elems(b) && b[0] in Elems(a);
      }
      assert a[0] !in a[1..] by {
        forall i | 0 <= i < |a| - 1 ensures a[1..][i] != a[0] {
          assert lt(a[0], a[i + 1]);
        }
      }
      assert b[0] !in b[1..] by {
        forall i | 0 <= i < |b| - 1 ensures b[1..][i] != b[0] {
          assert lt(b[0], b[i + 1]);
        }
      }
      assert Elems(a) == {a[0]} + Elems(a[1..]);
      assert Elems(b) == {b[0]} + Elems(b[1..]);
      assert Elems(a[1..]) == Elems(b[1..]);
      IncreasingUnique(a[1..], b[1..], lt);
      assert a == [a[0]] + a[1..];
      assert b == [b[0]] + b[1..];
    }
  }

  /** Every finite set can be listed in increasing order. */
  lemma {:induction false} SortedExists<T(!new)>(s: set<T>, lt: (T, T) -> bool)
    requires StrictTotalOrder(lt)
    ensures exists r :: Increasing(r, lt) && Elems(r) == s
    decreases |s|
  {
    if s == {} {
      var r: seq<T> := [];
      assert Increasing(r, lt) && Elems(r) == s;
    } else {
      var x :| x in s;
      SortedExists(s - {x}, lt);
      var r :| Increasing(r, lt) && Elems(r) == s - {x};
      var r' := Insert(r, x, lt);
      assert Increasing(r', lt) && Elems(r') == s;
    }
  }

  /** The elements of `s` in increasing order, without duplicates. */
  ghost function SortedOf<T(!new)>(s: set<T>, lt: (T, T) -> bool): seq<T>
    requires StrictTotalOrder(lt)
  {
    SortedExists(s, lt);
    var r :| Increasing(r, lt) && Elems(r) == s;
    r
  }

  /** `SortedOf(s, lt)` lists `s` in increasing order. */
  lemma SortedOfSorts<T(!new)>(s: set<T>, lt: (T, T) -> bool)
    requires StrictTotalOrder(lt)
    ensures Increasing(SortedOf(s, lt), lt) && Elems(SortedOf(s, lt)) == s
  {
    SortedExists(s, lt);
  }

  /** An increasing listing of `s` is the one `SortedOf` names. */
  lemma IsSortedOf<T(!new)>(r: seq<T>, s: set<T>, lt: (T, T) -> bool)
    requires StrictTotalOrder(lt)
    requires Increasing(r, lt) && Elems(r) == s
    ensures r == SortedOf(s, lt)
  {
    SortedOfSorts(s, lt);
    IncreasingUnique(r, SortedOf(s, lt), lt);
  }

  /** A strictly increasing sequence has as many elements as its set. */
  lemma {:induction false} IncreasingCard<T(!new)>(s: seq<T>, lt: (T, T) -> bool)
    requires StrictTotalOrder(lt) && Increasing(s, lt)
    ensures |Elems(s)| == |s|
    decreases |s|
  {
    if |s| > 0 {
      assert Increasing(s[1..], lt);
      IncreasingCard(s[1..], lt);
      assert s[0] !in s[1..] by {
        forall i | 0 <= i < |s| - 1 ensures s[1..][i] != s[0] {
          assert lt(s[0], s[i + 1]);
        }
      }
      assert Elems(s) == {s[0]} + Elems(s[1..]);
    }
  }
}
