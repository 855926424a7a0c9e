/**
 * One data hypercube (NetCDFDataset): an ordered list of variables, an ordered
 * list of vector pairs, global attributes and the time unit with its epoch.
 * Iterating over a dataset yields the plain list followed by u and v of each
 * pair; its dimensions are the sorted distinct latitudes, longitudes and
 * heights of every data key met on that walk, `None` (Java's null) for an axis
 * with no value.
 */
module Datasets {
  import opened Wrappers
  import opened Coordinates
  import opened OrderedSets
  import opened Variables
  import opened Vectors

  const DefaultTimeUnit: string := "hours since 1990-01-01"

  /** 1990-01-01T00:00Z: 7305 days after 1970-01-01, in milliseconds. */
  const DefaultTimeEpoch: Instant := 631_152_000_000

  /** What the generator reads of a dataset: its variables already flattened. */
  datatype DatasetState = DatasetState(
    variables: seq<VarState>,
    globalAttributes: map<string, string>,
    timeUnit: string,
    timeEpoch: Instant)

  /** NetCDFDataset.Dimensions, with each array as the sequence of its values. */
  datatype Dimensions = Dimensions(
    latitudes: Option<seq<real>>,
    longitudes: Option<seq<real>>,
    heights: Option<seq<real>>)

  /** The components of the pairs: u then v of each pair, pair by pair. */
  function Components(pairs: seq<VectorVariable>): (r: seq<Variable>)
    ensures |r| == 2 * |pairs|
    ensures forall k :: 0 <= k < |pairs| ==> r[2 * k] == pairs[k].u && r[2 * k + 1] == pairs[k].v
  {
    if |pairs| == 0 then []
    else Components(pairs[..|pairs| - 1]) + [pairs[|pairs| - 1].u, pairs[|pairs| - 1].v]
  }

  /** The current state of each variable, in order. */
  function States(vs: seq<Variable>): (r: seq<VarState>)
    reads set v | v in vs
    ensures |r| == |vs|
    ensures forall k :: 0 <= k < |vs| ==> r[k] == vs[k].State()
  {
    if |vs| == 0 then [] else States(vs[..|vs| - 1]) + [vs[|vs| - 1].State()]
  }

  /** The current states of u and v of each pair, pair by pair. */
  function PairStates(pairs: seq<VectorVariable>): (r: seq<VarState>)
    reads set p | p in pairs :: p.u
    reads set p | p in pairs :: p.v
    ensures |r| == 2 * |pairs|
    ensures forall k :: 0 <= k < |pairs| ==> r[2 * k] == pairs[k].u.State() && r[2 * k + 1] == pairs[k].v.State()
  {
    if |pairs| == 0 then []
    else
      var p := pairs[|pairs| - 1];
      PairStates(pairs[..|pairs| - 1]) + [p.u.State(), p.v.State()]
  }

  /** Every data key of every variable in `vs`. */
  ghost function KeysOf(vs: seq<VarState>): set<Coordinate> {
    if |vs| == 0 then {} else KeysOf(vs[..|vs| - 1]) + vs[|vs| - 1].data.Keys
  }

  ghost function LatsIn(keys: set<Coordinate>): set<real> {
    set c | c in keys :: c.lat
  }

  ghost function LonsIn(keys: set<Coordinate>): set<real> {
    set c | c in keys :: c.lon
  }

  /** The axis of a set of values: its increasing listing, or `None` when the set is empty. */
  ghost function AxisOf(s: set<real>): Option<seq<real>> {
    RealLessIsStrictTotal();
    if s == {} then None else Some(SortedOf(s, RealLess))
  }

  /** The axis is missing exactly for the empty set, and otherwise lists the set in increasing order. */
  lemma AxisSorted(s: set<real>)
    ensures AxisOf(s).None? <==> s == {}
    ensures AxisOf(s).Some? ==> Increasing(AxisOf(s).value, RealLess) && Elems(AxisOf(s).value) == s
  {
    RealLessIsStrictTotal();
    if s != {} {
      SortedOfSorts(s, RealLess);
    }
  }

  /** The dimensions `getDimensions` derives from the flattened variables `vs`. */
  ghost function DimensionsOf(vs: seq<VarState>): Dimensions {
    var keys := KeysOf(vs);
    Dimensions(AxisOf(LatsIn(keys)), AxisOf(LonsIn(keys)), AxisOf(HeightsIn(keys)))
  }

  class Dataset {
    var variables: seq<Variable>
    var vectorVariables: seq<VectorVariable>
    var globalAttributes: map<string, string>
    var timeUnit: string
    var timeEpoch: Instant

    /** A new dataset is empty, with unit "hours since 1990-01-01" and that instant as epoch. */
    constructor ()
      ensures variables == [] && vectorVariables == [] && globalAttributes == map[]
      ensures timeUnit == DefaultTimeUnit && timeEpoch == DefaultTimeEpoch
    {
      variables := [];
      vectorVariables := [];
      globalAttributes := map[];
      timeUnit := DefaultTimeUnit;
      timeEpoch := DefaultTimeEpoch;
    }

    /** Replaces both the unit label and the epoch. */
    method SetTimeUnit(unit: string, epoch: Instant)
      modifies this
      ensures timeUnit == unit && timeEpoch == epoch
      ensures variables == old(variables) && vectorVariables == old(vectorVariables)
      ensures globalAttributes == old(globalAttributes)
    {
      timeUnit := unit;
      timeEpoch := epoch;
    }

    /** Sets one global attribute, leaving the others alone. */
    method SetGlobalAttribute(key: string, value: string)
      modifies this
      ensures globalAttributes == old(globalAttributes)[key := value]
      ensures variables == old(variables) && vectorVariables == old(vectorVariables)
      ensures timeUnit == old(timeUnit) && timeEpoch == old(timeEpoch)
    {
      globalAttributes := globalAttributes[key := value];
    }

    /** `setVariables`: `None` (null) clears the list, a list replaces it. */
    method SetVariables(vs: Option<seq<Variable>>)
      modifies this
      ensures variables == if vs.None? then [] else vs.value
      ensures vectorVariables == old(vectorVariables) && globalAttributes == old(globalAttributes)
      ensures timeUnit == old(timeUnit) && timeEpoch == old(timeEpoch)
    {
      if vs.None? {
        variables := [];
      } else {
        variables := vs.value;
      }
    }

    /** Appends a variable. */
    method AddVariable(v: Variable)
      modifies this
      ensures variables == old(variables) + [v]
      ensures vectorVariables == old(vectorVariables) && globalAttributes == old(globalAttributes)
      ensures timeUnit == old(timeUnit) && timeEpoch == old(timeEpoch)
    {
      variables := variables + [v];
    }

    /** `setVectorVariables`: `None` (null) clears the list, a list replaces it. */
    method SetVectorVariables(pairs: Option<seq<VectorVariable>>)
      modifies this
      ensures vectorVariables == if pairs.None? then [] else pairs.value
      ensures variables == old(variables) && globalAttributes == old(globalAttributes)
      ensures timeUnit == old(timeUnit) && timeEpoch == old(timeEpoch)
    {
      if pairs.None? {
        vectorVariables := [];
      } else {
        vectorVariables := pairs.value;
      }
    }

    /** Appends a vector pair. */
    method AddVectorVariable(pair: VectorVariable)
      modifies this
      ensures vectorVariables == old(vectorVariables) + [pair]
      ensures variables == old(variables) && globalAttributes == old(globalAttributes)
      ensures timeUnit == old(timeUnit) && timeEpoch == old(timeEpoch)
    {
      vectorVariables := vectorVariables + [pair];
    }

    /** The flattened view: plain variables, then u and v of each pair. */
    function All(): seq<Variable>
      reads this
    {
      variables + Components(vectorVariables)
    }

    /** The plain variables come first, in order, then the u and v of each vector variable, in order. */
    lemma AllLayout()
      ensures |All()| == |variables| + 2 * |vectorVariables|
      ensures All()[..|variables|] == variables
      ensures forall k :: 0 <= k < |vectorVariables| ==>
        All()[|variables| + 2 * k] == vectorVariables[k].u && All()[|variables| + 2 * k + 1] == vectorVariables[k].v
    {
      var all, n := All(), |variables|;
      assert all[..n] == variables;
      forall k | 0 <= k < |vectorVariables|
        ensures all[n + 2 * k] == vectorVariables[k].u && all[n + 2 * k + 1] == vectorVariables[k].v
      {
        var pairs := Components(vectorVariables);
        assert pairs[2 * k] == vectorVariables[k].u && pairs[2 * k + 1] == vectorVariables[k].v;
      }
    }

    /** The objects `State()` depends on: the dataset, its variables and the components of its vector variables. */
    ghost function Footprint(): (r: set<object>)
      reads this
      ensures this in r
    {
      {this} + (set v: object | v in variables) + (set p | p in vectorVariables :: p.u as object)
        + (set p | p in vectorVariables :: p.v as object)
    }

    /** What the generator reads of the dataset: the states of its variables, flattened as `All()` orders them. */
    ghost function State(): DatasetState
      reads Footprint()
    {
      DatasetState(States(variables) + PairStates(vectorVariables), globalAttributes, timeUnit, timeEpoch)
    }

    /** The variables of `State()` are the states of `All()`, one for one. */
    lemma StateIsFlattened()
      ensures State().variables == States(All())
    {
      var all, flat := All(), State().variables;
      var n := |variables|;
      var pairs := Components(vectorVariables);
      var pairStates := PairStates(vectorVariables);
      forall i | 0 <= i < |all|
        ensures flat[i] == all[i].State()
      {
        if i < n {
          assert all[i] == variables[i];
          assert flat[i] == States(variables)[i];
        } else {
          var j := i - n;
          var k := j / 2;
          assert all[i] == pairs[j];
          assert flat[i] == pairStates[j];
          var pair := vectorVariables[k];
          if j % 2 == 0 {
            assert j == 2 * k;
            assert pairs[j] == pair.u && pairStates[j] == pair.u.State();
          } else {
            assert j == 2 * k + 1;
            assert pairs[j] == pair.v && pairStates[j] == pair.v.State();
          }
        }
      }
    }

    /**
     * `iterator`: a list made of the plain variables followed by u and v of
     * each pair; it is `All()`, of length |variables| + 2 |vectorVariables|.
     */
    method Iterator() returns (all: seq<Variable>)
      ensures all == All()
    {
      all := variables;
      for k := 0 to |vectorVariables|
        invariant all == variables + Components(vectorVariables[..k])
      {
        all := all + [vectorVariables[k].u, vectorVariables[k].v];
        assert vectorVariables[..k + 1][..k] == vectorVariables[..k];
      }
      assert vectorVariables[..|vectorVariables|] == vectorVariables;
    }

    /**
     * `getDimensions`: walks every data key of every variable of the
     * flattened view, collecting latitudes, longitudes and present heights in
     * sets, then turns each set into a sorted array (null when empty).
     */
    method GetDimensions() returns (dims: Dimensions)
      ensures dims == DimensionsOf(State().variables)
    {
      var all := Iterator();
      dims := DimensionsFromAll(all);
      StateIsFlattened();
    }
  }

  /** `getDimensions` over the flattened variables `all`. */
  method DimensionsFromAll(all: seq<Variable>) returns (dims: Dimensions)
    ensures dims == DimensionsOf(States(all))
  {
    var lats, lons, heights := CollectFromAll(all, States(all));
    dims := NewDimensions(lats, lons, heights);
  }

  /** The outer loop of `getDimensions`: the axis values of every key of every variable of `all`. */
  method CollectFromAll(all: seq<Variable>, ghost vs: seq<VarState>) returns (lats: set<real>, lons: set<real>, heights: set<real>)
    requires States(all) == vs
    ensures lats == LatsIn(KeysOf(vs))
    ensures lons == LonsIn(KeysOf(vs))
    ensures heights == HeightsIn(KeysOf(vs))
  {
    lats, lons, heights := {}, {}, {};
    for k := 0 to |all|
      invariant lats == LatsIn(KeysOf(vs[..k]))
      invariant lons == LonsIn(KeysOf(vs[..k]))
      invariant heights == HeightsIn(KeysOf(vs[..k]))
    {
      assert all[k].State() == vs[k];
      lats, lons, heights := CollectAxes(all[k].data.Keys, lats, lons, heights);
      assert vs[..k + 1][..k] == vs[..k];
      AxesOfUnion(KeysOf(vs[..k]), vs[k].data.Keys);
    }
    assert vs[..|all|] == vs;
  }

  /** Each axis (and the instants) of a union of key sets is the union of their axes. */
  lemma AxesOfUnion(a: set<Coordinate>, b: set<Coordinate>)
    ensures LatsIn(a + b) == LatsIn(a) + LatsIn(b)
    ensures LonsIn(a + b) == LonsIn(a) + LonsIn(b)
    ensures HeightsIn(a + b) == HeightsIn(a) + HeightsIn(b)
    ensures DatesIn(a + b) == DatesIn(a) + DatesIn(b)
  {
  }

  /** The inner loop of `getDimensions`: adds the latitude, longitude and height of each key. */
  method CollectAxes(keys: set<Coordinate>, lats0: set<real>, lons0: set<real>, heights0: set<real>)
    returns (lats: set<real>, lons: set<real>, heights: set<real>)
    ensures lats == lats0 + LatsIn(keys)
    ensures lons == lons0 + LonsIn(keys)
    ensures heights == heights0 + HeightsIn(keys)
  {
    lats, lons, heights := lats0, lons0, heights0;
    var remaining := keys;
    while remaining != {}
      invariant remaining <= keys
      invariant lats == lats0 + LatsIn(keys - remaining)
      invariant lons == lons0 + LonsIn(keys - remaining)
      invariant heights == heights0 + HeightsIn(keys - remaining)
      decreases remaining
    {
      var c :| c in remaining;
      ghost var seen := keys - remaining;
      lats := lats + {c.lat};
      lons := lons + {c.lon};
      if c.height.Some? {
        heights := heights + {c.height.value};
      }
      remaining := remaining - {c};
      assert keys - remaining == seen + {c};
    }
  }

  /** The constructor `Dimensions(Set, Set, Set)`: each set becomes its sorted array, or null. */
  method NewDimensions(lats: set<real>, lons: set<real>, heights: set<real>) returns (dims: Dimensions)
    ensures dims == Dimensions(AxisOf(lats), AxisOf(lons), AxisOf(heights))
  {
    var latAxis := SortedAxis(lats);
    var lonAxis := SortedAxis(lons);
    var heightAxis := SortedAxis(heights);
    dims := Dimensions(latAxis, lonAxis, heightAxis);
  }

  /**
   * `floatSetToArray`/`doubleSetToArray` followed by `Arrays.sort`: the
   * values of `s` in increasing order, or `None` (null) when `s` is empty.
   */
  method SortedAxis(s: set<real>) returns (axis: Option<seq<real>>)
    ensures axis.None? <==> s == {}
    ensures axis.Some? ==> Increasing(axis.value, RealLess) && Elems(axis.value) == s
    ensures axis == AxisOf(s)
  {
    var a := SetToArray(s);
    if a == null {
      axis := None;
    } else {
      SortInPlace(a);
      SortedListingOfSet(a[..], s);
      RealLessIsStrictTotal();
      IsSortedOf(a[..], s, RealLess);
      axis := Some(a[..]);
    }
  }

  /** Copies the elements of a set into a new array, in the set's iteration order; null when empty. */
  method SetToArray(s: set<real>) returns (a: array?<real>)
    ensures a == null <==> s == {}
    ensures a != null ==> fresh(a) && multiset(a[..]) == multiset(s)
  {
    if s == {} {
      return null;
    }
    a := new real[|s|];
    var index := 0;
    var remaining := s;
    while remaining != {}
      invariant remaining <= s
      invariant a != null && a.Length == |s|
      invariant 0 <= index && index + |remaining| == |s|
      invariant multiset(a[..index]) == multiset(s - remaining)
      decreases remaining
    {
      var x := Choose(remaining);
      ghost var copied := a[..index];
      a[index] := x;
      assert a[..index + 1] == copied + [x];
      MultisetGrows(s - remaining, x);
      assert s - (remaining - {x}) == (s - remaining) + {x};
      index := index + 1;
      remaining := remaining - {x};
    }
    assert a[..] == a[..index];
  }

  /** Adding a new element to a set adds one occurrence of it to the set's multiset. */
  lemma MultisetGrows(t: set<real>, x: real)
    requires x !in t
    ensures multiset(t + {x}) == multiset(t) + multiset{x}
  {
  }

  /** `Arrays.sort`: sorts in place, ascending, keeping the same elements. */
  method SortInPlace(a: array<real>)
    modifies a
    ensures forall i, j :: 0 <= i < j < a.Length ==> a[i] <= a[j]
    ensures multiset(a[..]) == multiset(old(a[..]))
  {
    var n := 0;
    while n < a.Length
      invariant 0 <= n <= a.Length
      invariant forall i, j :: 0 <= i < j < n ==> a[i] <= a[j]
      invariant multiset(a[..]) == multiset(old(a[..]))
    {
      var k := n;
      while k > 0 && a[k - 1] > a[k]
        invariant 0 <= k <= n
        invariant forall i, j :: 0 <= i < j <= n && j != k ==> a[i] <= a[j]
        invariant multiset(a[..]) == multiset(old(a[..]))
      {
        a[k - 1], a[k] := a[k], a[k - 1];
        k := k - 1;
      }
      n := n + 1;
    }
  }

  /** Two equal elements at different places count twice. */
  lemma DuplicateCountsTwice(x: seq<real>, i: int, j: int)
    requires 0 <= i < j < |x|
    ensures x[i] == x[j] ==> multiset(x)[x[i]] >= 2
  {
    if x[i] == x[j] {
      assert x == x[..j] + x[j..];
      assert x[i] in multiset(x[..j]);
      assert x[j] in multiset(x[j..]);
    }
  }

  /** A sorted listing of a set has no duplicates, so it is strictly increasing. */
  lemma SortedListingOfSet(x: seq<real>, s: set<real>)
    requires forall i, j :: 0 <= i < j < |x| ==> x[i] <= x[j]
    requires multiset(x) == multiset(s)
    ensures Increasing(x, RealLess) && Elems(x) == s
  {
    forall i, j | 0 <= i < j < |x|
      ensures RealLess(x[i], x[j])
    {
      DuplicateCountsTwice(x, i, j);
    }
    forall e
      ensures e in Elems(x) <==> e in s
    {
      assert e in x <==> e in multiset(x);
    }
  }

  /** An axis is missing exactly when the dataset has no data key at all. */
  lemma AxesMissingIffNoData(vs: seq<VarState>)
    ensures DimensionsOf(vs).latitudes.None? <==> KeysOf(vs) == {}
    ensures DimensionsOf(vs).longitudes.None? <==> KeysOf(vs) == {}
  {
    var keys := KeysOf(vs);
    if keys != {} {
      var c :| c in keys;
      assert c.lat in LatsIn(keys);
      assert c.lon in LonsIn(keys);
    }
  }
}
