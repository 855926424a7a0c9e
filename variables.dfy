/**
 * A named variable: a sparse map from coordinate keys to values plus a map of
 * string attributes (AbstractNetCDFVariable).  Its three Java subclasses, which
 * differ only in the keys their typed `addDataPoint`/`getValue` build, are
 * one class here, tagged with its `Shape`.
 */
module Variables {
  import opened Wrappers
  import opened Coordinates
  import opened OrderedSets

  /** NetCDFVariable, NetCDFTimeVariable and NetCDFTimeDepthVariable. */
  datatype Shape = Plain | Timed | TimeDepth

  /** The value of a variable at one moment: what the generator reads of it. */
  datatype VarState = VarState(
    name: string,
    shape: Shape,
    attributes: map<string, string>,
    data: map<Coordinate, real>)

  /** `HashMap.get`: the value stored under exactly this key, or `None` (Java's null). */
  function Lookup(data: map<Coordinate, real>, c: Coordinate): (r: Option<real>)
    ensures r.Some? <==> c in data
    ensures r.Some? ==> r.value == data[c]
  {
    if c in data then Some(data[c]) else None
  }

  /** The instants present among `keys`. */
  ghost function DatesIn(keys: set<Coordinate>): set<Instant> {
    set c | c in keys && c.date.Some? :: c.date.value
  }

  /** The heights present among `keys`. */
  ghost function HeightsIn(keys: set<Coordinate>): set<real> {
    set c | c in keys && c.height.Some? :: c.height.value
  }

  class Variable {
    const name: string
    const shape: Shape
    var attributes: map<string, string>
    var data: map<Coordinate, real>

    function State(): VarState
      reads this
    {
      VarState(name, shape, attributes, data)
    }

    /** A new variable has no data and the single attribute "units". */
    constructor (name: string, units: string, shape: Shape)
      ensures this.name == name && this.shape == shape
      ensures attributes == map["units" := units]
      ensures data == map[]
    {
      this.name := name;
      this.shape := shape;
      attributes := map[];
      data := map[];
      new;
      SetAttribute("units", units);
    }

    /** Sets one attribute, replacing an earlier value of the same key. */
    method SetAttribute(key: string, value: string)
      modifies this
      ensures attributes == old(attributes)[key := value]
      ensures data == old(data)
    {
      attributes := attributes[key := value];
    }

    /** `getValue(coordinate)`: the value stored under an equal key, if any. */
    function GetValue(c: Coordinate): Option<real>
      reads this
    {
      Lookup(data, c)
    }

    /** Stores `value` under `c`; the last value stored under a key wins. */
    method AddDataPoint(c: Coordinate, value: real)
      modifies this
      ensures data == old(data)[c := value]
      ensures attributes == old(attributes)
      ensures GetValue(c) == Some(value)
      ensures forall k :: k != c ==> GetValue(k) == old(GetValue(k))
    {
      data := data[c := value];
    }

    /**
     * `getDates`: the instants of the data keys, in increasing order and
     * without duplicates (a TreeSet filled while walking the key set).
     */
    method GetDates() returns (dates: seq<Instant>)
      ensures Increasing(dates, IntLess)
      ensures Elems(dates) == DatesIn(data.Keys)
    {
      IntLessIsStrictTotal();
      dates := [];
      var remaining := data.Keys;
      while remaining != {}
        invariant remaining <= data.Keys
        invariant Increasing(dates, IntLess)
        invariant Elems(dates) == DatesIn(data.Keys - remaining)
        decreases remaining
      {
        var c :| c in remaining;
        if c.date.Some? {
          dates := Insert(dates, c.date.value, IntLess);
        }
        remaining := remaining - {c};
        assert data.Keys - remaining == (data.Keys - (remaining + {c})) + {c};
      }
    }

    // NetCDFVariable: keys with neither instant nor height.

    /** `getValue(lat, lon)` of a plain variable. */
    function GetPlainValue(lat: real, lon: real): (r: Option<real>)
      requires shape == Plain
      reads this
      ensures r.Some? <==> Coordinate(lat, lon, None, None) in data
      ensures r.Some? ==> r.value == data[PlainKey(lat, lon)]
    {
      GetValue(PlainKey(lat, lon))
    }

    /** `addDataPoint(lat, lon, value)` of a plain variable. */
    method AddPlainPoint(lat: real, lon: real, value: real)
      requires shape == Plain
      modifies this
      ensures data == old(data)[PlainKey(lat, lon) := value]
      ensures attributes == old(attributes)
      ensures GetPlainValue(lat, lon) == Some(value)
    {
      AddDataPoint(PlainKey(lat, lon), value);
    }

    // NetCDFTimeVariable: keys with an instant (possibly null) and no height.

    /** `getValue(lat, lon, date)` of a time variable. */
    function GetTimedValue(lat: real, lon: real, date: Option<Instant>): (r: Option<real>)
      requires shape == Timed
      reads this
      ensures r.Some? <==> Coordinate(lat, lon, date, None) in data
      ensures r.Some? ==> r.value == data[TimeKey(lat, lon, date)]
    {
      GetValue(TimeKey(lat, lon, date))
    }

    /** `addDataPoint(lat, lon, date, value)` of a time variable. */
    method AddTimedPoint(lat: real, lon: real, date: Option<Instant>, value: real)
      requires shape == Timed
      modifies this
      ensures data == old(data)[TimeKey(lat, lon, date) := value]
      ensures attributes == old(attributes)
      ensures GetTimedValue(lat, lon, date) == Some(value)
    {
      AddDataPoint(TimeKey(lat, lon, date), value);
    }

    // NetCDFTimeDepthVariable: keys with an instant (possibly null) and a height.

    /** `getValue(lat, lon, date, height)` of a time-depth variable. */
    function GetDepthValue(lat: real, lon: real, date: Option<Instant>, height: real): (r: Option<real>)
      requires shape == TimeDepth
      reads this
      ensures r.Some? <==> Coordinate(lat, lon, date, Some(height)) in data
      ensures r.Some? ==> r.value == data[Coordinate(lat, lon, date, Some(height))]
    {
      GetValue(Coordinate(lat, lon, date, Some(height)))
    }

    /** `addDataPoint(lat, lon, date, height, value)` of a time-depth variable. */
    method AddDepthPoint(lat: real, lon: real, date: Option<Instant>, height: real, value: real)
      requires shape == TimeDepth
      modifies this
      ensures data == old(data)[Coordinate(lat, lon, date, Some(height)) := value]
      ensures attributes == old(attributes)
      ensures GetDepthValue(lat, lon, date, height) == Some(value)
    {
      AddDataPoint(Coordinate(lat, lon, date, Some(height)), value);
    }
  }

  // ---------------------------------------------------------------------
  // What each typed `addDataPoint` contributes to the instants and heights.

  /** A plain point adds no instant and no height. */
  lemma PlainPointAddsNothing(data: map<Coordinate, real>, lat: real, lon: real, value: real)
    ensures DatesIn(data[PlainKey(lat, lon) := value].Keys) == DatesIn(data.Keys)
    ensures HeightsIn(data[PlainKey(lat, lon) := value].Keys) == HeightsIn(data.Keys)
  {
    var keys := data[PlainKey(lat, lon) := value].Keys;
    assert keys == data.Keys + {PlainKey(lat, lon)};
  }

  /** A time point adds its instant, when it has one, and no height. */
  lemma TimedPointAddsDate(data: map<Coordinate, real>, lat: real, lon: real, date: Option<Instant>, value: real)
    ensures DatesIn(data[TimeKey(lat, lon, date) := value].Keys)
         == DatesIn(data.Keys) + (if date.Some? then {date.value} else {})
    ensures HeightsIn(data[TimeKey(lat, lon, date) := value].Keys) == HeightsIn(data.Keys)
  {
    var keys := data[TimeKey(lat, lon, date) := value].Keys;
    assert keys == data.Keys + {TimeKey(lat, lon, date)};
  }

  /** A time-depth point adds its height, and its instant when it has one. */
  lemma DepthPointAddsDateAndHeight(data: map<Coordinate, real>, lat: real, lon: real, date: Option<Instant>, height: real, value: real)
    ensures DatesIn(data[Coordinate(lat, lon, date, Some(height)) := value].Keys)
         == DatesIn(data.Keys) + (if date.Some? then {date.value} else {})
    ensures HeightsIn(data[Coordinate(lat, lon, date, Some(height)) := value].Keys) == HeightsIn(data.Keys) + {height}
  {
    var keys := data[Coordinate(lat, lon, date, Some(height)) := value].Keys;
    assert keys == data.Keys + {Coordinate(lat, lon, date, Some(height))};
  }

  /** Points at the same place with different instants (or heights) are separate entries. */
  lemma DistinctKeysKeptApart(data: map<Coordinate, real>, a: Coordinate, b: Coordinate, x: real, y: real)
    requires a != b
    ensures Lookup(data[a := x][b := y], a) == Some(x)
    ensures Lookup(data[a := x][b := y], b) == Some(y)
  {
  }
}
