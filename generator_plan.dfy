/**
 * What `Generator.generate` writes, as a value: the sequence of writer calls
 * (`Plan`) it makes for a list of datasets, built from the datasets' states
 * alone, and the properties of that sequence.
 *
 * The header declares, dataset by dataset, the global attributes, the
 * dimensions, the coordinate variables and the data variables; `create`
 * leaves define mode; the body writes, dataset by dataset, the coordinate
 * values, one time value per distinct instant, and the data of each variable
 * as grids over the axes (one grid per instant for time-varying variables),
 * NaN (`None`) where a variable has no value; a final `flush` ends the file.
 */
module GeneratorPlan {
  import opened Wrappers
  import opened Coordinates
  import opened OrderedSets
  import opened Variables
  import opened Datasets
  import opened NetcdfWriter

  // ---------------------------------------------------------------------
  // Names: "lat", "lon", "time" and "zc", followed by the dataset's index
  // from the second dataset on.

  function DigitChar(d: nat): (c: char)
    requires d < 10
    ensures '0' <= c <= '9'
  {
    ('0' as int + d) as char
  }

  function DigitValue(c: char): nat {
    if '0' <= c <= '9' then c as int - '0' as int else 0
  }

  /** Java's decimal rendering of a non-negative `int`. */
  function NatToString(n: nat): (r: string)
    ensures |r| > 0
    ensures forall k :: 0 <= k < |r| ==> '0' <= r[k] <= '9'
    decreases n
  {
    if n < 10 then [DigitChar(n)] else NatToString(n / 10) + [DigitChar(n % 10)]
  }

  /** The value of a string of decimal digits. */
  function ParseNat(s: string): nat {
    if |s| == 0 then 0 else ParseNat(s[..|s| - 1]) * 10 + DigitValue(s[|s| - 1])
  }

  /** Reading back the decimal rendering gives the number. */
  lemma {:induction false} ParseNatToString(n: nat)
    ensures ParseNat(NatToString(n)) == n
    decreases n
  {
    var r := NatToString(n);
    if n < 10 {
      assert r[..0] == [];
    } else {
      assert r[..|r| - 1] == NatToString(n / 10);
      ParseNatToString(n / 10);
    }
  }

  /** `base` for the first dataset, `base` followed by the index for the others. */
  function AxisName(base: string, index: nat): string {
    if index == 0 then base else base + NatToString(index)
  }

  datatype AxisNames = AxisNames(lat: string, lon: string, time: string, height: string)

  const AxisBases: seq<string> := ["lat", "lon", "time", "zc"]

  /** The names of the dimensions and coordinate variables of the dataset at `index`. */
  function NamesFor(index: nat): AxisNames {
    AxisNames(AxisName("lat", index), AxisName("lon", index), AxisName("time", index), AxisName("zc", index))
  }

  function AxisList(names: AxisNames): seq<string> {
    [names.lat, names.lon, names.time, names.height]
  }

  predicate NoDigits(s: string) {
    forall k :: 0 <= k < |s| ==> !('0' <= s[k] <= '9')
  }

  predicate AllDigits(s: string) {
    forall k :: 0 <= k < |s| ==> '0' <= s[k] <= '9'
  }

  /** The length of the longest prefix without a digit. */
  function LeadingLetters(s: string): nat {
    if |s| == 0 || '0' <= s[0] <= '9' then 0 else 1 + LeadingLetters(s[1..])
  }

  lemma {:induction false} LeadingLettersOf(a: string, x: string)
    requires NoDigits(a) && AllDigits(x)
    ensures LeadingLetters(a + x) == |a|
    decreases |a|
  {
    if |a| == 0 {
      assert a + x == x;
    } else {
      assert (a + x)[1..] == a[1..] + x;
      LeadingLettersOf(a[1..], x);
    }
  }

  /** Two axis names are equal exactly when their bases and their indices are. */
  lemma AxisNameInjective(b1: string, i: nat, b2: string, j: nat)
    requires NoDigits(b1) && NoDigits(b2)
    ensures AxisName(b1, i) == AxisName(b2, j) <==> b1 == b2 && i == j
  {
    var x := if i == 0 then "" else NatToString(i);
    var y := if j == 0 then "" else NatToString(j);
    assert AxisName(b1, i) == b1 + x;
    assert AxisName(b2, j) == b2 + y;
    if AxisName(b1, i) == AxisName(b2, j) {
      LeadingLettersOf(b1, x);
      LeadingLettersOf(b2, y);
      assert b1 == (b1 + x)[..|b1|];
      assert b2 == (b2 + y)[..|b2|];
      assert x == (b1 + x)[|b1|..];
      assert y == (b2 + y)[|b2|..];
      if i != 0 && j != 0 {
        ParseNatToString(i);
        ParseNatToString(j);
      }
    }
  }

  /**
   * The eight axis names of any two datasets are pairwise distinct, except a
   * name with itself: the suffix keeps the hypercubes of one file apart.
   */
  lemma AxisNamesUnique(i: nat, j: nat, p: nat, q: nat)
    requires p < 4 && q < 4
    ensures AxisList(NamesFor(i))[p] == AxisList(NamesFor(j))[q] <==> p == q && i == j
  {
    BaseWithoutDigits(p);
    BaseWithoutDigits(q);
    BasesDistinct(p, q);
    assert AxisList(NamesFor(i))[p] == AxisName(AxisBases[p], i);
    assert AxisList(NamesFor(j))[q] == AxisName(AxisBases[q], j);
    AxisNameInjective(AxisBases[p], i, AxisBases[q], j);
  }

  lemma BaseWithoutDigits(p: nat)
    requires p < 4
    ensures NoDigits(AxisBases[p])
  {
  }

  lemma BasesDistinct(p: nat, q: nat)
    requires p < 4 && q < 4
    ensures AxisBases[p] == AxisBases[q] <==> p == q
  {
    if p != q {
      assert AxisBases[p][0] != AxisBases[q][0] || AxisBases[p][1] != AxisBases[q][1];
    }
  }

  // ---------------------------------------------------------------------
  // Time: whole hours since the epoch.

  const MillisPerHour: int := 3_600_000

  /**
   * `Hours.hoursBetween(start, end)`: the elapsed time in whole hours,
   * truncated toward zero (Java `long` division).
   */
  function HoursBetween(start: Instant, end: Instant): (h: int)
    ensures 0 <= end - start ==> 0 <= h * MillisPerHour <= end - start < (h + 1) * MillisPerHour
    ensures end - start < 0 ==> (h - 1) * MillisPerHour < end - start <= h * MillisPerHour <= 0
  {
    var elapsed := end - start;
    if elapsed >= 0 then elapsed / MillisPerHour else -((-elapsed) / MillisPerHour)
  }

  /** A whole number of hours after the epoch is recorded as exactly that number. */
  lemma HoursOfWholeHours(epoch: Instant, hours: int)
    ensures HoursBetween(epoch, epoch + hours * MillisPerHour) == hours
  {
    var h := HoursBetween(epoch, epoch + hours * MillisPerHour);
    if hours >= 0 {
      assert h * MillisPerHour <= hours * MillisPerHour < (h + 1) * MillisPerHour;
    } else {
      assert (h - 1) * MillisPerHour < hours * MillisPerHour <= h * MillisPerHour;
    }
  }

  /** A later instant never gets a smaller hour value. */
  lemma HoursMonotone(epoch: Instant, a: Instant, b: Instant)
    requires a <= b
    ensures HoursBetween(epoch, a) <= HoursBetween(epoch, b)
  {
  }

  /**
   * Truncation toward zero: half an hour before the epoch and half an hour
   * after it are both recorded as hour 0.
   */
  lemma TruncationMeetsAtEpoch(epoch: Instant)
    ensures HoursBetween(epoch, epoch - MillisPerHour / 2) == 0
    ensures HoursBetween(epoch, epoch + MillisPerHour / 2) == 0
  {
  }

  // ---------------------------------------------------------------------
  // Grids: the cells written for one variable (and one instant).

  /** A plain variable over the axes: the value under the key (lat, lon), NaN when absent. */
  function PlainGrid(data: map<Coordinate, real>, lats: seq<real>, lons: seq<real>): (g: seq<seq<Cell>>)
    ensures |g| == |lats|
    ensures forall p :: 0 <= p < |lats| ==> |g[p]| == |lons|
  {
    seq(|lats|, p requires 0 <= p < |lats| =>
      seq(|lons|, q requires 0 <= q < |lons| => Lookup(data, PlainKey(lats[p], lons[q]))))
  }

  /** A time variable at one instant. */
  function TimedGrid(data: map<Coordinate, real>, lats: seq<real>, lons: seq<real>, date: Instant): (g: seq<seq<Cell>>)
    ensures |g| == |lats|
    ensures forall p :: 0 <= p < |lats| ==> |g[p]| == |lons|
  {
    seq(|lats|, p requires 0 <= p < |lats| =>
      seq(|lons|, q requires 0 <= q < |lons| => Lookup(data, TimeKey(lats[p], lons[q], Some(date)))))
  }

  /** A time-depth variable at one instant, a column of heights under each cell. */
  function DepthGrid(data: map<Coordinate, real>, lats: seq<real>, lons: seq<real>, heights: seq<real>, date: Instant)
    : (g: seq<seq<seq<Cell>>>)
    ensures |g| == |lats|
    ensures forall p :: 0 <= p < |lats| ==> |g[p]| == |lons|
    ensures forall p, q :: 0 <= p < |lats| && 0 <= q < |lons| ==> |g[p][q]| == |heights|
  {
    seq(|lats|, p requires 0 <= p < |lats| =>
      seq(|lons|, q requires 0 <= q < |lons| =>
        seq(|heights|, h requires 0 <= h < |heights| =>
          Lookup(data, Coordinate(lats[p], lons[q], Some(date), Some(heights[h]))))))
  }

  // ---------------------------------------------------------------------
  // One dataset's layout: its axes and names.

  datatype Layout = Layout(lats: seq<real>, lons: seq<real>, heights: Option<seq<real>>, names: AxisNames)

  /**
   * What `generate` needs of a dataset not to dereference null: some data
   * (otherwise there is no latitude array), and heights whenever it has a
   * time-depth variable (otherwise there is no height dimension).
   */
  ghost predicate Writable(d: DatasetState) {
    && KeysOf(d.variables) != {}
    && forall k :: 0 <= k < |d.variables| && d.variables[k].shape == TimeDepth ==>
         HeightsIn(KeysOf(d.variables)) != {}
  }

  /** The bundle of the dataset at `index`: its dimensions and its names. */
  ghost function LayoutOf(d: DatasetState, index: nat): Layout
  {
    var dims := DimensionsOf(d.variables);
    Layout(if dims.latitudes.Some? then dims.latitudes.value else [],
           if dims.longitudes.Some? then dims.longitudes.value else [],
           dims.heights, NamesFor(index))
  }

  /**
   * The axes of a bundle are the sorted, duplicate-free latitudes, longitudes
   * and heights of the dataset's keys; the height axis is missing exactly
   * when no key has a height.
   */
  lemma LayoutAxes(d: DatasetState, index: nat)
    requires Writable(d)
    ensures var l := LayoutOf(d, index);
      && Increasing(l.lats, RealLess) && Elems(l.lats) == LatsIn(KeysOf(d.variables))
      && Increasing(l.lons, RealLess) && Elems(l.lons) == LonsIn(KeysOf(d.variables))
      && (l.heights.None? <==> HeightsIn(KeysOf(d.variables)) == {})
      && (l.heights.Some? ==> Increasing(l.heights.value, RealLess) && Elems(l.heights.value) == HeightsIn(KeysOf(d.variables)))
      && l.names == NamesFor(index)
  {
    AxesMissingIffNoData(d.variables);
  }

  /** `allDateTime`: every instant of every variable, increasing, without duplicates. */
  ghost function DatesOf(d: DatasetState): seq<Instant> {
    IntLessIsStrictTotal();
    SortedOf(DatesIn(KeysOf(d.variables)), IntLess)
  }

  /** The instants are increasing, are exactly those of the keys, and there is one per distinct instant. */
  lemma DatesSorted(d: DatasetState)
    ensures var dates := DatesOf(d);
      && Increasing(dates, IntLess) && Elems(dates) == DatesIn(KeysOf(d.variables))
      && |dates| == |DatesIn(KeysOf(d.variables))|
  {
    IntLessIsStrictTotal();
    IncreasingCard(DatesOf(d), IntLess);
  }

  /** One dataset's hypercube: the dataset's state, its layout and its instants. */
  datatype Hypercube = Hypercube(state: DatasetState, layout: Layout, dates: seq<Instant>)

  /** The hypercube `generate` makes of the `index`-th dataset. */
  ghost function HypercubeOf(d: DatasetState, index: nat): Hypercube {
    Hypercube(d, LayoutOf(d, index), DatesOf(d))
  }

  /** The hypercubes of the datasets, in order. */
  ghost function Hypercubes(ds: seq<DatasetState>): (r: seq<Hypercube>)
    ensures |r| == |ds|
    ensures forall j :: 0 <= j < |ds| ==> r[j] == HypercubeOf(ds[j], j)
  {
    seq(|ds|, j requires 0 <= j < |ds| => HypercubeOf(ds[j], j))
  }

  // ---------------------------------------------------------------------
  // Calls made piece by piece.

  /** The calls of the first `n` pieces, one piece after the other. */
  function Concat(pieces: seq<seq<Event>>, n: nat): seq<Event>
    requires n <= |pieces|
  {
    if n == 0 then [] else Concat(pieces, n - 1) + pieces[n - 1]
  }

  /** A property every call of every piece has, every call of the concatenation has. */
  lemma {:induction false} ConcatKeeps(pieces: seq<seq<Event>>, n: nat, p: Event -> bool)
    requires n <= |pieces|
    requires forall i, k :: 0 <= i < |pieces| && 0 <= k < |pieces[i]| ==> p(pieces[i][k])
    ensures forall k :: 0 <= k < |Concat(pieces, n)| ==> p(Concat(pieces, n)[k])
  {
    if n > 0 {
      ConcatKeeps(pieces, n - 1, p);
      var front := Concat(pieces, n - 1);
      forall k | 0 <= k < |Concat(pieces, n)|
        ensures p(Concat(pieces, n)[k])
      {
        if k >= |front| {
          assert Concat(pieces, n)[k] == pieces[n - 1][k - |front|];
        }
      }
    }
  }

  // ---------------------------------------------------------------------
  // The header.

  /** The dimensions and the coordinate variables with their attributes. */
  function CoordinateDeclarations(l: Layout, timeUnit: string): seq<Event> {
    AxisDimensions(l) + AxisVariables(l, timeUnit)
  }

  /** The dimensions: lat and lon of their axes' lengths, an unlimited time, and height when present. */
  function AxisDimensions(l: Layout): seq<Event> {
    var n := l.names;
    [DeclareDimension(n.lat, |l.lats|), DeclareDimension(n.lon, |l.lons|), DeclareUnlimitedDimension(n.time)]
    + (if l.heights.Some? then [DeclareDimension(n.height, |l.heights.value|)] else [])
  }

  /** The coordinate variables, each over its own dimension, with their units and axis types. */
  function AxisVariables(l: Layout, timeUnit: string): seq<Event> {
    var n := l.names;
    [DeclareVariable(n.lat, Float, [n.lat]),
     DeclareAttribute(n.lat, "units", "degrees_north"),
     DeclareAttribute(n.lat, "_CoordinateAxisType", "Lat"),
     DeclareVariable(n.lon, Float, [n.lon]),
     DeclareAttribute(n.lon, "units", "degrees_east"),
     DeclareAttribute(n.lon, "_CoordinateAxisType", "Lon"),
     DeclareVariable(n.time, Int, [n.time]),
     DeclareAttribute(n.time, "units", timeUnit),
     DeclareAttribute(n.time, "_CoordinateAxisType", "Time")]
    + (if l.heights.Some? then
         [DeclareVariable(n.height, Double, [n.height]),
          DeclareAttribute(n.height, "units", "m"),
          DeclareAttribute(n.height, "_CoordinateAxisType", "Height"),
          DeclareAttribute(n.height, "_CoordinateZisPositive", "up")]
       else [])
  }

  /** The dimensions of a data variable: time if it varies in time, lat, lon, and height if it has depth. */
  function DimsFor(shape: Shape, l: Layout): seq<string> {
    (if shape == Timed || shape == TimeDepth then [l.names.time] else [])
    + [l.names.lat, l.names.lon]
    + (if l.heights.Some? && shape == TimeDepth then [l.names.height] else [])
  }

  /** Each data variable, as a double, with its attributes. */
  function DataDeclarations(vs: seq<VarState>, l: Layout): (r: seq<Event>)
    ensures |r| == 2 * |vs|
  {
    if |vs| == 0 then []
    else
      var v := vs[|vs| - 1];
      DataDeclarations(vs[..|vs| - 1], l)
      + [DeclareVariable(v.name, Double, DimsFor(v.shape, l)), DeclareAttributes(v.name, v.attributes)]
  }

  function DeclareDataset(d: DatasetState, l: Layout): seq<Event> {
    [DeclareGlobalAttributes(d.globalAttributes)]
    + CoordinateDeclarations(l, d.timeUnit)
    + DataDeclarations(d.variables, l)
  }

  /** The declarations of each hypercube. */
  function Declarations(cs: seq<Hypercube>): (r: seq<seq<Event>>)
    ensures |r| == |cs|
  {
    if |cs| == 0 then []
    else
      var c := cs[|cs| - 1];
      Declarations(cs[..|cs| - 1]) + [DeclareDataset(c.state, c.layout)]
  }

  /** The declarations of every hypercube, in order. */
  function Header(cs: seq<Hypercube>): seq<Event> {
    Concat(Declarations(cs), |cs|)
  }

  // ---------------------------------------------------------------------
  // The body.

  function AxisWrites(l: Layout): seq<Event> {
    [Write(l.names.lat, [], Floats(l.lats)), Write(l.names.lon, [], Floats(l.lons))]
    + (if l.heights.Some? then [Write(l.names.height, [], Doubles(l.heights.value))] else [])
  }

  /** Record `t` of the time variable holds the hours from the epoch to the `t`-th instant. */
  function TimeWrites(epoch: Instant, dates: seq<Instant>, timeName: string): (r: seq<Event>)
    ensures |r| == |dates|
  {
    seq(|dates|, t requires 0 <= t < |dates| => Write(timeName, [t], Ints([HoursBetween(epoch, dates[t])])))
  }

  /**
   * The writes of one data variable: one 2-D grid for a plain variable, one
   * record per instant for the others.  A time-depth variable is written over
   * the height axis; `generate` never gets here without one (see `Writable`),
   * and `HeightsOf` reads a missing axis as empty.
   */
  function WritesFor(v: VarState, l: Layout, dates: seq<Instant>): (r: seq<Event>)
    ensures |r| == if v.shape == Plain then 1 else |dates|
    ensures forall k :: 0 <= k < |r| ==> r[k].Write? && r[k].target == v.name
  {
    match v.shape
    case Plain =>
      [Write(v.name, [0, 0], Grid2(PlainGrid(v.data, l.lats, l.lons)))]
    case Timed =>
      seq(|dates|, t requires 0 <= t < |dates| =>
        Write(v.name, [t, 0, 0], Grid3([TimedGrid(v.data, l.lats, l.lons, dates[t])])))
    case TimeDepth =>
      seq(|dates|, t requires 0 <= t < |dates| =>
        Write(v.name, [t, 0, 0, 0], Grid4([DepthGrid(v.data, l.lats, l.lons, HeightsOf(l), dates[t])])))
  }

  function HeightsOf(l: Layout): seq<real> {
    if l.heights.Some? then l.heights.value else []
  }

  predicate HeightsWhereNeeded(vs: seq<VarState>, l: Layout) {
    forall k :: 0 <= k < |vs| && vs[k].shape == TimeDepth ==> l.heights.Some?
  }

  function VariableWrites(vs: seq<VarState>, l: Layout, dates: seq<Instant>): seq<Event>
  {
    if |vs| == 0 then []
    else VariableWrites(vs[..|vs| - 1], l, dates) + WritesFor(vs[|vs| - 1], l, dates)
  }

  function WriteDataset(d: DatasetState, l: Layout, dates: seq<Instant>): seq<Event>
  {
    AxisWrites(l) + TimeWrites(d.timeEpoch, dates, l.names.time) + VariableWrites(d.variables, l, dates)
  }

  /** The writes of each hypercube. */
  function Writes(cs: seq<Hypercube>): (r: seq<seq<Event>>)
    ensures |r| == |cs|
  {
    if |cs| == 0 then []
    else
      var c := cs[|cs| - 1];
      Writes(cs[..|cs| - 1]) + [WriteDataset(c.state, c.layout, c.dates)]
  }

  /** The writes of every hypercube, in order. */
  function Body(cs: seq<Hypercube>): seq<Event> {
    Concat(Writes(cs), |cs|)
  }

  /** The calls for the hypercubes: every declaration, `create`, every write, then `flush`. */
  function Calls(cs: seq<Hypercube>): seq<Event> {
    Header(cs) + [Create] + Body(cs) + [Flush]
  }

  /** Every call `generate` makes on the writer for datasets in the states `ds`, in order. */
  ghost function Plan(ds: seq<DatasetState>): seq<Event> {
    Calls(Hypercubes(ds))
  }

  /** The `k`-th hypercube's declarations are those of `DeclareDataset`. */
  lemma {:induction false} DeclarationsAt(cs: seq<Hypercube>, k: nat)
    requires k < |cs|
    ensures Declarations(cs)[k] == DeclareDataset(cs[k].state, cs[k].layout)
  {
    var n := |cs| - 1;
    if k < n {
      DeclarationsAt(cs[..n], k);
    }
  }

  /** The `k`-th hypercube's writes are those of `WriteDataset`. */
  lemma {:induction false} WritesAt(cs: seq<Hypercube>, k: nat)
    requires k < |cs|
    ensures Writes(cs)[k] == WriteDataset(cs[k].state, cs[k].layout, cs[k].dates)
  {
    var n := |cs| - 1;
    if k < n {
      WritesAt(cs[..n], k);
    }
  }

  // ---------------------------------------------------------------------
  // Properties of the plan.

  lemma {:induction false} DataDeclarationsDeclare(vs: seq<VarState>, l: Layout)
    ensures forall k :: 0 <= k < |DataDeclarations(vs, l)| ==> IsDeclaration(DataDeclarations(vs, l)[k])
  {
    if |vs| > 0 {
      DataDeclarationsDeclare(vs[..|vs| - 1], l);
    }
  }

  lemma DatasetDeclares(d: DatasetState, l: Layout)
    ensures forall k :: 0 <= k < |DeclareDataset(d, l)| ==> IsDeclaration(DeclareDataset(d, l)[k])
  {
    DataDeclarationsDeclare(d.variables, l);
  }

  lemma HeaderDeclares(cs: seq<Hypercube>)
    ensures forall k :: 0 <= k < |Header(cs)| ==> IsDeclaration(Header(cs)[k])
  {
    var pieces := Declarations(cs);
    forall i, k | 0 <= i < |pieces| && 0 <= k < |pieces[i]|
      ensures IsDeclaration(pieces[i][k])
    {
      DeclarationsAt(cs, i);
      DatasetDeclares(cs[i].state, cs[i].layout);
    }
    ConcatKeeps(pieces, |cs|, IsDeclaration);
  }

  lemma {:induction false} VariableWritesWrite(vs: seq<VarState>, l: Layout, dates: seq<Instant>)
    ensures forall k :: 0 <= k < |VariableWrites(vs, l, dates)| ==> VariableWrites(vs, l, dates)[k].Write?
  {
    if |vs| > 0 {
      VariableWritesWrite(vs[..|vs| - 1], l, dates);
    }
  }

  lemma DatasetWrites(d: DatasetState, l: Layout, dates: seq<Instant>)
    ensures forall k :: 0 <= k < |WriteDataset(d, l, dates)| ==> WriteDataset(d, l, dates)[k].Write?
  {
    VariableWritesWrite(d.variables, l, dates);
  }

  /** A writable dataset's layout has heights wherever a variable needs them. */
  lemma WritableHasHeights(d: DatasetState, index: nat)
    requires Writable(d)
    ensures HeightsWhereNeeded(d.variables, LayoutOf(d, index))
  {
    AxesMissingIffNoData(d.variables);
  }

  lemma BodyWrites(cs: seq<Hypercube>)
    ensures forall k :: 0 <= k < |Body(cs)| ==> Body(cs)[k].Write?
  {
    var pieces: seq<seq<Event>> := Writes(cs);
    forall i, k | 0 <= i < |pieces| && 0 <= k < |pieces[i]|
      ensures pieces[i][k].Write?
    {
      WritesAt(cs, i);
      DatasetWrites(cs[i].state, cs[i].layout, cs[i].dates);
    }
    ConcatKeeps(pieces, |cs|, (e: Event) => e.Write?);
  }

  /**
   * The file is declared completely before any value is written: every call
   * before the single `create` is a declaration, every call after it is a
   * write, and the last call is the flush.
   */
  lemma PlanPhases(cs: seq<Hypercube>)
    ensures var p, h := Calls(cs), |Header(cs)|;
      && p[h] == Create
      && p[|p| - 1] == Flush
      && (forall k :: 0 <= k < |p| ==> (IsDeclaration(p[k]) <==> k < h))
      && (forall k :: h < k < |p| - 1 ==> p[k].Write?)
  {
    var p, header, body := Calls(cs), Header(cs), Body(cs);
    var h := |header|;
    HeaderDeclares(cs);
    BodyWrites(cs);
    forall k | 0 <= k < |p|
      ensures IsDeclaration(p[k]) <==> k < h
      ensures h < k < |p| - 1 ==> p[k].Write?
    {
      if k < h {
        assert p[k] == header[k];
      } else if h < k < |p| - 1 {
        assert p[k] == body[k - h - 1];
      }
    }
  }

  /** `e` declares the dimension `n` (bounded or unlimited). */
  predicate DeclaresDimension(e: Event, n: string) {
    (e.DeclareDimension? || e.DeclareUnlimitedDimension?) && e.dimName == n
  }

  /** The dimensions a dataset declares. */
  function DeclaredDims(l: Layout): set<string> {
    {l.names.lat, l.names.lon, l.names.time} + (if l.heights.Some? then {l.names.height} else {})
  }

  lemma {:induction false} DataDeclarationsUseDeclaredDims(vs: seq<VarState>, l: Layout)
    ensures forall k :: 0 <= k < |DataDeclarations(vs, l)| && DataDeclarations(vs, l)[k].DeclareVariable? ==>
      forall n :: n in DataDeclarations(vs, l)[k].dims ==> n in DeclaredDims(l)
  {
    if |vs| > 0 {
      DataDeclarationsUseDeclaredDims(vs[..|vs| - 1], l);
    }
  }

  /**
   * Within one dataset's declarations, every variable is declared over
   * dimensions already declared earlier in the same declarations.
   */
  lemma DimensionsDeclaredBeforeUse(d: DatasetState, l: Layout)
    ensures var e := DeclareDataset(d, l);
      forall k, n :: 0 <= k < |e| && e[k].DeclareVariable? && n in e[k].dims ==>
        exists m :: 0 <= m < k && DeclaresDimension(e[m], n)
  {
    var e := DeclareDataset(d, l);
    var c := CoordinateDeclarations(l, d.timeUnit);
    var dims := if l.heights.Some? then 4 else 3;
    var prefix := 1 + |c|;
    assert e[1] == DeclareDimension(l.names.lat, |l.lats|);
    assert e[2] == DeclareDimension(l.names.lon, |l.lons|);
    assert e[3] == DeclareUnlimitedDimension(l.names.time);
    assert l.heights.Some? ==> e[4] == DeclareDimension(l.names.height, |l.heights.value|);
    DataDeclarationsUseDeclaredDims(d.variables, l);
    forall k, n | 0 <= k < |e| && e[k].DeclareVariable? && n in e[k].dims
      ensures exists m :: 0 <= m < k && DeclaresDimension(e[m], n)
    {
      assert k > dims;
      if k >= prefix {
        assert e[k] == DataDeclarations(d.variables, l)[k - prefix];
      }
      assert n in DeclaredDims(l);
      if n == l.names.lat {
        assert DeclaresDimension(e[1], n);
      } else if n == l.names.lon {
        assert DeclaresDimension(e[2], n);
      } else if n == l.names.time {
        assert DeclaresDimension(e[3], n);
      } else {
        assert DeclaresDimension(e[4], n);
      }
    }
  }

  /** The time values written are non-decreasing, record after record. */
  lemma TimeValuesNonDecreasing(epoch: Instant, dates: seq<Instant>, timeName: string, s: int, t: int)
    requires Increasing(dates, IntLess)
    requires 0 <= s < t < |dates|
    ensures TimeWrites(epoch, dates, timeName)[s].data.ints[0] <= TimeWrites(epoch, dates, timeName)[t].data.ints[0]
  {
    HoursMonotone(epoch, dates[s], dates[t]);
  }

  /** Every key of every variable of a list is among the list's keys. */
  lemma {:induction false} KeysOfContains(vs: seq<VarState>, k: int)
    requires 0 <= k < |vs|
    ensures vs[k].data.Keys <= KeysOf(vs)
  {
    if k < |vs| - 1 {
      KeysOfContains(vs[..|vs| - 1], k);
    }
  }

  /** Every data key lies on the axes: its lat, lon, height and instant are values of the layout. */
  lemma KeyOnAxes(d: DatasetState, index: nat, k: int, c: Coordinate)
    requires Writable(d)
    requires 0 <= k < |d.variables| && c in d.variables[k].data
    ensures c.lat in LayoutOf(d, index).lats && c.lon in LayoutOf(d, index).lons
    ensures c.height.Some? ==> LayoutOf(d, index).heights.Some? && c.height.value in LayoutOf(d, index).heights.value
    ensures c.date.Some? ==> c.date.value in DatesOf(d)
  {
    KeysOfContains(d.variables, k);
    var keys := KeysOf(d.variables);
    assert c.lat in LatsIn(keys);
    assert c.lon in LonsIn(keys);
    if c.height.Some? {
      assert c.height.value in HeightsIn(keys);
    }
    if c.date.Some? {
      assert c.date.value in DatesIn(keys);
    }
  }

  /** A key of a plain variable without instant or height is written in the cell of its lat and lon. */
  lemma PlainPointWritten(data: map<Coordinate, real>, lats: seq<real>, lons: seq<real>, c: Coordinate)
    requires c in data && c.date.None? && c.height.None?
    requires c.lat in lats && c.lon in lons
    ensures exists p, q ::
      && 0 <= p < |lats| && 0 <= q < |lons| && lats[p] == c.lat && lons[q] == c.lon
      && PlainGrid(data, lats, lons)[p][q] == Some(data[c])
  {
    var p :| 0 <= p < |lats| && lats[p] == c.lat;
    var q :| 0 <= q < |lons| && lons[q] == c.lon;
    assert PlainKey(lats[p], lons[q]) == c;
    assert PlainGrid(data, lats, lons)[p][q] == Lookup(data, c);
  }

  /** A key of a time variable with an instant and no height is written in the cell of its lat and lon at the record of its instant. */
  lemma TimedPointWritten(data: map<Coordinate, real>, lats: seq<real>, lons: seq<real>, dates: seq<Instant>, c: Coordinate)
    requires c in data && c.date.Some? && c.height.None?
    requires c.lat in lats && c.lon in lons && c.date.value in dates
    ensures exists t, p, q ::
      && 0 <= t < |dates| && 0 <= p < |lats| && 0 <= q < |lons|
      && dates[t] == c.date.value && lats[p] == c.lat && lons[q] == c.lon
      && TimedGrid(data, lats, lons, dates[t])[p][q] == Some(data[c])
  {
    var t :| 0 <= t < |dates| && dates[t] == c.date.value;
    var p :| 0 <= p < |lats| && lats[p] == c.lat;
    var q :| 0 <= q < |lons| && lons[q] == c.lon;
    assert TimeKey(lats[p], lons[q], Some(dates[t])) == c;
    assert TimedGrid(data, lats, lons, dates[t])[p][q] == Lookup(data, c);
  }

  /** A key of a time-depth variable with an instant is written in its cell and height at the record of its instant. */
  lemma DepthPointWritten(data: map<Coordinate, real>, lats: seq<real>, lons: seq<real>, heights: seq<real>,
                          dates: seq<Instant>, c: Coordinate)
    requires c in data && c.date.Some? && c.height.Some?
    requires c.lat in lats && c.lon in lons && c.height.value in heights && c.date.value in dates
    ensures exists t, p, q, h ::
      && 0 <= t < |dates| && 0 <= p < |lats| && 0 <= q < |lons| && 0 <= h < |heights|
      && dates[t] == c.date.value && lats[p] == c.lat && lons[q] == c.lon && heights[h] == c.height.value
      && DepthGrid(data, lats, lons, heights, dates[t])[p][q][h] == Some(data[c])
  {
    var t :| 0 <= t < |dates| && dates[t] == c.date.value;
    var p :| 0 <= p < |lats| && lats[p] == c.lat;
    var q :| 0 <= q < |lons| && lons[q] == c.lon;
    var h :| 0 <= h < |heights| && heights[h] == c.height.value;
    assert Coordinate(lats[p], lons[q], Some(dates[t]), Some(heights[h])) == c;
    assert DepthGrid(data, lats, lons, heights, dates[t])[p][q][h] == Lookup(data, c);
  }

  /**
   * Keys that do not fit the variable's shape are never written: a plain
   * variable's grid is the same without any key that has an instant or a
   * height.
   */
  lemma PlainGridIgnoresOtherKeys(data: map<Coordinate, real>, lats: seq<real>, lons: seq<real>, c: Coordinate)
    requires c.date.Some? || c.height.Some?
    ensures PlainGrid(data, lats, lons) == PlainGrid(data - {c}, lats, lons)
  {
    var g, g' := PlainGrid(data, lats, lons), PlainGrid(data - {c}, lats, lons);
    forall p | 0 <= p < |lats|
      ensures g[p] == g'[p]
    {
      forall q | 0 <= q < |lons|
        ensures g[p][q] == g'[p][q]
      {
        assert PlainKey(lats[p], lons[q]) != c;
      }
    }
  }

  /** A time variable's grids are the same without any key that has a height or no instant. */
  lemma TimedGridIgnoresOtherKeys(data: map<Coordinate, real>, lats: seq<real>, lons: seq<real>, date: Instant, c: Coordinate)
    requires c.date.None? || c.height.Some?
    ensures TimedGrid(data, lats, lons, date) == TimedGrid(data - {c}, lats, lons, date)
  {
    var g, g' := TimedGrid(data, lats, lons, date), TimedGrid(data - {c}, lats, lons, date);
    forall p | 0 <= p < |lats|
      ensures g[p] == g'[p]
    {
      forall q | 0 <= q < |lons|
        ensures g[p][q] == g'[p][q]
      {
        assert TimeKey(lats[p], lons[q], Some(date)) != c;
      }
    }
  }
  /**
   * A record written for an instant at which the variable has no data is
   * all NaN: every instant of the dataset gets a record, whether or not this
   * variable has values then.
   */
  lemma TimedGridMissingDate(data: map<Coordinate, real>, lats: seq<real>, lons: seq<real>, date: Instant)
    requires forall c :: c in data ==> c.date != Some(date)
    ensures forall p, q :: 0 <= p < |lats| && 0 <= q < |lons| ==> TimedGrid(data, lats, lons, date)[p][q].None?
  {
    forall p, q | 0 <= p < |lats| && 0 <= q < |lons|
      ensures TimedGrid(data, lats, lons, date)[p][q].None?
    {
      assert TimeKey(lats[p], lons[q], Some(date)) !in data;
    }
  }

  /** The same for a time-depth variable: a record at an instant it has no data for is NaN at every height. */
  lemma DepthGridMissingDate(data: map<Coordinate, real>, lats: seq<real>, lons: seq<real>, heights: seq<real>, date: Instant)
    requires forall c :: c in data ==> c.date != Some(date)
    ensures forall p, q, h :: 0 <= p < |lats| && 0 <= q < |lons| && 0 <= h < |heights| ==>
      DepthGrid(data, lats, lons, heights, date)[p][q][h].None?
  {
    forall p, q, h | 0 <= p < |lats| && 0 <= q < |lons| && 0 <= h < |heights|
      ensures DepthGrid(data, lats, lons, heights, date)[p][q][h].None?
    {
      assert Coordinate(lats[p], lons[q], Some(date), Some(heights[h])) !in data;
    }
  }
}
