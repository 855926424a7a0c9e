/**
 * `Generator.generate`: writes one netCDF file holding one hypercube per
 * dataset.  It first declares everything (a bundle per dataset records its
 * axes and its names), switches the writer to data mode, then writes the
 * coordinate values, the time values and the data of every variable, buffer
 * by buffer, and flushes.  The calls it makes are exactly `Plan` of the
 * datasets' states.
 */
module Generator {
  import opened Wrappers
  import opened Coordinates
  import opened OrderedSets
  import opened Variables
  import opened Datasets
  import opened NetcdfWriter
  import opened GeneratorPlan

  const NoOutputFile: string := "No output file provided"
  const NoDataset: string := "No dataset provided"

  /** The error of a dereference of null (Java's NullPointerException, which has no message). */
  const NullDereference: string := "NullPointerException"

  /** A dataset with the axes it was found to have and the names its hypercube uses. */
  datatype Bundle = Bundle(dataset: Dataset, layout: Layout)

  /** The states of the datasets, in order. */
  ghost function Snapshots(datasets: seq<Dataset>): (r: seq<DatasetState>)
    reads set d, o | d in datasets && o in d.Footprint() :: o
    ensures |r| == |datasets|
    ensures forall k :: 0 <= k < |datasets| ==> r[k] == datasets[k].State()
  {
    seq(|datasets|, k requires 0 <= k < |datasets|
      reads if 0 <= k < |datasets| then datasets[k].Footprint() else {} => datasets[k].State())
  }

  /** The bundles `generate` makes for the first `n` datasets: each dataset with the layout of its hypercube. */
  ghost function BundlesOf(datasets: seq<Dataset>, cubes: seq<Hypercube>, n: nat): (r: seq<Bundle>)
    requires n <= |datasets| == |cubes|
    ensures |r| == n
    ensures forall j :: 0 <= j < n ==> r[j] == Bundle(datasets[j], cubes[j].layout)
  {
    if n == 0 then [] else BundlesOf(datasets, cubes, n - 1) + [Bundle(datasets[n - 1], cubes[n - 1].layout)]
  }

  /**
   * `generate(outputFile, datasets...)`: fails with "No output file
   * provided" or "No dataset provided"; fails with a null dereference when
   * a dataset has no data or has a time-depth variable but no height; and
   * otherwise makes, on the writer it opens on the output file, exactly the
   * calls `Plan` describes.
   */
  method Generate(outputFile: Option<string>, datasets: seq<Dataset>) returns (r: Result<seq<Event>, string>)
    ensures outputFile.None? ==> r == Failure(NoOutputFile)
    ensures outputFile.Some? && |datasets| == 0 ==> r == Failure(NoDataset)
    ensures outputFile.Some? && |datasets| > 0 && (exists k :: 0 <= k < |datasets| && !Writable(old(datasets[k].State()))) ==>
      r == Failure(NullDereference)
    ensures outputFile.Some? && |datasets| > 0 && (forall k :: 0 <= k < |datasets| ==> Writable(old(datasets[k].State()))) ==>
      r == Success(Plan(old(Snapshots(datasets))))
  {
    if outputFile.None? {
      return Failure(NoOutputFile);
    }
    if |datasets| == 0 {
      return Failure(NoDataset);
    }
    ghost var states := Snapshots(datasets);
    var ok := CheckAll(datasets, states);
    if !ok {
      return Failure(NullDereference);
    }
    var calls := Run(datasets, states);
    r := Success(calls);
  }

  /**
   * Whether `generate` gets through every dataset, in the states `states`,
   * without dereferencing null. The source has no such loop: it stands for
   * the point inside the define-mode loop (a null latitude axis) or the
   * data-mode loop (a null height dimension) where the dereference happens.
   */
  method CheckAll(datasets: seq<Dataset>, ghost states: seq<DatasetState>) returns (ok: bool)
    requires |states| == |datasets|
    requires forall j {:trigger datasets[j].State()} :: 0 <= j < |datasets| ==> datasets[j].State() == states[j]
    ensures forall j {:trigger datasets[j].State()} :: 0 <= j < |datasets| ==> datasets[j].State() == states[j]
    ensures ok <==> forall k :: 0 <= k < |states| ==> Writable(states[k])
  {
    ok := true;
    var k := 0;
    while k < |datasets| && ok
      invariant k <= |datasets|
      invariant forall j {:trigger datasets[j].State()} :: 0 <= j < |datasets| ==> datasets[j].State() == states[j]
      invariant ok <==> forall j :: 0 <= j < k ==> Writable(states[j])
    {
      ok := CheckNext(datasets, states, k);
      k := k + 1;
    }
  }

  /** One turn of the check: the `k`-th dataset, leaving every dataset as it was. */
  method CheckNext(datasets: seq<Dataset>, ghost states: seq<DatasetState>, k: nat) returns (ok: bool)
    requires |states| == |datasets| && k < |datasets|
    requires forall j {:trigger datasets[j].State()} :: 0 <= j < |datasets| ==> datasets[j].State() == states[j]
    ensures forall j {:trigger datasets[j].State()} :: 0 <= j < |datasets| ==> datasets[j].State() == states[j]
    ensures ok <==> Writable(states[k])
  {
    ok := CheckWritable(datasets[k], states[k]);
    forall j | 0 <= j < |datasets|
      ensures datasets[j].State() == states[j]
    {
      StateUnchanged(datasets[j]);
    }
  }

  /**
   * Whether `generate` gets through the dataset without dereferencing null:
   * its latitude array exists (it has some data), and so does its height
   * dimension if one of its variables is a time-depth variable.
   */
  method CheckWritable(d: Dataset, ghost state: DatasetState) returns (ok: bool)
    requires d.State() == state
    ensures ok <==> Writable(state)
  {
    var dims := d.GetDimensions();
    StateUnchanged(d);
    AxesMissingIffNoData(state.variables);
    AxisSorted(HeightsIn(KeysOf(state.variables)));
    if dims.latitudes.None? {
      return false;
    }
    var all := Flatten(d, state);
    ok := HeightsPresent(all, dims.heights.Some?, state.variables);
  }

  /** Whether every time-depth variable of `all` finds a height dimension, given whether there is one. */
  method HeightsPresent(all: seq<Variable>, hasHeights: bool, ghost vs: seq<VarState>) returns (ok: bool)
    requires States(all) == vs
    ensures ok <==> forall j :: 0 <= j < |vs| && vs[j].shape == TimeDepth ==> hasHeights
  {
    ok := true;
    for k := 0 to |all|
      invariant ok <==> forall j :: 0 <= j < k && vs[j].shape == TimeDepth ==> hasHeights
    {
      assert all[k].State() == vs[k];
      if all[k].shape == TimeDepth && !hasHeights {
        ok := false;
      }
    }
  }

  /**
   * The declarations, `create`, the writes and `flush`, for datasets whose
   * states are `states`.
   */
  method Run(datasets: seq<Dataset>, ghost states: seq<DatasetState>) returns (calls: seq<Event>)
    requires |states| == |datasets|
    requires forall j :: 0 <= j < |datasets| ==> datasets[j].State() == states[j] && Writable(states[j])
    ensures calls == Plan(states)
  {
    ghost var cubes := Hypercubes(states);
    var bundles, header := DeclareAll(datasets, states, cubes);
    var body := WriteAll(datasets, bundles, states, cubes);
    calls := header + [Create] + body + [Flush];
  }

  /**
   * The define-mode loop of `generate`: a bundle per dataset, and its
   * declarations, dataset after dataset.
   */
  method DeclareAll(datasets: seq<Dataset>, ghost states: seq<DatasetState>, ghost cubes: seq<Hypercube>)
    returns (bundles: seq<Bundle>, calls: seq<Event>)
    requires |states| == |datasets| && |cubes| == |datasets|
    requires forall j {:trigger datasets[j].State()} :: 0 <= j < |datasets| ==> datasets[j].State() == states[j]
    requires forall j :: 0 <= j < |datasets| ==> Writable(states[j])
    requires forall j :: 0 <= j < |datasets| ==> cubes[j] == HypercubeOf(states[j], j)
    ensures forall j {:trigger datasets[j].State()} :: 0 <= j < |datasets| ==> datasets[j].State() == states[j]
    ensures bundles == BundlesOf(datasets, cubes, |datasets|)
    ensures calls == Header(cubes)
  {
    bundles, calls := [], [];
    for k := 0 to |datasets|
      invariant forall j {:trigger datasets[j].State()} :: 0 <= j < |datasets| ==> datasets[j].State() == states[j]
      invariant bundles == BundlesOf(datasets, cubes, k)
      invariant calls == Concat(Declarations(cubes), k)
    {
      bundles, calls := DeclareNext(datasets, states, cubes, k, bundles, calls);
    }
  }

  /** One turn of the define-mode loop: the bundle of the `k`-th dataset and its declarations, after those before it. */
  method DeclareNext(datasets: seq<Dataset>, ghost states: seq<DatasetState>, ghost cubes: seq<Hypercube>, k: nat,
                     bundles: seq<Bundle>, calls: seq<Event>)
    returns (bundles': seq<Bundle>, calls': seq<Event>)
    requires |states| == |datasets| && |cubes| == |datasets| && k < |datasets|
    requires forall j {:trigger datasets[j].State()} :: 0 <= j < |datasets| ==> datasets[j].State() == states[j]
    requires Writable(states[k]) && cubes[k] == HypercubeOf(states[k], k)
    requires bundles == BundlesOf(datasets, cubes, k)
    requires calls == Concat(Declarations(cubes), k)
    ensures forall j {:trigger datasets[j].State()} :: 0 <= j < |datasets| ==> datasets[j].State() == states[j]
    ensures bundles' == BundlesOf(datasets, cubes, k + 1)
    ensures calls' == Concat(Declarations(cubes), k + 1)
  {
    var bundle, declarations := DeclareOne(datasets[k], k, states[k]);
    forall j | 0 <= j < |datasets|
      ensures datasets[j].State() == states[j]
    {
      StateUnchanged(datasets[j]);
    }
    DeclarationsAt(cubes, k);
    bundles', calls' := bundles + [bundle], calls + declarations;
  }

  /** The bundle of the `index`-th dataset and its declarations. */
  method DeclareOne(dataset: Dataset, index: nat, ghost state: DatasetState) returns (bundle: Bundle, calls: seq<Event>)
    requires dataset.State() == state && Writable(state)
    ensures bundle == Bundle(dataset, LayoutOf(state, index))
    ensures calls == DeclareDataset(state, bundle.layout)
  {
    bundle := MakeBundle(dataset, index, state);
    StateUnchanged(dataset);
    calls := DeclareBundle(bundle, state);
  }

  /** The data-mode loop of `generate`: the values of every bundle, bundle after bundle. */
  method WriteAll(ghost datasets: seq<Dataset>, bundles: seq<Bundle>, ghost states: seq<DatasetState>, ghost cubes: seq<Hypercube>)
    returns (calls: seq<Event>)
    requires |states| == |datasets| && |cubes| == |datasets|
    requires forall j {:trigger datasets[j].State()} :: 0 <= j < |datasets| ==> datasets[j].State() == states[j]
    requires forall j :: 0 <= j < |datasets| ==> Writable(states[j])
    requires forall j :: 0 <= j < |datasets| ==> cubes[j] == HypercubeOf(states[j], j)
    requires bundles == BundlesOf(datasets, cubes, |datasets|)
    ensures calls == Body(cubes)
  {
    calls := [];
    for k := 0 to |bundles|
      invariant forall j {:trigger datasets[j].State()} :: 0 <= j < |datasets| ==> datasets[j].State() == states[j]
      invariant calls == Concat(Writes(cubes), k)
    {
      calls := WriteNext(datasets, bundles, states, cubes, k, calls);
    }
  }

  /** One turn of the data-mode loop: the writes of the `k`-th bundle after those of the bundles before it. */
  method WriteNext(ghost datasets: seq<Dataset>, bundles: seq<Bundle>, ghost states: seq<DatasetState>, ghost cubes: seq<Hypercube>,
                   k: nat, calls: seq<Event>)
    returns (calls': seq<Event>)
    requires |states| == |datasets| && |cubes| == |datasets| && k < |datasets|
    requires forall j {:trigger datasets[j].State()} :: 0 <= j < |datasets| ==> datasets[j].State() == states[j]
    requires Writable(states[k]) && cubes[k] == HypercubeOf(states[k], k)
    requires k < |bundles| && bundles[k] == Bundle(datasets[k], cubes[k].layout)
    requires calls == Concat(Writes(cubes), k)
    ensures forall j {:trigger datasets[j].State()} :: 0 <= j < |datasets| ==> datasets[j].State() == states[j]
    ensures calls' == Concat(Writes(cubes), k + 1)
  {
    WritableHasHeights(states[k], k);
    WritesAt(cubes, k);
    var writes := WriteBundle(bundles[k], states[k]);
    forall j | 0 <= j < |datasets|
      ensures datasets[j].State() == states[j]
    {
      StateUnchanged(datasets[j]);
    }
    calls' := calls + writes;
  }

  /** `new Bundle(dataset)` and the names of the `index`-th hypercube. */
  method MakeBundle(dataset: Dataset, index: nat, ghost state: DatasetState) returns (b: Bundle)
    requires dataset.State() == state && Writable(state)
    ensures b == Bundle(dataset, LayoutOf(state, index))
  {
    var dims := dataset.GetDimensions();
    AxesMissingIffNoData(state.variables);
    var names := AxisNames("lat", "lon", "time", "zc");
    if index > 0 {
      var suffix := NatToString(index);
      names := AxisNames("lat" + suffix, "lon" + suffix, "time" + suffix, "zc" + suffix);
    }
    b := Bundle(dataset, Layout(dims.latitudes.value, dims.longitudes.value, dims.heights, names));
  }

  /** The state of a dataset none of whose objects a call touched is what it was before it. */
  twostate lemma StateUnchanged(d: Dataset)
    requires forall o :: o in old(d.Footprint()) ==> unchanged(o)
    ensures d.State() == old(d.State())
  {
  }

  /** The states of variables that a call left untouched are what they were before it. */
  twostate lemma StatesUnchanged(vs: seq<Variable>)
    requires forall k :: 0 <= k < |vs| ==> unchanged(vs[k])
    ensures States(vs) == old(States(vs))
  {
  }

  /** The dataset's variables as its iterator lists them; their states are the flattened variables of `state`. */
  method Flatten(d: Dataset, ghost state: DatasetState) returns (all: seq<Variable>)
    requires d.State() == state
    ensures States(all) == state.variables
  {
    d.StateIsFlattened();
    ghost var before := d.All();
    all := d.Iterator();
    StatesUnchanged(before);
  }

  /** The define-mode calls for one bundle: global attributes, coordinates, then every data variable. */
  method DeclareBundle(b: Bundle, ghost state: DatasetState) returns (calls: seq<Event>)
    requires b.dataset.State() == state
    ensures calls == DeclareDataset(state, b.layout)
  {
    var d, l := b.dataset, b.layout;
    calls := [DeclareGlobalAttributes(d.globalAttributes)] + CoordinateDeclarations(l, d.timeUnit);
    var all := Flatten(d, state);
    var data := DeclareVariables(all, l, state.variables);
    calls := calls + data;
  }

  /** Each data variable, as a double over the dimensions its kind calls for, with its attribute map. */
  method DeclareVariables(all: seq<Variable>, l: Layout, ghost vs: seq<VarState>) returns (calls: seq<Event>)
    requires States(all) == vs
    ensures calls == DataDeclarations(vs, l)
  {
    calls := [];
    for k := 0 to |all|
      invariant calls == DataDeclarations(vs[..k], l)
    {
      var v := all[k];
      assert v.State() == vs[k];
      var dims := VariableDims(v.shape, l);
      calls := calls + [DeclareVariable(v.name, Double, dims), DeclareAttributes(v.name, v.attributes)];
      assert vs[..k + 1][..k] == vs[..k];
    }
    assert vs[..|vs|] == vs;
  }

  /** The dimensions of a data variable of the given shape: time first when it has one, height last when the layout has one. */
  method VariableDims(shape: Shape, l: Layout) returns (dims: seq<string>)
    ensures dims == DimsFor(shape, l)
  {
    var n := l.names;
    dims := [];
    if shape == Timed || shape == TimeDepth {
      dims := dims + [n.time];
    }
    dims := dims + [n.lat, n.lon];
    if l.heights.Some? && shape == TimeDepth {
      dims := dims + [n.height];
    }
  }

  /** The data-mode calls for one bundle: coordinate values, time values, then the data of every variable. */
  method WriteBundle(b: Bundle, ghost state: DatasetState) returns (calls: seq<Event>)
    requires b.dataset.State() == state
    requires HeightsWhereNeeded(state.variables, b.layout)
    ensures calls == WriteDataset(state, b.layout, DatesOf(state))
  {
    var d, l := b.dataset, b.layout;
    calls := AxisWrites(l);
    var all := Flatten(d, state);
    var dates := AllDates(all, state.variables);
    IntLessIsStrictTotal();
    IsSortedOf(dates, DatesIn(KeysOf(state.variables)), IntLess);
    var times := WriteTimes(d.timeEpoch, dates, l.names.time);
    var data := WriteVariables(all, l, dates, state.variables);
    calls := calls + times + data;
  }

  /** One record of the time variable per instant, holding its whole hours since the epoch. */
  method WriteTimes(epoch: Instant, dates: seq<Instant>, timeName: string) returns (calls: seq<Event>)
    ensures calls == TimeWrites(epoch, dates, timeName)
  {
    ghost var times := TimeWrites(epoch, dates, timeName);
    calls := [];
    if |dates| > 0 {
      for t := 0 to |dates|
        invariant calls == times[..t]
      {
        var offset := HoursBetween(epoch, dates[t]);
        calls := calls + [Write(timeName, [t], Ints([offset]))];
        assert times[..t + 1] == times[..t] + [times[t]];
      }
    }
    assert times[..|dates|] == times;
  }

  /** The data of every variable, in iteration order. */
  method WriteVariables(all: seq<Variable>, l: Layout, dates: seq<Instant>, ghost vs: seq<VarState>) returns (calls: seq<Event>)
    requires States(all) == vs
    requires HeightsWhereNeeded(vs, l)
    ensures calls == VariableWrites(vs, l, dates)
  {
    calls := [];
    for k := 0 to |all|
      invariant States(all) == vs
      invariant calls == VariableWrites(vs[..k], l, dates)
    {
      assert all[k].State() == vs[k];
      var writes := WriteVariable(all[k], l, dates);
      calls := calls + writes;
      assert vs[..k + 1][..k] == vs[..k];
    }
    assert vs[..|vs|] == vs;
  }

  /** `allDateTime`: the union, as a sorted set, of `getDates` of every variable. */
  method AllDates(all: seq<Variable>, ghost vs: seq<VarState>) returns (dates: seq<Instant>)
    requires States(all) == vs
    ensures Increasing(dates, IntLess)
    ensures Elems(dates) == DatesIn(KeysOf(vs))
  {
    dates := [];
    for k := 0 to |all|
      invariant Increasing(dates, IntLess)
      invariant Elems(dates) == DatesIn(KeysOf(vs[..k]))
    {
      assert all[k].State() == vs[k];
      dates := AddDates(dates, all[k], vs[k]);
      assert vs[..k + 1][..k] == vs[..k];
      AxesOfUnion(KeysOf(vs[..k]), vs[k].data.Keys);
    }
    assert vs[..|all|] == vs;
  }

  /** `allDateTime.addAll(variable.getDates())`: the instants of one more variable, merged into the sorted set. */
  method AddDates(dates: seq<Instant>, v: Variable, ghost state: VarState) returns (merged: seq<Instant>)
    requires Increasing(dates, IntLess) && v.State() == state
    ensures Increasing(merged, IntLess)
    ensures Elems(merged) == Elems(dates) + DatesIn(state.data.Keys)
  {
    IntLessIsStrictTotal();
    var variableDates := v.GetDates();
    merged := InsertAll(dates, variableDates, IntLess);
  }

  /** The data of one variable: one grid, or one grid per instant, each written from a reused buffer. */
  method WriteVariable(v: Variable, l: Layout, dates: seq<Instant>) returns (calls: seq<Event>)
    requires v.shape == TimeDepth ==> l.heights.Some?
    ensures calls == WritesFor(v.State(), l, dates)
  {
    ghost var writes := WritesFor(v.State(), l, dates);
    calls := [];
    match v.shape
    case Plain =>
      var buffer := new Cell[|l.lats|, |l.lons|];
      FillPlain(buffer, v, l.lats, l.lons);
      calls := [Write(v.name, [0, 0], Grid2(Cells2(buffer)))];
    case Timed =>
      var buffer := new Cell[1, |l.lats|, |l.lons|];
      for t := 0 to |dates|
        invariant calls == writes[..t]
      {
        FillTimed(buffer, v, l.lats, l.lons, dates[t]);
        calls := calls + [Write(v.name, [t, 0, 0], Grid3(Cells3(buffer)))];
        assert writes[..t + 1] == writes[..t] + [writes[t]];
      }
      assert writes[..|dates|] == writes;
    case TimeDepth =>
      var heights := l.heights.value;
      var buffer := new Cell[1, |l.lats|, |l.lons|, |heights|];
      for t := 0 to |dates|
        invariant calls == writes[..t]
      {
        FillDepth(buffer, v, l.lats, l.lons, heights, dates[t]);
        calls := calls + [Write(v.name, [t, 0, 0, 0], Grid4(Cells4(buffer)))];
        assert writes[..t + 1] == writes[..t] + [writes[t]];
      }
      assert writes[..|dates|] == writes;
  }

  /** Fills the 2-D buffer of a plain variable: its value at each (lat, lon), NaN where it has none. */
  method FillPlain(buffer: array2<Cell>, v: Variable, lats: seq<real>, lons: seq<real>)
    requires v.shape == Plain
    requires buffer.Length0 == |lats| && buffer.Length1 == |lons|
    modifies buffer
    ensures Cells2(buffer) == PlainGrid(v.data, lats, lons)
  {
    for p := 0 to |lats|
      invariant forall i, j :: 0 <= i < p && 0 <= j < |lons| ==> buffer[i, j] == Lookup(v.data, PlainKey(lats[i], lons[j]))
    {
      for q := 0 to |lons|
        invariant forall i, j :: 0 <= i < p && 0 <= j < |lons| ==> buffer[i, j] == Lookup(v.data, PlainKey(lats[i], lons[j]))
        invariant forall j :: 0 <= j < q ==> buffer[p, j] == Lookup(v.data, PlainKey(lats[p], lons[j]))
      {
        buffer[p, q] := v.GetPlainValue(lats[p], lons[q]);
      }
    }
    var cells, grid := Cells2(buffer), PlainGrid(v.data, lats, lons);
    forall p | 0 <= p < |lats|
      ensures cells[p] == grid[p]
    {
      assert forall q :: 0 <= q < |lons| ==> cells[p][q] == grid[p][q];
    }
  }

  /** Refills the 3-D buffer (one record) of a time variable for the instant `date`. */
  method FillTimed(buffer: array3<Cell>, v: Variable, lats: seq<real>, lons: seq<real>, date: Instant)
    requires v.shape == Timed
    requires buffer.Length0 == 1 && buffer.Length1 == |lats| && buffer.Length2 == |lons|
    modifies buffer
    ensures Cells3(buffer) == [TimedGrid(v.data, lats, lons, date)]
  {
    for p := 0 to |lats|
      invariant forall i, j :: 0 <= i < p && 0 <= j < |lons| ==>
        buffer[0, i, j] == Lookup(v.data, TimeKey(lats[i], lons[j], Some(date)))
    {
      for q := 0 to |lons|
        invariant forall i, j :: 0 <= i < p && 0 <= j < |lons| ==>
          buffer[0, i, j] == Lookup(v.data, TimeKey(lats[i], lons[j], Some(date)))
        invariant forall j :: 0 <= j < q ==> buffer[0, p, j] == Lookup(v.data, TimeKey(lats[p], lons[j], Some(date)))
      {
        buffer[0, p, q] := v.GetTimedValue(lats[p], lons[q], Some(date));
      }
    }
    var cells, grid := Cells3(buffer), TimedGrid(v.data, lats, lons, date);
    forall p | 0 <= p < |lats|
      ensures cells[0][p] == grid[p]
    {
      assert forall q :: 0 <= q < |lons| ==> cells[0][p][q] == grid[p][q];
    }
    assert cells[0] == grid;
  }

  /** Refills the 4-D buffer (one record) of a time-depth variable for the instant `date`. */
  method FillDepth(buffer: array4<Cell>, v: Variable, lats: seq<real>, lons: seq<real>, heights: seq<real>, date: Instant)
    requires v.shape == TimeDepth
    requires buffer.Length0 == 1 && buffer.Length1 == |lats| && buffer.Length2 == |lons| && buffer.Length3 == |heights|
    modifies buffer
    ensures Cells4(buffer) == [DepthGrid(v.data, lats, lons, heights, date)]
  {
    for p := 0 to |lats|
      invariant forall i, j, h :: 0 <= i < p && 0 <= j < |lons| && 0 <= h < |heights| ==>
        buffer[0, i, j, h] == Lookup(v.data, Coordinate(lats[i], lons[j], Some(date), Some(heights[h])))
    {
      for q := 0 to |lons|
        invariant forall i, j, h :: 0 <= i < p && 0 <= j < |lons| && 0 <= h < |heights| ==>
          buffer[0, i, j, h] == Lookup(v.data, Coordinate(lats[i], lons[j], Some(date), Some(heights[h])))
        invariant forall j, h :: 0 <= j < q && 0 <= h < |heights| ==>
          buffer[0, p, j, h] == Lookup(v.data, Coordinate(lats[p], lons[j], Some(date), Some(heights[h])))
      {
        FillColumn(buffer, v, p, q, lats[p], lons[q], heights, date);
      }
    }
    var cells, grid := Cells4(buffer), DepthGrid(v.data, lats, lons, heights, date);
    forall p | 0 <= p < |lats|
      ensures cells[0][p] == grid[p]
    {
      forall q | 0 <= q < |lons|
        ensures cells[0][p][q] == grid[p][q]
      {
        assert forall h :: 0 <= h < |heights| ==> cells[0][p][q][h] == grid[p][q][h];
      }
    }
    assert cells[0] == grid;
  }

  /** The innermost loop of a time-depth record: the column of heights under one (lat, lon) cell. */
  method FillColumn(buffer: array4<Cell>, v: Variable, p: nat, q: nat, lat: real, lon: real, heights: seq<real>, date: Instant)
    requires v.shape == TimeDepth
    requires buffer.Length0 == 1 && p < buffer.Length1 && q < buffer.Length2 && buffer.Length3 == |heights|
    modifies buffer
    ensures forall h :: 0 <= h < |heights| ==>
      buffer[0, p, q, h] == Lookup(v.data, Coordinate(lat, lon, Some(date), Some(heights[h])))
    ensures forall i, j, k, h ::
      (0 <= i < buffer.Length0 && 0 <= j < buffer.Length1 && 0 <= k < buffer.Length2 && 0 <= h < buffer.Length3
       && (j, k) != (p, q)) ==> buffer[i, j, k, h] == old(buffer[i, j, k, h])
  {
    for h := 0 to |heights|
      invariant forall r :: 0 <= r < h ==>
        buffer[0, p, q, r] == Lookup(v.data, Coordinate(lat, lon, Some(date), Some(heights[r])))
      invariant forall i, j, k, r ::
        (0 <= i < buffer.Length0 && 0 <= j < buffer.Length1 && 0 <= k < buffer.Length2 && 0 <= r < buffer.Length3
         && (j, k) != (p, q)) ==> buffer[i, j, k, r] == old(buffer[i, j, k, r])
    {
      buffer[0, p, q, h] := v.GetDepthValue(lat, lon, Some(date), heights[h]);
    }
  }
}
