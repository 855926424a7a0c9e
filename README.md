# netcdf-generator in Dafny

A model of the core of open-AIMS netcdf-generator: the in-memory data model
(coordinate keys, variables, vector pairs, datasets) and `Generator.generate`,
which writes one netCDF file holding one data hypercube per dataset.

- `wrappers.dfy` — `Option` and `Result`.
- `ordered_sets.dfy` — strict total orders, increasing sequences, the unique
  sorted listing of a finite set, and sorted insertion (the `TreeSet`s of the
  source).
- `coordinates.dfy` — `NetCDFPointCoordinate`: exact equality and hashing,
  and the separate tolerant lexicographic order `compareTo`.
- `variables.dfy` — `AbstractNetCDFVariable` and its three subclasses, as one
  class `Variable` tagged with a `Shape`; its attribute and data maps are
  fields the methods update in place.
- `vectors.dfy` — `NetCDFVectorVariable`, whose constructor stamps
  `standard_name` on the two component objects it is given.
- `datasets.dfy` — `NetCDFDataset`: the lists and maps its setters update, the
  flattening iterator, and `getDimensions` with its `HashSet` loops,
  set-to-array copies and in-place `Arrays.sort`.
- `writer.dfy` — the calls `generate` makes on UCAR's `NetcdfFileWriter`, as
  values (`Event`), and the contents of the `ArrayDouble` buffers it writes.
- `generator_plan.dfy` — `Plan`: the exact sequence of writer calls
  `generate` makes for given dataset states, and what it guarantees: all
  declarations precede `create`, every write follows it, the file ends with
  `flush`, variables use only declared dimensions, hypercube axis names never
  clash, time records hold whole hours in order, and every sample lands in the
  cell of its latitude, longitude, height and instant, NaN elsewhere.
- `generator.dfy` — `generate` itself, imperatively: the validation, the
  define-mode loop over the datasets, the data-mode loop filling reused 2-, 3-
  and 4-D buffers cell by cell, and the proof that the calls it makes are
  exactly `Plan` of the datasets' states.

Floats and doubles are reals; a NaN cell is `None`. Instants are integers
(milliseconds since 1970-01-01T00:00Z). The file writer is replaced by the
list of calls made on it.

The model follows the code as written on three points that are easy to
misread:

- Whole hours between the epoch and an instant are truncated toward zero
  (Joda `Hours.hoursBetween`), not floored: `TruncationMeetsAtEpoch` shows
  half an hour before and half an hour after the epoch both give hour 0.
- `equals` (and so the sample map) uses exact equality of every field, not
  the tolerance that only `compareTo` applies: `OrderTiesDistinctKeys` shows
  two keys the map keeps apart that `compareTo` ties.
- A missing height axis is null (`None`), never an empty array.

## Model

| member | source | states |
|---|---|---|
| Coordinates.PlainKey | src/main/java/au/gov/aims/netcdf/bean/NetCDFPointCoordinate.java:21-23 | the two-argument key has no instant and no height |
| Coordinates.TimeKey | src/main/java/au/gov/aims/netcdf/bean/NetCDFPointCoordinate.java:25-27 | the three-argument key keeps its instant (possibly missing) and has no height |
| Coordinates.Equals | src/main/java/au/gov/aims/netcdf/bean/NetCDFPointCoordinate.java:52-61 | `equals` holds exactly when the two keys are the same value, field by field, with no tolerance |
| Coordinates.Wrap32 | src/main/java/au/gov/aims/netcdf/bean/NetCDFPointCoordinate.java:64-66 | Java `int` wrap-around: the result is a 32-bit value congruent to its argument modulo 2^32 |
| Coordinates.CombineHashes | src/main/java/au/gov/aims/netcdf/bean/NetCDFPointCoordinate.java:64-66 | the `Objects.hash` combination of the field hashes stays within 32 bits |
| Coordinates.HashCode | src/main/java/au/gov/aims/netcdf/bean/NetCDFPointCoordinate.java:64-66 | `hashCode` is a 32-bit value |
| Coordinates.HashConsistentWithEquals | src/main/java/au/gov/aims/netcdf/bean/NetCDFPointCoordinate.java:52-66 | keys that are `equals` have the same `hashCode`, whatever the field hash functions |
| Coordinates.CompareInstants | src/main/java/au/gov/aims/netcdf/bean/NetCDFPointCoordinate.java:96-99 | instants compare by sign: 0 exactly when equal, negative exactly when earlier |
| Coordinates.CompareTo | src/main/java/au/gov/aims/netcdf/bean/NetCDFPointCoordinate.java:68-120 | `compareTo` returns -1, 0 or 1, and 0 for a key compared with itself or an equal key |
| Coordinates.CompareIsLexicographic | src/main/java/au/gov/aims/netcdf/bean/NetCDFPointCoordinate.java:72-117 | the order is the first non-zero of: latitude and longitude within 1e-5, instant (missing last), height within 1e-7 (missing last) |
| Coordinates.CompareAntisymmetric | src/main/java/au/gov/aims/netcdf/bean/NetCDFPointCoordinate.java:72-117 | swapping the operands negates the result, for every pair of keys |
| Coordinates.MissingDateSortsLast | src/main/java/au/gov/aims/netcdf/bean/NetCDFPointCoordinate.java:88-94 | with latitude and longitude tied, a key without an instant sorts after one with an instant |
| Coordinates.MissingHeightSortsLast | src/main/java/au/gov/aims/netcdf/bean/NetCDFPointCoordinate.java:102-108 | with latitude, longitude and instant tied, a key without a height sorts after one with a height |
| Coordinates.WithinToleranceCompareEqual | src/main/java/au/gov/aims/netcdf/bean/NetCDFPointCoordinate.java:72-119 | keys within 1e-5 in latitude and longitude, with the same instant and heights within 1e-7, compare as 0 |
| Coordinates.OrderTiesDistinctKeys | src/main/java/au/gov/aims/netcdf/bean/NetCDFPointCoordinate.java:53-86 | the order is coarser than equality: two keys that are not `equals` can compare as 0 |
| Variables.Lookup | src/main/java/au/gov/aims/netcdf/bean/AbstractNetCDFVariable.java:46-48 | `getValue` finds a value exactly when that very key was stored, and it is the stored value; otherwise null |
| Variables.Variable.constructor | src/main/java/au/gov/aims/netcdf/bean/AbstractNetCDFVariable.java:21-27 | a new variable has no data and exactly the attribute "units" |
| Variables.Variable.SetAttribute | src/main/java/au/gov/aims/netcdf/bean/AbstractNetCDFVariable.java:37-39 | one attribute is set, replacing an earlier value; the other attributes and the data are unchanged |
| Variables.Variable.AddDataPoint | src/main/java/au/gov/aims/netcdf/bean/AbstractNetCDFVariable.java:60-62 | after storing, `getValue` of the key is the value (last write wins) and every other key reads as before |
| Variables.Variable.GetDates | src/main/java/au/gov/aims/netcdf/bean/AbstractNetCDFVariable.java:50-58 | the instants of the data keys, strictly increasing, exactly those present, missing ones skipped |
| Variables.Variable.GetPlainValue | src/main/java/au/gov/aims/netcdf/bean/NetCDFVariable.java:12-14 | a value is found exactly when the key (lat, lon, no instant, no height) was stored, and it is the value stored at that key |
| Variables.Variable.AddPlainPoint | src/main/java/au/gov/aims/netcdf/bean/NetCDFVariable.java:16-18 | stores under (lat, lon, no instant, no height), after which `getValue(lat, lon)` reads it back |
| Variables.PlainPointAddsNothing | src/main/java/au/gov/aims/netcdf/bean/NetCDFVariable.java:16-18 | a plain point adds no instant and no height, so a variable filled this way has no dates |
| Variables.Variable.GetTimedValue | src/main/java/au/gov/aims/netcdf/bean/NetCDFTimeVariable.java:14-16 | a value is found exactly when the key (lat, lon, instant, no height) was stored, and it is the value stored at that key |
| Variables.Variable.AddTimedPoint | src/main/java/au/gov/aims/netcdf/bean/NetCDFTimeVariable.java:18-20 | stores under (lat, lon, instant, no height), after which `getValue(lat, lon, date)` reads it back |
| Variables.TimedPointAddsDate | src/main/java/au/gov/aims/netcdf/bean/NetCDFTimeVariable.java:18-20 | a time point adds its instant, if any, to the dates and nothing to the heights |
| Variables.DistinctKeysKeptApart | src/main/java/au/gov/aims/netcdf/bean/NetCDFTimeVariable.java:18-20 | points at one place with different instants (or heights) are independent entries |
| Variables.Variable.GetDepthValue | src/main/java/au/gov/aims/netcdf/bean/NetCDFTimeDepthVariable.java:15-17 | a value is found exactly when the key (lat, lon, instant, height) was stored, and it is the value stored at that key |
| Variables.Variable.AddDepthPoint | src/main/java/au/gov/aims/netcdf/bean/NetCDFTimeDepthVariable.java:19-21 | stores under (lat, lon, instant, height), after which `getValue(lat, lon, date, height)` reads it back |
| Variables.DepthPointAddsDateAndHeight | src/main/java/au/gov/aims/netcdf/bean/NetCDFTimeDepthVariable.java:19-21 | a time-depth point adds its height to the heights and its instant, if any, to the dates |
| Vectors.VectorVariable.constructor | src/main/java/au/gov/aims/netcdf/bean/NetCDFVectorVariable.java:12-20 | keeps the very u and v objects, sets their "standard_name" to "eastward_" and "northward_" plus the group name, and changes nothing else of them |
| Datasets.Dataset.constructor | src/main/java/au/gov/aims/netcdf/bean/NetCDFDataset.java:28-34 | a new dataset is empty, with unit "hours since 1990-01-01" and 1990-01-01T00:00Z as epoch |
| Datasets.Dataset.SetTimeUnit | src/main/java/au/gov/aims/netcdf/bean/NetCDFDataset.java:44-47 | replaces both unit and epoch and nothing else |
| Datasets.Dataset.SetGlobalAttribute | src/main/java/au/gov/aims/netcdf/bean/NetCDFDataset.java:53-55 | sets one global attribute and leaves the others and the rest of the dataset alone |
| Datasets.Dataset.SetVariables | src/main/java/au/gov/aims/netcdf/bean/NetCDFDataset.java:89-95 | null clears the variable list, a list replaces it |
| Datasets.Dataset.AddVariable | src/main/java/au/gov/aims/netcdf/bean/NetCDFDataset.java:97-99 | appends, keeping the order of insertion |
| Datasets.Dataset.SetVectorVariables | src/main/java/au/gov/aims/netcdf/bean/NetCDFDataset.java:106-112 | null clears the pair list, a list replaces it |
| Datasets.Dataset.AddVectorVariable | src/main/java/au/gov/aims/netcdf/bean/NetCDFDataset.java:114-116 | appends, keeping the order of insertion |
| Datasets.Components | src/main/java/au/gov/aims/netcdf/bean/NetCDFDataset.java:122-125 | the pairs contribute u then v each, pair by pair, twice as many variables as pairs |
| Datasets.Dataset.Iterator | src/main/java/au/gov/aims/netcdf/bean/NetCDFDataset.java:120-128 | the loop builds exactly the flattened view: plain variables, then u and v of each pair |
| Datasets.Dataset.AllLayout | src/main/java/au/gov/aims/netcdf/bean/NetCDFDataset.java:120-128 | the flattened view has |variables| + 2 |pairs| entries, the plain variables first and in order, then u and v of pair k at the places |variables| + 2k and + 2k + 1 |
| Datasets.Dataset.StateIsFlattened | src/main/java/au/gov/aims/netcdf/bean/NetCDFDataset.java:120-128 | what the generator reads of a dataset is the states of its flattened view, one for one |
| Datasets.AxisSorted | src/main/java/au/gov/aims/netcdf/bean/NetCDFDataset.java:135-153 | an axis is null exactly for an empty set and otherwise lists the set strictly increasing |
| Datasets.Dataset.GetDimensions | src/main/java/au/gov/aims/netcdf/bean/NetCDFDataset.java:60-83 | the dimensions are the sorted distinct latitudes, longitudes and present heights of every key of every flattened variable |
| Datasets.DimensionsFromAll | src/main/java/au/gov/aims/netcdf/bean/NetCDFDataset.java:60-83 | the same, for the variables the iterator returned |
| Datasets.CollectFromAll | src/main/java/au/gov/aims/netcdf/bean/NetCDFDataset.java:65-80 | the outer loop collects the latitudes, longitudes and present heights of the keys of all variables |
| Datasets.CollectAxes | src/main/java/au/gov/aims/netcdf/bean/NetCDFDataset.java:68-78 | the inner loop adds the latitude, longitude and (present) height of every key of one variable |
| Datasets.NewDimensions | src/main/java/au/gov/aims/netcdf/bean/NetCDFDataset.java:135-153 | each set becomes its sorted axis, or null when empty |
| Datasets.SortedAxis | src/main/java/au/gov/aims/netcdf/bean/NetCDFDataset.java:139-153 | copy then sort gives null for an empty set and otherwise the strictly increasing listing of the set |
| Datasets.SetToArray | src/main/java/au/gov/aims/netcdf/bean/NetCDFDataset.java:168-195 | null exactly for an empty set; otherwise a new array holding each element of the set once |
| Datasets.SortInPlace | src/main/java/au/gov/aims/netcdf/bean/NetCDFDataset.java:144-152 | `Arrays.sort`: the array ends sorted and a permutation of what it held |
| Datasets.SortedListingOfSet | src/main/java/au/gov/aims/netcdf/bean/NetCDFDataset.java:144-152 | a sorted array with the elements of a set, once each, is strictly increasing and holds exactly the set |
| Datasets.AxesMissingIffNoData | src/main/java/au/gov/aims/netcdf/bean/NetCDFDataset.java:60-83 | the latitude and longitude arrays are null exactly when the dataset has no data key |
| NetcdfWriter.Cells2 | src/main/java/au/gov/aims/netcdf/Generator.java:237-238 | the values a D2 buffer holds, cell for cell |
| NetcdfWriter.Cells3 | src/main/java/au/gov/aims/netcdf/Generator.java:256-257 | the values a D3 buffer holds, cell for cell |
| NetcdfWriter.Cells4 | src/main/java/au/gov/aims/netcdf/Generator.java:282-284 | the values a D4 buffer holds, cell for cell |
| GeneratorPlan.NatToString | src/main/java/au/gov/aims/netcdf/Generator.java:106-111 | the decimal suffix is a non-empty string of digits |
| GeneratorPlan.ParseNatToString | src/main/java/au/gov/aims/netcdf/Generator.java:106-111 | the decimal suffix reads back as the dataset index |
| GeneratorPlan.AxisNameInjective | src/main/java/au/gov/aims/netcdf/Generator.java:101-111 | a suffixed name is equal to another exactly when their bases and indices are |
| GeneratorPlan.AxisNamesUnique | src/main/java/au/gov/aims/netcdf/Generator.java:101-111 | of the names "lat", "lon", "time", "zc" of any two datasets, two are equal only when they are the same name of the same dataset |
| GeneratorPlan.HoursBetween | src/main/java/au/gov/aims/netcdf/Generator.java:222 | the whole hours elapsed, truncated toward zero, for instants before and after the epoch |
| GeneratorPlan.HoursOfWholeHours | src/main/java/au/gov/aims/netcdf/Generator.java:222 | an instant a whole number of hours from the epoch is recorded as exactly that number |
| GeneratorPlan.HoursMonotone | src/main/java/au/gov/aims/netcdf/Generator.java:219-222 | a later instant never gets a smaller hour value |
| GeneratorPlan.TruncationMeetsAtEpoch | src/main/java/au/gov/aims/netcdf/Generator.java:222 | half an hour before and half an hour after the epoch are both hour 0 |
| GeneratorPlan.PlainGrid | src/main/java/au/gov/aims/netcdf/Generator.java:237-248 | a plain buffer has one row per latitude and one column per longitude |
| GeneratorPlan.TimedGrid | src/main/java/au/gov/aims/netcdf/Generator.java:256-270 | a time record has one row per latitude and one column per longitude |
| GeneratorPlan.DepthGrid | src/main/java/au/gov/aims/netcdf/Generator.java:282-300 | a time-depth record has one column of heights under each latitude and longitude |
| GeneratorPlan.LayoutAxes | src/main/java/au/gov/aims/netcdf/Generator.java:407-414 | a bundle's axes are the dataset's strictly increasing distinct latitudes, longitudes and heights, the height axis missing exactly when no key has a height, and its names those of its index |
| GeneratorPlan.DatesSorted | src/main/java/au/gov/aims/netcdf/Generator.java:205-209 | `allDateTime` is strictly increasing, holds exactly the instants of the dataset's keys, one record per distinct instant |
| GeneratorPlan.Hypercubes | src/main/java/au/gov/aims/netcdf/Generator.java:92-113 | one hypercube per dataset, the `j`-th with the `j`-th dataset's axes and names for index `j` |
| GeneratorPlan.TimeWrites | src/main/java/au/gov/aims/netcdf/Generator.java:212-230 | one time record per instant, none when there is no instant |
| GeneratorPlan.WritesFor | src/main/java/au/gov/aims/netcdf/Generator.java:233-309 | a plain variable is written once, a time or time-depth variable once per instant of the dataset, whether or not it has data then; every call is a write to that variable |
| GeneratorPlan.WritableHasHeights | src/main/java/au/gov/aims/netcdf/Generator.java:279-284 | a dataset `generate` accepts has a height axis wherever a time-depth variable needs one |
| GeneratorPlan.HeaderDeclares | src/main/java/au/gov/aims/netcdf/Generator.java:92-185 | every call of the define-mode loop is a declaration |
| GeneratorPlan.BodyWrites | src/main/java/au/gov/aims/netcdf/Generator.java:193-312 | every call of the data-mode loop is a write |
| GeneratorPlan.PlanPhases | src/main/java/au/gov/aims/netcdf/Generator.java:92-315 | the calls are declarations exactly before the single `create`, writes between it and the end, and `flush` last |
| GeneratorPlan.DimensionsDeclaredBeforeUse | src/main/java/au/gov/aims/netcdf/Generator.java:117-176 | every variable of a hypercube is declared over dimensions declared before it: plain over (lat, lon), time over (time, lat, lon), time-depth also over zc when the dataset has heights |
| GeneratorPlan.DataDeclarationsUseDeclaredDims | src/main/java/au/gov/aims/netcdf/Generator.java:163-176 | a data variable only uses the dataset's lat, lon, time and (when present) height dimensions |
| GeneratorPlan.TimeValuesNonDecreasing | src/main/java/au/gov/aims/netcdf/Generator.java:217-229 | later time records never hold fewer hours |
| GeneratorPlan.KeyOnAxes | src/main/java/au/gov/aims/netcdf/bean/NetCDFDataset.java:65-80 | every data key's latitude, longitude, height and instant are values of the bundle's axes and of `allDateTime` |
| GeneratorPlan.PlainPointWritten | src/main/java/au/gov/aims/netcdf/Generator.java:240-251 | a plain sample is written in the cell of its latitude and longitude |
| GeneratorPlan.TimedPointWritten | src/main/java/au/gov/aims/netcdf/Generator.java:258-277 | a time sample is written in the cell of its latitude and longitude, at the record of its instant |
| GeneratorPlan.DepthPointWritten | src/main/java/au/gov/aims/netcdf/Generator.java:285-307 | a time-depth sample is written at its latitude, longitude and height, at the record of its instant |
| GeneratorPlan.PlainGridIgnoresOtherKeys | src/main/java/au/gov/aims/netcdf/Generator.java:240-246 | keys with an instant or a height never reach a plain variable's buffer |
| GeneratorPlan.TimedGridIgnoresOtherKeys | src/main/java/au/gov/aims/netcdf/Generator.java:262-268 | keys with a height or without an instant never reach a time variable's buffer |
| GeneratorPlan.TimedGridMissingDate | src/main/java/au/gov/aims/netcdf/Generator.java:253-277 | a record for an instant at which the variable has no data is all NaN |
| GeneratorPlan.DepthGridMissingDate | src/main/java/au/gov/aims/netcdf/Generator.java:279-307 | the same for a time-depth variable, at every height |
| Generator.Generate | src/main/java/au/gov/aims/netcdf/Generator.java:74-317 | fails with "No output file provided", then "No dataset provided", then a null dereference when a dataset has no data or lacks the heights a time-depth variable needs; otherwise makes exactly the calls of `Plan` of the datasets' states |
| Generator.CheckAll | src/main/java/au/gov/aims/netcdf/Generator.java:92-309 | the generator dereferences null for some dataset exactly when one of them is not writable |
| Generator.CheckWritable | src/main/java/au/gov/aims/netcdf/Generator.java:113-118 | a dataset gets through exactly when it has a latitude array and, if it has a time-depth variable, a height axis |
| Generator.HeightsPresent | src/main/java/au/gov/aims/netcdf/Generator.java:279-284 | the height dimension is dereferenced safely exactly when no time-depth variable meets a missing height axis |
| Generator.Run | src/main/java/au/gov/aims/netcdf/Generator.java:84-316 | for writable datasets, the calls made are the declarations, `create`, the writes and `flush` of `Plan` |
| Generator.BundlesOf | src/main/java/au/gov/aims/netcdf/Generator.java:92-111 | the bundles of the define-mode loop: one per dataset, the `j`-th holding the `j`-th dataset and the layout of the `j`-th hypercube |
| Generator.DeclareAll | src/main/java/au/gov/aims/netcdf/Generator.java:92-185 | the define-mode loop makes the bundles of all datasets and exactly the header of their hypercubes, touching no dataset |
| Generator.DeclareNext | src/main/java/au/gov/aims/netcdf/Generator.java:92-185 | one turn adds the next bundle and that hypercube's declarations |
| Generator.DeclareOne | src/main/java/au/gov/aims/netcdf/Generator.java:93-182 | the bundle of a dataset holds its axes and names, and its declarations are those of its hypercube |
| Generator.MakeBundle | src/main/java/au/gov/aims/netcdf/Generator.java:102-111 | `new Bundle(dataset)` with the names for its index gives the hypercube's layout |
| Generator.Flatten | src/main/java/au/gov/aims/netcdf/Generator.java:163 | walking the dataset yields variables whose states are the dataset's flattened variables |
| Generator.DeclareBundle | src/main/java/au/gov/aims/netcdf/Generator.java:96-182 | global attributes, dimensions, coordinate variables with their attributes, then every data variable |
| Generator.DeclareVariables | src/main/java/au/gov/aims/netcdf/Generator.java:163-182 | each data variable, in iteration order, as a double over its dimensions, followed by its attribute map |
| Generator.VariableDims | src/main/java/au/gov/aims/netcdf/Generator.java:166-174 | time first for time and time-depth variables, then lat and lon, then height for a time-depth variable when the dataset has one |
| Generator.WriteAll | src/main/java/au/gov/aims/netcdf/Generator.java:193-312 | the data-mode loop makes exactly the body of the hypercubes |
| Generator.WriteNext | src/main/java/au/gov/aims/netcdf/Generator.java:193-309 | one turn adds the writes of the next bundle |
| Generator.WriteBundle | src/main/java/au/gov/aims/netcdf/Generator.java:194-309 | coordinate values, then time records over the sorted distinct instants, then every variable's data |
| Generator.WriteTimes | src/main/java/au/gov/aims/netcdf/Generator.java:212-230 | record `t` holds the whole hours from the epoch to the `t`-th instant |
| Generator.WriteVariables | src/main/java/au/gov/aims/netcdf/Generator.java:232-309 | the data of every variable, in iteration order |
| Generator.AllDates | src/main/java/au/gov/aims/netcdf/Generator.java:205-209 | `allDateTime` is strictly increasing and holds exactly the instants of every variable's keys |
| Generator.AddDates | src/main/java/au/gov/aims/netcdf/Generator.java:208 | merging one variable's dates keeps the set sorted and adds exactly those instants |
| Generator.WriteVariable | src/main/java/au/gov/aims/netcdf/Generator.java:235-308 | the writes of one variable from its reused buffer are those of its shape in `Plan` |
| Generator.FillPlain | src/main/java/au/gov/aims/netcdf/Generator.java:237-248 | the plain buffer ends holding, at (i, j), the value at (lats[i], lons[j]) or NaN |
| Generator.FillTimed | src/main/java/au/gov/aims/netcdf/Generator.java:258-270 | the reused time buffer ends holding exactly this instant's grid, whatever it held before |
| Generator.FillDepth | src/main/java/au/gov/aims/netcdf/Generator.java:285-300 | the reused time-depth buffer ends holding exactly this instant's grid at every height |
| Generator.FillColumn | src/main/java/au/gov/aims/netcdf/Generator.java:294-298 | one column of heights is filled and every other cell is left as it was |

## Left out

- The netCDF file itself: `createNew`, the netCDF-4 format, the bytes written, closing the writer and the `IOException`/`InvalidRangeException` it may raise. The writer is replaced by the list of calls made on it.
- The iteration order of `HashMap`s of attributes: each attribute map becomes one call (`DeclareAttributes`, `DeclareGlobalAttributes`) that stands for all its entries in an unspecified order.
- The iteration order of `HashSet`s: `SetToArray` fills the array in an unspecified order, and only the sorted axis is used.
- IEEE arithmetic: lat and lon are `float` and heights `double` in the source; the model uses reals. The NaN fill value is `None`; -0.0, NaN keys, float rounding of the subtraction in `compareTo`, and the narrowing of the axis arrays to `float` are not modelled.
- Joda time: instants are integer milliseconds, without time zones or chronology.
- GeneratorPlan.HoursBetween: does not model the `ArithmeticException` Joda raises when the hour count leaves the `int` range.
- Coordinates.HashCode: the hashes of the boxed float, the instant and the boxed double are parameters, not Java's own functions.
- Variables.Variable.AddDataPoint: a null value cannot be stored (the map holds reals). Such an entry would still count for the axes and read back as NaN.
- Null keys, null variables, null attribute maps and null datasets in the argument array: the source has a guard for some (`coordinate != null` in `getDimensions`), but the model's values are never null.
- Aliasing of lists: `setVariables` and `setVectorVariables` keep the caller's list object, so later changes the caller makes to it show up in the dataset. `setVariables(null)` clears that shared list in place. The model stores sequences by value.
- Generator.Generate: on a null dereference, returns the failure without the calls made before it on the writer.
- Subclasses of `AbstractNetCDFVariable` other than the three shapes: the model has exactly the three. The source would declare such a variable over (lat, lon) and never write it.
- Transitivity of `compareTo` near the tolerance boundary, which the source does not promise.
- Name clashes between data variables, within a dataset or across datasets: the source does not check them and neither does the model.
- `getCoordinates`, `drawLinearGradient` and `drawRadialGradient` (floating-point and random helpers), the example programs and the demo drivers that only fill datasets and call `generate`.
