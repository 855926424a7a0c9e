/**
 * The netCDF-4 file writer the generator drives (UCAR NetcdfFileWriter),
 * seen from its calls: the generator's effect is the sequence of calls it
 * makes, in order -- every declaration given in define mode, the switch to
 * data mode (`create`), every block of values written, and the final flush.
 * The file's bytes are not modelled; that sequence is what the file comes to
 * hold.
 */
module NetcdfWriter {
  import opened Wrappers

  /** The netCDF element types the generator uses. */
  datatype DataType = Float | Double | Int

  /** One cell of a data buffer: a value, or `None` for NaN, the generator's fill for a missing value. */
  type Cell = Option<real>

  /** A block of values handed to `write`: a 1-D typed array or a 2-, 3- or 4-D grid of doubles. */
  datatype Buffer =
    | Floats(floats: seq<real>)
    | Doubles(doubles: seq<real>)
    | Ints(ints: seq<int>)
    | Grid2(cells2: seq<seq<Cell>>)
    | Grid3(cells3: seq<seq<seq<Cell>>>)
    | Grid4(cells4: seq<seq<seq<seq<Cell>>>>)

  /**
   * One call on the writer.  `DeclareAttributes` stands for the calls that
   * add every entry of one attribute map, which the generator makes in the
   * map's own (unspecified) iteration order; `DeclareGlobalAttributes` likewise.
   */
  datatype Event =
    | DeclareGlobalAttributes(globals: map<string, string>)
    | DeclareDimension(dimName: string, length: nat)
    | DeclareUnlimitedDimension(dimName: string)
    | DeclareVariable(varName: string, dataType: DataType, dims: seq<string>)
    | DeclareAttribute(attrOwner: string, key: string, value: string)
    | DeclareAttributes(attrsOwner: string, attributes: map<string, string>)
    | Create
    | Write(target: string, origin: seq<nat>, data: Buffer)
    | Flush

  /** The calls allowed only in define mode, before `create`. */
  predicate IsDeclaration(e: Event) {
    !(e.Create? || e.Write? || e.Flush?)
  }

  // ---------------------------------------------------------------------
  // The values an ArrayDouble.D2 / D3 / D4 buffer holds when it is written.

  function Cells2(a: array2<Cell>): (r: seq<seq<Cell>>)
    reads a
    ensures |r| == a.Length0
    ensures forall i :: 0 <= i < a.Length0 ==> |r[i]| == a.Length1
    ensures forall i, j :: 0 <= i < a.Length0 && 0 <= j < a.Length1 ==> r[i][j] == a[i, j]
  {
    seq(a.Length0, i reads a requires 0 <= i < a.Length0 =>
      seq(a.Length1, j reads a requires 0 <= j < a.Length1 => a[i, j]))
  }

  function Cells3(a: array3<Cell>): (r: seq<seq<seq<Cell>>>)
    reads a
    ensures |r| == a.Length0
    ensures forall i :: 0 <= i < a.Length0 ==> |r[i]| == a.Length1
    ensures forall i, j :: 0 <= i < a.Length0 && 0 <= j < a.Length1 ==> |r[i][j]| == a.Length2
    ensures forall i, j, k :: 0 <= i < a.Length0 && 0 <= j < a.Length1 && 0 <= k < a.Length2 ==>
      r[i][j][k] == a[i, j, k]
  {
    seq(a.Length0, i reads a requires 0 <= i < a.Length0 =>
      seq(a.Length1, j reads a requires 0 <= j < a.Length1 =>
        seq(a.Length2, k reads a requires 0 <= k < a.Length2 => a[i, j, k])))
  }

  function Cells4(a: array4<Cell>): (r: seq<seq<seq<seq<Cell>>>>)
    reads a
    ensures |r| == a.Length0
    ensures forall i :: 0 <= i < a.Length0 ==> |r[i]| == a.Length1
    ensures forall i, j :: 0 <= i < a.Length0 && 0 <= j < a.Length1 ==> |r[i][j]| == a.Length2
    ensures forall i, j, k :: 0 <= i < a.Length0 && 0 <= j < a.Length1 && 0 <= k < a.Length2 ==>
      |r[i][j][k]| == a.Length3
    ensures forall i, j, k, l :: 0 <= i < a.Length0 && 0 <= j < a.Length1 && 0 <= k < a.Length2 && 0 <= l < a.Length3 ==>
      r[i][j][k][l] == a[i, j, k, l]
  {
    seq(a.Length0, i reads a requires 0 <= i < a.Length0 =>
      seq(a.Length1, j reads a requires 0 <= j < a.Length1 =>
        seq(a.Length2, k reads a requires 0 <= k < a.Length2 =>
          seq(a.Length3, l reads a requires 0 <= l < a.Length3 => a[i, j, k, l]))))
  }
}
