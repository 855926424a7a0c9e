/**
 * The key of one sample: latitude, longitude, an optional instant and an
 * optional height (NetCDFPointCoordinate).  Equality and hashing are exact,
 * field by field; the order `CompareTo` is a separate, tolerant,
 * lexicographic order in which a missing instant or height sorts last.
 *
 * Floats and doubles are modelled as reals and instants as milliseconds since
 * 1970-01-01T00:00Z, so IEEE details (NaN, -0.0, rounding of the float
 * subtraction) and time zones are not part of this model.
 */
module Coordinates {
  import opened Wrappers

  /** An instant, in milliseconds since 1970-01-01T00:00Z. */
  type Instant = int

  /** Latitudes and longitudes closer than this compare as equal (about one metre). */
  const CoordinateEpsilon: real := 0.00001

  /** Heights closer than this compare as equal. */
  const HeightEpsilon: real := 0.0000001

  datatype Coordinate = Coordinate(lat: real, lon: real, date: Option<Instant>, height: Option<real>)

  /** The key built by the two-argument constructor: no instant, no height. */
  function PlainKey(lat: real, lon: real): (c: Coordinate)
    ensures c.lat == lat && c.lon == lon && c.date.None? && c.height.None?
  {
    Coordinate(lat, lon, None, None)
  }

  /** The key built by the three-argument constructor: no height. */
  function TimeKey(lat: real, lon: real, date: Option<Instant>): (c: Coordinate)
    ensures c.lat == lat && c.lon == lon && c.date == date && c.height.None?
  {
    Coordinate(lat, lon, date, None)
  }

  /**
   * `equals`: latitudes and longitudes are the same value, and the instants
   * and the heights are either both missing or both present and equal.
   */
  predicate Equals(a: Coordinate, b: Coordinate)
    ensures Equals(a, b) <==> a == b
  {
    && a.lat == b.lat
    && a.lon == b.lon
    && a.date == b.date
    && a.height == b.height
  }

  // ---------------------------------------------------------------------
  // hashCode

  const Int32Modulus: int := 0x1_0000_0000

  /** Two's complement wrap-around of a Java `int` result. */
  function Wrap32(x: int): (r: int)
    ensures -0x8000_0000 <= r < 0x8000_0000
    ensures (x - r) % Int32Modulus == 0
  {
    (x + 0x8000_0000) % Int32Modulus - 0x8000_0000
  }

  /** `Arrays.hashCode` over the field hashes: start at 1, then `31 * h + e` for each field, in `int` arithmetic. */
  function CombineHashes(hs: seq<int>): (h: int)
    ensures -0x8000_0000 <= h < 0x8000_0000
  {
    if |hs| == 0 then 1
    else Wrap32(31 * CombineHashes(hs[..|hs| - 1]) + hs[|hs| - 1])
  }

  /** A missing field hashes to 0. */
  function OptionHash<T>(o: Option<T>, hash: T -> int): int {
    if o.None? then 0 else hash(o.value)
  }

  /**
   * `hashCode`, i.e. `Objects.hash(lat, lon, date, height)`.  The hashes of the
   * boxed float, of the instant and of the boxed double are parameters.
   */
  function HashCode(c: Coordinate, floatHash: real -> int, instantHash: Instant -> int, doubleHash: real -> int): (h: int)
    ensures -0x8000_0000 <= h < 0x8000_0000
  {
    CombineHashes([floatHash(c.lat), floatHash(c.lon), OptionHash(c.date, instantHash), OptionHash(c.height, doubleHash)])
  }

  /** Equal keys hash equally, so a hash map keyed on coordinates finds a key by `Equals`. */
  lemma HashConsistentWithEquals(a: Coordinate, b: Coordinate, floatHash: real -> int, instantHash: Instant -> int, doubleHash: real -> int)
    requires Equals(a, b)
    ensures HashCode(a, floatHash, instantHash, doubleHash) == HashCode(b, floatHash, instantHash, doubleHash)
  {
  }

  // ---------------------------------------------------------------------
  // compareTo

  /** `DateTime.compareTo`: the sign of the difference of the two instants. */
  function CompareInstants(x: Instant, y: Instant): (r: int)
    ensures r == 0 <==> x == y
    ensures r < 0 <==> x < y
    ensures -1 <= r <= 1
  {
    if x < y then -1 else if x > y then 1 else 0
  }

  /**
   * `compareTo`: latitude, then longitude (each tied within
   * `CoordinateEpsilon`), then instant, then height (tied within
   * `HeightEpsilon`); a missing instant or height sorts after a present one.
   */
  function CompareTo(a: Coordinate, b: Coordinate): (r: int)
    ensures -1 <= r <= 1
    ensures a == b ==> r == 0
  {
    var latCmp := a.lat - b.lat;
    if latCmp > CoordinateEpsilon then 1
    else if latCmp < -CoordinateEpsilon then -1
    else
      var lonCmp := a.lon - b.lon;
      if lonCmp > CoordinateEpsilon then 1
      else if lonCmp < -CoordinateEpsilon then -1
      else if a.date != b.date && a.date.None? then 1
      else if a.date != b.date && b.date.None? then -1
      else if a.date != b.date && CompareInstants(a.date.value, b.date.value) != 0 then
        CompareInstants(a.date.value, b.date.value)
      else if a.height != b.height && a.height.None? then 1
      else if a.height != b.height && b.height.None? then -1
      else if a.height != b.height && a.height.value - b.height.value > HeightEpsilon then 1
      else if a.height != b.height && a.height.value - b.height.value < -HeightEpsilon then -1
      else 0
  }

  /** Two reals compared with a tolerance: -1, 0 (within `eps`) or 1. */
  function TolerantSign(x: real, y: real, eps: real): int {
    if x - y > eps then 1 else if x - y < -eps then -1 else 0
  }

  /** Two heights compared with `HeightEpsilon`. */
  function HeightSign(p: real, q: real): int {
    TolerantSign(p, q, HeightEpsilon)
  }

  /** Two optional values compared by `cmp`, a missing value sorting last. */
  function NullsLast<T(==)>(x: Option<T>, y: Option<T>, cmp: (T, T) -> int): int {
    match (x, y)
    case (None, None) => 0
    case (None, Some(_)) => 1
    case (Some(_), None) => -1
    case (Some(p), Some(q)) => cmp(p, q)
  }

  /** The first non-zero result in `signs`, or 0. */
  function Lexicographic(signs: seq<int>): int {
    if |signs| == 0 then 0 else if signs[0] != 0 then signs[0] else Lexicographic(signs[1..])
  }

  /** `compareTo` is the lexicographic combination of the four per-field comparisons. */
  lemma CompareIsLexicographic(a: Coordinate, b: Coordinate)
    ensures CompareTo(a, b) == Lexicographic([
      TolerantSign(a.lat, b.lat, CoordinateEpsilon),
      TolerantSign(a.lon, b.lon, CoordinateEpsilon),
      NullsLast(a.date, b.date, CompareInstants),
      NullsLast(a.height, b.height, HeightSign)])
  {
    var signs := [
      TolerantSign(a.lat, b.lat, CoordinateEpsilon),
      TolerantSign(a.lon, b.lon, CoordinateEpsilon),
      NullsLast(a.date, b.date, CompareInstants),
      NullsLast(a.height, b.height, HeightSign)];
    assert signs[3..][1..] == [];
    assert signs[2..][1..] == signs[3..];
    assert signs[1..][1..] == signs[2..];
    assert Lexicographic(signs[3..]) == signs[3];
    assert Lexicographic(signs[2..]) == if signs[2] != 0 then signs[2] else signs[3];
    assert Lexicographic(signs[1..]) == if signs[1] != 0 then signs[1] else Lexicographic(signs[2..]);
    assert Lexicographic(signs) == if signs[0] != 0 then signs[0] else Lexicographic(signs[1..]);
    if a.date.Some? && b.date.Some? {
      assert signs[2] == CompareInstants(a.date.value, b.date.value);
    }
    if a.height.Some? && b.height.Some? {
      assert signs[3] == TolerantSign(a.height.value, b.height.value, HeightEpsilon);
    }
  }

  /** Antisymmetry: swapping the operands negates the result. */
  lemma CompareAntisymmetric(a: Coordinate, b: Coordinate)
    ensures CompareTo(a, b) == -CompareTo(b, a)
  {
  }

  /** With latitude and longitude tied, a key without an instant sorts after one with an instant. */
  lemma MissingDateSortsLast(a: Coordinate, b: Coordinate)
    requires -CoordinateEpsilon <= a.lat - b.lat <= CoordinateEpsilon
    requires -CoordinateEpsilon <= a.lon - b.lon <= CoordinateEpsilon
    requires a.date.None? && b.date.Some?
    ensures CompareTo(a, b) == 1 && CompareTo(b, a) == -1
  {
  }

  /** With latitude, longitude and instant tied, a key without a height sorts after one with a height. */
  lemma MissingHeightSortsLast(a: Coordinate, b: Coordinate)
    requires -CoordinateEpsilon <= a.lat - b.lat <= CoordinateEpsilon
    requires -CoordinateEpsilon <= a.lon - b.lon <= CoordinateEpsilon
    requires a.date == b.date
    requires a.height.None? && b.height.Some?
    ensures CompareTo(a, b) == 1 && CompareTo(b, a) == -1
  {
  }

  /** Keys within every tolerance compare as 0. */
  lemma WithinToleranceCompareEqual(a: Coordinate, b: Coordinate)
    requires -CoordinateEpsilon <= a.lat - b.lat <= CoordinateEpsilon
    requires -CoordinateEpsilon <= a.lon - b.lon <= CoordinateEpsilon
    requires a.date == b.date
    requires a.height.None? <==> b.height.None?
    requires a.height.Some? ==> -HeightEpsilon <= a.height.value - b.height.value <= HeightEpsilon
    ensures CompareTo(a, b) == 0
  {
  }

  /**
   * The order is coarser than equality: two keys a hash map keeps apart can
   * compare as 0.
   */
  lemma OrderTiesDistinctKeys()
    ensures var a, b := PlainKey(10.0, 20.0), PlainKey(10.000001, 20.0);
      !Equals(a, b) && CompareTo(a, b) == 0
  {
  }
}
