/**
  Two pure helpers of the ESO translator: the change of azimuth frame
  between ESO (measured westwards from south) and AOT (measured eastwards
  from north), and the split of ESO's interleaved slope vectors
  `tip1, tilt1, tip2, tilt2, ...` into tip and tilt.

  Angles are real numbers rather than IEEE doubles, and an array is a
  sequence (of rows, for a matrix).
 */
module EsoHelpers {
  import opened Wrappers

  /* ---------------- Azimuth ---------------- */

  /** Python's `x % 360.0`: the floored remainder, which has the sign of the divisor. */
  function Mod360(x: real): (r: real)
    ensures 0.0 <= r < 360.0
  {
    x - 360.0 * ((x / 360.0).Floor as real)
  }

  /** The remainder is the unique representative in [0, 360) that differs from x by whole turns. */
  lemma Mod360Unique(x: real, r: real, k: int)
    requires 0.0 <= r < 360.0
    requires x == r + 360.0 * (k as real)
    ensures Mod360(x) == r
  {
    assert x / 360.0 == r / 360.0 + k as real;
    assert (x / 360.0).Floor == k;
  }

  /** ESO azimuth to AOT azimuth: negate the angle shifted by 180 degrees, then reduce modulo a full turn. */
  function AzimuthConversion(az: real): (r: real)
    ensures 0.0 <= r < 360.0
  {
    Mod360(-(az - 180.0))
  }

  /** North, which ESO puts at 180, is AOT's 0. */
  lemma NorthStaysNorth()
    ensures AzimuthConversion(180.0) == 0.0
  {
    Mod360Unique(0.0, 0.0, 0);
  }

  /** South, which ESO puts at 0, is AOT's 180. */
  lemma SouthStaysSouth()
    ensures AzimuthConversion(0.0) == 180.0
  {
    Mod360Unique(180.0, 180.0, 0);
  }

  /** On the circle [0, 360) the conversion is the reflection through the north-south axis. */
  lemma ConversionOnCircle(az: real)
    requires 0.0 <= az < 360.0
    ensures az <= 180.0 ==> AzimuthConversion(az) == 180.0 - az
    ensures az > 180.0 ==> AzimuthConversion(az) == 540.0 - az
  {
    if az <= 180.0 {
      Mod360Unique(180.0 - az, 180.0 - az, 0);
    } else {
      Mod360Unique(180.0 - az, 540.0 - az, -1);
    }
  }

  /** A full turn of the input does not change the output. */
  lemma ConversionPeriodic(az: real)
    ensures AzimuthConversion(az + 360.0) == AzimuthConversion(az)
  {
    var x := 180.0 - az;
    var k := (x / 360.0).Floor;
    Mod360Unique(x - 360.0, AzimuthConversion(az), k - 1);
  }

  /** Converting twice gives back the original angle, reduced to [0, 360). */
  lemma ConversionInvolution(az: real)
    ensures AzimuthConversion(AzimuthConversion(az)) == Mod360(az)
  {
    var once := AzimuthConversion(az);
    var k := ((180.0 - az) / 360.0).Floor;
    var j := (az / 360.0).Floor;
    // once == 180 - az - 360 k and Mod360(az) == az - 360 j, so 180 - once == Mod360(az) + 360 (j + k).
    Mod360Unique(180.0 - once, Mod360(az), j + k);
  }

  /*
    The two frames as the conversion's documentation describes them: ESO
    measures westwards from south and AOT eastwards from north. Both turn
    the same way round the compass (south to west, north to east), so the
    documented change of frame is a half turn, not a reflection.
   */
  datatype Cardinal = North | East | South | West

  /** Where ESO's documented frame puts a cardinal direction. */
  function EsoBearing(d: Cardinal): real {
    match d
    case South => 0.0
    case West => 90.0
    case North => 180.0
    case East => 270.0
  }

  /** Where AOT's documented frame puts a cardinal direction. */
  function AotBearing(d: Cardinal): real {
    match d
    case North => 0.0
    case East => 90.0
    case South => 180.0
    case West => 270.0
  }

  /**
    The code as written reflects instead of rotating: ESO's west (90) comes
    out as 90, which is east in AOT's documented frame; east likewise
    becomes west. North and south are kept.
   */
  lemma WestBecomesEast()
    ensures AzimuthConversion(EsoBearing(West)) == AotBearing(East)
    ensures AzimuthConversion(EsoBearing(East)) == AotBearing(West)
    ensures AzimuthConversion(EsoBearing(West)) != AotBearing(West)
  {
    ConversionOnCircle(90.0);
    ConversionOnCircle(270.0);
  }

  /** The change of frame the documentation describes: a half turn, reduced to [0, 360). */
  function DocumentedAzimuthConversion(az: real): (r: real)
    ensures 0.0 <= r < 360.0
  {
    Mod360(az + 180.0)
  }

  /** The documented conversion keeps every cardinal direction's bearing. */
  lemma DocumentedConversionKeepsBearings(d: Cardinal)
    ensures DocumentedAzimuthConversion(EsoBearing(d)) == AotBearing(d)
  {
    match d {
      case South => Mod360Unique(180.0, 180.0, 0);
      case West => Mod360Unique(270.0, 270.0, 0);
      case North => Mod360Unique(360.0, 0.0, 1);
      case East => Mod360Unique(450.0, 90.0, 1);
    }
  }

  /** It is a rotation: it keeps angular distances, so it turns the same way as its input. */
  lemma DocumentedConversionRotates(az: real, delta: real)
    ensures DocumentedAzimuthConversion(az + delta) == Mod360(DocumentedAzimuthConversion(az) + delta)
  {
    var k := ((az + 180.0) / 360.0).Floor;
    var once := DocumentedAzimuthConversion(az);
    var j := ((once + delta) / 360.0).Floor;
    // once == az + 180 - 360 k, so az + delta + 180 == Mod360(once + delta) + 360 (j + k).
    Mod360Unique(az + delta + 180.0, Mod360(once + delta), j + k);
  }

  /* ---------------- Slopes ---------------- */

  /** The two ways the slope split raises. */
  datatype SlopeError =
    | ShapeMismatch   // tip and tilt differ in shape, so they cannot be stacked
    | NotImplemented  // a slope axis other than 0 or 1

  /** One (tip, tilt) pair: the two entries of the stacked axis. */
  datatype Slope<T> = Slope(tip: T, tilt: T)

  /** `s[::2]`. */
  function Evens<T>(s: seq<T>): (r: seq<T>)
    ensures |r| == (|s| + 1) / 2
    ensures forall i | 0 <= i < |r| :: r[i] == s[2 * i]
  {
    seq((|s| + 1) / 2, i requires 0 <= i < (|s| + 1) / 2 => s[2 * i])
  }

  /** `s[1::2]`. */
  function Odds<T>(s: seq<T>): (r: seq<T>)
    ensures |r| == |s| / 2
    ensures forall i | 0 <= i < |r| :: r[i] == s[2 * i + 1]
  {
    seq(|s| / 2, i requires 0 <= i < |s| / 2 => s[2 * i + 1])
  }

  function Tips<T>(ps: seq<Slope<T>>): (r: seq<T>)
    ensures |r| == |ps| && forall i | 0 <= i < |ps| :: r[i] == ps[i].tip
  {
    seq(|ps|, i requires 0 <= i < |ps| => ps[i].tip)
  }

  function Tilts<T>(ps: seq<Slope<T>>): (r: seq<T>)
    ensures |r| == |ps| && forall i | 0 <= i < |ps| :: r[i] == ps[i].tilt
  {
    seq(|ps|, i requires 0 <= i < |ps| => ps[i].tilt)
  }

  /**
    `np.stack([tip, tilt], axis=1)` along the first axis: pairs up equally
    long tip and tilt sequences, and raises when their lengths differ.
   */
  function Stack<T>(tip: seq<T>, tilt: seq<T>): (r: Result<seq<Slope<T>>, SlopeError>)
    ensures r.Success? <==> |tip| == |tilt|
    ensures r.Failure? ==> r.error == ShapeMismatch
    ensures r.Success? ==> Tips(r.value) == tip && Tilts(r.value) == tilt
  {
    if |tip| != |tilt| then Failure(ShapeMismatch)
    else Success(seq(|tip|, i requires 0 <= i < |tip| => Slope(tip[i], tilt[i])))
  }

  /** The inverse of the split: `tip1, tilt1, tip2, tilt2, ...`. */
  function Interleave<T>(tip: seq<T>, tilt: seq<T>): (r: seq<T>)
    requires |tip| == |tilt|
    ensures |r| == 2 * |tip|
  {
    if tip == [] then [] else [tip[0], tilt[0]] + Interleave(tip[1..], tilt[1..])
  }

  /** The pairs written back out in order. */
  function Flatten<T>(ps: seq<Slope<T>>): (r: seq<T>)
    ensures |r| == 2 * |ps|
  {
    if ps == [] then [] else [ps[0].tip, ps[0].tilt] + Flatten(ps[1..])
  }

  lemma EvensOddsStep<T>(s: seq<T>)
    requires |s| >= 2
    ensures Evens(s) == [s[0]] + Evens(s[2..])
    ensures Odds(s) == [s[1]] + Odds(s[2..])
  {
    assert Evens(s)[1..] == Evens(s[2..]);
    assert Odds(s)[1..] == Odds(s[2..]);
  }

  /** An even-length sequence is the interleaving of its even and odd positions. */
  lemma {:induction false} InterleaveSplit<T>(s: seq<T>)
    requires |s| % 2 == 0
    ensures Interleave(Evens(s), Odds(s)) == s
    decreases |s|
  {
    if s != [] {
      EvensOddsStep(s);
      InterleaveSplit(s[2..]);
      assert Evens(s)[1..] == Evens(s[2..]);
      assert Odds(s)[1..] == Odds(s[2..]);
      assert s == [s[0], s[1]] + s[2..];
    }
  }

  /** Splitting an interleaving gives back both halves. */
  lemma {:induction false} SplitInterleave<T>(tip: seq<T>, tilt: seq<T>)
    requires |tip| == |tilt|
    ensures Evens(Interleave(tip, tilt)) == tip
    ensures Odds(Interleave(tip, tilt)) == tilt
    decreases |tip|
  {
    if tip != [] {
      var s := Interleave(tip, tilt);
      SplitInterleave(tip[1..], tilt[1..]);
      assert s[2..] == Interleave(tip[1..], tilt[1..]);
      EvensOddsStep(s);
      assert tip == [tip[0]] + tip[1..];
      assert tilt == [tilt[0]] + tilt[1..];
    }
  }

  /** Flattening pairs is interleaving their tips with their tilts. */
  lemma {:induction false} FlattenInterleaves<T>(ps: seq<Slope<T>>)
    ensures Flatten(ps) == Interleave(Tips(ps), Tilts(ps))
    decreases |ps|
  {
    if ps != [] {
      FlattenInterleaves(ps[1..]);
      assert Tips(ps)[1..] == Tips(ps[1..]);
      assert Tilts(ps)[1..] == Tilts(ps[1..]);
    }
  }

  /**
    `_stack_slopes` along axis 0 of a sequence of any element kind (a 1-D
    vector of slopes, or a matrix whose rows alternate tip and tilt): tip is
    the even positions, tilt the odd ones, stacked pairwise.
   */
  function SplitPairs<T>(data: seq<T>): (r: Result<seq<Slope<T>>, SlopeError>)
    ensures r.Success? <==> |data| % 2 == 0
    ensures r.Success? ==> |r.value| == |data| / 2
    ensures r.Success? ==> Tips(r.value) == Evens(data) && Tilts(r.value) == Odds(data)
  {
    Stack(Evens(data), Odds(data))
  }

  /** Writing the pairs back out in order reconstructs the input. */
  lemma SplitPairsRoundTrip<T>(data: seq<T>)
    requires |data| % 2 == 0
    ensures SplitPairs(data).Success? && Flatten(SplitPairs(data).value) == data
  {
    FlattenInterleaves(SplitPairs(data).value);
    InterleaveSplit(data);
  }

  /** And splitting flattened pairs gives back the pairs. */
  lemma FlattenRoundTrip<T>(ps: seq<Slope<T>>)
    ensures SplitPairs(Flatten(ps)) == Success(ps)
  {
    FlattenInterleaves(ps);
    SplitInterleave(Tips(ps), Tilts(ps));
    PairsFromParts(SplitPairs(Flatten(ps)).value, ps);
  }

  /** Pairs are determined by their tips and their tilts. */
  lemma PairsFromParts<T>(ps: seq<Slope<T>>, qs: seq<Slope<T>>)
    requires Tips(ps) == Tips(qs) && Tilts(ps) == Tilts(qs)
    ensures ps == qs
  {
    forall i | 0 <= i < |ps| ensures ps[i] == qs[i] {
      assert ps[i].tip == Tips(ps)[i] && ps[i].tilt == Tilts(ps)[i];
    }
  }

  /** Every row of a matrix has the given number of columns. */
  predicate Rectangular<T>(data: seq<seq<T>>, width: nat) {
    forall j | 0 <= j < |data| :: |data[j]| == width
  }

  /**
    `_stack_slopes(data, slope_axis)` on a matrix with `width` columns.
    Along axis 0 the rows are paired; along axis 1 each row is split into
    its tip columns and its tilt columns; any other axis is not implemented.
    An odd count along the split axis makes tip and tilt differ in shape.
   */
  function StackSlopes<T>(data: seq<seq<T>>, width: nat, axis: int): (r: Result<seq<Slope<seq<T>>>, SlopeError>)
    requires Rectangular(data, width)
    ensures r == Failure(NotImplemented) <==> axis != 0 && axis != 1
    ensures axis == 0 ==> (r.Success? <==> |data| % 2 == 0)
    ensures axis == 1 ==> (r.Success? <==> width % 2 == 0)
    ensures axis == 1 && r.Success? ==> |r.value| == |data|
  {
    if axis == 0 then
      SplitPairs(data)
    else if axis == 1 then
      var tip := seq(|data|, j requires 0 <= j < |data| => Evens(data[j]));
      var tilt := seq(|data|, j requires 0 <= j < |data| => Odds(data[j]));
      if (width + 1) / 2 != width / 2 then Failure(ShapeMismatch)
      else Success(seq(|data|, j requires 0 <= j < |data| => Slope(tip[j], tilt[j])))
    else
      Failure(NotImplemented)
  }

  /** Along axis 1 each row is split on its own: its tips, then its tilts, which interleave back to the row. */
  lemma RowsSplitIndependently<T>(data: seq<seq<T>>, width: nat, j: nat)
    requires Rectangular(data, width) && width % 2 == 0 && j < |data|
    ensures StackSlopes(data, width, 1).Success?
    ensures StackSlopes(data, width, 1).value[j] == Slope(Evens(data[j]), Odds(data[j]))
    ensures Interleave(StackSlopes(data, width, 1).value[j].tip, StackSlopes(data, width, 1).value[j].tilt) == data[j]
  {
    InterleaveSplit(data[j]);
  }

  /** Along axis 0 the result is the pairing of rows, which flattens back to the matrix. */
  lemma RowsPairUp<T>(data: seq<seq<T>>, width: nat)
    requires Rectangular(data, width) && |data| % 2 == 0
    ensures StackSlopes(data, width, 0) == SplitPairs(data)
    ensures Flatten(StackSlopes(data, width, 0).value) == data
  {
    SplitPairsRoundTrip(data);
  }

  /** The documented ordering on a small vector, and the two failures. */
  lemma SlopeExamples()
    ensures SplitPairs([1, 2, 3, 4]) == Success([Slope(1, 2), Slope(3, 4)])
    ensures SplitPairs([1, 2, 3]) == Failure(ShapeMismatch)
    ensures StackSlopes([[1, 2, 3, 4]], 4, 1) == Success([Slope([1, 3], [2, 4])])
    ensures StackSlopes([[1, 2]], 2, 2) == Failure(NotImplemented)
  {
    var v := [1, 2, 3, 4];
    assert Evens(v) == [1, 3];
    assert Odds(v) == [2, 4];
    assert Tips([Slope(1, 2), Slope(3, 4)]) == [1, 3];
    assert Tilts([Slope(1, 2), Slope(3, 4)]) == [2, 4];
    PairsFromParts(SplitPairs(v).value, [Slope(1, 2), Slope(3, 4)]);
    var m := [v];
    assert m[0] == v;
    var r := StackSlopes(m, 4, 1).value;
    assert |r| == 1 && r[0] == Slope([1, 3], [2, 4]);
    assert r == [Slope([1, 3], [2, 4])];
  }
}
