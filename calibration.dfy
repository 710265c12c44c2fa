/** The calibration rules of an IIO sensor: reading a list of available values
    (`readFloatList`), picking the available rate nearest to the requested one (`nearest`),
    picking the middle available scale, and resolving a per-axis scale from the axis files
    and the device-global scale file (the scale fallback of `openIIODevice`). */
module Calibration {
  import opened Wrappers
  import opened Geometry

  datatype ListError =
    | ListUnreadable   // the `*_available` file cannot be read
    | NoFloats         // no field of the file parses as a float

  /** The values of the fields that parse, in field order. */
  function Parsed(fields: seq<Option<real>>): (r: seq<real>)
    ensures |r| <= |fields|
    decreases |fields|
  {
    if fields == [] then []
    else
      var last := fields[|fields| - 1];
      Parsed(fields[..|fields| - 1]) + (if last.Some? then [last.value] else [])
  }

  /** A value is parsed exactly when some field parses to it, and nothing is parsed exactly
      when no field parses. */
  lemma {:induction false} ParsedSpec(fields: seq<Option<real>>)
    ensures forall x :: x in Parsed(fields) <==> Some(x) in fields
    ensures Parsed(fields) == [] <==> forall i :: 0 <= i < |fields| ==> fields[i].None?
    decreases |fields|
  {
    if fields != [] {
      var init := fields[..|fields| - 1];
      ParsedSpec(init);
      assert fields == init + [fields[|fields| - 1]];
    }
  }

  /** Parsing a file split in two parts is parsing each part, in order: the parsed values
      keep the file's order and its repeats. */
  lemma {:induction false} ParsedAppend(a: seq<Option<real>>, b: seq<Option<real>>)
    ensures Parsed(a + b) == Parsed(a) + Parsed(b)
    decreases |b|
  {
    if b == [] {
      assert a + b == a;
    } else {
      var init := b[..|b| - 1];
      ParsedAppend(a, init);
      assert (a + b)[..|a + b| - 1] == a + init;
      assert (a + b)[|a + b| - 1] == b[|b| - 1];
    }
  }

  /** One field parses to its value, or to nothing. */
  lemma ParsedSingle(f: Option<real>)
    ensures Parsed([f]) == if f.Some? then [f.value] else []
  {
    assert [f][..0] == [];
  }

  /** What `readFloatList` returns for a list file given field by field (`None` when the
      file cannot be read). */
  function FloatList(file: Option<seq<Option<real>>>): (r: Result<seq<real>, ListError>)
    ensures r.Err? <==> file.None? || forall i :: 0 <= i < |file.value| ==> file.value[i].None?
    ensures r.Err? ==> r.error == if file.None? then ListUnreadable else NoFloats
    ensures r.Ok? ==> |r.value| > 0 && forall x :: x in r.value <==> Some(x) in file.value
    ensures r.Ok? ==> r.value == Parsed(file.value)
  {
    match file
    case None => Err(ListUnreadable)
    case Some(fields) =>
      ParsedSpec(fields);
      var out := Parsed(fields);
      if |out| == 0 then Err(NoFloats) else Ok(out)
  }

  /** `readFloatList`: skips the fields that do not parse and fails when none does, so a
      successful result is never empty. */
  method ReadFloatList(file: Option<seq<Option<real>>>) returns (r: Result<seq<real>, ListError>)
    ensures r == FloatList(file)
  {
    if file.None? {
      return Err(ListUnreadable);
    }
    var fields := file.value;
    var out: seq<real> := [];
    for i := 0 to |fields|
      invariant out == Parsed(fields[..i])
    {
      assert fields[..i + 1][..i] == fields[..i];
      var f := fields[i];
      if f.None? {
        continue;
      }
      out := out + [f.value];
    }
    assert fields[..|fields|] == fields;
    if |out| == 0 {
      return Err(NoFloats);
    }
    return Ok(out);
  }

  /** `math.Abs(a - target)`. */
  function Dist(a: real, target: real): real {
    if a >= target then a - target else target - a
  }

  /** The index `nearest` ends on: an element at least as close to `target` as any other,
      and the first such element, since only a strictly closer one replaces the best so far. */
  function NearestIndex(avail: seq<real>, target: real): (k: nat)
    requires |avail| > 0
    ensures k < |avail|
    ensures forall j :: 0 <= j < |avail| ==> Dist(avail[k], target) <= Dist(avail[j], target)
    ensures forall j :: 0 <= j < k ==> Dist(avail[j], target) > Dist(avail[k], target)
    decreases |avail|
  {
    if |avail| == 1 then 0
    else
      var k := NearestIndex(avail[..|avail| - 1], target);
      assert avail[..|avail| - 1][k] == avail[k];
      if Dist(avail[|avail| - 1], target) < Dist(avail[k], target) then |avail| - 1 else k
  }

  /** What `nearest` returns: the target itself when nothing is available. */
  function NearestValue(avail: seq<real>, target: real): real {
    if avail == [] then target else avail[NearestIndex(avail, target)]
  }

  /** `nearest`: a scan keeping the closest value seen so far and its distance. */
  method Nearest(avail: seq<real>, target: real) returns (best: real)
    ensures best == NearestValue(avail, target)
  {
    if |avail| == 0 {
      return target;
    }
    best := avail[0];
    var minDiff := Dist(avail[0], target);
    assert avail[..1] == [avail[0]];
    for i := 1 to |avail|
      invariant best == avail[NearestIndex(avail[..i], target)]
      invariant minDiff == Dist(best, target)
    {
      var prefix := avail[..i + 1];
      assert prefix[..i] == avail[..i];
      assert prefix[i] == avail[i];
      assert avail[..i][NearestIndex(avail[..i], target)] == avail[NearestIndex(avail[..i], target)];
      var d := Dist(avail[i], target);
      if d < minDiff {
        minDiff := d;
        best := avail[i];
      }
    }
    assert avail[..|avail|] == avail;
  }

  /** The scale `configureDevice` picks from a non-empty available list: the element in the
      middle position of the list as the file gives it (for an even length, the upper of the
      two middle positions). */
  function MedianPick(avail: seq<real>): (r: real)
    requires |avail| > 0
    ensures r in avail
    ensures exists m :: 0 <= m < |avail| && r == avail[m]
                        && (|avail[..m]| == |avail[m + 1..]| || |avail[..m]| == |avail[m + 1..]| + 1)
  {
    avail[|avail| / 2]
  }

  /** The scale of each axis before the global fallback: a missing X-axis file gives 0, a
      missing Y or Z file copies X, and a file that is present keeps its value, 0 included. */
  function PerAxisScale(sx: Option<real>, sy: Option<real>, sz: Option<real>): Vec3 {
    var x := sx.GetOr(0.0);
    Vec3(x, if sy.Some? then sy.value else x, if sz.Some? then sz.value else x)
  }

  /** The scale `openIIODevice` resolves for one sensor: the per-axis scale, replaced on all
      three axes by the global scale only when all three are 0 and the global file reads. */
  function ResolveScale(sx: Option<real>, sy: Option<real>, sz: Option<real>, global: Option<real>): Vec3 {
    var axes := PerAxisScale(sx, sy, sz);
    if axes == Zero && global.Some? then Uniform(global.value) else axes
  }

  /** The global scale takes effect only for an all-zero per-axis scale, and then on every
      axis; otherwise the per-axis scale stands. */
  lemma GlobalScaleOnlyWhenAllZero(sx: Option<real>, sy: Option<real>, sz: Option<real>, global: Option<real>)
    ensures var r := ResolveScale(sx, sy, sz, global);
      r != PerAxisScale(sx, sy, sz) ==> PerAxisScale(sx, sy, sz) == Zero && global.Some? && r == Uniform(global.value)
    ensures PerAxisScale(sx, sy, sz) != Zero ==> ResolveScale(sx, sy, sz, global) == PerAxisScale(sx, sy, sz)
  {
  }

  /** A resolved scale is the zero vector (uncalibrated) exactly when every per-axis value is
      0 and the global file is missing or also reads 0. */
  lemma UncalibratedIff(sx: Option<real>, sy: Option<real>, sz: Option<real>, global: Option<real>)
    ensures ResolveScale(sx, sy, sz, global) == Zero
      <==> sx.GetOr(0.0) == 0.0 && sy.GetOr(0.0) == 0.0 && sz.GetOr(0.0) == 0.0
           && (global.None? || global.value == 0.0)
  {
  }

  /** Missing Y and Z files copy a non-zero X scale; the global scale is then ignored. */
  lemma MissingAxesCopyX(x: real, global: Option<real>)
    requires x != 0.0
    ensures ResolveScale(Some(x), None, None, global) == Uniform(x)
  {
  }

  /** Axis files reading 2, 0 and 0 with a global scale of 5 resolve to (2, 0, 0): a present
      0 is kept, and the global scale is not used since X is not 0. */
  lemma PresentZeroIsKept()
    ensures ResolveScale(Some(2.0), Some(0.0), Some(0.0), Some(5.0)) == Vec3(2.0, 0.0, 0.0)
  {
  }

  /** The scale `configureDevice` writes for one sensor, if any: only when auto-configuration
      is on, the sensor is present, its scale is the zero vector and the available list reads;
      the value is the middle entry of that list. */
  function ScalePick(setScales: bool, have: bool, scale: Vec3, available: Option<seq<Option<real>>>): (r: Option<real>)
    ensures r.Some? <==> setScales && have && scale == Zero && FloatList(available).Ok?
    ensures r.Some? ==> Some(r.value) in available.value
    ensures r.Some? ==> r.value == MedianPick(Parsed(available.value))
  {
    if setScales && have && scale == Zero then
      match FloatList(available)
      case Ok(avail) => Some(MedianPick(avail))
      case Err(_) => None
    else None
  }

  /** The sampling frequency `configureDevice` writes for one sensor, if any: only when rate
      setting is on, the sensor is present and the available list reads; the value is an
      available rate nearest to the requested output rate. */
  function RatePick(setRate: bool, have: bool, available: Option<seq<Option<real>>>, rate: int): (r: Option<real>)
    ensures r.Some? <==> setRate && have && FloatList(available).Ok?
    ensures r.Some? ==> Some(r.value) in available.value
    ensures r.Some? ==> forall x :: Some(x) in available.value ==> Dist(r.value, rate as real) <= Dist(x, rate as real)
    ensures r.Some? ==> r.value == NearestValue(Parsed(available.value), rate as real)
  {
    if setRate && have then
      match FloatList(available)
      case Ok(avail) =>
        var k := NearestIndex(avail, rate as real);
        assert avail[k] in avail;
        forall x | Some(x) in available.value ensures Dist(avail[k], rate as real) <= Dist(x, rate as real) {
          assert x in avail;
          var j :| 0 <= j < |avail| && avail[j] == x;
        }
        Some(NearestValue(avail, rate as real))
      case Err(_) => None
    else None
  }

  /** The scale after the write of `pick` succeeded (`written`) or failed: a successful write
      sets all three axes to the picked value, anything else leaves the scale as it was. */
  function ScaleAfter(scale: Vec3, pick: Option<real>, written: bool): Vec3 {
    if pick.Some? && written then Uniform(pick.value) else scale
  }

  /** Auto-configuration never touches a calibrated (non-zero) scale, and a scale it sets
      comes from the available list. */
  lemma AutoScaleKeepsCalibrated(setScales: bool, have: bool, scale: Vec3,
                                 available: Option<seq<Option<real>>>, written: bool)
    ensures scale != Zero ==> ScaleAfter(scale, ScalePick(setScales, have, scale, available), written) == scale
    ensures var r := ScaleAfter(scale, ScalePick(setScales, have, scale, available), written);
      r != scale ==> setScales && have && written && exists x :: Some(x) in available.value && r == Uniform(x)
  {
  }

  /** Auto-configuring a second time changes nothing once a non-zero scale was set. */
  lemma AutoScaleIdempotent(setScales: bool, have: bool, scale: Vec3,
                            available: Option<seq<Option<real>>>, written: bool, writtenAgain: bool)
    requires ScaleAfter(scale, ScalePick(setScales, have, scale, available), written) != Zero
    ensures var once := ScaleAfter(scale, ScalePick(setScales, have, scale, available), written);
      ScaleAfter(once, ScalePick(setScales, have, once, available), writtenAgain) == once
  {
  }

  /** The available list 0.001, 0.01, 0.1 gives the middle value 0.01. */
  lemma MedianPickExample()
    ensures MedianPick([0.001, 0.01, 0.1]) == 0.01
  {
  }

  /** A repeated entry counts twice: of the scales 0.1, 0.1 and 0.2 the middle one is 0.1,
      and an unparsable field in between changes nothing. */
  lemma ScalePickKeepsRepeats()
    ensures ScalePick(true, true, Zero, Some([Some(0.1), None, Some(0.1), Some(0.2)])) == Some(0.1)
  {
    var fields := [Some(0.1), None, Some(0.1), Some(0.2)];
    ParsedAppend(fields[..3], [Some(0.2)]);
    ParsedAppend(fields[..2], [Some(0.1)]);
    ParsedAppend(fields[..1], [None]);
    ParsedSingle(Some(0.1));
    ParsedSingle(None);
    ParsedSingle(Some(0.2));
    assert fields[..3] == fields[..2] + [Some(0.1)];
    assert fields[..2] == fields[..1] + [None];
    assert fields == fields[..3] + [Some(0.2)];
    assert Parsed(fields) == [0.1, 0.1, 0.2];
  }

  /** Of the rates 100, 200 and 500 Hz, 200 is nearest to a requested 250 Hz. */
  lemma NearestRateExample()
    ensures NearestValue([100.0, 200.0, 500.0], 250.0) == 200.0
  {
    var avail := [100.0, 200.0, 500.0];
    var k := NearestIndex(avail, 250.0);
    assert Dist(avail[1], 250.0) == 50.0;
    assert Dist(avail[0], 250.0) == 150.0;
    assert Dist(avail[2], 250.0) == 250.0;
    assert k == 1;
  }
}
