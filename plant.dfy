/** The block simulator (simulator.py): a trapezoidal block on four pistons A, B, C, D whose
    corner heights drop when a piston is actuated. Randomness is passed in. */
module Plant {

  const MmPerInch: real := 25.4
  /** Lowering per unit power, in millimetres. */
  const Stiffness: real := 5.0
  /** Relative spread of one actuation (20 %). */
  const NoiseScale: real := 0.2
  const NumCorners: int := 4

  /** A point of the block's footprint, in millimetres, centred on the block. */
  datatype Point = Point(x: real, y: real)

  /** What `actuate_piston` does with a corner index: finish, or fail as numpy's indexing does. */
  datatype Status = Done | IndexError

  /** Corner positions: A-B is the short bottom edge at y = -widthHalf, D-C the long top edge at
      y = +widthHalf, both centred on x = 0. Index 0..3 is corner A..D. */
  function CornerLayout(lengthShort: real, lengthLong: real, widthHalf: real): (c: seq<Point>)
    ensures |c| == NumCorners
    ensures c[0].y == -widthHalf && c[1].y == -widthHalf
    ensures c[2].y == widthHalf && c[3].y == widthHalf
    ensures c[0].x == -c[1].x && c[3].x == -c[2].x
    ensures c[1].x - c[0].x == lengthShort && c[2].x - c[3].x == lengthLong
  {
    [ Point(-lengthShort / 2.0, -widthHalf), Point(lengthShort / 2.0, -widthHalf),
      Point(lengthLong / 2.0, widthHalf), Point(-lengthLong / 2.0, widthHalf) ]
  }

  /** `delta_z` of one actuation: the height change of the actuated corner. */
  function Drop(power: real, k: real, noise: real): real
  {
    -power * k * (1.0 + noise)
  }

  /** With noise within the simulator's spread, a positive power lowers the corner by between
      0.8 and 1.2 times k * power, so the corner strictly drops. */
  lemma DropBounds(power: real, k: real, noise: real)
    requires power > 0.0 && k > 0.0
    requires -NoiseScale <= noise <= NoiseScale
    ensures -1.2 * k * power <= Drop(power, k, noise) <= -0.8 * k * power < 0.0
  {
    var pk := power * k;
    assert pk > 0.0;
    assert Drop(power, k, noise) == -(pk * (1.0 + noise));
    assert pk * (1.0 + noise) <= pk * 1.2 by { MulLeft(pk, 1.0 + noise, 1.2); }
    assert pk * 0.8 <= pk * (1.0 + noise) by { MulLeft(pk, 0.8, 1.0 + noise); }
  }

  lemma MulLeft(c: real, a: real, b: real)
    requires c >= 0.0 && a <= b
    ensures c * a <= c * b
  {
  }

  lemma MulPos(a: real, b: real)
    requires a > 0.0 && b > 0.0
    ensures a * b > 0.0
  {
  }

  /** A square is never negative. */
  lemma SquareNonNegative(u: real)
    ensures u * u >= 0.0
  {
    if u < 0.0 {
      MulPos(-u, -u);
    }
  }

  /** numpy's reading of an index in -4..3: negative indices count from the end. */
  function Slot(cornerId: int): (i: nat)
    requires -NumCorners <= cornerId < NumCorners
    ensures i < NumCorners
    ensures cornerId >= 0 ==> i == cornerId
  {
    if cornerId < 0 then cornerId + NumCorners else cornerId
  }

  /** The heights after every corner i whose power exceeds `threshold` has been actuated once
      with its own noise: the effect of a controller's "actuate the pistons above a threshold"
      pass. A corner whose power is not positive is left alone even when it passes the threshold,
      because `actuate_piston` ignores it. */
  function Actuated(z: seq<real>, powers: seq<real>, threshold: real, k: real, noises: seq<real>): (r: seq<real>)
    requires |powers| == |z| == |noises|
    ensures |r| == |z|
  {
    seq(|z|, i requires 0 <= i < |z| =>
      if powers[i] > threshold && powers[i] > 0.0 then z[i] + Drop(powers[i], k, noises[i]) else z[i])
  }

  /** An actuation pass changes exactly the corners whose power passes the threshold, and each of
      those drops by between 0.8 and 1.2 times k * power. */
  lemma ActuatedMovesOnlySelected(z: seq<real>, powers: seq<real>, threshold: real, k: real, noises: seq<real>)
    requires |powers| == |z| == |noises|
    requires k > 0.0 && threshold >= 0.0
    requires forall i :: 0 <= i < |noises| ==> -NoiseScale <= noises[i] <= NoiseScale
    ensures forall i :: 0 <= i < |z| && powers[i] <= threshold ==> Actuated(z, powers, threshold, k, noises)[i] == z[i]
    ensures forall i :: 0 <= i < |z| && powers[i] > threshold ==>
              z[i] - 1.2 * k * powers[i] <= Actuated(z, powers, threshold, k, noises)[i] <= z[i] - 0.8 * k * powers[i] < z[i]
  {
    forall i | 0 <= i < |z| && powers[i] > threshold
      ensures z[i] - 1.2 * k * powers[i] <= Actuated(z, powers, threshold, k, noises)[i] <= z[i] - 0.8 * k * powers[i] < z[i]
    {
      DropBounds(powers[i], k, noises[i]);
    }
  }

  class BlockSimulator {
    /** Block dimensions in millimetres. */
    const width: real
    const lengthShort: real
    const lengthLong: real
    const lengthAvg: real
    const widthHalf: real
    /** corners[i] is the footprint position of corner i (A..D). */
    const corners: seq<Point>
    /** z[i] is the height of corner i in millimetres; actuation updates it in place. */
    const z: array<real>
    const k: real
    const noiseScale: real

    ghost predicate Valid()
      reads this
    {
      z.Length == NumCorners && |corners| == NumCorners && k == Stiffness && noiseScale == NoiseScale
    }

    /** `__init__`: dimensions arrive in inches and are stored in millimetres; the initial heights
        are the four draws of `uniform(-1, 30)`, passed in. */
    constructor (widthInches: real, lengthShortInches: real, lengthLongInches: real, initialZ: seq<real>)
      requires |initialZ| == NumCorners
      requires forall i :: 0 <= i < NumCorners ==> -1.0 <= initialZ[i] < 30.0
      ensures Valid() && fresh(z)
      ensures width == widthInches * MmPerInch
      ensures lengthShort == lengthShortInches * MmPerInch
      ensures lengthLong == lengthLongInches * MmPerInch
      ensures lengthAvg == (lengthShort + lengthLong) / 2.0
      ensures widthHalf == width / 2.0
      ensures corners == CornerLayout(lengthShort, lengthLong, widthHalf)
      ensures z[..] == initialZ
    {
      width := widthInches * MmPerInch;
      lengthShort := lengthShortInches * MmPerInch;
      lengthLong := lengthLongInches * MmPerInch;
      lengthAvg := (lengthShortInches * MmPerInch + lengthLongInches * MmPerInch) / 2.0;
      widthHalf := widthInches * MmPerInch / 2.0;
      corners := CornerLayout(lengthShortInches * MmPerInch, lengthLongInches * MmPerInch, widthInches * MmPerInch / 2.0);
      z := new real[NumCorners](i requires 0 <= i < NumCorners => initialZ[i]);
      k := Stiffness;
      noiseScale := NoiseScale;
    }

    /** `actuate_piston`: a non-positive power does nothing; otherwise the corner drops by
        `Drop(power, k, noise)`, where `noise` is the draw of `uniform(-0.2, 0.2)`. An index outside
        -4..3 fails before anything changes. */
    method ActuatePiston(cornerId: int, power: real, noise: real) returns (status: Status)
      requires Valid()
      modifies z
      ensures power <= 0.0 ==> status == Done && z[..] == old(z[..])
      ensures power > 0.0 && !(-NumCorners <= cornerId < NumCorners) ==>
                status == IndexError && z[..] == old(z[..])
      ensures power > 0.0 && -NumCorners <= cornerId < NumCorners ==>
                status == Done &&
                z[..] == old(z[..])[Slot(cornerId) := old(z[Slot(cornerId)]) + Drop(power, k, noise)]
    {
      if power <= 0.0 {
        return Done;
      }
      var deltaZ := -power * k * (1.0 + noise);
      if !(-NumCorners <= cornerId < NumCorners) {
        return IndexError;
      }
      var i := Slot(cornerId);
      z[i] := z[i] + deltaZ;
      status := Done;
    }
  }

  /** The fallback of `get_level` when the plane fit fails: (theta_x, theta_y) from average edge
      slopes, theta_y along the two length edges and theta_x across the width. */
  function FallbackTilt(z: seq<real>, width: real, lengthShort: real, lengthLong: real): (real, real)
    requires |z| == NumCorners
    requires width != 0.0 && lengthShort != 0.0 && lengthLong != 0.0
  {
    var thetaY := ((z[1] - z[0]) / lengthShort + (z[2] - z[3]) / lengthLong) / 2.0;
    var thetaX := (z[3] - z[0] + z[2] - z[1]) / (2.0 * width);
    (thetaX, thetaY)
  }

  /** Four equal corner heights give zero tilt. */
  lemma FallbackFlat(z: seq<real>, width: real, lengthShort: real, lengthLong: real)
    requires |z| == NumCorners && z[0] == z[1] == z[2] == z[3]
    requires width != 0.0 && lengthShort != 0.0 && lengthLong != 0.0
    ensures FallbackTilt(z, width, lengthShort, lengthLong) == (0.0, 0.0)
  {
  }

  /** Corner heights of a block lying exactly on the plane height = a*x + b*y + c. */
  function PlaneHeights(corners: seq<Point>, a: real, b: real, c: real): (z: seq<real>)
    ensures |z| == |corners|
  {
    seq(|corners|, i requires 0 <= i < |corners| => a * corners[i].x + b * corners[i].y + c)
  }

  /** When the corners lie exactly on the plane height = a*x + b*y + c over the simulator's own
      corner layout, the fallback as written recovers the slopes with theta_x = +b and theta_y = a. */
  lemma FallbackRecoversPlane(width: real, lengthShort: real, lengthLong: real, a: real, b: real, c: real)
    requires width > 0.0 && lengthShort > 0.0 && lengthLong > 0.0
    ensures FallbackTilt(PlaneHeights(CornerLayout(lengthShort, lengthLong, width / 2.0), a, b, c),
                         width, lengthShort, lengthLong) == (b, a)
  {
    var p := CornerLayout(lengthShort, lengthLong, width / 2.0);
    var z := PlaneHeights(p, a, b, c);
    assert z[1] - z[0] == a * lengthShort;
    assert z[2] - z[3] == a * lengthLong;
    assert z[3] - z[0] + z[2] - z[1] == 2.0 * width * b;
    assert (a * lengthShort) / lengthShort == a;
    assert (a * lengthLong) / lengthLong == a;
    assert (2.0 * width * b) / (2.0 * width) == b;
  }

  /** The plane fit reports theta_x = arctan(-b), which has the sign of -b. On the plane
      height = y (b = 1) over the simulator's 12 x 14 x 16 inch block the fallback as written
      reports theta_x = +1, whose sign is opposite to that of -b. */
  lemma FallbackSignDisagrees()
    ensures var b := 1.0;
            var p := CornerLayout(14.0 * MmPerInch, 16.0 * MmPerInch, 12.0 * MmPerInch / 2.0);
            var t := FallbackTilt(PlaneHeights(p, 0.0, b, 0.0), 12.0 * MmPerInch, 14.0 * MmPerInch, 16.0 * MmPerInch);
            t.0 == b && t.0 * -b < 0.0
  {
    FallbackRecoversPlane(12.0 * MmPerInch, 14.0 * MmPerInch, 16.0 * MmPerInch, 0.0, 1.0, 0.0);
  }

  /** The fallback with theta_x taken with the fit's sign convention. */
  function AlignedFallbackTilt(z: seq<real>, width: real, lengthShort: real, lengthLong: real): (real, real)
    requires |z| == NumCorners
    requires width != 0.0 && lengthShort != 0.0 && lengthLong != 0.0
  {
    var t := FallbackTilt(z, width, lengthShort, lengthLong);
    (-t.0, t.1)
  }

  /** On a plane block the aligned fallback reports (-b, a): the small-angle values of the fit's
      (arctan(-b), arctan(a)), so both paths agree in sign on every plane. */
  lemma AlignedFallbackRecoversPlane(width: real, lengthShort: real, lengthLong: real, a: real, b: real, c: real)
    requires width > 0.0 && lengthShort > 0.0 && lengthLong > 0.0
    ensures AlignedFallbackTilt(PlaneHeights(CornerLayout(lengthShort, lengthLong, width / 2.0), a, b, c),
                                width, lengthShort, lengthLong) == (-b, a)
  {
    FallbackRecoversPlane(width, lengthShort, lengthLong, a, b, c);
  }
}
