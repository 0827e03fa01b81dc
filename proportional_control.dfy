/** The proportional leveling loop (main.py): each iteration stops if a corner has sunk below the
    safety limit, stops if the block is within tolerance, and otherwise drives every corner in
    proportion to its height error, biased by the sensed tilt. State reads are inputs. */
module ProportionalControl {
  import opened Plant
  import opened Leveling

  const Tolerance: State := State(0.0005, 0.0005, 0.5)
  /** Millimetres. */
  const CornerTolerance: real := 1.0
  const MaxIters: nat := 20
  const Gain: real := 0.75
  const MinPower: real := 0.01
  /** Millimetres: a corner below this means the block has sunk too far. */
  const LowBlockLimit: real := -0.7
  const WarmupPower: real := 0.02
  /** Radians: tilts at or below this magnitude get no compensation. */
  const TiltDeadband: real := 0.001
  /** The largest corner power `calculate_corner_powers` returns. */
  const PowerCap: real := 0.9

  function Abs(x: real): real
  {
    if x < 0.0 then -x else x
  }

  /** `np.max(np.abs(z))`. */
  function MaxAbs(z: seq<real>): (m: real)
    requires |z| > 0
    ensures exists i :: 0 <= i < |z| && Abs(z[i]) == m
    ensures forall i :: 0 <= i < |z| ==> Abs(z[i]) <= m
  {
    if |z| == 1 then Abs(z[0])
    else
      var rest := MaxAbs(z[1..]);
      assert forall i :: 1 <= i < |z| ==> z[i] == z[1..][i - 1];
      if Abs(z[0]) > rest then Abs(z[0]) else rest
  }

  /** `np.min(z)`. */
  function MinOf(z: seq<real>): (m: real)
    requires |z| > 0
    ensures exists i :: 0 <= i < |z| && z[i] == m
    ensures forall i :: 0 <= i < |z| ==> m <= z[i]
  {
    if |z| == 1 then z[0]
    else
      var rest := MinOf(z[1..]);
      assert forall i :: 1 <= i < |z| ==> z[i] == z[1..][i - 1];
      if z[0] < rest then z[0] else rest
  }

  /** `check_corner_tolerance`: whether every corner is within the tolerance, and the largest deviation. */
  function CheckCornerTolerance(z: seq<real>, cornerTolerance: real): (r: (bool, real))
    requires |z| > 0
    ensures r.0 <==> forall i :: 0 <= i < |z| ==> Abs(z[i]) <= cornerTolerance
    ensures forall i :: 0 <= i < |z| ==> Abs(z[i]) <= r.1
    ensures exists i :: 0 <= i < |z| && Abs(z[i]) == r.1
  {
    var maxDeviation := MaxAbs(z);
    (maxDeviation <= cornerTolerance, maxDeviation)
  }

  // ---------------------------------------------------------------- corner powers

  function SumAbs(s: seq<real>): (r: real)
    ensures r >= 0.0
  {
    if s == [] then 0.0 else Abs(s[0]) + SumAbs(s[1..])
  }

  /** A sum of magnitudes is zero exactly when every term is zero. */
  lemma {:induction false} SumAbsZero(s: seq<real>)
    ensures SumAbs(s) == 0.0 <==> forall i :: 0 <= i < |s| ==> s[i] == 0.0
  {
    if s != [] {
      SumAbsZero(s[1..]);
      assert forall i :: 1 <= i < |s| ==> s[i] == s[1..][i - 1];
    }
  }

  /** `np.mean(np.abs(errors))`. */
  function MeanAbs(s: seq<real>): (r: real)
    requires |s| > 0
    ensures r >= 0.0
  {
    SumAbs(s) / (|s| as real)
  }

  /** `min(1.0, avg_error / 2.0)`: the damping factor near the target. */
  function DampingScale(errors: seq<real>): (s: real)
    requires |errors| > 0
    ensures 0.0 <= s <= 1.0
    ensures s == 0.0 <==> forall i :: 0 <= i < |errors| ==> errors[i] == 0.0
  {
    var avgError := MeanAbs(errors);
    SumAbsZero(errors);
    if 1.0 <= avgError / 2.0 then 1.0 else avgError / 2.0
  }

  /** `np.clip(x, lo, hi)` for one element. */
  function Clip(x: real, lo: real, hi: real): (r: real)
    ensures lo <= hi ==> lo <= r <= hi
    ensures lo <= x <= hi ==> r == x
  {
    if x < lo then lo else if x > hi then hi else x
  }

  /** Clipping keeps the order of its inputs. */
  lemma ClipMonotone(x: real, y: real, lo: real, hi: real)
    requires x <= y && lo <= hi
    ensures Clip(x, lo, hi) <= Clip(y, lo, hi)
  {
  }

  function Negated(z: seq<real>): (r: seq<real>)
    ensures |r| == |z| && forall i :: 0 <= i < |z| ==> r[i] == -z[i]
  {
    seq(|z|, i requires 0 <= i < |z| => -z[i])
  }

  /** `calculate_corner_powers`: gain times a tenth of each corner's error, damped, clipped to [0, 0.9]. */
  function CornerPowers(z: seq<real>, gain: real): (p: seq<real>)
    requires |z| > 0
    ensures |p| == |z|
    ensures forall i :: 0 <= i < |z| ==> 0.0 <= p[i] <= PowerCap
  {
    var cornerErrors := Negated(z);
    var scale := DampingScale(cornerErrors);
    seq(|z|, i requires 0 <= i < |z| => Clip(RawPower(gain, cornerErrors[i], scale), 0.0, PowerCap))
  }

  /** `gain * (np.abs(error) / 10.0)` for one corner. */
  function Proportional(gain: real, error: real): real
  {
    gain * (Abs(error) / 10.0)
  }

  /** `powers *= scale` for one corner. */
  function Damped(power: real, scale: real): real
  {
    power * scale
  }

  /** The proportional power after the damping, before the clip. */
  function RawPower(gain: real, error: real, scale: real): real
  {
    Damped(Proportional(gain, error), scale)
  }

  /** One corner's power, in terms of its height and the damping of the whole block. */
  lemma CornerPowerAt(z: seq<real>, gain: real, i: nat)
    requires i < |z|
    ensures CornerPowers(z, gain)[i] == Clip(RawPower(gain, z[i], DampingScale(Negated(z))), 0.0, PowerCap)
  {
    var errors := Negated(z);
    CornerPowersFromErrors(z, gain, errors, DampingScale(errors));
    assert Abs(errors[i]) == Abs(z[i]);
    assert Proportional(gain, errors[i]) == Proportional(gain, z[i]);
  }

  /** The law in the steps `calculate_corner_powers` takes: errors, damping, per-corner power. */
  lemma CornerPowersFromErrors(z: seq<real>, gain: real, errors: seq<real>, scale: real)
    requires |z| > 0 && errors == Negated(z) && scale == DampingScale(errors)
    ensures forall i :: 0 <= i < |z| ==> CornerPowers(z, gain)[i] == Clip(RawPower(gain, errors[i], scale), 0.0, PowerCap)
  {
  }

  /** A block whose corners are all at the target gets no power anywhere. */
  lemma LevelCornersNoPower(z: seq<real>, gain: real)
    requires |z| > 0 && forall i :: 0 <= i < |z| ==> z[i] == 0.0
    ensures forall i :: 0 <= i < |z| ==> CornerPowers(z, gain)[i] == 0.0
  {
    assert DampingScale(Negated(z)) == 0.0;
    forall i | 0 <= i < |z| ensures CornerPowers(z, gain)[i] == 0.0 {
      CornerPowerAt(z, gain, i);
    }
  }

  /** The law is proportional: a corner further from the target never gets less power. */
  lemma CornerPowersMonotone(z: seq<real>, gain: real, i: nat, j: nat)
    requires i < |z| && j < |z| && gain >= 0.0
    requires Abs(z[i]) <= Abs(z[j])
    ensures CornerPowers(z, gain)[i] <= CornerPowers(z, gain)[j]
  {
    var s := DampingScale(Negated(z));
    CornerPowerAt(z, gain, i);
    CornerPowerAt(z, gain, j);
    RawPowerMonotone(gain, s, z[i], z[j]);
    ClipMonotone(RawPower(gain, z[i], s), RawPower(gain, z[j], s), 0.0, PowerCap);
  }

  /** For a positive gain, a corner gets power exactly when it is off the target: the lower clip
      never cuts a corner's power to zero, and a level corner gets none. */
  lemma PoweredExactlyWhenOff(z: seq<real>, gain: real, i: nat)
    requires i < |z| && gain > 0.0
    ensures CornerPowers(z, gain)[i] > 0.0 <==> z[i] != 0.0
  {
    var s := DampingScale(Negated(z));
    CornerPowerAt(z, gain, i);
    if z[i] != 0.0 {
      assert Negated(z)[i] != 0.0;
      assert s > 0.0;
      var q := Proportional(gain, z[i]);
      assert Abs(z[i]) / 10.0 > 0.0;
      MulPos(gain, Abs(z[i]) / 10.0);
      MulPos(q, s);
      assert RawPower(gain, z[i], s) == q * s;
    } else {
      assert Proportional(gain, z[i]) == 0.0;
      assert RawPower(gain, z[i], s) == 0.0 * s;
    }
  }

  lemma RawPowerMonotone(gain: real, s: real, a: real, b: real)
    requires gain >= 0.0 && s >= 0.0 && Abs(a) <= Abs(b)
    ensures RawPower(gain, a, s) <= RawPower(gain, b, s)
  {
    var x, y := Abs(a) / 10.0, Abs(b) / 10.0;
    MulLeft(gain, x, y);
    var gx, gy := Proportional(gain, a), Proportional(gain, b);
    MulLeft(s, gx, gy);
    assert RawPower(gain, a, s) == s * gx && RawPower(gain, b, s) == s * gy;
  }

  /** `powers = calculate_corner_powers()`, over the simulator's heights; the damping factor
      scales the powers in place before the clip. */
  method CalculateCornerPowers(sim: BlockSimulator) returns (powers: array<real>)
    requires sim.Valid()
    ensures fresh(powers) && powers[..] == CornerPowers(sim.z[..], Gain)
  {
    var cornerErrors := Negated(sim.z[..]);
    powers := new real[NumCorners];
    forall i | 0 <= i < NumCorners {
      powers[i] := Proportional(Gain, cornerErrors[i]);
    }
    var avgError := MeanAbs(cornerErrors);
    var scale := if 1.0 <= avgError / 2.0 then 1.0 else avgError / 2.0;
    forall i | 0 <= i < NumCorners {
      powers[i] := Damped(powers[i], scale);
    }
    assert forall i :: 0 <= i < NumCorners ==> powers[i] == RawPower(Gain, cornerErrors[i], scale);
    forall i | 0 <= i < NumCorners {
      powers[i] := Clip(powers[i], 0.0, PowerCap);
    }
    assert scale == DampingScale(cornerErrors);
    CornerPowersFromErrors(sim.z[..], Gain, cornerErrors, scale);
    assert forall i :: 0 <= i < NumCorners ==> powers[..][i] == CornerPowers(sim.z[..], Gain)[i];
  }

  // ---------------------------------------------------------------- tilt compensation

  /** The multipliers the x-tilt applies: a tilt beyond the deadband speeds up one diagonal pair
      side (A and D for positive tilt, B and C for negative) by 5 % and slows the other by 5 %. */
  function XFactors(thetaX: real): (f: seq<real>)
    ensures |f| == NumCorners
  {
    if Abs(thetaX) > TiltDeadband then
      if thetaX > 0.0 then [1.05, 0.95, 0.95, 1.05] else [0.95, 1.05, 1.05, 0.95]
    else [1.0, 1.0, 1.0, 1.0]
  }

  /** The multipliers the y-tilt applies: A and B against C and D. */
  function YFactors(thetaY: real): (f: seq<real>)
    ensures |f| == NumCorners
  {
    if Abs(thetaY) > TiltDeadband then
      if thetaY > 0.0 then [1.05, 1.05, 0.95, 0.95] else [0.95, 0.95, 1.05, 1.05]
    else [1.0, 1.0, 1.0, 1.0]
  }

  /** Element-wise product, numpy's `*` on two vectors. */
  function Times(p: seq<real>, f: seq<real>): (r: seq<real>)
    requires |p| == |f|
    ensures |r| == |p|
  {
    seq(|p|, i requires 0 <= i < |p| => p[i] * f[i])
  }

  /** The powers after the tilt-compensation block. */
  function Compensated(p: seq<real>, thetaX: real, thetaY: real): (r: seq<real>)
    requires |p| == NumCorners
    ensures |r| == NumCorners
  {
    Times(Times(p, XFactors(thetaX)), YFactors(thetaY))
  }

  /** The "gentle tilt compensation" block, multiplying entries of `powers` in place. */
  method CompensateTilt(powers: array<real>, thetaX: real, thetaY: real)
    requires powers.Length == NumCorners
    modifies powers
    ensures powers[..] == Compensated(old(powers[..]), thetaX, thetaY)
  {
    CompensateX(powers, thetaX);
    CompensateY(powers, thetaY);
  }

  /** The x-tilt half of the block. */
  method CompensateX(powers: array<real>, thetaX: real)
    requires powers.Length == NumCorners
    modifies powers
    ensures powers[..] == Times(old(powers[..]), XFactors(thetaX))
  {
    ghost var before := powers[..];
    if Abs(thetaX) > TiltDeadband {
      if thetaX > 0.0 {
        powers[0] := powers[0] * 1.05; powers[3] := powers[3] * 1.05;
        powers[1] := powers[1] * 0.95; powers[2] := powers[2] * 0.95;
      } else {
        powers[0] := powers[0] * 0.95; powers[3] := powers[3] * 0.95;
        powers[1] := powers[1] * 1.05; powers[2] := powers[2] * 1.05;
      }
    }
    assert forall i :: 0 <= i < NumCorners ==> powers[..][i] == Times(before, XFactors(thetaX))[i];
  }

  /** The y-tilt half of the block. */
  method CompensateY(powers: array<real>, thetaY: real)
    requires powers.Length == NumCorners
    modifies powers
    ensures powers[..] == Times(old(powers[..]), YFactors(thetaY))
  {
    ghost var before := powers[..];
    if Abs(thetaY) > TiltDeadband {
      if thetaY > 0.0 {
        powers[0] := powers[0] * 1.05; powers[1] := powers[1] * 1.05;
        powers[2] := powers[2] * 0.95; powers[3] := powers[3] * 0.95;
      } else {
        powers[0] := powers[0] * 0.95; powers[1] := powers[1] * 0.95;
        powers[2] := powers[2] * 1.05; powers[3] := powers[3] * 1.05;
      }
    }
    assert forall i :: 0 <= i < NumCorners ==> powers[..][i] == Times(before, YFactors(thetaY))[i];
  }

  /** Tilts inside the deadband on both axes leave the powers as they were. */
  lemma SmallTiltKeepsPowers(p: seq<real>, thetaX: real, thetaY: real)
    requires |p| == NumCorners
    requires Abs(thetaX) <= TiltDeadband && Abs(thetaY) <= TiltDeadband
    ensures Compensated(p, thetaX, thetaY) == p
  {
    assert XFactors(thetaX) == [1.0, 1.0, 1.0, 1.0] && YFactors(thetaY) == [1.0, 1.0, 1.0, 1.0];
    assert forall i :: 0 <= i < NumCorners ==> Compensated(p, thetaX, thetaY)[i] == p[i] * 1.0 * 1.0;
  }

  /** Each compensated power is the original times a factor in [0.9025, 1.1025]; so the powers
      `calculate_corner_powers` returns stay within [0, 0.99225] and below full power. */
  lemma CompensationRange(p: seq<real>, thetaX: real, thetaY: real)
    requires |p| == NumCorners
    requires forall i :: 0 <= i < NumCorners ==> 0.0 <= p[i] <= PowerCap
    ensures forall i :: 0 <= i < NumCorners ==>
              0.9025 * p[i] <= Compensated(p, thetaX, thetaY)[i] <= 1.1025 * p[i]
    ensures forall i :: 0 <= i < NumCorners ==> 0.0 <= Compensated(p, thetaX, thetaY)[i] <= 0.99225 < 1.0
  {
    forall i | 0 <= i < NumCorners
      ensures 0.9025 * p[i] <= Compensated(p, thetaX, thetaY)[i] <= 1.1025 * p[i] <= 0.99225
    {
      var fx, fy := XFactors(thetaX)[i], YFactors(thetaY)[i];
      assert 0.95 <= fx <= 1.05 && 0.95 <= fy <= 1.05;
      FactorRange(p[i], fx, fy);
    }
  }

  lemma FactorRange(x: real, fx: real, fy: real)
    requires 0.0 <= x && 0.95 <= fx <= 1.05 && 0.95 <= fy <= 1.05
    ensures 0.9025 * x <= x * fx * fy <= 1.1025 * x
  {
    var xf := x * fx;
    MulLeft(x, 0.95, fx);
    MulLeft(x, fx, 1.05);
    assert 0.95 * x <= xf <= 1.05 * x;
    assert xf >= 0.0;
    MulLeft(xf, 0.95, fy);
    MulLeft(xf, fy, 1.05);
    assert xf * 0.95 <= xf * fy <= xf * 1.05;
    assert x * fx * fy == xf * fy;
  }

  // ---------------------------------------------------------------- the loop

  /** The weighted state `state / tolerance`, squared: below 1 exactly when its norm is below 1. */
  function WeightedSumSq(s: State): real
  {
    SumSq(State(s.tiltX / Tolerance.tiltX, s.tiltY / Tolerance.tiltY, s.height / Tolerance.height))
  }

  /** The exit checks in the order the loop makes them: the safety check on the lowest corner
      first, then the weighted-state and corner-tolerance convergence test. */
  function CheckIteration(z: seq<real>, s: State): Check
    requires |z| > 0
  {
    if MinOf(z) < LowBlockLimit then Unsafe
    else if WeightedSumSq(s) < 1.0 && CheckCornerTolerance(z, CornerTolerance).0 then WithinTolerance
    else NotYet
  }

  /** The verdict in terms of the corners: unsafe exactly when some corner is below the safety
      limit, and within tolerance exactly when every corner lies in [-0.7, 1] mm and the weighted
      state has norm below 1. */
  lemma CheckIterationByCorners(z: seq<real>, s: State)
    requires |z| > 0
    ensures CheckIteration(z, s) == Unsafe <==> exists i :: 0 <= i < |z| && z[i] < LowBlockLimit
    ensures CheckIteration(z, s) == WithinTolerance <==>
              (forall i :: 0 <= i < |z| ==> LowBlockLimit <= z[i] && Abs(z[i]) <= CornerTolerance) &&
              WeightedSumSq(s) < 1.0
  {
    var m := MinOf(z);
    var ok := CheckCornerTolerance(z, CornerTolerance).0;
    if m >= LowBlockLimit {
      assert forall i :: 0 <= i < |z| ==> LowBlockLimit <= z[i];
    }
  }

  /** A weighted state of norm below 1 has each of its components inside that component's own
      tolerance. */
  lemma WeightedWithinEachAxis(s: State)
    requires WeightedSumSq(s) < 1.0
    ensures Abs(s.tiltX) < Tolerance.tiltX && Abs(s.tiltY) < Tolerance.tiltY && Abs(s.height) < Tolerance.height
  {
    var u, v, w := s.tiltX / Tolerance.tiltX, s.tiltY / Tolerance.tiltY, s.height / Tolerance.height;
    SquareNonNegative(u);
    SquareNonNegative(v);
    SquareNonNegative(w);
    assert WeightedSumSq(s) == u * u + v * v + w * w;
    SquareBelowOne(u);
    SquareBelowOne(v);
    SquareBelowOne(w);
    assert s.tiltX == u * Tolerance.tiltX && s.tiltY == v * Tolerance.tiltY && s.height == w * Tolerance.height;
  }

  /** A number whose square is below 1 lies strictly between -1 and 1. */
  lemma SquareBelowOne(u: real)
    requires u * u < 1.0
    ensures -1.0 < u < 1.0
  {
    if u >= 1.0 {
      MulLeft(u, 1.0, u);
    } else if u <= -1.0 {
      MulLeft(-u, 1.0, -u);
    }
  }

  /** A block with one corner at -0.9 mm and a perfect state passes the convergence test and still
      stops as unsafe: the safety check comes first. */
  lemma SafetyBeforeConvergence()
    ensures var z := [-0.9, 0.0, 0.0, 0.0];
            var s := State(0.0, 0.0, 0.0);
            WeightedSumSq(s) < 1.0 && CheckCornerTolerance(z, CornerTolerance).0 &&
            CheckIteration(z, s) == Unsafe
  {
    var z := [-0.9, 0.0, 0.0, 0.0];
    assert MinOf(z) <= z[0];
  }

  function WarmupPowers(): seq<real>
  {
    [WarmupPower, WarmupPower, WarmupPower, WarmupPower]
  }

  /** What one iteration reads from outside: the noise of its blows and the state read last. */
  datatype Round = Round(noise: seq<real>, next: State)

  ghost predicate WellFormed(r: Round)
  {
    |r.noise| == NumCorners
  }

  /** The state the loop holds at the start of iteration i. */
  function StateAt(initial: State, rounds: seq<Round>, i: nat): State
    requires i <= |rounds|
  {
    if i == 0 then initial else rounds[i - 1].next
  }

  /** The heights after one corrective iteration with the state `s` in hand. */
  function StepHeights(z: seq<real>, s: State, noise: seq<real>, k: real): (r: seq<real>)
    requires |z| == NumCorners && |noise| == NumCorners
    ensures |r| == NumCorners
  {
    Actuated(z, Compensated(CornerPowers(z, Gain), s.tiltX, s.tiltY), MinPower, k, noise)
  }

  /** The heights after n corrective iterations, starting from the warmed-up heights z. */
  function HeightsAfter(z: seq<real>, initial: State, rounds: seq<Round>, n: nat, k: real): (r: seq<real>)
    requires |z| == NumCorners && n <= |rounds|
    requires forall j :: 0 <= j < |rounds| ==> WellFormed(rounds[j])
    ensures |r| == NumCorners
  {
    if n == 0 then z
    else StepHeights(HeightsAfter(z, initial, rounds, n - 1, k), StateAt(initial, rounds, n - 1), rounds[n - 1].noise, k)
  }

  /** The body of an iteration that passed both exit checks: powers, tilt bias, actuation above
      the minimum power. */
  method Iterate(sim: BlockSimulator, state: State, noise: seq<real>)
    requires sim.Valid() && |noise| == NumCorners
    modifies sim.z
    ensures sim.z[..] == StepHeights(old(sim.z[..]), state, noise, sim.k)
  {
    var powers := CalculateCornerPowers(sim);
    CompensateTilt(powers, state.tiltX, state.tiltY);
    ActuateAbove(sim, powers[..], MinPower, noise);
  }

  /** One more iteration whose checks let it through extends the run of NotYet checks. */
  lemma NotYetSoFar(warmed: seq<real>, initial: State, rounds: seq<Round>, n: nat, k: real)
    requires |warmed| == NumCorners && n < |rounds| && forall j :: 0 <= j < |rounds| ==> WellFormed(rounds[j])
    requires forall j :: 0 <= j < n ==>
               CheckIteration(HeightsAfter(warmed, initial, rounds, j, k), StateAt(initial, rounds, j)) == NotYet
    requires CheckIteration(HeightsAfter(warmed, initial, rounds, n, k), StateAt(initial, rounds, n)) == NotYet
    ensures forall j :: 0 <= j <= n ==>
              CheckIteration(HeightsAfter(warmed, initial, rounds, j, k), StateAt(initial, rounds, j)) == NotYet
  {
  }

  /** The script's run: the state is read, all four pistons get a warm-up blow, then the loop
      runs until a check stops it or MaxIters iterations have passed. */
  method LevelBlock(sim: BlockSimulator, initial: State, warmupNoise: seq<real>, rounds: seq<Round>)
    returns (outcome: Outcome, state: State, iters: nat)
    requires sim.Valid() && |warmupNoise| == NumCorners
    requires |rounds| >= MaxIters && forall j :: 0 <= j < |rounds| ==> WellFormed(rounds[j])
    modifies sim.z
    ensures iters <= MaxIters && state == StateAt(initial, rounds, iters)
    ensures var warmed := Actuated(old(sim.z[..]), WarmupPowers(), 0.0, sim.k, warmupNoise);
            sim.z[..] == HeightsAfter(warmed, initial, rounds, iters, sim.k) &&
            forall j :: 0 <= j < iters ==>
              CheckIteration(HeightsAfter(warmed, initial, rounds, j, sim.k), StateAt(initial, rounds, j)) == NotYet
    ensures outcome == TooLow <==> iters < MaxIters && CheckIteration(sim.z[..], state) == Unsafe
    ensures outcome == Converged <==> iters < MaxIters && CheckIteration(sim.z[..], state) == WithinTolerance
    ensures outcome == MaxIterations <==> iters == MaxIters
  {
    state := initial;
    ActuateEach(sim, WarmupPowers(), warmupNoise);
    ghost var warmed := sim.z[..];
    iters := 0;
    outcome := MaxIterations;
    while iters < MaxIters
      invariant iters <= MaxIters && state == StateAt(initial, rounds, iters)
      invariant sim.z[..] == HeightsAfter(warmed, initial, rounds, iters, sim.k)
      invariant forall j :: 0 <= j < iters ==>
                  CheckIteration(HeightsAfter(warmed, initial, rounds, j, sim.k), StateAt(initial, rounds, j)) == NotYet
      invariant outcome == MaxIterations
    {
      var check := CheckIteration(sim.z[..], state);
      if check == Unsafe {
        outcome := TooLow;
        return;
      } else if check == WithinTolerance {
        outcome := Converged;
        return;
      }
      Iterate(sim, state, rounds[iters].noise);
      assert sim.z[..] == HeightsAfter(warmed, initial, rounds, iters + 1, sim.k);
      NotYetSoFar(warmed, initial, rounds, iters, sim.k);
      state := rounds[iters].next;
      iters := iters + 1;
    }
  }
}
