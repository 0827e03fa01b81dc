/** The response-matrix leveling loop (main2.py): each iteration checks the exits, measures how
    each piston moves the state with a test blow, takes the pseudoinverse's corrective powers,
    projects them onto feasible powers and applies them. The pseudoinverse solve and every state
    read are inputs of the model. */
module ResponseControl {
  import opened Plant
  import opened Leveling

  const Tolerance: State := State(0.001, 0.001, 0.1)
  const MaxIters: nat := 50
  const TestPower: real := 0.1
  const Gain: real := 0.5

  /** The exit checks in the order the loop makes them: too low first, then level enough. */
  function CheckState(state: State, tol: State): Check
  {
    if state.height < -tol.height then Unsafe
    else if SumSq(state) < SumSq(tol) then WithinTolerance
    else NotYet
  }

  /** A block that has sunk below the height tolerance is reported too low even when its whole
      state is inside the tolerance norm: the order of the two checks decides the outcome. */
  lemma TooLowWinsOverLevel()
    ensures var s := State(0.0, 0.0, -0.100005);
            s.height < -Tolerance.height && SumSq(s) < SumSq(Tolerance) && CheckState(s, Tolerance) == Unsafe
  {
  }

  /** A state the loop reports level and flush is not too low, and each of its components is
      smaller in square than the whole tolerance vector's squared norm. */
  lemma LevelStateBounds(s: State)
    requires CheckState(s, Tolerance) == WithinTolerance
    ensures s.height >= -Tolerance.height
    ensures s.tiltX * s.tiltX < SumSq(Tolerance)
    ensures s.tiltY * s.tiltY < SumSq(Tolerance)
    ensures s.height * s.height < SumSq(Tolerance)
  {
    SquareNonNegative(s.tiltX);
    SquareNonNegative(s.tiltY);
    SquareNonNegative(s.height);
  }

  // ---------------------------------------------------------------- feasibility projection

  /** `np.max`. */
  function MaxOf(s: seq<real>): (m: real)
    requires |s| > 0
    ensures exists i :: 0 <= i < |s| && s[i] == m
    ensures forall i :: 0 <= i < |s| ==> s[i] <= m
  {
    if |s| == 1 then s[0]
    else
      var rest := MaxOf(s[1..]);
      assert forall i :: 1 <= i < |s| ==> s[i] == s[1..][i - 1];
      if s[0] > rest then s[0] else rest
  }

  /** `np.maximum(powers, 0)`. */
  function Clamp(p: seq<real>): (c: seq<real>)
    ensures |c| == |p|
    ensures forall i :: 0 <= i < |p| ==> c[i] >= 0.0 && (p[i] >= 0.0 ==> c[i] == p[i]) && (p[i] < 0.0 ==> c[i] == 0.0)
  {
    seq(|p|, i requires 0 <= i < |p| => if p[i] > 0.0 then p[i] else 0.0)
  }

  /** Clamp to non-negative powers, then, if any is positive, rescale so the largest is `gain`. */
  function Project(p: seq<real>, gain: real): (r: seq<real>)
    requires |p| > 0
    ensures |r| == |p|
  {
    var c := Clamp(p);
    var m := MaxOf(c);
    if m > 0.0 then Rescale(c, gain, m) else c
  }

  /** `gain * powers / np.max(powers)`. */
  function Rescale(c: seq<real>, gain: real, m: real): (r: seq<real>)
    requires m > 0.0
    ensures |r| == |c|
  {
    seq(|c|, i requires 0 <= i < |c| => Scaled(gain, c[i], m))
  }

  function Scaled(gain: real, x: real, m: real): real
    requires m > 0.0
  {
    gain * x / m
  }

  /** Every projected power lies in [0, gain]; when some solved power is positive the largest
      projected power is exactly `gain`. */
  lemma ProjectBounds(p: seq<real>, gain: real)
    requires |p| > 0 && gain > 0.0
    ensures forall i :: 0 <= i < |p| ==> 0.0 <= Project(p, gain)[i] <= gain
    ensures (exists i :: 0 <= i < |p| && p[i] > 0.0) ==> MaxOf(Project(p, gain)) == gain
  {
    var c := Clamp(p);
    var m := MaxOf(c);
    var r := Project(p, gain);
    if m > 0.0 {
      forall i | 0 <= i < |p| ensures 0.0 <= r[i] <= gain {
        ProjectAt(p, gain, i);
        ScaledBelow(gain, c[i], m);
      }
      var j :| 0 <= j < |c| && c[j] == m;
      ProjectAt(p, gain, j);
      ScaledBelow(gain, m, m);
      MaxIsBound(r, j);
    } else {
      forall i | 0 <= i < |p| ensures r[i] == 0.0 && p[i] <= 0.0 {
        ProjectAt(p, gain, i);
      }
    }
  }

  /** One projected power, in terms of the clamped powers and their maximum. */
  lemma ProjectAt(p: seq<real>, gain: real, i: nat)
    requires i < |p|
    ensures var c := Clamp(p);
            0.0 <= c[i] <= MaxOf(c) &&
            Project(p, gain)[i] == if MaxOf(c) > 0.0 then Scaled(gain, c[i], MaxOf(c)) else c[i]
  {
    var c := Clamp(p);
    var m := MaxOf(c);
    if m > 0.0 {
      assert Project(p, gain) == Rescale(c, gain, m);
      RescaleAt(c, gain, m, i);
    } else {
      assert Project(p, gain) == c;
    }
  }

  lemma RescaleAt(c: seq<real>, gain: real, m: real, i: nat)
    requires m > 0.0 && i < |c|
    ensures Rescale(c, gain, m)[i] == Scaled(gain, c[i], m)
  {
  }

  /** An element that bounds every other element is the maximum. */
  lemma MaxIsBound(s: seq<real>, j: nat)
    requires j < |s| && forall i :: 0 <= i < |s| ==> s[i] <= s[j]
    ensures MaxOf(s) == s[j]
  {
  }

  /** gain * c / m for 0 <= c <= m: a multiple of gain / m, between 0 and gain, and gain at c = m. */
  lemma ScaledBelow(gain: real, c: real, m: real)
    requires gain > 0.0 && m > 0.0 && 0.0 <= c <= m
    ensures gain / m > 0.0
    ensures Scaled(gain, c, m) == (gain / m) * c
    ensures 0.0 <= Scaled(gain, c, m) <= gain
    ensures c > 0.0 ==> Scaled(gain, c, m) > 0.0
    ensures c == m ==> Scaled(gain, c, m) == gain
  {
    var f := gain / m;
    assert f > 0.0;
    assert f * m == gain;
    assert gain * c / m == f * c;
    assert f * c <= f * m;
  }

  /** When no solved power is positive, every projected power is zero. */
  lemma ProjectNothingPositive(p: seq<real>, gain: real)
    requires |p| > 0
    requires forall i :: 0 <= i < |p| ==> p[i] <= 0.0
    ensures forall i :: 0 <= i < |p| ==> Project(p, gain)[i] == 0.0
  {
    var c := Clamp(p);
    assert forall i :: 0 <= i < |p| ==> c[i] == 0.0;
    assert MaxOf(c) == 0.0;
  }

  /** The factor the rescaling multiplies every clamped power by. */
  function ProjectFactor(p: seq<real>, gain: real): real
    requires |p| > 0
  {
    var m := MaxOf(Clamp(p));
    if m > 0.0 then gain / m else 1.0
  }

  /** Rescaling keeps the proportions between corners: every projected power is the clamped power
      times one common positive factor, so a corner is driven exactly when its solved power was
      positive. */
  lemma ProjectKeepsRatios(p: seq<real>, gain: real)
    requires |p| > 0 && gain > 0.0
    ensures ProjectFactor(p, gain) > 0.0
    ensures forall i :: 0 <= i < |p| ==> Project(p, gain)[i] == ProjectFactor(p, gain) * Clamp(p)[i]
    ensures forall i :: 0 <= i < |p| ==> (Project(p, gain)[i] > 0.0 <==> p[i] > 0.0)
  {
    var c := Clamp(p);
    var m := MaxOf(c);
    if m > 0.0 {
      assert Project(p, gain) == Rescale(c, gain, m);
      RescaleIsFactor(c, gain, m);
    } else {
      assert Project(p, gain) == c;
      forall i | 0 <= i < |p| ensures c[i] == 1.0 * c[i] && c[i] <= 0.0 {
        assert c[i] <= m;
      }
    }
  }

  /** Rescaling multiplies every non-negative power by the one positive factor gain / m. */
  lemma RescaleIsFactor(c: seq<real>, gain: real, m: real)
    requires gain > 0.0 && m > 0.0
    requires forall i :: 0 <= i < |c| ==> c[i] >= 0.0
    ensures gain / m > 0.0
    ensures forall i :: 0 <= i < |c| ==> Rescale(c, gain, m)[i] == (gain / m) * c[i]
    ensures forall i :: 0 <= i < |c| ==> (Rescale(c, gain, m)[i] > 0.0 <==> c[i] > 0.0)
  {
    var f := gain / m;
    assert f > 0.0;
    forall i | 0 <= i < |c|
      ensures Rescale(c, gain, m)[i] == f * c[i] && (Rescale(c, gain, m)[i] > 0.0 <==> c[i] > 0.0)
    {
      RescaleAt(c, gain, m, i);
      assert Scaled(gain, c[i], m) == f * c[i];
      if c[i] > 0.0 {
        MulPos(f, c[i]);
      }
    }
  }

  // ---------------------------------------------------------------- system identification

  /** The two state reads around one test blow. */
  datatype Probe = Probe(before: State, after: State)

  /** Column `piston` of the response matrix: the state change per unit test power. */
  function ResponseColumn(probe: Probe, testPower: real): (col: seq<real>)
    requires testPower != 0.0
    ensures |col| == 3
  {
    [ (probe.after.tiltX - probe.before.tiltX) / testPower,
      (probe.after.tiltY - probe.before.tiltY) / testPower,
      (probe.after.height - probe.before.height) / testPower ]
  }

  /** The column is the linear response the loop assumes: the state before the blow plus the
      column times the test power is the state read after it. */
  lemma ResponseColumnPredicts(probe: Probe, testPower: real)
    requires testPower != 0.0
    ensures var col := ResponseColumn(probe, testPower);
            probe.before.tiltX + col[0] * testPower == probe.after.tiltX &&
            probe.before.tiltY + col[1] * testPower == probe.after.tiltY &&
            probe.before.height + col[2] * testPower == probe.after.height
  {
    var col := ResponseColumn(probe, testPower);
    assert col[0] * testPower == probe.after.tiltX - probe.before.tiltX;
    assert col[1] * testPower == probe.after.tiltY - probe.before.tiltY;
    assert col[2] * testPower == probe.after.height - probe.before.height;
  }

  function TestPowers(): seq<real>
  {
    [TestPower, TestPower, TestPower, TestPower]
  }

  /** The "build response matrix with test blows" block: a fresh 3x4 matrix of zeros, then for
      each piston in turn one test blow and one column written. */
  method Identify(sim: BlockSimulator, probes: seq<Probe>, noises: seq<real>) returns (response: array2<real>)
    requires sim.Valid() && |probes| == NumCorners && |noises| == NumCorners
    modifies sim.z
    ensures fresh(response) && response.Length0 == 3 && response.Length1 == NumCorners
    ensures forall r, c :: 0 <= r < 3 && 0 <= c < NumCorners ==>
              response[r, c] == ResponseColumn(probes[c], TestPower)[r]
    ensures sim.z[..] == Actuated(old(sim.z[..]), TestPowers(), 0.0, sim.k, noises)
  {
    ghost var z0 := sim.z[..];
    response := new real[3, NumCorners]((r, c) => 0.0);
    for piston := 0 to NumCorners
      invariant forall r, c :: 0 <= r < 3 && 0 <= c < piston ==>
                  response[r, c] == ResponseColumn(probes[c], TestPower)[r]
      invariant forall r, c :: 0 <= r < 3 && piston <= c < NumCorners ==> response[r, c] == 0.0
      invariant forall i :: 0 <= i < piston ==> sim.z[i] == Actuated(z0, TestPowers(), 0.0, sim.k, noises)[i]
      invariant forall i :: piston <= i < NumCorners ==> sim.z[i] == z0[i]
    {
      var before := probes[piston].before;
      var _ := sim.ActuatePiston(piston, TestPower, noises[piston]);
      var after := probes[piston].after;
      var col := ResponseColumn(Probe(before, after), TestPower);
      response[0, piston] := col[0];
      response[1, piston] := col[1];
      response[2, piston] := col[2];
    }
  }

  // ---------------------------------------------------------------- corrective actuation

  /** `np.sum`. */
  function Sum(s: seq<real>): real
  {
    if s == [] then 0.0 else s[0] + Sum(s[1..])
  }

  /** Non-negative terms sum to zero only when every term is zero. */
  lemma {:induction false} SumOfNonNegative(s: seq<real>)
    requires forall i :: 0 <= i < |s| ==> s[i] >= 0.0
    ensures Sum(s) >= 0.0
    ensures Sum(s) == 0.0 ==> forall i :: 0 <= i < |s| ==> s[i] == 0.0
  {
    if s != [] {
      SumOfNonNegative(s[1..]);
      assert forall i :: 1 <= i < |s| ==> s[i] == s[1..][i - 1];
    }
  }

  /** The heights after the correction step: pistons with positive power are driven, and only
      when the total power is positive. */
  function Corrected(z: seq<real>, powers: seq<real>, k: real, noises: seq<real>): seq<real>
    requires |powers| == |z| == |noises|
  {
    if Sum(powers) > 0.0 then Actuated(z, powers, 0.0, k, noises) else z
  }

  /** The total-power guard never suppresses a correction: for projected powers, applying every
      positive power is the same as guarding on the total. */
  lemma TotalGuardRedundant(z: seq<real>, solved: seq<real>, k: real, noises: seq<real>)
    requires |solved| == |z| == |noises| && |z| > 0
    ensures Corrected(z, Project(solved, Gain), k, noises) == Actuated(z, Project(solved, Gain), 0.0, k, noises)
  {
    var p := Project(solved, Gain);
    ProjectBounds(solved, Gain);
    SumOfNonNegative(p);
    if Sum(p) <= 0.0 {
      assert forall i :: 0 <= i < |z| ==> p[i] == 0.0;
      assert Actuated(z, p, 0.0, k, noises) == z;
    }
  }

  /** When the solve asks for no positive power anywhere, the correction leaves every height as it was. */
  lemma NothingPositiveNothingMoves(z: seq<real>, solved: seq<real>, k: real, noises: seq<real>)
    requires |solved| == |z| == |noises| && |z| > 0
    requires forall i :: 0 <= i < |solved| ==> solved[i] <= 0.0
    ensures Corrected(z, Project(solved, Gain), k, noises) == z
  {
    var p := Project(solved, Gain);
    ProjectNothingPositive(solved, Gain);
    assert p == seq(|z|, i => 0.0);
    SumZeros(|z|);
  }

  lemma {:induction false} SumZeros(n: nat)
    ensures Sum(seq(n, i => 0.0)) == 0.0
  {
    if n > 0 {
      assert seq(n, i => 0.0)[1..] == seq(n - 1, i => 0.0);
      SumZeros(n - 1);
    }
  }

  /** "Apply corrections". */
  method ApplyCorrection(sim: BlockSimulator, powers: seq<real>, noises: seq<real>)
    requires sim.Valid() && |powers| == NumCorners && |noises| == NumCorners
    modifies sim.z
    ensures sim.z[..] == Corrected(old(sim.z[..]), powers, sim.k, noises)
  {
    var totalPower := Sum(powers);
    if totalPower > 0.0 {
      ActuateAbove(sim, powers, 0.0, noises);
    }
  }

  // ---------------------------------------------------------------- the loop

  /** What one iteration reads from outside: the probe reads and noise of the four test blows,
      the pseudoinverse's solved powers, the noise of the corrective blows, and the state read last. */
  datatype Round = Round(probes: seq<Probe>, testNoise: seq<real>, solved: seq<real>, noise: seq<real>, next: State)

  ghost predicate WellFormed(r: Round)
  {
    |r.probes| == NumCorners && |r.testNoise| == NumCorners && |r.solved| == NumCorners && |r.noise| == NumCorners
  }

  /** The state the loop holds at the start of iteration i. */
  function StateAt(initial: State, rounds: seq<Round>, i: nat): State
    requires i <= |rounds|
  {
    if i == 0 then initial else rounds[i - 1].next
  }

  /** The heights after n full iterations: test blows, then the projected correction. */
  function HeightsAfter(z: seq<real>, rounds: seq<Round>, n: nat, k: real): (r: seq<real>)
    requires |z| == NumCorners && n <= |rounds|
    requires forall j :: 0 <= j < |rounds| ==> WellFormed(rounds[j])
    ensures |r| == NumCorners
  {
    if n == 0 then z else RoundEffect(HeightsAfter(z, rounds, n - 1, k), rounds[n - 1], k)
  }

  /** The heights after one iteration's test blows and projected correction. */
  function RoundEffect(z: seq<real>, round: Round, k: real): (r: seq<real>)
    requires |z| == NumCorners && WellFormed(round)
    ensures |r| == NumCorners
  {
    Corrected(Actuated(z, TestPowers(), 0.0, k, round.testNoise), Project(round.solved, Gain), k, round.noise)
  }

  /** The body of an iteration that passed both exit checks: identify, solve, project, apply. */
  method Iterate(sim: BlockSimulator, round: Round)
    requires sim.Valid() && WellFormed(round)
    modifies sim.z
    ensures sim.z[..] == RoundEffect(old(sim.z[..]), round, sim.k)
  {
    var response := Identify(sim, round.probes, round.testNoise);
    var powers := Project(round.solved, Gain);
    ApplyCorrection(sim, powers, round.noise);
  }

  /** One more iteration whose checks let it through extends the run of NotYet checks. */
  lemma NotYetSoFar(initial: State, rounds: seq<Round>, n: nat)
    requires n < |rounds|
    requires forall j :: 0 <= j < n ==> CheckState(StateAt(initial, rounds, j), Tolerance) == NotYet
    requires CheckState(StateAt(initial, rounds, n), Tolerance) == NotYet
    ensures forall j :: 0 <= j <= n ==> CheckState(StateAt(initial, rounds, j), Tolerance) == NotYet
  {
  }

  /** The main leveling loop. It ends on the first iteration whose checks stop it, or after
      MaxIters iterations; the checks see only the state. */
  method LevelBlock(sim: BlockSimulator, initial: State, rounds: seq<Round>) returns (outcome: Outcome, state: State, iters: nat)
    requires sim.Valid()
    requires |rounds| >= MaxIters && forall j :: 0 <= j < |rounds| ==> WellFormed(rounds[j])
    modifies sim.z
    ensures iters <= MaxIters && state == StateAt(initial, rounds, iters)
    ensures sim.z[..] == HeightsAfter(old(sim.z[..]), rounds, iters, sim.k)
    ensures forall j :: 0 <= j < iters ==> CheckState(StateAt(initial, rounds, j), Tolerance) == NotYet
    ensures outcome == TooLow <==> iters < MaxIters && CheckState(state, Tolerance) == Unsafe
    ensures outcome == Converged <==> iters < MaxIters && CheckState(state, Tolerance) == WithinTolerance
    ensures outcome == MaxIterations <==> iters == MaxIters
  {
    ghost var z0 := sim.z[..];
    state := initial;
    iters := 0;
    outcome := MaxIterations;
    while iters < MaxIters
      invariant iters <= MaxIters && state == StateAt(initial, rounds, iters)
      invariant sim.z[..] == HeightsAfter(z0, rounds, iters, sim.k)
      invariant forall j :: 0 <= j < iters ==> CheckState(StateAt(initial, rounds, j), Tolerance) == NotYet
      invariant outcome == MaxIterations
    {
      var check := CheckState(state, Tolerance);
      if check == Unsafe {
        outcome := TooLow;
        return;
      } else if check == WithinTolerance {
        outcome := Converged;
        return;
      }
      Iterate(sim, rounds[iters]);
      assert sim.z[..] == HeightsAfter(z0, rounds, iters + 1, sim.k);
      NotYetSoFar(initial, rounds, iters);
      state := rounds[iters].next;
      iters := iters + 1;
    }
  }
}
