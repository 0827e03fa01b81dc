/** What both leveling loops share: the sensed state, the per-iteration verdict, the terminal
    outcome, and the two ways a loop drives the pistons. */
module Leveling {
  import opened Plant

  /** Deviation from the flush, level target: two tilts in radians and a height in millimetres. */
  datatype State = State(tiltX: real, tiltY: real, height: real)

  /** What an iteration's exit checks conclude. */
  datatype Check = Unsafe | WithinTolerance | NotYet

  /** How a leveling loop ends: the `break` on success, the `break` on a block that sank too low,
      or the `else` branch of the `for` loop when every iteration ran. */
  datatype Outcome = Converged | TooLow | MaxIterations

  /** The square of the Euclidean norm; comparing squares of non-negative norms is comparing norms. */
  function SumSq(s: State): (r: real)
    ensures r >= 0.0
  {
    s.tiltX * s.tiltX + s.tiltY * s.tiltY + s.height * s.height
  }

  /** `for piston in range(4): actuate_piston(piston, powers[piston])`: every piston is driven
      and the simulator itself skips non-positive powers. */
  method ActuateEach(sim: BlockSimulator, powers: seq<real>, noises: seq<real>)
    requires sim.Valid() && |powers| == NumCorners && |noises| == NumCorners
    modifies sim.z
    ensures sim.z[..] == Actuated(old(sim.z[..]), powers, 0.0, sim.k, noises)
  {
    ghost var z0 := sim.z[..];
    for piston := 0 to NumCorners
      invariant forall i :: 0 <= i < piston ==> sim.z[i] == Actuated(z0, powers, 0.0, sim.k, noises)[i]
      invariant forall i :: piston <= i < NumCorners ==> sim.z[i] == z0[i]
    {
      var _ := sim.ActuatePiston(piston, powers[piston], noises[piston]);
    }
  }

  /** `for piston in range(4): if powers[piston] > threshold: actuate_piston(piston, powers[piston])`. */
  method ActuateAbove(sim: BlockSimulator, powers: seq<real>, threshold: real, noises: seq<real>)
    requires sim.Valid() && |powers| == NumCorners && |noises| == NumCorners
    modifies sim.z
    ensures sim.z[..] == Actuated(old(sim.z[..]), powers, threshold, sim.k, noises)
  {
    ghost var z0 := sim.z[..];
    for piston := 0 to NumCorners
      invariant forall i :: 0 <= i < piston ==> sim.z[i] == Actuated(z0, powers, threshold, sim.k, noises)[i]
      invariant forall i :: piston <= i < NumCorners ==> sim.z[i] == z0[i]
    {
      if powers[piston] > threshold {
        var _ := sim.ActuatePiston(piston, powers[piston], noises[piston]);
      }
    }
  }
}
