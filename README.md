# Block leveller: sensor decoders, plant simulator and two leveling loops

This project models the core of a controller that levels a trapezoidal block on four hydraulic
pistons (corners A, B, C, D). It proves properties of that model. The core has five parts:

- **`Dwl`**: the Digi-Pas DWL-5000XY dual-axis packet decoder. A 12-byte frame holds two 24-bit
  two's-complement counts (y in bytes 3..5, x in bytes 6..8). Each count is returned as
  thousandths of a degree, in the order (x, y). A frame of any other length is a `WrongLength`
  error. Python's `<<`, `|` and `&` on non-negative integers are modelled in module `Bits` as
  recursive functions on `nat`. Lemmas there relate them to arithmetic.
- **`RangeBlock`**: the VL53L0X result-block parser. A missing block, or one that is not 12 bytes
  long, gives `None`. Otherwise the last two bytes are a big-endian distance. The distance is
  returned only when it lies strictly between 0 and 65535.
- **`Plant`**: the `BlockSimulator`. Dimensions are converted from inches to millimetres, and the
  corners are laid out symmetrically about the centre. The four heights live in an `array<real>`,
  which `ActuatePiston` updates in place. A non-positive power does nothing. An index outside
  -4..3 fails with numpy's `IndexError`. The finite-difference fallback tilt of `get_level` is a
  function.
- **`ResponseControl`**: the loop of `main2.py`. Each iteration does the following in order:
  - the too-low check, then the tolerance-norm check;
  - one test blow per piston, which fills one column of the 3x4 response matrix;
  - the pseudoinverse solve;
  - the projection: clamp to non-negative, then rescale so that the largest power is `gain`;
  - actuation of every positive power, guarded on the total.
- **`ProportionalControl`**: the loop of `main.py`. It covers the following:
  - `check_corner_tolerance`;
  - the damped proportional law `calculate_corner_powers`, clipped to [0, 0.9];
  - the ±5 % tilt compensation, which multiplies entries of the power array in place;
  - the `min_power` actuation filter;
  - the warm-up blows;
  - the loop, whose safety check on the lowest corner comes before the convergence test.

`Leveling` holds what the two loops share: the sensed state, the per-iteration verdict, the
terminal outcome, and the two actuation passes.

Inputs of the model, in place of what the system reads or draws at run time:

- The simulator's random draws are parameters: the initial heights from `uniform(-1, 30)` and the
  actuation noise from `uniform(-0.2, 0.2)`. Bounds are stated where a property needs them.
- Every state read is a parameter. A state read stands for what `get_state` is meant to return:
  the tilts of `get_level` and the noisy `get_height`. As written, `get_level` never returns
  (see "## Left out"), so these inputs model the intended reading, not the code's.
- The output of `pinv(response) @ -state` is a parameter. The datatypes `Round` carry these
  inputs for each iteration.
- Norm comparisons are modelled on sums of squares (`SumSq`, `WeightedSumSq`). For non-negative
  norms, `‖s‖ < ‖t‖` holds exactly when `‖s‖² < ‖t‖²`.
- All arithmetic is over `real`. The properties hold exactly over the reals, not over IEEE doubles.

Where a comment and the code disagree, the model follows the code. The comment at
simulator.py:25 speaks of -10..10 mm, but the code draws initial heights from `uniform(-1, 30)`.
The constructor's precondition uses the code's range.

In `main.py`, the first loop iteration tests the state read before the warm-up blows. The model
keeps this: `ProportionalControl.LevelBlock` checks `initial` against the warmed-up heights.

## Model

| member | source | states |
|---|---|---|
| Bits.Shl | DWL_to_degrees.py:18 | Python's `a << k` on non-negative integers, a·2^k; used through `Be24` and `Be16` |
| Bits.BitOr | DWL_to_degrees.py:18 | Python's `\|` on non-negative integers, bit by bit; its arithmetic meaning is `OrIntoClearBits` |
| Bits.BitAnd | DWL_to_degrees.py:21 | Python's `&` on non-negative integers, bit by bit; its meaning is `AndSingleBit` |
| Bits.OrIntoClearBits | DWL_to_degrees.py:18 | OR-ing a value below 2^k onto a value shifted left by k is the same as adding it |
| Bits.AndSingleBit | DWL_to_degrees.py:21 | masking with 2^k is non-zero exactly when bit k of the number is set |
| Bits.Be24Value | DWL_to_degrees.py:18 | `(b0 << 16) \| (b1 << 8) \| b2` equals b0·65536 + b1·256 + b2 |
| Bits.Be24 | DWL_to_degrees.py:18 | the expression `(b[0] << 16) \| (b[1] << 8) \| b[2]`; its value is `Be24Value` |
| Bits.SignBitSet | DWL_to_degrees.py:21 | for a 24-bit raw value, `raw & 0x800000` is non-zero exactly when raw ≥ 2^23 |
| Bits.Be16 | degrees_and_laser_to_pos_change.py:10 | the expression `(msb << 8) \| lsb`; its value is `Be16Value` |
| Bits.Be16Value | degrees_and_laser_to_pos_change.py:10 | `(msb << 8) \| lsb` equals msb·256 + lsb |
| Dwl.DecodeAxis | DWL_to_degrees.py:16-23 | the result lies in [-2^23, 2^23 - 1]; with bit 23 clear it is the unsigned big-endian value, with bit 23 set that value minus 2^24 |
| Dwl.DecodeEncodeAxis | DWL_to_degrees.py:16-23 | encoding any value of [-2^23, 2^23 - 1] as three big-endian two's-complement bytes and decoding gives it back |
| Dwl.EncodeDecodeAxis | DWL_to_degrees.py:16-23 | decoding any three bytes and encoding the result gives the same bytes, so the decoding is one-to-one |
| Dwl.SignExtensionEdges | DWL_to_degrees.py:21-22 | `80 00 00` decodes to -2^23, `FF FF FF` to -1 and `7F FF FF` to 2^23 - 1 |
| Dwl.DecodeDwl5000xy | DWL_to_degrees.py:13-14 | the decoder fails exactly when the packet length is not 12, and the error carries that length |
| Dwl.AxesComeFromTheirBytes | DWL_to_degrees.py:26-33 | a 12-byte packet decodes; x·1000 is the count from bytes 6..8 and y·1000 the count from bytes 3..5 |
| Dwl.FramingBytesIgnored | DWL_to_degrees.py:26-27 | two packets that agree on bytes 3..8 decode alike: bytes 0..2 and 9..11 never matter |
| Dwl.AngleRange | DWL_to_degrees.py:30-31 | both angles lie in [-8388.608, 8388.607] degrees |
| Dwl.PacketRoundTrip | DWL_to_degrees.py:16-33 | any framing bytes around two encoded counts decode to (x / 1000, y / 1000) |
| Dwl.SamplePacket | DWL_to_degrees.py:18-33 | the frame `71 11 22 00 01 23 00 FF 38 00 5A 3C` gives x = 65.336 and y = 0.291 (y bytes `00 01 23` are 291) |
| RangeBlock.ParseResultBlock | degrees_and_laser_to_pos_change.py:2-12 | None for a missing block or a length other than 12; otherwise Some exactly when byte10·256 + byte11 is strictly between 0 and 65535, and then it is that value |
| RangeBlock.ParseEncodedDistance | degrees_and_laser_to_pos_change.py:9-12 | every distance in (0, 65535), written as the last two bytes after any ten bytes, parses back to itself |
| RangeBlock.ReadingUnlessReserved | degrees_and_laser_to_pos_change.py:12 | a 12-byte block gives None exactly when its distance bytes are `00 00` or `FF FF` |
| RangeBlock.LeadingBytesIgnored | degrees_and_laser_to_pos_change.py:9 | blocks that agree on bytes 10 and 11 parse alike: bytes 0..9 never matter |
| RangeBlock.SampleBlock | degrees_and_laser_to_pos_change.py:9-12 | the block `01 00 … 00 C8` parses to 200 mm |
| Plant.CornerLayout | simulator.py:18-23 | A and B lie on y = -width/2, C and D on y = +width/2; A.x = -B.x and D.x = -C.x; the A-B edge is length_short long and D-C is length_long |
| Plant.BlockSimulator.constructor | simulator.py:5-30 | dimensions are inches × 25.4; length_avg is the mean of the two lengths; width_half is width / 2; corners follow the layout; z holds the given initial heights; k = 5 and noise_scale = 0.2 |
| Plant.BlockSimulator.ActuatePiston | simulator.py:35-41 | a power ≤ 0 changes nothing; an index outside -4..3 fails and changes nothing; otherwise only z[corner_id] changes, by -power·k·(1 + noise) |
| Plant.Drop | simulator.py:40 | `delta_z = -power * k * (1 + noise)`; its bounds are `DropBounds` |
| Plant.DropBounds | simulator.py:38-40 | with power > 0 and noise in [-0.2, 0.2], the corner drops by between 0.8·k·power and 1.2·k·power, so it strictly drops |
| Plant.Slot | simulator.py:41 | numpy's reading of `z[corner_id]` for an index in -4..3: the result is in 0..3, equal to the index when it is non-negative |
| Plant.Actuated | simulator.py:35-41 | the heights after each corner whose power passes the threshold (and is positive) has been actuated once; its properties are `ActuatedMovesOnlySelected` |
| Plant.ActuatedMovesOnlySelected | simulator.py:35-41 | an actuation pass leaves every corner whose power does not pass the threshold unchanged, and lowers each other corner by between 0.8·k·power and 1.2·k·power |
| Plant.FallbackTilt | simulator.py:62-67 | the fallback's (theta_x, theta_y) from the edge slopes; its meaning is `FallbackFlat` and `FallbackRecoversPlane` |
| Plant.FallbackFlat | simulator.py:62-67 | four equal corner heights give the fallback tilt (0, 0) |
| Plant.FallbackRecoversPlane | simulator.py:62-67 | on a block lying on height = a·x + b·y + c, the fallback as written returns (theta_x, theta_y) = (b, a) |
| Plant.FallbackSignDisagrees | simulator.py:65-70 | on the plane height = y (b = 1) over the 12 × 14 × 16 inch block, the fallback returns theta_x = +1, opposite in sign to -b and so to the fit's arctan(-b) |
| Plant.PlaneHeights | simulator.py:48 | the corner heights of a block lying on height = a·x + b·y + c; input to the fallback lemmas |
| Plant.AlignedFallbackTilt | simulator.py:62-71 | the fallback with theta_x negated to the fit's sign convention; its meaning is `AlignedFallbackRecoversPlane` |
| Plant.AlignedFallbackRecoversPlane | simulator.py:62-71 | with the fit's sign convention, the fallback returns (-b, a) on every plane block: the small-angle values of (arctan(-b), arctan(a)) |
| Leveling.SumSq | main2.py:58 | the squared Euclidean norm of a state, never negative; the norm comparisons are made on it |
| Leveling.ActuateEach | main.py:74-75 | driving every piston in turn gives the heights of one actuation pass over all positive powers |
| Leveling.ActuateAbove | main.py:127-129 | driving only the pistons whose power exceeds the threshold gives the heights of one actuation pass with that threshold |
| ResponseControl.CheckState | main2.py:53-60 | the two exit checks in order: too low when height < -tolerance, else level when the state's norm is below the tolerance's; its meaning is `LevelStateBounds` and `TooLowWinsOverLevel` |
| ResponseControl.LevelStateBounds | main2.py:53-60 | a state reported level is not too low, and each of its components is smaller in square than the tolerance vector's squared norm |
| ResponseControl.TooLowWinsOverLevel | main2.py:53-60 | the state (0, 0, -0.100005) is inside the tolerance norm and still ends the loop as too low, because the height check comes first |
| ResponseControl.MaxOf | main2.py:76 | the result is an element and bounds every element |
| ResponseControl.Clamp | main2.py:73 | every power is ≥ 0; a non-negative power is kept and a negative one becomes 0 |
| ResponseControl.Project | main2.py:73-77 | clamp, then rescale to a largest power of gain when some power is positive; its meaning is `ProjectBounds`, `ProjectKeepsRatios` and `ProjectNothingPositive` |
| ResponseControl.Rescale | main2.py:77 | `gain * powers / np.max(powers)`; its meaning is `RescaleIsFactor` |
| ResponseControl.Scaled | main2.py:77 | one element of the rescaling, gain·x / m; its meaning is `ScaledBelow` |
| ResponseControl.ScaledBelow | main2.py:77 | for 0 ≤ c ≤ m the rescaled value is (gain/m)·c, lies in [0, gain], is positive when c is, and is gain at c = m |
| ResponseControl.ProjectBounds | main2.py:72-77 | every projected power lies in [0, gain]; when some solved power is positive, the largest projected power is exactly gain |
| ResponseControl.ProjectKeepsRatios | main2.py:73-77 | every projected power is the clamped power times one common positive factor, so the ratios between corners are kept and a corner gets power exactly when its solved power was positive |
| ResponseControl.RescaleIsFactor | main2.py:77 | `gain * powers / max` multiplies every power by gain / max > 0 and keeps each one positive exactly when it was |
| ResponseControl.ProjectNothingPositive | main2.py:73-77 | when no solved power is positive, every projected power is 0 |
| ResponseControl.ResponseColumn | main2.py:68 | `(after - before) / test_power`, a column of three entries; its meaning is `ResponseColumnPredicts` |
| ResponseControl.ResponseColumnPredicts | main2.py:68 | the state before a test blow plus the column times test_power is the state read after it |
| ResponseControl.Identify | main2.py:63-68 | the matrix is 3 × 4; column c holds (after - before) / test_power of test blow c; the heights are those of one test blow per piston |
| ResponseControl.Sum | main2.py:80 | `np.sum`; its meaning is `SumOfNonNegative` |
| ResponseControl.SumOfNonNegative | main2.py:80 | a sum of non-negative powers is non-negative, and zero only when every power is zero |
| ResponseControl.Corrected | main2.py:80-84 | the heights after the guarded correction: the positive powers are actuated only when the total is positive; its meaning is `TotalGuardRedundant` and `NothingPositiveNothingMoves` |
| ResponseControl.TotalGuardRedundant | main2.py:80-84 | for projected powers, guarding on the total power never suppresses a correction |
| ResponseControl.NothingPositiveNothingMoves | main2.py:73-84 | when no solved power is positive, the correction leaves every height unchanged |
| ResponseControl.ApplyCorrection | main2.py:80-84 | the heights become those of the guarded actuation of every positive power |
| ResponseControl.RoundEffect | main2.py:62-84 | the heights after one iteration's test blows and projected correction; `Iterate` is proved against it |
| ResponseControl.Iterate | main2.py:62-84 | one iteration's test blows and projected correction change the heights as the round's effect says |
| ResponseControl.LevelBlock | main2.py:51-93 | at most 50 iterations; the heights and state follow the rounds; every earlier check continued; the outcome is too low, converged or max iterations exactly as the checks on the final state decide |
| ProportionalControl.MaxAbs | main.py:41 | the result is the magnitude of some corner and bounds every corner's magnitude |
| ProportionalControl.MinOf | main.py:82 | the result is a corner height and bounds every corner from below |
| ProportionalControl.CheckCornerTolerance | main.py:40-42 | OK exactly when every corner's magnitude is within the tolerance; the deviation is the largest magnitude |
| ProportionalControl.MeanAbs | main.py:50 | `np.mean(np.abs(errors))`, never negative |
| ProportionalControl.DampingScale | main.py:50-51 | the damping factor lies in [0, 1], and it is 0 exactly when every error is 0 |
| ProportionalControl.Clip | main.py:54 | the result lies in [lo, hi] and equals x when x already does |
| ProportionalControl.ClipMonotone | main.py:54 | clipping keeps the order of its inputs |
| ProportionalControl.CornerPowers | main.py:44-54 | every corner power lies in [0, 0.9] |
| ProportionalControl.PoweredExactlyWhenOff | main.py:46-54 | for a positive gain a corner gets power exactly when its height is off the target: the lower clip never cuts a displaced corner to zero |
| ProportionalControl.LevelCornersNoPower | main.py:46-52 | all-zero corner heights give all-zero powers |
| ProportionalControl.CornerPowersMonotone | main.py:46-54 | a corner further from the target never gets less power than one nearer to it |
| ProportionalControl.CalculateCornerPowers | main.py:44-54 | the fresh array of in-place scaled and clipped powers equals the proportional law on the simulator's heights |
| ProportionalControl.XFactors | main.py:110-116 | the per-corner multipliers of the x-tilt block; `CompensateX` applies them |
| ProportionalControl.YFactors | main.py:118-124 | the per-corner multipliers of the y-tilt block; `CompensateY` applies them |
| ProportionalControl.Compensated | main.py:110-124 | the powers times both multiplier vectors; its meaning is `SmallTiltKeepsPowers` and `CompensationRange` |
| ProportionalControl.CompensateX | main.py:110-116 | the powers become the old powers times the x-tilt factors: 1.05 on A and D and 0.95 on B and C for theta_x > 0.001, the reverse for theta_x < -0.001, else unchanged |
| ProportionalControl.CompensateY | main.py:118-124 | the powers become the old powers times the y-tilt factors: 1.05 on A and B and 0.95 on C and D for theta_y > 0.001, the reverse for theta_y < -0.001, else unchanged |
| ProportionalControl.CompensateTilt | main.py:110-124 | the powers become the old powers times both tilt factors |
| ProportionalControl.SmallTiltKeepsPowers | main.py:110-124 | with both tilts within 0.001, compensation leaves the powers unchanged |
| ProportionalControl.CompensationRange | main.py:110-124 | each compensated power is its power times a factor in [0.9025, 1.1025], so powers from the law stay in [0, 0.99225], below full power |
| ProportionalControl.WeightedSumSq | main.py:87-92 | the squared norm of the state divided component-wise by the tolerance; its meaning is `WeightedWithinEachAxis` |
| ProportionalControl.WeightedWithinEachAxis | main.py:87-95 | a weighted state of norm below 1 has \|theta_x\| < 0.0005, \|theta_y\| < 0.0005 and \|h\| < 0.5 |
| ProportionalControl.CheckIteration | main.py:82-95 | the exit checks in order: the lowest corner against -0.7 mm, then the weighted norm and the corner tolerance; its meaning is `CheckIterationByCorners` and `SafetyBeforeConvergence` |
| ProportionalControl.CheckIterationByCorners | main.py:82-95 | unsafe exactly when some corner is below -0.7 mm; within tolerance exactly when every corner lies in [-0.7, 1] mm and the weighted norm is below 1 |
| ProportionalControl.SafetyBeforeConvergence | main.py:82-97 | heights (-0.9, 0, 0, 0) with a perfect state pass the convergence test, yet the iteration stops as unsafe, because the safety check runs first |
| ProportionalControl.StepHeights | main.py:106-129 | the heights after one corrective iteration: the law, the tilt factors and the pass above 0.01; `Iterate` is proved against it |
| ProportionalControl.Iterate | main.py:106-129 | one iteration's powers, tilt bias and actuation above min_power change the heights as one step of the law says |
| ProportionalControl.LevelBlock | main.py:73-135 | after the warm-up blows: at most 20 iterations; the heights and state follow the rounds; every earlier check continued; the outcome is too low, converged or max iterations exactly as the checks on the final heights and state decide |

## Findings

| source | as written | input that shows it | evidently intended | confidence | as-written member | corrected member |
|---|---|---|---|---|---|---|
| simulator.py:62-71 | in a branch the program as written never reaches (see "## Left out"), the fallback returns theta_x = +b for a block on the plane height = a·x + b·y + c, while the fitted path returns arctan(-b) | corners on height = y (a = 0, b = 1) of the 12 × 14 × 16 inch block: the fallback gives theta_x = +1, the fit gives arctan(-1) < 0 | the fallback estimates the same tilt as the fit, with the same sign | medium, not executed | Plant.FallbackSignDisagrees | Plant.AlignedFallbackRecoversPlane |

## Left out

- The plane fit of `get_level` (`np.linalg.lstsq`, `np.arctan`) is not modelled. It is floating-point library numerics. State reads are inputs instead.
- `get_level` as written raises a broadcasting `ValueError` on every call. simulator.py:48 adds a corner, a 2-element array, to a 3-element array, before the `try` at line 56. So `get_state` fails at main2.py:47 and main.py:57, and neither loop is entered. The loops here model what the scripts evidently intend, with the state reads as inputs.
- The fallback of `get_level` is not reachable as written. Besides the error above, `np.linalg.lstsq` with `rcond=None` returns a minimum-norm solution for a singular matrix and raises only when its SVD does not converge. The fallback is modelled as a formula, as the code states it.
- `get_height` is not modelled. It uses `np.random.normal` and Euclidean-norm weights. Its value arrives inside the state reads.
- `np.linalg.pinv` is not modelled. Its output is an arbitrary input vector to the projection.
- Random draws are parameters: the initial heights and the actuation noise. One noise value is supplied per corner even when that corner is not actuated.
- `np.linalg.norm` is not modelled. The convergence tests compare sums of squares, which decides the same way for the non-negative norms the source compares.
- `time.sleep` settling delays, all printing, and the final report are left out. The report includes `rad_to_deg`, which needs π.
- The module-level wiring is left out: the global `sim`, the wrappers `read_level`, `get_state` and `actuate_piston`, and the dummy `vl53` list.
- IEEE double rounding is left out. All arithmetic is exact over `real`.
- Plant.FallbackTilt: requires non-zero width and lengths. A zero dimension would raise `ZeroDivisionError` in the source. The simulator's own dimensions are never zero.
- Plant.BlockSimulator.ActuatePiston: takes the noise draw as a parameter and does not require it to lie in [-0.2, 0.2]. The bound is a hypothesis of `Plant.DropBounds` instead.
- ResponseControl.Identify: the state reads around each test blow are inputs and are not tied to the heights. The matrix it fills reaches the correction only through the pseudoinverse output, which is an input.
