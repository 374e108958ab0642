# Underwater vehicle trajectory processing, modelled in Dafny

This project models the numerical core of a post-processing toolkit for a
remotely operated underwater vehicle survey, in two parts.

- **The FIR filtering utility** (`src/filters.py`): the filter
  configuration record, padding a time series at both ends with copies of
  its edge samples (`add_appendage`), removing that padding again
  (`remove_appendage`), and the parts of `FIR_filter` that do not belong to
  the filter design: which axis is filtered and the group delay reported
  to the caller.
- **The quaternion trajectory pipeline** (`Python/georeferencing.py`):
  - resolving the camera-to-transducer lever arm from two measured legs
    and an inclination;
  - stage A derives the transducer trajectory from the camera trajectory;
  - stage B aligns the visual-odometry frame with a levelled frame;
  - stage C georeferences the result onto an absolute position fix and
    attitude;
  - the three stages composed in the order the SLAM-relative driver runs
    them;
  - the APS-relative camera trajectory, built in a loop over pre-allocated
    buffers from acoustic position fixes and the nearest gyroscope
    attitudes.

Files:

- `wrappers.dfy`: `Option` and `Result`.
- `filters.dfy`: module `Filters`. An n-dimensional array is a `Vector`
  or a rectangular `Matrix` of rows, and NumPy's axis 1 runs along each row.
- `quaternions.dfy`: module `Quaternions`. It gives three-vectors and
  scalar-first quaternions over the reals, with the Hamilton product, the
  conjugate and `Rotate(q, v)`, the vector part of `q (0, v) q*`. It also
  proves the algebra the pipeline relies on: associativity, the conjugate
  of a product, the multiplicative norm, and rotation composing,
  distributing and preserving length. `Mul` is the product written out on
  the components, with no contract of its own. It is specified by the
  lemmas about it: `MulOne`, `MulAssoc`, `ConjMul`, `Norm2Mul` and
  `RotateMul`.
- `georeferencing.dfy`: module `Georeferencing`, the pipeline. Square
  root, arccos, sine and cosine are a `Numerics` value. Two of the
  `utilities` helpers the source calls, the axis-angle quaternion and the
  closest-timestamp lookup, are a `Utilities` value. That module is not
  part of this model, so the properties that need facts about these
  functions take those facts as explicit preconditions.

`calculate_camera_trajectory` fills NumPy arrays in place, one row per
acoustic fix. It is therefore a method, `CalculateCameraTrajectory`, that
fills Dafny arrays the same way. `NewBuffers` allocates the three buffers
as the source does. Its loop invariants say that the first `k` entries of
each buffer already hold their final values and that the rest still hold
their initial contents. The final values are: the lever arm rotated by the
closest body attitude, as a pure quaternion; the camera attitude
`CameraAttitudeAt`; and the x-axis rotated by that attitude. One round of
the loop is the method `CameraRound`, which writes entry `k` of each buffer
and so extends the finished part by one. After the loop,
`BuffersGiveTrajectory` turns the filled buffers into the positions
`CameraPositionAt` gives, the fix plus the rotated lever arm.

Two conventions of the code are kept as written:

- Rotation uses the conjugate, `q p q*`. It equals `q p q⁻¹` only for unit
  quaternions, and `RotateConjInverse` states the inverse property under
  that condition.
- The loop of `calculate_camera_trajectory` composes the body rotation as
  `q_roll q_pitch q_yaw`, while stage C composes `q_yaw q_pitch q_roll`.

## Model

| member | source | states |
|---|---|---|
| `Filters.NewFilterConfiguration` | src/filters.py:4-9 | the constructor keeps order, cutoff and appendage as given and starts the sample frequency at zero |
| `Filters.PadEdges` | src/filters.py:12-15 | padding a non-empty axis by `a` gives length `len + 2a`: `a` copies of the first sample, the samples unchanged, `a` copies of the last |
| `Filters.AddAppendage` | src/filters.py:11-22 | succeeds exactly when there is an edge sample to take (a non-empty vector, or a matrix with no rows or with at least one column) and the appendage is not negative; an empty vector or a matrix of empty rows is the empty-axis error, and otherwise a negative repeat count is the second error; a vector is padded at its ends, each matrix row along axis 1; the result stays rectangular with axis length `len + 2a` |
| `Filters.NoRowsMatrixPads` | src/filters.py:17-21 | a matrix with no rows is padded to no rows of `cols + 2a` columns, and a negative appendage fails in the repeat |
| `Filters.AppendageIndicesMembership` | src/filters.py:31-32 | a position is listed for deletion if and only if it falls before the clipped bound of `[:a]` or at or after the clipped bound of `[-a:]` |
| `Filters.DeleteOutsideWindow` | src/filters.py:33 | deleting exactly the positions outside `[lo, hi)` leaves the samples of that window, in order |
| `Filters.DeleteAppendage` | src/filters.py:31-33 | on one axis, `np.delete` of the listed positions keeps exactly the slice from `KeptStart` to `KeptEnd` |
| `Filters.RemoveAppendage` | src/filters.py:24-33 | for every appendage, negative and zero included, unpadding keeps exactly the window from `KeptStart` to `KeptEnd` of a vector, or of every row of a matrix with the row count kept, and the result stays rectangular |
| `Filters.RemoveAppendageKeepsMiddle` | src/filters.py:24-33 | with an appendage `a >= 1` the axis shrinks to `max(0, len - 2a)`, and when `2a <= len` the samples from `a` to `len - a` are kept |
| `Filters.RemoveAppendageZeroDeletesAll` | src/filters.py:31-33 | with an appendage of zero every position along the axis is deleted: a vector becomes empty, and a matrix keeps its rows but each of them becomes empty |
| `Filters.PadUnpadRoundTrip` | src/filters.py:11-33 | for an appendage `>= 1`, unpadding undoes padding exactly, for vectors and matrices |
| `Filters.RoundTripFailsWithZeroAppendage` | src/filters.py:32 | as written, padding and then unpadding with an appendage of zero does not give the data back |
| `Filters.IntendedPadUnpadRoundTrip` | src/filters.py:24-33 | the corrected unpadding undoes padding for every appendage padding accepts, zero included |
| `Filters.PadFilterUnpadLength` | src/filters.py:11-33 | padding, any length-preserving filter, and the corrected unpadding give back a series as long as the input for every appendage `>= 0`; with the unpadding as written this holds for every appendage `>= 1` |
| `Filters.FirFilter` | src/filters.py:35-49 | apart from the filter design's own checks, which are not modelled, reports a delay exactly when the sample frequency is non-zero, and then `delay * fs == 0.5 * (order - 1)`; a vector is filtered along axis -1 whatever axis is requested, and a matrix along the requested axis |
| `Filters.FreshConfigurationCannotFilter` | src/filters.py:9 | a configuration fresh from the constructor, whose sample frequency is still zero, always fails in `FIR_filter` |
| `Filters.VectorAxisIgnored` | src/filters.py:43-44 | for a vector the requested axis makes no difference to the outcome |
| `Filters.EightTapDelay` | src/filters.py:48 | an 8-tap filter at 100 Hz reports a delay of 0.035 s |
| `Quaternions.MulOne` | Python/georeferencing.py:125 | the real quaternion 1 is the identity of the Hamilton product on either side |
| `Quaternions.Conj` | Python/georeferencing.py:91 | this ensures is the definition of the conjugate: the vector part is negated and the scalar part kept; its laws are `ConjMul`, `MulConjLeft`, `Norm2Conj` and `RotateConjInverse` |
| `Quaternions.Rotate` | Python/georeferencing.py:91-92 | the sandwich product of a pure quaternion is pure, and `Rotate` is its vector part |
| `Quaternions.SandwichIsPure` | Python/georeferencing.py:91-92 | `q (0, v) q*` has a zero scalar part for every `q` and `v`, so dropping the scalar part loses nothing |
| `Quaternions.MulAssoc` | Python/georeferencing.py:125 | the Hamilton product is associative, so `q_2 * q_1 * q_i` means the same however it is grouped |
| `Quaternions.ConjMul` | Python/georeferencing.py:141 | the conjugate of a product is the product of the conjugates in reverse order |
| `Quaternions.Norm2Mul` | Python/georeferencing.py:301 | the squared norm of a product is the product of the squared norms, so products of unit rotations stay unit |
| `Quaternions.RotateMul` | Python/georeferencing.py:138-142 | rotating by `p q` is rotating by `q` and then by `p` |
| `Quaternions.RotateAdd` | Python/georeferencing.py:93 | a rotation distributes over vector addition |
| `Quaternions.RotateSub` | Python/georeferencing.py:196-197 | a rotation distributes over vector difference |
| `Quaternions.RotateZero` | Python/georeferencing.py:91-92 | every rotation leaves the zero vector at zero |
| `Quaternions.RotateConjInverse` | Python/georeferencing.py:91 | for a unit quaternion, rotating by its conjugate undoes rotating by it |
| `Quaternions.RotateNorm` | Python/georeferencing.py:91 | rotation scales squared length by the square of the quaternion's squared norm, so a unit quaternion keeps lengths |
| `Georeferencing.CalculateLeverArm` | Python/georeferencing.py:15-39 | `None` exactly when the radius `sqrt(a^2 + b^2)` is zero: there the source's y and z components are not-a-number, and the model returns `None` for the whole arm; otherwise the x component is the negated measured x |
| `Georeferencing.LeverArmAtLegAngle` | Python/georeferencing.py:28-39 | when the measured inclination equals the leg angle `arccos(b / c)`, and `sin 0 = 0`, `cos 0 = 1`, the lever arm is `(-x, 0, -c)`, straight down the leg radius |
| `Georeferencing.LeverArmRadius` | Python/georeferencing.py:28-39 | when the square root squares back and `sin^2 + cos^2 = 1`, the y and z components span the same radius as the measured legs |
| `Georeferencing.CalculateTransducerTrajectory` | Python/georeferencing.py:61-95 | one transducer position per sample; transducer `i` minus camera `i` is lever arm `i` rotated by attitude `i` |
| `Georeferencing.TransducerOffsetIsLeverArm` | Python/georeferencing.py:91-93 | for a unit attitude, rotating the camera-to-transducer offset back by the conjugate gives the lever arm, and the offset is as long as the lever arm |
| `Georeferencing.ZeroLeverArmTransducerIsCamera` | Python/georeferencing.py:91-93 | with zero lever arms the transducer trajectory is the camera trajectory exactly |
| `Georeferencing.RotateTrajectory` | Python/georeferencing.py:138-142 | every position is rotated by the sandwich product and every attitude is left-multiplied, sample by sample, with the number of samples kept |
| `Georeferencing.RotateTrajectoryCompose` | Python/georeferencing.py:125 | rotating a trajectory by `q` and then by `p` equals rotating it once by `p q` |
| `Georeferencing.RotateTrajectoryKeepsLeverArm` | Python/georeferencing.py:138-142 | a rotated trajectory keeps the transducer at the same lever arm from the camera, measured with the rotated attitudes |
| `Georeferencing.AlignTrajectories` | Python/georeferencing.py:97-151 | every camera position, camera attitude and transducer position is transformed by the one combined rotation `q_2 q_1 q_i`, with the number of samples kept |
| `Georeferencing.AlignIsThreeRotations` | Python/georeferencing.py:116-125 | aligning with the combined rotation equals applying the inclination rotation, then the quarter turn about y, then the quarter turn about x |
| `Georeferencing.GeoreferenceTrajectories` | Python/georeferencing.py:153-211 | succeeds exactly when there is a first transducer sample; lengths are kept and the first transducer position lands on the absolute fix |
| `Georeferencing.GeoreferenceIsRigid` | Python/georeferencing.py:193-209 | the offset between any two output positions, camera or transducer, is the rotated input offset, and each attitude is left-multiplied by `q_yaw q_pitch q_roll` |
| `Georeferencing.GeoreferenceKeepsLeverArm` | Python/georeferencing.py:193-209 | georeferencing keeps the transducer at the lever arm from the camera in every sample, measured with the new attitudes |
| `Georeferencing.SlamRelativeStages` | Python/georeferencing.py:243-257 | the composed stages succeed exactly when the camera trajectory is non-empty, and then keep one camera attitude and one transducer position per camera position |
| `Georeferencing.SlamRelativeStagesEndToEnd` | Python/georeferencing.py:243-257 | after stages A, B and C the transducer starts at the absolute fix and in every sample sits at the lever arm from the camera as the final attitude orients it |
| `Georeferencing.SandwichProduct` | Python/georeferencing.py:304 | `q p q*` of the pure quaternion `p = (0, v)` is the pure quaternion of `v` rotated by `q` |
| `Georeferencing.NewBuffers` | Python/georeferencing.py:273-281 | three fresh, distinct buffers of one entry per lever arm: the attitudes all the zero quaternion, the directions all the x-axis and the lever arms as pure quaternions |
| `Georeferencing.CameraRound` | Python/georeferencing.py:286-309 | round `k` writes entry `k` of each buffer and nothing else: the lever arm rotated by the closest body attitude, the camera attitude `q_dec q_body`, and the x-axis rotated by that attitude; the finished part of each buffer grows from `k` entries to `k + 1` |
| `Georeferencing.CalculateCameraTrajectory` | Python/georeferencing.py:270-315 | one output per acoustic fix; the camera attitude is `q_dec` times the body rotation of the closest gyroscope sample; the camera position is the fix plus the lever arm rotated by the body rotation; the direction is the x-axis rotated by the camera attitude |
| `Georeferencing.CameraAtLeverArmDistance` | Python/georeferencing.py:301-314 | if the axis-angle quaternions about the x-, y- and z-axes are unit, every camera position lies at the lever arm's length from its fix |
| `Georeferencing.CameraAttitudeIsDeclinedBody` | Python/georeferencing.py:301-306 | rotating by a camera attitude is rotating by the body attitude and then by the declination |

## Left out

- The filter design and the filtering itself (`signal.firwin`,
  `signal.lfilter`) are SciPy routines outside this model. `FirFilter`
  models only the axis rule and the delay. Lengths through filtering are
  taken as a precondition of `PadFilterUnpadLength`.
- `FirFilter`: the sample frequency is a real number. The source starts it
  as the integer 0. The design's own checks in `signal.firwin` are not
  modelled: it rejects a sample frequency that is not positive and a cutoff
  outside `(0, fs/2)`. With `fs = 0` it therefore raises `ValueError` at
  src/filters.py:45, before the division at line 48 is reached. The model
  keeps only the division, and a zero frequency becomes an error result.
- `filter_hipap.py`, plotting, CSV loading and UTM conversion are not part
  of this model. Of the two driver functions, only the composition of the
  SLAM-relative stages is modelled.
- Arrays of more than two dimensions and NumPy broadcasting are not
  modelled. Matrices are rectangular sequences of rows. The trajectory
  stages require their per-sample arguments to have equal lengths, which
  their callers always pass; `georeference_trajectories`, and
  `align_trajectories` for the transducer positions, would accept other
  lengths.
- Floating-point rounding is not modelled; all arithmetic is over the
  reals. At zero radius the y and z components of `calculate_lever_arm`
  are not-a-number while x is still `-arm[0]`; the model returns `None`
  for the whole arm.
- `Georeferencing.LeverArmRadius`: sqrt, arccos, sine and cosine are
  uninterpreted parameters. The radius property therefore assumes, as
  preconditions, that the root squares back and that `sin^2 + cos^2 = 1` at
  the angle used.
- The `utilities` module (`quaternion_from_axis_angle`, `closest_point`,
  `vector_to_quaternion`, `quaternion_to_vector`) is not part of this
  model. `quaternion_from_axis_angle` and `closest_point` are parameters.
  The two vector conversions are `Pure` and `VectorPart`.
- `Georeferencing.CalculateCameraTrajectory`: requires `closest_point` to
  return an index within the gyroscope table. NumPy's wrap-around for a
  negative index and the `IndexError` for a large one are outside the
  model.
- `Georeferencing.CameraAtLeverArmDistance`: assumes, as a precondition,
  that the axis-angle quaternions about the x-, y- and z-axes are unit
  quaternions.
- The camera direction vectors that `calculate_transducer_trajectory`,
  `align_trajectories` and `georeference_trajectories` compute but never
  return are not modelled. The directions that
  `calculate_camera_trajectory` returns are modelled.
- The conversion of measured angles from degrees to radians happens in the
  driver code and is not modelled. All angles enter the model in radians.
- The external quaternion library is replaced by the `Quaternions` module.
  Its conversions to and from float arrays are the identity here.

## Findings

| source | as written | input that shows it | evidently intended | confidence | as-written member | corrected member |
|---|---|---|---|---|---|---|
| src/filters.py:32 | `indices[:a] + indices[-a:]` with `a == 0` gives `indices[:0] + indices[0:]`, every position, so `remove_appendage` deletes the whole axis | any non-empty series with `appendage == 0`, e.g. `[1.0, 2.0]`: `add_appendage` returns it unchanged, `remove_appendage` then returns `[]` | an appendage of zero removes nothing, so unpadding undoes padding for every accepted appendage | not executed | `Filters.RoundTripFailsWithZeroAppendage` | `Filters.IntendedPadUnpadRoundTrip` |
