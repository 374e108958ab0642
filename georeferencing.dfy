/** The trajectory transformation pipeline: the lever arm between camera and
    transducer, the transducer trajectory derived from a camera trajectory,
    the alignment of the visual-odometry frame, the georeferencing onto an
    absolute fix, and the camera trajectory derived from acoustic fixes and
    gyroscope attitudes. */
module Georeferencing {
  import opened Wrappers
  import opened Quaternions

  /** The numpy routines the lever-arm computation calls, given as values
      because Dafny has no square root or trigonometry. */
  datatype Numerics = Numerics(
    sqrt: real -> real,
    arccos: real -> real,
    sin: real -> real,
    cos: real -> real)

  /** The helpers of the `utilities` module, which is not part of this model:
      building a quaternion from a rotation axis and an angle, and finding
      the index of the timestamp closest to a given time. */
  datatype Utilities = Utilities(
    quaternionFromAxisAngle: (Vec3, real) -> Quat,
    closestPoint: (real, seq<real>) -> int)

  const XAxis: Vec3 := Vec3(1.0, 0.0, 0.0)
  const YAxis: Vec3 := Vec3(0.0, 1.0, 0.0)
  const ZAxis: Vec3 := Vec3(0.0, 0.0, 1.0)

  // ---------------------------------------------------------------------
  // calculate_lever_arm

  /** The radius c = sqrt(a^2 + b^2) of the measured legs a and b. */
  function LegRadius(arm: Vec3, m: Numerics): real {
    m.sqrt(arm.y * arm.y + arm.z * arm.z)
  }

  /** The angle phi = angle - arccos(b / c) that the lever-arm computation
      feeds to sine and cosine. */
  function LeverArmPhase(arm: Vec3, angle: real, m: Numerics): real
    requires LegRadius(arm, m) != 0.0
  {
    angle - m.arccos(arm.z / LegRadius(arm, m))
  }

  /** The lever arm in the camera frame, from an arm `(x, a, b)` measured in
      the vehicle frame and the camera's rotation `angle` about the shared
      x-axis: (-x, c sin phi, -c cos phi). A zero radius c divides b and
      yields no number (numpy's not-a-number), modelled as `None`. */
  function CalculateLeverArm(arm: Vec3, angle: real, m: Numerics): (r: Option<Vec3>)
    ensures r.None? <==> LegRadius(arm, m) == 0.0
    ensures r.Some? ==> r.value.x == -arm.x
  {
    var c := LegRadius(arm, m);
    if c == 0.0 then None
    else
      var phi := LeverArmPhase(arm, angle, m);
      var d := c * m.cos(phi);
      var e := c * m.sin(phi);
      Some(Vec3(-arm.x, e, -d))
  }

  /** The square root behaves as one on the legs: c^2 = a^2 + b^2. */
  predicate RadiusSquaresBack(arm: Vec3, m: Numerics) {
    LegRadius(arm, m) * LegRadius(arm, m) == arm.y * arm.y + arm.z * arm.z
  }

  /** Sine and cosine satisfy sin^2 + cos^2 = 1 at the angle `t`. */
  predicate Pythagorean(m: Numerics, t: real) {
    m.sin(t) * m.sin(t) + m.cos(t) * m.cos(t) == 1.0
  }

  /** When the camera is turned by exactly the angle arccos(b / c) of the
      measured legs, phi is zero and, given sin 0 = 0 and cos 0 = 1, the
      whole radius lies along the camera's negative z-axis: (-x, 0, -c). */
  lemma LeverArmAtLegAngle(arm: Vec3, angle: real, m: Numerics)
    requires LegRadius(arm, m) != 0.0
    requires angle == m.arccos(arm.z / LegRadius(arm, m))
    requires m.sin(0.0) == 0.0 && m.cos(0.0) == 1.0
    ensures CalculateLeverArm(arm, angle, m) == Some(Vec3(-arm.x, 0.0, -LegRadius(arm, m)))
  {
    assert LeverArmPhase(arm, angle, m) == 0.0;
  }

  /** When sqrt squares back and sin^2 + cos^2 = 1 at the angle used, the
      lever arm keeps its distance from the x-axis: the y and z parts of the
      result span the same radius as the measured legs a and b. */
  lemma LeverArmRadius(arm: Vec3, angle: real, m: Numerics)
    requires LegRadius(arm, m) != 0.0
    requires RadiusSquaresBack(arm, m)
    requires Pythagorean(m, LeverArmPhase(arm, angle, m))
    ensures var r := CalculateLeverArm(arm, angle, m);
      r.Some? && r.value.y * r.value.y + r.value.z * r.value.z == arm.y * arm.y + arm.z * arm.z
  {
    var r := CalculateLeverArm(arm, angle, m).value;
    var c, phi := LegRadius(arm, m), LeverArmPhase(arm, angle, m);
    assert r.y == c * m.sin(phi) && r.z == -(c * m.cos(phi));
    RotatedRadius(c, m.sin(phi), m.cos(phi), r.y, r.z, arm.y * arm.y + arm.z * arm.z);
  }

  /** Turning the point (0, c) by an angle with sine s and cosine k keeps
      its squared radius c^2. */
  lemma RotatedRadius(c: real, s: real, k: real, y: real, z: real, t: real)
    requires s * s + k * k == 1.0 && c * c == t
    requires y == c * s && z == -(c * k)
    ensures y * y + z * z == t
  {
    calc {
      y * y + z * z;
      (c * s) * (c * s) + (-(c * k)) * (-(c * k));
      c * c * (s * s + k * k);
    }
  }

  // ---------------------------------------------------------------------
  // calculate_transducer_trajectory

  /** Transducer position i is camera position i plus lever arm i, rotated
      by camera attitude i. All three sequences have one entry per sample. */
  ghost predicate LeverArmRelation(camPositions: seq<Vec3>, camAttitudes: seq<Quat>,
                                   leverArms: seq<Vec3>, transPositions: seq<Vec3>)
  {
    && |camAttitudes| == |camPositions|
    && |leverArms| == |camPositions|
    && |transPositions| == |camPositions|
    && forall i :: 0 <= i < |camPositions| ==>
         Sub(transPositions[i], camPositions[i]) == Rotate(camAttitudes[i], leverArms[i])
  }

  /** Stage A: the transducer trajectory of a camera trajectory. The camera
      direction vectors the source also computes here never leave the
      function and are not modelled. */
  function CalculateTransducerTrajectory(camPositions: seq<Vec3>, camAttitudes: seq<Quat>,
                                         leverArms: seq<Vec3>): (r: seq<Vec3>)
    requires |camAttitudes| == |camPositions| && |leverArms| == |camPositions|
    ensures LeverArmRelation(camPositions, camAttitudes, leverArms, r)
  {
    seq(|camPositions|, i requires 0 <= i < |camPositions| =>
      Add(camPositions[i], Rotate(camAttitudes[i], leverArms[i])))
  }

  /** With unit attitudes, the arm measured in the camera frame is recovered
      from the derived trajectory by rotating the camera-to-transducer
      offset back, and it has the same length as that offset. */
  lemma TransducerOffsetIsLeverArm(camPositions: seq<Vec3>, camAttitudes: seq<Quat>,
                                   leverArms: seq<Vec3>, i: int)
    requires |camAttitudes| == |camPositions| && |leverArms| == |camPositions|
    requires 0 <= i < |camPositions| && Norm2(camAttitudes[i]) == 1.0
    ensures var offset := Sub(CalculateTransducerTrajectory(camPositions, camAttitudes, leverArms)[i], camPositions[i]);
      && Rotate(Conj(camAttitudes[i]), offset) == leverArms[i]
      && Dot(offset, offset) == Dot(leverArms[i], leverArms[i])
  {
    var trans := CalculateTransducerTrajectory(camPositions, camAttitudes, leverArms);
    assert Sub(trans[i], camPositions[i]) == Rotate(camAttitudes[i], leverArms[i]);
    RotateConjInverse(camAttitudes[i], leverArms[i]);
    RotateNorm(camAttitudes[i], leverArms[i]);
  }

  /** With a zero lever arm the transducer follows the camera exactly,
      whatever the attitudes. */
  lemma ZeroLeverArmTransducerIsCamera(camPositions: seq<Vec3>, camAttitudes: seq<Quat>,
                                       leverArms: seq<Vec3>)
    requires |camAttitudes| == |camPositions| && |leverArms| == |camPositions|
    requires forall i :: 0 <= i < |leverArms| ==> leverArms[i] == Zero3
    ensures CalculateTransducerTrajectory(camPositions, camAttitudes, leverArms) == camPositions
  {
    var trans := CalculateTransducerTrajectory(camPositions, camAttitudes, leverArms);
    forall i | 0 <= i < |camPositions|
      ensures trans[i] == camPositions[i]
    {
      RotateZero(camAttitudes[i]);
    }
  }

  // ---------------------------------------------------------------------
  // Rotation of a whole trajectory, shared by alignment and georeferencing

  /** Camera positions, camera attitudes and transducer positions, in the
      order the stages return them. */
  datatype Trajectory = Trajectory(camPositions: seq<Vec3>, camAttitudes: seq<Quat>,
                                   transPositions: seq<Vec3>)
  {
    predicate SameLength() {
      |camAttitudes| == |camPositions| && |transPositions| == |camPositions|
    }
  }

  /** Re-expresses a trajectory in a frame rotated by `rotation`: positions
      by the sandwich product, attitudes by left multiplication. */
  function RotateTrajectory(t: Trajectory, rotation: Quat): (r: Trajectory)
    requires t.SameLength()
    ensures r.SameLength() && |r.camPositions| == |t.camPositions|
    ensures forall i :: 0 <= i < |t.camPositions| ==>
      && r.camPositions[i] == Rotate(rotation, t.camPositions[i])
      && r.camAttitudes[i] == Mul(rotation, t.camAttitudes[i])
      && r.transPositions[i] == Rotate(rotation, t.transPositions[i])
  {
    var n := |t.camPositions|;
    Trajectory(
      seq(n, i requires 0 <= i < n => Rotate(rotation, t.camPositions[i])),
      seq(n, i requires 0 <= i < n => Mul(rotation, t.camAttitudes[i])),
      seq(n, i requires 0 <= i < n => Rotate(rotation, t.transPositions[i])))
  }

  /** Rotating by q and then by p is rotating once by p q. */
  lemma RotateTrajectoryCompose(t: Trajectory, p: Quat, q: Quat)
    requires t.SameLength()
    ensures RotateTrajectory(RotateTrajectory(t, q), p) == RotateTrajectory(t, Mul(p, q))
  {
    var a := RotateTrajectory(RotateTrajectory(t, q), p);
    var b := RotateTrajectory(t, Mul(p, q));
    forall i | 0 <= i < |t.camPositions|
      ensures a.camPositions[i] == b.camPositions[i]
      ensures a.camAttitudes[i] == b.camAttitudes[i]
      ensures a.transPositions[i] == b.transPositions[i]
    {
      RotateMul(p, q, t.camPositions[i]);
      MulAssoc(p, q, t.camAttitudes[i]);
      RotateMul(p, q, t.transPositions[i]);
    }
  }

  /** A rotation of the whole trajectory keeps the transducer at the same
      lever arm from the camera, now measured with the rotated attitudes. */
  lemma RotateTrajectoryKeepsLeverArm(t: Trajectory, rotation: Quat, leverArms: seq<Vec3>)
    requires t.SameLength()
    requires LeverArmRelation(t.camPositions, t.camAttitudes, leverArms, t.transPositions)
    ensures var r := RotateTrajectory(t, rotation);
      LeverArmRelation(r.camPositions, r.camAttitudes, leverArms, r.transPositions)
  {
    var r := RotateTrajectory(t, rotation);
    forall i | 0 <= i < |t.camPositions|
      ensures Sub(r.transPositions[i], r.camPositions[i]) == Rotate(r.camAttitudes[i], leverArms[i])
    {
      calc {
        Sub(r.transPositions[i], r.camPositions[i]);
        Sub(Rotate(rotation, t.transPositions[i]), Rotate(rotation, t.camPositions[i]));
        { RotateSub(rotation, t.transPositions[i], t.camPositions[i]); }
        Rotate(rotation, Sub(t.transPositions[i], t.camPositions[i]));
        Rotate(rotation, Rotate(t.camAttitudes[i], leverArms[i]));
        { RotateMul(rotation, t.camAttitudes[i], leverArms[i]); }
        Rotate(Mul(rotation, t.camAttitudes[i]), leverArms[i]);
      }
    }
  }

  // ---------------------------------------------------------------------
  // align_trajectories

  /** The combined alignment rotation q2 q1 qi: the inclination correction
      qi about x, then a quarter turn q1 about y, then a quarter turn q2
      about x. */
  function AlignmentRotation(inclination: real, pi: real, u: Utilities): Quat {
    var qi := u.quaternionFromAxisAngle(XAxis, -inclination);
    var q1 := u.quaternionFromAxisAngle(YAxis, 90.0 * pi / 180.0);
    var q2 := u.quaternionFromAxisAngle(XAxis, 90.0 * pi / 180.0);
    Mul(Mul(q2, q1), qi)
  }

  /** Stage B: the trajectory in the levelled frame. The camera direction
      vectors the source also computes here are never returned and are not
      modelled. */
  function AlignTrajectories(camPositions: seq<Vec3>, camAttitudes: seq<Quat>,
                             transPositions: seq<Vec3>, inclination: real,
                             pi: real, u: Utilities): (r: Trajectory)
    requires |camAttitudes| == |camPositions| && |transPositions| == |camPositions|
    ensures r.SameLength() && |r.camPositions| == |camPositions|
    ensures var q := AlignmentRotation(inclination, pi, u);
      forall i :: 0 <= i < |camPositions| ==>
        && r.camPositions[i] == Rotate(q, camPositions[i])
        && r.camAttitudes[i] == Mul(q, camAttitudes[i])
        && r.transPositions[i] == Rotate(q, transPositions[i])
  {
    RotateTrajectory(Trajectory(camPositions, camAttitudes, transPositions),
                     AlignmentRotation(inclination, pi, u))
  }

  /** The single combined rotation equals the three elementary rotations
      applied one after the other, inclination first. */
  lemma AlignIsThreeRotations(camPositions: seq<Vec3>, camAttitudes: seq<Quat>,
                              transPositions: seq<Vec3>, inclination: real,
                              pi: real, u: Utilities)
    requires |camAttitudes| == |camPositions| && |transPositions| == |camPositions|
    ensures var t := Trajectory(camPositions, camAttitudes, transPositions);
      var qi := u.quaternionFromAxisAngle(XAxis, -inclination);
      var q1 := u.quaternionFromAxisAngle(YAxis, 90.0 * pi / 180.0);
      var q2 := u.quaternionFromAxisAngle(XAxis, 90.0 * pi / 180.0);
      AlignTrajectories(camPositions, camAttitudes, transPositions, inclination, pi, u)
        == RotateTrajectory(RotateTrajectory(RotateTrajectory(t, qi), q1), q2)
  {
    var t := Trajectory(camPositions, camAttitudes, transPositions);
    var qi := u.quaternionFromAxisAngle(XAxis, -inclination);
    var q1 := u.quaternionFromAxisAngle(YAxis, 90.0 * pi / 180.0);
    var q2 := u.quaternionFromAxisAngle(XAxis, 90.0 * pi / 180.0);
    RotateTrajectoryCompose(t, q1, qi);
    RotateTrajectoryCompose(t, q2, Mul(q1, qi));
    MulAssoc(q2, q1, qi);
  }

  // ---------------------------------------------------------------------
  // georeference_trajectories

  /** The error `georeference_trajectories` raises. */
  datatype GeoreferenceError = EmptyTrajectory  // no first transducer sample (IndexError)

  /** The rotation q_yaw q_pitch q_roll of the initial attitude (roll,
      pitch, yaw) about the x-, y- and z-axes. */
  function InitialRotation(initAttitude: Vec3, u: Utilities): Quat {
    var qRoll := u.quaternionFromAxisAngle(XAxis, initAttitude.x);
    var qPitch := u.quaternionFromAxisAngle(YAxis, initAttitude.y);
    var qYaw := u.quaternionFromAxisAngle(ZAxis, initAttitude.z);
    Mul(Mul(qYaw, qPitch), qRoll)
  }

  /** Every position p moved to (p - from) + to. */
  function Translate(positions: seq<Vec3>, from: Vec3, to: Vec3): (r: seq<Vec3>)
    ensures |r| == |positions|
  {
    seq(|positions|, i requires 0 <= i < |positions| => Add(Sub(positions[i], from), to))
  }

  /** Stage C: rotate everything by the initial attitude, then shift camera
      and transducer alike so that the first transducer sample lands on
      `initPosition`. The camera direction vectors the source also computes
      here are never returned and are not modelled. */
  function GeoreferenceTrajectories(camPositions: seq<Vec3>, camAttitudes: seq<Quat>,
                                    transPositions: seq<Vec3>, initPosition: Vec3,
                                    initAttitude: Vec3, u: Utilities): (r: Result<Trajectory, GeoreferenceError>)
    requires |camAttitudes| == |camPositions| && |transPositions| == |camPositions|
    ensures r.Ok? <==> |transPositions| > 0
    ensures r.Ok? ==> r.value.SameLength() && |r.value.camPositions| == |camPositions|
    ensures r.Ok? ==> r.value.transPositions[0] == initPosition
  {
    if |transPositions| == 0 then Err(EmptyTrajectory)
    else
      var rotated := RotateTrajectory(Trajectory(camPositions, camAttitudes, transPositions),
                                      InitialRotation(initAttitude, u));
      var transInit := rotated.transPositions[0];
      Ok(Trajectory(Translate(rotated.camPositions, transInit, initPosition),
                    rotated.camAttitudes,
                    Translate(rotated.transPositions, transInit, initPosition)))
  }

  lemma AddSubCancel(p: Vec3, q: Vec3, from: Vec3, to: Vec3)
    ensures Sub(Add(Sub(p, from), to), Add(Sub(q, from), to)) == Sub(p, q)
  {
  }

  /** Georeferencing is a rigid motion: the offset between any two positions
      of the output, camera or transducer, is the rotated offset between the
      same two positions of the input, and the attitudes are the rotated
      input attitudes. */
  lemma GeoreferenceIsRigid(camPositions: seq<Vec3>, camAttitudes: seq<Quat>,
                            transPositions: seq<Vec3>, initPosition: Vec3,
                            initAttitude: Vec3, u: Utilities, i: int, j: int)
    requires |camAttitudes| == |camPositions| && |transPositions| == |camPositions|
    requires 0 <= i < |camPositions| && 0 <= j < |camPositions|
    ensures var r := GeoreferenceTrajectories(camPositions, camAttitudes, transPositions,
                                              initPosition, initAttitude, u);
      var q := InitialRotation(initAttitude, u);
      && r.Ok?
      && Sub(r.value.camPositions[i], r.value.transPositions[j]) == Rotate(q, Sub(camPositions[i], transPositions[j]))
      && Sub(r.value.transPositions[i], r.value.transPositions[j]) == Rotate(q, Sub(transPositions[i], transPositions[j]))
      && Sub(r.value.camPositions[i], r.value.camPositions[j]) == Rotate(q, Sub(camPositions[i], camPositions[j]))
      && r.value.camAttitudes[i] == Mul(q, camAttitudes[i])
  {
    var q := InitialRotation(initAttitude, u);
    var rotated := RotateTrajectory(Trajectory(camPositions, camAttitudes, transPositions), q);
    var t0 := rotated.transPositions[0];
    AddSubCancel(rotated.camPositions[i], rotated.transPositions[j], t0, initPosition);
    AddSubCancel(rotated.transPositions[i], rotated.transPositions[j], t0, initPosition);
    AddSubCancel(rotated.camPositions[i], rotated.camPositions[j], t0, initPosition);
    RotateSub(q, camPositions[i], transPositions[j]);
    RotateSub(q, transPositions[i], transPositions[j]);
    RotateSub(q, camPositions[i], camPositions[j]);
  }

  /** Georeferencing keeps the transducer at the same lever arm from the
      camera in every sample, measured with the georeferenced attitudes. */
  lemma GeoreferenceKeepsLeverArm(camPositions: seq<Vec3>, camAttitudes: seq<Quat>,
                                  transPositions: seq<Vec3>, initPosition: Vec3,
                                  initAttitude: Vec3, u: Utilities, leverArms: seq<Vec3>)
    requires LeverArmRelation(camPositions, camAttitudes, leverArms, transPositions)
    requires |camPositions| > 0
    ensures var r := GeoreferenceTrajectories(camPositions, camAttitudes, transPositions,
                                              initPosition, initAttitude, u);
      r.Ok? && LeverArmRelation(r.value.camPositions, r.value.camAttitudes, leverArms, r.value.transPositions)
  {
    var q := InitialRotation(initAttitude, u);
    var t := Trajectory(camPositions, camAttitudes, transPositions);
    var rotated := RotateTrajectory(t, q);
    RotateTrajectoryKeepsLeverArm(t, q, leverArms);
    var r := GeoreferenceTrajectories(camPositions, camAttitudes, transPositions,
                                      initPosition, initAttitude, u).value;
    var t0 := rotated.transPositions[0];
    forall i | 0 <= i < |camPositions|
      ensures Sub(r.transPositions[i], r.camPositions[i]) == Rotate(r.camAttitudes[i], leverArms[i])
    {
      AddSubCancel(rotated.transPositions[i], rotated.camPositions[i], t0, initPosition);
    }
  }

  // ---------------------------------------------------------------------
  // The stages of SLAM-relative georeferencing

  /** Stages A, B and C in the order SLAM-relative georeferencing runs them,
      with the same lever arm for every sample. */
  function SlamRelativeStages(camPositions: seq<Vec3>, camAttitudes: seq<Quat>, leverArm: Vec3,
                              inclination: real, initPosition: Vec3, initAttitude: Vec3,
                              pi: real, u: Utilities): (r: Result<Trajectory, GeoreferenceError>)
    requires |camAttitudes| == |camPositions|
    ensures r.Ok? <==> |camPositions| > 0
    ensures r.Ok? ==> r.value.SameLength() && |r.value.camPositions| == |camPositions|
  {
    var leverArms := seq(|camPositions|, _ => leverArm);
    var transPositions := CalculateTransducerTrajectory(camPositions, camAttitudes, leverArms);
    var aligned := AlignTrajectories(camPositions, camAttitudes, transPositions, inclination, pi, u);
    GeoreferenceTrajectories(aligned.camPositions, aligned.camAttitudes, aligned.transPositions,
                             initPosition, initAttitude, u)
  }

  /** After all three stages the transducer starts at the absolute fix and,
      in every sample, sits at the lever arm from the camera as the final
      camera attitude orients it. */
  lemma SlamRelativeStagesEndToEnd(camPositions: seq<Vec3>, camAttitudes: seq<Quat>, leverArm: Vec3,
                                   inclination: real, initPosition: Vec3, initAttitude: Vec3,
                                   pi: real, u: Utilities)
    requires |camAttitudes| == |camPositions| && |camPositions| > 0
    ensures var r := SlamRelativeStages(camPositions, camAttitudes, leverArm, inclination,
                                        initPosition, initAttitude, pi, u);
      && r.Ok?
      && r.value.transPositions[0] == initPosition
      && LeverArmRelation(r.value.camPositions, r.value.camAttitudes,
                          seq(|camPositions|, _ => leverArm), r.value.transPositions)
  {
    var leverArms := seq(|camPositions|, _ => leverArm);
    var transPositions := CalculateTransducerTrajectory(camPositions, camAttitudes, leverArms);
    var t := Trajectory(camPositions, camAttitudes, transPositions);
    var q := AlignmentRotation(inclination, pi, u);
    RotateTrajectoryKeepsLeverArm(t, q, leverArms);
    var aligned := AlignTrajectories(camPositions, camAttitudes, transPositions, inclination, pi, u);
    GeoreferenceKeepsLeverArm(aligned.camPositions, aligned.camAttitudes, aligned.transPositions,
                              initPosition, initAttitude, u, leverArms);
  }

  // ---------------------------------------------------------------------
  // calculate_camera_trajectory

  /** A row of the acoustic positioning table: time and position (northing,
      easting, depth). */
  datatype ApsFix = ApsFix(time: real, position: Vec3)

  /** A row of the gyroscope table: time and attitude (roll, pitch, heading)
      in radians. */
  datatype GyroSample = GyroSample(time: real, attitude: Vec3)

  function GyroTimes(gyro: seq<GyroSample>): (r: seq<real>)
    ensures |r| == |gyro| && forall j :: 0 <= j < |gyro| ==> r[j] == gyro[j].time
  {
    seq(|gyro|, j requires 0 <= j < |gyro| => gyro[j].time)
  }

  /** `closest_point` picks, for every fix, a gyroscope sample that exists. */
  ghost predicate ClosestInRange(aps: seq<ApsFix>, gyro: seq<GyroSample>, u: Utilities) {
    forall k :: 0 <= k < |aps| ==> 0 <= ClosestSample(aps, gyro, u, k) < |gyro|
  }

  /** The body attitude q_roll q_pitch q_yaw of a gyroscope attitude. */
  function BodyAttitude(attitude: Vec3, u: Utilities): Quat {
    var qRoll := u.quaternionFromAxisAngle(XAxis, attitude.x);
    var qPitch := u.quaternionFromAxisAngle(YAxis, attitude.y);
    var qYaw := u.quaternionFromAxisAngle(ZAxis, attitude.z);
    Mul(Mul(qRoll, qPitch), qYaw)
  }

  /** The gyroscope sample `closest_point` picks for fix k. */
  function ClosestSample(aps: seq<ApsFix>, gyro: seq<GyroSample>, u: Utilities, k: int): int
    requires 0 <= k < |aps|
  {
    u.closestPoint(aps[k].time, GyroTimes(gyro))
  }

  /** The body attitude at fix k: that of the gyroscope sample closest in
      time. */
  function BodyAt(aps: seq<ApsFix>, gyro: seq<GyroSample>, u: Utilities, k: int): Quat
    requires ClosestInRange(aps, gyro, u) && 0 <= k < |aps|
  {
    BodyAttitude(gyro[ClosestSample(aps, gyro, u, k)].attitude, u)
  }

  /** q_dec, the rotation by the declination about the y axis. */
  function DeclinationRotation(declination: real, u: Utilities): Quat {
    u.quaternionFromAxisAngle(YAxis, declination)
  }

  /** The camera attitude at fix k: the declination rotation after the body
      attitude. */
  function CameraAttitudeAt(aps: seq<ApsFix>, gyro: seq<GyroSample>, u: Utilities,
                            declination: real, k: int): Quat
    requires ClosestInRange(aps, gyro, u) && 0 <= k < |aps|
  {
    Mul(DeclinationRotation(declination, u), BodyAt(aps, gyro, u, k))
  }

  /** The camera position at fix k: the fix plus the lever arm rotated by the
      body attitude (not by the camera attitude). */
  function CameraPositionAt(aps: seq<ApsFix>, gyro: seq<GyroSample>, u: Utilities,
                            leverArms: seq<Vec3>, k: int): Vec3
    requires ClosestInRange(aps, gyro, u) && 0 <= k < |aps| && |leverArms| == |aps|
  {
    Add(aps[k].position, Rotate(BodyAt(aps, gyro, u, k), leverArms[k]))
  }

  /** The sandwich product q p q*, as the loop writes it out with the
      quaternion library's operators; on a pure quaternion it is the rotation
      of that vector. */
  method SandwichProduct(q: Quat, p: Quat, ghost v: Vec3) returns (r: Quat)
    requires p == Pure(v)
    ensures r == Pure(Rotate(q, v))
  {
    r := Mul(Mul(q, p), Conj(q));
  }

  /** The camera trajectory of acoustic fixes, gyroscope attitudes and lever
      arms. The loop fills three arrays allocated up front, writing only
      entry k in round k. */
  method CalculateCameraTrajectory(aps: seq<ApsFix>, gyro: seq<GyroSample>, leverArms: seq<Vec3>,
                                   declination: real, u: Utilities)
    returns (camPositions: seq<Vec3>, camAttitudes: seq<Quat>, camDirections: seq<Vec3>)
    requires |leverArms| == |aps|
    requires ClosestInRange(aps, gyro, u)
    ensures |camPositions| == |aps| && |camAttitudes| == |aps| && |camDirections| == |aps|
    ensures forall k :: 0 <= k < |aps| ==>
      && camPositions[k] == CameraPositionAt(aps, gyro, u, leverArms, k)
      && camAttitudes[k] == CameraAttitudeAt(aps, gyro, u, declination, k)
      && camDirections[k] == Rotate(camAttitudes[k], XAxis)
  {
    var n := |aps|;
    var attitudes, directions, arms := NewBuffers(leverArms);
    var qDec := DeclinationRotation(declination, u);
    ghost var initAtts := attitudes[..];
    ghost var wantArms := RotatedArms(aps, gyro, u, leverArms);
    ghost var wantAtts := CameraAttitudes(aps, gyro, u, declination);
    ghost var wantDirs := CameraDirections(aps, gyro, u, declination);

    for k := 0 to n
      invariant arms[..] == Filled(wantArms, Pures(leverArms), k)
      invariant attitudes[..] == Filled(wantAtts, initAtts, k)
      invariant directions[..] == Filled(wantDirs, XAxes(n), k)
    {
      CameraRound(aps, gyro, leverArms, declination, u, qDec, k, arms, attitudes, directions, initAtts);
    }

    FilledAll(wantArms, Pures(leverArms));
    FilledAll(wantAtts, initAtts);
    FilledAll(wantDirs, XAxes(n));
    // quaternion_to_vector, and the fixes plus the rotated lever arms
    camDirections := VectorParts(directions[..]);
    camPositions := AddToFixes(aps, VectorParts(arms[..]));
    camAttitudes := attitudes[..];
    BuffersGiveTrajectory(aps, gyro, u, leverArms, declination);
  }

  /** The three buffers as allocated: zero attitudes, and the x-axis
      directions and the lever arms as pure quaternions. */
  method NewBuffers(leverArms: seq<Vec3>) returns (attitudes: array<Quat>, directions: array<Quat>, arms: array<Quat>)
    ensures fresh(attitudes) && fresh(directions) && fresh(arms)
    ensures arms != attitudes && arms != directions && attitudes != directions
    ensures attitudes[..] == seq(|leverArms|, _ => Quat(0.0, 0.0, 0.0, 0.0))
    ensures directions[..] == XAxes(|leverArms|) && arms[..] == Pures(leverArms)
  {
    var n := |leverArms|;
    attitudes := new Quat[n](_ => Quat(0.0, 0.0, 0.0, 0.0));
    directions := new Quat[n](_ => Pure(XAxis));
    arms := new Quat[n](i requires 0 <= i < n => Pure(leverArms[i]));
    assert directions[..] == XAxes(n) && arms[..] == Pures(leverArms);
    assert attitudes[..] == seq(n, _ => Quat(0.0, 0.0, 0.0, 0.0));
  }

  /** Round k of the loop: the gyroscope sample closest to fix k gives the
      body attitude `q_roll q_pitch q_yaw`; entry k of the lever-arm buffer
      is rotated by it, and the camera attitude `q_dec q_body` is stored and
      rotates entry k of the direction buffer. The filled part of each
      buffer grows by that one entry. */
  method CameraRound(aps: seq<ApsFix>, gyro: seq<GyroSample>, leverArms: seq<Vec3>,
                     declination: real, u: Utilities, qDec: Quat, k: int,
                     arms: array<Quat>, attitudes: array<Quat>, directions: array<Quat>,
                     ghost initAtts: seq<Quat>)
    requires ClosestInRange(aps, gyro, u) && |leverArms| == |aps| && 0 <= k < |aps|
    requires qDec == DeclinationRotation(declination, u)
    requires arms != attitudes && arms != directions && attitudes != directions
    requires |initAtts| == |aps|
    requires arms[..] == Filled(RotatedArms(aps, gyro, u, leverArms), Pures(leverArms), k)
    requires attitudes[..] == Filled(CameraAttitudes(aps, gyro, u, declination), initAtts, k)
    requires directions[..] == Filled(CameraDirections(aps, gyro, u, declination), XAxes(|aps|), k)
    modifies arms, attitudes, directions
    ensures arms[..] == Filled(RotatedArms(aps, gyro, u, leverArms), Pures(leverArms), k + 1)
    ensures attitudes[..] == Filled(CameraAttitudes(aps, gyro, u, declination), initAtts, k + 1)
    ensures directions[..] == Filled(CameraDirections(aps, gyro, u, declination), XAxes(|aps|), k + 1)
  {
    ghost var wantArms := RotatedArms(aps, gyro, u, leverArms);
    ghost var wantAtts := CameraAttitudes(aps, gyro, u, declination);
    ghost var wantDirs := CameraDirections(aps, gyro, u, declination);
    FilledAt(wantArms, Pures(leverArms), k);
    FilledAt(wantDirs, XAxes(|aps|), k);
    FilledStep(wantArms, Pures(leverArms), k);
    FilledStep(wantAtts, initAtts, k);
    FilledStep(wantDirs, XAxes(|aps|), k);
    var j := ClosestSample(aps, gyro, u, k);
    var gyroAttitude := gyro[j].attitude;
    // q_roll q_pitch q_yaw
    var qBody := BodyAttitude(gyroAttitude, u);
    var arm := SandwichProduct(qBody, arms[k], leverArms[k]);
    var qCam := Mul(qDec, qBody);
    var dir := SandwichProduct(qCam, directions[k], XAxis);
    arms[k] := arm;
    directions[k] := dir;
    attitudes[k] := qCam;
  }

  /** What the lever-arm buffer holds once filled: each lever arm rotated by
      the body attitude, as a pure quaternion. */
  ghost function RotatedArms(aps: seq<ApsFix>, gyro: seq<GyroSample>, u: Utilities,
                             leverArms: seq<Vec3>): (r: seq<Quat>)
    requires ClosestInRange(aps, gyro, u) && |leverArms| == |aps|
    ensures |r| == |aps|
  {
    seq(|aps|, i requires 0 <= i < |aps| => Pure(Rotate(BodyAt(aps, gyro, u, i), leverArms[i])))
  }

  /** What the attitude buffer holds once filled. */
  ghost function CameraAttitudes(aps: seq<ApsFix>, gyro: seq<GyroSample>, u: Utilities,
                                 declination: real): (r: seq<Quat>)
    requires ClosestInRange(aps, gyro, u)
    ensures |r| == |aps|
  {
    seq(|aps|, i requires 0 <= i < |aps| => CameraAttitudeAt(aps, gyro, u, declination, i))
  }

  /** What the direction buffer holds once filled: the x-axis rotated by each
      camera attitude, as a pure quaternion. */
  ghost function CameraDirections(aps: seq<ApsFix>, gyro: seq<GyroSample>, u: Utilities,
                                  declination: real): (r: seq<Quat>)
    requires ClosestInRange(aps, gyro, u)
    ensures |r| == |aps|
  {
    seq(|aps|, i requires 0 <= i < |aps| => Pure(Rotate(CameraAttitudeAt(aps, gyro, u, declination, i), XAxis)))
  }

  /** n copies of the x-axis as a pure quaternion. */
  function XAxes(n: nat): (r: seq<Quat>)
    ensures |r| == n && forall i :: 0 <= i < n ==> r[i] == Pure(XAxis)
  {
    seq(n, _ => Pure(XAxis))
  }

  /** The pure quaternions of a sequence of vectors. */
  function Pures(vs: seq<Vec3>): (r: seq<Quat>)
    ensures |r| == |vs| && forall i :: 0 <= i < |vs| ==> r[i] == Pure(vs[i])
  {
    seq(|vs|, i requires 0 <= i < |vs| => Pure(vs[i]))
  }

  /** The vector parts of a sequence of quaternions. */
  function VectorParts(qs: seq<Quat>): (r: seq<Vec3>)
    ensures |r| == |qs| && forall i :: 0 <= i < |qs| ==> r[i] == VectorPart(qs[i])
  {
    seq(|qs|, i requires 0 <= i < |qs| => VectorPart(qs[i]))
  }

  /** Every fix position plus the offset of the same row. */
  function AddToFixes(aps: seq<ApsFix>, offsets: seq<Vec3>): (r: seq<Vec3>)
    requires |offsets| == |aps|
    ensures |r| == |aps| && forall i :: 0 <= i < |aps| ==> r[i] == Add(aps[i].position, offsets[i])
  {
    seq(|aps|, i requires 0 <= i < |aps| => Add(aps[i].position, offsets[i]))
  }

  /** The three buffers, once filled, give the promised trajectory. */
  lemma BuffersGiveTrajectory(aps: seq<ApsFix>, gyro: seq<GyroSample>, u: Utilities, leverArms: seq<Vec3>,
                              declination: real)
    requires ClosestInRange(aps, gyro, u) && |leverArms| == |aps|
    ensures var positions := AddToFixes(aps, VectorParts(RotatedArms(aps, gyro, u, leverArms)));
            var atts := CameraAttitudes(aps, gyro, u, declination);
            var directions := VectorParts(CameraDirections(aps, gyro, u, declination));
            forall k :: 0 <= k < |aps| ==>
              && positions[k] == CameraPositionAt(aps, gyro, u, leverArms, k)
              && atts[k] == CameraAttitudeAt(aps, gyro, u, declination, k)
              && directions[k] == Rotate(atts[k], XAxis)
  {
    var atts := CameraAttitudes(aps, gyro, u, declination);
    forall k | 0 <= k < |aps|
      ensures AddToFixes(aps, VectorParts(RotatedArms(aps, gyro, u, leverArms)))[k]
              == CameraPositionAt(aps, gyro, u, leverArms, k)
      ensures VectorParts(CameraDirections(aps, gyro, u, declination))[k] == Rotate(atts[k], XAxis)
    {
      VectorPartOfPure(Rotate(BodyAt(aps, gyro, u, k), leverArms[k]));
      VectorPartOfPure(Rotate(atts[k], XAxis));
    }
  }

  /** The buffer after round k: entries before k already written, the rest
      still as allocated. */
  function Filled<T>(want: seq<T>, init: seq<T>, k: int): (r: seq<T>)
    requires |want| == |init| && 0 <= k <= |want|
    ensures |r| == |want|
  {
    want[..k] + init[k..]
  }

  /** Before round k, entry k is still as allocated. */
  lemma FilledAt<T>(want: seq<T>, init: seq<T>, k: int)
    requires |want| == |init| && 0 <= k < |want|
    ensures Filled(want, init, k)[k] == init[k]
  {
  }

  /** Round k writes entry k. */
  lemma FilledStep<T>(want: seq<T>, init: seq<T>, k: int)
    requires |want| == |init| && 0 <= k < |want|
    ensures Filled(want, init, k)[k := want[k]] == Filled(want, init, k + 1)
  {
  }

  /** After the last round every entry is written. */
  lemma FilledAll<T>(want: seq<T>, init: seq<T>)
    requires |want| == |init|
    ensures Filled(want, init, |want|) == want
  {
  }

  /** With unit elementary rotations, every estimated camera position lies at
      the lever arm's length from its acoustic fix. */
  lemma CameraAtLeverArmDistance(aps: seq<ApsFix>, gyro: seq<GyroSample>, u: Utilities,
                                 leverArms: seq<Vec3>, k: int)
    requires ClosestInRange(aps, gyro, u) && 0 <= k < |aps| && |leverArms| == |aps|
    requires forall angle: real ::
      && Norm2(u.quaternionFromAxisAngle(XAxis, angle)) == 1.0
      && Norm2(u.quaternionFromAxisAngle(YAxis, angle)) == 1.0
      && Norm2(u.quaternionFromAxisAngle(ZAxis, angle)) == 1.0
    ensures var offset := Sub(CameraPositionAt(aps, gyro, u, leverArms, k), aps[k].position);
      Dot(offset, offset) == Dot(leverArms[k], leverArms[k])
  {
    var att := gyro[ClosestSample(aps, gyro, u, k)].attitude;
    var qRoll := u.quaternionFromAxisAngle(XAxis, att.x);
    var qPitch := u.quaternionFromAxisAngle(YAxis, att.y);
    var qYaw := u.quaternionFromAxisAngle(ZAxis, att.z);
    Norm2Mul(qRoll, qPitch);
    Norm2Mul(Mul(qRoll, qPitch), qYaw);
    var body := BodyAt(aps, gyro, u, k);
    assert Norm2(body) == 1.0;
    RotateNorm(body, leverArms[k]);
    assert Sub(Add(aps[k].position, Rotate(body, leverArms[k])), aps[k].position) == Rotate(body, leverArms[k]);
  }

  /** The camera attitude turns a vector as the body attitude does, then by
      the declination; the lever arm sees only the first of the two. */
  lemma CameraAttitudeIsDeclinedBody(aps: seq<ApsFix>, gyro: seq<GyroSample>, u: Utilities,
                                     declination: real, k: int, v: Vec3)
    requires ClosestInRange(aps, gyro, u) && 0 <= k < |aps|
    ensures Rotate(CameraAttitudeAt(aps, gyro, u, declination, k), v)
         == Rotate(DeclinationRotation(declination, u), Rotate(BodyAt(aps, gyro, u, k), v))
  {
    RotateMul(DeclinationRotation(declination, u), BodyAt(aps, gyro, u, k), v);
  }
}
