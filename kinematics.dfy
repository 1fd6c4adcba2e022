/**
 * The kinematics library: angles at a joint, per-joint velocity and acceleration series,
 * range of motion, left/right symmetry, moving-average smoothing and peak detection.
 *
 * The Euclidean length `Math.sqrt(x*x + y*y + z*z)` and `Math.acos(c) * 180 / PI` are not
 * computable on reals, so callers pass them in, constrained to what the library relies on.
 */
module Kinematics {
  import opened Basics
  import opened PoseTypes

  /** A vector length: never negative and zero exactly for the zero vector. */
  type NormFn = f: Vec3 -> real | forall v :: 0.0 <= f(v) && (f(v) == 0.0 <==> v == Vec3(0.0, 0.0, 0.0))
    witness (v: Vec3) => if v == Vec3(0.0, 0.0, 0.0) then 0.0 else 1.0

  /** Arc cosine in degrees: maps [-1, 1] into [0, 180]. */
  type AcosDegFn = f: real -> real | forall c :: -1.0 <= c <= 1.0 ==> 0.0 <= f(c) <= 180.0
    witness (c: real) => 90.0

  function Position(l: PoseLandmark): Vec3
  {
    Vec3(l.x, l.y, l.z)
  }

  function Sub(a: Vec3, b: Vec3): Vec3
  {
    Vec3(a.x - b.x, a.y - b.y, a.z - b.z)
  }

  function Dot(a: Vec3, b: Vec3): real
  {
    a.x * b.x + a.y * b.y + a.z * b.z
  }

  /** Euclidean distance between two points. */
  function Distance3D(norm: NormFn, p1: Vec3, p2: Vec3): (d: real)
    ensures d >= 0.0
    ensures d == 0.0 <==> p1 == p2
  {
    var v := Sub(p2, p1);
    assert v == Vec3(0.0, 0.0, 0.0) <==> p1 == p2;
    norm(v)
  }

  /** `Math.max(-1, Math.min(1, c))` */
  function ClampUnit(c: real): (r: real)
    ensures -1.0 <= r <= 1.0
    ensures -1.0 <= c <= 1.0 ==> r == c
    ensures c > 1.0 ==> r == 1.0
    ensures c < -1.0 ==> r == -1.0
  {
    MaxReal(-1.0, MinReal(1.0, c))
  }

  /** The angle at `p2` between the rays towards `p1` and `p3`, in degrees. */
  function CalculateAngle(norm: NormFn, acosDeg: AcosDegFn, p1: PoseLandmark, p2: PoseLandmark, p3: PoseLandmark): (a: real)
    ensures 0.0 <= a <= 180.0
    ensures Position(p1) == Position(p2) || Position(p3) == Position(p2) ==> a == 0.0
    ensures Position(p1) != Position(p2) && Position(p3) != Position(p2) ==>
      exists c :: -1.0 <= c <= 1.0 && a == acosDeg(c)
  {
    var v1 := Sub(Position(p1), Position(p2));
    var v2 := Sub(Position(p3), Position(p2));
    var mag1 := Distance3D(norm, Position(p2), Position(p1));
    var mag2 := Distance3D(norm, Position(p2), Position(p3));
    assert v1 == Sub(Position(p1), Position(p2));
    if mag1 == 0.0 || mag2 == 0.0 then 0.0
    else
      var c := ClampUnit(Dot(v1, v2) / (mag1 * mag2));
      acosDeg(c)
  }

  /** The angle does not depend on which end ray is named first. */
  lemma AngleSymmetric(norm: NormFn, acosDeg: AcosDegFn, p1: PoseLandmark, p2: PoseLandmark, p3: PoseLandmark)
    ensures CalculateAngle(norm, acosDeg, p1, p2, p3) == CalculateAngle(norm, acosDeg, p3, p2, p1)
  {
    var v1 := Sub(Position(p1), Position(p2));
    var v2 := Sub(Position(p3), Position(p2));
    assert Dot(v1, v2) == Dot(v2, v1);
    var mag1 := Distance3D(norm, Position(p2), Position(p1));
    var mag2 := Distance3D(norm, Position(p2), Position(p3));
    assert mag1 * mag2 == mag2 * mag1;
  }

  /** The eight angles the analysis reports. */
  datatype AngleKind =
    | LeftElbowAngle | RightElbowAngle
    | LeftShoulderAngle | RightShoulderAngle
    | LeftHipAngle | RightHipAngle
    | LeftKneeAngle | RightKneeAngle

  /** The three landmarks of each angle: (end, vertex, end). */
  function AngleJoints(k: AngleKind): (nat, nat, nat)
  {
    match k
    case LeftElbowAngle => (LeftShoulder, LeftElbow, LeftWrist)
    case RightElbowAngle => (RightShoulder, RightElbow, RightWrist)
    case LeftShoulderAngle => (LeftHip, LeftShoulder, LeftElbow)
    case RightShoulderAngle => (RightHip, RightShoulder, RightElbow)
    case LeftHipAngle => (LeftShoulder, LeftHip, LeftKnee)
    case RightHipAngle => (RightShoulder, RightHip, RightKnee)
    case LeftKneeAngle => (LeftHip, LeftKnee, LeftAnkle)
    case RightKneeAngle => (RightHip, RightKnee, RightAnkle)
  }

  /** The right-side angle of the same joint. */
  function RightOf(k: AngleKind): AngleKind
  {
    match k
    case LeftElbowAngle => RightElbowAngle
    case LeftShoulderAngle => RightShoulderAngle
    case LeftHipAngle => RightHipAngle
    case LeftKneeAngle => RightKneeAngle
    case _ => k
  }

  predicate IsLeft(k: AngleKind)
  {
    k.LeftElbowAngle? || k.LeftShoulderAngle? || k.LeftHipAngle? || k.LeftKneeAngle?
  }

  /** Every right-side angle uses the landmarks of its left twin shifted by one, and all are below RIGHT_ANKLE + 1. */
  lemma AngleJointsMirrored(k: AngleKind)
    ensures AngleJoints(k).0 <= RightAnkle && AngleJoints(k).1 <= RightAnkle && AngleJoints(k).2 <= RightAnkle
    ensures IsLeft(k) ==>
      AngleJoints(RightOf(k)) == (AngleJoints(k).0 + 1, AngleJoints(k).1 + 1, AngleJoints(k).2 + 1)
  {
  }

  /** The record returned by `calculateJointAngles`. */
  datatype JointAngles = JointAngles(
    leftElbow: real, rightElbow: real,
    leftShoulder: real, rightShoulder: real,
    leftHip: real, rightHip: real,
    leftKnee: real, rightKnee: real)
  {
    function Get(k: AngleKind): real
    {
      match k
      case LeftElbowAngle => leftElbow
      case RightElbowAngle => rightElbow
      case LeftShoulderAngle => leftShoulder
      case RightShoulderAngle => rightShoulder
      case LeftHipAngle => leftHip
      case RightHipAngle => rightHip
      case LeftKneeAngle => leftKnee
      case RightKneeAngle => rightKnee
    }
  }

  /** The angle of kind `k` measured on one frame's landmarks. */
  function AngleAt(norm: NormFn, acosDeg: AcosDegFn, landmarks: seq<PoseLandmark>, k: AngleKind): (a: real)
    requires |landmarks| > RightAnkle
    ensures 0.0 <= a <= 180.0
  {
    var (a, b, c) := AngleJoints(k);
    CalculateAngle(norm, acosDeg, landmarks[a], landmarks[b], landmarks[c])
  }

  /** All eight angles of one frame; the source reads the landmarks unchecked, so a full body is required. */
  function CalculateJointAngles(norm: NormFn, acosDeg: AcosDegFn, landmarks: seq<PoseLandmark>): (r: JointAngles)
    requires |landmarks| > RightAnkle
    ensures 0.0 <= r.leftElbow <= 180.0 && 0.0 <= r.rightElbow <= 180.0
    ensures 0.0 <= r.leftShoulder <= 180.0 && 0.0 <= r.rightShoulder <= 180.0
    ensures 0.0 <= r.leftHip <= 180.0 && 0.0 <= r.rightHip <= 180.0
    ensures 0.0 <= r.leftKnee <= 180.0 && 0.0 <= r.rightKnee <= 180.0
  {
    JointAngles(
      AngleAt(norm, acosDeg, landmarks, LeftElbowAngle), AngleAt(norm, acosDeg, landmarks, RightElbowAngle),
      AngleAt(norm, acosDeg, landmarks, LeftShoulderAngle), AngleAt(norm, acosDeg, landmarks, RightShoulderAngle),
      AngleAt(norm, acosDeg, landmarks, LeftHipAngle), AngleAt(norm, acosDeg, landmarks, RightHipAngle),
      AngleAt(norm, acosDeg, landmarks, LeftKneeAngle), AngleAt(norm, acosDeg, landmarks, RightKneeAngle))
  }

  /** Each field of the record is the angle at that field's three landmarks. */
  lemma JointAnglesByKind(norm: NormFn, acosDeg: AcosDegFn, landmarks: seq<PoseLandmark>, k: AngleKind)
    requires |landmarks| > RightAnkle
    ensures CalculateJointAngles(norm, acosDeg, landmarks).Get(k) == AngleAt(norm, acosDeg, landmarks, k)
  {
    match k
    case LeftElbowAngle =>
    case RightElbowAngle =>
    case LeftShoulderAngle =>
    case RightShoulderAngle =>
    case LeftHipAngle =>
    case RightHipAngle =>
    case LeftKneeAngle =>
    case RightKneeAngle =>
  }

  /** Each angle depends only on its own three landmarks. */
  lemma JointAngleLocal(norm: NormFn, acosDeg: AcosDegFn, l1: seq<PoseLandmark>, l2: seq<PoseLandmark>, k: AngleKind)
    requires |l1| > RightAnkle && |l2| > RightAnkle
    requires l1[AngleJoints(k).0] == l2[AngleJoints(k).0]
    requires l1[AngleJoints(k).1] == l2[AngleJoints(k).1]
    requires l1[AngleJoints(k).2] == l2[AngleJoints(k).2]
    ensures CalculateJointAngles(norm, acosDeg, l1).Get(k) == CalculateJointAngles(norm, acosDeg, l2).Get(k)
  {
    JointAnglesByKind(norm, acosDeg, l1, k);
    JointAnglesByKind(norm, acosDeg, l2, k);
  }

  /** Seconds between two frames; timestamps are in milliseconds. */
  function ElapsedSeconds(prev: PoseFrame, curr: PoseFrame): real
  {
    (curr.timestamp - prev.timestamp) / 1000.0
  }

  /** The source reads the joint's landmark in both frames only when time moves forward. */
  predicate VelocityDefined(prev: PoseFrame, curr: PoseFrame, joint: nat)
  {
    ElapsedSeconds(prev, curr) > 0.0 ==> joint < |prev.landmarks| && joint < |curr.landmarks|
  }

  /** Dividing a non-negative amount by a positive one: the quotient is non-negative, zero only for zero, and scales back. */
  lemma DivisionByPositive(d: real, dt: real)
    requires d >= 0.0 && dt > 0.0
    ensures d / dt >= 0.0
    ensures d / dt == 0.0 <==> d == 0.0
    ensures (d / dt) * dt == d
  {
  }

  /** Speed of one joint between two frames, in units per second; zero when time does not advance. */
  function CalculateVelocity(norm: NormFn, prev: PoseFrame, curr: PoseFrame, joint: nat): (v: real)
    requires VelocityDefined(prev, curr, joint)
    ensures v >= 0.0
  {
    var dt := ElapsedSeconds(prev, curr);
    if dt <= 0.0 then 0.0
    else
      var d := Distance3D(norm, Position(prev.landmarks[joint]), Position(curr.landmarks[joint]));
      DivisionByPositive(d, dt);
      d / dt
  }

  /**
   * The speed is 0 when time does not advance; otherwise speed times elapsed seconds is the
   * distance moved, so the speed is 0 exactly when time stands still or the joint stays put.
   */
  lemma VelocityMeaning(norm: NormFn, prev: PoseFrame, curr: PoseFrame, joint: nat)
    requires VelocityDefined(prev, curr, joint)
    ensures ElapsedSeconds(prev, curr) <= 0.0 ==> CalculateVelocity(norm, prev, curr, joint) == 0.0
    ensures ElapsedSeconds(prev, curr) > 0.0 ==>
      CalculateVelocity(norm, prev, curr, joint) * ElapsedSeconds(prev, curr) ==
        Distance3D(norm, Position(prev.landmarks[joint]), Position(curr.landmarks[joint]))
    ensures CalculateVelocity(norm, prev, curr, joint) == 0.0 <==>
      ElapsedSeconds(prev, curr) <= 0.0 || Position(prev.landmarks[joint]) == Position(curr.landmarks[joint])
  {
    var dt := ElapsedSeconds(prev, curr);
    if dt > 0.0 {
      DivisionByPositive(Distance3D(norm, Position(prev.landmarks[joint]), Position(curr.landmarks[joint])), dt);
    }
  }

  predicate PairsDefined(frames: seq<PoseFrame>, joint: nat)
  {
    forall i :: 0 <= i < |frames| - 1 ==> VelocityDefined(frames[i], frames[i + 1], joint)
  }

  /** The velocity between each pair of consecutive frames. */
  function VelocitySeries(norm: NormFn, frames: seq<PoseFrame>, joint: nat): (r: seq<real>)
    requires PairsDefined(frames, joint)
    ensures |frames| < 2 ==> r == []
    ensures |frames| >= 2 ==> |r| == |frames| - 1
    ensures forall i {:trigger r[i]} :: 0 <= i < |r| ==> r[i] == CalculateVelocity(norm, frames[i], frames[i + 1], joint)
    ensures forall i :: 0 <= i < |r| ==> r[i] >= 0.0
  {
    if |frames| < 2 then []
    else seq(|frames| - 1, i requires 0 <= i < |frames| - 1 => CalculateVelocity(norm, frames[i], frames[i + 1], joint))
  }

  /** `calculateVelocities`: the loop pushes one velocity per consecutive pair. */
  method CalculateVelocities(norm: NormFn, frames: seq<PoseFrame>, joint: nat) returns (velocities: seq<real>)
    requires PairsDefined(frames, joint)
    ensures velocities == VelocitySeries(norm, frames, joint)
  {
    if |frames| < 2 {
      return [];
    }
    velocities := [];
    var i := 1;
    while i < |frames|
      invariant 1 <= i <= |frames|
      invariant |velocities| == i - 1
      invariant forall k {:trigger velocities[k]} :: 0 <= k < i - 1 ==> velocities[k] == CalculateVelocity(norm, frames[k], frames[k + 1], joint)
    {
      velocities := velocities + [CalculateVelocity(norm, frames[i - 1], frames[i], joint)];
      i := i + 1;
    }
  }

  /**
   * Whether the step into sample `i` has a positive duration. A timestamp past the end of the
   * list is `undefined` in the source, which makes the duration NaN and the test false.
   */
  predicate PositiveStep(timestamps: seq<real>, i: nat)
  {
    1 <= i < |timestamps| && (timestamps[i] - timestamps[i - 1]) / 1000.0 > 0.0
  }

  /** The rate of change of velocity into sample `i`, per second. */
  function AccelerationAt(velocities: seq<real>, timestamps: seq<real>, i: nat): real
    requires 1 <= i < |velocities| && PositiveStep(timestamps, i)
  {
    (velocities[i] - velocities[i - 1]) / ((timestamps[i] - timestamps[i - 1]) / 1000.0)
  }

  /** The accelerations of the steps into samples 1 .. n-1, skipping steps that take no time. */
  function AccelerationsUpTo(velocities: seq<real>, timestamps: seq<real>, n: nat): (r: seq<real>)
    requires n <= |velocities|
    ensures |r| <= if n == 0 then 0 else n - 1
    ensures forall k :: 0 <= k < |r| ==>
      exists i :: 1 <= i < n && PositiveStep(timestamps, i) && r[k] == AccelerationAt(velocities, timestamps, i)
  {
    if n <= 1 then []
    else
      var prefix := AccelerationsUpTo(velocities, timestamps, n - 1);
      if PositiveStep(timestamps, n - 1) then prefix + [AccelerationAt(velocities, timestamps, n - 1)] else prefix
  }

  /** What `calculateAcceleration` returns. */
  function AccelerationSeries(velocities: seq<real>, timestamps: seq<real>): (r: seq<real>)
  {
    if |velocities| < 2 then [] else AccelerationsUpTo(velocities, timestamps, |velocities|)
  }

  /** Fewer than two velocities give nothing; otherwise at most one acceleration per step. */
  lemma AccelerationSeriesLength(velocities: seq<real>, timestamps: seq<real>)
    ensures |velocities| < 2 ==> AccelerationSeries(velocities, timestamps) == []
    ensures |velocities| >= 2 ==> |AccelerationSeries(velocities, timestamps)| <= |velocities| - 1
  {
  }

  /** With strictly increasing timestamps for every sample, no step is skipped. */
  lemma {:induction false} AccelerationsNoneSkipped(velocities: seq<real>, timestamps: seq<real>, n: nat)
    requires n <= |velocities| <= |timestamps|
    requires forall i :: 1 <= i < |timestamps| ==> timestamps[i - 1] < timestamps[i]
    ensures |AccelerationsUpTo(velocities, timestamps, n)| == if n == 0 then 0 else n - 1
    ensures forall k :: 0 <= k < |AccelerationsUpTo(velocities, timestamps, n)| ==>
      AccelerationsUpTo(velocities, timestamps, n)[k] == AccelerationAt(velocities, timestamps, k + 1)
  {
    if n > 1 {
      AccelerationsNoneSkipped(velocities, timestamps, n - 1);
      assert PositiveStep(timestamps, n - 1);
    }
  }

  /** The samples 1 .. n-1 whose incoming step takes time, in increasing order. */
  function PositiveStepsUpTo(timestamps: seq<real>, n: nat): (r: seq<nat>)
    ensures forall k :: 0 <= k < |r| ==> 1 <= r[k] < n && PositiveStep(timestamps, r[k])
    ensures forall k, l :: 0 <= k < l < |r| ==> r[k] < r[l]
    ensures forall i :: 1 <= i < n && PositiveStep(timestamps, i) ==> i in r
  {
    if n <= 1 then []
    else
      var prefix := PositiveStepsUpTo(timestamps, n - 1);
      if PositiveStep(timestamps, n - 1) then prefix + [n - 1] else prefix
  }

  /** The accelerations into the given samples, in the given order. */
  function AccelerationsAt(velocities: seq<real>, timestamps: seq<real>, steps: seq<nat>): (r: seq<real>)
    requires forall k :: 0 <= k < |steps| ==> 1 <= steps[k] < |velocities| && PositiveStep(timestamps, steps[k])
    ensures |r| == |steps|
    ensures forall k :: 0 <= k < |r| ==> r[k] == AccelerationAt(velocities, timestamps, steps[k])
  {
    if steps == [] then []
    else AccelerationsAt(velocities, timestamps, steps[..|steps| - 1]) + [AccelerationAt(velocities, timestamps, steps[|steps| - 1])]
  }

  /**
   * The accelerations are exactly those into the samples whose step takes time, in step
   * order: entry k belongs to the k-th such step, and every such step has one entry.
   */
  lemma {:induction false} AccelerationsFollowSteps(velocities: seq<real>, timestamps: seq<real>, n: nat)
    requires n <= |velocities|
    ensures AccelerationsUpTo(velocities, timestamps, n) == AccelerationsAt(velocities, timestamps, PositiveStepsUpTo(timestamps, n))
  {
    if n > 1 {
      AccelerationsFollowSteps(velocities, timestamps, n - 1);
      var p := PositiveStepsUpTo(timestamps, n - 1);
      if PositiveStep(timestamps, n - 1) {
        assert (p + [n - 1])[..|p|] == p;
      }
    }
  }

  /** Every step into samples 1 .. n-1 that takes time contributes its acceleration. */
  lemma {:induction false} PositiveStepKept(velocities: seq<real>, timestamps: seq<real>, n: nat, i: nat)
    requires n <= |velocities|
    requires 1 <= i < n && PositiveStep(timestamps, i)
    ensures AccelerationAt(velocities, timestamps, i) in AccelerationsUpTo(velocities, timestamps, n)
  {
    if i < n - 1 {
      PositiveStepKept(velocities, timestamps, n - 1, i);
    }
  }

  /** `calculateAcceleration`: the loop pushes an acceleration for each step that takes time. */
  method CalculateAcceleration(velocities: seq<real>, timestamps: seq<real>) returns (accelerations: seq<real>)
    ensures accelerations == AccelerationSeries(velocities, timestamps)
  {
    if |velocities| < 2 {
      return [];
    }
    accelerations := [];
    var i := 1;
    while i < |velocities|
      invariant 1 <= i <= |velocities|
      invariant accelerations == AccelerationsUpTo(velocities, timestamps, i)
    {
      if i < |timestamps| && (timestamps[i] - timestamps[i - 1]) / 1000.0 > 0.0 {
        accelerations := accelerations + [(velocities[i] - velocities[i - 1]) / ((timestamps[i] - timestamps[i - 1]) / 1000.0)];
      }
      i := i + 1;
    }
  }

  datatype RangeOfMotion = RangeOfMotion(min: real, max: real, range: real)

  /** Smallest and largest angle seen, and their difference; all zero for no angles. */
  function CalculateROM(angles: seq<real>): (r: RangeOfMotion)
    ensures angles == [] ==> r == RangeOfMotion(0.0, 0.0, 0.0)
    ensures angles != [] ==> r.min in angles && r.max in angles
    ensures forall i :: 0 <= i < |angles| ==> r.min <= angles[i] <= r.max
    ensures r.min <= r.max && r.range == r.max - r.min >= 0.0
  {
    if angles == [] then RangeOfMotion(0.0, 0.0, 0.0)
    else
      var lo := SeqMin(angles);
      var hi := SeqMax(angles);
      RangeOfMotion(lo, hi, hi - lo)
  }

  /** Total absolute difference of the first `n` left/right pairs. */
  function AbsDiffTotal(left: seq<real>, right: seq<real>, n: nat): (t: real)
    requires n <= |left| && n <= |right|
    ensures t >= 0.0
    ensures t == 0.0 <==> forall i :: 0 <= i < n ==> left[i] == right[i]
  {
    if n == 0 then 0.0 else AbsDiffTotal(left, right, n - 1) + Abs(left[n - 1] - right[n - 1])
  }

  /** Symmetry in [0, 100]: 100 minus the mean absolute difference as a share of 30 degrees. */
  function SymmetryScore(left: seq<real>, right: seq<real>): (s: real)
    ensures 0.0 <= s <= 100.0
    ensures left == [] || right == [] ==> s == 100.0
  {
    if left == [] || right == [] then 100.0
    else
      var n := MinInt(|left|, |right|);
      var avgDiff := AbsDiffTotal(left, right, n) / n as real;
      MaxReal(0.0, 100.0 - (avgDiff / 30.0) * 100.0)
  }

  /** `calculateSymmetryScore`: the `totalDiff` loop over the common prefix. */
  method CalculateSymmetryScore(left: seq<real>, right: seq<real>) returns (score: real)
    ensures score == SymmetryScore(left, right)
  {
    if |left| == 0 || |right| == 0 {
      return 100.0;
    }
    var length := MinInt(|left|, |right|);
    var totalDiff := 0.0;
    var i := 0;
    while i < length
      invariant 0 <= i <= length
      invariant totalDiff == AbsDiffTotal(left, right, i)
    {
      totalDiff := totalDiff + Abs(left[i] - right[i]);
      i := i + 1;
    }
    var avgDiff := totalDiff / length as real;
    score := MaxReal(0.0, 100.0 - (avgDiff / 30.0) * 100.0);
  }

  /** The total over a prefix sees only that prefix. */
  lemma {:induction false} AbsDiffTotalPrefix(left: seq<real>, right: seq<real>, n: nat, m: nat)
    requires n <= m <= |left| && m <= |right|
    ensures AbsDiffTotal(left, right, n) == AbsDiffTotal(left[..m], right[..m], n)
  {
    if n > 0 {
      AbsDiffTotalPrefix(left, right, n - 1, m);
    }
  }

  /** Entries beyond the shorter list are ignored. */
  lemma SymmetryComparesCommonPrefix(left: seq<real>, right: seq<real>)
    ensures var n := MinInt(|left|, |right|);
      SymmetryScore(left, right) == SymmetryScore(left[..n], right[..n])
  {
    var n := MinInt(|left|, |right|);
    if left != [] && right != [] {
      AbsDiffTotalPrefix(left, right, n, n);
      assert MinInt(|left[..n]|, |right[..n]|) == n;
    }
  }

  /** Two non-empty lists score 100 exactly when they agree on their common prefix. */
  lemma SymmetryPerfectIff(left: seq<real>, right: seq<real>)
    requires left != [] && right != []
    ensures SymmetryScore(left, right) == 100.0 <==>
      forall i :: 0 <= i < MinInt(|left|, |right|) ==> left[i] == right[i]
  {
    var n := MinInt(|left|, |right|);
    var t := AbsDiffTotal(left, right, n);
    var avgDiff := t / n as real;
    assert avgDiff == 0.0 <==> t == 0.0;
  }

  /** A list compared with itself is perfectly symmetric. */
  lemma SymmetryOfEqualLists(angles: seq<real>)
    ensures SymmetryScore(angles, angles) == 100.0
  {
    if angles != [] {
      SymmetryPerfectIff(angles, angles);
    }
  }

  /** A mean difference of 30 degrees or more scores 0; 15 degrees scores 50. */
  lemma SymmetryExamples()
    ensures SymmetryScore([90.0], [60.0]) == 0.0
    ensures SymmetryScore([90.0], [75.0]) == 50.0
    ensures SymmetryScore([90.0, 10.0], [75.0]) == 50.0
  {
    assert AbsDiffTotal([90.0], [60.0], 1) == 30.0;
    assert AbsDiffTotal([90.0], [75.0], 1) == 15.0;
    assert AbsDiffTotal([90.0, 10.0], [75.0], 1) == 15.0;
  }

  /** The smoothing window used when the caller gives none. */
  const DefaultWindowSize: nat := 5

  /** The first and last index of the window around `i`, clamped to the data. */
  function WindowStart(i: nat, half: nat): nat
  {
    if i >= half then i - half else 0
  }

  function WindowEnd(n: nat, i: nat, half: nat): nat
    requires i < n
  {
    MinInt(n - 1, i + half)
  }

  /** The mean of the data within `half` of index `i`, the window cut off at both ends. */
  function WindowMean(data: seq<real>, i: nat, half: nat): (m: real)
    requires i < |data|
  {
    Mean(data[WindowStart(i, half)..WindowEnd(|data|, i, half) + 1])
  }

  /** `smoothData`: a centred moving average, or the data itself when shorter than the window. */
  function Smoothed(data: seq<real>, windowSize: nat): (r: seq<real>)
    ensures |data| < windowSize ==> r == data
    ensures |r| == |data|
    ensures |data| >= windowSize ==> forall i :: 0 <= i < |r| ==> r[i] == WindowMean(data, i, windowSize / 2)
  {
    if |data| < windowSize then data
    else seq(|data|, i requires 0 <= i < |data| => WindowMean(data, i, windowSize / 2))
  }

  /** The inner loop of `smoothData`: the total and the number of the values `lo..hi`. */
  method WindowTotal(data: seq<real>, lo: nat, hi: nat) returns (sum: real, count: nat)
    requires lo <= hi < |data|
    ensures sum == Sum(data[lo..hi + 1])
    ensures count == hi + 1 - lo
  {
    sum := 0.0;
    count := 0;
    var j := lo;
    while j <= hi
      invariant lo <= j <= hi + 1
      invariant count == j - lo
      invariant sum == Sum(data[lo..j])
    {
      SumSliceStep(data, lo, j);
      sum := sum + data[j];
      count := count + 1;
      j := j + 1;
    }
  }

  /** `smoothData`: the outer loop over the indices, with the inner loop as `WindowTotal`. */
  method SmoothData(data: seq<real>, windowSize: nat) returns (smoothed: seq<real>)
    ensures smoothed == Smoothed(data, windowSize)
  {
    if |data| < windowSize {
      return data;
    }
    smoothed := [];
    var halfWindow := windowSize / 2;
    var i := 0;
    while i < |data|
      invariant 0 <= i <= |data|
      invariant |smoothed| == i
      invariant forall k :: 0 <= k < i ==> smoothed[k] == WindowMean(data, k, halfWindow)
    {
      var lo := MaxInt(0, i - halfWindow);
      var hi := MinInt(|data| - 1, i + halfWindow);
      var sum, count := WindowTotal(data, lo, hi);
      assert lo == WindowStart(i, halfWindow) && hi == WindowEnd(|data|, i, halfWindow);
      MeanOfTotal(data[lo..hi + 1], sum);
      smoothed := smoothed + [sum / count as real];
      i := i + 1;
    }
  }

  /** A slice keeps the bounds of the sequence it is cut from. */
  lemma SliceWithin(data: seq<real>, from: nat, to: nat, lo: real, hi: real)
    requires from <= to <= |data|
    requires AllWithin(data, lo, hi)
    ensures AllWithin(data[from..to], lo, hi)
  {
    forall j | 0 <= j < to - from
      ensures lo <= data[from..to][j] <= hi
    {
      assert data[from..to][j] == data[from + j];
    }
  }

  /** A window's mean keeps the bounds of the data. */
  lemma WindowMeanWithin(data: seq<real>, i: nat, half: nat, lo: real, hi: real)
    requires i < |data|
    requires AllWithin(data, lo, hi)
    ensures lo <= WindowMean(data, i, half) <= hi
  {
    var from := WindowStart(i, half);
    var to := WindowEnd(|data|, i, half) + 1;
    SliceWithin(data, from, to, lo, hi);
    MeanWithin(data[from..to], lo, hi);
  }

  /** Every smoothed value lies between the smallest and the largest input value. */
  lemma SmoothedWithinRange(data: seq<real>, windowSize: nat, i: nat)
    requires i < |data|
    ensures SeqMin(data) <= Smoothed(data, windowSize)[i] <= SeqMax(data)
  {
    if |data| >= windowSize {
      assert AllWithin(data, SeqMin(data), SeqMax(data));
      WindowMeanWithin(data, i, windowSize / 2, SeqMin(data), SeqMax(data));
    }
  }

  /** A window of one (sizes 0 and 1) leaves the data as it is. */
  lemma SmoothedWindowOne(data: seq<real>, windowSize: nat)
    requires windowSize <= 1
    ensures Smoothed(data, windowSize) == data
  {
    if |data| >= windowSize {
      forall i | 0 <= i < |data|
        ensures Smoothed(data, windowSize)[i] == data[i]
      {
        var w := data[i..i + 1];
        assert w == [data[i]];
        assert Sum(w) == Sum([]) + data[i];
      }
    }
  }

  /** With the default window, a point two or more away from both ends is the mean of five values centred on it. */
  lemma DefaultWindowInterior(data: seq<real>, i: nat)
    requires |data| >= DefaultWindowSize && 2 <= i < |data| - 2
    ensures |data[i - 2..i + 3]| == 5
    ensures Smoothed(data, DefaultWindowSize)[i] == Mean(data[i - 2..i + 3])
  {
  }

  /** A strict local maximum above the threshold, away from both ends. */
  predicate IsPeak(data: seq<real>, threshold: real, i: int)
  {
    1 <= i < |data| - 1 && data[i] > data[i - 1] && data[i] > data[i + 1] && data[i] > threshold
  }

  predicate StrictlyIncreasing(s: seq<int>)
  {
    forall a, b :: 0 <= a < b < |s| ==> s[a] < s[b]
  }

  /** `detectPeaks`: every peak index, in increasing order, and nothing else. */
  method DetectPeaks(data: seq<real>, threshold: real) returns (peaks: seq<int>)
    ensures forall k :: 0 <= k < |peaks| ==> IsPeak(data, threshold, peaks[k])
    ensures forall i :: IsPeak(data, threshold, i) ==> i in peaks
    ensures StrictlyIncreasing(peaks)
  {
    peaks := [];
    var i := 1;
    while i < |data| - 1
      invariant 1 <= i <= MaxInt(1, |data| - 1)
      invariant forall k :: 0 <= k < |peaks| ==> IsPeak(data, threshold, peaks[k]) && peaks[k] < i
      invariant forall p :: 1 <= p < i && IsPeak(data, threshold, p) ==> p in peaks
      invariant StrictlyIncreasing(peaks)
    {
      if data[i] > data[i - 1] && data[i] > data[i + 1] {
        if data[i] > threshold {
          peaks := peaks + [i];
        }
      }
      i := i + 1;
    }
  }

  /** Each element of `a` occurs in `b`. */
  predicate Within(a: seq<int>, b: seq<int>)
  {
    forall i :: 0 <= i < |a| ==> a[i] in b
  }

  /** A non-empty list lies only within a non-empty one. */
  lemma WithinNonEmpty(a: seq<int>, b: seq<int>)
    requires Within(a, b) && a != []
    ensures b != []
  {
    assert a[0] in b;
  }

  /** Two increasing lists with the same members are the same list, so the peak contract fixes the result. */
  lemma {:induction false} IncreasingListsUnique(a: seq<int>, b: seq<int>)
    requires StrictlyIncreasing(a) && StrictlyIncreasing(b)
    requires Within(a, b) && Within(b, a)
    ensures a == b
  {
    if a != [] {
      WithinNonEmpty(a, b);
    }
    if b != [] {
      WithinNonEmpty(b, a);
    }
    if a != [] && b != [] {
      assert a[0] in b;
      assert b[0] in a;
      assert a[0] == b[0];
      forall i | 0 <= i < |a[1..]| ensures a[1..][i] in b[1..]
      {
        assert a[1..][i] == a[i + 1];
        assert a[i + 1] in b;
        assert a[i + 1] != b[0];
      }
      forall i | 0 <= i < |b[1..]| ensures b[1..][i] in a[1..]
      {
        assert b[1..][i] == b[i + 1];
        assert b[i + 1] in a;
        assert b[i + 1] != a[0];
      }
      IncreasingListsUnique(a[1..], b[1..]);
    }
  }

  /** The peak threshold used when the caller gives none. */
  const DefaultPeakThreshold: real := 0.1

  /** The peaks of a small series at the default threshold. */
  method PeaksExample() returns (peaks: seq<int>)
    ensures peaks == [1, 4]
  {
    var data := [0.0, 5.0, 1.0, 0.0, 8.0, 2.0];
    peaks := DetectPeaks(data, DefaultPeakThreshold);
    assert IsPeak(data, DefaultPeakThreshold, 1) && IsPeak(data, DefaultPeakThreshold, 4);
    assert !IsPeak(data, DefaultPeakThreshold, 2) && !IsPeak(data, DefaultPeakThreshold, 3);
    assert 1 in peaks && 4 in peaks;
    IncreasingListsUnique(peaks, [1, 4]);
  }
}
