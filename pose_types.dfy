/**
 * The pose frame model: landmark and frame shapes, the 33-joint index table and the
 * skeleton's bone list. Every consumer indexes landmark sequences through these tables.
 */
module PoseTypes {
  import opened Basics

  /** One detected body landmark, in normalised image space, with optional confidence. */
  datatype PoseLandmark = PoseLandmark(x: real, y: real, z: real, visibility: Option<real>)

  /** A landmark that also carries its position in metres. */
  datatype WorldLandmark = WorldLandmark(landmark: PoseLandmark, worldX: real, worldY: real, worldZ: real)

  /** One detection sample. */
  datatype PoseFrame = PoseFrame(
    timestamp: real,
    frameIndex: int,
    landmarks: seq<PoseLandmark>,
    worldLandmarks: Option<seq<WorldLandmark>>)

  /** A point of a joint's trail, in display space. */
  datatype TrajectoryPoint = TrajectoryPoint(x: real, y: real, z: real, timestamp: real)

  /** The recent path of one tracked joint and its display colour. */
  datatype MotionTrajectory = MotionTrajectory(
    joint: string,
    jointIndex: nat,
    points: seq<TrajectoryPoint>,
    color: string)

  datatype CaptureState = Idle | Initializing | Ready | Recording | Paused | Stopped

  datatype VisualizationMode = Skeleton | Trajectory | Both | Avatar

  /** Number of landmarks in a full pose detection. */
  const PoseLandmarkCount: nat := 33

  // The landmark record: one named index per detected body point.
  const Nose: nat := 0
  const LeftEyeInner: nat := 1
  const LeftEye: nat := 2
  const LeftEyeOuter: nat := 3
  const RightEyeInner: nat := 4
  const RightEye: nat := 5
  const RightEyeOuter: nat := 6
  const LeftEar: nat := 7
  const RightEar: nat := 8
  const MouthLeft: nat := 9
  const MouthRight: nat := 10
  const LeftShoulder: nat := 11
  const RightShoulder: nat := 12
  const LeftElbow: nat := 13
  const RightElbow: nat := 14
  const LeftWrist: nat := 15
  const RightWrist: nat := 16
  const LeftPinky: nat := 17
  const RightPinky: nat := 18
  const LeftIndex: nat := 19
  const RightIndex: nat := 20
  const LeftThumb: nat := 21
  const RightThumb: nat := 22
  const LeftHip: nat := 23
  const RightHip: nat := 24
  const LeftKnee: nat := 25
  const RightKnee: nat := 26
  const LeftAnkle: nat := 27
  const RightAnkle: nat := 28
  const LeftHeel: nat := 29
  const RightHeel: nat := 30
  const LeftFootIndex: nat := 31
  const RightFootIndex: nat := 32

  /** The record's indices in declaration order. */
  const PoseLandmarkOrder: seq<nat> := [
    Nose, LeftEyeInner, LeftEye, LeftEyeOuter,
    RightEyeInner, RightEye, RightEyeOuter, LeftEar,
    RightEar, MouthLeft, MouthRight, LeftShoulder,
    RightShoulder, LeftElbow, RightElbow, LeftWrist,
    RightWrist, LeftPinky, RightPinky, LeftIndex,
    RightIndex, LeftThumb, RightThumb, LeftHip,
    RightHip, LeftKnee, RightKnee, LeftAnkle,
    RightAnkle, LeftHeel, RightHeel, LeftFootIndex,
    RightFootIndex]

  /** The k-th declared name has index k: the record numbers 0..32 without gaps or repeats. */
  lemma PoseLandmarkOrderIsRange()
    ensures |PoseLandmarkOrder| == PoseLandmarkCount
    ensures forall i :: 0 <= i < |PoseLandmarkOrder| ==> PoseLandmarkOrder[i] == i
  {
  }

  /** The (LEFT_*, RIGHT_*) name pairs of the record; MOUTH_LEFT pairs with MOUTH_RIGHT. */
  const LeftRightPairs: seq<(nat, nat)> := [
    (LeftEyeInner, RightEyeInner), (LeftEye, RightEye), (LeftEyeOuter, RightEyeOuter),
    (LeftEar, RightEar), (MouthLeft, MouthRight),
    (LeftShoulder, RightShoulder), (LeftElbow, RightElbow), (LeftWrist, RightWrist),
    (LeftPinky, RightPinky), (LeftIndex, RightIndex), (LeftThumb, RightThumb),
    (LeftHip, RightHip), (LeftKnee, RightKnee), (LeftAnkle, RightAnkle),
    (LeftHeel, RightHeel), (LeftFootIndex, RightFootIndex)]

  /**
   * From the shoulders down every left joint has an odd index and its right partner the next
   * index; above the shoulders the partner of a left eye point is three further on.
   */
  lemma LeftOddRightNext()
    ensures |LeftRightPairs| == 16
    ensures forall k :: 5 <= k < |LeftRightPairs| ==>
      LeftRightPairs[k].0 % 2 == 1 && LeftRightPairs[k].1 == LeftRightPairs[k].0 + 1
    ensures forall k :: 0 <= k < 3 ==> LeftRightPairs[k].1 == LeftRightPairs[k].0 + 3
  {
  }

  /** A bone as a pair of landmark indices. */
  type Edge = (nat, nat)

  /** The skeleton's bones: face (0-3), torso (4-7), left arm (8-13), right arm (14-19), left leg (20-24), right leg (25-29). */
  const SkeletonConnections: seq<Edge> := [
    (Nose, LeftEye),
    (Nose, RightEye),
    (LeftEye, LeftEar),
    (RightEye, RightEar),
    (LeftShoulder, RightShoulder),
    (LeftShoulder, LeftHip),
    (RightShoulder, RightHip),
    (LeftHip, RightHip),
    (LeftShoulder, LeftElbow),
    (LeftElbow, LeftWrist),
    (LeftWrist, LeftPinky),
    (LeftWrist, LeftIndex),
    (LeftWrist, LeftThumb),
    (LeftPinky, LeftIndex),
    (RightShoulder, RightElbow),
    (RightElbow, RightWrist),
    (RightWrist, RightPinky),
    (RightWrist, RightIndex),
    (RightWrist, RightThumb),
    (RightPinky, RightIndex),
    (LeftHip, LeftKnee),
    (LeftKnee, LeftAnkle),
    (LeftAnkle, LeftHeel),
    (LeftAnkle, LeftFootIndex),
    (LeftHeel, LeftFootIndex),
    (RightHip, RightKnee),
    (RightKnee, RightAnkle),
    (RightAnkle, RightHeel),
    (RightAnkle, RightFootIndex),
    (RightHeel, RightFootIndex)]

  /** Thirty bones, none from a joint to itself, all inside a 33-landmark frame. */
  lemma SkeletonConnectionsWellFormed()
    ensures |SkeletonConnections| == 30
    ensures forall k :: 0 <= k < |SkeletonConnections| ==>
      SkeletonConnections[k].0 < PoseLandmarkCount && SkeletonConnections[k].1 < PoseLandmarkCount
    ensures forall k :: 0 <= k < |SkeletonConnections| ==> SkeletonConnections[k].0 != SkeletonConnections[k].1
  {
  }

  /** Each left-arm bone has its right-arm twin six entries later, one index higher at both ends. */
  lemma ArmBonesMirrored(k: nat)
    requires 8 <= k < 14
    ensures SkeletonConnections[k + 6] == (SkeletonConnections[k].0 + 1, SkeletonConnections[k].1 + 1)
  {
    if k == 8 {} else if k == 9 {} else if k == 10 {} else if k == 11 {} else if k == 12 {} else {}
  }

  /** Each left-leg bone has its right-leg twin five entries later, one index higher at both ends. */
  lemma LegBonesMirrored(k: nat)
    requires 20 <= k < 25
    ensures SkeletonConnections[k + 5] == (SkeletonConnections[k].0 + 1, SkeletonConnections[k].1 + 1)
  {
    if k == 20 {} else if k == 21 {} else if k == 22 {} else if k == 23 {} else {}
  }
}
