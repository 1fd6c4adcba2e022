/**
 * The holistic model's tables: hand landmark indices and bones, the face-mesh region lists,
 * and the frame and tracking-target shapes of the holistic session.
 */
module MeshTypes {
  import opened Basics
  import PoseTypes

  /** Number of landmarks per detected hand. */
  const HandLandmarkCount: nat := 21

  /** Number of landmarks in a full face mesh. */
  const FaceMeshLandmarkCount: nat := 468

  // The hand landmark record: one named index per hand point.
  const Wrist: nat := 0
  const ThumbCmc: nat := 1
  const ThumbMcp: nat := 2
  const ThumbIp: nat := 3
  const ThumbTip: nat := 4
  const IndexMcp: nat := 5
  const IndexPip: nat := 6
  const IndexDip: nat := 7
  const IndexTip: nat := 8
  const MiddleMcp: nat := 9
  const MiddlePip: nat := 10
  const MiddleDip: nat := 11
  const MiddleTip: nat := 12
  const RingMcp: nat := 13
  const RingPip: nat := 14
  const RingDip: nat := 15
  const RingTip: nat := 16
  const PinkyMcp: nat := 17
  const PinkyPip: nat := 18
  const PinkyDip: nat := 19
  const PinkyTip: nat := 20

  /** The hand record's indices in declaration order. */
  const HandLandmarkOrder: seq<nat> := [
    Wrist,
    ThumbCmc, ThumbMcp, ThumbIp, ThumbTip,
    IndexMcp, IndexPip, IndexDip, IndexTip,
    MiddleMcp, MiddlePip, MiddleDip, MiddleTip,
    RingMcp, RingPip, RingDip, RingTip,
    PinkyMcp, PinkyPip, PinkyDip, PinkyTip]

  /** The k-th declared hand name has index k: the record numbers 0..20 without gaps or repeats. */
  lemma HandLandmarkOrderIsRange()
    ensures |HandLandmarkOrder| == HandLandmarkCount
    ensures forall i :: 0 <= i < |HandLandmarkOrder| ==> HandLandmarkOrder[i] == i
  {
  }

  /** The hand's bones: four per finger from the wrist outwards, then three across the palm. */
  const HandConnections: seq<PoseTypes.Edge> := [
    (0, 1), (1, 2), (2, 3), (3, 4),
    (0, 5), (5, 6), (6, 7), (7, 8),
    (0, 9), (9, 10), (10, 11), (11, 12),
    (0, 13), (13, 14), (14, 15), (15, 16),
    (0, 17), (17, 18), (18, 19), (19, 20),
    (5, 9), (9, 13), (13, 17)]

  /** Twenty-three bones, every endpoint inside a 21-landmark hand. */
  lemma HandConnectionsInRange()
    ensures |HandConnections| == 23
    ensures forall k :: 0 <= k < |HandConnections| ==>
      HandConnections[k].0 < HandLandmarkCount && HandConnections[k].1 < HandLandmarkCount
  {
  }

  /** Finger `f` (0 thumb .. 4 pinky) is the chain wrist, b, b+1, b+2, b+3 with b = 4f+1. */
  lemma FingerIsChain(f: nat)
    requires f < 5
    ensures var b := 4 * f + 1;
      HandConnections[4 * f] == (Wrist, b) &&
      HandConnections[4 * f + 1] == (b, b + 1) &&
      HandConnections[4 * f + 2] == (b + 1, b + 2) &&
      HandConnections[4 * f + 3] == (b + 2, b + 3)
  {
    if f == 0 {} else if f == 1 {} else if f == 2 {} else if f == 3 {} else {}
  }

  /** The palm joins the index, middle, ring and pinky knuckles in order. */
  lemma PalmEdges()
    ensures HandConnections[20..] == [(IndexMcp, MiddleMcp), (MiddleMcp, RingMcp), (RingMcp, PinkyMcp)]
  {
  }

  /** Every hand landmark is an endpoint of some bone: no point is drawn unconnected. */
  lemma HandConnectionsCoverAll(v: nat)
    requires v < HandLandmarkCount
    ensures exists k :: 0 <= k < |HandConnections| && (HandConnections[k].0 == v || HandConnections[k].1 == v)
  {
    if v == 0 {
      assert HandConnections[0].0 == v;
    } else {
      FingerIsChain((v - 1) / 4);
      assert HandConnections[v - 1].1 == v;
    }
  }

  /** The face-mesh regions that have an index list. */
  datatype FaceRegion = FaceOval | LeftEye | RightEye | LeftEyebrow | RightEyebrow | Nose | LipsOuter | LipsInner

  const FaceOvalIndices: seq<nat> := [10, 338, 297, 332, 284, 251, 389, 356, 454, 323, 361, 288, 397, 365, 379, 378, 400, 377, 152, 148, 176, 149, 150, 136, 172, 58, 132, 93, 234, 127, 162, 21, 54, 103, 67, 109]
  const LeftEyeIndices: seq<nat> := [33, 7, 163, 144, 145, 153, 154, 155, 133, 173, 157, 158, 159, 160, 161, 246]
  const RightEyeIndices: seq<nat> := [362, 382, 381, 380, 374, 373, 390, 249, 263, 466, 388, 387, 386, 385, 384, 398]
  const LeftEyebrowIndices: seq<nat> := [46, 53, 52, 65, 55, 70, 63, 105, 66, 107]
  const RightEyebrowIndices: seq<nat> := [276, 283, 282, 295, 285, 300, 293, 334, 296, 336]
  const NoseIndices: seq<nat> := [1, 2, 98, 327, 4, 5, 6, 168, 197, 195, 5]
  const LipsOuterIndices: seq<nat> := [61, 146, 91, 181, 84, 17, 314, 405, 321, 375, 291, 409, 270, 269, 267, 0, 37, 39, 40, 185]
  const LipsInnerIndices: seq<nat> := [78, 95, 88, 178, 87, 14, 317, 402, 318, 324, 308, 415, 310, 311, 312, 13, 82, 81, 80, 191]

  /** The mesh indices of one region, in drawing order. */
  function FaceLandmarks(r: FaceRegion): seq<nat>
  {
    match r
    case FaceOval => FaceOvalIndices
    case LeftEye => LeftEyeIndices
    case RightEye => RightEyeIndices
    case LeftEyebrow => LeftEyebrowIndices
    case RightEyebrow => RightEyebrowIndices
    case Nose => NoseIndices
    case LipsOuter => LipsOuterIndices
    case LipsInner => LipsInnerIndices
  }

  /** The face oval's indices all name points of the mesh. */
  lemma FaceOvalInRange()
    ensures forall k :: 0 <= k < |FaceOvalIndices| ==> FaceOvalIndices[k] < FaceMeshLandmarkCount
  {
  }

  /** Every face region index names a point of the 468-landmark mesh. */
  lemma FaceLandmarksInRange(r: FaceRegion)
    ensures forall k :: 0 <= k < |FaceLandmarks(r)| ==> FaceLandmarks(r)[k] < FaceMeshLandmarkCount
  {
    match r
    case FaceOval =>
      FaceOvalInRange();
    case LeftEye =>
    case RightEye =>
    case LeftEyebrow =>
    case RightEyebrow =>
    case Nose =>
    case LipsOuter =>
    case LipsInner =>
  }

  /** Region sizes: oval 36, eyes 16, eyebrows 10, nose 11, lip contours 20. */
  lemma FaceRegionSizes()
    ensures |FaceLandmarks(FaceOval)| == 36
    ensures |FaceLandmarks(LeftEye)| == 16 && |FaceLandmarks(RightEye)| == 16
    ensures |FaceLandmarks(LeftEyebrow)| == 10 && |FaceLandmarks(RightEyebrow)| == 10
    ensures |FaceLandmarks(Nose)| == 11
    ensures |FaceLandmarks(LipsOuter)| == 20 && |FaceLandmarks(LipsInner)| == 20
  {
  }

  /** The nose list repeats index 5 (entries 5 and 10), so region lists are not duplicate-free. */
  lemma NoseRepeatsIndex()
    ensures FaceLandmarks(Nose)[5] == FaceLandmarks(Nose)[10] == 5
    ensures !(forall i, j :: 0 <= i < j < |NoseIndices| ==> NoseIndices[i] != NoseIndices[j])
  {
    assert NoseIndices[5] == NoseIndices[10];
  }

  /** A hand or face landmark, in normalised image space. */
  datatype MeshLandmark = MeshLandmark(x: real, y: real, z: real)

  /** One combined detection: each part may be missing. */
  datatype HolisticFrame = HolisticFrame(
    timestamp: real,
    pose: Option<seq<PoseTypes.PoseLandmark>>,
    leftHand: Option<seq<MeshLandmark>>,
    rightHand: Option<seq<MeshLandmark>>,
    face: Option<seq<MeshLandmark>>)

  datatype MeshVisualizationMode = Skeleton | Mesh | Both | Wireframe

  /** Which detector parts are enabled. */
  datatype TrackingTarget = TrackingTarget(pose: bool, leftHand: bool, rightHand: bool, face: bool)

  /** An update of some tracking flags; a missing key leaves that flag as it is. */
  datatype PartialTrackingTarget = PartialTrackingTarget(
    pose: Option<bool>, leftHand: Option<bool>, rightHand: Option<bool>, face: Option<bool>)
}
