/**
 * The 3D skeleton view: where a landmark is drawn, which colour group a joint belongs to,
 * which bones are drawn and which joints get a sphere.
 */
module Skeleton {
  import opened Basics
  import opened PoseTypes
  import PoseStore

  /** Default scene scale. */
  const DefaultScale: real := 2.0

  /** Where a landmark is drawn: centred on the origin, scaled, with y pointing up. */
  function LandmarkTo3D(l: PoseLandmark, scale: real): (p: Vec3)
  {
    Vec3((l.x - 0.5) * scale, -(l.y - 0.5) * scale, l.z * scale)
  }

  /** The landmark coordinates a scene point came from, for a non-zero scale. */
  function FromScene(p: Vec3, scale: real): (r: (real, real, real))
    requires scale != 0.0
  {
    (p.x / scale + 0.5, 0.5 - p.y / scale, p.z / scale)
  }

  /**
   * For any non-zero scale the placement can be undone; at the default scale it is the same
   * placement the pose store uses for trail points.
   */
  lemma LandmarkTo3DRoundTrip(l: PoseLandmark, scale: real, timestamp: real)
    requires scale != 0.0
    ensures FromScene(LandmarkTo3D(l, scale), scale) == (l.x, l.y, l.z)
    ensures var t := PoseStore.DisplayPoint(l, timestamp); var p := LandmarkTo3D(l, DefaultScale);
      p == Vec3(t.x, t.y, t.z)
  {
    var p := LandmarkTo3D(l, scale);
    var ax, ay := l.x - 0.5, -(l.y - 0.5);
    assert p.x == ax * scale && p.y == ay * scale;
    ScaleCancels(ax, scale);
    ScaleCancels(ay, scale);
    ScaleCancels(l.z, scale);
    assert p.x / scale == ax;
    assert p.y / scale == ay;
    assert FromScene(p, scale).0 == l.x;
    assert FromScene(p, scale).1 == l.y;
    assert FromScene(p, scale).2 == l.z;
  }

  datatype JointGroup = Face | Torso | LeftArm | RightArm | LeftLeg | RightLeg

  /** The group's colour. */
  function GroupColor(g: JointGroup): (c: string)
    ensures |c| == 7 && c[0] == '#'
  {
    match g
    case Face => "#ffcc00"
    case Torso => "#ffffff"
    case LeftArm => "#ff6b6b"
    case RightArm => "#4ecdc4"
    case LeftLeg => "#ff8c42"
    case RightLeg => "#45b7d1"
  }

  /** `JOINT_COLORS[group] || fallback`: the fallback applies only to an empty colour. */
  function ColorOr(g: JointGroup, fallback: string): (c: string)
    ensures c == GroupColor(g)
  {
    var c := GroupColor(g);
    if c != "" then c else fallback
  }

  /** The colour group of a landmark index. */
  function GetJointGroup(index: nat): (g: JointGroup)
  {
    if index <= 10 then Face
    else if index == 11 || index == 12 || index == 23 || index == 24 then Torso
    else if 13 <= index <= 22 && index % 2 == 1 then LeftArm
    else if 13 <= index <= 22 && index % 2 == 0 then RightArm
    else if 25 <= index <= 32 && index % 2 == 1 then LeftLeg
    else if 25 <= index <= 32 && index % 2 == 0 then RightLeg
    else Torso
  }

  /**
   * The head points are face; shoulders, hips and anything past the table are torso; along
   * the arms and legs odd indices are on the left side and even ones on the right.
   */
  lemma JointGroupRanges(index: nat)
    ensures GetJointGroup(index) == Face <==> index <= 10
    ensures GetJointGroup(index) == Torso <==> index in {11, 12, 23, 24} || index > 32
    ensures GetJointGroup(index) == LeftArm <==> 13 <= index <= 22 && index % 2 == 1
    ensures GetJointGroup(index) == RightArm <==> 13 <= index <= 22 && index % 2 == 0
    ensures GetJointGroup(index) == LeftLeg <==> 25 <= index <= 32 && index % 2 == 1
    ensures GetJointGroup(index) == RightLeg <==> 25 <= index <= 32 && index % 2 == 0
  {
  }

  /** The same group on the other side of the body. */
  function Mirror(g: JointGroup): JointGroup
  {
    match g
    case LeftArm => RightArm
    case RightArm => LeftArm
    case LeftLeg => RightLeg
    case RightLeg => LeftLeg
    case _ => g
  }

  /** The right partner of every left landmark is in the mirrored group. */
  lemma JointGroupsMirrored(k: nat)
    requires k < |LeftRightPairs|
    ensures GetJointGroup(LeftRightPairs[k].1) == Mirror(GetJointGroup(LeftRightPairs[k].0))
  {
    LeftOddRightNext();
    if k >= 5 {
      var l := LeftRightPairs[k].0;
      JointGroupRanges(l);
      JointGroupRanges(l + 1);
    }
  }

  /** `landmark.visibility ?? 1`, and 1 for a landmark the frame does not have. */
  function VisibilityAt(landmarks: seq<PoseLandmark>, i: nat): (v: real)
    ensures i < |landmarks| ==> v == landmarks[i].visibility.GetOr(1.0)
    ensures i >= |landmarks| ==> v == 1.0
  {
    if i < |landmarks| then landmarks[i].visibility.GetOr(1.0) else 1.0
  }

  /** A drawn bone: its two scene points and its colour. */
  datatype Bone = Bone(start: Vec3, end: Vec3, color: string)

  /** Every bone end is a landmark of the frame. */
  predicate EdgesInFrame(landmarks: seq<PoseLandmark>, edges: seq<Edge>)
  {
    forall k :: 0 <= k < |edges| ==> edges[k].0 < |landmarks| && edges[k].1 < |landmarks|
  }

  /** A bone is drawn unless either end has visibility below 0.5. */
  predicate BoneShown(landmarks: seq<PoseLandmark>, e: Edge)
  {
    !(VisibilityAt(landmarks, e.0) < 0.5 || VisibilityAt(landmarks, e.1) < 0.5)
  }

  /** The bone of an edge: between its ends' scene points, coloured by its start's group. */
  function BoneOf(landmarks: seq<PoseLandmark>, e: Edge, scale: real, fallback: string): (b: Bone)
    requires e.0 < |landmarks| && e.1 < |landmarks|
    ensures b.color == GroupColor(GetJointGroup(e.0))
  {
    Bone(LandmarkTo3D(landmarks[e.0], scale), LandmarkTo3D(landmarks[e.1], scale), ColorOr(GetJointGroup(e.0), fallback))
  }

  /** `.filter(Boolean)` on a list of bones and nulls: the bones, in order. */
  function Present<T>(s: seq<Option<T>>): (r: seq<T>)
    ensures |r| <= |s|
    ensures forall i :: 0 <= i < |r| ==> Some(r[i]) in s
    ensures forall i :: 0 <= i < |s| && s[i].Some? ==> s[i].value in r
  {
    if s == [] then []
    else (if s[0].Some? then [s[0].value] else []) + Present(s[1..])
  }

  /**
   * `filter(Boolean)` keeps order and multiplicity: the filter of a concatenation is the
   * concatenation of the filters.
   */
  lemma {:induction false} PresentAppend<T>(s: seq<Option<T>>, t: seq<Option<T>>)
    ensures Present(s + t) == Present(s) + Present(t)
  {
    if s == [] {
      assert s + t == t;
    } else {
      assert (s + t)[0] == s[0];
      assert (s + t)[1..] == s[1..] + t;
      PresentAppend(s[1..], t);
    }
  }

  /** A one-element list keeps its bone or loses its null. */
  lemma PresentSingle<T>(o: Option<T>)
    ensures Present([o]) == if o.Some? then [o.value] else []
  {
    assert [o][1..] == [];
  }

  /** Nothing is dropped from a list without nulls. */
  lemma {:induction false} PresentAllSome<T>(s: seq<Option<T>>)
    requires forall i :: 0 <= i < |s| ==> s[i].Some?
    ensures |Present(s)| == |s|
    ensures forall k :: 0 <= k < |s| ==> Present(s)[k] == s[k].value
  {
    if s != [] {
      PresentAllSome(s[1..]);
    }
  }

  /** The bone an edge maps to, or nothing when either end is not visible enough. */
  function BoneOrNothing(landmarks: seq<PoseLandmark>, e: Edge, scale: real, fallback: string): (b: Option<Bone>)
    requires e.0 < |landmarks| && e.1 < |landmarks|
    ensures b.Some? <==> BoneShown(landmarks, e)
    ensures b.Some? ==> b.value == BoneOf(landmarks, e, scale, fallback)
  {
    if VisibilityAt(landmarks, e.0) < 0.5 || VisibilityAt(landmarks, e.1) < 0.5 then None
    else Some(BoneOf(landmarks, e, scale, fallback))
  }

  /**
   * The drawn bones, in edge order: each edge maps to its bone or to nothing, and the
   * nothings are filtered out. The source reads both ends' visibility unchecked, so every
   * edge end must be in the frame.
   */
  function Bones(landmarks: seq<PoseLandmark>, edges: seq<Edge>, scale: real, fallback: string): (r: seq<Bone>)
    requires EdgesInFrame(landmarks, edges)
  {
    Present(seq(|edges|, k requires 0 <= k < |edges| => BoneOrNothing(landmarks, edges[k], scale, fallback)))
  }

  /** Every drawn bone is the bone of some edge whose ends are both visible enough. */
  lemma DrawnBoneHasEdge(landmarks: seq<PoseLandmark>, edges: seq<Edge>, scale: real, fallback: string, b: Bone)
    requires EdgesInFrame(landmarks, edges)
    requires b in Bones(landmarks, edges, scale, fallback)
    ensures exists k :: 0 <= k < |edges| && BoneShown(landmarks, edges[k]) && b == BoneOf(landmarks, edges[k], scale, fallback)
  {
    var s := seq(|edges|, k requires 0 <= k < |edges| => BoneOrNothing(landmarks, edges[k], scale, fallback));
    var k :| 0 <= k < |s| && s[k] == Some(b);
    assert BoneShown(landmarks, edges[k]) && b == BoneOf(landmarks, edges[k], scale, fallback);
  }

  /** The bone of every edge whose ends are both visible enough is drawn. */
  lemma ShownEdgeIsDrawn(landmarks: seq<PoseLandmark>, edges: seq<Edge>, scale: real, fallback: string, k: nat)
    requires EdgesInFrame(landmarks, edges)
    requires k < |edges| && BoneShown(landmarks, edges[k])
    ensures BoneOf(landmarks, edges[k], scale, fallback) in Bones(landmarks, edges, scale, fallback)
  {
    var s := seq(|edges|, k requires 0 <= k < |edges| => BoneOrNothing(landmarks, edges[k], scale, fallback));
    assert s[k] == Some(BoneOf(landmarks, edges[k], scale, fallback));
  }

  /**
   * A bone is drawn exactly for the edges whose ends are both at least half visible (missing
   * visibility counting as full), and no more bones than edges are drawn.
   */
  lemma BonesShownIff(landmarks: seq<PoseLandmark>, edges: seq<Edge>, scale: real, fallback: string, b: Bone)
    requires EdgesInFrame(landmarks, edges)
    ensures |Bones(landmarks, edges, scale, fallback)| <= |edges|
    ensures b in Bones(landmarks, edges, scale, fallback) <==>
      exists k :: 0 <= k < |edges| && BoneShown(landmarks, edges[k]) && b == BoneOf(landmarks, edges[k], scale, fallback)
  {
    if b in Bones(landmarks, edges, scale, fallback) {
      DrawnBoneHasEdge(landmarks, edges, scale, fallback, b);
    }
    if exists k :: 0 <= k < |edges| && BoneShown(landmarks, edges[k]) && b == BoneOf(landmarks, edges[k], scale, fallback) {
      var k :| 0 <= k < |edges| && BoneShown(landmarks, edges[k]) && b == BoneOf(landmarks, edges[k], scale, fallback);
      ShownEdgeIsDrawn(landmarks, edges, scale, fallback, k);
    }
  }

  /** When every landmark is at least half visible, every edge is drawn, in order. */
  lemma AllBonesShown(landmarks: seq<PoseLandmark>, edges: seq<Edge>, scale: real, fallback: string)
    requires EdgesInFrame(landmarks, edges)
    requires forall i :: 0 <= i < |landmarks| ==> landmarks[i].visibility.GetOr(1.0) >= 0.5
    ensures |Bones(landmarks, edges, scale, fallback)| == |edges|
    ensures forall k :: 0 <= k < |edges| ==>
      Bones(landmarks, edges, scale, fallback)[k] == BoneOf(landmarks, edges[k], scale, fallback)
  {
    var s := seq(|edges|, k requires 0 <= k < |edges| => BoneOrNothing(landmarks, edges[k], scale, fallback));
    PresentAllSome(s);
  }

  /** A full frame of visible landmarks draws all thirty skeleton bones. */
  lemma FullSkeletonDrawn(landmarks: seq<PoseLandmark>, scale: real, fallback: string)
    requires |landmarks| >= PoseLandmarkCount
    requires forall i :: 0 <= i < |landmarks| ==> landmarks[i].visibility.GetOr(1.0) >= 0.5
    ensures EdgesInFrame(landmarks, SkeletonConnections)
    ensures |Bones(landmarks, SkeletonConnections, scale, fallback)| == 30
  {
    SkeletonConnectionsWellFormed();
    AllBonesShown(landmarks, SkeletonConnections, scale, fallback);
  }

  /** The joints that get a sphere when visible. */
  const ImportantIndices: seq<nat> := [
    Nose, LeftShoulder, RightShoulder, LeftElbow, RightElbow, LeftWrist, RightWrist,
    LeftHip, RightHip, LeftKnee, RightKnee, LeftAnkle, RightAnkle]

  /** A joint sphere is drawn only for visibility strictly above 0.5; a missing landmark counts as visible. */
  predicate JointShown(landmarks: seq<PoseLandmark>, idx: nat)
  {
    VisibilityAt(landmarks, idx) > 0.5
  }

  /** The important joints drawn for a frame, in table order. */
  function MainJointIndices(landmarks: seq<PoseLandmark>): (r: seq<nat>)
  {
    Filter(ImportantIndices, (idx: nat) => JointShown(landmarks, idx))
  }

  /** A joint is drawn exactly when it is important and visible enough. */
  lemma MainJointShownIff(landmarks: seq<PoseLandmark>, idx: nat)
    ensures idx in MainJointIndices(landmarks) <==> idx in ImportantIndices && JointShown(landmarks, idx)
    ensures |MainJointIndices(landmarks)| <= 13
  {
    var r := MainJointIndices(landmarks);
    if idx in r {
      var i :| 0 <= i < |r| && r[i] == idx;
    }
    if idx in ImportantIndices && JointShown(landmarks, idx) {
      var k :| 0 <= k < |ImportantIndices| && ImportantIndices[k] == idx;
    }
  }

  /** A drawn joint sphere: its scene point (none for a landmark the frame lacks) and colour. */
  datatype MainJoint = MainJoint(position: Option<Vec3>, color: string)

  /** The joint spheres of a frame. */
  function MainJoints(landmarks: seq<PoseLandmark>, scale: real, fallback: string): (r: seq<MainJoint>)
  {
    var ids := MainJointIndices(landmarks);
    seq(|ids|, i requires 0 <= i < |ids| =>
      MainJoint(if ids[i] < |landmarks| then Some(LandmarkTo3D(landmarks[ids[i]], scale)) else None,
        ColorOr(GetJointGroup(ids[i]), fallback)))
  }

  /** The `i`-th sphere sits on the `i`-th drawn joint and takes that joint's group colour. */
  lemma MainJointsPlacement(landmarks: seq<PoseLandmark>, scale: real, fallback: string, i: nat)
    requires i < |MainJointIndices(landmarks)|
    ensures |MainJoints(landmarks, scale, fallback)| == |MainJointIndices(landmarks)|
    ensures var idx := MainJointIndices(landmarks)[i]; var j := MainJoints(landmarks, scale, fallback)[i];
      j.color == GroupColor(GetJointGroup(idx)) &&
      (idx < |landmarks| ==> j.position == Some(LandmarkTo3D(landmarks[idx], scale)))
  {
  }

  /**
   * The two filters differ at exactly 0.5: a landmark with that visibility still has its
   * bones drawn but gets no joint sphere.
   */
  lemma HalfVisibleBoneWithoutSphere(landmarks: seq<PoseLandmark>)
    requires |landmarks| >= PoseLandmarkCount
    requires landmarks[LeftShoulder].visibility == Some(0.5) && landmarks[LeftElbow].visibility == Some(0.5)
    ensures BoneShown(landmarks, SkeletonConnections[8])
    ensures LeftShoulder !in MainJointIndices(landmarks) && LeftElbow !in MainJointIndices(landmarks)
  {
    MainJointShownIff(landmarks, LeftShoulder);
    MainJointShownIff(landmarks, LeftElbow);
  }
}
