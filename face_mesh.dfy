/**
 * The 3D face view: scene placement of the 468 mesh points, the fan triangulation of the face
 * oval, the closed contour polylines of the oval, eyes and lips, the mesh geometry buffers,
 * and the sampled wireframe points. Nothing is derived from a face with fewer than 468 points.
 */
module FaceMesh {
  import opened Basics
  import opened MeshTypes

  /** The fan's centre: the nose tip. */
  const NoseTip: nat := 4

  /** The component's default `scale` and `position` props. */
  const DefaultScale: real := 3.0
  const DefaultOffset: Vec3 := Vec3(0.0, 1.5, 0.0)

  /** A mesh triangle as three landmark indices. */
  datatype Triangle = Triangle(a: nat, b: nat, c: nat)

  /** The position after `i` on a ring of `n` positions. */
  function Next(i: nat, n: nat): (j: nat)
    requires i < n
    ensures j < n
  {
    if i + 1 < n then i + 1 else 0
  }

  /** Stepping round the ring is counting modulo its size. */
  lemma NextIsModular(i: nat, n: nat)
    requires i < n
    ensures Next(i, n) == (i + 1) % n
  {
    if i + 1 == n {
      assert (i + 1) % n == 0;
    }
  }

  /** The fan over a closed ring: triangle `i` joins ring point `i`, the next ring point (wrapping round) and the centre. */
  function FanTriangles(ring: seq<nat>, center: nat): (r: seq<Triangle>)
    ensures |r| == |ring|
  {
    seq(|ring|, i requires 0 <= i < |ring| => Triangle(ring[i], ring[Next(i, |ring|)], center))
  }

  /**
   * The fan has one triangle per ring point; neighbouring triangles share a ring edge, the
   * last closes back to the first ring point, and every triangle touches the centre.
   */
  lemma FanTrianglesClose(ring: seq<nat>, center: nat)
    requires |ring| >= 1
    ensures forall i :: 0 <= i < |ring| - 1 ==> FanTriangles(ring, center)[i].b == FanTriangles(ring, center)[i + 1].a
    ensures FanTriangles(ring, center)[|ring| - 1].b == ring[0]
    ensures forall i :: 0 <= i < |ring| ==> FanTriangles(ring, center)[i].c == center && FanTriangles(ring, center)[i].a == ring[i]
  {
  }

  /** Every vertex of the face-oval fan is a mesh point. */
  lemma FaceFanInRange()
    ensures |FanTriangles(FaceOvalIndices, NoseTip)| == 36
    ensures forall i :: 0 <= i < 36 ==>
      var t := FanTriangles(FaceOvalIndices, NoseTip)[i];
      t.a < FaceMeshLandmarkCount && t.b < FaceMeshLandmarkCount && t.c < FaceMeshLandmarkCount
  {
    FaceLandmarksInRange(FaceOval);
    FaceRegionSizes();
  }

  /** Build the face-oval fan: one triangle per consecutive pair, then the one that closes the ring. */
  method GenerateFaceMeshTriangles() returns (triangles: seq<Triangle>)
    ensures triangles == FanTriangles(FaceOvalIndices, NoseTip)
  {
    var oval := FaceOvalIndices;
    triangles := [];
    var i := 0;
    while i < |oval| - 1
      invariant 0 <= i <= |oval| - 1
      invariant triangles == FanTriangles(oval, NoseTip)[..i]
    {
      triangles := triangles + [Triangle(oval[i], oval[i + 1], NoseTip)];
      i := i + 1;
    }
    triangles := triangles + [Triangle(oval[|oval| - 1], oval[0], NoseTip)];
  }

  /** Where a face point is drawn: centred, scaled, y up, depth flattened to 0.3 and reversed, then offset. */
  function FaceLandmarkTo3D(l: MeshLandmark, scale: real, offset: Vec3): (p: Vec3)
  {
    Vec3((l.x - 0.5) * scale + offset.x, -(l.y - 0.5) * scale + offset.y, -l.z * scale * 0.3 + offset.z)
  }

  /** The landmark coordinates a face scene point came from, for a non-zero scale. */
  function FromFaceScene(p: Vec3, scale: real, offset: Vec3): (r: (real, real, real))
    requires scale != 0.0
  {
    ((p.x - offset.x) / scale + 0.5, 0.5 - (p.y - offset.y) / scale, -((p.z - offset.z) / (scale * 0.3)))
  }

  /**
   * For any non-zero scale the placement can be undone. With the default props the image
   * centre at zero depth is drawn at the default position.
   */
  lemma FaceLandmarkTo3DRoundTrip(l: MeshLandmark, scale: real, offset: Vec3)
    requires scale != 0.0
    ensures FromFaceScene(FaceLandmarkTo3D(l, scale, offset), scale, offset) == (l.x, l.y, l.z)
    ensures FaceLandmarkTo3D(MeshLandmark(0.5, 0.5, 0.0), DefaultScale, DefaultOffset) == DefaultOffset
  {
    var p := FaceLandmarkTo3D(l, scale, offset);
    var ax, ay, az := l.x - 0.5, -(l.y - 0.5), -l.z;
    assert p.x - offset.x == ax * scale;
    assert p.y - offset.y == ay * scale;
    assert p.z - offset.z == az * (scale * 0.3);
    ScaleCancels(ax, scale);
    ScaleCancels(ay, scale);
    ScaleCancels(az, scale * 0.3);
    assert (p.x - offset.x) / scale == ax;
    assert (p.y - offset.y) / scale == ay;
    assert (p.z - offset.z) / (scale * 0.3) == az;
    assert FromFaceScene(p, scale, offset).0 == l.x;
    assert FromFaceScene(p, scale, offset).1 == l.y;
    assert FromFaceScene(p, scale, offset).2 == l.z;
  }

  /** The scene points of a face, or none for a missing face or one with fewer than 468 points. */
  function ScenePoints(landmarks: Option<seq<MeshLandmark>>, scale: real, offset: Vec3): (r: seq<Vec3>)
    ensures landmarks.None? || |landmarks.value| < FaceMeshLandmarkCount <==> r == []
    ensures r != [] ==> |r| == |landmarks.value| && forall i :: 0 <= i < |r| ==> r[i] == FaceLandmarkTo3D(landmarks.value[i], scale, offset)
  {
    if landmarks.None? || |landmarks.value| < FaceMeshLandmarkCount then []
    else seq(|landmarks.value|, i requires 0 <= i < |landmarks.value| => FaceLandmarkTo3D(landmarks.value[i], scale, offset))
  }

  /** `indices.map(i => points[i]).filter(Boolean)`: the points the indices name, skipping those past the end. */
  function Gather(points: seq<Vec3>, indices: seq<nat>): (r: seq<Vec3>)
    ensures |r| <= |indices|
  {
    if indices == [] then []
    else (if indices[0] < |points| then [points[indices[0]]] else []) + Gather(points, indices[1..])
  }

  /** When every index names a point, gathering keeps them all, in order. */
  lemma {:induction false} GatherAll(points: seq<Vec3>, indices: seq<nat>)
    requires forall k :: 0 <= k < |indices| ==> indices[k] < |points|
    ensures |Gather(points, indices)| == |indices|
    ensures forall k :: 0 <= k < |indices| ==> Gather(points, indices)[k] == points[indices[k]]
  {
    if indices != [] {
      GatherAll(points, indices[1..]);
    }
  }

  /** A full face gathers every point of a region. */
  lemma GatherRegion(points: seq<Vec3>, region: FaceRegion)
    requires |points| >= FaceMeshLandmarkCount
    ensures forall k :: 0 <= k < |FaceLandmarks(region)| ==> FaceLandmarks(region)[k] < |points|
    ensures |Gather(points, FaceLandmarks(region))| == |FaceLandmarks(region)|
    ensures forall k :: 0 <= k < |FaceLandmarks(region)| ==>
      Gather(points, FaceLandmarks(region))[k] == points[FaceLandmarks(region)[k]]
  {
    FaceLandmarksInRange(region);
    GatherAll(points, FaceLandmarks(region));
  }

  /** `[...ps, ps[0]]` for a non-empty list, nothing for an empty one. */
  function ClosedPolyline(ps: seq<Vec3>): (r: seq<Vec3>)
    ensures ps == [] <==> r == []
    ensures ps != [] ==> |r| == |ps| + 1 && r[..|ps|] == ps && r[|r| - 1] == r[0]
  {
    if |ps| > 0 then ps + [ps[0]] else []
  }

  /** The oval contour. */
  function ContourLines(points: seq<Vec3>, showContours: bool): (r: seq<seq<Vec3>>)
  {
    if |points| < FaceMeshLandmarkCount || !showContours then []
    else
      var oval := Gather(points, FaceOvalIndices);
      if |oval| > 0 then [ClosedPolyline(oval)] else []
  }

  /** The eye and eyebrow lines of each side. */
  datatype EyeLines = EyeLines(left: seq<seq<Vec3>>, right: seq<seq<Vec3>>)

  /** The closed eye line and the open brow line of one side, leaving out an empty one. */
  function SideLines(points: seq<Vec3>, eye: seq<nat>, brow: seq<nat>): seq<seq<Vec3>>
  {
    Filter([ClosedPolyline(Gather(points, eye)), Gather(points, brow)], (arr: seq<Vec3>) => |arr| > 0)
  }

  function EyeContours(points: seq<Vec3>, showEyes: bool): (r: EyeLines)
  {
    if |points| < FaceMeshLandmarkCount || !showEyes then EyeLines([], [])
    else EyeLines(SideLines(points, LeftEyeIndices, LeftEyebrowIndices), SideLines(points, RightEyeIndices, RightEyebrowIndices))
  }

  /** The closed outer and inner lip lines, leaving out an empty one. */
  function LipLines(points: seq<Vec3>, showLips: bool): (r: seq<seq<Vec3>>)
  {
    if |points| < FaceMeshLandmarkCount || !showLips then []
    else
      var outer := Gather(points, LipsOuterIndices);
      var inner := Gather(points, LipsInnerIndices);
      (if |outer| > 0 then [ClosedPolyline(outer)] else []) + (if |inner| > 0 then [ClosedPolyline(inner)] else [])
  }

  /** The nose points, not closed. */
  function NosePoints(points: seq<Vec3>): (r: seq<Vec3>)
  {
    if |points| < FaceMeshLandmarkCount then [] else Gather(points, NoseIndices)
  }

  /** Every third point, starting with the first. */
  function WireframePoints(points: seq<Vec3>, showWireframe: bool): (r: seq<Vec3>)
  {
    if |points| < FaceMeshLandmarkCount || !showWireframe then [] else EveryThird(points)
  }

  /** `points.filter((_, i) => i % 3 === 0)` */
  function EveryThird(points: seq<Vec3>): (r: seq<Vec3>)
  {
    if points == [] then []
    else EveryThird(points[..|points| - 1]) + (if (|points| - 1) % 3 == 0 then [points[|points| - 1]] else [])
  }

  /** One point in three is kept: the first of every run of three. */
  lemma {:induction false} EveryThirdLength(points: seq<Vec3>)
    ensures |EveryThird(points)| == (|points| + 2) / 3
  {
    if points != [] {
      EveryThirdLength(points[..|points| - 1]);
    }
  }

  /** Exactly the points at indices divisible by three are kept, in order. */
  lemma {:induction false} EveryThirdSamples(points: seq<Vec3>)
    ensures |EveryThird(points)| == (|points| + 2) / 3
    ensures forall k :: 0 <= k < |EveryThird(points)| ==> EveryThird(points)[k] == points[3 * k]
  {
    EveryThirdLength(points);
    if points != [] {
      var last := |points| - 1;
      var init := points[..last];
      EveryThirdSamples(init);
      var r := EveryThird(points);
      var ri := EveryThird(init);
      assert r == ri + (if last % 3 == 0 then [points[last]] else []);
      forall k | 0 <= k < |r|
        ensures r[k] == points[3 * k]
      {
        if k < |ri| {
          assert r[k] == ri[k] == init[3 * k];
        } else {
          assert last % 3 == 0 && 3 * k == last;
        }
      }
    }
  }

  /** The mesh buffers: three coordinates per point, and three indices per drawable triangle. */
  datatype MeshGeometry = MeshGeometry(vertices: seq<real>, indices: seq<nat>)

  /** `vertices.push(p.x, p.y, p.z)` for every point. */
  function Vertices(points: seq<Vec3>): (r: seq<real>)
  {
    if points == [] then []
    else var p := points[|points| - 1]; Vertices(points[..|points| - 1]) + [p.x, p.y, p.z]
  }

  /** Point `i` occupies coordinates `3i`, `3i+1` and `3i+2`. */
  lemma {:induction false} VerticesLayout(points: seq<Vec3>)
    ensures |Vertices(points)| == 3 * |points|
    ensures forall i :: 0 <= i < |points| ==>
      Vertices(points)[3 * i] == points[i].x && Vertices(points)[3 * i + 1] == points[i].y && Vertices(points)[3 * i + 2] == points[i].z
  {
    if points != [] {
      var init := points[..|points| - 1];
      VerticesLayout(init);
      assert forall i :: 0 <= i < |init| ==> init[i] == points[i];
    }
  }

  /** The indices of the triangles whose three points all exist. */
  function TriangleIndices(points: seq<Vec3>, triangles: seq<Triangle>): (r: seq<nat>)
    ensures forall k :: 0 <= k < |r| ==> r[k] < |points|
    ensures |r| <= 3 * |triangles|
  {
    if triangles == [] then []
    else
      var t := triangles[0];
      (if t.a < |points| && t.b < |points| && t.c < |points| then [t.a, t.b, t.c] else [])
        + TriangleIndices(points, triangles[1..])
  }

  /** When every triangle's points exist, every triangle is drawn, in order. */
  lemma {:induction false} TriangleIndicesAll(points: seq<Vec3>, triangles: seq<Triangle>)
    requires forall i :: 0 <= i < |triangles| ==> triangles[i].a < |points| && triangles[i].b < |points| && triangles[i].c < |points|
    ensures |TriangleIndices(points, triangles)| == 3 * |triangles|
    ensures forall i :: 0 <= i < |triangles| ==>
      TriangleIndices(points, triangles)[3 * i] == triangles[i].a &&
      TriangleIndices(points, triangles)[3 * i + 1] == triangles[i].b &&
      TriangleIndices(points, triangles)[3 * i + 2] == triangles[i].c
  {
    if triangles != [] {
      var rest := triangles[1..];
      TriangleIndicesAll(points, rest);
      assert forall i :: 1 <= i < |triangles| ==> triangles[i] == rest[i - 1];
    }
  }

  /** The mesh geometry, or none for a partial face or when the mesh is hidden. */
  function FaceMeshGeometry(points: seq<Vec3>, showMesh: bool): (r: Option<MeshGeometry>)
  {
    if |points| < FaceMeshLandmarkCount || !showMesh then None
    else Some(MeshGeometry(Vertices(points), TriangleIndices(points, FanTriangles(FaceOvalIndices, NoseTip))))
  }

  /** A missing or partial face yields no contour, eye, lip, nose, mesh or wireframe output. */
  lemma PartialFaceDrawsNothing(landmarks: Option<seq<MeshLandmark>>, scale: real, offset: Vec3, show: bool)
    requires landmarks.None? || |landmarks.value| < FaceMeshLandmarkCount
    ensures var points := ScenePoints(landmarks, scale, offset);
      points == [] && ContourLines(points, show) == [] && EyeContours(points, show) == EyeLines([], []) &&
      LipLines(points, show) == [] && NosePoints(points) == [] &&
      FaceMeshGeometry(points, show) == None && WireframePoints(points, show) == []
  {
  }

  /** A full face with contours shown draws the oval closed: 37 points, ending where it starts. */
  lemma FullFaceContour(points: seq<Vec3>)
    requires |points| >= FaceMeshLandmarkCount
    ensures var c := ContourLines(points, true);
      |c| == 1 && |c[0]| == 37 && c[0][0] == c[0][36] == points[FaceOvalIndices[0]]
  {
    FaceRegionSizes();
    GatherRegion(points, FaceOval);
  }

  /** A full face with eyes shown draws, per side, the closed eye (17 points) and the open brow (10). */
  lemma FullFaceEyes(points: seq<Vec3>)
    requires |points| >= FaceMeshLandmarkCount
    ensures var e := EyeContours(points, true);
      |e.left| == 2 && |e.left[0]| == 17 && |e.left[1]| == 10 &&
      |e.right| == 2 && |e.right[0]| == 17 && |e.right[1]| == 10
  {
    FaceRegionSizes();
    GatherRegion(points, LeftEye);
    GatherRegion(points, RightEye);
    GatherRegion(points, LeftEyebrow);
    GatherRegion(points, RightEyebrow);
    var l := [ClosedPolyline(Gather(points, LeftEyeIndices)), Gather(points, LeftEyebrowIndices)];
    assert Filter(l, (arr: seq<Vec3>) => |arr| > 0) == l;
    var r := [ClosedPolyline(Gather(points, RightEyeIndices)), Gather(points, RightEyebrowIndices)];
    assert Filter(r, (arr: seq<Vec3>) => |arr| > 0) == r;
  }

  /** A full face with lips shown draws the closed outer and inner lips, 21 points each; the nose has 11. */
  lemma FullFaceLipsAndNose(points: seq<Vec3>)
    requires |points| >= FaceMeshLandmarkCount
    ensures var l := LipLines(points, true); |l| == 2 && |l[0]| == 21 && |l[1]| == 21
    ensures |NosePoints(points)| == 11
  {
    FaceRegionSizes();
    GatherRegion(points, LipsOuter);
    GatherRegion(points, LipsInner);
    GatherRegion(points, Nose);
  }

  /**
   * A full face with the mesh shown has three coordinates per point and all 36 fan
   * triangles; with the wireframe shown, a third of the points (rounded up) are sampled.
   */
  lemma FullFaceMesh(points: seq<Vec3>)
    requires |points| >= FaceMeshLandmarkCount
    ensures |WireframePoints(points, true)| == (|points| + 2) / 3
    ensures var g := FaceMeshGeometry(points, true);
      g.Some? && |g.value.vertices| == 3 * |points| && |g.value.indices| == 3 * 36
  {
    EveryThirdSamples(points);
    VerticesLayout(points);
    FaceFanInRange();
    TriangleIndicesAll(points, FanTriangles(FaceOvalIndices, NoseTip));
  }
}
