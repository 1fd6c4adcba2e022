/**
 * The pose session store: the live frame buffer, per-joint motion trails, recording and
 * playback fields, and the display toggles, updated in place by the store's actions.
 */
module PoseStore {
  import opened Basics
  import opened Window
  import opened PoseTypes

  /** Capacity of the live buffer: about ten seconds at 30 frames per second. */
  const MaxBufferSize: nat := 300

  /** Trail length in points: about two seconds. */
  const DefaultTrajectoryLength: int := 60

  /** The joints whose trails are drawn initially: both wrists and both ankles. */
  const DefaultTrackedJoints: seq<nat> := [LeftWrist, RightWrist, LeftAnkle, RightAnkle]

  /** Trail colours, assigned by position in the tracked-joint list, cycling. */
  const TrajectoryColors: seq<string> := ["#ff6b6b", "#4ecdc4", "#45b7d1", "#96ceb4", "#ffeaa7", "#dfe6e9"]

  /** A landmark in trail display space: centred on the origin, doubled, with y pointing up. */
  function DisplayPoint(l: PoseLandmark, timestamp: real): (p: TrajectoryPoint)
  {
    TrajectoryPoint((l.x - 0.5) * 2.0, -(l.y - 0.5) * 2.0, l.z * 2.0, timestamp)
  }

  /** The landmark coordinates a display point came from. */
  function FromDisplay(p: TrajectoryPoint): (r: (real, real, real))
  {
    (p.x / 2.0 + 0.5, 0.5 - p.y / 2.0, p.z / 2.0)
  }

  /** Display space loses nothing: the landmark's coordinates can be read back from the point. */
  lemma DisplayPointRoundTrip(l: PoseLandmark, timestamp: real)
    ensures FromDisplay(DisplayPoint(l, timestamp)) == (l.x, l.y, l.z)
    ensures DisplayPoint(l, timestamp).timestamp == timestamp
  {
  }

  /** `trajectories.find(t => t.jointIndex === joint)`: the first trail of that joint. */
  function FindTrajectory(ts: seq<MotionTrajectory>, joint: nat): (r: Option<MotionTrajectory>)
    ensures r.None? <==> forall k :: 0 <= k < |ts| ==> ts[k].jointIndex != joint
    ensures r.Some? ==> r.value.jointIndex == joint
    ensures r.Some? ==>
      exists k :: 0 <= k < |ts| && ts[k] == r.value && (forall m :: 0 <= m < k ==> ts[m].jointIndex != joint)
  {
    if ts == [] then None
    else if ts[0].jointIndex == joint then Some(ts[0])
    else
      var rest := FindTrajectory(ts[1..], joint);
      assert forall k :: 1 <= k < |ts| ==> ts[k] == ts[1..][k - 1];
      rest
  }

  /** The trail's name: `joint_` followed by the index in decimal. */
  function JointLabel(joint: nat): (s: string)
  {
    "joint_" + NatToString(joint)
  }

  /** Distinct joints get distinct names, and the index can be read back from the name. */
  lemma JointLabelInjective(a: nat, b: nat)
    ensures JointLabel(a)[..6] == "joint_"
    ensures IsDecimal(JointLabel(a)[6..]) && DecimalValue(JointLabel(a)[6..]) == a
    ensures JointLabel(a) == JointLabel(b) ==> a == b
  {
    assert JointLabel(a)[6..] == NatToString(a);
    assert JointLabel(b)[6..] == NatToString(b);
    DecimalRoundTrip(a);
    NatToStringInjective(a, b);
  }

  /** The colour of the trail at position `i` of the tracked-joint list. */
  function TrajectoryColor(i: nat): (c: string)
    ensures c in TrajectoryColors
    ensures c == TrajectoryColors[i % |TrajectoryColors|]
  {
    TrajectoryColors[i % 6]
  }

  /** `addFrame`'s trail for the `i`-th tracked joint. */
  function RebuiltTrajectory(old_: seq<MotionTrajectory>, frame: PoseFrame, joint: nat, i: nat, trajectoryLength: int): MotionTrajectory
    requires joint < |frame.landmarks|
  {
    var p := DisplayPoint(frame.landmarks[joint], frame.timestamp);
    var points := match FindTrajectory(old_, joint)
      case Some(t) => SliceLast(t.points + [p], trajectoryLength)
      case None => [p];
    MotionTrajectory(JointLabel(joint), joint, points, TrajectoryColor(i))
  }

  /** `addFrame`'s trails: one per tracked joint, in the tracked-joint order. */
  function RebuiltTrajectories(old_: seq<MotionTrajectory>, frame: PoseFrame, joints: seq<nat>, trajectoryLength: int): (r: seq<MotionTrajectory>)
    requires forall k :: 0 <= k < |joints| ==> joints[k] < |frame.landmarks|
    ensures |r| == |joints|
  {
    seq(|joints|, i requires 0 <= i < |joints| => RebuiltTrajectory(old_, frame, joints[i], i, trajectoryLength))
  }

  /**
   * After a frame, trail `i` belongs to tracked joint `i`, is named after it and coloured by
   * position. A joint without a trail starts one with just the new point; otherwise the new
   * point is appended and the trail cut to the `trajectoryLength` most recent points. Either
   * way the newest point is the frame's, at the frame's timestamp.
   */
  lemma TrajectoriesAfterFrame(old_: seq<MotionTrajectory>, frame: PoseFrame, joints: seq<nat>, trajectoryLength: int, i: nat)
    requires forall k :: 0 <= k < |joints| ==> joints[k] < |frame.landmarks|
    requires i < |joints|
    ensures var t := RebuiltTrajectories(old_, frame, joints, trajectoryLength)[i];
      var p := DisplayPoint(frame.landmarks[joints[i]], frame.timestamp);
      t.jointIndex == joints[i] && t.joint == JointLabel(joints[i]) &&
      t.color == TrajectoryColors[i % 6] &&
      (FindTrajectory(old_, joints[i]).None? ==> t.points == [p]) &&
      (FindTrajectory(old_, joints[i]).Some? && trajectoryLength >= 1 ==>
        t.points == Last(FindTrajectory(old_, joints[i]).value.points + [p], trajectoryLength) &&
        1 <= |t.points| <= trajectoryLength) &&
      (trajectoryLength >= 1 ==> t.points != [] && t.points[|t.points| - 1] == p)
  {
    var t := RebuiltTrajectories(old_, frame, joints, trajectoryLength)[i];
    var p := DisplayPoint(frame.landmarks[joints[i]], frame.timestamp);
    assert t == RebuiltTrajectory(old_, frame, joints[i], i, trajectoryLength);
  }

  /** Every trail is cut at `trajectoryLength` points, so a trail never holds more (for a positive length). */
  lemma TrajectoryPointsBounded(old_: seq<MotionTrajectory>, frame: PoseFrame, joints: seq<nat>, trajectoryLength: int, i: nat)
    requires forall k :: 0 <= k < |joints| ==> joints[k] < |frame.landmarks|
    requires i < |joints| && trajectoryLength >= 1
    ensures 1 <= |RebuiltTrajectories(old_, frame, joints, trajectoryLength)[i].points| <= trajectoryLength
  {
    TrajectoriesAfterFrame(old_, frame, joints, trajectoryLength, i);
  }

  /** The whole store state, for stating that an action changes exactly what it names. */
  datatype PoseState = PoseState(
    captureState: CaptureState,
    visualizationMode: VisualizationMode,
    currentFrame: Option<PoseFrame>,
    frameBuffer: seq<PoseFrame>,
    maxBufferSize: nat,
    trajectories: seq<MotionTrajectory>,
    trackedJoints: seq<nat>,
    isRecording: bool,
    recordedFrames: seq<PoseFrame>,
    recordingStartTime: Option<real>,
    isPlaying: bool,
    playbackIndex: int,
    playbackSpeed: real,
    showSkeleton: bool,
    showTrajectory: bool,
    showMetrics: bool,
    trajectoryLength: int)

  /** The store as created. */
  function InitialState(): (s: PoseState)
  {
    PoseState(Idle, Both, None, [], MaxBufferSize, [], DefaultTrackedJoints, false, [], None,
      false, 0, 1.0, true, true, true, DefaultTrajectoryLength)
  }

  /** The state `reset` returns to: sessions' data cleared, settings kept. */
  function ResetState(s: PoseState): (r: PoseState)
  {
    s.(captureState := Idle, currentFrame := None, frameBuffer := [], trajectories := [],
       isRecording := false, recordedFrames := [], recordingStartTime := None,
       isPlaying := false, playbackIndex := 0)
  }

  /** Resetting clears every session field to its initial value and keeps every setting. */
  lemma ResetRestoresSession(s: PoseState)
    ensures var r := ResetState(s); var i := InitialState();
      r.captureState == i.captureState && r.currentFrame == i.currentFrame &&
      r.frameBuffer == i.frameBuffer && r.trajectories == i.trajectories &&
      r.isRecording == i.isRecording && r.recordedFrames == i.recordedFrames &&
      r.recordingStartTime == i.recordingStartTime && r.isPlaying == i.isPlaying &&
      r.playbackIndex == i.playbackIndex
    ensures var r := ResetState(s);
      r.visualizationMode == s.visualizationMode && r.trackedJoints == s.trackedJoints &&
      r.trajectoryLength == s.trajectoryLength && r.maxBufferSize == s.maxBufferSize &&
      r.showSkeleton == s.showSkeleton && r.showTrajectory == s.showTrajectory &&
      r.showMetrics == s.showMetrics && r.playbackSpeed == s.playbackSpeed
    ensures ResetState(ResetState(s)) == ResetState(s)
    ensures ResetState(InitialState()) == InitialState()
  {
  }

  /** The trails either have not been built yet or follow the tracked joints one for one. */
  predicate TrajectoriesFollowJoints(trajectories: seq<MotionTrajectory>, joints: seq<nat>)
  {
    trajectories == [] ||
    (|trajectories| == |joints| && forall i :: 0 <= i < |joints| ==> trajectories[i].jointIndex == joints[i])
  }

  /** The buffer never exceeds its capacity and the trails follow the tracked joints. */
  predicate ValidState(s: PoseState)
  {
    |s.frameBuffer| <= s.maxBufferSize && TrajectoriesFollowJoints(s.trajectories, s.trackedJoints)
  }

  /** Every tracked joint indexes a landmark of the frame. */
  predicate JointsInFrame(joints: seq<nat>, frame: PoseFrame)
  {
    forall k :: 0 <= k < |joints| ==> joints[k] < |frame.landmarks|
  }

  /** The state after `addFrame`: buffer, current frame, trails and recording updated; nothing else. */
  function FrameAdded(s: PoseState, frame: PoseFrame): (r: PoseState)
    requires JointsInFrame(s.trackedJoints, frame)
  {
    s.(currentFrame := Some(frame),
       frameBuffer := Pushed(s.frameBuffer, frame, s.maxBufferSize),
       trajectories := RebuiltTrajectories(s.trajectories, frame, s.trackedJoints, s.trajectoryLength),
       recordedFrames := if s.isRecording then s.recordedFrames + [frame] else s.recordedFrames)
  }

  /**
   * A frame keeps the store valid: the buffer holds the `maxBufferSize` most recent frames and
   * ends with the new one, and there is one trail per tracked joint, in order.
   */
  lemma FrameAddedValid(s: PoseState, frame: PoseFrame)
    requires ValidState(s) && JointsInFrame(s.trackedJoints, frame)
    ensures ValidState(FrameAdded(s, frame))
    ensures FrameAdded(s, frame).frameBuffer == Last(s.frameBuffer + [frame], s.maxBufferSize)
    ensures |FrameAdded(s, frame).frameBuffer| == MinInt(|s.frameBuffer| + 1, s.maxBufferSize)
    ensures |FrameAdded(s, frame).trajectories| == |s.trackedJoints|
  {
    var ts := RebuiltTrajectories(s.trajectories, frame, s.trackedJoints, s.trajectoryLength);
    forall i | 0 <= i < |s.trackedJoints|
      ensures ts[i].jointIndex == s.trackedJoints[i]
    {
      TrajectoriesAfterFrame(s.trajectories, frame, s.trackedJoints, s.trajectoryLength, i);
    }
    PushedIsWindow(s.frameBuffer, frame, s.maxBufferSize);
  }

  class PoseSession {
    var captureState: CaptureState
    var visualizationMode: VisualizationMode
    var currentFrame: Option<PoseFrame>
    var frameBuffer: seq<PoseFrame>
    var maxBufferSize: nat
    var trajectories: seq<MotionTrajectory>
    var trackedJoints: seq<nat>
    var isRecording: bool
    var recordedFrames: seq<PoseFrame>
    var recordingStartTime: Option<real>
    var isPlaying: bool
    var playbackIndex: int
    var playbackSpeed: real
    var showSkeleton: bool
    var showTrajectory: bool
    var showMetrics: bool
    var trajectoryLength: int

    function State(): PoseState
      reads this
    {
      PoseState(captureState, visualizationMode, currentFrame, frameBuffer, maxBufferSize, trajectories,
        trackedJoints, isRecording, recordedFrames, recordingStartTime, isPlaying, playbackIndex,
        playbackSpeed, showSkeleton, showTrajectory, showMetrics, trajectoryLength)
    }

    /** The buffer never exceeds its capacity and the trails follow the tracked joints. */
    predicate Valid()
      reads this
    {
      ValidState(State())
    }

    constructor()
      ensures State() == InitialState()
      ensures Valid()
    {
      captureState := Idle;
      visualizationMode := Both;
      currentFrame := None;
      frameBuffer := [];
      maxBufferSize := MaxBufferSize;
      trajectories := [];
      trackedJoints := DefaultTrackedJoints;
      isRecording := false;
      recordedFrames := [];
      recordingStartTime := None;
      isPlaying := false;
      playbackIndex := 0;
      playbackSpeed := 1.0;
      showSkeleton := true;
      showTrajectory := true;
      showMetrics := true;
      trajectoryLength := DefaultTrajectoryLength;
    }

    method SetCaptureState(state: CaptureState)
      modifies this
      ensures State() == old(State()).(captureState := state)
    {
      captureState := state;
    }

    method SetVisualizationMode(mode: VisualizationMode)
      modifies this
      ensures State() == old(State()).(visualizationMode := mode)
    {
      visualizationMode := mode;
    }

    /** Push a frame into the bounded buffer and make it current. */
    method PushFrame(frame: PoseFrame)
      modifies this
      ensures State() == old(State()).(currentFrame := Some(frame), frameBuffer := Pushed(old(frameBuffer), frame, maxBufferSize))
    {
      var newBuffer := frameBuffer + [frame];
      if |newBuffer| > maxBufferSize {
        newBuffer := newBuffer[1..];
      }
      currentFrame := Some(frame);
      frameBuffer := newBuffer;
    }

    method ReplaceTrajectories(ts: seq<MotionTrajectory>)
      modifies this
      ensures State() == old(State()).(trajectories := ts)
    {
      trajectories := ts;
    }

    method RecordFrame(frame: PoseFrame)
      modifies this
      ensures State() == old(State()).(recordedFrames := old(recordedFrames) + [frame])
    {
      recordedFrames := recordedFrames + [frame];
    }

    /**
     * Take in one detection: push it into the bounded buffer, make it current, rebuild the
     * trails, and record it while recording. The source reads each tracked joint's landmark
     * unchecked, so every tracked joint must exist in the frame.
     */
    method AddFrame(frame: PoseFrame)
      requires Valid()
      requires JointsInFrame(trackedJoints, frame)
      modifies this
      ensures State() == FrameAdded(old(State()), frame)
      ensures Valid()
    {
      FrameAddedValid(State(), frame);
      var newTrajectories := RebuiltTrajectories(trajectories, frame, trackedJoints, trajectoryLength);
      var recording := isRecording;
      PushFrame(frame);
      ReplaceTrajectories(newTrajectories);
      if recording {
        RecordFrame(frame);
      }
    }

    method ClearFrames()
      modifies this
      ensures State() == old(State()).(currentFrame := None, frameBuffer := [], trajectories := [])
      ensures Valid()
    {
      currentFrame := None;
      frameBuffer := [];
      trajectories := [];
    }

    /** Changing the tracked joints drops every trail; they are rebuilt by the next frame. */
    method SetTrackedJoints(joints: seq<nat>)
      requires Valid()
      modifies this
      ensures State() == old(State()).(trackedJoints := joints, trajectories := [])
      ensures Valid()
    {
      trackedJoints := joints;
      trajectories := [];
    }

    /** Start a fresh recording at time `now` (milliseconds). */
    method StartRecording(now: real)
      modifies this
      ensures State() == old(State()).(isRecording := true, recordedFrames := [], recordingStartTime := Some(now))
      ensures Valid() <==> old(Valid())
    {
      isRecording := true;
      recordedFrames := [];
      recordingStartTime := Some(now);
    }

    /** Stop recording; the recorded frames stay for playback and export. */
    method StopRecording()
      modifies this
      ensures State() == old(State()).(isRecording := false, recordingStartTime := None)
      ensures Valid() <==> old(Valid())
    {
      isRecording := false;
      recordingStartTime := None;
    }

    method StartPlayback()
      modifies this
      ensures State() == old(State()).(isPlaying := true, playbackIndex := 0)
      ensures Valid() <==> old(Valid())
    {
      isPlaying := true;
      playbackIndex := 0;
    }

    method StopPlayback()
      modifies this
      ensures State() == old(State()).(isPlaying := false)
      ensures Valid() <==> old(Valid())
    {
      isPlaying := false;
    }

    /** The index is stored as given: this store does not clamp it to the recording. */
    method SetPlaybackIndex(index: int)
      modifies this
      ensures State() == old(State()).(playbackIndex := index)
      ensures Valid() <==> old(Valid())
    {
      playbackIndex := index;
    }

    method SetPlaybackSpeed(speed: real)
      modifies this
      ensures State() == old(State()).(playbackSpeed := speed)
      ensures Valid() <==> old(Valid())
    {
      playbackSpeed := speed;
    }

    method ToggleSkeleton()
      modifies this
      ensures State() == old(State()).(showSkeleton := !old(showSkeleton))
      ensures Valid() <==> old(Valid())
    {
      showSkeleton := !showSkeleton;
    }

    method ToggleTrajectory()
      modifies this
      ensures State() == old(State()).(showTrajectory := !old(showTrajectory))
      ensures Valid() <==> old(Valid())
    {
      showTrajectory := !showTrajectory;
    }

    method ToggleMetrics()
      modifies this
      ensures State() == old(State()).(showMetrics := !old(showMetrics))
      ensures Valid() <==> old(Valid())
    {
      showMetrics := !showMetrics;
    }

    /** The new length applies from the next frame on; existing trails are not cut now. */
    method SetTrajectoryLength(length: int)
      modifies this
      ensures State() == old(State()).(trajectoryLength := length)
      ensures Valid() <==> old(Valid())
    {
      trajectoryLength := length;
    }

    /** Part of `reset` (the store has no such action): cancel any recording and drop what was recorded. */
    method DiscardRecording()
      modifies this
      ensures State() == old(State()).(isRecording := false, recordedFrames := [], recordingStartTime := None)
      ensures Valid() <==> old(Valid())
    {
      isRecording := false;
      recordedFrames := [];
      recordingStartTime := None;
    }

    /** Part of `reset` (the store has no such action): stop playback and move the cursor back to the start. */
    method RewindPlayback()
      modifies this
      ensures State() == old(State()).(isPlaying := false, playbackIndex := 0)
      ensures Valid() <==> old(Valid())
    {
      isPlaying := false;
      playbackIndex := 0;
    }

    /** Return every session field to its initial value; settings and tracked joints are kept. */
    method Reset()
      modifies this
      ensures State() == ResetState(old(State()))
      ensures Valid()
    {
      SetCaptureState(Idle);
      ClearFrames();
      DiscardRecording();
      RewindPlayback();
    }
  }

  /** The state after one `addFrame` per element of `frames`, in order. */
  function FramesAdded(s: PoseState, frames: seq<PoseFrame>): (r: PoseState)
    requires forall f :: f in frames ==> JointsInFrame(s.trackedJoints, f)
    ensures r.trackedJoints == s.trackedJoints && r.isRecording == s.isRecording
    ensures r.maxBufferSize == s.maxBufferSize
    decreases |frames|
  {
    if frames == [] then s
    else
      var t := FramesAdded(s, frames[..|frames| - 1]);
      FrameAdded(t, frames[|frames| - 1])
  }

  /** Splitting off the last frame of a run: the fold's step. */
  lemma FramesAddedStep(s: PoseState, frames: seq<PoseFrame>)
    requires frames != []
    requires forall f :: f in frames ==> JointsInFrame(s.trackedJoints, f)
    ensures forall f :: f in frames[..|frames| - 1] ==> JointsInFrame(s.trackedJoints, f)
    ensures frames == frames[..|frames| - 1] + [frames[|frames| - 1]]
  {
    assert frames == frames[..|frames| - 1] + [frames[|frames| - 1]];
  }

  /** However long the run, the store stays valid. */
  lemma {:induction false} FramesAddedValid(s: PoseState, frames: seq<PoseFrame>)
    requires ValidState(s)
    requires forall f :: f in frames ==> JointsInFrame(s.trackedJoints, f)
    ensures ValidState(FramesAdded(s, frames))
    decreases |frames|
  {
    if frames != [] {
      FramesAddedStep(s, frames);
      var init := frames[..|frames| - 1];
      FramesAddedValid(s, init);
      FrameAddedValid(FramesAdded(s, init), frames[|frames| - 1]);
    }
  }

  /**
   * However long the run, the buffer ends up holding the most recent frames of everything it
   * has seen, in order, up to its capacity, and the last frame of the run is current.
   */
  lemma {:induction false} FramesAddedBuffer(s: PoseState, frames: seq<PoseFrame>)
    requires |s.frameBuffer| <= s.maxBufferSize
    requires forall f :: f in frames ==> JointsInFrame(s.trackedJoints, f)
    ensures FramesAdded(s, frames).frameBuffer == Last(s.frameBuffer + frames, s.maxBufferSize)
    ensures frames != [] ==> FramesAdded(s, frames).currentFrame == Some(frames[|frames| - 1])
    decreases |frames|
  {
    if frames == [] {
      assert s.frameBuffer + frames == s.frameBuffer;
    } else {
      FramesAddedStep(s, frames);
      var init := frames[..|frames| - 1];
      var x := frames[|frames| - 1];
      FramesAddedBuffer(s, init);
      PushedOntoLast(s.frameBuffer + init, x, s.maxBufferSize);
      assert s.frameBuffer + init + [x] == s.frameBuffer + frames;
    }
  }

  /** While recording, every frame of the run is appended to the recording; otherwise it is untouched. */
  lemma {:induction false} FramesAddedRecorded(s: PoseState, frames: seq<PoseFrame>)
    requires forall f :: f in frames ==> JointsInFrame(s.trackedJoints, f)
    ensures FramesAdded(s, frames).recordedFrames ==
      if s.isRecording then s.recordedFrames + frames else s.recordedFrames
    decreases |frames|
  {
    if frames == [] {
      assert s.recordedFrames + frames == s.recordedFrames;
    } else {
      FramesAddedStep(s, frames);
      var init := frames[..|frames| - 1];
      FramesAddedRecorded(s, init);
      assert s.recordedFrames + init + [frames[|frames| - 1]] == s.recordedFrames + frames;
    }
  }
}
