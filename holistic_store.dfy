/**
 * The holistic session store: the live buffer of combined pose, hand and face detections, the
 * tracking switches, and a recording that can be stepped through frame by frame.
 */
module HolisticStore {
  import opened Basics
  import opened Window
  import opened MeshTypes

  /** Capacity of the live buffer: about ten seconds at 30 frames per second. */
  const MaxBufferSize: nat := 300

  /** `{ ...current, ...update }`: every flag the update names is replaced, the others kept. */
  function MergeTargets(current: TrackingTarget, update: PartialTrackingTarget): (r: TrackingTarget)
  {
    TrackingTarget(
      update.pose.GetOr(current.pose),
      update.leftHand.GetOr(current.leftHand),
      update.rightHand.GetOr(current.rightHand),
      update.face.GetOr(current.face))
  }

  /** The update that names no flag. */
  const NoUpdate: PartialTrackingTarget := PartialTrackingTarget(None, None, None, None)

  /** Two updates applied one after the other, as one: the later one wins where both name a flag. */
  function ThenUpdate(first: PartialTrackingTarget, second: PartialTrackingTarget): PartialTrackingTarget
  {
    PartialTrackingTarget(
      if second.pose.Some? then second.pose else first.pose,
      if second.leftHand.Some? then second.leftHand else first.leftHand,
      if second.rightHand.Some? then second.rightHand else first.rightHand,
      if second.face.Some? then second.face else first.face)
  }

  /** The update that sets every flag to the value it has in `t`. */
  function FullUpdate(t: TrackingTarget): PartialTrackingTarget
  {
    PartialTrackingTarget(Some(t.pose), Some(t.leftHand), Some(t.rightHand), Some(t.face))
  }

  /** A flag the update names takes the update's value; a flag it leaves out keeps its value. */
  lemma MergeTargetsFlags(t: TrackingTarget, p: PartialTrackingTarget)
    ensures MergeTargets(t, p).pose == if p.pose.Some? then p.pose.value else t.pose
    ensures MergeTargets(t, p).leftHand == if p.leftHand.Some? then p.leftHand.value else t.leftHand
    ensures MergeTargets(t, p).rightHand == if p.rightHand.Some? then p.rightHand.value else t.rightHand
    ensures MergeTargets(t, p).face == if p.face.Some? then p.face.value else t.face
  {
  }

  /** Merging nothing changes nothing; an update naming every flag replaces the switches outright. */
  lemma MergeTargetsExtremes(t: TrackingTarget, u: TrackingTarget)
    ensures MergeTargets(t, NoUpdate) == t
    ensures MergeTargets(t, FullUpdate(u)) == u
  {
  }

  /** Merging the same update again changes nothing more. */
  lemma MergeTargetsIdempotent(t: TrackingTarget, p: PartialTrackingTarget)
    ensures MergeTargets(MergeTargets(t, p), p) == MergeTargets(t, p)
  {
    MergeTargetsFlags(t, p);
    MergeTargetsFlags(MergeTargets(t, p), p);
  }

  /** Two merges in a row are one merge of the combined update. */
  lemma MergeTargetsCompose(t: TrackingTarget, p: PartialTrackingTarget, q: PartialTrackingTarget)
    ensures MergeTargets(MergeTargets(t, p), q) == MergeTargets(t, ThenUpdate(p, q))
  {
    MergeTargetsFlags(t, p);
    MergeTargetsFlags(MergeTargets(t, p), q);
    MergeTargetsFlags(t, ThenUpdate(p, q));
  }

  /** `Math.max(0, Math.min(index, length - 1))` */
  function ClampPlaybackIndex(index: int, length: nat): (r: int)
    ensures length == 0 ==> r == 0
    ensures length > 0 ==> 0 <= r < length
    ensures 0 <= index < length ==> r == index
    ensures index < 0 ==> r == 0
    ensures length > 0 && index >= length ==> r == length - 1
  {
    MaxInt(0, MinInt(index, length - 1))
  }

  /** `frames[i] || null`: the frame at `i`, or nothing outside the recording. */
  function FrameAt(frames: seq<HolisticFrame>, i: int): (r: Option<HolisticFrame>)
    ensures r.Some? <==> 0 <= i < |frames|
    ensures r.Some? ==> r.value == frames[i]
  {
    if 0 <= i < |frames| then Some(frames[i]) else None
  }

  /** The whole store state, for stating that an action changes exactly what it names. */
  datatype HolisticState = HolisticState(
    currentFrame: Option<HolisticFrame>,
    frameBuffer: seq<HolisticFrame>,
    maxBufferSize: nat,
    visualizationMode: MeshVisualizationMode,
    trackingTargets: TrackingTarget,
    isRecording: bool,
    recordedFrames: seq<HolisticFrame>,
    isPlaying: bool,
    playbackIndex: int,
    playbackSpeed: real)

  /** The store as created: skeleton view, every part tracked, nothing recorded. */
  function InitialState(): HolisticState
  {
    HolisticState(None, [], MaxBufferSize, Skeleton, TrackingTarget(true, true, true, true),
      false, [], false, 0, 1.0)
  }

  /** The buffer never exceeds its capacity and the playback cursor is never negative. */
  predicate ValidState(s: HolisticState)
  {
    |s.frameBuffer| <= s.maxBufferSize && s.playbackIndex >= 0
  }

  /** The state after `addFrame`: buffer, current frame and recording updated; nothing else. */
  function FrameAdded(s: HolisticState, frame: HolisticFrame): HolisticState
  {
    s.(currentFrame := Some(frame),
       frameBuffer := Pushed(s.frameBuffer, frame, s.maxBufferSize),
       recordedFrames := if s.isRecording then s.recordedFrames + [frame] else s.recordedFrames)
  }

  /** A frame keeps the store valid and leaves the `maxBufferSize` most recent frames in the buffer. */
  lemma FrameAddedValid(s: HolisticState, frame: HolisticFrame)
    requires ValidState(s)
    ensures ValidState(FrameAdded(s, frame))
    ensures FrameAdded(s, frame).frameBuffer == Last(s.frameBuffer + [frame], s.maxBufferSize)
    ensures s.maxBufferSize >= 1 ==> Last(FrameAdded(s, frame).frameBuffer, 1) == [frame]
  {
    PushedIsWindow(s.frameBuffer, frame, s.maxBufferSize);
  }

  /** The state after `setPlaybackIndex`: the clamped cursor and the frame under it. */
  function PlaybackIndexSet(s: HolisticState, index: int): HolisticState
  {
    var i := ClampPlaybackIndex(index, |s.recordedFrames|);
    s.(playbackIndex := i, currentFrame := FrameAt(s.recordedFrames, i))
  }

  /**
   * With frames recorded, the cursor lands inside the recording, on the requested frame when
   * that exists, and the current frame is the one under it; with none, it goes to 0 and no
   * frame is current.
   */
  lemma PlaybackIndexSetShowsFrame(s: HolisticState, index: int)
    ensures var r := PlaybackIndexSet(s, index);
      |s.recordedFrames| > 0 ==>
        0 <= r.playbackIndex < |s.recordedFrames| && r.currentFrame == Some(s.recordedFrames[r.playbackIndex])
    ensures var r := PlaybackIndexSet(s, index);
      0 <= index < |s.recordedFrames| ==> r.playbackIndex == index && r.currentFrame == Some(s.recordedFrames[index])
    ensures var r := PlaybackIndexSet(s, index);
      |s.recordedFrames| == 0 ==> r.playbackIndex == 0 && r.currentFrame == None
  {
  }

  /** The state after `nextFrame`: one frame on, unless the cursor is at (or past) the last frame. */
  function SteppedForward(s: HolisticState): HolisticState
  {
    if s.playbackIndex < |s.recordedFrames| - 1 then
      s.(playbackIndex := s.playbackIndex + 1, currentFrame := FrameAt(s.recordedFrames, s.playbackIndex + 1))
    else s
  }

  /** The state after `prevFrame`: one frame back, unless the cursor is at the first frame. */
  function SteppedBack(s: HolisticState): HolisticState
  {
    if s.playbackIndex > 0 then
      s.(playbackIndex := s.playbackIndex - 1, currentFrame := FrameAt(s.recordedFrames, s.playbackIndex - 1))
    else s
  }

  /**
   * From a cursor that is not negative, a step in either direction moves it by one and shows
   * the frame it lands on when it can move, and changes nothing when it cannot.
   */
  lemma StepsShowFrames(s: HolisticState)
    requires s.playbackIndex >= 0
    ensures var r := SteppedForward(s);
      if s.playbackIndex < |s.recordedFrames| - 1
      then r.playbackIndex == s.playbackIndex + 1 && r.currentFrame == Some(s.recordedFrames[r.playbackIndex])
      else r == s
    ensures var r := SteppedBack(s);
      if s.playbackIndex > 0
      then r.playbackIndex == s.playbackIndex - 1 && r.playbackIndex >= 0
      else r == s
    ensures var r := SteppedBack(s);
      0 < s.playbackIndex <= |s.recordedFrames| ==> r.currentFrame == Some(s.recordedFrames[r.playbackIndex])
  {
  }

  /**
   * `startRecording` empties the recording but keeps the cursor, so a step back from a cursor
   * left beyond the new recording lands outside it and leaves no current frame.
   */
  lemma StaleCursorStepBack(s: HolisticState)
    requires s.playbackIndex > |s.recordedFrames|
    ensures SteppedBack(s).playbackIndex == s.playbackIndex - 1
    ensures SteppedBack(s).currentFrame == None
  {
  }

  /** A step forward undone by a step back, and the other way round, returns to the same frame. */
  lemma StepsUndo(s: HolisticState)
    ensures 0 <= s.playbackIndex < |s.recordedFrames| - 1 ==>
      SteppedBack(SteppedForward(s)) == s.(currentFrame := Some(s.recordedFrames[s.playbackIndex]))
    ensures 0 < s.playbackIndex < |s.recordedFrames| ==>
      SteppedForward(SteppedBack(s)) == s.(currentFrame := Some(s.recordedFrames[s.playbackIndex]))
  {
  }

  /** The state after `n` calls of `nextFrame`. */
  function SteppedForwardTimes(s: HolisticState, n: nat): HolisticState
  {
    if n == 0 then s else SteppedForward(SteppedForwardTimes(s, n - 1))
  }

  /**
   * Playing forward `n` steps moves the cursor `n` frames on but stops at the last frame;
   * a cursor already beyond the end stays where it is. Each step only touches the cursor
   * and the current frame.
   */
  lemma {:induction false} SteppedForwardTimesStopsAtEnd(s: HolisticState, n: nat)
    requires s.playbackIndex >= 0
    ensures var r := SteppedForwardTimes(s, n);
      r.playbackIndex == MinInt(s.playbackIndex + n, MaxInt(s.playbackIndex, |s.recordedFrames| - 1))
    ensures var r := SteppedForwardTimes(s, n);
      r.recordedFrames == s.recordedFrames && r.frameBuffer == s.frameBuffer && r.isRecording == s.isRecording
    ensures var r := SteppedForwardTimes(s, n);
      r.playbackIndex != s.playbackIndex ==> r.currentFrame == Some(s.recordedFrames[r.playbackIndex])
  {
    if n > 0 {
      SteppedForwardTimesStopsAtEnd(s, n - 1);
      StepsShowFrames(SteppedForwardTimes(s, n - 1));
    }
  }

  class HolisticSession {
    var currentFrame: Option<HolisticFrame>
    var frameBuffer: seq<HolisticFrame>
    var maxBufferSize: nat
    var visualizationMode: MeshVisualizationMode
    var trackingTargets: TrackingTarget
    var isRecording: bool
    var recordedFrames: seq<HolisticFrame>
    var isPlaying: bool
    var playbackIndex: int
    var playbackSpeed: real

    function State(): HolisticState
      reads this
    {
      HolisticState(currentFrame, frameBuffer, maxBufferSize, visualizationMode, trackingTargets,
        isRecording, recordedFrames, isPlaying, playbackIndex, playbackSpeed)
    }

    /** The buffer never exceeds its capacity and the playback cursor is never negative. */
    predicate Valid()
      reads this
    {
      ValidState(State())
    }

    constructor()
      ensures State() == InitialState()
      ensures Valid()
    {
      currentFrame := None;
      frameBuffer := [];
      maxBufferSize := MaxBufferSize;
      visualizationMode := Skeleton;
      trackingTargets := TrackingTarget(true, true, true, true);
      isRecording := false;
      recordedFrames := [];
      isPlaying := false;
      playbackIndex := 0;
      playbackSpeed := 1.0;
    }

    method SetCurrentFrame(frame: HolisticFrame)
      modifies this
      ensures State() == old(State()).(currentFrame := Some(frame))
      ensures Valid() <==> old(Valid())
    {
      currentFrame := Some(frame);
    }

    /** Push a frame into the bounded buffer, make it current, and record it while recording. */
    method AddFrame(frame: HolisticFrame)
      requires Valid()
      modifies this
      ensures State() == FrameAdded(old(State()), frame)
      ensures Valid()
    {
      FrameAddedValid(State(), frame);
      var newBuffer := frameBuffer + [frame];
      if |newBuffer| > maxBufferSize {
        newBuffer := newBuffer[1..];
      }
      var newRecorded := if isRecording then recordedFrames + [frame] else recordedFrames;
      currentFrame := Some(frame);
      frameBuffer := newBuffer;
      recordedFrames := newRecorded;
    }

    /** Empty the live buffer; the recording is kept. */
    method ClearFrames()
      requires Valid()
      modifies this
      ensures State() == old(State()).(currentFrame := None, frameBuffer := [])
      ensures Valid()
    {
      currentFrame := None;
      frameBuffer := [];
    }

    method SetVisualizationMode(mode: MeshVisualizationMode)
      modifies this
      ensures State() == old(State()).(visualizationMode := mode)
      ensures Valid() <==> old(Valid())
    {
      visualizationMode := mode;
    }

    method SetTrackingTargets(targets: PartialTrackingTarget)
      modifies this
      ensures State() == old(State()).(trackingTargets := MergeTargets(old(trackingTargets), targets))
      ensures Valid() <==> old(Valid())
    {
      trackingTargets := MergeTargets(trackingTargets, targets);
    }

    /** Start a fresh recording; the playback cursor is left where it was. */
    method StartRecording()
      modifies this
      ensures State() == old(State()).(isRecording := true, recordedFrames := [])
      ensures Valid() <==> old(Valid())
    {
      isRecording := true;
      recordedFrames := [];
    }

    method StopRecording()
      modifies this
      ensures State() == old(State()).(isRecording := false)
      ensures Valid() <==> old(Valid())
    {
      isRecording := false;
    }

    /** Drop the recording and rewind the cursor; recording itself is not stopped. */
    method ClearRecording()
      requires Valid()
      modifies this
      ensures State() == old(State()).(recordedFrames := [], playbackIndex := 0)
      ensures Valid()
    {
      recordedFrames := [];
      playbackIndex := 0;
    }

    method StartPlayback()
      modifies this
      ensures State() == old(State()).(isPlaying := true)
      ensures Valid() <==> old(Valid())
    {
      isPlaying := true;
    }

    method StopPlayback()
      modifies this
      ensures State() == old(State()).(isPlaying := false)
      ensures Valid() <==> old(Valid())
    {
      isPlaying := false;
    }

    /** Move the cursor, clamped to the recording, and show the frame under it. */
    method SetPlaybackIndex(index: int)
      requires Valid()
      modifies this
      ensures State() == PlaybackIndexSet(old(State()), index)
      ensures Valid()
    {
      var clamped := MaxInt(0, MinInt(index, |recordedFrames| - 1));
      playbackIndex := clamped;
      currentFrame := if 0 <= clamped < |recordedFrames| then Some(recordedFrames[clamped]) else None;
    }

    method SetPlaybackSpeed(speed: real)
      modifies this
      ensures State() == old(State()).(playbackSpeed := speed)
      ensures Valid() <==> old(Valid())
    {
      playbackSpeed := speed;
    }

    /** Step the cursor one frame on, unless it is at the last frame. */
    method NextFrame()
      requires Valid()
      modifies this
      ensures State() == SteppedForward(old(State()))
      ensures Valid()
    {
      if playbackIndex < |recordedFrames| - 1 {
        playbackIndex := playbackIndex + 1;
        currentFrame := FrameAt(recordedFrames, playbackIndex);
      }
    }

    /** Step the cursor one frame back, unless it is at the first frame. */
    method PrevFrame()
      requires Valid()
      modifies this
      ensures State() == SteppedBack(old(State()))
      ensures Valid()
    {
      if playbackIndex > 0 {
        playbackIndex := playbackIndex - 1;
        currentFrame := FrameAt(recordedFrames, playbackIndex);
      }
    }
  }
}
