/**
 * The live metrics panel: the average wrist speeds over the most recent frames, the
 * left/right symmetry of the current pose, and the traffic-light status of that score.
 */
module MetricsPanel {
  import opened Basics
  import opened Window
  import opened PoseTypes
  import opened Kinematics

  /** How many of the most recent frames the wrist speeds are averaged over. */
  const RecentFrames: nat := 10

  /** The frames the speed average looks at: `frameBuffer.slice(-10)`. */
  function Recent(frameBuffer: seq<PoseFrame>): (r: seq<PoseFrame>)
    ensures r == Last(frameBuffer, RecentFrames)
  {
    SliceLast(frameBuffer, RecentFrames)
  }

  /** The source reads the joint in every recent frame whose successor is later. */
  predicate WristsReadable(frameBuffer: seq<PoseFrame>)
  {
    PairsDefined(Recent(frameBuffer), LeftWrist) && PairsDefined(Recent(frameBuffer), RightWrist)
  }

  /** The mean speed of `joint` over the consecutive pairs of the recent frames; 0 with fewer than two frames. */
  function AverageSpeed(norm: NormFn, frameBuffer: seq<PoseFrame>, joint: nat): (v: real)
    requires PairsDefined(Recent(frameBuffer), joint)
  {
    if |frameBuffer| < 2 then 0.0 else Mean(VelocitySeries(norm, Recent(frameBuffer), joint))
  }

  /**
   * The average is over `min(10, n) - 1` pairs; it is never negative, it is bounded by the
   * fastest pair, and it is 0 when no recent pair moves.
   */
  lemma AverageSpeedBounds(norm: NormFn, frameBuffer: seq<PoseFrame>, joint: nat, top: real)
    requires PairsDefined(Recent(frameBuffer), joint)
    requires |frameBuffer| >= 2
    requires forall i :: 0 <= i < |VelocitySeries(norm, Recent(frameBuffer), joint)| ==>
      VelocitySeries(norm, Recent(frameBuffer), joint)[i] <= top
    ensures |VelocitySeries(norm, Recent(frameBuffer), joint)| == MinInt(RecentFrames, |frameBuffer|) - 1
    ensures 0.0 <= AverageSpeed(norm, frameBuffer, joint) <= top
  {
    var vs := VelocitySeries(norm, Recent(frameBuffer), joint);
    MeanWithin(vs, 0.0, top);
  }

  /** No speed is reported for a still joint: when every recent pair is at rest the average is 0. */
  lemma AverageSpeedAtRest(norm: NormFn, frameBuffer: seq<PoseFrame>, joint: nat)
    requires PairsDefined(Recent(frameBuffer), joint)
    requires forall i :: 0 <= i < |VelocitySeries(norm, Recent(frameBuffer), joint)| ==>
      VelocitySeries(norm, Recent(frameBuffer), joint)[i] == 0.0
    ensures AverageSpeed(norm, frameBuffer, joint) == 0.0
  {
    if |frameBuffer| >= 2 {
      MeanWithin(VelocitySeries(norm, Recent(frameBuffer), joint), 0.0, 0.0);
    }
  }

  /** Only the ten most recent frames count: buffers that agree on them report the same speed. */
  lemma AverageSpeedSeesRecentOnly(norm: NormFn, a: seq<PoseFrame>, b: seq<PoseFrame>, joint: nat)
    requires |a| >= RecentFrames && |b| >= RecentFrames
    requires Last(a, RecentFrames) == Last(b, RecentFrames)
    requires PairsDefined(Recent(a), joint)
    ensures PairsDefined(Recent(b), joint)
    ensures AverageSpeed(norm, a, joint) == AverageSpeed(norm, b, joint)
  {
  }

  /** The `sum +=` accumulator after the first `k` consecutive pairs of `frames`. */
  function RunningTotal(norm: NormFn, frames: seq<PoseFrame>, joint: nat, k: nat): real
    requires PairsDefined(frames, joint)
    requires k < |frames|
  {
    if k == 0 then 0.0
    else RunningTotal(norm, frames, joint, k - 1) + CalculateVelocity(norm, frames[k - 1], frames[k], joint)
  }

  /** The accumulator after `k` pairs is the total of the first `k` speeds of the velocity series. */
  lemma {:induction false} RunningTotalIsSeriesSum(norm: NormFn, frames: seq<PoseFrame>, joint: nat, k: nat)
    requires PairsDefined(frames, joint)
    requires k < |frames|
    ensures RunningTotal(norm, frames, joint, k) == Sum(VelocitySeries(norm, frames, joint)[..k])
  {
    if k > 0 {
      RunningTotalIsSeriesSum(norm, frames, joint, k - 1);
      SumPrefixStep(VelocitySeries(norm, frames, joint), k);
    }
  }

  /** Over all pairs, the accumulator is the total of the velocity series. */
  lemma RunningTotalIsTotal(norm: NormFn, frames: seq<PoseFrame>, joint: nat)
    requires PairsDefined(frames, joint)
    requires |frames| >= 2
    ensures RunningTotal(norm, frames, joint, |frames| - 1) == Sum(VelocitySeries(norm, frames, joint))
  {
    var vs := VelocitySeries(norm, frames, joint);
    RunningTotalIsSeriesSum(norm, frames, joint, |frames| - 1);
    assert vs[..|vs|] == vs;
  }

  /** The mean speed over all pairs is the accumulator over all pairs divided by their number. */
  lemma MeanSpeedIsRunningTotal(norm: NormFn, frames: seq<PoseFrame>, joint: nat)
    requires PairsDefined(frames, joint)
    requires |frames| >= 2
    ensures Mean(VelocitySeries(norm, frames, joint)) ==
      RunningTotal(norm, frames, joint, |frames| - 1) / (|frames| - 1) as real
  {
    RunningTotalIsTotal(norm, frames, joint);
    MeanOfTotal(VelocitySeries(norm, frames, joint), RunningTotal(norm, frames, joint, |frames| - 1));
  }

  /** With two or more frames the average is the accumulator over all recent pairs divided by their number. */
  lemma AverageSpeedIsRunningTotal(norm: NormFn, frameBuffer: seq<PoseFrame>, joint: nat)
    requires PairsDefined(Recent(frameBuffer), joint)
    requires |frameBuffer| >= 2
    ensures AverageSpeed(norm, frameBuffer, joint) ==
      RunningTotal(norm, Recent(frameBuffer), joint, |Recent(frameBuffer)| - 1) / (|Recent(frameBuffer)| - 1) as real
  {
    MeanSpeedIsRunningTotal(norm, Recent(frameBuffer), joint);
  }

  /**
   * The wrist speeds shown by the panel: the left wrist (joint 15) and the right wrist
   * (joint 16), each summed over the recent pairs and divided by the number of pairs.
   */
  method WristVelocities(norm: NormFn, frameBuffer: seq<PoseFrame>) returns (leftWrist: real, rightWrist: real)
    requires WristsReadable(frameBuffer)
    ensures leftWrist == AverageSpeed(norm, frameBuffer, LeftWrist)
    ensures rightWrist == AverageSpeed(norm, frameBuffer, RightWrist)
  {
    if |frameBuffer| < 2 {
      return 0.0, 0.0;
    }
    var recent := SliceLast(frameBuffer, RecentFrames);
    var leftSum := 0.0;
    var rightSum := 0.0;
    var i := 1;
    while i < |recent|
      invariant 1 <= i <= |recent|
      invariant leftSum == RunningTotal(norm, recent, LeftWrist, i - 1)
      invariant rightSum == RunningTotal(norm, recent, RightWrist, i - 1)
    {
      leftSum := leftSum + CalculateVelocity(norm, recent[i - 1], recent[i], LeftWrist);
      rightSum := rightSum + CalculateVelocity(norm, recent[i - 1], recent[i], RightWrist);
      i := i + 1;
    }
    AverageSpeedIsRunningTotal(norm, frameBuffer, LeftWrist);
    AverageSpeedIsRunningTotal(norm, frameBuffer, RightWrist);
    leftWrist := leftSum / (|recent| - 1) as real;
    rightWrist := rightSum / (|recent| - 1) as real;
  }

  /** The joint angles of the current frame, if there is one. */
  function CurrentAngles(norm: NormFn, acosDeg: AcosDegFn, currentFrame: Option<PoseFrame>): (r: Option<JointAngles>)
    requires currentFrame.Some? ==> |currentFrame.value.landmarks| > RightAnkle
    ensures r.Some? <==> currentFrame.Some?
  {
    match currentFrame
    case None => None
    case Some(f) => Some(CalculateJointAngles(norm, acosDeg, f.landmarks))
  }

  /** Elbow, shoulder and knee angles of one side, in that order; hips are not compared. */
  function LeftAngles(a: JointAngles): seq<real>
  {
    [a.leftElbow, a.leftShoulder, a.leftKnee]
  }

  function RightAngles(a: JointAngles): seq<real>
  {
    [a.rightElbow, a.rightShoulder, a.rightKnee]
  }

  /** The panel's symmetry score: 100 without a pose, otherwise the score of the three angle pairs. */
  function PanelSymmetry(angles: Option<JointAngles>): (s: real)
    ensures 0.0 <= s <= 100.0
    ensures angles.None? ==> s == 100.0
  {
    match angles
    case None => 100.0
    case Some(a) => SymmetryScore(LeftAngles(a), RightAngles(a))
  }

  /**
   * The score is perfect exactly when the elbow, shoulder and knee angles agree on both sides,
   * and the hip angles never affect it.
   */
  lemma PanelSymmetryCompares(a: JointAngles, leftHip: real, rightHip: real)
    ensures PanelSymmetry(Some(a)) == 100.0 <==>
      a.leftElbow == a.rightElbow && a.leftShoulder == a.rightShoulder && a.leftKnee == a.rightKnee
    ensures PanelSymmetry(Some(a.(leftHip := leftHip, rightHip := rightHip))) == PanelSymmetry(Some(a))
  {
    SymmetryPerfectIff(LeftAngles(a), RightAngles(a));
    assert LeftAngles(a) == RightAngles(a) <==>
      a.leftElbow == a.rightElbow && a.leftShoulder == a.rightShoulder && a.leftKnee == a.rightKnee;
  }

  datatype SymmetryStatus = Good | Warning | Bad

  /** The traffic light for a symmetry score. */
  function GetSymmetryStatus(score: real): (st: SymmetryStatus)
  {
    if score >= 80.0 then Good else if score >= 60.0 then Warning else Bad
  }

  /** Worse statuses rank lower. */
  function Rank(st: SymmetryStatus): nat
  {
    match st
    case Bad => 0
    case Warning => 1
    case Good => 2
  }

  /** Good from 80 up, warning from 60 below 80, bad below 60; a higher score never gets a worse status. */
  lemma SymmetryStatusBands(score: real, higher: real)
    ensures GetSymmetryStatus(score) == Good <==> score >= 80.0
    ensures GetSymmetryStatus(score) == Warning <==> 60.0 <= score < 80.0
    ensures GetSymmetryStatus(score) == Bad <==> score < 60.0
    ensures score <= higher ==> Rank(GetSymmetryStatus(score)) <= Rank(GetSymmetryStatus(higher))
  {
  }

  /** With no current pose the panel shows a perfect score, in the good band. */
  lemma NoPoseIsGood(norm: NormFn, acosDeg: AcosDegFn)
    ensures GetSymmetryStatus(PanelSymmetry(CurrentAngles(norm, acosDeg, None))) == Good
  {
  }
}
