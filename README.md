# Motion-analysis viewer core, modelled in Dafny

This project models the logic behind a browser-based 3D motion-analysis viewer. A pose
detector delivers frames of 33 body landmarks, and a holistic detector adds hand and face
points. The modelled parts are:

- **Pose session store** (`PoseStore.PoseSession`). Keeps:
  - a rolling buffer of the last 300 frames;
  - the current frame;
  - one motion trail per tracked joint, cut to a trail length;
  - a recording;
  - playback fields and display toggles.
- **Holistic session store** (`HolisticStore.HolisticSession`). Keeps:
  - the same bounded buffer and recording;
  - tracking switches, updated by merging partial updates;
  - a playback cursor that is clamped by `setPlaybackIndex` and stepped by `nextFrame`/`prevFrame`.
- **Kinematics library** (`Kinematics`). Computes:
  - joint angles;
  - velocity and acceleration series;
  - range of motion;
  - a left/right symmetry score;
  - a centred moving average;
  - peak detection.
- **Landmark tables** (`PoseTypes`, `MeshTypes`):
  - the 33 pose indices and the 30 skeleton bones;
  - the 21 hand indices and the 23 hand bones;
  - the face-mesh region lists;
  - the frame and tracking shapes.
- **Skeleton view** (`Skeleton`):
  - where a landmark is drawn;
  - the joint colour groups;
  - which bones are drawn, and which joints get a sphere.
- **Face view** (`FaceMesh`):
  - the fan triangulation of the face oval;
  - the 468-point guard;
  - the closed contour lines;
  - the mesh buffers;
  - the sampled wireframe.
- **Metrics panel** (`MetricsPanel`):
  - the wrist-speed average over the last ten frames;
  - the symmetry score of the current pose;
  - the good/warning/bad status of that score.

The two stores are classes whose fields the actions overwrite. Every action's `ensures`:

- states the whole new state as a record update of the old one ("nothing else changes");
- where it matters, ties that state to a specification function, such as `FrameAdded`,
  `PlaybackIndexSet`, `SteppedForward` or `ResetState`.

The lemmas about those functions state what the stores promise.

`Window` holds the bounded buffer (`Pushed`) and the window of the `k` most recent elements
(`Last`). It also holds `SliceLast`, JavaScript's `slice(-n)`, including `n = 0`, which keeps
everything, and negative `n`. `Basics` holds `Option`, sums and means, `Math.min`/`Math.max`,
`filter`, and decimal rendering of integers.

Three places where the code differs from what one might expect. The model follows the code in
each:

- The pose store's `setPlaybackIndex` stores the index unclamped; only the holistic store
  clamps it.
- A symmetry score is 100 when either angle list is empty, not only when both are.
- The holistic `startRecording` empties the recording but keeps the playback cursor. A later
  `prevFrame` can then land outside the recording and leave no current frame. The lemma
  `HolisticStore.StaleCursorStepBack` states this.

The capture-state values are plain data; no transition order is enforced, as in the code.

## Model

| member | source | states |
|---|---|---|
| PoseTypes.PoseLandmarkOrderIsRange | src/types/pose.ts:2-36 | The 33 landmark names carry the indices 0..32 in order, without gaps or repeats. |
| PoseTypes.LeftOddRightNext | src/types/pose.ts:4-35 | From the shoulders down, each left joint has an odd index and its right partner the next one. Left eye points pair with the index three further on. |
| PoseTypes.SkeletonConnectionsWellFormed | src/types/pose.ts:39-76 | There are 30 bones. Every endpoint is below 33, and no bone joins a joint to itself. |
| PoseTypes.ArmBonesMirrored | src/types/pose.ts:51-63 | Each left-arm bone has a right-arm twin six entries later, one index higher at both ends. |
| PoseTypes.LegBonesMirrored | src/types/pose.ts:65-75 | Each left-leg bone has a right-leg twin five entries later, one index higher at both ends. |
| MeshTypes.HandLandmarkOrderIsRange | src/types/mesh.ts:2-24 | The 21 hand names carry the indices 0..20 in order. |
| MeshTypes.HandConnectionsInRange | src/types/mesh.ts:27-40 | There are 23 hand bones, all with endpoints below 21. |
| MeshTypes.FingerIsChain | src/types/mesh.ts:29-37 | Each finger is the chain wrist→b→b+1→b+2→b+3 with b = 4f+1. |
| MeshTypes.PalmEdges | src/types/mesh.ts:39 | The last three bones are the palm edges 5-9, 9-13 and 13-17. |
| MeshTypes.HandConnectionsCoverAll | src/types/mesh.ts:27-40 | Every hand index 0..20 is an endpoint of some bone. |
| MeshTypes.FaceLandmarksInRange | src/types/mesh.ts:43-57 | Every index of every face region names one of the 468 mesh points. |
| MeshTypes.FaceRegionSizes | src/types/mesh.ts:45-56 | Region sizes: oval 36, eyes 16, eyebrows 10, nose 11, lip contours 20. |
| MeshTypes.NoseRepeatsIndex | src/types/mesh.ts:53 | The nose list holds index 5 twice, so region lists are not duplicate-free. |
| Kinematics.Distance3D | src/lib/analysis/kinematics.ts:5-14 | A distance is never negative, and it is zero exactly when the two points coincide. |
| Kinematics.ClampUnit | src/lib/analysis/kinematics.ts:40 | The clamped cosine lies in [-1, 1], and a value already inside is kept. |
| Kinematics.CalculateAngle | src/lib/analysis/kinematics.ts:17-42 | The angle is 0 when either arm has zero length. Otherwise it is the arc cosine of a cosine clamped to [-1, 1]. Either way it lies in [0, 180] degrees. |
| Kinematics.AngleSymmetric | src/lib/analysis/kinematics.ts:22-41 | Swapping the two outer points does not change the angle. |
| Kinematics.AngleJointsMirrored | src/lib/analysis/kinematics.ts:48-102 | Each right-side angle uses the right partners of the left-side angle's three joints. |
| Kinematics.AngleAt | src/lib/analysis/kinematics.ts:45-105 | Each of the eight angles lies in [0, 180]. |
| Kinematics.CalculateJointAngles | src/lib/analysis/kinematics.ts:45-105 | The record holds the eight angles, each in [0, 180]. |
| Kinematics.JointAnglesByKind | src/lib/analysis/kinematics.ts:48-102 | Each field of the record is the angle at its named joint triple. |
| Kinematics.JointAngleLocal | src/lib/analysis/kinematics.ts:48-102 | An angle depends only on its three landmarks. |
| Kinematics.CalculateVelocity | src/lib/analysis/kinematics.ts:108-121 | The speed of a joint between two frames is never negative. |
| Kinematics.VelocityMeaning | src/lib/analysis/kinematics.ts:113-120 | The speed is 0 when time does not advance. Otherwise speed × elapsed seconds equals the distance moved. The speed is 0 exactly when time stands still or the joint does not move. |
| Kinematics.VelocitySeries | src/lib/analysis/kinematics.ts:124-135 | The series is empty below two frames. Otherwise it has n-1 entries, and entry i is the speed between frames i and i+1. |
| Kinematics.CalculateVelocities | src/lib/analysis/kinematics.ts:124-135 | The loop returns exactly `VelocitySeries`. |
| Kinematics.AccelerationsUpTo | src/lib/analysis/kinematics.ts:142-151 | Each entry comes from a step with positive duration. There are no more entries than steps. That every such step contributes, in order, is stated by `AccelerationsFollowSteps`. |
| Kinematics.AccelerationSeries | src/lib/analysis/kinematics.ts:138-152 | Definition of what `calculateAcceleration` returns: nothing below two velocities, otherwise `AccelerationsUpTo` over every step. Its properties are stated by `AccelerationSeriesLength`, `AccelerationsFollowSteps`, `PositiveStepKept` and `AccelerationsNoneSkipped`. |
| Kinematics.AccelerationSeriesLength | src/lib/analysis/kinematics.ts:142-151 | The series is empty below two velocities, and has at most `velocities.length - 1` entries. |
| Kinematics.PositiveStepsUpTo | src/lib/analysis/kinematics.ts:145-150 | The steps into samples 1..n-1 that take time, strictly increasing, each of them listed and nothing else. |
| Kinematics.AccelerationsAt | src/lib/analysis/kinematics.ts:145-150 | The accelerations into a list of samples with positive steps: one entry per sample, where entry k is the acceleration into sample k. |
| Kinematics.AccelerationsFollowSteps | src/lib/analysis/kinematics.ts:142-151 | For any timestamps, repeated ones included, the accelerations equal `AccelerationsAt` over `PositiveStepsUpTo`. So entry k is the acceleration into the k-th step that takes time, and there is one entry per such step, in step order. |
| Kinematics.PositiveStepKept | src/lib/analysis/kinematics.ts:145-150 | Every step that takes time contributes its acceleration. |
| Kinematics.AccelerationsNoneSkipped | src/lib/analysis/kinematics.ts:145-150 | With strictly increasing timestamps no pair is skipped, so there are exactly n-1 entries. |
| Kinematics.CalculateAcceleration | src/lib/analysis/kinematics.ts:138-152 | The loop returns exactly `AccelerationSeries`. |
| Kinematics.CalculateROM | src/lib/analysis/kinematics.ts:155-161 | Empty input gives 0/0/0. Otherwise min and max are elements of the input and bound it, and range = max − min ≥ 0. |
| Kinematics.AbsDiffTotal | src/lib/analysis/kinematics.ts:171-175 | The total difference is never negative. It is 0 exactly when the compared prefixes agree. |
| Kinematics.SymmetryScore | src/lib/analysis/kinematics.ts:164-180 | The score lies in [0, 100], and is 100 when either list is empty. |
| Kinematics.CalculateSymmetryScore | src/lib/analysis/kinematics.ts:164-180 | The `totalDiff` loop returns exactly `SymmetryScore`. |
| Kinematics.AbsDiffTotalPrefix | src/lib/analysis/kinematics.ts:173-175 | The total over the first n pairs ignores everything after them. |
| Kinematics.SymmetryComparesCommonPrefix | src/lib/analysis/kinematics.ts:170 | Only the first min(len) pairs are compared. |
| Kinematics.SymmetryPerfectIff | src/lib/analysis/kinematics.ts:170-179 | For non-empty lists the score is 100 exactly when the common prefixes are equal. |
| Kinematics.SymmetryOfEqualLists | src/lib/analysis/kinematics.ts:168-179 | A list compared with itself scores 100. |
| Kinematics.SymmetryExamples | src/lib/analysis/kinematics.ts:177-179 | A mean difference of 30 degrees scores 0, and 15 degrees scores 50. |
| Kinematics.Smoothed | src/lib/analysis/kinematics.ts:183-202 | Data shorter than the window is returned unchanged. Otherwise the length is kept, and entry i is the mean over the window of half-width ⌊w/2⌋ around i, clamped to the data. |
| Kinematics.WindowMean | src/lib/analysis/kinematics.ts:189-199 | Definition of one smoothed entry: the mean over the window around i, clamped to the data. Its properties are stated by `SmoothedWithinRange` and `DefaultWindowInterior`. |
| Kinematics.WindowTotal | src/lib/analysis/kinematics.ts:190-196 | The inner loop returns the total of the values in the window and their number. |
| Kinematics.SmoothData | src/lib/analysis/kinematics.ts:183-202 | The nested `sum`/`count` loops return exactly `Smoothed`. |
| Kinematics.SmoothedWithinRange | src/lib/analysis/kinematics.ts:189-199 | Every smoothed value lies between the input's minimum and maximum. |
| Kinematics.SmoothedWindowOne | src/lib/analysis/kinematics.ts:183-202 | A window of 0 or 1 leaves the data unchanged. |
| Kinematics.DefaultWindowInterior | src/lib/analysis/kinematics.ts:183-199 | With the default window of 5, an interior point becomes the mean of the five values centred on it. |
| Kinematics.DetectPeaks | src/lib/analysis/kinematics.ts:205-220 | Every returned index is a strict local maximum above the threshold, never at either end. Every such index is returned, in strictly increasing order. |
| Kinematics.IncreasingListsUnique | src/lib/analysis/kinematics.ts:205-220 | Two strictly increasing lists with the same elements are equal, so the peak list is determined. |
| Kinematics.PeaksExample | src/lib/analysis/kinematics.ts:205-220 | [0, 5, 1, 0, 8, 2] at the default threshold 0.1 has peaks exactly [1, 4]. |
| Basics.SeqMin | src/lib/analysis/kinematics.ts:158 | `Math.min(...s)` is an element of s and at most every element. |
| Basics.SeqMax | src/lib/analysis/kinematics.ts:159 | `Math.max(...s)` is an element of s and at least every element. |
| Basics.DecimalRoundTrip | src/stores/pose-store.ts:118 | Reading back the decimal text of a joint index gives the index. |
| Window.Last | src/stores/pose-store.ts:96-99 | The window a bounded buffer keeps: min(k, n) elements, a suffix of the history. |
| Window.Pushed | src/stores/pose-store.ts:96-99 | Definition of push-then-shift; its properties are stated by `PushedIsWindow`, `PushedEvictsOne` and `PushedOntoLast`. |
| Window.SliceLast | src/stores/pose-store.ts:114 | `slice(-n)` keeps the n most recent points for n ≥ 1 and everything for n = 0. A negative n drops points from the front. |
| Window.PushedIsWindow | src/stores/pose-store.ts:96-99 | Pushing onto a buffer within capacity keeps the `cap` most recent elements. The new element is last, and the length is min(len+1, cap). |
| Window.PushedEvictsOne | src/stores/holistic-store.ts:73-76 | On a full buffer exactly the oldest element is evicted, so the length stays. |
| Window.PushedOntoLast | src/stores/pose-store.ts:96-99 | A push onto the window of a history is the window of the history extended by the new element. |
| Window.PushAllIsWindow | src/stores/holistic-store.ts:73-76 | After any run of pushes the buffer holds the min(total, cap) most recent elements, in arrival order. |
| PoseStore.DisplayPoint | src/stores/pose-store.ts:106-111 | Definition of a trail point; its properties are stated by `DisplayPointRoundTrip`. |
| PoseStore.DisplayPointRoundTrip | src/stores/pose-store.ts:106-111 | A trail point is ((x−0.5)·2, −(y−0.5)·2, 2z) at the frame's timestamp, and the landmark can be read back from it. |
| PoseStore.FindTrajectory | src/stores/pose-store.ts:103 | `find` returns the first trail of the joint, and returns none exactly when no trail has it. |
| PoseStore.JointLabelInjective | src/stores/pose-store.ts:118 | A trail name is `joint_` followed by the decimal index. Distinct joints get distinct names. |
| PoseStore.TrajectoryColor | src/stores/pose-store.ts:57-64 | Trail `i` takes the colour at position i mod 6 of the palette. |
| PoseStore.RebuiltTrajectory | src/stores/pose-store.ts:102-122 | Definition of one joint's rebuilt trail (find, append, `slice(-n)`, name and colour); its properties are stated by `TrajectoriesAfterFrame` and `TrajectoryPointsBounded`. |
| PoseStore.RebuiltTrajectories | src/stores/pose-store.ts:102-123 | There is one rebuilt trail per tracked joint. |
| PoseStore.TrajectoriesAfterFrame | src/stores/pose-store.ts:102-123 | Trail i belongs to tracked joint i, with its name and colour. A new joint's trail is just the new point. An existing trail gets the new point appended and is cut to the `trajectoryLength` most recent points. The last point is the frame's. |
| PoseStore.TrajectoryPointsBounded | src/stores/pose-store.ts:114 | For a positive trail length a trail holds between 1 and `trajectoryLength` points. |
| PoseStore.FrameAdded | src/stores/pose-store.ts:91-134 | Definition of the state after `addFrame`; its properties are stated by `FrameAddedValid`, `FramesAddedBuffer` and `FramesAddedRecorded`. |
| PoseStore.FrameAddedValid | src/stores/pose-store.ts:91-134 | A frame keeps the buffer within capacity and the trails one per tracked joint. The buffer becomes the `maxBufferSize` most recent frames. |
| PoseStore.PoseSession.AddFrame | src/stores/pose-store.ts:91-134 | The new state is `FrameAdded` of the old one: buffer pushed, frame current, trails rebuilt, frame recorded while recording. Nothing else changes, and the store stays valid. |
| PoseStore.FramesAdded | src/stores/pose-store.ts:91-134 | A run of `addFrame` calls never changes the tracked joints, recording flag or capacity. |
| PoseStore.FramesAddedValid | src/stores/pose-store.ts:96-123 | However many frames arrive, the store stays valid. |
| PoseStore.FramesAddedBuffer | src/stores/pose-store.ts:96-99 | After any run of frames the buffer holds the most recent `maxBufferSize` frames of everything seen, in order. The last frame is current. |
| PoseStore.FramesAddedRecorded | src/stores/pose-store.ts:126 | While recording, every frame of a run is appended to the recording; otherwise the recording is untouched. |
| PoseStore.PoseSession.constructor | src/stores/pose-store.ts:68-84 | The store starts in the initial state: idle, mode both, nothing buffered, the default tracked joints, speed 1, all toggles on, trail length 60. |
| PoseStore.PoseSession.SetCaptureState | src/stores/pose-store.ts:87 | Only the capture state changes. |
| PoseStore.PoseSession.SetVisualizationMode | src/stores/pose-store.ts:89 | Only the mode changes. |
| PoseStore.PoseSession.ClearFrames | src/stores/pose-store.ts:136-140 | The current frame, buffer and trails are cleared; the recording is kept. |
| PoseStore.PoseSession.SetTrackedJoints | src/stores/pose-store.ts:142 | The tracked joints are replaced and every trail is dropped. |
| PoseStore.PoseSession.StartRecording | src/stores/pose-store.ts:144-148 | Recording starts empty, with the given start time; the clock is a parameter. |
| PoseStore.PoseSession.StopRecording | src/stores/pose-store.ts:150-153 | The flag and start time are cleared; the recorded frames stay. |
| PoseStore.PoseSession.StartPlayback | src/stores/pose-store.ts:155 | Playback starts from index 0. |
| PoseStore.PoseSession.StopPlayback | src/stores/pose-store.ts:157 | Only the playing flag is cleared. |
| PoseStore.PoseSession.SetPlaybackIndex | src/stores/pose-store.ts:159 | The index is stored as given, unclamped. |
| PoseStore.PoseSession.SetPlaybackSpeed | src/stores/pose-store.ts:161 | Only the speed changes. |
| PoseStore.PoseSession.ToggleSkeleton | src/stores/pose-store.ts:163 | Only the skeleton toggle flips. |
| PoseStore.PoseSession.ToggleTrajectory | src/stores/pose-store.ts:165 | Only the trail toggle flips. |
| PoseStore.PoseSession.ToggleMetrics | src/stores/pose-store.ts:167 | Only the metrics toggle flips. |
| PoseStore.PoseSession.SetTrajectoryLength | src/stores/pose-store.ts:169 | Only the trail length changes; existing trails are cut from the next frame on. |
| PoseStore.PoseSession.Reset | src/stores/pose-store.ts:171-181 | The new state is `ResetState` of the old one, and the store is valid. |
| PoseStore.ResetState | src/stores/pose-store.ts:171-181 | Definition of the state after `reset`; its properties are stated by `ResetRestoresSession`. |
| PoseStore.ResetRestoresSession | src/stores/pose-store.ts:171-181 | Reset returns the capture state, frames, trails, recording and playback fields to their initial values. The mode, tracked joints, trail length, capacity, toggles and speed are kept. Reset is idempotent. |
| HolisticStore.MergeTargets | src/stores/holistic-store.ts:97-100 | Definition of the `{...state, ...targets}` merge; its properties are stated by `MergeTargetsFlags`, `MergeTargetsExtremes`, `MergeTargetsIdempotent` and `MergeTargetsCompose`. |
| HolisticStore.MergeTargetsFlags | src/stores/holistic-store.ts:97-100 | A flag the update names takes the update's value; every other flag keeps its value. |
| HolisticStore.MergeTargetsExtremes | src/stores/holistic-store.ts:97-100 | An empty update changes nothing. An update naming every flag replaces them all. |
| HolisticStore.MergeTargetsIdempotent | src/stores/holistic-store.ts:97-100 | Applying the same update twice equals applying it once. |
| HolisticStore.MergeTargetsCompose | src/stores/holistic-store.ts:97-100 | Two updates in a row equal one combined update, with the later value winning. |
| HolisticStore.ClampPlaybackIndex | src/stores/holistic-store.ts:121 | The clamped index is 0 for an empty recording. Otherwise it lies inside the recording: an index already inside is kept, a negative one becomes 0, one past the end becomes the last. |
| HolisticStore.FrameAt | src/stores/holistic-store.ts:124 | `frames[i] \|\| null` is the frame at i exactly when i is inside the recording. |
| HolisticStore.PlaybackIndexSet | src/stores/holistic-store.ts:119-126 | Definition of the state after `setPlaybackIndex`; its properties are stated by `PlaybackIndexSetShowsFrame`. |
| HolisticStore.PlaybackIndexSetShowsFrame | src/stores/holistic-store.ts:119-126 | After `setPlaybackIndex` on a non-empty recording, the cursor is inside it, on the requested frame when that exists, and that frame is current. On an empty recording the cursor is 0 with no frame. |
| HolisticStore.SteppedForward | src/stores/holistic-store.ts:130-138 | Definition of the state after `nextFrame`; its properties are stated by `StepsShowFrames`, `StepsUndo` and `SteppedForwardTimesStopsAtEnd`. |
| HolisticStore.SteppedBack | src/stores/holistic-store.ts:140-148 | Definition of the state after `prevFrame`; its properties are stated by `StepsShowFrames`, `StepsUndo` and `StaleCursorStepBack`. |
| HolisticStore.StepsShowFrames | src/stores/holistic-store.ts:130-148 | A step forward or back moves the cursor by one and shows the frame it lands on, when it can move. At either end, nothing changes; there is no wraparound. |
| HolisticStore.StepsUndo | src/stores/holistic-store.ts:130-148 | A step forward then back, or back then forward, returns to the same index and frame. |
| HolisticStore.StaleCursorStepBack | src/stores/holistic-store.ts:140-148 | A cursor left beyond a fresh recording steps back to a position with no frame. |
| HolisticStore.SteppedForwardTimesStopsAtEnd | src/stores/holistic-store.ts:130-138 | n steps forward move the cursor to min(index + n, last frame). A cursor already past the end stays put. The buffer and recording are untouched. |
| HolisticStore.FrameAdded | src/stores/holistic-store.ts:71-87 | Definition of the state after `addFrame`; its properties are stated by `FrameAddedValid`. |
| HolisticStore.FrameAddedValid | src/stores/holistic-store.ts:71-87 | A frame keeps the buffer within capacity, as the most recent `maxBufferSize` frames, ending with the new one. |
| HolisticStore.HolisticSession.constructor | src/stores/holistic-store.ts:48-66 | The store starts with an empty buffer of capacity 300, skeleton mode, every part tracked, nothing recorded, cursor 0 and speed 1. |
| HolisticStore.HolisticSession.SetCurrentFrame | src/stores/holistic-store.ts:69 | Only the current frame changes. |
| HolisticStore.HolisticSession.AddFrame | src/stores/holistic-store.ts:71-87 | The new state is `FrameAdded` of the old one: buffer pushed, frame current, frame recorded while recording, nothing else. The store stays valid. |
| HolisticStore.HolisticSession.ClearFrames | src/stores/holistic-store.ts:89-93 | The buffer and current frame are cleared; the recording is untouched. |
| HolisticStore.HolisticSession.SetVisualizationMode | src/stores/holistic-store.ts:95 | Only the mode changes. |
| HolisticStore.HolisticSession.SetTrackingTargets | src/stores/holistic-store.ts:97-100 | The switches become the merge of the old switches with the update. |
| HolisticStore.HolisticSession.StartRecording | src/stores/holistic-store.ts:102-106 | Recording starts empty; the cursor is kept. |
| HolisticStore.HolisticSession.StopRecording | src/stores/holistic-store.ts:108 | Only the recording flag is cleared. |
| HolisticStore.HolisticSession.ClearRecording | src/stores/holistic-store.ts:110-114 | The recording is emptied and the cursor rewound to 0. |
| HolisticStore.HolisticSession.StartPlayback | src/stores/holistic-store.ts:116 | Only the playing flag is set. |
| HolisticStore.HolisticSession.StopPlayback | src/stores/holistic-store.ts:117 | Only the playing flag is cleared. |
| HolisticStore.HolisticSession.SetPlaybackIndex | src/stores/holistic-store.ts:119-126 | The new state is `PlaybackIndexSet` of the old one: the clamped cursor and the frame under it. |
| HolisticStore.HolisticSession.SetPlaybackSpeed | src/stores/holistic-store.ts:128 | Only the speed changes. |
| HolisticStore.HolisticSession.NextFrame | src/stores/holistic-store.ts:130-138 | The new state is `SteppedForward` of the old one, and the cursor stays non-negative. |
| HolisticStore.HolisticSession.PrevFrame | src/stores/holistic-store.ts:140-148 | The new state is `SteppedBack` of the old one, and the cursor stays non-negative. |
| Skeleton.LandmarkTo3D | src/components/3d/Skeleton3D.tsx:18-24 | Definition of where a landmark is drawn; its properties are stated by `LandmarkTo3DRoundTrip`. |
| Skeleton.LandmarkTo3DRoundTrip | src/components/3d/Skeleton3D.tsx:18-24 | A landmark is drawn at ((x−0.5)·s, −(y−0.5)·s, z·s), which can be undone for any non-zero scale. At the default scale 2 this is the trail placement. |
| Skeleton.GroupColor | src/components/3d/Skeleton3D.tsx:27-34 | Every group has a seven-character `#` colour. |
| Skeleton.ColorOr | src/components/3d/Skeleton3D.tsx:73 | The fallback colour is never used, because every group has a non-empty colour. |
| Skeleton.GetJointGroup | src/components/3d/Skeleton3D.tsx:37-45 | Definition of the colour group of an index; its properties are stated by `JointGroupRanges` and `JointGroupsMirrored`. |
| Skeleton.JointGroupRanges | src/components/3d/Skeleton3D.tsx:37-45 | Indices up to 10 are face. 11, 12, 23, 24 and anything above 32 are torso. Along 13..22, odd is left arm and even is right arm; along 25..32, odd is left leg and even is right leg. Each in both directions. |
| Skeleton.JointGroupsMirrored | src/components/3d/Skeleton3D.tsx:37-45 | The right partner of every left landmark is in the mirrored group. |
| Skeleton.VisibilityAt | src/components/3d/Skeleton3D.tsx:62-68 | A missing visibility, or a missing landmark, counts as 1. |
| Skeleton.BoneOf | src/components/3d/Skeleton3D.tsx:70-74 | A bone's colour is the group colour of its start joint. |
| Skeleton.BoneOrNothing | src/components/3d/Skeleton3D.tsx:61-75 | An edge maps to a bone exactly when neither end's visibility is below 0.5. |
| Skeleton.Present | src/components/3d/Skeleton3D.tsx:75 | `filter(Boolean)` keeps every bone and only bones, and is no longer than its input. Order and multiplicity are stated by `PresentAppend` and `PresentSingle`. |
| Skeleton.PresentAppend | src/components/3d/Skeleton3D.tsx:75 | `filter(Boolean)` keeps order and multiplicity: filtering a concatenation filters each part. |
| Skeleton.PresentSingle | src/components/3d/Skeleton3D.tsx:75 | A one-element list keeps its bone and loses its null. With `PresentAppend` this determines the filter on every list. |
| Skeleton.Bones | src/components/3d/Skeleton3D.tsx:60-76 | Definition of the drawn bones; their properties are stated by `BonesShownIff`, `AllBonesShown` and `FullSkeletonDrawn`. |
| Skeleton.BonesShownIff | src/components/3d/Skeleton3D.tsx:60-76 | A bone is drawn exactly for the edges with both ends at least half visible. There are no more bones than edges. |
| Skeleton.AllBonesShown | src/components/3d/Skeleton3D.tsx:60-76 | With every landmark at least half visible, each edge's bone is drawn, in order. |
| Skeleton.FullSkeletonDrawn | src/components/3d/Skeleton3D.tsx:60-76 | A full visible frame draws all 30 skeleton bones. |
| Skeleton.MainJointShownIff | src/components/3d/Skeleton3D.tsx:79-97 | A sphere is drawn exactly for the important joints with visibility strictly above 0.5. At most 13 are drawn. |
| Basics.Filter | src/components/3d/Skeleton3D.tsx:96-97 | The kept elements all pass the test and come from the list, every passing element is kept, and the result is no longer than the list. |
| Basics.FilterAppend | src/components/3d/Skeleton3D.tsx:96-97 | `filter` keeps order and multiplicity: filtering a concatenation filters each part. |
| Basics.FilterSingle | src/components/3d/Skeleton3D.tsx:97 | A one-element list is kept exactly when its element passes. With `FilterAppend` this determines the filter on every list. |
| Skeleton.MainJoints | src/components/3d/Skeleton3D.tsx:79-102 | Definition of the joint spheres; their properties are stated by `MainJointShownIff` and `MainJointsPlacement`. |
| Skeleton.MainJointsPlacement | src/components/3d/Skeleton3D.tsx:96-101 | Each sphere sits on its joint's scene point and takes its group colour. |
| Skeleton.HalfVisibleBoneWithoutSphere | src/components/3d/Skeleton3D.tsx:66-97 | At exactly 0.5 visibility a bone is drawn but its joints get no sphere: the two thresholds differ. |
| FaceMesh.NextIsModular | src/components/3d/FaceMesh3D.tsx:35-38 | The fan's next ring position is (i + 1) mod n. |
| FaceMesh.FanTriangles | src/components/3d/FaceMesh3D.tsx:28-41 | There is one triangle per ring point. |
| FaceMesh.FanTrianglesClose | src/components/3d/FaceMesh3D.tsx:35-38 | Neighbouring triangles share a ring edge, the last triangle closes back to the first ring point, and every triangle touches the centre. |
| FaceMesh.GenerateFaceMeshTriangles | src/components/3d/FaceMesh3D.tsx:28-41 | The loop plus the closing push build exactly the fan over the face oval around the nose tip. |
| FaceMesh.FaceFanInRange | src/components/3d/FaceMesh3D.tsx:33-38 | The fan has 36 triangles, and every vertex is one of the 468 mesh points. |
| FaceMesh.FaceLandmarkTo3D | src/components/3d/FaceMesh3D.tsx:44-54 | Definition of where a face point is drawn; its properties are stated by `FaceLandmarkTo3DRoundTrip`. |
| FaceMesh.FaceLandmarkTo3DRoundTrip | src/components/3d/FaceMesh3D.tsx:44-59 | For any non-zero scale the placement can be undone. With the default scale 3 and position (0, 1.5, 0), the image centre at zero depth is drawn at that position. |
| FaceMesh.ScenePoints | src/components/3d/FaceMesh3D.tsx:73-76 | A missing face, or one with fewer than 468 points, yields no points. Otherwise every point is converted, in order. |
| FaceMesh.Gather | src/components/3d/FaceMesh3D.tsx:85 | Gathering never yields more points than indices. |
| FaceMesh.GatherAll | src/components/3d/FaceMesh3D.tsx:85 | When every index names a point, gathering keeps them all, in order. |
| FaceMesh.GatherRegion | src/components/3d/FaceMesh3D.tsx:85-135 | A full face gathers every point of each region. |
| FaceMesh.ClosedPolyline | src/components/3d/FaceMesh3D.tsx:86-127 | A non-empty line gets its first point appended, so it ends where it starts; an empty line stays empty. |
| FaceMesh.EveryThirdSamples | src/components/3d/FaceMesh3D.tsx:176 | Exactly the points at indices divisible by 3 are kept, in order: ⌈n/3⌉ of them. |
| FaceMesh.VerticesLayout | src/components/3d/FaceMesh3D.tsx:146-150 | Point i fills vertex coordinates 3i, 3i+1 and 3i+2. |
| FaceMesh.TriangleIndices | src/components/3d/FaceMesh3D.tsx:153-158 | Every emitted index names an existing point. |
| FaceMesh.TriangleIndicesAll | src/components/3d/FaceMesh3D.tsx:153-158 | When all triangles' points exist, every triangle is emitted, in order. |
| FaceMesh.ContourLines | src/components/3d/FaceMesh3D.tsx:79-91 | Definition of the oval contour; its properties are stated by `PartialFaceDrawsNothing` and `FullFaceContour`. |
| FaceMesh.EyeContours | src/components/3d/FaceMesh3D.tsx:94-112 | Definition of the eye and brow lines; their properties are stated by `PartialFaceDrawsNothing` and `FullFaceEyes`. |
| FaceMesh.LipLines | src/components/3d/FaceMesh3D.tsx:115-130 | Definition of the lip lines; their properties are stated by `PartialFaceDrawsNothing` and `FullFaceLipsAndNose`. |
| FaceMesh.NosePoints | src/components/3d/FaceMesh3D.tsx:133-136 | Definition of the nose points; their properties are stated by `PartialFaceDrawsNothing` and `FullFaceLipsAndNose`. |
| FaceMesh.FaceMeshGeometry | src/components/3d/FaceMesh3D.tsx:139-170 | Definition of the mesh buffers; their properties are stated by `VerticesLayout`, `TriangleIndices`, `TriangleIndicesAll` and `FullFaceMesh`. |
| FaceMesh.WireframePoints | src/components/3d/FaceMesh3D.tsx:173-177 | Definition of the wireframe points; their properties are stated by `EveryThirdSamples` and `FullFaceMesh`. |
| FaceMesh.PartialFaceDrawsNothing | src/components/3d/FaceMesh3D.tsx:73-177 | With fewer than 468 points there is no contour, eye, lip, nose, mesh or wireframe output. |
| FaceMesh.FullFaceContour | src/components/3d/FaceMesh3D.tsx:79-91 | A full face draws the oval as one closed line of 37 points. |
| FaceMesh.FullFaceEyes | src/components/3d/FaceMesh3D.tsx:94-112 | A full face draws, on each side, the closed eye (17 points) and the open brow (10 points). |
| FaceMesh.FullFaceLipsAndNose | src/components/3d/FaceMesh3D.tsx:115-136 | A full face draws two closed lip lines of 21 points and 11 nose points. |
| FaceMesh.FullFaceMesh | src/components/3d/FaceMesh3D.tsx:139-177 | A full face gives 3 coordinates per point, 108 triangle indices and ⌈n/3⌉ wireframe points. |
| MetricsPanel.Recent | src/components/analysis/MetricsPanel.tsx:52 | The average looks at the last ten frames, or all of them when there are fewer. |
| MetricsPanel.AverageSpeed | src/components/analysis/MetricsPanel.tsx:49-65 | Definition of a wrist's average speed over the recent pairs; its properties are stated by `AverageSpeedBounds`, `AverageSpeedAtRest`, `AverageSpeedSeesRecentOnly` and `AverageSpeedIsRunningTotal`. |
| MetricsPanel.AverageSpeedBounds | src/components/analysis/MetricsPanel.tsx:50-64 | The average runs over min(10, n) − 1 pairs. It is never negative and never above the fastest pair. |
| MetricsPanel.AverageSpeedAtRest | src/components/analysis/MetricsPanel.tsx:50-64 | Fewer than two frames, or recent pairs that are all still, give 0. |
| MetricsPanel.AverageSpeedSeesRecentOnly | src/components/analysis/MetricsPanel.tsx:52 | Buffers that agree on their last ten frames report the same speed. |
| MetricsPanel.AverageSpeedIsRunningTotal | src/components/analysis/MetricsPanel.tsx:52-64 | Summing the pair speeds one by one and dividing by the number of pairs gives the mean of the velocity series. |
| MetricsPanel.WristVelocities | src/components/analysis/MetricsPanel.tsx:49-65 | The `leftSum`/`rightSum` loop returns the average speeds of joints 15 and 16. |
| MetricsPanel.CurrentAngles | src/components/analysis/MetricsPanel.tsx:43-46 | There are angles exactly when there is a current frame. |
| MetricsPanel.PanelSymmetry | src/components/analysis/MetricsPanel.tsx:68-73 | The score lies in [0, 100], and is 100 without a current pose. |
| MetricsPanel.PanelSymmetryCompares | src/components/analysis/MetricsPanel.tsx:70-72 | The score is 100 exactly when elbows, shoulders and knees agree on both sides. The hip angles never affect it. |
| MetricsPanel.GetSymmetryStatus | src/components/analysis/MetricsPanel.tsx:75-79 | Definition of the status bands; their properties are stated by `SymmetryStatusBands` and `NoPoseIsGood`. |
| MetricsPanel.SymmetryStatusBands | src/components/analysis/MetricsPanel.tsx:75-79 | Scores from 80 up are good, from 60 up to 80 warning, and below 60 bad. A higher score never gets a worse status. |
| MetricsPanel.NoPoseIsGood | src/components/analysis/MetricsPanel.tsx:68-79 | With no current pose the status is good. |

## Left out

- The Euclidean length (`Math.sqrt` of the squared distance) and `Math.acos`·180/π are not computable on reals. Callers pass them in as `NormFn` and `AcosDegFn`, constrained as follows:
  - a length is non-negative and zero exactly at the zero vector;
  - the degree arc cosine maps [-1, 1] into [0, 180].

  Nothing else about them is modelled. In particular, no angle is computed to a concrete value.
- Numbers are modelled as exact reals or integers. The model has no floating-point rounding, NaN, Infinity or `toFixed` display. The one NaN case the code relies on is modelled: a missing timestamp in `calculateAcceleration` makes the step test false.
- Playback indices are integers. A fractional JavaScript index is not modelled.
- The tracking update models an absent key as "leave the flag": a key that is present but holds `undefined` is not modelled.
- `Date.now()` in the pose store's `startRecording` becomes the `now` parameter.
- zustand's `set`, `get`, subscriptions and React re-rendering are left out: each store is a plain object whose fields its methods overwrite. Each action's update is applied as one step.
- Three.js objects, materials, animation (`useFrame`), `THREE.BufferGeometry` calls and component props other than the scale, offset and show flags are rendering only. The face mesh is modelled as its vertex and index lists. `computeVertexNormals` is not modelled.
- Capture adapters, the MediaPipe detector wrappers, JSON export and download, and the other rendering and UI components are outside the modelled core.
- PoseStore.PoseSession.AddFrame, Kinematics.CalculateJointAngles, Kinematics.CalculateVelocity, MetricsPanel.WristVelocities and Skeleton.Bones carry a precondition: the source reads those landmarks unchecked and would fail on a shorter frame. For a short frame the source throws, or reads `undefined`; that behaviour is not modelled.
- Window.PushedIsWindow, PoseStore.FrameAddedValid, PoseStore.FramesAddedBuffer and HolisticStore.FrameAddedValid state the buffer window only for a buffer within its capacity. This always holds, because every store action keeps it.
- PoseStore.TrajectoriesAfterFrame and PoseStore.TrajectoryPointsBounded bound a trail's length only for a positive trail length. `slice(-n)` with n ≤ 0 is modelled exactly by `Window.SliceLast`, but it keeps every point.
