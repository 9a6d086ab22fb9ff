# Hand-tracking touch pad and camera rig, modelled in Dafny

This project models the Unity scripts of a hand-tracking application. The user's
tracked hands drive a virtual touch pad. Finger gestures on the pad move and turn
a camera rig. A debugging skeleton mirrors each tracked hand. The model covers
four scripts:

- **`HandSkeleton` / `HandSkeletonMgr`** (module `Skeleton`). `SetSkeleton`
  creates one hidden proxy object per joint (the wrist root plus joints 1–3 and
  the tip of each finger, 21 in all) and one per link between consecutive joints
  (15 in all). Each frame, `ProcessSkeleton` shows a joint proxy at its tracked
  pose when the tracker reports the joint valid, and hides it otherwise. A link
  proxy is shown only when both of its joints are valid. It then sits at their
  midpoint, turned along their direction, with a y scale of half their distance.
- **`TouchHand`** (module `FingerTracking`). Each frame it rotates its two
  snapshots: the previous snapshot takes the current one. When tracking
  confidence is high, it rebuilds the current snapshot as six poses per finger
  (wrist, joints 1–3, tip, pad). It also shows each finger's touch collider at
  the finger pad while that finger is spread (its curl is below 225). On low
  confidence it hides every collider.
- **`TouchPad`** (module `Touch`). The pad keeps a table of the finger colliders
  inside its trigger. For each one it holds a marker object at the contact point
  and the finger's current and previous contact points. Each collider staying in
  contact adds a fifth of its gesture to a running translation and rotation.
  Once per frame, the pad destroys the entries of deactivated colliders. It then
  emits each accumulator as an event and resets it, unless the accumulator is
  already neutral.
- **`CameraMgr`** (module `Camera`). The rig's transform and its two velocities
  are integrated once per frame. Drag decays the velocities, and a velocity below
  a threshold snaps to rest. The two control inputs feed the velocities when
  inertia is on and the transform directly when it is off.

Modules `Geometry`, `Hands` and `Scene` hold the shared vocabulary: vectors and
quaternions, Unity's approximate `==` on them, hand joint ids, tracker samples,
and the parts of a game object the scripts touch (`activeSelf`, position,
rotation, local scale).

How the model represents the engine:

- **Engine inputs are parameters.** The tracker's per-joint answers
  (`Hand.GetJointPose`), the confidence flag, the finger-feature provider, the
  finger pad transforms, `activeSelf` of colliders, `Time.deltaTime`,
  `ClosestPoint` and the pad's world-to-local map are all passed in.
- **Engine routines are uninterpreted.** Quaternion slerp, Euler conversion,
  `eulerAngles`, vector magnitude and the rotation that points a transform's up
  axis along a vector are fields of an `Engine` record. A lemma that needs
  magnitude to be the Euclidean length (`Skeleton.LinkLength`) says so in a
  precondition.
- **Unity equality is modelled as written.** Unity's `Vector3 ==` is "squared
  distance below 1e-10" (`Geometry.ApproxZero`). Its `Quaternion ==` is "dot
  product above 0.999999" (`Geometry.ApproxEqual`). The pad's event tests use
  these.
- **Objects get stable identities.** Game objects created by `Instantiate` are
  values in the proxy tables. Markers get a fresh identity each, so the model
  can state that markers never leak.

`TouchPad.cs` line 84 declares `handFinger` inside the left-hand branch only, yet
uses it after the `if`. As written, the file does not compile. The evident intent
is `handFinger = touchFinger.handFinger` for either hand, and
`Touch.TouchPad.OnTriggerStay` models that.

## Model

| member | source | states |
|---|---|---|
| Hands.FingerIndex | Assets/Scripts/TouchHand.cs:119 | `(int) finger` indexes `Fingers` back to the same finger, below 5 |
| Hands.IndexRoundTrip | Assets/Scripts/TouchHand.cs:119 | finger and slot ordinals invert the listing order of fingers and slots |
| Hands.ListingsAgree | Assets/Scripts/TouchHand.cs:27-33 | the finger and slot sets hold exactly the entries of the finger and slot listings |
| Skeleton.BonesLayout | Assets/Scripts/HandSkeletonMgr.cs:23-30 | `BONES` has five rows of four ids; row r lists finger r's joints 1–3 then its tip |
| Skeleton.RowsListBones | Assets/Scripts/HandSkeletonMgr.cs:23-30 | a finger's joint set is the ids of its `BONES` row, and its link-start set is that row without the tip |
| Skeleton.NextJoint | Assets/Scripts/HandSkeletonMgr.cs:100-101 | the far end of a link is the next joint of the same finger, one slot on |
| Skeleton.LayoutMembers | Assets/Scripts/HandSkeletonMgr.cs:54-80 | every joint id gets a proxy; the ids that get link proxies are exactly those followed by another joint |
| Skeleton.JointCount | Assets/Scripts/HandSkeletonMgr.cs:54-80 | a skeleton has 21 joint proxies |
| Skeleton.LinkCount | Assets/Scripts/HandSkeletonMgr.cs:64-75 | a skeleton has 15 link proxies (tips and the wrist start none) |
| Skeleton.JointProxyTable | Assets/Scripts/HandSkeletonMgr.cs:54-80 | the built joint table has all 21 ids, all hidden, tips copied from the tip prefab |
| Skeleton.LinkProxyTable | Assets/Scripts/HandSkeletonMgr.cs:71-74 | the built link table adds a hidden link prefab copy under each of 15 ids, keeping prior entries |
| Skeleton.BuildComplete | Assets/Scripts/HandSkeletonMgr.cs:52-82 | the row-by-row build ends with exactly the joint and link tables stated above |
| Skeleton.HandSkeleton.constructor | Assets/Scripts/HandSkeletonMgr.cs:33-49 | the three proxy tables start empty |
| Skeleton.HandSkeleton.SetSkeleton | Assets/Scripts/HandSkeletonMgr.cs:52-82 | the loops build exactly `JointProxies` and `LinkProxies`; the tip table is untouched |
| Skeleton.ShowJoint | Assets/Scripts/HandSkeletonMgr.cs:89-96 | a joint proxy is active iff its sample is valid; if so it is at the sample's pose, otherwise it keeps its pose |
| Skeleton.ShowLink | Assets/Scripts/HandSkeletonMgr.cs:117-134 | a link proxy is active iff both samples are valid; if so it is equidistant from both joints, its x/z scale is kept, its y scale is half their distance, and it is turned so its up axis runs from the first joint to the second |
| Skeleton.LinkLength | Assets/Scripts/HandSkeletonMgr.cs:120-125 | with a Euclidean magnitude, a shown link's y scale is non-negative and four times its square is the squared joint distance |
| Skeleton.LinksFollowJoints | Assets/Scripts/HandSkeletonMgr.cs:104-134 | after one frame a link is shown iff both of its joints are shown, and a shown link sits half-way between them |
| Skeleton.RefreshBone | Assets/Scripts/HandSkeletonMgr.cs:99-134 | one inner step refreshes one joint and the link from it to the next joint |
| Skeleton.RefreshRow | Assets/Scripts/HandSkeletonMgr.cs:98-146 | one `BONES` row refreshes that finger's joints, links and tip |
| Skeleton.RefreshComplete | Assets/Scripts/HandSkeletonMgr.cs:85-148 | the whole pass yields `ShowJoints`/`ShowLinks` of the previous tables |
| Skeleton.HandSkeleton.ProcessSkeleton | Assets/Scripts/HandSkeletonMgr.cs:85-148 | each joint proxy becomes `ShowJoint` of its sample, each link proxy `ShowLink` of its two samples; no key added or removed |
| Skeleton.HandSkeletonMgr.Start | Assets/Scripts/HandSkeletonMgr.cs:170-177 | two distinct fresh skeletons, left and right, each holding the hidden proxy tables |
| Skeleton.HandSkeletonMgr.Update | Assets/Scripts/HandSkeletonMgr.cs:180-184 | each skeleton is refreshed from its own hand's frame only; the tip tables are kept |
| FingerTracking.Ordinal | Assets/Scripts/TouchHand.cs:19-26 | every pose-array position is below 6; only the root has position 0 and only the pad position 5 |
| FingerTracking.OrdinalInjective | Assets/Scripts/TouchHand.cs:19-26 | distinct positions have distinct ordinals |
| FingerTracking.FingerJointLayout | Assets/Scripts/TouchHand.cs:27-33 | `FINGER_JOINTS` maps each of the five fingers to the wrist root, its joints 1–3 and its tip |
| FingerTracking.GetJointPoseIgnoresValidity | Assets/Scripts/TouchHand.cs:125-129 | the validity flag plays no part: two trackers that wrote the same pose give the same result, whatever each reported |
| FingerTracking.FingerPoses | Assets/Scripts/TouchHand.cs:114-120 | a finger's pose array has six entries |
| FingerTracking.FingerJointPoses | Assets/Scripts/TouchHand.cs:111-123 | the snapshot has exactly the five fingers, each with six poses |
| FingerTracking.FingerJointPosesLayout | Assets/Scripts/TouchHand.cs:111-123 | in each array the root is the wrist pose, then joints 1–3 and the tip, and the pad pose of that finger last |
| FingerTracking.FillFingerPoses | Assets/Scripts/TouchHand.cs:114-120 | the array filled for one finger is that finger's `FingerPoses` |
| FingerTracking.GetFingerJointPoses | Assets/Scripts/TouchHand.cs:111-123 | the dictionary built by the loops is `FingerJointPoses` |
| FingerTracking.CheckFingerSpread | Assets/Scripts/TouchHand.cs:93-108 | spread iff both features can be read and the curl is below 225; any failed read means not spread |
| FingerTracking.FlexionIgnored | Assets/Scripts/TouchHand.cs:97-99 | the flexion value never changes the verdict, only whether it can be read |
| FingerTracking.PlaceTouch | Assets/Scripts/TouchHand.cs:82-88 | a spread finger's collider is shown at the pad position; otherwise it is hidden and kept where it was |
| FingerTracking.HideTouches | Assets/Scripts/TouchHand.cs:72-74 | every collider is hidden and nothing else about it changes |
| FingerTracking.PlaceTouches | Assets/Scripts/TouchHand.cs:81-89 | every collider becomes `PlaceTouch` of its finger's new array and spread verdict |
| FingerTracking.TouchHand.Start | Assets/Scripts/TouchHand.cs:48-62 | one hidden collider per finger, tagged with this hand and that finger; both snapshots empty |
| FingerTracking.TouchHand.Update | Assets/Scripts/TouchHand.cs:66-90 | previous := old current; on low confidence current stays and all colliders hide; on high confidence with five pads current is rebuilt and colliders placed; with fewer pads the rebuild throws and nothing else changes |
| Touch.Create | Assets/Scripts/TouchPad.cs:128-135 | a new marker at the contact point, with the next identity, joins the live markers; the finger's current and previous points are both its local position |
| Touch.UpdatePoint | Assets/Scripts/TouchPad.cs:137-143 | previous takes the old current point, the marker moves, current is the new local point; no key changes |
| Touch.Destroy | Assets/Scripts/TouchPad.cs:145-151 | the collider and its finger leave all three tables and its marker dies; nothing else changes |
| Touch.Enter | Assets/Scripts/TouchPad.cs:68-74 | the collider ends tracked with a fresh marker; a stale marker of its own is destroyed first; every other collider's marker and every other finger's points are unchanged |
| Touch.CreateKeepsInv | Assets/Scripts/TouchPad.cs:128-135 | creating an entry keeps the table invariant (point tables keyed by tracked fingers, one distinct finger and one live marker per collider) |
| Touch.UpdateKeepsInv | Assets/Scripts/TouchPad.cs:137-143 | a tracked collider's finger has a current point, and updating keeps the invariant |
| Touch.DestroyKeepsInv | Assets/Scripts/TouchPad.cs:145-151 | destroying keeps the invariant and frees the finger for a later `Add` |
| Touch.EnterKeepsInv | Assets/Scripts/TouchPad.cs:68-74 | whenever entering can run, no other tracked collider carries the finger, the invariant is kept, the collider's live marker is the new one and the old one is gone |
| Touch.LiveMarkersMatch | Assets/Scripts/TouchPad.cs:131-147 | under the invariant, live markers equal tracked colliders in number: none leak |
| Touch.Pruned | Assets/Scripts/TouchPad.cs:49-54 | pruning a set of colliders removes exactly those from the object table |
| Touch.PrunedStep | Assets/Scripts/TouchPad.cs:50-53 | destroying one more collider extends the pruned set, so the sweep's order does not matter |
| Touch.SweepKeepsInv | Assets/Scripts/TouchPad.cs:49-54 | the sweep keeps the invariant, keeps exactly the active colliders with unchanged entries, and destroys every inactive one's marker |
| Touch.FlushTranslation | Assets/Scripts/TouchPad.cs:56-59 | an event fires iff the net translation is not approximately zero, then it is zero; afterwards it is always approximately zero |
| Touch.FlushRotation | Assets/Scripts/TouchPad.cs:61-64 | an event with its Euler angles fires iff the net rotation is not approximately the identity, then it is reset |
| Touch.StrokeOf | Assets/Scripts/TouchPad.cs:93-103 | the gesture reads root, proximal and pad positions (indices 0, 1, 5) and the two segments joining them |
| Touch.TouchPad.Start | Assets/Scripts/TouchPad.cs:34-43 | given colliders that each carry a finger of their own, empty tables satisfying the invariant, zero translation, identity rotation |
| Touch.TouchPad.ValidAdmitsTriggers | Assets/Scripts/TouchPad.cs:128-143 | in a valid state an untracked tagged collider's finger has no point, and a tagged collider whose finger has a point is tracked, so neither `Add` on line 133 nor the indexer on line 141 throws |
| Touch.TouchPad.CreateTouchPoint | Assets/Scripts/TouchPad.cs:128-135 | the fields become `Create` of the old table |
| Touch.TouchPad.UpdateTouchPoint | Assets/Scripts/TouchPad.cs:137-143 | the fields become `UpdatePoint` of the old table |
| Touch.TouchPad.DestroyTouchPoint | Assets/Scripts/TouchPad.cs:145-151 | the fields become `Destroy` of the old table |
| Touch.TouchPad.OnTriggerEnter | Assets/Scripts/TouchPad.cs:68-74 | a collider without `TouchColliderInfo` changes nothing; otherwise the fields become `Enter` of the old table; the invariant is kept |
| Touch.TouchPad.OnTriggerStay | Assets/Scripts/TouchPad.cs:76-120 | a collider without `TouchColliderInfo` or without a current point changes nothing; otherwise the contact is updated, the gesture is added only when both snapshots hold the finger's six poses, and the invariant is kept |
| Touch.TouchPad.AddGesture | Assets/Scripts/TouchPad.cs:80-119 | with both snapshots holding the finger: net rotation := slerp(identity, delta, 0.2) * net rotation and net translation += 0.2 * delta; otherwise both are unchanged; the table never changes |
| Touch.TouchPad.OnTriggerExit | Assets/Scripts/TouchPad.cs:122-125 | a collider without `TouchColliderInfo` or not tracked changes nothing; otherwise the fields become `Destroy` of the old table; the invariant is kept |
| Touch.TouchPad.DestroyInactive | Assets/Scripts/TouchPad.cs:49-54 | the sweep over a copy of the keys leaves `Pruned` of the inactive colliders |
| Touch.TouchPad.Update | Assets/Scripts/TouchPad.cs:46-65 | the table is pruned of inactive colliders, the events are the flushes of the accumulators, and the invariant and the all-tagged property are kept |
| Camera.DragFactor | Assets/Scripts/CameraMgr.cs:41 | the clamped drag factor lies in [0, 1], is 1 without drag and 0 once drag·dt reaches 1 |
| Camera.DecayVelocity | Assets/Scripts/CameraMgr.cs:41-44 | the result is the velocity scaled by the drag factor when that is at speed at least 0.01, and zero otherwise; speed never grows |
| Camera.DecayAngular | Assets/Scripts/CameraMgr.cs:46-49 | the result is the slerped velocity when its w is at least 0.01, and the identity otherwise; its w is never below 0.01 |
| Camera.DollyStep | Assets/Scripts/CameraMgr.cs:76-81 | for an unrotated rig the step is the inputs times the gain |
| Camera.CameraMgr.Start | Assets/Scripts/CameraMgr.cs:26-30 | the rig starts at rest: zero velocity, identity angular velocity |
| Camera.CameraMgr.LateUpdate | Assets/Scripts/CameraMgr.cs:33-55 | the transform advances by the old velocities; with inertia they decay as above, without it they are zeroed |
| Camera.CameraMgr.SetCameraTransform | Assets/Scripts/CameraMgr.cs:58-61 | the transform is overwritten; the velocities are kept |
| Camera.CameraMgr.CameraPanTilt | Assets/Scripts/CameraMgr.cs:63-73 | the scaled turn composes onto the angular velocity with inertia, onto the rotation without; nothing else changes |
| Camera.CameraMgr.CameraDollyTrack | Assets/Scripts/CameraMgr.cs:75-83 | the rotated, scaled step adds to the velocity with inertia, to the position without; nothing else changes |

## Left out

- Floating point: `float` arithmetic is modelled on real numbers, so rounding is not captured. The thresholds (0.01, 225, 0.2, Unity's 1e-10 and 0.999999) are kept exactly.
- Quaternion slerp, `Quaternion.Euler`, `eulerAngles`, `Vector3.magnitude`, `normalized` and `transform.up` are uninterpreted engine routines. The model proves nothing about their numerics.
- Touch.TouchPad.OnTriggerStay: the gesture geometry of `TouchPad.cs` lines 105–118 (`ProjectOnPlane`, `FromToRotation`, `Inverse`, the pad's `up` and rotation) is an uninterpreted function of the two finger strokes. Only how its result is accumulated is modelled.
- Skeleton.ShowLink: the capsule collider height of `HandSkeletonMgr.cs` lines 127–130 is not modelled, because the collider component is not part of the modelled object state. Neither is the division by the x scale on line 127.
- Object creation details are not modelled: `Instantiate`/`Destroy` side effects other than identity and liveness, object names, parenting, and the finger container objects of `SetSkeleton`.
- `TouchColliderInfo.cs` is not part of this model. Whether a collider's object carries the component, and its `TouchFinger` tag where it does, are two functions of the collider.
- MonoBehaviour scheduling is not modelled: the order in which Unity calls `Start`, `Update`, `LateUpdate` and the trigger callbacks, and the frame loop itself.
- Dictionary enumeration order is not modelled. The sweep of `TouchPad.Update` is proved for any order of the keys. The loops of `SetSkeleton` and `ProcessSkeleton` over `BONES`, and of `TouchHand.Start` and `GetFingerJointPoses` over `FINGER_JOINTS`, follow declaration order; their results do not depend on it, because each step writes keys no other step writes.
- `HandSkeleton._handTips` is never written by the scripts. The model carries it unchanged.
- Exceptions the scripts can reach are modelled as the handler stopping where the source throws, keeping what it wrote before. `TouchHand.Update` with fewer than five pads leaves the previous snapshot moved on and the rest unchanged. `TouchPad.OnTriggerStay` with a snapshot lacking the finger leaves the contact updated and the accumulators unchanged. A collider without `TouchColliderInfo` leaves every trigger handler without effect. Two throws are preconditions instead: `Add` on `TouchPad.cs` line 133 (in `OnTriggerEnter`) and the indexer on line 141 (in `OnTriggerStay`). Both need two colliders carrying one finger, which `TouchHand.Start` never creates, and `Touch.TouchPad.ValidAdmitsTriggers` proves neither can happen in a valid state.
- Touch.TouchPad.Update: requires every tracked collider to carry `TouchColliderInfo`, which the trigger handlers keep; otherwise the sweep could throw part-way.
