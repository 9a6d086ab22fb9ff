/**
  TouchHand: the per-hand finger tracker.  Each frame it keeps the previous
  snapshot of per-finger pose arrays, refreshes the current one from the
  tracker when confidence is high, and shows each finger's touch object at its
  finger pad while that finger is spread.
*/
module FingerTracking {
  import opened Geometry
  import opened Wrappers
  import opened Hands
  import opened Scene

  /** `FingerJointIndex`: the positions of a finger's pose array. */
  datatype FingerJointIndex = Root | Proximal | Middle | Distal | Tip | Pad

  /** `(int) index`: 0 for the wrist root to 5 for the pad. */
  function Ordinal(j: FingerJointIndex): (k: nat)
    ensures k < PosesPerFinger
    ensures j == Root <==> k == 0
    ensures j == Pad <==> k == PosesPerFinger - 1
  {
    match j
    case Root => 0
    case Proximal => 1
    case Middle => 2
    case Distal => 3
    case Tip => 4
    case Pad => 5
  }

  /** A finger's pose array: the five joints of `FingerJointIds` and then the pad. */
  const PosesPerFinger: nat := 6

  /** Distinct positions have distinct ordinals, so each pose array slot belongs to one position. */
  lemma OrdinalInjective(i: FingerJointIndex, j: FingerJointIndex)
    ensures Ordinal(i) == Ordinal(j) ==> i == j
  {
  }

  /** `FINGER_JOINTS`: per finger, the wrist root, its joints 1 to 3 and its tip. */
  const FingerJointIds: map<HandFinger, seq<HandJointId>> := map[
    Thumb := [HandWristRoot, FingerJoint(Thumb, Slot1), FingerJoint(Thumb, Slot2), FingerJoint(Thumb, Slot3), FingerJoint(Thumb, SlotTip)],
    Index := [HandWristRoot, FingerJoint(Index, Slot1), FingerJoint(Index, Slot2), FingerJoint(Index, Slot3), FingerJoint(Index, SlotTip)],
    HandFinger.Middle := [HandWristRoot, FingerJoint(HandFinger.Middle, Slot1), FingerJoint(HandFinger.Middle, Slot2),
                          FingerJoint(HandFinger.Middle, Slot3), FingerJoint(HandFinger.Middle, SlotTip)],
    Ring := [HandWristRoot, FingerJoint(Ring, Slot1), FingerJoint(Ring, Slot2), FingerJoint(Ring, Slot3), FingerJoint(Ring, SlotTip)],
    Pinky := [HandWristRoot, FingerJoint(Pinky, Slot1), FingerJoint(Pinky, Slot2), FingerJoint(Pinky, Slot3), FingerJoint(Pinky, SlotTip)]
  ]

  /**
    Every finger has a `FINGER_JOINTS` row of five ids: the wrist root at
    `Root`, then the finger's joints in slot order up to the tip at `Tip`.
  */
  lemma FingerJointLayout(f: HandFinger, k: nat)
    ensures f in FingerJointIds && |FingerJointIds[f]| == Ordinal(Pad)
    ensures FingerJointIds[f][Ordinal(Root)] == HandWristRoot
    ensures 1 <= k < Ordinal(Pad) ==> FingerJointIds[f][k] == FingerJoint(f, Slots[k - 1])
    ensures FingerJointIds.Keys == AllFingers
  {
  }

  /**
    `GetJointPose`: the pose `Hand.GetJointPose` wrote to its out-parameter,
    used whether or not the call reported the joint valid.
  */
  function GetJointPose(joint: HandJointId -> JointSample, id: HandJointId): Pose {
    joint(id).pose
  }

  /**
    The validity flag plays no part in `GetJointPose`: two trackers that
    wrote the same pose for a joint give the same result, whatever each
    reported as its boolean result.
  */
  lemma GetJointPoseIgnoresValidity(a: HandJointId -> JointSample, b: HandJointId -> JointSample, id: HandJointId)
    requires a(id).pose == b(id).pose
    ensures GetJointPose(a, id) == GetJointPose(b, id)
  {
  }

  /** The poses `GetFingerJointPoses` gives one finger: its five joints from the tracker, then its pad. */
  function FingerPoses(joint: HandJointId -> JointSample, pads: seq<Pose>, f: HandFinger): (poses: seq<Pose>)
    requires |pads| >= |Fingers|
    ensures |poses| == PosesPerFinger
  {
    FingerJointLayout(f, 0);
    seq(Ordinal(Pad), k requires 0 <= k < Ordinal(Pad) => GetJointPose(joint, FingerJointIds[f][k])) + [pads[FingerIndex(f)]]
  }

  /** The snapshot `GetFingerJointPoses` builds: one pose array per finger. */
  function FingerJointPoses(joint: HandJointId -> JointSample, pads: seq<Pose>): (snapshot: map<HandFinger, seq<Pose>>)
    requires |pads| >= |Fingers|
    ensures snapshot.Keys == AllFingers
    ensures forall f :: f in snapshot ==> |snapshot[f]| == PosesPerFinger
  {
    map f | f in AllFingers :: FingerPoses(joint, pads, f)
  }

  /**
    Each finger's array has six poses: `Root` is the wrist root's pose (the
    same for every finger), `Proximal` to `Tip` are the finger's joints, and
    `Pad` is that finger's pad; validity flags play no part.
  */
  lemma FingerJointPosesLayout(joint: HandJointId -> JointSample, pads: seq<Pose>, f: HandFinger, k: nat)
    requires |pads| >= |Fingers|
    ensures var s := FingerJointPoses(joint, pads);
      s.Keys == AllFingers && |s[f]| == PosesPerFinger &&
      s[f][Ordinal(Root)] == joint(HandWristRoot).pose &&
      (1 <= k < Ordinal(Pad) ==> s[f][k] == joint(FingerJoint(f, Slots[k - 1])).pose) &&
      s[f][Ordinal(Pad)] == pads[FingerIndex(f)]
  {
  }

  /**
    The body of `GetFingerJointPoses` for one finger: a fresh array one longer
    than the finger's joint list, filled from the tracker, the pad last.
  */
  method FillFingerPoses(joint: HandJointId -> JointSample, pads: seq<Pose>, finger: HandFinger)
    returns (poses: seq<Pose>)
    requires |pads| >= |Fingers|
    ensures poses == FingerPoses(joint, pads, finger)
  {
    FingerJointLayout(finger, 0);
    var ids := FingerJointIds[finger];
    var jointPoses := new Pose[|ids| + 1];
    for i := 0 to |ids|
      invariant forall k :: 0 <= k < i ==> jointPoses[k] == GetJointPose(joint, ids[k])
    {
      jointPoses[i] := GetJointPose(joint, ids[i]);
    }
    jointPoses[|ids|] := pads[FingerIndex(finger)];
    poses := jointPoses[..];
  }

  /**
    `GetFingerJointPoses`: for each finger, a fresh array filled joint by
    joint from the tracker, with the pad pose in its last cell.  Indexing
    `_fingerPads` by finger throws when it has fewer than five entries.
  */
  method GetFingerJointPoses(joint: HandJointId -> JointSample, pads: seq<Pose>)
    returns (fingerPoses: map<HandFinger, seq<Pose>>)
    requires |pads| >= |Fingers|
    ensures fingerPoses == FingerJointPoses(joint, pads)
  {
    fingerPoses := map[];
    for r := 0 to |Fingers|
      invariant forall f :: f in fingerPoses <==> FingerIndex(f) < r
      invariant forall f :: f in fingerPoses ==> fingerPoses[f] == FingerPoses(joint, pads, f)
    {
      var finger := Fingers[r];
      IndexRoundTrip(r, 0);
      var jointPoses := FillFingerPoses(joint, pads, finger);
      fingerPoses := fingerPoses[finger := jointPoses];
    }
    assert fingerPoses.Keys == AllFingers;
  }

  /** `FingerFeature`: the two features the spread test fetches. */
  datatype FingerFeature = Curl | Flexion

  /** A finger counts as spread while its curl is below this. */
  const CurlThreshold: real := 225.0

  /**
    `CheckFingerSpread`: `features(f, x)` is `None` when fetching feature x
    fails (the provider throws, or yields no value for the float cast).  Any
    failure means not spread; otherwise the finger is spread iff its curl is
    below 225.  Flexion is fetched but does not decide anything.
  */
  function CheckFingerSpread(features: (HandFinger, FingerFeature) -> Option<real>, f: HandFinger): (spread: bool)
    ensures spread ==> features(f, Curl).Some? && features(f, Flexion).Some?
    ensures spread <==> features(f, Curl).Some? && features(f, Flexion).Some? && features(f, Curl).value < CurlThreshold
  {
    match features(f, Curl)
    case None => false
    case Some(curl) =>
      match features(f, Flexion)
      case None => false
      case Some(_) => curl < CurlThreshold
  }

  /** The flexion value never changes the verdict; only whether it could be fetched. */
  lemma FlexionIgnored(a: (HandFinger, FingerFeature) -> Option<real>, b: (HandFinger, FingerFeature) -> Option<real>,
                       f: HandFinger)
    requires a(f, Curl) == b(f, Curl)
    requires a(f, Flexion).Some? == b(f, Flexion).Some?
    ensures CheckFingerSpread(a, f) == CheckFingerSpread(b, f)
  {
  }

  /** A finger's touch object: the collider's `TouchColliderInfo` tag and the object itself. */
  datatype TouchObject = TouchObject(touchFinger: TouchFinger, node: Node)

  /** A touch object after a high-confidence frame: at the finger pad and shown while spread, hidden otherwise. */
  function PlaceTouch(t: TouchObject, poses: seq<Pose>, spread: bool): (r: TouchObject)
    requires |poses| == PosesPerFinger
    ensures r.touchFinger == t.touchFinger && r.node.active == spread
    ensures spread ==> r.node == t.node.(active := true, position := poses[Ordinal(Pad)].position)
    ensures !spread ==> r.node == Hidden(t.node)
  {
    if spread then t.(node := t.node.(position := poses[Ordinal(Pad)].position, active := true))
    else t.(node := Hidden(t.node))
  }

  /** The low-confidence loop of `Update`: every touch object hidden, nothing else about it changed. */
  method HideTouches(touches: map<HandFinger, TouchObject>) returns (hidden: map<HandFinger, TouchObject>)
    ensures hidden.Keys == touches.Keys
    ensures forall f :: f in hidden ==> hidden[f] == touches[f].(node := Hidden(touches[f].node))
  {
    hidden := touches;
    var pending := touches.Keys;
    while pending != {}
      invariant pending <= hidden.Keys && hidden.Keys == touches.Keys
      invariant forall f :: f in hidden ==>
        hidden[f] == if f in pending then touches[f] else touches[f].(node := Hidden(touches[f].node))
      decreases pending
    {
      var f :| f in pending;
      hidden := hidden[f := hidden[f].(node := Hidden(hidden[f].node))];
      pending := pending - {f};
    }
  }

  /**
    The high-confidence loop of `Update`: each touch object is moved to its
    finger's pad pose in the new snapshot and shown if the finger is spread,
    hidden otherwise.
  */
  method PlaceTouches(touches: map<HandFinger, TouchObject>, current: map<HandFinger, seq<Pose>>,
                      features: (HandFinger, FingerFeature) -> Option<real>)
    returns (placed: map<HandFinger, TouchObject>)
    requires forall f :: f in touches ==> f in current && |current[f]| == PosesPerFinger
    ensures placed.Keys == touches.Keys
    ensures forall f :: f in placed ==> placed[f] == PlaceTouch(touches[f], current[f], CheckFingerSpread(features, f))
  {
    placed := touches;
    var pending := touches.Keys;
    while pending != {}
      invariant pending <= placed.Keys && placed.Keys == touches.Keys
      invariant forall f :: f in placed ==>
        placed[f] == if f in pending then touches[f] else PlaceTouch(touches[f], current[f], CheckFingerSpread(features, f))
      decreases pending
    {
      var f :| f in pending;
      var touch := placed[f];
      if CheckFingerSpread(features, f) {
        touch := touch.(node := touch.node.(position := current[f][Ordinal(Pad)].position));
        touch := touch.(node := touch.node.(active := true));
      } else {
        touch := touch.(node := Hidden(touch.node));
      }
      placed := placed[f := touch];
      pending := pending - {f};
    }
  }

  class TouchHand {
    /** `_hand.Handedness` */
    const handedness: Handedness
    var fingerTouches: map<HandFinger, TouchObject>
    var currentHandJointPoses: map<HandFinger, seq<Pose>>
    var previousHandJointPoses: map<HandFinger, seq<Pose>>

    /** One touch object per finger, tagged with this hand and that finger. */
    ghost predicate Valid()
      reads this
    {
      fingerTouches.Keys == AllFingers &&
      forall f :: f in fingerTouches ==> fingerTouches[f].touchFinger == TouchFinger(handedness, f)
    }

    /**
      `Start`: one hidden copy of the fingertip prefab per `FINGER_JOINTS`
      entry, tagged (handedness, finger); both snapshots empty.
    */
    constructor Start(handedness: Handedness, fingerTipPrefab: Node)
      ensures Valid() && this.handedness == handedness
      ensures forall f :: f in fingerTouches ==> fingerTouches[f].node == Hidden(fingerTipPrefab)
      ensures currentHandJointPoses == map[] && previousHandJointPoses == map[]
    {
      this.handedness := handedness;
      var touches: map<HandFinger, TouchObject> := map[];
      for r := 0 to |Fingers|
        invariant touches.Keys == set k | 0 <= k < r :: Fingers[k]
        invariant forall f :: f in touches ==> touches[f] == TouchObject(TouchFinger(handedness, f), Hidden(fingerTipPrefab))
      {
        var finger := Fingers[r];
        touches := touches[finger := TouchObject(TouchFinger(handedness, finger), Hidden(fingerTipPrefab))];
      }
      assert touches.Keys == AllFingers by {
        assert forall f :: f in AllFingers ==> f == Fingers[FingerIndex(f)];
      }
      fingerTouches := touches;
      currentHandJointPoses, previousHandJointPoses := map[], map[];
    }

    /**
      `Update` for one frame: previous := current first, always.  On low
      confidence every touch object is hidden and current is not refreshed,
      so the two snapshots coincide.  Otherwise current is rebuilt from the
      tracker and each touch object is shown at its pad iff its finger is
      spread.  With fewer than five finger pads, reading a missing pad throws
      while current is being rebuilt, so the frame ends with only the
      previous snapshot moved on.
    */
    method Update(frame: HandFrame, pads: seq<Pose>, features: (HandFinger, FingerFeature) -> Option<real>)
      requires Valid()
      modifies this
      ensures Valid()
      ensures previousHandJointPoses == old(currentHandJointPoses)
      ensures !frame.highConfidence ==> currentHandJointPoses == previousHandJointPoses
      ensures !frame.highConfidence ==>
        forall f :: f in fingerTouches ==> fingerTouches[f] == old(fingerTouches)[f].(node := Hidden(old(fingerTouches)[f].node))
      ensures frame.highConfidence && |pads| < |Fingers| ==>
        currentHandJointPoses == old(currentHandJointPoses) && fingerTouches == old(fingerTouches)
      ensures frame.highConfidence && |pads| >= |Fingers| ==> currentHandJointPoses == FingerJointPoses(frame.joint, pads)
      ensures frame.highConfidence && |pads| >= |Fingers| ==>
        forall f :: f in fingerTouches ==>
          fingerTouches[f] == PlaceTouch(old(fingerTouches)[f], currentHandJointPoses[f], CheckFingerSpread(features, f))
    {
      previousHandJointPoses := currentHandJointPoses;

      if !frame.highConfidence {
        fingerTouches := HideTouches(fingerTouches);
        return;
      }

      if |pads| < |Fingers| {
        return;
      }
      currentHandJointPoses := GetFingerJointPoses(frame.joint, pads);
      fingerTouches := PlaceTouches(fingerTouches, currentHandJointPoses, features);
    }
  }
}
