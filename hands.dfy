/**
  The hand-tracking vocabulary of the Oculus Interaction SDK as the scripts use
  it: handedness, fingers, the 21 joint ids a skeleton mirrors, the
  (handedness, finger) tag of a touch collider, and one frame of tracker output.
*/
module Hands {
  import opened Geometry

  datatype Handedness = Left | Right

  /** `HandFinger`; its enum values are 0 (Thumb) to 4 (Pinky). */
  datatype HandFinger = Thumb | Index | Middle | Ring | Pinky

  const Fingers: seq<HandFinger> := [Thumb, Index, Middle, Ring, Pinky]

  const AllFingers: set<HandFinger> := {Thumb, Index, Middle, Ring, Pinky}

  /** `(int) finger` */
  function FingerIndex(f: HandFinger): (k: nat)
    ensures k < |Fingers| && Fingers[k] == f
  {
    match f
    case Thumb => 0
    case Index => 1
    case Middle => 2
    case Ring => 3
    case Pinky => 4
  }

  /** Position of a joint along its finger: joints 1 to 3, then the tip. */
  datatype JointSlot = Slot1 | Slot2 | Slot3 | SlotTip

  const Slots: seq<JointSlot> := [Slot1, Slot2, Slot3, SlotTip]

  const AllSlots: set<JointSlot> := {Slot1, Slot2, Slot3, SlotTip}

  function SlotIndex(s: JointSlot): (k: nat)
    ensures k < |Slots| && Slots[k] == s
  {
    match s
    case Slot1 => 0
    case Slot2 => 1
    case Slot3 => 2
    case SlotTip => 3
  }

  /** `AllFingers` and `AllSlots` hold exactly the entries of `Fingers` and `Slots`. */
  lemma ListingsAgree()
    ensures AllFingers == set f | f in Fingers
    ensures AllSlots == set s | s in Slots
  {
  }

  /** `FingerIndex` and `SlotIndex` invert the listing order of `Fingers` and `Slots`. */
  lemma IndexRoundTrip(r: nat, k: nat)
    ensures r < |Fingers| ==> FingerIndex(Fingers[r]) == r
    ensures k < |Slots| ==> SlotIndex(Slots[k]) == k
  {
  }

  /**
    The `HandJointId` values the scripts use: HandWristRoot, and for each
    finger HandXxx1, HandXxx2, HandXxx3 and HandXxxTip.
  */
  datatype HandJointId = HandWristRoot | FingerJoint(finger: HandFinger, slot: JointSlot)

  /** The identity of a touch collider: which hand, which finger. */
  datatype TouchFinger = TouchFinger(handedness: Handedness, handFinger: HandFinger)

  /**
    What `Hand.GetJointPose(id, out pose)` yields: its boolean result and the
    pose it wrote to its out-parameter (whatever it wrote, valid or not).
  */
  datatype JointSample = JointSample(valid: bool, pose: Pose)

  /** One frame of the tracker: its confidence flag and its joint query. */
  datatype HandFrame = HandFrame(highConfidence: bool, joint: HandJointId -> JointSample)
}

/** The parts of a Unity GameObject that this model tracks. */
module Scene {
  import opened Geometry

  /** `activeSelf` and the transform's position, rotation and local scale. */
  datatype Node = Node(active: bool, position: Vec3, rotation: Quat, scale: Vec3)

  /** The node after `SetActive(false)`. */
  function Hidden(n: Node): Node {
    n.(active := false)
  }
}
