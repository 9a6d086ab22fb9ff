/**
  HandSkeleton: mirrors one tracked hand onto proxy objects.  `SetSkeleton`
  creates one hidden proxy per joint (wrist root, joints 1 to 3 and tip of each
  finger) and one hidden link proxy per joint-to-next-joint segment;
  `ProcessSkeleton` shows each joint proxy at its reported pose when the
  tracker reports it valid and hides it otherwise, and shows a link only when
  both of its joints are valid, half-way between them and scaled to half
  their distance.
*/
module Skeleton {
  import opened Geometry
  import opened Hands
  import opened Scene

  /** `BONES`: per finger, its joints 1 to 3 and its tip. */
  const Bones: seq<seq<HandJointId>> := [
    [FingerJoint(Thumb, Slot1), FingerJoint(Thumb, Slot2), FingerJoint(Thumb, Slot3), FingerJoint(Thumb, SlotTip)],
    [FingerJoint(Index, Slot1), FingerJoint(Index, Slot2), FingerJoint(Index, Slot3), FingerJoint(Index, SlotTip)],
    [FingerJoint(Middle, Slot1), FingerJoint(Middle, Slot2), FingerJoint(Middle, Slot3), FingerJoint(Middle, SlotTip)],
    [FingerJoint(Ring, Slot1), FingerJoint(Ring, Slot2), FingerJoint(Ring, Slot3), FingerJoint(Ring, SlotTip)],
    [FingerJoint(Pinky, Slot1), FingerJoint(Pinky, Slot2), FingerJoint(Pinky, Slot3), FingerJoint(Pinky, SlotTip)]
  ]

  /** Row r of `Bones` lists finger r's joints in slot order. */
  lemma BonesLayout(r: nat, k: nat)
    requires r < |Fingers| && k < |Slots|
    ensures |Bones| == |Fingers| && |Bones[r]| == |Slots|
    ensures Bones[r][k] == FingerJoint(Fingers[r], Slots[k])
  {
  }

  /** The joints a skeleton mirrors: the wrist root and every id of every `Bones` row. */
  const JointIds: set<HandJointId> :=
    {HandWristRoot} + set f, s | f in AllFingers && s in AllSlots :: FingerJoint(f, s)

  /** The joints that start a link: every id of a `Bones` row but the last (the tip). */
  const LinkIds: set<HandJointId> :=
    set f, s | f in AllFingers && s in AllSlots && s != SlotTip :: FingerJoint(f, s)

  predicate IsLinkStart(id: HandJointId) {
    id.FingerJoint? && id.slot != SlotTip
  }

  /** The joint after `id` in its `Bones` row: the far end of the link `id` starts. */
  function NextJoint(id: HandJointId): (next: HandJointId)
    requires IsLinkStart(id)
    ensures next.FingerJoint? && next.finger == id.finger
    ensures SlotIndex(next.slot) == SlotIndex(id.slot) + 1
  {
    match id.slot
    case Slot1 => FingerJoint(id.finger, Slot2)
    case Slot2 => FingerJoint(id.finger, Slot3)
    case Slot3 => FingerJoint(id.finger, SlotTip)
  }

  /** The ids of one finger's `Bones` row, and those of them that start a link (see `RowsListBones`). */
  function FingerJoints(f: HandFinger): set<HandJointId> {
    {FingerJoint(f, Slot1), FingerJoint(f, Slot2), FingerJoint(f, Slot3), FingerJoint(f, SlotTip)}
  }

  function FingerLinks(f: HandFinger): set<HandJointId> {
    {FingerJoint(f, Slot1), FingerJoint(f, Slot2), FingerJoint(f, Slot3)}
  }

  lemma RowSizes(f: HandFinger)
    ensures |FingerJoints(f)| == 4 && |FingerLinks(f)| == 3
  {
  }

  /** `FingerJoints` and `FingerLinks` are the ids of the finger's `Bones` row, all of them or all but the tip. */
  lemma RowsListBones(f: HandFinger)
    ensures FingerJoints(f) == set k | 0 <= k < |Slots| :: Bones[FingerIndex(f)][k]
    ensures FingerLinks(f) == set k | 0 <= k < |Slots| - 1 :: Bones[FingerIndex(f)][k]
  {
    var row := Bones[FingerIndex(f)];
    forall k | 0 <= k < |Slots| ensures row[k] == FingerJoint(f, Slots[k]) {
      BonesLayout(FingerIndex(f), k);
    }
    forall id | id in FingerJoints(f) ensures id in set k | 0 <= k < |Slots| :: row[k] {
      assert id == row[SlotIndex(id.slot)];
    }
  }

  /** Adding the rows of the fingers from `Fingers[r]` on to `acc`, which holds none of them, adds 4 (or 3) ids per row. */
  lemma {:induction false} RowsCount(acc: set<HandJointId>, r: nat, withTips: bool)
    requires r <= |Fingers|
    requires forall id :: id in acc ==> !id.FingerJoint? || FingerIndex(id.finger) < r
    ensures withTips ==> |RowsFrom(acc, r, withTips)| == |acc| + 4 * (|Fingers| - r)
    ensures !withTips ==> |RowsFrom(acc, r, withTips)| == |acc| + 3 * (|Fingers| - r)
    decreases |Fingers| - r
  {
    if r < |Fingers| {
      IndexRoundTrip(r, 0);
      var row := if withTips then FingerJoints(Fingers[r]) else FingerLinks(Fingers[r]);
      RowSizes(Fingers[r]);
      assert acc * row == {};
      RowsCount(acc + row, r + 1, withTips);
    }
  }

  /** `acc` plus the rows (all four ids, or the three link starts) of the fingers from `Fingers[r]` on. */
  function RowsFrom(acc: set<HandJointId>, r: nat, withTips: bool): set<HandJointId>
    requires r <= |Fingers|
    decreases |Fingers| - r
  {
    if r == |Fingers| then acc
    else RowsFrom(acc + (if withTips then FingerJoints(Fingers[r]) else FingerLinks(Fingers[r])), r + 1, withTips)
  }

  /** `RowsFrom` adds exactly the ids of the fingers from `Fingers[r]` on. */
  lemma {:induction false} RowsMembers(acc: set<HandJointId>, r: nat, withTips: bool, id: HandJointId)
    requires r <= |Fingers|
    ensures id in RowsFrom(acc, r, withTips) <==>
      id in acc || (id.FingerJoint? && FingerIndex(id.finger) >= r && (withTips || id.slot != SlotTip))
    decreases |Fingers| - r
  {
    if r < |Fingers| {
      RowsMembers(acc + (if withTips then FingerJoints(Fingers[r]) else FingerLinks(Fingers[r])), r + 1, withTips, id);
      IndexRoundTrip(r, 0);
      if id.FingerJoint? && FingerIndex(id.finger) == r {
        assert id.slot == Slot1 || id.slot == Slot2 || id.slot == Slot3 || id.slot == SlotTip;
      }
    }
  }

  /** The layout holds every joint id, and its link ids are exactly the ids that have a next joint. */
  lemma LayoutMembers()
    ensures forall id: HandJointId :: id in JointIds
    ensures forall id: HandJointId :: id in LinkIds <==> IsLinkStart(id)
  {
    forall id: HandJointId ensures id in JointIds && (id in LinkIds <==> IsLinkStart(id)) {
      InLayout(id);
    }
  }

  /** The layout holds 21 joint ids: the wrist and four per finger. */
  lemma JointCount()
    ensures |JointIds| == 21
  {
    forall id: HandJointId ensures id in JointIds <==> id in RowsFrom({HandWristRoot}, 0, true) {
      InLayout(id);
      RowsMembers({HandWristRoot}, 0, true, id);
    }
    assert JointIds == RowsFrom({HandWristRoot}, 0, true);
    RowsCount({HandWristRoot}, 0, true);
  }

  /** The layout holds 15 link ids: three per finger, as tips and the wrist start no link. */
  lemma LinkCount()
    ensures |LinkIds| == 15
  {
    forall id: HandJointId ensures id in LinkIds <==> id in RowsFrom({}, 0, false) {
      InLayout(id);
      RowsMembers({}, 0, false, id);
    }
    assert LinkIds == RowsFrom({}, 0, false);
    RowsCount({}, 0, false);
  }

  /** Every joint id is in the layout, and every link start among the link ids. */
  lemma InLayout(id: HandJointId)
    ensures id in JointIds
    ensures id in LinkIds <==> IsLinkStart(id)
  {
    if id.FingerJoint? {
      assert id.finger == Thumb || id.finger == Index || id.finger == Middle || id.finger == Ring || id.finger == Pinky;
      assert id.slot == Slot1 || id.slot == Slot2 || id.slot == Slot3 || id.slot == SlotTip;
    }
  }

  /** Whether a pass over `Bones` that has reached row r, column i has visited joint `id`. */
  predicate Reached(id: HandJointId, r: nat, i: nat) {
    id == HandWristRoot ||
    FingerIndex(id.finger) < r ||
    (FingerIndex(id.finger) == r && SlotIndex(id.slot) < i)
  }

  /** The prototype a joint proxy is instantiated from: `tipObj` for tips, `jointObj` otherwise. */
  function JointPrototype(id: HandJointId, jointObj: Node, tipObj: Node): Node {
    if id.FingerJoint? && id.slot == SlotTip then tipObj else jointObj
  }

  /**
    A joint proxy after one frame: shown at exactly the reported pose when the
    sample is valid; when it is not, only hidden, keeping its old pose.
  */
  function ShowJoint(n: Node, sample: JointSample): (r: Node)
    ensures r.active == sample.valid
    ensures r.active ==> r.position == sample.pose.position && r.rotation == sample.pose.rotation
    ensures !r.active ==> r == Hidden(n)
    ensures r.scale == n.scale
  {
    if sample.valid then n.(active := true, position := sample.pose.position, rotation := sample.pose.rotation)
    else Hidden(n)
  }

  /**
    A link proxy after one frame: shown only when both of its joints are
    valid, then placed at their midpoint, turned along the joint-to-joint
    direction, and given a y scale of half their distance, keeping its x and z
    scale; otherwise only hidden.
  */
  function ShowLink(n: Node, start: JointSample, end: JointSample, engine: Engine): (r: Node)
    ensures r.active == (start.valid && end.valid)
    ensures r.active ==> Sub(r.position, start.pose.position) == Sub(end.pose.position, r.position)
    ensures r.active ==> r.scale.x == n.scale.x && r.scale.z == n.scale.z
    ensures r.active ==> r.scale.y == 0.5 * engine.magnitude(Sub(end.pose.position, start.pose.position))
    ensures r.active ==> r.rotation == engine.upRotation(Sub(end.pose.position, start.pose.position))
    ensures !r.active ==> r == Hidden(n)
  {
    if start.valid && end.valid then
      var sub := Sub(end.pose.position, start.pose.position);
      n.(active := true,
         position := Scale(Add(start.pose.position, end.pose.position), 0.5),
         rotation := engine.upRotation(sub),
         scale := Vec3(n.scale.x, 0.5 * engine.magnitude(sub), n.scale.z))
    else Hidden(n)
  }

  /**
    When the engine's magnitude is the Euclidean length, a shown link's y scale
    is non-negative and its square is a quarter of the squared joint distance.
  */
  lemma LinkLength(n: Node, start: JointSample, end: JointSample, engine: Engine)
    requires MagnitudeIsLength(engine)
    requires start.valid && end.valid
    ensures var y := ShowLink(n, start, end, engine).scale.y;
      y >= 0.0 && 4.0 * (y * y) == SqrMagnitude(Sub(end.pose.position, start.pose.position))
  {
  }

  /** Every joint proxy after one frame. */
  function ShowJoints(joints: map<HandJointId, Node>, frame: HandJointId -> JointSample): map<HandJointId, Node> {
    map id | id in joints :: ShowJoint(joints[id], frame(id))
  }

  /** Every link proxy after one frame; a proxy under an id that starts no link is left alone. */
  function ShowLinks(links: map<HandJointId, Node>, frame: HandJointId -> JointSample, engine: Engine)
    : map<HandJointId, Node>
  {
    map id | id in links ::
      if IsLinkStart(id) then ShowLink(links[id], frame(id), frame(NextJoint(id)), engine) else links[id]
  }

  /**
    Refreshed from the same frame, a link proxy is shown iff both of its joint
    proxies are, and a shown link sits half-way between them.
  */
  lemma LinksFollowJoints(joints: map<HandJointId, Node>, links: map<HandJointId, Node>,
                          frame: HandJointId -> JointSample, engine: Engine, id: HandJointId)
    requires IsLinkStart(id) && id in links && id in joints && NextJoint(id) in joints
    ensures var j, l := ShowJoints(joints, frame), ShowLinks(links, frame, engine);
      (l[id].active <==> j[id].active && j[NextJoint(id)].active) &&
      (l[id].active ==> Sub(l[id].position, j[id].position) == Sub(j[NextJoint(id)].position, l[id].position))
  {
  }

  /** The joint proxies `SetSkeleton` creates: one hidden copy of the right prototype per joint. */
  function JointProxies(jointObj: Node, tipObj: Node): map<HandJointId, Node> {
    map id | id in JointIds :: Hidden(JointPrototype(id, jointObj, tipObj))
  }

  /** The link proxies `SetSkeleton` creates: one hidden copy of `linkObj` per link. */
  function LinkProxies(linkObj: Node): map<HandJointId, Node> {
    map id | id in LinkIds :: Hidden(linkObj)
  }

  /** A built skeleton has a hidden proxy for each of the 21 joints, tips made from the tip prototype. */
  lemma JointProxyTable(jointObj: Node, tipObj: Node)
    ensures var joints := JointProxies(jointObj, tipObj);
      (forall id :: id in joints && !joints[id].active) && |joints| == 21 &&
      forall f :: joints[FingerJoint(f, SlotTip)] == Hidden(tipObj)
  {
    LayoutMembers();
    JointCount();
    assert JointProxies(jointObj, tipObj).Keys == JointIds;
  }

  /**
    A built skeleton has a hidden proxy for each of the 15 links; added to a
    table without link proxies, they keep what was there.
  */
  lemma LinkProxyTable(l0: map<HandJointId, Node>, linkObj: Node)
    requires forall id :: IsLinkStart(id) ==> id !in l0
    ensures var links := l0 + LinkProxies(linkObj);
      (forall id :: IsLinkStart(id) ==> id in links && links[id] == Hidden(linkObj)) &&
      (forall id :: id in l0 ==> id in links && links[id] == l0[id]) &&
      |links| == |l0| + 15
  {
    var links := l0 + LinkProxies(linkObj);
    forall id | IsLinkStart(id) ensures id in links && links[id] == Hidden(linkObj) {
      InLayout(id);
    }
    assert links.Keys == l0.Keys + LinkIds by {
      assert LinkProxies(linkObj).Keys == LinkIds;
    }
    assert l0.Keys * LinkIds == {} by {
      forall id | id in LinkIds ensures id !in l0 {
        InLayout(id);
      }
    }
    LinkCount();
    assert |links| == |links.Keys| == |l0.Keys| + |LinkIds|;
  }

  /**
    The points a pass over `Bones` goes through: row r (one per finger) at
    column i, from 0 to the row's length, and finally row |Fingers| at 0.
  */
  predicate Position(r: nat, i: nat) {
    (r < |Fingers| && i <= |Slots|) || (r == |Fingers| && i == 0)
  }

  /**
    The joint table `SetSkeleton` has built at position (r, i): the wrist,
    then one proxy per `Bones` entry in row order, the tip from `tipObj`.
  */
  ghost function JointsBuilt(jointObj: Node, tipObj: Node, r: nat, i: nat): map<HandJointId, Node>
    requires Position(r, i)
    decreases r, i
  {
    if i == 0 then
      if r == 0 then map[HandWristRoot := Hidden(jointObj)] else JointsBuilt(jointObj, tipObj, r - 1, |Slots|)
    else
      JointsBuilt(jointObj, tipObj, r, i - 1)[FingerJoint(Fingers[r], Slots[i - 1]) :=
        Hidden(if i == |Slots| then tipObj else jointObj)]
  }

  /** The link table `SetSkeleton` has built at position (r, i) on top of `l0`: one proxy per link start passed. */
  ghost function LinksBuilt(l0: map<HandJointId, Node>, linkObj: Node, r: nat, i: nat): map<HandJointId, Node>
    requires Position(r, i)
    decreases r, i
  {
    if i == 0 then
      if r == 0 then l0 else LinksBuilt(l0, linkObj, r - 1, |Slots|)
    else if i == |Slots| then LinksBuilt(l0, linkObj, r, i - 1)
    else LinksBuilt(l0, linkObj, r, i - 1)[FingerJoint(Fingers[r], Slots[i - 1]) := Hidden(linkObj)]
  }

  /** The joints `JointsBuilt` holds at (r, i) are the ones the pass has reached, each from its prototype. */
  lemma {:induction false} JointsBuiltAt(jointObj: Node, tipObj: Node, r: nat, i: nat, id: HandJointId)
    requires Position(r, i)
    ensures id in JointsBuilt(jointObj, tipObj, r, i) <==> Reached(id, r, i)
    ensures Reached(id, r, i) ==> JointsBuilt(jointObj, tipObj, r, i)[id] == Hidden(JointPrototype(id, jointObj, tipObj))
    decreases r, i
  {
    if i == 0 {
      if r > 0 {
        JointsBuiltAt(jointObj, tipObj, r - 1, |Slots|, id);
      }
    } else {
      JointsBuiltAt(jointObj, tipObj, r, i - 1, id);
      IndexRoundTrip(r, i - 1);
    }
  }

  /** The links `LinksBuilt` adds by (r, i) are the link starts the pass has reached; the rest of `l0` stays. */
  lemma {:induction false} LinksBuiltAt(l0: map<HandJointId, Node>, linkObj: Node, r: nat, i: nat, id: HandJointId)
    requires Position(r, i)
    requires forall k :: IsLinkStart(k) ==> k !in l0
    ensures id in LinksBuilt(l0, linkObj, r, i) <==> id in l0 || (IsLinkStart(id) && Reached(id, r, i))
    ensures id in l0 ==> LinksBuilt(l0, linkObj, r, i)[id] == l0[id]
    ensures IsLinkStart(id) && Reached(id, r, i) ==> LinksBuilt(l0, linkObj, r, i)[id] == Hidden(linkObj)
    decreases r, i
  {
    if i == 0 {
      if r > 0 {
        LinksBuiltAt(l0, linkObj, r - 1, |Slots|, id);
      }
    } else {
      LinksBuiltAt(l0, linkObj, r, i - 1, id);
      IndexRoundTrip(r, i - 1);
    }
  }

  /** The pass started from an empty joint table and from `l0` ends with exactly the proxy tables. */
  lemma BuildComplete(l0: map<HandJointId, Node>, jointObj: Node, linkObj: Node, tipObj: Node)
    requires forall k :: IsLinkStart(k) ==> k !in l0
    ensures JointsBuilt(jointObj, tipObj, |Fingers|, 0) == JointProxies(jointObj, tipObj)
    ensures LinksBuilt(l0, linkObj, |Fingers|, 0) == l0 + LinkProxies(linkObj)
  {
    forall id ensures id in JointsBuilt(jointObj, tipObj, |Fingers|, 0) <==> id in JointProxies(jointObj, tipObj) {
      JointsBuiltAt(jointObj, tipObj, |Fingers|, 0, id);
      InLayout(id);
    }
    forall id | id in JointProxies(jointObj, tipObj)
      ensures JointsBuilt(jointObj, tipObj, |Fingers|, 0)[id] == JointProxies(jointObj, tipObj)[id]
    {
      JointsBuiltAt(jointObj, tipObj, |Fingers|, 0, id);
    }
    forall id ensures id in LinksBuilt(l0, linkObj, |Fingers|, 0) <==> id in l0 + LinkProxies(linkObj) {
      LinksBuiltAt(l0, linkObj, |Fingers|, 0, id);
      InLayout(id);
    }
    forall id | id in l0 + LinkProxies(linkObj)
      ensures LinksBuilt(l0, linkObj, |Fingers|, 0)[id] == (l0 + LinkProxies(linkObj))[id]
    {
      LinksBuiltAt(l0, linkObj, |Fingers|, 0, id);
      InLayout(id);
    }
  }

  /**
    The joint table `ProcessSkeleton` has refreshed at position (r, i): the
    wrist, then each `Bones` entry in row order, from the frame's sample.
  */
  ghost function JointsRefreshed(j0: map<HandJointId, Node>, frame: HandJointId -> JointSample, r: nat, i: nat)
    : (m: map<HandJointId, Node>)
    requires Position(r, i) && forall id :: id in j0
    ensures forall id :: id in m
    decreases r, i
  {
    if i == 0 then
      if r == 0 then j0[HandWristRoot := ShowJoint(j0[HandWristRoot], frame(HandWristRoot))]
      else JointsRefreshed(j0, frame, r - 1, |Slots|)
    else
      var prev := JointsRefreshed(j0, frame, r, i - 1);
      var id := FingerJoint(Fingers[r], Slots[i - 1]);
      prev[id := ShowJoint(prev[id], frame(id))]
  }

  /**
    The link table `ProcessSkeleton` has refreshed at position (r, i): each
    link start passed, from the samples of its two joints.
  */
  ghost function LinksRefreshed(l0: map<HandJointId, Node>, frame: HandJointId -> JointSample, engine: Engine,
                                r: nat, i: nat): (m: map<HandJointId, Node>)
    requires Position(r, i) && forall id :: IsLinkStart(id) ==> id in l0
    ensures m.Keys == l0.Keys
    decreases r, i
  {
    if i == 0 then
      if r == 0 then l0 else LinksRefreshed(l0, frame, engine, r - 1, |Slots|)
    else if i == |Slots| then LinksRefreshed(l0, frame, engine, r, i - 1)
    else
      var prev := LinksRefreshed(l0, frame, engine, r, i - 1);
      var id := FingerJoint(Fingers[r], Slots[i - 1]);
      prev[id := ShowLink(prev[id], frame(id), frame(FingerJoint(Fingers[r], Slots[i])), engine)]
  }

  /** At (r, i) exactly the joints the pass has reached are refreshed, each once, from the original proxy. */
  lemma {:induction false} JointsRefreshedAt(j0: map<HandJointId, Node>, frame: HandJointId -> JointSample,
                                             r: nat, i: nat, id: HandJointId)
    requires Position(r, i) && forall k :: k in j0
    ensures JointsRefreshed(j0, frame, r, i)[id] == if Reached(id, r, i) then ShowJoint(j0[id], frame(id)) else j0[id]
    decreases r, i
  {
    if i == 0 {
      if r > 0 {
        JointsRefreshedAt(j0, frame, r - 1, |Slots|, id);
      }
    } else {
      JointsRefreshedAt(j0, frame, r, i - 1, id);
      IndexRoundTrip(r, i - 1);
    }
  }

  /** At (r, i) exactly the link starts the pass has reached are refreshed, each once, from the original proxy. */
  lemma {:induction false} LinksRefreshedAt(l0: map<HandJointId, Node>, frame: HandJointId -> JointSample,
                                            engine: Engine, r: nat, i: nat, id: HandJointId)
    requires Position(r, i) && forall k :: IsLinkStart(k) ==> k in l0
    requires id in l0
    ensures LinksRefreshed(l0, frame, engine, r, i)[id] ==
      if IsLinkStart(id) && Reached(id, r, i) then ShowLink(l0[id], frame(id), frame(NextJoint(id)), engine)
      else l0[id]
    decreases r, i
  {
    if i == 0 {
      if r > 0 {
        LinksRefreshedAt(l0, frame, engine, r - 1, |Slots|, id);
      }
    } else {
      LinksRefreshedAt(l0, frame, engine, r, i - 1, id);
      IndexRoundTrip(r, i - 1);
      IndexRoundTrip(r, i);
    }
  }

  /** One step of `RefreshRow`: the joint `startId` of row r, and the link from it to `endId`, the next joint. */
  method RefreshBone(r: nat, i: nat, startId: HandJointId, endId: HandJointId,
                     frame: HandJointId -> JointSample, engine: Engine,
                     joints0: map<HandJointId, Node>, links0: map<HandJointId, Node>,
                     ghost j0: map<HandJointId, Node>, ghost l0: map<HandJointId, Node>)
    returns (joints: map<HandJointId, Node>, links: map<HandJointId, Node>)
    requires r < |Fingers| && i + 1 < |Slots| && startId == Bones[r][i] && endId == Bones[r][i + 1]
    requires (forall id :: id in j0) && forall id :: IsLinkStart(id) ==> id in l0
    requires joints0 == JointsRefreshed(j0, frame, r, i) && links0 == LinksRefreshed(l0, frame, engine, r, i)
    ensures joints == JointsRefreshed(j0, frame, r, i + 1)
    ensures links == LinksRefreshed(l0, frame, engine, r, i + 1)
  {
    BonesLayout(r, i);
    BonesLayout(r, i + 1);
    var startSample, endSample := frame(startId), frame(endId);
    joints := joints0[startId := ShowJoint(joints0[startId], startSample)];
    links := links0[startId := ShowLink(links0[startId], startSample, endSample, engine)];
  }

  /**
    One row of `ProcessSkeleton`'s pass over the proxy tables: the joints of
    finger r in order, each link from its joint to the next, then the tip.
  */
  method RefreshRow(r: nat, frame: HandJointId -> JointSample, engine: Engine,
                    joints0: map<HandJointId, Node>, links0: map<HandJointId, Node>,
                    ghost j0: map<HandJointId, Node>, ghost l0: map<HandJointId, Node>)
    returns (joints: map<HandJointId, Node>, links: map<HandJointId, Node>)
    requires r < |Fingers|
    requires (forall id :: id in j0) && forall id :: IsLinkStart(id) ==> id in l0
    requires joints0 == JointsRefreshed(j0, frame, r, 0) && links0 == LinksRefreshed(l0, frame, engine, r, 0)
    ensures joints == JointsRefreshed(j0, frame, r + 1, 0)
    ensures links == LinksRefreshed(l0, frame, engine, r + 1, 0)
  {
    BonesLayout(r, 0);
    var row := Bones[r];
    joints, links := joints0, links0;
    for i := 0 to |row| - 1
      invariant joints == JointsRefreshed(j0, frame, r, i)
      invariant links == LinksRefreshed(l0, frame, engine, r, i)
    {
      joints, links := RefreshBone(r, i, row[i], row[i + 1], frame, engine, joints, links, j0, l0);
    }
    BonesLayout(r, |row| - 1);
    var tipId := row[|row| - 1];
    joints := joints[tipId := ShowJoint(joints[tipId], frame(tipId))];
    assert links == LinksRefreshed(l0, frame, engine, r, |Slots|);
  }

  /** The full pass refreshes every joint proxy and every link proxy exactly as `ShowJoints` and `ShowLinks` say. */
  lemma RefreshComplete(j0: map<HandJointId, Node>, l0: map<HandJointId, Node>, frame: HandJointId -> JointSample,
                        engine: Engine)
    requires (forall k :: k in j0) && forall k :: IsLinkStart(k) ==> k in l0
    ensures JointsRefreshed(j0, frame, |Fingers|, 0) == ShowJoints(j0, frame)
    ensures LinksRefreshed(l0, frame, engine, |Fingers|, 0) == ShowLinks(l0, frame, engine)
  {
    forall id ensures JointsRefreshed(j0, frame, |Fingers|, 0)[id] == ShowJoints(j0, frame)[id] {
      JointsRefreshedAt(j0, frame, |Fingers|, 0, id);
    }
    forall id | id in l0 ensures LinksRefreshed(l0, frame, engine, |Fingers|, 0)[id] == ShowLinks(l0, frame, engine)[id] {
      LinksRefreshedAt(l0, frame, engine, |Fingers|, 0, id);
    }
  }

  class HandSkeleton {
    const handedness: Handedness
    var handJoints: map<HandJointId, Node>
    var handLinks: map<HandJointId, Node>
    var handTips: map<HandJointId, Node>

    /** The three proxy tables start empty. */
    constructor (handedness: Handedness)
      ensures this.handedness == handedness
      ensures handJoints == map[] && handLinks == map[] && handTips == map[]
    {
      this.handedness := handedness;
      handJoints, handLinks, handTips := map[], map[], map[];
    }

    /** Every joint and every link has a proxy: what `ProcessSkeleton` indexes. */
    ghost predicate Built()
      reads this
    {
      (forall id :: id in handJoints) && (forall id :: IsLinkStart(id) ==> id in handLinks)
    }

    /**
      `SetSkeleton`: add a hidden proxy for each joint (tips from `tipObj`, the
      others from `jointObj`) and for each link (from `linkObj`).
      `Dictionary.Add` throws on a key already present, and every joint id is
      added, hence the precondition.  `handTips` stays as it is.
    */
    method SetSkeleton(jointObj: Node, linkObj: Node, tipObj: Node)
      requires handJoints == map[] && forall id :: IsLinkStart(id) ==> id !in handLinks
      modifies this
      ensures Built()
      ensures handJoints == JointProxies(jointObj, tipObj)
      ensures handLinks == old(handLinks) + LinkProxies(linkObj)
      ensures handTips == old(handTips)
    {
      ghost var l0 := handLinks;
      handJoints := handJoints[HandWristRoot := Hidden(jointObj)];
      for r := 0 to |Bones|
        invariant handJoints == JointsBuilt(jointObj, tipObj, r, 0)
        invariant handLinks == LinksBuilt(l0, linkObj, r, 0)
        invariant handTips == old(handTips)
      {
        BonesLayout(r, 0);
        var row := Bones[r];
        for i := 0 to |row| - 1
          invariant handJoints == JointsBuilt(jointObj, tipObj, r, i)
          invariant handLinks == LinksBuilt(l0, linkObj, r, i)
          invariant handTips == old(handTips)
        {
          BonesLayout(r, i);
          handJoints := handJoints[row[i] := Hidden(jointObj)];
          handLinks := handLinks[row[i] := Hidden(linkObj)];
        }
        BonesLayout(r, |row| - 1);
        handJoints := handJoints[row[|row| - 1] := Hidden(tipObj)];
        assert handJoints == JointsBuilt(jointObj, tipObj, r, |Slots|);
        assert handLinks == LinksBuilt(l0, linkObj, r, |Slots|);
      }
      BuildComplete(l0, jointObj, linkObj, tipObj);
      LayoutMembers();
    }

    /**
      `ProcessSkeleton` for one frame of the tracker: every joint proxy is
      shown iff its joint is valid, every link proxy iff both of its joints
      are; no proxy is added or removed.  Indexing a missing proxy throws,
      hence the precondition.
    */
    method ProcessSkeleton(frame: HandJointId -> JointSample, engine: Engine)
      requires Built()
      modifies this
      ensures Built()
      ensures handJoints == ShowJoints(old(handJoints), frame)
      ensures handLinks == ShowLinks(old(handLinks), frame, engine)
      ensures handTips == old(handTips)
    {
      ghost var j0, l0 := handJoints, handLinks;
      handJoints := handJoints[HandWristRoot := ShowJoint(handJoints[HandWristRoot], frame(HandWristRoot))];
      for r := 0 to |Bones|
        invariant handJoints == JointsRefreshed(j0, frame, r, 0)
        invariant handLinks == LinksRefreshed(l0, frame, engine, r, 0)
        invariant handTips == old(handTips)
      {
        BonesLayout(r, 0);
        handJoints, handLinks := RefreshRow(r, frame, engine, handJoints, handLinks, j0, l0);
      }
      RefreshComplete(j0, l0, frame, engine);
    }
  }

  /**
    HandSkeletonMgr: one skeleton per hand, built once and refreshed every
    frame.  The two skeletons are distinct objects, so each frame refreshes
    each one from its own hand's tracker only.
  */
  class HandSkeletonMgr {
    const leftHandSkeleton: HandSkeleton
    const rightHandSkeleton: HandSkeleton

    ghost predicate Valid()
      reads this, leftHandSkeleton, rightHandSkeleton
    {
      leftHandSkeleton != rightHandSkeleton && leftHandSkeleton.Built() && rightHandSkeleton.Built()
    }

    /** `Start`: a skeleton for each hand, each with its proxies created hidden. */
    constructor Start(jointObj: Node, linkObj: Node, tipObj: Node)
      ensures Valid()
      ensures fresh(leftHandSkeleton) && fresh(rightHandSkeleton)
      ensures leftHandSkeleton.handedness == Left && rightHandSkeleton.handedness == Right
      ensures leftHandSkeleton.handJoints == JointProxies(jointObj, tipObj)
      ensures rightHandSkeleton.handJoints == JointProxies(jointObj, tipObj)
      ensures leftHandSkeleton.handLinks == LinkProxies(linkObj) && rightHandSkeleton.handLinks == LinkProxies(linkObj)
      ensures leftHandSkeleton.handTips == map[] && rightHandSkeleton.handTips == map[]
    {
      var left := new HandSkeleton(Left);
      left.SetSkeleton(jointObj, linkObj, tipObj);
      var right := new HandSkeleton(Right);
      right.SetSkeleton(jointObj, linkObj, tipObj);
      leftHandSkeleton, rightHandSkeleton := left, right;
    }

    /** `Update`: refresh the left skeleton from the left tracker, the right from the right. */
    method Update(leftFrame: HandJointId -> JointSample, rightFrame: HandJointId -> JointSample, engine: Engine)
      requires Valid()
      modifies leftHandSkeleton, rightHandSkeleton
      ensures Valid()
      ensures leftHandSkeleton.handJoints == ShowJoints(old(leftHandSkeleton.handJoints), leftFrame)
      ensures leftHandSkeleton.handLinks == ShowLinks(old(leftHandSkeleton.handLinks), leftFrame, engine)
      ensures rightHandSkeleton.handJoints == ShowJoints(old(rightHandSkeleton.handJoints), rightFrame)
      ensures rightHandSkeleton.handLinks == ShowLinks(old(rightHandSkeleton.handLinks), rightFrame, engine)
      ensures leftHandSkeleton.handTips == old(leftHandSkeleton.handTips)
      ensures rightHandSkeleton.handTips == old(rightHandSkeleton.handTips)
    {
      leftHandSkeleton.ProcessSkeleton(leftFrame, engine);
      rightHandSkeleton.ProcessSkeleton(rightFrame, engine);
    }
  }
}
