/**
  TouchPad: the table of fingers touching the pad.  For every finger collider
  inside the pad's trigger it keeps a marker object at the contact point and
  the finger's current and previous contact in the pad's local frame; while
  fingers stay in contact it accumulates a gesture (a translation and a
  rotation), which each frame emits as an event when it is not neutral.
*/
module Touch {
  import opened Geometry
  import opened Wrappers
  import opened Hands
  import opened FingerTracking

  /** A finger collider, by identity: the engine's object reference. */
  type Collider = nat

  /** A touch-point marker: the engine object's identity and its world position. */
  datatype Marker = Marker(id: nat, position: Vec3)

  /**
    The three dictionaries (`_currentTouchPointObjs`, `_currentTouchPoints`,
    `_previousTouchPoints`), the identities of the markers alive in the scene,
    and the identity the next instantiated marker gets.
  */
  datatype Contacts = Contacts(
    objs: map<Collider, Marker>,
    current: map<TouchFinger, Vec3>,
    previous: map<TouchFinger, Vec3>,
    live: set<nat>,
    nextId: nat)

  /** The fingers of the tracked colliders. */
  function TrackedFingers(objs: map<Collider, Marker>, fingerOf: Collider -> TouchFinger): set<TouchFinger> {
    set c | c in objs :: fingerOf(c)
  }

  /** The markers of the tracked colliders. */
  function TrackedMarkers(objs: map<Collider, Marker>): set<nat> {
    set c | c in objs :: objs[c].id
  }

  /** No two tracked colliders carry the same finger. */
  ghost predicate FingersDistinct(objs: map<Collider, Marker>, fingerOf: Collider -> TouchFinger) {
    forall c, d :: c in objs && d in objs && c != d ==> fingerOf(c) != fingerOf(d)
  }

  /** No two tracked colliders share a marker. */
  ghost predicate MarkersDistinct(objs: map<Collider, Marker>) {
    forall c, d :: c in objs && d in objs && c != d ==> objs[c].id != objs[d].id
  }

  /**
    The table's invariant: both point tables are keyed by exactly the fingers
    of the tracked colliders, no two tracked colliders share a finger or a
    marker, and the live markers are exactly the tracked colliders' markers,
    all older than the next identity.
  */
  ghost predicate Inv(t: Contacts, fingerOf: Collider -> TouchFinger) {
    t.current.Keys == TrackedFingers(t.objs, fingerOf) &&
    t.previous.Keys == t.current.Keys &&
    FingersDistinct(t.objs, fingerOf) &&
    MarkersDistinct(t.objs) &&
    t.live == TrackedMarkers(t.objs) &&
    (forall c :: c in t.objs ==> t.objs[c].id < t.nextId)
  }

  /** The empty table of `Start`. */
  const Empty: Contacts := Contacts(map[], map[], map[], {}, 0)

  /**
    `CreateTouchPoint`: a new marker at the contact point, and the finger's
    current and previous points both set to the marker's local position, so
    the first delta is zero.  `Dictionary.Add` throws on a key already
    present, hence the precondition.
  */
  function Create(t: Contacts, c: Collider, finger: TouchFinger, contact: Vec3, local: Vec3): (r: Contacts)
    requires c !in t.objs && finger !in t.current && finger !in t.previous
    ensures r.objs == t.objs[c := Marker(t.nextId, contact)]
    ensures r.current == t.current[finger := local] && r.previous == t.previous[finger := local]
    ensures r.current[finger] == r.previous[finger]
    ensures r.live == t.live + {t.nextId} && r.nextId == t.nextId + 1
  {
    Contacts(t.objs[c := Marker(t.nextId, contact)],
             t.current[finger := local],
             t.previous[finger := local],
             t.live + {t.nextId},
             t.nextId + 1)
  }

  /**
    `UpdateTouchPoint`: the finger's previous point becomes its old current
    point, the marker moves to the new contact, and the current point becomes
    the marker's new local position; no key is added or removed.  The
    indexers throw on an untracked collider or finger.
  */
  function UpdatePoint(t: Contacts, c: Collider, finger: TouchFinger, contact: Vec3, local: Vec3): (r: Contacts)
    requires c in t.objs && finger in t.current
    ensures r.previous == t.previous[finger := t.current[finger]]
    ensures r.current == t.current[finger := local]
    ensures r.objs == t.objs[c := t.objs[c].(position := contact)]
    ensures r.objs.Keys == t.objs.Keys && r.current.Keys == t.current.Keys
    ensures finger in t.previous ==> r.previous.Keys == t.previous.Keys
    ensures r.live == t.live && r.nextId == t.nextId
  {
    t.(previous := t.previous[finger := t.current[finger]],
       objs := t.objs[c := t.objs[c].(position := contact)],
       current := t.current[finger := local])
  }

  /**
    `DestroyTouchPoint`: the collider's marker is destroyed and the collider
    leaves the object table, its finger both point tables; nothing else
    changes.  The indexer throws on an untracked collider.
  */
  function Destroy(t: Contacts, c: Collider, finger: TouchFinger): (r: Contacts)
    requires c in t.objs
    ensures r.objs.Keys == t.objs.Keys - {c} && forall d :: d in r.objs ==> r.objs[d] == t.objs[d]
    ensures r.current.Keys == t.current.Keys - {finger} && forall g :: g in r.current ==> r.current[g] == t.current[g]
    ensures r.previous.Keys == t.previous.Keys - {finger} && forall g :: g in r.previous ==> r.previous[g] == t.previous[g]
    ensures r.live == t.live - {t.objs[c].id} && r.nextId == t.nextId
  {
    Contacts(t.objs - {c}, t.current - {finger}, t.previous - {finger}, t.live - {t.objs[c].id}, t.nextId)
  }

  /**
    `OnTriggerEnter`: a collider already tracked is destroyed first, then a
    fresh entry is created; every other collider's marker and every other
    finger's points are left as they were.  Creating throws when the finger is still in a
    point table, hence the precondition for an untracked collider.
  */
  function Enter(t: Contacts, c: Collider, fingerOf: Collider -> TouchFinger, contact: Vec3, local: Vec3): (r: Contacts)
    requires c !in t.objs ==> fingerOf(c) !in t.current && fingerOf(c) !in t.previous
    ensures c in r.objs && r.objs[c] == Marker(t.nextId, contact)
    ensures fingerOf(c) in r.current && r.current[fingerOf(c)] == local
    ensures fingerOf(c) in r.previous && r.previous[fingerOf(c)] == local
    ensures r.objs.Keys == t.objs.Keys + {c}
    ensures r.live == (if c in t.objs then t.live - {t.objs[c].id} else t.live) + {t.nextId}
    ensures r.nextId == t.nextId + 1
    ensures forall d :: d in t.objs && d != c ==> r.objs[d] == t.objs[d]
    ensures forall g :: g in t.current && g != fingerOf(c) ==> g in r.current && r.current[g] == t.current[g]
    ensures forall g :: g in t.previous && g != fingerOf(c) ==> g in r.previous && r.previous[g] == t.previous[g]
  {
    var u := if c in t.objs then Destroy(t, c, fingerOf(c)) else t;
    Create(u, c, fingerOf(c), contact, local)
  }

  /** Tracking one more collider adds its finger and its marker. */
  lemma TrackedInsert(objs: map<Collider, Marker>, c: Collider, m: Marker, fingerOf: Collider -> TouchFinger)
    requires c !in objs
    ensures TrackedFingers(objs[c := m], fingerOf) == TrackedFingers(objs, fingerOf) + {fingerOf(c)}
    ensures TrackedMarkers(objs[c := m]) == TrackedMarkers(objs) + {m.id}
    ensures FingersDistinct(objs, fingerOf) && fingerOf(c) !in TrackedFingers(objs, fingerOf) ==>
      FingersDistinct(objs[c := m], fingerOf)
    ensures MarkersDistinct(objs) && (forall d :: d in objs ==> objs[d].id != m.id) ==> MarkersDistinct(objs[c := m])
  {
    var r := objs[c := m];
    assert forall g :: g in TrackedFingers(objs, fingerOf) ==> g in TrackedFingers(r, fingerOf) by {
      forall g | g in TrackedFingers(objs, fingerOf) ensures g in TrackedFingers(r, fingerOf) {
        var d :| d in objs && fingerOf(d) == g;
        assert d in r;
      }
    }
    assert forall i :: i in TrackedMarkers(objs) ==> i in TrackedMarkers(r) by {
      forall i | i in TrackedMarkers(objs) ensures i in TrackedMarkers(r) {
        var d :| d in objs && objs[d].id == i;
        assert d in r && r[d] == objs[d];
      }
    }
    assert c in r && r[c] == m;
  }

  /** Forgetting a tracked collider, when tracked fingers are distinct, removes exactly its finger. */
  lemma FingersRemove(objs: map<Collider, Marker>, c: Collider, fingerOf: Collider -> TouchFinger)
    requires c in objs && FingersDistinct(objs, fingerOf)
    ensures TrackedFingers(objs - {c}, fingerOf) == TrackedFingers(objs, fingerOf) - {fingerOf(c)}
    ensures FingersDistinct(objs - {c}, fingerOf)
  {
  }

  /** Forgetting a tracked collider, when markers are distinct, removes exactly its marker. */
  lemma MarkersRemove(objs: map<Collider, Marker>, c: Collider)
    requires c in objs && MarkersDistinct(objs)
    ensures TrackedMarkers(objs - {c}) == TrackedMarkers(objs) - {objs[c].id}
    ensures MarkersDistinct(objs - {c})
  {
    var r := objs - {c};
    forall i | i in TrackedMarkers(objs) - {objs[c].id} ensures i in TrackedMarkers(r) {
      var d :| d in objs && objs[d].id == i;
      assert d in r && r[d] == objs[d];
    }
  }

  /** Moving a tracked collider's marker changes no finger and no marker identity. */
  lemma TrackedMove(objs: map<Collider, Marker>, c: Collider, p: Vec3, fingerOf: Collider -> TouchFinger)
    requires c in objs
    ensures TrackedFingers(objs[c := objs[c].(position := p)], fingerOf) == TrackedFingers(objs, fingerOf)
    ensures TrackedMarkers(objs[c := objs[c].(position := p)]) == TrackedMarkers(objs)
    ensures MarkersDistinct(objs) ==> MarkersDistinct(objs[c := objs[c].(position := p)])
  {
    var r := objs[c := objs[c].(position := p)];
    assert r.Keys == objs.Keys;
    forall i | i in TrackedMarkers(objs) ensures i in TrackedMarkers(r) {
      var d :| d in objs && objs[d].id == i;
      assert d in r && r[d].id == i;
    }
  }

  /** Creating an entry for an untracked collider whose finger is not in use keeps the invariant. */
  lemma CreateKeepsInv(t: Contacts, c: Collider, fingerOf: Collider -> TouchFinger, contact: Vec3, local: Vec3)
    requires Inv(t, fingerOf)
    requires c !in t.objs && fingerOf(c) !in t.current
    ensures Inv(Create(t, c, fingerOf(c), contact, local), fingerOf)
  {
    var m := Marker(t.nextId, contact);
    var r := Create(t, c, fingerOf(c), contact, local);
    assert r.current.Keys == TrackedFingers(r.objs, fingerOf) && FingersDistinct(r.objs, fingerOf) by {
      TrackedInsert(t.objs, c, m, fingerOf);
    }
    assert r.live == TrackedMarkers(r.objs) && MarkersDistinct(r.objs) by {
      TrackedInsert(t.objs, c, m, fingerOf);
    }
    assert forall d :: d in r.objs ==> r.objs[d].id < r.nextId;
  }

  /** Moving a tracked collider's contact keeps the invariant. */
  lemma UpdateKeepsInv(t: Contacts, c: Collider, fingerOf: Collider -> TouchFinger, contact: Vec3, local: Vec3)
    requires Inv(t, fingerOf)
    requires c in t.objs
    ensures fingerOf(c) in t.current
    ensures Inv(UpdatePoint(t, c, fingerOf(c), contact, local), fingerOf)
  {
    TrackedMove(t.objs, c, contact, fingerOf);
    assert fingerOf(c) in TrackedFingers(t.objs, fingerOf);
  }

  /** Destroying a tracked collider's entry keeps the invariant, and its finger is free again. */
  lemma DestroyKeepsInv(t: Contacts, c: Collider, fingerOf: Collider -> TouchFinger)
    requires Inv(t, fingerOf)
    requires c in t.objs
    ensures var r := Destroy(t, c, fingerOf(c));
      Inv(r, fingerOf) && fingerOf(c) !in r.current && fingerOf(c) !in r.previous
  {
    FingersRemove(t.objs, c, fingerOf);
    MarkersRemove(t.objs, c);
  }

  /**
    Entering keeps the invariant whenever `Enter` can run at all: no other
    tracked collider carries the same finger, so the stale entry's finger is
    the only one to clear.  Afterwards the collider has exactly one live
    marker, the new one, and a stale marker of its own is gone.
  */
  lemma EnterKeepsInv(t: Contacts, c: Collider, fingerOf: Collider -> TouchFinger, contact: Vec3, local: Vec3)
    requires Inv(t, fingerOf)
    requires c !in t.objs ==> fingerOf(c) !in t.current
    ensures forall d :: d in t.objs && d != c ==> fingerOf(d) != fingerOf(c)
    ensures c !in t.objs ==> fingerOf(c) !in t.previous
    ensures var r := Enter(t, c, fingerOf, contact, local);
      Inv(r, fingerOf) && r.objs[c].id in r.live &&
      (c in t.objs ==> t.objs[c].id !in r.live) &&
      forall d :: d in r.objs && d != c ==> r.objs[d].id != r.objs[c].id
  {
    forall d | d in t.objs && d != c ensures fingerOf(d) != fingerOf(c) {
      assert fingerOf(d) in TrackedFingers(t.objs, fingerOf);
    }
    if c in t.objs {
      DestroyKeepsInv(t, c, fingerOf);
      CreateKeepsInv(Destroy(t, c, fingerOf(c)), c, fingerOf, contact, local);
    } else {
      CreateKeepsInv(t, c, fingerOf, contact, local);
    }
  }

  /** Distinct markers make as many marker identities as tracked colliders. */
  lemma {:induction false} MarkerCount(objs: map<Collider, Marker>)
    requires MarkersDistinct(objs)
    ensures |TrackedMarkers(objs)| == |objs|
    decreases |objs|
  {
    if objs != map[] {
      var c :| c in objs;
      MarkersRemove(objs, c);
      assert (objs - {c}).Keys == objs.Keys - {c};
      MarkerCount(objs - {c});
      assert objs[c].id in TrackedMarkers(objs);
    }
  }

  /** Under the invariant there is exactly one live marker per tracked collider: markers never leak. */
  lemma LiveMarkersMatch(t: Contacts, fingerOf: Collider -> TouchFinger)
    requires Inv(t, fingerOf)
    ensures |t.live| == |t.objs|
  {
    MarkerCount(t.objs);
  }

  /** The tracked colliders whose game object is no longer active. */
  function Inactive(objs: map<Collider, Marker>, active: Collider -> bool): (gone: set<Collider>)
    ensures forall c :: c in gone <==> c in objs && !active(c)
  {
    set c | c in objs && !active(c)
  }

  /** The entries of the colliders in `cs`. */
  function Restrict(objs: map<Collider, Marker>, cs: set<Collider>): (r: map<Collider, Marker>)
    ensures forall c :: c in r <==> c in objs && c in cs
    ensures forall c :: c in r ==> r[c] == objs[c]
  {
    map c | c in objs && c in cs :: objs[c]
  }

  /**
    The table after destroying the entries of the tracked colliders in
    `gone`, one after another, in any order.
  */
  function Pruned(t: Contacts, gone: set<Collider>, fingerOf: Collider -> TouchFinger): (r: Contacts)
    ensures r.objs.Keys == t.objs.Keys - gone
  {
    var removed := Restrict(t.objs, gone);
    Contacts(map c | c in t.objs && c !in gone :: t.objs[c],
             map g | g in t.current && g !in TrackedFingers(removed, fingerOf) :: t.current[g],
             map g | g in t.previous && g !in TrackedFingers(removed, fingerOf) :: t.previous[g],
             t.live - TrackedMarkers(removed),
             t.nextId)
  }

  /** Destroying one more tracked collider's entry extends the pruned set by that collider. */
  lemma PrunedStep(t: Contacts, gone: set<Collider>, c: Collider, fingerOf: Collider -> TouchFinger)
    requires c in t.objs && c !in gone
    ensures c in Pruned(t, gone, fingerOf).objs
    ensures Destroy(Pruned(t, gone, fingerOf), c, fingerOf(c)) == Pruned(t, gone + {c}, fingerOf)
  {
    var removed := Restrict(t.objs, gone);
    var fs, ms := TrackedFingers(removed, fingerOf), TrackedMarkers(removed);
    assert Restrict(t.objs, gone + {c}) == removed[c := t.objs[c]];
    TrackedInsert(removed, c, t.objs[c], fingerOf);
    DropOneMore(t.objs, gone, c);
    DropOneMore(t.current, fs, fingerOf(c));
    DropOneMore(t.previous, fs, fingerOf(c));
  }

  /** Dropping the keys of `drop`, then `k`, is dropping the keys of `drop + {k}`. */
  lemma DropOneMore<K, V>(m: map<K, V>, drop: set<K>, k: K)
    ensures (map x | x in m && x !in drop :: m[x]) - {k} == map x | x in m && x !in drop + {k} :: m[x]
  {
  }

  /** Pruning keeps exactly the fingers and the markers of the colliders left, when both are distinct. */
  lemma PrunedTracked(t: Contacts, gone: set<Collider>, fingerOf: Collider -> TouchFinger)
    requires FingersDistinct(t.objs, fingerOf) && MarkersDistinct(t.objs)
    ensures var r := Pruned(t, gone, fingerOf);
      TrackedFingers(r.objs, fingerOf) == TrackedFingers(t.objs, fingerOf) - TrackedFingers(Restrict(t.objs, gone), fingerOf) &&
      TrackedMarkers(r.objs) == TrackedMarkers(t.objs) - TrackedMarkers(Restrict(t.objs, gone))
  {
    var r := Pruned(t, gone, fingerOf);
    var removed := Restrict(t.objs, gone);
    forall g | g in TrackedFingers(t.objs, fingerOf) - TrackedFingers(removed, fingerOf)
      ensures g in TrackedFingers(r.objs, fingerOf)
    {
      var d :| d in t.objs && fingerOf(d) == g;
      assert d in gone ==> d in removed;
      assert d in r.objs;
    }
    forall g | g in TrackedFingers(r.objs, fingerOf) ensures g !in TrackedFingers(removed, fingerOf) {
      var d :| d in r.objs && fingerOf(d) == g;
      forall e | e in removed ensures fingerOf(e) != g {
        assert e != d;
      }
    }
    forall i | i in TrackedMarkers(t.objs) - TrackedMarkers(removed) ensures i in TrackedMarkers(r.objs) {
      var d :| d in t.objs && t.objs[d].id == i;
      assert d in gone ==> d in removed;
      assert d in r.objs && r.objs[d].id == i;
    }
    forall i | i in TrackedMarkers(r.objs) ensures i !in TrackedMarkers(removed) {
      var d :| d in r.objs && r.objs[d].id == i;
      forall e | e in removed ensures removed[e].id != i {
        assert e != d;
      }
    }
  }

  /**
    The sweep of `Update`: pruning the inactive colliders keeps the
    invariant, leaves exactly the active colliders tracked with their markers
    and points untouched, and destroys the marker of every inactive one.
  */
  lemma SweepKeepsInv(t: Contacts, active: Collider -> bool, fingerOf: Collider -> TouchFinger)
    requires Inv(t, fingerOf)
    ensures var r := Pruned(t, Inactive(t.objs, active), fingerOf);
      Inv(r, fingerOf) &&
      (forall c :: c in r.objs <==> c in t.objs && active(c)) &&
      (forall c :: c in r.objs ==> r.objs[c] == t.objs[c]) &&
      (forall g :: g in r.current ==> g in t.current && g in t.previous &&
                                      r.current[g] == t.current[g] && r.previous[g] == t.previous[g]) &&
      (forall c :: c in t.objs && !active(c) ==> t.objs[c].id !in r.live)
  {
    var gone := Inactive(t.objs, active);
    PrunedTracked(t, gone, fingerOf);
    var removed := Restrict(t.objs, gone);
    forall c | c in t.objs && !active(c) ensures t.objs[c].id in TrackedMarkers(removed) {
      assert c in removed && removed[c] == t.objs[c];
    }
  }

  /**
    The translation event of `Update`: emitted with the accumulated value iff
    it is not zero in Unity's approximate sense, after which the accumulator
    is zero; afterwards the accumulator is always approximately zero.
  */
  function FlushTranslation(net: Vec3): (r: (Option<Vec3>, Vec3))
    ensures r.0.Some? <==> !ApproxZero(net)
    ensures r.0.Some? ==> r.0.value == net && r.1 == Zero
    ensures r.0.None? ==> r.1 == net
    ensures ApproxZero(r.1)
  {
    if !ApproxZero(net) then (Some(net), Zero) else (None, net)
  }

  /**
    The rotation event of `Update`: the accumulated rotation's Euler angles
    are emitted iff it is not the identity in Unity's approximate sense, after
    which it is reset; afterwards it is always approximately the identity.
  */
  function FlushRotation(net: Quat, eulerAngles: Quat -> Vec3): (r: (Option<Vec3>, Quat))
    ensures r.0.Some? <==> !ApproxEqual(net, Identity)
    ensures r.0.Some? ==> r.0.value == eulerAngles(net) && r.1 == Identity
    ensures r.0.None? ==> r.1 == net
    ensures ApproxEqual(r.1, Identity)
  {
    if !ApproxEqual(net, Identity) then (Some(eulerAngles(net)), Identity) else (None, net)
  }

  /** The share of each contact's gesture delta that is accumulated. */
  const GestureGain: real := 0.2

  /**
    The gesture one contact contributes in one frame, as computed from the
    finger's previous and current strokes and the pad's transform: a rotation
    and a translation in the pad's frame.
  */
  datatype GestureDelta = GestureDelta(rotation: Quat, translation: Vec3)

  /**
    What the gesture reads from a finger's pose array: the positions of its
    root, its proximal joint and its pad, and the two segments between them.
  */
  datatype Stroke = Stroke(root: Vec3, start: Vec3, pad: Vec3, rootToStart: Vec3, startToPad: Vec3)

  /** The stroke of a finger's pose array; indexing throws on an array shorter than six poses. */
  function StrokeOf(poses: seq<Pose>): (s: Stroke)
    requires |poses| >= PosesPerFinger
    ensures s.root == poses[0].position && s.start == poses[1].position && s.pad == poses[5].position
    ensures Add(s.root, s.rootToStart) == s.start && Add(s.start, s.startToPad) == s.pad
  {
    var root := poses[Ordinal(Root)].position;
    var start := poses[Ordinal(Proximal)].position;
    var pad := poses[Ordinal(Pad)].position;
    Stroke(root, start, pad, Sub(start, root), Sub(pad, start))
  }

  /** The two events `Update` may fire: `_onHandTranslated` and `_onHandRotated`, with their (x, y, z). */
  datatype PadEvents = PadEvents(translated: Option<Vec3>, rotated: Option<Vec3>)

  class TouchPad {
    /**
      `GetComponent<TouchColliderInfo>()` on a collider's object: whether the
      object carries the component at all (a touch object does, a skeleton's
      link capsule does not), and, where it does, its `touchFinger`.
    */
    const hasInfo: Collider -> bool
    const fingerOf: Collider -> TouchFinger
    const engine: Engine
    const leftTouchHand: TouchHand
    const rightTouchHand: TouchHand

    var currentTouchPointObjs: map<Collider, Marker>
    var currentTouchPoints: map<TouchFinger, Vec3>
    var previousTouchPoints: map<TouchFinger, Vec3>
    var liveMarkers: set<nat>
    var nextMarkerId: nat
    var netTranslation: Vec3
    var netRotation: Quat

    /** The contact table held in the fields. */
    function Table(): Contacts
      reads this
    {
      Contacts(currentTouchPointObjs, currentTouchPoints, previousTouchPoints, liveMarkers, nextMarkerId)
    }

    /** Only colliders carrying a `TouchColliderInfo` are ever tracked. */
    ghost predicate Tagged()
      reads this
    {
      forall c :: c in currentTouchPointObjs ==> hasInfo(c)
    }

    /**
      No two tagged colliders carry the same finger: `TouchHand.Start` gives
      each touch object a `TouchFinger` of its own, and dictionaries key
      those by reference.
    */
    ghost predicate FingersUnique() {
      forall d, e :: hasInfo(d) && hasInfo(e) && fingerOf(d) == fingerOf(e) ==> d == e
    }

    ghost predicate Valid()
      reads this
    {
      Inv(Table(), fingerOf) && Tagged() && FingersUnique()
    }

    /**
      In a valid state the trigger handlers' preconditions hold: an untracked
      tagged collider's finger has no point yet, and a tagged collider whose
      finger has a point is the tracked one.
    */
    lemma ValidAdmitsTriggers(c: Collider)
      requires Valid()
      ensures hasInfo(c) && c !in currentTouchPointObjs ==>
        fingerOf(c) !in currentTouchPoints && fingerOf(c) !in previousTouchPoints
      ensures hasInfo(c) && fingerOf(c) in currentTouchPoints ==> c in currentTouchPointObjs
    {
      if hasInfo(c) && fingerOf(c) in currentTouchPoints {
        var d :| d in currentTouchPointObjs && fingerOf(d) == fingerOf(c);
        assert hasInfo(d);
      }
    }

    /** The touch hand of a finger's handedness. */
    function HandOf(g: TouchFinger): TouchHand {
      if g.handedness == Left then leftTouchHand else rightTouchHand
    }

    /** The hand's previous and current snapshots both hold six or more poses for `f`. */
    ghost predicate HasStrokes(hand: TouchHand, f: HandFinger)
      reads hand
    {
      f in hand.previousHandJointPoses && f in hand.currentHandJointPoses &&
      |hand.previousHandJointPoses[f]| >= PosesPerFinger && |hand.currentHandJointPoses[f]| >= PosesPerFinger
    }

    /** `Start`: empty tables and neutral accumulators. */
    constructor Start(hasInfo: Collider -> bool, fingerOf: Collider -> TouchFinger, engine: Engine,
                      leftTouchHand: TouchHand, rightTouchHand: TouchHand)
      requires forall d, e :: hasInfo(d) && hasInfo(e) && fingerOf(d) == fingerOf(e) ==> d == e
      ensures Valid() && Table() == Empty
      ensures this.hasInfo == hasInfo && this.fingerOf == fingerOf && this.engine == engine
      ensures this.leftTouchHand == leftTouchHand && this.rightTouchHand == rightTouchHand
      ensures netTranslation == Zero && netRotation == Identity
    {
      this.hasInfo, this.fingerOf, this.engine := hasInfo, fingerOf, engine;
      this.leftTouchHand, this.rightTouchHand := leftTouchHand, rightTouchHand;
      currentTouchPointObjs, currentTouchPoints, previousTouchPoints := map[], map[], map[];
      liveMarkers, nextMarkerId := {}, 0;
      netTranslation, netRotation := Zero, Identity;
    }

    /** `CreateTouchPoint(c)` with `ClosestPoint` = contact and the pad's world-to-local map `toLocal`. */
    method CreateTouchPoint(c: Collider, contact: Vec3, toLocal: Vec3 -> Vec3)
      requires hasInfo(c)
      requires c !in currentTouchPointObjs && fingerOf(c) !in currentTouchPoints && fingerOf(c) !in previousTouchPoints
      modifies this
      ensures Table() == Create(old(Table()), c, fingerOf(c), contact, toLocal(contact))
      ensures netTranslation == old(netTranslation) && netRotation == old(netRotation)
    {
      var touchFinger := fingerOf(c);
      var marker := Marker(nextMarkerId, Zero);
      liveMarkers := liveMarkers + {nextMarkerId};
      nextMarkerId := nextMarkerId + 1;
      currentTouchPointObjs := currentTouchPointObjs[c := marker];
      currentTouchPointObjs := currentTouchPointObjs[c := currentTouchPointObjs[c].(position := contact)];
      currentTouchPoints := currentTouchPoints[touchFinger := toLocal(currentTouchPointObjs[c].position)];
      previousTouchPoints := previousTouchPoints[touchFinger := toLocal(currentTouchPointObjs[c].position)];
    }

    /** `UpdateTouchPoint(c)`; the indexers throw on an untracked collider or finger. */
    method UpdateTouchPoint(c: Collider, contact: Vec3, toLocal: Vec3 -> Vec3)
      requires hasInfo(c)
      requires c in currentTouchPointObjs && fingerOf(c) in currentTouchPoints
      modifies this
      ensures Table() == UpdatePoint(old(Table()), c, fingerOf(c), contact, toLocal(contact))
      ensures netTranslation == old(netTranslation) && netRotation == old(netRotation)
    {
      var touchFinger := fingerOf(c);
      previousTouchPoints := previousTouchPoints[touchFinger := currentTouchPoints[touchFinger]];
      currentTouchPointObjs := currentTouchPointObjs[c := currentTouchPointObjs[c].(position := contact)];
      currentTouchPoints := currentTouchPoints[touchFinger := toLocal(currentTouchPointObjs[c].position)];
    }

    /** `DestroyTouchPoint(c)`; the indexer throws on an untracked collider. */
    method DestroyTouchPoint(c: Collider)
      requires hasInfo(c)
      requires c in currentTouchPointObjs
      modifies this
      ensures Table() == Destroy(old(Table()), c, fingerOf(c))
      ensures netTranslation == old(netTranslation) && netRotation == old(netRotation)
    {
      var touchFinger := fingerOf(c);
      liveMarkers := liveMarkers - {currentTouchPointObjs[c].id};
      currentTouchPointObjs := currentTouchPointObjs - {c};
      currentTouchPoints := currentTouchPoints - {touchFinger};
      previousTouchPoints := previousTouchPoints - {touchFinger};
    }

    /**
      `OnTriggerEnter(c)`: destroy a stale entry, then create a fresh one.  A
      collider without `TouchColliderInfo` makes the first `touchFinger` read
      throw before anything is written, so nothing changes.  `Dictionary.Add`
      would throw on a finger already in a point table after the collider was
      added; the precondition excludes that, and `ValidAdmitsTriggers` shows
      it holds in every valid state.
    */
    method OnTriggerEnter(c: Collider, contact: Vec3, toLocal: Vec3 -> Vec3)
      requires hasInfo(c) && c !in currentTouchPointObjs ==>
        fingerOf(c) !in currentTouchPoints && fingerOf(c) !in previousTouchPoints
      modifies this
      ensures !hasInfo(c) ==> Table() == old(Table())
      ensures hasInfo(c) ==> Table() == Enter(old(Table()), c, fingerOf, contact, toLocal(contact))
      ensures netTranslation == old(netTranslation) && netRotation == old(netRotation)
      ensures old(Valid()) ==> Valid()
    {
      if !hasInfo(c) {
        return;
      }
      ghost var t0 := Table();
      if c in currentTouchPointObjs {
        DestroyTouchPoint(c);
      }
      CreateTouchPoint(c, contact, toLocal);
      if old(Valid()) {
        EnterKeepsInv(t0, c, fingerOf, contact, toLocal(contact));
      }
    }

    /**
      `OnTriggerStay(c)`: update the contact, then accumulate the gesture the
      finger made since the last frame, read from the finger's strokes in its
      hand's previous and current snapshots: the rotation, slerped by 0.2
      from the identity, is applied before the accumulated one, and 0.2 of the
      translation is added.

      Where the source throws, the handler stops with what it has written so
      far: a collider without `TouchColliderInfo`, or one whose finger has no
      current point, changes nothing; when a snapshot lacks the finger (the
      current one until the hand's first confident frame, the previous one
      until the frame after) or holds a short array, the contact is updated
      but no gesture is added.  `UpdateTouchPoint` would write the previous
      point and then throw on an untracked collider whose finger has a point;
      the precondition excludes that, and `ValidAdmitsTriggers` shows it holds
      in every valid state.
    */
    method OnTriggerStay(c: Collider, contact: Vec3, toLocal: Vec3 -> Vec3,
                         gesture: (Stroke, Stroke) -> GestureDelta)
      requires hasInfo(c) && fingerOf(c) in currentTouchPoints ==> c in currentTouchPointObjs
      modifies this
      ensures !hasInfo(c) || fingerOf(c) !in old(currentTouchPoints) ==>
        Table() == old(Table()) && netTranslation == old(netTranslation) && netRotation == old(netRotation)
      ensures hasInfo(c) && fingerOf(c) in old(currentTouchPoints) ==>
        Table() == UpdatePoint(old(Table()), c, fingerOf(c), contact, toLocal(contact))
      ensures hasInfo(c) && fingerOf(c) in old(currentTouchPoints) && !HasStrokes(HandOf(fingerOf(c)), fingerOf(c).handFinger) ==>
        netTranslation == old(netTranslation) && netRotation == old(netRotation)
      ensures hasInfo(c) && fingerOf(c) in old(currentTouchPoints) && HasStrokes(HandOf(fingerOf(c)), fingerOf(c).handFinger) ==>
        var hand, f := HandOf(fingerOf(c)), fingerOf(c).handFinger;
        var delta := gesture(StrokeOf(hand.previousHandJointPoses[f]), StrokeOf(hand.currentHandJointPoses[f]));
        netRotation == Mul(engine.slerpUnclamped(Identity, delta.rotation, GestureGain), old(netRotation)) &&
        netTranslation == Add(old(netTranslation), Scale(delta.translation, GestureGain))
      ensures old(Valid()) ==> Valid()
    {
      if !hasInfo(c) || fingerOf(c) !in currentTouchPoints {
        return;
      }
      ghost var t0 := Table();
      UpdateTouchPoint(c, contact, toLocal);
      if old(Valid()) {
        UpdateKeepsInv(t0, c, fingerOf, contact, toLocal(contact));
      }

      var touchFinger := fingerOf(c);
      var touchHand: TouchHand;
      if touchFinger.handedness == Left {
        touchHand := leftTouchHand;
      } else {
        touchHand := rightTouchHand;
      }
      var handFinger := touchFinger.handFinger;
      AddGesture(touchHand, handFinger, gesture);
    }

    /**
      The second half of `OnTriggerStay`: the gesture of finger `f` of
      `touchHand` is accumulated.  Indexing a snapshot that lacks the finger,
      or a pose array shorter than six, throws, and then nothing is added.
    */
    method AddGesture(touchHand: TouchHand, handFinger: HandFinger, gesture: (Stroke, Stroke) -> GestureDelta)
      modifies this
      ensures Table() == old(Table())
      ensures !HasStrokes(touchHand, handFinger) ==>
        netTranslation == old(netTranslation) && netRotation == old(netRotation)
      ensures HasStrokes(touchHand, handFinger) ==>
        var delta := gesture(StrokeOf(touchHand.previousHandJointPoses[handFinger]),
                             StrokeOf(touchHand.currentHandJointPoses[handFinger]));
        netRotation == Mul(engine.slerpUnclamped(Identity, delta.rotation, GestureGain), old(netRotation)) &&
        netTranslation == Add(old(netTranslation), Scale(delta.translation, GestureGain))
    {
      if handFinger !in touchHand.previousHandJointPoses || handFinger !in touchHand.currentHandJointPoses {
        return;
      }
      var previousFingerJointPoses := touchHand.previousHandJointPoses[handFinger];
      var currentFingerJointPoses := touchHand.currentHandJointPoses[handFinger];
      if |previousFingerJointPoses| < PosesPerFinger || |currentFingerJointPoses| < PosesPerFinger {
        return;
      }
      var delta := gesture(StrokeOf(previousFingerJointPoses), StrokeOf(currentFingerJointPoses));
      netRotation := Mul(engine.slerpUnclamped(Identity, delta.rotation, GestureGain), netRotation);
      netTranslation := Add(netTranslation, Scale(delta.translation, GestureGain));
    }

    /**
      `OnTriggerExit(c)`: the entry is destroyed.  A collider without
      `TouchColliderInfo`, or one not tracked, makes `DestroyTouchPoint` throw
      before anything is written, so nothing changes.
    */
    method OnTriggerExit(c: Collider)
      modifies this
      ensures !hasInfo(c) || c !in old(currentTouchPointObjs) ==> Table() == old(Table())
      ensures hasInfo(c) && c in old(currentTouchPointObjs) ==> Table() == Destroy(old(Table()), c, fingerOf(c))
      ensures netTranslation == old(netTranslation) && netRotation == old(netRotation)
      ensures old(Valid()) ==> Valid()
    {
      if !hasInfo(c) || c !in currentTouchPointObjs {
        return;
      }
      ghost var t0 := Table();
      DestroyTouchPoint(c);
      if old(Valid()) {
        DestroyKeepsInv(t0, c, fingerOf);
      }
    }

    /**
      The first half of `Update`: going over a copy of the tracked colliders,
      in any order, the entry of each inactive one is destroyed.
    */
    method DestroyInactive(active: Collider -> bool)
      requires Tagged()
      modifies this
      ensures Table() == Pruned(old(Table()), Inactive(old(currentTouchPointObjs), active), fingerOf)
      ensures netTranslation == old(netTranslation) && netRotation == old(netRotation)
    {
      ghost var t0 := Table();
      var colliders := currentTouchPointObjs.Keys;
      var pending := colliders;
      ghost var gone: set<Collider> := {};
      while pending != {}
        invariant pending <= colliders && gone <= colliders - pending
        invariant forall c :: c in colliders ==> hasInfo(c)
        invariant forall c :: c in colliders - pending ==> (c in gone <==> !active(c))
        invariant Table() == Pruned(t0, gone, fingerOf)
        invariant netTranslation == old(netTranslation) && netRotation == old(netRotation)
        decreases pending
      {
        var c :| c in pending;
        if !active(c) {
          PrunedStep(t0, gone, c, fingerOf);
          DestroyTouchPoint(c);
          gone := gone + {c};
        }
        pending := pending - {c};
      }
      assert gone == Inactive(t0.objs, active);
    }

    /**
      `Update` for one frame, with `active(c)` the collider's `activeSelf`:
      every tracked collider that is inactive is destroyed; then each
      accumulator is emitted and reset unless it is already neutral.  Every
      tracked collider carries `TouchColliderInfo`, as the handlers only ever
      track such colliders, so destroying one never throws.
    */
    method Update(active: Collider -> bool) returns (events: PadEvents)
      requires Tagged()
      modifies this
      ensures Tagged()
      ensures Table() == Pruned(old(Table()), Inactive(old(currentTouchPointObjs), active), fingerOf)
      ensures (events.translated, netTranslation) == FlushTranslation(old(netTranslation))
      ensures (events.rotated, netRotation) == FlushRotation(old(netRotation), engine.eulerAngles)
      ensures old(Valid()) ==> Valid()
    {
      ghost var t0 := Table();
      DestroyInactive(active);
      if old(Valid()) {
        SweepKeepsInv(t0, active, fingerOf);
      }

      events := PadEvents(None, None);
      if !ApproxZero(netTranslation) {
        events := events.(translated := Some(netTranslation));
        netTranslation := Zero;
      }
      if !ApproxEqual(netRotation, Identity) {
        events := events.(rotated := Some(engine.eulerAngles(netRotation)));
        netRotation := Identity;
      }
    }
  }
}
