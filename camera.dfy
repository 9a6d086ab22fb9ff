/**
  CameraMgr: the camera rig's inertial integrator.  The rig's transform
  (position, rotation) and the two velocities are fields updated in place by
  the once-per-frame `LateUpdate` and by the two control inputs, which go into
  the velocities when inertia is on and straight into the transform when it
  is off.
*/
module Camera {
  import opened Geometry

  /** A velocity whose magnitude is below 0.01 is snapped to zero: |v| < 0.01 iff |v|^2 < 0.0001. */
  const SnapSqrSpeed: real := 0.0001

  /** An angular velocity whose w component is below this is snapped to the identity. */
  const SnapAngularW: real := 0.01

  /** The drag factor of one frame: `Mathf.Clamp(1 - drag * dt, 0, 1)`. */
  function DragFactor(drag: real, dt: real): (f: real)
    ensures 0.0 <= f <= 1.0
    ensures drag == 0.0 ==> f == 1.0
    ensures drag * dt >= 1.0 ==> f == 0.0
  {
    Clamp01(1.0 - drag * dt)
  }

  /**
    The linear channel of an inertial step: the velocity shrinks by the drag
    factor and is snapped to zero once slower than 0.01.  Speed never grows;
    no velocity slower than the threshold survives; with no drag the velocity
    is kept unless it was already below the threshold.
  */
  function DecayVelocity(v: Vec3, drag: real, dt: real): (r: Vec3)
    ensures SqrMagnitude(r) <= SqrMagnitude(v)
    ensures r == Zero || SqrMagnitude(r) >= SnapSqrSpeed
    ensures r == Zero || r == Scale(v, DragFactor(drag, dt))
    ensures drag == 0.0 ==> r == v || (r == Zero && SqrMagnitude(v) < SnapSqrSpeed)
    ensures DragFactor(drag, dt) == 0.0 ==> r == Zero
    ensures SqrMagnitude(Scale(v, DragFactor(drag, dt))) >= SnapSqrSpeed ==> r == Scale(v, DragFactor(drag, dt))
  {
    var f := DragFactor(drag, dt);
    var scaled := Scale(v, f);
    ScaleNoLonger(v, f);
    if SqrMagnitude(scaled) < SnapSqrSpeed then Zero else scaled
  }

  /**
    The angular channel of an inertial step: slerp from the identity toward the
    angular velocity by the angular drag factor, then snap to the identity when
    the w component falls below 0.01, keeping it otherwise.  Afterwards w is
    never below 0.01.
  */
  function DecayAngular(q: Quat, angularDrag: real, dt: real, engine: Engine): (r: Quat)
    ensures r.w >= SnapAngularW
    ensures r == Identity || r == engine.slerpUnclamped(Identity, q, DragFactor(angularDrag, dt))
    ensures engine.slerpUnclamped(Identity, q, DragFactor(angularDrag, dt)).w < SnapAngularW ==> r == Identity
    ensures engine.slerpUnclamped(Identity, q, DragFactor(angularDrag, dt)).w >= SnapAngularW ==>
      r == engine.slerpUnclamped(Identity, q, DragFactor(angularDrag, dt))
  {
    var slowed := engine.slerpUnclamped(Identity, q, DragFactor(angularDrag, dt));
    if slowed.w < SnapAngularW then Identity else slowed
  }

  /** The world-space step of `CameraDollyTrack`: the axis inputs rotated by the rig, times the gain. */
  function DollyStep(rotation: Quat, truck: real, jib: real, dolly: real, sensitivity: real): (d: Vec3)
    ensures rotation == Identity ==> d == Vec3(sensitivity * truck, sensitivity * jib, sensitivity * dolly)
  {
    Scale(Rotate(rotation, Vec3(truck, jib, dolly)), sensitivity)
  }

  class CameraMgr {
    const engine: Engine

    // `_mainCameraRig`'s transform
    var position: Vec3
    var rotation: Quat

    var rotationSensitivity: real
    var translationSensitivity: real
    var inertia: bool
    var drag: real
    var angularDrag: real
    var velocity: Vec3
    var angularVelocity: Quat

    /** `Start`: the rig at rest. */
    constructor Start(engine: Engine, position: Vec3, rotation: Quat, rotationSensitivity: real,
                      translationSensitivity: real, inertia: bool, drag: real, angularDrag: real)
      ensures this.engine == engine && this.position == position && this.rotation == rotation
      ensures this.rotationSensitivity == rotationSensitivity
      ensures this.translationSensitivity == translationSensitivity
      ensures this.inertia == inertia && this.drag == drag && this.angularDrag == angularDrag
      ensures velocity == Zero && angularVelocity == Identity
    {
      this.engine := engine;
      this.position, this.rotation := position, rotation;
      this.rotationSensitivity, this.translationSensitivity := rotationSensitivity, translationSensitivity;
      this.inertia, this.drag, this.angularDrag := inertia, drag, angularDrag;
      velocity, angularVelocity := Zero, Identity;
    }

    /**
      `LateUpdate` with `Time.deltaTime` = dt: advance the transform by the
      velocities, then decay them (inertia on) or stop the rig (inertia off).
    */
    method LateUpdate(dt: real)
      modifies this
      ensures position == Add(old(position), Scale(old(velocity), dt))
      ensures rotation == Mul(engine.slerpUnclamped(Identity, old(angularVelocity), dt), old(rotation))
      ensures inertia ==> velocity == DecayVelocity(old(velocity), drag, dt)
      ensures inertia ==> angularVelocity == DecayAngular(old(angularVelocity), angularDrag, dt, engine)
      ensures !inertia ==> velocity == Zero && angularVelocity == Identity
      ensures inertia == old(inertia) && drag == old(drag) && angularDrag == old(angularDrag)
      ensures rotationSensitivity == old(rotationSensitivity)
      ensures translationSensitivity == old(translationSensitivity)
    {
      position := Add(position, Scale(velocity, dt));
      rotation := Mul(engine.slerpUnclamped(Identity, angularVelocity, dt), rotation);
      if inertia {
        velocity := Scale(velocity, DragFactor(drag, dt));
        if SqrMagnitude(velocity) < SnapSqrSpeed {
          velocity := Zero;
        }
        angularVelocity := engine.slerpUnclamped(Identity, angularVelocity, DragFactor(angularDrag, dt));
        if angularVelocity.w < SnapAngularW {
          angularVelocity := Identity;
        }
      } else {
        velocity := Zero;
        angularVelocity := Identity;
      }
    }

    /** `SetCameraTransfrom`: overwrite the transform; the velocities are kept. */
    method SetCameraTransform(pose: Pose)
      modifies this
      ensures position == pose.position && rotation == pose.rotation
      ensures velocity == old(velocity) && angularVelocity == old(angularVelocity)
      ensures inertia == old(inertia) && drag == old(drag) && angularDrag == old(angularDrag)
      ensures rotationSensitivity == old(rotationSensitivity)
      ensures translationSensitivity == old(translationSensitivity)
    {
      position := pose.position;
      rotation := pose.rotation;
    }

    /**
      `CameraPanTilt`: a rotation built from Euler angles and scaled by the
      rotation gain is composed onto the angular velocity (inertia on) or onto
      the rig's rotation (inertia off); nothing else changes.
    */
    method CameraPanTilt(pitch: real, yaw: real, roll: real)
      modifies this
      ensures var turn := engine.slerpUnclamped(Identity, engine.euler(pitch, yaw, roll), rotationSensitivity);
        if inertia then angularVelocity == Mul(turn, old(angularVelocity)) && rotation == old(rotation)
        else rotation == Mul(turn, old(rotation)) && angularVelocity == old(angularVelocity)
      ensures position == old(position) && velocity == old(velocity)
      ensures inertia == old(inertia) && drag == old(drag) && angularDrag == old(angularDrag)
      ensures rotationSensitivity == old(rotationSensitivity)
      ensures translationSensitivity == old(translationSensitivity)
    {
      var qRot := engine.euler(pitch, yaw, roll);
      var turn := engine.slerpUnclamped(Identity, qRot, rotationSensitivity);
      if inertia {
        angularVelocity := Mul(turn, angularVelocity);
      } else {
        rotation := Mul(turn, rotation);
      }
    }

    /**
      `CameraDollyTrack`: the axis inputs, rotated into world space by the rig
      and scaled by the translation gain, are added to the velocity (inertia
      on) or to the position (inertia off); nothing else changes.
    */
    method CameraDollyTrack(truck: real, jib: real, dolly: real)
      modifies this
      ensures var step := DollyStep(rotation, truck, jib, dolly, translationSensitivity);
        if inertia then velocity == Add(old(velocity), step) && position == old(position)
        else position == Add(old(position), step) && velocity == old(velocity)
      ensures rotation == old(rotation) && angularVelocity == old(angularVelocity)
      ensures inertia == old(inertia) && drag == old(drag) && angularDrag == old(angularDrag)
      ensures rotationSensitivity == old(rotationSensitivity)
      ensures translationSensitivity == old(translationSensitivity)
    {
      var heading := Rotate(rotation, Vec3(truck, jib, dolly));
      if inertia {
        velocity := Add(velocity, Scale(heading, translationSensitivity));
      } else {
        position := Add(position, Scale(heading, translationSensitivity));
      }
    }
  }

  /**
    With inertia off, a dolly of (1, 0, 0) at gain 2 moves an unrotated rig by
    exactly (2, 0, 0).
  */
  method DollyScenario(engine: Engine, start: Vec3)
  {
    var rig := new CameraMgr.Start(engine, start, Identity, 1.0, 2.0, false, 0.0, 0.0);
    rig.CameraDollyTrack(1.0, 0.0, 0.0);
    assert rig.position == Add(start, Vec3(2.0, 0.0, 0.0));
  }

  /** With inertia on, drag 10 and dt 0.1, a velocity of (1, 0, 0) is stopped in one frame. */
  method DragScenario(engine: Engine, start: Vec3)
  {
    var rig := new CameraMgr.Start(engine, start, Identity, 1.0, 1.0, true, 10.0, 0.0);
    rig.CameraDollyTrack(1.0, 0.0, 0.0);
    assert rig.velocity == Vec3(1.0, 0.0, 0.0);
    assert DragFactor(10.0, 0.1) == 0.0;
    rig.LateUpdate(0.1);
    assert rig.velocity == Zero;
  }
}
