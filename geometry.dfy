/** Small helper datatypes shared by the other modules. */
module Wrappers {
  datatype Option<+T> = None | Some(value: T)
}

/**
  Unity's Vector3, Quaternion and Pose, with single-precision float arithmetic
  idealised to reals.  Routines that need square roots or trigonometry
  (magnitude, slerp, Euler conversion) are not defined here: they are fields of
  an `Engine` value that the state machines receive as an input.
*/
module Geometry {

  datatype Vec3 = Vec3(x: real, y: real, z: real)

  const Zero: Vec3 := Vec3(0.0, 0.0, 0.0)

  function Add(a: Vec3, b: Vec3): Vec3 {
    Vec3(a.x + b.x, a.y + b.y, a.z + b.z)
  }

  function Sub(a: Vec3, b: Vec3): Vec3 {
    Vec3(a.x - b.x, a.y - b.y, a.z - b.z)
  }

  /** `k * v` */
  function Scale(v: Vec3, k: real): Vec3 {
    Vec3(k * v.x, k * v.y, k * v.z)
  }

  function SqrMagnitude(v: Vec3): real {
    v.x * v.x + v.y * v.y + v.z * v.z
  }

  /**
    Unity's `==` on Vector3 is approximate: two vectors are equal when their
    squared distance is below kEpsilon * kEpsilon, with kEpsilon = 1e-5.
    `v != Vector3.zero` is therefore `!ApproxZero(v)`.
  */
  predicate ApproxZero(v: Vec3) {
    SqrMagnitude(v) < 0.0000000001
  }

  /** Scaling by a factor in [0, 1] never makes a vector longer. */
  lemma ScaleNoLonger(v: Vec3, k: real)
    requires 0.0 <= k <= 1.0
    ensures SqrMagnitude(Scale(v, k)) <= SqrMagnitude(v)
  {
    var s := Scale(v, k);
    ScaledSquare(v.x, k, s.x);
    ScaledSquare(v.y, k, s.y);
    ScaledSquare(v.z, k, s.z);
  }

  lemma ScaledSquare(a: real, k: real, b: real)
    requires 0.0 <= k <= 1.0 && b == k * a
    ensures b * b <= a * a
  {
    assert b * b == (k * k) * (a * a);
    assert k * k <= 1.0 by {
      assert k * k <= k * 1.0;
    }
    assert 0.0 <= a * a;
  }

  datatype Quat = Quat(x: real, y: real, z: real, w: real)

  const Identity: Quat := Quat(0.0, 0.0, 0.0, 1.0)

  function Dot(a: Quat, b: Quat): real {
    a.x * b.x + a.y * b.y + a.z * b.z + a.w * b.w
  }

  /**
    Unity's `==` on Quaternion: the dot product exceeds 1 - kEpsilon, with
    kEpsilon = 1e-6.  Against the identity the dot product is the w component.
  */
  predicate ApproxEqual(a: Quat, b: Quat) {
    Dot(a, b) > 0.999999
  }

  /** Unity's `Quaternion * Quaternion` (the Hamilton product: apply b, then a). */
  function Mul(a: Quat, b: Quat): Quat {
    Quat(a.w * b.x + a.x * b.w + a.y * b.z - a.z * b.y,
         a.w * b.y + a.y * b.w + a.z * b.x - a.x * b.z,
         a.w * b.z + a.z * b.w + a.x * b.y - a.y * b.x,
         a.w * b.w - a.x * b.x - a.y * b.y - a.z * b.z)
  }

  /** Unity's `Quaternion * Vector3`: rotate a point, for a unit quaternion. */
  function Rotate(q: Quat, p: Vec3): Vec3 {
    var x, y, z := q.x * 2.0, q.y * 2.0, q.z * 2.0;
    var xx, yy, zz := q.x * x, q.y * y, q.z * z;
    var xy, xz, yz := q.x * y, q.x * z, q.y * z;
    var wx, wy, wz := q.w * x, q.w * y, q.w * z;
    Vec3((1.0 - (yy + zz)) * p.x + (xy - wz) * p.y + (xz + wy) * p.z,
         (xy + wz) * p.x + (1.0 - (xx + zz)) * p.y + (yz - wx) * p.z,
         (xz - wy) * p.x + (yz + wx) * p.y + (1.0 - (xx + yy)) * p.z)
  }

  datatype Pose = Pose(position: Vec3, rotation: Quat)

  /**
    Unity's `Mathf.Clamp(value, 0, 1)`: the value itself when it lies in
    [0, 1], otherwise the nearer bound.
  */
  function Clamp01(value: real): (r: real)
    ensures 0.0 <= r <= 1.0
    ensures 0.0 <= value <= 1.0 ==> r == value
    ensures value < 0.0 ==> r == 0.0
    ensures value > 1.0 ==> r == 1.0
  {
    if value < 0.0 then 0.0 else if value > 1.0 then 1.0 else value
  }

  /**
    Unity routines built on square roots or trigonometry, left uninterpreted:
    - magnitude:      Vector3.magnitude
    - upRotation:     the rotation `transform.up = v.normalized` gives a transform
    - slerpUnclamped: Quaternion.SlerpUnclamped(a, b, t)
    - euler:          Quaternion.Euler(x, y, z), angles in degrees
    - eulerAngles:    Quaternion.eulerAngles
  */
  datatype Engine = Engine(
    magnitude: Vec3 -> real,
    upRotation: Vec3 -> Quat,
    slerpUnclamped: (Quat, Quat, real) -> Quat,
    euler: (real, real, real) -> Quat,
    eulerAngles: Quat -> Vec3)

  /** The engine's magnitude is the Euclidean length. */
  ghost predicate MagnitudeIsLength(e: Engine) {
    forall v :: e.magnitude(v) >= 0.0 && e.magnitude(v) * e.magnitude(v) == SqrMagnitude(v)
  }
}
