/** Real-valued 3-vectors and quaternions, and the few three.js operations the
    character controller calls. The floating-point library math (rotating a
    vector by a quaternion, square roots, building and blending rotations) is
    not modelled: it is passed in as a `Geometry` record of functions, and the
    properties that need it to behave are stated as predicates over that record. */
module Vectors {

  datatype Vec3 = Vec3(x: real, y: real, z: real)

  /** A rotation as three.js stores it; only ever handed back to `Geometry`. */
  datatype Quat = Quat(x: real, y: real, z: real, w: real)

  const Zero := Vec3(0.0, 0.0, 0.0)
  const UnitX := Vec3(1.0, 0.0, 0.0)
  const UnitZ := Vec3(0.0, 0.0, 1.0)

  /** The orientation of a freshly created mesh. */
  const Identity := Quat(0.0, 0.0, 0.0, 1.0)

  function Add(a: Vec3, b: Vec3): Vec3 {
    Vec3(a.x + b.x, a.y + b.y, a.z + b.z)
  }

  function Sub(a: Vec3, b: Vec3): Vec3 {
    Vec3(a.x - b.x, a.y - b.y, a.z - b.z)
  }

  function Scale(k: real, a: Vec3): Vec3 {
    Vec3(k * a.x, k * a.y, k * a.z)
  }

  function Dot(a: Vec3, b: Vec3): real {
    a.x * b.x + a.y * b.y + a.z * b.z
  }

  function LengthSq(a: Vec3): real {
    Dot(a, a)
  }

  /** The library operations the controller relies on, left abstract:
      - rotate: Vector3.applyQuaternion
      - sqrt:   Math.sqrt, as used by Vector3.length
      - aim:    Quaternion.setFromUnitVectors with local +Z as the source axis
      - slerp:  Quaternion.slerp(target, t) */
  datatype Geometry = Geometry(
    rotate: (Quat, Vec3) -> Vec3,
    sqrt: real -> real,
    aim: Vec3 -> Quat,
    slerp: (Quat, Quat, real) -> Quat)

  /** A square root that is exact on the non-negative reals. */
  ghost predicate ExactSqrt(g: Geometry) {
    forall a: real :: 0.0 <= a ==> 0.0 <= g.sqrt(a) && g.sqrt(a) * g.sqrt(a) == a
  }

  /** Local +Z of orientation `q` in world space (the "forward" axis of the mesh). */
  function FacingAxis(g: Geometry, q: Quat): Vec3 {
    g.rotate(q, UnitZ)
  }

  /** Local +X of orientation `q` in world space. */
  function RightAxis(g: Geometry, q: Quat): Vec3 {
    g.rotate(q, UnitX)
  }

  /** Two unit vectors at a right angle: what a rotation makes of UnitZ and UnitX. */
  predicate Orthonormal(f: Vec3, r: Vec3) {
    Dot(f, f) == 1.0 && Dot(r, r) == 1.0 && Dot(f, r) == 0.0
  }

  /** Both axes lie in the ground plane (the mesh is only ever turned about Y). */
  predicate Level(f: Vec3, r: Vec3) {
    f.y == 0.0 && r.y == 0.0
  }

  lemma ScaleLengthSq(k: real, a: Vec3)
    ensures LengthSq(Scale(k, a)) == k * k * LengthSq(a)
  {
    assert (k * a.x) * (k * a.x) == k * k * (a.x * a.x);
    assert (k * a.y) * (k * a.y) == k * k * (a.y * a.y);
    assert (k * a.z) * (k * a.z) == k * k * (a.z * a.z);
  }

  /** Vector3.normalize: divides by the length, falling back to 1 when the
      length is 0, so a zero vector stays zero. With an exact square root
      every non-zero vector comes out with unit length and the same direction. */
  function Normalize(g: Geometry, v: Vec3): (u: Vec3)
    ensures v == Zero ==> u == Zero
    ensures v.y == 0.0 ==> u.y == 0.0
    ensures ExactSqrt(g) && LengthSq(v) > 0.0 ==>
              LengthSq(u) == 1.0 && exists k: real :: 0.0 < k && u == Scale(k, v)
  {
    var len := g.sqrt(LengthSq(v));
    if len == 0.0 then v
    else
      var k := 1.0 / len;
      ScaleLengthSq(k, v);
      assert ExactSqrt(g) && LengthSq(v) > 0.0 ==> len * len == LengthSq(v) && 0.0 < k;
      Scale(k, v)
  }

  /** An exact square root leaves a unit vector as it is. */
  lemma NormalizeUnit(g: Geometry, v: Vec3)
    requires ExactSqrt(g) && LengthSq(v) == 1.0
    ensures Normalize(g, v) == v
  {
    var len := g.sqrt(1.0);
    assert 0.0 <= len && len * len == 1.0;
    if len < 1.0 {
      assert false;
    } else if len > 1.0 {
      assert false;
    }
    assert Scale(1.0 / len, v) == v;
  }
}
