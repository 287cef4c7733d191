/** Real-valued stand-ins for the nalgebra vectors (`Vector2`, `Vector3`), the
    brush-face plane and the 2D rotation matrix that the UV projections use.
    Coordinates are exact reals: rounding, NaN and infinities of f64 are not
    modelled. */
module Geometry {

  datatype Vector2 = Vector2(x: real, y: real)

  datatype Vector3 = Vector3(x: real, y: real, z: real)

  /** A face's supporting plane; only its normal is read by the UV code. */
  datatype Plane3d = Plane3d(normal: Vector3, distance: real)

  /** A 2D rotation matrix [[cos, -sin], [sin, cos]], kept as its two
      entries so that the trigonometry that builds it stays uninterpreted. */
  datatype Rotation2 = Rotation2(cos: real, sin: real)

  const Identity: Rotation2 := Rotation2(1.0, 0.0)

  function Abs(a: real): (r: real)
    ensures r >= 0.0 && (r == a || r == -a)
  {
    if a < 0.0 then -a else a
  }

  function Dot(a: Vector3, b: Vector3): real
  {
    a.x * b.x + a.y * b.y + a.z * b.z
  }

  function Add3(a: Vector3, b: Vector3): Vector3
  {
    Vector3(a.x + b.x, a.y + b.y, a.z + b.z)
  }

  function Add2(a: Vector2, b: Vector2): Vector2
  {
    Vector2(a.x + b.x, a.y + b.y)
  }

  function Sub2(a: Vector2, b: Vector2): Vector2
  {
    Vector2(a.x - b.x, a.y - b.y)
  }

  const Zero2: Vector2 := Vector2(0.0, 0.0)

  const Zero3: Vector3 := Vector3(0.0, 0.0, 0.0)

  /** `rot * p` for the rotation matrix `rot`. The identity leaves the
      point in place, and a proper rotation (cos^2 + sin^2 = 1) keeps its
      distance from the origin. */
  function Rotate(rot: Rotation2, p: Vector2): (r: Vector2)
    ensures rot == Identity ==> r == p
    ensures rot.cos * rot.cos + rot.sin * rot.sin == 1.0 ==> SquaredLength(r) == SquaredLength(p)
  {
    RotationKeepsLength(rot, p);
    Vector2(rot.cos * p.x - rot.sin * p.y, rot.sin * p.x + rot.cos * p.y)
  }

  function SquaredLength(p: Vector2): real
  {
    p.x * p.x + p.y * p.y
  }

  /** (c x - s y)^2 + (s x + c y)^2 = (c^2 + s^2) (x^2 + y^2). */
  lemma RotationKeepsLength(rot: Rotation2, p: Vector2)
    ensures var c, s := rot.cos, rot.sin;
            SquaredLength(Vector2(c * p.x - s * p.y, s * p.x + c * p.y))
            == (c * c + s * s) * SquaredLength(p)
  {
    var c, s, x, y := rot.cos, rot.sin, p.x, p.y;
    calc {
      (c * x - s * y) * (c * x - s * y) + (s * x + c * y) * (s * x + c * y);
      (c * c * x * x - 2.0 * c * s * x * y + s * s * y * y) + (s * s * x * x + 2.0 * s * c * x * y + c * c * y * y);
      (c * c + s * s) * (x * x + y * y);
    }
  }

  predicate NonZero(v: Vector2)
  {
    v.x != 0.0 && v.y != 0.0
  }

  /** The dot product is additive in its second argument. */
  lemma DotAdditive(n: Vector3, a: Vector3, b: Vector3)
    ensures Dot(n, Add3(a, b)) == Dot(n, a) + Dot(n, b)
  {
  }

  /** Rotation is additive. */
  lemma RotateAdditive(rot: Rotation2, p: Vector2, q: Vector2)
    ensures Rotate(rot, Add2(p, q)) == Add2(Rotate(rot, p), Rotate(rot, q))
  {
  }
}
