/**
 * Vectors, poses and the engine's numeric routines shared by every component.
 *
 * Positions are exact real vectors. The engine computes lengths with a square
 * root and rotations with quaternion arithmetic; neither can be written down in
 * Dafny, so those routines are the function-typed fields of `Engine`, handed to
 * the operations that call them, and `Lawful` states the laws the length and
 * direction routines obey. Everything the components promise about distances is
 * proved from those laws.
 */
module Geometry {

  datatype Option<T> = None | Some(value: T)

  datatype Vec2 = Vec2(x: real, y: real)

  datatype Vec3 = Vec3(x: real, y: real, z: real)

  /** An orientation; only the engine's routines look inside it. */
  datatype Quat = Quat(x: real, y: real, z: real, w: real)

  const Zero := Vec3(0.0, 0.0, 0.0)
  const Identity := Quat(0.0, 0.0, 0.0, 1.0)

  /** A transform: where an object is and how it is turned. */
  datatype Pose = Pose(position: Vec3, rotation: Quat)

  function Add(a: Vec3, b: Vec3): Vec3 { Vec3(a.x + b.x, a.y + b.y, a.z + b.z) }

  function Sub(a: Vec3, b: Vec3): Vec3 { Vec3(a.x - b.x, a.y - b.y, a.z - b.z) }

  function Scale(v: Vec3, k: real): Vec3 { Vec3(v.x * k, v.y * k, v.z * k) }

  function SqrMag(v: Vec3): real { v.x * v.x + v.y * v.y + v.z * v.z }

  /** A planar vector seen as a vector of the XY plane. */
  function Lift(v: Vec2): Vec3 { Vec3(v.x, v.y, 0.0) }

  function Sub2(a: Vec2, b: Vec2): Vec2 { Vec2(a.x - b.x, a.y - b.y) }

  function Abs(r: real): real { if r < 0.0 then -r else r }

  /** The engine's scalar clamp: below `lo` gives `lo`, else above `hi` gives `hi`. */
  function Clamp(v: real, lo: real, hi: real): (r: real)
    ensures lo <= hi ==> lo <= r <= hi
    ensures lo <= v <= hi ==> r == v
  {
    if v < lo then lo else if v > hi then hi else v
  }

  function Clamp01(t: real): (r: real)
    ensures 0.0 <= r <= 1.0
  {
    Clamp(t, 0.0, 1.0)
  }

  /** The engine's vector interpolation, whose factor is clamped to [0, 1]. */
  function Lerp(a: Vec3, b: Vec3, t: real): Vec3
  {
    Add(a, Scale(Sub(b, a), Clamp01(t)))
  }

  /** `p` lies on the closed segment from `a` to `b`. */
  ghost predicate OnSegment(p: Vec3, a: Vec3, b: Vec3)
  {
    exists s: real {:trigger Scale(Sub(b, a), s)} :: 0.0 <= s <= 1.0 && p == Add(a, Scale(Sub(b, a), s))
  }

  /**
   * The engine's floating-point routines, taken as given:
   * `magnitude` and `normalize` of a vector, the up axis of an orientation
   * (`rotation * Vector3.up`), `LookRotation(Vector3.forward, dir)`, spherical
   * and linear blending of orientations, turning an orientation about its
   * own z axis by a number of degrees, and the planar orientation whose up axis
   * points along a direction (`Euler(0, 0, atan2(dir.y, dir.x) in degrees - 90)`).
   */
  datatype Engine = Engine(
    magnitude: Vec3 -> real,
    normalize: Vec3 -> Vec3,
    up: Quat -> Vec3,
    lookRotation: Vec3 -> Quat,
    slerp: (Quat, Quat, real) -> Quat,
    lerpRotation: (Quat, Quat, real) -> Quat,
    rotateZ: (Quat, real) -> Quat,
    upAlong: Vec3 -> Quat)

  /** The laws of length and direction: the square root of the squared length,
      and a unit vector pointing the same way (the zero vector for the zero vector). */
  ghost predicate Lawful(e: Engine)
  {
    && (forall v :: e.magnitude(v) >= 0.0 && e.magnitude(v) * e.magnitude(v) == SqrMag(v))
    && e.normalize(Zero) == Zero
    && (forall v :: v != Zero ==> Scale(e.normalize(v), e.magnitude(v)) == v)
  }

  /** `Vector3.Distance`. */
  function Distance(e: Engine, a: Vec3, b: Vec3): real
  {
    e.magnitude(Sub(a, b))
  }

  lemma MulPositive(a: real, b: real)
    requires a > 0.0 && b > 0.0
    ensures a * b > 0.0
  {
  }

  lemma MulNonNegative(a: real, b: real)
    requires a >= 0.0 && b >= 0.0
    ensures a * b >= 0.0
  {
  }

  // Facts about a square are stated about a name `q` for it: the solver keeps
  // them apart from other occurrences of the product that way.

  lemma SquarePositive(a: real, q: real)
    requires q == a * a && a != 0.0
    ensures q > 0.0
  {
    if a > 0.0 {
      calc { q; a * a; > { MulPositive(a, a); } 0.0; }
    } else {
      calc { q; (-a) * (-a); > { MulPositive(-a, -a); } 0.0; }
    }
  }

  lemma SquareNonNegative(a: real, q: real)
    requires q == a * a
    ensures q >= 0.0
  {
    if a != 0.0 {
      SquarePositive(a, q);
    }
  }

  /** A non-zero factor can be cancelled. */
  lemma MulCancel(k: real, a: real, b: real)
    requires k != 0.0 && k * a == k * b
    ensures a == b
  {
    assert k * (a - b) == 0.0;
    assert (k * (a - b)) / k == a - b;
  }

  lemma SqrMagZero(v: Vec3)
    ensures SqrMag(v) >= 0.0
    ensures SqrMag(v) == 0.0 <==> v == Zero
  {
    SquareNonNegative(v.x, v.x * v.x);
    SquareNonNegative(v.y, v.y * v.y);
    SquareNonNegative(v.z, v.z * v.z);
    if v.x != 0.0 {
      SquarePositive(v.x, v.x * v.x);
    } else if v.y != 0.0 {
      SquarePositive(v.y, v.y * v.y);
    } else if v.z != 0.0 {
      SquarePositive(v.z, v.z * v.z);
    }
  }

  lemma SqrMagScale(v: Vec3, k: real)
    ensures SqrMag(Scale(v, k)) == k * k * SqrMag(v)
  {
    calc {
      SqrMag(Scale(v, k));
      (v.x * k) * (v.x * k) + (v.y * k) * (v.y * k) + (v.z * k) * (v.z * k);
      k * k * (v.x * v.x) + k * k * (v.y * v.y) + k * k * (v.z * v.z);
    }
  }

  /** For non-negative reals, comparing values is comparing squares. */
  lemma SquareMonotone(a: real, b: real, qa: real, qb: real)
    requires a >= 0.0 && b >= 0.0 && qa == a * a && qb == b * b
    ensures a <= b <==> qa <= qb
  {
    assert (b - a) * (b + a) == qb - qa;
    if a <= b {
      MulNonNegative(b - a, b + a);
    } else {
      MulPositive(a - b, a + b);
    }
  }

  /** Two non-negative reals with equal squares are equal. */
  lemma SquareRootUnique(a: real, b: real, q: real)
    requires a >= 0.0 && b >= 0.0 && q == a * a && q == b * b
    ensures a == b
  {
    SquareMonotone(a, b, q, q);
    SquareMonotone(b, a, q, q);
  }

  lemma MagnitudeZero(e: Engine, v: Vec3)
    requires Lawful(e)
    ensures e.magnitude(v) == 0.0 <==> v == Zero
  {
    var m := e.magnitude(v);
    assert m >= 0.0 && SqrMag(v) == m * m;
    SqrMagZero(v);
    if m != 0.0 {
      SquarePositive(m, SqrMag(v));
    }
  }

  /** Length is a function of the squared length: reversing a vector keeps it. */
  lemma DistanceSymmetric(e: Engine, a: Vec3, b: Vec3)
    requires Lawful(e)
    ensures Distance(e, a, b) == Distance(e, b, a)
  {
    var u, w := Sub(a, b), Sub(b, a);
    assert SqrMag(u) == SqrMag(w);
    SquareRootUnique(e.magnitude(u), e.magnitude(w), SqrMag(u));
  }

  /** Normalizing a non-zero vector gives a unit vector. */
  lemma NormalizeUnit(e: Engine, v: Vec3)
    requires Lawful(e) && v != Zero
    ensures SqrMag(e.normalize(v)) == 1.0
  {
    var n, m := e.normalize(v), e.magnitude(v);
    MagnitudeZero(e, v);
    SqrMagScale(n, m);
    assert SqrMag(v) == m * m * SqrMag(n);
    assert SqrMag(v) == m * m;
    SquarePositive(m, m * m);
    MulCancel(m * m, SqrMag(n), 1.0);
  }

  /** Comparing a length with a threshold is comparing the squared length with the
      squared threshold. */
  lemma MagnitudeAtMost(e: Engine, v: Vec3, r: real)
    requires Lawful(e)
    ensures e.magnitude(v) <= r <==> 0.0 <= r && SqrMag(v) <= r * r
  {
    if r >= 0.0 {
      SquareMonotone(e.magnitude(v), r, SqrMag(v), r * r);
    }
  }

  /** A vector scaled to length `s` by a unit vector has squared length `s * s`. */
  lemma UnitScaled(n: Vec3, s: real)
    requires SqrMag(n) == 1.0
    ensures SqrMag(Scale(n, s)) == s * s
  {
    SqrMagScale(n, s);
  }

  /** The interpolated point lies on the segment between its two ends. */
  lemma LerpOnSegment(a: Vec3, b: Vec3, t: real)
    ensures OnSegment(Lerp(a, b, t), a, b)
  {
    var s := Clamp01(t);
    assert Lerp(a, b, t) == Add(a, Scale(Sub(b, a), s));
  }
}
