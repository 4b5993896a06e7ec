/**
 * Euclidean_Vector (Stress_Library/src/Math/Euclidean_Vector.cpp): three
 * components, the magnitude computed when the components were set, and a
 * flag recording that the magnitude was exactly 1.0.
 *
 * The products, projections and operators return new vectors and are
 * functions on the value `Vector`; `set_vector` and `normalize` update an
 * object in place and are methods of the class `EuclideanVector`.
 */
module EuclideanVectors {
  import opened Runtime
  import opened Coordinates

  datatype Vector = Vector(i: real, j: real, k: real, magnitude: real, normalized: bool)

  /** `set_vector` and the three-component constructor: the flag is set exactly when the magnitude is 1.0. */
  function MakeVector(lc: Libc, i: real, j: real, k: real): (v: Vector)
    ensures v.i == i && v.j == j && v.k == k
    ensures v.normalized <==> v.magnitude == 1.0
  {
    var m := Length3(lc, i, j, k);
    Vector(i, j, k, m, m == 1.0)
  }

  /** A vector whose magnitude and flag are those `set_vector` computed for its components. */
  ghost predicate WellFormed(lc: Libc, v: Vector)
  {
    v == MakeVector(lc, v.i, v.j, v.k)
  }

  /** `dot_product`. */
  function Dot(a: Vector, b: Vector): real
  {
    a.i * b.i + a.j * b.j + a.k * b.k
  }

  /** `cross_product`: a new vector normal to both operands. */
  function Cross(lc: Libc, a: Vector, b: Vector): Vector
  {
    MakeVector(lc, a.j * b.k - a.k * b.j, a.k * b.i - a.i * b.k, a.i * b.j - a.j * b.i)
  }

  /** `operator[]`: 0-2 the components, 3 the magnitude, anything else the first component. */
  function Index(v: Vector, n: int): real
  {
    if n == 1 then v.j else if n == 2 then v.k else if n == 3 then v.magnitude else v.i
  }

  /** `operator*`. */
  function Scale(lc: Libc, v: Vector, x: real): Vector
  {
    MakeVector(lc, v.i * x, v.j * x, v.k * x)
  }

  /** `operator/`. */
  function Quotient(lc: Libc, v: Vector, x: real): Vector
  {
    MakeVector(lc, Div(v.i, x), Div(v.j, x), Div(v.k, x))
  }

  /** `operator+`, reading the right operand through `operator[]`. */
  function Plus(lc: Libc, a: Vector, b: Vector): Vector
  {
    MakeVector(lc, a.i + Index(b, 0), a.j + Index(b, 1), a.k + Index(b, 2))
  }

  /** `operator-`, reading the right operand through `operator[]`. */
  function Minus(lc: Libc, a: Vector, b: Vector): Vector
  {
    MakeVector(lc, a.i - Index(b, 0), a.j - Index(b, 1), a.k - Index(b, 2))
  }

  /**
   * `normalize` on a copy: a flagged vector is returned unchanged; any other
   * one has its components divided by its stored magnitude and is then
   * flagged with magnitude 1.0 (a zero magnitude gives zero components here,
   * where the source divides by zero).
   */
  function Normalized(v: Vector): Vector
  {
    if v.normalized then v
    else Vector(Div(v.i, v.magnitude), Div(v.j, v.magnitude), Div(v.k, v.magnitude), 1.0, true)
  }

  /** The factor `Normalized` multiplies the components by. */
  function NormalizingFactor(v: Vector): real
  {
    if v.normalized then 1.0 else Div(1.0, v.magnitude)
  }

  /**
   * The cosine ratio d / den that `get_angle` hands to `acos`, after its
   * clamp; None where the source's ratio is NaN (0/0). A zero denominator
   * with a non-zero numerator is an IEEE infinity in the source, which the
   * clamp turns into 1 or -1.
   */
  function ClampedRatio(d: real, den: real): Option<real>
  {
    if den == 0.0 then
      if d == 0.0 then None else if d > 0.0 then Some(1.0) else Some(-1.0)
    else
      var ratio := d / den;
      if ratio > 1.0 then Some(1.0) else if ratio < -1.0 then Some(-1.0) else Some(ratio)
  }

  /** The ratio of the dot product to the product of the stored magnitudes. */
  function AngleArgument(a: Vector, b: Vector): Option<real>
  {
    ClampedRatio(Dot(a, b), a.magnitude * b.magnitude)
  }

  /** `get_angle`: 0 radians for the NaN case, else acos of the clamped ratio. */
  function Angle(lc: Libc, a: Vector, b: Vector): real
  {
    match AngleArgument(a, b)
    case None => 0.0
    case Some(c) => lc.acos(c)
  }

  /** `project_to_plane`: a minus its component along the plane normal b. */
  function ProjectToPlane(lc: Libc, a: Vector, b: Vector): Vector
  {
    var bn := Normalized(b);
    Minus(lc, a, Scale(lc, bn, Dot(a, bn)))
  }

  /** `project_to_vector`: the parts of the point parallel and perpendicular to this vector. */
  function ProjectToVector(lc: Libc, v: Vector, p: Point): (Vector, Vector)
  {
    var a := MakeVector(lc, Coordinates.Index(p, 0), Coordinates.Index(p, 1), Coordinates.Index(p, 2));
    var b := Normalized(v);
    var a1 := Scale(lc, b, Dot(a, b));
    (a1, Minus(lc, a, a1))
  }

  /** `rodrigues_rotation`: v cos t + (k x v) sin t + k (k . v)(1 - cos t) with k normalised. */
  function RodriguesRotation(lc: Libc, v: Vector, axis: Vector, theta: real): Vector
  {
    var k := Normalized(axis);
    Plus(lc, Plus(lc, Scale(lc, v, lc.cos(theta)), Scale(lc, Cross(lc, k, v), lc.sin(theta))),
      Scale(lc, Scale(lc, k, Dot(k, v)), 1.0 - lc.cos(theta)))
  }

  /** `dot_product` does not depend on the order of its operands. */
  lemma DotSymmetric(a: Vector, b: Vector)
    ensures Dot(a, b) == Dot(b, a)
  {
  }

  /** `cross_product` is anti-commutative: a x b = -(b x a). */
  lemma CrossAntiCommutative(lc: Libc, a: Vector, b: Vector)
    ensures Cross(lc, a, b) == Scale(lc, Cross(lc, b, a), -1.0)
  {
    var c := Cross(lc, b, a);
    Length3Negated(lc, c.i, c.j, c.k);
  }

  /** Negating every component keeps the length. */
  lemma Length3Negated(lc: Libc, x: real, y: real, z: real)
    ensures Length3(lc, x * -1.0, y * -1.0, z * -1.0) == Length3(lc, x, y, z)
  {
    var s1 := (x * -1.0) * (x * -1.0) + (y * -1.0) * (y * -1.0) + (z * -1.0) * (z * -1.0);
    var s2 := x * x + y * y + z * z;
    assert s1 == s2;
    assert lc.sqrt(s1) == lc.sqrt(s2);
  }

  /** The cross product is orthogonal to both of its operands. */
  lemma CrossOrthogonal(lc: Libc, a: Vector, b: Vector)
    ensures Dot(a, Cross(lc, a, b)) == 0.0 && Dot(b, Cross(lc, a, b)) == 0.0
  {
  }

  /** Scaling either operand of a dot product scales the product. */
  lemma DotScaled(a: Vector, b: Vector, c: real)
    ensures Dot(Vector(c * a.i, c * a.j, c * a.k, a.magnitude, a.normalized), b) == c * Dot(a, b)
  {
  }

  /**
   * `normalize` only rescales: the components of the result are the
   * components of the input times one factor, the flag is set afterwards, and
   * a vector flagged already is left as it is.
   */
  lemma NormalizedScales(v: Vector)
    ensures var n := Normalized(v);
      n.i == NormalizingFactor(v) * v.i && n.j == NormalizingFactor(v) * v.j && n.k == NormalizingFactor(v) * v.k
    ensures Normalized(v).normalized
    ensures v.normalized ==> Normalized(v) == v
    ensures !v.normalized ==> Normalized(v).magnitude == 1.0
  {
  }

  /**
   * `normalize` of an unflagged zero-magnitude vector: the source divides by
   * zero; the model's components become 0, yet magnitude 1.0 and the flag
   * are still recorded, so the result claims to be a unit vector.
   */
  lemma NormalizedZeroVector(lc: Libc)
    ensures Normalized(Vector(0.0, 0.0, 0.0, 0.0, false)) == Vector(0.0, 0.0, 0.0, 1.0, true)
  {
  }

  /** `normalize` is idempotent. */
  lemma NormalizedIdempotent(v: Vector)
    ensures Normalized(Normalized(v)) == Normalized(v)
  {
  }

  /**
   * `get_angle` hands `acos` only values in [-1, 1]; it answers 0 exactly in
   * the NaN case (both the denominator and the dot product zero); and an
   * in-range ratio is passed on unchanged.
   */
  lemma AngleClamped(lc: Libc, a: Vector, b: Vector)
    ensures AngleArgument(a, b).Some? ==> -1.0 <= AngleArgument(a, b).value <= 1.0
    ensures AngleArgument(a, b).None? <==> a.magnitude * b.magnitude == 0.0 && Dot(a, b) == 0.0
    ensures AngleArgument(a, b).None? ==> Angle(lc, a, b) == 0.0
    ensures AngleArgument(a, b).Some? ==> Angle(lc, a, b) == lc.acos(AngleArgument(a, b).value)
  {
    ClampedRatioInRange(Dot(a, b), a.magnitude * b.magnitude);
  }

  /** The clamp bounds the ratio to [-1, 1], and passes an in-range ratio through unchanged. */
  lemma ClampedRatioInRange(d: real, den: real)
    ensures ClampedRatio(d, den).Some? ==> -1.0 <= ClampedRatio(d, den).value <= 1.0
    ensures ClampedRatio(d, den).None? <==> den == 0.0 && d == 0.0
    ensures den != 0.0 && -1.0 <= d / den <= 1.0 ==> ClampedRatio(d, den) == Some(d / den)
    ensures den != 0.0 && d / den > 1.0 ==> ClampedRatio(d, den) == Some(1.0)
    ensures den != 0.0 && d / den < -1.0 ==> ClampedRatio(d, den) == Some(-1.0)
  {
  }

  /** `operator[]` reads i, j, k, magnitude at 0-3 and i everywhere else. */
  lemma IndexComponents(v: Vector, n: int)
    ensures Index(v, 0) == v.i && Index(v, 1) == v.j && Index(v, 2) == v.k && Index(v, 3) == v.magnitude
    ensures (n < 0 || n > 3) ==> Index(v, n) == v.i
  {
  }

  /** `+` and `-` are componentwise: (a + b) - b is a again, when a's magnitude is the one `set_vector` gives. */
  lemma PlusMinusInverse(lc: Libc, a: Vector, b: Vector)
    requires WellFormed(lc, a)
    ensures Minus(lc, Plus(lc, a, b), b) == a
  {
  }

  /** `*` by 1 gives a well-formed vector back unchanged, and `/` undoes `*` by a non-zero number. */
  lemma ScaleIdentity(lc: Libc, a: Vector, x: real)
    requires WellFormed(lc, a)
    ensures Scale(lc, a, 1.0) == a
    ensures x != 0.0 ==> Quotient(lc, Scale(lc, a, x), x) == a
  {
    if x != 0.0 {
      var s := Scale(lc, a, x);
      assert (a.i * x) / x == a.i && (a.j * x) / x == a.j && (a.k * x) / x == a.k;
      assert Div(s.i, x) == a.i && Div(s.j, x) == a.j && Div(s.k, x) == a.k;
      assert Quotient(lc, s, x) == MakeVector(lc, a.i, a.j, a.k);
    }
  }

  /** `project_to_vector` splits the point into two parts that add back up to it. */
  lemma ProjectToVectorSum(lc: Libc, v: Vector, p: Point)
    ensures var (a1, a2) := ProjectToVector(lc, v, p);
      a1.i + a2.i == p.x && a1.j + a2.j == p.y && a1.k + a2.k == p.z
  {
  }

  /** When the normalised direction is a unit vector, the second part of `project_to_vector` is orthogonal to it. */
  lemma ProjectToVectorOrthogonal(lc: Libc, v: Vector, p: Point)
    requires Dot(Normalized(v), Normalized(v)) == 1.0
    ensures Dot(ProjectToVector(lc, v, p).1, Normalized(v)) == 0.0
  {
    var a := MakeVector(lc, p.x, p.y, p.z);
    assert ProjectToVector(lc, v, p).1 == ProjectToPlane(lc, a, v);
    ProjectToPlaneOrthogonal(lc, a, v);
  }

  /** `project_to_plane` leaves a vector with no component along a unit plane normal. */
  lemma ProjectToPlaneOrthogonal(lc: Libc, a: Vector, b: Vector)
    requires Dot(Normalized(b), Normalized(b)) == 1.0
    ensures Dot(ProjectToPlane(lc, a, b), Normalized(b)) == 0.0
  {
    var bn := Normalized(b);
    Residual(a.i, a.j, a.k, bn.i, bn.j, bn.k);
  }

  /** Removing from a its component along a unit vector b leaves a residual orthogonal to b. */
  lemma Residual(ai: real, aj: real, ak: real, bi: real, bj: real, bk: real)
    requires bi * bi + bj * bj + bk * bk == 1.0
    ensures var t := ai * bi + aj * bj + ak * bk;
      (ai - bi * t) * bi + (aj - bj * t) * bj + (ak - bk * t) * bk == 0.0
  {
    var t := ai * bi + aj * bj + ak * bk;
    calc {
      (ai - bi * t) * bi + (aj - bj * t) * bj + (ak - bk * t) * bk;
      ai * bi + aj * bj + ak * bk - t * (bi * bi + bj * bj + bk * bk);
      t - t * 1.0;
    }
  }

  /** A rotation whose angle has cosine 1 and sine 0 returns the vector's components unchanged. */
  lemma RodriguesZeroAngle(lc: Libc, v: Vector, axis: Vector, theta: real)
    requires lc.cos(theta) == 1.0 && lc.sin(theta) == 0.0
    ensures var r := RodriguesRotation(lc, v, axis, theta); r.i == v.i && r.j == v.j && r.k == v.k
  {
  }

  /** A Euclidean_Vector object, whose `set_vector` and `normalize` change it in place. */
  class EuclideanVector {
    var i: real
    var j: real
    var k: real
    var magnitude: real
    var normalized: bool

    /** The value the object currently holds. */
    function Value(): Vector
      reads this
    {
      Vector(i, j, k, magnitude, normalized)
    }

    /** `Euclidean_Vector(i, j, k)` (the default constructor passes zeros). */
    constructor (lc: Libc, i0: real, j0: real, k0: real)
      ensures Value() == MakeVector(lc, i0, j0, k0)
    {
      var m := Length3(lc, i0, j0, k0);
      i, j, k := i0, j0, k0;
      magnitude := m;
      normalized := m == 1.0;
    }

    /** `set_vector`: the object becomes the vector `set_vector` computes, which is well formed. */
    method SetVector(lc: Libc, i0: real, j0: real, k0: real)
      modifies this
      ensures Value() == MakeVector(lc, i0, j0, k0) && WellFormed(lc, Value())
    {
      i, j, k := i0, j0, k0;
      magnitude := Length3(lc, i0, j0, k0);
      if magnitude == 1.0 {
        normalized := true;
      } else {
        normalized := false;
      }
    }

    /** `normalize`: the object becomes the normalised copy of its old value. */
    method Normalize()
      modifies this
      ensures Value() == Normalized(old(Value()))
    {
      if !normalized {
        i := Div(i, magnitude);
        j := Div(j, magnitude);
        k := Div(k, magnitude);
        magnitude := 1.0;
        normalized := true;
      }
    }
  }
}
