/**
 * Transformation (Stress_Library/src/Math/Transformation.cpp): a 3x3
 * direction-cosine matrix whose rows are the unit axes of a frame.
 *
 * `Matrix` is the value of the nine cells, named as in the source's own
 * comment: | a b c | d e f | g h i |. The functions below specify each
 * operation on that value; the class `Transformation` holds the cells in an
 * array and fills them in row loops, as `build_matrix` does.
 */
module Transformations {
  import opened Runtime
  import C = Coordinates
  import V = EuclideanVectors

  datatype Matrix = Matrix(a: real, b: real, c: real, d: real, e: real, f: real, g: real, h: real, i: real)

  const Identity := Matrix(1.0, 0.0, 0.0, 0.0, 1.0, 0.0, 0.0, 0.0, 1.0)

  /** The cell in row r, column c (0 <= r, c < 3). */
  function Get(m: Matrix, r: int, c: int): real
    requires 0 <= r < 3 && 0 <= c < 3
  {
    if r == 0 then (if c == 0 then m.a else if c == 1 then m.b else m.c)
    else if r == 1 then (if c == 0 then m.d else if c == 1 then m.e else m.f)
    else (if c == 0 then m.g else if c == 1 then m.h else m.i)
  }

  /** `get_component`: the cell (i, j) when both are below 3, the first cell otherwise. */
  function Component(m: Matrix, i: int, j: int): real
  {
    if 0 <= i < 3 && 0 <= j < 3 then Get(m, i, j) else m.a
  }

  /** The matrix whose rows are the first three `operator[]` entries of x, y and z. */
  function FromRows(x: V.Vector, y: V.Vector, z: V.Vector): Matrix
  {
    Matrix(V.Index(x, 0), V.Index(x, 1), V.Index(x, 2),
           V.Index(y, 0), V.Index(y, 1), V.Index(y, 2),
           V.Index(z, 0), V.Index(z, 1), V.Index(z, 2))
  }

  /** m with row r replaced by the components of v. */
  function WithRow(m: Matrix, r: int, v: V.Vector): Matrix
    requires 0 <= r < 3
  {
    if r == 0 then m.(a := v.i, b := v.j, c := v.k)
    else if r == 1 then m.(d := v.i, e := v.j, f := v.k)
    else m.(g := v.i, h := v.j, i := v.k)
  }

  /** The dot product of rows r and s. */
  function RowDot(m: Matrix, r: int, s: int): real
    requires 0 <= r < 3 && 0 <= s < 3
  {
    Get(m, r, 0) * Get(m, s, 0) + Get(m, r, 1) * Get(m, s, 1) + Get(m, r, 2) * Get(m, s, 2)
  }

  /** Rows pairwise orthogonal. */
  predicate RowsOrthogonal(m: Matrix)
  {
    RowDot(m, 0, 1) == 0.0 && RowDot(m, 0, 2) == 0.0 && RowDot(m, 1, 2) == 0.0
  }

  /** `build_matrix(x, y, z)`: the normalised axes as rows 0, 1, 2. */
  function AxesMatrix(x: V.Vector, y: V.Vector, z: V.Vector): Matrix
  {
    FromRows(V.Normalized(x), V.Normalized(y), V.Normalized(z))
  }

  /**
   * `build_matrix(one, two, axis_code)`: `one` (normalised) is the first
   * axis the code names, the other two rows are normalised cross products
   * with it; 32 and any unknown code share one branch.
   */
  function AxisCodeMatrix(lc: Libc, one: V.Vector, two: V.Vector, code: int): Matrix
  {
    var n1 := V.Normalized(one);
    var n2 := V.Normalized(two);
    if code == 12 then
      var z := V.Normalized(V.Cross(lc, n1, n2));
      FromRows(n1, V.Normalized(V.Cross(lc, z, n1)), z)
    else if code == 13 then
      var y := V.Normalized(V.Cross(lc, n2, n1));
      FromRows(n1, y, V.Normalized(V.Cross(lc, n1, y)))
    else if code == 21 then
      var z := V.Normalized(V.Cross(lc, n2, n1));
      FromRows(V.Normalized(V.Cross(lc, n1, z)), n1, z)
    else if code == 23 then
      var x := V.Normalized(V.Cross(lc, n1, n2));
      FromRows(x, n1, V.Normalized(V.Cross(lc, x, n1)))
    else if code == 31 then
      var y := V.Normalized(V.Cross(lc, n1, n2));
      FromRows(V.Normalized(V.Cross(lc, y, n1)), y, n1)
    else
      var x := V.Normalized(V.Cross(lc, n2, n1));
      FromRows(x, V.Normalized(V.Cross(lc, n1, x)), n1)
  }

  /** The row `build_matrix(one, two, axis_code)` stores `one` in. */
  function FirstAxisRow(code: int): int
  {
    if code == 12 || code == 13 then 0 else if code == 21 || code == 23 then 1 else 2
  }

  /** The vector from p to q, as `Euclidean_Vector(q[0] - p[0], ...)` builds it. */
  function Between(lc: Libc, p: C.Point, q: C.Point): V.Vector
  {
    V.MakeVector(lc, C.Index(q, 0) - C.Index(p, 0), C.Index(q, 1) - C.Index(p, 1), C.Index(q, 2) - C.Index(p, 2))
  }

  /** `build_matrix(p1, p2, p3, axis_code)`: the axis-code build on p1->p2 and p1->p3. */
  function PointsMatrix(lc: Libc, p1: C.Point, p2: C.Point, p3: C.Point, code: int): Matrix
  {
    AxisCodeMatrix(lc, Between(lc, p1, p2), Between(lc, p1, p3), code)
  }

  /** `transform_coordinate`: (row0 . p, row1 . p, row2 . p). */
  function Apply(m: Matrix, p: C.Point): C.Point
  {
    C.Point(p.x * m.a + p.y * m.b + p.z * m.c,
            p.x * m.d + p.y * m.e + p.z * m.f,
            p.x * m.g + p.y * m.h + p.z * m.i)
  }

  /** The components of a vector as a point. */
  function Components(v: V.Vector): C.Point
  {
    C.Point(V.Index(v, 0), V.Index(v, 1), V.Index(v, 2))
  }

  /** `transform_vector`: the same product, as a new vector (magnitude recomputed). */
  function ApplyToVector(lc: Libc, m: Matrix, v: V.Vector): V.Vector
  {
    var p := Apply(m, Components(v));
    V.MakeVector(lc, p.x, p.y, p.z)
  }

  /** The 2x2 minor x*y - z*w, the form every cofactor of `inverse_matrix` takes. */
  function Minor(x: real, y: real, z: real, w: real): real
  {
    x * y - z * w
  }

  /** The three-term sum x1*y1 + x2*y2 + x3*y3 of a row times a column. */
  function Dot(x1: real, y1: real, x2: real, y2: real, x3: real, y3: real): real
  {
    x1 * y1 + x2 * y2 + x3 * y3
  }

  /** The matrix product m * n. */
  function Product(m: Matrix, n: Matrix): Matrix
  {
    Matrix(Dot(m.a, n.a, m.b, n.d, m.c, n.g), Dot(m.a, n.b, m.b, n.e, m.c, n.h), Dot(m.a, n.c, m.b, n.f, m.c, n.i),
           Dot(m.d, n.a, m.e, n.d, m.f, n.g), Dot(m.d, n.b, m.e, n.e, m.f, n.h), Dot(m.d, n.c, m.e, n.f, m.f, n.i),
           Dot(m.g, n.a, m.h, n.d, m.i, n.g), Dot(m.g, n.b, m.h, n.e, m.i, n.h), Dot(m.g, n.c, m.h, n.f, m.i, n.i))
  }

  /** s times the identity. */
  function Scalar(s: real): Matrix
  {
    Matrix(s, 0.0, 0.0, 0.0, s, 0.0, 0.0, 0.0, s)
  }

  /** The determinant, expanded along the first row with the cofactors A, B, C. */
  function Determinant(m: Matrix): real
  {
    Dot(m.a, Minor(m.e, m.i, m.f, m.h), m.b, Minor(m.f, m.g, m.d, m.i), m.c, Minor(m.d, m.h, m.e, m.g))
  }

  /**
   * The adjugate: rows (A, D, G), (B, E, H), (C, F, I) of the cofactors in
   * `inverse_matrix`, with C = dh - eg as the source's comment defines it.
   */
  function Adjugate(m: Matrix): Matrix
  {
    Matrix(Minor(m.e, m.i, m.f, m.h), Minor(m.c, m.h, m.b, m.i), Minor(m.b, m.f, m.c, m.e),
           Minor(m.f, m.g, m.d, m.i), Minor(m.a, m.i, m.c, m.g), Minor(m.c, m.d, m.a, m.f),
           Minor(m.d, m.h, m.e, m.g), Minor(m.b, m.g, m.a, m.h), Minor(m.a, m.e, m.b, m.d))
  }

  /** The cofactors as `inverse_matrix` writes them: C is d*h - e*h, reading `pMatrix[2][1]` twice. */
  function AdjugateAsWritten(m: Matrix): Matrix
  {
    Adjugate(m).(g := Minor(m.d, m.h, m.e, m.h))
  }

  /** The determinant `inverse_matrix` computes, a*A + b*B + c*C with its C. */
  function DeterminantAsWritten(m: Matrix): real
  {
    Dot(m.a, Minor(m.e, m.i, m.f, m.h), m.b, Minor(m.f, m.g, m.d, m.i), m.c, Minor(m.d, m.h, m.e, m.h))
  }

  /** Each cell divided by s. */
  function DivideAll(m: Matrix, s: real): Matrix
  {
    Matrix(Div(m.a, s), Div(m.b, s), Div(m.c, s), Div(m.d, s), Div(m.e, s), Div(m.f, s), Div(m.g, s), Div(m.h, s), Div(m.i, s))
  }

  /** Row r of m as a vector built by the three-component constructor. */
  function RowVector(lc: Libc, m: Matrix, r: int): V.Vector
    requires 0 <= r < 3
  {
    V.MakeVector(lc, Get(m, r, 0), Get(m, r, 1), Get(m, r, 2))
  }

  /** Adjugate over determinant, rebuilt through the three-vector `build_matrix` (rows normalised). */
  function Rebuild(lc: Libc, adj: Matrix, det: real): Matrix
  {
    var q := DivideAll(adj, det);
    AxesMatrix(RowVector(lc, q, 0), RowVector(lc, q, 1), RowVector(lc, q, 2))
  }

  /** `inverse_matrix` as written, with its cofactor C. */
  function InverseAsWritten(lc: Libc, m: Matrix): Matrix
  {
    Rebuild(lc, AdjugateAsWritten(m), DeterminantAsWritten(m))
  }

  /** `inverse_matrix` with the cofactor C corrected. */
  function Inverse(lc: Libc, m: Matrix): Matrix
  {
    Rebuild(lc, Adjugate(m), Determinant(m))
  }

  /** `get_component` reads the addressed cell inside the matrix and the first cell outside it. */
  lemma ComponentInRange(m: Matrix, i: int, j: int)
    ensures 0 <= i < 3 && 0 <= j < 3 ==> Component(m, i, j) == Get(m, i, j)
    ensures !(0 <= i < 3 && 0 <= j < 3) ==> Component(m, i, j) == Get(m, 0, 0)
  {
  }

  /** The three-vector build stores each normalised axis as its row. */
  lemma AxesMatrixRows(x: V.Vector, y: V.Vector, z: V.Vector)
    ensures Apply(AxesMatrix(x, y, z), C.Point(1.0, 0.0, 0.0)) == C.Point(V.Normalized(x).i, V.Normalized(y).i, V.Normalized(z).i)
    ensures forall c :: 0 <= c < 3 ==>
      Get(AxesMatrix(x, y, z), 0, c) == V.Index(V.Normalized(x), c) &&
      Get(AxesMatrix(x, y, z), 1, c) == V.Index(V.Normalized(y), c) &&
      Get(AxesMatrix(x, y, z), 2, c) == V.Index(V.Normalized(z), c)
  {
  }

  /** The axis-code build stores the normalised first vector in the row its code names. */
  lemma AxisCodeRowPlacement(lc: Libc, one: V.Vector, two: V.Vector, code: int)
    ensures var m := AxisCodeMatrix(lc, one, two, code); var r := FirstAxisRow(code);
      0 <= r < 3 &&
      Get(m, r, 0) == V.Normalized(one).i && Get(m, r, 1) == V.Normalized(one).j && Get(m, r, 2) == V.Normalized(one).k
    ensures FirstAxisRow(code) == 0 <==> code == 12 || code == 13
    ensures FirstAxisRow(code) == 1 <==> code == 21 || code == 23
  {
  }

  /** The dot product of a normalised vector with another is the normalising factor times theirs. */
  lemma DotNormalized(x: V.Vector, y: V.Vector)
    ensures V.Dot(V.Normalized(x), y) == V.NormalizingFactor(x) * V.Dot(x, y)
    ensures V.Dot(y, V.Normalized(x)) == V.NormalizingFactor(x) * V.Dot(x, y)
  {
    var n := V.Normalized(x);
    var t := V.NormalizingFactor(x);
    V.NormalizedScales(x);
    calc {
      V.Dot(n, y);
      (t * x.i) * y.i + (t * x.j) * y.j + (t * x.k) * y.k;
      t * (x.i * y.i + x.j * y.j + x.k * y.k);
    }
  }

  /** A normalised cross product is orthogonal to both of its operands. */
  lemma NormalizedCrossOrthogonal(lc: Libc, x: V.Vector, y: V.Vector)
    ensures var n := V.Normalized(V.Cross(lc, x, y));
      V.Dot(x, n) == 0.0 && V.Dot(y, n) == 0.0 && V.Dot(n, x) == 0.0 && V.Dot(n, y) == 0.0
  {
    var c := V.Cross(lc, x, y);
    V.CrossOrthogonal(lc, x, y);
    DotNormalized(c, x);
    DotNormalized(c, y);
  }

  /** Row dot products of `FromRows` are the dot products of the vectors it was given. */
  lemma FromRowsDots(x: V.Vector, y: V.Vector, z: V.Vector)
    ensures var m := FromRows(x, y, z);
      RowDot(m, 0, 1) == V.Dot(x, y) && RowDot(m, 0, 2) == V.Dot(x, z) && RowDot(m, 1, 2) == V.Dot(y, z)
  {
  }

  /**
   * For every axis code the three rows of the axis-code build are mutually
   * orthogonal: each derived row is a normalised cross product with the rows
   * before it.
   */
  lemma {:induction false} AxisCodeOrthogonal(lc: Libc, one: V.Vector, two: V.Vector, code: int)
    ensures RowsOrthogonal(AxisCodeMatrix(lc, one, two, code))
  {
    var n1 := V.Normalized(one);
    var n2 := V.Normalized(two);
    if code == 12 {
      var z := V.Normalized(V.Cross(lc, n1, n2));
      var y := V.Normalized(V.Cross(lc, z, n1));
      NormalizedCrossOrthogonal(lc, n1, n2);
      NormalizedCrossOrthogonal(lc, z, n1);
      FromRowsDots(n1, y, z);
    } else if code == 13 {
      var y := V.Normalized(V.Cross(lc, n2, n1));
      var z := V.Normalized(V.Cross(lc, n1, y));
      NormalizedCrossOrthogonal(lc, n2, n1);
      NormalizedCrossOrthogonal(lc, n1, y);
      FromRowsDots(n1, y, z);
    } else if code == 21 {
      var z := V.Normalized(V.Cross(lc, n2, n1));
      var x := V.Normalized(V.Cross(lc, n1, z));
      NormalizedCrossOrthogonal(lc, n2, n1);
      NormalizedCrossOrthogonal(lc, n1, z);
      FromRowsDots(x, n1, z);
    } else if code == 23 {
      var x := V.Normalized(V.Cross(lc, n1, n2));
      var z := V.Normalized(V.Cross(lc, x, n1));
      NormalizedCrossOrthogonal(lc, n1, n2);
      NormalizedCrossOrthogonal(lc, x, n1);
      FromRowsDots(x, n1, z);
    } else if code == 31 {
      var y := V.Normalized(V.Cross(lc, n1, n2));
      var x := V.Normalized(V.Cross(lc, y, n1));
      NormalizedCrossOrthogonal(lc, n1, n2);
      NormalizedCrossOrthogonal(lc, y, n1);
      FromRowsDots(x, y, n1);
    } else {
      var x := V.Normalized(V.Cross(lc, n2, n1));
      var y := V.Normalized(V.Cross(lc, n1, x));
      NormalizedCrossOrthogonal(lc, n2, n1);
      NormalizedCrossOrthogonal(lc, n1, x);
      FromRowsDots(x, y, n1);
    }
  }

  /** One row of the associativity of the matrix-vector product, over plain numbers. */
  lemma RowOfProduct(px: real, py: real, pz: real, ma: real, mb: real, mc: real,
                     na: real, nb: real, nc: real, nd: real, ne: real, nf: real, ng: real, nh: real, ni: real)
    ensures px * (ma * na + mb * nd + mc * ng) + py * (ma * nb + mb * ne + mc * nh) + pz * (ma * nc + mb * nf + mc * ni)
         == (px * na + py * nb + pz * nc) * ma + (px * nd + py * ne + pz * nf) * mb + (px * ng + py * nh + pz * ni) * mc
  {
  }

  /** Transforming by a product is transforming by each factor in turn. */
  lemma ApplyProduct(m: Matrix, n: Matrix, p: C.Point)
    ensures Apply(Product(m, n), p) == Apply(m, Apply(n, p))
  {
    RowOfProduct(p.x, p.y, p.z, m.a, m.b, m.c, n.a, n.b, n.c, n.d, n.e, n.f, n.g, n.h, n.i);
    RowOfProduct(p.x, p.y, p.z, m.d, m.e, m.f, n.a, n.b, n.c, n.d, n.e, n.f, n.g, n.h, n.i);
    RowOfProduct(p.x, p.y, p.z, m.g, m.h, m.i, n.a, n.b, n.c, n.d, n.e, n.f, n.g, n.h, n.i);
  }

  /** The identity leaves every point where it is. */
  lemma ApplyIdentity(p: C.Point)
    ensures Apply(Identity, p) == p
  {
  }

  /** The first row of adj(M) * M, over plain numbers: (det, 0, 0). */
  lemma CofactorRow1(a: real, b: real, c: real, d: real, e: real, f: real, g: real, h: real, i: real)
    ensures var det := Dot(a, Minor(e, i, f, h), b, Minor(f, g, d, i), c, Minor(d, h, e, g));
      var qa, qb, qc := Minor(e, i, f, h), Minor(c, h, b, i), Minor(b, f, c, e);
      Dot(qa, a, qb, d, qc, g) == det && Dot(qa, b, qb, e, qc, h) == 0.0 && Dot(qa, c, qb, f, qc, i) == 0.0
  {
  }

  /** The second row of adj(M) * M, over plain numbers: (0, det, 0). */
  lemma CofactorRow2(a: real, b: real, c: real, d: real, e: real, f: real, g: real, h: real, i: real)
    ensures var det := Dot(a, Minor(e, i, f, h), b, Minor(f, g, d, i), c, Minor(d, h, e, g));
      var qd, qe, qf := Minor(f, g, d, i), Minor(a, i, c, g), Minor(c, d, a, f);
      Dot(qd, a, qe, d, qf, g) == 0.0 && Dot(qd, b, qe, e, qf, h) == det && Dot(qd, c, qe, f, qf, i) == 0.0
  {
  }

  /** The third row of adj(M) * M, over plain numbers: (0, 0, det); the row the cofactor C enters. */
  lemma CofactorRow3(a: real, b: real, c: real, d: real, e: real, f: real, g: real, h: real, i: real)
    ensures var det := Dot(a, Minor(e, i, f, h), b, Minor(f, g, d, i), c, Minor(d, h, e, g));
      var qg, qh, qi := Minor(d, h, e, g), Minor(b, g, a, h), Minor(a, e, b, d);
      Dot(qg, a, qh, d, qi, g) == 0.0 && Dot(qg, b, qh, e, qi, h) == 0.0 && Dot(qg, c, qh, f, qi, i) == det
  {
  }

  /** The adjugate inverts up to the determinant: adj(M) * M = det(M) I. */
  lemma AdjugateInverts(m: Matrix)
    ensures Product(Adjugate(m), m) == Scalar(Determinant(m))
  {
    CofactorRow1(m.a, m.b, m.c, m.d, m.e, m.f, m.g, m.h, m.i);
    CofactorRow2(m.a, m.b, m.c, m.d, m.e, m.f, m.g, m.h, m.i);
    CofactorRow3(m.a, m.b, m.c, m.d, m.e, m.f, m.g, m.h, m.i);
  }

  /**
   * With the written cofactor C the adjugate fails to invert the rotation
   * about x by the angle with cosine 0.6 and sine 0.8: its third row is
   * (0.48, 0.8, 0.6), which has a non-zero product with the first column.
   */
  lemma AdjugateAsWrittenCounterexample()
    ensures var m := Matrix(1.0, 0.0, 0.0, 0.0, 0.6, 0.8, 0.0, -0.8, 0.6);
      DeterminantAsWritten(m) == 1.0 && Determinant(m) == 1.0 &&
      AdjugateAsWritten(m).g == 0.48 && Adjugate(m).g == 0.0 &&
      Product(AdjugateAsWritten(m), m).g == 0.48 &&
      Product(AdjugateAsWritten(m), m) != Scalar(DeterminantAsWritten(m))
  {
    var m := Matrix(1.0, 0.0, 0.0, 0.0, 0.6, 0.8, 0.0, -0.8, 0.6);
    assert Minor(0.6, 0.6, 0.8, -0.8) == 1.0;
    assert Minor(0.0, -0.8, 0.6, -0.8) == 0.48;
    assert Minor(0.0, -0.8, 0.6, 0.0) == 0.0;
    assert DeterminantAsWritten(m) == Dot(1.0, 1.0, 0.0, Minor(0.8, 0.0, 0.0, 0.6), 0.0, Minor(0.0, -0.8, 0.6, -0.8)) == 1.0;
    assert Determinant(m) == Dot(1.0, 1.0, 0.0, Minor(0.8, 0.0, 0.0, 0.6), 0.0, Minor(0.0, -0.8, 0.6, 0.0)) == 1.0;
    var w := AdjugateAsWritten(m);
    assert w.g == 0.48;
    assert Product(w, m).g == Dot(w.g, 1.0, w.h, 0.0, w.i, 0.0) == 0.48;
  }

  /** The written cofactor d*h - e*h equals the intended d*h - e*g whenever g equals h. */
  lemma WrittenCofactorAgrees(d: real, e: real, g: real, h: real)
    requires g == h
    ensures d * h - e * h == d * h - e * g
  {
  }

  /** The written cofactors agree with the corrected ones whenever g equals h. */
  lemma AdjugateAsWrittenAgrees(m: Matrix)
    requires m.g == m.h
    ensures AdjugateAsWritten(m) == Adjugate(m) && DeterminantAsWritten(m) == Determinant(m)
  {
    WrittenCofactorAgrees(m.d, m.e, m.g, m.h);
    assert m.d * m.h - m.e * m.h == m.d * m.h - m.e * m.g;
  }

  /** For the identity the written cofactors still give the identity. */
  lemma AdjugateAsWrittenIdentity()
    ensures AdjugateAsWritten(Identity) == Identity == Adjugate(Identity) && DeterminantAsWritten(Identity) == 1.0
  {
    var m := Identity;
    AdjugateAsWrittenAgrees(m);
    var adj := Adjugate(m);
    assert adj.a == 1.0 && adj.b == 0.0 && adj.c == 0.0;
    assert adj.d == 0.0 && adj.e == 1.0 && adj.f == 0.0;
    assert adj.g == 0.0 && adj.h == 0.0 && adj.i == 1.0;
  }

  /** A Transformation object: the nine cells of `pMatrix`. */
  class Transformation {
    var cells: array2<real>

    ghost predicate Valid()
      reads this
    {
      cells.Length0 == 3 && cells.Length1 == 3
    }

    /** The matrix the object currently holds. */
    function Value(): Matrix
      reads this, cells
      requires Valid()
    {
      Matrix(cells[0, 0], cells[0, 1], cells[0, 2], cells[1, 0], cells[1, 1], cells[1, 2], cells[2, 0], cells[2, 1], cells[2, 2])
    }

    /** `Transformation()`: the source leaves the cells uninitialised; here they start at zero. */
    constructor ()
      ensures Valid() && fresh(cells) && Value() == Scalar(0.0)
    {
      cells := new real[3, 3]((_, _) => 0.0);
    }

    /** `for (i = 0; i < 3; i++) pMatrix[r][i] = v[i]`: row r becomes the components of v. */
    method SetRow(r: int, v: V.Vector)
      requires Valid() && 0 <= r < 3
      modifies cells
      ensures Valid() && Value() == WithRow(old(Value()), r, v)
    {
      for c := 0 to 3
        invariant forall k :: 0 <= k < c ==> cells[r, k] == V.Index(v, k)
        invariant forall q, k :: 0 <= q < 3 && 0 <= k < 3 && (q != r || k >= c) ==> cells[q, k] == old(cells[q, k])
      {
        cells[r, c] := V.Index(v, c);
      }
    }

    /** `build_matrix(x, y, z)`. */
    method BuildFromAxes(x: V.Vector, y: V.Vector, z: V.Vector)
      requires Valid()
      modifies cells
      ensures Valid() && Value() == AxesMatrix(x, y, z)
    {
      SetRow(0, V.Normalized(x));
      SetRow(1, V.Normalized(y));
      SetRow(2, V.Normalized(z));
    }

    /** `build_matrix(one, two, axis_code)`, writing the rows in the order the source's branch does. */
    method BuildFromAxisCode(lc: Libc, one: V.Vector, two: V.Vector, code: int)
      requires Valid()
      modifies cells
      ensures Valid() && Value() == AxisCodeMatrix(lc, one, two, code)
    {
      var n1 := V.Normalized(one);
      var n2 := V.Normalized(two);
      if code == 12 {
        SetRow(0, n1);
        var z := V.Normalized(V.Cross(lc, n1, n2));
        SetRow(2, z);
        SetRow(1, V.Normalized(V.Cross(lc, z, n1)));
      } else if code == 13 {
        SetRow(0, n1);
        var y := V.Normalized(V.Cross(lc, n2, n1));
        SetRow(1, y);
        SetRow(2, V.Normalized(V.Cross(lc, n1, y)));
      } else if code == 21 {
        SetRow(1, n1);
        var z := V.Normalized(V.Cross(lc, n2, n1));
        SetRow(2, z);
        SetRow(0, V.Normalized(V.Cross(lc, n1, z)));
      } else if code == 23 {
        SetRow(1, n1);
        var x := V.Normalized(V.Cross(lc, n1, n2));
        SetRow(0, x);
        SetRow(2, V.Normalized(V.Cross(lc, x, n1)));
      } else if code == 31 {
        SetRow(2, n1);
        var y := V.Normalized(V.Cross(lc, n1, n2));
        SetRow(1, y);
        SetRow(0, V.Normalized(V.Cross(lc, y, n1)));
      } else {
        SetRow(2, n1);
        var x := V.Normalized(V.Cross(lc, n2, n1));
        SetRow(0, x);
        SetRow(1, V.Normalized(V.Cross(lc, n1, x)));
      }
    }

    /** `build_matrix(p1, p2, p3, axis_code)`. */
    method BuildFromPoints(lc: Libc, p1: C.Point, p2: C.Point, p3: C.Point, code: int)
      requires Valid()
      modifies cells
      ensures Valid() && Value() == PointsMatrix(lc, p1, p2, p3, code)
    {
      BuildFromAxisCode(lc, Between(lc, p1, p2), Between(lc, p1, p3), code);
    }

    /** `transform_coordinate`: three accumulation loops over the rows. */
    method TransformCoordinate(p: C.Point) returns (r: C.Point)
      requires Valid()
      ensures r == Apply(Value(), p)
    {
      var m := Value();
      var x, y, z := 0.0, 0.0, 0.0;
      for k := 0 to 3
        invariant x == PartialRow(m, 0, p, k)
      {
        CellIsGet(0, k);
        x := x + C.Index(p, k) * cells[0, k];
      }
      for k := 0 to 3
        invariant y == PartialRow(m, 1, p, k)
      {
        CellIsGet(1, k);
        y := y + C.Index(p, k) * cells[1, k];
      }
      for k := 0 to 3
        invariant z == PartialRow(m, 2, p, k)
      {
        CellIsGet(2, k);
        z := z + C.Index(p, k) * cells[2, k];
      }
      PartialRowFull(m, p);
      r := C.Point(x, y, z);
    }

    /** `transform_vector`: the same loops over the vector's components. */
    method TransformVector(lc: Libc, v: V.Vector) returns (r: V.Vector)
      requires Valid()
      ensures r == ApplyToVector(lc, Value(), v)
    {
      var p := TransformCoordinate(Components(v));
      r := V.MakeVector(lc, p.x, p.y, p.z);
    }

    /** `inverse_matrix` (with the corrected cofactor C): a new object holding the inverse. */
    method InverseMatrix(lc: Libc) returns (t: Transformation)
      requires Valid()
      ensures fresh(t) && fresh(t.cells) && t.Valid() && t.Value() == Inverse(lc, Value())
    {
      var m := Value();
      var adj := Adjugate(m);
      var q := DivideAll(adj, Determinant(m));
      t := new Transformation();
      t.BuildFromAxes(RowVector(lc, q, 0), RowVector(lc, q, 1), RowVector(lc, q, 2));
    }

    /** Cell (r, c) of the array is cell (r, c) of the value. */
    lemma CellIsGet(r: int, c: int)
      requires Valid() && 0 <= r < 3 && 0 <= c < 3
      ensures cells[r, c] == Get(Value(), r, c)
    {
    }

    /** `get_component`. */
    function GetComponent(i: int, j: int): real
      reads this, cells
      requires Valid()
    {
      if 0 <= i < 3 && 0 <= j < 3 then cells[i, j] else cells[0, 0]
    }
  }

  /** The sum of the first n terms of row r's product with p, in the loop's order. */
  function PartialRow(m: Matrix, r: int, p: C.Point, n: int): real
    requires 0 <= r < 3 && 0 <= n <= 3
  {
    if n == 0 then 0.0 else PartialRow(m, r, p, n - 1) + C.Index(p, n - 1) * Get(m, r, n - 1)
  }

  /** The three-term sums the loops build are the rows of `Apply`. */
  lemma PartialRowFull(m: Matrix, p: C.Point)
    ensures Apply(m, p) == C.Point(PartialRow(m, 0, p, 3), PartialRow(m, 1, p, 3), PartialRow(m, 2, p, 3))
  {
    PartialRowExpanded(m, 0, p);
    PartialRowExpanded(m, 1, p);
    PartialRowExpanded(m, 2, p);
  }

  /** The loop's sum for row r, term by term. */
  lemma PartialRowExpanded(m: Matrix, r: int, p: C.Point)
    requires 0 <= r < 3
    ensures PartialRow(m, r, p, 3) == p.x * Get(m, r, 0) + p.y * Get(m, r, 1) + p.z * Get(m, r, 2)
  {
    assert PartialRow(m, r, p, 1) == p.x * Get(m, r, 0);
    assert PartialRow(m, r, p, 2) == p.x * Get(m, r, 0) + p.y * Get(m, r, 1);
  }

  /** `get_component` on the object reads the value's component. */
  lemma GetComponentValue(t: Transformation, i: int, j: int)
    requires t.Valid()
    ensures t.GetComponent(i, j) == Component(t.Value(), i, j)
  {
  }
}
