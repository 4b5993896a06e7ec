/**
 * Coordinate (Stress_Library/src/Math/Coordinate.cpp): a point with three
 * components and the ID of the frame it is expressed in.
 *
 * The operators that return a new Coordinate are functions on the value
 * `Point`; the setters and the compound assignments change a `Coordinate`
 * object in place, as the source's member functions do.
 */
module Coordinates {
  import opened Runtime

  /** The three components a Coordinate holds. */
  datatype Point = Point(x: real, y: real, z: real)

  const Origin := Point(0.0, 0.0, 0.0)

  /** `operator[]`: components 0-2, and x for any other index. */
  function Index(p: Point, n: int): real
  {
    if n == 1 then p.y else if n == 2 then p.z else p.x
  }

  /** `operator+`. */
  function Add(a: Point, b: Point): Point
  {
    Point(a.x + Index(b, 0), a.y + Index(b, 1), a.z + Index(b, 2))
  }

  /** `operator-`. */
  function Sub(a: Point, b: Point): Point
  {
    Point(a.x - Index(b, 0), a.y - Index(b, 1), a.z - Index(b, 2))
  }

  /** `operator*`. */
  function Scale(p: Point, s: real): Point
  {
    Point(p.x * s, p.y * s, p.z * s)
  }

  /** `operator/`. */
  function Divide(p: Point, s: real): Point
  {
    Point(Div(p.x, s), Div(p.y, s), Div(p.z, s))
  }

  /** `get_resultant`: the length in the plane an axis code names, or the full length. */
  function Resultant(lc: Libc, p: Point, axis: int): real
  {
    if axis == 12 || axis == 21 then Length2(lc, p.x, p.y)
    else if axis == 13 || axis == 31 then Length2(lc, p.x, p.z)
    else if axis == 23 || axis == 32 then Length2(lc, p.y, p.z)
    else Length3(lc, p.x, p.y, p.z)
  }

  /** `operator[]` reads x, y, z at 0, 1, 2 and falls back to x everywhere else. */
  lemma IndexComponents(p: Point, n: int)
    ensures Index(p, 0) == p.x && Index(p, 1) == p.y && Index(p, 2) == p.z
    ensures (n < 0 || n > 2) ==> Index(p, n) == p.x
  {
  }

  /** `+` then `-` of the same point gives the original point back, and `-` undoes `+` the other way round too. */
  lemma AddSubInverse(a: Point, b: Point)
    ensures Sub(Add(a, b), b) == a && Add(Sub(a, b), b) == a
  {
  }

  /** `*` and `/` by the same non-zero number cancel. */
  lemma ScaleDivideInverse(p: Point, s: real)
    requires s != 0.0
    ensures Divide(Scale(p, s), s) == p
  {
  }

  /**
   * A plane resultant ignores the component normal to its plane: 12/21 ignore
   * z, 13/31 ignore y, 23/32 ignore x; the two spellings of a plane agree.
   */
  lemma ResultantPlane(lc: Libc, p: Point, w: real)
    ensures Resultant(lc, p, 12) == Resultant(lc, p.(z := w), 12) == Resultant(lc, p, 21)
    ensures Resultant(lc, p, 13) == Resultant(lc, p.(y := w), 13) == Resultant(lc, p, 31)
    ensures Resultant(lc, p, 23) == Resultant(lc, p.(x := w), 23) == Resultant(lc, p, 32)
  {
  }

  /** A Coordinate object: `pCoords[3]` and `pRef`. */
  class Coordinate {
    var coords: array<real>
    var reference: int

    ghost predicate Valid()
      reads this
    {
      coords.Length == 3
    }

    /** The point the object currently holds. */
    function Value(): Point
      reads this, coords
      requires Valid()
    {
      Point(coords[0], coords[1], coords[2])
    }

    /** `Coordinate(x, y, z)`; the source leaves `pRef` unset, the model starts it at 0 (BASIC). */
    constructor (x: real, y: real, z: real)
      ensures Valid() && fresh(coords)
      ensures Value() == Point(x, y, z) && reference == 0
    {
      var a := new real[3];
      a[0], a[1], a[2] := x, y, z;
      coords := a;
      reference := 0;
    }

    /** `set_coordinates`. */
    method SetCoordinates(x: real, y: real, z: real)
      requires Valid()
      modifies coords
      ensures Valid() && Value() == Point(x, y, z)
    {
      coords[0], coords[1], coords[2] := x, y, z;
    }

    /** `set_reference`: the value `get_reference_frame` returns from now on; the point is untouched. */
    method SetReference(r: int)
      requires Valid()
      modifies this`reference
      ensures Valid() && GetReferenceFrame() == r && Value() == old(Value())
    {
      reference := r;
    }

    /** `get_reference_frame`. */
    function GetReferenceFrame(): int
      reads this
    {
      reference
    }

    /** `operator+=`: the point becomes exactly what `+` would return; the frame is untouched. */
    method AddAssign(c: Point)
      requires Valid()
      modifies coords
      ensures Valid() && Value() == Add(old(Value()), c) && reference == old(reference)
    {
      coords[0] := coords[0] + Index(c, 0);
      coords[1] := coords[1] + Index(c, 1);
      coords[2] := coords[2] + Index(c, 2);
    }

    /** `operator-=`: the point becomes exactly what `-` would return; the frame is untouched. */
    method SubAssign(c: Point)
      requires Valid()
      modifies coords
      ensures Valid() && Value() == Sub(old(Value()), c) && reference == old(reference)
    {
      coords[0] := coords[0] - Index(c, 0);
      coords[1] := coords[1] - Index(c, 1);
      coords[2] := coords[2] - Index(c, 2);
    }
  }
}
