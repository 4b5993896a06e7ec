/**
 * COORD (Stress_Library/src/NASTRAN_General/COORD.cpp): a rectangular frame
 * CORD2R given by its ID, the ID of the frame it is defined in (RID), the
 * origin A and the points B (on the z axis) and C (in the x-z plane).
 *
 * A parsed COORD is never changed again, so it is the value `Frame`. The
 * walks along RID links that `get_axis_vector` and `GRID::get_coordinate`
 * perform are modelled once, generically, in this module: as the source
 * writes them and as evidently intended.
 */
module Frames {
  import opened Runtime
  import opened Text
  import C = Coordinates
  import V = EuclideanVectors
  import T = Transformations

  /** `pLongData` (ID, RID), `pOrigin` and `pTransMatrices` (forward, inverse). */
  datatype Frame = Frame(id: int, rid: int, origin: C.Point, forward: T.Matrix, inverse: T.Matrix)

  /** Field k read as a double, through `check_exp` and `atof`. */
  function RealField(lc: Libc, fields: seq<string>, k: nat): real
    requires k < |fields|
  {
    lc.atof(CheckExp(fields[k]))
  }

  /** The point in fields k, k+1, k+2. */
  function PointField(lc: Libc, fields: seq<string>, k: nat): C.Point
    requires k + 2 < |fields|
  {
    C.Point(RealField(lc, fields, k), RealField(lc, fields, k + 1), RealField(lc, fields, k + 2))
  }

  /**
   * `parseBDFData`: ID and RID from fields 0-1, A, B, C from fields 2-10;
   * the forward matrix is the axis-code-31 build on A->B and A->C, the inverse
   * its `inverse_matrix`. The source reads fields 0-10 unconditionally.
   */
  function ParseCoord(lc: Libc, lines: seq<string>, long: bool): Frame
    requires |Fields(lines, long)| >= 11
  {
    var f := Fields(lines, long);
    var a := PointField(lc, f, 2);
    var fwd := T.PointsMatrix(lc, a, PointField(lc, f, 5), PointField(lc, f, 8), 31);
    Frame(lc.atol(f[0]), lc.atol(f[1]), a, fwd, T.Inverse(lc, fwd))
  }

  /** `transform_coordinate`: forward subtracts the origin then rotates; inverse rotates back then adds it. */
  function TransformPoint(fr: Frame, p: C.Point, inverse: bool): C.Point
  {
    if inverse then C.Add(T.Apply(fr.inverse, p), fr.origin)
    else T.Apply(fr.forward, C.Sub(p, fr.origin))
  }

  /** `transform_vector`: the rotation alone, with no origin shift. */
  function TransformVector(lc: Libc, fr: Frame, v: V.Vector, inverse: bool): V.Vector
  {
    T.ApplyToVector(lc, if inverse then fr.inverse else fr.forward, v)
  }

  /** `operator[]`: RID for 1, the frame's ID for anything else. */
  function Index(fr: Frame, n: int): int
  {
    if n == 1 then fr.rid else fr.id
  }

  /** The matrix row `get_axis_vector` reads: row i for 1 and 2, row 0 otherwise. */
  function AxisRow(i: int): int
  {
    if i == 1 || i == 2 then i else 0
  }

  /** The axis vector before any frame walk: `set_vector` on a row of T (or of its inverse). */
  function LocalAxis(lc: Libc, fr: Frame, i: int, inverse: bool): V.Vector
  {
    var m := if inverse then fr.inverse else fr.forward;
    var r := AxisRow(i);
    V.MakeVector(lc, T.Component(m, r, 0), T.Component(m, r, 1), T.Component(m, r, 2))
  }

  /** The field layout: ID, RID, origin from fields 0-4; the forward matrix has z along A->B and orthogonal rows. */
  lemma ParseCoordLayout(lc: Libc, lines: seq<string>, long: bool)
    requires |Fields(lines, long)| >= 11
    ensures var f := Fields(lines, long); var fr := ParseCoord(lc, lines, long);
      fr.id == lc.atol(f[0]) && fr.rid == lc.atol(f[1]) && fr.origin == PointField(lc, f, 2) &&
      T.Get(fr.forward, 2, 0) == V.Normalized(T.Between(lc, fr.origin, PointField(lc, f, 5))).i &&
      T.Get(fr.forward, 2, 1) == V.Normalized(T.Between(lc, fr.origin, PointField(lc, f, 5))).j &&
      T.Get(fr.forward, 2, 2) == V.Normalized(T.Between(lc, fr.origin, PointField(lc, f, 5))).k &&
      T.RowsOrthogonal(fr.forward) && fr.inverse == T.Inverse(lc, fr.forward)
  {
    var f := Fields(lines, long);
    var a := PointField(lc, f, 2);
    T.AxisCodeRowPlacement(lc, T.Between(lc, a, PointField(lc, f, 5)), T.Between(lc, a, PointField(lc, f, 8)), 31);
    T.AxisCodeOrthogonal(lc, T.Between(lc, a, PointField(lc, f, 5)), T.Between(lc, a, PointField(lc, f, 8)), 31);
  }

  /** Inverse after forward gives the point back whenever the stored inverse is an exact inverse. */
  lemma TransformPointRoundTrip(fr: Frame, p: C.Point)
    requires T.Product(fr.inverse, fr.forward) == T.Identity
    ensures TransformPoint(fr, TransformPoint(fr, p, false), true) == p
  {
    var q := C.Sub(p, fr.origin);
    T.ApplyProduct(fr.inverse, fr.forward, q);
    T.ApplyIdentity(q);
    C.AddSubInverse(p, fr.origin);
  }

  /** A vector is rotated exactly as a point would be in a frame with its origin at zero. */
  lemma TransformVectorNoShift(lc: Libc, fr: Frame, v: V.Vector, inverse: bool)
    ensures T.Components(TransformVector(lc, fr, v, inverse)) == TransformPoint(fr.(origin := C.Origin), T.Components(v), inverse)
    ensures forall o :: TransformVector(lc, fr.(origin := o), v, inverse) == TransformVector(lc, fr, v, inverse)
  {
  }

  /** `operator[]` and `get_axis_vector`'s row choice. */
  lemma IndexAndAxisRow(fr: Frame, n: int, i: int)
    ensures Index(fr, 1) == fr.rid && (n != 1 ==> Index(fr, n) == fr.id)
    ensures AxisRow(i) == (if i == 1 || i == 2 then i else 0) && 0 <= AxisRow(i) < 3
  {
  }

  /** The local axis is row `AxisRow(i)` of the chosen matrix. */
  lemma LocalAxisRow(lc: Libc, fr: Frame, i: int, inverse: bool)
    ensures var m := if inverse then fr.inverse else fr.forward; var v := LocalAxis(lc, fr, i, inverse);
      v.i == T.Get(m, AxisRow(i), 0) && v.j == T.Get(m, AxisRow(i), 1) && v.k == T.Get(m, AxisRow(i), 2)
  {
  }

  // ---------------------------------------------------------------------
  // Frame-chain walks
  // ---------------------------------------------------------------------

  /** Where the upward walk stops: at the target, at BASIC, at a frame missing from the map (a null entry), or not within the fuel. */
  datatype Walk<X> = Reached(value: X) | AtBasic(value: X) | NullFrame | OutOfFuel

  /** The outcome of a whole chain transformation. */
  datatype Outcome<X> = Done(value: X) | Crash | Diverges

  /**
   * The upward loop as written: `refCoord` is first replaced by its parent
   * and the parent's inverse transform is applied; `COORD_Map[refCoord]` on
   * a parent that is not in the map (BASIC, 0, in particular) yields a null
   * entry that is then dereferenced.
   */
  function UpwardAsWritten<X>(frames: map<int, Frame>, up: (Frame, X) -> X, ref: int, target: int, x: X, fuel: nat): Walk<X>
    decreases fuel
  {
    if ref == 0 then AtBasic(x)
    else if ref !in frames then AtBasic(x)
    else if fuel == 0 then OutOfFuel
    else
      var parent := frames[ref].rid;
      if parent !in frames then NullFrame
      else
        var y := up(frames[parent], x);
        if parent == target then Reached(y) else UpwardAsWritten(frames, up, parent, target, y, fuel - 1)
  }

  /** The upward loop as intended: apply frame `ref`'s own inverse, then move to its parent. */
  function Upward<X>(frames: map<int, Frame>, up: (Frame, X) -> X, ref: int, target: int, x: X, fuel: nat): Walk<X>
    decreases fuel
  {
    if ref == 0 then AtBasic(x)
    else if ref !in frames then AtBasic(x)
    else if fuel == 0 then OutOfFuel
    else
      var y := up(frames[ref], x);
      var parent := frames[ref].rid;
      if parent == target then Reached(y) else Upward(frames, up, parent, target, y, fuel - 1)
  }

  /** The downward loop as written: it pushes `ref` and then re-reads the parent of the target, not of `ref`. */
  function DownLoopAsWritten(frames: map<int, Frame>, target: int, ref: int, acc: seq<int>, fuel: nat): Option<seq<int>>
    requires target in frames
    decreases fuel
  {
    if ref == 0 then Some(acc)
    else if ref !in frames then Some(acc)
    else if fuel == 0 then None
    else DownLoopAsWritten(frames, target, frames[target].rid, acc + [ref], fuel - 1)
  }

  /** The frame list as written: empty for an unknown target, else the target followed by the loop's pushes. */
  function FrameListAsWritten(frames: map<int, Frame>, target: int, fuel: nat): Option<seq<int>>
  {
    if target !in frames then Some([])
    else DownLoopAsWritten(frames, target, frames[target].rid, [target], fuel)
  }

  /** The downward loop as intended (the pattern `CQUAD::getCentroid` uses): follow the parent of `ref`. */
  function DownLoop(frames: map<int, Frame>, ref: int, acc: seq<int>, fuel: nat): Option<seq<int>>
    decreases fuel
  {
    if ref == 0 then Some(acc)
    else if ref !in frames then Some(acc)
    else if fuel == 0 then None
    else DownLoop(frames, frames[ref].rid, acc + [ref], fuel - 1)
  }

  /** The frame list as intended: target, parent, grandparent, ... up to BASIC or a missing frame. */
  function FrameList(frames: map<int, Frame>, target: int, fuel: nat): Option<seq<int>>
  {
    if target !in frames then Some([])
    else DownLoop(frames, frames[target].rid, [target], fuel)
  }

  /** Every ID in the list names a frame. */
  predicate AllPresent(frames: map<int, Frame>, l: seq<int>)
  {
    forall k :: 0 <= k < |l| ==> l[k] in frames
  }

  /** Each entry after the first is the RID of the entry before it. */
  predicate Linked(frames: map<int, Frame>, l: seq<int>)
    requires AllPresent(frames, l)
  {
    forall k :: 0 <= k < |l| - 1 ==> l[k + 1] == frames[l[k]].rid
  }

  /** `for (i = size - 1; i > -1; i--) x = frames[l[i]]->transform(x, false)`: the root-most frame first. */
  function ApplyChain<X>(frames: map<int, Frame>, down: (Frame, X) -> X, l: seq<int>, x: X): X
    requires AllPresent(frames, l)
  {
    if l == [] then x else down(frames[l[0]], ApplyChain(frames, down, l[1..], x))
  }

  /** The whole transformation as written: upward walk, then (unless it returned) the frame list applied downward. */
  function ChainAsWritten<X>(frames: map<int, Frame>, up: (Frame, X) -> X, down: (Frame, X) -> X,
                             start: int, target: int, x: X, fuel: nat): Outcome<X>
  {
    match UpwardAsWritten(frames, up, start, target, x, fuel)
    case Reached(y) => Done(y)
    case NullFrame => Crash
    case OutOfFuel => Diverges
    case AtBasic(y) =>
      match FrameListAsWritten(frames, target, fuel)
      case None => Diverges
      case Some(l) => DownwardAsWrittenApplied(frames, down, l, y)
  }

  /** The downward application for a list the as-written loop produced. */
  function DownwardAsWrittenApplied<X>(frames: map<int, Frame>, down: (Frame, X) -> X, l: seq<int>, y: X): Outcome<X>
  {
    if AllPresent(frames, l) then Done(ApplyChain(frames, down, l, y)) else Crash
  }

  /** The whole transformation as intended. */
  function Chain<X>(frames: map<int, Frame>, up: (Frame, X) -> X, down: (Frame, X) -> X,
                    start: int, target: int, x: X, fuel: nat): Outcome<X>
  {
    match Upward(frames, up, start, target, x, fuel)
    case Reached(y) => Done(y)
    case NullFrame => Crash
    case OutOfFuel => Diverges
    case AtBasic(y) =>
      match FrameList(frames, target, fuel)
      case None => Diverges
      case Some(l) => if AllPresent(frames, l) then Done(ApplyChain(frames, down, l, y)) else Crash
  }

  /**
   * The written upward walk dereferences a null frame as soon as a frame in
   * the chain is defined directly in BASIC, where the intended walk applies
   * that frame's inverse and arrives in BASIC.
   */
  lemma UpwardAsWrittenNullAtBasic<X>(frames: map<int, Frame>, up: (Frame, X) -> X, ref: int, target: int, x: X, fuel: nat)
    requires ref != 0 && fuel > 0 && ref in frames && frames[ref].rid == 0 && 0 !in frames && target != 0
    ensures UpwardAsWritten(frames, up, ref, target, x, fuel) == NullFrame
    ensures Upward(frames, up, ref, target, x, fuel) == AtBasic(up(frames[ref], x))
  {
  }

  /**
   * When the parent is the target, the written walk applies the parent's
   * inverse where the intended walk applies the frame's own.
   */
  lemma UpwardAsWrittenUsesParent<X>(frames: map<int, Frame>, up: (Frame, X) -> X, ref: int, x: X, fuel: nat)
    requires ref != 0 && fuel > 0 && ref in frames && frames[ref].rid in frames
    ensures UpwardAsWritten(frames, up, ref, frames[ref].rid, x, fuel) == Reached(up(frames[frames[ref].rid], x))
    ensures Upward(frames, up, ref, frames[ref].rid, x, fuel) == Reached(up(frames[ref], x))
  {
  }

  /** The written downward loop never ends once it has pushed a present, non-zero parent. */
  lemma {:induction false} DownLoopAsWrittenDiverges(frames: map<int, Frame>, target: int, acc: seq<int>, fuel: nat)
    requires target in frames && frames[target].rid != 0 && frames[target].rid in frames
    ensures DownLoopAsWritten(frames, target, frames[target].rid, acc, fuel) == None
    decreases fuel
  {
    if fuel > 0 {
      DownLoopAsWrittenDiverges(frames, target, acc + [frames[target].rid], fuel - 1);
    }
  }

  /** Hence the written frame list is never produced, with any amount of fuel, for a target whose parent is a present frame. */
  lemma FrameListAsWrittenDiverges(frames: map<int, Frame>, target: int, fuel: nat)
    requires target in frames && frames[target].rid != 0 && frames[target].rid in frames
    ensures FrameListAsWritten(frames, target, fuel) == None
  {
    DownLoopAsWrittenDiverges(frames, target, [target], fuel);
  }

  /** For a target defined directly in BASIC, or in a missing frame, the written and intended lists agree. */
  lemma FrameListAgreesAtRoot(frames: map<int, Frame>, target: int, fuel: nat)
    requires target in frames && (frames[target].rid == 0 || frames[target].rid !in frames)
    ensures FrameListAsWritten(frames, target, fuel) == FrameList(frames, target, fuel) == Some([target])
  {
  }

  /** A list the intended loop extends stays a linked chain of present frames ending at BASIC or a missing frame. */
  lemma {:induction false} DownLoopShape(frames: map<int, Frame>, ref: int, acc: seq<int>, fuel: nat)
    requires acc != [] && AllPresent(frames, acc) && Linked(frames, acc) && frames[acc[|acc| - 1]].rid == ref
    ensures var r := DownLoop(frames, ref, acc, fuel);
      r.Some? ==>
        (|r.value| >= |acc| && r.value[..|acc|] == acc && AllPresent(frames, r.value) && Linked(frames, r.value) &&
         (frames[r.value[|r.value| - 1]].rid == 0 || frames[r.value[|r.value| - 1]].rid !in frames))
    decreases fuel
  {
    if ref != 0 && fuel > 0 && ref in frames {
      var acc' := acc + [ref];
      assert AllPresent(frames, acc');
      assert Linked(frames, acc');
      DownLoopShape(frames, frames[ref].rid, acc', fuel - 1);
      var r := DownLoop(frames, frames[ref].rid, acc', fuel - 1);
      if r.Some? {
        assert r.value[..|acc|] == r.value[..|acc'|][..|acc|];
      }
    }
  }

  /** The intended frame list is empty for an unknown target, and otherwise starts at the target and climbs RID links. */
  lemma FrameListShape(frames: map<int, Frame>, target: int, fuel: nat)
    ensures var r := FrameList(frames, target, fuel);
      r.Some? ==>
        (AllPresent(frames, r.value) && Linked(frames, r.value) &&
         (r.value == [] <==> target !in frames) &&
         (r.value != [] ==>
           (r.value[0] == target &&
            (frames[r.value[|r.value| - 1]].rid == 0 || frames[r.value[|r.value| - 1]].rid !in frames))))
  {
    if target in frames {
      DownLoopShape(frames, frames[target].rid, [target], fuel);
    }
  }

  /** With one more unit of fuel the intended list is still produced, and is the same. */
  lemma {:induction false} DownLoopFuelMonotone(frames: map<int, Frame>, ref: int, acc: seq<int>, fuel: nat)
    ensures DownLoop(frames, ref, acc, fuel).Some? ==> DownLoop(frames, ref, acc, fuel + 1) == DownLoop(frames, ref, acc, fuel)
    decreases fuel
  {
    if ref != 0 && fuel > 0 && ref in frames {
      DownLoopFuelMonotone(frames, frames[ref].rid, acc + [ref], fuel - 1);
    }
  }

  /** `get_axis_vector` as written: the frame's axis, carried through the parent frames by the written walks. */
  function AxisVectorAsWritten(lc: Libc, frames: map<int, Frame>, fr: Frame, i: int, inverse: bool, target: int, fuel: nat): Outcome<V.Vector>
  {
    ChainAsWritten(frames, (f, v) => TransformVector(lc, f, v, true), (f, v) => TransformVector(lc, f, v, false),
                   fr.rid, target, LocalAxis(lc, fr, i, inverse), fuel)
  }

  /** `get_axis_vector` as intended: the frame's axis expressed in frame `target`. */
  function AxisVector(lc: Libc, frames: map<int, Frame>, fr: Frame, i: int, inverse: bool, target: int, fuel: nat): Outcome<V.Vector>
  {
    Chain(frames, (f, v) => TransformVector(lc, f, v, true), (f, v) => TransformVector(lc, f, v, false),
          fr.rid, target, LocalAxis(lc, fr, i, inverse), fuel)
  }

  /**
   * A frame defined in BASIC, asked for in BASIC: its axis is the matrix row
   * itself, both as written and as intended; a frame defined in a frame that
   * sits on BASIC crashes as written and is rotated once as intended.
   */
  lemma AxisVectorOneLevel(lc: Libc, frames: map<int, Frame>, fr: Frame, i: int, inverse: bool, fuel: nat)
    requires 0 !in frames
    ensures fr.rid == 0 ==>
      (AxisVectorAsWritten(lc, frames, fr, i, inverse, 0, fuel) == Done(LocalAxis(lc, fr, i, inverse))
       && AxisVector(lc, frames, fr, i, inverse, 0, fuel) == Done(LocalAxis(lc, fr, i, inverse)))
    ensures (fr.rid != 0 && fr.rid in frames && frames[fr.rid].rid == 0 && fuel > 0) ==>
      (AxisVectorAsWritten(lc, frames, fr, i, inverse, 0, fuel) == Crash
       && AxisVector(lc, frames, fr, i, inverse, 0, fuel) == Done(TransformVector(lc, frames[fr.rid], LocalAxis(lc, fr, i, inverse), true)))
  {
  }

  /** The intended upward loop, as the source's `while (refCoord != 0)` with a step bound. */
  method WalkUp<X>(frames: map<int, Frame>, up: (Frame, X) -> X, start: int, target: int, x: X, fuel: nat) returns (w: Walk<X>)
    ensures w == Upward(frames, up, start, target, x, fuel)
  {
    var ref, y, left := start, x, fuel;
    while ref != 0
      invariant Upward(frames, up, ref, target, y, left) == Upward(frames, up, start, target, x, fuel)
      decreases left
    {
      if ref !in frames {
        return AtBasic(y);
      }
      if left == 0 {
        return OutOfFuel;
      }
      y := up(frames[ref], y);
      ref := frames[ref].rid;
      if ref == target {
        return Reached(y);
      }
      left := left - 1;
    }
    return AtBasic(y);
  }

  /** The intended downward loop, collecting the frame list with `push_back`. */
  method CollectFrames(frames: map<int, Frame>, target: int, fuel: nat) returns (r: Option<seq<int>>)
    ensures r == FrameList(frames, target, fuel)
  {
    if target !in frames {
      return Some([]);
    }
    var list := [target];
    var ref := frames[target].rid;
    var left := fuel;
    while ref != 0
      invariant DownLoop(frames, ref, list, left) == FrameList(frames, target, fuel)
      decreases left
    {
      if ref !in frames {
        return Some(list);
      }
      if left == 0 {
        return None;
      }
      list := list + [ref];
      ref := frames[ref].rid;
      left := left - 1;
    }
    return Some(list);
  }

  /** The final loop: apply the listed frames from the last (root-most) to the first. */
  method ApplyFrames<X>(frames: map<int, Frame>, down: (Frame, X) -> X, l: seq<int>, x: X) returns (y: X)
    requires AllPresent(frames, l)
    ensures y == ApplyChain(frames, down, l, x)
  {
    y := x;
    var i := |l|;
    while i > 0
      invariant 0 <= i <= |l|
      invariant y == ApplyChain(frames, down, l[i..], x)
    {
      i := i - 1;
      assert l[i..][1..] == l[i + 1..];
      y := down(frames[l[i]], y);
    }
  }
}
