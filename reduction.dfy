/**
 * The filled-hole reduction of `CBUSH::generate_FH_Result`. For one load
 * case and one fastener node, the fluxes of the plates on each of the four
 * ring sides are averaged over the side's length; the in-plane fluxes are
 * chosen by minimum magnitude; the fastener load gives the two bearing
 * shears and, for an unpaired fastener, the pull-through load. The nine
 * values form the record the engine stores per subcase.
 */
module Reduction {
  import opened Runtime
  import C = Coordinates
  import T = Transformations

  /**
   * What the reduction reads from one ring plate: the six fluxes
   * `getForceResult` returns (Fxx, Fyy, Fxy, Mxx, Myy, Mxy, padded to six),
   * the two values `operator[](5)` and `operator[](6)` give (the fourth
   * corner grid and the MCID), and the two side lengths `operator()(5)` and
   * `operator()(6)` give.
   */
  datatype Plate = Plate(flux: seq<real>, grid4: int, mcid: int, sideX: real, sideY: real)

  /** A plate's contribution to its side: its fluxes and its weight. */
  datatype Share = Share(flux: seq<real>, weight: real)

  /** Flux column c of a share (the fluxes are padded to six, so the zero past the end is never read). */
  function Flux(sh: Share, c: nat): real
  {
    if c < |sh.flux| then sh.flux[c] else 0.0
  }

  /**
   * Sides 2 and 4 (`xSide`) accumulate Fxx, Fxy, Mxx, Mxy; sides 1 and 3
   * accumulate Fyy, Fxy, Myy, Mxy. Every side carries the shear flux and
   * the twist.
   */
  function Columns(xSide: bool): (c: seq<nat>)
    ensures |c| == 4 && c[1] == 2 && c[3] == 5
    ensures xSide ==> c[0] == 0 && c[2] == 3
    ensures !xSide ==> c[0] == 1 && c[2] == 4
  {
    if xSide then [0, 2, 3, 5] else [1, 2, 4, 5]
  }

  /** The weight of a plate as intended: its side length along the side it sits on. */
  function Weight(p: Plate, xSide: bool): real
  {
    if xSide then p.sideX else p.sideY
  }

  /** The weight as written: `operator[]` 5 or 6, the fourth corner grid ID or the MCID, as a number. */
  function WeightAsWritten(p: Plate, xSide: bool): real
  {
    (if xSide then p.grid4 else p.mcid) as real
  }

  /** The shares of a side's plates, weighted by side length. */
  function Shares(plates: seq<Plate>, xSide: bool): (s: seq<Share>)
    ensures |s| == |plates|
  {
    seq(|plates|, i requires 0 <= i < |plates| => Share(plates[i].flux, Weight(plates[i], xSide)))
  }

  /** The shares of a side's plates as the source weights them. */
  function SharesAsWritten(plates: seq<Plate>, xSide: bool): (s: seq<Share>)
    ensures |s| == |plates|
  {
    seq(|plates|, i requires 0 <= i < |plates| => Share(plates[i].flux, WeightAsWritten(plates[i], xSide)))
  }

  /** The weighted sum of flux column c over a side. */
  function Total(s: seq<Share>, c: nat): real
  {
    if s == [] then 0.0 else Total(s[..|s| - 1], c) + Flux(s[|s| - 1], c) * s[|s| - 1].weight
  }

  /** The total weight of a side: its length. */
  function Length(s: seq<Share>): real
  {
    if s == [] then 0.0 else Length(s[..|s| - 1]) + s[|s| - 1].weight
  }

  /** The four accumulated values of a side and its length (`side_k_data`, `side_lengths[k]`). */
  datatype Side = Side(sums: seq<real>, length: real)

  function SideTotals(s: seq<Share>, xSide: bool): (r: Side)
    ensures |r.sums| == 4
  {
    var c := Columns(xSide);
    Side([Total(s, c[0]), Total(s, c[1]), Total(s, c[2]), Total(s, c[3])], Length(s))
  }

  /** A side average; a side of length zero gives 0 here where the source gets an IEEE infinity or NaN. */
  function Mean(sd: Side, j: nat): real
    requires |sd.sums| == 4 && j < 4
  {
    Div(sd.sums[j], sd.length)
  }

  /** When every plate of a side carries the same value v in column c, the weighted sum is v times the length. */
  lemma {:induction false} TotalOfUniform(s: seq<Share>, c: nat, v: real)
    requires forall i :: 0 <= i < |s| ==> Flux(s[i], c) == v
    ensures Total(s, c) == v * Length(s)
  {
    if s != [] {
      TotalOfUniform(s[..|s| - 1], c, v);
    }
  }

  /**
   * The side average is a weighted mean: when every plate of a side carries
   * the same flux, the average is that flux, whatever the weights (as long
   * as they do not cancel).
   */
  lemma {:induction false} UniformSideMean(s: seq<Share>, xSide: bool, j: nat, v: real)
    requires j < 4 && Length(s) != 0.0
    requires forall i :: 0 <= i < |s| ==> Flux(s[i], Columns(xSide)[j]) == v
    ensures Mean(SideTotals(s, xSide), j) == v
  {
    UniformSideTotal(s, xSide, j, v);
    MeanOfMultiple(SideTotals(s, xSide), j, v);
  }

  lemma {:induction false} UniformSideTotal(s: seq<Share>, xSide: bool, j: nat, v: real)
    requires j < 4
    requires forall i :: 0 <= i < |s| ==> Flux(s[i], Columns(xSide)[j]) == v
    ensures SideTotals(s, xSide).sums[j] == v * SideTotals(s, xSide).length
  {
    var c := Columns(xSide);
    var sd := SideTotals(s, xSide);
    assert sd.sums[j] == Total(s, c[j]) && sd.length == Length(s) by {
      if j == 0 {} else if j == 1 {} else if j == 2 {} else {}
    }
    TotalOfUniform(s, c[j], v);
  }

  lemma MeanOfMultiple(sd: Side, j: nat, v: real)
    requires |sd.sums| == 4 && j < 4 && sd.length != 0.0 && sd.sums[j] == v * sd.length
    ensures Mean(sd, j) == v
  {
  }

  /** The weighted sum and the length over two runs of plates are the sums over each run. */
  lemma {:induction false} TotalsAppend(a: seq<Share>, b: seq<Share>, c: nat)
    ensures Total(a + b, c) == Total(a, c) + Total(b, c)
    ensures Length(a + b) == Length(a) + Length(b)
  {
    if b != [] {
      assert (a + b)[..|a + b| - 1] == a + b[..|b| - 1];
      TotalsAppend(a, b[..|b| - 1], c);
    } else {
      assert a + b == a;
    }
  }

  /**
   * With side lengths as weights, the side totals depend only on the plates'
   * fluxes and side lengths: renumbering grids or material frames changes
   * nothing.
   */
  lemma RenumberingInvariant(p: seq<Plate>, q: seq<Plate>, xSide: bool)
    requires |p| == |q|
    requires forall i :: 0 <= i < |p| ==> p[i].flux == q[i].flux && p[i].sideX == q[i].sideX && p[i].sideY == q[i].sideY
    ensures SideTotals(Shares(p, xSide), xSide) == SideTotals(Shares(q, xSide), xSide)
  {
    assert Shares(p, xSide) == Shares(q, xSide);
  }

  /** Two plates of side 1 with equal side lengths but material frames 1 and 3. */
  function SideOneExample(): seq<Plate>
  {
    [Plate([0.0, 10.0, 0.0, 0.0, 0.0, 0.0], 0, 1, 1.0, 1.0),
     Plate([0.0, 30.0, 0.0, 0.0, 0.0, 0.0], 0, 3, 1.0, 1.0)]
  }

  /**
   * As written the Fyy average of the example is weighted by the MCIDs,
   * (10 * 1 + 30 * 3) / 4 = 25, where the mean over the side's length is
   * 20; relabelling the frames changes the result.
   */
  lemma SideWeightAsWrittenCounterexample()
    ensures Mean(SideTotals(SharesAsWritten(SideOneExample(), false), false), 0) == 25.0
    ensures Mean(SideTotals(Shares(SideOneExample(), false), false), 0) == 20.0
  {
    var p := SideOneExample();
    var w, s := SharesAsWritten(p, false), Shares(p, false);
    assert w == [Share(p[0].flux, 1.0), Share(p[1].flux, 3.0)];
    assert s == [Share(p[0].flux, 1.0), Share(p[1].flux, 1.0)];
    assert w[..1] == [w[0]] && [w[0]][..0] == [];
    assert s[..1] == [s[0]] && [s[0]][..0] == [];
    assert Total(w[..1], 1) == 10.0 && Length(w[..1]) == 1.0;
    assert Total(w, 1) == 100.0 && Length(w) == 4.0;
    assert Total(s[..1], 1) == 10.0 && Length(s[..1]) == 1.0;
    assert Total(s, 1) == 40.0 && Length(s) == 2.0;
  }

  /** The accumulation loop of one side: its four sums and its length, plate by plate. */
  method AccumulateSide(s: seq<Share>, xSide: bool) returns (r: Side)
    ensures r == SideTotals(s, xSide)
  {
    var c := Columns(xSide);
    var d0, d1, d2, d3, length := 0.0, 0.0, 0.0, 0.0, 0.0;
    for i := 0 to |s|
      invariant d0 == Total(s[..i], c[0]) && d1 == Total(s[..i], c[1])
      invariant d2 == Total(s[..i], c[2]) && d3 == Total(s[..i], c[3])
      invariant length == Length(s[..i])
    {
      assert s[..i + 1][..i] == s[..i];
      var w := s[i].weight;
      d0 := d0 + Flux(s[i], c[0]) * w;
      d1 := d1 + Flux(s[i], c[1]) * w;
      d2 := d2 + Flux(s[i], c[2]) * w;
      d3 := d3 + Flux(s[i], c[3]) * w;
      length := length + w;
    }
    assert s[..|s|] == s;
    r := Side([d0, d1, d2, d3], length);
  }

  /**
   * The opposite-side rule: of the averages of two opposite sides, the one of
   * smaller magnitude, the second on a tie.
   */
  function Opposite(a: real, la: real, b: real, lb: real): (r: real)
    ensures r == Div(a, la) || r == Div(b, lb)
    ensures Abs(r) <= Abs(Div(a, la)) && Abs(r) <= Abs(Div(b, lb))
    ensures Abs(Div(a, la)) == Abs(Div(b, lb)) ==> r == Div(b, lb)
  {
    if Abs(Div(a, la)) < Abs(Div(b, lb)) then Div(a, la) else Div(b, lb)
  }

  /** The rule as written for Fxx and Mxx: the fallback divides the second side's sum by the first side's length. */
  function OppositeAsWritten(a: real, la: real, b: real, lb: real): real
  {
    if Abs(Div(a, la)) < Abs(Div(b, lb)) then Div(a, la) else Div(b, la)
  }

  /** Side 2 with sum 10 over length 1 and side 4 with sum 2 over length 2: as written Fxx is 2, not the side-4 average 1. */
  lemma OppositeAsWrittenCounterexample()
    ensures OppositeAsWritten(10.0, 1.0, 2.0, 2.0) == 2.0
    ensures Opposite(10.0, 1.0, 2.0, 2.0) == 1.0
    ensures Abs(OppositeAsWritten(10.0, 1.0, 2.0, 2.0)) > Abs(Div(2.0, 2.0))
  {
  }

  /** As written and as intended agree whenever the two opposite sides have the same length. */
  lemma OppositeAsWrittenEqualLengths(a: real, b: real, l: real)
    ensures OppositeAsWritten(a, l, b, l) == Opposite(a, l, b, l)
  {
  }

  /**
   * The four-way rule for Fxy and Mxy: the value of smallest magnitude; on a
   * tie, the first in the order of sides 1, 2, 3, 4.
   */
  function Smallest(s1: real, s2: real, s3: real, s4: real): (r: real)
    ensures r == s1 || r == s2 || r == s3 || r == s4
    ensures Abs(r) <= Abs(s1) && Abs(r) <= Abs(s2) && Abs(r) <= Abs(s3) && Abs(r) <= Abs(s4)
    ensures Abs(s1) == Abs(r) ==> r == s1
    ensures Abs(s2) == Abs(r) && Abs(s1) > Abs(r) ==> r == s2
    ensures Abs(s3) == Abs(r) && Abs(s1) > Abs(r) && Abs(s2) > Abs(r) ==> r == s3
    ensures r != s1 && r != s2 && r != s3 ==> Abs(s1) > Abs(r) && Abs(s2) > Abs(r) && Abs(s3) > Abs(r)
  {
    var m := Min(Min(Abs(s1), Abs(s2)), Min(Abs(s3), Abs(s4)));
    if Abs(s1) == m then s1 else if Abs(s2) == m then s2 else if Abs(s3) == m then s3 else s4
  }

  /** The angle below which a fastener end counts as aligned with the CBUSH axis: 90 degrees in radians. */
  const RightAngle: real := 1.570796

  /** `CBUSH1[0]`, `CBUSH2[0]`: node A is aligned when the angle is under 90 degrees. */
  predicate Aligned(angle: real)
  {
    angle < RightAngle
  }

  /**
   * `CBUSH1[1]`: this CBUSH's load is reversed on node A's side when it is
   * aligned and on node B's side when it is not; never for any other side
   * number.
   */
  function ReverseThis(aligned: bool, side: int): (r: bool)
    ensures r <==> (side == 0 && aligned) || (side == 1 && !aligned)
  {
    if aligned then side == 0 else side == 1
  }

  /**
   * `CBUSH2[1]`: the paired CBUSH's load is reversed when its alignment
   * agrees with whether its node A is this side's fastener node.
   */
  function ReverseOther(aligned: bool, sharesNodeA: bool): (r: bool)
    ensures r <==> (aligned == sharesNodeA)
  {
    if sharesNodeA then aligned else !aligned
  }

  /** For either alignment exactly one of the two fastener nodes sees this CBUSH's load reversed. */
  lemma OneSideReversed(aligned: bool)
    ensures ReverseThis(aligned, 0) != ReverseThis(aligned, 1)
  {
  }

  /** The axis-code digit that names the fastener axis: x for 12 and 13, y for 21 and 23, z otherwise. */
  function Axial(axis: int): (n: nat)
    ensures n < 3
    ensures n == 0 <==> axis == 12 || axis == 13
    ensures n == 1 <==> axis == 21 || axis == 23
  {
    if axis == 12 || axis == 13 then 0 else if axis == 21 || axis == 23 then 1 else 2
  }

  /** `get_alignment_vector`: the CBUSH axis the plate fluxes are aligned with: x for 21 and 31, y for 12 and 32, z otherwise. */
  function AlignmentAxis(axis: int): (n: nat)
    ensures n < 3
    ensures n == 0 <==> axis == 21 || axis == 31
    ensures n == 1 <==> axis == 12 || axis == 32
  {
    if axis == 21 || axis == 31 then 0 else if axis == 12 || axis == 32 then 1 else 2
  }

  /** The six axis codes a filled hole is set up with. */
  predicate AxisCode(axis: int)
  {
    axis == 12 || axis == 13 || axis == 21 || axis == 23 || axis == 31 || axis == 32
  }

  /**
   * The two shear components, in the order of the fixed table: (y, z) for
   * 12, (z, y) for 13, (x, z) for 21, (z, x) for 23, (x, y) for 31 and
   * (y, x) otherwise.
   */
  function ShearAxes(axis: int): (r: (nat, nat))
    ensures r.0 < 3 && r.1 < 3 && r.0 != r.1
    ensures AxisCode(axis) ==> r.0 != Axial(axis) && r.1 != Axial(axis)
    ensures AxisCode(axis) ==> r.0 == AlignmentAxis(axis)
  {
    if axis == 12 then (1, 2)
    else if axis == 13 then (2, 1)
    else if axis == 21 then (0, 2)
    else if axis == 23 then (2, 0)
    else if axis == 31 then (0, 1)
    else (1, 0)
  }

  /** The two shears of a fastener load. */
  function Shears(load: C.Point, axis: int): (r: (real, real))
    ensures r == (C.Index(load, ShearAxes(axis).0), C.Index(load, ShearAxes(axis).1))
  {
    var (i, j) := ShearAxes(axis);
    (C.Index(load, i), C.Index(load, j))
  }

  /** A fastener pulls through the plate when its axial load is tensile for its alignment. */
  predicate Tension(aligned: bool, axial: real)
  {
    (aligned && axial > 0.0) || (!aligned && axial < 0.0)
  }

  /**
   * The pull-through load: never negative, zero whenever a paired CBUSH
   * exists, and otherwise the magnitude of the axial component of this
   * CBUSH's own force when the fastener is in tension and zero when not.
   */
  function PullThrough(paired: bool, aligned: bool, force: C.Point, axis: int): (p: real)
    ensures p >= 0.0
    ensures paired ==> p == 0.0
    ensures !paired ==> (p > 0.0 <==> Tension(aligned, C.Index(force, Axial(axis))))
    ensures p > 0.0 ==> p == Abs(C.Index(force, Axial(axis)))
  {
    var axial := C.Index(force, Axial(axis));
    if !paired && Tension(aligned, axial) then Abs(axial) else 0.0
  }

  /** The negated point `p * -1.0`. */
  function Negated(p: C.Point): C.Point
  {
    C.Scale(p, -1.0)
  }

  /** Flipping the alignment and the sign of the force leaves the pull-through load unchanged. */
  lemma PullThroughFlipped(paired: bool, aligned: bool, force: C.Point, axis: int)
    ensures PullThrough(paired, !aligned, Negated(force), axis) == PullThrough(paired, aligned, force, axis)
  {
    C.IndexComponents(force, Axial(axis));
    C.IndexComponents(Negated(force), Axial(axis));
  }

  /** A force reversed when the flag says so. */
  function Signed(reverse: bool, f: C.Point): C.Point
  {
    if reverse then Negated(f) else f
  }

  /** The force taken into the projected material frame when one was built (`CBUSH_as_is` false). */
  function Into(mat: Option<T.Matrix>, f: C.Point): C.Point
  {
    if mat.Some? then T.Apply(mat.value, f) else f
  }

  /**
   * The paired CBUSH's contribution: its force, reversed per `CBUSH2[1]`,
   * taken into this CBUSH's frame and then into the material frame.
   */
  function OtherLoad(force: C.Point, reverse: bool, toThis: T.Matrix, mat: Option<T.Matrix>): C.Point
  {
    Into(mat, T.Apply(toThis, Signed(reverse, force)))
  }

  /**
   * The fastener load on this side: this CBUSH's force, reversed per
   * `CBUSH1[1]` and taken into the material frame, plus the paired CBUSH's
   * contribution (none when unpaired).
   */
  function Load(force: C.Point, reverse: bool, other: Option<C.Point>, mat: Option<T.Matrix>): C.Point
  {
    C.Add(Into(mat, Signed(reverse, force)), if other.Some? then other.value else C.Origin)
  }

  lemma ApplyNegated(m: T.Matrix, p: C.Point)
    ensures T.Apply(m, Negated(p)) == Negated(T.Apply(m, p))
  {
  }

  /**
   * Reversing both CBUSHes reverses the fastener load, so both shears change
   * sign: the frames are linear and the sum commutes with negation.
   */
  lemma LoadReversed(f1: C.Point, r1: bool, f2: C.Point, r2: bool, toThis: T.Matrix, mat: Option<T.Matrix>)
    ensures Load(f1, !r1, Some(OtherLoad(f2, !r2, toThis, mat)), mat)
         == Negated(Load(f1, r1, Some(OtherLoad(f2, r2, toThis, mat)), mat))
  {
    ApplyNegated(toThis, f2);
    ApplyNegated(toThis, Negated(f2));
    if mat.Some? {
      ApplyNegated(mat.value, f1);
      ApplyNegated(mat.value, Negated(f1));
      ApplyNegated(mat.value, T.Apply(toThis, f2));
      ApplyNegated(mat.value, T.Apply(toThis, Negated(f2)));
    }
  }

  /** An unpaired fastener's load as is, unreversed, has this CBUSH's own shear components. */
  lemma UnpairedShears(f: C.Point, axis: int)
    ensures Shears(Load(f, false, None, None), axis) == Shears(f, axis)
  {
    assert Load(f, false, None, None) == f;
  }

  /** The record of one subcase: Fxx, Fyy, Fxy, Mxx, Myy, Mxy, the two shears and the pull-through load. */
  datatype Record = Record(fxx: real, fyy: real, fxy: real, mxx: real, myy: real, mxy: real,
                           shear1: real, shear2: real, pull: real)

  /** The record as the nine values `get_FH_Result` returns. */
  function Values(r: Record): (v: seq<real>)
    ensures |v| == 9 && v[0] == r.fxx && v[5] == r.mxy && v[6] == r.shear1 && v[7] == r.shear2 && v[8] == r.pull
  {
    [r.fxx, r.fyy, r.fxy, r.mxx, r.myy, r.mxy, r.shear1, r.shear2, r.pull]
  }

  /** The record of a subcase without results. */
  const Zero := Record(0.0, 0.0, 0.0, 0.0, 0.0, 0.0, 0.0, 0.0, 0.0)

  /** The four sides of a ring, accumulated. */
  datatype Ring = Ring(s1: Side, s2: Side, s3: Side, s4: Side)

  predicate WellFormed(r: Ring)
  {
    |r.s1.sums| == 4 && |r.s2.sums| == 4 && |r.s3.sums| == 4 && |r.s4.sums| == 4
  }

  /** The ring of a subcase from the plates of its four sides. */
  function RingOf(p1: seq<Plate>, p2: seq<Plate>, p3: seq<Plate>, p4: seq<Plate>): (r: Ring)
    ensures WellFormed(r)
  {
    Ring(SideTotals(Shares(p1, false), false), SideTotals(Shares(p2, true), true),
         SideTotals(Shares(p3, false), false), SideTotals(Shares(p4, true), true))
  }

  /** The ring as the source accumulates it, weighted by `operator[]`. */
  function RingAsWritten(p1: seq<Plate>, p2: seq<Plate>, p3: seq<Plate>, p4: seq<Plate>): (r: Ring)
    ensures WellFormed(r)
  {
    Ring(SideTotals(SharesAsWritten(p1, false), false), SideTotals(SharesAsWritten(p2, true), true),
         SideTotals(SharesAsWritten(p3, false), false), SideTotals(SharesAsWritten(p4, true), true))
  }

  /** The side-average selection for column j across a pair of opposite sides. */
  function Pick(a: Side, b: Side, j: nat): real
    requires |a.sums| == 4 && |b.sums| == 4 && j < 4
  {
    Opposite(a.sums[j], a.length, b.sums[j], b.length)
  }

  /** The same selection with the fallback as written. */
  function PickAsWritten(a: Side, b: Side, j: nat): real
    requires |a.sums| == 4 && |b.sums| == 4 && j < 4
  {
    OppositeAsWritten(a.sums[j], a.length, b.sums[j], b.length)
  }

  /** The four-way selection for column j. */
  function PickOfFour(r: Ring, j: nat): real
    requires WellFormed(r) && j < 4
  {
    Smallest(Mean(r.s1, j), Mean(r.s2, j), Mean(r.s3, j), Mean(r.s4, j))
  }

  /** The record as intended: every opposite-side choice divides by the chosen side's own length. */
  function Reduce(r: Ring, load: C.Point, pull: real, axis: int): Record
    requires WellFormed(r)
  {
    var sh := Shears(load, axis);
    Record(Pick(r.s2, r.s4, 0), Pick(r.s1, r.s3, 0), PickOfFour(r, 1),
           Pick(r.s2, r.s4, 2), Pick(r.s1, r.s3, 2), PickOfFour(r, 3),
           sh.0, sh.1, pull)
  }

  /** The record as written: Fxx and Mxx fall back on side 4's sum over side 2's length. */
  function ReduceAsWritten(r: Ring, load: C.Point, pull: real, axis: int): Record
    requires WellFormed(r)
  {
    var sh := Shears(load, axis);
    Record(PickAsWritten(r.s2, r.s4, 0), Pick(r.s1, r.s3, 0), PickOfFour(r, 1),
           PickAsWritten(r.s2, r.s4, 2), Pick(r.s1, r.s3, 2), PickOfFour(r, 3),
           sh.0, sh.1, pull)
  }

  /**
   * What the record means: each normal flux and moment is the smaller-magnitude
   * average of its two opposite sides, each shear flux and twist the
   * smallest-magnitude average of all four, the shears are the two
   * non-axial components of the fastener load, in table order, and the
   * pull-through load is passed through.
   */
  lemma ReduceSelects(r: Ring, load: C.Point, pull: real, axis: int)
    requires WellFormed(r) && AxisCode(axis)
    ensures var rec := Reduce(r, load, pull, axis);
      (rec.fxx == Mean(r.s2, 0) || rec.fxx == Mean(r.s4, 0))
      && Abs(rec.fxx) <= Abs(Mean(r.s2, 0)) && Abs(rec.fxx) <= Abs(Mean(r.s4, 0))
      && (rec.mxx == Mean(r.s2, 2) || rec.mxx == Mean(r.s4, 2))
      && Abs(rec.mxx) <= Abs(Mean(r.s2, 2)) && Abs(rec.mxx) <= Abs(Mean(r.s4, 2))
      && (rec.fyy == Mean(r.s1, 0) || rec.fyy == Mean(r.s3, 0))
      && Abs(rec.fyy) <= Abs(Mean(r.s1, 0)) && Abs(rec.fyy) <= Abs(Mean(r.s3, 0))
      && (rec.myy == Mean(r.s1, 2) || rec.myy == Mean(r.s3, 2))
      && Abs(rec.myy) <= Abs(Mean(r.s1, 2)) && Abs(rec.myy) <= Abs(Mean(r.s3, 2))
      && Abs(rec.fxy) <= Abs(Mean(r.s1, 1)) && Abs(rec.fxy) <= Abs(Mean(r.s4, 1))
      && Abs(rec.mxy) <= Abs(Mean(r.s2, 3)) && Abs(rec.mxy) <= Abs(Mean(r.s3, 3))
      && rec.shear1 == C.Index(load, AlignmentAxis(axis))
      && ShearAxes(axis).1 != Axial(axis) && rec.shear2 == C.Index(load, ShearAxes(axis).1)
      && rec.pull == pull
  {
  }

  /**
   * As written and as intended agree whenever the x-sides have equal lengths,
   * and the counterexample ring (side 2 sum 10 over 1, side 4 sum 2 over 2)
   * tells them apart.
   */
  lemma ReduceAsWrittenAgrees(r: Ring, load: C.Point, pull: real, axis: int)
    requires WellFormed(r) && r.s2.length == r.s4.length
    ensures ReduceAsWritten(r, load, pull, axis) == Reduce(r, load, pull, axis)
  {
    OppositeAsWrittenEqualLengths(r.s2.sums[0], r.s4.sums[0], r.s2.length);
    OppositeAsWrittenEqualLengths(r.s2.sums[2], r.s4.sums[2], r.s2.length);
  }

  /** The per-subcase inputs: the four sides' plates and the node forces of this CBUSH and of its pair. */
  datatype Case = Case(subcase: int, p1: seq<Plate>, p2: seq<Plate>, p3: seq<Plate>, p4: seq<Plate>,
                       force: C.Point, otherForce: Option<C.Point>)

  /** The orientation facts fixed before the subcase loop. */
  datatype Setup = Setup(aligned: bool, reverse: bool, otherReverse: bool, toThis: T.Matrix,
                         mat: Option<T.Matrix>, axis: int)

  /** The setup `generate_FH_Result` derives from the two alignment angles, the side number and the shared-node test. */
  function SetupOf(angle: real, otherAngle: real, side: int, sharesNodeA: bool, toThis: T.Matrix,
                   mat: Option<T.Matrix>, axis: int): (s: Setup)
    ensures s.aligned == Aligned(angle)
    ensures s.reverse <==> (side == 0 && Aligned(angle)) || (side == 1 && !Aligned(angle))
    ensures s.otherReverse <==> (Aligned(otherAngle) == sharesNodeA)
  {
    Setup(Aligned(angle), ReverseThis(Aligned(angle), side), ReverseOther(Aligned(otherAngle), sharesNodeA),
          toThis, mat, axis)
  }

  /** The fastener load of a subcase. */
  function CaseLoad(c: Case, s: Setup): C.Point
  {
    var other := if c.otherForce.Some? then Some(OtherLoad(c.otherForce.value, s.otherReverse, s.toThis, s.mat)) else None;
    Load(c.force, s.reverse, other, s.mat)
  }

  /** The record of a subcase, as intended. */
  function CaseRecord(c: Case, s: Setup): Record
  {
    Reduce(RingOf(c.p1, c.p2, c.p3, c.p4), CaseLoad(c, s),
           PullThrough(c.otherForce.Some?, s.aligned, c.force, s.axis), s.axis)
  }

  /** The record of a subcase, as written. */
  function CaseRecordAsWritten(c: Case, s: Setup): Record
  {
    ReduceAsWritten(RingAsWritten(c.p1, c.p2, c.p3, c.p4), CaseLoad(c, s),
                    PullThrough(c.otherForce.Some?, s.aligned, c.force, s.axis), s.axis)
  }

  /** A paired fastener never reports a pull-through load; an unpaired one reports it exactly in tension. */
  lemma CaseRecordPull(c: Case, s: Setup)
    ensures c.otherForce.Some? ==> CaseRecord(c, s).pull == 0.0
    ensures c.otherForce.None? ==> (CaseRecord(c, s).pull > 0.0 <==> Tension(s.aligned, C.Index(c.force, Axial(s.axis))))
  {
  }

  /** The result map after the subcase loop over `cases`, first to last. */
  function InsertAll(m: map<int, Record>, cases: seq<Case>, s: Setup): map<int, Record>
  {
    if cases == [] then m
    else var last := cases[|cases| - 1];
      MapInsert(InsertAll(m, cases[..|cases| - 1], s), last.subcase, CaseRecord(last, s))
  }

  /** One more case of the loop. */
  lemma InsertAllStep(m: map<int, Record>, cases: seq<Case>, i: nat, s: Setup)
    requires i < |cases|
    ensures InsertAll(m, cases[..i + 1], s) == MapInsert(InsertAll(m, cases[..i], s), cases[i].subcase, CaseRecord(cases[i], s))
  {
    assert cases[..i + 1][..i] == cases[..i];
  }

  /**
   * After the loop every subcase has a record, records already present are
   * kept, and a new subcase holds the record of its first occurrence.
   */
  lemma InsertAllKeeps(m: map<int, Record>, cases: seq<Case>, s: Setup)
    ensures forall j :: j in m ==> j in InsertAll(m, cases, s) && InsertAll(m, cases, s)[j] == m[j]
    ensures forall i :: 0 <= i < |cases| ==> cases[i].subcase in InsertAll(m, cases, s)
    ensures forall k :: k in InsertAll(m, cases, s) ==> k in m || exists i :: 0 <= i < |cases| && cases[i].subcase == k
  {
    InsertAllOld(m, cases, s);
    InsertAllKeys(m, cases, s);
    SubcaseSetMembers(cases);
  }

  /** Records present before the loop are never replaced. */
  lemma {:induction false} InsertAllOld(m: map<int, Record>, cases: seq<Case>, s: Setup)
    ensures forall j :: j in m ==> j in InsertAll(m, cases, s) && InsertAll(m, cases, s)[j] == m[j]
  {
    if cases != [] {
      InsertAllOld(m, cases[..|cases| - 1], s);
    }
  }

  /** The subcases the loop meets. */
  function SubcaseSet(cases: seq<Case>): set<int>
  {
    if cases == [] then {} else SubcaseSet(cases[..|cases| - 1]) + {cases[|cases| - 1].subcase}
  }

  /** A subcase is met exactly when some case names it. */
  lemma {:induction false} SubcaseSetMembers(cases: seq<Case>)
    ensures forall i :: 0 <= i < |cases| ==> cases[i].subcase in SubcaseSet(cases)
    ensures forall k :: k in SubcaseSet(cases) ==> exists i :: 0 <= i < |cases| && cases[i].subcase == k
  {
    if cases != [] {
      var init := cases[..|cases| - 1];
      SubcaseSetMembers(init);
      forall i | 0 <= i < |init| ensures cases[i].subcase in SubcaseSet(cases) {
        assert init[i] == cases[i];
      }
      forall k | k in SubcaseSet(init) ensures exists i :: 0 <= i < |cases| && cases[i].subcase == k {
        var i :| 0 <= i < |init| && init[i].subcase == k;
        assert cases[i] == init[i];
      }
    }
  }

  /** The subcases with a record after the loop: those before it and those the loop meets. */
  lemma {:induction false} InsertAllKeys(m: map<int, Record>, cases: seq<Case>, s: Setup)
    ensures InsertAll(m, cases, s).Keys == m.Keys + SubcaseSet(cases)
  {
    if cases != [] {
      InsertAllKeys(m, cases[..|cases| - 1], s);
    }
  }

  /** `get_FH_Result`: the stored record, or nine zeros. */
  function Lookup(m: map<int, Record>, sub: int): (v: seq<real>)
    ensures |v| == 9
    ensures sub !in m ==> forall i :: 0 <= i < 9 ==> v[i] == 0.0
    ensures sub in m ==> v == Values(m[sub])
  {
    if sub in m then Values(m[sub]) else Values(Zero)
  }
}
