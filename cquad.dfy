/**
 * The CQUAD4 plate element: four corner nodes, a property, a material
 * orientation (an angle or a material frame), a centroid in BASIC, and the
 * force results read from the punch file, per subcase, as Cauchy tensors
 * that `getForceResult` rotates in place.
 */
module Cquads {
  import opened Runtime
  import opened Text
  import C = Coordinates
  import F = Frames
  import G = Grids
  import Cauchy

  /** The card data of a CQUAD. `mcid` stays 0 unless field 6 names a material frame. */
  datatype CquadCard = CquadCard(id: int, pid: int, corners: seq<int>, mcidFlag: bool, mcid: int,
                                 theta: real, zOffset: real)

  /** Short format reads the first line only (8-wide fields); long format every line (16-wide fields). */
  function CquadFields(lines: seq<string>, long: bool): seq<string>
    requires long || |lines| >= 1
  {
    if long then CardFields(lines, 16, 16) else ColumnFields(lines[0], 8, 8, 8)
  }

  /** The card has the eight fields the parser indexes. */
  predicate ParsableCquad(lines: seq<string>, long: bool)
  {
    (long || |lines| >= 1) && |CquadFields(lines, long)| >= 8
  }

  /**
   * `CQUAD::parseBDFData` on a split card: EID, PID and the four corners from
   * fields 0-5 (unchecked), the orientation from field 6, the offset from
   * field 7.
   */
  function ParseCquadFields(lc: Libc, f: seq<string>): CquadCard
    requires |f| >= 8
  {
    var s := CheckExp(f[6]);
    var frame := s != "" && !CheckReal(s);
    CquadCard(lc.atol(f[0]), lc.atol(f[1]), [lc.atol(f[2]), lc.atol(f[3]), lc.atol(f[4]), lc.atol(f[5])],
              frame, if frame then lc.atol(s) else 0,
              if s != "" && CheckReal(s) then lc.atof(s) else 0.0,
              lc.atof(CheckExp(f[7])))
  }

  function ParseCquad(lc: Libc, lines: seq<string>, long: bool): CquadCard
    requires ParsableCquad(lines, long)
  {
    ParseCquadFields(lc, CquadFields(lines, long))
  }

  /**
   * Field 6 is read three ways: blank means theta 0 and no material frame,
   * a real is the angle theta, anything else is the ID of a material frame
   * (and leaves theta 0).
   */
  lemma ParseCquadOrientation(lc: Libc, f: seq<string>)
    requires |f| >= 8
    ensures var q, s := ParseCquadFields(lc, f), CheckExp(f[6]);
      (IsBlank(f[6]) ==> !q.mcidFlag && q.theta == 0.0 && q.mcid == 0)
      && (!IsBlank(f[6]) && CheckReal(s) ==> !q.mcidFlag && q.theta == lc.atof(s))
      && (!IsBlank(f[6]) && !CheckReal(s) ==> q.mcidFlag && q.mcid == lc.atol(s) && q.theta == 0.0)
      && |q.corners| == 4 && q.zOffset == lc.atof(CheckExp(f[7]))
  {
    CheckExpBlank(f[6]);
  }

  /** Short format: columns 8-71 of the first line; continuation lines are never read. */
  lemma ParseCquadShortFirstLine(lc: Libc, lines: seq<string>)
    requires |lines| >= 1 && |lines[0]| >= 80
    ensures ParsableCquad(lines, false) && ParsableCquad(lines[..1], false)
    ensures ParseCquad(lc, lines, false) == ParseCquad(lc, lines[..1], false)
    ensures var q := ParseCquad(lc, lines, false);
      q.id == lc.atol(lines[0][8..16]) && q.pid == lc.atol(lines[0][16..24])
      && q.corners == [lc.atol(lines[0][24..32]), lc.atol(lines[0][32..40]), lc.atol(lines[0][40..48]), lc.atol(lines[0][48..56])]
  {
    SmallFieldLayout(lines[0]);
  }

  /** The stored tensor of one subcase and whether it was read in the material frame. */
  datatype Stored = Stored(slots: seq<real>, inMat: bool)

  /** Field k of a result entry as a real. */
  function PunchValue(lc: Libc, f: seq<string>, k: nat): real
    requires k < |f|
  {
    lc.atof(CheckExp(f[k]))
  }

  /**
   * The rotation `getForceResult` applies to a stored tensor, or `None` when
   * it returns the raw components: the requested frame is the material frame
   * (`inMat`), the element frame (`rot == None`) or the direction at angle
   * `a` from the element x-axis (`rot == Some(a)`).
   */
  function Rotation(stored: bool, inMat: bool, rot: Option<real>, matAngle: real): Option<real>
  {
    if inMat then (if stored then None else Some(matAngle))
    else match rot
      case None => if !stored then None else Some(0.0 - matAngle)
      case Some(a) => Some(if stored then a - matAngle else a)
  }

  /** The stored entry after the request: rotated in place, or left alone. */
  function Apply(lc: Libc, e: Stored, angle: Option<real>): Stored
    requires |e.slots| == 7
  {
    match angle
    case None => e
    case Some(a) => e.(slots := Cauchy.RotateSlots(lc, e.slots, a))
  }

  /** What the request reads back: slots 0-2 when nothing was rotated, slots 4-6 otherwise. */
  function Read(e: Stored, angle: Option<real>): seq<real>
    requires |e.slots| == 7
  {
    if angle.None? then e.slots[..3] else e.slots[4..7]
  }

  /** All stored tensors have their seven slots. */
  predicate WellFormed(m: map<int, Stored>)
  {
    forall k :: k in m ==> |m[k].slots| == 7
  }

  /** Keeping an entry of seven slots keeps every tensor at seven slots. */
  lemma KeepWellFormed(m: map<int, Stored>, k: int, v: Stored)
    requires WellFormed(m) && |v.slots| == 7
    ensures WellFormed(MapInsert(m, k, v))
  {
  }

  /** One map's part of the result: three values, or nothing when the subcase is missing. */
  function Part(lc: Libc, m: map<int, Stored>, sub: int, inMat: bool, rot: Option<real>, matAngle: real): (r: seq<real>)
    requires WellFormed(m)
    ensures |r| == if sub in m then 3 else 0
  {
    if sub !in m then []
    else var angle := Rotation(m[sub].inMat, inMat, rot, matAngle);
      Read(Apply(lc, m[sub], angle), angle)
  }

  /** One map after the request: the subcase's tensor rotated in place when a rotation applies. */
  function After(lc: Libc, m: map<int, Stored>, sub: int, inMat: bool, rot: Option<real>, matAngle: real): (r: map<int, Stored>)
    requires WellFormed(m)
    ensures WellFormed(r) && r.Keys == m.Keys
  {
    if sub !in m then m
    else m[sub := Apply(lc, m[sub], Rotation(m[sub].inMat, inMat, rot, matAngle))]
  }

  /** The `while (size < 6) push_back(0.0)` at the end of `getForceResult`. */
  function PadSix(v: seq<real>): (r: seq<real>)
    ensures |v| <= 6 ==> |r| == 6
    decreases 6 - |v|
  {
    if |v| >= 6 then v else PadSix(v + [0.0])
  }

  /** The result of `getForceResult`: the force part, then the moment part, padded to six values. */
  function ForceResult(lc: Libc, n: map<int, Stored>, m: map<int, Stored>, sub: int, inMat: bool, rot: Option<real>,
                       matAngle: real): seq<real>
    requires WellFormed(n) && WellFormed(m)
  {
    PadSix(Part(lc, n, sub, inMat, rot, matAngle) + Part(lc, m, sub, inMat, rot, matAngle))
  }

  /** The material angle `getForceResult` computes once: from the material frame when one is named, else theta. */
  function MaterialAngle(card: CquadCard, frames: map<int, F.Frame>, measured: real): real
  {
    if card.mcidFlag then (if card.mcid in frames then measured else 0.0) else card.theta
  }

  lemma {:induction false} PadSixAppends(v: seq<real>)
    requires |v| <= 6
    ensures PadSix(v) == v + seq(6 - |v|, _ => 0.0)
    decreases 6 - |v|
  {
    if |v| < 6 {
      PadSixAppends(v + [0.0]);
      assert v + [0.0] + seq(6 - |v| - 1, _ => 0.0) == v + seq(6 - |v|, _ => 0.0);
    }
  }

  /**
   * The result has six values: forces then moments when both are stored,
   * zeros in place of a missing part at the end, and the moments moved up to
   * slots 0-2 when only the forces are missing.
   */
  lemma ForceResultLayout(lc: Libc, n: map<int, Stored>, m: map<int, Stored>, sub: int, inMat: bool, rot: Option<real>, matAngle: real)
    requires WellFormed(n) && WellFormed(m)
    ensures var r, pn, pm := ForceResult(lc, n, m, sub, inMat, rot, matAngle),
                             Part(lc, n, sub, inMat, rot, matAngle), Part(lc, m, sub, inMat, rot, matAngle);
      |r| == 6
      && (sub in n && sub in m ==> r == pn + pm)
      && (sub in n && sub !in m ==> r == pn + [0.0, 0.0, 0.0])
      && (sub !in n && sub in m ==> r == pm + [0.0, 0.0, 0.0])
      && (sub !in n && sub !in m ==> r == [0.0, 0.0, 0.0, 0.0, 0.0, 0.0])
  {
    var pn, pm := Part(lc, n, sub, inMat, rot, matAngle), Part(lc, m, sub, inMat, rot, matAngle);
    PadSixAppends(pn + pm);
    if sub in n && sub !in m {
      assert pn + pm == pn;
    }
    if sub !in n {
      assert pn + pm == pm;
    }
  }

  /**
   * A tensor stored in the requested frame comes back raw and stays as it
   * was; any other comes back as its raw components rotated by the request's
   * angle, whatever earlier requests rotated it to.
   */
  lemma PartReadsRaw(lc: Libc, m: map<int, Stored>, sub: int, inMat: bool, rot: Option<real>, matAngle: real)
    requires WellFormed(m) && sub in m
    ensures var e, angle := m[sub], Rotation(m[sub].inMat, inMat, rot, matAngle);
      Part(lc, m, sub, inMat, rot, matAngle)
        == (if angle.None? then e.slots[..3] else Cauchy.Rotated(lc, e.slots[0], e.slots[1], e.slots[2], angle.value))
      && (angle.None? ==> After(lc, m, sub, inMat, rot, matAngle) == m)
      && ((inMat && e.inMat) || (!inMat && rot.None? && !e.inMat) <==> angle.None?)
  {
    var e, angle := m[sub], Rotation(m[sub].inMat, inMat, rot, matAngle);
    if angle.Some? {
      var r := Cauchy.RotateSlots(lc, e.slots, angle.value);
      assert r[4..7] == Cauchy.Rotated(lc, e.slots[0], e.slots[1], e.slots[2], angle.value);
    }
  }

  /**
   * Requests are repeatable: asking again for the same subcase in the same
   * frame, after the first request's in-place rotation, gives the same values
   * and leaves the maps as the first request left them.
   */
  lemma ForceResultRepeatable(lc: Libc, n: map<int, Stored>, m: map<int, Stored>, sub: int, inMat: bool, rot: Option<real>, matAngle: real)
    requires WellFormed(n) && WellFormed(m)
    ensures var n', m' := After(lc, n, sub, inMat, rot, matAngle), After(lc, m, sub, inMat, rot, matAngle);
      ForceResult(lc, n', m', sub, inMat, rot, matAngle) == ForceResult(lc, n, m, sub, inMat, rot, matAngle)
      && After(lc, n', sub, inMat, rot, matAngle) == n' && After(lc, m', sub, inMat, rot, matAngle) == m'
  {
    PartRepeatable(lc, n, sub, inMat, rot, matAngle);
    PartRepeatable(lc, m, sub, inMat, rot, matAngle);
  }

  lemma PartRepeatable(lc: Libc, m: map<int, Stored>, sub: int, inMat: bool, rot: Option<real>, matAngle: real)
    requires WellFormed(m)
    ensures var m' := After(lc, m, sub, inMat, rot, matAngle);
      Part(lc, m', sub, inMat, rot, matAngle) == Part(lc, m, sub, inMat, rot, matAngle)
      && After(lc, m', sub, inMat, rot, matAngle) == m'
  {
    if sub in m {
      var angle := Rotation(m[sub].inMat, inMat, rot, matAngle);
      if angle.Some? {
        Cauchy.RotateKeepsRaw(lc, m[sub].slots, angle.value, angle.value);
      }
    }
  }

  class Cquad {
    var id: int
    var pid: int
    var corners: seq<int>
    var mcidFlag: bool
    var mcid: int
    var theta: real
    var zOffset: real
    var composite: bool
    var axesReady: bool
    var matAngle: real
    var centroid: C.Point
    var sideX: real
    var sideY: real
    var nMap: map<int, Stored>
    var mMap: map<int, Stored>
    var vMap: map<int, (seq<real>, bool)>

    ghost predicate Valid()
      reads this
    {
      |corners| == 4 && WellFormed(nMap) && WellFormed(mMap)
    }

    function Card(): CquadCard
      reads this
    {
      CquadCard(id, pid, corners, mcidFlag, mcid, theta, zOffset)
    }

    /**
     * `CQUAD(BDF_Data, LongFormatFlag)`. The flags and the centroid start
     * cleared, as the default constructor intends (the source calls it on a
     * temporary, so in the source they start undefined).
     */
    constructor FromCard(lc: Libc, lines: seq<string>, long: bool)
      requires ParsableCquad(lines, long)
      ensures Valid() && Card() == ParseCquad(lc, lines, long)
      ensures !composite && !axesReady && centroid == C.Origin
      ensures nMap == map[] && mMap == map[] && vMap == map[]
    {
      var q := ParseCquad(lc, lines, long);
      id, pid, corners, mcidFlag, mcid, theta, zOffset := q.id, q.pid, q.corners, q.mcidFlag, q.mcid, q.theta, q.zOffset;
      composite, axesReady, matAngle, centroid, sideX, sideY := false, false, 0.0, C.Origin, 0.0, 0.0;
      nMap, mMap, vMap := map[], map[], map[];
    }

    /** `CQUAD(ElementID)`: only the ID is given; the rest starts at zero here (undefined in the source). */
    constructor (eid: int)
      ensures Valid() && Card() == CquadCard(eid, 0, [0, 0, 0, 0], false, 0, 0.0, 0.0)
      ensures !composite && !axesReady && centroid == C.Origin
      ensures nMap == map[] && mMap == map[] && vMap == map[]
    {
      id, pid, corners, mcidFlag, mcid, theta, zOffset := eid, 0, [0, 0, 0, 0], false, 0, 0.0, 0.0;
      composite, axesReady, matAngle, centroid, sideX, sideY := false, false, 0.0, C.Origin, 0.0, 0.0;
      nMap, mMap, vMap := map[], map[], map[];
    }

    /** `checkMCIDValid`: field 6 named a material frame. */
    function McidValid(): bool
      reads this
    {
      mcidFlag
    }

    /** `is_Composite`. */
    function IsComposite(): bool
      reads this
    {
      composite
    }

    /** `getCentroid`: the centroid itself for BASIC, else carried down the target's frame list, root first. */
    method GetCentroid(frames: map<int, F.Frame>, target: int, fuel: nat) returns (r: F.Outcome<C.Point>)
      ensures r == CentroidIn(frames, centroid, target, fuel)
    {
      if target == 0 {
        return F.Done(centroid);
      }
      var l := F.CollectFrames(frames, target, fuel);
      match l
      case None =>
        return F.Diverges;
      case Some(list) =>
        F.FrameListShape(frames, target, fuel);
        var p := F.ApplyFrames(frames, G.Down, list, centroid);
        return F.Done(p);
    }

    /**
     * `parseComposite`: the element becomes composite when its property is a
     * PCOMP, or a PSHELL whose MID1 names a non-isotropic material; the flag
     * is never cleared.
     */
    method ParseComposite(pcomps: set<int>, shellMid1: map<int, int>, isotropic: map<int, bool>)
      modifies this`composite
      ensures composite == (old(composite) || CompositeProperty(pid, pcomps, shellMid1, isotropic))
      ensures Valid() == old(Valid())
    {
      if pid in pcomps {
        composite := true;
      } else if pid in shellMid1 && shellMid1[pid] in isotropic && !isotropic[shellMid1[pid]] {
        composite := true;
      }
    }

    /**
     * `nodeConnect`: every corner the model has lists the element once in its
     * CQUAD list, and the centroid becomes the sum of the located corners
     * (added to the centroid held so far) divided by four; a missing corner
     * counts as the origin.
     */
    method NodeConnect(grids: map<int, G.Grid>, frames: map<int, F.Frame>, fuel: nat)
      requires Valid() && G.Injective(grids) && G.AllValid(grids)
      modifies this`centroid, set k | k in grids :: grids[k]
      ensures Valid() && G.AllValid(grids)
      ensures centroid == C.Divide(CornerSum(frames, old(G.Cards(grids)), corners, old(centroid), fuel), 4.0)
      ensures forall k, kd :: k in grids ==>
        G.List(grids[k], kd) == if k in corners && kd == G.CQUADs
                                then G.AppendIfAbsent(old(G.List(grids[k], kd)), id) else old(G.List(grids[k], kd))
      ensures forall k :: k in grids ==> grids[k].Card() == old(grids[k].Card())
    {
      G.ConnectAll(grids, corners, id, G.CQUADs);
      assert G.Cards(grids) == old(G.Cards(grids));
      var sum := SumCorners(grids, frames, corners, centroid, fuel);
      centroid := C.Divide(sum, 4.0);
    }

    /**
     * `addForceResult`: fields 0-2 of the entry are the in-plane forces,
     * 3-5 the moments, 6-7 the transverse shears; each map keeps an entry it
     * already has for the subcase.
     */
    method AddForceResult(lc: Libc, lines: seq<string>, sub: int, inMat: bool)
      requires Valid() && |PunchFields(lines)| >= 8
      modifies this`nMap, this`mMap, this`vMap
      ensures Valid()
      ensures var f := PunchFields(lines);
        nMap == MapInsert(old(nMap), sub, Entry(lc, f, 0, inMat))
        && mMap == MapInsert(old(mMap), sub, Entry(lc, f, 3, inMat))
        && vMap == (if sub in old(vMap) then old(vMap) else old(vMap)[sub := (Shears(lc, f), inMat)])
    {
      var f := PunchFields(lines);
      var forces, moments, shears := Entry(lc, f, 0, inMat), Entry(lc, f, 3, inMat), Shears(lc, f);
      KeepWellFormed(nMap, sub, forces);
      KeepWellFormed(mMap, sub, moments);
      nMap := MapInsert(nMap, sub, forces);
      mMap := MapInsert(mMap, sub, moments);
      if sub !in vMap {
        vMap := vMap[sub := (shears, inMat)];
      }
    }

    /**
     * `getForceResult`. The material angle is computed on the first request
     * only (`measured` stands for the angle between the element x-axis and the
     * material frame's x-axis, whose computation is not modelled). The result
     * is `ForceResult` and the stored tensors are rotated in place.
     */
    method GetForceResult(lc: Libc, sub: int, inMat: bool, rot: Option<real>, frames: map<int, F.Frame>, measured: real)
      returns (r: seq<real>)
      requires Valid()
      modifies this`axesReady, this`matAngle, this`nMap, this`mMap
      ensures Valid() && axesReady
      ensures matAngle == if old(axesReady) then old(matAngle) else MaterialAngle(Card(), frames, measured)
      ensures r == ForceResult(lc, old(nMap), old(mMap), sub, inMat, rot, matAngle)
      ensures nMap == After(lc, old(nMap), sub, inMat, rot, matAngle)
      ensures mMap == After(lc, old(mMap), sub, inMat, rot, matAngle)
    {
      if !axesReady {
        matAngle := MaterialAngle(Card(), frames, measured);
        axesReady := true;
      }
      var forces := Part(lc, nMap, sub, inMat, rot, matAngle);
      nMap := After(lc, nMap, sub, inMat, rot, matAngle);
      var moments := Part(lc, mMap, sub, inMat, rot, matAngle);
      mMap := After(lc, mMap, sub, inMat, rot, matAngle);
      var v := forces + moments;
      while |v| < 6
        invariant |v| <= 6
        invariant PadSix(v) == PadSix(forces + moments)
        decreases 6 - |v|
      {
        v := v + [0.0];
      }
      r := v;
    }

    /** `operator[]`: PID, corners 1-4 and MCID at 1-6, the element ID everywhere else. */
    function Index(i: int): (v: int)
      requires Valid()
      reads this
      ensures i == 1 ==> v == pid
      ensures 2 <= i <= 5 ==> v == corners[i - 2]
      ensures i == 6 ==> v == mcid
      ensures (i < 1 || i > 6) ==> v == id
    {
      if i == 1 then pid else if 2 <= i <= 5 then corners[i - 2] else if i == 6 then mcid else id
    }

    /** `operator()`: theta at 1, the centroid at 2-4, the side lengths at 5-6, the offset everywhere else. */
    function Value(i: int): (v: real)
      reads this
      ensures i == 1 ==> v == theta
      ensures 2 <= i <= 4 ==> v == C.Index(centroid, i - 2)
      ensures i == 5 ==> v == sideX
      ensures i == 6 ==> v == sideY
      ensures (i < 1 || i > 6) ==> v == zOffset
    {
      if i == 1 then theta
      else if 2 <= i <= 4 then C.Index(centroid, i - 2)
      else if i == 5 then sideX
      else if i == 6 then sideY
      else zOffset
    }
  }

  /** A tensor entry from fields `first` to `first + 2` of a result entry. */
  function Entry(lc: Libc, f: seq<string>, first: nat, inMat: bool): (e: Stored)
    requires first + 2 < |f|
    ensures |e.slots| == 7
  {
    Stored(Cauchy.SetValuesSlots(PunchValue(lc, f, first), PunchValue(lc, f, first + 1), PunchValue(lc, f, first + 2)), inMat)
  }

  /** The two transverse shears, fields 6 and 7 of a result entry. */
  function Shears(lc: Libc, f: seq<string>): seq<real>
    requires |f| >= 8
  {
    [PunchValue(lc, f, 6), PunchValue(lc, f, 7)]
  }

  /** The centroid loop of `nodeConnect`: locate each corner the model has in BASIC and add it. */
  method SumCorners(grids: map<int, G.Grid>, frames: map<int, F.Frame>, corners: seq<int>, start: C.Point, fuel: nat)
    returns (sum: C.Point)
    ensures sum == CornerSum(frames, G.Cards(grids), corners, start, fuel)
  {
    sum := start;
    for i := 0 to |corners|
      invariant sum == CornerSum(frames, G.Cards(grids), corners[..i], start, fuel)
    {
      assert corners[..i + 1][..i] == corners[..i];
      if corners[i] in grids {
        var p := grids[corners[i]].GetCoordinate(frames, 0, fuel);
        sum := C.Add(sum, PointOf(p));
      }
    }
    assert corners[..|corners|] == corners;
  }

  /** A located corner, or the origin when its frame chain does not end within the fuel. */
  function PointOf(o: F.Outcome<C.Point>): C.Point
  {
    if o.Done? then o.value else C.Origin
  }

  /** The centroid accumulation of `nodeConnect`: each corner the model has, located in BASIC, added in order. */
  function CornerSum(frames: map<int, F.Frame>, cards: map<int, G.GridCard>, corners: seq<int>, start: C.Point, fuel: nat): C.Point
  {
    if corners == [] then start
    else
      var sum, last := CornerSum(frames, cards, corners[..|corners| - 1], start, fuel), corners[|corners| - 1];
      if last in cards then C.Add(sum, PointOf(G.Locate(frames, cards[last], 0, fuel))) else sum
  }

  /** `getCentroid` on a centroid `c`: `c` for BASIC, else `c` carried through the target's frame list, root first. */
  function CentroidIn(frames: map<int, F.Frame>, c: C.Point, target: int, fuel: nat): F.Outcome<C.Point>
  {
    if target == 0 then F.Done(c)
    else match F.FrameList(frames, target, fuel)
      case None => F.Diverges
      case Some(l) => if F.AllPresent(frames, l) then F.Done(F.ApplyChain(frames, G.Down, l, c)) else F.Crash
  }

  /** The composite test of `parseComposite`. */
  predicate CompositeProperty(pid: int, pcomps: set<int>, shellMid1: map<int, int>, isotropic: map<int, bool>)
  {
    pid in pcomps || (pid in shellMid1 && shellMid1[pid] in isotropic && !isotropic[shellMid1[pid]])
  }

  /**
   * `getCentroid` never fails, and agrees with locating a node placed at the
   * centroid in BASIC; a frame defined directly in BASIC applies its forward
   * transform once.
   */
  lemma CentroidInAgreesWithLocate(frames: map<int, F.Frame>, c: C.Point, target: int, fuel: nat)
    requires 0 !in frames
    ensures CentroidIn(frames, c, target, fuel) == G.Locate(frames, G.GridCard(0, 0, c, 0), target, fuel)
    ensures CentroidIn(frames, c, target, fuel) != F.Crash
    ensures target in frames && frames[target].rid == 0 ==>
      CentroidIn(frames, c, target, fuel) == F.Done(G.Down(frames[target], c))
  {
    F.FrameListShape(frames, target, fuel);
    if target in frames && frames[target].rid == 0 {
      assert F.FrameList(frames, target, fuel) == Some([target]);
      assert [target][1..] == [];
      assert F.ApplyChain(frames, G.Down, [target], c) == G.Down(frames[target], F.ApplyChain(frames, G.Down, [], c));
    }
  }

  /** With every corner located directly in BASIC, the centroid is the average of the four corner points. */
  lemma CentroidOfBasicCorners(frames: map<int, F.Frame>, cards: map<int, G.GridCard>, corners: seq<int>, fuel: nat)
    requires |corners| == 4 && 0 !in frames
    requires forall k :: 0 <= k < 4 ==> corners[k] in cards && cards[corners[k]].cp == 0
    ensures var p := seq(4, k requires 0 <= k < 4 => cards[corners[k]].point);
      C.Divide(CornerSum(frames, cards, corners, C.Origin, fuel), 4.0)
        == C.Point((p[0].x + p[1].x + p[2].x + p[3].x) / 4.0, (p[0].y + p[1].y + p[2].y + p[3].y) / 4.0,
                   (p[0].z + p[1].z + p[2].z + p[3].z) / 4.0)
  {
    var p := seq(4, k requires 0 <= k < 4 => cards[corners[k]].point);
    forall k | 0 <= k < 4
      ensures G.Locate(frames, cards[corners[k]], 0, fuel) == F.Done(p[k])
    {
      G.LocateInBasic(frames, cards[corners[k]], 0, fuel);
    }
    assert corners[..1][..0] == [] && corners[..2][..1] == corners[..1] && corners[..3][..2] == corners[..2];
    assert CornerSum(frames, cards, corners[..1], C.Origin, fuel) == C.Add(C.Origin, p[0]);
    assert CornerSum(frames, cards, corners[..2], C.Origin, fuel) == C.Add(C.Add(C.Origin, p[0]), p[1]);
    assert CornerSum(frames, cards, corners[..3], C.Origin, fuel) == C.Add(C.Add(C.Add(C.Origin, p[0]), p[1]), p[2]);
    assert corners[..4] == corners;
  }

  /** A corner the model does not have adds nothing, yet the sum is still divided by four. */
  lemma MissingCornerAddsNothing(frames: map<int, F.Frame>, cards: map<int, G.GridCard>, corners: seq<int>, start: C.Point, fuel: nat)
    requires |corners| == 4 && corners[3] !in cards
    ensures CornerSum(frames, cards, corners, start, fuel) == CornerSum(frames, cards, corners[..3], start, fuel)
  {
  }
}
