/**
 * The CBUSH fastener element and the filled-hole engine it carries: card
 * parsing, fastener-node resolution through single-dependent RBE2s, the
 * ring search and side ordering around each fastener node, the per-subcase
 * filled-hole records and the accessors the output stage reads.
 */
module Cbushes {
  import opened Runtime
  import opened Text
  import C = Coordinates
  import T = Transformations
  import G = Grids
  import R2 = Rbe2
  import R3 = Rbe3
  import Q = Cquads
  import Rings
  import S = Sides
  import R = Reduction

  /**
   * A CBUSH card: `pLongData` (EID, PID, GA, GB, GO, CID, OCID), the
   * orientation type, the orientation vector, S and the offset. Slots the
   * parser does not reach keep the value 0.
   */
  datatype CbushCard = CbushCard(id: int, pid: int, ga: int, gb: int, go: int, cid: int, ocid: int,
                                 orienType: int, orientation: C.Point, s: real, offset: C.Point)

  /** The card padded with blank 80-column lines up to `n` lines. */
  function PadLines(lines: seq<string>, n: nat): (r: seq<string>)
    ensures |r| >= n && |r| >= |lines| && r[..|lines|] == lines
    ensures forall i :: |lines| <= i < |r| ==> r[i] == Spaces(80)
  {
    if |lines| >= n then lines else lines + seq(n - |lines|, _ => Spaces(80))
  }

  /** Short format pads to two lines and reads eight 8-column fields per line; long format pads to four lines and reads four 16-column fields. */
  function CbushFields(lines: seq<string>, long: bool): seq<string>
  {
    if long then CardFields(PadLines(lines, 4), 16, 16) else CardFields(PadLines(lines, 2), 8, 8)
  }

  /** The card has the thirteen fields the parser indexes. */
  predicate ParsableCbush(lines: seq<string>, long: bool)
  {
    |CbushFields(lines, long)| >= 13
  }

  /** A card whose lines are all 80 columns wide always has its thirteen fields, in either format. */
  lemma PaddedParsable(lines: seq<string>, long: bool)
    requires Padded(lines)
    ensures ParsableCbush(lines, long)
  {
    var p := PadLines(lines, if long then 4 else 2);
    forall l | 0 <= l < |p|
      ensures |p[l]| >= 80
    {
      if l < |lines| {
        assert p[l] == p[..|lines|][l];
      }
    }
    if long {
      forall l | 0 <= l < |p|
        ensures |ColumnFields(p[l], 8, 16, 16)| == 4
      {
        LargeFieldLayout(p[l], 16);
      }
      CardFieldsLength(p, 16, 16, 4);
    } else {
      forall l | 0 <= l < |p|
        ensures |ColumnFields(p[l], 8, 8, 8)| == 8
      {
        SmallFieldLayout(p[l]);
      }
      CardFieldsLength(p, 8, 8, 8);
    }
  }

  /** A point from three checked real fields. */
  function PointAt(lc: Libc, f: seq<string>, k: nat): C.Point
    requires k + 3 <= |f|
  {
    C.Point(lc.atof(CheckExp(f[k])), lc.atof(CheckExp(f[k + 1])), lc.atof(CheckExp(f[k + 2])))
  }

  /** `CBUSH::parseBDFData` on the split fields. */
  function ParseCbushFields(lc: Libc, f: seq<string>): CbushCard
    requires |f| >= 13
  {
    var o := CheckExp(f[4]);
    var sField := CheckExp(f[8]);
    var oc := CheckExp(f[9]);
    var noOffset := oc == "" || oc == "-1";
    CbushCard(lc.atol(f[0]), lc.atol(f[1]), lc.atol(f[2]), lc.atol(f[3]),
              if o != "" && !CheckReal(o) then lc.atol(o) else 0,
              if o == "" then lc.atol(f[7]) else 0,
              if noOffset then -1 else lc.atol(oc),
              if o == "" then 3 else if !CheckReal(o) then 1 else 2,
              if o != "" && CheckReal(o) then C.Point(lc.atof(o), lc.atof(CheckExp(f[5])), lc.atof(CheckExp(f[6]))) else C.Origin,
              if sField == "" then 0.5 else lc.atof(sField),
              if noOffset then C.Origin else PointAt(lc, f, 10))
  }

  function ParseCbush(lc: Libc, lines: seq<string>, long: bool): CbushCard
    requires ParsableCbush(lines, long)
  {
    ParseCbushFields(lc, CbushFields(lines, long))
  }

  /**
   * The orientation rules: a blank fifth field orients by the frame named
   * in field 8 (type 3); a fifth field without '.' is the orientation grid
   * (type 1); otherwise it starts the orientation vector (type 2). A blank S
   * is 0.5; a blank or "-1" OCID gives -1 with no offset; fields 0-3 are the
   * IDs.
   */
  lemma ParseCbushRules(lc: Libc, f: seq<string>)
    requires |f| >= 13
    ensures var c, o := ParseCbushFields(lc, f), CheckExp(f[4]);
      c.id == lc.atol(f[0]) && c.pid == lc.atol(f[1]) && c.ga == lc.atol(f[2]) && c.gb == lc.atol(f[3])
      && (IsBlank(f[4]) ==> c.orienType == 3 && c.cid == lc.atol(f[7]))
      && (!IsBlank(f[4]) && !CheckReal(o) ==> c.orienType == 1 && c.go == lc.atol(o))
      && (!IsBlank(f[4]) && CheckReal(o) ==> c.orienType == 2 && c.orientation.x == lc.atof(o))
      && (IsBlank(f[8]) ==> c.s == 0.5)
      && (IsBlank(f[9]) ==> c.ocid == -1 && c.offset == C.Origin)
      && (CheckExp(f[9]) == "-1" ==> c.ocid == -1 && c.offset == C.Origin)
  {
    CheckExpBlank(f[4]);
    CheckExpBlank(f[8]);
    CheckExpBlank(f[9]);
  }

  /**
   * A fastener end resolved through the RBE2 that connects it to the plate:
   * the end node itself, unless the node is in the model, lists exactly one
   * RBE2, that RBE2 is in the model and has exactly one dependent node; then
   * the RBE2's other end when the node is one of its two ends.
   */
  function Resolve(node: int, lists: map<int, seq<int>>, rbe2s: map<int, R2.Rbe2>): (r: int)
    ensures r != node ==>
      node in lists && |lists[node]| == 1 && lists[node][0] in rbe2s
      && R2.NumDependents(rbe2s[lists[node][0]]) == 1
      && var e := rbe2s[lists[node][0]];
        (e.independent == node && r == e.dependents[0]) || (e.dependents[0] == node && r == e.independent)
  {
    if node in lists && |lists[node]| == 1 && lists[node][0] in rbe2s && R2.NumDependents(rbe2s[lists[node][0]]) == 1 then
      var e := rbe2s[lists[node][0]];
      var ind, dep := R2.Index(e, 1), R2.Index(e, 3);
      if ind == node then dep else if dep == node then ind else node
    else node
  }

  /** Conversely, under those conditions the node does swap to the RBE2's other end. */
  lemma ResolveSwaps(node: int, lists: map<int, seq<int>>, rbe2s: map<int, R2.Rbe2>)
    requires node in lists && |lists[node]| == 1 && lists[node][0] in rbe2s
    requires |rbe2s[lists[node][0]].dependents| == 1
    ensures var e := rbe2s[lists[node][0]];
      (e.independent == node ==> Resolve(node, lists, rbe2s) == e.dependents[0])
      && (e.independent != node && e.dependents[0] == node ==> Resolve(node, lists, rbe2s) == e.independent)
      && (e.independent != node && e.dependents[0] != node ==> Resolve(node, lists, rbe2s) == node)
  {
  }

  /** The RBE2 list of every node of the model. */
  function Rbe2Lists(grids: map<int, G.Grid>): map<int, seq<int>>
    reads set k | k in grids :: grids[k]
  {
    map k | k in grids :: grids[k].rbe2s
  }

  /** A stored force, or the zero vector for a subcase without one. */
  function ForceAt(m: map<int, C.Point>, sub: int): C.Point
  {
    if sub in m then m[sub] else C.Origin
  }

  /** The plates of a shell that the model has, with their centroids, in shell order. */
  function Placements(ids: seq<int>, centroids: map<int, C.Point>): (r: seq<S.Placed>)
    ensures |r| <= |ids|
    ensures forall i :: 0 <= i < |r| ==> r[i].quad in ids && r[i].quad in centroids && r[i].centroid == centroids[r[i].quad]
  {
    if ids == [] then []
    else
      var init := Placements(ids[..|ids| - 1], centroids);
      var last := ids[|ids| - 1];
      if last in centroids then init + [S.Placed(centroids[last], last)] else init
  }

  /** Every plate of the shell that has a centroid is placed; a shell entirely in the model is placed whole. */
  lemma {:induction false} PlacementsComplete(ids: seq<int>, centroids: map<int, C.Point>)
    ensures forall i :: 0 <= i < |ids| && ids[i] in centroids ==> S.Placed(centroids[ids[i]], ids[i]) in Placements(ids, centroids)
    ensures (forall i :: 0 <= i < |ids| ==> ids[i] in centroids) ==> |Placements(ids, centroids)| == |ids|
  {
    if ids != [] {
      var init := ids[..|ids| - 1];
      PlacementsComplete(init, centroids);
      assert forall i :: 0 <= i < |init| ==> init[i] == ids[i];
    }
  }

  /** The placement loop of `order_FH`. */
  method Place(ids: seq<int>, centroids: map<int, C.Point>) returns (r: seq<S.Placed>)
    ensures r == Placements(ids, centroids)
  {
    r := [];
    for j := 0 to |ids|
      invariant r == Placements(ids[..j], centroids)
    {
      assert ids[..j + 1][..j] == ids[..j];
      if ids[j] in centroids {
        r := r + [S.Placed(centroids[ids[j]], ids[j])];
      }
    }
    assert ids[..|ids|] == ids;
  }

  /** Side lists grow by appending: the sides of a later ordering go after those of earlier ones. */
  function Append(a: S.Quartet, b: S.Quartet): S.Quartet
  {
    S.Quartet(a.side1 + b.side1, a.side2 + b.side2, a.side3 + b.side3, a.side4 + b.side4)
  }

  /** The ring in side order, as `get_FH_CQUADs` rebuilds it: side 1, 2, 3, then 4. */
  function Flatten(q: S.Quartet): seq<int>
  {
    q.side1 + q.side2 + q.side3 + q.side4
  }

  /** A freshly ordered ring of side n lists 4n plates, the four corners twice. */
  lemma FlattenOrdered(all: seq<S.Placed>, n: int, axis: int)
    requires n >= 2 && |all| == 4 * n - 4
    ensures |Flatten(S.Pushed(S.Order(all, n, axis).value))| == 4 * n
  {
    S.OrderSizes(all, n, axis);
  }

  /**
   * `FH_Composite`: the flag of the first listed plate that the model has,
   * false when it has none.
   */
  function FirstComposite(ids: seq<int>, composite: map<int, bool>): (r: bool)
    ensures r <==> exists i :: 0 <= i < |ids| && ids[i] in composite && composite[ids[i]]
                                && forall j :: 0 <= j < i ==> ids[j] !in composite
  {
    if ids == [] then false
    else if ids[0] in composite then
      composite[ids[0]]
    else
      var rest := FirstComposite(ids[1..], composite);
      assert forall i :: 1 <= i < |ids| ==> ids[i] == ids[1..][i - 1];
      assert rest ==> exists i :: 0 <= i < |ids| && ids[i] in composite && composite[ids[i]]
                                 && forall j :: 0 <= j < i ==> ids[j] !in composite;
      rest
  }

  /** The sides of a ring that `generate_FH_Result` reads, as plate snapshots for one subcase. */
  function PlatesOf(ids: seq<int>, plates: (int, int) -> R.Plate, sub: int): (r: seq<R.Plate>)
    ensures |r| == |ids|
  {
    seq(|ids|, i requires 0 <= i < |ids| => plates(sub, ids[i]))
  }

  /** The inputs of one subcase: the side plates of the ring and the two CBUSH forces. */
  function CaseOf(q: S.Quartet, plates: (int, int) -> R.Plate, sub: int, force: C.Point, other: Option<C.Point>): R.Case
  {
    R.Case(sub, PlatesOf(q.side1, plates, sub), PlatesOf(q.side2, plates, sub),
           PlatesOf(q.side3, plates, sub), PlatesOf(q.side4, plates, sub), force, other)
  }

  /** The paired CBUSH's force in the BASIC frame (`getForceResult` with `as_is` false and frame 0). */
  function OtherForce(otherForces: Option<map<int, C.Point>>, toBasic: T.Matrix, sub: int): Option<C.Point>
  {
    if otherForces.Some? then Some(T.Apply(toBasic, ForceAt(otherForces.value, sub))) else None
  }

  /** The subcase inputs of the whole loop over subcases. */
  function Cases(q: S.Quartet, plates: (int, int) -> R.Plate, subs: seq<int>, forces: map<int, C.Point>,
                 otherForces: Option<map<int, C.Point>>, toBasic: T.Matrix): (r: seq<R.Case>)
    ensures |r| == |subs|
    ensures forall i :: 0 <= i < |subs| ==> r[i].subcase == subs[i]
  {
    seq(|subs|, i requires 0 <= i < |subs| =>
      CaseOf(q, plates, subs[i], ForceAt(forces, subs[i]), OtherForce(otherForces, toBasic, subs[i])))
  }

  /**
   * The connectivity `parse_FH` reads from the linked model: each node's
   * CQUAD, RBE2 and RBE3 lists, the RBE2 and RBE3 elements, and each CQUAD's
   * corner nodes (`operator[]` 2 to 5).
   */
  function MeshOf(grids: map<int, G.Grid>, quads: map<int, Q.Cquad>, rbe2s: map<int, R2.Rbe2>,
                  rbe3s: map<int, R3.Rbe3>): (m: Rings.Mesh)
    reads set k | k in grids :: grids[k]
    reads set k | k in quads :: quads[k]
    ensures Rings.Consistent(m) && m.quads.Keys == grids.Keys && m.plates.Keys == quads.Keys
    ensures m.rbe2 == rbe2s && m.rbe3 == rbe3s
    ensures forall k :: k in grids ==> m.quads[k] == G.List(grids[k], G.CQUADs)
    ensures forall k :: k in grids ==> m.rbe2s[k] == G.List(grids[k], G.RBE2s) && m.rbe3s[k] == G.List(grids[k], G.RBE3s)
    ensures forall k :: k in quads && quads[k].Valid() ==>
      |m.plates[k]| == 4 && forall i :: 2 <= i <= 5 ==> m.plates[k][i - 2] == quads[k].Index(i)
  {
    Rings.Mesh(map k | k in grids :: grids[k].cquads, map k | k in grids :: grids[k].rbe2s,
               map k | k in grids :: grids[k].rbe3s, rbe2s, rbe3s, map k | k in quads :: quads[k].corners)
  }

  /** What `generate_FH_Result` reads of a plate besides its fluxes: `operator[]` 5 and 6, `operator()` 5 and 6. */
  datatype PlateFacts = PlateFacts(grid4: int, mcid: int, sideX: real, sideY: real)

  /** The plate facts of every CQUAD of the model. */
  function FactsOf(quads: map<int, Q.Cquad>): (f: map<int, PlateFacts>)
    requires forall k :: k in quads ==> quads[k].Valid()
    reads set k | k in quads :: quads[k]
    ensures f.Keys == quads.Keys
    ensures forall k :: k in f ==> f[k].grid4 == quads[k].Index(5) && f[k].mcid == quads[k].Index(6)
    ensures forall k :: k in f ==> f[k].sideX == quads[k].Value(5) && f[k].sideY == quads[k].Value(6)
  {
    map k | k in quads :: PlateFacts(quads[k].Index(5), quads[k].Index(6), quads[k].Value(5), quads[k].Value(6))
  }

  /**
   * The plate snapshot for a subcase: the plate's fluxes for that subcase and
   * its facts, or zeros for a plate the model does not have.
   */
  function PlateTable(facts: map<int, PlateFacts>, fluxes: (int, int) -> seq<real>): (t: (int, int) -> R.Plate)
    ensures forall sub, id :: t(sub, id).flux == fluxes(sub, id)
    ensures forall sub, id :: id in facts ==>
      t(sub, id) == R.Plate(fluxes(sub, id), facts[id].grid4, facts[id].mcid, facts[id].sideX, facts[id].sideY)
    ensures forall sub, id :: id !in facts ==> t(sub, id) == R.Plate(fluxes(sub, id), 0, 0, 0.0, 0.0)
  {
    (sub: int, id: int) =>
      if id in facts then R.Plate(fluxes(sub, id), facts[id].grid4, facts[id].mcid, facts[id].sideX, facts[id].sideY)
      else R.Plate(fluxes(sub, id), 0, 0, 0.0, 0.0)
  }

  /** The record of one subcase, computed side by side with the accumulation loops. */
  method ReduceCase(c: R.Case, s: R.Setup) returns (rec: R.Record)
    ensures rec == R.CaseRecord(c, s)
  {
    var s1 := R.AccumulateSide(R.Shares(c.p1, false), false);
    var s2 := R.AccumulateSide(R.Shares(c.p2, true), true);
    var s3 := R.AccumulateSide(R.Shares(c.p3, false), false);
    var s4 := R.AccumulateSide(R.Shares(c.p4, true), true);
    var ring := R.Ring(s1, s2, s3, s4);
    var pull := R.PullThrough(c.otherForce.Some?, s.aligned, c.force, s.axis);
    rec := R.Reduce(ring, R.CaseLoad(c, s), pull, s.axis);
  }

  /** The subcase loop of `generate_FH_Result`: each subcase's record goes into the map unless it is already there. */
  method RecordSubcases(m0: map<int, R.Record>, q: S.Quartet, plates: (int, int) -> R.Plate, subs: seq<int>,
                        forces: map<int, C.Point>, otherForces: Option<map<int, C.Point>>, toBasic: T.Matrix, setup: R.Setup)
    returns (m: map<int, R.Record>)
    ensures m == R.InsertAll(m0, Cases(q, plates, subs, forces, otherForces, toBasic), setup)
  {
    ghost var cases := Cases(q, plates, subs, forces, otherForces, toBasic);
    m := m0;
    for i := 0 to |subs|
      invariant m == R.InsertAll(m0, cases[..i], setup)
    {
      var sub := subs[i];
      var c := CaseOf(q, plates, sub, ForceAt(forces, sub), OtherForce(otherForces, toBasic, sub));
      CasesAt(q, plates, subs, forces, otherForces, toBasic, i);
      R.InsertAllStep(m0, cases, i, setup);
      m := RecordCase(m, c, setup);
    }
    assert cases[..|subs|] == cases;
  }

  /** Entry i of the subcase inputs is the case of subcase i. */
  lemma CasesAt(q: S.Quartet, plates: (int, int) -> R.Plate, subs: seq<int>, forces: map<int, C.Point>,
                otherForces: Option<map<int, C.Point>>, toBasic: T.Matrix, i: nat)
    requires i < |subs|
    ensures Cases(q, plates, subs, forces, otherForces, toBasic)[i]
         == CaseOf(q, plates, subs[i], ForceAt(forces, subs[i]), OtherForce(otherForces, toBasic, subs[i]))
  {
  }

  /** One pass of the subcase loop: the record goes in unless the subcase already has one. */
  method RecordCase(m: map<int, R.Record>, c: R.Case, setup: R.Setup) returns (r: map<int, R.Record>)
    ensures r == MapInsert(m, c.subcase, R.CaseRecord(c, setup))
  {
    var rec := ReduceCase(c, setup);
    r := MapInsert(m, c.subcase, rec);
  }

  /** The paired CBUSH's stored forces, or none when the CBUSH is not paired. */
  function PairedForces(other: Cbush?): (f: Option<map<int, C.Point>>)
    requires other != null ==> other.Valid()
    reads other
    ensures f.Some? <==> other != null
    ensures other != null ==> f.value == other.forces[0]
  {
    if other != null then Some(other.forces[0]) else None
  }

  class Cbush {
    var card: CbushCard
    /** `fastenerNodes`: the plate-side node of each end. */
    var fastener: seq<int>
    /** `node_QUADS`: the shell of each fastener node, later its ring in side order. */
    var nodeQuads: seq<seq<int>>
    /** `side_1` to `side_4` of each fastener node. */
    var rings: seq<S.Quartet>
    /** `pNodeSort`: `node_QUADS` holds the rings in side order. */
    var nodeSort: bool
    /** `Force_Res_Map`: the force and the moment of each subcase. */
    var forces: seq<map<int, C.Point>>
    /** `FH_Res_Map`: the filled-hole record of each subcase, per fastener node. */
    var results: seq<map<int, R.Record>>

    ghost predicate Valid()
      reads this
    {
      |fastener| == 2 && |nodeQuads| == 2 && |rings| == 2 && |forces| == 2 && |results| == 2
    }

    /** The CBUSH of a card. */
    constructor FromCard(lc: Libc, lines: seq<string>, long: bool)
      requires ParsableCbush(lines, long)
      ensures Valid() && card == ParseCbush(lc, lines, long) && !nodeSort
      ensures fastener == [0, 0] && nodeQuads == [[], []] && forces == [map[], map[]] && results == [map[], map[]]
      ensures rings == [S.Quartet([], [], [], []), S.Quartet([], [], [], [])]
    {
      card := ParseCbush(lc, lines, long);
      fastener := [0, 0];
      nodeQuads := [[], []];
      rings := [S.Quartet([], [], [], []), S.Quartet([], [], [], [])];
      nodeSort := false;
      forces := [map[], map[]];
      results := [map[], map[]];
    }

    /** The placeholder CBUSH a result line creates for an unknown ID: only the ID is set. */
    constructor (eid: int)
      ensures Valid() && card.id == eid && Index(0) == eid && !nodeSort
      ensures fastener == [0, 0] && nodeQuads == [[], []] && forces == [map[], map[]] && results == [map[], map[]]
    {
      card := CbushCard(eid, 0, 0, 0, 0, 0, 0, 0, C.Origin, 0.0, C.Origin);
      fastener := [0, 0];
      nodeQuads := [[], []];
      rings := [S.Quartet([], [], [], []), S.Quartet([], [], [], [])];
      nodeSort := false;
      forces := [map[], map[]];
      results := [map[], map[]];
    }

    /**
     * `nodeConnect`: each end node that the model has lists this CBUSH (once);
     * each fastener node is its end node resolved through a single-dependent
     * RBE2; nothing else changes.
     */
    method NodeConnect(grids: map<int, G.Grid>, rbe2s: map<int, R2.Rbe2>)
      requires Valid() && G.Injective(grids) && G.AllValid(grids)
      modifies this, set k | k in grids :: grids[k]
      ensures Valid() && G.AllValid(grids)
      ensures fastener == [Resolve(card.ga, old(Rbe2Lists(grids)), rbe2s), Resolve(card.gb, old(Rbe2Lists(grids)), rbe2s)]
      ensures forall k, kd :: k in grids ==>
        G.List(grids[k], kd) == if (k == card.ga || k == card.gb) && kd == G.CBUSHes
                                then G.AppendIfAbsent(old(G.List(grids[k], kd)), card.id) else old(G.List(grids[k], kd))
      ensures forall k :: k in grids ==> grids[k].Card() == old(grids[k].Card())
      ensures card == old(card) && nodeQuads == old(nodeQuads) && rings == old(rings) && nodeSort == old(nodeSort)
      ensures forces == old(forces) && results == old(results)
      ensures forall k :: k in grids ==> grids[k].rbe2s == old(grids[k].rbe2s)
    {
      var lists := Rbe2Lists(grids);
      G.Connect(grids, card.ga, card.id, G.CBUSHes);
      var a := Resolve(card.ga, lists, rbe2s);
      G.Connect(grids, card.gb, card.id, G.CBUSHes);
      var b := Resolve(card.gb, lists, rbe2s);
      forall k | k in grids && k == card.ga && k == card.gb
        ensures G.AppendIfAbsent(G.AppendIfAbsent(old(G.List(grids[k], G.CBUSHes)), card.id), card.id)
             == G.AppendIfAbsent(old(G.List(grids[k], G.CBUSHes)), card.id)
      {
        G.AppendIfAbsentTwice(old(G.List(grids[k], G.CBUSHes)), card.id);
      }
      fastener := [a, b];
      forall k | k in grids
        ensures grids[k].rbe2s == old(grids[k].rbe2s)
      {
        assert G.List(grids[k], G.RBE2s) == grids[k].rbe2s;
      }
    }

    /**
     * `parse_FH` for fastener node `side`: searches the ring from the
     * fastener node; when the search settles, the shell becomes the
     * node's shell and the ring is ordered into sides. A search that does
     * not settle changes nothing and reports how it ended.
     */
    method ParseFH(grids: map<int, G.Grid>, quads: map<int, Q.Cquad>, rbe2s: map<int, R2.Rbe2>,
                   rbe3s: map<int, R3.Rbe3>, gridSize: int, side: nat, axis: int, centroids: map<int, C.Point>,
                   fuel: nat)
      returns (r: Rings.Ring)
      requires Valid() && side < 2 && (gridSize != 1 || Placements(nodeQuads[side], centroids) != [])
      modifies this
      ensures Valid()
      ensures r == Rings.SearchRing(old(MeshOf(grids, quads, rbe2s, rbe3s)), old(fastener[side]), gridSize,
                                    old(nodeQuads[side]), fuel)
      ensures gridSize < 2 ==> r == Rings.Found(old(nodeQuads[side])) && rings == old(rings)
      ensures r.Found? ==> nodeQuads == old(nodeQuads)[side := r.shell] && !nodeSort
      ensures r.Found? ==>
        rings == old(rings)[side := if |Placements(r.shell, centroids)| == 4 * gridSize - 4
                                    then Append(old(rings[side]), S.Pushed(S.Order(Placements(r.shell, centroids), gridSize, axis).value))
                                    else old(rings[side])]
      ensures !r.Found? ==> nodeQuads == old(nodeQuads) && rings == old(rings) && nodeSort == old(nodeSort)
      ensures card == old(card) && fastener == old(fastener) && forces == old(forces) && results == old(results)
    {
      var mesh := MeshOf(grids, quads, rbe2s, rbe3s);
      r := Rings.FindRing(mesh, fastener[side], gridSize, nodeQuads[side], fuel);
      if gridSize < 2 {
        Rings.NoPassBelowTwo(mesh, fastener[side], gridSize, nodeQuads[side], fuel);
        S.OrderSizes(Placements(nodeQuads[side], centroids), gridSize, axis);
      }
      if r.Found? {
        nodeQuads := nodeQuads[side := r.shell];
        OrderFH(gridSize, side, axis, centroids);
      }
    }

    /**
     * `order_FH`: the shell's plates with centroids are placed; when there
     * are `4 * gridSize - 4` of them the four sides are appended to the
     * node's side lists, otherwise nothing is; either way the side-order
     * flag is cleared.
     */
    method OrderFH(gridSize: int, side: nat, axis: int, centroids: map<int, C.Point>)
      requires Valid() && side < 2 && (gridSize != 1 || Placements(nodeQuads[side], centroids) != [])
      modifies this
      ensures Valid() && !nodeSort && nodeQuads == old(nodeQuads)
      ensures var all := Placements(nodeQuads[side], centroids);
        rings == old(rings)[side := if |all| == 4 * gridSize - 4
                                    then Append(old(rings[side]), S.Pushed(S.Order(all, gridSize, axis).value))
                                    else old(rings[side])]
      ensures card == old(card) && fastener == old(fastener)
      ensures forces == old(forces) && results == old(results)
    {
      var all := Place(nodeQuads[side], centroids);
      nodeSort := false;
      var q := S.OrderSides(all, gridSize, axis);
      if q.Some? {
        rings := rings[side := Append(rings[side], q.value)];
      }
    }

    /**
     * `generate_FH_Result` for fastener node `side`: one record per subcase,
     * from the node's side lists, this CBUSH's stored forces and, when
     * paired, the other CBUSH's forces taken to BASIC; a subcase that
     * already has a record keeps it.
     */
    method GenerateFHResult(subs: seq<int>, side: nat, quads: map<int, Q.Cquad>, fluxes: (int, int) -> seq<real>,
                            angle: real, other: Cbush?, otherAngle: real, toThis: T.Matrix, mat: Option<T.Matrix>,
                            axis: int, toBasic: T.Matrix)
      requires Valid() && side < 2 && (other != null ==> other.Valid())
      requires forall k :: k in quads ==> quads[k].Valid()
      modifies this
      ensures Valid()
      ensures results == old(results)[side := R.InsertAll(old(results[side]),
                Cases(rings[side], old(PlateTable(FactsOf(quads), fluxes)), subs, forces[0], old(PairedForces(other)), toBasic),
                R.SetupOf(angle, otherAngle, side, old(SharesNodeA(other, side)), toThis, mat, axis))]
      ensures card == old(card) && fastener == old(fastener) && nodeQuads == old(nodeQuads) && rings == old(rings)
      ensures nodeSort == old(nodeSort) && forces == old(forces)
    {
      var plates := PlateTable(FactsOf(quads), fluxes);
      var setup := R.SetupOf(angle, otherAngle, side, SharesNodeA(other, side), toThis, mat, axis);
      var m := RecordSubcases(results[side], rings[side], plates, subs, forces[0], PairedForces(other), toBasic, setup);
      results := results[side := m];
    }

    /**
     * `fastenerNodes[side_no] == (*other_CBUSH)[4]`: the paired CBUSH's
     * fastener node A is this CBUSH's fastener node `side`. Without a paired
     * CBUSH the other load is absent and the flag is never read.
     */
    function SharesNodeA(other: Cbush?, side: nat): bool
      requires Valid() && side < 2 && (other != null ==> other.Valid())
      reads this, other
    {
      other != null && fastener[side] == other.Index(4)
    }

    /** `get_FH_Result`: the subcase's record as nine values, nine zeros when there is none. */
    function GetFHResult(sub: int, side: nat): (v: seq<real>)
      requires Valid() && side < 2
      reads this
      ensures |v| == 9
      ensures sub in results[side] ==> v == R.Values(results[side][sub])
      ensures sub !in results[side] ==> forall i :: 0 <= i < 9 ==> v[i] == 0.0
    {
      R.Lookup(results[side], sub)
    }

    /**
     * `get_FH_CQUADs`: unless already done since the last ordering, both
     * nodes' shells are replaced by their side lists in order 1, 2, 3, 4;
     * returns the shell of `side`.
     */
    method GetFHCquads(side: nat) returns (r: seq<int>)
      requires Valid() && side < 2
      modifies this
      ensures Valid() && nodeSort
      ensures nodeQuads == if old(nodeSort) then old(nodeQuads) else [Flatten(rings[0]), Flatten(rings[1])]
      ensures r == nodeQuads[side]
      ensures card == old(card) && fastener == old(fastener) && rings == old(rings)
      ensures forces == old(forces) && results == old(results)
    {
      if !nodeSort {
        nodeQuads := [Flatten(rings[0]), Flatten(rings[1])];
        nodeSort := true;
      }
      r := nodeQuads[side];
    }

    /** `FH_Composite` over the model's composite flags, by plate ID. */
    method FHComposite(side: nat, composite: map<int, bool>) returns (b: bool)
      requires Valid() && side < 2
      ensures b == FirstComposite(nodeQuads[side], composite)
    {
      var ids := nodeQuads[side];
      for i := 0 to |ids|
        invariant FirstComposite(ids, composite) == FirstComposite(ids[i..], composite)
      {
        assert ids[i..][1..] == ids[i + 1..];
        if ids[i] in composite {
          return composite[ids[i]];
        }
      }
      return false;
    }

    /** `addForceResult`: the force from fields 0-2 and the moment from fields 3-5; an existing subcase keeps its entry. */
    method AddForceResult(lc: Libc, lines: seq<string>, sub: int)
      requires Valid() && |PunchFields(lines)| >= 6
      modifies this
      ensures Valid()
      ensures forces == [MapInsert(old(forces[0]), sub, PointAt(lc, PunchFields(lines), 0)),
                         MapInsert(old(forces[1]), sub, PointAt(lc, PunchFields(lines), 3))]
      ensures card == old(card) && fastener == old(fastener) && nodeQuads == old(nodeQuads) && rings == old(rings)
      ensures nodeSort == old(nodeSort) && results == old(results)
    {
      var f := PunchFields(lines);
      forces := [MapInsert(forces[0], sub, PointAt(lc, f, 0)), MapInsert(forces[1], sub, PointAt(lc, f, 3))];
    }

    /** `operator[]`: EID, PID, GA, GB for 0-3, the fastener nodes for 4-5, OCID for 6, EID otherwise. */
    function Index(i: int): (v: int)
      requires Valid()
      reads this
      ensures 0 <= i < 4 ==> v == [card.id, card.pid, card.ga, card.gb][i]
      ensures i == 4 || i == 5 ==> v == fastener[i - 4]
      ensures i == 6 ==> v == card.ocid
      ensures i < 0 || i > 6 ==> v == card.id
    {
      if i == 1 then card.pid else if i == 2 then card.ga else if i == 3 then card.gb
      else if i == 4 || i == 5 then fastener[i - 4] else if i == 6 then card.ocid else card.id
    }
  }
}
