/**
 * The GRID bulk-data card: a node with its reference (CP) and analysis (CD)
 * frames, its location in CP, and the element lists the linking pass fills
 * (CQUAD, CBUSH, RBE2 and RBE3 elements attached to the node).
 */
module Grids {
  import opened Runtime
  import opened Text
  import C = Coordinates
  import F = Frames

  /** No ID appears twice. */
  predicate Distinct(s: seq<int>)
  {
    forall i, j :: 0 <= i < j < |s| ==> s[i] != s[j]
  }

  /** An `add*_Connect` list after the call: `push_back` unless the ID is already listed. */
  function AppendIfAbsent(s: seq<int>, e: int): seq<int>
  {
    if e in s then s else s + [e]
  }

  /**
   * A connection list keeps its earlier entries in order, grows by at most
   * one entry, always ends up holding the ID, stays duplicate-free, and a
   * second registration of the same ID changes nothing.
   */
  lemma AppendIfAbsentProperties(s: seq<int>, e: int)
    ensures var r := AppendIfAbsent(s, e);
      e in r && r[..|s|] == s && |s| <= |r| <= |s| + 1
      && (|r| == |s| <==> e in s)
      && (forall x :: x in r <==> x in s || x == e)
      && (Distinct(s) ==> Distinct(r))
      && AppendIfAbsent(r, e) == r
  {
  }

  /** The values a GRID card carries. */
  datatype GridCard = GridCard(id: int, cp: int, point: C.Point, cd: int)

  /** Short format reads the first line only (8-wide fields); long format every line (16-wide fields). */
  function GridFields(lines: seq<string>, long: bool): seq<string>
    requires long || |lines| >= 1
  {
    if long then CardFields(lines, 16, 16) else ColumnFields(lines[0], 8, 8, 8)
  }

  /** Small format reads the card's first line, so there must be one; large format reads every line there is. */
  predicate ParsableGrid(lines: seq<string>, long: bool)
  {
    long || |lines| >= 1
  }

  /**
   * `GRID::parse_BDF_data`: ID and CP by `atol`, the location by
   * `atof(check_exp(..))`, CD by `atol`, from fields 0 to 5; a field the
   * card does not have reads as blank.
   */
  function ParseGrid(lc: Libc, lines: seq<string>, long: bool): GridCard
    requires ParsableGrid(lines, long)
  {
    var f := GridFields(lines, long);
    GridCard(lc.atol(Field(f, 0)), lc.atol(Field(f, 1)),
             C.Point(lc.atof(CheckExp(Field(f, 2))), lc.atof(CheckExp(Field(f, 3))), lc.atof(CheckExp(Field(f, 4)))),
             lc.atol(Field(f, 5)))
  }

  /** `parse_BDF_data` as written: `None` where it indexes `LineData` past its end. */
  function ParseGridAsWritten(lc: Libc, lines: seq<string>, long: bool): Option<GridCard>
    requires ParsableGrid(lines, long)
  {
    if |GridFields(lines, long)| < 6 then None else Some(ParseGrid(lc, lines, long))
  }

  /** A small-field card has eight fields; a large-field card four per line. */
  lemma GridFieldsCount(lines: seq<string>, long: bool)
    requires ParsableGrid(lines, long) && Padded(lines)
    ensures |GridFields(lines, long)| == if long then 4 * |lines| else 8
  {
    if long {
      forall l | 0 <= l < |lines|
        ensures |ColumnFields(lines[l], 8, 16, 16)| == 4
      {
        LargeFieldLayout(lines[l], 16);
      }
      CardFieldsLength(lines, 16, 16, 4);
    } else {
      SmallFieldLayout(lines[0]);
    }
  }

  /**
   * The source stays inside its field list exactly for small-field cards and
   * large-field cards of two or more lines, and there it reads what the model
   * reads.
   */
  lemma ParseGridAsWrittenInRange(lc: Libc, lines: seq<string>, long: bool)
    requires ParsableGrid(lines, long) && Padded(lines)
    ensures ParseGridAsWritten(lc, lines, long).Some? <==> !long || |lines| >= 2
    ensures ParseGridAsWritten(lc, lines, long).Some? ==> ParseGridAsWritten(lc, lines, long).value == ParseGrid(lc, lines, long)
  {
    GridFieldsCount(lines, long);
  }

  /**
   * A large-field GRID* card on one line has four fields, yet the source
   * reads `LineData[4]` and `LineData[5]`: X3 and CD come from past the end.
   * Read as blank, X3 is `atof` of an empty field and CD `atol` of one.
   */
  lemma OneLineLongGridReadsPastEnd(lc: Libc, line: string)
    requires |line| >= 80
    ensures |GridFields([line], true)| == 4 && ParseGridAsWritten(lc, [line], true) == None
    ensures var g := ParseGrid(lc, [line], true);
      g.id == lc.atol(line[8..24]) && g.cp == lc.atol(line[24..40])
      && g.point == C.Point(lc.atof(CheckExp(line[40..56])), lc.atof(CheckExp(line[56..72])), lc.atof(CheckExp("")))
      && g.cd == lc.atol("")
  {
    LargeFieldLayout(line, 16);
    assert [line][..0] == [];
    assert CardFields([line], 16, 16) == ColumnFields(line, 8, 16, 16);
  }

  /**
   * Small field: every value sits in fixed columns of the first line (ID in
   * 8-15, CP in 16-23, X1..X3 in 24-47, CD in 48-55) and continuation lines
   * are ignored.
   */
  lemma ParseGridShortColumns(lc: Libc, lines: seq<string>)
    requires |lines| >= 1 && |lines[0]| >= 80
    ensures ParsableGrid(lines, false) && ParsableGrid(lines[..1], false)
    ensures var g := ParseGrid(lc, lines, false);
      g == ParseGrid(lc, lines[..1], false)
      && g.id == lc.atol(lines[0][8..16]) && g.cp == lc.atol(lines[0][16..24])
      && g.point == C.Point(lc.atof(CheckExp(lines[0][24..32])), lc.atof(CheckExp(lines[0][32..40])), lc.atof(CheckExp(lines[0][40..48])))
      && g.cd == lc.atol(lines[0][48..56])
  {
    SmallFieldLayout(lines[0]);
    assert lines[..1][0] == lines[0];
  }

  /**
   * Large field: ID, CP, X1 and X2 in the 16-wide fields of the first line,
   * X3 and CD in the first two fields of the continuation line.
   */
  lemma ParseGridLongColumns(lc: Libc, lines: seq<string>)
    requires |lines| >= 2 && |lines[0]| >= 80 && |lines[1]| >= 80
    ensures ParsableGrid(lines, true)
    ensures var g := ParseGrid(lc, lines, true);
      g.id == lc.atol(lines[0][8..24]) && g.cp == lc.atol(lines[0][24..40])
      && g.point == C.Point(lc.atof(CheckExp(lines[0][40..56])), lc.atof(CheckExp(lines[0][56..72])), lc.atof(CheckExp(lines[1][8..24])))
      && g.cd == lc.atol(lines[1][24..40])
  {
    var first := ColumnFields(lines[0], 8, 16, 16);
    var second := ColumnFields(lines[1], 8, 16, 16);
    LargeFieldLayout(lines[0], 16);
    LargeFieldLayout(lines[1], 16);
    CardFieldsAppend(lines[..2], lines[2..], 16, 16);
    assert lines[..2] + lines[2..] == lines;
    assert lines[..2][..1] == lines[..1] && lines[..2][1] == lines[1];
    assert lines[..1][..0] == [] && lines[..1][0] == lines[0];
    assert CardFields(lines[..1], 16, 16) == first;
    assert CardFields(lines[..2], 16, 16) == first + second;
    var f := GridFields(lines, true);
    assert f[..8] == first + second;
  }

  /** The upward step of `get_coordinate`: a frame's inverse transform. */
  function Up(fr: F.Frame, p: C.Point): C.Point
  {
    F.TransformPoint(fr, p, true)
  }

  /** The downward step of `get_coordinate`: a frame's forward transform. */
  function Down(fr: F.Frame, p: C.Point): C.Point
  {
    F.TransformPoint(fr, p, false)
  }

  /** `GRID::get_coordinate` as written (parent-first upward walk, downward walk that re-reads the target). */
  function LocateAsWritten(frames: map<int, F.Frame>, g: GridCard, target: int, fuel: nat): F.Outcome<C.Point>
  {
    F.ChainAsWritten(frames, Up, Down, g.cp, target, g.point, fuel)
  }

  /** `GRID::get_coordinate` as intended: the node's location expressed in frame `target`. */
  function Locate(frames: map<int, F.Frame>, g: GridCard, target: int, fuel: nat): F.Outcome<C.Point>
  {
    F.Chain(frames, Up, Down, g.cp, target, g.point, fuel)
  }

  /**
   * A node located in a frame defined directly in BASIC: asking for BASIC
   * crashes as written (the walk dereferences the missing BASIC frame), while
   * the intended walk applies the CP frame's inverse and stops.
   */
  lemma LocateInFrameOnBasic(frames: map<int, F.Frame>, g: GridCard, fuel: nat)
    requires g.cp != 0 && g.cp in frames && frames[g.cp].rid == 0 && 0 !in frames && fuel > 0
    ensures LocateAsWritten(frames, g, 0, fuel) == F.Crash
    ensures Locate(frames, g, 0, fuel) == F.Done(F.TransformPoint(frames[g.cp], g.point, true))
  {
  }

  /** A node located in BASIC and asked for in BASIC (or an unknown frame) is returned as it is, both ways. */
  lemma LocateInBasic(frames: map<int, F.Frame>, g: GridCard, target: int, fuel: nat)
    requires g.cp == 0 && target !in frames
    ensures LocateAsWritten(frames, g, target, fuel) == F.Done(g.point)
    ensures Locate(frames, g, target, fuel) == F.Done(g.point)
  {
  }

  /** The four connection lists of a GRID. */
  datatype ListKind = CQUADs | CBUSHes | RBE2s | RBE3s

  /** One connection list of a node. */
  function List(g: Grid, kind: ListKind): seq<int>
    reads g
  {
    match kind
    case CQUADs => g.cquads
    case CBUSHes => g.cbushes
    case RBE2s => g.rbe2s
    case RBE3s => g.rbe3s
  }

  /** Each ID of the model's GRID map names its own GRID object. */
  predicate Injective(grids: map<int, Grid>)
  {
    forall a, b :: a in grids && b in grids && a != b ==> grids[a] != grids[b]
  }

  ghost predicate AllValid(grids: map<int, Grid>)
    reads set k | k in grids :: grids[k]
  {
    forall k :: k in grids ==> grids[k].Valid()
  }

  /** The card data of every node in the map. */
  function Cards(grids: map<int, Grid>): map<int, GridCard>
    reads set k | k in grids :: grids[k]
  {
    map k | k in grids :: grids[k].Card()
  }

  /**
   * `if (GRID_Map.find(key) != end) GRID_Map[key]->add*_Connect(e)`: the
   * node `key`, when the model has it, registers `e` in one list; every
   * other list and every other node is left as it was.
   */
  method Connect(grids: map<int, Grid>, key: int, e: int, kind: ListKind)
    requires Injective(grids) && AllValid(grids)
    modifies set k | k in grids :: grids[k]
    ensures AllValid(grids)
    ensures forall k, kd :: k in grids ==>
      List(grids[k], kd) == if k == key && kd == kind then AppendIfAbsent(old(List(grids[k], kd)), e) else old(List(grids[k], kd))
    ensures forall k :: k in grids ==> grids[k].Card() == old(grids[k].Card())
  {
    if key in grids {
      var g := grids[key];
      match kind
      case CQUADs =>
        var _ := g.AddCQUADConnect(e);
      case CBUSHes =>
        var _ := g.AddCBUSHConnect(e);
      case RBE2s =>
        var _ := g.AddRBE2Connect(e);
      case RBE3s =>
        var _ := g.AddRBE3Connect(e);
    }
  }

  /** Registering twice is registering once. */
  lemma AppendIfAbsentTwice(s: seq<int>, e: int)
    ensures AppendIfAbsent(AppendIfAbsent(s, e), e) == AppendIfAbsent(s, e)
  {
  }

  /**
   * A `nodeConnect` loop: every listed node the model has registers `e` in
   * one list (once, however often it is listed); nothing else changes.
   */
  method ConnectAll(grids: map<int, Grid>, keys: seq<int>, e: int, kind: ListKind)
    requires Injective(grids) && AllValid(grids)
    modifies set k | k in grids :: grids[k]
    ensures AllValid(grids)
    ensures forall k, kd :: k in grids ==>
      List(grids[k], kd) == if k in keys && kd == kind then AppendIfAbsent(old(List(grids[k], kd)), e) else old(List(grids[k], kd))
    ensures forall k :: k in grids ==> grids[k].Card() == old(grids[k].Card())
  {
    ghost var before := map k | k in grids :: List(grids[k], kind);
    for i := 0 to |keys|
      invariant AllValid(grids)
      invariant forall k :: k in grids ==>
        List(grids[k], kind) == if k in keys[..i] then AppendIfAbsent(before[k], e) else before[k]
      invariant forall k, kd :: k in grids && kd != kind ==> List(grids[k], kd) == old(List(grids[k], kd))
      invariant forall k :: k in grids ==> grids[k].Card() == old(grids[k].Card())
    {
      ConnectNext(grids, keys, i, e, kind, before);
    }
    assert keys[..|keys|] == keys;
  }

  /** One pass of a `nodeConnect` loop: the node `keys[i]` joins those already registered. */
  method ConnectNext(grids: map<int, Grid>, keys: seq<int>, i: nat, e: int, kind: ListKind, ghost before: map<int, seq<int>>)
    requires Injective(grids) && AllValid(grids) && i < |keys| && grids.Keys <= before.Keys
    requires forall k :: k in grids ==>
      List(grids[k], kind) == if k in keys[..i] then AppendIfAbsent(before[k], e) else before[k]
    modifies set k | k in grids :: grids[k]
    ensures AllValid(grids)
    ensures forall k :: k in grids ==>
      List(grids[k], kind) == if k in keys[..i + 1] then AppendIfAbsent(before[k], e) else before[k]
    ensures forall k, kd :: k in grids && kd != kind ==> List(grids[k], kd) == old(List(grids[k], kd))
    ensures forall k :: k in grids ==> grids[k].Card() == old(grids[k].Card())
  {
    assert keys[..i + 1] == keys[..i] + [keys[i]];
    Connect(grids, keys[i], e, kind);
  }

  class Grid {
    var id: int
    var cp: int
    var cd: int
    var point: C.Point
    var cquads: seq<int>
    var cbushes: seq<int>
    var rbe2s: seq<int>
    var rbe3s: seq<int>

    /** Every connection list is duplicate-free. */
    ghost predicate Valid()
      reads this
    {
      Distinct(cquads) && Distinct(cbushes) && Distinct(rbe2s) && Distinct(rbe3s)
    }

    function Card(): GridCard
      reads this
    {
      GridCard(id, cp, point, cd)
    }

    /** `GRID(BDF_data, long_format_flag)`. */
    constructor FromCard(lc: Libc, lines: seq<string>, long: bool)
      requires ParsableGrid(lines, long)
      ensures Valid() && Card() == ParseGrid(lc, lines, long)
      ensures cquads == [] && cbushes == [] && rbe2s == [] && rbe3s == []
    {
      var g := ParseGrid(lc, lines, long);
      id, cp, point, cd := g.id, g.cp, g.point, g.cd;
      cquads, cbushes, rbe2s, rbe3s := [], [], [], [];
    }

    /** `GRID(grid_ID)`: only the ID is set; the remaining values start at zero. */
    constructor (gid: int)
      ensures Valid() && Card() == GridCard(gid, 0, C.Origin, 0)
      ensures cquads == [] && cbushes == [] && rbe2s == [] && rbe3s == []
    {
      id, cp, point, cd := gid, 0, C.Origin, 0;
      cquads, cbushes, rbe2s, rbe3s := [], [], [], [];
    }

    /** `addCQUAD_Connect`: appends a new ID; the result says whether it was ALREADY listed. */
    method AddCQUADConnect(e: int) returns (present: bool)
      requires Valid()
      modifies this`cquads
      ensures Valid()
      ensures present <==> e in old(cquads)
      ensures cquads == AppendIfAbsent(old(cquads), e)
    {
      for i := 0 to |cquads|
        invariant e !in cquads[..i]
      {
        if cquads[i] == e {
          return true;
        }
      }
      assert cquads[..|cquads|] == cquads;
      AppendIfAbsentProperties(cquads, e);
      cquads := cquads + [e];
      return false;
    }

    /** `addCBUSH_Connect`: appends a new ID; the result says whether it WAS appended. */
    method AddCBUSHConnect(e: int) returns (added: bool)
      requires Valid()
      modifies this`cbushes
      ensures Valid()
      ensures added <==> e !in old(cbushes)
      ensures cbushes == AppendIfAbsent(old(cbushes), e)
    {
      for i := 0 to |cbushes|
        invariant e !in cbushes[..i]
      {
        if cbushes[i] == e {
          return false;
        }
      }
      assert cbushes[..|cbushes|] == cbushes;
      AppendIfAbsentProperties(cbushes, e);
      cbushes := cbushes + [e];
      return true;
    }

    /** `addRBE2_Connect`: as `addCBUSH_Connect`, on the RBE2 list. */
    method AddRBE2Connect(e: int) returns (added: bool)
      requires Valid()
      modifies this`rbe2s
      ensures Valid()
      ensures added <==> e !in old(rbe2s)
      ensures rbe2s == AppendIfAbsent(old(rbe2s), e)
    {
      for i := 0 to |rbe2s|
        invariant e !in rbe2s[..i]
      {
        if rbe2s[i] == e {
          return false;
        }
      }
      assert rbe2s[..|rbe2s|] == rbe2s;
      AppendIfAbsentProperties(rbe2s, e);
      rbe2s := rbe2s + [e];
      return true;
    }

    /** `addRBE3_Connect`: as `addCBUSH_Connect`, on the RBE3 list. */
    method AddRBE3Connect(e: int) returns (added: bool)
      requires Valid()
      modifies this`rbe3s
      ensures Valid()
      ensures added <==> e !in old(rbe3s)
      ensures rbe3s == AppendIfAbsent(old(rbe3s), e)
    {
      for i := 0 to |rbe3s|
        invariant e !in rbe3s[..i]
      {
        if rbe3s[i] == e {
          return false;
        }
      }
      assert rbe3s[..|rbe3s|] == rbe3s;
      AppendIfAbsentProperties(rbe3s, e);
      rbe3s := rbe3s + [e];
      return true;
    }

    /** `operator[]`: CP for 1, CD for 2, the grid ID otherwise. */
    function Index(i: int): (r: int)
      reads this
      ensures i == 1 ==> r == cp
      ensures i == 2 ==> r == cd
      ensures i != 1 && i != 2 ==> r == id
    {
      if i == 1 then cp else if i == 2 then cd else id
    }

    /** `operator()`: y for 1, z for 2, x otherwise (the location in CP). */
    function Component(i: int): (r: real)
      reads this
      ensures r == C.Index(point, i)
    {
      if i == 1 then point.y else if i == 2 then point.z else point.x
    }

    /** `get_coordinate` with the two walks as intended (see `Locate`). */
    method GetCoordinate(frames: map<int, F.Frame>, target: int, fuel: nat) returns (r: F.Outcome<C.Point>)
      ensures r == Locate(frames, Card(), target, fuel)
    {
      var w := F.WalkUp(frames, Up, cp, target, point, fuel);
      match w
      case Reached(y) =>
        return F.Done(y);
      case NullFrame =>
        return F.Crash;
      case OutOfFuel =>
        return F.Diverges;
      case AtBasic(y) =>
        var l := F.CollectFrames(frames, target, fuel);
        match l
        case None =>
          return F.Diverges;
        case Some(list) =>
          if F.AllPresent(frames, list) {
            var z := F.ApplyFrames(frames, Down, list, y);
            return F.Done(z);
          }
          return F.Crash;
    }
  }
}
