/**
 * `PCOMP`: a composite laminate property card. The header gives the
 * property ID, the offset Z0 and the layup code LAM; the ply lines give,
 * in groups of eight fields, two plies each (MID, T, THETA, SOUT twice).
 * A ply is kept in three parallel lists (material, thickness, orientation)
 * and counted in an unsigned short.
 */
module Pcomps {
  import opened Runtime
  import opened Text

  /** `unsigned short` wraps at 2^16. */
  const ShortRange: int := 65536

  /** The lines holding the header: one in small field, two in large field. */
  function HeaderLines(long: bool): nat
  {
    if long then 2 else 1
  }

  /** The eight header fields: PID, Z0, NSM, SB, FT, TREF, GE, LAM. */
  function HeaderFields(lines: seq<string>, long: bool): seq<string>
    requires |lines| >= HeaderLines(long)
  {
    Fields(lines[..HeaderLines(long)], long)
  }

  /** The ply fields: every field of every line after the header, in order. */
  function PlyFields(lines: seq<string>, long: bool): seq<string>
    requires |lines| >= HeaderLines(long)
  {
    Fields(lines[HeaderLines(long)..], long)
  }

  /** The offset Z0: -0.5 when the field is blank. */
  function ZOff(lc: Libc, hs: seq<string>): (z: real)
    ensures IsBlank(Field(hs, 1)) ==> z == -0.5
    ensures !IsBlank(Field(hs, 1)) ==> z == lc.atof(CheckExp(Field(hs, 1)))
  {
    CheckExpBlank(Field(hs, 1));
    var s := CheckExp(Field(hs, 1));
    if s == "" then -0.5 else lc.atof(s)
  }

  /** The layup code after the header: 1 for SYM, 2 for SMCORE, the previous code otherwise. */
  function Layup(hs: seq<string>, previous: int): (code: int)
    ensures code == 1 <==> CheckExp(Field(hs, 7)) == "SYM" || (previous == 1 && CheckExp(Field(hs, 7)) != "SMCORE")
    ensures code == 2 <==> CheckExp(Field(hs, 7)) == "SMCORE" || (previous == 2 && CheckExp(Field(hs, 7)) != "SYM")
    ensures CheckExp(Field(hs, 7)) !in {"SYM", "SMCORE"} ==> code == previous
  {
    var lam := CheckExp(Field(hs, 7));
    if lam == "SYM" then 1 else if lam == "SMCORE" then 2 else previous
  }

  /** One recorded ply. */
  datatype Ply = Ply(mid: int, thickness: real, theta: real)

  /**
   * The ply slot starting at field j of the ply fields `ps`, whose
   * `check_exp` results are `cs`: recorded when its THETA field (j + 2)
   * holds text, with MID taken as it stands and T and THETA checked.
   */
  function Slot(lc: Libc, ps: seq<string>, cs: seq<string>, j: nat): (r: seq<Ply>)
    ensures |r| <= 1
  {
    if Field(cs, j + 2) != "" then [PlyAt(lc, ps, cs, j)] else []
  }

  /** The ply of the slot at field j: MID as it stands, T and THETA checked. */
  function PlyAt(lc: Libc, ps: seq<string>, cs: seq<string>, j: nat): Ply
  {
    Ply(lc.atol(Field(ps, j)), lc.atof(Field(cs, j + 1)), lc.atof(Field(cs, j + 2)))
  }

  /** The group of eight fields starting at field i: two slots, at offsets 0 and 4. */
  function Group(lc: Libc, ps: seq<string>, cs: seq<string>, i: nat): (r: seq<Ply>)
    ensures |r| <= 2
  {
    Slot(lc, ps, cs, i) + Slot(lc, ps, cs, i + 4)
  }

  /** The plies of the groups starting at field i, i + 8, ... */
  function PliesFrom(lc: Libc, ps: seq<string>, cs: seq<string>, i: nat): seq<Ply>
    decreases |ps| - i
  {
    if i >= |ps| then [] else Group(lc, ps, cs, i) + PliesFrom(lc, ps, cs, i + 8)
  }

  /** One more group of the ply loop. */
  lemma PliesFromStep(lc: Libc, ps: seq<string>, cs: seq<string>, i: nat)
    requires i < |ps|
    ensures PliesFrom(lc, ps, cs, i) == Group(lc, ps, cs, i) + PliesFrom(lc, ps, cs, i + 8)
  {
  }

  /** Every ply of a card, from its ply fields. */
  function Plies(lc: Libc, ps: seq<string>): seq<Ply>
  {
    PliesFrom(lc, ps, Checked(ps), 0)
  }

  /**
   * A slot is recorded exactly when its THETA field is not blank, and
   * then it holds that field's MID and THETA.
   */
  lemma SlotRecorded(lc: Libc, ps: seq<string>, j: nat)
    ensures var r := Slot(lc, ps, Checked(ps), j);
      (|r| == 1 <==> !IsBlank(Field(ps, j + 2)))
      && (|r| == 1 ==> r[0].mid == lc.atol(Field(ps, j)) && r[0].theta == lc.atof(CheckExp(Field(ps, j + 2))))
  {
    CheckedField(ps, j + 2);
    CheckExpBlank(Field(ps, j + 2));
  }

  /** A ply section with no orientation given records no ply. */
  lemma {:induction false} NoThetaNoPlies(lc: Libc, ps: seq<string>, i: nat)
    requires i % 4 == 0
    requires forall k :: 0 <= k < |ps| ==> (k % 4 == 2 ==> IsBlank(ps[k]))
    ensures PliesFrom(lc, ps, Checked(ps), i) == []
    decreases |ps| - i
  {
    if i < |ps| {
      assert (i + 2) % 4 == 2 && (i + 6) % 4 == 2 && (i + 8) % 4 == 0;
      SlotRecorded(lc, ps, i);
      SlotRecorded(lc, ps, i + 4);
      NoThetaNoPlies(lc, ps, i + 8);
    }
  }

  /** The material IDs of a ply list. */
  function Mids(plies: seq<Ply>): (r: seq<int>)
    ensures |r| == |plies| && forall k :: 0 <= k < |plies| ==> r[k] == plies[k].mid
  {
    if plies == [] then [] else Mids(plies[..|plies| - 1]) + [plies[|plies| - 1].mid]
  }

  /** The thicknesses of a ply list. */
  function Thicknesses(plies: seq<Ply>): (r: seq<real>)
    ensures |r| == |plies| && forall k :: 0 <= k < |plies| ==> r[k] == plies[k].thickness
  {
    if plies == [] then [] else Thicknesses(plies[..|plies| - 1]) + [plies[|plies| - 1].thickness]
  }

  /** The orientations of a ply list. */
  function Thetas(plies: seq<Ply>): (r: seq<real>)
    ensures |r| == |plies| && forall k :: 0 <= k < |plies| ==> r[k] == plies[k].theta
  {
    if plies == [] then [] else Thetas(plies[..|plies| - 1]) + [plies[|plies| - 1].theta]
  }

  /** `++` on an unsigned short: 65535 wraps to 0. */
  function Inc(c: int): (r: int)
    requires 0 <= c < ShortRange
    ensures 0 <= r < ShortRange
  {
    if c + 1 == ShortRange then 0 else c + 1
  }

  /** The ply counter after `n` increments from `start`. */
  function CountAfter(start: int, n: nat): (c: int)
    requires 0 <= start < ShortRange
    ensures 0 <= c < ShortRange
  {
    if n == 0 then start else Inc(CountAfter(start, n - 1))
  }

  /** Counting wraps modulo 2^16: n increments from `start` give (start + n) mod 65536. */
  lemma {:induction false} CountMod(start: int, n: nat)
    requires 0 <= start < ShortRange
    ensures CountAfter(start, n) == (start + n) % ShortRange
  {
    if n > 0 {
      CountMod(start, n - 1);
      var c := CountAfter(start, n - 1);
      var q := (start + n - 1) / ShortRange;
      assert start + n == q * ShortRange + (c + 1);
      ModShift(c + 1, q);
    }
  }

  /**
   * A counter that does not start at 0 is out of step with the ply lists
   * for good: whatever the number of plies, it never equals the count.
   */
  lemma CountDrifts(start: int, n: nat)
    requires 0 < start < ShortRange
    ensures CountAfter(start, n) != CountAfter(0, n)
  {
    CountMod(start, n);
    CountMod(0, n);
    var q1, q2 := (start + n) / ShortRange, n / ShortRange;
    assert start + n == q1 * ShortRange + CountAfter(start, n);
    assert n == q2 * ShortRange + CountAfter(0, n);
    var k := q1 - q2;
    assert CountAfter(start, n) - CountAfter(0, n) == start - k * ShortRange;
    if k <= 0 {
      assert k * ShortRange <= 0;
    } else {
      assert k * ShortRange >= ShortRange;
    }
  }

  /** The three ply lists and the ply counter of a card. */
  datatype PlyLists = PlyLists(mids: seq<int>, thickness: seq<real>, thetas: seq<real>, count: int)

  /** Recording one ply: push its three values and increment the counter. */
  function Push(t: PlyLists, p: Ply): (r: PlyLists)
    requires 0 <= t.count < ShortRange
    ensures 0 <= r.count < ShortRange
  {
    PlyLists(t.mids + [p.mid], t.thickness + [p.thickness], t.thetas + [p.theta], Inc(t.count))
  }

  /** Recording plies one after the other, in order. */
  function PushAll(t: PlyLists, plies: seq<Ply>): (r: PlyLists)
    requires 0 <= t.count < ShortRange
    ensures 0 <= r.count < ShortRange
    decreases |plies|
  {
    if plies == [] then t else Push(PushAll(t, plies[..|plies| - 1]), plies[|plies| - 1])
  }

  /** Recording a then b is recording a + b. */
  lemma {:induction false} PushAllAppend(t: PlyLists, a: seq<Ply>, b: seq<Ply>)
    requires 0 <= t.count < ShortRange
    ensures PushAll(t, a + b) == PushAll(PushAll(t, a), b)
    decreases |b|
  {
    if b == [] {
      assert a + b == a;
    } else {
      var m := |b| - 1;
      assert (a + b)[..|a + b| - 1] == a + b[..m];
      PushAllAppend(t, a, b[..m]);
    }
  }

  /**
   * Recording plies appends each list's column of the plies, in order,
   * and advances the counter by their number, wrapping at 2^16.
   */
  lemma {:induction false} PushAllColumns(t: PlyLists, plies: seq<Ply>)
    requires 0 <= t.count < ShortRange
    ensures PushAll(t, plies) == PlyLists(t.mids + Mids(plies), t.thickness + Thicknesses(plies),
      t.thetas + Thetas(plies), CountAfter(t.count, |plies|))
    decreases |plies|
  {
    if plies == [] {
      assert t.mids + [] == t.mids && t.thickness + [] == t.thickness && t.thetas + [] == t.thetas;
    } else {
      var m := |plies| - 1;
      var p := plies[m];
      PushAllColumns(t, plies[..m]);
      Assoc(t.mids, Mids(plies[..m]), [p.mid]);
      Assoc(t.thickness, Thicknesses(plies[..m]), [p.thickness]);
      Assoc(t.thetas, Thetas(plies[..m]), [p.theta]);
    }
  }

  /** The lists have one entry per ply and the counter matches their length. */
  predicate Consistent(t: PlyLists)
  {
    |t.thickness| == |t.mids| && |t.thetas| == |t.mids| && t.count == CountAfter(0, |t.mids|)
  }

  /** Recording plies keeps consistent lists consistent. */
  lemma {:induction false} PushAllConsistent(t: PlyLists, plies: seq<Ply>)
    requires Consistent(t)
    ensures Consistent(PushAll(t, plies))
    decreases |plies|
  {
    if plies != [] {
      PushAllConsistent(t, plies[..|plies| - 1]);
    }
  }

  /** Starting from no plies, the lists are the columns of the plies and the counter has advanced by their number. */
  lemma PushAllFromEmpty(c: int, plies: seq<Ply>)
    requires 0 <= c < ShortRange
    ensures var r := PushAll(PlyLists([], [], [], c), plies);
      r.mids == Mids(plies) && r.thickness == Thicknesses(plies) && r.thetas == Thetas(plies)
      && r.count == CountAfter(c, |plies|)
  {
    PushAllColumns(PlyLists([], [], [], c), plies);
    EmptyAppend(Mids(plies));
    EmptyAppend(Thicknesses(plies));
    EmptyAppend(Thetas(plies));
  }

  lemma ModShift(x: int, q: int)
    ensures (q * ShortRange + x) % ShortRange == x % ShortRange
  {
  }

  /** `operator[]`: the laminate property in slot i for i < 6, E11 otherwise. */
  function StiffnessAt(s: seq<real>, i: nat): real
    requires |s| == 6
  {
    if i < 6 then s[i] else s[0]
  }

  class Pcomp {
    var propertyId: int
    var zOff: real
    /** `pLaminateValues`: the layup code and the ply counter, both unsigned short. */
    const laminate: array<int>
    var materialIds: seq<int>
    var thickness: seq<real>
    var orientation: seq<real>
    /** `Laminate_Stiffness`: E11, E22, NU12, NU21, G12, t. */
    const stiffness: array<real>

    ghost predicate Valid()
      reads this, laminate
    {
      laminate.Length == 2 && stiffness.Length == 6
      && 0 <= laminate[0] < ShortRange && 0 <= laminate[1] < ShortRange
    }

    /** The three ply lists have one entry per ply and the counter matches them. */
    ghost predicate InStep()
      reads this, laminate
      requires Valid()
    {
      Consistent(Lists())
    }

    /** The ply lists and the counter as one value. */
    ghost function Lists(): PlyLists
      reads this, laminate
      requires laminate.Length == 2
    {
      PlyLists(materialIds, thickness, orientation, laminate[1])
    }

    /** `PCOMP()`: layup code and ply counter 0, no plies. */
    constructor ()
      ensures Valid() && InStep() && fresh(laminate) && fresh(stiffness)
      ensures laminate[..] == [0, 0] && materialIds == [] && thickness == [] && orientation == []
    {
      laminate := new int[2];
      stiffness := new real[6];
      materialIds, thickness, orientation := [], [], [];
      new;
      laminate[0], laminate[1] := 0, 0;
    }

    /**
     * `PCOMP(BDF_Data, LongFormatFlag)` as evidently intended: start from
     * the state `PCOMP()` sets up, then parse. The lists and the counter
     * are in step afterwards.
     */
    constructor FromCard(lc: Libc, lines: seq<string>, long: bool)
      requires |lines| >= HeaderLines(long) && Padded(lines)
      ensures Valid() && InStep() && fresh(laminate) && fresh(stiffness)
      ensures var plies := Plies(lc, PlyFields(lines, long));
        laminate[0] == Layup(HeaderFields(lines, long), 0) && laminate[1] == CountAfter(0, |plies|)
        && materialIds == Mids(plies) && thickness == Thicknesses(plies) && orientation == Thetas(plies)
    {
      laminate := new int[2];
      stiffness := new real[6];
      materialIds, thickness, orientation := [], [], [];
      new;
      laminate[0], laminate[1] := 0, 0;
      ParseBDFData(lc, lines, long);
      PushAllFromEmpty(0, Plies(lc, PlyFields(lines, long)));
    }

    /**
     * `PCOMP(BDF_Data, LongFormatFlag)` as written: its body's `PCOMP();`
     * builds and discards a temporary, so the layup code and the counter
     * keep whatever the allocation left (`layup0`, `count0`).
     */
    constructor FromCardAsWritten(lc: Libc, lines: seq<string>, long: bool, layup0: int, count0: int)
      requires |lines| >= HeaderLines(long) && Padded(lines)
      requires 0 <= layup0 < ShortRange && 0 <= count0 < ShortRange
      ensures Valid() && fresh(laminate) && fresh(stiffness)
      ensures var plies := Plies(lc, PlyFields(lines, long));
        laminate[1] == CountAfter(count0, |plies|) && materialIds == Mids(plies)
    {
      laminate := new int[2];
      stiffness := new real[6];
      materialIds, thickness, orientation := [], [], [];
      new;
      laminate[0], laminate[1] := layup0, count0;
      ParseBDFData(lc, lines, long);
      PushAllFromEmpty(count0, Plies(lc, PlyFields(lines, long)));
    }

    /** `getPropertyID`. */
    function PropertyID(): int
      reads this
    {
      propertyId
    }

    /** `getZOff`. */
    function ZOffset(): real
      reads this
    {
      zOff
    }

    /** `operator[]`. */
    function Stiffness(i: nat): real
      reads this, laminate, stiffness
      requires Valid()
    {
      StiffnessAt(stiffness[..], i)
    }

    /**
     * `parseBDFData`: the header sets the property ID, Z0 and the layup
     * code; each recorded ply adds one entry to each of the three lists
     * and one to the counter, in card order.
     */
    method ParseBDFData(lc: Libc, lines: seq<string>, long: bool)
      requires Valid() && |lines| >= HeaderLines(long) && Padded(lines)
      modifies this, laminate
      ensures Valid()
      ensures var hs := HeaderFields(lines, long);
        propertyId == lc.atol(Field(hs, 0)) && zOff == ZOff(lc, hs)
        && laminate[0] == Layup(hs, old(laminate[0]))
      ensures Lists() == PushAll(old(Lists()), Plies(lc, PlyFields(lines, long)))
      ensures old(InStep()) ==> InStep()
    {
      var step := if long then 16 else 8;
      var hs := SplitFields(lines[..HeaderLines(long)], step, step);
      ParseHeader(lc, hs);
      ghost var before := Lists();
      ParsePlies(lc, lines, long);
      if Consistent(before) {
        PushAllConsistent(before, Plies(lc, PlyFields(lines, long)));
      }
    }

    /** The ply half of `parseBDFData`: split the ply lines, then record each slot. */
    method ParsePlies(lc: Libc, lines: seq<string>, long: bool)
      requires Valid() && |lines| >= HeaderLines(long) && Padded(lines)
      modifies this`materialIds, this`thickness, this`orientation, laminate
      ensures Valid() && laminate[0] == old(laminate[0])
      ensures Lists() == PushAll(old(Lists()), Plies(lc, PlyFields(lines, long)))
    {
      var step := if long then 16 else 8;
      var ps := SplitFields(lines[HeaderLines(long)..], step, step);
      var cs := CheckFields(ps);
      RecordPlies(lc, ps, cs);
    }

    /** The header half of `parseBDFData`: PID, Z0 and LAM. */
    method ParseHeader(lc: Libc, hs: seq<string>)
      requires Valid()
      modifies this`propertyId, this`zOff, laminate
      ensures Valid() && laminate[1] == old(laminate[1])
      ensures propertyId == lc.atol(Field(hs, 0)) && zOff == ZOff(lc, hs) && laminate[0] == Layup(hs, old(laminate[0]))
    {
      var pid := lc.atol(Field(hs, 0));
      var z := CheckExp(Field(hs, 1));
      var z0 := if z == "" then -0.5 else lc.atof(z);
      propertyId, zOff := pid, z0;
      SetLayup(hs);
    }

    /** LAM: SYM and SMCORE set the layup code; any other text leaves it. */
    method SetLayup(hs: seq<string>)
      requires Valid()
      modifies laminate
      ensures Valid() && laminate[1] == old(laminate[1]) && laminate[0] == Layup(hs, old(laminate[0]))
    {
      var lam := CheckExp(Field(hs, 7));
      if lam == "SYM" {
        laminate[0] := 1;
      }
      if lam == "SMCORE" {
        laminate[0] := 2;
      }
    }

    /** The ply loop of `parseBDFData`: one group of eight fields per pass. */
    method RecordPlies(lc: Libc, ps: seq<string>, cs: seq<string>)
      requires Valid()
      modifies this`materialIds, this`thickness, this`orientation, laminate
      ensures Valid() && laminate[0] == old(laminate[0])
      ensures Lists() == PushAll(old(Lists()), PliesFrom(lc, ps, cs, 0))
    {
      var i := 0;
      ghost var t0 := Lists();
      while i < |ps|
        invariant Valid() && laminate[0] == old(laminate[0])
        invariant PushAll(Lists(), PliesFrom(lc, ps, cs, i)) == PushAll(t0, PliesFrom(lc, ps, cs, 0))
        decreases |ps| - i
      {
        ghost var g, rest := Group(lc, ps, cs, i), PliesFrom(lc, ps, cs, i + 8);
        assert PliesFrom(lc, ps, cs, i) == g + rest;
        PushAllAppend(Lists(), g, rest);
        RecordGroup(lc, ps, cs, i);
        i := i + 8;
      }
    }

    /** One pass of the ply loop: the slots at offsets 0 and 4 of the group at field i. */
    method RecordGroup(lc: Libc, ps: seq<string>, cs: seq<string>, i: nat)
      requires Valid()
      modifies this`materialIds, this`thickness, this`orientation, laminate
      ensures Valid() && laminate[0] == old(laminate[0])
      ensures Lists() == PushAll(old(Lists()), Group(lc, ps, cs, i))
    {
      ghost var t0 := Lists();
      RecordSlot(lc, ps, cs, i);
      RecordSlot(lc, ps, cs, i + 4);
      PushAllAppend(t0, Slot(lc, ps, cs, i), Slot(lc, ps, cs, i + 4));
    }

    /** One slot: when its checked THETA field holds text, count it and append to each list. */
    method RecordSlot(lc: Libc, ps: seq<string>, cs: seq<string>, j: nat)
      requires Valid()
      modifies this`materialIds, this`thickness, this`orientation, laminate
      ensures Valid() && laminate[0] == old(laminate[0])
      ensures Lists() == PushAll(old(Lists()), Slot(lc, ps, cs, j))
    {
      if Field(cs, j + 2) != "" {
        var p := PlyAt(lc, ps, cs, j);
        laminate[1] := Inc(laminate[1]);
        materialIds := materialIds + [p.mid];
        thickness := thickness + [p.thickness];
        orientation := orientation + [p.theta];
        assert [p][..0] == [];
      }
    }
  }
}
