/**
 * `PSHELL`: a shell property card. It keeps four IDs (PID, MID1, MID2,
 * MID3) and three values (the thickness T, the bending inertia ratio 12I/T³
 * and the transverse shear ratio TS/T) in two fixed arrays.
 */
module Pshells {
  import opened Runtime
  import opened Text

  /**
   * The field list `parseBDFData` builds: a short card reads the eight
   * fields of its first line only, a long card four fields from every line.
   */
  function PshellFields(lines: seq<string>, long: bool): seq<string>
    requires |lines| >= 1
  {
    if long then Fields(lines, true) else Fields(lines[..1], false)
  }

  /** A short card has eight fields whatever follows its first line; a long card four per line. */
  lemma PshellFieldsCount(lines: seq<string>, long: bool)
    requires |lines| >= 1 && Padded(lines)
    ensures |PshellFields(lines, long)| == if long then 4 * |lines| else 8
  {
    if long {
      forall l | 0 <= l < |lines|
        ensures |ColumnFields(lines[l], 8, 16, 16)| == 4
      {
        LargeFieldLayout(lines[l], 16);
      }
      CardFieldsLength(lines, 16, 16, 4);
    } else {
      SmallFieldLayout(lines[0]);
      assert CardFields(lines[..1], 8, 8) == CardFields([], 8, 8) + ColumnFields(lines[0], 8, 8, 8);
    }
  }

  /** A short card's continuation lines are never read. */
  lemma ShortReadsFirstLine(lines: seq<string>, other: seq<string>)
    requires |lines| >= 1 && |other| >= 1 && lines[0] == other[0]
    ensures PshellFields(lines, false) == PshellFields(other, false)
  {
    assert lines[..1] == other[..1];
  }

  /** The value of field k after `check_exp`. */
  function Value(lc: Libc, fs: seq<string>, k: nat): real
  {
    lc.atof(CheckExp(Field(fs, k)))
  }

  /** A material ID read from field k, or `mid1` when the field is blank. */
  function MidOr(lc: Libc, fs: seq<string>, k: nat, mid1: int): (r: int)
    ensures IsBlank(Field(fs, k)) ==> r == mid1
    ensures !IsBlank(Field(fs, k)) ==> r == lc.atol(CheckExp(Field(fs, k)))
  {
    CheckExpBlank(Field(fs, k));
    var s := CheckExp(Field(fs, k));
    if s == "" then mid1 else lc.atol(s)
  }

  /** A ratio read from field k, or `default` when the field is blank. */
  function RatioOr(lc: Libc, fs: seq<string>, k: nat, default: real): (r: real)
    ensures IsBlank(Field(fs, k)) ==> r == default
    ensures !IsBlank(Field(fs, k)) ==> r == Value(lc, fs, k)
  {
    CheckExpBlank(Field(fs, k));
    var s := CheckExp(Field(fs, k));
    if s == "" then default else lc.atof(s)
  }

  /**
   * The four IDs: PID from field 0 and MID1 from field 1 as they stand;
   * MID2 (field 3) and MID3 (field 5) are MID1 when their field is blank.
   */
  function PshellIds(lc: Libc, fs: seq<string>): (r: seq<int>)
    ensures |r| == 4 && r[0] == lc.atol(Field(fs, 0)) && r[1] == lc.atol(Field(fs, 1))
    ensures r[2] == MidOr(lc, fs, 3, r[1]) && r[3] == MidOr(lc, fs, 5, r[1])
  {
    var mid1 := lc.atol(Field(fs, 1));
    [lc.atol(Field(fs, 0)), mid1, MidOr(lc, fs, 3, mid1), MidOr(lc, fs, 5, mid1)]
  }

  /**
   * The three values: T from field 2; 12I/T³ (field 4) is 1.0 and TS/T
   * (field 6) is 0.833333 when their field is blank.
   */
  function PshellValues(lc: Libc, fs: seq<string>): (r: seq<real>)
    ensures |r| == 3 && r[0] == Value(lc, fs, 2)
    ensures IsBlank(Field(fs, 4)) ==> r[1] == 1.0
    ensures !IsBlank(Field(fs, 4)) ==> r[1] == Value(lc, fs, 4)
    ensures IsBlank(Field(fs, 6)) ==> r[2] == 0.833333
    ensures !IsBlank(Field(fs, 6)) ==> r[2] == Value(lc, fs, 6)
  {
    [Value(lc, fs, 2), RatioOr(lc, fs, 4, 1.0), RatioOr(lc, fs, 6, 0.833333)]
  }

  /** `operator[]`: the ID in slot i for i < 4, the PID otherwise. */
  function IdAt(ids: seq<int>, i: nat): int
    requires |ids| == 4
  {
    if i < 4 then ids[i] else ids[0]
  }

  /** `operator()`: the value in slot i for i < 3, T otherwise. */
  function ValueAt(values: seq<real>, i: nat): real
    requires |values| == 3
  {
    if i < 3 then values[i] else values[0]
  }

  /**
   * A card that names only MID1 uses that one material for membrane,
   * bending and shear, and any index past the IDs reads the PID.
   */
  lemma SingleMaterial(lc: Libc, fs: seq<string>, i: nat)
    requires IsBlank(Field(fs, 3)) && IsBlank(Field(fs, 5))
    ensures var ids := PshellIds(lc, fs);
      (1 <= i < 4 ==> IdAt(ids, i) == lc.atol(Field(fs, 1))) && (i >= 4 ==> IdAt(ids, i) == lc.atol(Field(fs, 0)))
  {
  }

  /** Any index past the values reads T. */
  lemma ValueAtDefault(lc: Libc, fs: seq<string>, i: nat)
    requires i >= 3
    ensures ValueAt(PshellValues(lc, fs), i) == Value(lc, fs, 2)
  {
  }

  /**
   * The card as the source reads it: `LineData[k]` up to k = 6 with no
   * bound check, so a field list of seven or fewer entries has no defined
   * result (None); otherwise the IDs and the values.
   */
  function ReadAsWritten(lc: Libc, fs: seq<string>): Option<(seq<int>, seq<real>)>
  {
    if |fs| <= 6 then None else Some((PshellIds(lc, fs), PshellValues(lc, fs)))
  }

  /**
   * Short cards and long cards of two or more lines stay in range, and
   * there reading a missing field as blank changes nothing; a long card of
   * one line does not.
   */
  lemma ReadAsWrittenInRange(lc: Libc, lines: seq<string>, long: bool)
    requires |lines| >= 1 && Padded(lines)
    ensures var fs := PshellFields(lines, long);
      (ReadAsWritten(lc, fs).Some? <==> !long || |lines| >= 2) &&
      (ReadAsWritten(lc, fs).Some? ==> ReadAsWritten(lc, fs).value == (PshellIds(lc, fs), PshellValues(lc, fs)))
  {
    PshellFieldsCount(lines, long);
  }

  /** A PSHELL in large field on one line: PID 1, MID1 2, T 0.1, MID2 3. */
  const LongPshellLine: string :=
    "PSHELL*                1               2             0.1               3        "

  /**
   * The one-line PSHELL* card has four fields, yet the source reads
   * `LineData[6]`; read as blank, the missing MID3 defaults to MID1 and
   * the two ratios take their defaults.
   */
  lemma OneLineLongPshellReadsPastEnd(lc: Libc)
    ensures var fs := PshellFields([LongPshellLine], true);
      |fs| == 4 && ReadAsWritten(lc, fs) == None
      && PshellIds(lc, fs)[3] == PshellIds(lc, fs)[1]
      && PshellValues(lc, fs)[1] == 1.0 && PshellValues(lc, fs)[2] == 0.833333
  {
    PshellFieldsCount([LongPshellLine], true);
  }

  class Pshell {
    const ids: array<int>
    const values: array<real>

    ghost predicate Valid()
      reads this
    {
      ids.Length == 4 && values.Length == 3
    }

    /** `PSHELL()`: the slots are not yet assigned. */
    constructor ()
      ensures Valid() && fresh(ids) && fresh(values)
    {
      ids := new int[4];
      values := new real[3];
    }

    /** `operator[]`. */
    function Id(i: nat): int
      reads this, ids
      requires Valid()
    {
      IdAt(ids[..], i)
    }

    /** `operator()`. */
    function Val(i: nat): real
      reads this, values
      requires Valid()
    {
      ValueAt(values[..], i)
    }

    /**
     * `parseBDFData`: every ID and every value comes from the card's
     * fields, with MID1 standing in for a blank MID2 or MID3 and the two
     * ratio defaults. A field past the end of the list reads as blank.
     */
    method ParseBDFData(lc: Libc, lines: seq<string>, long: bool)
      requires Valid() && |lines| >= 1 && Padded(lines)
      modifies ids, values
      ensures ids[..] == PshellIds(lc, PshellFields(lines, long))
      ensures values[..] == PshellValues(lc, PshellFields(lines, long))
    {
      var fs;
      if long {
        fs := SplitFields(lines, 16, 16);
      } else {
        fs := SplitFields(lines[..1], 8, 8);
      }
      FillIds(lc, fs);
      FillValues(lc, fs);
    }

    /** The ID half of `parseBDFData`. */
    method FillIds(lc: Libc, fs: seq<string>)
      requires Valid()
      modifies ids
      ensures ids[..] == PshellIds(lc, fs)
    {
      for i := 0 to 2
        invariant forall k :: 0 <= k < i ==> ids[k] == lc.atol(Field(fs, k))
      {
        ids[i] := lc.atol(Field(fs, i));
      }
      var str := CheckExp(Field(fs, 3));
      ids[2] := if str == "" then ids[1] else lc.atol(str);
      str := CheckExp(Field(fs, 5));
      ids[3] := if str == "" then ids[1] else lc.atol(str);
      assert ids[..] == [ids[0], ids[1], ids[2], ids[3]];
    }

    /** The value half of `parseBDFData`. */
    method FillValues(lc: Libc, fs: seq<string>)
      requires Valid()
      modifies values
      ensures values[..] == PshellValues(lc, fs)
    {
      values[0] := lc.atof(CheckExp(Field(fs, 2)));
      var str := CheckExp(Field(fs, 4));
      values[1] := if str == "" then 1.0 else lc.atof(str);
      str := CheckExp(Field(fs, 6));
      values[2] := if str == "" then 0.833333 else lc.atof(str);
      assert values[..] == PshellValues(lc, fs);
    }
  }
}
