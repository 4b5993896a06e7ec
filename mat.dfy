/**
 * `MAT`: a MAT1 (isotropic) or MAT8 (orthotropic) material card. The card
 * keeps its material ID, a type code (1 for MAT1, 2 for MAT8, 0 before any
 * recognised card) and nine slots E11, E22, NU12, G12, G13, G23, RHO, A1, A2
 * in a fixed array.
 */
module Materials {
  import opened Runtime
  import opened Text

  /** The two blank fields `parseBDFData` appends to a card with too few lines. */
  function Padding(lineCount: nat, long: bool): seq<string>
  {
    if lineCount < (if long then 3 else 2) then ["", ""] else []
  }

  /**
   * The field list `parseBDFData` builds: the card name (columns 0-7), every
   * line's fields, then the padding.
   */
  function MatFields(lines: seq<string>, long: bool): seq<string>
    requires |lines| >= 1
  {
    [Substr(lines[0], 0, 8)] + Fields(lines, long) + Padding(|lines|, long)
  }

  /**
   * A short card contributes eight fields per line, a long card four, and
   * the padding comes on top: a short card always has at least 11 fields, a
   * long card 7 on one line and at least 11 from two lines on.
   */
  lemma MatFieldsCount(lines: seq<string>, long: bool)
    requires |lines| >= 1 && Padded(lines)
    ensures var n := |MatFields(lines, long)|;
      n == 1 + (if long then 4 else 8) * |lines| + |Padding(|lines|, long)|
      && n >= 7 && (!long ==> n >= 11) && (long ==> (n >= 11 <==> |lines| >= 2))
  {
    if long {
      forall l | 0 <= l < |lines|
        ensures |ColumnFields(lines[l], 8, 16, 16)| == 4
      {
        LargeFieldLayout(lines[l], 16);
      }
      CardFieldsLength(lines, 16, 16, 4);
    } else {
      forall l | 0 <= l < |lines|
        ensures |ColumnFields(lines[l], 8, 8, 8)| == 8
      {
        SmallFieldLayout(lines[l]);
      }
      CardFieldsLength(lines, 8, 8, 8);
    }
  }

  /** The type code a card name gives: 1 for MAT1/MAT1*, 2 for MAT8/MAT8*, 0 for anything else. */
  function TypeOf(name: string): (t: nat)
    ensures t <= 2
    ensures t == 1 <==> name in {"MAT1", "MAT1*"}
    ensures t == 2 <==> name in {"MAT8", "MAT8*"}
  {
    if name == "MAT1" || name == "MAT1*" then 1
    else if name == "MAT8" || name == "MAT8*" then 2
    else 0
  }

  /** The type code of a card: its name field passed through MAT's `check_exp`. */
  function CardType(fs: seq<string>): nat
    requires |fs| >= 1
  {
    TypeOf(CheckExpStripped(fs[0]))
  }

  /**
   * The name field is compared once every space is removed from it, so
   * spaces anywhere in it, inside the name too, do not change the type.
   */
  lemma CardTypeIgnoresSpaces(f: seq<string>, g: seq<string>)
    requires |f| >= 1 && |g| >= 1 && RemoveSpaces(f[0]) == RemoveSpaces(g[0])
    ensures CardType(f) == CardType(g)
  {
    CheckExpStrippedSpaces(f[0], g[0]);
  }

  /** The real value of field k after MAT's `check_exp`. */
  function Value(lc: Libc, fs: seq<string>, k: nat): real
  {
    lc.atof(CheckExpStripped(Field(fs, k)))
  }

  /**
   * The slots of a MAT1 card from E (field 2), G (3), NU (4), RHO (5) and
   * A (6): the material is the same in both directions, and G13 = G23 is
   * -1.0 when G is blank and G otherwise.
   */
  function Mat1Slots(lc: Libc, fs: seq<string>): (d: seq<real>)
    ensures |d| == 9
    ensures d[0] == d[1] == Value(lc, fs, 2)
    ensures d[2] == Value(lc, fs, 4) && d[3] == Value(lc, fs, 3)
    ensures d[4] == d[5] && d[7] == d[8] == Value(lc, fs, 6)
    ensures IsBlank(Field(fs, 3)) ==> d[4] == -1.0
    ensures !IsBlank(Field(fs, 3)) ==> d[4] == d[3]
  {
    var g := CheckExpStripped(Field(fs, 3));
    CheckExpStrippedBlank(Field(fs, 3));
    var shear := if g == "" then -1.0 else lc.atof(g);
    [Value(lc, fs, 2), Value(lc, fs, 2), Value(lc, fs, 4), lc.atof(g), shear, shear,
     Value(lc, fs, 5), Value(lc, fs, 6), Value(lc, fs, 6)]
  }

  /** The two halves `FillMat1` writes: E, E, NU, G and then the shear value twice, RHO, A, A. */
  lemma Mat1SlotsHalves(lc: Libc, fs: seq<string>)
    ensures var d, g := Mat1Slots(lc, fs), CheckExpStripped(Field(fs, 3));
      var shear := if g == "" then -1.0 else lc.atof(g);
      d == d[..4] + d[4..]
      && d[..4] == [Value(lc, fs, 2), Value(lc, fs, 2), Value(lc, fs, 4), lc.atof(g)]
      && d[4..] == [shear, shear, Value(lc, fs, 5), Value(lc, fs, 6), Value(lc, fs, 6)]
  {
  }

  /** Slot i of a MAT8 card, read from field i + 2, with the defaults for blank fields. */
  function Mat8Slot(lc: Libc, fs: seq<string>, i: nat): real
    requires i < 9
  {
    var s := CheckExpStripped(Field(fs, i + 2));
    if s == "" && (i == 1 || i == 2) then 0.001
    else if s == "" && (i == 4 || i == 5) then -1.0
    else lc.atof(s)
  }

  /** The nine slots of a MAT8 card. */
  function Mat8Slots(lc: Libc, fs: seq<string>): (d: seq<real>)
    ensures |d| == 9
  {
    seq(9, i requires 0 <= i < 9 => Mat8Slot(lc, fs, i))
  }

  /**
   * A blank E2 (field 3) or NU12 (field 4) becomes 0.001, a blank G1Z
   * (field 6) or G2Z (field 7) becomes -1.0; every other slot, and every
   * slot whose field holds text, is the field's value.
   */
  lemma Mat8Defaults(lc: Libc, fs: seq<string>)
    ensures var d := Mat8Slots(lc, fs);
      forall i :: 0 <= i < 9 ==>
        (IsBlank(Field(fs, i + 2)) && (i == 1 || i == 2) ==> d[i] == 0.001) &&
        (IsBlank(Field(fs, i + 2)) && (i == 4 || i == 5) ==> d[i] == -1.0) &&
        (!IsBlank(Field(fs, i + 2)) || i == 0 || i == 3 || i >= 6 ==> d[i] == Value(lc, fs, i + 2))
  {
    var d := Mat8Slots(lc, fs);
    forall i | 0 <= i < 9
      ensures (IsBlank(Field(fs, i + 2)) && (i == 1 || i == 2) ==> d[i] == 0.001) &&
        (IsBlank(Field(fs, i + 2)) && (i == 4 || i == 5) ==> d[i] == -1.0) &&
        (!IsBlank(Field(fs, i + 2)) || i == 0 || i == 3 || i >= 6 ==> d[i] == Value(lc, fs, i + 2))
    {
      CheckExpStrippedBlank(Field(fs, i + 2));
    }
  }

  /** The slots a recognised card fills. */
  function TypedSlots(lc: Libc, fs: seq<string>, t: nat): (d: seq<real>)
    requires t == 1 || t == 2
    ensures |d| == 9
  {
    if t == 1 then Mat1Slots(lc, fs) else Mat8Slots(lc, fs)
  }

  /** `operator[]`: slot i for i < 9, E11 otherwise. */
  function SlotAt(d: seq<real>, i: nat): real
    requires |d| == 9
  {
    if i < 9 then d[i] else d[0]
  }

  /**
   * On a MAT1 card an index out of range reads E11, which is also E22, and
   * the shear slots G13 and G23 read the same value.
   */
  lemma Mat1SlotAt(lc: Libc, fs: seq<string>, i: nat)
    ensures var d := Mat1Slots(lc, fs);
      (i >= 9 ==> SlotAt(d, i) == SlotAt(d, 0) == SlotAt(d, 1)) && SlotAt(d, 4) == SlotAt(d, 5)
  {
  }

  /** The highest field index the source reads for a card of type t. */
  function LastRead(t: nat): nat
  {
    if t == 1 then 6 else if t == 2 then 10 else 1
  }

  /**
   * The card as the source reads it: `LineData[k]` with no bound check, so
   * a card whose list is too short for the highest index its type reads
   * has no defined result (None); otherwise the slots of its type.
   */
  function ReadAsWritten(lc: Libc, fs: seq<string>): Option<seq<real>>
    requires |fs| >= 1
  {
    var t := CardType(fs);
    if |fs| <= LastRead(t) then None
    else if t == 0 then Some([])
    else Some(TypedSlots(lc, fs, t))
  }

  /**
   * Whenever the source's reads stay in range, reading a missing field as
   * blank gives exactly what the source gives; MAT1 cards and short cards
   * are always in range.
   */
  lemma ReadAsWrittenAgrees(lc: Libc, lines: seq<string>, long: bool)
    requires |lines| >= 1 && Padded(lines)
    ensures var fs := MatFields(lines, long); var t := CardType(fs);
      (t == 1 || !long || |lines| >= 2 ==> ReadAsWritten(lc, fs).Some?) &&
      (ReadAsWritten(lc, fs).Some? && t != 0 ==> ReadAsWritten(lc, fs).value == TypedSlots(lc, fs, t))
  {
    MatFieldsCount(lines, long);
  }

  /** A MAT8 card written in large field on one line, every property left blank. */
  const LongMat8Line: string := "MAT8*   " + Spaces(72)

  /**
   * A one-line MAT8* card has seven fields, yet the MAT8 branch reads
   * `LineData[10]`: the source reads past the end of its field list. Read
   * as blank, those fields give the card's defaults instead.
   */
  lemma OneLineLongMat8ReadsPastEnd(lc: Libc)
    ensures var fs := MatFields([LongMat8Line], true);
      CardType(fs) == 2 && |fs| == 7 && ReadAsWritten(lc, fs) == None
      && Mat8Slots(lc, fs)[4] == -1.0 && Mat8Slots(lc, fs)[5] == -1.0
  {
    var fs := MatFields([LongMat8Line], true);
    MatFieldsCount([LongMat8Line], true);
    LongMat8Name();
    Mat8Defaults(lc, fs);
  }

  lemma LongMat8Name()
    ensures CheckExpStripped(Substr(LongMat8Line, 0, 8)) == "MAT8*"
  {
    var name := "MAT8*   ";
    var rest := Spaces(72);
    assert (name + rest)[..8] == name;
    Mat8NameStripped();
  }

  lemma Mat8NameStripped()
    ensures CheckExpStripped("MAT8*   ") == "MAT8*"
  {
    var name := "MAT8*   ";
    Mat8NameSpaces();
    assert !IsBlank(name) by { assert name[0] != ' '; }
    NoExponentSignInMat8();
  }

  lemma Mat8NameSpaces()
    ensures RemoveSpaces("MAT8*   ") == "MAT8*"
  {
    var text := "MAT8*";
    assert "MAT8*   " == text + "   ";
    RemoveSpacesAppend(text, "   ");
    RemoveSpacesIdentity(text);
    RemoveSpacesOfBlank("   ");
  }

  lemma NoExponentSignInMat8()
    ensures ExponentSign("MAT8*") == -1
  {
    var t := "MAT8*";
    assert t[1] == 'A' && t[2] == 'T' && t[3] == '8' && t[4] == '*';
    assert FindFrom(t, '-', 1) == -1 && FindFrom(t, '+', 1) == -1;
  }

  /** MAT's `check_exp` on one field: the erase-spaces loop, then the exponent repair. */
  method CheckExpField(s: string) returns (r: string)
    ensures r == CheckExpStripped(s)
  {
    if IsBlank(s) {
      return "";
    }
    var t := EraseSpaces(s);
    r := RepairExponent(t);
  }

  class Mat {
    var materialId: int
    var materialType: nat
    const data: array<real>

    ghost predicate Valid()
      reads this
    {
      data.Length == 9
    }

    /** `MAT()`: no card recognised yet. */
    constructor ()
      ensures Valid() && materialType == 0 && fresh(data)
    {
      materialType := 0;
      data := new real[9];
    }

    /** `getMaterialID`. */
    function MaterialID(): int
      reads this
    {
      materialId
    }

    /** `is_Isotropic`. */
    predicate IsIsotropic()
      reads this
    {
      materialType == 1
    }

    /** `operator[]`. */
    function At(i: nat): real
      reads this, data
      requires Valid()
    {
      SlotAt(data[..], i)
    }

    /**
     * `parseBDFData`: the ID comes from field 1 as it stands; a MAT1 or
     * MAT8 card sets the type and all nine slots; any other name leaves the
     * type and the slots as they were. A field past the end of the list
     * reads as blank.
     */
    method ParseBDFData(lc: Libc, lines: seq<string>, long: bool)
      requires Valid() && |lines| >= 1 && Padded(lines)
      modifies this, data
      ensures Valid()
      ensures var fs := MatFields(lines, long); var t := CardType(fs);
        materialId == lc.atol(fs[1]) &&
        (t == 0 ==> materialType == old(materialType) && data[..] == old(data[..])) &&
        (t != 0 ==> materialType == t && data[..] == TypedSlots(lc, fs, t))
    {
      var step := if long then 16 else 8;
      var cardFields := SplitFields(lines, step, step);
      var fs := [Substr(lines[0], 0, 8)] + cardFields + Padding(|lines|, long);
      MatFieldsCount(lines, long);
      var name := CheckExpField(fs[0]);
      materialId := lc.atol(fs[1]);
      if name == "MAT1" || name == "MAT1*" {
        materialType := 1;
        FillMat1(lc, fs);
      } else if name == "MAT8" || name == "MAT8*" {
        materialType := 2;
        FillMat8(lc, fs);
      }
    }

    /** The MAT1 branch of `parseBDFData`: one assignment per slot. */
    method FillMat1(lc: Libc, fs: seq<string>)
      requires Valid()
      modifies data
      ensures data[..] == Mat1Slots(lc, fs)
    {
      var e := CheckExpField(Field(fs, 2));
      var nu := CheckExpField(Field(fs, 4));
      var g := CheckExpField(Field(fs, 3));
      SetElastic(lc.atof(e), lc.atof(nu), lc.atof(g));
      var shear := ShearOrDefault(lc, g);
      var rho := CheckExpField(Field(fs, 5));
      var a := CheckExpField(Field(fs, 6));
      SetRest(shear, lc.atof(rho), lc.atof(a));
      Mat1SlotsHalves(lc, fs);
      assert data[..] == data[..4] + data[4..];
    }

    /** Slots 0 to 3 of a MAT1 card: E twice, NU, G. */
    method SetElastic(young: real, poisson: real, shearModulus: real)
      requires Valid()
      modifies data
      ensures data[..4] == [young, young, poisson, shearModulus] && data[4..] == old(data[4..])
    {
      data[0] := young;
      data[1] := young;
      data[2] := poisson;
      data[3] := shearModulus;
    }

    /** Slots 4 to 8 of a MAT1 card: the shear value twice, RHO, A twice. */
    method SetRest(shear: real, density: real, expansion: real)
      requires Valid()
      modifies data
      ensures data[..4] == old(data[..4]) && data[4..] == [shear, shear, density, expansion, expansion]
    {
      data[4] := shear;
      data[5] := shear;
      data[6] := density;
      data[7] := expansion;
      data[8] := expansion;
    }

    /** `if (str == "")`: a blank G gives -1.0 for G1Z and G2Z, otherwise G. */
    static method ShearOrDefault(lc: Libc, g: string) returns (shear: real)
      ensures shear == if g == "" then -1.0 else lc.atof(g)
    {
      if g == "" {
        shear := -1.0;
      } else {
        shear := lc.atof(g);
      }
    }

    /** The MAT8 branch of `parseBDFData`: the loop over the nine slots with its switch. */
    method FillMat8(lc: Libc, fs: seq<string>)
      requires Valid()
      modifies data
      ensures data[..] == Mat8Slots(lc, fs)
    {
      for i := 0 to 9
        invariant forall k :: 0 <= k < i ==> data[k] == Mat8Slot(lc, fs, k)
      {
        data[i] := ReadMat8Slot(lc, fs, i);
      }
    }

    /** One pass of the MAT8 loop: the switch on the slot that picks a blank field's default. */
    static method ReadMat8Slot(lc: Libc, fs: seq<string>, i: nat) returns (v: real)
      requires i < 9
      ensures v == Mat8Slot(lc, fs, i)
    {
      var s := CheckExpField(Field(fs, i + 2));
      if i == 1 || i == 2 {
        v := if s == "" then 0.001 else lc.atof(s);
      } else if i == 4 || i == 5 {
        v := if s == "" then -1.0 else lc.atof(s);
      } else {
        v := lc.atof(s);
      }
    }
  }

  /**
   * `MAT(BDF_Data, LongFormatFlag)`: a new material parsed from its card is
   * isotropic exactly when the card is MAT1 or MAT1*.
   */
  method NewMat(lc: Libc, lines: seq<string>, long: bool) returns (m: Mat)
    requires |lines| >= 1 && Padded(lines)
    ensures fresh(m) && m.Valid()
    ensures var fs := MatFields(lines, long);
      m.MaterialID() == lc.atol(fs[1]) && m.materialType == CardType(fs)
      && (m.IsIsotropic() <==> CheckExpStripped(fs[0]) in {"MAT1", "MAT1*"})
  {
    m := new Mat();
    m.ParseBDFData(lc, lines, long);
  }
}
