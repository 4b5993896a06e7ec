/**
 * `PBUSH`: a spring property card. It keeps the property ID and the six
 * stiffnesses K1..K6, read from the fields that follow a "K" field.
 */
module Pbushes {
  import opened Runtime
  import opened Text

  /** The field list `parseBDFData` builds: eight fields a line in small field, four in large field. */
  function PbushFields(lines: seq<string>, long: bool): seq<string>
  {
    Fields(lines, long)
  }

  /**
   * Stiffness K(m + 1) of the "K" field at i: field i + m + 1 of the
   * checked field list `cs` (every field after `check_exp`).
   */
  function KValue(lc: Libc, cs: seq<string>, i: nat, m: nat): real
  {
    lc.atof(Field(cs, i + m + 1))
  }

  /** The six stiffnesses of the "K" field at i: fields i + 1 to i + 6. */
  function KRow(lc: Libc, cs: seq<string>, i: nat): (r: seq<real>)
    ensures |r| == 6 && forall m :: 0 <= m < 6 ==> r[m] == KValue(lc, cs, i, m)
  {
    seq(6, m requires 0 <= m => KValue(lc, cs, i, m))
  }

  /** Field i starts a stiffness row. */
  predicate IsK(cs: seq<string>, i: nat)
  {
    i < |cs| && cs[i] == "K"
  }

  /**
   * The stiffnesses after the K loop has visited fields i, i + 8, ...,
   * starting from `k`: every "K" field found replaces all six.
   */
  function KFrom(lc: Libc, cs: seq<string>, i: nat, k: seq<real>): seq<real>
    decreases |cs| - i
  {
    if i >= |cs| then k
    else KFrom(lc, cs, i + 8, if IsK(cs, i) then KRow(lc, cs, i) else k)
  }

  /** The stiffnesses a card's fields leave, starting from `k`: the loop starts at field 1. */
  function Stiffnesses(lc: Libc, fs: seq<string>, k: seq<real>): seq<real>
  {
    KFrom(lc, Checked(fs), 1, k)
  }

  /** On a card's checked fields, a "K" field is one that reads "K" after `check_exp`. */
  lemma CheckedK(fs: seq<string>, i: nat)
    ensures IsK(Checked(fs), i) <==> i < |fs| && CheckExp(fs[i]) == "K"
  {
    if i < |fs| {
      CheckedAt(fs, i);
    }
  }

  /** Each stiffness is `atof` of the checked field, also past the end of the list where it reads as blank. */
  lemma CheckedValue(lc: Libc, fs: seq<string>, i: nat, m: nat)
    ensures KValue(lc, Checked(fs), i, m) == lc.atof(CheckExp(Field(fs, i + m + 1)))
  {
    CheckedField(fs, i + m + 1);
  }

  /** No field the loop visits from i on is a "K" field. */
  ghost predicate NoKFrom(cs: seq<string>, i: nat)
    decreases |cs| - i
  {
    i < |cs| ==> !IsK(cs, i) && NoKFrom(cs, i + 8)
  }

  /** A card without a "K" field leaves the stiffnesses as they were. */
  lemma {:induction false} NoKKeeps(lc: Libc, cs: seq<string>, i: nat, k: seq<real>)
    requires NoKFrom(cs, i)
    ensures KFrom(lc, cs, i, k) == k
    decreases |cs| - i
  {
    if i < |cs| {
      NoKKeeps(lc, cs, i + 8, k);
    }
  }

  /** The loop, started at field i, visits field j: j is i plus a multiple of 8. */
  ghost predicate Visits(i: nat, j: nat)
    decreases j - i
  {
    i == j || (i < j && Visits(i + 8, j))
  }

  /**
   * The last "K" field the loop visits decides all six stiffnesses,
   * whatever came before it.
   */
  lemma {:induction false} LastKWins(lc: Libc, cs: seq<string>, i: nat, j: nat, k: seq<real>)
    requires Visits(i, j) && IsK(cs, j) && NoKFrom(cs, j + 8)
    ensures KFrom(lc, cs, i, k) == KRow(lc, cs, j)
    decreases j - i
  {
    var next := if IsK(cs, i) then KRow(lc, cs, i) else k;
    assert KFrom(lc, cs, i, k) == KFrom(lc, cs, i + 8, next);
    if i == j {
      NoKKeeps(lc, cs, i + 8, next);
    } else {
      LastKWins(lc, cs, i + 8, j, next);
    }
  }

  /** `operator[]`: K(i + 1) for i < 6, K1 otherwise. */
  function KAt(k: seq<real>, i: nat): real
    requires |k| == 6
  {
    if i < 6 then k[i] else k[0]
  }

  class Pbush {
    var propertyId: int
    /** `pDoubleData`: K1..K6. */
    const k: array<real>

    ghost predicate Valid()
      reads this
    {
      k.Length == 6
    }

    /** `PBUSH()`: nothing is assigned. */
    constructor ()
      ensures Valid() && fresh(k)
    {
      k := new real[6];
    }

    /** `PBUSH(BDF_Data, LongFormatFlag)`: parse into a fresh card. */
    constructor FromCard(lc: Libc, lines: seq<string>, long: bool)
      requires Padded(lines)
      ensures Valid() && fresh(k)
      ensures propertyId == lc.atol(Field(PbushFields(lines, long), 0))
      ensures exists k0: seq<real> :: |k0| == 6 && k[..] == Stiffnesses(lc, PbushFields(lines, long), k0)
    {
      k := new real[6];
      new;
      ghost var k0 := k[..];
      ParseBDFData(lc, lines, long);
    }

    /** `getPropertyID`. */
    function PropertyID(): int
      reads this
    {
      propertyId
    }

    /** `operator[]`. */
    function Stiffness(i: nat): real
      reads this, k
      requires Valid()
    {
      KAt(k[..], i)
    }

    /**
     * `parseBDFData`: the property ID from field 0 as it stands; each "K"
     * field at 1, 9, 17, ... sets K1..K6 from the six fields after it.
     */
    method ParseBDFData(lc: Libc, lines: seq<string>, long: bool)
      requires Valid() && Padded(lines)
      modifies this`propertyId, k
      ensures propertyId == lc.atol(Field(PbushFields(lines, long), 0))
      ensures k[..] == Stiffnesses(lc, PbushFields(lines, long), old(k[..]))
    {
      var step := if long then 16 else 8;
      var fs := SplitFields(lines, step, step);
      propertyId := lc.atol(Field(fs, 0));
      ghost var cs := Checked(fs);
      ghost var k0 := k[..];
      var i := 1;
      while i < |fs|
        modifies k
        invariant KFrom(lc, cs, i, k[..]) == KFrom(lc, cs, 1, k0)
        decreases |fs| - i
      {
        CheckedK(fs, i);
        if CheckExp(fs[i]) == "K" {
          SetRow(lc, fs, i);
        }
        i := i + 8;
      }
    }

    /** The inner loop: K1..K6 from the six fields after the "K" field at i. */
    method SetRow(lc: Libc, fs: seq<string>, i: nat)
      requires Valid()
      modifies k
      ensures k[..] == KRow(lc, Checked(fs), i)
    {
      ghost var row := KRow(lc, Checked(fs), i);
      for j := 0 to 6
        invariant k[..j] == row[..j]
      {
        CheckedValue(lc, fs, i, j);
        k[j] := lc.atof(CheckExp(Field(fs, i + j + 1)));
      }
      assert k[..] == k[..6];
    }
  }
}
