/**
 * A plane Cauchy stress (or running load) tensor as the filled-hole engine
 * stores it: seven slots, the raw components fx, fy, fxy in slots 0-2, the
 * angle of the last rotation in slot 3 and the rotated components in slots
 * 4-6.
 */
module Cauchy {
  import opened Runtime

  /** `PI` as the source defines it. */
  const Pi: real := 3.14159265

  /** The slots after `set_values`: raw components, angle 0, and a copy of the raw components. */
  function SetValuesSlots(fx: real, fy: real, fxy: real): (s: seq<real>)
    ensures |s| == 7
  {
    [fx, fy, fxy, 0.0, fx, fy, fxy]
  }

  /** The components fx, fy, fxy rotated by theta, as `rotate` computes them. */
  function Rotated(lc: Libc, fx: real, fy: real, fxy: real, theta: real): (r: seq<real>)
    ensures |r| == 3
  {
    var mean, half := 0.5 * (fx + fy), 0.5 * (fx - fy);
    [mean + half * lc.cos(2.0 * theta) + fxy * lc.sin(2.0 * theta),
     mean + half * lc.cos(2.0 * (theta + Pi / 2.0)) + fxy * lc.sin(2.0 * (theta + Pi / 2.0)),
     -half * lc.sin(2.0 * theta) + fxy * lc.cos(2.0 * theta)]
  }

  /**
   * The slots after `rotate(theta)`: the angle goes to slot 3 and the raw
   * components rotated by theta to slots 4-6; slots 0-2 are read, never
   * written.
   */
  function RotateSlots(lc: Libc, s: seq<real>, theta: real): (r: seq<real>)
    requires |s| == 7
    ensures |r| == 7
  {
    s[..3] + [theta] + Rotated(lc, s[0], s[1], s[2], theta)
  }

  /** `operator[]`: slot i for i < 7, slot 0 otherwise. */
  function Slot(s: seq<real>, i: nat): real
    requires |s| == 7
  {
    if i < 7 then s[i] else s[0]
  }

  /**
   * A rotation keeps the raw slots and records its angle, and it is not
   * cumulative: only the last rotation counts, whatever came before.
   */
  lemma RotateKeepsRaw(lc: Libc, s: seq<real>, a: real, b: real)
    requires |s| == 7
    ensures RotateSlots(lc, s, a)[..3] == s[..3]
    ensures RotateSlots(lc, s, a)[3] == a
    ensures RotateSlots(lc, RotateSlots(lc, s, a), b) == RotateSlots(lc, s, b)
  {
    var r := RotateSlots(lc, s, a);
    assert r[..3] == s[..3];
    assert r[0] == s[0] && r[1] == s[1] && r[2] == s[2];
  }

  /** After `set_values` both views hold the given components and the angle is 0. */
  lemma SetValuesViews(fx: real, fy: real, fxy: real)
    ensures var s := SetValuesSlots(fx, fy, fxy);
      Slot(s, 0) == fx && Slot(s, 1) == fy && Slot(s, 2) == fxy && Slot(s, 3) == 0.0
      && s[4..] == s[..3] && (forall i :: i >= 7 ==> Slot(s, i) == fx)
  {
  }

  class CauchyStress {
    var slots: array<real>

    ghost predicate Valid()
      reads this
    {
      slots.Length == 7
    }

    /** `CAUCHY_STRESS(fx, fy, fxy)`. */
    constructor (fx: real, fy: real, fxy: real)
      ensures Valid() && fresh(slots)
      ensures slots[..] == SetValuesSlots(fx, fy, fxy)
    {
      slots := new real[7];
      new;
      SetValues(fx, fy, fxy);
    }

    /** `set_values`: overwrites every slot. */
    method SetValues(fx: real, fy: real, fxy: real)
      requires Valid()
      modifies slots
      ensures slots[..] == SetValuesSlots(fx, fy, fxy)
    {
      slots[0], slots[4] := fx, fx;
      slots[1], slots[5] := fy, fy;
      slots[2], slots[6] := fxy, fxy;
      slots[3] := 0.0;
    }

    /** `rotate`: writes the angle and the rotated components, slots 3-6 only. */
    method Rotate(lc: Libc, theta: real)
      requires Valid()
      modifies slots
      ensures slots[..] == RotateSlots(lc, old(slots[..]), theta)
    {
      var v := Rotated(lc, slots[0], slots[1], slots[2], theta);
      slots[3] := theta;
      slots[4], slots[5], slots[6] := v[0], v[1], v[2];
    }

    /** `operator[]`. */
    function Index(i: nat): real
      requires Valid()
      reads this, slots
    {
      Slot(slots[..], i)
    }
  }
}
