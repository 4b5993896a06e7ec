/**
 * The RBE2 rigid element: one independent node tied to a list of dependent
 * nodes. In the filled-hole search an RBE2 with one dependent stands for a
 * zero-length fastener link, and one with several dependents for a spider
 * onto the plate.
 */
module Rbe2 {
  import opened Runtime
  import opened Text
  import G = Grids

  /** An RBE2 card; `thermal` is `None` until an ALPHA field has been read (the source leaves it unset). */
  datatype Rbe2 = Rbe2(id: int, independent: int, dof: int, dependents: seq<int>, thermal: Option<real>)

  /** Both formats split every line; the large format reads only the first 8 characters of each 16-wide field. */
  function Rbe2Fields(lines: seq<string>, long: bool): seq<string>
  {
    if long then CardFields(lines, 16, 8) else CardFields(lines, 8, 8)
  }

  /** A checked field after the third is a node ID when it is non-blank and has no '.'. */
  predicate NodeText(s: string)
  {
    s != "" && !CheckReal(s)
  }

  /** A checked field after the third is the thermal coefficient when it has a '.'. */
  predicate RealText(s: string)
  {
    s != "" && CheckReal(s)
  }

  /** One pass of the field loop on a checked field: a real overwrites ALPHA, an integer is appended, a blank is skipped. */
  function Absorb(lc: Libc, r: Rbe2, s: string): Rbe2
  {
    if s == "" then r
    else if CheckReal(s) then r.(thermal := Some(lc.atof(s)))
    else r.(dependents := r.dependents + [lc.atol(s)])
  }

  /** The field loop over the checked fields `cs`, from the first to the last. */
  function AbsorbAll(lc: Libc, r: Rbe2, cs: seq<string>): Rbe2
  {
    if cs == [] then r else Absorb(lc, AbsorbAll(lc, r, cs[..|cs| - 1]), cs[|cs| - 1])
  }

  /** `RBE2::parseBDFData` on a split card: ID, GN and CM from fields 0-2, then the field loop. */
  function ParseRbe2Fields(lc: Libc, fields: seq<string>): Rbe2
    requires |fields| >= 3
  {
    AbsorbAll(lc, Rbe2(lc.atol(fields[0]), lc.atol(fields[1]), lc.atol(fields[2]), [], None), Checked(fields[3..]))
  }

  /** The whole parse of a card. */
  function ParseRbe2(lc: Libc, lines: seq<string>, long: bool): Rbe2
    requires |Rbe2Fields(lines, long)| >= 3
  {
    ParseRbe2Fields(lc, Rbe2Fields(lines, long))
  }

  /** The dependent nodes, defined independently of the loop: the integer fields, in order. */
  function NodeIDs(lc: Libc, cs: seq<string>): seq<int>
  {
    if cs == [] then []
    else (if NodeText(cs[0]) then [lc.atol(cs[0])] else []) + NodeIDs(lc, cs[1..])
  }

  lemma {:induction false} NodeIDsAppend(lc: Libc, a: seq<string>, b: seq<string>)
    ensures NodeIDs(lc, a + b) == NodeIDs(lc, a) + NodeIDs(lc, b)
    decreases |a|
  {
    if a == [] {
      assert a + b == b;
    } else {
      assert (a + b)[1..] == a[1..] + b;
      NodeIDsAppend(lc, a[1..], b);
    }
  }

  /**
   * The field loop appends exactly the integer fields, in order, leaves ID,
   * GN and CM alone, and keeps ALPHA unless a real field is met.
   */
  lemma {:induction false} AbsorbAllNodes(lc: Libc, r: Rbe2, cs: seq<string>)
    ensures var q := AbsorbAll(lc, r, cs);
      q.dependents == r.dependents + NodeIDs(lc, cs)
      && q.id == r.id && q.independent == r.independent && q.dof == r.dof
      && ((forall k :: 0 <= k < |cs| ==> !RealText(cs[k])) ==> q.thermal == r.thermal)
  {
    if cs != [] {
      var last := cs[|cs| - 1];
      var init := cs[..|cs| - 1];
      AbsorbAllNodes(lc, r, init);
      NodeIDsAppend(lc, init, [last]);
      assert init + [last] == cs;
      assert NodeIDs(lc, [last]) == if NodeText(last) then [lc.atol(last)] else [];
      assert forall k :: 0 <= k < |init| ==> init[k] == cs[k];
    }
  }

  /** The last real field wins: ALPHA is the value of the last field with a '.'. */
  lemma {:induction false} AbsorbAllLastReal(lc: Libc, r: Rbe2, cs: seq<string>, j: nat)
    requires j < |cs| && RealText(cs[j])
    requires forall k :: j < k < |cs| ==> !RealText(cs[k])
    ensures AbsorbAll(lc, r, cs).thermal == Some(lc.atof(cs[j]))
  {
    var last := |cs| - 1;
    var init := cs[..last];
    if j < last {
      assert forall k :: j < k < |init| ==> init[k] == cs[k];
      AbsorbAllLastReal(lc, r, init, j);
    }
  }

  /**
   * Parsing: ID, GN and CM come from the first three fields, the dependents
   * are the integer fields that follow, in order (their number is what
   * `get_num_dependant_nodes` reports), ALPHA is the last real field and
   * stays unset when there is none.
   */
  lemma ParseRbe2Layout(lc: Libc, fields: seq<string>)
    requires |fields| >= 3
    ensures var r, cs := ParseRbe2Fields(lc, fields), Checked(fields[3..]);
      r.id == lc.atol(fields[0]) && r.independent == lc.atol(fields[1]) && r.dof == lc.atol(fields[2])
      && r.dependents == NodeIDs(lc, cs)
      && ((forall k :: 0 <= k < |cs| ==> !RealText(cs[k])) ==> r.thermal == None)
      && (forall j :: 0 <= j < |cs| && RealText(cs[j]) && (forall k :: j < k < |cs| ==> !RealText(cs[k])) ==>
            r.thermal == Some(lc.atof(cs[j])))
  {
    var r0 := Rbe2(lc.atol(fields[0]), lc.atol(fields[1]), lc.atol(fields[2]), [], None);
    var cs := Checked(fields[3..]);
    AbsorbAllNodes(lc, r0, cs);
    forall j | 0 <= j < |cs| && RealText(cs[j]) && (forall k :: j < k < |cs| ==> !RealText(cs[k]))
      ensures AbsorbAll(lc, r0, cs).thermal == Some(lc.atof(cs[j]))
    {
      AbsorbAllLastReal(lc, r0, cs, j);
    }
  }

  /** The parse loop of `RBE2::parseBDFData`. */
  method ParseFields(lc: Libc, fields: seq<string>) returns (r: Rbe2)
    requires |fields| >= 3
    ensures r == ParseRbe2Fields(lc, fields)
  {
    r := Rbe2(lc.atol(fields[0]), lc.atol(fields[1]), lc.atol(fields[2]), [], None);
    ghost var r0 := r;
    for i := 3 to |fields|
      invariant r == AbsorbAll(lc, r0, Checked(fields[3..i]))
    {
      CheckedExtend(fields, 3, i);
      var s := CheckExp(fields[i]);
      if s != "" {
        if CheckReal(s) {
          r := r.(thermal := Some(lc.atof(s)));
        } else {
          r := r.(dependents := r.dependents + [lc.atol(s)]);
        }
      }
    }
    assert fields[3..|fields|] == fields[3..];
  }

  /** `get_num_dependant_nodes`. */
  function NumDependents(r: Rbe2): (n: nat)
    ensures n == |r.dependents|
  {
    |r.dependents|
  }

  /** `operator[]`: ID, GN, CM for 0-2, dependent `i - 3` while there is one, the ID past the end. */
  function Index(r: Rbe2, i: nat): (v: int)
    ensures i < 3 ==> v == [r.id, r.independent, r.dof][i]
    ensures 3 <= i < |r.dependents| + 3 ==> v == r.dependents[i - 3]
    ensures i >= |r.dependents| + 3 ==> v == r.id
  {
    if i == 0 then r.id
    else if i == 1 then r.independent
    else if i == 2 then r.dof
    else if i < |r.dependents| + 3 then r.dependents[i - 3]
    else r.id
  }

  /** The nodes `nodeConnect` visits: the independent node, then every dependent. */
  function Nodes(r: Rbe2): seq<int>
  {
    [r.independent] + r.dependents
  }

  /**
   * `RBE2::nodeConnect`: every node of the element that the model has lists
   * the element once in its RBE2 list; nothing else changes.
   */
  method NodeConnect(r: Rbe2, grids: map<int, G.Grid>)
    requires G.Injective(grids) && G.AllValid(grids)
    modifies set k | k in grids :: grids[k]
    ensures G.AllValid(grids)
    ensures forall k, kd :: k in grids ==>
      G.List(grids[k], kd) == if (k == r.independent || k in r.dependents) && kd == G.RBE2s
                              then G.AppendIfAbsent(old(G.List(grids[k], kd)), r.id) else old(G.List(grids[k], kd))
    ensures forall k :: k in grids ==> grids[k].Card() == old(grids[k].Card())
    ensures forall k :: k in grids ==>
      grids[k].rbe2s == if k == r.independent || k in r.dependents then G.AppendIfAbsent(old(grids[k].rbe2s), r.id) else old(grids[k].rbe2s)
  {
    G.ConnectAll(grids, Nodes(r), r.id, G.RBE2s);
    forall k | k in grids
      ensures grids[k].rbe2s == if k == r.independent || k in r.dependents then G.AppendIfAbsent(old(grids[k].rbe2s), r.id) else old(grids[k].rbe2s)
    {
      assert G.List(grids[k], G.RBE2s) == grids[k].rbe2s;
      assert old(G.List(grids[k], G.RBE2s)) == old(grids[k].rbe2s);
    }
  }
}
