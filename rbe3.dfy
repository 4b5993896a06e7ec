/**
 * The RBE3 interpolation element: a reference node whose motion is the
 * weighted average of a list of independent nodes. The filled-hole search
 * falls back on an RBE3 spider when no RBE2 spider is found.
 */
module Rbe3 {
  import opened Runtime
  import opened Text
  import G = Grids

  /**
   * An RBE3 card. The source's `pLongData` has three slots: field 0 goes to
   * slot 0 and field 2 to slot 2, slot 1 is never assigned (it starts at 0
   * here) and field 3 is written one past the end of the array (kept here
   * as `refc`).
   */
  datatype Rbe3 = Rbe3(id: int, slot1: int, refgrid: int, refc: int,
                       independents: seq<int>, dofs: seq<int>, weights: seq<real>, thermal: Option<real>)

  /** Both formats split every line; the large format reads only the first 8 characters of each 16-wide field. */
  function Rbe3Fields(lines: seq<string>, long: bool): seq<string>
  {
    if long then CardFields(lines, 16, 8) else CardFields(lines, 8, 8)
  }

  /** The card being built and the loop's three flags. */
  datatype State = State(card: Rbe3, um: bool, cte: bool, dofFlag: bool)

  /**
   * One pass of the field loop on a checked field. In order: a field after
   * ALPHA is the thermal coefficient; ALPHA and a blank clear every flag;
   * inside a UM group nodes and component codes alternate; UM opens the
   * group; a real is a weight and makes the next integer a component code;
   * any other integer is an independent node. (The source's second blank
   * test is unreachable and has no counterpart here.)
   */
  function Step(lc: Libc, st: State, s: string): State
  {
    var c := st.card;
    if st.cte then st.(card := c.(thermal := Some(lc.atof(s))), cte := false)
    else if s == "ALPHA" then st.(cte := true, um := false, dofFlag := false)
    else if s == "" then st.(cte := false, um := false, dofFlag := false)
    else if st.um then
      if st.dofFlag then st.(card := c.(dofs := c.dofs + [lc.atol(s)]), dofFlag := false)
      else st.(card := c.(independents := c.independents + [lc.atol(s)]), dofFlag := true)
    else if s == "UM" then st.(um := true)
    else if CheckReal(s) then st.(card := c.(weights := c.weights + [lc.atof(s)]), dofFlag := true)
    else if st.dofFlag then st.(card := c.(dofs := c.dofs + [lc.atol(s)]), dofFlag := false)
    else st.(card := c.(independents := c.independents + [lc.atol(s)]))
  }

  /** The field loop over the checked fields `cs`, from the first to the last. */
  function StepAll(lc: Libc, st: State, cs: seq<string>): State
  {
    if cs == [] then st else Step(lc, StepAll(lc, st, cs[..|cs| - 1]), cs[|cs| - 1])
  }

  /** The card before the field loop: ID, slot 2 and the overflow slot from fields 0, 2 and 3. */
  function Header(lc: Libc, fields: seq<string>): Rbe3
    requires |fields| >= 4
  {
    Rbe3(lc.atol(fields[0]), 0, lc.atol(fields[2]), lc.atol(fields[3]), [], [], [], None)
  }

  /** `RBE3::parseBDFData` on a split card. */
  function ParseRbe3Fields(lc: Libc, fields: seq<string>): Rbe3
    requires |fields| >= 4
  {
    StepAll(lc, State(Header(lc, fields), false, false, false), Checked(fields[4..])).card
  }

  /** The whole parse of a card. */
  function ParseRbe3(lc: Libc, lines: seq<string>, long: bool): Rbe3
    requires |Rbe3Fields(lines, long)| >= 4
  {
    ParseRbe3Fields(lc, Rbe3Fields(lines, long))
  }

  /** The parse loop of `RBE3::parseBDFData`, with its flags as local variables. */
  method ParseFields(lc: Libc, fields: seq<string>) returns (r: Rbe3)
    requires |fields| >= 4
    ensures r == ParseRbe3Fields(lc, fields)
  {
    r := Header(lc, fields);
    var um, cte, dofFlag := false, false, false;
    ghost var st0 := State(r, um, cte, dofFlag);
    for i := 4 to |fields|
      invariant State(r, um, cte, dofFlag) == StepAll(lc, st0, Checked(fields[4..i]))
    {
      CheckedExtend(fields, 4, i);
      var s := CheckExp(fields[i]);
      if cte {
        r := r.(thermal := Some(lc.atof(s)));
        cte := false;
        continue;
      }
      if s == "ALPHA" {
        cte, um, dofFlag := true, false, false;
        continue;
      }
      if s == "" {
        cte, um, dofFlag := false, false, false;
        continue;
      }
      if um {
        if dofFlag {
          dofFlag := false;
          r := r.(dofs := r.dofs + [lc.atol(s)]);
        } else {
          dofFlag := true;
          r := r.(independents := r.independents + [lc.atol(s)]);
        }
        continue;
      }
      if s == "UM" {
        um := true;
        continue;
      }
      if CheckReal(s) {
        r := r.(weights := r.weights + [lc.atof(s)]);
        dofFlag := true;
      } else if dofFlag {
        r := r.(dofs := r.dofs + [lc.atol(s)]);
        dofFlag := false;
      } else {
        r := r.(independents := r.independents + [lc.atol(s)]);
      }
    }
    assert fields[4..|fields|] == fields[4..];
  }

  /**
   * A component code is only ever read after a weight or a UM node raised
   * the flag, and each raise is consumed at most once.
   */
  predicate Balanced(st: State)
  {
    |st.card.dofs| + (if st.dofFlag then 1 else 0) <= |st.card.weights| + |st.card.independents|
  }

  lemma {:induction false} StepAllBalanced(lc: Libc, st: State, cs: seq<string>)
    requires Balanced(st)
    ensures Balanced(StepAll(lc, st, cs))
    ensures var q := StepAll(lc, st, cs).card;
      q.id == st.card.id && q.slot1 == st.card.slot1 && q.refgrid == st.card.refgrid && q.refc == st.card.refc
  {
    if cs != [] {
      StepAllBalanced(lc, st, cs[..|cs| - 1]);
    }
  }

  /**
   * Parsing keeps the header, leaves slot 1 at its initial value, and never
   * yields more component codes than weights and nodes together.
   */
  lemma ParseRbe3Header(lc: Libc, fields: seq<string>)
    requires |fields| >= 4
    ensures var r := ParseRbe3Fields(lc, fields);
      r.id == lc.atol(fields[0]) && r.slot1 == 0 && r.refgrid == lc.atol(fields[2]) && r.refc == lc.atol(fields[3])
      && |r.dofs| <= |r.weights| + |r.independents|
  {
    StepAllBalanced(lc, State(Header(lc, fields), false, false, false), Checked(fields[4..]));
  }

  /** The field after ALPHA is the thermal coefficient, whatever it says, and every flag ends cleared. */
  lemma AlphaThenValue(lc: Libc, st: State, s: string)
    requires !st.cte
    ensures var t := Step(lc, Step(lc, st, "ALPHA"), s);
      t.card == st.card.(thermal := Some(lc.atof(s))) && !t.um && !t.cte && !t.dofFlag
  {
  }

  /** A blank field outside ALPHA clears the three flags and leaves the card alone. */
  lemma BlankClears(lc: Libc, st: State)
    requires !st.cte
    ensures Step(lc, st, "") == State(st.card, false, false, false)
  {
  }

  /** A field that is not blank, ALPHA or UM. */
  predicate Plain(s: string)
  {
    s != "" && s != "ALPHA" && s != "UM"
  }

  /** Inside a UM group the fields alternate: a node, then its component code, and the group stays open. */
  lemma UmAlternates(lc: Libc, st: State, g: string, c: string)
    requires st.um && !st.cte && !st.dofFlag && Plain(g) && Plain(c)
    ensures var t := Step(lc, Step(lc, st, g), c);
      t == State(st.card.(independents := st.card.independents + [lc.atol(g)], dofs := st.card.dofs + [lc.atol(c)]),
                 true, false, false)
  {
  }

  /**
   * Outside UM: a weight, then an integer component code, then integer
   * fields that are independent nodes.
   */
  lemma WeightThenComponent(lc: Libc, st: State, w: string, c: string, g: string)
    requires !st.um && !st.cte && Plain(w) && CheckReal(w) && Plain(c) && !CheckReal(c) && Plain(g) && !CheckReal(g)
    ensures var t := Step(lc, Step(lc, Step(lc, st, w), c), g);
      t == State(st.card.(weights := st.card.weights + [lc.atof(w)], dofs := st.card.dofs + [lc.atol(c)],
                          independents := st.card.independents + [lc.atol(g)]),
                 false, false, false)
  {
  }

  /** `get_num_independant_nodes`. */
  function NumIndependents(r: Rbe3): (n: nat)
    ensures n == |r.independents|
  {
    |r.independents|
  }

  /** `operator[]`: slots 0-2 for 0-2, independent node `i - 3` while there is one, the ID past the end. */
  function Index(r: Rbe3, i: nat): (v: int)
    ensures i < 3 ==> v == [r.id, r.slot1, r.refgrid][i]
    ensures 3 <= i < |r.independents| + 3 ==> v == r.independents[i - 3]
    ensures i >= |r.independents| + 3 ==> v == r.id
  {
    if i == 0 then r.id
    else if i == 1 then r.slot1
    else if i == 2 then r.refgrid
    else if i < |r.independents| + 3 then r.independents[i - 3]
    else r.id
  }

  /** The nodes `nodeConnect` visits: slot 1, then every independent node. */
  function Nodes(r: Rbe3): seq<int>
  {
    [r.slot1] + r.independents
  }

  /**
   * `RBE3::nodeConnect`: slot 1 and every independent node that the model has
   * list the element once in their RBE3 lists; nothing else changes.
   */
  method NodeConnect(r: Rbe3, grids: map<int, G.Grid>)
    requires G.Injective(grids) && G.AllValid(grids)
    modifies set k | k in grids :: grids[k]
    ensures G.AllValid(grids)
    ensures forall k, kd :: k in grids ==>
      G.List(grids[k], kd) == if (k == r.slot1 || k in r.independents) && kd == G.RBE3s
                              then G.AppendIfAbsent(old(G.List(grids[k], kd)), r.id) else old(G.List(grids[k], kd))
    ensures forall k :: k in grids ==> grids[k].Card() == old(grids[k].Card())
  {
    G.ConnectAll(grids, Nodes(r), r.id, G.RBE3s);
  }
}
