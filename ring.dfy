/**
 * The ring search of `CBUSH::parse_FH`: starting from a fastener node, grow
 * outwards layer by layer over node -> plate -> corner-node connectivity
 * until the plates `grid_size / 2` layers out are reached; a fastener that
 * meets no plate is bridged to the plate through an RBE2 (or RBE3) spider.
 */
module Rings {
  import opened Runtime
  import R2 = Rbe2
  import R3 = Rbe3

  /**
   * The connectivity the search reads. For every node the model has: its
   * CQUAD, RBE2 and RBE3 lists (`getCQUAD_List` and friends); the RBE2 and
   * RBE3 elements; the corner nodes of every CQUAD.
   */
  datatype Mesh = Mesh(quads: map<int, seq<int>>, rbe2s: map<int, seq<int>>, rbe3s: map<int, seq<int>>,
                       rbe2: map<int, R2.Rbe2>, rbe3: map<int, R3.Rbe3>, plates: map<int, seq<int>>)

  /** Every node the model has carries all three lists. */
  predicate Consistent(mesh: Mesh)
  {
    mesh.quads.Keys == mesh.rbe2s.Keys && mesh.quads.Keys == mesh.rbe3s.Keys
  }

  /** The search state: the layer counter `i`, the node frontier `GRID_Vector` and the shell `node_QUADS[side]`. */
  datatype Search = Search(counter: int, frontier: seq<int>, shell: seq<int>)

  /** How a search ends: with a shell, by reading the first node of an empty frontier (or a missing node), or not at all. */
  datatype Ring = Found(shell: seq<int>) | Undefined | OutOfFuel

  /** The entries of `l` that are not in `known`, in order. */
  function Unknown(l: seq<int>, known: seq<int>): seq<int>
  {
    if l == [] then [] else Unknown(l[..|l| - 1], known) + (if l[|l| - 1] in known then [] else [l[|l| - 1]])
  }

  /**
   * For each key in order that `m` has, the entries of its list that are not
   * in `known`: the plates of the frontier not yet in the shell, or the
   * corner nodes of the shell not in the old frontier.
   */
  function Gather(m: map<int, seq<int>>, keys: seq<int>, known: seq<int>): seq<int>
  {
    if keys == [] then []
    else Gather(m, keys[..|keys| - 1], known) + (var k := keys[|keys| - 1]; if k in m then Unknown(m[k], known) else [])
  }

  lemma {:induction false} UnknownMembers(l: seq<int>, known: seq<int>)
    ensures forall x :: x in Unknown(l, known) <==> x in l && x !in known
  {
    if l != [] {
      UnknownMembers(l[..|l| - 1], known);
      assert l == l[..|l| - 1] + [l[|l| - 1]];
    }
  }

  /** A gathered entry is one that is not known and is listed under one of the keys. */
  lemma {:induction false} GatherMembers(m: map<int, seq<int>>, keys: seq<int>, known: seq<int>, x: int)
    ensures x in Gather(m, keys, known) <==> x !in known && exists j :: 0 <= j < |keys| && keys[j] in m && x in m[keys[j]]
  {
    if keys != [] {
      var n := |keys| - 1;
      GatherMembers(m, keys[..n], known, x);
      if keys[n] in m {
        UnknownMembers(m[keys[n]], known);
      }
      if x !in known && (exists j :: 0 <= j < |keys| && keys[j] in m && x in m[keys[j]]) {
        var j :| 0 <= j < |keys| && keys[j] in m && x in m[keys[j]];
        if j < n {
          assert keys[..n][j] == keys[j];
        }
      }
      if x in Gather(m, keys[..n], known) {
        var j :| 0 <= j < n && keys[..n][j] in m && x in m[keys[..n][j]];
        assert keys[j] == keys[..n][j];
      }
    }
  }

  /** Strictly increasing: sorted and free of duplicates. */
  predicate Increasing(s: seq<int>)
  {
    forall i, j :: 0 <= i < j < |s| ==> s[i] < s[j]
  }

  /** `x` inserted into an increasing list, unless it is there already. */
  function Insert(r: seq<int>, x: int): (t: seq<int>)
    requires Increasing(r)
    ensures Increasing(t) && forall y :: y in t <==> y in r || y == x
    ensures |t| >= 1 && (t[0] == x || (r != [] && t[0] == r[0]))
  {
    if r == [] then [x]
    else if x < r[0] then [x] + r
    else if x == r[0] then r
    else [r[0]] + Insert(r[1..], x)
  }

  /** `std::sort` followed by `std::unique` and `erase`: the distinct entries of `s` in increasing order. */
  function SortUnique(s: seq<int>): (r: seq<int>)
    ensures Increasing(r) && forall y :: y in r <==> y in s
  {
    if s == [] then [] else Insert(SortUnique(s[..|s| - 1]), s[|s| - 1])
  }

  /** An increasing list is determined by its members: sort-unique of a list depends only on its set of entries. */
  lemma {:induction false} IncreasingUnique(a: seq<int>, b: seq<int>)
    requires Increasing(a) && Increasing(b) && forall y :: y in a <==> y in b
    ensures a == b
  {
    if a != [] {
      assert a[0] in a;
      assert a[0] in b;
    }
    if b != [] {
      assert b[0] in b;
      assert b[0] in a;
    }
    if a != [] && b != [] {
      assert a[0] == b[0];
      forall y | y in a[1..] ensures y in b[1..] {
        assert y in b && y != b[0];
      }
      forall y | y in b[1..] ensures y in a[1..] {
        assert y in a && y != a[0];
      }
      IncreasingUnique(a[1..], b[1..]);
    }
  }

  /** The first RBE2 in the list that the model has and that has more than one dependent: its dependents. */
  function Rbe2Spider(rbe2: map<int, R2.Rbe2>, l: seq<int>): (r: Option<seq<int>>)
    ensures r.Some? ==> |r.value| > 1
  {
    if l == [] then None
    else if l[0] in rbe2 && |rbe2[l[0]].dependents| > 1 then Some(rbe2[l[0]].dependents)
    else Rbe2Spider(rbe2, l[1..])
  }

  /** The first RBE3 in the list that the model has and that has more than one independent node: those nodes. */
  function Rbe3Spider(rbe3: map<int, R3.Rbe3>, l: seq<int>): (r: Option<seq<int>>)
    ensures r.Some? ==> |r.value| > 1
  {
    if l == [] then None
    else if l[0] in rbe3 && |rbe3[l[0]].independents| > 1 then Some(rbe3[l[0]].independents)
    else Rbe3Spider(rbe3, l[1..])
  }

  /** The entries of `v` that are in `c`, in order (the erase loop with `linear_search`). */
  function KeepIn(v: seq<int>, c: seq<int>): seq<int>
  {
    if v == [] then [] else KeepIn(v[..|v| - 1], c) + (if v[|v| - 1] in c then [v[|v| - 1]] else [])
  }

  /** The plates of the first spider node that every later spider node the model has also lists. */
  function Common(quads: map<int, seq<int>>, first: seq<int>, rest: seq<int>): seq<int>
  {
    if rest == [] then first
    else
      var v, g := Common(quads, first, rest[..|rest| - 1]), rest[|rest| - 1];
      if g in quads then KeepIn(v, quads[g]) else v
  }

  lemma {:induction false} KeepInMembers(v: seq<int>, c: seq<int>)
    ensures forall x :: x in KeepIn(v, c) <==> x in v && x in c
  {
    if v != [] {
      KeepInMembers(v[..|v| - 1], c);
      assert v == v[..|v| - 1] + [v[|v| - 1]];
    }
  }

  /** A common plate is a plate of the first node listed by every later node the model has. */
  lemma {:induction false} CommonMembers(quads: map<int, seq<int>>, first: seq<int>, rest: seq<int>, x: int)
    ensures x in Common(quads, first, rest) <==>
      x in first && forall k :: 0 <= k < |rest| && rest[k] in quads ==> x in quads[rest[k]]
  {
    if rest != [] {
      var n := |rest| - 1;
      CommonMembers(quads, first, rest[..n], x);
      var v := Common(quads, first, rest[..n]);
      if rest[n] in quads {
        KeepInMembers(v, quads[rest[n]]);
      }
      assert forall k :: 0 <= k < n ==> rest[..n][k] == rest[k];
    }
  }

  /** The new shell after the fallback branch: the common plates, or nothing when the first spider node is unknown. */
  function Bridge(quads: map<int, seq<int>>, frontier: seq<int>): seq<int>
  {
    if |frontier| > 0 && frontier[0] in quads then Common(quads, quads[frontier[0]], frontier[1..]) else []
  }

  /**
   * The branch for an iteration that found no new plate, as written. An RBE2
   * spider on the first frontier node replaces the frontier; only when one
   * was found are RBE3 spiders consulted, on the new first node, whose
   * missing grid would be dereferenced. The counter is not decremented.
   */
  function FallbackAsWritten(mesh: Mesh, st: Search): Option<Search>
    requires Consistent(mesh) && st.frontier != []
  {
    var g0 := st.frontier[0];
    if g0 !in mesh.quads then Some(st)
    else match Rbe2Spider(mesh.rbe2, mesh.rbe2s[g0])
      case None => Some(st.(shell := Bridge(mesh.quads, st.frontier)))
      case Some(deps) =>
        if deps[0] !in mesh.quads then None
        else
          var f := match Rbe3Spider(mesh.rbe3, mesh.rbe3s[deps[0]]) case Some(ind) => ind case None => deps;
          Some(st.(frontier := f, shell := Bridge(mesh.quads, f)))
  }

  /** The same branch as intended: RBE3 spiders are consulted when the node has no RBE2 spider. */
  function Fallback(mesh: Mesh, st: Search): Search
    requires Consistent(mesh) && st.frontier != []
  {
    var g0 := st.frontier[0];
    if g0 !in mesh.quads then st
    else
      var f := match Rbe2Spider(mesh.rbe2, mesh.rbe2s[g0])
        case Some(deps) => deps
        case None => match Rbe3Spider(mesh.rbe3, mesh.rbe3s[g0]) case Some(ind) => ind case None => st.frontier;
      st.(frontier := f, shell := Bridge(mesh.quads, f))
  }

  /**
   * The branch for an iteration that found new plates: they become the
   * shell, sorted and without duplicates; the counter drops by one; unless
   * it reached zero, the corner nodes of the shell that were not in the old
   * frontier, sorted and without duplicates, become the frontier.
   */
  function Advance(mesh: Mesh, st: Search, found: seq<int>): Search
  {
    var shell := SortUnique(found);
    var counter := st.counter - 1;
    Search(counter, if counter != 0 then SortUnique(Gather(mesh.plates, shell, st.frontier)) else st.frontier, shell)
  }

  /** One pass of the `while (i > 0)` loop, as written; `None` marks undefined behaviour. */
  function StepAsWritten(mesh: Mesh, st: Search): Option<Search>
    requires Consistent(mesh)
  {
    var found := Gather(mesh.quads, st.frontier, st.shell);
    if found != [] then Some(Advance(mesh, st, found))
    else if st.frontier == [] then None
    else FallbackAsWritten(mesh, st)
  }

  /** One pass of the loop as intended. */
  function Step(mesh: Mesh, st: Search): Option<Search>
    requires Consistent(mesh)
  {
    var found := Gather(mesh.quads, st.frontier, st.shell);
    if found != [] then Some(Advance(mesh, st, found))
    else if st.frontier == [] then None
    else Some(Fallback(mesh, st))
  }

  function IterateAsWritten(mesh: Mesh, st: Search, fuel: nat): Ring
    requires Consistent(mesh)
    decreases fuel
  {
    if st.counter <= 0 then Found(st.shell)
    else if fuel == 0 then OutOfFuel
    else match StepAsWritten(mesh, st)
      case None => Undefined
      case Some(next) => IterateAsWritten(mesh, next, fuel - 1)
  }

  function Iterate(mesh: Mesh, st: Search, fuel: nat): Ring
    requires Consistent(mesh)
    decreases fuel
  {
    if st.counter <= 0 then Found(st.shell)
    else if fuel == 0 then OutOfFuel
    else match Step(mesh, st)
      case None => Undefined
      case Some(next) => Iterate(mesh, next, fuel - 1)
  }

  /** `parse_FH`'s search, as written: nothing happens for an unknown fastener node. */
  function SearchRingAsWritten(mesh: Mesh, fastener: int, gridSize: int, shell: seq<int>, fuel: nat): Ring
    requires Consistent(mesh)
  {
    if fastener !in mesh.quads then Found(shell) else IterateAsWritten(mesh, Search(gridSize / 2, [fastener], shell), fuel)
  }

  /** `parse_FH`'s search as intended. */
  function SearchRing(mesh: Mesh, fastener: int, gridSize: int, shell: seq<int>, fuel: nat): Ring
    requires Consistent(mesh)
  {
    if fastener !in mesh.quads then Found(shell) else Iterate(mesh, Search(gridSize / 2, [fastener], shell), fuel)
  }

  /** A grid size below 2 starts the counter at 0 or less, so no pass runs and the shell is kept. */
  lemma NoPassBelowTwo(mesh: Mesh, fastener: int, gridSize: int, shell: seq<int>, fuel: nat)
    requires Consistent(mesh) && gridSize < 2
    ensures SearchRing(mesh, fastener, gridSize, shell, fuel) == Found(shell)
    ensures SearchRingAsWritten(mesh, fastener, gridSize, shell, fuel) == Found(shell)
  {
  }

  /**
   * A pass that finds plates: the counter drops by one, the shell is exactly
   * the plates of frontier nodes that were not in the old shell, increasing,
   * and the next frontier is exactly the corner nodes of the new shell that
   * were not in the old frontier, increasing.
   */
  lemma AdvanceShape(mesh: Mesh, st: Search)
    requires Consistent(mesh) && Gather(mesh.quads, st.frontier, st.shell) != []
    ensures Step(mesh, st) == StepAsWritten(mesh, st)
    ensures var next := Step(mesh, st).value;
      next.counter == st.counter - 1 && Increasing(next.shell)
      && (forall x :: x in next.shell <==>
            x !in st.shell && exists j :: 0 <= j < |st.frontier| && st.frontier[j] in mesh.quads && x in mesh.quads[st.frontier[j]])
      && (next.counter != 0 ==> Increasing(next.frontier))
      && (next.counter != 0 ==> forall x :: x in next.frontier <==>
            x !in st.frontier && exists j :: 0 <= j < |next.shell| && next.shell[j] in mesh.plates && x in mesh.plates[next.shell[j]])
      && (next.counter == 0 ==> next.frontier == st.frontier)
  {
    var found := Gather(mesh.quads, st.frontier, st.shell);
    var next := Advance(mesh, st, found);
    forall x ensures x in next.shell <==>
        x !in st.shell && exists j :: 0 <= j < |st.frontier| && st.frontier[j] in mesh.quads && x in mesh.quads[st.frontier[j]]
    {
      GatherMembers(mesh.quads, st.frontier, st.shell, x);
    }
    if next.counter != 0 {
      forall x ensures x in next.frontier <==>
          x !in st.frontier && exists j :: 0 <= j < |next.shell| && next.shell[j] in mesh.plates && x in mesh.plates[next.shell[j]]
      {
        GatherMembers(mesh.plates, next.shell, st.frontier, x);
      }
    }
  }

  /**
   * A pass that finds no plate keeps the counter. As written, a first node
   * with no RBE2 spider keeps the frontier even when it has an RBE3 spider;
   * as intended that spider's nodes become the frontier. Either way the shell
   * becomes the plates common to the new frontier.
   */
  lemma FallbackShape(mesh: Mesh, st: Search)
    requires Consistent(mesh) && Gather(mesh.quads, st.frontier, st.shell) == [] && st.frontier != []
    requires st.frontier[0] in mesh.quads && Rbe2Spider(mesh.rbe2, mesh.rbe2s[st.frontier[0]]).None?
    ensures StepAsWritten(mesh, st) == Some(st.(shell := Bridge(mesh.quads, st.frontier)))
    ensures var s3 := Rbe3Spider(mesh.rbe3, mesh.rbe3s[st.frontier[0]]);
      Step(mesh, st) == Some(st.(frontier := if s3.Some? then s3.value else st.frontier,
                                 shell := Bridge(mesh.quads, if s3.Some? then s3.value else st.frontier)))
  {
  }

  /** Once a state is a fixed point of a step, the loop never ends. */
  lemma {:induction false} FixedPointAsWrittenRunsOut(mesh: Mesh, st: Search, fuel: nat)
    requires Consistent(mesh) && st.counter > 0 && StepAsWritten(mesh, st) == Some(st)
    ensures IterateAsWritten(mesh, st, fuel) == OutOfFuel
    decreases fuel
  {
    if fuel > 0 {
      FixedPointAsWrittenRunsOut(mesh, st, fuel - 1);
    }
  }

  /**
   * A fastener bridged to its plate by an RBE3 spider only: node 1 has no
   * plate and one RBE3 (7) onto nodes 2 and 3, which share plate 10 and each
   * have one more plate (11, 12). As written the search repeats forever; as
   * intended, with `grid_size` 2, it ends with the shell [11, 12].
   */
  function Rbe3Bridged(): Mesh
  {
    Mesh(map[1 := [], 2 := [10, 11], 3 := [10, 12]], map[1 := [], 2 := [], 3 := []], map[1 := [7], 2 := [], 3 := []],
         map[], map[7 := R3.Rbe3(7, 0, 1, 123, [2, 3], [], [1.0], None)], map[])
  }

  /** The first pass: no plate at node 1; as written nothing changes, as intended the RBE3 spider is crossed. */
  lemma BridgedFirstStep()
    ensures Consistent(Rbe3Bridged())
    ensures StepAsWritten(Rbe3Bridged(), Search(1, [1], [])) == Some(Search(1, [1], []))
    ensures Step(Rbe3Bridged(), Search(1, [1], [])) == Some(Search(1, [2, 3], [10]))
  {
    var mesh := Rbe3Bridged();
    assert Gather(mesh.quads, [1], []) == [] by {
      assert [1][..0] == [];
    }
    assert Bridge(mesh.quads, [1]) == [] by {
      assert [1][1..] == [];
    }
    assert Rbe3Spider(mesh.rbe3, [7]) == Some([2, 3]);
    assert Bridge(mesh.quads, [2, 3]) == [10] by {
      assert [2, 3][1..] == [3];
      assert [3][..0] == [];
      assert [10, 11][..1] == [10] && [10][..0] == [];
      assert KeepIn([10, 11], [10, 12]) == [10];
    }
  }

  /** The second pass gathers the spider nodes' other plates. */
  lemma BridgedGather()
    ensures Gather(Rbe3Bridged().quads, [2, 3], [10]) == [11, 12]
  {
    var mesh := Rbe3Bridged();
    assert Unknown([10, 11], [10]) == [11] by {
      assert [10, 11][..1] == [10] && [10][..0] == [];
      assert Unknown([10], [10]) == [];
    }
    assert Unknown([10, 12], [10]) == [12] by {
      assert [10, 12][..1] == [10];
    }
    assert Gather(mesh.quads, [2], [10]) == [11] by {
      assert [2][..0] == [];
    }
    assert [2, 3][..1] == [2];
  }

  /** The plates the second pass finds are already sorted and distinct. */
  lemma BridgedShell()
    ensures SortUnique([11, 12]) == [11, 12]
  {
    IncreasingUnique(SortUnique([11, 12]), [11, 12]);
  }

  /** A pass that finds plates with the counter at 1 ends the search: the counter reaches 0 and the shell is the plates found. */
  lemma LastStep(mesh: Mesh, st: Search, found: seq<int>)
    requires Consistent(mesh) && st.counter == 1
    requires found != [] && Gather(mesh.quads, st.frontier, st.shell) == found
    ensures Step(mesh, st) == Some(Search(0, st.frontier, SortUnique(found)))
  {
  }

  lemma Rbe3BridgeCounterexample(fuel: nat)
    ensures Consistent(Rbe3Bridged())
    ensures SearchRingAsWritten(Rbe3Bridged(), 1, 2, [], fuel) == OutOfFuel
    ensures fuel >= 2 ==> SearchRing(Rbe3Bridged(), 1, 2, [], fuel) == Found([11, 12])
  {
    BridgedFirstStep();
    var mesh := Rbe3Bridged();
    BridgedGather();
    BridgedShell();
    LastStep(mesh, Search(1, [2, 3], [10]), [11, 12]);
    FixedPointAsWrittenRunsOut(mesh, Search(1, [1], []), fuel);
    if fuel >= 2 {
      TwoStepsFind(mesh, Search(1, [1], []), Search(1, [2, 3], [10]), Search(0, [2, 3], [11, 12]), fuel);
    }
  }

  /** Two passes that reach a zero counter end the search with the second pass's shell. */
  lemma TwoStepsFind(mesh: Mesh, s0: Search, s1: Search, s2: Search, fuel: nat)
    requires Consistent(mesh) && s0.counter > 0 && s1.counter > 0 && s2.counter <= 0 && fuel >= 2
    requires Step(mesh, s0) == Some(s1) && Step(mesh, s1) == Some(s2)
    ensures Iterate(mesh, s0, fuel) == Found(s2.shell)
  {
    assert Iterate(mesh, s1, fuel - 1) == Iterate(mesh, s2, fuel - 2);
  }

  /** `linear_search`: the first index holding `x`, or -1. */
  method LinearSearch(s: seq<int>, x: int) returns (r: int)
    ensures -1 <= r < |s|
    ensures r == -1 <==> x !in s
    ensures r >= 0 ==> s[r] == x && x !in s[..r]
  {
    for i := 0 to |s|
      invariant x !in s[..i]
    {
      if s[i] == x {
        return i;
      }
      assert s[..i + 1] == s[..i] + [s[i]];
    }
    assert s[..|s|] == s;
    return -1;
  }

  /** The gather loops: for each key the model has, append each listed entry not in `known`. */
  method Collect(m: map<int, seq<int>>, keys: seq<int>, known: seq<int>) returns (r: seq<int>)
    ensures r == Gather(m, keys, known)
  {
    r := [];
    for z := 0 to |keys|
      invariant r == Gather(m, keys[..z], known)
    {
      assert keys[..z + 1][..z] == keys[..z];
      if keys[z] in m {
        var l := m[keys[z]];
        ghost var r0 := r;
        for k := 0 to |l|
          invariant r == r0 + Unknown(l[..k], known)
        {
          assert l[..k + 1][..k] == l[..k];
          if l[k] !in known {
            r := r + [l[k]];
          }
        }
        assert l[..|l|] == l;
      }
    }
    assert keys[..|keys|] == keys;
  }

  /** The RBE2 spider loop: the dependents are read back through `operator[]` from index 3. */
  method FindRbe2Spider(rbe2: map<int, R2.Rbe2>, l: seq<int>) returns (r: Option<seq<int>>)
    ensures r == Rbe2Spider(rbe2, l)
  {
    for k := 0 to |l|
      invariant Rbe2Spider(rbe2, l[k..]) == Rbe2Spider(rbe2, l)
    {
      assert l[k..][1..] == l[k + 1..];
      if l[k] in rbe2 {
        var e := rbe2[l[k]];
        var n := R2.NumDependents(e);
        if n > 1 {
          var nodes := [];
          for z := 3 to 3 + n
            invariant nodes == e.dependents[..z - 3]
          {
            nodes := nodes + [R2.Index(e, z)];
          }
          assert e.dependents[..n] == e.dependents && l[k..][0] == l[k];
          return Some(nodes);
        }
      }
    }
    return None;
  }

  /** The RBE3 spider loop: the independent nodes are read back through `operator[]` from index 3. */
  method FindRbe3Spider(rbe3: map<int, R3.Rbe3>, l: seq<int>) returns (r: Option<seq<int>>)
    ensures r == Rbe3Spider(rbe3, l)
  {
    for k := 0 to |l|
      invariant Rbe3Spider(rbe3, l[k..]) == Rbe3Spider(rbe3, l)
    {
      assert l[k..][1..] == l[k + 1..];
      if l[k] in rbe3 {
        var e := rbe3[l[k]];
        var n := R3.NumIndependents(e);
        if n > 1 {
          var nodes := [];
          for z := 3 to 3 + n
            invariant nodes == e.independents[..z - 3]
          {
            nodes := nodes + [R3.Index(e, z)];
          }
          assert e.independents[..n] == e.independents && l[k..][0] == l[k];
          return Some(nodes);
        }
      }
    }
    return None;
  }

  /** The erase loop: drop, in place, every entry `linear_search` does not find in `c`. */
  method EraseMissing(v: seq<int>, c: seq<int>) returns (w: seq<int>)
    ensures w == KeepIn(v, c)
  {
    w := v;
    var z := 0;
    ghost var j := 0;
    while z < |w|
      invariant 0 <= z <= |w| && 0 <= j <= |v| && |w| - z == |v| - j
      invariant w[..z] == KeepIn(v[..j], c) && w[z..] == v[j..]
      decreases |w| - z
    {
      assert v[..j + 1][..j] == v[..j];
      assert v[j] == w[z];
      var at := LinearSearch(c, w[z]);
      if at < 0 {
        w := w[..z] + w[z + 1..];
      } else {
        z := z + 1;
      }
      j := j + 1;
    }
    assert v[..j] == v;
  }

  /** The common-plate loop over the spider nodes after the first. */
  method CommonPlates(quads: map<int, seq<int>>, frontier: seq<int>) returns (v: seq<int>)
    ensures v == Bridge(quads, frontier)
  {
    v := [];
    if |frontier| > 0 && frontier[0] in quads {
      v := quads[frontier[0]];
      for k := 1 to |frontier|
        invariant v == Common(quads, quads[frontier[0]], frontier[1..k])
      {
        assert frontier[1..k + 1][..k - 1] == frontier[1..k];
        assert frontier[1..k + 1][k - 1] == frontier[k];
        if frontier[k] in quads {
          v := EraseMissing(v, quads[frontier[k]]);
        }
      }
      assert frontier[1..|frontier|] == frontier[1..];
    }
  }

  /** A pass that found no plates: the spider of the first frontier node and the plates its nodes share. */
  method FallbackPass(mesh: Mesh, frontier0: seq<int>, shell0: seq<int>) returns (frontier: seq<int>, shell: seq<int>)
    requires Consistent(mesh) && frontier0 != []
    ensures var st := Fallback(mesh, Search(0, frontier0, shell0)); frontier == st.frontier && shell == st.shell
  {
    frontier, shell := frontier0, shell0;
    var g0 := frontier[0];
    if g0 in mesh.quads {
      var spider := FindRbe2Spider(mesh.rbe2, mesh.rbe2s[g0]);
      if spider.Some? {
        frontier := spider.value;
      } else {
        var spider3 := FindRbe3Spider(mesh.rbe3, mesh.rbe3s[g0]);
        if spider3.Some? {
          frontier := spider3.value;
        }
      }
      shell := CommonPlates(mesh.quads, frontier);
    }
  }

  /** A pass that found plates: they become the shell, and the corner nodes it adds the next frontier. */
  method AdvancePass(mesh: Mesh, i0: int, frontier0: seq<int>, shell0: seq<int>, found: seq<int>)
    returns (i: int, frontier: seq<int>, shell: seq<int>)
    ensures Search(i, frontier, shell) == Advance(mesh, Search(i0, frontier0, shell0), found)
  {
    frontier := frontier0;
    shell := SortUnique(found);
    i := i0 - 1;
    if i != 0 {
      var next := Collect(mesh.plates, shell, frontier);
      frontier := SortUnique(next);
    }
  }

  /** The search loop of `parse_FH`, with the RBE3 fallback as intended and a bound on its passes. */
  method FindRing(mesh: Mesh, fastener: int, gridSize: int, shell0: seq<int>, fuel: nat) returns (r: Ring)
    requires Consistent(mesh)
    ensures r == SearchRing(mesh, fastener, gridSize, shell0, fuel)
  {
    if fastener !in mesh.quads {
      return Found(shell0);
    }
    var i, frontier, shell := gridSize / 2, [fastener], shell0;
    var left := fuel;
    while i > 0
      invariant Iterate(mesh, Search(i, frontier, shell), left) == SearchRing(mesh, fastener, gridSize, shell0, fuel)
      decreases left
    {
      if left == 0 {
        return OutOfFuel;
      }
      ghost var st := Search(i, frontier, shell);
      var found := Collect(mesh.quads, frontier, shell);
      if |found| == 0 {
        if |frontier| == 0 {
          return Undefined;
        }
        frontier, shell := FallbackPass(mesh, frontier, shell);
        assert Search(i, frontier, shell) == Fallback(mesh, st);
      } else {
        i, frontier, shell := AdvancePass(mesh, i, frontier, shell, found);
        assert Search(i, frontier, shell) == Advance(mesh, st, found);
      }
      left := left - 1;
    }
    return Found(shell);
  }
}
