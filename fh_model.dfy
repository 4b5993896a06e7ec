/**
 * The filled-hole model (`FH_MODEL`): pairing the CBUSHes that meet at a
 * fastener node, dispatching the ring search and the reduction for each
 * node with the axis pair the user asked for, and assembling the rows of
 * the results table.
 *
 * CBUSHes are named by ID here; the per-CBUSH work (`parse_FH`,
 * `generate_FH_Result`, `get_FH_Result`, `get_FH_CQUADs`) is in module
 * Cbushes, and this module states which calls are made and what each
 * output row holds.
 */
module FhModel {
  import opened Runtime

  // ---------------------------------------------------------------------
  // Ordered keys: `std::map` visits its keys in ascending order
  // ---------------------------------------------------------------------

  /** The least element of a non-empty set. */
  function Least(s: set<int>): (m: int)
    requires s != {}
    ensures m in s && forall x :: x in s ==> m <= x
  {
    LeastExists(s);
    var m :| m in s && forall x :: x in s ==> m <= x;
    m
  }

  lemma {:induction false} LeastExists(s: set<int>)
    requires s != {}
    ensures exists m :: m in s && forall x :: x in s ==> m <= x
    decreases |s|
  {
    var x := PickOne(s);
    if s != {x} {
      LeastExists(s - {x});
      var y :| y in s - {x} && forall z :: z in s - {x} ==> y <= z;
      var m := if x <= y then x else y;
      forall z | z in s
        ensures m <= z
      {
        if z != x {
          assert z in s - {x};
        }
      }
    } else {
      forall z | z in s
        ensures x <= z
      {
        assert z in {x};
      }
    }
  }

  /** Some element of a non-empty set. */
  lemma PickOne(s: set<int>) returns (x: int)
    requires s != {}
    ensures x in s
  {
    if forall y :: y !in s {
      assert false;
    }
    x :| x in s;
  }

  /** The keys of a set in ascending order. */
  function Ascending(s: set<int>): (r: seq<int>)
    ensures |r| == |s|
    ensures forall i :: 0 <= i < |r| ==> r[i] in s
    ensures forall x :: x in s ==> x in r
    ensures forall i, j :: 0 <= i < j < |r| ==> r[i] < r[j]
    decreases |s|
  {
    if s == {} then []
    else
      var m := Least(s);
      var rest := Ascending(s - {m});
      PrependAscending(m, rest, s - {m});
      [m] + rest
  }

  /** A value below every element of a strictly increasing sequence keeps it increasing when put in front. */
  lemma PrependAscending(m: int, rest: seq<int>, s: set<int>)
    requires forall i :: 0 <= i < |rest| ==> rest[i] in s
    requires forall x :: x in s ==> m < x
    requires forall i, j :: 0 <= i < j < |rest| ==> rest[i] < rest[j]
    ensures forall i, j :: 0 <= i < j < |[m] + rest| ==> ([m] + rest)[i] < ([m] + rest)[j]
  {
  }

  // ---------------------------------------------------------------------
  // Pairing: `generate_FH_List`
  // ---------------------------------------------------------------------

  /** A CBUSH as the pairing sees it: its ID and its two fastener nodes (`operator[]` 0, 4 and 5). */
  datatype Ends = Ends(id: int, a: int, b: int)

  function Key(e: Ends, nodeB: bool): int
  {
    if nodeB then e.b else e.a
  }

  /** The IDs are ascending: the order in which `CBUSH_Map` is visited. */
  predicate Ordered(bushes: seq<Ends>)
  {
    forall i, j :: 0 <= i < j < |bushes| ==> bushes[i].id < bushes[j].id
  }

  /** Every list of a node map is non-empty. */
  predicate NonEmpty(m: map<int, seq<int>>)
  {
    forall k :: k in m ==> |m[k]| > 0
  }

  /** The first loop of `generate_FH_List`: each CBUSH is appended to the list of its node, which is created on first use. */
  function Group(m: map<int, seq<int>>, bushes: seq<Ends>, nodeB: bool): (r: map<int, seq<int>>)
    ensures NonEmpty(m) ==> NonEmpty(r)
  {
    if bushes == [] then m
    else
      var g := Group(m, bushes[..|bushes| - 1], nodeB);
      var e := bushes[|bushes| - 1];
      var k := Key(e, nodeB);
      g[k := (if k in g then g[k] else []) + [e.id]]
  }

  /** The IDs of the CBUSHes whose chosen node is `k`, in list order: an independent statement of the grouping. */
  function IdsAt(bushes: seq<Ends>, nodeB: bool, k: int): (r: seq<int>)
    ensures |r| <= |bushes|
  {
    if bushes == [] then []
    else
      var e := bushes[|bushes| - 1];
      IdsAt(bushes[..|bushes| - 1], nodeB, k) + if Key(e, nodeB) == k then [e.id] else []
  }

  /** Grouping from empty maps lists each node's CBUSHes in visiting order, every list non-empty. */
  lemma {:induction false} GroupIsIdsAt(bushes: seq<Ends>, nodeB: bool)
    ensures forall k :: k in Group(map[], bushes, nodeB) ==> Group(map[], bushes, nodeB)[k] == IdsAt(bushes, nodeB, k) != []
    ensures forall k :: k !in Group(map[], bushes, nodeB) ==> IdsAt(bushes, nodeB, k) == []
  {
    if bushes != [] {
      GroupIsIdsAt(bushes[..|bushes| - 1], nodeB);
    }
  }

  /** The first entry of a node's list is the CBUSH of least ID at that node. */
  lemma {:induction false} IdsAtFirstIsLeast(bushes: seq<Ends>, nodeB: bool, k: int)
    requires Ordered(bushes) && IdsAt(bushes, nodeB, k) != []
    ensures exists i :: 0 <= i < |bushes| && Key(bushes[i], nodeB) == k && bushes[i].id == IdsAt(bushes, nodeB, k)[0]
                        && forall j :: 0 <= j < i ==> Key(bushes[j], nodeB) != k
  {
    var init, last := bushes[..|bushes| - 1], bushes[|bushes| - 1];
    var ids := IdsAt(bushes, nodeB, k);
    assert Ordered(init);
    if IdsAt(init, nodeB, k) == [] {
      IdsAtEmpty(init, nodeB, k);
      var i := |bushes| - 1;
      assert Key(last, nodeB) == k && ids == [last.id];
      forall j | 0 <= j < i
        ensures Key(bushes[j], nodeB) != k
      {
        assert bushes[j] == init[j];
      }
      assert Key(bushes[i], nodeB) == k && bushes[i].id == ids[0];
    } else {
      IdsAtFirstIsLeast(init, nodeB, k);
      var i :| 0 <= i < |init| && Key(init[i], nodeB) == k && init[i].id == IdsAt(init, nodeB, k)[0]
               && forall j :: 0 <= j < i ==> Key(init[j], nodeB) != k;
      assert ids[0] == IdsAt(init, nodeB, k)[0];
      forall j | 0 <= j < i
        ensures Key(bushes[j], nodeB) != k
      {
        assert bushes[j] == init[j];
      }
      assert bushes[i] == init[i];
    }
  }

  /** No CBUSH of the list has its node at `k` when the list at `k` is empty. */
  lemma {:induction false} IdsAtEmpty(bushes: seq<Ends>, nodeB: bool, k: int)
    requires IdsAt(bushes, nodeB, k) == []
    ensures forall j :: 0 <= j < |bushes| ==> Key(bushes[j], nodeB) != k
  {
    if bushes != [] {
      var init := bushes[..|bushes| - 1];
      IdsAtEmpty(init, nodeB, k);
      assert forall j :: 0 <= j < |init| ==> bushes[j] == init[j];
    }
  }

  /** The A-side lists after the merge: a node that is also some CBUSH's node B gains that node's first B entry. */
  function MergedA(a: map<int, seq<int>>, b: map<int, seq<int>>): (r: map<int, seq<int>>)
    requires NonEmpty(b)
  {
    map k | k in a :: if k in b then a[k] + [b[k][0]] else a[k]
  }

  /** The B-side lists after the merge: the nodes that are also A nodes are erased. */
  function MergedB(a: map<int, seq<int>>, b: map<int, seq<int>>): (r: map<int, seq<int>>)
  {
    map k | k in b && k !in a :: b[k]
  }

  /**
   * The merge keeps every node exactly once: the A nodes stay A nodes, the
   * two key sets become disjoint and together cover both; a merged node's
   * list is its A list followed by the first of its B list, the rest of
   * that B list is dropped.
   */
  lemma MergeCoversAndSeparates(a: map<int, seq<int>>, b: map<int, seq<int>>)
    requires NonEmpty(b)
    ensures MergedA(a, b).Keys == a.Keys
    ensures MergedA(a, b).Keys !! MergedB(a, b).Keys
    ensures MergedA(a, b).Keys + MergedB(a, b).Keys == a.Keys + b.Keys
    ensures forall k :: k in a && k in b ==> MergedA(a, b)[k] == a[k] + [b[k][0]] && |MergedA(a, b)[k]| == |a[k]| + 1
    ensures forall k :: k in a && k !in b ==> MergedA(a, b)[k] == a[k]
    ensures forall k :: k in MergedB(a, b) ==> MergedB(a, b)[k] == b[k]
  {
  }

  /** A list longer than one is a pair; its second entry is the other CBUSH. */
  function Partner(l: seq<int>): (r: Option<int>)
    ensures r.Some? <==> |l| > 1
    ensures r.Some? ==> r.value == l[1]
  {
    if |l| > 1 then Some(l[1]) else None
  }

  /**
   * After the pairing of CBUSHes listed in ID order, each CBUSH is the
   * owner of its node-A list or further down it, and a CBUSH alone at its
   * node A is paired exactly when some CBUSH has that node as node B; its
   * partner is then the least-ID CBUSH there.
   */
  lemma {:induction false} PairingOfLoneCbush(bushes: seq<Ends>, i: int)
    requires Ordered(bushes) && 0 <= i < |bushes|
    requires IdsAt(bushes, false, bushes[i].a) == [bushes[i].id]
    ensures var a, b := Group(map[], bushes, false), Group(map[], bushes, true);
      var pa := MergedA(a, b);
      bushes[i].a in pa && pa[bushes[i].a][0] == bushes[i].id
      && (Partner(pa[bushes[i].a]).Some? <==> exists j :: 0 <= j < |bushes| && bushes[j].b == bushes[i].a)
      && (Partner(pa[bushes[i].a]).Some? ==>
            exists j :: 0 <= j < |bushes| && bushes[j].b == bushes[i].a && Partner(pa[bushes[i].a]).value == bushes[j].id
                        && forall l :: 0 <= l < j ==> bushes[l].b != bushes[i].a)
  {
    var a, b := Group(map[], bushes, false), Group(map[], bushes, true);
    GroupIsIdsAt(bushes, false);
    GroupIsIdsAt(bushes, true);
    var k := bushes[i].a;
    assert k in a by {
      assert Key(bushes[i], false) == k;
    }
    if exists j :: 0 <= j < |bushes| && bushes[j].b == k {
      var j :| 0 <= j < |bushes| && bushes[j].b == k;
      assert Key(bushes[j], true) == k;
      if k !in b {
        IdsAtEmpty(bushes, true, k);
      }
      IdsAtFirstIsLeast(bushes, true, k);
    } else {
      if k in b {
        IdsAtFirstIsLeast(bushes, true, k);
      }
    }
  }

  // ---------------------------------------------------------------------
  // Dispatch: `calculate_FH_elements`
  // ---------------------------------------------------------------------

  /**
   * One call pair `parse_FH` + `generate_FH_Result`: the CBUSH, its fastener
   * node (0 for A, 1 for B), the paired CBUSH, the ring size, the axis the
   * ring is ordered by, the axis pair of the reduction and the two flags.
   */
  datatype Job = Job(bush: int, side: nat, other: Option<int>, size: int, ringAxis: int,
                     axes: (int, int), matOrient: bool, asIs: bool)

  /** The axis pair of a requested node: as given when the node's first CBUSH is the one named, swapped otherwise. */
  function AxisPair(first: int, check: int, l1: int, l2: int): (r: (int, int))
    ensures first == check ==> r == (l1, l2)
    ensures first != check ==> r == (l2, l1)
  {
    if first == check then (l1, l2) else (l2, l1)
  }

  /** The per-node settings of one request row (`Axis_List_1`, `Axis_List_2`, `Iterations`, `Mat_Orientation`, `AS_IS`, `Axis_Check`). */
  datatype Request = Request(axis1: int, axis2: int, size: int, matOrient: bool, asIs: bool, check: int)

  /** The calls for a node list with its first CBUSH, at fastener node `side`, under request `q`. */
  function JobFor(l: seq<int>, side: nat, q: Request, byCheck: bool): Job
    requires |l| > 0
  {
    Job(l[0], side, Partner(l), q.size, q.axis1,
        if byCheck then AxisPair(l[0], q.check, q.axis1, q.axis2) else (q.axis1, q.axis2), q.matOrient, q.asIs)
  }

  /** The calls for every node of one map, in ascending node order, all under the first request row. */
  function AllJobs(m: map<int, seq<int>>, keys: seq<int>, side: nat, q: Request): (r: seq<Job>)
    requires NonEmpty(m) && forall i :: 0 <= i < |keys| ==> keys[i] in m
    ensures |r| == |keys|
  {
    if keys == [] then []
    else
      var k := keys[|keys| - 1];
      assert k in m;
      AllJobs(m, keys[..|keys| - 1], side, q) + [JobFor(m[k], side, q, false)]
  }

  /** The calls for one requested node: at node A when it is an A node, then at node B when it is a B node. */
  function NodeJobs(a: map<int, seq<int>>, b: map<int, seq<int>>, n: int, q: Request): (r: seq<Job>)
    requires NonEmpty(a) && NonEmpty(b)
  {
    (if n in a then [JobFor(a[n], 0, q, true)] else []) + (if n in b then [JobFor(b[n], 1, q, true)] else [])
  }

  /** The calls for the requested nodes, each under its own request row. */
  function RequestedJobs(a: map<int, seq<int>>, b: map<int, seq<int>>, nodes: seq<int>, reqs: seq<Request>): (r: seq<Job>)
    requires NonEmpty(a) && NonEmpty(b) && |reqs| >= |nodes|
  {
    if nodes == [] then []
    else RequestedJobs(a, b, nodes[..|nodes| - 1], reqs) + NodeJobs(a, b, nodes[|nodes| - 1], reqs[|nodes| - 1])
  }

  /** How many of the requested nodes are nodes of the map. */
  function Count(nodes: seq<int>, m: map<int, seq<int>>): nat
  {
    if nodes == [] then 0
    else Count(nodes[..|nodes| - 1], m) + if nodes[|nodes| - 1] in m then 1 else 0
  }

  /** One call per requested node at each fastener node where it is found: a node of both maps is worked twice. */
  lemma {:induction false} RequestedJobsCount(a: map<int, seq<int>>, b: map<int, seq<int>>, nodes: seq<int>, reqs: seq<Request>)
    requires NonEmpty(a) && NonEmpty(b) && |reqs| >= |nodes|
    ensures |RequestedJobs(a, b, nodes, reqs)| == Count(nodes, a) + Count(nodes, b)
  {
    if nodes != [] {
      RequestedJobsCount(a, b, nodes[..|nodes| - 1], reqs);
    }
  }

  // ---------------------------------------------------------------------
  // Output: `generate_FH_output` and `print_result`
  // ---------------------------------------------------------------------

  /** The number of ring columns: the largest `4 * N - 4` over the requested ring sizes, and 0 at least. */
  method MaxSize(sizes: seq<int>) returns (m: int)
    ensures m >= 0 && forall i :: 0 <= i < |sizes| ==> m >= 4 * sizes[i] - 4
    ensures m == 0 || exists i :: 0 <= i < |sizes| && m == 4 * sizes[i] - 4
  {
    m := 0;
    for i := 0 to |sizes|
      invariant m >= 0 && forall j :: 0 <= j < i ==> m >= 4 * sizes[j] - 4
      invariant m == 0 || exists j :: 0 <= j < i && m == 4 * sizes[j] - 4
    {
      var check := sizes[i] * 4 - 4;
      if check > m {
        m := check;
      }
    }
  }

  /** A decimal digit. */
  function Digit(d: nat): char
    requires d < 10
  {
    "0123456789"[d]
  }

  /** `ulong_to_str` and `int_to_str`: the decimal text of a number. */
  function Decimal(n: int): (s: string)
    ensures |s| >= 1
    decreases if n < 0 then -n + 1 else n
  {
    if n < 0 then "-" + Decimal(-n)
    else if n < 10 then [Digit(n)]
    else Decimal(n / 10) + [Digit(n % 10)]
  }

  /** The value of a text of decimal digits. */
  function DigitsValue(s: string): int
  {
    if s == [] then 0
    else DigitsValue(s[..|s| - 1]) * 10 + (s[|s| - 1] as int - '0' as int)
  }

  /** Reading back the decimal text of a natural number gives the number. */
  lemma {:induction false} DecimalRoundTrip(n: nat)
    ensures DigitsValue(Decimal(n)) == n
  {
    if n >= 10 {
      DecimalRoundTrip(n / 10);
      var s := Decimal(n);
      assert s[..|s| - 1] == Decimal(n / 10);
    }
  }

  /** The header row: fourteen fixed titles and one `CQUAD<i>` column per ring position. */
  function Header(maxSize: int): (r: seq<string>)
    ensures |r| == 14 + (if maxSize > 0 then maxSize else 0)
    ensures r[3] == "CBUSH_1" && r[4] == "CBUSH_2"
    ensures forall i :: 14 <= i < |r| ==> r[i] == "CQUAD" + Decimal(i - 13)
  {
    ["Subcase", "Subtitle", "Grid", "CBUSH_1", "CBUSH_2", "Nxx", "Nyy", "Nxy", "Mxx", "Myy", "Mxy", "Fx", "Fy", "Fz"]
    + seq(if maxSize > 0 then maxSize else 0, i => "CQUAD" + Decimal(i + 1))
  }

  /** What `print_result` reads from the node's first CBUSH: `operator[]` 0 and 1, `get_FH_Result` and `get_FH_CQUADs`. */
  datatype BushView = BushView(id: int, pid: int, result: seq<real>, ring: seq<int>)

  /** The ring columns: one per position up to `maxSize`, the plate ID where the ring has one and "-" past its end. */
  function RingColumns(ring: seq<int>, maxSize: int): (r: seq<string>)
    ensures |r| == if maxSize > 0 then maxSize else 0
    ensures forall i :: 0 <= i < |r| ==> r[i] == if i < |ring| then Decimal(ring[i]) else "-"
  {
    seq(if maxSize > 0 then maxSize else 0, i requires 0 <= i => if i < |ring| then Decimal(ring[i]) else "-")
  }

  /**
   * One results row as written: subcase, subtitle, node, the first CBUSH's
   * ID, then for a pair the first CBUSH's property ID (`operator[](1)`)
   * where the header announces the second CBUSH, "N/A" for a lone
   * CBUSH; the values; the ring columns.
   */
  function RowAsWritten(sub: int, subtitle: string, node: int, l: seq<int>, first: BushView,
                        show: real -> string, maxSize: int): seq<string>
  {
    [Decimal(sub), subtitle, Decimal(node), Decimal(first.id), if |l| > 1 then Decimal(first.pid) else "N/A"]
    + seq(|first.result|, i requires 0 <= i < |first.result| => show(first.result[i]))
    + RingColumns(first.ring, maxSize)
  }

  /** The results row with the second CBUSH's ID in the `CBUSH_2` column. */
  function Row(sub: int, subtitle: string, node: int, l: seq<int>, first: BushView,
               show: real -> string, maxSize: int): (r: seq<string>)
    ensures |r| == 5 + |first.result| + |RingColumns(first.ring, maxSize)|
    ensures |l| > 1 ==> r[4] == Decimal(l[1])
    ensures |l| <= 1 ==> r[4] == "N/A"
    ensures r[..4] == [Decimal(sub), subtitle, Decimal(node), Decimal(first.id)]
    ensures r[5 + |first.result|..] == RingColumns(first.ring, maxSize)
  {
    [Decimal(sub), subtitle, Decimal(node), Decimal(first.id), if |l| > 1 then Decimal(l[1]) else "N/A"]
    + seq(|first.result|, i requires 0 <= i < |first.result| => show(first.result[i]))
    + RingColumns(first.ring, maxSize)
  }

  /** The two rows agree except in the `CBUSH_2` column of a pair. */
  lemma RowAsWrittenDiffersOnlyThere(sub: int, subtitle: string, node: int, l: seq<int>, first: BushView,
                                     show: real -> string, maxSize: int)
    ensures var w, c := RowAsWritten(sub, subtitle, node, l, first, show, maxSize), Row(sub, subtitle, node, l, first, show, maxSize);
      |w| == |c| && (forall i :: 0 <= i < |w| && i != 4 ==> w[i] == c[i])
      && (|l| <= 1 ==> w == c)
  {
  }

  /** CBUSHes 101 (property 7) and 102 paired at node 5: the `CBUSH_2` column reads "7", not "102". */
  lemma RowAsWrittenCounterexample(show: real -> string)
    ensures RowAsWritten(1, "", 5, [101, 102], BushView(101, 7, [], []), show, 0)[4] == "7"
    ensures Row(1, "", 5, [101, 102], BushView(101, 7, [], []), show, 0)[4] == "102"
  {
    assert Decimal(7) == "7";
    assert Decimal(102) == Decimal(10) + ['2'];
    assert Decimal(10) == Decimal(1) + ['0'];
  }

  /** The subcases printed: the requested ones that exist, in request order, or every subcase in ascending order. */
  function Subcases(requested: seq<int>, loadCases: set<int>): (r: seq<int>)
    ensures forall i :: 0 <= i < |r| ==> r[i] in loadCases
    ensures requested == [] ==> r == Ascending(loadCases)
    ensures requested != [] ==> forall s :: s in loadCases && s in requested ==> s in r
  {
    if requested == [] then Ascending(loadCases)
    else Present(requested, loadCases)
  }

  function Present(requested: seq<int>, loadCases: set<int>): (r: seq<int>)
    ensures forall i :: 0 <= i < |r| ==> r[i] in loadCases && r[i] in requested
    ensures forall s :: s in loadCases && s in requested ==> s in r
  {
    if requested == [] then []
    else
      var last := requested[|requested| - 1];
      Present(requested[..|requested| - 1], loadCases) + if last in loadCases then [last] else []
  }

  /**
   * The subcase resolution in each branch of `generate_FH_output`: each
   * requested subcase in turn, kept when `LOAD_CASE_Map` holds it, or, when
   * none is requested, every load case in ascending order.
   */
  method ResolveSubcases(requested: seq<int>, loadCases: set<int>) returns (subs: seq<int>)
    ensures subs == Subcases(requested, loadCases)
  {
    if |requested| == 0 {
      subs := Ascending(loadCases);
    } else {
      subs := [];
      for i := 0 to |requested|
        invariant subs == Present(requested[..i], loadCases)
      {
        assert requested[..i + 1][..i] == requested[..i];
        if requested[i] in loadCases {
          subs := subs + [requested[i]];
        }
      }
      assert requested[..|requested|] == requested;
    }
  }

  /** The requested subcases that exist keep their request order, repeats included. */
  lemma {:induction false} PresentKeepsOrder(requested: seq<int>, loadCases: set<int>)
    requires forall i :: 0 <= i < |requested| ==> requested[i] in loadCases
    ensures Present(requested, loadCases) == requested
  {
    if requested != [] {
      PresentKeepsOrder(requested[..|requested| - 1], loadCases);
      assert requested[..|requested| - 1] + [requested[|requested| - 1]] == requested;
    }
  }

  /** A requested subcase with no load case is dropped. */
  lemma {:induction false} PresentDropsAbsent(requested: seq<int>, loadCases: set<int>, sub: int)
    requires sub !in loadCases
    ensures Present(requested + [sub], loadCases) == Present(requested, loadCases)
  {
    assert (requested + [sub])[..|requested|] == requested;
  }

  /** One output row to print: the node, its fastener side and the subcase. */
  datatype Line = Line(node: int, side: nat, sub: int)

  function LinesAt(node: int, side: nat, subs: seq<int>): (r: seq<Line>)
    ensures |r| == |subs|
    ensures forall i :: 0 <= i < |r| ==> r[i] == Line(node, side, subs[i])
  {
    seq(|subs|, i requires 0 <= i < |subs| => Line(node, side, subs[i]))
  }

  /** The rows for one requested node: its A-side rows if it is an A node, else its B-side rows if it is a B node. */
  function NodeLines(a: map<int, seq<int>>, b: map<int, seq<int>>, n: int, subs: seq<int>): (r: seq<Line>)
    ensures n in a ==> r == LinesAt(n, 0, subs)
    ensures n !in a && n in b ==> r == LinesAt(n, 1, subs)
    ensures n !in a && n !in b ==> r == []
  {
    if n in a then LinesAt(n, 0, subs) else if n in b then LinesAt(n, 1, subs) else []
  }

  function RequestedLines(a: map<int, seq<int>>, b: map<int, seq<int>>, nodes: seq<int>, subs: seq<int>): seq<Line>
  {
    if nodes == [] then []
    else RequestedLines(a, b, nodes[..|nodes| - 1], subs) + NodeLines(a, b, nodes[|nodes| - 1], subs)
  }

  /** The rows for every node of one map in ascending order, skipping those whose first CBUSH's ring is not composite when only composite rings are wanted. */
  function AllLines(m: map<int, seq<int>>, keys: seq<int>, side: nat, subs: seq<int>,
                    compositeOnly: bool, composite: (int, nat) -> bool): seq<Line>
    requires NonEmpty(m) && forall i :: 0 <= i < |keys| ==> keys[i] in m
  {
    if keys == [] then []
    else
      var k := keys[|keys| - 1];
      AllLines(m, keys[..|keys| - 1], side, subs, compositeOnly, composite)
      + if !compositeOnly || composite(m[k][0], side) then LinesAt(k, side, subs) else []
  }

  /** Every row of the results table, in print order. */
  function Selection(a: map<int, seq<int>>, b: map<int, seq<int>>, nodes: seq<int>, subs: seq<int>,
                     compositeOnly: bool, composite: (int, nat) -> bool): seq<Line>
    requires NonEmpty(a) && NonEmpty(b)
  {
    if nodes != [] then RequestedLines(a, b, nodes, subs)
    else AllLines(a, Ascending(a.Keys), 0, subs, compositeOnly, composite)
         + AllLines(b, Ascending(b.Keys), 1, subs, compositeOnly, composite)
  }

  /** With a node list the composite filter has no effect. */
  lemma SelectionIgnoresCompositeForNodes(a: map<int, seq<int>>, b: map<int, seq<int>>, nodes: seq<int>, subs: seq<int>,
                                          composite: (int, nat) -> bool, other: (int, nat) -> bool)
    requires NonEmpty(a) && NonEmpty(b) && nodes != []
    ensures Selection(a, b, nodes, subs, true, composite) == Selection(a, b, nodes, subs, false, other)
  {
  }

  /** Without the filter, every node of either map is printed for every subcase. */
  lemma {:induction false} AllLinesUnfiltered(m: map<int, seq<int>>, keys: seq<int>, side: nat, subs: seq<int>,
                                              composite: (int, nat) -> bool)
    requires NonEmpty(m) && forall i :: 0 <= i < |keys| ==> keys[i] in m
    ensures |AllLines(m, keys, side, subs, false, composite)| == |keys| * |subs|
  {
    if keys != [] {
      AllLinesUnfiltered(m, keys[..|keys| - 1], side, subs, composite);
      assert (|keys| - 1) * |subs| + |subs| == |keys| * |subs|;
    }
  }

  /** A filtered node is printed exactly when its first CBUSH's ring is composite. */
  lemma {:induction false} AllLinesFiltered(m: map<int, seq<int>>, keys: seq<int>, side: nat, subs: seq<int>,
                                            composite: (int, nat) -> bool, l: Line)
    requires NonEmpty(m) && forall i :: 0 <= i < |keys| ==> keys[i] in m
    requires l in AllLines(m, keys, side, subs, true, composite)
    ensures l.node in keys && l.side == side && l.sub in subs && composite(m[l.node][0], side)
  {
    var k := keys[|keys| - 1];
    if l !in AllLines(m, keys[..|keys| - 1], side, subs, true, composite) {
      assert l in LinesAt(k, side, subs);
    } else {
      AllLinesFiltered(m, keys[..|keys| - 1], side, subs, composite, l);
    }
  }

  /** Every printed row names one of the subcases it was printed for. */
  lemma {:induction false} RequestedLinesSubs(a: map<int, seq<int>>, b: map<int, seq<int>>, nodes: seq<int>, subs: seq<int>, l: Line)
    requires l in RequestedLines(a, b, nodes, subs)
    ensures l.sub in subs && l.node in nodes && (l.node in a || l.node in b)
  {
    var n := nodes[|nodes| - 1];
    if l in RequestedLines(a, b, nodes[..|nodes| - 1], subs) {
      RequestedLinesSubs(a, b, nodes[..|nodes| - 1], subs, l);
    } else {
      assert l in NodeLines(a, b, n, subs);
    }
  }

  lemma {:induction false} AllLinesSubs(m: map<int, seq<int>>, keys: seq<int>, side: nat, subs: seq<int>,
                                        compositeOnly: bool, composite: (int, nat) -> bool, l: Line)
    requires NonEmpty(m) && forall i :: 0 <= i < |keys| ==> keys[i] in m
    requires l in AllLines(m, keys, side, subs, compositeOnly, composite)
    ensures l.sub in subs && l.node in keys
  {
    var k := keys[|keys| - 1];
    if l in AllLines(m, keys[..|keys| - 1], side, subs, compositeOnly, composite) {
      AllLinesSubs(m, keys[..|keys| - 1], side, subs, compositeOnly, composite, l);
    } else {
      assert l in LinesAt(k, side, subs);
    }
  }

  /**
   * Only subcases that are load cases are printed, and with a SUBCASES list
   * only those it names.
   */
  lemma PrintedSubcasesExist(a: map<int, seq<int>>, b: map<int, seq<int>>, nodes: seq<int>, requested: seq<int>,
                             loadCases: set<int>, compositeOnly: bool, composite: (int, nat) -> bool, l: Line)
    requires NonEmpty(a) && NonEmpty(b)
    requires l in Selection(a, b, nodes, Subcases(requested, loadCases), compositeOnly, composite)
    ensures l.sub in loadCases
    ensures requested != [] ==> l.sub in requested
  {
    var subs := Subcases(requested, loadCases);
    if nodes != [] {
      RequestedLinesSubs(a, b, nodes, subs, l);
    } else if l in AllLines(a, Ascending(a.Keys), 0, subs, compositeOnly, composite) {
      AllLinesSubs(a, Ascending(a.Keys), 0, subs, compositeOnly, composite, l);
    } else {
      AllLinesSubs(b, Ascending(b.Keys), 1, subs, compositeOnly, composite, l);
    }
    if requested != [] {
      assert subs == Present(requested, loadCases);
    }
  }

  /** Without a node list, a SUBCASES list or the composite filter, every node of both maps is printed for every load case. */
  lemma NoSubcasesPrintsEveryLoadCase(a: map<int, seq<int>>, b: map<int, seq<int>>, loadCases: set<int>,
                                      composite: (int, nat) -> bool)
    requires NonEmpty(a) && NonEmpty(b)
    ensures |Selection(a, b, [], Subcases([], loadCases), false, composite)| == |a.Keys| * |loadCases| + |b.Keys| * |loadCases|
  {
    var subs := Subcases([], loadCases);
    assert |subs| == |loadCases|;
    AllLinesUnfiltered(a, Ascending(a.Keys), 0, subs, composite);
    AllLinesUnfiltered(b, Ascending(b.Keys), 1, subs, composite);
  }

  // ---------------------------------------------------------------------
  // The model object
  // ---------------------------------------------------------------------

  class FhModel {
    /** `FH_Map_Node_A`: CBUSH IDs by fastener node A. */
    var mapA: map<int, seq<int>>
    /** `FH_Map_Node_B`: CBUSH IDs by fastener node B, without the nodes that are also A nodes once paired. */
    var mapB: map<int, seq<int>>

    ghost predicate Valid()
      reads this
    {
      NonEmpty(mapA) && NonEmpty(mapB)
    }

    constructor ()
      ensures Valid() && mapA == map[] && mapB == map[]
    {
      mapA := map[];
      mapB := map[];
    }

    /**
     * `generate_FH_List`: every CBUSH joins the list of its node A and of its
     * node B; then each A node that is also a B node takes the first CBUSH
     * of the B list and the B entry is erased.
     */
    method GenerateFHList(bushes: seq<Ends>)
      requires Valid()
      modifies this
      ensures Valid()
      ensures var a, b := Group(old(mapA), bushes, false), Group(old(mapB), bushes, true);
        NonEmpty(b) && mapA == MergedA(a, b) && mapB == MergedB(a, b)
    {
      var a := GroupLoop(mapA, bushes, false);
      var b := GroupLoop(mapB, bushes, true);
      mapA, mapB := Merge(a, b);
    }

    /**
     * `calculate_FH_elements` without a node list: every A node, then every
     * B node, in ascending order, worked with the first request row and
     * its axis pair as given.
     */
    method CalculateAll(q: Request) returns (jobs: seq<Job>)
      requires Valid()
      ensures jobs == AllJobs(mapA, Ascending(mapA.Keys), 0, q) + AllJobs(mapB, Ascending(mapB.Keys), 1, q)
    {
      var ja := KeyJobs(mapA, 0, q);
      var jb := KeyJobs(mapB, 1, q);
      jobs := ja + jb;
    }

    /**
     * `calculate_FH_elements` with a node list: each requested node is
     * worked at node A if it is an A node and at node B if it is a B node,
     * with its own request row and the axis pair arranged by `Axis_Check`.
     */
    method CalculateNodes(nodes: seq<int>, reqs: seq<Request>) returns (jobs: seq<Job>)
      requires Valid() && |reqs| >= |nodes|
      ensures jobs == RequestedJobs(mapA, mapB, nodes, reqs)
    {
      jobs := [];
      for i := 0 to |nodes|
        invariant jobs == RequestedJobs(mapA, mapB, nodes[..i], reqs)
      {
        assert nodes[..i + 1][..i] == nodes[..i];
        var n, q := nodes[i], reqs[i];
        if n in mapA {
          jobs := jobs + [JobFor(mapA[n], 0, q, true)];
        }
        if n in mapB {
          jobs := jobs + [JobFor(mapB[n], 1, q, true)];
        }
      }
      assert nodes[..|nodes|] == nodes;
    }

    /**
     * The row loop of `generate_FH_output`, over the resolved subcases
     * (`loadCases` holds the keys of `LOAD_CASE_Map`): with a node list, each node's
     * rows from map A, or from map B when it is not an A node; without one,
     * every A node then every B node, filtered by the composite flag when
     * only composite rings are wanted.
     */
    method GenerateFHOutput(nodes: seq<int>, requested: seq<int>, loadCases: set<int>, compositeOnly: bool,
                            composite: (int, nat) -> bool)
      returns (lines: seq<Line>)
      requires Valid()
      ensures lines == Selection(mapA, mapB, nodes, Subcases(requested, loadCases), compositeOnly, composite)
    {
      var subs := ResolveSubcases(requested, loadCases);
      lines := [];
      if |nodes| > 0 {
        for i := 0 to |nodes|
          invariant lines == RequestedLines(mapA, mapB, nodes[..i], subs)
        {
          assert nodes[..i + 1][..i] == nodes[..i];
          var n := nodes[i];
          if n in mapA {
            lines := lines + LinesAt(n, 0, subs);
          } else if n in mapB {
            lines := lines + LinesAt(n, 1, subs);
          }
        }
        assert nodes[..|nodes|] == nodes;
      } else {
        var la := KeyLines(mapA, 0, subs, compositeOnly, composite);
        var lb := KeyLines(mapB, 1, subs, compositeOnly, composite);
        lines := la + lb;
      }
    }
  }

  /** The first loop of `generate_FH_List`, for one of the two node maps. */
  method GroupLoop(m0: map<int, seq<int>>, bushes: seq<Ends>, nodeB: bool) returns (m: map<int, seq<int>>)
    requires NonEmpty(m0)
    ensures m == Group(m0, bushes, nodeB)
  {
    m := m0;
    for i := 0 to |bushes|
      invariant m == Group(m0, bushes[..i], nodeB)
    {
      assert bushes[..i + 1][..i] == bushes[..i];
      var k := Key(bushes[i], nodeB);
      m := m[k := (if k in m then m[k] else []) + [bushes[i].id]];
    }
    assert bushes[..|bushes|] == bushes;
  }

  /** The second loop of `generate_FH_List`: over the A nodes in ascending order, a node also found in the B map takes the first B entry, which is erased. */
  method Merge(a: map<int, seq<int>>, b: map<int, seq<int>>) returns (ma: map<int, seq<int>>, mb: map<int, seq<int>>)
    requires NonEmpty(a) && NonEmpty(b)
    ensures NonEmpty(ma) && NonEmpty(mb)
    ensures ma == MergedA(a, b) && mb == MergedB(a, b)
  {
    ma, mb := a, b;
    var keys := Ascending(a.Keys);
    MergeStart(a, b, keys);
    for i := 0 to |keys|
      invariant ma == PartialA(a, b, Prefix(keys, i)) && mb == PartialB(a, b, Prefix(keys, i))
    {
      var k := keys[i];
      PrefixStep(keys, i);
      MergeStep(a, b, Prefix(keys, i), k);
      var next := MergeOne(ma, mb, k);
      ma, mb := next.0, next.1;
    }
    MergeDone(a, b, keys);
  }

  /** Before the loop nothing is merged. */
  lemma MergeStart(a: map<int, seq<int>>, b: map<int, seq<int>>, keys: seq<int>)
    requires NonEmpty(b)
    ensures a == PartialA(a, b, Prefix(keys, 0)) && b == PartialB(a, b, Prefix(keys, 0))
  {
    assert Prefix(keys, 0) == {};
  }

  /** The first `i` keys of a list, as a set. */
  function Prefix(keys: seq<int>, i: nat): set<int>
    requires i <= |keys|
  {
    set j | 0 <= j < i :: keys[j]
  }

  /** The next key of a strictly ascending list is new and joins the set. */
  lemma PrefixStep(keys: seq<int>, i: nat)
    requires i < |keys| && forall p, q :: 0 <= p < q < |keys| ==> keys[p] < keys[q]
    ensures keys[i] !in Prefix(keys, i) && Prefix(keys, i + 1) == Prefix(keys, i) + {keys[i]}
  {
  }

  /** One visit of the merge loop at A node `k`. */
  function MergeOne(ma: map<int, seq<int>>, mb: map<int, seq<int>>, k: int): (map<int, seq<int>>, map<int, seq<int>>)
    requires k in ma && NonEmpty(mb)
  {
    if k in mb then (ma[k := ma[k] + [mb[k][0]]], mb - {k}) else (ma, mb)
  }

  /** The maps after the merge loop has visited the A nodes in `done`. */
  function PartialA(a: map<int, seq<int>>, b: map<int, seq<int>>, done: set<int>): map<int, seq<int>>
    requires NonEmpty(b)
  {
    map k | k in a :: if k in b && k in done then a[k] + [b[k][0]] else a[k]
  }

  function PartialB(a: map<int, seq<int>>, b: map<int, seq<int>>, done: set<int>): (r: map<int, seq<int>>)
    requires NonEmpty(b)
    ensures NonEmpty(r)
  {
    map k | k in b && !(k in a && k in done) :: b[k]
  }

  /** Visiting a new A node extends the visited set by that node. */
  lemma MergeStep(a: map<int, seq<int>>, b: map<int, seq<int>>, done: set<int>, k: int)
    requires NonEmpty(b) && k in a && k !in done
    ensures MergeOne(PartialA(a, b, done), PartialB(a, b, done), k) == (PartialA(a, b, done + {k}), PartialB(a, b, done + {k}))
  {
    if k in b {
      assert PartialA(a, b, done)[k := a[k] + [b[k][0]]] == PartialA(a, b, done + {k});
      assert PartialB(a, b, done) - {k} == PartialB(a, b, done + {k});
    } else {
      assert PartialA(a, b, done) == PartialA(a, b, done + {k});
      assert PartialB(a, b, done) == PartialB(a, b, done + {k});
    }
  }

  /** Once every A node is visited the merge is complete. */
  lemma MergeDone(a: map<int, seq<int>>, b: map<int, seq<int>>, keys: seq<int>)
    requires NonEmpty(a) && NonEmpty(b) && forall k :: k in a ==> k in keys
    ensures PartialA(a, b, Prefix(keys, |keys|)) == MergedA(a, b) && PartialB(a, b, Prefix(keys, |keys|)) == MergedB(a, b)
    ensures NonEmpty(MergedA(a, b)) && NonEmpty(MergedB(a, b))
  {
    var done := Prefix(keys, |keys|);
    forall k | k in a
      ensures k in done
    {
      var j :| 0 <= j < |keys| && keys[j] == k;
    }
    assert PartialB(a, b, done).Keys == MergedB(a, b).Keys;
  }

  /** The calls for every node of one map, in ascending order. */
  method KeyJobs(m: map<int, seq<int>>, side: nat, q: Request) returns (jobs: seq<Job>)
    requires NonEmpty(m)
    ensures jobs == AllJobs(m, Ascending(m.Keys), side, q)
  {
    jobs := JobsOfKeys(m, Ascending(m.Keys), side, q);
  }

  /** The key loop: the calls for each listed node in turn. */
  method JobsOfKeys(m: map<int, seq<int>>, keys: seq<int>, side: nat, q: Request) returns (jobs: seq<Job>)
    requires NonEmpty(m) && forall i :: 0 <= i < |keys| ==> keys[i] in m
    ensures jobs == AllJobs(m, keys, side, q)
  {
    jobs := [];
    for i := 0 to |keys|
      invariant jobs == AllJobs(m, keys[..i], side, q)
    {
      var k := keys[i];
      assert k in m && |m[k]| > 0;
      AllJobsStep(m, keys, i, side, q);
      jobs := jobs + [JobFor(m[k], side, q, false)];
    }
    assert keys[..|keys|] == keys;
  }

  /** One more node of the key loop. */
  lemma AllJobsStep(m: map<int, seq<int>>, keys: seq<int>, i: nat, side: nat, q: Request)
    requires NonEmpty(m) && i < |keys| && forall j :: 0 <= j < |keys| ==> keys[j] in m
    requires |m[keys[i]]| > 0
    ensures AllJobs(m, keys[..i + 1], side, q) == AllJobs(m, keys[..i], side, q) + [JobFor(m[keys[i]], side, q, false)]
  {
    assert keys[..i + 1][..i] == keys[..i];
  }

  /** One more node of the key loop. */
  lemma AllLinesStep(m: map<int, seq<int>>, keys: seq<int>, i: nat, side: nat, subs: seq<int>,
                     compositeOnly: bool, composite: (int, nat) -> bool)
    requires NonEmpty(m) && i < |keys| && forall j :: 0 <= j < |keys| ==> keys[j] in m
    requires |m[keys[i]]| > 0
    ensures AllLines(m, keys[..i + 1], side, subs, compositeOnly, composite)
         == AllLines(m, keys[..i], side, subs, compositeOnly, composite)
            + if !compositeOnly || composite(m[keys[i]][0], side) then LinesAt(keys[i], side, subs) else []
  {
    assert keys[..i + 1][..i] == keys[..i];
  }

  /** The rows of one map's nodes, in ascending order. */
  method KeyLines(m: map<int, seq<int>>, side: nat, subs: seq<int>, compositeOnly: bool, composite: (int, nat) -> bool)
    returns (lines: seq<Line>)
    requires NonEmpty(m)
    ensures lines == AllLines(m, Ascending(m.Keys), side, subs, compositeOnly, composite)
  {
    lines := LinesOfKeys(m, Ascending(m.Keys), side, subs, compositeOnly, composite);
  }

  /** The key loop: the rows of each listed node in turn, skipping non-composite nodes when asked to. */
  method LinesOfKeys(m: map<int, seq<int>>, keys: seq<int>, side: nat, subs: seq<int>, compositeOnly: bool, composite: (int, nat) -> bool)
    returns (lines: seq<Line>)
    requires NonEmpty(m) && forall i :: 0 <= i < |keys| ==> keys[i] in m
    ensures lines == AllLines(m, keys, side, subs, compositeOnly, composite)
  {
    lines := [];
    for i := 0 to |keys|
      invariant lines == AllLines(m, keys[..i], side, subs, compositeOnly, composite)
    {
      var k := keys[i];
      assert k in m && |m[k]| > 0;
      AllLinesStep(m, keys, i, side, subs, compositeOnly, composite);
      var keep := if compositeOnly then composite(m[k][0], side) else true;
      if keep {
        lines := lines + LinesAt(k, side, subs);
      }
    }
    assert keys[..|keys|] == keys;
  }

  /** `print_result`, with the second CBUSH's ID in the `CBUSH_2` column. */
  method PrintResult(sub: int, subtitle: string, node: int, l: seq<int>, first: BushView,
                     show: real -> string, maxSize: int) returns (row: seq<string>)
    ensures row == Row(sub, subtitle, node, l, first, show, maxSize)
  {
    row := [Decimal(sub), subtitle, Decimal(node), Decimal(first.id)];
    if |l| > 1 {
      row := row + [Decimal(l[1])];
    } else {
      row := row + ["N/A"];
    }
    var values := ShowValues(first.result, show);
    var cols := ShowRing(first.ring, maxSize);
    row := row + values + cols;
  }

  /** The value columns of `print_result`: each result value as `show` writes it, in order. */
  method ShowValues(result: seq<real>, show: real -> string) returns (values: seq<string>)
    ensures |values| == |result| && forall i :: 0 <= i < |result| ==> values[i] == show(result[i])
  {
    values := [];
    for i := 0 to |result|
      invariant |values| == i && forall j :: 0 <= j < i ==> values[j] == show(result[j])
    {
      values := values + [show(result[i])];
    }
  }

  /** The ring columns of `print_result`: the plate IDs, then "-" up to `maxSize`. */
  method ShowRing(ring: seq<int>, maxSize: int) returns (cols: seq<string>)
    ensures cols == RingColumns(ring, maxSize)
  {
    cols := [];
    for i := 0 to if maxSize > 0 then maxSize else 0
      invariant cols == RingColumns(ring, maxSize)[..i]
    {
      if i < |ring| {
        cols := cols + [Decimal(ring[i])];
      } else {
        cols := cols + ["-"];
      }
    }
  }
}
