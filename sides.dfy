/**
 * `CBUSH::order_FH`: the outer shell of plates around a fastener node is
 * split into the four sides of the filled-hole square by sorting the plate
 * centroids along the two in-plane directions of the fastener axis. Side 1
 * is the low end of the primary direction and side 3 the high end; side 2
 * is the high end of the secondary direction and side 4 the low end.
 */
module Sides {
  import opened Runtime
  import C = Coordinates

  /** A shell plate with its centroid in the fastener's frame (`std::pair<Coordinate, CQUAD*>`). */
  datatype Placed = Placed(centroid: C.Point, quad: int)

  /** The component `sort_x`, `sort_y` and `sort_z` compare: x, y, z for 0, 1, 2. */
  function Key(e: Placed, k: int): real
  {
    C.Index(e.centroid, k)
  }

  /** The direction sides 1 and 3 are cut from: x for axis codes 23 and 32, y for 13 and 31, z otherwise. */
  function Primary(axis: int): (k: int)
    ensures 0 <= k < 3
    ensures k == 0 <==> axis == 23 || axis == 32
    ensures k == 1 <==> axis == 13 || axis == 31
  {
    if axis == 23 || axis == 32 then 0 else if axis == 13 || axis == 31 then 1 else 2
  }

  /** The direction sides 2 and 4 are cut from: x for axis codes 21 and 31, y for 12 and 32, z otherwise. */
  function Secondary(axis: int): (k: int)
    ensures 0 <= k < 3
    ensures k == 0 <==> axis == 21 || axis == 31
    ensures k == 1 <==> axis == 12 || axis == 32
  {
    if axis == 21 || axis == 31 then 0 else if axis == 12 || axis == 32 then 1 else 2
  }

  predicate SortedBy(s: seq<Placed>, k: int)
  {
    forall i, j :: 0 <= i < j < |s| ==> Key(s[i], k) <= Key(s[j], k)
  }

  predicate DescendingBy(s: seq<Placed>, k: int)
  {
    forall i, j :: 0 <= i < j < |s| ==> Key(s[i], k) >= Key(s[j], k)
  }

  /** `e` placed before the first entry with a larger key. */
  function InsertBy(s: seq<Placed>, e: Placed, k: int): (r: seq<Placed>)
    ensures |r| == |s| + 1 && (r[0] == e || (s != [] && r[0] == s[0]))
  {
    if s == [] then [e]
    else if Key(e, k) < Key(s[0], k) then [e] + s
    else [s[0]] + InsertBy(s[1..], e, k)
  }

  /** Inserting adds exactly `e`. */
  lemma {:induction false} InsertByMultiset(s: seq<Placed>, e: Placed, k: int)
    ensures multiset(InsertBy(s, e, k)) == multiset(s) + multiset{e}
  {
    if s != [] && Key(e, k) >= Key(s[0], k) {
      InsertByMultiset(s[1..], e, k);
      assert s == [s[0]] + s[1..];
    }
  }

  /** Inserting into a sorted list keeps it sorted. */
  lemma {:induction false} InsertBySorted(s: seq<Placed>, e: Placed, k: int)
    requires SortedBy(s, k)
    ensures SortedBy(InsertBy(s, e, k), k)
  {
    if s != [] && Key(e, k) >= Key(s[0], k) {
      InsertBySorted(s[1..], e, k);
      var t := InsertBy(s[1..], e, k);
      assert InsertBy(s, e, k) == [s[0]] + t;
      assert forall j :: 0 <= j < |t| ==> Key(t[0], k) <= Key(t[j], k);
      assert Key(s[0], k) <= Key(t[0], k);
    }
  }

  /**
   * `std::sort` with `sort_x`, `sort_y` or `sort_z`: a permutation of `s`
   * (sorted by the chosen component, as `SortBySorted` shows). The source's
   * sort leaves the order of equal keys unspecified; this one keeps them in
   * input order.
   */
  function SortBy(s: seq<Placed>, k: int): (r: seq<Placed>)
    ensures |r| == |s|
  {
    if s == [] then [] else InsertBy(SortBy(s[..|s| - 1], k), s[|s| - 1], k)
  }

  /** The sort is a sorted permutation of its input. */
  lemma {:induction false} SortBySorted(s: seq<Placed>, k: int)
    ensures SortedBy(SortBy(s, k), k) && multiset(SortBy(s, k)) == multiset(s)
  {
    if s != [] {
      SortBySorted(s[..|s| - 1], k);
      InsertBySorted(SortBy(s[..|s| - 1], k), s[|s| - 1], k);
      InsertByMultiset(SortBy(s[..|s| - 1], k), s[|s| - 1], k);
      assert s == s[..|s| - 1] + [s[|s| - 1]];
    }
  }

  /** The entries from last to first. */
  function Reverse(s: seq<Placed>): (r: seq<Placed>)
    ensures |r| == |s|
  {
    seq(|s|, i requires 0 <= i < |s| => s[|s| - 1 - i])
  }

  /** The entries from index `m` on, read from the last to index `m`. */
  function FromEnd(p: seq<Placed>, m: int): (r: seq<Placed>)
    requires 0 <= m <= |p|
    ensures |r| == |p| - m
    decreases |p| - m
  {
    if m == |p| then [] else FromEnd(p, m + 1) + [p[m]]
  }

  lemma {:induction false} FromEndMultiset(p: seq<Placed>, m: int)
    requires 0 <= m <= |p|
    ensures multiset(FromEnd(p, m)) == multiset(p[m..])
    decreases |p| - m
  {
    if m < |p| {
      FromEndMultiset(p, m + 1);
      assert p[m..] == [p[m]] + p[m + 1..];
    }
  }

  /** The plates of a side, in order. */
  function Quads(s: seq<Placed>): (r: seq<int>)
    ensures |r| == |s|
  {
    seq(|s|, i requires 0 <= i < |s| => s[i].quad)
  }

  /** The four sides, each in the order they are appended to `side_1` .. `side_4`. */
  datatype Square = Square(side1: seq<Placed>, side2: seq<Placed>, side3: seq<Placed>, side4: seq<Placed>)

  /** The plate IDs of the four sides. */
  datatype Quartet = Quartet(side1: seq<int>, side2: seq<int>, side3: seq<int>, side4: seq<int>)

  function Pushed(sq: Square): Quartet
  {
    Quartet(Quads(sq.side1), Quads(sq.side2), Quads(sq.side3), Quads(sq.side4))
  }

  /**
   * The sides of a shell of `4 * n - 4` plates, `None` for a shell of any
   * other size. The shell is sorted along the primary direction; its first
   * `n` plates, sorted along the secondary direction, are side 1, its last
   * `n` (read from the end) sorted the same way and reversed are side 3. The
   * shell is then re-sorted along the secondary direction; its last `n`
   * (read from the end) sorted along the primary direction are side 2, its
   * first `n` sorted the same way and reversed are side 4.
   */
  function Order(all: seq<Placed>, n: int, axis: int): Option<Square>
    requires n != 1 || all != []
  {
    if |all| != 4 * n - 4 then None
    else
      var p := SortBy(all, Primary(axis));
      Some(Cut(p, SortBy(p, Secondary(axis)), n, Primary(axis), Secondary(axis)))
  }

  /** The four sides cut from the shell sorted along the primary (`p`) and then the secondary (`q`) direction. */
  function Cut(p: seq<Placed>, q: seq<Placed>, n: int, pk: int, sk: int): Square
    requires n >= 2 && |p| == 4 * n - 4 && |q| == 4 * n - 4
  {
    Square(Low(p, n, sk), High(q, 3 * n - 4, pk), Reverse(High(p, 3 * n - 4, sk)), Reverse(Low(q, n, pk)))
  }

  /** The first `n` entries, sorted by `k`. */
  function Low(p: seq<Placed>, n: int, k: int): (r: seq<Placed>)
    requires 0 <= n <= |p|
    ensures |r| == n
  {
    SortBy(p[..n], k)
  }

  /** The entries from index `m` on, read from the end, sorted by `k`. */
  function High(p: seq<Placed>, m: int, k: int): (r: seq<Placed>)
    requires 0 <= m <= |p|
    ensures |r| == |p| - m
  {
    SortBy(FromEnd(p, m), k)
  }

  lemma LowFacts(p: seq<Placed>, n: int, k: int)
    requires 0 <= n <= |p|
    ensures SortedBy(Low(p, n, k), k) && multiset(Low(p, n, k)) == multiset(p[..n])
  {
    SortBySorted(p[..n], k);
  }

  lemma HighFacts(p: seq<Placed>, m: int, k: int)
    requires 0 <= m <= |p|
    ensures SortedBy(High(p, m, k), k) && multiset(High(p, m, k)) == multiset(p[m..])
  {
    FromEndMultiset(p, m);
    SortBySorted(FromEnd(p, m), k);
  }

  lemma {:induction false} ReverseMultiset(s: seq<Placed>)
    ensures multiset(Reverse(s)) == multiset(s)
  {
    if s != [] {
      ReverseMultiset(s[1..]);
      assert Reverse(s) == Reverse(s[1..]) + [s[0]];
      assert s == [s[0]] + s[1..];
    }
  }

  lemma ReverseSorted(s: seq<Placed>, k: int)
    requires SortedBy(s, k)
    ensures DescendingBy(Reverse(s), k)
  {
  }

  /** The first `n` entries of a sorted list have no larger key than any later one. */
  lemma SortedSplit(p: seq<Placed>, k: int, n: int)
    requires SortedBy(p, k) && 0 <= n <= |p|
    ensures forall a, b :: a in p[..n] && b in p[n..] ==> Key(a, k) <= Key(b, k)
    ensures multiset(p[..n]) + multiset(p[n..]) == multiset(p)
  {
    forall a, b | a in p[..n] && b in p[n..]
      ensures Key(a, k) <= Key(b, k)
    {
      var i :| 0 <= i < n && p[..n][i] == a;
      var j :| 0 <= j < |p| - n && p[n..][j] == b;
      assert p[i] == a && p[n + j] == b;
    }
    assert p == p[..n] + p[n..];
  }

  /**
   * Taking the first `n` of a sorted permutation of `all` keeps the `n`
   * smallest keys: whatever of `all` is left over has no smaller key.
   */
  lemma LowEnd(all: seq<Placed>, p: seq<Placed>, side: seq<Placed>, k: int, n: int)
    requires SortedBy(p, k) && multiset(p) == multiset(all) && 0 <= n <= |p|
    requires multiset(side) == multiset(p[..n])
    ensures multiset(side) <= multiset(all)
    ensures forall a, b :: a in side && b in multiset(all) - multiset(side) ==> Key(a, k) <= Key(b, k)
  {
    SortedSplit(p, k, n);
    assert multiset(all) - multiset(side) == multiset(p[n..]);
    forall a, b | a in side && b in multiset(all) - multiset(side)
      ensures Key(a, k) <= Key(b, k)
    {
      assert a in multiset(p[..n]);
      assert b in multiset(p[n..]);
    }
  }

  /** Taking the last `n` of a sorted permutation of `all` keeps the `n` largest keys. */
  lemma HighEnd(all: seq<Placed>, p: seq<Placed>, side: seq<Placed>, k: int, m: int)
    requires SortedBy(p, k) && multiset(p) == multiset(all) && 0 <= m <= |p|
    requires multiset(side) == multiset(p[m..])
    ensures multiset(side) <= multiset(all)
    ensures forall a, b :: a in side && b in multiset(all) - multiset(side) ==> Key(b, k) <= Key(a, k)
  {
    SortedSplit(p, k, m);
    assert multiset(all) - multiset(side) == multiset(p[..m]);
    forall a, b | a in side && b in multiset(all) - multiset(side)
      ensures Key(b, k) <= Key(a, k)
    {
      assert a in multiset(p[m..]);
      assert b in multiset(p[..m]);
    }
  }

  /** A shell of the wrong size gives no sides at all; otherwise every side has `n` plates. */
  lemma OrderSizes(all: seq<Placed>, n: int, axis: int)
    requires n != 1 || all != []
    ensures Order(all, n, axis).None? <==> |all| != 4 * n - 4
    ensures n < 2 ==> Order(all, n, axis).None?
    ensures Order(all, n, axis).Some? ==>
      var sq := Order(all, n, axis).value;
      |sq.side1| == n && |sq.side2| == n && |sq.side3| == n && |sq.side4| == n
  {
  }

  /** The two sorted copies of the shell `order_FH` cuts its sides from. */
  predicate Sorts(all: seq<Placed>, p: seq<Placed>, q: seq<Placed>, pk: int, sk: int)
  {
    SortedBy(p, pk) && multiset(p) == multiset(all) && SortedBy(q, sk) && multiset(q) == multiset(all)
  }

  /** Both sorted copies are as long as the shell. */
  lemma SortsLengths(all: seq<Placed>, p: seq<Placed>, q: seq<Placed>, pk: int, sk: int)
    requires Sorts(all, p, q, pk, sk)
    ensures |p| == |all| && |q| == |all|
  {
    assert |multiset(p)| == |multiset(all)| && |multiset(q)| == |multiset(all)|;
  }

  /** `Order` cuts the square from the shell sorted along the primary and then the secondary direction. */
  lemma OrderCuts(all: seq<Placed>, n: int, axis: int)
    requires n >= 2 && |all| == 4 * n - 4
    ensures var p := SortBy(all, Primary(axis));
      var q := SortBy(p, Secondary(axis));
      Sorts(all, p, q, Primary(axis), Secondary(axis)) && Order(all, n, axis) == Some(Cut(p, q, n, Primary(axis), Secondary(axis)))
  {
    SortBySorted(all, Primary(axis));
    SortBySorted(SortBy(all, Primary(axis)), Secondary(axis));
  }

  /** Side 1 holds the `n` plates lowest along the primary direction, ascending along the secondary. */
  lemma Side1Shape(all: seq<Placed>, p: seq<Placed>, q: seq<Placed>, n: int, pk: int, sk: int)
    requires n >= 2 && |all| == 4 * n - 4 && Sorts(all, p, q, pk, sk)
    ensures |p| == 4 * n - 4 && |q| == 4 * n - 4
    ensures var s := Cut(p, q, n, pk, sk).side1;
      SortedBy(s, sk) && multiset(s) <= multiset(all)
      && forall a, b :: a in s && b in multiset(all) - multiset(s) ==> Key(a, pk) <= Key(b, pk)
  {
    SortsLengths(all, p, q, pk, sk);
    LowFacts(p, n, sk);
    LowEnd(all, p, Low(p, n, sk), pk, n);
  }

  /** Side 3 holds the `n` plates highest along the primary direction, descending along the secondary. */
  lemma Side3Shape(all: seq<Placed>, p: seq<Placed>, q: seq<Placed>, n: int, pk: int, sk: int)
    requires n >= 2 && |all| == 4 * n - 4 && Sorts(all, p, q, pk, sk)
    ensures |p| == 4 * n - 4 && |q| == 4 * n - 4
    ensures var s := Cut(p, q, n, pk, sk).side3;
      DescendingBy(s, sk) && multiset(s) <= multiset(all)
      && forall a, b :: a in s && b in multiset(all) - multiset(s) ==> Key(b, pk) <= Key(a, pk)
  {
    SortsLengths(all, p, q, pk, sk);
    HighFacts(p, 3 * n - 4, sk);
    ReversedHigh(all, p, High(p, 3 * n - 4, sk), 3 * n - 4, pk, sk);
  }

  /** The end of the list sorted along `pk`, sorted along `sk` and reversed: descending along `sk`, above the rest along `pk`. */
  lemma ReversedHigh(all: seq<Placed>, p: seq<Placed>, top: seq<Placed>, m: int, pk: int, sk: int)
    requires SortedBy(p, pk) && multiset(p) == multiset(all) && 0 <= m <= |p|
    requires SortedBy(top, sk) && multiset(top) == multiset(p[m..])
    ensures var s := Reverse(top);
      DescendingBy(s, sk) && multiset(s) <= multiset(all)
      && forall a, b :: a in s && b in multiset(all) - multiset(s) ==> Key(b, pk) <= Key(a, pk)
  {
    ReverseMultiset(top);
    ReverseSorted(top, sk);
    HighEnd(all, p, Reverse(top), pk, m);
  }

  /** Side 2 holds the `n` plates highest along the secondary direction, ascending along the primary. */
  lemma Side2Shape(all: seq<Placed>, p: seq<Placed>, q: seq<Placed>, n: int, pk: int, sk: int)
    requires n >= 2 && |all| == 4 * n - 4 && Sorts(all, p, q, pk, sk)
    ensures |p| == 4 * n - 4 && |q| == 4 * n - 4
    ensures var s := Cut(p, q, n, pk, sk).side2;
      SortedBy(s, pk) && multiset(s) <= multiset(all)
      && forall a, b :: a in s && b in multiset(all) - multiset(s) ==> Key(b, sk) <= Key(a, sk)
  {
    SortsLengths(all, p, q, pk, sk);
    HighFacts(q, 3 * n - 4, pk);
    HighEnd(all, q, High(q, 3 * n - 4, pk), sk, 3 * n - 4);
  }

  /** Side 4 holds the `n` plates lowest along the secondary direction, descending along the primary. */
  lemma Side4Shape(all: seq<Placed>, p: seq<Placed>, q: seq<Placed>, n: int, pk: int, sk: int)
    requires n >= 2 && |all| == 4 * n - 4 && Sorts(all, p, q, pk, sk)
    ensures |p| == 4 * n - 4 && |q| == 4 * n - 4
    ensures var s := Cut(p, q, n, pk, sk).side4;
      DescendingBy(s, pk) && multiset(s) <= multiset(all)
      && forall a, b :: a in s && b in multiset(all) - multiset(s) ==> Key(a, sk) <= Key(b, sk)
  {
    SortsLengths(all, p, q, pk, sk);
    var left := Low(q, n, pk);
    LowFacts(q, n, pk);
    ReverseMultiset(left);
    ReverseSorted(left, pk);
    LowEnd(all, q, Reverse(left), sk, n);
  }

  /**
   * The loops of `order_FH` after its size check: copy plates out of the
   * sorted shell, forwards or from the end, and push a sorted side's plates
   * forwards (sides 1 and 2) or backwards (sides 3 and 4).
   */
  method OrderSides(all: seq<Placed>, n: int, axis: int) returns (r: Option<Quartet>)
    requires n != 1 || all != []
    ensures r == if |all| == 4 * n - 4 then Some(Pushed(Order(all, n, axis).value)) else None
  {
    if |all| != 4 * n - 4 {
      return None;
    }
    var p := SortBy(all, Primary(axis));
    var q := SortBy(p, Secondary(axis));
    var sides := CutSides(p, q, n, Primary(axis), Secondary(axis));
    return Some(sides);
  }

  /** The four side loops on the sorted shells. */
  method CutSides(p: seq<Placed>, q: seq<Placed>, n: int, pk: int, sk: int) returns (r: Quartet)
    requires n >= 2 && |p| == 4 * n - 4 && |q| == 4 * n - 4
    ensures r == Pushed(Cut(p, q, n, pk, sk))
  {
    var side := LowSide(p, n, sk);
    var s1 := Forward(side);
    side := HighSide(p, 3 * n - 4, sk);
    var s3 := Backward(side);
    side := HighSide(q, 3 * n - 4, pk);
    var s2 := Forward(side);
    side := LowSide(q, n, pk);
    var s4 := Backward(side);
    r := Quartet(s1, s2, s3, s4);
  }

  /** A side cut from the front of a sorted shell and sorted by `k`. */
  method LowSide(p: seq<Placed>, n: int, k: int) returns (side: seq<Placed>)
    requires 0 <= n <= |p|
    ensures side == Low(p, n, k)
  {
    side := Front(p, n);
    side := SortBy(side, k);
  }

  /** A side cut from the back of a sorted shell, from index `m` on, and sorted by `k`. */
  method HighSide(p: seq<Placed>, m: int, k: int) returns (side: seq<Placed>)
    requires 0 <= m <= |p|
    ensures side == High(p, m, k)
  {
    side := Back(p, m);
    side := SortBy(side, k);
  }

  /** `for (j = 0; j < n; j++) push_back(all[j])`. */
  method Front(p: seq<Placed>, n: int) returns (side: seq<Placed>)
    requires 0 <= n <= |p|
    ensures side == p[..n]
  {
    side := [];
    for j := 0 to n
      invariant side == p[..j]
    {
      side := side + [p[j]];
    }
  }

  /** `for (j = size - 1; j > size - 1 - n; j--) push_back(all[j])`, with `m` = `size - n`. */
  method Back(p: seq<Placed>, m: int) returns (side: seq<Placed>)
    requires 0 <= m <= |p|
    ensures side == FromEnd(p, m)
  {
    side := [];
    var j := |p| - 1;
    while j > m - 1
      invariant m - 1 <= j <= |p| - 1
      invariant side == FromEnd(p, j + 1)
    {
      side := side + [p[j]];
      j := j - 1;
    }
  }

  /** A side's plates pushed from first to last. */
  method Forward(s: seq<Placed>) returns (r: seq<int>)
    ensures r == Quads(s)
  {
    r := [];
    for j := 0 to |s|
      invariant r == Quads(s[..j])
    {
      assert s[..j + 1][..j] == s[..j];
      r := r + [s[j].quad];
    }
    assert s[..|s|] == s;
  }

  /** A side's plates pushed from last to first. */
  method Backward(s: seq<Placed>) returns (r: seq<int>)
    ensures r == Quads(Reverse(s))
  {
    r := [];
    var j := |s| - 1;
    while j > -1
      invariant -1 <= j <= |s| - 1
      invariant r == Quads(Reverse(s[j + 1..]))
    {
      assert s[j..][1..] == s[j + 1..];
      assert Reverse(s[j..]) == Reverse(s[j + 1..]) + [s[j]];
      r := r + [s[j].quad];
      j := j - 1;
    }
  }
}
