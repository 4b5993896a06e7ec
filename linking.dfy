/**
 * The linking pass at the end of `BASIC_MODEL::parseModel`: plates, then
 * RBE2 elements, then RBE3 elements register themselves with their nodes,
 * and only then does each CBUSH resolve its fastener ends, so that the
 * resolution reads RBE2 lists that every RBE2 of the model has filled.
 *
 * Each map of the model is passed as the sequence of its values in
 * ascending ID order, the order `std::map` iteration visits them.
 */
module Linking {
  import G = Grids
  import F = Frames
  import R2 = Rbe2
  import R3 = Rbe3
  import Cq = Cquads
  import Cb = Cbushes

  /** The RBE2 lists after one RBE2's `nodeConnect`. */
  function RegisterOne(lists: map<int, seq<int>>, r: R2.Rbe2): (m: map<int, seq<int>>)
    ensures m.Keys == lists.Keys
  {
    map k | k in lists :: if k == r.independent || k in r.dependents then G.AppendIfAbsent(lists[k], r.id) else lists[k]
  }

  /** The RBE2 lists after the RBE2 loop. */
  function Registered(lists: map<int, seq<int>>, rbe2s: seq<R2.Rbe2>): (m: map<int, seq<int>>)
    ensures m.Keys == lists.Keys
  {
    if rbe2s == [] then lists else RegisterOne(Registered(lists, rbe2s[..|rbe2s| - 1]), rbe2s[|rbe2s| - 1])
  }

  /** The RBE2 `i` of the loop touches node `k`. */
  predicate Touches(rbe2s: seq<R2.Rbe2>, i: int, k: int)
  {
    0 <= i < |rbe2s| && (k == rbe2s[i].independent || k in rbe2s[i].dependents)
  }

  /** The IDs of the RBE2s touching node `k`. */
  function Touching(rbe2s: seq<R2.Rbe2>, k: int): set<int>
  {
    if rbe2s == [] then {}
    else
      var n := |rbe2s| - 1;
      Touching(rbe2s[..n], k) + (if Touches(rbe2s, n, k) then {rbe2s[n].id} else {})
  }

  /** `Touching` collects exactly the IDs of the touching RBE2s. */
  lemma {:induction false} TouchingIds(rbe2s: seq<R2.Rbe2>, k: int, e: int)
    ensures e in Touching(rbe2s, k) <==> exists i :: Touches(rbe2s, i, k) && rbe2s[i].id == e
    decreases |rbe2s|
  {
    if rbe2s != [] {
      var n := |rbe2s| - 1;
      var front := rbe2s[..n];
      TouchingIds(front, k, e);
      if e in Touching(front, k) {
        var i :| Touches(front, i, k) && front[i].id == e;
        assert Touches(rbe2s, i, k) && rbe2s[i].id == e;
      }
      if exists i :: Touches(rbe2s, i, k) && rbe2s[i].id == e {
        var i :| Touches(rbe2s, i, k) && rbe2s[i].id == e;
        if i < n {
          assert Touches(front, i, k) && front[i].id == e;
        }
      }
    }
  }

  /**
   * After the loop a node's RBE2 list holds exactly what it held before plus
   * the ID of every RBE2 touching the node, and stays duplicate-free.
   */
  lemma {:induction false} RegisteredLists(lists: map<int, seq<int>>, rbe2s: seq<R2.Rbe2>, k: int)
    requires k in lists
    ensures var l := Registered(lists, rbe2s)[k];
      (forall e :: e in l <==> e in lists[k] || e in Touching(rbe2s, k))
      && (G.Distinct(lists[k]) ==> G.Distinct(l))
    decreases |rbe2s|
  {
    if rbe2s != [] {
      var n := |rbe2s| - 1;
      var front := rbe2s[..n];
      RegisteredLists(lists, front, k);
      var before := Registered(lists, front)[k];
      G.AppendIfAbsentProperties(before, rbe2s[n].id);
      assert Registered(lists, rbe2s)[k] == if Touches(rbe2s, n, k) then G.AppendIfAbsent(before, rbe2s[n].id) else before;
    }
  }

  /**
   * A node that starts with no RBE2 and is touched by exactly one RBE2 of the
   * loop, a single-dependent one, resolves to that RBE2's other end.
   */
  lemma ResolutionSeesRegisteredRbe2(lists: map<int, seq<int>>, rbe2s: seq<R2.Rbe2>, rbe2Map: map<int, R2.Rbe2>, k: int, j: nat)
    requires k in lists && lists[k] == []
    requires Touches(rbe2s, j, k) && |rbe2s[j].dependents| == 1
    requires forall i :: Touches(rbe2s, i, k) ==> rbe2s[i].id == rbe2s[j].id
    requires rbe2s[j].id in rbe2Map && rbe2Map[rbe2s[j].id] == rbe2s[j]
    ensures var e := rbe2s[j];
      Cb.Resolve(k, Registered(lists, rbe2s), rbe2Map) == if k == e.independent then e.dependents[0] else e.independent
  {
    var e := rbe2s[j];
    var full := Registered(lists, rbe2s);
    RegisteredLists(lists, rbe2s, k);
    forall x | x in full[k]
      ensures x == e.id
    {
      TouchingIds(rbe2s, k, x);
    }
    TouchingIds(rbe2s, k, e.id);
    OnlyEntry(full[k], e.id);
    Cb.ResolveSwaps(k, full, rbe2Map);
  }

  /** A duplicate-free list whose every entry is `x`, and which holds `x`, is `[x]`. */
  lemma OnlyEntry(l: seq<int>, x: int)
    requires G.Distinct(l) && x in l
    requires forall y :: y in l ==> y == x
    ensures l == [x]
  {
    var i :| 0 <= i < |l| && l[i] == x;
    forall j | 0 <= j < |l|
      ensures l[j] == x && j == i
    {
      assert l[j] in l;
    }
    assert l[0] == x && l[|l| - 1] == x;
  }

  /** The plate loop: `parseComposite` then `nodeConnect` for every CQUAD; no RBE2 list changes. */
  method LinkPlates(grids: map<int, G.Grid>, frames: map<int, F.Frame>, fuel: nat,
                    pcomps: set<int>, shellMid1: map<int, int>, isotropic: map<int, bool>, cquads: seq<Cq.Cquad>)
    requires G.Injective(grids) && G.AllValid(grids)
    requires forall i :: 0 <= i < |cquads| ==> cquads[i].Valid()
    modifies set k | k in grids :: grids[k], set q | q in cquads
    ensures G.AllValid(grids)
    ensures Cb.Rbe2Lists(grids) == old(Cb.Rbe2Lists(grids))
  {
    var i := 0;
    while i < |cquads|
      invariant 0 <= i <= |cquads| && G.AllValid(grids)
      invariant forall j :: 0 <= j < |cquads| ==> cquads[j].Valid()
      invariant Cb.Rbe2Lists(grids) == old(Cb.Rbe2Lists(grids))
    {
      LinkPlate(grids, frames, fuel, pcomps, shellMid1, isotropic, cquads[i]);
      i := i + 1;
    }
  }

  /** One plate of the loop. */
  method LinkPlate(grids: map<int, G.Grid>, frames: map<int, F.Frame>, fuel: nat,
                   pcomps: set<int>, shellMid1: map<int, int>, isotropic: map<int, bool>, q: Cq.Cquad)
    requires G.Injective(grids) && G.AllValid(grids) && q.Valid()
    modifies set k | k in grids :: grids[k], q
    ensures G.AllValid(grids) && q.Valid()
    ensures Cb.Rbe2Lists(grids) == old(Cb.Rbe2Lists(grids))
  {
    q.ParseComposite(pcomps, shellMid1, isotropic);
    q.NodeConnect(grids, frames, fuel);
    forall k | k in grids
      ensures grids[k].rbe2s == old(grids[k].rbe2s)
    {
      assert grids[k].rbe2s == G.List(grids[k], G.RBE2s);
    }
  }

  /** The RBE2 loop: each RBE2 registers with its nodes, in ID order. */
  method LinkRbe2s(grids: map<int, G.Grid>, rbe2s: seq<R2.Rbe2>)
    requires G.Injective(grids) && G.AllValid(grids)
    modifies set k | k in grids :: grids[k]
    ensures G.AllValid(grids)
    ensures Cb.Rbe2Lists(grids) == Registered(old(Cb.Rbe2Lists(grids)), rbe2s)
  {
    ghost var start := Cb.Rbe2Lists(grids);
    assert start.Keys == grids.Keys;
    var i := 0;
    while i < |rbe2s|
      invariant 0 <= i <= |rbe2s| && G.AllValid(grids)
      invariant start.Keys == grids.Keys
      invariant forall k :: k in grids ==> grids[k].rbe2s == Registered(start, rbe2s[..i])[k]
    {
      RegisterNext(grids, rbe2s, i, start);
      i := i + 1;
    }
    assert rbe2s[..i] == rbe2s;
    Rbe2ListsAre(grids, Registered(start, rbe2s));
  }

  /** One pass of the RBE2 loop, stated on the loop's prefix of RBE2s. */
  method RegisterNext(grids: map<int, G.Grid>, rbe2s: seq<R2.Rbe2>, i: nat, ghost start: map<int, seq<int>>)
    requires G.Injective(grids) && G.AllValid(grids) && i < |rbe2s| && grids.Keys <= start.Keys
    requires forall k :: k in grids ==> grids[k].rbe2s == Registered(start, rbe2s[..i])[k]
    modifies set k | k in grids :: grids[k]
    ensures G.AllValid(grids)
    ensures forall k :: k in grids ==> grids[k].rbe2s == Registered(start, rbe2s[..i + 1])[k]
  {
    RegisteredStep(start, rbe2s, i);
    RegisterRbe2(grids, rbe2s[i], Registered(start, rbe2s[..i]));
  }

  /** The RBE2 lists of the grids, when each grid's list is known. */
  lemma Rbe2ListsAre(grids: map<int, G.Grid>, lists: map<int, seq<int>>)
    requires grids.Keys == lists.Keys && forall k :: k in grids ==> grids[k].rbe2s == lists[k]
    ensures Cb.Rbe2Lists(grids) == lists
  {
    var now := Cb.Rbe2Lists(grids);
    assert now.Keys == lists.Keys;
    assert forall k :: k in now ==> now[k] == lists[k];
  }

  /** One more RBE2 of the loop. */
  lemma RegisteredStep(lists: map<int, seq<int>>, rbe2s: seq<R2.Rbe2>, i: nat)
    requires i < |rbe2s|
    ensures Registered(lists, rbe2s[..i + 1]) == RegisterOne(Registered(lists, rbe2s[..i]), rbe2s[i])
  {
    assert rbe2s[..i + 1][..i] == rbe2s[..i];
  }

  /** One pass of the RBE2 loop: the RBE2 joins the lists of the nodes it touches. */
  method RegisterRbe2(grids: map<int, G.Grid>, r: R2.Rbe2, ghost lists: map<int, seq<int>>)
    requires G.Injective(grids) && G.AllValid(grids) && grids.Keys <= lists.Keys
    requires forall k :: k in grids ==> grids[k].rbe2s == lists[k]
    modifies set k | k in grids :: grids[k]
    ensures G.AllValid(grids)
    ensures forall k :: k in grids ==> grids[k].rbe2s == RegisterOne(lists, r)[k]
  {
    R2.NodeConnect(r, grids);
  }

  /** The RBE3 loop: RBE3 lists grow, RBE2 lists do not change. */
  method LinkRbe3s(grids: map<int, G.Grid>, rbe3s: seq<R3.Rbe3>)
    requires G.Injective(grids) && G.AllValid(grids)
    modifies set k | k in grids :: grids[k]
    ensures G.AllValid(grids)
    ensures Cb.Rbe2Lists(grids) == old(Cb.Rbe2Lists(grids))
  {
    var i := 0;
    while i < |rbe3s|
      invariant 0 <= i <= |rbe3s| && G.AllValid(grids)
      invariant Cb.Rbe2Lists(grids) == old(Cb.Rbe2Lists(grids))
    {
      ghost var lists := Cb.Rbe2Lists(grids);
      R3.NodeConnect(rbe3s[i], grids);
      assert forall k :: k in grids ==> grids[k].rbe2s == G.List(grids[k], G.RBE2s);
      assert Cb.Rbe2Lists(grids) == lists;
      i := i + 1;
    }
  }

  /** The CBUSH loop: every fastener resolves both ends against the RBE2 lists as the loop found them. */
  method LinkFasteners(grids: map<int, G.Grid>, rbe2Map: map<int, R2.Rbe2>, cbushes: seq<Cb.Cbush>)
    requires G.Injective(grids) && G.AllValid(grids)
    requires forall i :: 0 <= i < |cbushes| ==> cbushes[i].Valid()
    requires forall i, j :: 0 <= i < j < |cbushes| ==> cbushes[i] != cbushes[j]
    modifies set k | k in grids :: grids[k], set b | b in cbushes
    ensures G.AllValid(grids)
    ensures forall i :: 0 <= i < |cbushes| ==> cbushes[i].card == old(cbushes[i].card)
    ensures forall i :: 0 <= i < |cbushes| ==>
      cbushes[i].fastener == [Cb.Resolve(cbushes[i].card.ga, old(Cb.Rbe2Lists(grids)), rbe2Map),
                              Cb.Resolve(cbushes[i].card.gb, old(Cb.Rbe2Lists(grids)), rbe2Map)]
  {
    ghost var lists := Cb.Rbe2Lists(grids);
    var i := 0;
    while i < |cbushes|
      invariant 0 <= i <= |cbushes| && G.AllValid(grids)
      invariant forall k :: k in grids ==> grids[k].rbe2s == lists[k]
      invariant forall j :: 0 <= j < |cbushes| ==> cbushes[j].Valid() && cbushes[j].card == old(cbushes[j].card)
      invariant forall j :: 0 <= j < i ==>
        cbushes[j].fastener == [Cb.Resolve(cbushes[j].card.ga, lists, rbe2Map), Cb.Resolve(cbushes[j].card.gb, lists, rbe2Map)]
    {
      assert Cb.Rbe2Lists(grids) == lists;
      cbushes[i].NodeConnect(grids, rbe2Map);
      i := i + 1;
    }
  }

  /**
   * The whole pass in the source's order. Every CBUSH end is resolved
   * against the RBE2 lists with every RBE2 of the model registered.
   */
  method Link(grids: map<int, G.Grid>, frames: map<int, F.Frame>, fuel: nat,
              pcomps: set<int>, shellMid1: map<int, int>, isotropic: map<int, bool>, cquads: seq<Cq.Cquad>,
              rbe2s: seq<R2.Rbe2>, rbe3s: seq<R3.Rbe3>, rbe2Map: map<int, R2.Rbe2>, cbushes: seq<Cb.Cbush>)
    requires G.Injective(grids) && G.AllValid(grids)
    requires forall i :: 0 <= i < |cquads| ==> cquads[i].Valid()
    requires forall i :: 0 <= i < |cbushes| ==> cbushes[i].Valid()
    requires forall i, j :: 0 <= i < j < |cbushes| ==> cbushes[i] != cbushes[j]
    modifies set k | k in grids :: grids[k], set q | q in cquads, set b | b in cbushes
    ensures G.AllValid(grids)
    ensures forall i :: 0 <= i < |cbushes| ==>
      var full := Registered(old(Cb.Rbe2Lists(grids)), rbe2s);
      cbushes[i].fastener == [Cb.Resolve(cbushes[i].card.ga, full, rbe2Map), Cb.Resolve(cbushes[i].card.gb, full, rbe2Map)]
  {
    ghost var start := Cb.Rbe2Lists(grids);
    LinkPlates(grids, frames, fuel, pcomps, shellMid1, isotropic, cquads);
    LinkRbe2s(grids, rbe2s);
    LinkRbe3s(grids, rbe3s);
    assert Cb.Rbe2Lists(grids) == Registered(start, rbe2s);
    LinkFasteners(grids, rbe2Map, cbushes);
  }
}
