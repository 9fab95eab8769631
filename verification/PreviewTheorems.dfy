/** Preview and commit agree: for an order whose lines are saved, the zero-write projected pass gives
    the same combined shortages and the same warnings as the sequential, persisted recalculation. */
module PreviewTheorems {
  import opened Sorting
  import opened Tallies
  import opened PlanningState
  import opened Recalculation
  import opened RecalculationFacts
  import opened RecalculationTheorems
  import opened RecalculationTwice
  import opened PlanningInvariant
  import opened PlanningSystem
  import opened Preview
  import Allocator = SurplusAllocation
  import Stability = SurplusStability
  import Surplus = SurplusTheorems

  // ---- the order lines are read in does not matter ----

  lemma {:induction false} SumsOfConcat(a: seq<Item>, b: seq<Item>, key: DemandKey)
    ensures GroupDemand(a + b, key) == GroupDemand(a, key) + GroupDemand(b, key)
    ensures GroupProduced(a + b, key) == GroupProduced(a, key) + GroupProduced(b, key)
    ensures GroupFixed(a + b, key) == GroupFixed(a, key) + GroupFixed(b, key)
  {
    if b == [] {
      assert a + b == a;
    } else {
      SumsOfConcat(a, b[..|b| - 1], key);
      assert (a + b)[..|a + b| - 1] == a + b[..|b| - 1];
    }
  }

  function Without(b: seq<Item>, j: nat): seq<Item>
    requires j < |b|
  {
    b[..j] + b[j + 1..]
  }

  /** Taking one item out takes its share out of every sum. */
  lemma TakeOut(b: seq<Item>, j: nat, key: DemandKey)
    requires j < |b|
    ensures GroupDemand(b, key) == GroupDemand(Without(b, j), key) + GroupDemand([b[j]], key)
    ensures GroupProduced(b, key) == GroupProduced(Without(b, j), key) + GroupProduced([b[j]], key)
    ensures GroupFixed(b, key) == GroupFixed(Without(b, j), key) + GroupFixed([b[j]], key)
  {
    hide GroupDemand, GroupProduced, GroupFixed;
    assert b == (b[..j] + [b[j]]) + b[j + 1..];
    SumsOfConcat(b[..j] + [b[j]], b[j + 1..], key);
    SumsOfConcat(b[..j], [b[j]], key);
    SumsOfConcat(b[..j], b[j + 1..], key);
  }

  lemma TakeOutOfPile(b: seq<Item>, j: nat)
    requires j < |b|
    ensures multiset(b) == multiset(Without(b, j)) + multiset{b[j]}
    ensures multiset(Demands(b)) == multiset(Demands(Without(b, j))) + multiset{DemandOf(b[j])}
  {
    hide DemandOf;
    assert b == b[..j] + [b[j]] + b[j + 1..];
    assert Demands(b) == Demands(b[..j]) + [DemandOf(b[j])] + Demands(b[j + 1..]);
    assert Demands(Without(b, j)) == Demands(b[..j]) + Demands(b[j + 1..]);
  }

  lemma {:induction false} PileSums(a: seq<Item>, b: seq<Item>, key: DemandKey)
    requires multiset(a) == multiset(b)
    ensures GroupDemand(a, key) == GroupDemand(b, key)
    ensures GroupProduced(a, key) == GroupProduced(b, key)
    ensures GroupFixed(a, key) == GroupFixed(b, key)
    ensures multiset(Demands(a)) == multiset(Demands(b))
  {
    if a == [] {
      assert |multiset(a)| == |multiset(b)|;
      assert b == [];
    } else {
      hide GroupDemand, GroupProduced, GroupFixed, Demands, DemandOf;
      var n := |a| - 1;
      assert a[n] in multiset(b);
      var j :| 0 <= j < |b| && b[j] == a[n];
      var one, other := Without(a, n), Without(b, j);
      TakeOutOfPile(a, n);
      TakeOutOfPile(b, j);
      hide Without;
      TakeOut(a, n, key);
      TakeOut(b, j, key);
      assert multiset(one) == multiset(a) - multiset{a[n]};
      assert multiset(other) == multiset(b) - multiset{a[n]};
      assert |multiset(one)| == |one| && |multiset(a)| == |a|;
      PileSums(one, other, key);
    }
  }

  lemma PileMembers(a: seq<Item>, b: seq<Item>)
    requires multiset(a) == multiset(b)
    ensures forall x :: x in a <==> x in b
  {
    forall x ensures x in a <==> x in b { assert x in a <==> x in multiset(a); assert x in b <==> x in multiset(b); }
  }

  lemma PileKeys(a: seq<Item>, b: seq<Item>)
    requires multiset(a) == multiset(b) && DistinctLines(a) && DistinctLines(b)
    ensures KeyMap(a) == KeyMap(b) && Keys(a) == Keys(b)
  {
    PileMembers(a, b);
    KeyMapIs(a);
    KeyMapIs(b);
    forall l | l in KeyMap(a) ensures l in KeyMap(b) && KeyMap(b)[l] == KeyMap(a)[l] {
      var i :| 0 <= i < |a| && a[i].lineId == l;
      assert a[i] in b;
      var j :| 0 <= j < |b| && b[j] == a[i];
    }
    forall l | l in KeyMap(b) ensures l in KeyMap(a) {
      var i :| 0 <= i < |b| && b[i].lineId == l;
      assert b[i] in a;
      var j :| 0 <= j < |a| && a[j] == b[i];
    }
    forall k | k in Keys(a) ensures k in Keys(b) {
      var i :| 0 <= i < |a| && a[i].key == k;
      assert a[i] in b;
      var j :| 0 <= j < |b| && b[j] == a[i];
    }
    forall k | k in Keys(b) ensures k in Keys(a) {
      var i :| 0 <= i < |b| && b[i].key == k;
      assert b[i] in a;
      var j :| 0 <= j < |a| && a[j] == b[i];
    }
  }

  lemma PileShares(a: seq<Item>, b: seq<Item>, lots: seq<Allocator.SurplusLot>, today: int)
    requires multiset(a) == multiset(b) && DistinctLines(a) && Allocator.DistinctLots(lots)
    ensures Allocated(a, lots, today) == Allocated(b, lots, today)
  {
    hide Allocator.Allocate, Stability.Open;
    PileSums(a, b, DemandKey(0, None, 0));
    DemandsDistinct(a);
    Stability.SpentItemsChangeNothing(lots, Demands(a), today);
    Stability.SpentItemsChangeNothing(lots, Demands(b), today);
    Surplus.AllocationIgnoresInputOrder(lots, lots, Demands(a), Demands(b), today);
  }

  lemma PileLinks(a: seq<Item>, b: seq<Item>, g: nat, g': nat, k: DemandKey, l: nat, q: nat)
    requires forall x :: x in a <==> x in b
    ensures Link(ReqId(k, g), l, q) in Links(a, g) <==> Link(ReqId(k, g'), l, q) in Links(b, g')
  {
    if Link(ReqId(k, g), l, q) in Links(a, g) {
      var i :| 0 <= i < |a| && Link(ReqId(a[i].key, g), a[i].lineId, a[i].quantity) == Link(ReqId(k, g), l, q);
      assert a[i] in b;
      var j :| 0 <= j < |b| && b[j] == a[i];
      assert Link(ReqId(b[j].key, g'), b[j].lineId, b[j].quantity) in Links(b, g');
    }
    if Link(ReqId(k, g'), l, q) in Links(b, g') {
      var i :| 0 <= i < |b| && Link(ReqId(b[i].key, g'), b[i].lineId, b[i].quantity) == Link(ReqId(k, g'), l, q);
      assert b[i] in a;
      var j :| 0 <= j < |a| && a[j] == b[i];
      assert Link(ReqId(a[j].key, g), a[j].lineId, a[j].quantity) in Links(a, g);
    }
  }

  lemma PileGroups(
      a: seq<Item>, b: seq<Item>, lots: seq<Allocator.SurplusLot>, revisions: map<nat, Revision>, today: int, g: nat,
      g': nat)
    requires multiset(a) == multiset(b) && DistinctLines(a) && DistinctLines(b) && Allocator.DistinctLots(lots)
    ensures SameGroups(Groups(a, Allocated(a, lots, today), revisions, g),
      Groups(b, Allocated(b, lots, today), revisions, g'), g, g')
  {
    hide Allocated, GroupDemand, GroupProduced, GroupFixed, GroupFresh, KeyMap, Keys, PlanFor;
    PileKeys(a, b);
    PileShares(a, b, lots, today);
    var shares := Allocated(a, lots, today);
    forall k | k in Keys(a)
      ensures Group(b, shares, revisions, k) == Group(a, shares, revisions, k)
    {
      PileSums(a, b, k);
    }
  }

  /** Two passes end alike: the same numbers under other ids, or the same failure. */
  ghost predicate SameOutcome(a: Projection, b: Projection, g: nat, g': nat) {
    if a.Projection? then b.Projection? && SameProjection(a, b, g, g') else b == a
  }

  lemma StorableAlike(
      reqs: map<ReqId, Requirement>, reqs': map<ReqId, Requirement>, revisions: map<nat, Revision>, g: nat, g': nat)
    requires SameGroups(reqs, reqs', g, g')
    ensures Storable(reqs, Claims(reqs, revisions)) <==> Storable(reqs', Claims(reqs', revisions))
  {
    hide Storable, Claims;
    assert SameGroups(reqs', reqs, g', g);
    if Storable(reqs, Claims(reqs, revisions)) { SameStorable(reqs, reqs', revisions, g, g'); }
    if Storable(reqs', Claims(reqs', revisions)) { SameStorable(reqs', reqs, revisions, g', g); }
  }

  /** Reading the same lines in another order ends in the same way, under other ids. */
  lemma ComputeForgetsOrder(
      a: seq<Item>, b: seq<Item>, taken: set<DemandKey>, lots: seq<Allocator.SurplusLot>, ready: seq<SurplusRow>,
      revisions: map<nat, Revision>, today: int, g: nat, g': nat)
    requires multiset(a) == multiset(b) && DistinctLines(a) && DistinctLines(b) && Allocator.DistinctLots(lots)
    ensures SameOutcome(
      Compute(a, taken, lots, ready, revisions, today, g), Compute(b, taken, lots, ready, revisions, today, g'), g, g')
  {
    hide Allocated, Groups, Storable, Claims, Links, FreshRows, Clones, KeyMap, Keys, Demands;
    PileMembers(a, b);
    PileKeys(a, b);
    PileGroups(a, b, lots, revisions, today, g, g');
    var reqs, reqs' := Groups(a, Allocated(a, lots, today), revisions, g),
      Groups(b, Allocated(b, lots, today), revisions, g');
    StorableAlike(reqs, reqs', revisions, g, g');
    if Compute(a, taken, lots, ready, revisions, today, g).Projection? {
      ProjectionParts(a, taken, lots, ready, revisions, today, g);
      assert Keys(b) * taken == {};
      ProjectionParts(b, taken, lots, ready, revisions, today, g');
      forall k, l, q: nat ensures Link(ReqId(k, g), l, q) in Links(a, g) <==> Link(ReqId(k, g'), l, q) in Links(b, g') {
        PileLinks(a, b, g, g', k, l, q);
      }
      forall k, i, q: nat
        ensures Claim(ReqId(k, g), i, q) in Claims(reqs, revisions) <==>
          Claim(ReqId(k, g'), i, q) in Claims(reqs', revisions)
      {
        SameClaimTerms(reqs, reqs', revisions, g, g', k, i, q);
      }
    }
  }

  // ---- the same lines on both sides ----

  lemma {:induction false} DistinctCounts(a: seq<Item>, x: Item)
    requires DistinctLines(a)
    ensures multiset(a)[x] == if x in a then 1 else 0
  {
    if a != [] {
      var n := |a| - 1;
      DistinctCounts(a[..n], x);
      assert a == a[..n] + [a[n]];
      assert a[n] !in a[..n];
    }
  }

  lemma SamePile(a: seq<Item>, b: seq<Item>)
    requires DistinctLines(a) && DistinctLines(b) && forall x :: x in a <==> x in b
    ensures multiset(a) == multiset(b)
  {
    forall x ensures multiset(a)[x] == multiset(b)[x] {
      DistinctCounts(a, x);
      DistinctCounts(b, x);
    }
  }

  /** Saving order `o` turns `w` into `w1`: only its header and its lines differ, it is Confirmed
      after and was not Ready before. */
  ghost predicate SavesTo(w: World, w1: World, o: nat) {
    && w1 == w.(orders := w1.orders, lines := w1.lines)
    && o in w.orders && o in w1.orders && w.orders[o].status != Ready && w1.orders[o].status == Confirmed
    && (forall q :: q != o ==> (q in w.orders <==> q in w1.orders))
    && (forall q :: q != o && q in w.orders && q in w1.orders ==> w1.orders[q] == w.orders[q])
    && (forall l :: l in w.lines && w.lines[l].orderId != o ==> l in w1.lines && w1.lines[l] == w.lines[l])
    && (forall l :: l in w1.lines && w1.lines[l].orderId != o ==> l in w.lines && w.lines[l] == w1.lines[l])
  }

  lemma SavedReady(c: Closure, w: World, w1: World, p: nat, o: nat)
    requires SavesTo(w, w1, o)
    ensures ReadyRows(c, w1, p, {}) == ReadyRows(c, w, p, {})
    ensures RunRows(c, w1) == RunRows(c, w) && TakenKeys(c, w1) == TakenKeys(c, w)
      && LockedLines(c, w1) == LockedLines(c, w)
    ensures forall fixed :: Lots(w1, p, fixed) == Lots(w, p, fixed)
  {
    hide Pick;
    assert Protected(w1) == Protected(w);
    forall l ensures ReadyLine(w1, l, p) <==> ReadyLine(w, l, p) {}
    assert ReadyRowSet(c, w1, p, {}) == ReadyRowSet(c, w, p, {});
    assert RunRowSet(c, w1) == RunRowSet(c, w);
    assert LotsOf(w1, p) == LotsOf(w, p);
    forall fixed ensures Lots(w1, p, fixed) == Lots(w, p, fixed) {
      AscendingIs(LotsOf(w, p));
      assert forall j :: 0 <= j < |Ascending(LotsOf(w, p))| ==>
        Ascending(LotsOf(w, p))[j] in LotsOf(w, p)
          && LotOf(w1, fixed, Ascending(LotsOf(w, p))[j]) == LotOf(w, fixed, Ascending(LotsOf(w, p))[j]);
    }
  }

  lemma SavedPin(c: Closure, w: World, w1: World, p: nat, g: nat, o: nat, l: nat)
    requires Skeleton(c, w, p, g) && SavesTo(w, w1, o)
    ensures Pin(c, w1, p, l) == Pin(c, w, p, l)
  {
    if HasLink(c, l) {
      var k :| k in c.links && k.lineId == l;
      forall m | m in c.links && m.lineId == l ensures m == k {}
    }
  }

  lemma {:induction false} HypItemsAre(c: Closure, w: World, p: nat, ready: seq<SurplusRow>, hyps: seq<Hypothetical>)
    requires forall i, k :: 0 <= i < k < |hyps| ==> hyps[i].lineId != hyps[k].lineId
    ensures DistinctLines(HypItems(c, w, p, ready, hyps))
    ensures forall x :: x in HypItems(c, w, p, ready, hyps) ==>
      exists i :: 0 <= i < |hyps| && hyps[i].productId == p && x == HypItem(c, w, ready, hyps[i])
    ensures forall i :: 0 <= i < |hyps| && hyps[i].productId == p ==>
      HypItem(c, w, ready, hyps[i]) in HypItems(c, w, p, ready, hyps)
  {
    if hyps != [] {
      hide HypItem, Pin;
      var n := |hyps| - 1;
      HypItemsAre(c, w, p, ready, hyps[..n]);
      var before := HypItems(c, w, p, ready, hyps[..n]);
      HypIds(c, w, ready, hyps);
      forall i | 0 <= i < |before| ensures before[i].lineId != hyps[n].lineId {
        assert before[i] in before;
        var k :| 0 <= k < n && hyps[..n][k].productId == p && before[i] == HypItem(c, w, ready, hyps[..n][k]);
        assert hyps[..n][k] == hyps[k];
      }
      forall i | 0 <= i < |hyps| && hyps[i].productId == p
        ensures HypItem(c, w, ready, hyps[i]) in HypItems(c, w, p, ready, hyps)
      {
        if i < n { assert hyps[..n][i] == hyps[i]; }
      }
      forall x | x in HypItems(c, w, p, ready, hyps)
        ensures exists i :: 0 <= i < |hyps| && hyps[i].productId == p && x == HypItem(c, w, ready, hyps[i])
      {
        if x in before {
          var k :| 0 <= k < n && hyps[..n][k].productId == p && x == HypItem(c, w, ready, hyps[..n][k]);
          assert hyps[..n][k] == hyps[k];
        }
      }
    }
  }

  lemma HypIds(c: Closure, w: World, ready: seq<SurplusRow>, hyps: seq<Hypothetical>)
    ensures forall i :: 0 <= i < |hyps| ==> HypItem(c, w, ready, hyps[i]).lineId == hyps[i].lineId
  {
  }

  lemma ProposedAre(s: State, w1: World, o: nat)
    requires o in w1.orders
    ensures
      var hyps := Proposed(s, w1, o);
      && (forall i, k :: 0 <= i < k < |hyps| ==> hyps[i].lineId != hyps[k].lineId)
      && (forall i :: 0 <= i < |hyps| ==>
        hyps[i].lineId in ProposedLines(s, w1, o) && hyps[i] == HypOf(w1, o, hyps[i].lineId))
      && (forall l :: l in ProposedLines(s, w1, o) ==> exists i :: 0 <= i < |hyps| && hyps[i] == HypOf(w1, o, l))
  {
    AscendingIs(ProposedLines(s, w1, o));
    var ids, hyps := Ascending(ProposedLines(s, w1, o)), Proposed(s, w1, o);
    forall l | l in ProposedLines(s, w1, o) ensures exists i :: 0 <= i < |hyps| && hyps[i] == HypOf(w1, o, l) {
      var i :| 0 <= i < |ids| && ids[i] == l;
      assert hyps[i] == HypOf(w1, o, l);
    }
  }

  lemma RealItemsAre(c: Closure, w: World, p: nat, ready: seq<SurplusRow>, o: nat)
    ensures
      var items := RealItems(c, w, p, ready, o);
      && DistinctLines(items)
      && (forall i :: 0 <= i < |items| ==>
            items[i].lineId in OtherLines(c, w, p, o) && items[i] == ItemOf(c, w, p, ready, items[i].lineId))
      && (forall l :: l in OtherLines(c, w, p, o) ==>
        exists i :: 0 <= i < |items| && items[i] == ItemOf(c, w, p, ready, l))
  {
    AscendingIs(OtherLines(c, w, p, o));
    var ids, items := Ascending(OtherLines(c, w, p, o)), RealItems(c, w, p, ready, o);
    forall l | l in OtherLines(c, w, p, o)
      ensures exists i :: 0 <= i < |items| && items[i] == ItemOf(c, w, p, ready, l)
    {
      var i :| 0 <= i < |ids| && ids[i] == l;
      assert items[i] == ItemOf(c, w, p, ready, l);
    }
  }

  /** One line, seen as saved demand after the save or as other or hypothetical demand before it. */
  lemma SavedItem(s: State, w1: World, p: nat, o: nat, ready: seq<SurplusRow>, l: nat)
    requires Skeleton(ClosureOf(s, p), s.world, p, s.generation) && SavesTo(s.world, w1, o)
    ensures l in DemandLines(ClosureOf(s, p), w1, p) <==>
      l in OtherLines(ClosureOf(s, p), s.world, p, o)
        || (l in ProposedLines(s, w1, o) && w1.lines[l].source == OfProduct(p))
    ensures l in OtherLines(ClosureOf(s, p), s.world, p, o) ==>
      l in DemandLines(ClosureOf(s, p), w1, p) && w1.lines[l].orderId != o
      && ItemOf(ClosureOf(s, p), w1, p, ready, l) == ItemOf(ClosureOf(s, p), s.world, p, ready, l)
    ensures l in ProposedLines(s, w1, o) && w1.lines[l].source == OfProduct(p) ==>
      l in DemandLines(ClosureOf(s, p), w1, p) && w1.lines[l].orderId == o
      && ItemOf(ClosureOf(s, p), w1, p, ready, l) == HypItem(ClosureOf(s, p), s.world, ready, HypOf(w1, o, l))
  {
    hide ProducedFor, OnLine, Skeleton, Pin;
    var c, w := ClosureOf(s, p), s.world;
    SavedReady(c, w, w1, p, o);
    SavedPin(c, w, w1, p, s.generation, o, l);
  }

  lemma SavedPile(s: State, w1: World, p: nat, o: nat, ready: seq<SurplusRow>)
    requires Skeleton(ClosureOf(s, p), s.world, p, s.generation) && SavesTo(s.world, w1, o)
    ensures
      var c, w := ClosureOf(s, p), s.world;
      var a := Items(c, w1, p, ready);
      var b := RealItems(c, w, p, ready, o) + HypItems(c, w, p, ready, Proposed(s, w1, o));
      DistinctLines(a) && DistinctLines(b) && multiset(a) == multiset(b)
  {
    hide Items, RealItems, HypItems, Proposed, ItemOf, Skeleton, DemandLines, OtherLines, ProposedLines, SavesTo,
      HypItem;
    var c, w := ClosureOf(s, p), s.world;
    SavesOrder(w, w1, o);
    var hyps := Proposed(s, w1, o);
    var a, others, hyp := Items(c, w1, p, ready), RealItems(c, w, p, ready, o), HypItems(c, w, p, ready, hyps);
    ItemsAre(c, w1, p, ready);
    RealItemsAre(c, w, p, ready, o);
    ProposedAre(s, w1, o);
    DemandIsLive(c, w, w1, p, o);
    HypItemsAre(c, w, p, ready, hyps);
    HypIds(c, w, ready, hyps);
    forall x | x in hyp
      ensures x.lineId in ProposedLines(s, w1, o) && x.lineId in w1.lines && w1.lines[x.lineId].source == OfProduct(p)
      && x.lineId in DemandLines(c, w1, p) && x == ItemOf(c, w1, p, ready, x.lineId) && w1.lines[x.lineId].orderId == o
    {
      var i :| 0 <= i < |hyps| && hyps[i].productId == p && x == HypItem(c, w, ready, hyps[i]);
      ProposedSource(s, w1, o, hyps[i].lineId);
      SavedItem(s, w1, p, o, ready, x.lineId);
    }
    forall x | x in others ensures x.lineId in DemandLines(c, w1, p) && x == ItemOf(c, w1, p, ready, x.lineId)
      && x.lineId in w1.lines && w1.lines[x.lineId].orderId != o
    {
      var i :| 0 <= i < |others| && others[i] == x;
      SavedItem(s, w1, p, o, ready, x.lineId);
    }
    forall i, k | 0 <= i < k < |others + hyp| ensures (others + hyp)[i].lineId != (others + hyp)[k].lineId {
      assert i < |others| <= k ==> others[i] in others && hyp[k - |others|] in hyp;
    }
    forall x | x in a ensures x in others + hyp {
      var i :| 0 <= i < |a| && a[i] == x;
      SavedItem(s, w1, p, o, ready, x.lineId);
      if x.lineId in OtherLines(c, w, p, o) {
        var j :| 0 <= j < |others| && others[j] == ItemOf(c, w, p, ready, x.lineId);
      } else {
        var j :| 0 <= j < |hyps| && hyps[j] == HypOf(w1, o, x.lineId);
        assert HypItem(c, w, ready, hyps[j]) in hyp;
      }
    }
    forall x | x in others + hyp ensures x in a {
      var i :| 0 <= i < |a| && a[i].lineId == x.lineId;
    }
    SamePile(a, others + hyp);
  }

  lemma ProposedSource(s: State, w1: World, o: nat, l: nat)
    requires l in ProposedLines(s, w1, o) && o in w1.orders
    ensures l in w1.lines && w1.lines[l].source == OfProduct(HypOf(w1, o, l).productId)
  {
  }

  lemma DemandIsLive(c: Closure, w: World, w1: World, p: nat, o: nat)
    ensures forall l :: l in DemandLines(c, w1, p) ==> LiveLine(w1, l, p) && l in w1.lines
    ensures forall l :: l in OtherLines(c, w, p, o) ==> LiveLine(w, l, p) && l in w.lines
  {
  }

  lemma SavesOrder(w: World, w1: World, o: nat)
    requires SavesTo(w, w1, o)
    ensures o in w1.orders
  {
  }

  /** For one produced product: the projected pass is the persisted one, under other ids; if one fails,
      so does the other, for the same reason. */
  lemma ProjectedIsPersisted(s: State, w1: World, p: nat, o: nat, today: int, g: nat)
    requires Skeleton(ClosureOf(s, p), s.world, p, s.generation) && SavesTo(s.world, w1, o)
    ensures
      var persisted, projected := ComputeFor(ClosureOf(s, p), w1, p, today, g, {}),
        Projected(s, p, o, Proposed(s, w1, o), today);
      SameOutcome(persisted, projected, g, s.generation)
  {
    hide Items, RealItems, HypItems, Proposed, Skeleton, SavesTo, Compute, Lots, ReadyRows, RunRows, TakenKeys,
      SameOutcome;
    var c, w := ClosureOf(s, p), s.world;
    var ready := ReadyRows(c, w, p, {});
    SavesOrder(w, w1, o);
    SavedReady(c, w, w1, p, o);
    SavedPile(s, w1, p, o, ready);
    LotsAre(w, p, RunRows(c, w) + ready);
    SavedRevisions(w, w1, o);
    ComputeForgetsOrder(Items(c, w1, p, ready),
      RealItems(c, w, p, ready, o) + HypItems(c, w, p, ready, Proposed(s, w1, o)),
      TakenKeys(c, w), Lots(w, p, RunRows(c, w) + ready), ready, w.revisions, today, g, s.generation);
  }

  lemma SavedRevisions(w: World, w1: World, o: nat)
    requires SavesTo(w, w1, o)
    ensures w1.revisions == w.revisions && w1.products == w.products
  {
  }
}
