/** From Start to Finish or run-Cancel, a run's source requirement keeps its key, its numbers, its
    linked lines and its surplus rows, whatever else commits in between. */
module ActiveRuns {
  import opened Sorting
  import opened Tallies
  import opened PlanningState
  import opened Recalculation
  import opened PlanningInvariant
  import opened RecalculationTheorems
  import opened PlanningSystem
  import opened Lifecycle
  import opened LifecycleTheorems
  import opened CompletionTheorems

  function RowsUnderSet(c: Closure, r: ReqId): set<SurplusRow> { set x | x in c.rows && x.req == r }

  function RowsUnder(c: Closure, r: ReqId): seq<SurplusRow> { Pick(c.rows, RowsUnderSet(c, r)) }

  /** The requirement is there in both closures, with the same content, links and rows. */
  ghost predicate SameBehind(c: Closure, c': Closure, r: ReqId) {
    && r in c.reqs && r in c'.reqs && c'.reqs[r] == c.reqs[r]
    && LinksOf(c', r) == LinksOf(c, r)
    && RowsUnder(c', r) == RowsUnder(c, r)
  }

  lemma UnderProtected(c: Closure, w: World, r: ReqId)
    requires r in Protected(w)
    ensures RowsUnder(c, r) == Pick(RunRows(c, w), RowsUnderSet(c, r))
  {
    PickPick(c.rows, RunRowSet(c, w), RowsUnderSet(c, r));
  }

  lemma RebuildKeepsBehind(c: Closure, w: World, p: nat, today: int, g: nat, impaired: set<nat>, r: ReqId)
    requires WorldOk(w) && Base(c, w, p, g, impaired) && r in c.reqs && r in Protected(w)
    requires ComputeFor(c, w, p, today, g, impaired).Projection?
    ensures SameBehind(c, Replace(c, w, ComputeFor(c, w, p, today, g, impaired)), r)
  {
    hide ComputeFor, Replace, Base, WorldOk, Pick, RunRows;
    var c' := Replace(c, w, ComputeFor(c, w, p, today, g, impaired));
    ProtectedPartStays(c, w, p, today, g, impaired);
    UnderProtected(c, w, r);
    UnderProtected(c', w, r);
    forall x | x in RunRows(c, w) ensures x in RowsUnderSet(c, r) <==> x in RowsUnderSet(c', r) {
      RunRowsAre(c, w, x);
      RunRowsAre(c', w, x);
    }
    PickAgrees(RunRows(c, w), RowsUnderSet(c, r), RowsUnderSet(c', r));
  }

  lemma RecalculateKeepsBehind(s: State, p: nat, today: int, impaired: set<nat>, q: nat, r: ReqId)
    requires WorldOk(s.world) && ProductBase(s, p, impaired) && Recalculate(s, p, today, impaired).Done?
    requires r in ClosureOf(s, q).reqs && r in Protected(s.world) && IsProduced(s.world, q)
    ensures SameBehind(ClosureOf(s, q), ClosureOf(Recalculate(s, p, today, impaired).state, q), r)
  {
    hide ComputeFor, Replace, Base, WorldOk, RowsUnder;
    if p == q { RebuildKeepsBehind(ClosureOf(s, p), s.world, p, today, s.generation, impaired, r); }
  }

  lemma {:induction false} RecalculateAllKeepsBehind(s: State, products: seq<nat>, today: int, q: nat, r: ReqId)
    requires WorldOk(s.world) && s.closures.Keys <= s.world.products.Keys && Increasing(products)
    requires forall p :: p in products ==> ProductBase(s, p, {})
    requires r in ClosureOf(s, q).reqs && r in Protected(s.world) && IsProduced(s.world, q)
    requires RecalculateAll(s, products, today).Done?
    ensures SameBehind(ClosureOf(s, q), ClosureOf(RecalculateAll(s, products, today).state, q), r)
    decreases products
  {
    if products != [] {
      hide Recalculate, ProductBase, ProductClean, WorldOk, RowsUnder, LinksOf;
      var p, rest := products[0], products[1..];
      FirstRecalculated(s, p, today);
      var first := Recalculate(s, p, today, {}).state;
      RecalculateKeepsBehind(s, p, today, {}, q, r);
      forall x | x in rest ensures ProductBase(first, x, {}) {
        var i :| 0 <= i < |rest| && rest[i] == x;
        assert products[0] < products[i + 1];
        OthersStayClean(s, first, x);
      }
      RecalculateAllKeepsBehind(first, rest, today, q, r);
    }
  }

  predicate Active(s: State, run: nat) {
    run in s.world.runs && s.world.runs[run].status == InProduction
  }

  /** The run is untouched and so is everything behind it. */
  ghost predicate RunKept(s: State, s': State, run: nat)
    requires Active(s, run)
  {
    var r := s.world.runs[run].source;
    && run in s'.world.runs && s'.world.runs[run] == s.world.runs[run]
    && SameBehind(ClosureOf(s, r.key.productId), ClosureOf(s', r.key.productId), r)
  }

  lemma ActiveHasSource(s: State, run: nat)
    requires AllClean(s) && Active(s, run)
    ensures
      var r := s.world.runs[run].source;
      && r.key.productId == s.world.runs[run].productId && IsProduced(s.world, r.key.productId)
      && r in ClosureOf(s, r.key.productId).reqs && r in Protected(s.world)
      && r.key.revision == Some(s.world.runs[run].revision)
      && (forall other :: Active(s, other) && s.world.runs[other].source == r ==> other == run)
  {
    var p := s.world.runs[run].productId;
    assert IsProduced(s.world, p) && ProductClean(s, p);
    assert ActiveRun(s.world, run, p) && RunOk(run, ClosureOf(s, p), s.world, p);
    forall other | Active(s, other) && s.world.runs[other].source == s.world.runs[run].source ensures other == run {
      assert ActiveRun(s.world, other, p);
    }
  }

  /** Settling a change that left the run alone leaves it alone. */
  lemma SettledRunKept(s: State, s1: State, products: set<nat>, locked: set<nat>, today: int, run: nat)
    requires AllClean(s) && Settleable(s1, products, locked) && Active(s, run) && RunKept(s, s1, run)
    requires s1.world.products == s.world.products
    requires RecalculateAll(s1, Ascending(products), today).Done?
    ensures RunKept(s, EvaluateAll(RecalculateAll(s1, Ascending(products), today).state, locked), run)
  {
    hide ProductBase, ProductClean, WorldOk, RecalculateAll, StockOk, Satisfied, ProductsOfOrder, RowsUnder, LinksOf,
      AllClean;
    var r := s.world.runs[run].source;
    ActiveHasSource(s, run);
    AscendingIs(products);
    SettledProducts(s1, products, today);
    RecalculateAllKeepsBehind(s1, Ascending(products), today, r.key.productId, r);
  }

  /** A change of the world around the same closures that keeps the run's row. */
  lemma SameClosuresRunKept(s: State, s1: State, run: nat)
    requires AllClean(s) && Active(s, run) && s1.closures == s.closures
    requires run in s1.world.runs && s1.world.runs[run] == s.world.runs[run]
    ensures RunKept(s, s1, run)
  {
    ActiveHasSource(s, run);
    forall q ensures ClosureOf(s1, q) == ClosureOf(s, q) {}
  }

  lemma EvaluatedRunKept(s: State, s1: State, locked: set<nat>, run: nat)
    requires Active(s, run) && RunKept(s, s1, run)
    ensures RunKept(s, EvaluateAll(s1, locked), run)
  {
    hide Satisfied, RowsUnder, LinksOf;
  }

  /** Taking a completed order's rows touches no row behind a run. */
  lemma CompletedRunKept(s: State, o: nat, run: nat)
    requires AllClean(s) && Active(s, run) && o in s.world.orders && !OrderLocked(s, o)
    ensures RunKept(s, JustCompleted(s, o), run)
  {
    hide JustCompleted, OnLot, OrderRows, Pick, Clean, WorldOk;
    var r := s.world.runs[run].source;
    var p := r.key.productId;
    var c, s1 := ClosureOf(s, p), JustCompleted(s, o);
    ActiveHasSource(s, run);
    FulfilledShape(s, o);
    FulfilledClosure(s, o, p);
    var rest := set x | x in c.rows && x.lineId !in LinesOfOrder(s.world, o);
    forall x | x in c.rows && x.req == r ensures x.lineId !in LinesOfOrder(s.world, o) {
      LockedRowSpared(s, o, p, r, x);
    }
    assert RowsUnderSet(c, r) <= rest;
    PickPick(c.rows, rest, RowsUnderSet(c, r));
    var c1 := ClosureOf(s1, p);
    forall x | x in c1.rows
      ensures x in RowsUnderSet(c1, r) <==> x in RowsUnderSet(c, r)
    {
      PickMembers(c.rows, rest, x);
    }
    PickAgrees(c1.rows, RowsUnderSet(c1, r), RowsUnderSet(c, r));
  }

  lemma LockedRowSpared(s: State, o: nat, p: nat, r: ReqId, x: SurplusRow)
    requires AllClean(s) && IsProduced(s.world, p) && r in Protected(s.world) && !OrderLocked(s, o)
    requires x in ClosureOf(s, p).rows && x.req == r
    ensures x.lineId !in LinesOfOrder(s.world, o)
  {
    hide LotCaps, LineCaps, Meets, ClaimsMeet, WorldOk;
    var c := ClosureOf(s, p);
    assert ProductClean(s, p) && RowOk(x, c, s.world, p);
    var k :| k in c.links && k.req == r && k.lineId == x.lineId;
    assert ProperLink(k, s.world, p) && x.lineId in LockedLines(c, s.world);
    assert x.lineId in LinesOfOrder(s.world, o) ==> LineLocked(s, x.lineId);
  }
}
