/** Preview and commit agree over several products sharing ingredients: the zero-write projected pass
    gives the warnings that the sequential, persisted recalculation gives. */
module PreviewAgreement {
  import opened Sorting
  import opened Tallies
  import opened PlanningState
  import opened Recalculation
  import opened RecalculationTheorems
  import opened RecalculationTwice
  import opened PlanningInvariant
  import opened PlanningSystem
  import opened Lifecycle
  import opened LifecycleTheorems
  import opened Preview
  import opened PreviewTheorems
  import Allocator = SurplusAllocation

  // ---- reservations under other ids ----

  /** The same reservations, under requirement ids of another generation. */
  ghost predicate Renamed(a: set<Claim>, b: set<Claim>, g: nat, g': nat) {
    && (forall x :: x in a ==> x.req.generation == g)
    && (forall x :: x in b ==> x.req.generation == g')
    && (forall k, i, q: nat :: Claim(ReqId(k, g), i, q) in a <==> Claim(ReqId(k, g'), i, q) in b)
  }

  function Rename(x: Claim, g: nat): Claim { x.(req := ReqId(x.req.key, g)) }

  lemma RenamedTerm(a: set<Claim>, b: set<Claim>, g: nat, g': nat, x: Claim)
    requires Renamed(a, b, g, g')
    ensures x in a ==> Rename(x, g') in b
    ensures x in b ==> Rename(x, g) in a
  {
    if x in a { assert x == Claim(ReqId(x.req.key, g), x.ingredientId, x.quantity); }
    if x in b { assert x == Claim(ReqId(x.req.key, g'), x.ingredientId, x.quantity); }
  }

  lemma {:induction false} RenamedSum(a: set<Claim>, b: set<Claim>, g: nat, g': nat)
    requires Renamed(a, b, g, g')
    ensures SumBy(a, ClaimQuantity) == SumBy(b, ClaimQuantity)
    decreases a
  {
    if a == {} {
      forall x ensures x !in b { RenamedTerm(a, b, g, g', x); }
      assert b == {};
    } else {
      var x :| x in a;
      var y := Rename(x, g');
      RenamedTerm(a, b, g, g', x);
      forall k, i, q: nat ensures Claim(ReqId(k, g), i, q) == x <==> Claim(ReqId(k, g'), i, q) == y {}
      RenamedSum(a - {x}, b - {y}, g, g');
      SumRemove(a, ClaimQuantity, x);
      SumRemove(b, ClaimQuantity, y);
    }
  }

  // ---- one rebuilt product ----

  /** Ids of a computed projection: one generation, one product, reservations under its requirements. */
  lemma ComputedIds(
      items: seq<Item>, taken: set<DemandKey>, lots: seq<Allocator.SurplusLot>, ready: seq<SurplusRow>,
      revisions: map<nat, Revision>, today: int, g: nat)
    requires Compute(items, taken, lots, ready, revisions, today, g).Projection?
    ensures
      var r := Compute(items, taken, lots, ready, revisions, today, g);
      && (forall k :: k in r.claims ==> k.req in r.reqs)
      && (forall q :: q in r.reqs ==> q.generation == g && exists i :: 0 <= i < |items| && items[i].key == q.key)
  {
    hide Allocated, Group, Storable, Claims, Links, FreshRows, Clones, KeyMap;
    ProjectionParts(items, taken, lots, ready, revisions, today, g);
    var reqs := Groups(items, Allocated(items, lots, today), revisions, g);
    forall k | k in Claims(reqs, revisions) ensures k.req in reqs { ClaimGeneration(reqs, revisions, k); }
  }

  lemma RebuiltIds(c: Closure, w: World, p: nat, today: int, g: nat)
    requires ComputeFor(c, w, p, today, g, {}).Projection?
    ensures
      var r := ComputeFor(c, w, p, today, g, {});
      && (forall k :: k in r.claims ==> k.req in r.reqs)
      && (forall q :: q in r.reqs ==> q.generation == g && q.key.productId == p)
  {
    hide Compute, Items, Lots, ReadyRows, RunRows, TakenKeys;
    var ready := ReadyRows(c, w, p, {});
    ComputedIds(Items(c, w, p, ready), TakenKeys(c, w), Lots(w, p, RunRows(c, w) + ready), ready, w.revisions, today,
      g);
    ItemKeys(c, w, p, ready);
  }

  lemma ItemKeys(c: Closure, w: World, p: nat, ready: seq<SurplusRow>)
    ensures forall i :: 0 <= i < |Items(c, w, p, ready)| ==> Items(c, w, p, ready)[i].key.productId == p
  {
    hide Pin, OnLine, ProducedFor;
    ItemsAre(c, w, p, ready);
    DemandIsLive(c, w, w, p, 0);
  }

  /** What a rebuild does to a closure, seen from outside production and inside it. */
  lemma RebuiltParts(c: Closure, w: World, p: nat, today: int, g0: nat, g: nat)
    requires WorldOk(w) && Skeleton(c, w, p, g0) && g0 <= g && ComputeFor(c, w, p, today, g, {}).Projection?
    ensures
      var r := ComputeFor(c, w, p, today, g, {});
      var c' := Replace(c, w, r);
      && c'.reservations == c.reservations
      && (forall k :: k in c'.claims && k.req !in Protected(w) <==> k in r.claims)
      && (forall k :: k in c'.claims && k.req in Protected(w) <==> k in c.claims && k.req in Protected(w))
      && (forall q :: q in c'.reqs && q !in Protected(w) <==> q in r.reqs)
      && (forall q :: q in r.reqs ==> c'.reqs[q] == r.reqs[q])
  {
    var r := ComputeFor(c, w, p, today, g, {});
    KeptIsProtected(c, w, p, g0);
    RebuiltIds(c, w, p, today, g);
    forall q | q in r.reqs ensures q !in Protected(w) { NoFreshIdIsProtected(c, w, p, g0, q); }
    hide ComputeFor, Kept, Protected, Skeleton, WorldOk;
  }

  // ---- recalculating in sequence ----

  ghost predicate RebuiltBy(s1: State, s2: State, p: nat, today: int, g: nat) {
    var r := ComputeFor(ClosureOf(s1, p), s1.world, p, today, g, {});
    r.Projection? && ClosureOf(s2, p) == Replace(ClosureOf(s1, p), s1.world, r)
  }

  ghost predicate Recalculated(s1: State, s2: State, p: nat, today: int) {
    if p !in s1.world.products then ClosureOf(s2, p) == ClosureOf(s1, p)
    else if s1.world.products[p].Purchased? then ClosureOf(s2, p) == PurchasedClosure(s1.world, p)
    else exists g: nat :: s1.generation <= g && RebuiltBy(s1, s2, p, today, g)
  }

  lemma OneRecalculated(s1: State, p: nat, today: int)
    requires Recalculate(s1, p, today, {}).Done?
    ensures
      var s2 := Recalculate(s1, p, today, {}).state;
      && Recalculated(s1, s2, p, today) && SameButClosures(s1, s2)
      && (forall q :: q != p ==> ClosureOf(s2, q) == ClosureOf(s1, q))
  {
    hide ComputeFor, Replace, PurchasedClosure;
    var s2 := Recalculate(s1, p, today, {}).state;
    assert IsProduced(s1.world, p) ==> RebuiltBy(s1, s2, p, today, s1.generation);
  }

  lemma RecalculatedLater(s1: State, first: State, s2: State, p: nat, today: int)
    requires SameButClosures(s1, first) && ClosureOf(first, p) == ClosureOf(s1, p) && Recalculated(first, s2, p, today)
    ensures Recalculated(s1, s2, p, today)
  {
    hide ComputeFor, Replace, PurchasedClosure, ClosureOf;
    if IsProduced(s1.world, p) {
      var g: nat :| first.generation <= g && RebuiltBy(first, s2, p, today, g);
      assert RebuiltBy(s1, s2, p, today, g);
    }
  }

  lemma RecalculatedSame(s1: State, first: State, s2: State, p: nat, today: int)
    requires SameButClosures(s1, first) && ClosureOf(s2, p) == ClosureOf(first, p) && Recalculated(s1, first, p, today)
    ensures Recalculated(s1, s2, p, today)
  {
    hide ComputeFor, Replace, PurchasedClosure, ClosureOf;
    if IsProduced(s1.world, p) {
      var g: nat :| s1.generation <= g && RebuiltBy(s1, first, p, today, g);
      assert RebuiltBy(s1, s2, p, today, g);
    }
  }

  /** Each product's rebuild reads only its own closure, so the sequence rebuilds each from the start. */
  lemma {:induction false} AllRecalculated(s1: State, products: seq<nat>, today: int)
    requires RecalculateAll(s1, products, today).Done?
    requires forall i, k :: 0 <= i < k < |products| ==> products[i] != products[k]
    ensures
      var s2 := RecalculateAll(s1, products, today).state;
      && SameButClosures(s1, s2)
      && (forall p :: p in products ==> Recalculated(s1, s2, p, today))
      && (forall p :: p !in products ==> ClosureOf(s2, p) == ClosureOf(s1, p))
    decreases products
  {
    if products != [] {
      hide Recalculate, Recalculated, ClosureOf;
      var p, rest := products[0], products[1..];
      var first := Recalculate(s1, p, today, {}).state;
      OneRecalculated(s1, p, today);
      AllRecalculated(first, rest, today);
      var s2 := RecalculateAll(first, rest, today).state;
      forall i | 0 <= i < |rest| ensures rest[i] != p { assert rest[i] == products[i + 1]; }
      RecalculatedSame(s1, first, s2, p, today);
      forall q | q in rest ensures Recalculated(s1, s2, q, today) { RecalculatedLater(s1, first, s2, q, today); }
    }
  }

  // ---- one product, both ways ----

  /** Reservations of an ingredient under requirements of `p` outside production. */
  function NewOn(s: State, p: nat, i: nat): set<Claim> {
    set k | k in ClosureOf(s, p).claims && k.req !in Protected(s.world) && k.ingredientId == i
  }

  ghost predicate ProjectedUses(s: State, p: nat, o: nat, hyps: seq<Hypothetical>, today: int, i: nat) {
    && IsProduced(s.world, p) && Projected(s, p, o, hyps, today).Projection?
    && exists k :: k in Projected(s, p, o, hyps, today).claims && k.ingredientId == i
  }

  /** Persisted state `s2` shows for product `p` what the projected pass from `s` shows. */
  ghost predicate AgreesOn(s: State, s2: State, p: nat, o: nat, hyps: seq<Hypothetical>, today: int) {
    && (forall k :: k in ClosureOf(s2, p).claims && k.req !in Protected(s2.world) ==> k.req.key.productId == p)
    && (forall k :: k in ClosureOf(s2, p).claims && k.req in Protected(s2.world) <==>
      k in ClosureOf(s, p).claims && k.req in Protected(s.world))
    && (forall i: nat :: SumBy(NewOn(s2, p, i), ClaimQuantity) == Candidate(s, p, o, hyps, today, i))
    && (forall i: nat :: NewOn(s2, p, i) != {} <==> ProjectedUses(s, p, o, hyps, today, i))
    && (LacksRecipe(s2, p) <==> ProjectedLacksRecipe(s, p, o, hyps, today))
    && PurchasedShortage(s2, p) == ProjectedPurchasedShortage(s, p, o, hyps)
  }

  lemma ClaimsRenamed(r1: Projection, r2: Projection, g: nat, g': nat, i: nat)
    requires r1.Projection? && r2.Projection? && SameProjection(r1, r2, g, g')
    requires (forall k :: k in r1.claims ==> k.req in r1.reqs) && (forall k :: k in r2.claims ==> k.req in r2.reqs)
    ensures SumBy(ClaimsFor(r1.claims, i), ClaimQuantity) == SumBy(ClaimsFor(r2.claims, i), ClaimQuantity)
    ensures ClaimsFor(r1.claims, i) == {} <==> ClaimsFor(r2.claims, i) == {}
  {
    var a, b := ClaimsFor(r1.claims, i), ClaimsFor(r2.claims, i);
    assert Renamed(a, b, g, g');
    RenamedSum(a, b, g, g');
    forall x | x in a ensures b != {} { RenamedTerm(a, b, g, g', x); }
    forall x | x in b ensures a != {} { RenamedTerm(a, b, g, g', x); }
  }

  lemma RecipesRenamed(r1: Projection, r2: Projection, g: nat, g': nat)
    requires r1.Projection? && r2.Projection? && SameProjection(r1, r2, g, g')
    ensures (exists q :: q in r1.reqs && r1.reqs[q].plan.None?) <==> (exists q :: q in r2.reqs && r2.reqs[q].plan.None?)
  {
    forall q | q in r1.reqs && r1.reqs[q].plan.None? ensures exists x :: x in r2.reqs && r2.reqs[x].plan.None? {
      assert q == ReqId(q.key, g);
      assert ReqId(q.key, g') in r2.reqs && r2.reqs[ReqId(q.key, g')].plan.None?;
    }
    forall q | q in r2.reqs && r2.reqs[q].plan.None? ensures exists x :: x in r1.reqs && r1.reqs[x].plan.None? {
      assert q == ReqId(q.key, g');
      assert ReqId(q.key, g) in r1.reqs && r1.reqs[ReqId(q.key, g)].plan.None?;
    }
  }

  lemma ProjectedIds(s: State, p: nat, o: nat, hyps: seq<Hypothetical>, today: int)
    requires Projected(s, p, o, hyps, today).Projection?
    ensures var r := Projected(s, p, o, hyps, today); forall k :: k in r.claims ==> k.req in r.reqs
  {
    hide Compute, RealItems, HypItems, Lots, ReadyRows, RunRows, TakenKeys;
    var c, w := ClosureOf(s, p), s.world;
    var ready := ReadyRows(c, w, p, {});
    ComputedIds(RealItems(c, w, p, ready, o) + HypItems(c, w, p, ready, hyps), TakenKeys(c, w),
      Lots(w, p, RunRows(c, w) + ready),
      ready, w.revisions, today, s.generation);
  }

  /** `s1` is `s` with order `o` saved; `s2` has `p` rebuilt from `s1`. */
  lemma ProducedAgrees(s: State, s1: State, s2: State, p: nat, o: nat, today: int)
    requires SameBut(s, s1) && SavesTo(s.world, s1.world, o) && SameButClosures(s1, s2)
      && Recalculated(s1, s2, p, today)
    requires WorldOk(s1.world) && Skeleton(ClosureOf(s, p), s.world, p, s.generation) && SkeletonAfter(s1, p)
    requires IsProduced(s.world, p) && ClosureOf(s, p).reservations == {} && (p in s.stock ==> s.stock[p] >= 0)
    ensures AgreesOn(s, s2, p, o, Proposed(s, s1.world, o), today)
  {
    hide WorldOk, Skeleton, SavesTo, SameProjection, ComputeFor, Replace, Projected, Proposed, Protected;
    SavesOrder(s.world, s1.world, o);
    var w1, hyps := s1.world, Proposed(s, s1.world, o);
    SavedRevisions(s.world, w1, o);
    SavedProtection(s.world, w1, o);
    var g: nat :| s1.generation <= g && RebuiltBy(s1, s2, p, today, g);
    var c := ClosureOf(s, p);
    assert ClosureOf(s1, p) == c;
    var r1 := ComputeFor(c, w1, p, today, g, {});
    ProjectedIsPersisted(s, w1, p, o, today, g);
    var r2 := Projected(s, p, o, hyps, today);
    RebuiltParts(c, w1, p, today, s1.generation, g);
    RebuiltIds(c, w1, p, today, g);
    ProjectedIds(s, p, o, hyps, today);
    RecipesRenamed(r1, r2, g, s.generation);
    forall i: nat
      ensures SumBy(NewOn(s2, p, i), ClaimQuantity) == Candidate(s, p, o, hyps, today, i)
      ensures NewOn(s2, p, i) != {} <==> ProjectedUses(s, p, o, hyps, today, i)
    {
      assert NewOn(s2, p, i) == ClaimsFor(r1.claims, i);
      ClaimsRenamed(r1, r2, g, s.generation, i);
      UsesSome(r2.claims, i);
    }
    NothingReserved(s2, p);
    assert LacksRecipe(s2, p) <==> exists q :: q in r1.reqs && r1.reqs[q].plan.None?;
  }

  lemma UsesSome(claims: set<Claim>, i: nat)
    ensures ClaimsFor(claims, i) != {} <==> exists k :: k in claims && k.ingredientId == i
  {
    if k :| k in claims && k.ingredientId == i { assert k in ClaimsFor(claims, i); }
    if ClaimsFor(claims, i) != {} { var k :| k in ClaimsFor(claims, i); }
  }

  lemma NothingReserved(s: State, p: nat)
    requires ClosureOf(s, p).reservations == {} && (p in s.stock ==> s.stock[p] >= 0)
    ensures PurchasedShortage(s, p) == 0
  {
  }

  /** Everything but the world is the same. */
  predicate SameBut(s: State, s1: State) {
    s1.closures == s.closures && s1.stock == s.stock && s1.ingredients == s.ingredients && s1.generation == s.generation
  }

  ghost predicate SkeletonAfter(s1: State, p: nat) { Skeleton(ClosureOf(s1, p), s1.world, p, s1.generation) }

  lemma SavedProtection(w: World, w1: World, o: nat)
    requires SavesTo(w, w1, o)
    ensures Protected(w1) == Protected(w)
  {
  }

  // ---- purchased products ----

  function OrderReservations(w: World, p: nat, o: nat): set<Reservation> {
    set l | l in LinesOfOrder(w, o) && w.lines[l].source == OfProduct(p) :: Reservation(l, w.lines[l].quantity)
  }

  function HypReservations(p: nat, hyps: seq<Hypothetical>): set<Reservation> {
    set i | 0 <= i < |hyps| && hyps[i].productId == p :: Reservation(hyps[i].lineId, hyps[i].quantity)
  }

  lemma {:induction false} HypSum(p: nat, hyps: seq<Hypothetical>)
    requires forall i, k :: 0 <= i < k < |hyps| ==> hyps[i].lineId != hyps[k].lineId
    ensures SumBy(HypReservations(p, hyps), ReservedQuantity) == HypQuantity(p, hyps)
  {
    if hyps != [] {
      var n := |hyps| - 1;
      var before, x := HypReservations(p, hyps[..n]), Reservation(hyps[n].lineId, hyps[n].quantity);
      HypSum(p, hyps[..n]);
      assert forall i :: 0 <= i < n ==> hyps[..n][i] == hyps[i];
      forall y | y in HypReservations(p, hyps) ensures y in before || (hyps[n].productId == p && y == x) {
        var i :| 0 <= i < |hyps| && hyps[i].productId == p && y == Reservation(hyps[i].lineId, hyps[i].quantity);
        assert i < n ==> hyps[..n][i] == hyps[i];
      }
      forall y | y in before ensures y in HypReservations(p, hyps) && y != x {
        var i :| 0 <= i < n && hyps[..n][i].productId == p
          && y == Reservation(hyps[..n][i].lineId, hyps[..n][i].quantity);
        assert hyps[i] == hyps[..n][i];
      }
      if hyps[n].productId == p {
        assert hyps[n].productId == p && x == Reservation(hyps[n].lineId, hyps[n].quantity);
        assert HypReservations(p, hyps) == before + {x};
        SumAdd(before, ReservedQuantity, x);
      } else {
        assert HypReservations(p, hyps) == before;
      }
    }
  }

  lemma HypsAreOrder(s: State, w1: World, p: nat, o: nat)
    requires o in w1.orders && ClosureOf(s, p).links == {}
    ensures HypReservations(p, Proposed(s, w1, o)) == OrderReservations(w1, p, o)
  {
    hide Proposed;
    var hyps := Proposed(s, w1, o);
    ProposedAre(s, w1, o);
    assert LockedLines(ClosureOf(s, p), s.world) == {};
    forall x | x in HypReservations(p, hyps) ensures x in OrderReservations(w1, p, o) {
      var i :| 0 <= i < |hyps| && hyps[i].productId == p && x == Reservation(hyps[i].lineId, hyps[i].quantity);
      assert hyps[i] == HypOf(w1, o, hyps[i].lineId);
      assert w1.lines[hyps[i].lineId].source == OfProduct(p);
    }
    forall x | x in OrderReservations(w1, p, o) ensures x in HypReservations(p, hyps) {
      assert x.lineId in ProposedLines(s, w1, o);
      var i :| 0 <= i < |hyps| && hyps[i] == HypOf(w1, o, x.lineId);
      assert x == Reservation(hyps[i].lineId, hyps[i].quantity);
    }
  }

  lemma SavedReservations(w: World, w1: World, p: nat, o: nat)
    requires SavesTo(w, w1, o)
    ensures Reservations(w1, p) == OtherReservations(w, p, o) + OrderReservations(w1, p, o)
    ensures OtherReservations(w, p, o) !! OrderReservations(w1, p, o)
  {
    forall x | x in Reservations(w1, p) ensures x in OtherReservations(w, p, o) + OrderReservations(w1, p, o) {
      if w1.lines[x.lineId].orderId != o {
        assert LiveLine(w, x.lineId, p);
      } else {
        assert x.lineId in LinesOfOrder(w1, o);
      }
    }
    forall x | x in OtherReservations(w, p, o) ensures x in Reservations(w1, p) && x !in OrderReservations(w1, p, o) {
      assert LiveLine(w1, x.lineId, p);
    }
    forall x | x in OrderReservations(w1, p, o) ensures x in Reservations(w1, p) { assert LiveLine(w1, x.lineId, p); }
  }

  lemma PurchasedAgrees(s: State, s1: State, s2: State, p: nat, o: nat, today: int)
    requires SameBut(s, s1) && SavesTo(s.world, s1.world, o) && SameButClosures(s1, s2)
      && Recalculated(s1, s2, p, today)
    requires p in s.world.products && s.world.products[p].Purchased? && ClosureOf(s, p) == PurchasedClosure(s.world, p)
    ensures AgreesOn(s, s2, p, o, Proposed(s, s1.world, o), today)
  {
    hide SavesTo, Proposed, Reservations, OtherReservations, Protected;
    SavesOrder(s.world, s1.world, o);
    var w1, hyps := s1.world, Proposed(s, s1.world, o);
    SavedRevisions(s.world, w1, o);
    SavedReservations(s.world, w1, p, o);
    HypsAreOrder(s, w1, p, o);
    ProposedAre(s, w1, o);
    HypSum(p, hyps);
    SumUnion(OtherReservations(s.world, p, o), OrderReservations(w1, p, o), ReservedQuantity);
    forall i: nat ensures NewOn(s2, p, i) == {} {}
    assert ClosureOf(s2, p).reservations == Reservations(w1, p);
  }

  // ---- all products together ----

  function NewOnAll(s: State, ps: seq<nat>, i: nat): set<Claim> {
    set p, k | p in ps && k in NewOn(s, p, i) :: k
  }

  lemma {:induction false} NewSum(
      s: State, s2: State, ps: seq<nat>, o: nat, hyps: seq<Hypothetical>, today: int, i: nat)
    requires forall n, m :: 0 <= n < m < |ps| ==> ps[n] != ps[m]
    requires forall p :: p in ps ==> AgreesOn(s, s2, p, o, hyps, today)
    ensures SumBy(NewOnAll(s2, ps, i), ClaimQuantity) == CandidateTotal(s, ps, o, hyps, today, i)
  {
    if ps == [] {
      assert NewOnAll(s2, ps, i) == {};
    } else {
      hide Candidate, ProjectedUses, LacksRecipe, ProjectedLacksRecipe, PurchasedShortage, ProjectedPurchasedShortage;
      var n := |ps| - 1;
      assert ps == ps[..n] + [ps[n]];
      NewSum(s, s2, ps[..n], o, hyps, today, i);
      var before, last := NewOnAll(s2, ps[..n], i), NewOn(s2, ps[n], i);
      forall k | k in before ensures k !in last {
        var p :| p in ps[..n] && k in NewOn(s2, p, i);
        assert AgreesOn(s, s2, p, o, hyps, today) && AgreesOn(s, s2, ps[n], o, hyps, today);
      }
      assert NewOnAll(s2, ps, i) == before + last;
      SumUnion(before, last, ClaimQuantity);
      assert AgreesOn(s, s2, ps[n], o, hyps, today);
    }
  }

  /** Reservations `s2` holds on an ingredient: those the pass leaves alone, and the new ones. */
  lemma ClaimsSplit(
      s: State, s2: State, products: set<nat>, ps: seq<nat>, o: nat, hyps: seq<Hypothetical>, today: int, i: nat)
    requires forall p :: p in ps <==> p in products
    requires forall p :: p in products ==> AgreesOn(s, s2, p, o, hyps, today)
    requires forall p :: p !in products ==> ClosureOf(s2, p) == ClosureOf(s, p)
    requires Protected(s2.world) == Protected(s.world)
    requires forall p, r :: r in ClosureOf(s, p).reqs ==> r.key.productId == p
    requires forall p, k :: k in ClosureOf(s, p).claims ==> k.req in ClosureOf(s, p).reqs
    ensures
      var external := set k | k in ClaimsOn(s, i) && k.req !in Superseded(s, products);
      ClaimsOn(s2, i) == external + NewOnAll(s2, ps, i) && external !! NewOnAll(s2, ps, i)
  {
    hide Candidate, ProjectedUses, LacksRecipe, ProjectedLacksRecipe, PurchasedShortage, ProjectedPurchasedShortage,
      SumBy, Protected;
    var external := set k | k in ClaimsOn(s, i) && k.req !in Superseded(s, products);
    forall k
      ensures k in ClaimsOn(s, i) <==> exists p :: k in ClosureOf(s, p).claims && k.ingredientId == i
    {
      ClaimsAreIn(s, i, k);
    }
    forall k
      ensures k in ClaimsOn(s2, i) <==> exists p :: k in ClosureOf(s2, p).claims && k.ingredientId == i
    {
      ClaimsAreIn(s2, i, k);
    }
    forall k | k in ClaimsOn(s2, i) ensures k in external + NewOnAll(s2, ps, i) {
      var p :| k in ClosureOf(s2, p).claims;
      if p in products && k.req !in Protected(s2.world) {
        assert k in NewOn(s2, p, i);
      } else {
        assert p in products ==> AgreesOn(s, s2, p, o, hyps, today);
        assert k in ClosureOf(s, p).claims;
        NotSuperseded(s, products, p, k.req);
      }
    }
    forall k | k in external ensures k in ClaimsOn(s2, i) && k !in NewOnAll(s2, ps, i) {
      var p :| k in ClosureOf(s, p).claims && k.ingredientId == i;
      assert k.req in ClosureOf(s, p).reqs;
      if p in products {
        IsSuperseded(s, products, p, k.req);
        assert k.req in Protected(s.world);
        assert AgreesOn(s, s2, p, o, hyps, today);
      } else {
        assert k in ClosureOf(s2, p).claims;
        forall q | q in ps ensures k !in NewOn(s2, q, i) { assert AgreesOn(s, s2, q, o, hyps, today); }
      }
    }
    forall k | k in NewOnAll(s2, ps, i) ensures k in ClaimsOn(s2, i) {
      var p :| p in ps && k in NewOn(s2, p, i);
      assert k in ClosureOf(s2, p).claims;
    }
  }

  lemma ClaimsAreIn(s: State, i: nat, k: Claim)
    ensures k in ClaimsOn(s, i) <==> exists p :: k in ClosureOf(s, p).claims && k.ingredientId == i
  {
    if k in ClaimsOn(s, i) {
      var p :| p in s.closures && k in s.closures[p].claims;
      assert k in ClosureOf(s, p).claims;
    }
    if p :| k in ClosureOf(s, p).claims && k.ingredientId == i {
      assert p in s.closures;
    }
  }

  lemma NotSuperseded(s: State, products: set<nat>, p: nat, r: ReqId)
    requires forall q, x :: x in ClosureOf(s, q).reqs ==> x.key.productId == q
    requires r in ClosureOf(s, p).reqs && (p !in products || r in Protected(s.world))
    ensures r !in Superseded(s, products)
  {
  }

  lemma IsSuperseded(s: State, products: set<nat>, p: nat, r: ReqId)
    requires p in products && r in ClosureOf(s, p).reqs && r !in Superseded(s, products)
    ensures r in Protected(s.world)
  {
    assert r !in Protected(s.world) ==> r in Rebuildable(ClosureOf(s, p), s.world);
  }

  /** The combined shortage of every ingredient is the one that commit finds. */
  lemma ShortagesAgree(s: State, s2: State, products: set<nat>, o: nat, hyps: seq<Hypothetical>, today: int, i: nat)
    requires forall p :: p in products ==> AgreesOn(s, s2, p, o, hyps, today)
    requires forall p :: p !in products ==> ClosureOf(s2, p) == ClosureOf(s, p)
    requires Protected(s2.world) == Protected(s.world) && s2.ingredients == s.ingredients
    requires forall p, r :: r in ClosureOf(s, p).reqs ==> r.key.productId == p
    requires forall p, k :: k in ClosureOf(s, p).claims ==> k.req in ClosureOf(s, p).reqs
    ensures IngredientShortage(s2, i) == ProjectedShortage(s, products, o, hyps, today, i)
  {
    hide AgreesOn, ClaimsOn, Superseded, NewOnAll, CandidateTotal, SumBy, Protected;
    AscendingIs(products);
    var ps := Ascending(products);
    ClaimsSplit(s, s2, products, ps, o, hyps, today, i);
    NewSum(s, s2, ps, o, hyps, today, i);
    SumUnion((set k | k in ClaimsOn(s, i) && k.req !in Superseded(s, products)), NewOnAll(s2, ps, i), ClaimQuantity);
  }

  lemma IngredientsAgree(s: State, s2: State, products: set<nat>, o: nat, hyps: seq<Hypothetical>, today: int)
    requires forall p :: p in products ==> AgreesOn(s, s2, p, o, hyps, today)
    ensures CandidateIngredients(s2, products) == ProjectedIngredients(s, products, o, hyps, today)
  {
    hide Candidate, LacksRecipe, ProjectedLacksRecipe, PurchasedShortage, ProjectedPurchasedShortage, SumBy, Protected,
      Projected;
    forall i: nat
      ensures i in CandidateIngredients(s2, products) <==> exists p :: p in products && NewOn(s2, p, i) != {}
    {
      if i in CandidateIngredients(s2, products) {
        var p, k :| p in products && k in ClosureOf(s2, p).claims && k.req !in Protected(s2.world)
          && k.ingredientId == i;
        assert k in NewOn(s2, p, i);
      }
      if p :| p in products && NewOn(s2, p, i) != {} {
        var k :| k in NewOn(s2, p, i);
        assert k in ClosureOf(s2, p).claims;
      }
    }
    forall i: nat
      ensures i in ProjectedIngredients(s, products, o, hyps, today) <==>
        exists p :: p in products && NewOn(s2, p, i) != {}
    {
      if i in ProjectedIngredients(s, products, o, hyps, today) {
        var p, k :| p in products && IsProduced(s.world, p) && Projected(s, p, o, hyps, today).Projection?
                    && k in Projected(s, p, o, hyps, today).claims && k.ingredientId == i;
        assert AgreesOn(s, s2, p, o, hyps, today) && ProjectedUses(s, p, o, hyps, today, i);
      }
      if p :| p in products && NewOn(s2, p, i) != {} {
        assert AgreesOn(s, s2, p, o, hyps, today);
        var k :| k in Projected(s, p, o, hyps, today).claims && k.ingredientId == i;
      }
    }
  }

  lemma WarningsAgree(
      s: State, s2: State, products: set<nat>, o: nat, hyps: seq<Hypothetical>, missingTime: bool, today: int)
    requires forall p :: p in products ==> AgreesOn(s, s2, p, o, hyps, today)
    requires forall p :: p !in products ==> ClosureOf(s2, p) == ClosureOf(s, p)
    requires Protected(s2.world) == Protected(s.world) && s2.ingredients == s.ingredients
    requires forall p, r :: r in ClosureOf(s, p).reqs ==> r.key.productId == p
    requires forall p, k :: k in ClosureOf(s, p).claims ==> k.req in ClosureOf(s, p).reqs
    ensures Fingerprints(s2, products, missingTime) == PreviewFingerprints(s, products, o, hyps, missingTime, today)
  {
    IngredientsAgree(s, s2, products, o, hyps, today);
    forall i: nat ensures IngredientShortage(s2, i) == ProjectedShortage(s, products, o, hyps, today, i) {
      ShortagesAgree(s, s2, products, o, hyps, today, i);
    }
    ProductWarningsAgree(s, s2, products, o, hyps, today);
    hide AgreesOn, Candidate, ProjectedUses, SumBy, Protected, NewOn, LacksRecipe, ProjectedLacksRecipe,
      PurchasedShortage, ProjectedPurchasedShortage, IngredientShortage, ProjectedShortage, CandidateIngredients,
      ProjectedIngredients, ClosureOf;
  }

  lemma ProductWarningsAgree(s: State, s2: State, products: set<nat>, o: nat, hyps: seq<Hypothetical>, today: int)
    requires forall p :: p in products ==> AgreesOn(s, s2, p, o, hyps, today)
    ensures (set p | p in products && LacksRecipe(s2, p) :: MissingRecipe(p))
      == (set p | p in products && ProjectedLacksRecipe(s, p, o, hyps, today) :: MissingRecipe(p))
    ensures (set p | p in products && PurchasedShortage(s2, p) > 0 :: PurchasedShort(p, PurchasedShortage(s2, p)))
      == (set p | p in products && ProjectedPurchasedShortage(s, p, o, hyps) > 0
            :: PurchasedShort(p, ProjectedPurchasedShortage(s, p, o, hyps)))
  {
    hide Candidate, ProjectedUses, SumBy, Protected, NewOn, LacksRecipe, ProjectedLacksRecipe, PurchasedShortage,
      ProjectedPurchasedShortage, ClosureOf;
    forall p | p in products
      ensures LacksRecipe(s2, p) <==> ProjectedLacksRecipe(s, p, o, hyps, today)
      ensures PurchasedShortage(s2, p) == ProjectedPurchasedShortage(s, p, o, hyps)
    {
      assert AgreesOn(s, s2, p, o, hyps, today);
    }
  }

  // ---- the theorems ----

  lemma ReferencesInOrder(s: State)
    requires AllClean(s)
    ensures forall p, r :: r in ClosureOf(s, p).reqs ==> r.key.productId == p
    ensures forall p, k :: k in ClosureOf(s, p).claims ==> k.req in ClosureOf(s, p).reqs
  {
    hide WorldOk, RowOk, RunOk, ProperLink, LotCaps, LineCaps, Meets, ClaimsMeet;
    forall p ensures (forall r :: r in ClosureOf(s, p).reqs ==> r.key.productId == p)
      && (forall k :: k in ClosureOf(s, p).claims ==> k.req in ClosureOf(s, p).reqs)
    {
      assert ProductClean(s, p);
      forall r | r in ClosureOf(s, p).reqs ensures r.key.productId == p { assert ReqOk(r, s.world, p, s.generation); }
    }
  }

  lemma ProductAgrees(s: State, s1: State, s2: State, p: nat, o: nat, today: int)
    requires Inv(s) && SameBut(s, s1) && SavesTo(s.world, s1.world, o) && SameButClosures(s1, s2)
      && Recalculated(s1, s2, p, today)
    requires WorldOk(s1.world) && p in s.world.products && ProductBase(s1, p, {})
    ensures AgreesOn(s, s2, p, o, Proposed(s, s1.world, o), today)
  {
    hide AgreesOn, Recalculated, Skeleton, SavesTo, WorldOk, Meets, ClaimsMeet, LotCaps, LineCaps, FixedLotCaps,
      FixedLineCaps, ProperLink, LedgerOk, Satisfied;
    SavedRevisions(s.world, s1.world, o);
    assert ProductClean(s, p);
    if IsProduced(s.world, p) {
      ProducedAgrees(s, s1, s2, p, o, today);
    } else {
      PurchasedAgrees(s, s1, s2, p, o, today);
    }
  }

  /** Saving order `o` and recalculating every affected product warns as the preview did. */
  lemma SavingAgrees(s: State, s1: State, products: set<nat>, locked: set<nat>, o: nat, missingTime: bool, today: int)
    requires Inv(s) && SameBut(s, s1) && SavesTo(s.world, s1.world, o) && Settleable(s1, products, locked)
    requires products <= s.world.products.Keys
    requires RecalculateAll(s1, Ascending(products), today).Done?
    ensures Fingerprints(RecalculateAll(s1, Ascending(products), today).state, products, missingTime)
      == PreviewFingerprints(s, products, o, Proposed(s, s1.world, o), missingTime, today)
  {
    hide Fingerprints, PreviewFingerprints, AgreesOn, Recalculated, SavesTo, WorldOk, RecalculateAll, Proposed,
      ProductBase, ProductClean, ReadySatisfied, LedgerOk, Candidates, Protected;
    SavesOrder(s.world, s1.world, o);
    AscendingIs(products);
    var s2 := RecalculateAll(s1, Ascending(products), today).state;
    AllRecalculated(s1, Ascending(products), today);
    SavedProtection(s.world, s1.world, o);
    forall p | p in products ensures AgreesOn(s, s2, p, o, Proposed(s, s1.world, o), today) {
      ProductAgrees(s, s1, s2, p, o, today);
    }
    ReferencesInOrder(s);
    WarningsAgree(s, s2, products, o, Proposed(s, s1.world, o), missingTime, today);
  }

  function ReasonOf(failed: Projection): Reason {
    match failed
    case DemandConflict => DemandDateConflict
    case MissingKey => KeyError
    case _ => ValueOverflow
  }

  /** What Preview reports when a projected pass fails: the first failure, product by product. */
  ghost function FirstFailure(
      s: State, products: seq<nat>, o: nat, hyps: seq<Hypothetical>, today: int): Option<Reason> {
    if products == [] then None
    else if IsProduced(s.world, products[0]) && !Projected(s, products[0], o, hyps, today).Projection?
    then Some(ReasonOf(Projected(s, products[0], o, hyps, today)))
    else FirstFailure(s, products[1..], o, hyps, today)
  }

  ghost function RefusalOf(a: Attempt): Option<Reason> { if a.Done? then None else Some(a.reason) }

  lemma OneFailsAsProjected(s: State, s1: State, now: State, p: nat, o: nat, today: int)
    requires SavesTo(s.world, s1.world, o) && SameButClosures(s1, now) && ClosureOf(now, p) == ClosureOf(s, p)
    requires IsProduced(s.world, p) ==> Skeleton(ClosureOf(s, p), s.world, p, s.generation)
    requires o in s1.world.orders
    ensures
      var projected := Projected(s, p, o, Proposed(s, s1.world, o), today);
      RefusalOf(Recalculate(now, p, today, {}))
      == if IsProduced(s.world, p) && !projected.Projection? then Some(ReasonOf(projected)) else None
  {
    hide Skeleton, SavesTo, SameProjection, ComputeFor, Replace, Projected, Proposed, PurchasedClosure;
    SavedRevisions(s.world, s1.world, o);
    if IsProduced(s.world, p) { ProjectedIsPersisted(s, s1.world, p, o, today, now.generation); }
  }

  /** The persisted sequence stops at the product where the projected one does, for the same reason, and
      goes through when it does. */
  lemma {:induction false} FailsAsProjected(s: State, s1: State, now: State, products: seq<nat>, o: nat, today: int)
    requires SavesTo(s.world, s1.world, o) && SameButClosures(s1, now) && o in s1.world.orders
    requires forall p :: p in products ==> ClosureOf(now, p) == ClosureOf(s, p)
    requires forall p :: p in products && IsProduced(s.world, p) ==> Skeleton(ClosureOf(s, p), s.world, p, s.generation)
    requires forall i, k :: 0 <= i < k < |products| ==> products[i] != products[k]
    ensures RefusalOf(RecalculateAll(now, products, today))
      == FirstFailure(s, products, o, Proposed(s, s1.world, o), today)
    decreases products
  {
    if products != [] {
      hide Recalculate, ClosureOf, Skeleton, SavesTo, Projected, Proposed, ReasonOf, IsProduced;
      var p, rest := products[0], products[1..];
      OneFailsAsProjected(s, s1, now, p, o, today);
      var first := Recalculate(now, p, today, {});
      if first.Done? {
        OneRecalculated(now, p, today);
        forall i | 0 <= i < |rest| ensures rest[i] != p { assert rest[i] == products[i + 1]; }
        FailsAsProjected(s, s1, first.state, rest, o, today);
      }
    }
  }

  lemma SavingFailsAsProjected(s: State, s1: State, products: set<nat>, o: nat, today: int)
    requires Inv(s) && SameBut(s, s1) && SavesTo(s.world, s1.world, o) && o in s1.world.orders
    ensures RefusalOf(RecalculateAll(s1, Ascending(products), today))
      == FirstFailure(s, Ascending(products), o, Proposed(s, s1.world, o), today)
  {
    hide SavesTo, WorldOk, RecalculateAll, Proposed, ReadySatisfied, LedgerOk, FirstFailure, Skeleton, Meets,
      ClaimsMeet, LotCaps, LineCaps;
    AscendingIs(products);
    forall p | IsProduced(s.world, p) ensures Skeleton(ClosureOf(s, p), s.world, p, s.generation) {
      assert ProductClean(s, p);
    }
    FailsAsProjected(s, s1, s1, Ascending(products), o, today);
  }

  lemma ProductsExist(w: World, o: nat)
    requires WorldOk(w)
    ensures ProductsOfOrder(w, o) <= w.products.Keys
  {
    forall l | l in LinesOfOrder(w, o) && w.lines[l].source.OfProduct?
      ensures w.lines[l].source.productId in w.products
    {
      assert LineOk(w, l);
    }
  }

  lemma ConfirmSaves(s: State, o: nat)
    requires o in s.world.orders && s.world.orders[o].status == Draft
    ensures SavesTo(s.world, WithStatus(s, o, Confirmed).world, o)
  {
  }

  /** Preview and Confirm agree: a Confirm fails as Preview of the saved Draft failed, and otherwise
      succeeds exactly when what Preview showed was acknowledged. */
  lemma PreviewAgreesWithConfirm(s: State, o: nat, locked: set<nat>, today: int, acknowledged: set<Fingerprint>)
    requires Inv(s) && o in s.world.orders && s.world.orders[o].status == Draft && s.world.orders[o].date.Some?
    requires LinesOfOrder(s.world, o) != {} && Candidates(s.world, ProductsOfOrder(s.world, o)) + {o} <= locked
    ensures
      var hyps := Proposed(s, WithStatus(s, o, Confirmed).world, o);
      var shown := PreviewFingerprints(s, ProductsOfOrder(s.world, o), o, hyps, s.world.orders[o].time.None?, today);
      var failed := FirstFailure(s, Ascending(ProductsOfOrder(s.world, o)), o, hyps, today);
      RefusalOf(Confirm(s, o, locked, today, acknowledged))
      == if failed.Some? then failed else if shown <= acknowledged then None else Some(Unacknowledged)
  {
    var s1, products := WithStatus(s, o, Confirmed), ProductsOfOrder(s.world, o);
    hide *;
    ConfirmReaches(s, o, locked, today, acknowledged);
    InvIsClean(s);
    StatusSettleable(s, o, Confirmed, locked);
    ProductsExist(s.world, o);
    ConfirmSaves(s, o);
    SavesOrder(s.world, s1.world, o);
    SavingFailsAsProjected(s, s1, products, o, today);
    RefusalMeans(RecalculateAll(s1, Ascending(products), today));
    if RecalculateAll(s1, Ascending(products), today).Done? {
      SavingAgrees(s, s1, products, locked, o, s.world.orders[o].time.None?, today);
    }
  }

  lemma ConfirmReaches(s: State, o: nat, locked: set<nat>, today: int, acknowledged: set<Fingerprint>)
    requires o in s.world.orders && s.world.orders[o].status == Draft && s.world.orders[o].date.Some?
    requires LinesOfOrder(s.world, o) != {} && Candidates(s.world, ProductsOfOrder(s.world, o)) + {o} <= locked
    ensures !Live(s.world, o) && SameBut(s, WithStatus(s, o, Confirmed))
    ensures
      var products := ProductsOfOrder(s.world, o);
      var r := RecalculateAll(WithStatus(s, o, Confirmed), Ascending(products), today);
      RefusalOf(Confirm(s, o, locked, today, acknowledged))
      == if r.Refused? then RefusalOf(r)
         else if Fingerprints(r.state, products, s.world.orders[o].time.None?) <= acknowledged then None
           else Some(Unacknowledged)
  {
    hide RecalculateAll, Fingerprints, EvaluateAll, Candidates, ProductsOfOrder, LinesOfOrder;
  }

  /** The edit passed its own checks: it went through, or recalculation or the warnings stopped it. */
  predicate CameToRecalculation(e: Attempt) {
    e.Done? || e.reason in {Unacknowledged, DemandDateConflict, KeyError, ValueOverflow}
  }

  /** Preview and a confirmed edit agree, when every submitted line is already saved. */
  lemma PreviewAgreesWithEdit(
      s: State, o: nat, p: Payload, touched: set<nat>, locked: set<nat>, today: int, acknowledged: set<Fingerprint>)
    requires Inv(s) && o in s.world.orders && CameToRecalculation(Edit(s, o, p, touched, locked, today, acknowledged))
    requires p.lines.Keys <= LinesOfOrder(s.world, o) && DemandAffecting(s.world, o, p, touched)
    ensures
      var products := ProductsOfOrder(s.world, o) + NewProducts(p);
      var hyps := Proposed(s, ReplaceLines(s.world, o, p), o);
      var shown := PreviewFingerprints(s, products, o, hyps, p.time.None?, today);
      var failed := FirstFailure(s, Ascending(products), o, hyps, today);
      RefusalOf(Edit(s, o, p, touched, locked, today, acknowledged))
      == if failed.Some? then failed else if shown <= acknowledged then None else Some(Unacknowledged)
  {
    var s1 := s.(world := ReplaceLines(s.world, o, p));
    var products := ProductsOfOrder(s.world, o) + NewProducts(p);
    hide *;
    EditDecides(s, o, p, touched, locked, today, acknowledged);
    EditSaves(s.world, o, p);
    SavesOrder(s.world, s1.world, o);
    EditSettleable(s, o, p, touched, locked);
    ProductsExist(s.world, o);
    EditedProductsExist(s.world, o, p);
    InvIsClean(s);
    SavingFailsAsProjected(s, s1, products, o, today);
    RefusalMeans(RecalculateAll(s1, Ascending(products), today));
    if RecalculateAll(s1, Ascending(products), today).Done? {
      SavingAgrees(s, s1, products, locked, o, p.time.None?, today);
    }
  }

  lemma RefusalMeans(a: Attempt)
    ensures RefusalOf(a).None? <==> a.Done?
  {
  }

  /** Once an edit has come as far as recalculation, only that and the warnings decide. */
  lemma EditDecides(
      s: State, o: nat, p: Payload, touched: set<nat>, locked: set<nat>, today: int, acknowledged: set<Fingerprint>)
    requires CameToRecalculation(Edit(s, o, p, touched, locked, today, acknowledged))
    requires o in s.world.orders && DemandAffecting(s.world, o, p, touched)
    requires Inv(s)
    ensures s.world.orders[o].status == Confirmed && p.date.Some?
    ensures ValidPayload(s.world, o, p) && !RemovesProduced(s.world, o, p) && !TouchesLocked(s, o, p, touched)
    ensures forall l :: LineChanged(s.world, p, l) ==> l in touched
    ensures
      var products := ProductsOfOrder(s.world, o) + NewProducts(p);
      var r := RecalculateAll(s.(world := ReplaceLines(s.world, o, p)), Ascending(products), today);
      && Candidates(s.world, products) + {o} <= locked
      && RefusalOf(Edit(s, o, p, touched, locked, today, acknowledged))
         == if r.Refused? then RefusalOf(r)
            else if Fingerprints(r.state, products, p.time.None?) <= acknowledged then None else Some(Unacknowledged)
  {
    hide Inv, RecalculateAll, Fingerprints, EvaluateAll, Candidates, ReplaceLines, ValidPayload, DemandAffecting,
      TouchesLocked, RemovesProduced;
  }

  lemma EditedProductsExist(w: World, o: nat, p: Payload)
    requires ValidPayload(w, o, p)
    ensures NewProducts(p) <= w.products.Keys
  {
    forall l | l in p.lines && p.lines[l].source.OfProduct? ensures p.lines[l].source.productId in w.products {
      assert ValidLine(w, o, l, p.lines[l]);
    }
  }

  lemma EditSaves(w: World, o: nat, p: Payload)
    requires o in w.orders && w.orders[o].status == Confirmed && ValidPayload(w, o, p)
    ensures SavesTo(w, ReplaceLines(w, o, p), o)
  {
    var w1 := ReplaceLines(w, o, p);
    forall l | l in w.lines && w.lines[l].orderId != o
      ensures l in w1.lines && w1.lines[l] == w.lines[l]
    {
      EditedLine(w, o, p, l);
    }
    forall l | l in w1.lines && w1.lines[l].orderId != o
      ensures l in w.lines && w.lines[l] == w1.lines[l]
    {
      EditedOrigin(w, o, p, l);
    }
  }
}
