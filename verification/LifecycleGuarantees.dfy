/** What transactions guarantee each other: releasing demand never conflicts with a run, releasing
    supply never demotes a Ready order, and a Ready order can be completed. */
module LifecycleGuarantees {
  import opened Tallies
  import opened PlanningState
  import opened Recalculation
  import opened PlanningInvariant
  import opened RecalculationTheorems
  import opened PlanningSystem
  import opened WorldChanges
  import opened Lifecycle
  import opened LifecycleTheorems
  import opened SupplyTheorems
  import opened CompletionTheorems

  // ---- no conflict ----

  /** Every line the next rebuild of `p` takes up is already properly linked. */
  ghost predicate NoNewDemand(s: State, p: nat) {
    forall l :: l in DemandLines(ClosureOf(s, p), s.world, p) ==>
      exists k :: k in ClosureOf(s, p).links && k.lineId == l && ProperLink(k, s.world, p)
  }

  lemma NoConflictOne(s: State, p: nat, today: int)
    requires WorldOk(s.world) && ProductBase(s, p, {}) && NoNewDemand(s, p)
    ensures Recalculate(s, p, today, {}) != Refused(DemandDateConflict)
  {
    hide ComputeFor, Replace, WorldOk, Base;
    if p in s.world.products && s.world.products[p].Produced? {
      BaseHasSkeleton(ClosureOf(s, p), s.world, p, s.generation, {});
      LinkedDemandNeverConflicts(ClosureOf(s, p), s.world, p, today, s.generation, {});
    }
  }

  lemma SameDemandLines(s: State, s': State, q: nat)
    requires s'.world == s.world && ClosureOf(s', q) == ClosureOf(s, q) && NoNewDemand(s, q)
    ensures NoNewDemand(s', q)
  {
  }

  /** If every line live after the change was live before on the same terms, nothing is new. */
  lemma ReleasedHasNoNewDemand(s: State, s1: State, p: nat)
    requires AllClean(s) && p in s.world.products && s.world.products[p].Produced?
    requires ClosureOf(s1, p).links == ClosureOf(s, p).links
    requires forall l :: LiveLine(s1.world, l, p) ==> LiveLine(s.world, l, p) && SameTerms(s.world, s1.world, l)
    ensures NoNewDemand(s1, p)
  {
    hide Skeleton, LotCaps, LineCaps, Meets, ClaimsMeet, WorldOk;
    var c, c1 := ClosureOf(s, p), ClosureOf(s1, p);
    assert ProductClean(s, p);
    forall l | l in DemandLines(c1, s1.world, p)
      ensures exists k :: k in c1.links && k.lineId == l && ProperLink(k, s1.world, p)
    {
      assert HasLink(c, l);
      var k :| k in c.links && k.lineId == l;
      assert ProperLink(k, s.world, p) && ProperLink(k, s1.world, p);
    }
  }

  /** A transaction that only releases demand cannot be refused for a demand conflict. */
  lemma SettleNeverConflicts(s: State, s1: State, products: set<nat>, locked: set<nat>, today: int)
    requires AllClean(s) && Settleable(s1, products, locked) && s1.world.products == s.world.products
    requires forall p :: p in products ==> IsProduced(s.world, p) ==> NoNewDemand(s1, p)
    ensures Settle(s1, products, locked, today) != Refused(DemandDateConflict)
  {
    hide RecalculateAll, ProductBase, ProductClean, WorldOk, NoNewDemand, EvaluateAll, Satisfied, StockOk,
      ProductsOfOrder;
    AscendingIs(products);
    NoConflictAscending(s1, Ascending(products), today);
  }

  lemma {:induction false} NoConflictAscending(s: State, products: seq<nat>, today: int)
    requires WorldOk(s.world) && s.closures.Keys <= s.world.products.Keys
    requires forall p :: p in products ==> ProductBase(s, p, {})
    requires forall p :: p in products && IsProduced(s.world, p) ==> NoNewDemand(s, p)
    requires Increasing(products)
    ensures RecalculateAll(s, products, today) != Refused(DemandDateConflict)
    decreases products
  {
    if products != [] {
      hide Recalculate, ProductBase, ProductClean, WorldOk, NoNewDemand;
      var p, rest := products[0], products[1..];
      if IsProduced(s.world, p) { NoConflictOne(s, p, today); } else { OtherKindsNeverConflict(s, p, today); }
      FirstRecalculated(s, p, today);
      var first := Recalculate(s, p, today, {});
      if first.Done? {
        forall q | q in rest
          ensures ProductBase(first.state, q, {}) && (IsProduced(s.world, q) ==> NoNewDemand(first.state, q))
        {
          var i :| 0 <= i < |rest| && rest[i] == q;
          assert products[0] < products[i + 1];
          OthersStayClean(s, first.state, q);
          if IsProduced(s.world, q) { SameDemandLines(s, first.state, q); }
        }
        NoConflictAscending(first.state, rest, today);
      }
    }
  }

  lemma OtherKindsNeverConflict(s: State, p: nat, today: int)
    requires !IsProduced(s.world, p)
    ensures Recalculate(s, p, today, {}).Done?
  {
  }

  // ---- Ready orders keep what they have ----

  /** Through any recalculation a line of a Ready order keeps at least its surplus. */
  lemma {:induction false} ReadyThroughRecalculation(s: State, products: seq<nat>, today: int, p: nat, l: nat)
    requires WorldOk(s.world) && s.closures.Keys <= s.world.products.Keys && Increasing(products)
    requires forall q :: q in products ==> ProductBase(s, q, {})
    requires ReadyLine(s.world, l, p) && IsProduced(s.world, p) && RecalculateAll(s, products, today).Done?
    ensures OnLine(ClosureOf(RecalculateAll(s, products, today).state, p).rows, l) >= OnLine(ClosureOf(s, p).rows, l)
    decreases products
  {
    if products != [] {
      hide Recalculate, ProductBase, ProductClean, WorldOk, OnLine, ReadyLine, IsProduced, ClosureOf;
      var q, rest := products[0], products[1..];
      FirstRecalculated(s, q, today);
      RestStaysRebuildable(s, products, today);
      if q == p { ReadyThroughOne(s, p, today, l); }
      ReadyThroughRecalculation(Recalculate(s, q, today, {}).state, rest, today, p, l);
    }
  }

  lemma RestStaysRebuildable(s: State, products: seq<nat>, today: int)
    requires WorldOk(s.world) && s.closures.Keys <= s.world.products.Keys && Increasing(products) && products != []
    requires forall q :: q in products ==> ProductBase(s, q, {})
    requires Recalculate(s, products[0], today, {}).Done?
    ensures forall x :: x in products[1..] ==> ProductBase(Recalculate(s, products[0], today, {}).state, x, {})
  {
    hide Recalculate, ProductBase, ProductClean, WorldOk, ClosureOf;
    FirstRecalculated(s, products[0], today);
    var first := Recalculate(s, products[0], today, {}).state;
    forall x | x in products[1..] ensures ProductBase(first, x, {}) {
      var i :| 0 <= i < |products[1..]| && products[1..][i] == x;
      assert products[0] < products[i + 1];
      OthersStayClean(s, first, x);
    }
  }

  lemma ReadyThroughOne(s: State, p: nat, today: int, l: nat)
    requires WorldOk(s.world) && ProductBase(s, p, {}) && ReadyLine(s.world, l, p) && IsProduced(s.world, p)
    requires Recalculate(s, p, today, {}).Done?
    ensures OnLine(ClosureOf(Recalculate(s, p, today, {}).state, p).rows, l) >= OnLine(ClosureOf(s, p).rows, l)
  {
    hide ComputeFor, Replace, WorldOk, Base, OnLine;
    ReadyLinesKeepSurplus(ClosureOf(s, p), s.world, p, today, s.generation, l);
  }

  /** What a releasing change may do to a line of another order: nothing to the line, no less output,
      no less surplus, and no more purchased shortage once reservations are rebuilt. */
  ghost predicate NoWorse(s: State, s1: State, l: nat) {
    && l in s.world.lines && l in s1.world.lines && s1.world.lines[l] == s.world.lines[l]
    && s1.world.products == s.world.products
    && (s.world.lines[l].source.OfProduct? ==>
          var p := s.world.lines[l].source.productId;
          && ProducedFor(s1.world.outputs, l) >= ProducedFor(s.world.outputs, l)
          && OnLine(ClosureOf(s1, p).rows, l) >= OnLine(ClosureOf(s, p).rows, l)
          && (p in s.world.products && s.world.products[p].Purchased? ==>
                SumBy(Reservations(s1.world, p), ReservedQuantity) - StockOf(s1, p)
                <= SumBy(Reservations(s.world, p), ReservedQuantity) - StockOf(s, p)))
  }

  /** An order that was Ready, is still live, and is no worse off before recalculation, is satisfied
      after it. */
  lemma StillSatisfied(s: State, s1: State, products: set<nat>, locked: set<nat>, today: int, q: nat)
    requires Inv(s) && Settleable(s1, products, locked) && RecalculateAll(s1, Ascending(products), today).Done?
    requires q in s.world.orders && s.world.orders[q].status == Ready
    requires q in s1.world.orders && s1.world.orders[q].status == Ready
    requires LinesOfOrder(s1.world, q) == LinesOfOrder(s.world, q)
    requires forall l :: l in LinesOfOrder(s.world, q) ==> NoWorse(s, s1, l)
    ensures Satisfied(RecalculateAll(s1, Ascending(products), today).state, q)
  {
    hide RecalculateAll, ProductBase, WorldOk, Clean, StockOk, OnLine, ProducedFor, SumBy, ProductsOfOrder;
    var s2 := RecalculateAll(s1, Ascending(products), today).state;
    AscendingIs(products);
    SettledProducts(s1, products, today);
    assert Satisfied(s, q);
    forall l | l in LinesOfOrder(s1.world, q) ensures LineSatisfied(s2, l) {
      assert NoWorse(s, s1, l) && LineSatisfied(s, l);
      if s.world.lines[l].source.OfProduct? {
        var p := s.world.lines[l].source.productId;
        if IsProduced(s.world, p) {
          assert ReadyLine(s1.world, l, p);
          ReadyThroughRecalculation(s1, Ascending(products), today, p, l);
        } else {
          assert ProductClean(s, p) && ProductClean(s2, p);
        }
      }
    }
  }

  /** Such an order is still Ready when the transaction commits. */
  lemma StillReady(s: State, s1: State, products: set<nat>, locked: set<nat>, today: int, q: nat)
    requires Inv(s) && Settleable(s1, products, locked) && Settle(s1, products, locked, today).Done?
    requires q in s.world.orders && s.world.orders[q].status == Ready
    requires q in s1.world.orders && s1.world.orders[q].status == Ready
    requires LinesOfOrder(s1.world, q) == LinesOfOrder(s.world, q)
    requires forall l :: l in LinesOfOrder(s.world, q) ==> NoWorse(s, s1, l)
    ensures q in Settle(s1, products, locked, today).state.world.orders
    ensures Settle(s1, products, locked, today).state.world.orders[q].status == Ready
  {
    hide RecalculateAll, ProductBase, ProductClean, WorldOk, Clean, StockOk, Inv, NoWorse, Satisfied, ProductsOfOrder,
      LinesOfOrder;
    SettledProducts(s1, products, today);
    StillSatisfied(s, s1, products, locked, today, q);
  }

  // ---- cancel ----

  lemma CancelReleases(s: State, o: nat, p: nat)
    requires AllClean(s) && o in s.world.orders && IsProduced(s.world, p)
    ensures NoNewDemand(WithStatus(s, o, Canceled), p)
  {
    hide Clean, WorldOk;
    forall l | LiveLine(WithStatus(s, o, Canceled).world, l, p)
      ensures LiveLine(s.world, l, p) && SameTerms(s.world, WithStatus(s, o, Canceled).world, l) {}
    ReleasedHasNoNewDemand(s, WithStatus(s, o, Canceled), p);
  }

  lemma ReservationsShrink(w: World, w1: World, p: nat)
    requires w1.lines == w.lines && forall o :: Live(w1, o) ==> Live(w, o)
    ensures Reservations(w1, p) <= Reservations(w, p)
  {
    forall r | r in Reservations(w1, p) ensures r in Reservations(w, p) {
      var l :| l in w1.lines && LiveLine(w1, l, p) && r == Reservation(l, w1.lines[l].quantity);
      assert LiveLine(w, l, p);
    }
  }

  lemma CancelIsNoWorse(s: State, o: nat, l: nat)
    requires o in s.world.orders && l in s.world.lines
    ensures NoWorse(s, WithStatus(s, o, Canceled), l)
  {
    hide SumBy, OnLine, ProducedFor;
    var s1 := WithStatus(s, o, Canceled);
    if s.world.lines[l].source.OfProduct? {
      var p := s.world.lines[l].source.productId;
      forall q ensures Live(s1.world, q) ==> Live(s.world, q) {}
      ReservationsShrink(s.world, s1.world, p);
      PartWeighsLess(Reservations(s1.world, p), Reservations(s.world, p));
    }
  }

  /** Cancel: never refused for a demand conflict, and no other Ready order is demoted. */
  lemma CancelReleasesSafely(s: State, o: nat, locked: set<nat>, today: int, acknowledged: bool, q: nat)
    requires Inv(s)
    ensures Cancel(s, o, locked, today, acknowledged) != Refused(DemandDateConflict)
    ensures
      && Cancel(s, o, locked, today, acknowledged).Done? && q != o && q in s.world.orders
      && s.world.orders[q].status == Ready ==>
        var s' := Cancel(s, o, locked, today, acknowledged).state;
        q in s'.world.orders && s'.world.orders[q].status == Ready
  {
    hide Settleable, Settle, Candidates, ProductsOfOrder, OrderLocked, NoWorse, NoNewDemand, AllClean, ReadySatisfied,
      StockOk;
    if o in s.world.orders && Live(s.world, o) && !OrderLocked(s, o)
       && Candidates(s.world, ProductsOfOrder(s.world, o)) + {o} <= locked {
      var s1, products := WithStatus(s, o, Canceled), ProductsOfOrder(s.world, o);
      StatusSettleable(s, o, Canceled, locked);
      forall p | p in products && IsProduced(s.world, p) ensures NoNewDemand(s1, p) { CancelReleases(s, o, p); }
      SettleNeverConflicts(s, s1, products, locked, today);
      if Settle(s1, products, locked, today).Done? && q != o && q in s.world.orders
        && s.world.orders[q].status == Ready {
        forall l | l in LinesOfOrder(s.world, q) ensures NoWorse(s, s1, l) { CancelIsNoWorse(s, o, l); }
        assert LinesOfOrder(s1.world, q) == LinesOfOrder(s.world, q);
        StillReady(s, s1, products, locked, today, q);
      }
    }
  }

  // ---- ending a run ----

  lemma EndedReleases(s: State, run: nat, status: RunStatus, p: nat)
    requires AllClean(s) && run in s.world.runs && IsProduced(s.world, p)
    ensures NoNewDemand(RunEnded(s, run, status), p)
  {
    hide Clean;
    var s1 := RunEnded(s, run, status);
    forall l | LiveLine(s1.world, l, p) ensures LiveLine(s.world, l, p) && SameTerms(s.world, s1.world, l) {
      assert LineOk(s.world, l);
    }
    ReleasedHasNoNewDemand(s, s1, p);
  }

  lemma SameReservationsNoWorse(s: State, s1: State, l: nat)
    requires l in s.world.lines && s1.world.lines == s.world.lines && s1.world.orders == s.world.orders
    requires s1.world.products == s.world.products && s1.closures == s.closures && s1.stock == s.stock
    requires ProducedFor(s1.world.outputs, l) >= ProducedFor(s.world.outputs, l)
    ensures NoWorse(s, s1, l)
  {
    hide SumBy, OnLine, ProducedFor;
    if s.world.lines[l].source.OfProduct? {
      SameReservationsIfLive(s.world, s1.world, s.world.lines[l].source.productId);
    }
  }

  /** Canceling a run: never refused for a demand conflict, and no Ready order is demoted. */
  lemma CancelRunReleasesSafely(s: State, run: nat, locked: set<nat>, today: int, q: nat)
    requires Inv(s)
    ensures CancelRun(s, run, locked, today) != Refused(DemandDateConflict)
    ensures CancelRun(s, run, locked, today).Done? && q in s.world.orders && s.world.orders[q].status == Ready ==>
      var s' := CancelRun(s, run, locked, today).state;
      q in s'.world.orders && s'.world.orders[q].status == Ready
  {
    hide Settleable, Settle, Candidates, NoWorse, NoNewDemand, AllClean, ReadySatisfied, StockOk;
    if run in s.world.runs && s.world.runs[run].status == InProduction
       && Candidates(s.world, {s.world.runs[run].productId}) <= locked {
      var s1, products := RunEnded(s, run, Stopped), {s.world.runs[run].productId};
      CancelRunSettleable(s, run, locked);
      forall p | p in products && IsProduced(s.world, p)
        ensures NoNewDemand(s1, p)
      {
        EndedReleases(s, run, Stopped, p);
      }
      SettleNeverConflicts(s, s1, products, locked, today);
      if Settle(s1, products, locked, today).Done? && q in s.world.orders && s.world.orders[q].status == Ready {
        forall l | l in LinesOfOrder(s.world, q) ensures NoWorse(s, s1, l) { SameReservationsNoWorse(s, s1, l); }
        assert LinesOfOrder(s1.world, q) == LinesOfOrder(s.world, q);
        StillReady(s, s1, products, locked, today, q);
      }
    }
  }

  lemma FinishReleases(
      s: State, run: nat, output: nat, overrides: map<nat, nat>, locked: set<nat>, facts: LotFacts, p: nat)
    requires AllClean(s) && run in s.world.runs && facts.id !in s.world.lots && IsProduced(s.world, p)
    ensures NoNewDemand(JustProduced(s, run, output, overrides, locked, facts), p)
  {
    hide Clean, JustProduced, Outputs, SharesOf;
    var s1 := JustProduced(s, run, output, overrides, locked, facts);
    FinishedWorld(s, run, output, overrides, locked, facts);
    forall l | LiveLine(s1.world, l, p) ensures LiveLine(s.world, l, p) && SameTerms(s.world, s1.world, l) {
      assert LineOk(s.world, l);
    }
    ReleasedHasNoNewDemand(s, s1, p);
  }

  lemma FinishIsNoWorse(
      s: State, run: nat, output: nat, overrides: map<nat, nat>, locked: set<nat>, facts: LotFacts, l: nat)
    requires run in s.world.runs && facts.id !in s.world.lots && l in s.world.lines
    ensures NoWorse(s, JustProduced(s, run, output, overrides, locked, facts), l)
  {
    hide JustProduced, Outputs, SharesOf, NoWorse;
    FinishedWorld(s, run, output, overrides, locked, facts);
    ProducedAfterFinish(s, run, output, overrides, locked, facts, l);
    SameReservationsNoWorse(s, JustProduced(s, run, output, overrides, locked, facts), l);
  }

  /** Finishing a run: never refused for a demand conflict, and no Ready order is demoted. */
  lemma FinishReleasesSafely(
      s: State, run: nat, output: nat, overrides: map<nat, nat>, locked: set<nat>, today: int, facts: LotFacts, q: nat)
    requires Inv(s)
    ensures Finish(s, run, output, overrides, locked, today, facts) != Refused(DemandDateConflict)
    ensures
      && Finish(s, run, output, overrides, locked, today, facts).Done? && q in s.world.orders
      && s.world.orders[q].status == Ready ==>
        var s' := Finish(s, run, output, overrides, locked, today, facts).state;
        q in s'.world.orders && s'.world.orders[q].status == Ready
  {
    hide Settleable, Settle, Candidates, NoWorse, NoNewDemand, AllClean, ReadySatisfied, StockOk, JustProduced, Outputs,
      SharesOf;
    if run in s.world.runs && s.world.runs[run].status == InProduction && facts.id !in s.world.lots
       && Candidates(s.world, {s.world.runs[run].productId}) <= locked
       && s.world.runs[run].planned.Keys <= s.ingredients.Keys {
      var s1, products := JustProduced(s, run, output, overrides, locked, facts), {s.world.runs[run].productId};
      FinishSettleable(s, run, output, overrides, locked, facts);
      FinishedWorld(s, run, output, overrides, locked, facts);
      forall p | p in products && IsProduced(s.world, p) ensures NoNewDemand(s1, p) {
        FinishReleases(s, run, output, overrides, locked, facts, p);
      }
      SettleNeverConflicts(s, s1, products, locked, today);
      if Settle(s1, products, locked, today).Done? && q in s.world.orders && s.world.orders[q].status == Ready {
        forall l | l in LinesOfOrder(s.world, q) ensures NoWorse(s, s1, l) {
          FinishIsNoWorse(s, run, output, overrides, locked, facts, l);
        }
        assert LinesOfOrder(s1.world, q) == LinesOfOrder(s.world, q);
        StillReady(s, s1, products, locked, today, q);
      }
    }
  }

  // ---- complete ----

  lemma CompleteReleases(s: State, o: nat, p: nat)
    requires AllClean(s) && o in s.world.orders && IsProduced(s.world, p)
    ensures NoNewDemand(JustCompleted(s, o), p)
  {
    hide Clean, JustCompleted, OnLot, OrderRows;
    var s1 := JustCompleted(s, o);
    FulfilledShape(s, o);
    FulfilledClosure(s, o, p);
    forall l | LiveLine(s1.world, l, p) ensures LiveLine(s.world, l, p) && SameTerms(s.world, s1.world, l) {
      assert LineOk(s.world, l);
    }
    ReleasedHasNoNewDemand(s, s1, p);
  }

  lemma ReservationsWithout(s: State, o: nat, p: nat)
    requires o in s.world.orders && s.world.orders[o].status == Ready && p in s.world.products
      && s.world.products[p].Purchased?
    ensures
      var w1 := JustCompleted(s, o).world;
      && Reservations(s.world, p) == Reservations(w1, p) + PurchasedNeeds(s.world, o, p)
      && Reservations(w1, p) !! PurchasedNeeds(s.world, o, p)
  {
    hide JustCompleted, OnLot, OrderRows;
    FulfilledShape(s, o);
    var w, w1 := s.world, JustCompleted(s, o).world;
    forall r | r in Reservations(w, p) ensures r in Reservations(w1, p) + PurchasedNeeds(w, o, p) {
      var l :| l in w.lines && LiveLine(w, l, p) && r == Reservation(l, w.lines[l].quantity);
      if w.lines[l].orderId == o {
        assert l in LinesOfOrder(w, o) && PurchasedLine(w, l);
      } else {
        assert LiveLine(w1, l, p);
      }
    }
    forall r | r in Reservations(w1, p) ensures r in Reservations(w, p) && r !in PurchasedNeeds(w, o, p) {
      var l :| l in w1.lines && LiveLine(w1, l, p) && r == Reservation(l, w1.lines[l].quantity);
      assert LiveLine(w, l, p) && l !in LinesOfOrder(w, o);
    }
    forall r | r in PurchasedNeeds(w, o, p) ensures r in Reservations(w, p) {
      var l :| l in LinesOfOrder(w, o) && PurchasedLine(w, l) && w.lines[l].source.productId == p
        && r == Reservation(l, w.lines[l].quantity);
      assert LiveLine(w, l, p);
    }
  }

  lemma CompleteIsNoWorse(s: State, o: nat, q: nat, l: nat)
    requires AllClean(s) && o in s.world.orders && s.world.orders[o].status == Ready && Sufficient(s, o) && StockOk(s)
    requires q != o && l in LinesOfOrder(s.world, q)
    ensures NoWorse(s, JustCompleted(s, o), l)
  {
    hide SumBy, OnLine, OnLot, ProducedFor, JustCompleted, AllClean, Sufficient, Pick, StockOk, OrderRows;
    var s1 := JustCompleted(s, o);
    FulfilledShape(s, o);
    if s.world.lines[l].source.OfProduct? {
      var p := s.world.lines[l].source.productId;
      FulfilledClosure(s, o, p);
      var c := ClosureOf(s, p);
      PickKeepsLine(c.rows, (set x | x in c.rows && x.lineId !in LinesOfOrder(s.world, o)), l);
      if p in s.world.products && s.world.products[p].Purchased? {
        ReservationsWithout(s, o, p);
        SumUnion(Reservations(s1.world, p), PurchasedNeeds(s.world, o, p), ReservedQuantity);
        NeededIsThere(s, o, p);
      }
    }
  }

  /** Completing an order: never refused for a demand conflict, and no other Ready order is demoted,
      because purchased stock and its reservations fall by the same amount. */
  lemma CompleteReleasesSafely(s: State, o: nat, locked: set<nat>, today: int, amountsFit: bool, q: nat)
    requires Inv(s)
    ensures Complete(s, o, locked, today, amountsFit) != Refused(DemandDateConflict)
    ensures
      && Complete(s, o, locked, today, amountsFit).Done? && q != o && q in s.world.orders
      && s.world.orders[q].status == Ready ==>
        var s' := Complete(s, o, locked, today, amountsFit).state;
        q in s'.world.orders && s'.world.orders[q].status == Ready
  {
    hide Settleable, Settle, Candidates, ProductsOfOrder, OrderLocked, NoWorse, NoNewDemand, AllClean, ReadySatisfied,
      StockOk, JustCompleted, Sufficient, Satisfied, ReservationsMatch, PostConditions, OnLot, OrderRows;
    if o in s.world.orders && s.world.orders[o].status == Ready && !OrderLocked(s, o) && Sufficient(s, o)
       && Candidates(s.world, ProductsOfOrder(s.world, o)) + {o} <= locked {
      var s1, products := JustCompleted(s, o), ProductsOfOrder(s.world, o);
      CompleteSettleable(s, o, locked);
      FulfilledShape(s, o);
      forall p | p in products && IsProduced(s.world, p) ensures NoNewDemand(s1, p) { CompleteReleases(s, o, p); }
      SettleNeverConflicts(s, s1, products, locked - {o}, today);
      if Settle(s1, products, locked - {o}, today).Done? && q != o && q in s.world.orders
        && s.world.orders[q].status == Ready {
        forall l | l in LinesOfOrder(s.world, q) ensures NoWorse(s, s1, l) { CompleteIsNoWorse(s, o, q, l); }
        assert LinesOfOrder(s1.world, q) == LinesOfOrder(s.world, q);
        StillReady(s, s1, products, locked - {o}, today, q);
      }
    }
  }

  /** Progress: a Ready order with no line behind a run, whose competitors are all locked, completes.
      The only thing left that can refuse it is a value too large for its column. */
  lemma ReadyOrdersComplete(s: State, o: nat, locked: set<nat>, today: int)
    requires Inv(s) && o in s.world.orders && s.world.orders[o].status == Ready && !OrderLocked(s, o)
    requires Candidates(s.world, ProductsOfOrder(s.world, o)) + {o} <= locked
    ensures Complete(s, o, locked, today, true).Done? || Complete(s, o, locked, today, true) == Refused(ValueOverflow)
  {
    hide Settleable, Settle, Candidates, ProductsOfOrder, OrderLocked, AllClean, ReadySatisfied, StockOk, JustCompleted,
      Sufficient, Satisfied, ReservationsMatch, PostConditions;
    assert Satisfied(s, o) by { ReadyIsSatisfied(s, o); }
    ReservationsAlwaysMatch(s, o);
    SatisfiedIsSufficient(s, o);
    CompleteKeepsInv(s, o, locked, today, true);
    CompleteReleasesSafely(s, o, locked, today, true, o);
    SettleReasons(JustCompleted(s, o), ProductsOfOrder(s.world, o), locked - {o}, today);
  }

  lemma ReadyIsSatisfied(s: State, o: nat)
    requires Inv(s) && o in s.world.orders && s.world.orders[o].status == Ready
    ensures Satisfied(s, o)
  {
  }
}
