/** What being Ready means, spelled out on quantities, and what settling a transaction leaves behind: nothing
    but the recalculated closures and the statuses that coverage decides. */
module ReadinessMeaning {
  import opened Tallies
  import opened PlanningState
  import opened Recalculation
  import opened PlanningSystem
  import opened Lifecycle

  /** A produced line has its quantity in finished output and surplus, a purchased line's product has stock
      for everything reserved of it, and a required custom item has been cleared. */
  ghost predicate LineCovered(s: State, l: nat)
    requires l in s.world.lines
  {
    match s.world.lines[l].source
    case CustomItem(required, satisfied) => required ==> satisfied
    case OfProduct(p) =>
      && p in s.world.products
      && match s.world.products[p]
         case Produced(_, _, _) =>
           s.world.lines[l].quantity <= ProducedFor(s.world.outputs, l) + OnLine(ClosureOf(s, p).rows, l)
         case Purchased =>
           SumBy(ClosureOf(s, p).reservations, ReservedQuantity) <= if p in s.stock then s.stock[p] else 0
  }

  ghost predicate OrderCovered(s: State, o: nat) {
    && (exists l :: l in s.world.lines && s.world.lines[l].orderId == o)
    && (forall l :: l in s.world.lines && s.world.lines[l].orderId == o ==> LineCovered(s, l))
  }

  predicate InPlay(order: Order) { order.status == Confirmed || order.status == Ready }

  lemma CoveredIsSatisfied(s: State, o: nat)
    ensures OrderCovered(s, o) <==> Satisfied(s, o)
  {
    hide OnLine, ProducedFor, SumBy;
    forall l | l in s.world.lines ensures LineCovered(s, l) <==> LineSatisfied(s, l) {
      if s.world.lines[l].source.OfProduct? && s.world.lines[l].source.productId in s.world.products {
        ShortageIsExcess(s, s.world.lines[l].source.productId);
      }
    }
    forall l ensures l in LinesOfOrder(s.world, o) <==> l in s.world.lines && s.world.lines[l].orderId == o {}
  }

  lemma ShortageIsExcess(s: State, p: nat)
    ensures PurchasedShortage(s, p) == 0
      <==> SumBy(ClosureOf(s, p).reservations, ReservedQuantity) <= if p in s.stock then s.stock[p] else 0
  {
  }

  // ---- evaluating ----

  /** What `s1` keeps of `s`: every table but the closures and the order statuses. Of the statuses, those of the
      `judged` orders in play say whether the order is covered; all others stand. */
  ghost predicate Judged(s: State, s1: State, judged: set<nat>) {
    && s1.world == s.world.(orders := s1.world.orders)
    && s1.stock == s.stock && s1.ingredients == s.ingredients && s1.ledger == s.ledger
    && s1.world.orders.Keys == s.world.orders.Keys
    && forall o :: o in s.world.orders ==>
         s1.world.orders[o] ==
           if o in judged && InPlay(s.world.orders[o])
           then s.world.orders[o].(status := if OrderCovered(s1, o) then Ready else Confirmed)
           else s.world.orders[o]
  }

  ghost predicate ClosuresKept(s: State, s1: State, products: set<nat>) {
    forall p :: p !in products ==> ClosureOf(s1, p) == ClosureOf(s, p)
  }

  lemma CoverageReadsNoStatus(s: State, s1: State, o: nat)
    requires s1 == s.(world := s.world.(orders := s1.world.orders))
    ensures OrderCovered(s1, o) <==> OrderCovered(s, o)
  {
    hide OnLine, ProducedFor, SumBy;
    forall p ensures ClosureOf(s1, p) == ClosureOf(s, p) {}
    forall l | l in s.world.lines ensures LineCovered(s1, l) <==> LineCovered(s, l) {}
  }

  /** An evaluated order in play ends Ready when it has lines and all of them are covered, and Confirmed when
      not; everything else is as it was. */
  lemma EvaluationIsExact(s: State, orders: set<nat>)
    ensures Judged(s, EvaluateAll(s, orders), orders)
    ensures EvaluateAll(s, orders).closures == s.closures
  {
    hide OrderCovered, Satisfied;
    var s1 := EvaluateAll(s, orders);
    forall o | o in s.world.orders
      ensures s1.world.orders[o] ==
        if o in orders && InPlay(s.world.orders[o])
        then s.world.orders[o].(status := if OrderCovered(s1, o) then Ready else Confirmed)
        else s.world.orders[o]
    {
      CoverageReadsNoStatus(s, s1, o);
      CoveredIsSatisfied(s, o);
    }
  }

  // ---- recalculating ----

  lemma OneOnlyReplans(s: State, p: nat, today: int, impaired: set<nat>)
    requires Recalculate(s, p, today, impaired).Done?
    ensures SameButClosures(s, Recalculate(s, p, today, impaired).state)
    ensures ClosuresKept(s, Recalculate(s, p, today, impaired).state, {p})
  {
    hide ComputeFor, Replace;
  }

  lemma {:induction false} RecalculationOnlyReplans(s: State, products: seq<nat>, today: int)
    requires RecalculateAll(s, products, today).Done?
    ensures SameButClosures(s, RecalculateAll(s, products, today).state)
    ensures forall p :: p !in products ==>
      ClosureOf(RecalculateAll(s, products, today).state, p) == ClosureOf(s, p)
    decreases products
  {
    if products != [] {
      hide Recalculate;
      OneOnlyReplans(s, products[0], today, {});
      RecalculationOnlyReplans(Recalculate(s, products[0], today, {}).state, products[1..], today);
    }
  }

  lemma JudgedLater(s: State, mid: State, s1: State, judged: set<nat>)
    requires SameButClosures(s, mid) && Judged(mid, s1, judged)
    ensures Judged(s, s1, judged)
  {
    hide OrderCovered;
  }

  /** Recalculating products and judging orders writes nothing else. */
  lemma ReplanningIsExact(s: State, products: set<nat>, judged: set<nat>, today: int)
    requires RecalculateAll(s, Ascending(products), today).Done?
    ensures
      var s1 := EvaluateAll(RecalculateAll(s, Ascending(products), today).state, judged);
      Judged(s, s1, judged) && ClosuresKept(s, s1, products)
  {
    hide RecalculateAll, Judged, EvaluateAll;
    AscendingIs(products);
    RecalculationOnlyReplans(s, Ascending(products), today);
    var mid := RecalculateAll(s, Ascending(products), today).state;
    EvaluationIsExact(mid, judged);
    JudgedLater(s, mid, EvaluateAll(mid, judged), judged);
  }

  lemma SettlingIsExact(s: State, products: set<nat>, judged: set<nat>, today: int)
    requires Settle(s, products, judged, today).Done?
    ensures
      var s1 := Settle(s, products, judged, today).state;
      Judged(s, s1, judged) && ClosuresKept(s, s1, products)
  {
    hide RecalculateAll, Judged, EvaluateAll, ClosuresKept;
    ReplanningIsExact(s, products, judged, today);
  }
}
