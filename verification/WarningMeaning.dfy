/** What Confirm and Edit warn of, spelled out on balances and reservations, and that nothing is committed
    against a warning the seller has not acknowledged. */
module WarningMeaning {
  import opened Sorting
  import opened Tallies
  import opened PlanningState
  import opened Recalculation
  import opened PlanningSystem
  import opened Lifecycle
  import opened ReadinessMeaning

  predicate MadeByRun(w: World, r: ReqId) {
    exists run :: run in w.runs && w.runs[run].status == InProduction && w.runs[run].source == r
  }

  function Have(balances: map<nat, int>, id: nat): int { if id in balances then balances[id] else 0 }

  /** A missing time; a requirement without a recipe; a purchased product reserved beyond its stock; an ingredient
      of a planned requirement reserved beyond its balance. Shortages are named with their exact quantity. */
  ghost predicate Warns(s: State, products: set<nat>, missingTime: bool, x: Fingerprint) {
    match x
    case MissingTime => missingTime
    case MissingRecipe(p) =>
      && p in products
      && (exists r :: r in ClosureOf(s, p).reqs && ClosureOf(s, p).reqs[r].plan.None? && !MadeByRun(s.world, r))
    case PurchasedShort(p, quantity) =>
      p in products && quantity > 0
      && SumBy(ClosureOf(s, p).reservations, ReservedQuantity) == Have(s.stock, p) + quantity
    case IngredientShort(i, quantity) =>
      && i in s.ingredients && quantity > 0
      && (exists p, k :: p in products && k in ClosureOf(s, p).claims && k.ingredientId == i
            && !MadeByRun(s.world, k.req))
      && SumBy((set p, k | p in s.closures && k in s.closures[p].claims && k.ingredientId == i :: k), ClaimQuantity)
         == s.ingredients[i] + quantity
  }

  lemma ProtectedIsMade(w: World)
    ensures forall r :: r in Protected(w) <==> MadeByRun(w, r)
  {
  }

  lemma WarningsAre(s: State, products: set<nat>, missingTime: bool, x: Fingerprint)
    ensures x in Fingerprints(s, products, missingTime) <==> Warns(s, products, missingTime, x)
  {
    hide SumBy, Protected, MadeByRun;
    ProtectedIsMade(s.world);
    match x
    case MissingTime =>
    case MissingRecipe(p) =>
    case PurchasedShort(p, quantity) =>
    case IngredientShort(i, quantity) =>
      assert i in CandidateIngredients(s, products) <==>
          exists p, k :: p in products && k in ClosureOf(s, p).claims && k.ingredientId == i
            && !MadeByRun(s.world, k.req);
  }

  /** Warnings read neither orders nor lines. */
  lemma WarningsReadNoOrder(s: State, s1: State, products: set<nat>, missingTime: bool, x: Fingerprint)
    requires s1 == s.(world := s.world.(orders := s1.world.orders))
    ensures Warns(s1, products, missingTime, x) <==> Warns(s, products, missingTime, x)
  {
    hide SumBy;
    forall p ensures ClosureOf(s1, p) == ClosureOf(s, p) {}
    assert forall r :: MadeByRun(s1.world, r) <==> MadeByRun(s.world, r);
  }

  /** A committed Confirm leaves no warning that was not acknowledged, and only such a warning makes it ask. */
  lemma ConfirmWarns(s: State, o: nat, locked: set<nat>, today: int, acknowledged: set<Fingerprint>)
    requires o in s.world.orders
    ensures
      var products, missing := ProductsOfOrder(s.world, o), s.world.orders[o].time.None?;
      var result := Confirm(s, o, locked, today, acknowledged);
      && (result.Done? ==> forall x :: Warns(result.state, products, missing, x) ==> x in acknowledged)
      && (result == Refused(Unacknowledged) ==>
            exists x :: x !in acknowledged
              && RecalculateAll(WithStatus(s, o, Confirmed), Ascending(products), today).Done?
              && Warns(RecalculateAll(WithStatus(s, o, Confirmed), Ascending(products), today).state, products, missing,
                x))
  {
    hide Warns, Fingerprints, RecalculateAll, EvaluateAll, Candidates, ProductsOfOrder;
    var products, missing := ProductsOfOrder(s.world, o), s.world.orders[o].time.None?;
    var r := RecalculateAll(WithStatus(s, o, Confirmed), Ascending(products), today);
    if r.Done? { Warned(r.state, products, missing, locked, acknowledged); }
    NeverUnacknowledged(WithStatus(s, o, Confirmed), Ascending(products), today);
  }

  lemma Warned(s: State, products: set<nat>, missing: bool, judged: set<nat>, acknowledged: set<Fingerprint>)
    ensures Fingerprints(s, products, missing) <= acknowledged
      <==> forall x :: Warns(s, products, missing, x) ==> x in acknowledged
    ensures Fingerprints(s, products, missing) <= acknowledged
      <==> forall x :: Warns(EvaluateAll(s, judged), products, missing, x) ==> x in acknowledged
  {
    hide Warns, Fingerprints, Judged;
    EvaluationIsExact(s, judged);
    OnlyOrders(s, judged);
    forall x ensures x in Fingerprints(s, products, missing) <==> Warns(s, products, missing, x) {
      WarningsAre(s, products, missing, x);
    }
    forall x ensures Warns(EvaluateAll(s, judged), products, missing, x) <==> Warns(s, products, missing, x) {
      WarningsReadNoOrder(s, EvaluateAll(s, judged), products, missing, x);
    }
  }

  lemma OnlyOrders(s: State, judged: set<nat>)
    ensures EvaluateAll(s, judged) == s.(world := s.world.(orders := EvaluateAll(s, judged).world.orders))
  {
  }

  lemma {:induction false} NeverUnacknowledged(s: State, products: seq<nat>, today: int)
    ensures RecalculateAll(s, products, today) != Refused(Unacknowledged)
    decreases products
  {
    if products != [] {
      var first := Recalculate(s, products[0], today, {});
      OneNeverUnacknowledged(s, products[0], today);
      if first.Done? { NeverUnacknowledged(first.state, products[1..], today); }
    }
  }

  lemma OneNeverUnacknowledged(s: State, p: nat, today: int)
    ensures Recalculate(s, p, today, {}) != Refused(Unacknowledged)
  {
    hide ComputeFor, Replace;
  }

  /** So does a committed Edit that replans. */
  lemma EditWarns(
      s: State, o: nat, p: Payload, touched: set<nat>, locked: set<nat>, today: int, acknowledged: set<Fingerprint>)
    requires o in s.world.orders && DemandAffecting(s.world, o, p, touched)
    ensures
      var products := ProductsOfOrder(s.world, o) + NewProducts(p);
      var result := Edit(s, o, p, touched, locked, today, acknowledged);
      result.Done? ==> forall x :: Warns(result.state, products, p.time.None?, x) ==> x in acknowledged
  {
    hide Warns, Fingerprints, RecalculateAll, EvaluateAll, Candidates, ProductsOfOrder, TouchesLocked, ReplaceLines,
      ValidPayload, RemovesProduced, LineChanged, NewProducts;
    var products := ProductsOfOrder(s.world, o) + NewProducts(p);
    var r := RecalculateAll(s.(world := ReplaceLines(s.world, o, p)), Ascending(products), today);
    if r.Done? { Warned(r.state, products, p.time.None?, locked, acknowledged); }
  }
}
