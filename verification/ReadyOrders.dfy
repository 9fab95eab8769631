/** The other half of readiness: when every satisfied live order is Ready. Every transaction but two
    keeps it so; for the first stock of a product and for an edit that affects no demand, which
    evaluate nobody, the exact condition is stated on the state before the call. */
module ReadyOrders {
  import opened Sorting
  import opened Tallies
  import opened PlanningState
  import opened PlanningInvariant
  import opened Recalculation
  import opened PlanningSystem
  import opened WorldChanges
  import opened Lifecycle
  import opened LifecycleTheorems
  import opened SupplyTheorems
  import opened CompletionTheorems
  import opened PlanningRuns

  ghost predicate SatisfiedAreReady(s: State) {
    forall o :: Live(s.world, o) && Satisfied(s, o) ==> s.world.orders[o].status == Ready
  }

  /** The same order, as satisfied as before. */
  ghost predicate Spared(s: State, s1: State, o: nat) {
    && o in s.world.orders && o in s1.world.orders && s1.world.orders[o].status == s.world.orders[o].status
    && (Satisfied(s1, o) <==> Satisfied(s, o))
  }

  // ---- evaluation ----

  lemma EvaluatedAreReady(s: State, s1: State, locked: set<nat>)
    requires SatisfiedAreReady(s)
    requires forall o :: Live(s1.world, o) && o !in locked ==> Spared(s, s1, o)
    ensures SatisfiedAreReady(EvaluateAll(s1, locked))
  {
    hide Satisfied;
    var s2 := EvaluateAll(s1, locked);
    forall o | Live(s2.world, o) && Satisfied(s2, o) ensures s2.world.orders[o].status == Ready {
      EvaluationKeepsSatisfaction(s1, locked, o);
      assert Live(s1.world, o);
    }
  }

  lemma NobodyMoved(s: State, s1: State)
    requires SatisfiedAreReady(s)
    requires forall o :: Live(s1.world, o) ==> Spared(s, s1, o)
    ensures SatisfiedAreReady(s1)
  {
    hide Satisfied;
    forall o | Live(s1.world, o) && Satisfied(s1, o) ensures s1.world.orders[o].status == Ready {
      assert Spared(s, s1, o);
    }
  }

  /** Recalculating and evaluating, when no order outside the locks has anything to do with it. */
  lemma SettledAreReady(s: State, s1: State, products: set<nat>, locked: set<nat>, today: int)
    requires SatisfiedAreReady(s) && Settleable(s1, products, locked)
    requires RecalculateAll(s1, Ascending(products), today).Done?
    requires forall o :: Live(s1.world, o) && o !in locked ==>
      Spared(s, s1, o) && ProductsOfOrder(s1.world, o) !! products
    ensures SatisfiedAreReady(EvaluateAll(RecalculateAll(s1, Ascending(products), today).state, locked))
  {
    hide RecalculateAll, Satisfied, ProductsOfOrder, AllClean, StockOk, ProductBase, ProductClean, WorldOk,
      SatisfiedAreReady;
    SettledProducts(s1, products, today);
    var s2 := RecalculateAll(s1, Ascending(products), today).state;
    forall o | Live(s2.world, o) && o !in locked ensures Spared(s, s2, o) {
      assert Live(s1.world, o);
      UnrecalculatedOrder(s1, s2, products, o);
    }
    EvaluatedAreReady(s, s2, locked);
  }

  // ---- orders ----

  lemma StatusAreReady(s: State, o: nat, status: Status, locked: set<nat>, today: int)
    requires Inv(s) && SatisfiedAreReady(s) && o in s.world.orders && status != Ready
    requires status == Confirmed ==> s.world.orders[o].date.Some? && !Live(s.world, o)
    requires Live(s.world, o) ==> !OrderLocked(s, o)
    requires Candidates(s.world, ProductsOfOrder(s.world, o)) + {o} <= locked
    requires RecalculateAll(WithStatus(s, o, status), Ascending(ProductsOfOrder(s.world, o)), today).Done?
    ensures SatisfiedAreReady(EvaluateAll(
      RecalculateAll(WithStatus(s, o, status), Ascending(ProductsOfOrder(s.world, o)), today).state, locked))
  {
    hide RecalculateAll, Satisfied, ProductsOfOrder, Candidates, Settleable, Inv, OrderLocked, SatisfiedAreReady,
      EvaluateAll;
    var s1, products := WithStatus(s, o, status), ProductsOfOrder(s.world, o);
    StatusSettleable(s, o, status, locked);
    forall q | Live(s1.world, q) && q !in locked ensures Spared(s, s1, q) && ProductsOfOrder(s1.world, q) !! products {
      OutsideLocked(s.world, products, locked, q);
      StatusKeepsSatisfaction(s, o, status, q);
    }
    SettledAreReady(s, s1, products, locked, today);
  }

  lemma ConfirmAndCancel(s: State, step: Step)
    requires Inv(s) && SatisfiedAreReady(s) && (step.ConfirmStep? || step.CancelStep?) && Attempted(s, step).Done?
    ensures SatisfiedAreReady(Attempted(s, step).state)
  {
    hide RecalculateAll, Satisfied, ProductsOfOrder, Candidates, Inv, OrderLocked, SatisfiedAreReady, EvaluateAll,
      Fingerprints, LinesOfOrder;
    match step
    case ConfirmStep(o, locked, today, warnings) => StatusAreReady(s, o, Confirmed, locked, today);
    case CancelStep(o, locked, today, acknowledged) => StatusAreReady(s, o, Canceled, locked, today);
  }

  lemma EditedAreReady(
      s: State, o: nat, p: Payload, touched: set<nat>, locked: set<nat>, today: int, warnings: set<Fingerprint>)
    requires Inv(s) && SatisfiedAreReady(s) && Edit(s, o, p, touched, locked, today, warnings).Done?
    requires DemandAffecting(s.world, o, p, touched)
    ensures SatisfiedAreReady(Edit(s, o, p, touched, locked, today, warnings).state)
  {
    hide RecalculateAll, Satisfied, ProductsOfOrder, Candidates, Settleable, Inv, SatisfiedAreReady, EvaluateAll,
      Fingerprints, ValidPayload, RemovesProduced, TouchesLocked, LineChanged, DemandAffecting;
    var s1, products := s.(world := ReplaceLines(s.world, o, p)), ProductsOfOrder(s.world, o) + NewProducts(p);
    EditSettleable(s, o, p, touched, locked);
    forall q | Live(s1.world, q) && q !in locked ensures Spared(s, s1, q) && ProductsOfOrder(s1.world, q) !! products {
      OutsideLocked(s.world, products, locked, q);
      EditKeepsOthersSatisfied(s, o, p, q);
    }
    SettledAreReady(s, s1, products, locked, today);
  }

  lemma DraftsAreNobody(s: State, o: nat, p: Payload)
    requires SatisfiedAreReady(s) && SaveDraft(s, o, p).Done?
    ensures SatisfiedAreReady(SaveDraft(s, o, p).state)
  {
    hide Satisfied, ValidPayload, RemovesProduced, ReplaceLines, SatisfiedAreReady;
    var order := Order(Draft, p.date, p.time);
    var s0 := s.(world := s.world.(orders := s.world.orders[o := order]));
    var s1 := s.(world := ReplaceLines(s0.world, o, p));
    DraftShape(s.world, o, p);
    forall q | Live(s1.world, q) ensures Spared(s, s1, q) {
      DraftHeaderKeepsSatisfaction(s, o, order, q);
      EditKeepsOthersSatisfied(s0, o, p, q);
    }
    NobodyMoved(s, s1);
  }

  lemma FlaggedAreReady(s: State, o: nat, l: nat, satisfied: bool)
    requires SatisfiedAreReady(s) && SetManual(s, o, l, satisfied).Done?
    ensures SatisfiedAreReady(SetManual(s, o, l, satisfied).state)
  {
    hide Satisfied, SatisfiedAreReady, EvaluateAll;
    var s1 := s.(world :=
      s.world.(lines := s.world.lines[l := s.world.lines[l].(source := CustomItem(true, satisfied))]));
    forall q | Live(s1.world, q) && q !in {o} ensures Spared(s, s1, q) { FlagSparesOthers(s, l, satisfied, q); }
    EvaluatedAreReady(s, s1, {o});
  }

  lemma CompletedAreReady(s: State, o: nat, locked: set<nat>, today: int, amountsFit: bool)
    requires Inv(s) && SatisfiedAreReady(s) && Complete(s, o, locked, today, amountsFit).Done?
    ensures SatisfiedAreReady(Complete(s, o, locked, today, amountsFit).state)
  {
    hide RecalculateAll, Satisfied, ProductsOfOrder, Candidates, Settleable, AllClean, ReadySatisfied, StockOk,
      OrderLocked, SatisfiedAreReady, EvaluateAll, JustCompleted, Sufficient, ReservationsMatch, PostConditions;
    var s1, products := JustCompleted(s, o), ProductsOfOrder(s.world, o);
    CompleteSettleable(s, o, locked);
    FulfilledShape(s, o);
    forall q | Live(s1.world, q) && q !in locked - {o}
      ensures Spared(s, s1, q) && ProductsOfOrder(s1.world, q) !! products
    {
      OutsideLocked(s.world, products, locked, q);
      CompletionSparesOthers(s, o, q);
    }
    SettledAreReady(s, s1, products, locked - {o}, today);
  }

  // ---- runs and lots ----

  lemma StartedAreReady(s: State, r: ReqId, run: nat, batches: Option<nat>, costsKnown: bool, acknowledged: bool)
    requires SatisfiedAreReady(s) && Start(s, r, run, batches, costsKnown, acknowledged).Done?
    ensures SatisfiedAreReady(Start(s, r, run, batches, costsKnown, acknowledged).state)
  {
    hide Satisfied, SatisfiedAreReady, PlanFor;
    var s1 := Start(s, r, run, batches, costsKnown, acknowledged).state;
    forall q | Live(s1.world, q) ensures Spared(s, s1, q) { RunsKeepSatisfaction(s, s1, q); }
    NobodyMoved(s, s1);
  }

  lemma FinishedAreReady(
      s: State, run: nat, output: nat, overrides: map<nat, nat>, locked: set<nat>, today: int, facts: LotFacts)
    requires Inv(s) && SatisfiedAreReady(s) && Finish(s, run, output, overrides, locked, today, facts).Done?
    ensures SatisfiedAreReady(Finish(s, run, output, overrides, locked, today, facts).state)
  {
    hide RecalculateAll, Satisfied, ProductsOfOrder, Candidates, Settleable, Inv, SatisfiedAreReady, EvaluateAll,
      JustProduced, Outputs, SharesOf;
    var s1, p := JustProduced(s, run, output, overrides, locked, facts), s.world.runs[run].productId;
    FinishSettleable(s, run, output, overrides, locked, facts);
    FinishedWorld(s, run, output, overrides, locked, facts);
    forall q | Live(s1.world, q) && q !in locked ensures Spared(s, s1, q) && ProductsOfOrder(s1.world, q) !! {p} {
      OutsideLocked(s.world, {p}, locked, q);
      FinishKeepsSatisfaction(s, run, output, overrides, locked, facts, q);
    }
    SettledAreReady(s, s1, {p}, locked, today);
  }

  lemma StoppedAreReady(s: State, run: nat, locked: set<nat>, today: int)
    requires Inv(s) && SatisfiedAreReady(s) && CancelRun(s, run, locked, today).Done?
    ensures SatisfiedAreReady(CancelRun(s, run, locked, today).state)
  {
    hide RecalculateAll, Satisfied, ProductsOfOrder, Candidates, Settleable, Inv, SatisfiedAreReady, EvaluateAll;
    var s1, p := RunEnded(s, run, Stopped), s.world.runs[run].productId;
    CancelRunSettleable(s, run, locked);
    forall q | Live(s1.world, q) && q !in locked ensures Spared(s, s1, q) && ProductsOfOrder(s1.world, q) !! {p} {
      OutsideLocked(s.world, {p}, locked, q);
      RunsKeepSatisfaction(s, s1, q);
      SameProducts(s.world, s1.world, q);
    }
    SettledAreReady(s, s1, {p}, locked, today);
  }

  lemma NewLotAreReady(s: State, p: nat, quantity: nat, facts: LotFacts, locked: set<nat>, today: int)
    requires Inv(s) && SatisfiedAreReady(s) && CreateLot(s, p, quantity, facts, locked, today).Done?
    ensures SatisfiedAreReady(CreateLot(s, p, quantity, facts, locked, today).state)
  {
    hide RecalculateAll, Satisfied, ProductsOfOrder, Candidates, Settleable, Inv, SatisfiedAreReady, EvaluateAll,
      WithLot;
    var s1 := WithLot(s, p, facts, quantity);
    LotShape(s, p, facts, quantity);
    forall q | Live(s1.world, q)
      ensures Spared(s, s1, q) && ProductsOfOrder(s1.world, q) == ProductsOfOrder(s.world, q)
    {
      LotsKeepSatisfaction(s, s1, q);
      SameProducts(s.world, s1.world, q);
    }
    if locked == {} {
      NobodyMoved(s, s1);
    } else {
      CreatedLotInv(s, p, quantity, facts);
      SameCandidates(s.world, s1.world, {p});
      InvSettleable(s1, {p}, locked);
      forall q | Live(s1.world, q) && q !in locked ensures ProductsOfOrder(s1.world, q) !! {p} {
        OutsideLocked(s.world, {p}, locked, q);
      }
      SettledAreReady(s, s1, {p}, locked, today);
    }
  }

  lemma ReducedAreReady(s: State, lot: nat, less: nat, locked: set<nat>, today: int, acknowledged: bool)
    requires Inv(s) && SatisfiedAreReady(s) && ReduceLot(s, lot, less, locked, today, acknowledged).Done?
    ensures SatisfiedAreReady(ReduceLot(s, lot, less, locked, today, acknowledged).state)
  {
    hide Recalculate, Satisfied, ProductsOfOrder, Candidates, Inv, SatisfiedAreReady, EvaluateAll, LotReduced, OnLot,
      RunRows, PostConditions, Demotes, LosesSurplus, ClosureOf;
    var s1, p := LotReduced(s, lot, less), s.world.lots[lot].productId;
    ReducedShape(s, lot, less);
    forall q | Live(s1.world, q)
      ensures Spared(s, s1, q) && ProductsOfOrder(s1.world, q) == ProductsOfOrder(s.world, q)
    {
      LotsKeepSatisfaction(s, s1, q);
      SameProducts(s.world, s1.world, q);
    }
    if OnLot(ClosureOf(s, p).rows, lot) <= s.world.lots[lot].physical - less {
      NobodyMoved(s, s1);
    } else {
      var s2 := Recalculate(s1, p, today, {lot}).state;
      OneProductRebuilt(s1, p, today, {lot});
      forall q | Live(s2.world, q) && q !in locked ensures Spared(s, s2, q) {
        OutsideLocked(s.world, {p}, locked, q);
        UnrecalculatedOrder(s1, s2, {p}, q);
      }
      EvaluatedAreReady(s, s2, locked);
    }
  }

  lemma OneProductRebuilt(s: State, p: nat, today: int, impaired: set<nat>)
    requires Recalculate(s, p, today, impaired).Done?
    ensures SameButClosures(s, Recalculate(s, p, today, impaired).state)
    ensures forall q :: q !in {p} ==> ClosureOf(Recalculate(s, p, today, impaired).state, q) == ClosureOf(s, q)
  {
    hide ComputeFor, Replace;
  }

  // ---- stock and the catalog ----

  lemma RestockedAreReady(s: State, p: nat, change: int, locked: set<nat>)
    requires SatisfiedAreReady(s) && MoveStock(s, p, change, locked).Done?
    ensures SatisfiedAreReady(MoveStock(s, p, change, locked).state)
  {
    hide Satisfied, ProductsOfOrder, Candidates, SatisfiedAreReady, EvaluateAll;
    var s1 := StockMoved(s, p, change);
    forall q | Live(s1.world, q) && q !in locked ensures Spared(s, s1, q) {
      OutsideLocked(s.world, {p}, locked, q);
      StockSparesOthers(s, p, change, q);
    }
    EvaluatedAreReady(s, s1, locked);
  }

  lemma QuietSteps(s: State, step: Step)
    requires SatisfiedAreReady(s) && (step.IngredientStep? || step.CurrentStep?) && Attempted(s, step).Done?
    ensures SatisfiedAreReady(Attempted(s, step).state)
  {
    hide Satisfied, SatisfiedAreReady;
    var s1 := Attempted(s, step).state;
    forall q | Live(s1.world, q) ensures Spared(s, s1, q) {
      match step
      case IngredientStep(i, change) => IngredientsSatisfyNobody(s, s1, q);
      case CurrentStep(p, revision) => CatalogKeepsSatisfaction(s, s1, p, q);
    }
    NobodyMoved(s, s1);
  }

  // ---- the two that evaluate nobody ----

  /** A waiting order that `quantity` units of first stock of `p` would satisfy: everything reserved of
      `p` fits, and its other lines are satisfied already. */
  ghost predicate CoveredByFirstStock(s: State, o: nat, p: nat, quantity: nat) {
    && o in s.world.orders && s.world.orders[o].status == Confirmed && p in ProductsOfOrder(s.world, o)
    && SumBy(ClosureOf(s, p).reservations, ReservedQuantity) <= quantity
    && forall l :: l in LinesOfOrder(s.world, o) ==> s.world.lines[l].source == OfProduct(p) || LineSatisfied(s, l)
  }

  lemma FirstStockLine(s: State, p: nat, quantity: nat, l: nat)
    requires FirstStock(s, p, quantity).Done? && l in s.world.lines
    ensures LineSatisfied(FirstStock(s, p, quantity).state, l) <==>
      if s.world.lines[l].source == OfProduct(p) then SumBy(ClosureOf(s, p).reservations, ReservedQuantity) <= quantity
      else LineSatisfied(s, l)
  {
    hide SumBy;
    var s1 := FirstStock(s, p, quantity).state;
    forall q ensures ClosureOf(s1, q) == ClosureOf(s, q) {}
  }

  lemma FirstStockSatisfies(s: State, p: nat, quantity: nat, o: nat)
    requires FirstStock(s, p, quantity).Done? && o in s.world.orders && s.world.orders[o].status == Confirmed
    requires p in ProductsOfOrder(s.world, o)
    ensures Satisfied(FirstStock(s, p, quantity).state, o) <==> CoveredByFirstStock(s, o, p, quantity)
  {
    hide FirstStock, LineSatisfied, SumBy;
    var s1 := FirstStock(s, p, quantity).state;
    FirstStockWorld(s, p, quantity);
    forall l | l in LinesOfOrder(s.world, o) ensures LineSatisfied(s1, l) <==>
      if s.world.lines[l].source == OfProduct(p) then SumBy(ClosureOf(s, p).reservations, ReservedQuantity) <= quantity
      else LineSatisfied(s, l)
    {
      FirstStockLine(s, p, quantity, l);
    }
    var m :| m in LinesOfOrder(s.world, o) && s.world.lines[m].source.OfProduct?
      && s.world.lines[m].source.productId == p;
    assert s.world.lines[m].source == OfProduct(p);
  }

  lemma FirstStockWorld(s: State, p: nat, quantity: nat)
    requires FirstStock(s, p, quantity).Done?
    ensures FirstStock(s, p, quantity).state.world == s.world
    ensures FirstStock(s, p, quantity).state == StockMoved(s, p, quantity)
  {
  }

  lemma FirstStockKeepsReadyIff(s: State, p: nat, quantity: nat)
    requires SatisfiedAreReady(s) && FirstStock(s, p, quantity).Done?
    ensures SatisfiedAreReady(FirstStock(s, p, quantity).state) <==> forall o :: !CoveredByFirstStock(s, o, p, quantity)
  {
    hide Satisfied, FirstStock, ProductsOfOrder;
    var s1 := FirstStock(s, p, quantity).state;
    FirstStockWorld(s, p, quantity);
    forall o | Live(s.world, o)
      ensures Satisfied(s1, o) && s.world.orders[o].status == Confirmed <==> CoveredByFirstStock(s, o, p, quantity)
    {
      if p !in ProductsOfOrder(s.world, o) {
        StockSparesOthers(s, p, quantity, o);
      } else if s.world.orders[o].status == Confirmed {
        FirstStockSatisfies(s, p, quantity, o);
      }
    }
    assert forall o :: CoveredByFirstStock(s, o, p, quantity) ==> Live(s.world, o);
  }

  /** The edited order would be satisfied: its product lines are, and every custom item still required
      is cleared. */
  ghost predicate CoveredByQuietEdit(s: State, p: Payload) {
    forall l :: l in p.lines ==>
      match p.lines[l].source
      case CustomItem(required, satisfied) => !required || satisfied
      case OfProduct(_) => l in s.world.lines && LineSatisfied(s, l)
  }

  lemma QuietEditSatisfies(s: State, o: nat, p: Payload)
    requires o in s.world.orders && ValidPayload(s.world, o, p) && p.lines != map[]
    requires !DemandAffecting(s.world, o, p, {}) && forall l :: !LineChanged(s.world, p, l)
    ensures Satisfied(s.(world := ReplaceLines(s.world, o, p)), o) <==> CoveredByQuietEdit(s, p)
  {
    hide SumBy, OnLine, ProducedFor;
    var w, s1 := s.world, s.(world := ReplaceLines(s.world, o, p));
    forall l ensures l in LinesOfOrder(s1.world, o) <==> l in p.lines {
      if l in p.lines { assert ValidLine(w, o, l, p.lines[l]); }
    }
    assert exists l :: l in p.lines;
    var some :| some in p.lines;
    assert some in LinesOfOrder(s1.world, o);
    forall l | l in p.lines && p.lines[l].source.OfProduct?
      ensures l in w.lines && (LineSatisfied(s1, l) <==> LineSatisfied(s, l))
    {
      assert ValidLine(w, o, l, p.lines[l]) && !LineChanged(w, p, l);
      forall q ensures ClosureOf(s1, q) == ClosureOf(s, q) {}
    }
  }

  lemma QuietEditKeepsReadyIff(
      s: State, o: nat, p: Payload, touched: set<nat>, locked: set<nat>, today: int, warnings: set<Fingerprint>)
    requires SatisfiedAreReady(s) && Edit(s, o, p, touched, locked, today, warnings).Done?
    requires !DemandAffecting(s.world, o, p, touched)
    ensures SatisfiedAreReady(Edit(s, o, p, touched, locked, today, warnings).state) <==> !CoveredByQuietEdit(s, p)
  {
    hide Satisfied, ValidPayload, RemovesProduced, TouchesLocked, LineChanged, CoveredByQuietEdit;
    var s1 := s.(world := ReplaceLines(s.world, o, p));
    assert touched == {};
    QuietEditSatisfies(s, o, p);
    forall q | q != o ensures Satisfied(s1, q) <==> Satisfied(s, q) { EditKeepsOthersSatisfied(s, o, p, q); }
  }

  // ---- whole runs ----

  /** The guard of the two steps; nothing is asked of the others. */
  ghost predicate EvaluatesEnough(s: State, step: Step) {
    Attempted(s, step).Done? ==>
      match step
      case FirstStockStep(p, quantity) => forall o :: !CoveredByFirstStock(s, o, p, quantity)
      case EditStep(o, p, touched, _, _, _) =>
        o in s.world.orders && !DemandAffecting(s.world, o, p, touched) ==> !CoveredByQuietEdit(s, p)
      case _ => true
  }

  /** From a legal state whose satisfied orders are Ready, a step leads to another one exactly when it is
      no first stock and no quiet edit that satisfies a waiting order. */
  lemma StepKeepsReadyIff(s: State, step: Step)
    requires Inv(s) && SatisfiedAreReady(s)
    ensures SatisfiedAreReady(Apply(s, step)) <==> EvaluatesEnough(s, step)
  {
    hide Inv, Confirm, Edit, SaveDraft, Cancel, SetManual, Complete, Start, Finish, CancelRun, MoveStock, FirstStock,
      MoveIngredient, CreateLot, ReduceLot, SetCurrent, SatisfiedAreReady, CoveredByFirstStock, CoveredByQuietEdit,
      DemandAffecting;
    if Attempted(s, step).Done? {
      match step
      case ConfirmStep(o, locked, today, warnings) => ConfirmAndCancel(s, step);
      case EditStep(o, payload, touched, locked, today, warnings) =>
        EditNeedsItsOrder(s, o, payload, touched, locked, today, warnings);
        if DemandAffecting(s.world, o, payload, touched) {
          EditedAreReady(s, o, payload, touched, locked, today, warnings);
        } else {
          QuietEditKeepsReadyIff(s, o, payload, touched, locked, today, warnings);
        }
      case DraftStep(o, payload) => DraftsAreNobody(s, o, payload);
      case CancelStep(o, locked, today, acknowledged) => ConfirmAndCancel(s, step);
      case ManualStep(o, l, satisfied) => FlaggedAreReady(s, o, l, satisfied);
      case CompleteStep(o, locked, today, amountsFit) => CompletedAreReady(s, o, locked, today, amountsFit);
      case StartStep(r, run, batches, costsKnown, acknowledged) =>
        StartedAreReady(s, r, run, batches, costsKnown, acknowledged);
      case FinishStep(run, output, overrides, locked, today, facts) =>
        FinishedAreReady(s, run, output, overrides, locked, today, facts);
      case CancelRunStep(run, locked, today) => StoppedAreReady(s, run, locked, today);
      case MoveStockStep(p, change, locked) => RestockedAreReady(s, p, change, locked);
      case FirstStockStep(p, quantity) => FirstStockKeepsReadyIff(s, p, quantity);
      case IngredientStep(i, change) => QuietSteps(s, step);
      case CreateLotStep(p, quantity, facts, locked, today) => NewLotAreReady(s, p, quantity, facts, locked, today);
      case ReduceLotStep(lot, less, locked, today, acknowledged) =>
        ReducedAreReady(s, lot, less, locked, today, acknowledged);
      case CurrentStep(p, revision) => QuietSteps(s, step);
    }
  }

  lemma EditNeedsItsOrder(
      s: State, o: nat, p: Payload, touched: set<nat>, locked: set<nat>, today: int, warnings: set<Fingerprint>)
    requires Edit(s, o, p, touched, locked, today, warnings).Done?
    ensures o in s.world.orders
  {
    hide RecalculateAll, EvaluateAll, Fingerprints, Candidates, ValidPayload, RemovesProduced, TouchesLocked,
      DemandAffecting;
  }

  /** As long as no step is one of those, every satisfied order in every reachable state is Ready. */
  lemma {:induction false} AlwaysReady(s: State, steps: seq<Step>)
    requires Initial(s)
    requires forall n :: 0 <= n < |steps| ==> EvaluatesEnough(RunAll(s, steps[..n]), steps[n])
    ensures SatisfiedAreReady(RunAll(s, steps))
  {
    hide Apply, EvaluatesEnough, Attempted, Satisfied;
    if steps != [] {
      var n := |steps| - 1;
      forall i | 0 <= i < n ensures EvaluatesEnough(RunAll(s, steps[..n][..i]), steps[..n][i]) {
        assert steps[..n][..i] == steps[..i];
      }
      AlwaysReady(s, steps[..n]);
      Always(s, steps[..n]);
      hide Inv, Initial, SatisfiedAreReady;
      StepKeepsReadyIff(RunAll(s, steps[..n]), steps[n]);
    }
  }

  // ---- both happen ----

  /** One order waits for a purchased product that was never stocked. */
  const UNSTOCKED: State := State(
    World(map[1 := Purchased], map[], map[1 := Order(Confirmed, Some(0), None)], map[1 := Line(1, OfProduct(1), 5)],
      map[], [], map[]),
    map[1 := EMPTY.(reservations := {Reservation(1, 5)})], map[], map[], [], 0)

  lemma UnstockedIsLegal()
    ensures Inv(UNSTOCKED)
  {
    var s := UNSTOCKED;
    assert forall o :: Live(s.world, o) <==> o == 1;
    assert LiveLine(s.world, 1, 1);
    forall x ensures x in Reservations(s.world, 1) <==> x == Reservation(1, 5) {}
    forall p ensures ProductClean(s, p) {}
    forall account ensures BalanceOf(s, account) == LedgerSum(s.ledger, account) {}
  }

  /** The first stock of a product satisfies a waiting order and leaves it Confirmed. */
  lemma FirstStockLeavesSatisfiedConfirmed()
    ensures
      var s' := FirstStock(UNSTOCKED, 1, 5).state;
      Inv(UNSTOCKED) && Inv(s') && Satisfied(s', 1) && s'.world.orders[1].status == Confirmed
  {
    UnstockedIsLegal();
    FirstStockKeepsInv(UNSTOCKED, 1, 5);
    var s' := FirstStock(UNSTOCKED, 1, 5).state;
    assert ClosureOf(s', 1).reservations == {Reservation(1, 5)};
    OneReservation(Reservation(1, 5));
    assert LinesOfOrder(s'.world, 1) == {1};
  }

  /** One order whose only line is a custom item the seller still has to clear. */
  const UNCLEARED: State := State(
    World(map[], map[], map[1 := Order(Confirmed, Some(0), None)], map[1 := Line(1, CustomItem(true, false), 1)], map[],
      [], map[]),
    map[], map[], map[], [], 0)

  lemma UnclearedIsLegal()
    ensures Inv(UNCLEARED) && SatisfiedAreReady(UNCLEARED)
  {
    var s := UNCLEARED;
    forall p ensures ProductClean(s, p) {}
    forall account ensures BalanceOf(s, account) == LedgerSum(s.ledger, account) {}
    assert 1 in LinesOfOrder(s.world, 1) && !LineSatisfied(s, 1);
  }

  /** Turning the requirement off satisfies the order and leaves it Confirmed. */
  lemma QuietEditLeavesSatisfiedConfirmed()
    ensures
      var edit := Edit(UNCLEARED, 1, Payload(Some(0), None, map[1 := Line(1, CustomItem(false, false), 1)]), {}, {1}, 0,
        {});
      && edit.Done? && Inv(UNCLEARED) && Inv(edit.state)
      && Satisfied(edit.state, 1) && edit.state.world.orders[1].status == Confirmed
  {
    var payload := Payload(Some(0), None, map[1 := Line(1, CustomItem(false, false), 1)]);
    UnclearedIsLegal();
    assert !TouchesLocked(UNCLEARED, 1, payload, {});
    EditKeepsInv(UNCLEARED, 1, payload, {}, {1}, 0, {});
    assert LinesOfOrder(UNCLEARED.world, 1) == {1};
    var s1 := UNCLEARED.(world := ReplaceLines(UNCLEARED.world, 1, payload));
    assert LinesOfOrder(s1.world, 1) == {1};
  }
}
