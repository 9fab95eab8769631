/** Active-run protection over sequences of transactions, each taken as one step (`ProtectionRace` has what
    can come between a check and its write), and the reachable-state theorems read off the invariant. */
module RunProtection {
  import opened PlanningState
  import opened Recalculation
  import opened PlanningInvariant
  import opened PlanningSystem
  import opened Lifecycle
  import opened LifecycleTheorems
  import opened SupplyTheorems
  import opened CompletionTheorems
  import opened ActiveRuns
  import opened PlanningRuns
  import opened RequirementNumbers
  import opened ReadinessMeaning

  lemma ConfirmKeepsRun(s: State, o: nat, locked: set<nat>, today: int, warnings: set<Fingerprint>, run: nat)
    requires Inv(s) && Active(s, run) && Confirm(s, o, locked, today, warnings).Done?
    ensures RunKept(s, Confirm(s, o, locked, today, warnings).state, run)
  {
    hide Settleable, RecalculateAll, EvaluateAll, Fingerprints, Candidates, ProductsOfOrder, AllClean, ReadySatisfied,
      StockOk, RunKept;
    var s1 := WithStatus(s, o, Confirmed);
    SameClosuresRunKept(s, s1, run);
    StatusSettleable(s, o, Confirmed, locked);
    SettledRunKept(s, s1, ProductsOfOrder(s.world, o), locked, today, run);
  }

  lemma EditKeepsRun(
      s: State, o: nat, p: Payload, touched: set<nat>, locked: set<nat>, today: int, warnings: set<Fingerprint>,
      run: nat)
    requires Inv(s) && Active(s, run) && Edit(s, o, p, touched, locked, today, warnings).Done?
    ensures RunKept(s, Edit(s, o, p, touched, locked, today, warnings).state, run)
  {
    hide Settleable, RecalculateAll, EvaluateAll, Fingerprints, Candidates, ProductsOfOrder, AllClean, ReadySatisfied,
      StockOk, RunKept, ValidPayload, RemovesProduced, TouchesLocked, LineChanged, DemandAffecting;
    var s1 := s.(world := ReplaceLines(s.world, o, p));
    SameClosuresRunKept(s, s1, run);
    if DemandAffecting(s.world, o, p, touched) {
      EditSettleable(s, o, p, touched, locked);
      SettledRunKept(s, s1, ProductsOfOrder(s.world, o) + NewProducts(p), locked, today, run);
    }
  }

  lemma CancelKeepsRun(s: State, o: nat, locked: set<nat>, today: int, acknowledged: bool, run: nat)
    requires Inv(s) && Active(s, run) && Cancel(s, o, locked, today, acknowledged).Done?
    ensures RunKept(s, Cancel(s, o, locked, today, acknowledged).state, run)
  {
    hide Settleable, RecalculateAll, EvaluateAll, Candidates, ProductsOfOrder, AllClean, ReadySatisfied, StockOk,
      RunKept, OrderLocked;
    var s1 := WithStatus(s, o, Canceled);
    SameClosuresRunKept(s, s1, run);
    StatusSettleable(s, o, Canceled, locked);
    SettledRunKept(s, s1, ProductsOfOrder(s.world, o), locked, today, run);
  }

  lemma CompleteKeepsRun(s: State, o: nat, locked: set<nat>, today: int, amountsFit: bool, run: nat)
    requires Inv(s) && Active(s, run) && Complete(s, o, locked, today, amountsFit).Done?
    ensures RunKept(s, Complete(s, o, locked, today, amountsFit).state, run)
  {
    hide Settleable, RecalculateAll, EvaluateAll, Candidates, ProductsOfOrder, AllClean, ReadySatisfied, StockOk,
      RunKept, OrderLocked, JustCompleted, Sufficient, Satisfied, ReservationsMatch, PostConditions, OnLot, OrderRows;
    CompletedRunKept(s, o, run);
    FulfilledShape(s, o);
    CompleteSettleable(s, o, locked);
    SettledRunKept(s, JustCompleted(s, o), ProductsOfOrder(s.world, o), locked - {o}, today, run);
  }

  lemma FinishKeepsRun(
      s: State, done: nat, output: nat, overrides: map<nat, nat>, locked: set<nat>, today: int, facts: LotFacts,
      run: nat)
    requires Inv(s) && Active(s, run) && run != done && Finish(s, done, output, overrides, locked, today, facts).Done?
    ensures RunKept(s, Finish(s, done, output, overrides, locked, today, facts).state, run)
  {
    hide Settleable, RecalculateAll, EvaluateAll, Candidates, AllClean, ReadySatisfied, StockOk, RunKept, JustProduced,
      Outputs, SharesOf;
    var s1 := JustProduced(s, done, output, overrides, locked, facts);
    FinishedWorld(s, done, output, overrides, locked, facts);
    SameClosuresRunKept(s, s1, run);
    FinishSettleable(s, done, output, overrides, locked, facts);
    SettledRunKept(s, s1, {s.world.runs[done].productId}, locked, today, run);
  }

  lemma CancelRunKeepsRun(s: State, stopped: nat, locked: set<nat>, today: int, run: nat)
    requires Inv(s) && Active(s, run) && run != stopped && CancelRun(s, stopped, locked, today).Done?
    ensures RunKept(s, CancelRun(s, stopped, locked, today).state, run)
  {
    hide Settleable, RecalculateAll, EvaluateAll, Candidates, AllClean, ReadySatisfied, StockOk, RunKept;
    var s1 := RunEnded(s, stopped, Stopped);
    SameClosuresRunKept(s, s1, run);
    CancelRunSettleable(s, stopped, locked);
    SettledRunKept(s, s1, {s.world.runs[stopped].productId}, locked, today, run);
  }

  lemma LotStepsKeepRun(s: State, step: Step, run: nat)
    requires Inv(s) && Active(s, run) && (step.CreateLotStep? || step.ReduceLotStep?) && Attempted(s, step).Done?
    ensures RunKept(s, Attempted(s, step).state, run)
  {
    hide Settleable, RecalculateAll, EvaluateAll, Candidates, AllClean, ReadySatisfied, StockOk, RunKept, Recalculate,
      PostConditions, OnLot, RunRows, WithLot, LotReduced;
    match step
    case CreateLotStep(p, quantity, facts, locked, today) =>
      var s1 := WithLot(s, p, facts, quantity);
      LotShape(s, p, facts, quantity);
      SameClosuresRunKept(s, s1, run);
      if locked != {} {
        CreatedLotInv(s, p, quantity, facts);
        SameCandidates(s.world, s1.world, {p});
        InvSettleable(s1, {p}, locked);
        SettledRunKept(s, s1, {p}, locked, today, run);
      }
    case ReduceLotStep(lot, less, locked, today, acknowledged) =>
      var s1, p := LotReduced(s, lot, less), s.world.lots[lot].productId;
      ReducedShape(s, lot, less);
      SameClosuresRunKept(s, s1, run);
      if OnLot(ClosureOf(s, p).rows, lot) > s.world.lots[lot].physical - less {
        ReconciledRunKept(s, lot, less, today, run);
        EvaluatedRunKept(s, Recalculate(s1, p, today, {lot}).state, locked, run);
      }
  }

  lemma ReconciledRunKept(s: State, lot: nat, less: nat, today: int, run: nat)
    requires Inv(s) && Active(s, run) && lot in s.world.lots && s.world.lots[lot].physical - less >= 0
    requires OnLot(RunRows(ClosureOf(s, s.world.lots[lot].productId), s.world), lot)
      <= s.world.lots[lot].physical - less
    requires Recalculate(LotReduced(s, lot, less), s.world.lots[lot].productId, today, {lot}).Done?
    ensures RunKept(s, Recalculate(LotReduced(s, lot, less), s.world.lots[lot].productId, today, {lot}).state, run)
  {
    hide WorldOk, Clean, Base, StockOk, OnLot, RunRows, LotReduced, Recalculate, ReadySatisfied, RowsUnder, LinksOf;
    var s1, p := LotReduced(s, lot, less), s.world.lots[lot].productId;
    var r := s.world.runs[run].source;
    ReducedShape(s, lot, less);
    LotIsProduced(s, lot);
    LotsStayPositive(s, s1, lot);
    assert ProductClean(s, p);
    ReducedIsBase(s, lot, less);
    ActiveHasSource(s, run);
    RecalculateOne(s1, p, today, {lot});
    RecalculateKeepsBehind(s1, p, today, {lot}, r.key.productId, r);
  }

  lemma QuietStepsKeepRun(s: State, step: Step, run: nat)
    requires Inv(s) && Active(s, run) && Attempted(s, step).Done?
    requires step.DraftStep? || step.ManualStep? || step.StartStep? || step.MoveStockStep? || step.FirstStockStep?
      || step.IngredientStep? || step.CurrentStep?
    ensures RunKept(s, Attempted(s, step).state, run)
  {
    hide Candidates, AllClean, ReadySatisfied, StockOk, RunKept, PlanFor, ValidPayload, RemovesProduced, Satisfied,
      EvaluateAll;
    match step
    case DraftStep(_, _) => SameClosuresRunKept(s, Attempted(s, step).state, run);
    case StartStep(_, _, _, _, _) => SameClosuresRunKept(s, Attempted(s, step).state, run);
    case FirstStockStep(_, _) => SameClosuresRunKept(s, Attempted(s, step).state, run);
    case IngredientStep(_, _) => SameClosuresRunKept(s, Attempted(s, step).state, run);
    case CurrentStep(_, _) => SameClosuresRunKept(s, Attempted(s, step).state, run);
    case ManualStep(o, l, satisfied) =>
      var s1 := s.(world :=
        s.world.(lines := s.world.lines[l := s.world.lines[l].(source := CustomItem(true, satisfied))]));
      SameClosuresRunKept(s, s1, run);
      EvaluatedRunKept(s, s1, {o}, run);
    case MoveStockStep(p, change, locked) =>
      SameClosuresRunKept(s, StockMoved(s, p, change), run);
      EvaluatedRunKept(s, StockMoved(s, p, change), locked, run);
  }

  predicate EndsRun(step: Step, run: nat) {
    (step.FinishStep? && step.run == run) || (step.CancelRunStep? && step.run == run)
  }

  /** No step but its own Finish or Cancel touches a run in production or anything behind it. */
  lemma StepKeepsRun(s: State, step: Step, run: nat)
    requires Inv(s) && Active(s, run) && !EndsRun(step, run)
    ensures RunKept(s, Apply(s, step), run)
  {
    hide Inv, Confirm, Edit, SaveDraft, Cancel, SetManual, Complete, Start, Finish, CancelRun, MoveStock, FirstStock,
      MoveIngredient, CreateLot, ReduceLot, SetCurrent, RunKept;
    InvIsClean(s);
    if !Attempted(s, step).Done? {
      SameClosuresRunKept(s, s, run);
    } else {
      match step
      case ConfirmStep(o, locked, today, warnings) => ConfirmKeepsRun(s, o, locked, today, warnings, run);
      case EditStep(o, payload, touched, locked, today, warnings) =>
        EditKeepsRun(s, o, payload, touched, locked, today, warnings, run);
      case CancelStep(o, locked, today, acknowledged) => CancelKeepsRun(s, o, locked, today, acknowledged, run);
      case CompleteStep(o, locked, today, amountsFit) => CompleteKeepsRun(s, o, locked, today, amountsFit, run);
      case FinishStep(done, output, overrides, locked, today, facts) =>
        FinishKeepsRun(s, done, output, overrides, locked, today, facts, run);
      case CancelRunStep(stopped, locked, today) => CancelRunKeepsRun(s, stopped, locked, today, run);
      case CreateLotStep(_, _, _, _, _) => LotStepsKeepRun(s, step, run);
      case ReduceLotStep(_, _, _, _, _) => LotStepsKeepRun(s, step, run);
      case _ => QuietStepsKeepRun(s, step, run);
    }
  }

  lemma RunKeptTrans(s: State, s1: State, s2: State, run: nat)
    requires Active(s, run) && RunKept(s, s1, run) && Active(s1, run) && RunKept(s1, s2, run)
    ensures RunKept(s, s2, run)
  {
    hide RowsUnder, LinksOf;
  }

  ghost function From(s: State, steps: seq<Step>, n: nat): State
    requires n <= |steps|
  {
    if n == 0 then s else Apply(From(s, steps, n - 1), steps[n - 1])
  }

  /** Over any run of steps none of which ends it, a run in production keeps its row, its source
      requirement, that requirement's lines and its surplus rows. */
  lemma {:induction false} RunIsProtected(s: State, steps: seq<Step>, n: nat, run: nat)
    requires Inv(s) && Active(s, run) && n <= |steps| && forall i :: 0 <= i < |steps| ==> !EndsRun(steps[i], run)
    ensures Inv(From(s, steps, n)) && Active(From(s, steps, n), run) && RunKept(s, From(s, steps, n), run)
  {
    hide Inv, Apply, RunKept;
    if n == 0 {
      InvIsClean(s);
      SameClosuresRunKept(s, s, run);
    } else {
      RunIsProtected(s, steps, n - 1, run);
      var before := From(s, steps, n - 1);
      StepKeepsInv(before, steps[n - 1]);
      StepKeepsRun(before, steps[n - 1], run);
      KeptIsActive(before, Apply(before, steps[n - 1]), run);
      RunKeptTrans(s, before, Apply(before, steps[n - 1]), run);
    }
  }

  lemma KeptIsActive(s: State, s1: State, run: nat)
    requires Active(s, run) && RunKept(s, s1, run)
    ensures Active(s1, run)
  {
    hide RowsUnder, LinksOf;
  }

  // ---- what holds in every reachable state ----

  /** Supply is never promised twice: on every lot the active allocations fit its physical quantity,
      and no live line is allocated more than it still lacks. */
  lemma SupplyIsNeverOverpromised(s: State, steps: seq<Step>, lot: nat, l: nat, p: nat)
    requires Initial(s)
    ensures
      var s' := RunAll(s, steps);
      && (lot in s'.world.lots ==>
            OnLot(ClosureOf(s', s'.world.lots[lot].productId).rows, lot) <= s'.world.lots[lot].physical)
      && (LiveLine(s'.world, l, p) && IsProduced(s'.world, p) ==>
        OnLine(ClosureOf(s', p).rows, l) <= StillOpen(s'.world, l))
  {
    hide RunAll, OnLot, OnLine, Skeleton, Meets, ClaimsMeet, ReadySatisfied, StockOk;
    Always(s, steps);
    var s' := RunAll(s, steps);
    if lot in s'.world.lots { LotFits(s', lot); }
    assert ProductClean(s', p);
  }

  /** A Ready order has lines and every one of them is covered: produced quantity by finished output and
      surplus, purchased quantity by stock, custom items by the seller. */
  lemma ReadyMeansSatisfied(s: State, steps: seq<Step>, o: nat)
    requires Initial(s)
    ensures
      var s' := RunAll(s, steps);
      o in s'.world.orders && s'.world.orders[o].status == Ready ==> OrderCovered(s', o)
  {
    hide RunAll, AllClean, Satisfied, StockOk, OrderCovered;
    Always(s, steps);
    CoveredIsSatisfied(RunAll(s, steps), o);
  }

  /** Purchased stock is reserved once for each line of an order in play, in the line's quantity, and for nothing
      else. */
  lemma ReservationsAreTheDemand(s: State, steps: seq<Step>, p: nat, x: Reservation)
    requires Initial(s)
    requires p in RunAll(s, steps).world.products && RunAll(s, steps).world.products[p] == Purchased
    ensures
      var w := RunAll(s, steps).world;
      x in ClosureOf(RunAll(s, steps), p).reservations <==>
        && x.lineId in w.lines && w.lines[x.lineId] == Line(w.lines[x.lineId].orderId, OfProduct(p), x.quantity)
        && w.lines[x.lineId].orderId in w.orders && InPlay(w.orders[w.lines[x.lineId].orderId])
  {
    hide RunAll, Clean, ReadySatisfied, StockOk, WorldOk;
    Always(s, steps);
    assert ProductClean(RunAll(s, steps), p);
  }

  /** Every balance is the sum of its ledger; purchased stock and lots are never negative. */
  lemma BalancesAreTheirLedgers(s: State, steps: seq<Step>, account: Account)
    requires Initial(s)
    ensures
      var s' := RunAll(s, steps);
      && BalanceOf(s', account) == LedgerSum(s'.ledger, account)
      && (!account.IngredientAccount? ==> BalanceOf(s', account) >= 0)
  {
    hide RunAll, LedgerSum, ProductClean, ReadySatisfied;
    Always(s, steps);
  }

  /** Each live line of a produced product is linked to exactly one requirement, in its own product's
      closure, and the link says what the line says; requirement keys are unique. */
  lemma EveryLineIsLinkedOnce(s: State, steps: seq<Step>, l: nat, p: nat)
    requires Initial(s)
    requires LiveLine(RunAll(s, steps).world, l, p) && IsProduced(RunAll(s, steps).world, p)
    ensures
      var s' := RunAll(s, steps);
      && (exists k ::
            && k in ClosureOf(s', p).links && k.lineId == l && ProperLink(k, s'.world, p)
            && k.req in ClosureOf(s', p).reqs)
      && (forall q, k, m ::
            k in ClosureOf(s', p).links && m in ClosureOf(s', q).links && k.lineId == l && m.lineId == l ==>
              k == m && p == q)
      && (forall r, t :: r in ClosureOf(s', p).reqs && t in ClosureOf(s', p).reqs && r.key == t.key ==> r == t)
  {
    hide RunAll, OnLot, OnLine, Meets, ClaimsMeet, ReadySatisfied, StockOk, LotCaps, LineCaps, WorldOk;
    Always(s, steps);
    var s' := RunAll(s, steps);
    assert ProductClean(s', p) && HasLink(ClosureOf(s', p), l);
    var k :| k in ClosureOf(s', p).links && k.lineId == l;
    assert ProperLink(k, s'.world, p);
    forall q, m | m in ClosureOf(s', q).links && m.lineId == l ensures p == q {
      assert ProductClean(s', q) && ProperLink(m, s'.world, q);
    }
  }

  /** In every reachable state the numbers of a requirement outside production follow from its lines and its
      supply: the fewest whole batches for what is still to make, and those batches' ingredients reserved. */
  lemma RequirementsMeetTheirLines(s: State, steps: seq<Step>, p: nat, r: ReqId)
    requires Initial(s)
    requires IsProduced(RunAll(s, steps).world, p) && r in ClosureOf(RunAll(s, steps), p).reqs
      && r !in Protected(RunAll(s, steps).world)
    ensures
      var s' := RunAll(s, steps);
      NumbersFollow(ClosureOf(s', p), s'.world, r) && ReservesItsBatches(ClosureOf(s', p), s'.world, r)
  {
    hide RunAll, Clean, ReadySatisfied, StockOk, WorldOk, NumbersFollow, ReservesItsBatches;
    Always(s, steps);
    var s' := RunAll(s, steps);
    assert ProductClean(s', p);
    MeetingIsFollowing(ClosureOf(s', p), s'.world, p, s'.generation, r);
  }

  /** An order's surplus comes from its lines' own products: no other closure has a row for a line. */
  lemma RowsStayWithTheirProduct(s: State, steps: seq<Step>, l: nat, p: nat, q: nat)
    requires Initial(s) && LiveLine(RunAll(s, steps).world, l, p) && q != p
    ensures OnLine(ClosureOf(RunAll(s, steps), q).rows, l) == 0
  {
    hide RunAll, OnLine, ReadySatisfied, StockOk;
    Always(s, steps);
    var s' := RunAll(s, steps);
    var c := ClosureOf(s', q);
    assert ProductClean(s', q);
    forall x | x in c.rows ensures x.lineId != l {
      CleanRow(c, s'.world, q, s'.generation, s', x);
      var k :| k in c.links && k.req == x.req && k.lineId == x.lineId;
      assert ProperLink(k, s'.world, q);
    }
    NoneOnLine(c.rows, l);
  }
}
