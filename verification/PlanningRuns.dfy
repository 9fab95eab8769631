/** Runs of the whole system: any sequence of transactions, each committed or refused, from an empty
    planning state over any catalog. */
module PlanningRuns {
  import opened Sorting
  import opened Tallies
  import opened PlanningState
  import opened Recalculation
  import opened PlanningInvariant
  import opened PlanningSystem
  import opened Lifecycle
  import opened LifecycleTheorems
  import opened SupplyTheorems
  import opened CompletionTheorems

  datatype Step =
    | ConfirmStep(o: nat, locked: set<nat>, today: int, warnings: set<Fingerprint>)
    | EditStep(o: nat, payload: Payload, touched: set<nat>, locked: set<nat>, today: int, warnings: set<Fingerprint>)
    | DraftStep(o: nat, payload: Payload)
    | CancelStep(o: nat, locked: set<nat>, today: int, acknowledged: bool)
    | ManualStep(o: nat, l: nat, satisfied: bool)
    | CompleteStep(o: nat, locked: set<nat>, today: int, amountsFit: bool)
    | StartStep(r: ReqId, run: nat, batches: Option<nat>, costsKnown: bool, acknowledged: bool)
    | FinishStep(run: nat, output: nat, overrides: map<nat, nat>, locked: set<nat>, today: int, facts: LotFacts)
    | CancelRunStep(run: nat, locked: set<nat>, today: int)
    | MoveStockStep(p: nat, change: int, locked: set<nat>)
    | FirstStockStep(p: nat, quantity: nat)
    | IngredientStep(i: nat, change: int)
    | CreateLotStep(p: nat, quantity: nat, facts: LotFacts, locked: set<nat>, today: int)
    | ReduceLotStep(lot: nat, less: nat, locked: set<nat>, today: int, acknowledged: bool)
    | CurrentStep(p: nat, revision: nat)

  ghost function Attempted(s: State, step: Step): Attempt {
    match step
    case ConfirmStep(o, locked, today, warnings) => Confirm(s, o, locked, today, warnings)
    case EditStep(o, payload, touched, locked, today, warnings) => Edit(s, o, payload, touched, locked, today, warnings)
    case DraftStep(o, payload) => SaveDraft(s, o, payload)
    case CancelStep(o, locked, today, acknowledged) => Cancel(s, o, locked, today, acknowledged)
    case ManualStep(o, l, satisfied) => SetManual(s, o, l, satisfied)
    case CompleteStep(o, locked, today, amountsFit) => Complete(s, o, locked, today, amountsFit)
    case StartStep(r, run, batches, costsKnown, acknowledged) => Start(s, r, run, batches, costsKnown, acknowledged)
    case FinishStep(run, output, overrides, locked, today, facts) =>
      Finish(s, run, output, overrides, locked, today, facts)
    case CancelRunStep(run, locked, today) => CancelRun(s, run, locked, today)
    case MoveStockStep(p, change, locked) => MoveStock(s, p, change, locked)
    case FirstStockStep(p, quantity) => FirstStock(s, p, quantity)
    case IngredientStep(i, change) => MoveIngredient(s, i, change)
    case CreateLotStep(p, quantity, facts, locked, today) => CreateLot(s, p, quantity, facts, locked, today)
    case ReduceLotStep(lot, less, locked, today, acknowledged) => ReduceLot(s, lot, less, locked, today, acknowledged)
    case CurrentStep(p, revision) => SetCurrent(s, p, revision)
  }

  /** A refused attempt changes nothing. */
  ghost function Apply(s: State, step: Step): State {
    if Attempted(s, step).Done? then Attempted(s, step).state else s
  }

  ghost function RunAll(s: State, steps: seq<Step>): State {
    if steps == [] then s else Apply(RunAll(s, steps[..|steps| - 1]), steps[|steps| - 1])
  }

  /** No orders, runs, lots or stock yet; any catalog whose recipes yield something. */
  ghost predicate Initial(s: State) {
    && s.world.orders == map[] && s.world.lines == map[] && s.world.lots == map[] && s.world.runs == map[]
      && s.world.outputs == []
    && s.closures == map[] && s.stock == map[] && s.ledger == []
    && (forall i :: i in s.ingredients ==> s.ingredients[i] == 0)
    && (forall v :: v in s.world.revisions ==> s.world.revisions[v].perBatch > 0)
    && (forall p :: p in s.world.products && s.world.products[p].Produced? && s.world.products[p].current.Some? ==>
          s.world.products[p].current.value in s.world.revisions)
  }

  lemma InitialInv(s: State)
    requires Initial(s)
    ensures Inv(s)
  {
    hide SumBy;
    forall p ensures ProductClean(s, p) {
      assert Reservations(s.world, p) == {};
      if p in s.world.products && s.world.products[p].Produced? { EmptyIsClean(s.world, p, s.generation); }
    }
    forall account ensures BalanceOf(s, account) == LedgerSum(s.ledger, account) {}
  }

  lemma EmptyIsClean(w: World, p: nat, g: nat)
    requires w.lines == map[] && w.runs == map[] && w.lots == map[]
    ensures Clean(EMPTY, w, p, g)
  {
  }

  /** Every step keeps the invariant; none ever hits a missing key or fails its own post-conditions. */
  lemma StepKeepsInv(s: State, step: Step)
    requires Inv(s)
    ensures Inv(Apply(s, step))
    ensures Attempted(s, step) != Refused(KeyError)
    ensures Attempted(s, step) != Refused(InvariantViolated)
  {
    hide Inv, Confirm, Edit, SaveDraft, Cancel, SetManual, Complete, Start, Finish, CancelRun, MoveStock, FirstStock,
      MoveIngredient, CreateLot, ReduceLot, SetCurrent;
    match step
    case ConfirmStep(o, locked, today, warnings) =>
      ConfirmKeepsInv(s, o, locked, today, warnings);
      ConfirmReasons(s, o, locked, today, warnings);
    case EditStep(o, payload, touched, locked, today, warnings) =>
      EditKeepsInv(s, o, payload, touched, locked, today, warnings);
      EditReasons(s, o, payload, touched, locked, today, warnings);
    case DraftStep(o, payload) =>
      if SaveDraft(s, o, payload).Done? { SaveDraftKeepsInv(s, o, payload); }
      QuietReasons(s, step);
    case CancelStep(o, locked, today, acknowledged) =>
      CancelKeepsInv(s, o, locked, today, acknowledged);
      CancelReasons(s, o, locked, today, acknowledged);
    case ManualStep(o, l, satisfied) =>
      if SetManual(s, o, l, satisfied).Done? { SetManualKeepsInv(s, o, l, satisfied); }
      QuietReasons(s, step);
    case CompleteStep(o, locked, today, amountsFit) => CompleteKeepsInv(s, o, locked, today, amountsFit);
    case StartStep(r, run, batches, costsKnown, acknowledged) =>
      if Start(s, r, run, batches, costsKnown, acknowledged).Done? {
        StartKeepsInv(s, r, run, batches, costsKnown, acknowledged);
      }
      QuietReasons(s, step);
    case FinishStep(run, output, overrides, locked, today, facts) =>
      FinishKeepsInv(s, run, output, overrides, locked, today, facts);
      FinishReasons(s, run, output, overrides, locked, today, facts);
    case CancelRunStep(run, locked, today) =>
      CancelRunKeepsInv(s, run, locked, today);
      CancelRunReasons(s, run, locked, today);
    case MoveStockStep(p, change, locked) =>
      if MoveStock(s, p, change, locked).Done? { MoveStockKeepsInv(s, p, change, locked); }
      QuietReasons(s, step);
    case FirstStockStep(p, quantity) =>
      if FirstStock(s, p, quantity).Done? { FirstStockKeepsInv(s, p, quantity); }
      QuietReasons(s, step);
    case IngredientStep(i, change) =>
      if MoveIngredient(s, i, change).Done? { MoveIngredientKeepsInv(s, i, change); }
      QuietReasons(s, step);
    case CreateLotStep(p, quantity, facts, locked, today) =>
      CreateLotKeepsInv(s, p, quantity, facts, locked, today);
      CreateLotReasons(s, p, quantity, facts, locked, today);
    case ReduceLotStep(lot, less, locked, today, acknowledged) =>
      ReduceLotKeepsInv(s, lot, less, locked, today, acknowledged);
    case CurrentStep(p, revision) =>
      if SetCurrent(s, p, revision).Done? { SetCurrentKeepsInv(s, p, revision); }
      QuietReasons(s, step);
  }

  lemma ConfirmReasons(s: State, o: nat, locked: set<nat>, today: int, warnings: set<Fingerprint>)
    ensures Confirm(s, o, locked, today, warnings) != Refused(InvariantViolated)
  {
    hide RecalculateAll, Fingerprints, EvaluateAll, Candidates;
    if o in s.world.orders {
      RecalculateAllReasons(WithStatus(s, o, Confirmed), Ascending(ProductsOfOrder(s.world, o)), today);
    }
  }

  lemma EditReasons(
      s: State, o: nat, p: Payload, touched: set<nat>, locked: set<nat>, today: int, warnings: set<Fingerprint>)
    ensures Edit(s, o, p, touched, locked, today, warnings) != Refused(InvariantViolated)
  {
    hide RecalculateAll, Fingerprints, EvaluateAll, Candidates, ValidPayload, TouchesLocked, RemovesProduced,
      DemandAffecting, LineChanged;
    if o in s.world.orders {
      RecalculateAllReasons(s.(world := ReplaceLines(s.world, o, p)),
        Ascending(ProductsOfOrder(s.world, o) + NewProducts(p)), today);
    }
  }

  lemma CancelReasons(s: State, o: nat, locked: set<nat>, today: int, acknowledged: bool)
    ensures Cancel(s, o, locked, today, acknowledged) != Refused(InvariantViolated)
  {
    hide Settle, Candidates, OrderLocked;
    if o in s.world.orders { SettleReasons(WithStatus(s, o, Canceled), ProductsOfOrder(s.world, o), locked, today); }
  }

  lemma FinishReasons(
      s: State, run: nat, output: nat, overrides: map<nat, nat>, locked: set<nat>, today: int, facts: LotFacts)
    ensures Finish(s, run, output, overrides, locked, today, facts) != Refused(InvariantViolated)
  {
    hide Settle, Candidates, JustProduced;
    if run in s.world.runs {
      SettleReasons(JustProduced(s, run, output, overrides, locked, facts), {s.world.runs[run].productId}, locked,
        today);
    }
  }

  lemma CancelRunReasons(s: State, run: nat, locked: set<nat>, today: int)
    ensures CancelRun(s, run, locked, today) != Refused(InvariantViolated)
  {
    hide Settle, Candidates;
    if run in s.world.runs { SettleReasons(RunEnded(s, run, Stopped), {s.world.runs[run].productId}, locked, today); }
  }

  lemma CreateLotReasons(s: State, p: nat, quantity: nat, facts: LotFacts, locked: set<nat>, today: int)
    ensures CreateLot(s, p, quantity, facts, locked, today) != Refused(InvariantViolated)
  {
    hide Settle, Candidates;
    SettleReasons(WithLot(s, p, facts, quantity), {p}, locked, today);
  }

  lemma QuietReasons(s: State, step: Step)
    requires step.DraftStep? || step.ManualStep? || step.StartStep? || step.MoveStockStep? || step.FirstStockStep?
      || step.IngredientStep? || step.CurrentStep?
    ensures Attempted(s, step) != Refused(KeyError) && Attempted(s, step) != Refused(InvariantViolated)
  {
    hide EvaluateAll, Candidates, ValidPayload, RemovesProduced, PlanFor;
  }

  /** Safety over whole runs. */
  lemma {:induction false} Always(s: State, steps: seq<Step>)
    requires Initial(s)
    ensures Inv(RunAll(s, steps))
  {
    hide Inv, Apply;
    if steps == [] {
      InitialInv(s);
    } else {
      Always(s, steps[..|steps| - 1]);
      StepKeepsInv(RunAll(s, steps[..|steps| - 1]), steps[|steps| - 1]);
    }
  }
}
