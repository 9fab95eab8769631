/** What every committed transaction does to every table, spelled out on the fields it writes. */
module TransactionEffects {
  import opened Sorting
  import opened Tallies
  import opened PlanningState
  import opened Recalculation
  import opened PlanningSystem
  import opened Lifecycle
  import opened CompletionTheorems
  import opened ReadinessMeaning
  import opened RunEffects
  import opened PlanningRuns

  /** `written` is what the transaction itself put into the tables. Then its products were recalculated and the
      orders judged by their coverage. */
  ghost predicate Replanned(s: State, written: State, s1: State, products: set<nat>, judged: set<nat>) {
    Judged(written, s1, judged) && ClosuresKept(s, s1, products)
  }

  // ---- orders ----

  function WithOrder(s: State, o: nat, order: Order): State {
    s.(world := s.world.(orders := s.world.orders[o := order]))
  }

  /** An order with lines and a date leaves Draft. With `o` locked its new status says whether it is covered. */
  ghost predicate OrderConfirmed(s: State, s1: State, o: nat, judged: set<nat>) {
    && o in s.world.orders && s.world.orders[o].status == Draft && s.world.orders[o].date.Some? && o in judged
    && (exists l :: l in s.world.lines && s.world.lines[l].orderId == o)
    && Replanned(s, WithOrder(s, o, s.world.orders[o].(status := Confirmed)), s1, ProductsOfOrder(s.world, o), judged)
  }

  /** An order whose lines were given output is only canceled knowingly. */
  ghost predicate OrderCanceled(s: State, s1: State, o: nat, judged: set<nat>, acknowledged: bool) {
    && o in s.world.orders && InPlay(s.world.orders[o])
    && ((exists x :: x in s.world.outputs && x.lineId in s.world.lines && s.world.lines[x.lineId].orderId == o)
          ==> acknowledged)
    && Replanned(s, WithOrder(s, o, s.world.orders[o].(status := Canceled)), s1, ProductsOfOrder(s.world, o), judged)
  }

  /** The order's lines are exactly the submitted ones; the lines of other orders stay. Submitting clears no custom
      item: one that comes satisfied was so before, unchanged. */
  ghost predicate LinesBecome(w: World, lines: map<nat, Line>, o: nat, submitted: map<nat, Line>) {
    && (forall l :: l in lines <==> l in submitted || (l in w.lines && w.lines[l].orderId != o))
    && (forall l :: l in submitted ==> lines[l] == submitted[l] && lines[l].orderId == o)
    && (forall l :: l in w.lines && w.lines[l].orderId != o ==> l in lines && lines[l] == w.lines[l])
    && (forall l :: l in submitted && submitted[l].source.CustomItem? && submitted[l].source.satisfied ==>
          l in w.lines && submitted[l] == w.lines[l])
  }

  /** Same header, same lines, none touched. */
  ghost predicate Quiet(w: World, o: nat, p: Payload, touched: set<nat>)
    requires o in w.orders
  {
    && p.date == w.orders[o].date && p.time == w.orders[o].time && touched == {}
    && forall l :: l in p.lines <==> l in w.lines && w.lines[l].orderId == o
  }

  /** Header and lines as submitted. After a quiet edit nothing else happens. */
  ghost predicate OrderEdited(s: State, s1: State, o: nat, p: Payload, touched: set<nat>, judged: set<nat>) {
    && o in s.world.orders && s.world.orders[o].status == Confirmed && o in judged
    && LinesBecome(s.world, s1.world.lines, o, p.lines)
    && var header := WithOrder(s, o, Order(Confirmed, p.date, p.time));
       var written := header.(world := header.world.(lines := s1.world.lines));
       if Quiet(s.world, o, p, touched) then s1 == written
       else Replanned(s, written, s1, ProductsOfOrder(s.world, o) + NewProducts(p), judged)
  }

  ghost predicate DraftSaved(s: State, s1: State, o: nat, p: Payload) {
    && (o in s.world.orders ==> s.world.orders[o].status == Draft)
    && LinesBecome(s.world, s1.world.lines, o, p.lines)
    && var header := WithOrder(s, o, Order(Draft, p.date, p.time));
       s1 == header.(world := header.world.(lines := s1.world.lines))
  }

  /** Only the flag of that line is written. */
  ghost predicate FlagSet(s: State, s1: State, o: nat, l: nat, satisfied: bool) {
    && l in s.world.lines && s.world.lines[l].orderId == o && s.world.lines[l].source.CustomItem?
    && s.world.lines[l].source.required
    && var line := Line(o, CustomItem(true, satisfied), s.world.lines[l].quantity);
       Replanned(s, s.(world := s.world.(lines := s.world.lines[l := line])), s1, {}, {o})
  }

  // ---- completion ----

  function LineQuantity(w: World): nat -> nat { (l: nat) => if l in w.lines then w.lines[l].quantity else 0 }

  function LinesOfProduct(w: World, o: nat, p: nat): set<nat> {
    set l | l in w.lines && w.lines[l].orderId == o && w.lines[l].source == OfProduct(p)
  }

  /** What the order takes of a purchased product. */
  ghost function TakenOfStock(w: World, o: nat, p: nat): nat {
    if p in w.products && w.products[p] == Purchased
    then SumBy(LinesOfProduct(w, o, p), LineQuantity(w))
    else 0
  }

  /** What the order takes of a lot: what its lines are promised of it. */
  function TakenOfLot(rows: seq<SurplusRow>, w: World, o: nat, lot: nat): nat {
    if rows == [] then 0
    else
      var x := rows[|rows| - 1];
      TakenOfLot(rows[..|rows| - 1], w, o, lot)
      + if x.lotId == lot && x.lineId in w.lines && w.lines[x.lineId].orderId == o then x.quantity else 0
  }

  /** Stock and lots fall by what the order takes of them; the ledger only grows. */
  ghost predicate Taken(s: State, s1: State, o: nat) {
    && s1.stock.Keys == s.stock.Keys
    && (forall p :: p in s.stock ==> s1.stock[p] == s.stock[p] - TakenOfStock(s.world, o, p))
    && s1.world.lots.Keys == s.world.lots.Keys
    && (forall lot :: lot in s.world.lots ==>
          s1.world.lots[lot] == s.world.lots[lot].(physical := s.world.lots[lot].physical
            - TakenOfLot(ClosureOf(s, s.world.lots[lot].productId).rows, s.world, o, lot)))
    && s.ledger <= s1.ledger
  }

  ghost predicate OrderCompleted(s: State, s1: State, o: nat, judged: set<nat>) {
    && o in s.world.orders && s.world.orders[o].status == Ready && Taken(s, s1, o)
    && var closed := WithOrder(s, o, s.world.orders[o].(status := Completed));
       Replanned(s, closed.(world := closed.world.(lots := s1.world.lots), stock := s1.stock, ledger := s1.ledger),
         s1, ProductsOfOrder(s.world, o), judged - {o})
  }

  lemma {:induction false} TakenIsPicked(
      rows: seq<SurplusRow>, which: set<SurplusRow>, w: World, o: nat, lot: nat)
    requires forall x :: x in rows ==> (x in which <==> x.lineId in w.lines && w.lines[x.lineId].orderId == o)
    ensures OnLot(Pick(rows, which), lot) == TakenOfLot(rows, w, o, lot)
  {
    if rows != [] {
      var n := |rows| - 1;
      TakenIsPicked(rows[..n], which, w, o, lot);
      OneRow(Pick(rows[..n], which), rows[n], rows[n] in which, lot, rows[n].req);
      assert rows[n] in rows;
    }
  }

  lemma {:induction false} LinesAsReservations(w: World, ids: set<nat>)
    requires forall l :: l in ids ==> l in w.lines
    ensures SumBy((set l | l in ids && l in w.lines :: Reservation(l, w.lines[l].quantity)), ReservedQuantity)
      == SumBy(ids, LineQuantity(w))
    decreases ids
  {
    var reservations := set l | l in ids && l in w.lines :: Reservation(l, w.lines[l].quantity);
    if ids == {} {
      assert reservations == {};
    } else {
      var l :| l in ids;
      var rest := set m | m in ids - {l} && m in w.lines :: Reservation(m, w.lines[m].quantity);
      LinesAsReservations(w, ids - {l});
      SumRemove(ids, LineQuantity(w), l);
      SumAdd(rest, ReservedQuantity, Reservation(l, w.lines[l].quantity));
      assert reservations == rest + {Reservation(l, w.lines[l].quantity)};
    }
  }

  lemma NeededIsTaken(w: World, o: nat, p: nat)
    ensures NeededStock(w, o, p) == TakenOfStock(w, o, p)
  {
    hide SumBy, LineQuantity;
    if p in w.products && w.products[p] == Purchased {
      var ids := LinesOfProduct(w, o, p);
      LinesAsReservations(w, ids);
      assert PurchasedNeeds(w, o, p) ==
        set l | l in ids && l in w.lines :: Reservation(l, w.lines[l].quantity);
    } else {
      assert PurchasedNeeds(w, o, p) == {};
      NoReservations();
    }
  }

  lemma FulfilledTakes(s: State, o: nat)
    requires o in s.world.orders
    ensures Taken(s, JustCompleted(s, o), o)
  {
    hide OnLot, TakenOfLot, NeededStock, TakenOfStock, JustCompleted, Pick;
    var s1 := JustCompleted(s, o);
    FulfilledShape(s, o);
    FulfilledLedgerIs(s, o);
    forall p ensures NeededStock(s.world, o, p) == TakenOfStock(s.world, o, p) { NeededIsTaken(s.world, o, p); }
    forall lot | lot in s.world.lots
      ensures OnLot(OrderRows(s, o, s.world.lots[lot].productId), lot)
        == TakenOfLot(ClosureOf(s, s.world.lots[lot].productId).rows, s.world, o, lot)
    {
      var c := ClosureOf(s, s.world.lots[lot].productId);
      TakenIsPicked(c.rows, OrderRowSet(c, s.world, o), s.world, o, lot);
    }
  }

  lemma CompleteIsExact(s: State, o: nat, locked: set<nat>, today: int, amountsFit: bool)
    requires Inv(s) && Complete(s, o, locked, today, amountsFit).Done?
    ensures OrderCompleted(s, Complete(s, o, locked, today, amountsFit).state, o, locked)
  {
    hide Inv, JustCompleted, Taken, Judged, Settle, Satisfied, ReservationsMatch, Sufficient, OrderLocked, Candidates,
      PostConditions, OnLot, OrderRows, NeededStock, ClosuresKept, ProductsOfOrder;
    var mid, products := JustCompleted(s, o), ProductsOfOrder(s.world, o);
    var s1 := Complete(s, o, locked, today, amountsFit).state;
    FulfilledTakes(s, o);
    FulfilledShape(s, o);
    SettlingIsExact(mid, products, locked - {o}, today);
    JudgedKeeps(mid, s1, locked - {o});
    TakenLater(s, mid, s1, o);
    OtherClosuresStay(s, s1, o);
    JudgedFromTables(s, mid, s1, mid.world.orders, locked - {o});
  }

  lemma TakenLater(s: State, mid: State, s1: State, o: nat)
    requires Taken(s, mid, o) && s1.stock == mid.stock && s1.ledger == mid.ledger && s1.world.lots == mid.world.lots
    ensures Taken(s, s1, o)
  {
  }

  /** Judging reads no closure but the last one. */
  lemma JudgedFromTables(s: State, mid: State, s1: State, orders: map<nat, Order>, judged: set<nat>)
    requires Judged(mid, s1, judged) && mid.world == s.world.(orders := orders, lots := s1.world.lots)
    requires mid.stock == s1.stock && mid.ledger == s1.ledger && mid.ingredients == s.ingredients
    ensures Judged(
      s.(world := s.world.(orders := orders, lots := s1.world.lots), stock := s1.stock, ledger := s1.ledger), s1,
        judged)
  {
    hide OrderCovered;
  }

  lemma OtherClosuresStay(s: State, s1: State, o: nat)
    requires Inv(s) && o in s.world.orders && ClosuresKept(JustCompleted(s, o), s1, ProductsOfOrder(s.world, o))
    ensures ClosuresKept(s, s1, ProductsOfOrder(s.world, o))
  {
    hide AllClean, JustCompleted, WithoutOrder, OrderRows;
    InvIsClean(s);
    forall p | p !in ProductsOfOrder(s.world, o) ensures ClosureOf(s1, p) == ClosureOf(s, p) {
      FulfilledClosure(s, o, p);
      NothingTaken(s, o, p);
    }
  }

  // ---- runs, stock and lots ----

  ghost predicate RunStopped(s: State, s1: State, run: nat, judged: set<nat>) {
    && run in s.world.runs && s.world.runs[run].status == InProduction
    && var runs := s.world.runs[run := s.world.runs[run].(status := Stopped)];
       Replanned(s, s.(world := s.world.(runs := runs)), s1, {s.world.runs[run].productId}, judged)
  }

  /** The balance moves by the change, and the ledger says so. It does not go below zero. */
  ghost predicate StockChanged(s: State, s1: State, p: nat, change: int, judged: set<nat>) {
    && p in s.stock && s.stock[p] + change >= 0
    && Replanned(s,
         s.(stock := s.stock[p := s.stock[p] + change], ledger := s.ledger + [Entry(PurchasedAccount(p), change)]),
         s1, {}, judged)
  }

  predicate StockOpened(s: State, s1: State, p: nat, quantity: nat) {
    && p !in s.stock
    && s1 == s.(stock := s.stock[p := quantity], ledger := s.ledger + [Entry(PurchasedAccount(p), quantity)])
  }

  predicate IngredientMoved(s: State, s1: State, i: nat, change: int) {
    && i in s.ingredients
    && s1 == s.(ingredients := s.ingredients[i := s.ingredients[i] + change],
         ledger := s.ledger + [Entry(IngredientAccount(i), change)])
  }

  /** A new lot with exactly the given quantity and facts. With no order to serve nothing is recalculated. */
  ghost predicate LotCreated(s: State, s1: State, p: nat, quantity: nat, facts: LotFacts, judged: set<nat>) {
    && facts.id !in s.world.lots
    && var lot := Lot(p, quantity, facts.usableThrough, facts.producedAt, facts.reusable);
       var written := s.(world := s.world.(lots := s.world.lots[facts.id := lot]),
         ledger := s.ledger + [Entry(LotAccount(facts.id), quantity)]);
       if judged == {} then s1 == written else Replanned(s, written, s1, {p}, judged)
  }

  /** The lot loses that much and never more than it has. If what is left still holds what is promised of it,
      nothing is recalculated. */
  ghost predicate LotCut(s: State, s1: State, lot: nat, less: nat, judged: set<nat>) {
    && lot in s.world.lots && s.world.lots[lot].physical >= less
    && var p, left := s.world.lots[lot].productId, s.world.lots[lot].physical - less;
       var written := s.(world := s.world.(lots := s.world.lots[lot := s.world.lots[lot].(physical := left)]),
         ledger := s.ledger + [Entry(LotAccount(lot), 0 - less)]);
       if OnLot(ClosureOf(s, p).rows, lot) <= left then s1 == written else Replanned(s, written, s1, {p}, judged)
  }

  predicate RecipeSet(s: State, s1: State, p: nat, revision: nat) {
    && p in s.world.products && s.world.products[p].Produced? && revision in s.world.revisions
    && s1 == s.(world := s.world.(products := s.world.products[p := s.world.products[p].(current := Some(revision))]))
  }

  // ---- every transaction ----

  ghost predicate Effect(s: State, step: Step, s1: State) {
    match step
    case ConfirmStep(o, locked, _, _) => OrderConfirmed(s, s1, o, locked)
    case EditStep(o, payload, touched, locked, _, _) => OrderEdited(s, s1, o, payload, touched, locked)
    case DraftStep(o, payload) => DraftSaved(s, s1, o, payload)
    case CancelStep(o, locked, _, acknowledged) => OrderCanceled(s, s1, o, locked, acknowledged)
    case ManualStep(o, l, satisfied) => FlagSet(s, s1, o, l, satisfied)
    case CompleteStep(o, locked, _, _) => OrderCompleted(s, s1, o, locked)
    case StartStep(r, run, batches, costsKnown, acknowledged) =>
      exists n :: Startable(s, r, run, n, costsKnown, acknowledged) && Started(s, s1, r, run, n)
        && IsCount(n, batches, ClosureOf(s, r.key.productId).reqs[r].remaining,
             s.world.revisions[r.key.revision.value].perBatch)
    case FinishStep(run, output, overrides, locked, _, facts) =>
      run in s.world.runs && RunFinished(s, s1, run, output, overrides, locked, facts)
    case CancelRunStep(run, locked, _) => RunStopped(s, s1, run, locked)
    case MoveStockStep(p, change, locked) => StockChanged(s, s1, p, change, locked)
    case FirstStockStep(p, quantity) => StockOpened(s, s1, p, quantity)
    case IngredientStep(i, change) => IngredientMoved(s, s1, i, change)
    case CreateLotStep(p, quantity, facts, locked, _) => LotCreated(s, s1, p, quantity, facts, locked)
    case ReduceLotStep(lot, less, locked, _, _) => LotCut(s, s1, lot, less, locked)
    case CurrentStep(p, revision) => RecipeSet(s, s1, p, revision)
  }

  lemma ConfirmIsExact(s: State, o: nat, locked: set<nat>, today: int, acknowledged: set<Fingerprint>)
    requires Confirm(s, o, locked, today, acknowledged).Done?
    ensures OrderConfirmed(s, Confirm(s, o, locked, today, acknowledged).state, o, locked)
  {
    hide Judged, ClosuresKept, RecalculateAll, EvaluateAll, ProductsOfOrder, Candidates, Fingerprints;
    ReplanningIsExact(WithStatus(s, o, Confirmed), ProductsOfOrder(s.world, o), locked, today);
    StatusAlone(s, o, Confirmed, Confirm(s, o, locked, today, acknowledged).state, ProductsOfOrder(s.world, o));
    var l :| l in LinesOfOrder(s.world, o);
  }

  lemma StatusAlone(s: State, o: nat, status: Status, s1: State, products: set<nat>)
    requires o in s.world.orders && ClosuresKept(WithStatus(s, o, status), s1, products)
    ensures ClosuresKept(s, s1, products)
    ensures WithStatus(s, o, status) == WithOrder(s, o, s.world.orders[o].(status := status))
  {
    forall p ensures ClosureOf(WithStatus(s, o, status), p) == ClosureOf(s, p) {}
  }

  lemma CancelIsExact(s: State, o: nat, locked: set<nat>, today: int, acknowledged: bool)
    requires Cancel(s, o, locked, today, acknowledged).Done?
    ensures OrderCanceled(s, Cancel(s, o, locked, today, acknowledged).state, o, locked, acknowledged)
  {
    hide Judged, ClosuresKept, Settle, ProductsOfOrder, Candidates, OrderLocked;
    SettlingIsExact(WithStatus(s, o, Canceled), ProductsOfOrder(s.world, o), locked, today);
    StatusAlone(s, o, Canceled, Cancel(s, o, locked, today, acknowledged).state, ProductsOfOrder(s.world, o));
  }

  lemma ReplacedLines(w: World, o: nat, p: Payload)
    requires o in w.orders && ValidPayload(w, o, p)
    ensures LinesBecome(w, ReplaceLines(w, o, p).lines, o, p.lines)
    ensures ReplaceLines(w, o, p) == w.(
      orders := w.orders[o := Order(w.orders[o].status, p.date, p.time)], lines := ReplaceLines(w, o, p).lines)
  {
    forall l | l in p.lines ensures p.lines[l].orderId == o && (l in w.lines ==> w.lines[l].orderId == o)
      && (p.lines[l].source.CustomItem? && p.lines[l].source.satisfied ==> l in w.lines && p.lines[l] == w.lines[l])
    {
      assert ValidLine(w, o, l, p.lines[l]);
    }
  }

  lemma QuietIs(w: World, o: nat, p: Payload, touched: set<nat>)
    requires o in w.orders && ValidPayload(w, o, p)
    ensures DemandAffecting(w, o, p, touched) <==> !Quiet(w, o, p, touched)
  {
    forall l | l in p.lines ensures l in w.lines ==> w.lines[l].orderId == o { assert ValidLine(w, o, l, p.lines[l]); }
  }

  /** What an edit that committed went through. */
  lemma EditCommitted(
      s: State, o: nat, p: Payload, touched: set<nat>, locked: set<nat>, today: int, acknowledged: set<Fingerprint>)
    requires Edit(s, o, p, touched, locked, today, acknowledged).Done?
    ensures o in s.world.orders && s.world.orders[o].status == Confirmed && ValidPayload(s.world, o, p) && o in locked
    ensures
      var edited := s.(world := ReplaceLines(s.world, o, p));
      var r := RecalculateAll(edited, Ascending(ProductsOfOrder(s.world, o) + NewProducts(p)), today);
      if DemandAffecting(s.world, o, p, touched)
      then r.Done? && Edit(s, o, p, touched, locked, today, acknowledged).state == EvaluateAll(r.state, locked)
      else Edit(s, o, p, touched, locked, today, acknowledged).state == edited
  {
    hide RecalculateAll, EvaluateAll, ProductsOfOrder, Candidates, Fingerprints, TouchesLocked, ReplaceLines,
      ValidPayload, RemovesProduced, LineChanged, NewProducts, DemandAffecting, LinesOfOrder;
  }

  lemma EditIsExact(
      s: State, o: nat, p: Payload, touched: set<nat>, locked: set<nat>, today: int, acknowledged: set<Fingerprint>)
    requires Edit(s, o, p, touched, locked, today, acknowledged).Done?
    ensures OrderEdited(s, Edit(s, o, p, touched, locked, today, acknowledged).state, o, p, touched, locked)
  {
    hide Judged, ClosuresKept, RecalculateAll, EvaluateAll, ProductsOfOrder, ReplaceLines, ValidPayload, LinesBecome,
      NewProducts, Edit, Quiet, DemandAffecting;
    EditCommitted(s, o, p, touched, locked, today, acknowledged);
    var products := ProductsOfOrder(s.world, o) + NewProducts(p);
    var edited := s.(world := ReplaceLines(s.world, o, p));
    var s1 := Edit(s, o, p, touched, locked, today, acknowledged).state;
    ReplacedLines(s.world, o, p);
    QuietIs(s.world, o, p, touched);
    if DemandAffecting(s.world, o, p, touched) {
      ReplanningIsExact(edited, products, locked, today);
      JudgedKeeps(edited, s1, locked);
      SameClosures(s, edited, s1, products);
    }
  }

  lemma DraftIsExact(s: State, o: nat, p: Payload)
    requires SaveDraft(s, o, p).Done?
    ensures DraftSaved(s, SaveDraft(s, o, p).state, o, p)
  {
    hide LinesBecome;
    var w1 := s.world.(orders := s.world.orders[o := Order(Draft, p.date, p.time)]);
    assert ValidPayload(w1, o, p) by { forall l | l in p.lines ensures ValidLine(w1, o, l, p.lines[l]) {
      assert ValidLine(s.world, o, l, p.lines[l]);
    } }
    ReplacedLines(w1, o, p);
    assert w1.orders[o := Order(Draft, p.date, p.time)] == w1.orders;
    SameLinesBecome(s.world, w1, SaveDraft(s, o, p).state.world.lines, o, p.lines);
  }

  lemma SameLinesBecome(w: World, w1: World, lines: map<nat, Line>, o: nat, submitted: map<nat, Line>)
    requires w1.lines == w.lines && LinesBecome(w1, lines, o, submitted)
    ensures LinesBecome(w, lines, o, submitted)
  {
  }

  lemma JudgedAlone(s: State, written: State, judged: set<nat>)
    requires written.closures == s.closures
    ensures Replanned(s, written, EvaluateAll(written, judged), {}, judged)
  {
    hide Judged;
    EvaluationIsExact(written, judged);
    forall p ensures ClosureOf(EvaluateAll(written, judged), p) == ClosureOf(s, p) {}
  }

  lemma FlagIsExact(s: State, o: nat, l: nat, satisfied: bool)
    requires SetManual(s, o, l, satisfied).Done?
    ensures FlagSet(s, SetManual(s, o, l, satisfied).state, o, l, satisfied)
  {
    hide Judged, ClosuresKept, EvaluateAll;
    var line := s.world.lines[l].(source := CustomItem(true, satisfied));
    JudgedAlone(s, s.(world := s.world.(lines := s.world.lines[l := line])), {o});
  }

  lemma RunStopIsExact(s: State, run: nat, locked: set<nat>, today: int)
    requires CancelRun(s, run, locked, today).Done?
    ensures RunStopped(s, CancelRun(s, run, locked, today).state, run, locked)
  {
    hide Judged, ClosuresKept, Settle, Candidates;
    var written, products := RunEnded(s, run, Stopped), {s.world.runs[run].productId};
    SettlingIsExact(written, products, locked, today);
    SameClosures(s, written, CancelRun(s, run, locked, today).state, products);
  }

  lemma CreatedLotIsExact(s: State, p: nat, quantity: nat, facts: LotFacts, locked: set<nat>, today: int)
    requires CreateLot(s, p, quantity, facts, locked, today).Done?
    ensures LotCreated(s, CreateLot(s, p, quantity, facts, locked, today).state, p, quantity, facts, locked)
  {
    hide Judged, ClosuresKept, Settle, Candidates;
    var written := WithLot(s, p, facts, quantity);
    if locked != {} {
      SettlingIsExact(written, {p}, locked, today);
      SameClosures(s, written, CreateLot(s, p, quantity, facts, locked, today).state, {p});
    }
  }

  lemma LotCutIsExact(s: State, lot: nat, less: nat, locked: set<nat>, today: int, acknowledged: bool)
    requires ReduceLot(s, lot, less, locked, today, acknowledged).Done?
    ensures LotCut(s, ReduceLot(s, lot, less, locked, today, acknowledged).state, lot, less, locked)
  {
    hide Judged, ClosuresKept, Recalculate, EvaluateAll, Candidates, PostConditions, Demotes, LosesSurplus, OnLot,
      RunRows, LotReduced;
    var p, written := s.world.lots[lot].productId, LotReduced(s, lot, less);
    LotReducedIs(s, lot, less);
    if OnLot(ClosureOf(s, p).rows, lot) > s.world.lots[lot].physical - less {
      OneOnlyReplans(written, p, today, {lot});
      var mid := Recalculate(written, p, today, {lot}).state;
      EvaluationIsExact(mid, locked);
      JudgedLater(written, mid, EvaluateAll(mid, locked), locked);
      ClosuresKeptLater(written, mid, EvaluateAll(mid, locked), {p});
      SameClosures(s, written, EvaluateAll(mid, locked), {p});
    }
  }

  lemma LotReducedIs(s: State, lot: nat, less: nat)
    requires lot in s.world.lots
    ensures LotReduced(s, lot, less) == s.(
      world := s.world.(lots :=
        s.world.lots[lot := s.world.lots[lot].(physical := s.world.lots[lot].physical - less)]),
      ledger := s.ledger + [Entry(LotAccount(lot), 0 - less)])
  {
  }

  lemma ClosuresKeptLater(s: State, mid: State, s1: State, products: set<nat>)
    requires ClosuresKept(s, mid, products) && s1.closures == mid.closures
    ensures ClosuresKept(s, s1, products)
  {
    forall p ensures ClosureOf(s1, p) == ClosureOf(mid, p) {}
  }

  lemma StartIsExact(s: State, r: ReqId, run: nat, batches: Option<nat>, costsKnown: bool, acknowledged: bool)
    requires Inv(s) && Start(s, r, run, batches, costsKnown, acknowledged).Done?
    ensures Effect(s, StartStep(r, run, batches, costsKnown, acknowledged),
      Start(s, r, run, batches, costsKnown, acknowledged).state)
  {
    hide Inv, PlanFor, Startable, Started, Protected;
    var q := ClosureOf(s, r.key.productId).reqs[r];
    var n := match batches case Some(count) => count
      case None => PlanFor(q.remaining, s.world.revisions, r.key.revision).value.batches;
    RequirementFound(s, r);
    StartPlansItsCount(s, r, run, batches, costsKnown, acknowledged, n);
  }

  lemma StockStepsAreExact(s: State, step: Step)
    requires step.MoveStockStep? || step.FirstStockStep? || step.IngredientStep? || step.CurrentStep?
    requires Attempted(s, step).Done?
    ensures Effect(s, step, Attempted(s, step).state)
  {
    hide Judged, ClosuresKept, EvaluateAll, Candidates;
    match step
    case MoveStockStep(p, change, locked) => JudgedAlone(s, StockMoved(s, p, change), locked);
    case _ =>
  }

  /** Every committed transaction writes what its specification says and nothing else. */
  lemma StepIsExact(s: State, step: Step)
    requires Inv(s) && Attempted(s, step).Done?
    ensures Effect(s, step, Attempted(s, step).state)
  {
    hide Inv, OrderConfirmed, OrderEdited, DraftSaved, OrderCanceled, FlagSet, OrderCompleted, RunFinished, RunStopped,
      LotCreated, LotCut;
    hide Confirm, Edit, SaveDraft, Cancel, SetManual, Complete, Start, Finish, CancelRun, CreateLot, ReduceLot;
    match step
    case ConfirmStep(o, locked, today, warnings) => ConfirmIsExact(s, o, locked, today, warnings);
    case EditStep(o, payload, touched, locked, today, warnings) =>
      EditIsExact(s, o, payload, touched, locked, today, warnings);
    case DraftStep(o, payload) => DraftIsExact(s, o, payload);
    case CancelStep(o, locked, today, acknowledged) => CancelIsExact(s, o, locked, today, acknowledged);
    case ManualStep(o, l, satisfied) => FlagIsExact(s, o, l, satisfied);
    case CompleteStep(o, locked, today, amountsFit) => CompleteIsExact(s, o, locked, today, amountsFit);
    case StartStep(r, run, batches, costsKnown, acknowledged) =>
      StartIsExact(s, r, run, batches, costsKnown, acknowledged);
    case FinishStep(run, output, overrides, locked, today, facts) =>
      FinishStarts(s, run, output, overrides, locked, today, facts);
      FinishIsExact(s, run, output, overrides, locked, today, facts);
    case CancelRunStep(run, locked, today) => RunStopIsExact(s, run, locked, today);
    case CreateLotStep(p, quantity, facts, locked, today) =>
      CreatedLotIsExact(s, p, quantity, facts, locked, today);
    case ReduceLotStep(lot, less, locked, today, acknowledged) =>
      LotCutIsExact(s, lot, less, locked, today, acknowledged);
    case _ => StockStepsAreExact(s, step);
  }

  lemma FinishStarts(
      s: State, run: nat, output: nat, overrides: map<nat, nat>, locked: set<nat>, today: int, facts: LotFacts)
    requires Finish(s, run, output, overrides, locked, today, facts).Done?
    ensures run in s.world.runs
  {
    hide Settle, JustProduced;
  }
}
