/** The planning database as the services change it: one object whose tables are reassigned step by
    step, with rollback on refusal. Every transaction is proved to be the corresponding attempt. */
module OperationalStore {
  import opened Sorting
  import opened Tallies
  import opened PlanningState
  import opened Recalculation
  import opened PlanningInvariant
  import opened PlanningSystem
  import opened WorldChanges
  import opened Lifecycle
  import opened LifecycleTheorems
  import opened SupplyTheorems
  import opened CompletionTheorems
  import opened Rebuilding
  import opened PlanningRuns
  import opened CompletionRefinement
  import Decimals = DecimalArithmetic
  import Planner = CompletionPlan
  import Sharing = ProductionOutput

  /** The outcome of a transaction: committed, or rolled back with a reason. */
  ghost predicate Settled(before: State, attempt: Attempt, after: State, refusal: Option<Reason>) {
    match attempt
    case Done(s) => refusal == None && after == s
    case Refused(r) => refusal == Some(r) && after == before
  }

  /** Part of a transaction: on refusal the caller still has to roll back. */
  ghost predicate Reached(attempt: Attempt, after: State, refusal: Option<Reason>) {
    match attempt
    case Done(s) => refusal == None && after == s
    case Refused(r) => refusal == Some(r)
  }

  method SortedIds(ids: set<nat>) returns (sorted: seq<nat>)
    ensures sorted == Ascending(ids)
  {
    hide Ascending;
    var todo := ids;
    sorted := [];
    assert [] + Ascending(todo) == Ascending(todo);
    while todo != {}
      invariant Ascending(ids) == sorted + Ascending(todo)
      decreases todo
    {
      var x := Planner.Smallest(todo);
      WalkOn(Ascending(ids), sorted, todo, x);
      sorted := sorted + [x];
      todo := todo - {x};
    }
    NothingAscending();
  }

  method SumReserved(rows: set<Reservation>) returns (total: nat)
    ensures total == SumBy(rows, ReservedQuantity)
  {
    total := 0;
    var todo := rows;
    while todo != {}
      invariant total + SumBy(todo, ReservedQuantity) == SumBy(rows, ReservedQuantity)
      decreases todo
    {
      var x :| x in todo;
      SumRemove(todo, ReservedQuantity, x);
      total := total + x.quantity;
      todo := todo - {x};
    }
  }

  method SumClaimed(rows: set<Claim>) returns (total: nat)
    ensures total == SumBy(rows, ClaimQuantity)
  {
    total := 0;
    var todo := rows;
    while todo != {}
      invariant total + SumBy(todo, ClaimQuantity) == SumBy(rows, ClaimQuantity)
      decreases todo
    {
      var x :| x in todo;
      SumRemove(todo, ClaimQuantity, x);
      total := total + x.quantity;
      todo := todo - {x};
    }
  }

  /** What a completed order leaves of stock and lots. */
  ghost predicate LeftBy(s: State, o: nat, leftStock: map<nat, Planner.Stock>, leftLots: map<nat, Planner.Stock>) {
    && leftStock.Keys == s.stock.Keys && leftLots.Keys == s.world.lots.Keys
    && (forall p :: p in s.stock ==> leftStock[p].physical == s.stock[p] - NeededStock(s.world, o, p))
    && (forall l :: l in s.world.lots ==>
          leftLots[l].physical == s.world.lots[l].physical - OnLot(OrderRows(s, o, s.world.lots[l].productId), l))
  }

  /** The tables a completion writes. */
  method CompletionTables(s: State, o: nat, leftStock: map<nat, Planner.Stock>, leftLots: map<nat, Planner.Stock>)
      returns (closures: map<nat, Closure>, stock: map<nat, int>, lots: map<nat, Lot>, entries: seq<Entry>)
    requires LeftBy(s, o, leftStock, leftLots)
    ensures s.(world := s.world.(lots := lots), closures := closures, stock := stock, ledger := s.ledger + entries)
      == Fulfilled(s, o)
  {
    hide OrderRows, OnLot, NeededStock, PurchasedEntries, AllRowEntries, WithoutOrder, Fulfilled, LinesOfOrder,
      ProductsOfOrder;
    var lineIds := SortedIds(LinesOfOrder(s.world, o));
    var productIds := SortedIds(ProductsOfOrder(s.world, o));
    entries := PurchasedEntries(s.world, lineIds) + AllRowEntries(s, o, productIds);
    closures := map p | p in s.closures :: WithoutOrder(s.closures[p], s.world, o);
    stock := map p | p in s.stock :: leftStock[p].physical;
    lots := map l | l in s.world.lots :: s.world.lots[l].(physical := leftLots[l].physical);
    FulfilledFrom(s, o,
      s.(world := s.world.(lots := lots), closures := closures, stock := stock, ledger := s.ledger + entries));
  }

  class Store {
    var products: map<nat, Product>
    var revisions: map<nat, Revision>
    var orders: map<nat, Order>
    var lines: map<nat, Line>
    var lots: map<nat, Lot>
    var outputs: seq<Output>
    var runs: map<nat, Run>
    var closures: map<nat, Closure>
    var stock: map<nat, int>
    var ingredients: map<nat, int>
    var ledger: seq<Entry>
    var generation: nat

    function Tables(): World
      reads this
    {
      World(products, revisions, orders, lines, lots, outputs, runs)
    }

    function Snapshot(): State
      reads this
    {
      State(Tables(), closures, stock, ingredients, ledger, generation)
    }

    ghost predicate Valid()
      reads this
    {
      Inv(Snapshot())
    }

    /** An empty planning database over a catalog. */
    constructor (catalog: map<nat, Product>, recipes: map<nat, Revision>, pantry: set<nat>)
      requires forall v :: v in recipes ==> recipes[v].perBatch > 0
      requires forall p :: p in catalog && catalog[p].Produced? && catalog[p].current.Some? ==>
        catalog[p].current.value in recipes
      ensures Valid() && products == catalog && revisions == recipes && ingredients.Keys == pantry
      ensures orders == map[] && stock == map[] && closures == map[] && ledger == []
    {
      products, revisions := catalog, recipes;
      orders, lines, lots, outputs, runs, closures, stock, ledger, generation :=
        map[], map[], map[], [], map[], map[], map[], [], 0;
      ingredients := map i | i in pantry :: 0;
      new;
      InitialInv(Snapshot());
    }

    method RestoreTables(w: World)
      modifies this`products, this`revisions, this`orders, this`lines, this`lots, this`outputs, this`runs
      ensures Tables() == w
    {
      products := w.products;
      revisions := w.revisions;
      orders := w.orders;
      lines := w.lines;
      lots := w.lots;
      outputs := w.outputs;
      runs := w.runs;
    }

    /** Back to the committed state. */
    method Rollback(s: State)
      modifies this
      ensures Snapshot() == s
    {
      hide Tables;
      closures := s.closures;
      stock := s.stock;
      ingredients := s.ingredients;
      ledger := s.ledger;
      generation := s.generation;
      RestoreTables(s.world);
    }

    // ---- recalculation ----

    /** One reservation per live line of a purchased product. */
    method ReserveLines(p: nat) returns (rows: set<Reservation>)
      ensures rows == Reservations(Tables(), p)
    {
      rows := {};
      var todo := lines.Keys;
      while todo != {}
        invariant todo <= lines.Keys
        invariant rows == set l | l in lines.Keys - todo && LiveLine(Tables(), l, p)
          :: Reservation(l, lines[l].quantity)
        decreases todo
      {
        var l :| l in todo;
        if LiveLine(Tables(), l, p) { rows := rows + {Reservation(l, lines[l].quantity)}; }
        todo := todo - {l};
      }
    }

    method RecalculateProductClosure(p: nat, today: int, impaired: set<nat>) returns (refusal: Option<Reason>)
      requires LinksApart(ClosureOf(Snapshot(), p))
      modifies this`closures, this`generation
      ensures Settled(old(Snapshot()), Recalculate(old(Snapshot()), p, today, impaired), Snapshot(), refusal)
    {
      hide ComputeFor, Replace, Reservations, LinksApart;
      if p !in products { return None; }
      if products[p].Purchased? {
        var rows := ReserveLines(p);
        closures := closures[p := EMPTY.(reservations := rows)];
        return None;
      }
      var c := ClosureOf(Snapshot(), p);
      var result := Rebuild(c, Tables(), p, today, generation, impaired);
      match result
      case Projection(_, _, _, _) =>
        closures := closures[p := Replace(c, Tables(), result)];
        generation := generation + 1;
        refusal := None;
      case DemandConflict => refusal := Some(DemandDateConflict);
      case MissingKey => refusal := Some(KeyError);
      case Overflow => refusal := Some(ValueOverflow);
    }

    /** Products in id order. The first refusal ends it; the caller rolls back. */
    method RecalculateProducts(ids: seq<nat>, today: int) returns (refusal: Option<Reason>)
      requires Increasing(ids) && forall p :: p in ids ==> LinksApart(ClosureOf(Snapshot(), p))
      modifies this`closures, this`generation
      ensures Reached(RecalculateAll(old(Snapshot()), ids, today), Snapshot(), refusal)
    {
      hide Recalculate, LinksApart, ClosureOf;
      ghost var s := Snapshot();
      assert ids[0..] == ids;
      for i := 0 to |ids|
        invariant RecalculateAll(s, ids, today) == RecalculateAll(Snapshot(), ids[i..], today)
        invariant forall k :: i <= k < |ids| ==> LinksApart(ClosureOf(Snapshot(), ids[k]))
      {
        ghost var now := Snapshot();
        assert ids[i..][0] == ids[i] && ids[i..][1..] == ids[i + 1..];
        refusal := RecalculateProductClosure(ids[i], today, {});
        if refusal.Some? { return; }
        forall k | i + 1 <= k < |ids| ensures LinksApart(ClosureOf(Snapshot(), ids[k])) {
          OthersUntouched(now, ids[i], today, ids[k]);
        }
      }
      assert ids[|ids|..] == [];
      refusal := None;
    }

    // ---- readiness ----

    method PurchasedShortageOf(p: nat) returns (short: nat)
      ensures short == PurchasedShortage(Snapshot(), p)
    {
      var reserved := SumReserved(ClosureOf(Snapshot(), p).reservations);
      short := Shortage(reserved, StockOf(Snapshot(), p));
    }

    method LineIsSatisfied(l: nat) returns (b: bool)
      requires l in lines
      ensures b == LineSatisfied(Snapshot(), l)
    {
      match lines[l].source
      case CustomItem(required, satisfied) => return !required || satisfied;
      case OfProduct(p) =>
        if p !in products { return false; }
        if products[p].Produced? {
          return ProducedFor(outputs, l) + OnLine(ClosureOf(Snapshot(), p).rows, l) >= lines[l].quantity;
        }
        var short := PurchasedShortageOf(p);
        return short == 0;
    }

    /** An order without lines is never satisfied. */
    method OrderIsSatisfied(o: nat) returns (b: bool)
      ensures b == Satisfied(Snapshot(), o)
    {
      hide LineSatisfied;
      var todo := LinesOfOrder(Tables(), o);
      if todo == {} { return false; }
      while todo != {}
        invariant todo <= LinesOfOrder(Tables(), o)
        invariant forall l :: l in LinesOfOrder(Tables(), o) - todo ==> LineSatisfied(Snapshot(), l)
        decreases todo
      {
        var l :| l in todo;
        var ok := LineIsSatisfied(l);
        if !ok { return false; }
        todo := todo - {l};
      }
      b := true;
    }

    /** Promotes or demotes one live order; any other is left alone. */
    method EvaluateReadiness(o: nat)
      modifies this`orders
      ensures Snapshot() == EvaluateAll(old(Snapshot()), {o})
    {
      hide Satisfied;
      if Live(Tables(), o) {
        var ok := OrderIsSatisfied(o);
        orders := orders[o := orders[o].(status := if ok then Ready else Confirmed)];
      }
    }

    /** Every locked order, one after the other, in any order. */
    method EvaluateLocked(locked: set<nat>)
      modifies this`orders
      ensures Snapshot() == EvaluateAll(old(Snapshot()), locked)
    {
      hide EvaluateAll;
      ghost var s := Snapshot();
      var todo := locked;
      while todo != {}
        invariant EvaluateAll(Snapshot(), todo) == EvaluateAll(s, locked)
        decreases todo
      {
        var o :| o in todo;
        ghost var now := Snapshot();
        EvaluateReadiness(o);
        EvaluationOrderIsIrrelevant(now, o, todo - {o});
        assert todo - {o} + {o} == todo;
        todo := todo - {o};
      }
      EvaluatingNobody(Snapshot());
    }

    // ---- warnings ----

    method IngredientShortageOf(i: nat) returns (short: nat)
      ensures short == IngredientShortage(Snapshot(), i)
    {
      var reserved := SumClaimed(ClaimsOn(Snapshot(), i));
      short := Shortage(reserved, if i in ingredients then ingredients[i] else 0);
    }

    method ProductWarnings(affected: set<nat>) returns (warnings: set<Fingerprint>)
      ensures warnings == (set p | p in affected && LacksRecipe(Snapshot(), p) :: MissingRecipe(p))
        + (set p | p in affected && PurchasedShortage(Snapshot(), p) > 0
          :: PurchasedShort(p, PurchasedShortage(Snapshot(), p)))
    {
      hide LacksRecipe, PurchasedShortage;
      warnings := {};
      var todo := affected;
      while todo != {}
        invariant todo <= affected
        invariant warnings == (set p | p in affected - todo && LacksRecipe(Snapshot(), p) :: MissingRecipe(p))
          + (set p | p in affected - todo && PurchasedShortage(Snapshot(), p) > 0
            :: PurchasedShort(p, PurchasedShortage(Snapshot(), p)))
        decreases todo
      {
        var p :| p in todo;
        var short := PurchasedShortageOf(p);
        if LacksRecipe(Snapshot(), p) { warnings := warnings + {MissingRecipe(p)}; }
        if short > 0 { warnings := warnings + {PurchasedShort(p, short)}; }
        todo := todo - {p};
      }
    }

    /** Combined over every affected product's new reservations. */
    method IngredientWarnings(affected: set<nat>) returns (warnings: set<Fingerprint>)
      ensures warnings == set i | i in CandidateIngredients(Snapshot(), affected) && i in ingredients
        && IngredientShortage(Snapshot(), i) > 0
        :: IngredientShort(i, IngredientShortage(Snapshot(), i))
    {
      hide IngredientShortage, CandidateIngredients;
      warnings := {};
      var all := CandidateIngredients(Snapshot(), affected);
      var todo := all;
      while todo != {}
        invariant todo <= all
        invariant warnings == set i | i in all - todo && i in ingredients && IngredientShortage(Snapshot(), i) > 0
          :: IngredientShort(i, IngredientShortage(Snapshot(), i))
        decreases todo
      {
        var i :| i in todo;
        var short := IngredientShortageOf(i);
        if i in ingredients && short > 0 { warnings := warnings + {IngredientShort(i, short)}; }
        todo := todo - {i};
      }
    }

    method WarningsFor(affected: set<nat>, missingTime: bool) returns (warnings: set<Fingerprint>)
      ensures warnings == Fingerprints(Snapshot(), affected, missingTime)
    {
      hide LacksRecipe, PurchasedShortage, IngredientShortage, CandidateIngredients;
      var forProducts := ProductWarnings(affected);
      var forIngredients := IngredientWarnings(affected);
      warnings := (if missingTime then {MissingTime} else {}) + forProducts + forIngredients;
    }

    // ---- orders ----

    /** Recalculate the affected products, then evaluate every locked order. */
    method Settle(affected: set<nat>, locked: set<nat>, today: int) returns (refusal: Option<Reason>)
      requires forall p :: LinksApart(ClosureOf(Snapshot(), p))
      modifies this`closures, this`generation, this`orders
      ensures Reached(Lifecycle.Settle(old(Snapshot()), affected, locked, today), Snapshot(), refusal)
    {
      hide RecalculateAll, EvaluateAll, LinksApart, ClosureOf;
      var ids := SortedIds(affected);
      AscendingIs(affected);
      refusal := RecalculateProducts(ids, today);
      if refusal.None? { EvaluateLocked(locked); }
    }

    method ConfirmOrder(
        o: nat, locked: set<nat>, today: int, acknowledged: set<Fingerprint>) returns (refusal: Option<Reason>)
      requires Valid()
      modifies this
      ensures Settled(old(Snapshot()), Confirm(old(Snapshot()), o, locked, today, acknowledged), Snapshot(), refusal)
      ensures Valid()
    {
      hide RecalculateAll, EvaluateAll, LinksApart, ClosureOf, Fingerprints, Inv, Candidates, ProductsOfOrder;
      var saved := Snapshot();
      ConfirmKeepsInv(saved, o, locked, today, acknowledged);
      ClosuresAreLinkedOnce(saved);
      if o !in orders { return Some(NotFound); }
      if orders[o].status != Draft { return Some(WrongStatus); }
      if LinesOfOrder(Tables(), o) == {} || orders[o].date.None? { return Some(NotConfirmable); }
      var affected := ProductsOfOrder(Tables(), o);
      if !(Candidates(Tables(), affected) + {o} <= locked) { return Some(SetGrew); }
      var missingTime := orders[o].time.None?;
      orders := orders[o := orders[o].(status := Confirmed)];
      SameClosures(saved, Snapshot());
      var ids := SortedIds(affected);
      AscendingIs(affected);
      refusal := RecalculateProducts(ids, today);
      if refusal.Some? {
        Rollback(saved);
        return;
      }
      var warnings := WarningsFor(affected, missingTime);
      if !(warnings <= acknowledged) {
        Rollback(saved);
        return Some(Unacknowledged);
      }
      EvaluateLocked(locked);
    }

    /** The lines of every other order. */
    method LinesOfOthers(o: nat) returns (kept: map<nat, Line>)
      ensures kept == map l | l in lines && lines[l].orderId != o :: lines[l]
    {
      kept := lines;
      var todo := lines.Keys;
      while todo != {}
        invariant todo <= lines.Keys && kept.Keys <= lines.Keys
        invariant forall l :: l in lines ==> (l in kept <==> l in todo || lines[l].orderId != o)
        invariant forall l :: l in kept ==> kept[l] == lines[l]
        decreases todo
      {
        var l :| l in todo;
        if lines[l].orderId == o { kept := kept - {l}; }
        todo := todo - {l};
      }
    }

    /** Header and lines are replaced as a whole; lines of other orders stay. */
    method ApplyOrderEdit(o: nat, payload: Payload)
      requires o in orders
      modifies this`orders, this`lines
      ensures Snapshot() == old(Snapshot()).(world := ReplaceLines(old(Tables()), o, payload))
    {
      var kept := LinesOfOthers(o);
      orders := orders[o := orders[o].(date := payload.date, time := payload.time)];
      lines := kept + payload.lines;
    }

    method UpdateConfirmedOrder(
        o: nat, payload: Payload, touched: set<nat>, locked: set<nat>, today: int, acknowledged: set<Fingerprint>)
        returns (refusal: Option<Reason>)
      requires Valid()
      modifies this
      ensures Settled(old(Snapshot()), Edit(old(Snapshot()), o, payload, touched, locked, today, acknowledged),
        Snapshot(), refusal)
      ensures Valid()
    {
      hide RecalculateAll, EvaluateAll, LinksApart, ClosureOf, Fingerprints, Inv, Candidates, ProductsOfOrder,
        ValidPayload, LineChanged, TouchesLocked, RemovesProduced, DemandAffecting, ReplaceLines, NewProducts,
        LinesOfOrder;
      var saved := Snapshot();
      EditKeepsInv(saved, o, payload, touched, locked, today, acknowledged);
      ClosuresAreLinkedOnce(saved);
      if o !in orders { return Some(NotFound); }
      if orders[o].status != Confirmed { return Some(WrongStatus); }
      if payload.lines == map[] || payload.date.None? { return Some(NotConfirmable); }
      var unreported := exists l :: l in payload.lines && LineChanged(Tables(), payload, l) && l !in touched;
      UnreportedIs(Tables(), payload, touched);
      if !ValidPayload(Tables(), o, payload) || unreported
        || !(touched <= LinesOfOrder(Tables(), o) * payload.lines.Keys) {
        return Some(Invalid);
      }
      if TouchesLocked(saved, o, payload, touched) { return Some(ProductionLocked); }
      if RemovesProduced(Tables(), o, payload) { return Some(Invalid); }
      var affecting := DemandAffecting(Tables(), o, payload, touched);
      var affected := ProductsOfOrder(Tables(), o) + NewProducts(payload);
      if !affecting {
        if o !in locked { return Some(SetGrew); }
        ApplyOrderEdit(o, payload);
        return None;
      }
      if !(Candidates(Tables(), affected) + {o} <= locked) { return Some(SetGrew); }
      ApplyOrderEdit(o, payload);
      SameClosures(saved, Snapshot());
      var ids := SortedIds(affected);
      AscendingIs(affected);
      refusal := RecalculateProducts(ids, today);
      if refusal.Some? {
        Rollback(saved);
        return;
      }
      var warnings := WarningsFor(affected, payload.time.None?);
      if !(warnings <= acknowledged) {
        Rollback(saved);
        return Some(Unacknowledged);
      }
      EvaluateLocked(locked);
    }

    method SaveDraftOrder(o: nat, payload: Payload) returns (refusal: Option<Reason>)
      requires Valid()
      modifies this
      ensures Settled(old(Snapshot()), SaveDraft(old(Snapshot()), o, payload), Snapshot(), refusal)
      ensures Valid()
    {
      hide ValidPayload, RemovesProduced, LinesOfOrder, ReplaceLines, Inv;
      var saved := Snapshot();
      if SaveDraft(saved, o, payload).Done? { SaveDraftKeepsInv(saved, o, payload); }
      if o in orders && orders[o].status != Draft { return Some(WrongStatus); }
      if !ValidPayload(Tables(), o, payload) || RemovesProduced(Tables(), o, payload)
         || (o !in orders && LinesOfOrder(Tables(), o) != {})
      {
        return Some(Invalid);
      }
      orders := orders[o := Order(Draft, payload.date, payload.time)];
      ApplyOrderEdit(o, payload);
      refusal := None;
    }

    method CancelOrder(o: nat, locked: set<nat>, today: int, acknowledged: bool) returns (refusal: Option<Reason>)
      requires Valid()
      modifies this
      ensures Settled(old(Snapshot()), Cancel(old(Snapshot()), o, locked, today, acknowledged), Snapshot(), refusal)
      ensures Valid()
    {
      hide Lifecycle.Settle, LinksApart, ClosureOf, Inv, Candidates, ProductsOfOrder, OrderLocked, LinesOfOrder;
      var saved := Snapshot();
      CancelKeepsInv(saved, o, locked, today, acknowledged);
      ClosuresAreLinkedOnce(saved);
      if o !in orders { return Some(NotFound); }
      if !Live(Tables(), o) { return Some(WrongStatus); }
      if OrderLocked(saved, o) { return Some(ProductionLocked); }
      var received := exists x :: x in outputs && x.lineId in LinesOfOrder(Tables(), o);
      if received && !acknowledged { return Some(Unacknowledged); }
      var affected := ProductsOfOrder(Tables(), o);
      if !(Candidates(Tables(), affected) + {o} <= locked) { return Some(SetGrew); }
      orders := orders[o := orders[o].(status := Canceled)];
      SameClosures(saved, Snapshot());
      refusal := Settle(affected, locked, today);
      if refusal.Some? { Rollback(saved); }
    }

    method SetManualFulfillment(o: nat, l: nat, satisfied: bool) returns (refusal: Option<Reason>)
      requires Valid()
      modifies this
      ensures Settled(old(Snapshot()), SetManual(old(Snapshot()), o, l, satisfied), Snapshot(), refusal)
      ensures Valid()
    {
      hide EvaluateAll, Inv, LinesOfOrder;
      var saved := Snapshot();
      if SetManual(saved, o, l, satisfied).Done? { SetManualKeepsInv(saved, o, l, satisfied); }
      if o !in orders { return Some(NotFound); }
      if !Live(Tables(), o) { return Some(WrongStatus); }
      if l !in LinesOfOrder(Tables(), o) { return Some(NotFound); }
      LineOfOrderExists(Tables(), o, l);
      if !lines[l].source.CustomItem? || !lines[l].source.required { return Some(Invalid); }
      lines := lines[l := lines[l].(source := CustomItem(true, satisfied))];
      EvaluateReadiness(o);
      refusal := None;
    }

    // ---- production runs ----

    method StartProduction(r: ReqId, run: nat, batches: Option<nat>, costsKnown: bool, acknowledged: bool)
        returns (refusal: Option<Reason>)
      requires Valid()
      modifies this
      ensures Settled(old(Snapshot()), Start(old(Snapshot()), r, run, batches, costsKnown, acknowledged), Snapshot(),
        refusal)
      ensures Valid()
    {
      hide Inv, PlanFor, ClosureOf, Protected;
      var saved := Snapshot();
      if Start(saved, r, run, batches, costsKnown, acknowledged).Done? {
        StartKeepsInv(saved, r, run, batches, costsKnown, acknowledged);
      }
      var c := ClosureOf(saved, r.key.productId);
      if r !in c.reqs { return Some(NotFound); }
      if c.reqs[r].plan.None? || r.key.revision.None? || r.key.revision.value !in revisions { return Some(Invalid); }
      if r in Protected(Tables()) { return Some(AlreadyStarted); }
      if run in runs || !costsKnown { return Some(Invalid); }
      var revision := revisions[r.key.revision.value];
      var plan := PlanFor(c.reqs[r].remaining, revisions, r.key.revision);
      var chosen := if batches.Some? then batches.value else if plan.Some? then plan.value.batches else 0;
      if chosen >= INT32_LIMIT { return Some(ValueOverflow); }
      if chosen == 0 { return Some(Invalid); }
      if revision.perBatch * chosen < c.reqs[r].remaining && !acknowledged { return Some(Unacknowledged); }
      var planned := PlanIngredients(revision.ingredients, chosen);
      if !RunFits(revision.perBatch * chosen, planned) { return Some(ValueOverflow); }
      runs := runs[run := Run(r, r.key.productId, r.key.revision.value, InProduction, planned)];
      refusal := None;
      assert Start(saved, r, run, batches, costsKnown, acknowledged).Done?;
      assert Start(saved, r, run, batches, costsKnown, acknowledged).state.world.runs[run].planned == planned;
    }

    /** What the run is expected to use of each ingredient. */
    method PlanIngredients(perBatch: map<nat, nat>, batches: nat) returns (planned: map<nat, nat>)
      ensures planned == map i | i in perBatch :: perBatch[i] * batches
    {
      planned := map[];
      var todo := perBatch.Keys;
      while todo != {}
        invariant todo <= perBatch.Keys
        invariant planned == map i | i in perBatch.Keys - todo :: perBatch[i] * batches
        decreases todo
      {
        var i :| i in todo;
        planned := planned[i := perBatch[i] * batches];
        todo := todo - {i};
      }
    }

    method CancelProductionRun(run: nat, locked: set<nat>, today: int) returns (refusal: Option<Reason>)
      requires Valid()
      modifies this
      ensures Settled(old(Snapshot()), CancelRun(old(Snapshot()), run, locked, today), Snapshot(), refusal)
      ensures Valid()
    {
      hide Lifecycle.Settle, LinksApart, ClosureOf, Inv, Candidates;
      var saved := Snapshot();
      CancelRunKeepsInv(saved, run, locked, today);
      ClosuresAreLinkedOnce(saved);
      if run !in runs { return Some(NotFound); }
      if runs[run].status != InProduction { return Some(WrongStatus); }
      var p := runs[run].productId;
      if !(Candidates(Tables(), {p}) <= locked) { return Some(SetGrew); }
      runs := runs[run := runs[run].(status := Stopped)];
      SameClosures(saved, Snapshot());
      refusal := Settle({p}, locked, today);
      if refusal.Some? { Rollback(saved); }
    }

    /** Planned or actual usage leaves stock and enters the ledger, ingredient by ingredient. */
    method ConsumeIngredients(run: nat, overrides: map<nat, nat>)
      requires run in runs && runs[run].planned.Keys <= ingredients.Keys
      modifies this`ingredients, this`ledger
      ensures Snapshot() == Consumed(old(Snapshot()), run, overrides)
    {
      hide Ascending, UsageEntries, Usage;
      var planned := runs[run].planned;
      var todo := planned.Keys;
      ghost var ids, done := Ascending(todo), [];
      ghost var was, entries := ingredients, ledger;
      NoUsage(planned, overrides, entries);
      assert [] + ids == ids;
      while todo != {}
        invariant todo <= planned.Keys && ids == done + Ascending(todo) && ingredients.Keys == was.Keys
        invariant forall k :: k in was ==>
          ingredients[k] == was[k] - (if k in planned && k !in todo then Usage(planned, overrides, k) else 0)
        invariant ledger == entries + UsageEntries(planned, overrides, done)
        decreases todo
      {
        var k := Planner.Smallest(todo);
        WalkOn(ids, done, todo, k);
        var used: int := Usage(planned, overrides, k);
        ingredients := ingredients[k := ingredients[k] - used];
        UsedNext(planned, overrides, done, k);
        ledger := ledger + [Entry(IngredientAccount(k), 0 - used)];
        done := done + [k];
        todo := todo - {k};
      }
      NothingAscending();
      assert done == ids;
    }

    method GatherOutstanding(p: nat, locked: set<nat>) returns (demand: seq<Sharing.DemandLine>)
      ensures demand == Outstanding(Snapshot(), p, locked)
    {
      hide Ascending, OutstandingLine, Outstanding;
      var ids := SortedIds(RecipientLines(Tables(), p, locked));
      AscendingIs(RecipientLines(Tables(), p, locked));
      demand := [];
      for i := 0 to |ids|
        invariant |demand| == i
        invariant forall k :: 0 <= k < i ==>
          ids[k] in lines && lines[ids[k]].orderId in orders && demand[k] == OutstandingLine(Snapshot(), p, ids[k])
      {
        assert ids[i] in RecipientLines(Tables(), p, locked);
        demand := demand + [OutstandingLine(Snapshot(), p, ids[i])];
      }
      OutstandingInOrder(Snapshot(), p, locked, demand);
    }

    method RecordOutputs(run: nat, shares: seq<Sharing.Share>)
      modifies this`outputs
      ensures outputs == old(outputs) + Outputs(run, shares)
    {
      ghost var was := outputs;
      assert was + [] == was;
      for i := 0 to |shares|
        invariant outputs == was + Outputs(run, shares[..i])
      {
        assert shares[..i + 1][..i] == shares[..i];
        var x := shares[i];
        outputs := outputs + [Output(run, x.lineId, if x.quantity > 0 then x.quantity else 0)];
      }
      assert shares[..|shares|] == shares;
    }

    method AddLot(p: nat, facts: LotFacts, quantity: nat)
      modifies this`lots, this`ledger
      ensures Snapshot() == WithLot(old(Snapshot()), p, facts, quantity)
    {
      lots := lots[facts.id := Lot(p, quantity, facts.usableThrough, facts.producedAt, facts.reusable)];
      ledger := ledger + [Entry(LotAccount(facts.id), quantity)];
    }

    /** Everything Finish writes before it recalculates. */
    method FinishRun(run: nat, output: nat, overrides: map<nat, nat>, locked: set<nat>, facts: LotFacts)
      requires run in runs && runs[run].planned.Keys <= ingredients.Keys
      modifies this
      ensures Snapshot() == JustProduced(old(Snapshot()), run, output, overrides, locked, facts)
    {
      hide Consumed, Outstanding, Sharing.InOrder, Sharing.Shares, Sharing.Excess, Outputs, WithLot;
      ghost var s := Snapshot();
      var p := runs[run].productId;
      ConsumeIngredients(run, overrides);
      ConsumedWorld(s, run, overrides);
      runs := runs[run := runs[run].(status := Finished)];
      if output > 0 {
        var demand := GatherOutstanding(p, locked);
        SameOutstanding(s, Snapshot(), p, locked);
        var shares, excess := Sharing.AllocateProductionOutput(demand, output, p);
        RecordOutputs(run, shares);
        if excess > 0 { AddLot(p, facts, excess); }
      }
    }

    method FinishProduction(
        run: nat, output: nat, overrides: map<nat, nat>, locked: set<nat>, today: int, facts: LotFacts)
        returns (refusal: Option<Reason>)
      requires Valid()
      modifies this
      ensures Settled(old(Snapshot()), Finish(old(Snapshot()), run, output, overrides, locked, today, facts),
        Snapshot(), refusal)
      ensures Valid()
    {
      hide Lifecycle.Settle, LinksApart, ClosureOf, Inv, Candidates, JustProduced;
      var saved := Snapshot();
      FinishKeepsInv(saved, run, output, overrides, locked, today, facts);
      ClosuresAreLinkedOnce(saved);
      if run !in runs { return Some(NotFound); }
      if runs[run].status != InProduction { return Some(WrongStatus); }
      if output >= Decimals.NUMERIC_18_6_LIMIT { return Some(ValueOverflow); }
      var p := runs[run].productId;
      if !(Candidates(Tables(), {p}) <= locked) { return Some(SetGrew); }
      if !(overrides.Keys <= runs[run].planned.Keys) || !(runs[run].planned.Keys <= ingredients.Keys)
        || facts.id in lots {
        return Some(Invalid);
      }
      if !UsageFits(saved, runs[run].planned, overrides) { return Some(ValueOverflow); }
      FinishRun(run, output, overrides, locked, facts);
      FinishedWorld(saved, run, output, overrides, locked, facts);
      SameClosures(saved, Snapshot());
      refusal := Settle({p}, locked, today);
      if refusal.Some? { Rollback(saved); }
    }

    // ---- completion ----

    method ReservationsCoverOrder(o: nat) returns (ok: bool)
      ensures ok == ReservationsMatch(Snapshot(), o)
    {
      hide SumBy, ClosureOf;
      var all := set l | l in LinesOfOrder(Tables(), o) && PurchasedLine(Tables(), l);
      var todo := all;
      while todo != {}
        invariant todo <= all
        invariant forall l :: l in all - todo ==>
          SumBy((set r | r in ClosureOf(Snapshot(), lines[l].source.productId).reservations && r.lineId == l),
            ReservedQuantity)
            == lines[l].quantity
        decreases todo
      {
        var l :| l in todo;
        var mine := set r | r in ClosureOf(Snapshot(), lines[l].source.productId).reservations && r.lineId == l;
        var reserved := SumReserved(mine);
        if reserved != lines[l].quantity { return false; }
        todo := todo - {l};
      }
      ok := true;
    }

    /** What the plan leaves of every stock row and every lot. */
    method DeductPlan(
        o: nat, plan: Planner.Plan, costs: map<nat, nat>, lotCosts: map<nat, nat>,
        ghost snapshots: seq<Planner.Snapshot>)
        returns (leftStock: map<nat, Planner.Stock>, leftLots: map<nat, Planner.Stock>)
      requires AllClean(Snapshot()) && o in orders
      requires Planner.Exactly(plan, LineFacts(Snapshot(), o), StockFacts(Snapshot(), costs),
        SurplusFacts(Snapshot(), o),
        LotStock(Snapshot(), lotCosts), snapshots)
      requires Planner.Covered(LineFacts(Snapshot(), o), StockFacts(Snapshot(), costs))
      requires Planner.Covered(SurplusFacts(Snapshot(), o), LotStock(Snapshot(), lotCosts))
      ensures LeftBy(Snapshot(), o, leftStock, leftLots)
    {
      hide AllClean, LineFacts, SurplusFacts, Planner.Rows, Planner.Packaging, Planner.Custom, OrderRows, OnLot,
        NeededStock, Planner.Covered, Planner.Taken, Planner.Sources, LinesOfOrder, ProductsOfOrder;
      ghost var s := Snapshot();
      FactsArePositive(s, o);
      leftStock := Planner.Deduct(StockFacts(Snapshot(), costs), plan.deduction, LineFacts(s, o));
      leftLots := Planner.Deduct(LotStock(Snapshot(), lotCosts), plan.consumption, SurplusFacts(s, o));
      DeductedStock(s, o, costs, lotCosts, leftStock, leftLots);
    }

    /** Stock and lots reduced, one ledger entry per line and row, the order's surplus rows gone. */
    method WriteCompletion(o: nat, leftStock: map<nat, Planner.Stock>, leftLots: map<nat, Planner.Stock>)
      requires LeftBy(Snapshot(), o, leftStock, leftLots)
      modifies this`stock, this`lots, this`ledger, this`closures
      ensures Snapshot() == Fulfilled(old(Snapshot()), o)
    {
      hide LeftBy, Fulfilled;
      var s := Snapshot();
      var rowsLeft, stockLeft, lotsLeft, entries := CompletionTables(s, o, leftStock, leftLots);
      closures := rowsLeft;
      stock := stockLeft;
      lots := lotsLeft;
      ledger := ledger + entries;
    }

    /** The completion plan, or why there is none. */
    method PlanCompletion(o: nat, costs: map<nat, nat>, lotCosts: map<nat, nat>, snapshots: seq<Planner.Snapshot>)
        returns (plan: Option<Planner.Plan>, reason: Reason)
      requires AllClean(Snapshot()) && o in orders
      ensures plan.Some? ==> Sufficient(Snapshot(), o) && AmountsFit(Snapshot(), o, costs, lotCosts)
      ensures plan.Some? ==> Planner.Covered(LineFacts(Snapshot(), o), StockFacts(Snapshot(), costs))
      ensures plan.Some? ==> Planner.Covered(SurplusFacts(Snapshot(), o), LotStock(Snapshot(), lotCosts))
      ensures plan.Some? ==>
        Planner.Exactly(plan.value, LineFacts(Snapshot(), o), StockFacts(Snapshot(), costs),
          SurplusFacts(Snapshot(), o),
          LotStock(Snapshot(), lotCosts), snapshots)
      ensures plan.None? && !Sufficient(Snapshot(), o) ==> reason == StockFailure
      ensures plan.None? && Sufficient(Snapshot(), o) ==>
        reason == ValueOverflow && !AmountsFit(Snapshot(), o, costs, lotCosts)
    {
      hide AllClean, Sufficient, Planner.Covered, Planner.Exactly, LineFacts, SurplusFacts, StockFacts, LotStock;
      var s := Snapshot();
      var facts := GatherLineFacts(o);
      var rowFacts := GatherSurplusFacts(o);
      FactsArePositive(s, o);
      PlannerChecksWhatTheStepChecks(s, o, costs, lotCosts);
      var failures;
      plan, failures :=
        Planner.BuildCompletionPlan(facts, StockFacts(s, costs), rowFacts, LotStock(s, lotCosts), snapshots);
      ShortOrUnfit(failures, facts, StockFacts(s, costs), rowFacts, LotStock(s, lotCosts), plan.None?);
      var short := exists i :: 0 <= i < |failures| && failures[i].Short?;
      reason := if short then StockFailure else ValueOverflow;
    }

    method CompleteOrder(
        o: nat, locked: set<nat>, today: int, costs: map<nat, nat>, lotCosts: map<nat, nat>,
        snapshots: seq<Planner.Snapshot>)
        returns (refusal: Option<Reason>)
      requires Valid()
      modifies this
      ensures Settled(old(Snapshot()),
        Complete(old(Snapshot()), o, locked, today, AmountsFit(old(Snapshot()), o, costs, lotCosts)),
        Snapshot(), refusal)
      ensures Valid()
    {
      hide Lifecycle.Settle, LinksApart, ClosureOf, Inv, Candidates, OrderLocked, Satisfied, ReservationsMatch,
        Sufficient, JustCompleted, ProductsOfOrder, LinesOfOrder, PostConditions, AmountsFit, Planner.Covered,
        Planner.Exactly, LineFacts, SurplusFacts, StockFacts, LotStock, AllClean, Fulfilled, LeftBy;
      var saved := Snapshot();
      CompleteKeepsInv(saved, o, locked, today, AmountsFit(saved, o, costs, lotCosts));
      ClosuresAreLinkedOnce(saved);
      InvIsClean(saved);
      if o !in orders { return Some(NotFound); }
      if orders[o].status != Ready { return Some(WrongStatus); }
      if OrderLocked(saved, o) { return Some(ProductionLocked); }
      var affected := ProductsOfOrder(Tables(), o);
      if !(Candidates(Tables(), affected) + {o} <= locked) { return Some(SetGrew); }
      var satisfied := OrderIsSatisfied(o);
      var matched := ReservationsCoverOrder(o);
      if !satisfied || !matched { return Some(CoverageLost); }
      var plan, reason := PlanCompletion(o, costs, lotCosts, snapshots);
      if plan.None? { return Some(reason); }
      var leftStock, leftLots := DeductPlan(o, plan.value, costs, lotCosts, snapshots);
      WriteCompletion(o, leftStock, leftLots);
      FulfilledOrders(saved, o);
      orders := orders[o := orders[o].(status := Completed)];
      CompletedIs(saved, Snapshot(), o);
      CompletedLinks(saved, o);
      refusal := Settle(affected, locked - {o}, today);
      if refusal.Some? {
        Rollback(saved);
        return;
      }
      var ok := StateIsSound(affected);
      if !ok { assert false; }
    }

    method GatherLineFacts(o: nat) returns (facts: seq<Planner.Withdrawal>)
      ensures facts == LineFacts(Snapshot(), o)
    {
      var ids := SortedIds(LinesOfOrder(Tables(), o));
      facts := PurchasedFacts(Tables(), ids);
    }

    method GatherSurplusFacts(o: nat) returns (facts: seq<Planner.Withdrawal>)
      ensures facts == SurplusFacts(Snapshot(), o)
    {
      var ids := SortedIds(ProductsOfOrder(Tables(), o));
      facts := AllRowFacts(Snapshot(), o, ids);
    }

    /** The checks a completion makes before it commits. */
    method StateIsSound(affected: set<nat>) returns (ok: bool)
      ensures ok == PostConditions(Snapshot(), affected)
    {
      ok := (forall p :: p in affected && p in stock ==> stock[p] >= 0)
        && (forall lot :: lot in lots && lots[lot].productId in affected ==>
              OnLot(ClosureOf(Snapshot(), lots[lot].productId).rows, lot) <= lots[lot].physical);
    }

    // ---- stock ----

    /** Restock or adjustment of stocked purchased inventory; readiness of every locked order follows. */
    method MovePurchasedStock(p: nat, change: int, locked: set<nat>) returns (refusal: Option<Reason>)
      requires Valid()
      modifies this
      ensures Settled(old(Snapshot()), MoveStock(old(Snapshot()), p, change, locked), Snapshot(), refusal)
      ensures Valid()
    {
      hide EvaluateAll, Inv, Candidates;
      var saved := Snapshot();
      if MoveStock(saved, p, change, locked).Done? { MoveStockKeepsInv(saved, p, change, locked); }
      if p !in products || !products[p].Purchased? || p !in stock { return Some(NotFound); }
      if !(Candidates(Tables(), {p}) <= locked) { return Some(SetGrew); }
      if stock[p] + change < 0 { return Some(StockFailure); }
      if stock[p] + change >= Decimals.NUMERIC_18_6_LIMIT { return Some(ValueOverflow); }
      stock := stock[p := stock[p] + change];
      ledger := ledger + [Entry(PurchasedAccount(p), change)];
      EvaluateLocked(locked);
      refusal := None;
    }

    /** The first stock of a product: no order is locked and none is evaluated. */
    method CreatePurchasedStock(p: nat, quantity: nat) returns (refusal: Option<Reason>)
      requires Valid()
      modifies this
      ensures Settled(old(Snapshot()), FirstStock(old(Snapshot()), p, quantity), Snapshot(), refusal)
      ensures Valid()
    {
      hide Inv;
      var saved := Snapshot();
      if FirstStock(saved, p, quantity).Done? { FirstStockKeepsInv(saved, p, quantity); }
      if p !in products || !products[p].Purchased? { return Some(NotFound); }
      if p in stock { return Some(Invalid); }
      stock := stock[p := quantity];
      ledger := ledger + [Entry(PurchasedAccount(p), quantity)];
      refusal := None;
    }

    method MoveIngredientStock(i: nat, change: int) returns (refusal: Option<Reason>)
      requires Valid()
      modifies this
      ensures Settled(old(Snapshot()), MoveIngredient(old(Snapshot()), i, change), Snapshot(), refusal)
      ensures Valid()
    {
      hide Inv;
      var saved := Snapshot();
      if MoveIngredient(saved, i, change).Done? { MoveIngredientKeepsInv(saved, i, change); }
      if i !in ingredients { return Some(NotFound); }
      if !(0 - Decimals.NUMERIC_18_6_LIMIT < ingredients[i] + change < Decimals.NUMERIC_18_6_LIMIT) {
        return Some(ValueOverflow);
      }
      ingredients := ingredients[i := ingredients[i] + change];
      ledger := ledger + [Entry(IngredientAccount(i), change)];
      refusal := None;
    }

    // ---- surplus lots by hand ----

    method CreateSurplus(
        p: nat, quantity: nat, facts: LotFacts, locked: set<nat>, today: int) returns (refusal: Option<Reason>)
      requires Valid()
      modifies this
      ensures Settled(old(Snapshot()), CreateLot(old(Snapshot()), p, quantity, facts, locked, today), Snapshot(),
        refusal)
      ensures Valid()
    {
      hide Lifecycle.Settle, LinksApart, ClosureOf, Inv, Candidates, WithLot;
      var saved := Snapshot();
      CreateLotKeepsInv(saved, p, quantity, facts, locked, today);
      ClosuresAreLinkedOnce(saved);
      if p !in products || !products[p].Produced? || facts.id in lots { return Some(Invalid); }
      if !(Candidates(Tables(), {p}) <= locked) { return Some(SetGrew); }
      if quantity >= Decimals.NUMERIC_18_6_LIMIT { return Some(ValueOverflow); }
      AddLot(p, facts, quantity);
      if locked == {} { return None; }
      LotShape(saved, p, facts, quantity);
      SameClosures(saved, Snapshot());
      refusal := Settle({p}, locked, today);
      if refusal.Some? { Rollback(saved); }
    }

    /** Below what is promised on the lot, only this lot's promises are reopened. */
    method ReduceSurplus(
        lot: nat, less: nat, locked: set<nat>, today: int, acknowledged: bool) returns (refusal: Option<Reason>)
      requires Valid()
      modifies this
      ensures Settled(old(Snapshot()), ReduceLot(old(Snapshot()), lot, less, locked, today, acknowledged), Snapshot(),
        refusal)
      ensures Valid()
    {
      hide Recalculate, LinksApart, ClosureOf, Inv, Candidates, EvaluateAll, PostConditions, OnLot, RunRows, Demotes,
        LosesSurplus;
      var saved := Snapshot();
      ReduceLotKeepsInv(saved, lot, less, locked, today, acknowledged);
      ClosuresAreLinkedOnce(saved);
      if lot !in lots { return Some(NotFound); }
      var p, left := lots[lot].productId, lots[lot].physical - less;
      if left < 0 { return Some(StockFailure); }
      if !(Candidates(Tables(), {p}) <= locked) { return Some(SetGrew); }
      var c := ClosureOf(saved, p);
      if left < OnLot(RunRows(c, Tables()), lot) { return Some(ProductionLocked); }
      var promised := OnLot(c.rows, lot);
      lots := lots[lot := lots[lot].(physical := left)];
      ledger := ledger + [Entry(LotAccount(lot), 0 - less)];
      if promised <= left { return None; }
      SameClosures(saved, Snapshot());
      refusal := RecalculateProductClosure(p, today, {lot});
      if refusal.Some? {
        Rollback(saved);
        return;
      }
      PostConditionsReadNoStatus(Snapshot(), locked, {p});
      EvaluateLocked(locked);
      if (Demotes(saved.world, Tables(), locked) || LosesSurplus(saved, Snapshot(), p, locked)) && !acknowledged {
        Rollback(saved);
        return Some(Unacknowledged);
      }
      var ok := StateIsSound({p});
      if !ok { assert false; }
    }

    method SetCurrentRevision(p: nat, revision: nat) returns (refusal: Option<Reason>)
      requires Valid()
      modifies this
      ensures Settled(old(Snapshot()), SetCurrent(old(Snapshot()), p, revision), Snapshot(), refusal)
      ensures Valid()
    {
      hide Inv;
      var saved := Snapshot();
      if SetCurrent(saved, p, revision).Done? { SetCurrentKeepsInv(saved, p, revision); }
      if p !in products || !products[p].Produced? || revision !in revisions { return Some(Invalid); }
      products := products[p := products[p].(current := Some(revision))];
      refusal := None;
    }
  }

  lemma OthersUntouched(s: State, p: nat, today: int, q: nat)
    requires q != p && Recalculate(s, p, today, {}).Done?
    ensures ClosureOf(Recalculate(s, p, today, {}).state, q) == ClosureOf(s, q)
  {
  }

  lemma EvaluatingNobody(s: State)
    ensures EvaluateAll(s, {}) == s
  {
    assert EvaluateAll(s, {}).world.orders == s.world.orders;
  }

  lemma ClosuresAreLinkedOnce(s: State)
    requires Inv(s)
    ensures forall p :: LinksApart(ClosureOf(s, p))
  {
    hide RowOk, RunOk, ProperLink, LotCaps, LineCaps, Meets, ClaimsMeet, WorldOk, ReadySatisfied, StockOk;
    forall p ensures LinksApart(ClosureOf(s, p)) { assert ProductClean(s, p); }
  }

  lemma SameClosures(s: State, s1: State)
    requires s1.closures == s.closures && forall p :: LinksApart(ClosureOf(s, p))
    ensures forall p :: LinksApart(ClosureOf(s1, p))
  {
    forall p ensures ClosureOf(s1, p) == ClosureOf(s, p) {}
  }

  lemma UnreportedIs(w: World, p: Payload, touched: set<nat>)
    ensures (exists l :: LineChanged(w, p, l) && l !in touched) <==>
      (exists l :: l in p.lines && LineChanged(w, p, l) && l !in touched)
  {
  }

  lemma LineOfOrderExists(w: World, o: nat, l: nat)
    requires l in LinesOfOrder(w, o)
    ensures l in w.lines
  {
  }

  lemma UsedNext(planned: map<nat, nat>, overrides: map<nat, nat>, done: seq<nat>, k: nat)
    requires k in planned
    ensures UsageEntries(planned, overrides, done + [k])
      == UsageEntries(planned, overrides, done) + [Entry(IngredientAccount(k), 0 - Usage(planned, overrides, k))]
  {
    assert (done + [k])[..|done|] == done;
  }

  lemma NoUsage(planned: map<nat, nat>, overrides: map<nat, nat>, entries: seq<Entry>)
    ensures entries + UsageEntries(planned, overrides, []) == entries
  {
  }

  lemma ConsumedWorld(s: State, run: nat, overrides: map<nat, nat>)
    requires run in s.world.runs
    ensures Consumed(s, run, overrides).world == s.world && Consumed(s, run, overrides).closures == s.closures
  {
  }

  lemma OutstandingInOrder(s: State, p: nat, locked: set<nat>, demand: seq<Sharing.DemandLine>)
    requires
      var ids := Ascending(RecipientLines(s.world, p, locked));
      |demand| == |ids| && forall k :: 0 <= k < |ids| ==>
        ids[k] in s.world.lines && s.world.lines[ids[k]].orderId in s.world.orders
          && demand[k] == OutstandingLine(s, p, ids[k])
    ensures demand == Outstanding(s, p, locked)
  {
  }

  /** Consuming ingredients and ending the run changes nobody's outstanding need. */
  lemma SameOutstanding(s: State, s1: State, p: nat, locked: set<nat>)
    requires s1.world == s.world.(runs := s1.world.runs) && s1.closures == s.closures
    ensures Outstanding(s1, p, locked) == Outstanding(s, p, locked)
  {
    assert RecipientLines(s1.world, p, locked) == RecipientLines(s.world, p, locked);
    AscendingIs(RecipientLines(s.world, p, locked));
    var ids := Ascending(RecipientLines(s.world, p, locked));
    forall k | 0 <= k < |ids| ensures Outstanding(s1, p, locked)[k] == Outstanding(s, p, locked)[k] {
      assert ids[k] in RecipientLines(s.world, p, locked);
      assert ClosureOf(s1, p) == ClosureOf(s, p);
    }
  }

  /** Every cost of the completion can be stored. */
  ghost predicate AmountsFit(s: State, o: nat, costs: map<nat, nat>, lotCosts: map<nat, nat>) {
    Planner.AllFit(LineFacts(s, o), StockFacts(s, costs), true)
      && Planner.AllFit(SurplusFacts(s, o), LotStock(s, lotCosts), false)
  }

  lemma {:induction false} PurchasedFactsPositive(w: World, ids: seq<nat>)
    requires WorldOk(w)
    ensures forall x :: x in PurchasedFacts(w, ids) ==> x.quantity > 0
  {
    if ids != [] {
      PurchasedFactsPositive(w, ids[..|ids| - 1]);
      assert PurchasedLine(w, ids[|ids| - 1]) ==> LineOk(w, ids[|ids| - 1]);
    }
  }

  lemma {:induction false} RowFactsPositive(rows: seq<SurplusRow>)
    requires forall x :: x in rows ==> x.quantity > 0
    ensures forall x :: x in RowFacts(rows) ==> x.quantity > 0
  {
    if rows != [] {
      assert rows[|rows| - 1] in rows;
      RowFactsPositive(rows[..|rows| - 1]);
    }
  }

  lemma {:induction false} AllRowFactsPositive(s: State, o: nat, ids: seq<nat>)
    requires AllClean(s)
    ensures forall x :: x in AllRowFacts(s, o, ids) ==> x.quantity > 0
  {
    if ids != [] {
      hide AllClean, OrderRows;
      var p := ids[|ids| - 1];
      AllRowFactsPositive(s, o, ids[..|ids| - 1]);
      OrderRowsPositive(s, o, p);
      RowFactsPositive(OrderRows(s, o, p));
    }
  }

  lemma OrderRowsPositive(s: State, o: nat, p: nat)
    requires AllClean(s)
    ensures forall x :: x in OrderRows(s, o, p) ==> x.quantity > 0
  {
    hide WorldOk, RunOk, ProperLink, LotCaps, LineCaps, Meets, ClaimsMeet;
    var c := ClosureOf(s, p);
    forall x | x in OrderRows(s, o, p) ensures x.quantity > 0 {
      PickMembers(c.rows, OrderRowSet(c, s.world, o), x);
      assert ProductClean(s, p) && (IsProduced(s.world, p) ==> RowOk(x, c, s.world, p));
    }
  }

  lemma FactsArePositive(s: State, o: nat)
    requires AllClean(s)
    ensures forall x :: x in LineFacts(s, o) + SurplusFacts(s, o) ==> x.quantity > 0
  {
    PurchasedFactsPositive(s.world, Ascending(LinesOfOrder(s.world, o)));
    AllRowFactsPositive(s, o, Ascending(ProductsOfOrder(s.world, o)));
    hide PurchasedFacts, AllRowFacts;
  }

  /** A refused plan is short of stock, or has one cost that cannot be stored. */
  lemma ShortOrUnfit(
      failures: seq<Planner.Failure>, lines: seq<Planner.Withdrawal>, stock: map<nat, Planner.Stock>,
      rows: seq<Planner.Withdrawal>,
      lots: map<nat, Planner.Stock>, refused: bool)
    requires !(Planner.Covered(lines, stock) && Planner.Covered(rows, lots)) ==>
      exists n :: 0 <= n <= |failures| && Planner.Reports(failures[..n], lines, stock)
        && Planner.Reports(failures[n..], rows, lots)
    requires refused && Planner.Covered(lines, stock) && Planner.Covered(rows, lots) ==>
      |failures| == 1 && failures[0].NotRepresentable?
    ensures refused ==>
      ((exists i :: 0 <= i < |failures| && failures[i].Short?) <==>
        !(Planner.Covered(lines, stock) && Planner.Covered(rows, lots)))
  {
    hide Planner.Covered;
    if refused && !(Planner.Covered(lines, stock) && Planner.Covered(rows, lots)) {
      var n :| 0 <= n <= |failures| && Planner.Reports(failures[..n], lines, stock)
        && Planner.Reports(failures[n..], rows, lots);
      Planner.ReportsNothingIffCovered(failures[..n], lines, stock);
      Planner.ReportsNothingIffCovered(failures[n..], rows, lots);
      if n > 0 {
        assert failures[..n][0].Short?;
      } else {
        assert failures[n..][0].Short?;
      }
    }
  }

  lemma DeductedStock(
      s: State, o: nat, costs: map<nat, nat>, lotCosts: map<nat, nat>, leftStock: map<nat, Planner.Stock>,
      leftLots: map<nat, Planner.Stock>)
    requires AllClean(s) && o in s.world.orders
    requires leftStock.Keys == s.stock.Keys && leftLots.Keys == s.world.lots.Keys
    requires forall p :: p in s.stock ==>
      leftStock[p].physical == StockFacts(s, costs)[p].physical - Planner.Taken(LineFacts(s, o), p)
    requires forall l :: l in s.world.lots ==>
      leftLots[l].physical == LotStock(s, lotCosts)[l].physical - Planner.Taken(SurplusFacts(s, o), l)
    ensures LeftBy(s, o, leftStock, leftLots)
  {
    hide AllClean, NeededStock, OnLot, OrderRows, Planner.Taken, LineFacts, SurplusFacts;
    forall p | p in s.stock
      ensures leftStock[p].physical == s.stock[p] - NeededStock(s.world, o, p)
    {
      FactsAreNeeds(s, o, p);
    }
    forall l | l in s.world.lots
      ensures leftLots[l].physical == s.world.lots[l].physical - OnLot(OrderRows(s, o, s.world.lots[l].productId), l)
    {
      FactsAreNeeds(s, o, l);
    }
  }

  lemma FulfilledStock(s: State, o: nat, s1: State)
    requires s1.stock.Keys == s.stock.Keys && forall p :: p in s.stock ==>
      s1.stock[p] == s.stock[p] - NeededStock(s.world, o, p)
    requires s1.world.lots.Keys == s.world.lots.Keys
    requires forall l :: l in s.world.lots ==>
      s1.world.lots[l]
        == s.world.lots[l].(physical := s.world.lots[l].physical - OnLot(OrderRows(s, o, s.world.lots[l].productId), l))
    ensures s1.stock == Fulfilled(s, o).stock && s1.world.lots == Fulfilled(s, o).world.lots
  {
    hide NeededStock, OnLot, OrderRows, PurchasedEntries, AllRowEntries, WithoutOrder, LinesOfOrder, ProductsOfOrder;
  }

  /** The tables a completion writes, one by one. */
  lemma FulfilledFrom(s: State, o: nat, s1: State)
    requires s1.world == s.world.(lots := s1.world.lots) && s1.ingredients == s.ingredients
      && s1.generation == s.generation
    requires s1.closures == map p | p in s.closures :: WithoutOrder(s.closures[p], s.world, o)
    requires s1.stock.Keys == s.stock.Keys && forall p :: p in s.stock ==>
      s1.stock[p] == s.stock[p] - NeededStock(s.world, o, p)
    requires s1.world.lots.Keys == s.world.lots.Keys
    requires forall l :: l in s.world.lots ==>
      s1.world.lots[l]
        == s.world.lots[l].(physical := s.world.lots[l].physical - OnLot(OrderRows(s, o, s.world.lots[l].productId), l))
    requires s1.ledger == s.ledger + (PurchasedEntries(s.world, Ascending(LinesOfOrder(s.world, o)))
      + AllRowEntries(s, o, Ascending(ProductsOfOrder(s.world, o))))
    ensures s1 == Fulfilled(s, o)
  {
    hide NeededStock, OnLot, OrderRows, PurchasedEntries, AllRowEntries, WithoutOrder, LinesOfOrder, ProductsOfOrder;
    FulfilledStock(s, o, s1);
    assert s1.closures == Fulfilled(s, o).closures;
    assert s1.ledger == Fulfilled(s, o).ledger;
  }

  lemma FulfilledOrders(s: State, o: nat)
    ensures Fulfilled(s, o).world == s.world.(lots := Fulfilled(s, o).world.lots)
  {
  }

  lemma CompletedIs(s: State, s1: State, o: nat)
    requires o in s.world.orders && Fulfilled(s, o).world.orders == s.world.orders
    requires s1 == WithStatus(Fulfilled(s, o), o, Completed)
    ensures s1 == JustCompleted(s, o)
  {
  }

  lemma CompletedLinks(s: State, o: nat)
    requires o in s.world.orders && forall p :: LinksApart(ClosureOf(s, p))
    ensures forall p :: LinksApart(ClosureOf(JustCompleted(s, o), p))
  {
    hide JustCompleted;
    forall p ensures LinksApart(ClosureOf(JustCompleted(s, o), p)) { FulfilledClosure(s, o, p); }
  }
}
