/** The completion planner against the state machine: run on the facts gathered for an order it finds
    stock sufficient exactly when the step does, and its deductions are the step's new balances. */
module CompletionRefinement {
  import opened Tallies
  import opened PlanningState
  import opened PlanningSystem
  import opened Lifecycle
  import opened CompletionTheorems
  import opened SupplyTheorems
  import Planner = CompletionPlan

  // ---- the facts gathered under lock ----

  function PurchasedFacts(w: World, lines: seq<nat>): seq<Planner.Withdrawal> {
    if lines == [] then []
    else
      var l := lines[|lines| - 1];
      PurchasedFacts(w, lines[..|lines| - 1])
      + if PurchasedLine(w, l) then [Planner.Withdrawal(l, l, w.lines[l].source.productId, w.lines[l].quantity)] else []
  }

  /** Surplus rows are numbered in the order they are read. */
  function RowFacts(rows: seq<SurplusRow>): seq<Planner.Withdrawal> {
    if rows == [] then []
    else
      var x := rows[|rows| - 1];
      RowFacts(rows[..|rows| - 1]) + [Planner.Withdrawal(|rows| - 1, x.lineId, x.lotId, x.quantity)]
  }

  function AllRowFacts(s: State, o: nat, products: seq<nat>): seq<Planner.Withdrawal> {
    if products == [] then []
    else AllRowFacts(s, o, products[..|products| - 1]) + RowFacts(OrderRows(s, o, products[|products| - 1]))
  }

  ghost function LineFacts(s: State, o: nat): seq<Planner.Withdrawal> {
    PurchasedFacts(s.world, Ascending(LinesOfOrder(s.world, o)))
  }

  ghost function SurplusFacts(s: State, o: nat): seq<Planner.Withdrawal> {
    AllRowFacts(s, o, Ascending(ProductsOfOrder(s.world, o)))
  }

  function StockFacts(s: State, costs: map<nat, nat>): map<nat, Planner.Stock> {
    map p | p in s.stock :: Planner.Stock(s.stock[p], if p in costs then costs[p] else 0)
  }

  function LotStock(s: State, costs: map<nat, nat>): map<nat, Planner.Stock> {
    map l | l in s.world.lots :: Planner.Stock(s.world.lots[l].physical, if l in costs then costs[l] else 0)
  }

  // ---- one withdrawal per ledger entry ----

  lemma TakenOfOne(w: Planner.Withdrawal, x: nat)
    ensures Planner.Taken([w], x) == if w.source == x then w.quantity else 0
  {
    assert [w][..0] == [];
  }

  lemma {:induction false} PurchasedTaken(w: World, lines: seq<nat>, p: nat)
    ensures Planner.Taken(PurchasedFacts(w, lines), p) == 0 - LedgerSum(PurchasedEntries(w, lines), PurchasedAccount(p))
  {
    if lines != [] {
      hide Planner.Taken, LedgerSum;
      var n := |lines| - 1;
      var l := lines[n];
      PurchasedTaken(w, lines[..n], p);
      var facts, entries := PurchasedFacts(w, lines[..n]), PurchasedEntries(w, lines[..n]);
      if PurchasedLine(w, l) {
        var fact := Planner.Withdrawal(l, l, w.lines[l].source.productId, w.lines[l].quantity);
        Planner.TakenOfConcat(facts, [fact], p);
        TakenOfOne(fact, p);
        OneEntry(entries, Entry(PurchasedAccount(w.lines[l].source.productId), 0 - w.lines[l].quantity),
          PurchasedAccount(p));
      } else {
        assert facts + [] == facts && entries + [] == entries;
      }
    }
  }

  lemma {:induction false} RowsTaken(rows: seq<SurplusRow>, lot: nat)
    ensures Planner.Taken(RowFacts(rows), lot) == OnLot(rows, lot)
  {
    if rows != [] {
      hide Planner.Taken;
      var n := |rows| - 1;
      RowsTaken(rows[..n], lot);
      var fact := Planner.Withdrawal(n, rows[n].lineId, rows[n].lotId, rows[n].quantity);
      Planner.TakenOfConcat(RowFacts(rows[..n]), [fact], lot);
      TakenOfOne(fact, lot);
    }
  }

  lemma {:induction false} AllRowsTaken(s: State, o: nat, products: seq<nat>, lot: nat)
    ensures Planner.Taken(AllRowFacts(s, o, products), lot)
      == 0 - LedgerSum(AllRowEntries(s, o, products), LotAccount(lot))
  {
    if products != [] {
      hide Planner.Taken, LedgerSum, OrderRows, OnLot;
      var n := |products| - 1;
      AllRowsTaken(s, o, products[..n], lot);
      var rows := OrderRows(s, o, products[n]);
      Planner.TakenOfConcat(AllRowFacts(s, o, products[..n]), RowFacts(rows), lot);
      RowsTaken(rows, lot);
      RowLedger(rows, LotAccount(lot));
      LedgerConcat(AllRowEntries(s, o, products[..n]), RowEntries(rows), LotAccount(lot));
    }
  }

  /** Added up per source, the facts are the step's needs. */
  lemma FactsAreNeeds(s: State, o: nat, x: nat)
    requires AllClean(s) && o in s.world.orders
    ensures Planner.Taken(LineFacts(s, o), x) == NeededStock(s.world, o, x)
    ensures Planner.Taken(SurplusFacts(s, o), x)
      == if x in s.world.lots then OnLot(OrderRows(s, o, s.world.lots[x].productId), x) else 0
  {
    hide AllClean, LedgerSum, OnLot, OrderRows, SumBy, ProductsOfOrder, LinesOfOrder, Planner.Taken, PurchasedEntries,
      AllRowEntries;
    var w := s.world;
    var lines, products := Ascending(LinesOfOrder(w, o)), Ascending(ProductsOfOrder(w, o));
    AscendingIs(LinesOfOrder(w, o));
    AscendingIs(ProductsOfOrder(w, o));
    PurchasedTaken(w, lines, x);
    PurchasedLedger(w, lines, PurchasedAccount(x));
    assert NeedsAmong(w, lines, x) == PurchasedNeeds(w, o, x);
    AllRowsTaken(s, o, products, x);
    AllRowLedger(s, o, products, LotAccount(x));
    if x in w.lots && w.lots[x].productId !in products {
      NothingTaken(s, o, w.lots[x].productId);
      NothingOnLot(x);
    }
  }

  lemma {:induction false} PurchasedSources(w: World, lines: seq<nat>, p: nat)
    ensures p in Planner.Sources(PurchasedFacts(w, lines)) <==>
      exists l :: l in lines && PurchasedLine(w, l) && w.lines[l].source.productId == p
  {
    if lines != [] {
      var n := |lines| - 1;
      PurchasedSources(w, lines[..n], p);
      assert lines == lines[..n] + [lines[n]];
      var facts := PurchasedFacts(w, lines);
      if PurchasedLine(w, lines[n]) {
        assert facts[..|facts| - 1] == PurchasedFacts(w, lines[..n]);
        SourcesSnoc(facts, p);
      } else {
        assert PurchasedFacts(w, lines[..n]) + [] == PurchasedFacts(w, lines[..n]);
      }
    }
  }

  lemma SourcesSnoc(ws: seq<Planner.Withdrawal>, x: nat)
    requires ws != []
    ensures x in Planner.Sources(ws) <==> x in Planner.Sources(ws[..|ws| - 1]) || ws[|ws| - 1].source == x
  {
    Planner.TakenStep(ws, |ws| - 1, x);
    assert ws[..|ws|] == ws;
  }

  /** The planner's check, on these facts, is the step's check. */
  lemma PlannerChecksWhatTheStepChecks(s: State, o: nat, costs: map<nat, nat>, lotCosts: map<nat, nat>)
    requires AllClean(s) && o in s.world.orders
    ensures (Planner.Covered(LineFacts(s, o), StockFacts(s, costs))
      && Planner.Covered(SurplusFacts(s, o), LotStock(s, lotCosts)))
      <==> Sufficient(s, o)
  {
    hide AllClean, OnLot, OrderRows, NeededStock, Planner.Taken, PurchasedFacts, AllRowFacts;
    var w := s.world;
    var lines := Ascending(LinesOfOrder(w, o));
    AscendingIs(LinesOfOrder(w, o));
    forall x ensures
      && Planner.Taken(LineFacts(s, o), x) == NeededStock(w, o, x)
      && Planner.Taken(SurplusFacts(s, o), x)
        == (if x in w.lots then OnLot(OrderRows(s, o, w.lots[x].productId), x) else 0)
      && (x in Planner.Sources(LineFacts(s, o)) <==>
        exists l :: l in lines && PurchasedLine(w, l) && w.lines[l].source.productId == x)
      && (x !in Planner.Sources(SurplusFacts(s, o)) ==> Planner.Taken(SurplusFacts(s, o), x) == 0)
    {
      FactsAreNeeds(s, o, x);
      PurchasedSources(w, lines, x);
      if x !in Planner.Sources(SurplusFacts(s, o)) { Planner.NothingTaken(SurplusFacts(s, o), x); }
    }
    LotsHoldSomething(s);
    hide Planner.Sources, LineFacts, SurplusFacts;
    if Sufficient(s, o) {
      forall x | x in Planner.Sources(LineFacts(s, o))
        ensures NeededStock(w, o, x) <= Planner.Physical(StockFacts(s, costs), x)
      {
        var l :| l in lines && PurchasedLine(w, l) && w.lines[l].source.productId == x;
      }
    } else {
      CoversTheNeeds(s, o, costs, lotCosts);
    }
  }

  lemma LotsHoldSomething(s: State)
    requires AllClean(s)
    ensures forall l :: l in s.world.lots ==> s.world.lots[l].physical >= 0
  {
  }

  lemma CoversTheNeeds(s: State, o: nat, costs: map<nat, nat>, lotCosts: map<nat, nat>)
    requires forall x ::
      && Planner.Taken(LineFacts(s, o), x) == NeededStock(s.world, o, x)
      && Planner.Taken(SurplusFacts(s, o), x)
        == (if x in s.world.lots then OnLot(OrderRows(s, o, s.world.lots[x].productId), x) else 0)
      && (x in Planner.Sources(LineFacts(s, o)) <==>
            exists l :: l in Ascending(LinesOfOrder(s.world, o)) && PurchasedLine(s.world, l)
              && s.world.lines[l].source.productId == x)
      && (x !in Planner.Sources(SurplusFacts(s, o)) ==> Planner.Taken(SurplusFacts(s, o), x) == 0)
    requires forall l :: l in s.world.lots ==> s.world.lots[l].physical >= 0
    ensures Planner.Covered(LineFacts(s, o), StockFacts(s, costs))
      && Planner.Covered(SurplusFacts(s, o), LotStock(s, lotCosts))
      ==> Sufficient(s, o)
  {
    hide OnLot, OrderRows, NeededStock, Planner.Taken, Planner.Sources, LineFacts, SurplusFacts, LinesOfOrder;
    AscendingIs(LinesOfOrder(s.world, o));
    if Planner.Covered(LineFacts(s, o), StockFacts(s, costs))
      && Planner.Covered(SurplusFacts(s, o), LotStock(s, lotCosts)) {
      forall l | l in LinesOfOrder(s.world, o) && PurchasedLine(s.world, l)
        ensures NeededStock(s.world, o, s.world.lines[l].source.productId)
          <= StockOf(s, s.world.lines[l].source.productId)
      {
        var p := s.world.lines[l].source.productId;
        assert p in Planner.Sources(LineFacts(s, o));
        assert Planner.Taken(LineFacts(s, o), p) <= Planner.Physical(StockFacts(s, costs), p);
      }
      forall lot | lot in s.world.lots
        ensures OnLot(OrderRows(s, o, s.world.lots[lot].productId), lot) <= s.world.lots[lot].physical
      {
        assert Planner.Taken(SurplusFacts(s, o), lot) == OnLot(OrderRows(s, o, s.world.lots[lot].productId), lot);
        if lot in Planner.Sources(SurplusFacts(s, o)) {
          assert Planner.Taken(SurplusFacts(s, o), lot) <= Planner.Physical(LotStock(s, lotCosts), lot);
        }
      }
    }
  }

  /** In every state the invariant allows, a Ready order's plan has no stock failure. */
  lemma ReadyOrdersAreCovered(s: State, o: nat, costs: map<nat, nat>, lotCosts: map<nat, nat>)
    requires Inv(s) && o in s.world.orders && s.world.orders[o].status == Ready
    ensures Planner.Covered(LineFacts(s, o), StockFacts(s, costs))
      && Planner.Covered(SurplusFacts(s, o), LotStock(s, lotCosts))
  {
    SatisfiedIsSufficient(s, o);
    PlannerChecksWhatTheStepChecks(s, o, costs, lotCosts);
  }

  /** Applying an exact plan gives the step's balances. */
  lemma PlanIsTheStep(
      s: State, o: nat, plan: Planner.Plan, costs: map<nat, nat>, lotCosts: map<nat, nat>,
      snapshots: seq<Planner.Snapshot>)
    requires AllClean(s) && o in s.world.orders
    requires Planner.Exactly(plan, LineFacts(s, o), StockFacts(s, costs), SurplusFacts(s, o), LotStock(s, lotCosts),
      snapshots)
    ensures forall p :: p in s.stock ==> Fulfilled(s, o).stock[p] == s.stock[p] - Lookup(plan.deduction, p)
    ensures forall l :: l in s.world.lots ==>
      Fulfilled(s, o).world.lots[l].physical == s.world.lots[l].physical - Lookup(plan.consumption, l)
  {
    hide AllClean, OnLot, OrderRows, NeededStock, Planner.Taken, LineFacts, SurplusFacts, Planner.Rows,
      PurchasedEntries, AllRowEntries, WithoutOrder;
    forall p | p in s.stock ensures Fulfilled(s, o).stock[p] == s.stock[p] - Lookup(plan.deduction, p) {
      FactsAreNeeds(s, o, p);
      if p !in plan.deduction { Planner.NothingTaken(LineFacts(s, o), p); }
    }
    forall l | l in s.world.lots
      ensures Fulfilled(s, o).world.lots[l].physical == s.world.lots[l].physical - Lookup(plan.consumption, l)
    {
      FactsAreNeeds(s, o, l);
      if l !in plan.consumption { Planner.NothingTaken(SurplusFacts(s, o), l); }
    }
  }
}
