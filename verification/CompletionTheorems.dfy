/** Completing an order: what is reserved for it is there, taking it keeps the invariant, and the
    completion can only be refused for a value that does not fit its column. */
module CompletionTheorems {
  import opened Sorting
  import opened Tallies
  import opened PlanningState
  import opened Recalculation
  import opened PlanningInvariant
  import opened RecalculationTheorems
  import opened PlanningSystem
  import opened WorldChanges
  import opened Lifecycle
  import opened LifecycleTheorems
  import opened SupplyTheorems

  // ---- progress ----

  lemma PartWeighsLess(a: set<Reservation>, b: set<Reservation>)
    requires a <= b
    ensures SumBy(a, ReservedQuantity) <= SumBy(b, ReservedQuantity)
  {
    SumUnion(a, b - a, ReservedQuantity);
    assert a + (b - a) == b;
  }

  lemma OneReservation(r: Reservation)
    ensures SumBy({r}, ReservedQuantity) == r.quantity
  {
    SumAdd({}, ReservedQuantity, r);
    assert {} + {r} == {r};
  }

  /** In a clean state the reservations of a live order always match its purchased demand. */
  lemma ReservationsAlwaysMatch(s: State, o: nat)
    requires AllClean(s) && Live(s.world, o)
    ensures ReservationsMatch(s, o)
  {
    hide Clean, WorldOk, SumBy;
    forall l | l in LinesOfOrder(s.world, o) && PurchasedLine(s.world, l)
      ensures
        var reserved := set r | r in ClosureOf(s, s.world.lines[l].source.productId).reservations && r.lineId == l;
        SumBy(reserved, ReservedQuantity) == s.world.lines[l].quantity
    {
      var p := s.world.lines[l].source.productId;
      assert ProductClean(s, p);
      var reserved := set r | r in ClosureOf(s, p).reservations && r.lineId == l;
      assert LiveLine(s.world, l, p);
      assert reserved == {Reservation(l, s.world.lines[l].quantity)};
      OneReservation(Reservation(l, s.world.lines[l].quantity));
    }
  }

  /** A satisfied live order finds its stock: purchased products are not short, and its surplus rows
      are within what every lot holds. */
  lemma SatisfiedIsSufficient(s: State, o: nat)
    requires Inv(s) && Live(s.world, o) && Satisfied(s, o)
    ensures Sufficient(s, o)
  {
    hide Clean, WorldOk, SumBy, OnLot, Pick, LedgerOk;
    forall l | l in LinesOfOrder(s.world, o) && PurchasedLine(s.world, l)
      ensures NeededStock(s.world, o, s.world.lines[l].source.productId)
        <= StockOf(s, s.world.lines[l].source.productId)
    {
      var p := s.world.lines[l].source.productId;
      assert ProductClean(s, p) && LineSatisfied(s, l);
      forall r | r in PurchasedNeeds(s.world, o, p) ensures r in Reservations(s.world, p) {
        var m :| m in LinesOfOrder(s.world, o) && PurchasedLine(s.world, m) && s.world.lines[m].source.productId == p
          && r == Reservation(m, s.world.lines[m].quantity);
        assert LiveLine(s.world, m, p);
      }
      PartWeighsLess(PurchasedNeeds(s.world, o, p), Reservations(s.world, p));
    }
    forall lot | lot in s.world.lots
      ensures OnLot(OrderRows(s, o, s.world.lots[lot].productId), lot) <= s.world.lots[lot].physical
    {
      var p := s.world.lots[lot].productId;
      PartHoldsLess(ClosureOf(s, p).rows, OrderRowSet(ClosureOf(s, p), s.world, o), lot);
      LotFits(s, lot);
    }
  }

  lemma LotFits(s: State, lot: nat)
    requires AllClean(s) && lot in s.world.lots
    ensures OnLot(ClosureOf(s, s.world.lots[lot].productId).rows, lot) <= s.world.lots[lot].physical
  {
    hide Clean, OnLot;
    var p := s.world.lots[lot].productId;
    assert ProductClean(s, p) && IsProduced(s.world, p);
    CleanLots(ClosureOf(s, p), s.world, p, s.generation);
  }

  // ---- the ledger of a completion ----

  function NeedsAmong(w: World, lines: seq<nat>, p: nat): set<Reservation> {
    set l | l in lines && PurchasedLine(w, l) && w.lines[l].source.productId == p :: Reservation(l, w.lines[l].quantity)
  }

  lemma NeedsSnoc(w: World, lines: seq<nat>, p: nat)
    requires Increasing(lines) && lines != []
    ensures
      var n := |lines| - 1;
      var l := lines[n];
      if PurchasedLine(w, l) && w.lines[l].source.productId == p
      then NeedsAmong(w, lines, p) == NeedsAmong(w, lines[..n], p) + {Reservation(l, w.lines[l].quantity)}
           && Reservation(l, w.lines[l].quantity) !in NeedsAmong(w, lines[..n], p)
      else NeedsAmong(w, lines, p) == NeedsAmong(w, lines[..n], p)
  {
    var n := |lines| - 1;
    assert lines == lines[..n] + [lines[n]];
    assert lines[n] !in lines[..n];
  }

  lemma {:induction false} PurchasedLedger(w: World, lines: seq<nat>, account: Account)
    requires Increasing(lines)
    ensures LedgerSum(PurchasedEntries(w, lines), account)
      == if account.PurchasedAccount? then 0 - SumBy(NeedsAmong(w, lines, account.id), ReservedQuantity) else 0
  {
    hide SumBy, LedgerSum;
    if lines == [] {
      NoEntries(account);
      if account.PurchasedAccount? {
        assert NeedsAmong(w, [], account.id) == {};
        NoReservations();
      }
    } else {
      var n := |lines| - 1;
      var l := lines[n];
      PurchasedLedger(w, lines[..n], account);
      var before := PurchasedEntries(w, lines[..n]);
      if PurchasedLine(w, l) {
        OneEntry(before, Entry(PurchasedAccount(w.lines[l].source.productId), 0 - w.lines[l].quantity), account);
      } else {
        assert before + [] == before;
      }
      if account.PurchasedAccount? {
        NeedsSnoc(w, lines, account.id);
        if PurchasedLine(w, l) && w.lines[l].source.productId == account.id {
          SumAdd(NeedsAmong(w, lines[..n], account.id), ReservedQuantity, Reservation(l, w.lines[l].quantity));
        }
      }
    }
  }

  lemma NoEntries(account: Account)
    ensures LedgerSum([], account) == 0
  {
  }

  lemma NoReservations()
    ensures SumBy({}, ReservedQuantity) == 0
  {
  }

  lemma {:induction false} RowLedger(rows: seq<SurplusRow>, account: Account)
    ensures LedgerSum(RowEntries(rows), account) == if account.LotAccount? then 0 - OnLot(rows, account.id) else 0
  {
    if rows != [] {
      hide LedgerSum;
      var n := |rows| - 1;
      RowLedger(rows[..n], account);
      OneEntry(RowEntries(rows[..n]), Entry(LotAccount(rows[n].lotId), 0 - rows[n].quantity), account);
    }
  }

  /** Every surplus row of the order sits in the closure of its lot's product. */
  lemma RowsElsewhere(s: State, o: nat, p: nat, lot: nat)
    requires AllClean(s) && (lot !in s.world.lots || s.world.lots[lot].productId != p)
    ensures OnLot(OrderRows(s, o, p), lot) == 0
  {
    hide Clean, WorldOk, OnLot;
    assert ProductClean(s, p);
    var c := ClosureOf(s, p);
    forall x | x in OrderRows(s, o, p) ensures x.lotId != lot {
      PickMembers(c.rows, OrderRowSet(c, s.world, o), x);
      CleanRow(c, s.world, p, s.generation, s, x);
    }
    NoneOnLot(OrderRows(s, o, p), lot);
  }

  lemma CleanRow(c: Closure, w: World, p: nat, g: nat, s: State, x: SurplusRow)
    requires ProductClean(s, p) && c == ClosureOf(s, p) && w == s.world && g == s.generation && x in c.rows
    requires s.closures.Keys <= s.world.products.Keys
    ensures RowOk(x, c, w, p) && WellLinked(c, w, p, g) && p in w.products && w.products[p].Produced?
  {
  }

  lemma {:induction false} AllRowLedger(s: State, o: nat, products: seq<nat>, account: Account)
    requires AllClean(s) && Increasing(products)
    ensures LedgerSum(AllRowEntries(s, o, products), account)
      == if account.LotAccount? && account.id in s.world.lots && s.world.lots[account.id].productId in products
         then 0 - OnLot(OrderRows(s, o, s.world.lots[account.id].productId), account.id) else 0
  {
    hide AllClean, LedgerSum, OnLot, OrderRows;
    if products == [] {
      NoEntries(account);
    } else {
      var n := |products| - 1;
      var p := products[n];
      assert products == products[..n] + [p];
      assert p !in products[..n];
      AllRowLedger(s, o, products[..n], account);
      LedgerConcat(AllRowEntries(s, o, products[..n]), RowEntries(OrderRows(s, o, p)), account);
      RowLedger(OrderRows(s, o, p), account);
      if account.LotAccount? && (account.id !in s.world.lots || s.world.lots[account.id].productId != p) {
        RowsElsewhere(s, o, p, account.id);
      }
    }
  }

  /** The order has surplus rows only for its own products. */
  lemma NoRowsForOthers(s: State, o: nat, p: nat, x: SurplusRow)
    requires AllClean(s) && p !in ProductsOfOrder(s.world, o) && x in ClosureOf(s, p).rows
    ensures x.lineId !in LinesOfOrder(s.world, o)
  {
    hide Clean, WorldOk;
    assert ProductClean(s, p);
    CleanRow(ClosureOf(s, p), s.world, p, s.generation, s, x);
    var k :| k in ClosureOf(s, p).links && k.req == x.req && k.lineId == x.lineId;
    assert ProperLink(k, s.world, p);
    assert x.lineId in LinesOfOrder(s.world, o) ==> p in ProductsOfOrder(s.world, o);
  }

  lemma NothingTaken(s: State, o: nat, p: nat)
    requires AllClean(s) && p !in ProductsOfOrder(s.world, o)
    ensures OrderRows(s, o, p) == []
    ensures WithoutOrder(ClosureOf(s, p), s.world, o) == ClosureOf(s, p)
  {
    hide AllClean, Pick;
    var c := ClosureOf(s, p);
    forall x | x in c.rows ensures x.lineId !in LinesOfOrder(s.world, o) { NoRowsForOthers(s, o, p, x); }
    PickNone(c.rows, OrderRowSet(c, s.world, o));
    PickAll(c.rows, (set x | x in c.rows && x.lineId !in LinesOfOrder(s.world, o)));
  }

  lemma FulfilledShape(s: State, o: nat)
    requires o in s.world.orders
    ensures
      var s1 := JustCompleted(s, o);
      var w, w1 := s.world, s1.world;
      && w1 == w.(lots := w1.lots, orders := w.orders[o := w.orders[o].(status := Completed)])
      && w1.lots.Keys == w.lots.Keys && s1.generation == s.generation && s1.ingredients == s.ingredients
      && s1.stock.Keys == s.stock.Keys && s1.closures.Keys == s.closures.Keys
      && (forall lot :: lot in w.lots ==>
            w1.lots[lot]
              == w.lots[lot].(physical := w.lots[lot].physical - OnLot(OrderRows(s, o, w.lots[lot].productId), lot)))
      && (forall p :: p in s.stock ==> s1.stock[p] == s.stock[p] - NeededStock(w, o, p))
  {
    hide OnLot, OrderRows, NeededStock, WithoutOrder, PurchasedEntries, AllRowEntries;
  }

  lemma FulfilledClosure(s: State, o: nat, p: nat)
    requires o in s.world.orders
    ensures ClosureOf(JustCompleted(s, o), p) == WithoutOrder(ClosureOf(s, p), s.world, o)
  {
    hide OnLot, OrderRows, NeededStock, PurchasedEntries, AllRowEntries;
  }

  lemma FulfilledLedgerIs(s: State, o: nat)
    requires o in s.world.orders
    ensures JustCompleted(s, o).ledger
      == s.ledger + PurchasedEntries(s.world, Ascending(LinesOfOrder(s.world, o)))
         + AllRowEntries(s, o, Ascending(ProductsOfOrder(s.world, o)))
  {
    hide OnLot, OrderRows, NeededStock, PurchasedEntries, AllRowEntries, WithoutOrder;
  }

  /** What the completion records in each account. */
  lemma RecordedFor(s: State, o: nat, account: Account)
    requires AllClean(s) && o in s.world.orders
    ensures LedgerSum(JustCompleted(s, o).ledger, account) == LedgerSum(s.ledger, account)
      - match account
        case IngredientAccount(_) => 0
        case PurchasedAccount(p) => NeededStock(s.world, o, p)
        case LotAccount(lot) => if lot in s.world.lots then OnLot(OrderRows(s, o, s.world.lots[lot].productId), lot)
          else 0
  {
    hide AllClean, LedgerSum, OnLot, OrderRows, JustCompleted, PurchasedEntries, AllRowEntries, SumBy, ProductsOfOrder,
      LinesOfOrder;
    var w := s.world;
    var lines, products := Ascending(LinesOfOrder(w, o)), Ascending(ProductsOfOrder(w, o));
    AscendingIs(LinesOfOrder(w, o));
    AscendingIs(ProductsOfOrder(w, o));
    FulfilledLedgerIs(s, o);
    LedgerConcat(s.ledger + PurchasedEntries(w, lines), AllRowEntries(s, o, products), account);
    LedgerConcat(s.ledger, PurchasedEntries(w, lines), account);
    PurchasedLedger(w, lines, account);
    AllRowLedger(s, o, products, account);
    match account
    case IngredientAccount(_) =>
    case PurchasedAccount(p) => assert NeedsAmong(w, lines, p) == PurchasedNeeds(w, o, p);
    case LotAccount(lot) =>
      if lot in w.lots && w.lots[lot].productId !in products {
        NothingTaken(s, o, w.lots[lot].productId);
        NothingOnLot(lot);
      }
  }

  /** The completion's ledger entries account for exactly what stock and lots lose. */
  lemma FulfilledKeepsLedger(s: State, o: nat)
    requires AllClean(s) && StockOk(s) && o in s.world.orders && Sufficient(s, o)
    ensures StockOk(JustCompleted(s, o))
  {
    hide AllClean, LedgerSum, OnLot, OrderRows, Sufficient, JustCompleted, NeededStock;
    var s1 := JustCompleted(s, o);
    FulfilledShape(s, o);
    forall account ensures BalanceOf(s1, account) == LedgerSum(s1.ledger, account) {
      RecordedFor(s, o, account);
      assert BalanceOf(s, account) == LedgerSum(s.ledger, account);
      if account.PurchasedAccount? { NeededIsThere(s, o, account.id); }
    }
    forall p | p in s1.stock ensures s1.stock[p] >= 0 { NeededIsThere(s, o, p); }
  }

  lemma NeededIsThere(s: State, o: nat, p: nat)
    requires Sufficient(s, o) && StockOk(s)
    ensures NeededStock(s.world, o, p) <= StockOf(s, p)
  {
    hide SumBy, LedgerOk;
    if PurchasedNeeds(s.world, o, p) == {} {
      NoReservations();
    } else {
      var r :| r in PurchasedNeeds(s.world, o, p);
      var l :| l in LinesOfOrder(s.world, o) && PurchasedLine(s.world, l) && s.world.lines[l].source.productId == p;
    }
  }

  // ---- the closures after taking the order's stock ----

  lemma FewerRowsWellLinked(c: Closure, w: World, p: nat, g: nat, which: set<SurplusRow>)
    requires WellLinked(c, w, p, g)
    ensures WellLinked(c.(rows := Pick(c.rows, which)), w, p, g)
  {
    hide Pick;
    var c1 := c.(rows := Pick(c.rows, which));
    forall x | x in c1.rows ensures RowOk(x, c1, w, p) {
      PickMembers(c.rows, which, x);
      assert RowOk(x, c, w, p);
      var k :| k in c.links && k.req == x.req && k.lineId == x.lineId;
      assert k in c1.links;
    }
    forall run | ActiveRun(w, run, p) ensures RunOk(run, c1, w, p) { assert RunOk(run, c, w, p); }
  }

  /** Taking the order's rows off a lot leaves what others hold of it. */
  lemma RestOnLot(s: State, o: nat, p: nat, lot: nat)
    ensures OnLot(WithoutOrder(ClosureOf(s, p), s.world, o).rows, lot) + OnLot(OrderRows(s, o, p), lot)
      == OnLot(ClosureOf(s, p).rows, lot)
  {
    hide OnLot, OnLine, OnReq, Pick;
    var c := ClosureOf(s, p);
    PickSplits(c.rows, OrderRowSet(c, s.world, o), (set x | x in c.rows && x.lineId !in LinesOfOrder(s.world, o)), lot,
      ReqId(DemandKey(0, None, 0), 0));
  }

  lemma CompletedStillRebuildable(s: State, o: nat, p: nat)
    requires Inv(s) && o in s.world.orders && s.world.orders[o].status == Ready && !OrderLocked(s, o)
    requires p in s.world.products && s.world.products[p].Produced?
    ensures
      var s1 := JustCompleted(s, o);
      StillRebuildable(ClosureOf(s1, p), s.world, s1.world, p, {})
  {
    hide OnLot, OnLine, ProducedFor, Skeleton, Meets, ClaimsMeet, LedgerOk, Satisfied, Pick, JustCompleted, RunRows,
      ReadyRows;
    var s1 := JustCompleted(s, o);
    var c, c1, w, w1 := ClosureOf(s, p), ClosureOf(s1, p), s.world, s1.world;
    FulfilledShape(s, o);
    FulfilledClosure(s, o, p);
    assert ProductClean(s, p);
    assert Protected(w1) == Protected(w);
    forall l | l in LockedLines(c1, w1) ensures LiveLine(w1, l, p) && SameTerms(w, w1, l) && LiveLine(w, l, p) {
      var k :| k in c.links && k.req in Protected(w) && k.lineId == l;
      assert ProperLink(k, w, p);
      assert LineOk(w, l);
      assert w.lines[l].orderId == o ==> l in LinesOfOrder(w, o) && LineLocked(s, l);
    }
    forall l | FixedLine(c1, w1, l, p) ensures l in w1.lines && OnLine(c1.rows, l) <= StillOpen(w1, l) {
      assert LiveLine(w, l, p);
      PartHoldsLess(c.rows, (set x | x in c.rows && x.lineId !in LinesOfOrder(w, o)), l);
    }
    forall l | l in w1.lots && w1.lots[l].productId == p
      ensures OnLot(RunRows(c1, w1), l) + OnLot(ReadyRows(c1, w1, p, {}), l) <= w1.lots[l].physical
    {
      FixedFits(c1, w1, p, {}, l);
      RestOnLot(s, o, p, l);
    }
  }

  lemma CompletedWorldOk(s: State, o: nat)
    requires WorldOk(s.world) && o in s.world.orders && Sufficient(s, o)
    ensures WorldOk(JustCompleted(s, o).world)
  {
    hide OnLot, OrderRows, NeededStock, JustCompleted, SumBy;
    var w, w1 := s.world, JustCompleted(s, o).world;
    FulfilledShape(s, o);
    forall l | l in w1.lines ensures LineOk(w1, l) { assert LineOk(w, l); }
    forall q | Live(w1, q) ensures w1.orders[q].date.Some? { assert Live(w, q); }
  }

  lemma CompletedOwnProduct(s: State, o: nat, p: nat)
    requires Inv(s) && o in s.world.orders && s.world.orders[o].status == Ready && !OrderLocked(s, o)
      && Sufficient(s, o)
    ensures ProductBase(JustCompleted(s, o), p, {})
  {
    hide Skeleton, WorldOk, OnLot, OnLine, JustCompleted, WellLinked, Base, StillRebuildable, Sufficient, Pick,
      LedgerOk, Satisfied;
    var s1 := JustCompleted(s, o);
    FulfilledShape(s, o);
    if p in s.world.products && s.world.products[p].Produced? {
      FulfilledClosure(s, o, p);
      CompletedWorldOk(s, o);
      assert ProductClean(s, p);
      CleanIsWellLinked(ClosureOf(s, p), s.world, p, s.generation);
      FewerRowsWellLinked(ClosureOf(s, p), s.world, p, s.generation,
        (set x | x in ClosureOf(s, p).rows && x.lineId !in LinesOfOrder(s.world, o)));
      CompletedStillRebuildable(s, o, p);
      BaseAfterLinkedChange(ClosureOf(s1, p), s.world, s1.world, p, s.generation, {});
    }
  }

  lemma CompletedSameFor(s: State, o: nat, q: nat)
    requires AllClean(s) && o in s.world.orders && q !in ProductsOfOrder(s.world, o)
    ensures SameFor(s.world, JustCompleted(s, o).world, q)
  {
    hide ProducedFor, JustCompleted, OrderRows, Clean;
    var w, w1 := s.world, JustCompleted(s, o).world;
    FulfilledShape(s, o);
    forall l | l in w.lines && w.lines[l].source == OfProduct(q) ensures w.lines[l].orderId != o {
      assert w.lines[l].orderId == o ==> l in LinesOfOrder(w, o) && q in ProductsOfOrder(w, o);
    }
    forall lot | lot in w.lots && w.lots[lot].productId == q ensures w1.lots[lot] == w.lots[lot] {
      NothingTaken(s, o, q);
      NothingOnLot(lot);
    }
    forall l | LiveLine(w, l, q) ensures SameLine(w, w1, l) { assert LineOk(w, l); }
  }

  lemma CompletedOtherProduct(s: State, o: nat, q: nat)
    requires Inv(s) && o in s.world.orders && q !in ProductsOfOrder(s.world, o) && Sufficient(s, o)
    ensures ProductClean(JustCompleted(s, o), q)
  {
    hide Clean, WorldOk, SameFor, JustCompleted, Sufficient, OnLot, Satisfied, LedgerOk, WithoutOrder;
    var s1 := JustCompleted(s, o);
    FulfilledShape(s, o);
    FulfilledClosure(s, o, q);
    NothingTaken(s, o, q);
    CompletedWorldOk(s, o);
    CompletedSameFor(s, o, q);
    assert ProductClean(s, q);
    if q in s.world.products && s.world.products[q].Produced? {
      CleanSame(ClosureOf(s, q), s.world, s1.world, q, s.generation);
    }
    SameReservations(s.world, s1.world, q);
  }

  /** Orders with no product in common with the completed one keep their supply. */
  lemma CompletionSparesOthers(s: State, o: nat, q: nat)
    requires AllClean(s) && o in s.world.orders
    requires ProductsOfOrder(s.world, q) !! ProductsOfOrder(s.world, o)
    ensures Satisfied(JustCompleted(s, o), q) <==> Satisfied(s, q)
    ensures ProductsOfOrder(JustCompleted(s, o).world, q) == ProductsOfOrder(s.world, q)
  {
    hide AllClean, JustCompleted, OnLot, ProducedFor, WithoutOrder, SumBy;
    var s1 := JustCompleted(s, o);
    FulfilledShape(s, o);
    SameProducts(s.world, s1.world, q);
    assert LinesOfOrder(s1.world, q) == LinesOfOrder(s.world, q);
    forall l | l in LinesOfOrder(s.world, q) ensures SameSupply(s, s1, l) {
      if s.world.lines[l].source.OfProduct? {
        var p := s.world.lines[l].source.productId;
        assert p in ProductsOfOrder(s.world, q);
        FulfilledClosure(s, o, p);
        NothingTaken(s, o, p);
        NothingNeeded(s.world, o, p);
      }
    }
    SameSupplySatisfies(s, s1, q);
  }

  lemma NothingNeeded(w: World, o: nat, p: nat)
    requires p !in ProductsOfOrder(w, o)
    ensures NeededStock(w, o, p) == 0
  {
    forall l | l in LinesOfOrder(w, o) && PurchasedLine(w, l) ensures w.lines[l].source.productId != p {
      var q := w.lines[l].source.productId;
      assert q in ProductsOfOrder(w, o);
    }
    assert PurchasedNeeds(w, o, p) == {};
  }

  lemma CompleteSettleable(s: State, o: nat, locked: set<nat>)
    requires Inv(s) && o in s.world.orders && s.world.orders[o].status == Ready && !OrderLocked(s, o)
      && Sufficient(s, o)
    requires Candidates(s.world, ProductsOfOrder(s.world, o)) + {o} <= locked
    ensures Settleable(JustCompleted(s, o), ProductsOfOrder(s.world, o), locked - {o})
  {
    hide WorldOk, Clean, Satisfied, ProductsOfOrder, Candidates, LedgerOk, JustCompleted, Sufficient, OrderLocked,
      SumBy, OnLot;
    var s1 := JustCompleted(s, o);
    FulfilledShape(s, o);
    CompletedWorldOk(s, o);
    forall p | p in ProductsOfOrder(s.world, o) ensures ProductBase(s1, p, {}) { CompletedOwnProduct(s, o, p); }
    forall p | p !in ProductsOfOrder(s.world, o) ensures ProductClean(s1, p) { CompletedOtherProduct(s, o, p); }
    forall q | q in s1.world.orders && s1.world.orders[q].status == Ready && q !in locked - {o}
      ensures Satisfied(s1, q) && ProductsOfOrder(s1.world, q) !! ProductsOfOrder(s.world, o)
    {
      OutsideLocked(s.world, ProductsOfOrder(s.world, o), locked, q);
      CompletionSparesOthers(s, o, q);
    }
    FulfilledKeepsLedger(s, o);
  }

  /** Completing keeps the invariant, and its own post-conditions can never fail. */
  lemma CompleteKeepsInv(s: State, o: nat, locked: set<nat>, today: int, amountsFit: bool)
    requires Inv(s)
    ensures Complete(s, o, locked, today, amountsFit) != Refused(KeyError)
    ensures Complete(s, o, locked, today, amountsFit) != Refused(InvariantViolated)
    ensures Complete(s, o, locked, today, amountsFit).Done? ==> Inv(Complete(s, o, locked, today, amountsFit).state)
  {
    hide Inv, Settleable, Settle, Candidates, ProductsOfOrder, OrderLocked, JustCompleted, Sufficient, Satisfied,
      ReservationsMatch, PostConditions;
    if o in s.world.orders && s.world.orders[o].status == Ready && !OrderLocked(s, o) && Sufficient(s, o)
       && Candidates(s.world, ProductsOfOrder(s.world, o)) + {o} <= locked {
      CompleteSettleable(s, o, locked);
      var s1, products := JustCompleted(s, o), ProductsOfOrder(s.world, o);
      SettleKeepsInv(s1, products, locked - {o}, today);
      SettleReasons(s1, products, locked - {o}, today);
      if Settle(s1, products, locked - {o}, today).Done? {
        InvPost(Settle(s1, products, locked - {o}, today).state, products);
      }
    }
  }

  lemma InvPost(s: State, products: set<nat>)
    requires Inv(s)
    ensures PostConditions(s, products)
  {
    hide ProductClean, LedgerOk, PostConditions;
    CleanPost(s, products);
  }

  lemma {:induction false} RecalculateAllReasons(s: State, products: seq<nat>, today: int)
    ensures RecalculateAll(s, products, today).Refused? ==>
      RecalculateAll(s, products, today).reason in {DemandDateConflict, KeyError, ValueOverflow}
    decreases products
  {
    hide Recalculate;
    if products != [] {
      RefusalReasons(s, products[0], today, {});
      var first := Recalculate(s, products[0], today, {});
      if first.Done? { RecalculateAllReasons(first.state, products[1..], today); }
    }
  }

  lemma SettleReasons(s: State, products: set<nat>, locked: set<nat>, today: int)
    ensures Settle(s, products, locked, today).Refused? ==>
      Settle(s, products, locked, today).reason in {DemandDateConflict, KeyError, ValueOverflow}
  {
    hide RecalculateAll;
    RecalculateAllReasons(s, Ascending(products), today);
  }
}
