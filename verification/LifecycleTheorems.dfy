/** Every committed transaction keeps the planning invariant. */
module LifecycleTheorems {
  import opened Tallies
  import opened PlanningState
  import opened Recalculation
  import opened PlanningInvariant
  import opened RecalculationTheorems
  import opened PlanningSystem
  import opened WorldChanges
  import opened Lifecycle

  // ---- the common tail: recalculate, then evaluate ----

  /** A state a transaction may settle: the affected products can be rebuilt, the others are clean,
      and every Ready order it has not locked is satisfied and touches none of the products. */
  ghost predicate Settleable(s: State, products: set<nat>, locked: set<nat>) {
    && WorldOk(s.world) && s.closures.Keys <= s.world.products.Keys && StockOk(s)
    && (forall p :: p in products ==> ProductBase(s, p, {}))
    && (forall p :: p !in products ==> ProductClean(s, p))
    && (forall o :: o in s.world.orders && s.world.orders[o].status == Ready && o !in locked ==>
          Satisfied(s, o) && ProductsOfOrder(s.world, o) !! products)
  }

  lemma SettledProducts(s: State, products: set<nat>, today: int)
    requires WorldOk(s.world) && s.closures.Keys <= s.world.products.Keys
    requires forall p :: p in products ==> ProductBase(s, p, {})
    requires forall p :: p !in products ==> ProductClean(s, p)
    ensures RecalculateAll(s, Ascending(products), today) != Refused(KeyError)
    ensures RecalculateAll(s, Ascending(products), today).Done? ==>
      var s' := RecalculateAll(s, Ascending(products), today).state;
      && SameButClosures(s, s') && AllClean(s')
      && (forall p :: p !in products ==> ClosureOf(s', p) == ClosureOf(s, p))
  {
    hide ProductBase, ProductClean, WorldOk, RecalculateAll;
    AscendingIs(products);
    RecalculateMany(s, Ascending(products), today);
  }

  lemma StockUnmoved(s: State, s': State)
    requires SameButClosures(s, s') && StockOk(s)
    ensures StockOk(s')
  {
    forall account ensures BalanceOf(s', account) == BalanceOf(s, account) {}
  }

  lemma EvaluationKeepsStock(s: State, orders: set<nat>)
    requires StockOk(s)
    ensures StockOk(EvaluateAll(s, orders))
  {
    var s' := EvaluateAll(s, orders);
    forall account ensures BalanceOf(s', account) == BalanceOf(s, account) {}
  }

  /** An order whose products were not recalculated stays as satisfied as it was. */
  lemma UnrecalculatedOrder(s: State, s': State, products: set<nat>, o: nat)
    requires SameButClosures(s, s') && (forall p :: p !in products ==> ClosureOf(s', p) == ClosureOf(s, p))
    requires ProductsOfOrder(s.world, o) !! products
    ensures Satisfied(s', o) <==> Satisfied(s, o)
  {
    forall l | l in LinesOfOrder(s.world, o) ensures SameSupply(s, s', l) {
      if s.world.lines[l].source.OfProduct? {
        assert s.world.lines[l].source.productId in ProductsOfOrder(s.world, o);
      }
    }
    SameSupplySatisfies(s, s', o);
  }

  /** Evaluating the locked orders of a clean state yields the invariant, if the Ready orders outside
      were satisfied. */
  lemma EvaluatedInv(s: State, locked: set<nat>)
    requires AllClean(s) && StockOk(s)
    requires forall o :: o in s.world.orders && s.world.orders[o].status == Ready && o !in locked ==> Satisfied(s, o)
    ensures Inv(EvaluateAll(s, locked))
  {
    hide AllClean, StockOk, Satisfied, EvaluateAll, ReadySatisfied;
    EvaluateKeepsClean(s, locked);
    EvaluationKeepsStock(s, locked);
    EvaluationEstablishesReady(s, locked);
  }

  lemma RecalculatedInv(s: State, products: set<nat>, locked: set<nat>, today: int)
    requires Settleable(s, products, locked) && RecalculateAll(s, Ascending(products), today).Done?
    ensures Inv(EvaluateAll(RecalculateAll(s, Ascending(products), today).state, locked))
  {
    hide ProductBase, ProductClean, WorldOk, RecalculateAll, AllClean, StockOk, Satisfied, Inv, EvaluateAll,
      ProductsOfOrder;
    SettledProducts(s, products, today);
    var s' := RecalculateAll(s, Ascending(products), today).state;
    StockUnmoved(s, s');
    forall o | o in s'.world.orders && s'.world.orders[o].status == Ready && o !in locked ensures Satisfied(s', o) {
      UnrecalculatedOrder(s, s', products, o);
    }
    EvaluatedInv(s', locked);
  }

  lemma SettledFrom(s: State, products: set<nat>, locked: set<nat>, today: int)
    requires Settleable(s, products, locked)
    ensures RecalculateAll(s, Ascending(products), today) != Refused(KeyError)
    ensures RecalculateAll(s, Ascending(products), today).Done? ==>
      Inv(EvaluateAll(RecalculateAll(s, Ascending(products), today).state, locked))
  {
    hide ProductBase, ProductClean, WorldOk, RecalculateAll, AllClean, StockOk, Satisfied, Inv, EvaluateAll,
      ProductsOfOrder;
    SettledProducts(s, products, today);
    if RecalculateAll(s, Ascending(products), today).Done? { RecalculatedInv(s, products, locked, today); }
  }

  /** Settling never hits a missing key and, when it succeeds, establishes the invariant. */
  lemma SettleKeepsInv(s: State, products: set<nat>, locked: set<nat>, today: int)
    requires Settleable(s, products, locked)
    ensures Settle(s, products, locked, today) != Refused(KeyError)
    ensures Settle(s, products, locked, today).Done? ==> Inv(Settle(s, products, locked, today).state)
  {
    hide Settleable, RecalculateAll, Inv, EvaluateAll;
    SettledFrom(s, products, locked, today);
  }

  /** The locked set covers every live order of the affected products. */
  lemma OutsideLocked(w: World, products: set<nat>, locked: set<nat>, o: nat)
    requires Candidates(w, products) <= locked && Live(w, o) && o !in locked
    ensures ProductsOfOrder(w, o) !! products
  {
    forall p | p in ProductsOfOrder(w, o) ensures p !in products {
      var l :| l in LinesOfOrder(w, o) && w.lines[l].source.OfProduct? && w.lines[l].source.productId == p;
      var id := w.lines[l].orderId;
      assert p in products ==> id in Candidates(w, products);
    }
  }

  // ---- a change of one order's status ----

  /** A product the order has no line of does not notice the change. */
  lemma OtherProductsUnmoved(s: State, o: nat, status: Status, p: nat)
    requires AllClean(s) && o in s.world.orders && WorldOk(WithStatus(s, o, status).world)
    requires p !in ProductsOfOrder(s.world, o)
    ensures ProductClean(WithStatus(s, o, status), p)
  {
    hide Clean, WorldOk, ProducedFor;
    var s1 := WithStatus(s, o, status);
    StatusSameFor(s, o, status, p);
    assert ProductClean(s, p);
    if p in s.world.products && s.world.products[p].Produced? {
      CleanSame(ClosureOf(s, p), s.world, s1.world, p, s.generation);
    }
    SameReservations(s.world, s1.world, p);
  }

  lemma StatusSameFor(s: State, o: nat, status: Status, p: nat)
    requires WorldOk(s.world) && o in s.world.orders && p !in ProductsOfOrder(s.world, o)
    ensures SameFor(s.world, WithStatus(s, o, status).world, p)
  {
    hide ProducedFor;
    var w, w1 := s.world, WithStatus(s, o, status).world;
    forall l | l in w.lines && w.lines[l].source == OfProduct(p) ensures w.lines[l].orderId != o {
      assert w.lines[l].orderId == o ==> l in LinesOfOrder(w, o) && p in ProductsOfOrder(w, o);
    }
    forall l | LiveLine(w, l, p) ensures SameLine(w, w1, l) { assert LineOk(w, l); }
  }

  lemma StatusWorldOk(s: State, o: nat, status: Status)
    requires WorldOk(s.world) && o in s.world.orders
    requires (status == Confirmed || status == Ready) ==> s.world.orders[o].date.Some?
    ensures WorldOk(WithStatus(s, o, status).world)
  {
    var w' := WithStatus(s, o, status).world;
    forall l | l in w'.lines ensures LineOk(w', l) { assert LineOk(s.world, l); }
  }

  /** The closures of the order's own products can be rebuilt after its status changed, provided it
      was not Ready-and-still-live and no line of it is production-locked, or it only became live. */
  lemma OwnProductsRebuildable(s: State, o: nat, status: Status, p: nat)
    requires AllClean(s) && o in s.world.orders && WorldOk(WithStatus(s, o, status).world)
    requires status != Ready
    requires Live(s.world, o) && status != Confirmed ==> !OrderLocked(s, o)
    ensures ProductBase(WithStatus(s, o, status), p, {})
  {
    var s1 := WithStatus(s, o, status);
    assert ProductClean(s, p);
    if p in s.world.products && s.world.products[p].Produced? {
      var c := ClosureOf(s, p);
      assert StillRebuildable(c, s.world, s1.world, p, {}) by {
        OwnStillRebuildable(s, o, status, p);
      }
      hide Clean, StillRebuildable, Base, WorldOk;
      BaseAfterChange(c, s.world, s1.world, p, s.generation, {});
    }
  }

  lemma OwnStillRebuildable(s: State, o: nat, status: Status, p: nat)
    requires WorldOk(s.world) && Clean(ClosureOf(s, p), s.world, p, s.generation) && o in s.world.orders
      && status != Ready
    requires Live(s.world, o) && status != Confirmed ==> !OrderLocked(s, o)
    ensures StillRebuildable(ClosureOf(s, p), s.world, WithStatus(s, o, status).world, p, {})
  {
    hide OnLot, OnLine, ProducedFor, Skeleton, Meets, ClaimsMeet;
    var c, w, w1 := ClosureOf(s, p), s.world, WithStatus(s, o, status).world;
    assert Protected(w1) == Protected(w);
    forall l | l in LockedLines(c, w1) ensures LiveLine(w1, l, p) && SameTerms(w, w1, l) && LiveLine(w, l, p) {
      var k :| k in c.links && k.req in Protected(w) && k.lineId == l;
      assert ProperLink(k, w, p);
      assert LineOk(w, l);
      if w.lines[l].orderId == o { assert l in LinesOfOrder(w, o) && LineLocked(s, l); }
    }
    forall l | FixedLine(c, w1, l, p) ensures l in w1.lines && OnLine(c.rows, l) <= StillOpen(w1, l) {
      assert LiveLine(w, l, p);
    }
    forall l | l in w1.lots && w1.lots[l].productId == p
      ensures OnLot(RunRows(c, w1), l) + OnLot(ReadyRows(c, w1, p, {}), l) <= w1.lots[l].physical
    {
      FixedFits(c, w1, p, {}, l);
    }
  }

  /** Everything a status change needs before settling. */
  lemma StatusSettleable(s: State, o: nat, status: Status, locked: set<nat>)
    requires Inv(s) && o in s.world.orders && status != Ready
    requires status == Confirmed ==> s.world.orders[o].date.Some? && !Live(s.world, o)
    requires Live(s.world, o) ==> !OrderLocked(s, o)
    requires Candidates(s.world, ProductsOfOrder(s.world, o)) + {o} <= locked
    ensures Settleable(WithStatus(s, o, status), ProductsOfOrder(s.world, o), locked)
  {
    hide WorldOk, Clean, Satisfied, ProductsOfOrder, Candidates, LedgerOk;
    var s1 := WithStatus(s, o, status);
    StatusWorldOk(s, o, status);
    forall p | p in ProductsOfOrder(s.world, o)
      ensures ProductBase(s1, p, {})
    {
      OwnProductsRebuildable(s, o, status, p);
    }
    forall p | p !in ProductsOfOrder(s.world, o) ensures ProductClean(s1, p) { OtherProductsUnmoved(s, o, status, p); }
    forall q | q in s1.world.orders && s1.world.orders[q].status == Ready && q !in locked
      ensures Satisfied(s1, q) && ProductsOfOrder(s1.world, q) !! ProductsOfOrder(s.world, o)
    {
      OutsideLocked(s.world, ProductsOfOrder(s.world, o), locked, q);
      StatusKeepsSatisfaction(s, o, status, q);
    }
    StatusKeepsStock(s, o, status);
  }

  lemma StatusKeepsSatisfaction(s: State, o: nat, status: Status, q: nat)
    requires o in s.world.orders
    ensures Satisfied(WithStatus(s, o, status), q) <==> Satisfied(s, q)
    ensures ProductsOfOrder(WithStatus(s, o, status).world, q) == ProductsOfOrder(s.world, q)
  {
    var s1 := WithStatus(s, o, status);
    forall l | l in LinesOfOrder(s.world, q) ensures SameSupply(s, s1, l) {}
    SameSupplySatisfies(s, s1, q);
  }

  lemma StatusKeepsStock(s: State, o: nat, status: Status)
    requires StockOk(s) && o in s.world.orders
    ensures StockOk(WithStatus(s, o, status))
  {
    forall account ensures BalanceOf(WithStatus(s, o, status), account) == BalanceOf(s, account) {}
  }

  // ---- confirm and cancel ----

  lemma ConfirmKeepsInv(s: State, o: nat, locked: set<nat>, today: int, acknowledged: set<Fingerprint>)
    requires Inv(s)
    ensures Confirm(s, o, locked, today, acknowledged) != Refused(KeyError)
    ensures Confirm(s, o, locked, today, acknowledged).Done? ==> Inv(Confirm(s, o, locked, today, acknowledged).state)
  {
    hide Inv, Settleable, RecalculateAll, EvaluateAll, Fingerprints, Candidates, ProductsOfOrder;
    if o in s.world.orders && s.world.orders[o].status == Draft && s.world.orders[o].date.Some?
       && Candidates(s.world, ProductsOfOrder(s.world, o)) + {o} <= locked {
      StatusSettleable(s, o, Confirmed, locked);
      SettledFrom(WithStatus(s, o, Confirmed), ProductsOfOrder(s.world, o), locked, today);
    }
  }

  lemma CancelKeepsInv(s: State, o: nat, locked: set<nat>, today: int, acknowledged: bool)
    requires Inv(s)
    ensures Cancel(s, o, locked, today, acknowledged) != Refused(KeyError)
    ensures Cancel(s, o, locked, today, acknowledged).Done? ==> Inv(Cancel(s, o, locked, today, acknowledged).state)
  {
    hide Inv, Settleable, RecalculateAll, EvaluateAll, Candidates, ProductsOfOrder, OrderLocked, Settle;
    if o in s.world.orders && Live(s.world, o) && !OrderLocked(s, o)
       && Candidates(s.world, ProductsOfOrder(s.world, o)) + {o} <= locked {
      StatusSettleable(s, o, Canceled, locked);
      SettleKeepsInv(WithStatus(s, o, Canceled), ProductsOfOrder(s.world, o), locked, today);
    }
  }

  // ---- edits ----

  lemma EditedWorldOk(w: World, o: nat, p: Payload)
    requires WorldOk(w) && o in w.orders && ValidPayload(w, o, p) && !RemovesProduced(w, o, p)
    requires Live(w, o) ==> p.date.Some?
    ensures WorldOk(ReplaceLines(w, o, p))
  {
    var w1 := ReplaceLines(w, o, p);
    forall l | l in w1.lines ensures LineOk(w1, l) {
      if l in p.lines { assert ValidLine(w, o, l, p.lines[l]); } else { assert LineOk(w, l); }
    }
    forall x | x in w1.outputs ensures x.lineId in w1.lines && x.quantity > 0 {
      assert x in w.outputs;
    }
  }

  /** Lines of other orders, and lines of the order the payload repeats, are untouched. */
  lemma EditedLine(w: World, o: nat, p: Payload, l: nat)
    requires o in w.orders && ValidPayload(w, o, p) && l in w.lines
    requires w.lines[l].orderId != o
    ensures l in ReplaceLines(w, o, p).lines && ReplaceLines(w, o, p).lines[l] == w.lines[l]
  {
    assert l in p.lines ==> ValidLine(w, o, l, p.lines[l]);
  }

  lemma EditedOrigin(w: World, o: nat, p: Payload, l: nat)
    requires o in w.orders && ValidPayload(w, o, p) && l in ReplaceLines(w, o, p).lines
    ensures
      var line := ReplaceLines(w, o, p).lines[l];
      if line.orderId == o then l in p.lines && line == p.lines[l] else l in w.lines && w.lines[l] == line
  {
    if l in p.lines { assert ValidLine(w, o, l, p.lines[l]); }
  }

  lemma EditLeavesProduct(w: World, o: nat, p: Payload, q: nat)
    requires WorldOk(w) && o in w.orders && ValidPayload(w, o, p)
    requires q !in ProductsOfOrder(w, o) && q !in NewProducts(p)
    ensures SameFor(w, ReplaceLines(w, o, p), q)
  {
    hide ProducedFor;
    var w1 := ReplaceLines(w, o, p);
    forall l | l in w.lines && w.lines[l].source == OfProduct(q) ensures w.lines[l].orderId != o {
      assert w.lines[l].orderId == o ==> l in LinesOfOrder(w, o) && q in ProductsOfOrder(w, o);
    }
    forall l | LiveLine(w, l, q) ensures LiveLine(w1, l, q) && SameLine(w, w1, l) {
      assert LineOk(w, l);
      EditedLine(w, o, p, l);
    }
    forall l | LiveLine(w1, l, q) ensures LiveLine(w, l, q) {
      EditedOrigin(w, o, p, l);
      assert w1.lines[l].orderId == o ==> q in NewProducts(p);
    }
  }

  lemma EditedOtherProduct(s: State, o: nat, p: Payload, q: nat)
    requires AllClean(s) && o in s.world.orders && ValidPayload(s.world, o, p)
    requires WorldOk(ReplaceLines(s.world, o, p)) && q !in ProductsOfOrder(s.world, o) && q !in NewProducts(p)
    ensures ProductClean(s.(world := ReplaceLines(s.world, o, p)), q)
  {
    hide Clean, WorldOk, SameFor, ValidPayload;
    var s1 := s.(world := ReplaceLines(s.world, o, p));
    EditLeavesProduct(s.world, o, p, q);
    assert ProductClean(s, q);
    if q in s.world.products && s.world.products[q].Produced? {
      CleanSame(ClosureOf(s, q), s.world, s1.world, q, s.generation);
    }
    SameReservations(s.world, s1.world, q);
  }

  /** The guard on protected lines is what lets an edited product be rebuilt. */
  lemma EditStillRebuildable(s: State, o: nat, p: Payload, touched: set<nat>, q: nat)
    requires WorldOk(s.world) && Clean(ClosureOf(s, q), s.world, q, s.generation) && o in s.world.orders
    requires s.world.orders[o].status == Confirmed && ValidPayload(s.world, o, p) && !TouchesLocked(s, o, p, touched)
    requires forall l :: LineChanged(s.world, p, l) ==> l in touched
    ensures StillRebuildable(ClosureOf(s, q), s.world, ReplaceLines(s.world, o, p), q, {})
  {
    hide OnLot, OnLine, ProducedFor, Skeleton, Meets, ClaimsMeet;
    var c, w, w1 := ClosureOf(s, q), s.world, ReplaceLines(s.world, o, p);
    assert Protected(w1) == Protected(w);
    forall l | l in LockedLines(c, w1) ensures LiveLine(w1, l, q) && SameTerms(w, w1, l) && LiveLine(w, l, q) {
      var k :| k in c.links && k.req in Protected(w) && k.lineId == l;
      assert ProperLink(k, w, q);
      LockedLineUnedited(s, o, p, touched, q, l);
    }
    forall l | ReadyLine(w1, l, q) ensures LiveLine(w, l, q) && w1.lines[l] == w.lines[l] { EditedOrigin(w, o, p, l); }
    forall l | FixedLine(c, w1, l, q) ensures l in w1.lines && OnLine(c.rows, l) <= StillOpen(w1, l) {
      assert LiveLine(w, l, q);
    }
    forall l | l in w1.lots && w1.lots[l].productId == q
      ensures OnLot(RunRows(c, w1), l) + OnLot(ReadyRows(c, w1, q, {}), l) <= w1.lots[l].physical
    {
      FixedFits(c, w1, q, {}, l);
    }
  }

  lemma LockedLineUnedited(s: State, o: nat, p: Payload, touched: set<nat>, q: nat, l: nat)
    requires WorldOk(s.world) && o in s.world.orders && ValidPayload(s.world, o, p) && !TouchesLocked(s, o, p, touched)
    requires forall m :: LineChanged(s.world, p, m) ==> m in touched
    requires LiveLine(s.world, l, q) && l in LockedLines(ClosureOf(s, q), s.world)
    ensures LiveLine(ReplaceLines(s.world, o, p), l, q) && SameTerms(s.world, ReplaceLines(s.world, o, p), l)
  {
    var w := s.world;
    assert LineOk(w, l);
    if w.lines[l].orderId == o {
      assert l in LinesOfOrder(w, o) && LineLocked(s, l);
      assert ValidLine(w, o, l, p.lines[l]);
      assert !LineChanged(w, p, l);
    } else {
      EditedLine(w, o, p, l);
    }
  }

  lemma EditedOwnProduct(s: State, o: nat, p: Payload, touched: set<nat>, q: nat)
    requires AllClean(s) && o in s.world.orders && WorldOk(ReplaceLines(s.world, o, p))
    requires s.world.orders[o].status == Confirmed && ValidPayload(s.world, o, p) && !TouchesLocked(s, o, p, touched)
    requires forall l :: LineChanged(s.world, p, l) ==> l in touched
    ensures ProductBase(s.(world := ReplaceLines(s.world, o, p)), q, {})
  {
    hide Clean, StillRebuildable, Base, WorldOk, ValidPayload, TouchesLocked, LineChanged;
    var s1 := s.(world := ReplaceLines(s.world, o, p));
    assert ProductClean(s, q);
    if q in s.world.products && s.world.products[q].Produced? {
      EditStillRebuildable(s, o, p, touched, q);
      BaseAfterChange(ClosureOf(s, q), s.world, s1.world, q, s.generation, {});
    }
  }

  lemma EditKeepsOthersSatisfied(s: State, o: nat, p: Payload, q: nat)
    requires o in s.world.orders && ValidPayload(s.world, o, p) && q != o
    ensures Satisfied(s.(world := ReplaceLines(s.world, o, p)), q) <==> Satisfied(s, q)
    ensures ProductsOfOrder(ReplaceLines(s.world, o, p), q) == ProductsOfOrder(s.world, q)
  {
    var s1 := s.(world := ReplaceLines(s.world, o, p));
    assert LinesOfOrder(s1.world, q) == LinesOfOrder(s.world, q) by {
      forall l | l in LinesOfOrder(s.world, q) ensures l in LinesOfOrder(s1.world, q) { EditedLine(s.world, o, p, l); }
      forall l | l in LinesOfOrder(s1.world, q)
        ensures l in LinesOfOrder(s.world, q)
      {
        EditedOrigin(s.world, o, p, l);
      }
    }
    forall l | l in LinesOfOrder(s.world, q) ensures SameSupply(s, s1, l) { EditedLine(s.world, o, p, l); }
    SameSupplySatisfies(s, s1, q);
  }

  lemma WorldChangeKeepsStock(s: State, w: World)
    requires StockOk(s) && w.lots == s.world.lots
    ensures StockOk(s.(world := w))
  {
    forall account ensures BalanceOf(s.(world := w), account) == BalanceOf(s, account) {}
  }

  lemma EditSettleable(s: State, o: nat, p: Payload, touched: set<nat>, locked: set<nat>)
    requires Inv(s) && o in s.world.orders && s.world.orders[o].status == Confirmed && p.date.Some?
    requires ValidPayload(s.world, o, p) && !RemovesProduced(s.world, o, p) && !TouchesLocked(s, o, p, touched)
    requires forall l :: LineChanged(s.world, p, l) ==> l in touched
    requires Candidates(s.world, ProductsOfOrder(s.world, o) + NewProducts(p)) + {o} <= locked
    ensures Settleable(s.(world := ReplaceLines(s.world, o, p)), ProductsOfOrder(s.world, o) + NewProducts(p), locked)
  {
    hide WorldOk, Clean, Satisfied, ProductsOfOrder, Candidates, LedgerOk, ValidPayload, RemovesProduced, TouchesLocked,
      LineChanged;
    var w := s.world;
    var s1 := s.(world := ReplaceLines(w, o, p));
    var products := ProductsOfOrder(w, o) + NewProducts(p);
    EditedWorldOk(w, o, p);
    forall q | q in products ensures ProductBase(s1, q, {}) { EditedOwnProduct(s, o, p, touched, q); }
    forall q | q !in products ensures ProductClean(s1, q) { EditedOtherProduct(s, o, p, q); }
    forall q | q in s1.world.orders && s1.world.orders[q].status == Ready && q !in locked
      ensures Satisfied(s1, q) && ProductsOfOrder(s1.world, q) !! products
    {
      OutsideLocked(w, products, locked, q);
      EditKeepsOthersSatisfied(s, o, p, q);
    }
    WorldChangeKeepsStock(s, s1.world);
  }

  /** An edit that affects no demand leaves every product line as it was. */
  lemma QuietEditSameFor(s: State, o: nat, p: Payload, q: nat)
    requires WorldOk(s.world) && o in s.world.orders && ValidPayload(s.world, o, p)
    requires !DemandAffecting(s.world, o, p, {}) && forall l :: !LineChanged(s.world, p, l)
    ensures SameFor(s.world, ReplaceLines(s.world, o, p), q)
  {
    hide ProducedFor;
    var w, w1 := s.world, ReplaceLines(s.world, o, p);
    forall l | LiveLine(w, l, q) ensures LiveLine(w1, l, q) && SameLine(w, w1, l) {
      assert LineOk(w, l);
      if w.lines[l].orderId == o {
        assert l in LinesOfOrder(w, o);
        assert ValidLine(w, o, l, p.lines[l]) && !LineChanged(w, p, l);
      } else {
        EditedLine(w, o, p, l);
      }
    }
    forall l | LiveLine(w1, l, q) ensures LiveLine(w, l, q) {
      EditedOrigin(w, o, p, l);
      if w1.lines[l].orderId == o { assert ValidLine(w, o, l, p.lines[l]) && !LineChanged(w, p, l); }
    }
  }

  lemma QuietEditKeepsInv(s: State, o: nat, p: Payload)
    requires Inv(s) && o in s.world.orders && s.world.orders[o].status == Confirmed && p.date.Some?
    requires ValidPayload(s.world, o, p) && !RemovesProduced(s.world, o, p)
    requires !DemandAffecting(s.world, o, p, {}) && forall l :: !LineChanged(s.world, p, l)
    ensures Inv(s.(world := ReplaceLines(s.world, o, p)))
  {
    hide WorldOk, Clean, Satisfied, LedgerOk, ValidPayload, RemovesProduced, LineChanged, DemandAffecting, SameFor;
    var s1 := s.(world := ReplaceLines(s.world, o, p));
    EditedWorldOk(s.world, o, p);
    forall q ensures ProductClean(s1, q) {
      QuietEditSameFor(s, o, p, q);
      assert ProductClean(s, q);
      if q in s.world.products && s.world.products[q].Produced? {
        CleanSame(ClosureOf(s, q), s.world, s1.world, q, s.generation);
      }
      SameReservations(s.world, s1.world, q);
    }
    forall q | q in s1.world.orders && s1.world.orders[q].status == Ready ensures Satisfied(s1, q) {
      EditKeepsOthersSatisfied(s, o, p, q);
    }
    WorldChangeKeepsStock(s, s1.world);
  }

  lemma EditKeepsInv(
      s: State, o: nat, p: Payload, touched: set<nat>, locked: set<nat>, today: int, acknowledged: set<Fingerprint>)
    requires Inv(s)
    ensures Edit(s, o, p, touched, locked, today, acknowledged) != Refused(KeyError)
    ensures Edit(s, o, p, touched, locked, today, acknowledged).Done? ==>
      Inv(Edit(s, o, p, touched, locked, today, acknowledged).state)
  {
    hide Inv, Settleable, RecalculateAll, EvaluateAll, Fingerprints, Candidates, ProductsOfOrder, ValidPayload,
      RemovesProduced, TouchesLocked, LineChanged, ReplaceLines;
    var w := s.world;
    if && o in w.orders && w.orders[o].status == Confirmed && p.date.Some? && ValidPayload(w, o, p)
       && (forall l :: LineChanged(w, p, l) ==> l in touched)
       && !TouchesLocked(s, o, p, touched) && !RemovesProduced(w, o, p)
    {
      if !DemandAffecting(w, o, p, touched) {
        assert touched == {};
        QuietEditKeepsInv(s, o, p);
      } else if Candidates(w, ProductsOfOrder(w, o) + NewProducts(p)) + {o} <= locked {
        EditSettleable(s, o, p, touched, locked);
        SettledFrom(s.(world := ReplaceLines(w, o, p)), ProductsOfOrder(w, o) + NewProducts(p), locked, today);
      }
    }
  }

  // ---- drafts and the manual flag ----

  lemma DraftSameFor(w: World, o: nat, p: Payload, q: nat)
    requires WorldOk(w) && ValidPayload(w, o, p) && !Live(w, o)
    ensures SameFor(w, ReplaceLines(w.(orders := w.orders[o := Order(Draft, p.date, p.time)]), o, p), q)
  {
    hide ProducedFor;
    var w0 := w.(orders := w.orders[o := Order(Draft, p.date, p.time)]);
    var w1 := ReplaceLines(w0, o, p);
    forall l | LiveLine(w, l, q) ensures LiveLine(w1, l, q) && SameLine(w, w1, l) {
      assert LineOk(w, l);
      EditedLine(w0, o, p, l);
    }
    forall l | LiveLine(w1, l, q) ensures LiveLine(w, l, q) { EditedOrigin(w0, o, p, l); }
  }

  lemma DraftWorldOk(w: World, o: nat, p: Payload)
    requires WorldOk(w) && ValidPayload(w, o, p) && !Live(w, o) && !RemovesProduced(w, o, p)
    ensures WorldOk(ReplaceLines(w.(orders := w.orders[o := Order(Draft, p.date, p.time)]), o, p))
  {
    var w0 := w.(orders := w.orders[o := Order(Draft, p.date, p.time)]);
    forall l | l in w0.lines ensures LineOk(w0, l) { assert LineOk(w, l); }
    EditedWorldOk(w0, o, p);
  }

  lemma SaveDraftKeepsInv(s: State, o: nat, p: Payload)
    requires Inv(s) && SaveDraft(s, o, p).Done?
    ensures Inv(SaveDraft(s, o, p).state)
  {
    hide WorldOk, Clean, Satisfied, LedgerOk, ValidPayload, RemovesProduced, SameFor, ReplaceLines;
    var w := s.world;
    var w1 := ReplaceLines(w.(orders := w.orders[o := Order(Draft, p.date, p.time)]), o, p);
    var s1 := s.(world := w1);
    DraftWorldOk(w, o, p);
    DraftShape(w, o, p);
    forall q ensures ProductClean(s1, q) {
      DraftSameFor(w, o, p, q);
      assert ProductClean(s, q);
      if q in w.products && w.products[q].Produced? { CleanSame(ClosureOf(s, q), w, w1, q, s.generation); }
      SameReservations(w, w1, q);
    }
    forall q | q in w1.orders && w1.orders[q].status == Ready ensures Satisfied(s1, q) {
      var s0 := s.(world := w.(orders := w.orders[o := Order(Draft, p.date, p.time)]));
      DraftHeaderKeepsSatisfaction(s, o, Order(Draft, p.date, p.time), q);
      EditKeepsOthersSatisfied(s0, o, p, q);
    }
    WorldChangeKeepsStock(s, w1);
  }

  lemma DraftShape(w: World, o: nat, p: Payload)
    ensures
      var w0 := w.(orders := w.orders[o := Order(Draft, p.date, p.time)]);
      var w1 := ReplaceLines(w0, o, p);
      w1.products == w.products && w1.lots == w.lots && w1.orders == w.orders[o := Order(Draft, p.date, p.time)]
      && (ValidPayload(w, o, p) <==> ValidPayload(w0, o, p))
  {
    var w0 := w.(orders := w.orders[o := Order(Draft, p.date, p.time)]);
    forall l | l in p.lines ensures ValidLine(w, o, l, p.lines[l]) <==> ValidLine(w0, o, l, p.lines[l]) {}
  }

  lemma DraftHeaderKeepsSatisfaction(s: State, o: nat, order: Order, q: nat)
    ensures Satisfied(s.(world := s.world.(orders := s.world.orders[o := order])), q) <==> Satisfied(s, q)
  {
    var s1 := s.(world := s.world.(orders := s.world.orders[o := order]));
    forall l | l in LinesOfOrder(s.world, q) ensures SameSupply(s, s1, l) {}
    SameSupplySatisfies(s, s1, q);
  }

  lemma SetManualKeepsInv(s: State, o: nat, l: nat, satisfied: bool)
    requires Inv(s) && SetManual(s, o, l, satisfied).Done?
    ensures Inv(SetManual(s, o, l, satisfied).state)
  {
    hide Clean, LedgerOk, Satisfied, WorldOk, SameFor;
    var w := s.world;
    var w1 := w.(lines := w.lines[l := w.lines[l].(source := CustomItem(true, satisfied))]);
    var s1 := s.(world := w1);
    FlagWorldOk(w, l, satisfied);
    forall q ensures ProductClean(s1, q) {
      FlagSameFor(w, l, satisfied, q);
      assert ProductClean(s, q);
      if q in w.products && w.products[q].Produced? { CleanSame(ClosureOf(s, q), w, w1, q, s.generation); }
      SameReservations(w, w1, q);
    }
    forall q | q in w1.orders && w1.orders[q].status == Ready && q !in {o} ensures Satisfied(s1, q) {
      FlagSparesOthers(s, l, satisfied, q);
    }
    WorldChangeKeepsStock(s, w1);
    EvaluatedInv(s1, {o});
  }

  lemma FlagWorldOk(w: World, l: nat, satisfied: bool)
    requires WorldOk(w) && l in w.lines
    ensures WorldOk(w.(lines := w.lines[l := w.lines[l].(source := CustomItem(true, satisfied))]))
  {
    var w1 := w.(lines := w.lines[l := w.lines[l].(source := CustomItem(true, satisfied))]);
    forall m | m in w1.lines ensures LineOk(w1, m) { assert LineOk(w, m) && LineOk(w, l); }
  }

  lemma FlagSameFor(w: World, l: nat, satisfied: bool, q: nat)
    requires WorldOk(w) && l in w.lines && w.lines[l].source.CustomItem?
    ensures SameFor(w, w.(lines := w.lines[l := w.lines[l].(source := CustomItem(true, satisfied))]), q)
  {
    hide ProducedFor;
    var w1 := w.(lines := w.lines[l := w.lines[l].(source := CustomItem(true, satisfied))]);
    forall m | LiveLine(w, m, q) ensures SameLine(w, w1, m) { assert LineOk(w, m); }
  }

  lemma FlagSparesOthers(s: State, l: nat, satisfied: bool, q: nat)
    requires l in s.world.lines && s.world.lines[l].orderId != q
    ensures Satisfied(s.(world :=
      s.world.(lines := s.world.lines[l := s.world.lines[l].(source := CustomItem(true, satisfied))])), q)
      <==> Satisfied(s, q)
  {
    var s1 := s.(world :=
      s.world.(lines := s.world.lines[l := s.world.lines[l].(source := CustomItem(true, satisfied))]));
    assert LinesOfOrder(s1.world, q) == LinesOfOrder(s.world, q);
    forall m | m in LinesOfOrder(s.world, q) ensures SameSupply(s, s1, m) {}
    SameSupplySatisfies(s, s1, q);
  }
}
