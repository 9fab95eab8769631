/** Who is promised surplus when a product is recalculated, spelled out on orders, lines and lots: earlier lines
    are covered before later ones, sooner lots are spent before later ones, and nothing usable stays idle. */
module RebuildPriority {
  import opened Sorting
  import opened Deadlines
  import opened PlanningState
  import opened Recalculation
  import opened RecalculationFacts
  import opened PlanningInvariant
  import opened RecalculationTheorems
  import opened PlanningSystem
  import Allocator = SurplusAllocation
  import Surplus = SurplusTheorems
  import Stability = SurplusStability
  import Priority = SurplusPriority

  // ---- lines and lots ----

  /** A line of an order in play that no run in production makes. */
  predicate Waits(c: Closure, w: World, p: nat, l: nat) {
    && l in w.lines && w.lines[l].source == OfProduct(p) && w.lines[l].orderId in w.orders
    && w.orders[w.lines[l].orderId].status in {Confirmed, Ready}
    && w.orders[w.lines[l].orderId].date.Some?
    && l !in LockedLines(c, w)
  }

  predicate Dated(w: World, l: nat) {
    l in w.lines && w.lines[l].orderId in w.orders && w.orders[w.lines[l].orderId].date.Some?
  }

  function LineDeadline(w: World, l: nat): Deadline
    requires Dated(w, l)
  {
    var order := w.orders[w.lines[l].orderId];
    Deadline(order.date.value, order.time, l)
  }

  /** A reusable lot of the product, still good today and on the line's date. */
  predicate Usable(w: World, p: nat, lot: nat, l: nat, today: int)
    requires Dated(w, l)
  {
    && lot in w.lots && w.lots[lot].productId == p && w.lots[lot].reusable
    && (w.lots[lot].usableThrough.Some? ==>
          w.lots[lot].usableThrough.value >= today
          && w.lots[lot].usableThrough.value >= w.orders[w.lines[l].orderId].date.value)
  }

  /** Earlier expiry with undated last, then older, then smaller id. */
  predicate SpentEarlier(w: World, x: nat, y: nat)
    requires x in w.lots && y in w.lots
  {
    var d, e := w.lots[x].usableThrough, w.lots[y].usableThrough;
    || Priority.ExpiresEarlier(d, e)
    || (d == e && w.lots[x].producedAt < w.lots[y].producedAt)
    || (d == e && w.lots[x].producedAt == w.lots[y].producedAt && x < y)
  }

  ghost predicate Promised(c: Closure, l: nat, lot: nat) {
    exists x :: x in c.rows && x.lineId == l && x.lotId == lot
  }

  /** Output and surplus make up the line's quantity. */
  predicate HasEnough(c: Closure, w: World, l: nat)
    requires l in w.lines
  {
    ProducedFor(w.outputs, l) + OnLine(c.rows, l) >= w.lines[l].quantity
  }

  // ---- what the allocator is given ----

  ghost function DemandAt(c: Closure, w: World, p: nat, ready: seq<SurplusRow>, l: nat): Allocator.DemandItem
    requires Waits(c, w, p, l)
  {
    DemandOf(ItemOf(c, w, p, ready, l))
  }

  lemma DemandIs(c: Closure, w: World, p: nat, ready: seq<SurplusRow>, l: nat)
    requires Waits(c, w, p, l)
    ensures
      var item, order := DemandAt(c, w, p, ready, l), w.orders[w.lines[l].orderId];
      && item.lineId == l && item.productId == p && item.demandDate == order.date.value
      && item.fulfillmentTime == order.time
      && item.quantity == w.lines[l].quantity - OnLine(ready, l) - ProducedFor(w.outputs, l)
  {
  }

  lemma SameOrder(c: Closure, w: World, p: nat, ready: seq<SurplusRow>, a: nat, b: nat)
    requires Waits(c, w, p, a) && Waits(c, w, p, b)
    ensures Priority.ServedBefore(DemandAt(c, w, p, ready, a), DemandAt(c, w, p, ready, b)) <==>
      DueBefore(LineDeadline(w, a), LineDeadline(w, b))
  {
    hide DemandAt;
    DemandIs(c, w, p, ready, a);
    DemandIs(c, w, p, ready, b);
  }

  lemma SameUse(
      c: Closure, w: World, p: nat, ready: seq<SurplusRow>, fixed: seq<SurplusRow>, lot: nat, l: nat, today: int)
    requires Waits(c, w, p, l) && lot in LotsOf(w, p)
    ensures Priority.CanServe(LotOf(w, fixed, lot), DemandAt(c, w, p, ready, l), today) <==> Usable(w, p, lot, l, today)
    ensures Allocator.Eligible(LotOf(w, fixed, lot), DemandAt(c, w, p, ready, l), today)
      <==> Usable(w, p, lot, l, today)
  {
    hide DemandAt;
    DemandIs(c, w, p, ready, l);
  }

  lemma SameLotOrder(w: World, fixed: seq<SurplusRow>, x: nat, y: nat)
    requires x in w.lots && y in w.lots
    ensures Priority.TakenBefore(LotOf(w, fixed, x), LotOf(w, fixed, y)) <==> SpentEarlier(w, x, y)
  {
  }

  /** Every waiting line and every reusable lot is there, once. */
  lemma Gathered(c: Closure, w: World, p: nat, ready: seq<SurplusRow>, fixed: seq<SurplusRow>)
    ensures
      var demands, lots := Demands(Items(c, w, p, ready)), Lots(w, p, fixed);
      && Allocator.DistinctItems(demands) && Allocator.DistinctLots(lots)
      && (forall l :: Waits(c, w, p, l) ==> DemandAt(c, w, p, ready, l) in demands)
      && (forall lot :: lot in LotsOf(w, p) ==> LotOf(w, fixed, lot) in lots)
      && (forall item :: item in demands ==> item.lineId in DemandLines(c, w, p))
      && (forall x :: x in lots ==> x.lotId in LotsOf(w, p) && x == LotOf(w, fixed, x.lotId))
  {
    hide ItemOf, LotOf, DemandLines;
    var items, demands, lots := Items(c, w, p, ready), Demands(Items(c, w, p, ready)), Lots(w, p, fixed);
    ItemsAre(c, w, p, ready);
    DemandsDistinct(items);
    LotsAre(w, p, fixed);
    hide Items, Lots;
    forall l | Waits(c, w, p, l) ensures DemandAt(c, w, p, ready, l) in demands {
      WaitsIsDemand(c, w, p, l);
      var i :| 0 <= i < |items| && items[i].lineId == l;
      assert demands[i] == DemandAt(c, w, p, ready, l);
    }
    forall item | item in demands ensures item.lineId in DemandLines(c, w, p) {
      var i :| 0 <= i < |demands| && demands[i] == item;
      assert demands[i].lineId == items[i].lineId;
    }
    forall lot | lot in LotsOf(w, p) ensures LotOf(w, fixed, lot) in lots {
      var j :| 0 <= j < |lots| && lots[j].lotId == lot;
    }
    forall x | x in lots ensures x.lotId in LotsOf(w, p) && x == LotOf(w, fixed, x.lotId) {
      var j :| 0 <= j < |lots| && lots[j] == x;
    }
  }

  lemma WaitsIsDemand(c: Closure, w: World, p: nat, l: nat)
    requires Waits(c, w, p, l)
    ensures l in DemandLines(c, w, p)
  {
  }

  // ---- what the rows are ----

  /** A row of a Confirmed order's waiting line is a share of this allocation. */
  lemma RowIsAShare(
      c: Closure, w: World, p: nat, g: nat, impaired: set<nat>, items: seq<Item>, shares: seq<Allocator.Allocation>,
      c': Closure, l: nat, lot: nat)
    requires Skeleton(c, w, p, g) && Waits(c, w, p, l) && w.orders[w.lines[l].orderId].status == Confirmed
    requires RebuiltFrom(c, w, p, g, items, shares, ReadyRows(c, w, p, impaired), c') && Promised(c', l, lot)
    ensures Priority.Draws(shares, l, lot)
  {
    hide KeyMap, Groups, Claims, Links, Storable, Keys, ReadyRows, RunRows, Kept, LockedLines;
    var ready := ReadyRows(c, w, p, impaired);
    KeptIsProtected(c, w, p, g);
    var x :| x in c'.rows && x.lineId == l && x.lotId == lot;
    if x in RunRows(c, w) {
      RunRowsAre(c, w, x);
      RunRowIsLocked(c, w, p, g, x);
      assert false;
    } else if x in Clones(ready, KeyMap(items), g) {
      CloneOrigin(ready, KeyMap(items), g, x);
      var y :| y in ready && x == y.(req := x.req);
      ReadyRowsAre(c, w, p, impaired, y);
      assert false;
    } else {
      FreshRowOrigin(shares, KeyMap(items), g, x);
      var a :| a in shares && a.lotId == x.lotId && a.lineId == x.lineId && a.quantity == x.quantity;
    }
  }

  lemma RunRowIsLocked(c: Closure, w: World, p: nat, g: nat, x: SurplusRow)
    requires Skeleton(c, w, p, g) && x in c.rows && x.req in Protected(w)
    ensures x.lineId in LockedLines(c, w)
  {
    assert RowOk(x, c, w, p);
  }

  // ---- a successful recalculation ----

  /** A product that can be recalculated, successfully. */
  ghost predicate Recalculated(s: State, p: nat, today: int, impaired: set<nat>) {
    && WorldOk(s.world) && IsProduced(s.world, p) && ProductBase(s, p, impaired)
    && Recalculate(s, p, today, impaired).Done?
  }

  ghost function Rebuilt(s: State, p: nat, today: int, impaired: set<nat>): Closure
    requires Recalculated(s, p, today, impaired)
  {
    ClosureOf(Recalculate(s, p, today, impaired).state, p)
  }

  /** The allocation behind a rebuilt closure. */
  ghost predicate Behind(
      s: State, p: nat, today: int, impaired: set<nat>, items: seq<Item>, lots: seq<Allocator.SurplusLot>,
      shares: seq<Allocator.Allocation>, c': Closure)
  {
    var c, w, g := ClosureOf(s, p), s.world, s.generation;
    var ready := ReadyRows(c, w, p, impaired);
    && Skeleton(c, w, p, g)
    && items == Items(c, w, p, ready) && lots == Lots(w, p, RunRows(c, w) + ready)
    && shares == Allocator.Allocate(lots, Demands(items), today)
    && ItemsFit(c, w, p, g, items, ready)
    && RebuiltFrom(c, w, p, g, items, shares, ready, c')
    && AllKeyed(shares, KeyMap(items)) && RowsKeyed(ready, KeyMap(items))
  }

  lemma BehindIt(s: State, p: nat, today: int, impaired: set<nat>)
      returns (items: seq<Item>, lots: seq<Allocator.SurplusLot>, shares: seq<Allocator.Allocation>)
    requires Recalculated(s, p, today, impaired)
    ensures Behind(s, p, today, impaired, items, lots, shares, Rebuilt(s, p, today, impaired))
  {
    hide ComputeFor, Replace, Base, Skeleton, WorldOk, Items, Lots, ReadyRows, RunRows, RebuiltFrom, AllKeyed,
      RowsKeyed, KeyMap, NewRows, NewRowsFit, Allocator.Allocate, Demands, ItemsFit;
    var c, w, g := ClosureOf(s, p), s.world, s.generation;
    var ready;
    items, shares, ready := Pieces(c, w, p, today, g, impaired);
    lots := Lots(w, p, RunRows(c, w) + ready);
    BaseHasSkeleton(c, w, p, g, impaired);
    Stability.SpentItemsChangeNothing(lots, Demands(items), today);
  }

  lemma LineAfter(
      s: State, p: nat, today: int, impaired: set<nat>, items: seq<Item>, lots: seq<Allocator.SurplusLot>,
      shares: seq<Allocator.Allocation>, l: nat)
    requires Recalculated(s, p, today, impaired)
      && Behind(s, p, today, impaired, items, lots, shares, Rebuilt(s, p, today, impaired))
    requires Waits(ClosureOf(s, p), s.world, p, l)
    ensures
      var c, w := ClosureOf(s, p), s.world;
      var item := DemandAt(c, w, p, ReadyRows(c, w, p, impaired), l);
      HasEnough(Rebuilt(s, p, today, impaired), w, l)
      <==> Surplus.OnLine(shares, l) >= item.quantity
  {
    hide Skeleton, Base, WorldOk, Items, Lots, ReadyRows, RunRows, RebuiltFrom, AllKeyed, RowsKeyed, KeyMap, ItemsFit,
      OnLine, Surplus.OnLine, ProducedFor, Recalculate, Allocator.Allocate, DemandAt;
    var c, w, g := ClosureOf(s, p), s.world, s.generation;
    var ready := ReadyRows(c, w, p, impaired);
    RebuiltOnLine(c, w, p, g, items, shares, ready, Rebuilt(s, p, today, impaired), l);
    DemandIs(c, w, p, ready, l);
  }

  /** All of the lot is promised. */
  predicate AllPromised(c: Closure, w: World, lot: nat)
    requires lot in w.lots
  {
    OnLot(c.rows, lot) == w.lots[lot].physical
  }

  lemma LotAfter(
      s: State, p: nat, today: int, impaired: set<nat>, items: seq<Item>, lots: seq<Allocator.SurplusLot>,
      shares: seq<Allocator.Allocation>, lot: nat)
    requires Recalculated(s, p, today, impaired)
      && Behind(s, p, today, impaired, items, lots, shares, Rebuilt(s, p, today, impaired))
    requires lot in LotsOf(s.world, p)
    requires
      var c, w := ClosureOf(s, p), s.world;
      var fixed := RunRows(c, w) + ReadyRows(c, w, p, impaired);
      Surplus.OnLot(shares, lot) >= Priority.Available(LotOf(w, fixed, lot))
    ensures AllPromised(Rebuilt(s, p, today, impaired), s.world, lot)
  {
    hide Skeleton, WorldOk, Items, Lots, ReadyRows, RunRows, RebuiltFrom, AllKeyed, RowsKeyed, KeyMap, ItemsFit, OnLot,
      Surplus.OnLot, Recalculate, Allocator.Allocate, FixedLineCaps, ProperLink;
    var c, w, g := ClosureOf(s, p), s.world, s.generation;
    var ready := ReadyRows(c, w, p, impaired);
    var c' := Rebuilt(s, p, today, impaired);
    RebuiltOnLot(c, w, p, g, items, shares, ready, c', lot);
    RecalculateOne(s, p, today, impaired);
    CapsOfClean(Recalculate(s, p, today, impaired).state, p, lot);
  }

  lemma CapsOfClean(s: State, p: nat, lot: nat)
    requires IsProduced(s.world, p) && ProductClean(s, p) && lot in s.world.lots && s.world.lots[lot].productId == p
    ensures OnLot(ClosureOf(s, p).rows, lot) <= s.world.lots[lot].physical
  {
  }

  // ---- the main results ----

  /** A line that is left short leaves no lot idle that it could use. */
  lemma NothingUsableStaysIdle(s: State, p: nat, today: int, impaired: set<nat>, l: nat, lot: nat)
    requires Recalculated(s, p, today, impaired) && Waits(ClosureOf(s, p), s.world, p, l)
    requires Usable(s.world, p, lot, l, today) && !HasEnough(Rebuilt(s, p, today, impaired), s.world, l)
    ensures AllPromised(Rebuilt(s, p, today, impaired), s.world, lot)
  {
    hide Recalculated, Rebuilt, Behind, DemandAt, LotOf, ItemOf, Items, Lots, ReadyRows, RunRows, Surplus.OnLine,
      Surplus.OnLot, Allocator.Allocate, Demands, Priority.CanServe, Priority.Available, Priority.DrawnBy;
    var c, w := ClosureOf(s, p), s.world;
    var ready := ReadyRows(c, w, p, impaired);
    var fixed := RunRows(c, w) + ready;
    var items, lots, shares := BehindIt(s, p, today, impaired);
    BehindShares(s, p, today, impaired, items, lots, shares);
    var item, source := DemandAt(c, w, p, ready, l), LotOf(w, fixed, lot);
    Gathered(c, w, p, ready, fixed);
    SameUse(c, w, p, ready, fixed, lot, l, today);
    LineAfter(s, p, today, impaired, items, lots, shares, l);
    DemandIs(c, w, p, ready, l);
    Priority.NothingIsHeldBack(lots, Demands(items), today, item, source);
    Priority.PartIsDrawn(shares, Priority.UpTo(Demands(items), item), lot);
    assert source.lotId == lot by { LotIdIs(w, fixed, lot); }
    LotAfter(s, p, today, impaired, items, lots, shares, lot);
  }

  lemma LotIdIs(w: World, fixed: seq<SurplusRow>, lot: nat)
    requires lot in w.lots
    ensures LotOf(w, fixed, lot).lotId == lot
  {
  }

  lemma BehindShares(
      s: State, p: nat, today: int, impaired: set<nat>, items: seq<Item>, lots: seq<Allocator.SurplusLot>,
      shares: seq<Allocator.Allocation>)
    requires Recalculated(s, p, today, impaired)
    requires Behind(s, p, today, impaired, items, lots, shares, Rebuilt(s, p, today, impaired))
    ensures
      var c, w := ClosureOf(s, p), s.world;
      var ready := ReadyRows(c, w, p, impaired);
      && items == Items(c, w, p, ready) && lots == Lots(w, p, RunRows(c, w) + ready)
      && shares == Allocator.Allocate(lots, Demands(items), today)
  {
    hide Recalculated, Skeleton, RebuiltFrom, ItemsFit, AllKeyed, RowsKeyed;
  }

  /** A new promise is from a lot its line may use. */
  lemma NewPromisesAreUsable(s: State, p: nat, today: int, impaired: set<nat>, l: nat, lot: nat)
    requires Recalculated(s, p, today, impaired) && Waits(ClosureOf(s, p), s.world, p, l)
    requires s.world.orders[s.world.lines[l].orderId].status == Confirmed
    requires Promised(Rebuilt(s, p, today, impaired), l, lot)
    ensures Usable(s.world, p, lot, l, today)
  {
    hide Recalculated, Rebuilt, DemandAt, LotOf, ItemOf, Items, Lots, ReadyRows, RunRows, Allocator.Allocate, Demands,
      Skeleton, RebuiltFrom, ItemsFit, AllKeyed, RowsKeyed, Promised, Allocator.Eligible;
    var c, w := ClosureOf(s, p), s.world;
    var ready := ReadyRows(c, w, p, impaired);
    var fixed := RunRows(c, w) + ready;
    var items, lots, shares := BehindIt(s, p, today, impaired);
    Gathered(c, w, p, ready, fixed);
    RowIsAShare(c, w, p, s.generation, impaired, items, shares, Rebuilt(s, p, today, impaired), l, lot);
    var r :| r in shares && r.lineId == l && r.lotId == lot;
    Surplus.AllocationIsSound(lots, Demands(items), today);
    assert Surplus.RowSound(r, lots, Demands(items), today);
    var source, item :| source in lots && item in Demands(items) && Allocator.Eligible(source, item, today)
      && source.lotId == lot && item.lineId == l;
    DemandIs(c, w, p, ready, l);
    OneDemandPerLine(Demands(items), item, DemandAt(c, w, p, ready, l));
    SameUse(c, w, p, ready, fixed, lot, l, today);
  }

  lemma OneDemandPerLine(demands: seq<Allocator.DemandItem>, x: Allocator.DemandItem, y: Allocator.DemandItem)
    requires Allocator.DistinctItems(demands) && x in demands && y in demands && x.lineId == y.lineId
    ensures x == y
  {
    var i :| 0 <= i < |demands| && demands[i] == x;
    var k :| 0 <= k < |demands| && demands[k] == y;
    Priority.SameLine(demands, i, k);
  }

  /** If a Confirmed order's line is promised a lot that an earlier line could use, the earlier line has all it
      needs. */
  lemma EarlierLinesHaveEnough(s: State, p: nat, today: int, impaired: set<nat>, earlier: nat, l: nat, lot: nat)
    requires Recalculated(s, p, today, impaired)
    requires Waits(ClosureOf(s, p), s.world, p, earlier) && Waits(ClosureOf(s, p), s.world, p, l)
    requires s.world.orders[s.world.lines[l].orderId].status == Confirmed
      && DueBefore(LineDeadline(s.world, earlier), LineDeadline(s.world, l))
    requires Usable(s.world, p, lot, earlier, today) && Promised(Rebuilt(s, p, today, impaired), l, lot)
    ensures HasEnough(Rebuilt(s, p, today, impaired), s.world, earlier)
  {
    hide Recalculated, Rebuilt, DemandAt, LotOf, ItemOf, Items, Lots, ReadyRows, RunRows, Allocator.Allocate, Demands,
      Skeleton, RebuiltFrom, ItemsFit, AllKeyed, RowsKeyed, Promised, Priority.CanServe, Priority.ServedBefore,
      Surplus.OnLine;
    var c, w := ClosureOf(s, p), s.world;
    var ready := ReadyRows(c, w, p, impaired);
    var fixed := RunRows(c, w) + ready;
    var items, lots, shares := BehindIt(s, p, today, impaired);
    Gathered(c, w, p, ready, fixed);
    RowIsAShare(c, w, p, s.generation, impaired, items, shares, Rebuilt(s, p, today, impaired), l, lot);
    SameOrder(c, w, p, ready, earlier, l);
    SameUse(c, w, p, ready, fixed, lot, earlier, today);
    LotIdIs(w, fixed, lot);
    DemandIs(c, w, p, ready, l);
    DemandIs(c, w, p, ready, earlier);
    Priority.NoLineIsPassedOver(lots, Demands(items), today, DemandAt(c, w, p, ready, earlier),
      DemandAt(c, w, p, ready, l), LotOf(w, fixed, lot));
    LineAfter(s, p, today, impaired, items, lots, shares, earlier);
  }

  /** If a Confirmed order's line is promised a lot, every lot it should have used sooner is all promised. */
  lemma SoonerLotsAreAllPromised(s: State, p: nat, today: int, impaired: set<nat>, l: nat, sooner: nat, lot: nat)
    requires Recalculated(s, p, today, impaired) && Waits(ClosureOf(s, p), s.world, p, l)
    requires s.world.orders[s.world.lines[l].orderId].status == Confirmed
    requires Usable(s.world, p, sooner, l, today) && lot in s.world.lots && SpentEarlier(s.world, sooner, lot)
    requires Promised(Rebuilt(s, p, today, impaired), l, lot)
    ensures AllPromised(Rebuilt(s, p, today, impaired), s.world, sooner)
  {
    hide Recalculated, Rebuilt, DemandAt, LotOf, ItemOf, Items, Lots, ReadyRows, RunRows, Allocator.Allocate, Demands,
      Skeleton, RebuiltFrom, ItemsFit, AllKeyed, RowsKeyed, Promised, Priority.CanServe, Priority.TakenBefore,
      Surplus.OnLot, Priority.DrawnBy, Priority.Available;
    var c, w := ClosureOf(s, p), s.world;
    var ready := ReadyRows(c, w, p, impaired);
    var fixed := RunRows(c, w) + ready;
    NewPromisesAreUsable(s, p, today, impaired, l, lot);
    var items, lots, shares := BehindIt(s, p, today, impaired);
    Gathered(c, w, p, ready, fixed);
    RowIsAShare(c, w, p, s.generation, impaired, items, shares, Rebuilt(s, p, today, impaired), l, lot);
    SameLotOrder(w, fixed, sooner, lot);
    SameUse(c, w, p, ready, fixed, sooner, l, today);
    LotIdIs(w, fixed, lot);
    LotIdIs(w, fixed, sooner);
    DemandIs(c, w, p, ready, l);
    var item := DemandAt(c, w, p, ready, l);
    Priority.NoLotIsSkipped(lots, Demands(items), today, item, LotOf(w, fixed, sooner), LotOf(w, fixed, lot));
    Priority.PartIsDrawn(shares, Priority.UpTo(Demands(items), item), sooner);
    LotAfter(s, p, today, impaired, items, lots, shares, sooner);
  }

  // ---- what a line keeps ----

  /** The line's link says what the line says, for the recipe revision it had before, or for the product's current
      one if it had none. */
  ghost predicate LinkedAsBefore(c: Closure, w: World, p: nat, l: nat, k: Link)
    requires Waits(c, w, p, l)
  {
    && k.lineId == l && k.quantity == w.lines[l].quantity
    && k.req.key.productId == p && Some(k.req.key.date) == w.orders[w.lines[l].orderId].date
    && (forall m :: m in c.links && m.lineId == l ==> k.req.key.revision == m.req.key.revision)
    && ((forall m :: m in c.links ==> m.lineId != l) ==>
          p in w.products && w.products[p].Produced? && k.req.key.revision == w.products[p].current)
  }

  lemma ItemIsLinkedAsBefore(c: Closure, w: World, p: nat, g: nat, ready: seq<SurplusRow>, l: nat)
    requires Skeleton(c, w, p, g) && Waits(c, w, p, l) && IsProduced(w, p)
    ensures
      var item := ItemOf(c, w, p, ready, l);
      LinkedAsBefore(c, w, p, l, Link(ReqId(item.key, g), item.lineId, item.quantity))
  {
    if m :| m in c.links && m.lineId == l {
      assert Pin(c, w, p, l) == m.req.key.revision;
    }
  }

  /** Every waiting line is linked to a new requirement, under its own recipe revision. */
  lemma LinesKeepTheirRecipe(s: State, p: nat, today: int, impaired: set<nat>, l: nat)
    requires Recalculated(s, p, today, impaired) && Waits(ClosureOf(s, p), s.world, p, l)
    ensures exists k ::
      && k in Rebuilt(s, p, today, impaired).links && k.req.generation == s.generation
      && LinkedAsBefore(ClosureOf(s, p), s.world, p, l, k)
  {
    hide Rebuilt, DemandAt, LotOf, ItemOf, Items, Lots, ReadyRows, RunRows, Allocator.Allocate, Demands, Skeleton,
      ItemsFit, AllKeyed, RowsKeyed, LinkedAsBefore, Base, WorldOk, Recalculate, Kept, Groups, Claims, Storable,
      NewRows;
    var c, w, g := ClosureOf(s, p), s.world, s.generation;
    var ready := ReadyRows(c, w, p, impaired);
    var items, lots, shares := BehindIt(s, p, today, impaired);
    ItemsAre(c, w, p, ready);
    WaitsIsDemand(c, w, p, l);
    var i :| 0 <= i < |items| && items[i].lineId == l;
    ItemIsLinkedAsBefore(c, w, p, g, ready, l);
    var k := Link(ReqId(items[i].key, g), items[i].lineId, items[i].quantity);
    assert k in Links(items, g);
  }

  lemma {:induction false} CloneIsThere(
      ready: seq<SurplusRow>, keys: map<nat, DemandKey>, generation: nat, x: SurplusRow)
    requires x in ready && x.lineId in keys
    ensures exists y :: y in Clones(ready, keys, generation) && y == x.(req := y.req)
  {
    var n := |ready| - 1;
    if ready[n] == x {
      assert x.(req := ReqId(keys[x.lineId], generation)) in Clones(ready, keys, generation);
    } else {
      assert ready == ready[..n] + [ready[n]];
      CloneIsThere(ready[..n], keys, generation, x);
    }
  }

  /** A Ready order keeps its rows, lot by lot, except on the lots that are reopened. */
  lemma ReadyOrdersKeepTheirLots(s: State, p: nat, today: int, impaired: set<nat>, x: SurplusRow)
    requires Recalculated(s, p, today, impaired) && x in ClosureOf(s, p).rows && x.lotId !in impaired
    requires Waits(ClosureOf(s, p), s.world, p, x.lineId)
      && s.world.orders[s.world.lines[x.lineId].orderId].status == Ready
    ensures exists y :: y in Rebuilt(s, p, today, impaired).rows && y == x.(req := y.req)
  {
    hide Rebuilt, DemandAt, LotOf, ItemOf, Items, Lots, ReadyRows, RunRows, Allocator.Allocate, Demands, Skeleton,
      ItemsFit, Base, WorldOk, Recalculate, Kept, Groups, Claims, Storable, Links, LockedLines, Clones;
    var c, w, g := ClosureOf(s, p), s.world, s.generation;
    var ready := ReadyRows(c, w, p, impaired);
    var items, lots, shares := BehindIt(s, p, today, impaired);
    LockedRow(c, w, p, g, x);
    ReadyRowsAre(c, w, p, impaired, x);
    CloneIsThere(ready, KeyMap(items), g, x);
    var y :| y in Clones(ready, KeyMap(items), g) && y == x.(req := y.req);
    assert y in Rebuilt(s, p, today, impaired).rows;
  }
}
