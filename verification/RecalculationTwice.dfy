/** Recalculating again changes nothing: even if orders were promoted in between, the second rebuild
    has the same keys, numbers, links, reservations, and the same quantity on every lot and line. */
module RecalculationTwice {
  import opened Sorting
  import opened Tallies
  import opened PlanningState
  import opened Recalculation
  import opened RecalculationFacts
  import opened PlanningInvariant
  import opened RecalculationTheorems
  import Allocator = SurplusAllocation
  import Stability = SurplusStability
  import Surplus = SurplusTheorems
  import Decimals = DecimalArithmetic

  /** The same world, except that some Confirmed orders may have become Ready. */
  ghost predicate Promoted(w: World, w': World) {
    && w' == w.(orders := w'.orders)
    && w'.orders.Keys == w.orders.Keys
    && (forall o :: o in w.orders ==> w'.orders[o] == w.orders[o].(status := w'.orders[o].status))
    && (forall o :: o in w.orders ==>
          w'.orders[o].status == w.orders[o].status
            || (w.orders[o].status == Confirmed && w'.orders[o].status == Ready))
  }

  /** The lines whose surplus the second rebuild holds fixed. */
  function Held(c: Closure, w: World, p: nat): set<nat> {
    set l | l in w.lines && ReadyLine(w, l, p) && l !in LockedLines(c, w)
  }

  lemma PromotedLines(c: Closure, c': Closure, w: World, w': World, p: nat)
    requires Promoted(w, w')
    requires forall k :: k in c'.links && k.req in Protected(w) <==> k in c.links && k.req in Protected(w)
    ensures Protected(w') == Protected(w) && LockedLines(c', w') == LockedLines(c, w)
    ensures forall l :: LiveLine(w', l, p) <==> LiveLine(w, l, p)
    ensures forall l :: ReadyLine(w, l, p) ==> ReadyLine(w', l, p)
    ensures DemandLines(c', w', p) == DemandLines(c, w, p)
    ensures LotsOf(w', p) == LotsOf(w, p)
  {
    assert Protected(w') == Protected(w);
    forall l | l in LockedLines(c', w') ensures l in LockedLines(c, w) {
      var k :| k in c'.links && k.req in Protected(w) && k.lineId == l;
      assert k in c.links;
    }
    forall l | l in LockedLines(c, w) ensures l in LockedLines(c', w') {
      var k :| k in c.links && k.req in Protected(w) && k.lineId == l;
      assert k in c'.links;
    }
    forall l ensures LiveLine(w', l, p) <==> LiveLine(w, l, p) {}
    forall l | ReadyLine(w, l, p) ensures ReadyLine(w', l, p) {}
  }

  // ---- the rows the second rebuild keeps ----

  lemma FreshStep(shares: seq<Allocator.Allocation>, keys: map<nat, DemandKey>, g: nat, held: set<nat>)
    requires shares != [] && AllKeyed(shares, keys)
    ensures
      var n := |shares| - 1;
      var last := shares[n];
      && last.lineId in keys && AllKeyed(shares[..n], keys)
      && FreshRows(shares, keys, g)
         == FreshRows(shares[..n], keys, g)
           + [SurplusRow(ReqId(keys[last.lineId], g), last.lotId, last.lineId, last.quantity)]
      && Stability.Only(shares, held) == Stability.Only(shares[..n], held) + if last.lineId in held then [last] else []
  {
    assert shares[|shares| - 1] in shares;
  }

  lemma PickOne(rows: seq<SurplusRow>, row: SurplusRow, which: set<SurplusRow>)
    ensures Pick(rows + [row], which) == Pick(rows, which) + if row in which then [row] else []
  {
    assert (rows + [row])[..|rows|] == rows;
  }

  lemma OneFresh(shares: seq<Allocator.Allocation>, last: Allocator.Allocation, keys: map<nat, DemandKey>, g: nat)
    requires last.lineId in keys
    ensures FreshRows(shares + [last], keys, g)
      == FreshRows(shares, keys, g) + [SurplusRow(ReqId(keys[last.lineId], g), last.lotId, last.lineId, last.quantity)]
  {
    assert (shares + [last])[..|shares|] == shares;
  }

  /** The new rows the second rebuild keeps are those of the held lines' shares. */
  lemma {:induction false} HeldFresh(
      shares: seq<Allocator.Allocation>, keys: map<nat, DemandKey>, g: nat, which: set<SurplusRow>, held: set<nat>)
    requires AllKeyed(shares, keys)
    requires forall x :: x in FreshRows(shares, keys, g) ==> (x in which <==> x.lineId in held)
    ensures Pick(FreshRows(shares, keys, g), which) == FreshRows(Stability.Only(shares, held), keys, g)
    ensures AllKeyed(Stability.Only(shares, held), keys) && AllKeyed(Stability.Without(shares, held), keys)
  {
    if shares == [] {
      Stability.WithoutNone(held);
    } else {
      hide FreshRows, Stability.Only, Stability.Without, Pick;
      var n := |shares| - 1;
      var last := shares[n];
      FreshStep(shares, keys, g, held);
      WithoutStep(shares, held);
      var row := SurplusRow(ReqId(keys[last.lineId], g), last.lotId, last.lineId, last.quantity);
      var before := FreshRows(shares[..n], keys, g);
      assert row in before + [row];
      HeldFresh(shares[..n], keys, g, which, held);
      PickOne(before, row, which);
      if last.lineId in held {
        OneFresh(Stability.Only(shares[..n], held), last, keys, g);
      } else {
        assert Stability.Only(shares[..n], held) + [] == Stability.Only(shares[..n], held);
      }
    }
  }

  lemma WithoutStep(shares: seq<Allocator.Allocation>, held: set<nat>)
    requires shares != []
    ensures
      var n := |shares| - 1;
      Stability.Without(shares, held) == Stability.Without(shares[..n], held) + if shares[n].lineId in held then []
        else [shares[n]]
  {
  }

  /** The surplus the second rebuild carries over row by row. */
  lemma SecondReadyRows(
      c: Closure, w: World, w': World, p: nat, g: nat, items: seq<Item>, shares: seq<Allocator.Allocation>,
      ready: seq<SurplusRow>, c': Closure)
    requires WorldOk(w) && Skeleton(c, w, p, g) && ItemsFit(c, w, p, g, items, ready) && Promoted(w, w')
    requires RebuiltFrom(c, w, p, g, items, shares, ready, c') && ready == ReadyRows(c, w, p, {})
    requires AllKeyed(shares, KeyMap(items)) && RowsKeyed(ready, KeyMap(items))
    requires NewRowsFit(NewRows(shares, ready, KeyMap(items), g), items, w, p, g)
    ensures ReadyRows(c', w', p, {})
      == FreshRows(Stability.Only(shares, Held(c, w', p)), KeyMap(items), g) + Clones(ready, KeyMap(items), g)
    ensures AllKeyed(Stability.Only(shares, Held(c, w', p)), KeyMap(items))
      && AllKeyed(Stability.Without(shares, Held(c, w', p)), KeyMap(items))
  {
    hide OnLot, OnLine, Pick, KeyMap, Kept, Groups, RunRows, FreshRows, Clones, Skeleton, Links, KeptForReady, ItemsFit,
      Held, Stability.Only;
    var keys, held := KeyMap(items), Held(c, w', p);
    var which := ReadyRowSet(c', w', p, {});
    var freshRows, clones := FreshRows(shares, keys, g), Clones(ready, keys, g);
    KeptIsProtected(c, w, p, g);
    PromotedRowKinds(c, w, w', p, g, items, shares, ready, c');
    PickConcat(RunRows(c, w), freshRows + clones, which);
    PickConcat(freshRows, clones, which);
    PickNone(RunRows(c, w), which);
    PickAll(clones, which);
    HeldFresh(shares, keys, g, which, held);
    assert [] + (FreshRows(Stability.Only(shares, held), keys, g) + clones)
      == FreshRows(Stability.Only(shares, held), keys, g) + clones;
  }

  lemma OneShare(a: Allocator.Allocation, id: nat)
    ensures Surplus.OnLine([a], id) == if a.lineId == id then a.quantity else 0
  {
    assert [a][..0] == [];
  }

  lemma SecondReady(
      c: Closure, w: World, w': World, p: nat, g: nat, items: seq<Item>, shares: seq<Allocator.Allocation>,
      ready: seq<SurplusRow>, c': Closure, id: nat)
    requires WorldOk(w) && Skeleton(c, w, p, g) && ItemsFit(c, w, p, g, items, ready) && Promoted(w, w')
    requires RebuiltFrom(c, w, p, g, items, shares, ready, c') && ready == ReadyRows(c, w, p, {})
    requires AllKeyed(shares, KeyMap(items)) && RowsKeyed(ready, KeyMap(items))
    requires NewRowsFit(NewRows(shares, ready, KeyMap(items), g), items, w, p, g)
    ensures
      var held := Held(c, w', p);
      && OnLot(ReadyRows(c', w', p, {}), id) == OnLot(ready, id) + Surplus.OnLot(Stability.Only(shares, held), id)
      && OnLine(ReadyRows(c', w', p, {}), id) == OnLine(ready, id) + Surplus.OnLine(Stability.Only(shares, held), id)
  {
    hide OnLot, OnLine, KeyMap, RunRows, FreshRows, Clones, Skeleton, ItemsFit, Held, Stability.Only, ReadyRows,
      RebuiltFrom, NewRowsFit, AllKeyed, RowsKeyed;
    var only := Stability.Only(shares, Held(c, w', p));
    SecondReadyRows(c, w, w', p, g, items, shares, ready, c');
    FreshRowSums(only, KeyMap(items), g, id, DemandKey(0, None, 0));
    CloneSums(ready, KeyMap(items), g, id);
    SumsConcat(FreshRows(only, KeyMap(items), g), Clones(ready, KeyMap(items), g), id, ReqId(DemandKey(0, None, 0), 0));
  }

  /** Which rows of the first result the second rebuild keeps for Ready orders. */
  lemma PromotedRowKinds(
      c: Closure, w: World, w': World, p: nat, g: nat, items: seq<Item>, shares: seq<Allocator.Allocation>,
      ready: seq<SurplusRow>, c': Closure)
    requires WorldOk(w) && Skeleton(c, w, p, g) && ItemsFit(c, w, p, g, items, ready) && Promoted(w, w')
    requires RebuiltFrom(c, w, p, g, items, shares, ready, c') && ready == ReadyRows(c, w, p, {})
    requires RowsKeyed(ready, KeyMap(items)) && NewRowsFit(NewRows(shares, ready, KeyMap(items), g), items, w, p, g)
    ensures
      var which := ReadyRowSet(c', w', p, {});
      && (forall x :: x in RunRows(c, w) ==> x !in which)
      && (forall x :: x in FreshRows(shares, KeyMap(items), g) ==> (x in which <==> x.lineId in Held(c, w', p)))
      && (forall x :: x in Clones(ready, KeyMap(items), g) ==> x in which)
  {
    hide OnLot, OnLine, Pick, KeyMap, Groups, RunRows, FreshRows, Clones, Links, Skeleton;
    KeptIsProtected(c, w, p, g);
    hide Kept;
    KeyMapIs(items);
    assert Protected(w') == Protected(w);
    assert LockedLines(c, w') == LockedLines(c, w);
    forall x | x in RunRows(c, w) ensures x !in ReadyRowSet(c', w', p, {}) { RunRowsAre(c, w, x); }
    forall x | x in NewRows(shares, ready, KeyMap(items), g)
      ensures x in c'.rows && x.req !in Protected(w') && x.lineId !in LockedLines(c, w') && LiveLine(w', x.lineId, p)
    {
      assert NewRowOk(x, items, w, p, g);
      var i :| 0 <= i < |items| && items[i].lineId == x.lineId;
      assert ItemFits(items[i], c, w, p, ready);
      NoFreshIdIsProtected(c, w, p, g, x.req);
    }
    forall x | x in FreshRows(shares, KeyMap(items), g)
      ensures x in ReadyRowSet(c', w', p, {}) <==> x.lineId in Held(c, w', p)
    {
      assert x in NewRows(shares, ready, KeyMap(items), g);
    }
    forall x | x in Clones(ready, KeyMap(items), g) ensures x in ReadyRowSet(c', w', p, {}) {
      assert x in NewRows(shares, ready, KeyMap(items), g);
      CloneOrigin(ready, KeyMap(items), g, x);
      var y :| y in ready && x == y.(req := x.req);
      ReadyRowsAre(c, w, p, {}, y);
      assert ReadyLine(w', y.lineId, p);
    }
  }

  // ---- the second rebuild's input is the first one's, with the held lines pinned ----

  /** The line keeps its key: it is linked to the requirement the first rebuild made for it. */
  lemma SecondKey(
      c: Closure, w: World, w': World, p: nat, g: nat, items: seq<Item>, shares: seq<Allocator.Allocation>,
      ready: seq<SurplusRow>, c': Closure, l: nat)
    requires WorldOk(w) && Base(c, w, p, g, {}) && ItemsFit(c, w, p, g, items, ready)
    requires RebuiltFrom(c, w, p, g, items, shares, ready, c')
    requires l in KeyMap(items)
    ensures Pin(c', w', p, l) == KeyMap(items)[l].revision
  {
    hide Kept, Groups, KeyMap, Links, RebuiltFrom, ItemsFit, Base, WorldOk;
    RebuiltLinks(c, w, p, g, {}, items, shares, ready, c');
    var k :| k in c'.links && k.req == ReqId(KeyMap(items)[l], g) && k.lineId == l;
    forall m | m in c'.links && m.lineId == l ensures m == k {}
  }

  lemma SecondItems(
      c: Closure, w: World, w': World, p: nat, g: nat, shares: seq<Allocator.Allocation>, ready: seq<SurplusRow>,
      c': Closure)
    requires WorldOk(w) && Base(c, w, p, g, {}) && Promoted(w, w') && ready == ReadyRows(c, w, p, {})
    requires
      var items := Items(c, w, p, ready);
      && ItemsFit(c, w, p, g, items, ready)
      && RebuiltFrom(c, w, p, g, items, shares, ready, c')
      && AllKeyed(shares, KeyMap(items)) && RowsKeyed(ready, KeyMap(items))
      && NewRowsFit(NewRows(shares, ready, KeyMap(items), g), items, w, p, g)
    ensures
      var items, items' := Items(c, w, p, ready), Items(c', w', p, ReadyRows(c', w', p, {}));
      && |items'| == |items|
      && forall i :: 0 <= i < |items| ==>
           items'[i] == items[i].(fixed :=
             items[i].fixed + Surplus.OnLine(Stability.Only(shares, Held(c, w', p)), items[i].lineId))
  {
    hide OnLot, OnLine, KeyMap, Kept, Groups, Links, NewRows, ReadyRows, ProducedFor, RebuiltFrom, NewRowsFit, AllKeyed,
      RowsKeyed, Surplus.OnLine, Stability.Only, Held, Promoted, WorldOk, ItemsFit, Pin, Base, Ascending;
    var items, ready' := Items(c, w, p, ready), ReadyRows(c', w', p, {});
    BaseHasSkeleton(c, w, p, g, {});
    SameLinksBehind(c, w, p, g, items, shares, ready, c');
    PromotedLines(c, c', w, w', p);
    var ids := Ascending(DemandLines(c, w, p));
    AscendingIs(DemandLines(c, w, p));
    KeyMapIs(items);
    forall i | 0 <= i < |items|
      ensures Items(c', w', p, ready')[i]
        == items[i].(fixed := items[i].fixed + Surplus.OnLine(Stability.Only(shares, Held(c, w', p)), items[i].lineId))
    {
      assert ids[i] in DemandLines(c, w, p) && items[i] == ItemOf(c, w, p, ready, ids[i]);
      SecondKey(c, w, w', p, g, items, shares, ready, c', ids[i]);
      SecondReady(c, w, w', p, g, items, shares, ready, c', ids[i]);
      assert Pin(c, w, p, ids[i]) == items[i].key.revision && KeyMap(items)[items[i].lineId] == items[i].key;
      SecondItem(c, w, w', p, ready, c', ready', ids[i]);
    }
  }

  lemma SecondItem(
      c: Closure, w: World, w': World, p: nat, ready: seq<SurplusRow>, c': Closure, ready': seq<SurplusRow>, l: nat)
    requires Promoted(w, w') && LiveLine(w, l, p) && LiveLine(w', l, p) && Pin(c', w', p, l) == Pin(c, w, p, l)
    ensures ItemOf(c', w', p, ready', l) == ItemOf(c, w, p, ready, l).(fixed := OnLine(ready', l))
  {
    hide OnLine, Pin, ProducedFor;
  }

  lemma SameLinksBehind(
      c: Closure, w: World, p: nat, g: nat, items: seq<Item>, shares: seq<Allocator.Allocation>, ready: seq<SurplusRow>,
      c': Closure)
    requires WorldOk(w) && Base(c, w, p, g, {}) && ItemsFit(c, w, p, g, items, ready)
    requires RebuiltFrom(c, w, p, g, items, shares, ready, c')
    ensures forall k :: k in c'.links && k.req in Protected(w) <==> k in c.links && k.req in Protected(w)
  {
    hide Kept, Groups, KeyMap, Links, RebuiltFrom, ItemsFit, Base;
    RebuiltLinks(c, w, p, g, {}, items, shares, ready, c');
  }

  lemma SecondLots(
      c: Closure, w: World, w': World, p: nat, g: nat, items: seq<Item>, shares: seq<Allocator.Allocation>,
      ready: seq<SurplusRow>, c': Closure)
    requires WorldOk(w) && Base(c, w, p, g, {}) && Promoted(w, w') && ready == ReadyRows(c, w, p, {})
    requires ItemsFit(c, w, p, g, items, ready) && RebuiltFrom(c, w, p, g, items, shares, ready, c')
    requires AllKeyed(shares, KeyMap(items)) && RowsKeyed(ready, KeyMap(items))
    requires NewRowsFit(NewRows(shares, ready, KeyMap(items), g), items, w, p, g)
    requires RunRows(c', w') == RunRows(c, w)
    ensures Lots(w', p, RunRows(c', w') + ReadyRows(c', w', p, {}))
      == Stability.HoldLots(Lots(w, p, RunRows(c, w) + ready), Stability.Only(shares, Held(c, w', p)))
  {
    hide OnLot, OnLine, KeyMap, Kept, Groups, Links, NewRows, Skeleton, FixedLotCaps, FixedLineCaps, ReadyRows, RunRows,
      RebuiltFrom, NewRowsFit, AllKeyed, RowsKeyed, Surplus.OnLot, Stability.Only, Held, ItemsFit;
    var ready' := ReadyRows(c', w', p, {});
    var ids := Ascending(LotsOf(w, p));
    AscendingIs(LotsOf(w, p));
    assert LotsOf(w', p) == LotsOf(w, p);
    var lots := Lots(w, p, RunRows(c, w) + ready);
    forall j | 0 <= j < |ids|
      ensures Lots(w', p, RunRows(c', w') + ready')[j]
        == Stability.HoldLot(lots[j], Stability.Only(shares, Held(c, w', p)))
    {
      assert ids[j] in LotsOf(w, p);
      SecondReady(c, w, w', p, g, items, shares, ready, c', ids[j]);
      var none := ReqId(DemandKey(0, None, 0), 0);
      SumsConcat(RunRows(c, w), ready', ids[j], none);
      SumsConcat(RunRows(c, w), ready, ids[j], none);
    }
  }

  // ---- the second rebuild's output ----

  lemma SecondShares(items: seq<Item>, items': seq<Item>, lots: seq<Allocator.SurplusLot>, held: set<nat>, today: int)
    requires DistinctLines(items) && Allocator.DistinctLots(lots)
    requires
      var only := Stability.Only(Allocated(items, lots, today), held);
      |items'| == |items|
      && forall i :: 0 <= i < |items| ==>
        items'[i] == items[i].(fixed := items[i].fixed + Surplus.OnLine(only, items[i].lineId))
    ensures
      var shares := Allocated(items, lots, today);
      Allocated(items', Stability.HoldLots(lots, Stability.Only(shares, held)), today)
        == Stability.Without(shares, held)
  {
    hide Surplus.OnLine, Stability.Only, Stability.Without, Allocator.Allocate, Stability.Open;
    var shares := Allocated(items, lots, today);
    var only := Stability.Only(shares, held);
    DemandsDistinct(items);
    Stability.SpentItemsChangeNothing(lots, Demands(items), today);
    assert Demands(items') == Stability.ReduceItems(Demands(items), only) by {
      forall i | 0 <= i < |items| ensures Demands(items')[i] == Stability.ReduceItems(Demands(items), only)[i] {
        assert Demands(items)[i].lineId == items[i].lineId;
      }
    }
    Stability.PinnedLinesChangeNothing(lots, Demands(items), today, held);
    Stability.SpentItemsChangeNothing(Stability.HoldLots(lots, only), Demands(items'), today);
  }

  /** Same lines and keys; only what is fixed differs. */
  ghost predicate SameButFixed(items: seq<Item>, items': seq<Item>) {
    |items'| == |items| && forall i :: 0 <= i < |items| ==> items'[i] == items[i].(fixed := items'[i].fixed)
  }

  lemma {:induction false} SameKeys(items: seq<Item>, items': seq<Item>, key: DemandKey)
    requires SameButFixed(items, items')
    ensures KeyMap(items') == KeyMap(items)
    ensures GroupDemand(items', key) == GroupDemand(items, key)
      && GroupProduced(items', key) == GroupProduced(items, key)
    ensures Keys(items') == Keys(items)
  {
    if items != [] {
      var n := |items| - 1;
      SameKeys(items[..n], items'[..n], key);
      SameKeySet(items, items');
    }
  }

  lemma SameKeySet(items: seq<Item>, items': seq<Item>)
    requires SameButFixed(items, items')
    ensures Keys(items') == Keys(items)
  {
    forall k | k in Keys(items) ensures k in Keys(items') {
      var i :| 0 <= i < |items| && items[i].key == k;
      assert items'[i].key == k;
    }
    forall k | k in Keys(items') ensures k in Keys(items) {
      var i :| 0 <= i < |items'| && items'[i].key == k;
      assert items[i].key == k;
    }
  }

  /** What a line's shares add to its group is what the line holds. */
  function SharesOn(items: seq<Item>, shares: seq<Allocator.Allocation>, key: DemandKey): nat {
    if items == [] then 0
    else
      var last := items[|items| - 1];
      SharesOn(items[..|items| - 1], shares, key) + if last.key == key then Surplus.OnLine(shares, last.lineId) else 0
  }

  lemma {:induction false} FixedGrowsByHeld(
      items: seq<Item>, items': seq<Item>, only: seq<Allocator.Allocation>, key: DemandKey)
    requires |items'| == |items|
    requires forall i :: 0 <= i < |items| ==>
      items'[i] == items[i].(fixed := items[i].fixed + Surplus.OnLine(only, items[i].lineId))
    ensures GroupFixed(items', key) == GroupFixed(items, key) + SharesOn(items, only, key)
  {
    if items != [] {
      var n := |items| - 1;
      FixedGrowsByHeld(items[..n], items'[..n], only, key);
    }
  }

  lemma {:induction false} SharesOnNothing(items: seq<Item>, key: DemandKey)
    ensures SharesOn(items, [], key) == 0
  {
    if items != [] { SharesOnNothing(items[..|items| - 1], key); }
  }

  lemma {:induction false} SharesOnSnoc(
      items: seq<Item>, shares: seq<Allocator.Allocation>, a: Allocator.Allocation, key: DemandKey)
    requires DistinctLines(items)
    ensures SharesOn(items, shares + [a], key) == SharesOn(items, shares, key)
      + if exists i :: 0 <= i < |items| && items[i].lineId == a.lineId && items[i].key == key then a.quantity else 0
  {
    if items != [] {
      var n := |items| - 1;
      SharesOnSnoc(items[..n], shares, a, key);
      Surplus.OnLineConcat(shares, [a], items[n].lineId);
      OneShare(a, items[n].lineId);
      if items[n].lineId == a.lineId && items[n].key == key {
        forall i | 0 <= i < n ensures items[..n][i].lineId != a.lineId { assert items[..n][i] == items[i]; }
      } else if exists i :: 0 <= i < |items| && items[i].lineId == a.lineId && items[i].key == key {
        var i :| 0 <= i < |items| && items[i].lineId == a.lineId && items[i].key == key;
        assert items[..n][i] == items[i];
      }
    }
  }

  lemma {:induction false} SharesByLineAreByGroup(items: seq<Item>, shares: seq<Allocator.Allocation>, key: DemandKey)
    requires DistinctLines(items)
    ensures SharesOn(items, shares, key) == GroupFresh(shares, KeyMap(items), key)
  {
    if shares == [] {
      SharesOnNothing(items, key);
    } else {
      var n := |shares| - 1;
      SharesByLineAreByGroup(items, shares[..n], key);
      SharesOnSnoc(items, shares[..n], shares[n], key);
      assert shares == shares[..n] + [shares[n]];
      KeyMapIs(items);
    }
  }

  lemma {:induction false} GroupFreshSplits(
      shares: seq<Allocator.Allocation>, held: set<nat>, keys: map<nat, DemandKey>, key: DemandKey)
    ensures GroupFresh(Stability.Only(shares, held), keys, key) + GroupFresh(Stability.Without(shares, held), keys, key)
      == GroupFresh(shares, keys, key)
  {
    if shares != [] {
      var n := |shares| - 1;
      GroupFreshSplits(shares[..n], held, keys, key);
      GroupFreshOne(Stability.Only(shares[..n], held), shares[n], shares[n].lineId in held, keys, key);
      GroupFreshOne(Stability.Without(shares[..n], held), shares[n], shares[n].lineId !in held, keys, key);
    }
  }

  lemma GroupFreshOne(
      shares: seq<Allocator.Allocation>, a: Allocator.Allocation, taken: bool, keys: map<nat, DemandKey>,
      key: DemandKey)
    ensures GroupFresh(shares + (if taken then [a] else []), keys, key)
      == GroupFresh(shares, keys, key) + if taken && a.lineId in keys && keys[a.lineId] == key then a.quantity else 0
  {
    assert taken ==> (shares + [a])[..|shares|] == shares;
    assert !taken ==> shares + [] == shares;
  }

  /** Every group comes out with the same numbers. */
  lemma SecondGroup(
      items: seq<Item>, items': seq<Item>, shares: seq<Allocator.Allocation>, held: set<nat>, revisions: map<nat,
      Revision>, key: DemandKey)
    requires DistinctLines(items) && |items'| == |items|
    requires forall i :: 0 <= i < |items| ==>
      items'[i] == items[i].(fixed := items[i].fixed + Surplus.OnLine(Stability.Only(shares, held), items[i].lineId))
    ensures Group(items', Stability.Without(shares, held), revisions, key) == Group(items, shares, revisions, key)
  {
    hide Surplus.OnLine, Stability.Only, Stability.Without, PlanFor, KeyMap, GroupFresh, GroupFixed, GroupDemand,
      GroupProduced;
    SameKeys(items, items', key);
    FixedGrowsByHeld(items, items', Stability.Only(shares, held), key);
    SharesByLineAreByGroup(items, Stability.Only(shares, held), key);
    GroupFreshSplits(shares, held, KeyMap(items), key);
  }

  // ---- rows without their requirement id ----

  function Bare(rows: seq<SurplusRow>): multiset<(nat, nat, nat)> {
    if rows == [] then multiset{}
    else
      var last := rows[|rows| - 1];
      Bare(rows[..|rows| - 1]) + multiset{(last.lotId, last.lineId, last.quantity)}
  }

  function Bag(shares: seq<Allocator.Allocation>): multiset<(nat, nat, nat)> {
    if shares == [] then multiset{}
    else
      var last := shares[|shares| - 1];
      Bag(shares[..|shares| - 1]) + multiset{(last.lotId, last.lineId, last.quantity)}
  }

  lemma NoRows()
    ensures Bare([]) == multiset{}
  {
  }

  lemma {:induction false} BareConcat(a: seq<SurplusRow>, b: seq<SurplusRow>)
    ensures Bare(a + b) == Bare(a) + Bare(b)
  {
    hide Bare;
    if b == [] {
      NoRows();
      assert a + b == a;
    } else {
      var n := |b| - 1;
      BareConcat(a, b[..n]);
      BareOne(a + b[..n], b[n]);
      BareOne(b[..n], b[n]);
      assert a + b == a + b[..n] + [b[n]] && b == b[..n] + [b[n]];
    }
  }

  lemma BareOne(rows: seq<SurplusRow>, x: SurplusRow)
    ensures Bare(rows + [x]) == Bare(rows) + multiset{(x.lotId, x.lineId, x.quantity)}
  {
    assert (rows + [x])[..|rows|] == rows;
  }

  lemma BagOne(shares: seq<Allocator.Allocation>, a: Allocator.Allocation, taken: bool)
    ensures Bag(shares + (if taken then [a] else []))
      == Bag(shares) + if taken then multiset{(a.lotId, a.lineId, a.quantity)} else multiset{}
  {
    assert taken ==> (shares + [a])[..|shares|] == shares;
    assert !taken ==> shares + [] == shares;
  }

  lemma {:induction false} BareFresh(shares: seq<Allocator.Allocation>, keys: map<nat, DemandKey>, g: nat)
    requires AllKeyed(shares, keys)
    ensures Bare(FreshRows(shares, keys, g)) == Bag(shares)
  {
    if shares != [] {
      hide Bare;
      var n := |shares| - 1;
      FreshStep(shares, keys, g, {});
      BareFresh(shares[..n], keys, g);
      BareOne(FreshRows(shares[..n], keys, g),
        SurplusRow(ReqId(keys[shares[n].lineId], g), shares[n].lotId, shares[n].lineId, shares[n].quantity));
    }
  }

  lemma {:induction false} BareClones(ready: seq<SurplusRow>, keys: map<nat, DemandKey>, g: nat)
    requires RowsKeyed(ready, keys)
    ensures Bare(Clones(ready, keys, g)) == Bare(ready)
  {
    if ready != [] {
      var n := |ready| - 1;
      assert ready[n] in ready;
      BareClones(ready[..n], keys, g);
      BareOne(Clones(ready[..n], keys, g), ready[n].(req := ReqId(keys[ready[n].lineId], g)));
    }
  }

  lemma {:induction false} BagSplits(shares: seq<Allocator.Allocation>, held: set<nat>)
    ensures Bag(Stability.Only(shares, held)) + Bag(Stability.Without(shares, held)) == Bag(shares)
  {
    if shares != [] {
      var n := |shares| - 1;
      BagSplits(shares[..n], held);
      assert shares == shares[..n] + [shares[n]];
      OnlyStep(shares, held);
      WithoutStep(shares, held);
      hide Bag, Stability.Only, Stability.Without;
      BagOne(Stability.Only(shares[..n], held), shares[n], shares[n].lineId in held);
      BagOne(Stability.Without(shares[..n], held), shares[n], shares[n].lineId !in held);
      BagOne(shares[..n], shares[n], true);
    }
  }

  lemma OnlyStep(shares: seq<Allocator.Allocation>, held: set<nat>)
    requires shares != []
    ensures
      var n := |shares| - 1;
      Stability.Only(shares, held) == Stability.Only(shares[..n], held) + if shares[n].lineId in held then [shares[n]]
        else []
  {
  }

  // ---- the theorem ----

  lemma PromotedSkeleton(c: Closure, w: World, w': World, p: nat, g: nat)
    requires Skeleton(c, w, p, g) && Promoted(w, w')
    ensures Skeleton(c, w', p, g)
  {
    hide Linked;
    forall r | r in c.reqs ensures ReqOk(r, w', p, g) { assert ReqOk(r, w, p, g); }
    forall x | x in c.rows ensures RowOk(x, c, w', p) { assert RowOk(x, c, w, p); }
    forall run | ActiveRun(w', run, p) ensures RunOk(run, c, w', p) { assert RunOk(run, c, w, p); }
  }

  /** The two results say the same under their own generation of ids. */
  ghost predicate SameProjection(r1: Projection, r2: Projection, g: nat, g': nat)
    requires r1.Projection? && r2.Projection?
  {
    && (forall r :: r in r1.reqs ==> r.generation == g)
    && (forall r :: r in r2.reqs ==> r.generation == g')
    && (forall k :: ReqId(k, g) in r1.reqs <==> ReqId(k, g') in r2.reqs)
    && (forall k :: ReqId(k, g) in r1.reqs && ReqId(k, g') in r2.reqs ==> r2.reqs[ReqId(k, g')] == r1.reqs[ReqId(k, g)])
    && (forall k, l, q: nat :: Link(ReqId(k, g), l, q) in r1.links <==> Link(ReqId(k, g'), l, q) in r2.links)
    && (forall k, i, q: nat :: Claim(ReqId(k, g), i, q) in r1.claims <==> Claim(ReqId(k, g'), i, q) in r2.claims)
  }

  lemma SameLinkTerms(items: seq<Item>, items': seq<Item>, g: nat, g': nat, k: DemandKey, l: nat, q: nat)
    requires SameButFixed(items, items')
    ensures Link(ReqId(k, g), l, q) in Links(items, g) <==> Link(ReqId(k, g'), l, q) in Links(items', g')
  {
    if Link(ReqId(k, g), l, q) in Links(items, g) {
      var i :| 0 <= i < |items|
        && Link(ReqId(items[i].key, g), items[i].lineId, items[i].quantity) == Link(ReqId(k, g), l, q);
      assert Link(ReqId(items'[i].key, g'), items'[i].lineId, items'[i].quantity) == Link(ReqId(k, g'), l, q);
    }
    if Link(ReqId(k, g'), l, q) in Links(items', g') {
      var i :| 0 <= i < |items'|
        && Link(ReqId(items'[i].key, g'), items'[i].lineId, items'[i].quantity) == Link(ReqId(k, g'), l, q);
      assert Link(ReqId(items[i].key, g), items[i].lineId, items[i].quantity) == Link(ReqId(k, g), l, q);
    }
  }

  ghost predicate SameGroups(reqs: map<ReqId, Requirement>, reqs': map<ReqId, Requirement>, g: nat, g': nat) {
    && (forall r :: r in reqs ==> r.generation == g)
    && (forall r :: r in reqs' ==> r.generation == g')
    && (forall k :: ReqId(k, g) in reqs <==> ReqId(k, g') in reqs')
    && (forall k :: ReqId(k, g) in reqs && ReqId(k, g') in reqs' ==> reqs'[ReqId(k, g')] == reqs[ReqId(k, g)])
  }

  lemma SameClaimTerms(
      reqs: map<ReqId, Requirement>, reqs': map<ReqId, Requirement>, revisions: map<nat, Revision>, g: nat, g': nat,
      k: DemandKey, i: nat, q: nat)
    requires SameGroups(reqs, reqs', g, g')
    ensures Claim(ReqId(k, g), i, q) in Claims(reqs, revisions) <==>
      Claim(ReqId(k, g'), i, q) in Claims(reqs', revisions)
  {
    assert Needed(reqs, revisions, ReqId(k, g), i) == Needed(reqs', revisions, ReqId(k, g'), i);
    assert IngredientsOf(revisions, ReqId(k, g)) == IngredientsOf(revisions, ReqId(k, g'));
  }

  lemma SameStorable(
      reqs: map<ReqId, Requirement>, reqs': map<ReqId, Requirement>, revisions: map<nat, Revision>, g: nat, g': nat)
    requires SameGroups(reqs, reqs', g, g') && Storable(reqs, Claims(reqs, revisions))
    ensures Storable(reqs', Claims(reqs', revisions))
  {
    hide StorableRequirement, Claims;
    forall r | r in reqs' ensures StorableRequirement(reqs'[r]) {
      assert r == ReqId(r.key, g') && ReqId(r.key, g) in reqs;
    }
    forall k | k in Claims(reqs', revisions) ensures k.quantity < Decimals.NUMERIC_18_6_LIMIT {
      ClaimGeneration(reqs', revisions, k);
      SameClaimTerms(reqs, reqs', revisions, g, g', k.req.key, k.ingredientId, k.quantity);
      assert Claim(ReqId(k.req.key, g), k.ingredientId, k.quantity) in Claims(reqs, revisions);
    }
  }

  lemma ClaimGeneration(reqs: map<ReqId, Requirement>, revisions: map<nat, Revision>, k: Claim)
    requires k in Claims(reqs, revisions)
    ensures k.req in reqs
  {
  }

  lemma GroupsAgree(
      items: seq<Item>, items': seq<Item>, shares: seq<Allocator.Allocation>, held: set<nat>, revisions: map<nat,
      Revision>, g: nat, g': nat)
    requires DistinctLines(items) && |items'| == |items|
    requires forall i :: 0 <= i < |items| ==>
      items'[i] == items[i].(fixed := items[i].fixed + Surplus.OnLine(Stability.Only(shares, held), items[i].lineId))
    ensures SameGroups(Groups(items, shares, revisions, g),
      Groups(items', Stability.Without(shares, held), revisions, g'), g, g')
  {
    hide Group, Stability.Only, Stability.Without, Surplus.OnLine, Keys;
    SameKeySet(items, items');
    forall k | k in Keys(items)
      ensures Group(items', Stability.Without(shares, held), revisions, k) == Group(items, shares, revisions, k)
    {
      SecondGroup(items, items', shares, held, revisions, k);
    }
  }

  lemma SameTaken(
      c: Closure, w: World, w': World, p: nat, g: nat, items: seq<Item>, shares: seq<Allocator.Allocation>,
      ready: seq<SurplusRow>, c': Closure)
    requires WorldOk(w) && Skeleton(c, w, p, g) && ItemsFit(c, w, p, g, items, ready) && Promoted(w, w')
    requires RebuiltFrom(c, w, p, g, items, shares, ready, c')
    ensures TakenKeys(c', w') == TakenKeys(c, w)
  {
    hide Kept, Groups, KeyMap, Links, ItemsFit;
    assert Protected(w') == Protected(w);
    RebuiltReqs(c, w, p, g, items, shares, ready, c');
    forall r | r in c'.reqs && r in Protected(w) ensures r in c.reqs {
      assert ReqOk(r, w, p, g + 1);
      if r.generation >= g { NoFreshIdIsProtected(c, w, p, g, r); }
    }
    assert forall k :: k in TakenKeys(c', w') <==> k in TakenKeys(c, w);
  }

  /** The rows of the second result are those of the first, under new requirement ids. */
  lemma SecondRows(
      c: Closure, w: World, w': World, p: nat, g: nat, g': nat, items: seq<Item>, shares: seq<Allocator.Allocation>,
      ready: seq<SurplusRow>, c': Closure)
    requires WorldOk(w) && Skeleton(c, w, p, g) && ItemsFit(c, w, p, g, items, ready) && Promoted(w, w')
    requires RebuiltFrom(c, w, p, g, items, shares, ready, c') && ready == ReadyRows(c, w, p, {})
    requires AllKeyed(shares, KeyMap(items)) && RowsKeyed(ready, KeyMap(items))
    requires NewRowsFit(NewRows(shares, ready, KeyMap(items), g), items, w, p, g)
    requires RowsKeyed(ReadyRows(c', w', p, {}), KeyMap(items))
    ensures
      Bare(RunRows(c, w)
        + NewRows(Stability.Without(shares, Held(c, w', p)), ReadyRows(c', w', p, {}), KeyMap(items), g'))
      == Bare(c'.rows)
  {
    hide KeyMap, RunRows, FreshRows, Clones, Skeleton, ItemsFit, Held, Stability.Only, Stability.Without, ReadyRows,
      NewRowsFit, Bare, Bag, Kept, Groups, Links;
    var keys, held, ready' := KeyMap(items), Held(c, w', p), ReadyRows(c', w', p, {});
    SecondReadyRows(c, w, w', p, g, items, shares, ready, c');
    KeptIsProtected(c, w, p, g);
    BareConcat(RunRows(c, w), NewRows(Stability.Without(shares, held), ready', keys, g'));
    BareConcat(FreshRows(Stability.Without(shares, held), keys, g'), Clones(ready', keys, g'));
    BareFresh(Stability.Without(shares, held), keys, g');
    BareClones(ready', keys, g');
    BareConcat(FreshRows(Stability.Only(shares, held), keys, g), Clones(ready, keys, g));
    BareFresh(Stability.Only(shares, held), keys, g);
    BareClones(ready, keys, g);
    BagSplits(shares, held);
    BareConcat(RunRows(c, w), NewRows(shares, ready, keys, g));
    BareConcat(FreshRows(shares, keys, g), Clones(ready, keys, g));
    BareFresh(shares, keys, g);
  }

  /** The second computation, from the second rebuild's own inputs. */
  lemma SecondCompute(
      items: seq<Item>, items': seq<Item>, taken: set<DemandKey>, lots: seq<Allocator.SurplusLot>,
      lots': seq<Allocator.SurplusLot>,
      ready: seq<SurplusRow>, ready': seq<SurplusRow>, revisions: map<nat, Revision>, today: int, g: nat, g': nat,
      held: set<nat>)
    requires DistinctLines(items) && Allocator.DistinctLots(lots)
      && Compute(items, taken, lots, ready, revisions, today, g).Projection?
    requires |items'| == |items|
    requires forall i :: 0 <= i < |items| ==>
      items'[i] == items[i].(fixed :=
        items[i].fixed + Surplus.OnLine(Stability.Only(Allocated(items, lots, today), held), items[i].lineId))
    requires lots' == Stability.HoldLots(lots, Stability.Only(Allocated(items, lots, today), held))
    requires RowsKeyed(ready', KeyMap(items))
    ensures Compute(items', taken, lots', ready', revisions, today, g').Projection?
    ensures SameProjection(
      Compute(items, taken, lots, ready, revisions, today, g),
        Compute(items', taken, lots', ready', revisions, today, g'), g, g')
    ensures Compute(items', taken, lots', ready', revisions, today, g').rows
      == NewRows(Stability.Without(Allocated(items, lots, today), held), ready', KeyMap(items), g')
  {
    hide Allocated, Groups, Stability.Only, Stability.Without, Surplus.OnLine, Storable, Claims, Links, FreshRows,
      Clones, Keys;
    var shares := Allocated(items, lots, today);
    SecondShares(items, items', lots, held, today);
    GroupsAgree(items, items', shares, held, revisions, g, g');
    SameKeySet(items, items');
    SameKeys(items, items', DemandKey(0, None, 0));
    hide KeyMap;
    ProjectionParts(items, taken, lots, ready, revisions, today, g);
    var reqs, reqs' := Groups(items, shares, revisions, g),
      Groups(items', Stability.Without(shares, held), revisions, g');
    SameStorable(reqs, reqs', revisions, g, g');
    assert Keys(items') * taken == {};
    ProjectionParts(items', taken, lots', ready', revisions, today, g');
    forall k, l, q: nat
      ensures Link(ReqId(k, g), l, q) in Links(items, g) <==> Link(ReqId(k, g'), l, q) in Links(items', g')
    {
      SameLinkTerms(items, items', g, g', k, l, q);
    }
    forall k, i, q: nat
      ensures Claim(ReqId(k, g), i, q) in Claims(reqs, revisions) <==>
        Claim(ReqId(k, g'), i, q) in Claims(reqs', revisions)
    {
      SameClaimTerms(reqs, reqs', revisions, g, g', k, i, q);
    }
  }

  /** Recalculating twice with the same date changes no key, pin, number, link, reservation or surplus
      quantity, even if Confirmed orders became Ready in between. */
  lemma RecalculatingAgainChangesNothing(c: Closure, w: World, w': World, p: nat, today: int, g: nat, g': nat)
    requires WorldOk(w) && Base(c, w, p, g, {}) && Promoted(w, w') && g < g'
    requires ComputeFor(c, w, p, today, g, {}).Projection?
    ensures
      var first := ComputeFor(c, w, p, today, g, {});
      var c' := Replace(c, w, first);
      var second := ComputeFor(c', w', p, today, g', {});
      && second.Projection? && SameProjection(first, second, g, g')
      && Bare(Replace(c', w', second).rows) == Bare(c'.rows)
  {
    hide ItemsFit, AllKeyed, RowsKeyed, NewRowsFit, RebuiltFrom, OnLot, OnLine, RunRows, Allocated, NewRows, KeyMap,
      Stability.Only, Stability.Without, Surplus.OnLine, Surplus.OnLot, Lots, Items, ReadyRows, Compute, Clean, Base,
      Held, SameProjection, Bare, WorldOk, TakenKeys, Kept;
    var first := ComputeFor(c, w, p, today, g, {});
    var c' := Replace(c, w, first);
    var items, shares, ready := Pieces(c, w, p, today, g, {});
    var held, ready' := Held(c, w', p), ReadyRows(c', w', p, {});
    FirstFacts(c, w, w', p, today, g, g', items, ready);
    SecondItems(c, w, w', p, g, shares, ready, c');
    SecondLots(c, w, w', p, g, items, shares, ready, c');
    SameTaken(c, w, w', p, g, items, shares, ready, c');
    LotsAre(w, p, RunRows(c, w) + ready);
    SecondCompute(items, Items(c', w', p, ready'), TakenKeys(c, w), Lots(w, p, RunRows(c, w) + ready),
      Lots(w', p, RunRows(c', w') + ready'), ready, ready', w.revisions, today, g, g', held);
    SecondRows(c, w, w', p, g, g', items, shares, ready, c');
  }

  /** What the first rebuild leaves for the second to start from. */
  lemma FirstFacts(
      c: Closure, w: World, w': World, p: nat, today: int, g: nat, g': nat, items: seq<Item>, ready: seq<SurplusRow>)
    requires WorldOk(w) && Base(c, w, p, g, {}) && Promoted(w, w') && g < g'
    requires ComputeFor(c, w, p, today, g, {}).Projection?
    requires ready == ReadyRows(c, w, p, {}) && items == Items(c, w, p, ready)
    ensures
      var c' := Replace(c, w, ComputeFor(c, w, p, today, g, {}));
      && RunRows(c', w') == RunRows(c, w)
      && Skeleton(c, w, p, g) && DistinctLines(items)
      && Kept(c', w').rows == RunRows(c, w)
      && RowsKeyed(ReadyRows(c', w', p, {}), KeyMap(items))
  {
    hide ItemsFit, AllKeyed, RowsKeyed, NewRowsFit, OnLot, OnLine, RunRows, Allocated, NewRows, KeyMap, Lots, Items,
      ReadyRows, Compute, Kept, FixedLotCaps, FixedLineCaps, ComputeFor, Replace, RebuiltFrom;
    var c' := Replace(c, w, ComputeFor(c, w, p, today, g, {}));
    ProtectedPartStays(c, w, p, today, g, {});
    assert RunRows(c', w') == RunRows(c', w) by { SameRunsSameRows(c', w, w'); }
    RebuildIsClean(c, w, p, today, g, {});
    PromotedSkeleton(c', w, w', p, g + 1);
    KeptIsProtected(c', w', p, g + 1);
    ItemsAre(c, w, p, ready);
    var items0, shares, ready0 := Pieces(c, w, p, today, g, {});
    SecondKeysKnown(c, w, w', p, g, items, shares, ready, c');
  }

  lemma SameRunsSameRows(c: Closure, w: World, w': World)
    requires Promoted(w, w')
    ensures RunRows(c, w') == RunRows(c, w)
  {
    assert RunRowSet(c, w') == RunRowSet(c, w);
  }

  lemma SecondKeysKnown(
      c: Closure, w: World, w': World, p: nat, g: nat, items: seq<Item>, shares: seq<Allocator.Allocation>,
      ready: seq<SurplusRow>, c': Closure)
    requires WorldOk(w) && Skeleton(c, w, p, g) && ItemsFit(c, w, p, g, items, ready) && Promoted(w, w')
    requires RebuiltFrom(c, w, p, g, items, shares, ready, c') && ready == ReadyRows(c, w, p, {})
    requires AllKeyed(shares, KeyMap(items)) && RowsKeyed(ready, KeyMap(items))
    requires NewRowsFit(NewRows(shares, ready, KeyMap(items), g), items, w, p, g)
    ensures RowsKeyed(ReadyRows(c', w', p, {}), KeyMap(items))
  {
    hide KeyMap, RunRows, Clones, Skeleton, ItemsFit, Held, Stability.Only, ReadyRows, NewRowsFit, RebuiltFrom,
      FreshRows;
    var keys := KeyMap(items);
    SecondReadyRows(c, w, w', p, g, items, shares, ready, c');
    forall x | x in ReadyRows(c', w', p, {}) ensures x.lineId in keys {
      if x in FreshRows(Stability.Only(shares, Held(c, w', p)), keys, g) {
        FreshRowOrigin(Stability.Only(shares, Held(c, w', p)), keys, g, x);
      } else {
        CloneOrigin(ready, keys, g, x);
      }
    }
  }
}
