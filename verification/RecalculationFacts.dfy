/** What one rebuild computes, in terms of the lines, lots and kept rows that went in. */
module RecalculationFacts {
  import opened PlanningState
  import opened Recalculation
  import Allocator = SurplusAllocation
  import Stability = SurplusStability
  import Surplus = SurplusTheorems

  ghost predicate DistinctLines(items: seq<Item>) {
    forall i, k :: 0 <= i < k < |items| ==> items[i].lineId != items[k].lineId
  }

  // ---- the key of each line ----

  lemma {:induction false} KeyMapIs(items: seq<Item>)
    requires DistinctLines(items)
    ensures forall i :: 0 <= i < |items| ==>
      items[i].lineId in KeyMap(items) && KeyMap(items)[items[i].lineId] == items[i].key
    ensures forall l :: l in KeyMap(items) ==> exists i :: 0 <= i < |items| && items[i].lineId == l
  {
    if items != [] { KeyMapIs(items[..|items| - 1]); }
  }

  // ---- what the allocator gives ----

  lemma DemandsDistinct(items: seq<Item>)
    requires DistinctLines(items)
    ensures Allocator.DistinctItems(Demands(items))
  {
    forall i, k | 0 <= i < k < |items|
      ensures Allocator.LineId(Demands(items)[i]) != Allocator.LineId(Demands(items)[k])
    {
    }
  }

  function OpenFor(item: Item): nat {
    if item.quantity - item.fixed - item.produced > 0 then item.quantity - item.fixed - item.produced else 0
  }

  /** Every share is positive, from a listed lot, for a listed line. */
  lemma SharesAreListed(items: seq<Item>, lots: seq<Allocator.SurplusLot>, today: int, a: Allocator.Allocation)
    requires DistinctLines(items) && Allocator.DistinctLots(lots) && a in Allocated(items, lots, today)
    ensures a.quantity > 0
    ensures exists i :: 0 <= i < |items| && items[i].lineId == a.lineId
    ensures exists j :: 0 <= j < |lots| && lots[j].lotId == a.lotId
  {
    DemandsDistinct(items);
    Stability.SpentItemsChangeNothing(lots, Demands(items), today);
    Surplus.AllocationIsSound(lots, Demands(items), today);
    assert Surplus.RowSound(a, lots, Demands(items), today);
    var lot, item :| lot in lots && item in Demands(items) && Allocator.Eligible(lot, item, today)
      && a == Allocator.Allocation(lot.lotId, item.orderId, item.lineId, item.productId, item.demandDate, a.quantity);
    var i :| 0 <= i < |items| && Demands(items)[i] == item;
    var j :| 0 <= j < |lots| && lots[j] == lot;
    assert items[i].lineId == a.lineId && lots[j].lotId == a.lotId;
  }

  lemma SharesFit(items: seq<Item>, lots: seq<Allocator.SurplusLot>, today: int)
    requires DistinctLines(items) && Allocator.DistinctLots(lots)
    ensures forall i :: 0 <= i < |items| ==>
      Surplus.OnLine(Allocated(items, lots, today), items[i].lineId) <= OpenFor(items[i])
    ensures forall j :: 0 <= j < |lots| ==>
      Surplus.OnLot(Allocated(items, lots, today), lots[j].lotId) <= Allocator.FreeIn(lots[j])
  {
    DemandsDistinct(items);
    Stability.SpentItemsChangeNothing(lots, Demands(items), today);
    Surplus.AllocationIsSound(lots, Demands(items), today);
    forall i | 0 <= i < |items|
      ensures Surplus.OnLine(Allocated(items, lots, today), items[i].lineId) <= OpenFor(items[i])
    {
      assert Demands(items)[i] in Demands(items);
    }
    forall j | 0 <= j < |lots|
      ensures Surplus.OnLot(Allocated(items, lots, today), lots[j].lotId) <= Allocator.FreeIn(lots[j])
    {
      assert lots[j] in lots;
    }
  }

  lemma {:induction false} NoShareOnLot(shares: seq<Allocator.Allocation>, id: nat)
    requires forall a :: a in shares ==> a.lotId != id
    ensures Surplus.OnLot(shares, id) == 0
  {
    if shares != [] {
      assert shares[|shares| - 1] in shares;
      NoShareOnLot(shares[..|shares| - 1], id);
    }
  }

  lemma {:induction false} NoShareOnLine(shares: seq<Allocator.Allocation>, id: nat)
    requires forall a :: a in shares ==> a.lineId != id
    ensures Surplus.OnLine(shares, id) == 0
  {
    if shares != [] {
      assert shares[|shares| - 1] in shares;
      NoShareOnLine(shares[..|shares| - 1], id);
    }
  }

  // ---- shares and clones as rows ----

  ghost predicate AllKeyed(shares: seq<Allocator.Allocation>, keys: map<nat, DemandKey>) {
    forall a :: a in shares ==> a.lineId in keys
  }

  lemma {:induction false} FreshRowSums(
      shares: seq<Allocator.Allocation>, keys: map<nat, DemandKey>, generation: nat, id: nat, key: DemandKey)
    requires AllKeyed(shares, keys)
    ensures OnLot(FreshRows(shares, keys, generation), id) == Surplus.OnLot(shares, id)
    ensures OnLine(FreshRows(shares, keys, generation), id) == Surplus.OnLine(shares, id)
    ensures OnReq(FreshRows(shares, keys, generation), ReqId(key, generation)) == GroupFresh(shares, keys, key)
  {
    if shares != [] {
      var n := |shares| - 1;
      var last := shares[n];
      assert last in shares;
      FreshRowSums(shares[..n], keys, generation, id, key);
      OneRow(FreshRows(shares[..n], keys, generation),
        SurplusRow(ReqId(keys[last.lineId], generation), last.lotId, last.lineId, last.quantity), true, id,
          ReqId(key, generation));
    }
  }

  lemma {:induction false} FreshRowOrigin(
      shares: seq<Allocator.Allocation>, keys: map<nat, DemandKey>, generation: nat, x: SurplusRow)
    requires x in FreshRows(shares, keys, generation)
    ensures x.lineId in keys && x.req == ReqId(keys[x.lineId], generation)
    ensures exists a :: a in shares && a.lotId == x.lotId && a.lineId == x.lineId && a.quantity == x.quantity
  {
    var n := |shares| - 1;
    var last := shares[n];
    if x in FreshRows(shares[..n], keys, generation) {
      FreshRowOrigin(shares[..n], keys, generation, x);
    } else {
      assert last in shares;
    }
  }

  ghost predicate RowsKeyed(ready: seq<SurplusRow>, keys: map<nat, DemandKey>) {
    forall x :: x in ready ==> x.lineId in keys
  }

  lemma {:induction false} CloneSums(ready: seq<SurplusRow>, keys: map<nat, DemandKey>, generation: nat, id: nat)
    requires RowsKeyed(ready, keys)
    ensures OnLot(Clones(ready, keys, generation), id) == OnLot(ready, id)
    ensures OnLine(Clones(ready, keys, generation), id) == OnLine(ready, id)
  {
    if ready != [] {
      var n := |ready| - 1;
      var last := ready[n];
      assert last in ready;
      CloneSums(ready[..n], keys, generation, id);
      var clone := last.(req := ReqId(keys[last.lineId], generation));
      OneRow(Clones(ready[..n], keys, generation), clone, true, id, clone.req);
    }
  }

  lemma {:induction false} CloneOrigin(
      ready: seq<SurplusRow>, keys: map<nat, DemandKey>, generation: nat, x: SurplusRow)
    requires x in Clones(ready, keys, generation)
    ensures x.lineId in keys && x.req == ReqId(keys[x.lineId], generation)
    ensures exists y :: y in ready && x == y.(req := x.req)
  {
    var n := |ready| - 1;
    var last := ready[n];
    if x in Clones(ready[..n], keys, generation) {
      CloneOrigin(ready[..n], keys, generation, x);
    } else {
      assert last in ready;
    }
  }

  // ---- kept surplus per group, line by line ----

  /** Quantity of the kept rows whose line belongs to `key`. */
  function KeptFor(ready: seq<SurplusRow>, keys: map<nat, DemandKey>, key: DemandKey): nat {
    if ready == [] then 0
    else
      var last := ready[|ready| - 1];
      KeptFor(ready[..|ready| - 1], keys, key)
      + if last.lineId in keys && keys[last.lineId] == key then last.quantity else 0
  }

  lemma {:induction false} CloneGroup(
      ready: seq<SurplusRow>, keys: map<nat, DemandKey>, generation: nat, key: DemandKey)
    requires RowsKeyed(ready, keys)
    ensures OnReq(Clones(ready, keys, generation), ReqId(key, generation)) == KeptFor(ready, keys, key)
  {
    if ready != [] {
      var n := |ready| - 1;
      var last := ready[n];
      assert last in ready;
      CloneGroup(ready[..n], keys, generation, key);
      var clone := last.(req := ReqId(keys[last.lineId], generation));
      OneRow(Clones(ready[..n], keys, generation), clone, true, 0, ReqId(key, generation));
    }
  }

  /** Adding up kept rows by line and then by group is adding them up by group. */
  function KeptOn(items: seq<Item>, ready: seq<SurplusRow>, key: DemandKey): nat {
    if items == [] then 0
    else
      var last := items[|items| - 1];
      KeptOn(items[..|items| - 1], ready, key) + if last.key == key then OnLine(ready, last.lineId) else 0
  }

  lemma {:induction false} FixedIsKept(items: seq<Item>, ready: seq<SurplusRow>, key: DemandKey)
    requires forall i :: 0 <= i < |items| ==> items[i].fixed == OnLine(ready, items[i].lineId)
    ensures GroupFixed(items, key) == KeptOn(items, ready, key)
  {
    if items != [] {
      assert items[..|items| - 1] == items[..|items| - 1];
      FixedIsKept(items[..|items| - 1], ready, key);
    }
  }

  lemma {:induction false} KeptOnNothing(items: seq<Item>, key: DemandKey)
    ensures KeptOn(items, [], key) == 0
  {
    if items != [] { KeptOnNothing(items[..|items| - 1], key); }
  }

  lemma {:induction false} KeptOnSnoc(items: seq<Item>, ready: seq<SurplusRow>, x: SurplusRow, key: DemandKey)
    requires DistinctLines(items)
    ensures KeptOn(items, ready + [x], key) == KeptOn(items, ready, key)
      + if exists i :: 0 <= i < |items| && items[i].lineId == x.lineId && items[i].key == key then x.quantity else 0
  {
    if items != [] {
      var n := |items| - 1;
      KeptOnSnoc(items[..n], ready, x, key);
      assert (ready + [x])[..|ready|] == ready;
      if items[n].lineId == x.lineId && items[n].key == key {
        forall i | 0 <= i < n ensures items[..n][i].lineId != x.lineId { assert items[..n][i] == items[i]; }
      } else if exists i :: 0 <= i < |items| && items[i].lineId == x.lineId && items[i].key == key {
        var i :| 0 <= i < |items| && items[i].lineId == x.lineId && items[i].key == key;
        assert items[..n][i] == items[i];
      }
    }
  }

  lemma {:induction false} KeptByLineIsByGroup(items: seq<Item>, ready: seq<SurplusRow>, key: DemandKey)
    requires DistinctLines(items)
    ensures KeptOn(items, ready, key) == KeptFor(ready, KeyMap(items), key)
  {
    if ready == [] {
      KeptOnNothing(items, key);
    } else {
      var n := |ready| - 1;
      KeptByLineIsByGroup(items, ready[..n], key);
      KeptOnSnoc(items, ready[..n], ready[n], key);
      assert ready == ready[..n] + [ready[n]];
      KeyMapIs(items);
    }
  }
}
