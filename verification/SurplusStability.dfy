/** Stability of surplus allocation at the level of its rows. Fix what the lines of any set hold,
    count it against the lots and against those lines' own quantities, allocate again: every other
    line gets the same rows as before and the fixed lines get nothing more. */
module SurplusStability {
  import opened Sorting
  import opened Fefo
  import opened FefoPinning
  import opened SurplusAllocation
  import opened SurplusTheorems

  /** The rows of the lines in `ids`. */
  function Only(rows: seq<Allocation>, ids: set<nat>): seq<Allocation> {
    if rows == [] then []
    else
      var last := rows[|rows| - 1];
      Only(rows[..|rows| - 1], ids) + if last.lineId in ids then [last] else []
  }

  /** The rows of the lines not in `ids`. */
  function Without(rows: seq<Allocation>, ids: set<nat>): seq<Allocation> {
    if rows == [] then []
    else
      var last := rows[|rows| - 1];
      Without(rows[..|rows| - 1], ids) + if last.lineId in ids then [] else [last]
  }

  function HoldLot(lot: SurplusLot, held: seq<Allocation>): SurplusLot {
    lot.(allocatedElsewhere := lot.allocatedElsewhere + OnLot(held, lot.lotId))
  }

  /** The lots once `held` is counted as allocated elsewhere. */
  function HoldLots(lots: seq<SurplusLot>, held: seq<Allocation>): (r: seq<SurplusLot>)
    ensures |r| == |lots|
  {
    seq(|lots|, j requires 0 <= j < |lots| => HoldLot(lots[j], held))
  }

  function ReduceItem(item: DemandItem, held: seq<Allocation>): DemandItem {
    item.(quantity := item.quantity - OnLine(held, item.lineId))
  }

  /** The demand items once `held` is counted against the lines that have it. */
  function ReduceItems(items: seq<DemandItem>, held: seq<Allocation>): (r: seq<DemandItem>)
    ensures |r| == |items|
  {
    seq(|items|, i requires 0 <= i < |items| => ReduceItem(items[i], held))
  }

  // ---- splitting rows by line ----

  lemma {:induction false} OnlyConcat(a: seq<Allocation>, b: seq<Allocation>, ids: set<nat>)
    ensures Only(a + b, ids) == Only(a, ids) + Only(b, ids)
    ensures Without(a + b, ids) == Without(a, ids) + Without(b, ids)
  {
    if b == [] {
      assert a + b == a;
    } else {
      OnlyConcat(a, b[..|b| - 1], ids);
      assert (a + b)[..|a + b| - 1] == a + b[..|b| - 1];
    }
  }

  lemma {:induction false} OnLineOfOnly(rows: seq<Allocation>, ids: set<nat>, id: nat)
    ensures OnLine(Only(rows, ids), id) == if id in ids then OnLine(rows, id) else 0
    ensures OnLine(Without(rows, ids), id) == if id in ids then 0 else OnLine(rows, id)
  {
    if rows != [] {
      var last := rows[|rows| - 1];
      OnLineOfOnly(rows[..|rows| - 1], ids, id);
      OnLineConcat(Only(rows[..|rows| - 1], ids), if last.lineId in ids then [last] else [], id);
      OnLineConcat(Without(rows[..|rows| - 1], ids), if last.lineId in ids then [] else [last], id);
      assert [last][..0] == [];
    }
  }

  lemma {:induction false} OnLotSplits(rows: seq<Allocation>, ids: set<nat>, id: nat)
    ensures OnLot(rows, id) == OnLot(Only(rows, ids), id) + OnLot(Without(rows, ids), id)
  {
    if rows != [] {
      var last := rows[|rows| - 1];
      OnLotSplits(rows[..|rows| - 1], ids, id);
      OnLotConcat(Only(rows[..|rows| - 1], ids), if last.lineId in ids then [last] else [], id);
      OnLotConcat(Without(rows[..|rows| - 1], ids), if last.lineId in ids then [] else [last], id);
      assert [last][..0] == [];
    }
  }

  lemma {:induction false} OneLineRows(item: DemandItem, lots: seq<SurplusLot>, row: seq<nat>, n: nat, ids: set<nat>)
    requires n <= |row| == |lots|
    ensures Only(LineRows(item, lots, row, n), ids) == if item.lineId in ids then LineRows(item, lots, row, n) else []
    ensures Without(LineRows(item, lots, row, n), ids) == if item.lineId in ids then []
      else LineRows(item, lots, row, n)
  {
    if n > 0 {
      OneLineRows(item, lots, row, n - 1, ids);
      var e := Entry(item, lots[n - 1], row[n - 1]);
      OnlyConcat(LineRows(item, lots, row, n - 1), e, ids);
      assert |e| == 1 ==> e[..0] == [];
    }
  }

  // ---- the plan after pinning, as rows ----

  ghost predicate SameNames(a: seq<DemandItem>, b: seq<DemandItem>) {
    |a| == |b| && forall i :: 0 <= i < |a| ==> b[i] == a[i].(quantity := b[i].quantity)
  }

  ghost predicate SameLots(a: seq<SurplusLot>, b: seq<SurplusLot>) {
    |a| == |b| && forall j :: 0 <= j < |a| ==> b[j] == a[j].(allocatedElsewhere := b[j].allocatedElsewhere)
  }

  lemma {:induction false} LineRowsSame(
      item: DemandItem, item': DemandItem, lots: seq<SurplusLot>, lots': seq<SurplusLot>, row: seq<nat>, n: nat)
    requires SameLots(lots, lots') && item' == item.(quantity := item'.quantity) && n <= |row| == |lots|
    ensures LineRows(item', lots', row, n) == LineRows(item, lots, row, n)
  {
    if n > 0 { LineRowsSame(item, item', lots, lots', row, n - 1); }
  }

  ghost predicate Marks(pinned: seq<bool>, items: seq<DemandItem>, ids: set<nat>) {
    |pinned| == |items| && forall i :: 0 <= i < |items| ==> (pinned[i] <==> items[i].lineId in ids)
  }

  lemma ZerosGiveNoRows(item: DemandItem, lots: seq<SurplusLot>)
    ensures LineRows(item, lots, Zeros(|lots|), |lots|) == []
  {
    BlankTail(item, lots, Zeros(|lots|), 0, |lots|);
  }

  lemma {:induction false} UnpinnedRows(
      items: seq<DemandItem>, items': seq<DemandItem>, lots: seq<SurplusLot>, lots': seq<SurplusLot>,
      plan: seq<seq<nat>>, pinned: seq<bool>, ids: set<nat>, n: nat)
    requires SameNames(items, items') && SameLots(lots, lots') && PlanFor(plan, |items|, |lots|)
    requires Marks(pinned, items, ids) && n <= |items|
    ensures PlanFor(Unpinned(plan, pinned, |lots|), |items|, |lots|)
    ensures Rows(items', lots', Unpinned(plan, pinned, |lots|), n) == Without(Rows(items, lots, plan, n), ids)
  {
    hide LineRows, Without, Rows, Only;
    RowsStep(items, lots, plan, n);
    RowsStep(items', lots', Unpinned(plan, pinned, |lots|), n);
    if n == 0 {
      WithoutNone(ids);
    } else {
      UnpinnedRows(items, items', lots, lots', plan, pinned, ids, n - 1);
      UnpinnedLine(items[n - 1], items'[n - 1], lots, lots', plan[n - 1], pinned[n - 1], ids);
      OnlyConcat(Rows(items, lots, plan, n - 1), LineRows(items[n - 1], lots, plan[n - 1], |lots|), ids);
    }
  }

  lemma UnpinnedLine(
      item: DemandItem, item': DemandItem, lots: seq<SurplusLot>, lots': seq<SurplusLot>, row: seq<nat>,
      pin: bool, ids: set<nat>)
    requires SameLots(lots, lots') && item' == item.(quantity := item'.quantity) && |row| == |lots|
    requires pin <==> item.lineId in ids
    ensures LineRows(item', lots', if pin then Zeros(|lots|) else row, |lots|)
            == Without(LineRows(item, lots, row, |lots|), ids)
  {
    hide LineRows, Without;
    OneLineRows(item, lots, row, |lots|, ids);
    if pin {
      ZerosGiveNoRows(item', lots');
    } else {
      LineRowsSame(item, item', lots, lots', row, |lots|);
    }
  }

  lemma WithoutNone(ids: set<nat>)
    ensures Without([], ids) == [] && Only([], ids) == []
  {
  }

  /** What the pinned rows of a plan hold of each lot is what the rows of those lines draw from it. */
  lemma {:induction false} HeldIsDrawn(
      items: seq<DemandItem>, lots: seq<SurplusLot>, plan: seq<seq<nat>>, pinned: seq<bool>, ids: set<nat>,
      n: nat, j: nat)
    requires PlanFor(plan, |items|, |lots|) && Marks(pinned, items, ids) && n <= |items|
    requires DistinctLots(lots) && j < |lots|
    ensures OnLot(Only(Rows(items, lots, plan, n), ids), lots[j].lotId) == HeldOf(plan[..n], pinned[..n], j)
  {
    hide OnLot, Only, LineRows, Rows, HeldOf;
    RowsStep(items, lots, plan, n);
    if n == 0 {
      WithoutNone(ids);
      Nothing(lots[j].lotId);
      HeldSnoc([], [], [], true, j);
      assert plan[..0] == [] && pinned[..0] == [];
    } else {
      HeldIsDrawn(items, lots, plan, pinned, ids, n - 1, j);
      var rows := LineRows(items[n - 1], lots, plan[n - 1], |lots|);
      OnlyConcat(Rows(items, lots, plan, n - 1), rows, ids);
      OneLineRows(items[n - 1], lots, plan[n - 1], |lots|, ids);
      OnLotConcat(Only(Rows(items, lots, plan, n - 1), ids), Only(rows, ids), lots[j].lotId);
      LineRowsOnLot(items[n - 1], lots, plan[n - 1], |lots|, j);
      Nothing(lots[j].lotId);
      HeldSnoc(plan[..n - 1], pinned[..n - 1], plan[n - 1], pinned[n - 1], j);
      PrefixStep(plan, n);
      PrefixStep(pinned, n);
    }
  }

  lemma {:induction false} HeldSnoc(plan: seq<seq<nat>>, pinned: seq<bool>, row: seq<nat>, pin: bool, j: nat)
    requires |pinned| == |plan|
    ensures HeldOf([], [], j) == 0
    ensures HeldOf(plan + [row], pinned + [pin], j)
            == HeldOf(plan, pinned, j) + if pin && j < |row| then row[j] else 0
  {
    if plan == [] {
      assert plan + [row] == [row] && pinned + [pin] == [pin];
    } else {
      HeldSnoc(plan[1..], pinned[1..], row, pin, j);
      assert (plan + [row])[1..] == plan[1..] + [row] && (pinned + [pin])[1..] == pinned[1..] + [pin];
    }
  }

  lemma CapsAfterHolding(
      items: seq<DemandItem>, lots: seq<SurplusLot>, plan: seq<seq<nat>>, pinned: seq<bool>, ids: set<nat>)
    requires PlanFor(plan, |items|, |lots|) && Marks(pinned, items, ids) && DistinctLots(lots)
    requires Below(Held(plan, pinned, |lots|), Caps(lots))
    ensures Caps(HoldLots(lots, Only(Rows(items, lots, plan, |items|), ids)))
            == Minus(Caps(lots), Held(plan, pinned, |lots|))
  {
    hide OnLot, Only, Rows, HeldOf;
    var held := Only(Rows(items, lots, plan, |items|), ids);
    var lots' := HoldLots(lots, held);
    forall j | 0 <= j < |lots| ensures Caps(lots')[j] == Minus(Caps(lots), Held(plan, pinned, |lots|))[j] {
      HeldIsDrawn(items, lots, plan, pinned, ids, |items|, j);
      assert plan[..|items|] == plan && pinned[..|items|] == pinned;
      assert Held(plan, pinned, |lots|)[j] <= Caps(lots)[j];
    }
  }

  lemma NeedsAfterReducing(
      items: seq<DemandItem>, lots: seq<SurplusLot>, plan: seq<seq<nat>>, pinned: seq<bool>, ids: set<nat>)
    requires PlanFor(plan, |items|, |lots|) && Marks(pinned, items, ids) && DistinctItems(items)
    requires forall i :: 0 <= i < |items| ==> Sum(plan[i]) <= Needs(items)[i]
    ensures Needs(ReduceItems(items, Only(Rows(items, lots, plan, |items|), ids)))
            == ReducedNeeds(Needs(items), plan, pinned)
  {
    hide OnLine, Only, Rows, Sum;
    var rows := Rows(items, lots, plan, |items|);
    var items' := ReduceItems(items, Only(rows, ids));
    forall i | 0 <= i < |items| ensures Needs(items')[i] == ReducedNeeds(Needs(items), plan, pinned)[i] {
      RowsOnLine(items, lots, plan, |items|, i);
      OnLineOfOnly(rows, ids, items[i].lineId);
      assert Needs(items)[i] == NeedOf(items[i]) && Sum(plan[i]) <= Needs(items)[i];
      assert items'[i].quantity == items[i].quantity - if pinned[i] then Sum(plan[i]) else 0;
    }
  }

  lemma EligibilityOfNames(
      lots: seq<SurplusLot>, lots': seq<SurplusLot>, items: seq<DemandItem>, items': seq<DemandItem>, today: int)
    requires SameNames(items, items') && SameLots(lots, lots')
    ensures Eligibility(lots', items', today) == Eligibility(lots, items, today)
  {
    forall i | 0 <= i < |items|
      ensures EligibleLots(lots', items'[i], today) == EligibleLots(lots, items[i], today)
    {
      forall j | 0 <= j < |lots|
        ensures EligibleLots(lots', items'[i], today)[j] == EligibleLots(lots, items[i], today)[j]
      {
        assert lots'[j].productId == lots[j].productId && lots'[j].usableThrough == lots[j].usableThrough;
        assert items'[i].productId == items[i].productId && items'[i].demandDate == items[i].demandDate;
      }
    }
  }

  /** The theorem for items and lots already in priority order. */
  lemma SortedStability(lots: seq<SurplusLot>, items: seq<DemandItem>, today: int, ids: set<nat>)
    requires DistinctLots(lots) && DistinctItems(items)
    ensures
      var rows := SortedRows(lots, items, today);
      var held := Only(rows, ids);
      SortedRows(HoldLots(lots, held), ReduceItems(items, held), today) == Without(rows, ids)
  {
    hide Greedy, OnLot, OnLine, Only, Without, Rows, Sum, Held, HeldOf;
    PlanShape(lots, items, today);
    var plan := Plan(lots, items, today);
    var rows := Rows(items, lots, plan, |items|);
    var held := Only(rows, ids);
    var pinned := seq(|items|, i requires 0 <= i < |items| => items[i].lineId in ids);
    var lots', items' := HoldLots(lots, held), ReduceItems(items, held);
    var ok := Eligibility(lots, items, today);
    PinningKeepsThePlan(Needs(items), Caps(lots), ok, pinned);
    GreedyIsFeasible(Needs(items), Caps(lots), ok);
    CapsAfterHolding(items, lots, plan, pinned, ids);
    forall i | 0 <= i < |items| ensures Sum(plan[i]) <= Needs(items)[i] {
      assert FeasibleRow(plan[i], Needs(items)[i], Caps(lots), ok[i]);
    }
    NeedsAfterReducing(items, lots, plan, pinned, ids);
    EligibilityOfNames(lots, lots', items, items', today);
    assert Plan(lots', items', today) == Unpinned(plan, pinned, |lots|);
    UnpinnedRows(items, items', lots, lots', plan, pinned, ids, |items|);
  }

  // ---- sorting commutes with changes that keep the keys ----

  lemma {:induction false} InsertHeld(x: SurplusLot, lots: seq<SurplusLot>, held: seq<Allocation>)
    ensures Insert(HoldLot(x, held), HoldLots(lots, held), LotKey) == HoldLots(Insert(x, lots, LotKey), held)
  {
    if lots == [] || !Less(LotKey(lots[0]), LotKey(x)) {
    } else {
      InsertHeld(x, lots[1..], held);
      assert HoldLots(lots, held)[1..] == HoldLots(lots[1..], held);
    }
  }

  lemma {:induction false} SortHeld(lots: seq<SurplusLot>, held: seq<Allocation>)
    ensures Sort(HoldLots(lots, held), LotKey) == HoldLots(Sort(lots, LotKey), held)
  {
    if lots != [] {
      SortHeld(lots[1..], held);
      assert HoldLots(lots, held)[1..] == HoldLots(lots[1..], held);
      InsertHeld(lots[0], Sort(lots[1..], LotKey), held);
    }
  }

  lemma {:induction false} InsertReduced(x: DemandItem, items: seq<DemandItem>, held: seq<Allocation>)
    ensures Insert(ReduceItem(x, held), ReduceItems(items, held), ItemKey)
      == ReduceItems(Insert(x, items, ItemKey), held)
  {
    if items == [] || !Less(ItemKey(items[0]), ItemKey(x)) {
    } else {
      InsertReduced(x, items[1..], held);
      assert ReduceItems(items, held)[1..] == ReduceItems(items[1..], held);
    }
  }

  lemma {:induction false} SortReduced(items: seq<DemandItem>, held: seq<Allocation>)
    ensures Sort(ReduceItems(items, held), ItemKey) == ReduceItems(Sort(items, ItemKey), held)
  {
    if items != [] {
      SortReduced(items[1..], held);
      assert ReduceItems(items, held)[1..] == ReduceItems(items[1..], held);
      InsertReduced(items[0], Sort(items[1..], ItemKey), held);
    }
  }

  /** Pinning stability, as the recalculation relies on it. */
  lemma PinnedLinesChangeNothing(lots: seq<SurplusLot>, items: seq<DemandItem>, today: int, ids: set<nat>)
    requires DistinctLots(lots) && DistinctItems(items)
    ensures
      var rows := Allocate(lots, items, today);
      var held := Only(rows, ids);
      Allocate(HoldLots(lots, held), ReduceItems(items, held), today) == Without(rows, ids)
  {
    var held := Only(Allocate(lots, items, today), ids);
    SortedLotsDistinct(lots);
    SortApart(items, ItemKey, LineId);
    SortHeld(lots, held);
    SortReduced(items, held);
    SortedStability(Sort(lots, LotKey), Sort(items, ItemKey), today, ids);
  }

  // ---- items with nothing left to ask for may be left out ----

  /** The items that still ask for something. */
  function Open(items: seq<DemandItem>): seq<DemandItem> {
    if items == [] then [] else (if items[0].quantity > 0 then [items[0]] else []) + Open(items[1..])
  }

  lemma {:induction false} OpenMembers(items: seq<DemandItem>, x: DemandItem)
    ensures x in Open(items) <==> x in items && x.quantity > 0
  {
    if items != [] { OpenMembers(items[1..], x); }
  }

  lemma {:induction false} InsertFirst(x: DemandItem, items: seq<DemandItem>)
    requires forall y :: y in items ==> !Less(ItemKey(y), ItemKey(x))
    ensures Insert(x, items, ItemKey) == [x] + items
  {
  }

  lemma {:induction false} OpenInsert(x: DemandItem, items: seq<DemandItem>)
    requires Sorted(items, ItemKey)
    ensures Open(Insert(x, items, ItemKey))
            == if x.quantity > 0 then Insert(x, Open(items), ItemKey) else Open(items)
  {
    if items == [] {
    } else if !Less(ItemKey(items[0]), ItemKey(x)) {
      assert ([x] + items)[1..] == items;
      forall y | y in Open(items) ensures !Less(ItemKey(y), ItemKey(x)) {
        OpenMembers(items, y);
        var i :| 0 <= i < |items| && items[i] == y;
        assert i > 0 ==> !Less(ItemKey(items[i]), ItemKey(items[0]));
      }
      InsertFirst(x, Open(items));
    } else {
      OpenInsert(x, items[1..]);
      var rest := Insert(x, items[1..], ItemKey);
      assert ([items[0]] + rest)[1..] == rest;
      if x.quantity > 0 && items[0].quantity <= 0 {
        assert Open(items) == Open(items[1..]);
      } else if x.quantity > 0 {
        assert Open(items)[1..] == Open(items[1..]);
      }
    }
  }

  lemma {:induction false} OpenSort(items: seq<DemandItem>)
    ensures Sort(Open(items), ItemKey) == Open(Sort(items, ItemKey))
  {
    if items != [] {
      OpenSort(items[1..]);
      SortSorts(items[1..], ItemKey);
      OpenInsert(items[0], Sort(items[1..], ItemKey));
      if items[0].quantity > 0 {
        assert Open(items) == [items[0]] + Open(items[1..]) && Open(items)[1..] == Open(items[1..]);
      } else {
        assert Open(items) == Open(items[1..]);
      }
    }
  }

  lemma {:induction false} RowsCons(items: seq<DemandItem>, lots: seq<SurplusLot>, plan: seq<seq<nat>>, n: nat)
    requires PlanFor(plan, |items|, |lots|) && 0 < n <= |items|
    ensures Rows(items, lots, plan, n)
            == LineRows(items[0], lots, plan[0], |lots|) + Rows(items[1..], lots, plan[1..], n - 1)
  {
    hide LineRows, Rows;
    RowsStep(items, lots, plan, n);
    RowsStep(items[1..], lots, plan[1..], n - 1);
    RowsStep(items, lots, plan, 0);
    if n > 1 {
      RowsCons(items, lots, plan, n - 1);
      assert items[1..][n - 2] == items[n - 1] && plan[1..][n - 2] == plan[n - 1];
    }
  }

  /** The rows of items in priority order from given capacities. */
  function RowsFrom(lots: seq<SurplusLot>, items: seq<DemandItem>, caps: seq<nat>, today: int): seq<Allocation>
    requires |caps| == |lots|
  {
    var ok := Eligibility(lots, items, today);
    GreedyIsFeasible(Needs(items), caps, ok);
    Rows(items, lots, Greedy(Needs(items), caps, ok), |items|)
  }

  lemma NamesTail(lots: seq<SurplusLot>, items: seq<DemandItem>, today: int)
    requires items != []
    ensures Needs(items)[0] == NeedOf(items[0]) && Needs(items)[1..] == Needs(items[1..])
    ensures Eligibility(lots, items, today)[0] == EligibleLots(lots, items[0], today)
    ensures Eligibility(lots, items, today)[1..] == Eligibility(lots, items[1..], today)
  {
  }

  lemma RowsFromCons(lots: seq<SurplusLot>, items: seq<DemandItem>, caps: seq<nat>, today: int)
    requires |caps| == |lots| && items != []
    ensures
      var row := TakeRow(NeedOf(items[0]), caps, EligibleLots(lots, items[0], today));
      RowsFrom(lots, items, caps, today)
      == LineRows(items[0], lots, row, |lots|) + RowsFrom(lots, items[1..], Minus(caps, row), today)
  {
    hide TakeRow, Greedy, Rows, LineRows, Needs, Eligibility, EligibleLots;
    NamesTail(lots, items, today);
    var ok := Eligibility(lots, items, today);
    var row := TakeRow(Needs(items)[0], caps, ok[0]);
    GreedyIsFeasible(Needs(items), caps, ok);
    GreedyCons(Needs(items), caps, ok, row, Needs(items[1..]), Minus(caps, row));
    var plan := Greedy(Needs(items), caps, ok);
    RowsCons(items, lots, plan, |items|);
  }

  lemma {:induction false} SpentItemsAddNothing(
      lots: seq<SurplusLot>, items: seq<DemandItem>, caps: seq<nat>, today: int)
    requires |caps| == |lots|
    ensures RowsFrom(lots, Open(items), caps, today) == RowsFrom(lots, items, caps, today)
  {
    hide TakeRow, LineRows, RowsFrom;
    if items != [] {
      var ok := EligibleLots(lots, items[0], today);
      var row := TakeRow(NeedOf(items[0]), caps, ok);
      RowsFromCons(lots, items, caps, today);
      SpentItemsAddNothing(lots, items[1..], Minus(caps, row), today);
      if items[0].quantity > 0 {
        RowsFromCons(lots, Open(items), caps, today);
        assert Open(items)[1..] == Open(items[1..]);
      } else {
        NoNeedNoRow(caps, ok);
        BlankTail(items[0], lots, row, 0, |lots|);
        LineRowsStep(items[0], lots, row, 0);
        MinusIs(caps, row, caps);
        assert Open(items) == Open(items[1..]);
      }
    }
  }

  /** Leaving out items that ask for nothing does not change the allocation. */
  lemma SpentItemsChangeNothing(lots: seq<SurplusLot>, items: seq<DemandItem>, today: int)
    ensures Allocate(lots, Open(items), today) == Allocate(lots, items, today)
  {
    hide Rows, Greedy;
    OpenSort(items);
    SpentItemsAddNothing(Sort(lots, LotKey), Sort(items, ItemKey), Caps(Sort(lots, LotKey)), today);
  }
}
