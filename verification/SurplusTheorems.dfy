/** What surplus allocation guarantees: capacity, need and eligibility are respected row by row, the
    result is independent of input order, and no allocation covers more demand. */
module SurplusTheorems {
  import opened Sorting
  import opened Fefo
  import opened SurplusAllocation

  /** The total the rows draw from one lot. */
  function OnLot(rows: seq<Allocation>, lotId: nat): nat {
    if rows == [] then 0
    else
      var last := rows[|rows| - 1];
      OnLot(rows[..|rows| - 1], lotId) + if last.lotId == lotId then last.quantity else 0
  }

  /** The total the rows give to one line. */
  function OnLine(rows: seq<Allocation>, lineId: nat): nat {
    if rows == [] then 0
    else
      var last := rows[|rows| - 1];
      OnLine(rows[..|rows| - 1], lineId) + if last.lineId == lineId then last.quantity else 0
  }

  lemma {:induction false} OnLotConcat(a: seq<Allocation>, b: seq<Allocation>, lotId: nat)
    ensures OnLot(a + b, lotId) == OnLot(a, lotId) + OnLot(b, lotId)
  {
    if b == [] {
      assert a + b == a;
    } else {
      OnLotConcat(a, b[..|b| - 1], lotId);
      assert (a + b)[..|a + b| - 1] == a + b[..|b| - 1];
    }
  }

  lemma {:induction false} OnLineConcat(a: seq<Allocation>, b: seq<Allocation>, lineId: nat)
    ensures OnLine(a + b, lineId) == OnLine(a, lineId) + OnLine(b, lineId)
  {
    if b == [] {
      assert a + b == a;
    } else {
      OnLineConcat(a, b[..|b| - 1], lineId);
      assert (a + b)[..|a + b| - 1] == a + b[..|b| - 1];
    }
  }

  lemma {:induction false} SumSnoc(row: seq<nat>, x: nat)
    ensures Sum(row + [x]) == Sum(row) + x
  {
    if row == [] {
      assert row + [x] == [x];
    } else {
      SumSnoc(row[1..], x);
      assert (row + [x])[1..] == row[1..] + [x];
    }
  }

  lemma {:induction false} ColumnSnoc(plan: seq<seq<nat>>, row: seq<nat>, j: nat)
    requires j < |row|
    ensures Column(plan + [row], j) == Column(plan, j) + row[j]
  {
    if plan == [] {
      assert plan + [row] == [row];
    } else {
      ColumnSnoc(plan[1..], row, j);
      assert (plan + [row])[1..] == plan[1..] + [row];
    }
  }

  lemma {:induction false} TotalSnoc(plan: seq<seq<nat>>, row: seq<nat>)
    ensures Total(plan + [row]) == Total(plan) + Sum(row)
  {
    if plan == [] {
      assert plan + [row] == [row];
    } else {
      TotalSnoc(plan[1..], row);
      assert (plan + [row])[1..] == plan[1..] + [row];
    }
  }

  lemma EntrySums(item: DemandItem, lot: SurplusLot, quantity: nat, id: nat)
    ensures OnLine(Entry(item, lot, quantity), id) == if id == item.lineId then quantity else 0
    ensures OnLot(Entry(item, lot, quantity), id) == if id == lot.lotId then quantity else 0
  {
    if quantity > 0 {
      var e := Entry(item, lot, quantity);
      assert e[..0] == [];
    }
  }

  lemma RowsStep(items: seq<DemandItem>, lots: seq<SurplusLot>, plan: seq<seq<nat>>, n: nat)
    requires PlanFor(plan, |items|, |lots|) && n <= |items|
    ensures Rows(items, lots, plan, 0) == []
    ensures n > 0 ==>
      Rows(items, lots, plan, n)
      == Rows(items, lots, plan, n - 1) + LineRows(items[n - 1], lots, plan[n - 1], |lots|)
  {
  }

  lemma PrefixStep<T>(s: seq<T>, n: nat)
    requires 0 < n <= |s|
    ensures s[..n] == s[..n - 1] + [s[n - 1]]
  {
  }

  lemma Nothing(id: nat)
    ensures OnLine([], id) == 0 && OnLot([], id) == 0 && Sum([]) == 0 && Column([], id) == 0
  {
  }

  lemma {:induction false} LineRowsOnLine(item: DemandItem, lots: seq<SurplusLot>, row: seq<nat>, n: nat, id: nat)
    requires n <= |row| == |lots|
    ensures OnLine(LineRows(item, lots, row, n), id) == if id == item.lineId then Sum(row[..n]) else 0
  {
    hide OnLine, Sum, Entry, LineRows;
    LineRowsStep(item, lots, row, n);
    if n == 0 {
      Nothing(id);
      assert row[..0] == [];
    } else {
      LineRowsOnLine(item, lots, row, n - 1, id);
      OnLineConcat(LineRows(item, lots, row, n - 1), Entry(item, lots[n - 1], row[n - 1]), id);
      EntrySums(item, lots[n - 1], row[n - 1], id);
      SumSnoc(row[..n - 1], row[n - 1]);
      PrefixStep(row, n);
    }
  }

  lemma {:induction false} LineRowsOnLot(item: DemandItem, lots: seq<SurplusLot>, row: seq<nat>, n: nat, j: nat)
    requires n <= |row| == |lots| && DistinctLots(lots) && j < |lots|
    ensures OnLot(LineRows(item, lots, row, n), lots[j].lotId) == if j < n then row[j] else 0
  {
    hide OnLot, Entry, LineRows;
    LineRowsStep(item, lots, row, n);
    if n == 0 {
      Nothing(lots[j].lotId);
    } else {
      LineRowsOnLot(item, lots, row, n - 1, j);
      OnLotConcat(LineRows(item, lots, row, n - 1), Entry(item, lots[n - 1], row[n - 1]), lots[j].lotId);
      EntrySums(item, lots[n - 1], row[n - 1], lots[j].lotId);
      OtherLotsApart(lots, j);
    }
  }

  ghost predicate PlanFor(plan: seq<seq<nat>>, items: nat, lots: nat) {
    |plan| == items && forall i :: 0 <= i < |plan| ==> |plan[i]| == lots
  }

  lemma {:induction false} RowsOnLot(
      items: seq<DemandItem>, lots: seq<SurplusLot>, plan: seq<seq<nat>>, n: nat, j: nat)
    requires PlanFor(plan, |items|, |lots|) && n <= |items| && DistinctLots(lots) && j < |lots|
    ensures OnLot(Rows(items, lots, plan, n), lots[j].lotId) == Column(plan[..n], j)
  {
    hide OnLot, Column, LineRows, Rows;
    RowsStep(items, lots, plan, n);
    if n == 0 {
      Nothing(lots[j].lotId);
      Nothing(j);
      assert plan[..0] == [];
    } else {
      RowsOnLot(items, lots, plan, n - 1, j);
      OnLotConcat(Rows(items, lots, plan, n - 1), LineRows(items[n - 1], lots, plan[n - 1], |lots|), lots[j].lotId);
      LineRowsOnLot(items[n - 1], lots, plan[n - 1], |lots|, j);
      ColumnSnoc(plan[..n - 1], plan[n - 1], j);
      PrefixStep(plan, n);
    }
  }

  lemma {:induction false} RowsOnLine(
      items: seq<DemandItem>, lots: seq<SurplusLot>, plan: seq<seq<nat>>, n: nat, i: nat)
    requires PlanFor(plan, |items|, |lots|) && n <= |items| && DistinctItems(items) && i < |items|
    ensures OnLine(Rows(items, lots, plan, n), items[i].lineId) == if i < n then Sum(plan[i]) else 0
  {
    hide OnLine, Sum, LineRows, Rows;
    RowsStep(items, lots, plan, n);
    if n == 0 {
      Nothing(items[i].lineId);
    } else {
      RowsOnLine(items, lots, plan, n - 1, i);
      OnLineConcat(Rows(items, lots, plan, n - 1), LineRows(items[n - 1], lots, plan[n - 1], |lots|), items[i].lineId);
      LineRowsOnLine(items[n - 1], lots, plan[n - 1], |lots|, items[i].lineId);
      assert plan[n - 1][..|lots|] == plan[n - 1];
      assert i != n - 1 ==> LineId(items[i]) != LineId(items[n - 1]);
    }
  }

  // ---- every row comes from a listed lot and item, and is eligible ----

  ghost predicate RowSound(a: Allocation, lots: seq<SurplusLot>, items: seq<DemandItem>, today: int) {
    a.quantity > 0 &&
    exists lot, item :: lot in lots && item in items && Eligible(lot, item, today)
      && a == Allocation(lot.lotId, item.orderId, item.lineId, item.productId, item.demandDate, a.quantity)
  }

  lemma {:induction false} LineRowsSound(
      item: DemandItem, lots: seq<SurplusLot>, items: seq<DemandItem>, row: seq<nat>, n: nat, today: int)
    requires n <= |row| == |lots| && item in items
    requires forall j :: 0 <= j < |lots| && row[j] > 0 ==> Eligible(lots[j], item, today)
    ensures forall a :: a in LineRows(item, lots, row, n) ==> RowSound(a, lots, items, today)
  {
    if n > 0 {
      LineRowsSound(item, lots, items, row, n - 1, today);
      forall a | a in Entry(item, lots[n - 1], row[n - 1]) ensures RowSound(a, lots, items, today) {
        assert lots[n - 1] in lots;
      }
    }
  }

  lemma {:induction false} RowsSound(lots: seq<SurplusLot>, items: seq<DemandItem>, n: nat, today: int)
    requires n <= |items| && PlanFor(Plan(lots, items, today), |items|, |lots|)
    ensures forall a :: a in Rows(items, lots, Plan(lots, items, today), n) ==> RowSound(a, lots, items, today)
  {
    if n > 0 {
      RowsSound(lots, items, n - 1, today);
      var plan := Plan(lots, items, today);
      GreedyIsFeasible(Needs(items), Caps(lots), Eligibility(lots, items, today));
      assert FeasibleRow(plan[n - 1], Needs(items)[n - 1], Caps(lots), Eligibility(lots, items, today)[n - 1]);
      LineRowsSound(items[n - 1], lots, items, plan[n - 1], |lots|, today);
    }
  }

  /** Allocation rows are positive, pair a listed lot with a listed item of its product that is not
      expired for it, never exceed what a lot has free, and never exceed what a line needs. */
  lemma AllocationIsSound(lots: seq<SurplusLot>, items: seq<DemandItem>, today: int)
    requires DistinctLots(lots) && DistinctItems(items)
    ensures forall a :: a in Allocate(lots, items, today) ==> RowSound(a, lots, items, today)
    ensures forall lot :: lot in lots ==> OnLot(Allocate(lots, items, today), lot.lotId) <= FreeIn(lot)
    ensures forall item :: item in items ==> OnLine(Allocate(lots, items, today), item.lineId) <= NeedOf(item)
  {
    var sl, si := Sort(lots, LotKey), Sort(items, ItemKey);
    var plan := Plan(sl, si, today);
    PlanShape(sl, si, today);
    SortedLotsDistinct(lots);
    SortApart(items, ItemKey, LineId);
    GreedyIsFeasible(Needs(si), Caps(sl), Eligibility(sl, si, today));
    assert plan[..|si|] == plan;
    RowsSound(sl, si, |si|, today);
    forall a | a in Allocate(lots, items, today) ensures RowSound(a, lots, items, today) {
      assert RowSound(a, sl, si, today);
      var lot, item :| lot in sl && item in si && Eligible(lot, item, today)
        && a == Allocation(lot.lotId, item.orderId, item.lineId, item.productId, item.demandDate, a.quantity);
      SortMembers(lots, LotKey, lot);
      SortMembers(items, ItemKey, item);
    }
    forall lot | lot in lots ensures OnLot(Allocate(lots, items, today), lot.lotId) <= FreeIn(lot) {
      SortMembers(lots, LotKey, lot);
      var j :| 0 <= j < |sl| && sl[j] == lot;
      RowsOnLot(si, sl, plan, |si|, j);
      assert Column(plan, j) <= Caps(sl)[j];
    }
    forall item | item in items ensures OnLine(Allocate(lots, items, today), item.lineId) <= NeedOf(item) {
      SortMembers(items, ItemKey, item);
      var i :| 0 <= i < |si| && si[i] == item;
      RowsOnLine(si, sl, plan, |si|, i);
      assert FeasibleRow(plan[i], Needs(si)[i], Caps(sl), Eligibility(sl, si, today)[i]);
    }
  }

  // ---- optimality ----

  ghost predicate OneProduct(lots: seq<SurplusLot>, items: seq<DemandItem>, productId: nat) {
    && (forall lot :: lot in lots ==> lot.productId == productId)
    && (forall item :: item in items ==> item.productId == productId)
  }

  function BoundOf(item: DemandItem, today: int): int {
    if item.demandDate >= today then item.demandDate else today
  }

  predicate OpenTo(lot: SurplusLot, bound: int) {
    lot.usableThrough.Some? ==> lot.usableThrough.value >= bound
  }

  /** The first lot, in expiry order, that is still usable at `bound`. */
  function FirstOpen(lots: seq<SurplusLot>, bound: int, from: nat): (start: nat)
    requires from <= |lots|
    ensures from <= start <= |lots|
    ensures start < |lots| ==> OpenTo(lots[start], bound)
    ensures forall j :: from <= j < start ==> !OpenTo(lots[j], bound)
    decreases |lots| - from
  {
    if from == |lots| || OpenTo(lots[from], bound) then from else FirstOpen(lots, bound, from + 1)
  }

  function Starts(lots: seq<SurplusLot>, items: seq<DemandItem>, today: int): (starts: seq<nat>)
    ensures |starts| == |items|
  {
    seq(|items|, i requires 0 <= i < |items| => FirstOpen(lots, BoundOf(items[i], today), 0))
  }

  lemma LaterLotsStayOpen(lots: seq<SurplusLot>, bound: int, j: nat, k: nat)
    requires Sorted(lots, LotKey) && j <= k < |lots| && OpenTo(lots[j], bound)
    ensures OpenTo(lots[k], bound)
  {
    if j < k { assert !Less(LotKey(lots[k]), LotKey(lots[j])); }
  }

  lemma LaterItemsStartLater(lots: seq<SurplusLot>, items: seq<DemandItem>, today: int, i: nat, k: nat)
    requires Sorted(items, ItemKey) && i < k < |items|
    ensures Starts(lots, items, today)[i] <= Starts(lots, items, today)[k]
  {
    assert !Less(ItemKey(items[k]), ItemKey(items[i]));
    assert BoundOf(items[i], today) <= BoundOf(items[k], today);
    var a, b := Starts(lots, items, today)[i], Starts(lots, items, today)[k];
    if b < |lots| { assert OpenTo(lots[b], BoundOf(items[k], today)); }
  }

  /** With one product, date order against expiry order makes eligibility a nested chain. */
  lemma EligibilityIsNested(lots: seq<SurplusLot>, items: seq<DemandItem>, today: int, productId: nat)
    requires OneProduct(lots, items, productId) && Sorted(lots, LotKey) && Sorted(items, ItemKey)
    ensures Nested(Eligibility(lots, items, today), Starts(lots, items, today), |lots|)
  {
    var ok, starts := Eligibility(lots, items, today), Starts(lots, items, today);
    forall i, j | 0 <= i < |items| && 0 <= j < |lots| ensures ok[i][j] <==> starts[i] <= j {
      assert lots[j] in lots && items[i] in items;
      assert ok[i][j] <==> OpenTo(lots[j], BoundOf(items[i], today));
      if starts[i] <= j { LaterLotsStayOpen(lots, BoundOf(items[i], today), starts[i], j); }
    }
    forall i, k | 0 <= i < k < |items| ensures starts[i] <= starts[k] {
      LaterItemsStartLater(lots, items, today, i, k);
    }
  }

  /** What the rows give to the first `n` items together. */
  function Covered(rows: seq<Allocation>, items: seq<DemandItem>, n: nat): nat
    requires n <= |items|
  {
    if n == 0 then 0 else Covered(rows, items, n - 1) + OnLine(rows, items[n - 1].lineId)
  }

  lemma {:induction false} CoveredIsTotal(
      items: seq<DemandItem>, lots: seq<SurplusLot>, plan: seq<seq<nat>>, n: nat)
    requires PlanFor(plan, |items|, |lots|) && n <= |items| && DistinctItems(items)
    ensures Covered(Rows(items, lots, plan, |items|), items, n) == Total(plan[..n])
  {
    hide OnLine, Rows, Total;
    if n == 0 {
      assert plan[..0] == [];
      TotalOfNone();
    } else {
      CoveredIsTotal(items, lots, plan, n - 1);
      RowsOnLine(items, lots, plan, |items|, n - 1);
      TotalSnoc(plan[..n - 1], plan[n - 1]);
      PrefixStep(plan, n);
    }
  }

  lemma TotalOfNone()
    ensures Total([]) == 0
  {
  }

  /** Optimality. Let `other` be any plan at all over one product's lots and items, listed in
      priority order, that respects capacity, need and eligibility. For every `n`, the allocator
      covers at least as much of the `n` most urgent items' demand as `other` does. */
  lemma AllocationIsOptimal(
      lots: seq<SurplusLot>, items: seq<DemandItem>, today: int, productId: nat, other: seq<seq<nat>>, n: nat)
    requires DistinctLots(lots) && DistinctItems(items) && OneProduct(lots, items, productId)
    requires
      var sl, si := Sort(lots, LotKey), Sort(items, ItemKey);
      Feasible(other, Needs(si), Caps(sl), Eligibility(sl, si, today))
    requires n <= |Sort(items, ItemKey)|
    ensures |other| == |Sort(items, ItemKey)|
    ensures Total(other[..n]) <= Covered(Allocate(lots, items, today), Sort(items, ItemKey), n)
  {
    var sl, si := Sort(lots, LotKey), Sort(items, ItemKey);
    SortSorts(lots, LotKey);
    SortSorts(items, ItemKey);
    forall x | x in sl ensures x.productId == productId { SortMembers(lots, LotKey, x); }
    forall x | x in si ensures x.productId == productId { SortMembers(items, ItemKey, x); }
    EligibilityIsNested(sl, si, today, productId);
    GreedyIsOptimal(other, Needs(si), Caps(sl), Eligibility(sl, si, today), Starts(sl, si, today), n);
    PlanShape(sl, si, today);
    SortApart(items, ItemKey, LineId);
    CoveredIsTotal(si, sl, Plan(sl, si, today), n);
  }

  // ---- determinism ----

  lemma KeysTellItemsApart(items: seq<DemandItem>, x: DemandItem, y: DemandItem)
    requires DistinctItems(items) && x in items && y in items && ItemKey(x) == ItemKey(y)
    ensures x == y
  {
    var i :| 0 <= i < |items| && items[i] == x;
    var k :| 0 <= k < |items| && items[k] == y;
    assert i < k ==> LineId(items[i]) != LineId(items[k]);
    assert k < i ==> LineId(items[k]) != LineId(items[i]);
  }

  lemma KeysTellLotsApart(lots: seq<SurplusLot>, x: SurplusLot, y: SurplusLot)
    requires DistinctLots(lots) && x in lots && y in lots && LotKey(x) == LotKey(y)
    ensures x == y
  {
    var i :| 0 <= i < |lots| && lots[i] == x;
    var k :| 0 <= k < |lots| && lots[k] == y;
    assert i < k ==> LotId(lots[i]) != LotId(lots[k]);
    assert k < i ==> LotId(lots[k]) != LotId(lots[i]);
  }

  /** The result depends on which lots and items there are, never on the order they are read in. */
  lemma AllocationIgnoresInputOrder(
      lots: seq<SurplusLot>, lots': seq<SurplusLot>, items: seq<DemandItem>, items': seq<DemandItem>, today: int)
    requires DistinctLots(lots) && DistinctItems(items)
    requires multiset(lots) == multiset(lots') && multiset(items) == multiset(items')
    ensures Allocate(lots, items, today) == Allocate(lots', items', today)
  {
    forall x, y | x in lots && y in lots && LotKey(x) == LotKey(y) ensures x == y {
      KeysTellLotsApart(lots, x, y);
    }
    forall x, y | x in items && y in items && ItemKey(x) == ItemKey(y) ensures x == y {
      KeysTellItemsApart(items, x, y);
    }
    SortIgnoresInputOrder(lots, lots', LotKey);
    SortIgnoresInputOrder(items, items', ItemKey);
  }
}
