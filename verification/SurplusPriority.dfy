/** The priorities of surplus allocation, spelled out on the fields of lines and lots, and what the
    allocator makes of them: no line is passed over, no lot is skipped, nothing is held back. */
module SurplusPriority {
  import opened Sorting
  import opened Deadlines
  import opened Fefo
  import opened SurplusAllocation
  import opened SurplusTheorems

  // ---- the two orders ----

  function DeadlineOf(item: DemandItem): Deadline { Deadline(item.demandDate, item.fulfillmentTime, item.lineId) }

  predicate ServedBefore(a: DemandItem, b: DemandItem) { DueBefore(DeadlineOf(a), DeadlineOf(b)) }

  /** Earlier expiry, undated last; then the older; then the smaller id. */
  predicate TakenBefore(a: SurplusLot, b: SurplusLot) {
    || ExpiresEarlier(a.usableThrough, b.usableThrough)
    || (a.usableThrough == b.usableThrough && a.producedAt < b.producedAt)
    || (a.usableThrough == b.usableThrough && a.producedAt == b.producedAt && a.lotId < b.lotId)
  }

  predicate ExpiresEarlier(d: Option<int>, e: Option<int>) { d.Some? && (e.None? || d.value < e.value) }

  /** The lot is of the line's product and usable on the line's date and today. */
  predicate CanServe(lot: SurplusLot, item: DemandItem, today: int) {
    && lot.productId == item.productId
    && match lot.usableThrough
       case None => true
       case Some(d) => d >= item.demandDate && d >= today
  }

  /** What a lot has to give. */
  function Available(lot: SurplusLot): int {
    if lot.allocatedElsewhere >= lot.physical then 0 else lot.physical - lot.allocatedElsewhere
  }

  lemma KeysAreThePriorities(a: DemandItem, b: DemandItem, x: SurplusLot, y: SurplusLot)
    ensures Less(ItemKey(a), ItemKey(b)) <==> ServedBefore(a, b)
    ensures Less(LotKey(x), LotKey(y)) <==> TakenBefore(x, y)
  {
  }

  // ---- the greedy plan ----

  lemma {:induction false} RowHoldsNothingBack(need: nat, caps: seq<nat>, ok: seq<bool>, j: nat)
    requires j < |caps| == |ok| && ok[j] && Sum(TakeRow(need, caps, ok)) < need
    ensures TakeRow(need, caps, ok)[j] == caps[j]
  {
    var t := if ok[0] then Min(need, caps[0]) else 0;
    var rest := TakeRow(need - t, caps[1..], ok[1..]);
    assert TakeRow(need, caps, ok) == [t] + rest && ([t] + rest)[1..] == rest;
    if j > 0 { RowHoldsNothingBack(need - t, caps[1..], ok[1..], j - 1); }
  }

  lemma {:induction false} RowSkipsNothing(need: nat, caps: seq<nat>, ok: seq<bool>, k: nat, j: nat)
    requires k < j < |caps| == |ok| && ok[k] && TakeRow(need, caps, ok)[j] > 0
    ensures TakeRow(need, caps, ok)[k] == caps[k]
  {
    var t := if ok[0] then Min(need, caps[0]) else 0;
    var rest := TakeRow(need - t, caps[1..], ok[1..]);
    assert TakeRow(need, caps, ok) == [t] + rest;
    NoNeedNoRow(caps[1..], ok[1..]);
    assert rest == TakeRow(need - t, caps[1..], ok[1..]);
    if k > 0 { RowSkipsNothing(need - t, caps[1..], ok[1..], k - 1, j - 1); }
  }

  /** Line `i` empties lot `j`, together with the lines before it. */
  ghost predicate Empties(plan: seq<seq<nat>>, caps: seq<nat>, i: nat, j: nat)
    requires i < |plan| && j < |caps|
  {
    Column(plan[..i + 1], j) == caps[j]
  }

  lemma ColumnOfOne(row: seq<nat>, j: nat)
    requires j < |row|
    ensures Column([row], j) == row[j]
  {
    assert [row][1..] == [];
  }

  lemma ColumnHead(plan: seq<seq<nat>>, i: nat, j: nat)
    requires 0 < i < |plan| && j < |plan[0]|
    ensures Column(plan[..i + 1], j) == plan[0][j] + Column(plan[1..][..i], j)
  {
    assert plan[..i + 1][1..] == plan[1..][..i];
  }

  lemma {:induction false} GreedyHoldsNothingBack(needs: seq<nat>, caps: seq<nat>, ok: seq<seq<bool>>, i: nat, j: nat)
    requires Shape(ok, |needs|, |caps|) && i < |needs| && j < |caps| && ok[i][j]
    requires Sum(Greedy(needs, caps, ok)[i]) < needs[i]
    ensures Empties(Greedy(needs, caps, ok), caps, i, j)
  {
    hide Column, TakeRow, Sum;
    var plan, row := Greedy(needs, caps, ok), TakeRow(needs[0], caps, ok[0]);
    TakeRowIsFeasible(needs[0], caps, ok[0]);
    if i == 0 {
      assert plan[..1] == [row];
      ColumnOfOne(row, j);
      RowHoldsNothingBack(needs[0], caps, ok[0], j);
    } else {
      assert plan[1..] == Greedy(needs[1..], Minus(caps, row), ok[1..]);
      GreedyHoldsNothingBack(needs[1..], Minus(caps, row), ok[1..], i - 1, j);
      ColumnHead(plan, i, j);
    }
  }

  lemma {:induction false} GreedySkipsNothing(
      needs: seq<nat>, caps: seq<nat>, ok: seq<seq<bool>>, i: nat, k: nat, j: nat)
    requires Shape(ok, |needs|, |caps|) && i < |needs| && k < j < |caps| && ok[i][k]
    requires |Greedy(needs, caps, ok)[i]| == |caps| && Greedy(needs, caps, ok)[i][j] > 0
    ensures Empties(Greedy(needs, caps, ok), caps, i, k)
  {
    hide Column, TakeRow;
    var plan, row := Greedy(needs, caps, ok), TakeRow(needs[0], caps, ok[0]);
    TakeRowIsFeasible(needs[0], caps, ok[0]);
    if i == 0 {
      assert plan[..1] == [row];
      ColumnOfOne(row, k);
      RowSkipsNothing(needs[0], caps, ok[0], k, j);
    } else {
      assert plan[1..] == Greedy(needs[1..], Minus(caps, row), ok[1..]);
      GreedySkipsNothing(needs[1..], Minus(caps, row), ok[1..], i - 1, k, j);
      ColumnHead(plan, i, k);
    }
  }

  // ---- the rows ----

  /** What the rows of some lines draw from one lot. */
  function DrawnBy(rows: seq<Allocation>, lines: set<nat>, lotId: nat): nat {
    if rows == [] then 0
    else
      var last := rows[|rows| - 1];
      DrawnBy(rows[..|rows| - 1], lines, lotId)
      + if last.lineId in lines && last.lotId == lotId then last.quantity else 0
  }

  lemma {:induction false} DrawnConcat(a: seq<Allocation>, b: seq<Allocation>, lines: set<nat>, lotId: nat)
    ensures DrawnBy(a + b, lines, lotId) == DrawnBy(a, lines, lotId) + DrawnBy(b, lines, lotId)
  {
    if b == [] {
      assert a + b == a;
    } else {
      DrawnConcat(a, b[..|b| - 1], lines, lotId);
      assert (a + b)[..|a + b| - 1] == a + b[..|b| - 1];
    }
  }

  lemma {:induction false} DrawnByOne(rows: seq<Allocation>, lines: set<nat>, lineId: nat, lotId: nat)
    requires forall r :: r in rows ==> r.lineId == lineId
    ensures DrawnBy(rows, lines, lotId) == if lineId in lines then OnLot(rows, lotId) else 0
  {
    if rows != [] {
      assert rows[|rows| - 1] in rows;
      DrawnByOne(rows[..|rows| - 1], lines, lineId, lotId);
    }
  }

  lemma {:induction false} LineRowsAreTheLines(item: DemandItem, lots: seq<SurplusLot>, row: seq<nat>, n: nat)
    requires n <= |row| == |lots|
    ensures forall r :: r in LineRows(item, lots, row, n) ==> r.lineId == item.lineId
  {
    if n > 0 { LineRowsAreTheLines(item, lots, row, n - 1); }
  }

  function FirstLines(items: seq<DemandItem>, m: nat): set<nat>
    requires m <= |items|
  {
    set i | 0 <= i < m :: items[i].lineId
  }

  lemma {:induction false} DrawnIsColumn(
      items: seq<DemandItem>, lots: seq<SurplusLot>, plan: seq<seq<nat>>, n: nat, m: nat, j: nat)
    requires PlanFor(plan, |items|, |lots|) && n <= |items| && m <= |items| && j < |lots|
    requires DistinctItems(items) && DistinctLots(lots)
    ensures DrawnBy(Rows(items, lots, plan, n), FirstLines(items, m), lots[j].lotId)
      == Column(plan[..if n <= m then n else m], j)
  {
    hide DrawnBy, Column, LineRows, Rows, OnLot;
    RowsStep(items, lots, plan, n);
    var lines, lot := FirstLines(items, m), lots[j].lotId;
    if n == 0 {
      assert plan[..0] == [];
      NothingDrawn(lines, lot, j);
    } else {
      var item := items[n - 1];
      DrawnIsColumn(items, lots, plan, n - 1, m, j);
      DrawnConcat(Rows(items, lots, plan, n - 1), LineRows(item, lots, plan[n - 1], |lots|), lines, lot);
      LineRowsAreTheLines(item, lots, plan[n - 1], |lots|);
      DrawnByOne(LineRows(item, lots, plan[n - 1], |lots|), lines, item.lineId, lot);
      LineRowsOnLot(item, lots, plan[n - 1], |lots|, j);
      OwnLineOnly(items, m, n - 1);
      if n <= m {
        ColumnSnoc(plan[..n - 1], plan[n - 1], j);
        PrefixStep(plan, n);
      }
    }
  }

  lemma NothingDrawn(lines: set<nat>, lot: nat, j: nat)
    ensures DrawnBy([], lines, lot) == 0 && Column([], j) == 0
  {
  }

  lemma OwnLineOnly(items: seq<DemandItem>, m: nat, i: nat)
    requires DistinctItems(items) && m <= |items| && i < |items|
    ensures items[i].lineId in FirstLines(items, m) <==> i < m
  {
    forall k | 0 <= k < m ensures items[k].lineId == items[i].lineId ==> k == i { SameLine(items, k, i); }
  }

  // ---- positions and priorities ----

  /** The line and every line served before it. */
  function UpTo(items: seq<DemandItem>, item: DemandItem): set<nat> {
    set x | x in items && (x == item || ServedBefore(x, item)) :: x.lineId
  }

  lemma SortedByPriority(items: seq<DemandItem>, i: nat, k: nat)
    requires DistinctItems(items) && i < |Sort(items, ItemKey)| && k < |Sort(items, ItemKey)|
    ensures ServedBefore(Sort(items, ItemKey)[i], Sort(items, ItemKey)[k]) <==> i < k
  {
    var si := Sort(items, ItemKey);
    SortSorts(items, ItemKey);
    SortApart(items, ItemKey, LineId);
    hide Sort, Less, ItemKey, ServedBefore;
    KeysAreThePriorities(si[i], si[k], ANY, ANY);
    if i < k {
      assert !Less(ItemKey(si[k]), ItemKey(si[i])) && LineId(si[i]) != LineId(si[k]);
      DeadlinesDecide(DeadlineOf(si[i]), DeadlineOf(si[k]));
      KeysAreThePriorities(si[k], si[i], ANY, ANY);
    } else {
      assert k < i ==> !Less(ItemKey(si[i]), ItemKey(si[k]));
      DeadlinesDecide(DeadlineOf(si[i]), DeadlineOf(si[i]));
    }
  }

  const ANY: SurplusLot := SurplusLot(0, 0, 0, 0, None, 0)

  lemma FirstLinesAreUpTo(items: seq<DemandItem>, i: nat)
    requires DistinctItems(items) && i < |Sort(items, ItemKey)|
    ensures FirstLines(Sort(items, ItemKey), i + 1) == UpTo(items, Sort(items, ItemKey)[i])
  {
    hide Sort, ServedBefore;
    var si := Sort(items, ItemKey);
    forall x ensures x in items <==> x in si { SortMembers(items, ItemKey, x); }
    forall k | 0 <= k < |si| ensures ServedBefore(si[k], si[i]) <==> k < i { SortedByPriority(items, k, i); }
    forall id | id in FirstLines(si, i + 1) ensures id in UpTo(items, si[i]) {
      var k :| 0 <= k < i + 1 && si[k].lineId == id;
      assert si[k] in items;
    }
    forall id | id in UpTo(items, si[i]) ensures id in FirstLines(si, i + 1) {
      var x :| x in items && (x == si[i] || ServedBefore(x, si[i])) && x.lineId == id;
      var k :| 0 <= k < |si| && si[k] == x;
    }
  }

  lemma LotOrder(lots: seq<SurplusLot>, k: nat, j: nat)
    requires k < |Sort(lots, LotKey)| && j < |Sort(lots, LotKey)|
    requires TakenBefore(Sort(lots, LotKey)[k], Sort(lots, LotKey)[j])
    ensures k < j
  {
    var sl := Sort(lots, LotKey);
    SortSorts(lots, LotKey);
    hide Sort, Less, LotKey;
    KeysAreThePriorities(SOME, SOME, sl[k], sl[j]);
  }

  const SOME: DemandItem := DemandItem(0, 0, 0, 0, 0, None)

  lemma ServesAlike(lot: SurplusLot, item: DemandItem, today: int)
    ensures Eligible(lot, item, today) <==> CanServe(lot, item, today)
    ensures FreeIn(lot) == Available(lot)
  {
  }

  // ---- what the allocator does with them ----

  ghost predicate Draws(rows: seq<Allocation>, lineId: nat, lotId: nat) {
    exists r :: r in rows && r.lineId == lineId && r.lotId == lotId
  }

  /** Rows of sorted lines over sorted lots, with the plan behind them. */
  ghost predicate PlanOf(lots: seq<SurplusLot>, items: seq<DemandItem>, today: int, i: nat, j: nat) {
    var sl, si := Sort(lots, LotKey), Sort(items, ItemKey);
    && i < |si| && j < |sl| && DistinctLots(sl) && DistinctItems(si)
    && PlanFor(Plan(sl, si, today), |si|, |sl|)
  }

  lemma Located(lots: seq<SurplusLot>, items: seq<DemandItem>, today: int, item: DemandItem, lot: SurplusLot)
      returns (i: nat, j: nat)
    requires DistinctLots(lots) && DistinctItems(items) && item in items && lot in lots
    ensures PlanOf(lots, items, today, i, j) && Sort(items, ItemKey)[i] == item && Sort(lots, LotKey)[j] == lot
  {
    var sl, si := Sort(lots, LotKey), Sort(items, ItemKey);
    PlanShape(sl, si, today);
    SortedLotsDistinct(lots);
    SortApart(items, ItemKey, LineId);
    SortMembers(lots, LotKey, lot);
    SortMembers(items, ItemKey, item);
    i :| 0 <= i < |si| && si[i] == item;
    j :| 0 <= j < |sl| && sl[j] == lot;
  }

  lemma DrawnAt(lots: seq<SurplusLot>, items: seq<DemandItem>, today: int, i: nat, j: nat)
    requires DistinctItems(items) && PlanOf(lots, items, today, i, j)
    ensures
      var sl, si := Sort(lots, LotKey), Sort(items, ItemKey);
      DrawnBy(Allocate(lots, items, today), UpTo(items, si[i]), sl[j].lotId)
      == Column(Plan(sl, si, today)[..i + 1], j)
  {
    hide DrawnBy, Column, Rows, Sort, Plan;
    var sl, si := Sort(lots, LotKey), Sort(items, ItemKey);
    DrawnIsColumn(si, sl, Plan(sl, si, today), |si|, i + 1, j);
    FirstLinesAreUpTo(items, i);
  }

  lemma {:induction false} DrawsFromPlan(
      items: seq<DemandItem>, lots: seq<SurplusLot>, plan: seq<seq<nat>>, n: nat, i: nat, j: nat, r: Allocation)
    requires PlanFor(plan, |items|, |lots|) && n <= |items| && i < |items| && j < |lots|
    requires DistinctItems(items) && DistinctLots(lots)
    requires r in Rows(items, lots, plan, n) && r.lineId == items[i].lineId && r.lotId == lots[j].lotId
    ensures plan[i][j] > 0
  {
    hide Rows, LineRows, Apart;
    RowIsSomewhere(items, lots, plan, n, r);
    if r in Rows(items, lots, plan, n - 1) {
      DrawsFromPlan(items, lots, plan, n - 1, i, j, r);
    } else {
      LineRowsAreTheLines(items[n - 1], lots, plan[n - 1], |lots|);
      SameLine(items, i, n - 1);
      DrawsInRow(items[n - 1], lots, plan[n - 1], |lots|, j, r);
    }
  }

  lemma RowIsSomewhere(items: seq<DemandItem>, lots: seq<SurplusLot>, plan: seq<seq<nat>>, n: nat, r: Allocation)
    requires PlanFor(plan, |items|, |lots|) && n <= |items| && r in Rows(items, lots, plan, n)
    ensures n > 0
    ensures r in Rows(items, lots, plan, n - 1) || r in LineRows(items[n - 1], lots, plan[n - 1], |lots|)
  {
    RowsStep(items, lots, plan, n);
    hide Rows, LineRows;
  }

  lemma SameLine(items: seq<DemandItem>, i: nat, k: nat)
    requires DistinctItems(items) && i < |items| && k < |items|
    ensures items[i].lineId == items[k].lineId ==> i == k
  {
    assert i < k ==> LineId(items[i]) != LineId(items[k]);
    assert k < i ==> LineId(items[k]) != LineId(items[i]);
  }

  lemma {:induction false} DrawsInRow(
      item: DemandItem, lots: seq<SurplusLot>, row: seq<nat>, n: nat, j: nat, r: Allocation)
    requires n <= |row| == |lots| && j < |lots| && DistinctLots(lots)
    requires r in LineRows(item, lots, row, n) && r.lotId == lots[j].lotId
    ensures row[j] > 0
  {
    if r in LineRows(item, lots, row, n - 1) {
      DrawsInRow(item, lots, row, n - 1, j, r);
    } else {
      OtherLotsApart(lots, j);
    }
  }

  /** Nothing is held back: if a line's need is not met, every lot that could serve it is emptied by it and
      the lines before it. */
  lemma NothingIsHeldBack(
      lots: seq<SurplusLot>, items: seq<DemandItem>, today: int, item: DemandItem, lot: SurplusLot)
    requires DistinctLots(lots) && DistinctItems(items) && item in items && lot in lots && CanServe(lot, item, today)
    requires OnLine(Allocate(lots, items, today), item.lineId) < item.quantity
    ensures DrawnBy(Allocate(lots, items, today), UpTo(items, item), lot.lotId) == Available(lot)
  {
    hide DrawnBy, Column, Rows, Sort, OnLine, Greedy, Sum;
    var i, j := Located(lots, items, today, item, lot);
    var sl, si := Sort(lots, LotKey), Sort(items, ItemKey);
    ServesAlike(lot, item, today);
    RowsOnLine(si, sl, Plan(sl, si, today), |si|, i);
    GreedyHoldsNothingBack(Needs(si), Caps(sl), Eligibility(sl, si, today), i, j);
    DrawnAt(lots, items, today, i, j);
  }

  /** No lot is skipped: if a line draws from a lot, every earlier lot that could serve it is emptied by it
      and the lines before it. */
  lemma NoLotIsSkipped(
      lots: seq<SurplusLot>, items: seq<DemandItem>, today: int, item: DemandItem, earlier: SurplusLot, lot: SurplusLot)
    requires DistinctLots(lots) && DistinctItems(items) && item in items && lot in lots && earlier in lots
    requires TakenBefore(earlier, lot) && CanServe(earlier, item, today)
    requires Draws(Allocate(lots, items, today), item.lineId, lot.lotId)
    ensures DrawnBy(Allocate(lots, items, today), UpTo(items, item), earlier.lotId) == Available(earlier)
  {
    hide DrawnBy, Column, Rows, Sort, Greedy, TakenBefore;
    var i, j := Located(lots, items, today, item, lot);
    var sl, si := Sort(lots, LotKey), Sort(items, ItemKey);
    SortMembers(lots, LotKey, earlier);
    var k :| 0 <= k < |sl| && sl[k] == earlier;
    LotOrder(lots, k, j);
    ServesAlike(earlier, item, today);
    var r :| r in Allocate(lots, items, today) && r.lineId == item.lineId && r.lotId == lot.lotId;
    DrawsFromPlan(si, sl, Plan(sl, si, today), |si|, i, j, r);
    GreedySkipsNothing(Needs(si), Caps(sl), Eligibility(sl, si, today), i, k, j);
    DrawnAt(lots, items, today, i, k);
  }

  lemma {:induction false} MoreThanDrawn(rows: seq<Allocation>, lines: set<nat>, r: Allocation)
    requires r in rows && r.lineId !in lines
    ensures DrawnBy(rows, lines, r.lotId) + r.quantity <= OnLot(rows, r.lotId)
  {
    var n := |rows| - 1;
    PartIsDrawn(rows[..n], lines, r.lotId);
    if rows[n] != r {
      assert rows == rows[..n] + [rows[n]];
      MoreThanDrawn(rows[..n], lines, r);
    }
  }

  lemma {:induction false} PartIsDrawn(rows: seq<Allocation>, lines: set<nat>, lotId: nat)
    ensures DrawnBy(rows, lines, lotId) <= OnLot(rows, lotId)
  {
    if rows != [] { PartIsDrawn(rows[..|rows| - 1], lines, lotId); }
  }

  /** No line is passed over: if a line draws from a lot that could have served an earlier line, the earlier
      line's need is met in full. */
  lemma NoLineIsPassedOver(
      lots: seq<SurplusLot>, items: seq<DemandItem>, today: int, earlier: DemandItem, item: DemandItem, lot: SurplusLot)
    requires DistinctLots(lots) && DistinctItems(items) && item in items && earlier in items && lot in lots
    requires ServedBefore(earlier, item) && CanServe(lot, earlier, today)
    requires Draws(Allocate(lots, items, today), item.lineId, lot.lotId)
    ensures OnLine(Allocate(lots, items, today), earlier.lineId) >= earlier.quantity
  {
    hide DrawnBy, OnLot, OnLine, Allocate, ServedBefore;
    var rows := Allocate(lots, items, today);
    AllocationIsSound(lots, items, today);
    ServesAlike(lot, earlier, today);
    var r :| r in rows && r.lineId == item.lineId && r.lotId == lot.lotId;
    assert RowSound(r, lots, items, today);
    LaterIsNotUpTo(items, earlier, item);
    MoreThanDrawn(rows, UpTo(items, earlier), r);
    if OnLine(rows, earlier.lineId) < earlier.quantity { NothingIsHeldBack(lots, items, today, earlier, lot); }
  }

  lemma LaterIsNotUpTo(items: seq<DemandItem>, earlier: DemandItem, item: DemandItem)
    requires DistinctItems(items) && item in items && earlier in items && ServedBefore(earlier, item)
    ensures item.lineId !in UpTo(items, earlier)
  {
    var i :| 0 <= i < |items| && items[i] == item;
    forall x | x in items && (x == earlier || ServedBefore(x, earlier)) ensures x.lineId != item.lineId {
      var k :| 0 <= k < |items| && items[k] == x;
      SameLine(items, k, i);
      if k == i { DeadlinesDecide(DeadlineOf(earlier), DeadlineOf(item)); }
    }
  }
}
