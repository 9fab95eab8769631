/** Line-level surplus allocation: demand items in deadline order draw from surplus lots in expiry
    order. Quantities are integer micro-units, dates are day numbers, times minutes of the day. */
module SurplusAllocation {
  import opened Sorting
  import opened Fefo

  datatype DemandItem = DemandItem(
    orderId: nat, lineId: nat, productId: nat, quantity: int, demandDate: int, fulfillmentTime: Option<nat>)

  datatype SurplusLot = SurplusLot(
    lotId: nat, productId: nat, physical: int, allocatedElsewhere: int, usableThrough: Option<int>, producedAt: int)

  datatype Allocation = Allocation(
    lotId: nat, orderId: nat, lineId: nat, productId: nat, demandDate: int, quantity: nat)

  /** Earliest date, then earliest time with untimed last, then line id. */
  function ItemKey(item: DemandItem): Key {
    match item.fulfillmentTime
    case Some(t) => Key(item.demandDate, 0, t, item.lineId)
    case None => Key(item.demandDate, 1, 0, item.lineId)
  }

  /** Earliest expiry with undated last, then oldest production, then lot id. */
  function LotKey(lot: SurplusLot): Key {
    match lot.usableThrough
    case Some(d) => Key(0, d, lot.producedAt, lot.lotId)
    case None => Key(1, 0, lot.producedAt, lot.lotId)
  }

  predicate Eligible(lot: SurplusLot, item: DemandItem, today: int) {
    && lot.productId == item.productId
    && (lot.usableThrough.Some? ==>
          lot.usableThrough.value >= if item.demandDate >= today then item.demandDate else today)
  }

  function LineId(item: DemandItem): nat { item.lineId }

  function LotId(lot: SurplusLot): nat { lot.lotId }

  ghost predicate DistinctItems(items: seq<DemandItem>) { Apart(items, LineId) }

  ghost predicate DistinctLots(lots: seq<SurplusLot>) { Apart(lots, LotId) }

  function NeedOf(item: DemandItem): nat { if item.quantity > 0 then item.quantity else 0 }

  function FreeIn(lot: SurplusLot): nat {
    if lot.physical - lot.allocatedElsewhere > 0 then lot.physical - lot.allocatedElsewhere else 0
  }

  function Needs(items: seq<DemandItem>): (needs: seq<nat>)
    ensures |needs| == |items|
  {
    seq(|items|, i requires 0 <= i < |items| => NeedOf(items[i]))
  }

  function Caps(lots: seq<SurplusLot>): (caps: seq<nat>)
    ensures |caps| == |lots|
  {
    seq(|lots|, j requires 0 <= j < |lots| => FreeIn(lots[j]))
  }

  function EligibleLots(lots: seq<SurplusLot>, item: DemandItem, today: int): (ok: seq<bool>)
    ensures |ok| == |lots|
  {
    seq(|lots|, j requires 0 <= j < |lots| => Eligible(lots[j], item, today))
  }

  function Eligibility(lots: seq<SurplusLot>, items: seq<DemandItem>, today: int): (ok: seq<seq<bool>>)
    ensures Shape(ok, |items|, |lots|)
  {
    seq(|items|, i requires 0 <= i < |items| => EligibleLots(lots, items[i], today))
  }

  function Entry(item: DemandItem, lot: SurplusLot, quantity: nat): seq<Allocation> {
    if quantity > 0
    then [Allocation(lot.lotId, item.orderId, item.lineId, item.productId, item.demandDate, quantity)]
    else []
  }

  /** The allocation rows of one line over the first `n` lots: one per lot it takes something from. */
  function LineRows(item: DemandItem, lots: seq<SurplusLot>, row: seq<nat>, n: nat): seq<Allocation>
    requires n <= |row| == |lots|
  {
    if n == 0 then [] else LineRows(item, lots, row, n - 1) + Entry(item, lots[n - 1], row[n - 1])
  }

  function Rows(items: seq<DemandItem>, lots: seq<SurplusLot>, plan: seq<seq<nat>>, n: nat): seq<Allocation>
    requires n <= |plan| == |items| && forall i :: 0 <= i < |plan| ==> |plan[i]| == |lots|
  {
    if n == 0 then []
    else Rows(items, lots, plan, n - 1) + LineRows(items[n - 1], lots, plan[n - 1], |lots|)
  }

  /** The greedy plan over items and lots already in priority order. */
  function Plan(lots: seq<SurplusLot>, items: seq<DemandItem>, today: int): (plan: seq<seq<nat>>) {
    Greedy(Needs(items), Caps(lots), Eligibility(lots, items, today))
  }

  function SortedRows(lots: seq<SurplusLot>, items: seq<DemandItem>, today: int): seq<Allocation> {
    PlanShape(lots, items, today);
    Rows(items, lots, Plan(lots, items, today), |items|)
  }

  lemma PlanShape(lots: seq<SurplusLot>, items: seq<DemandItem>, today: int)
    ensures
      var plan := Plan(lots, items, today);
      |plan| == |items| && forall i :: 0 <= i < |plan| ==> |plan[i]| == |lots|
  {
    GreedyIsFeasible(Needs(items), Caps(lots), Eligibility(lots, items, today));
  }

  /** What `AllocateSurplus` returns, for lots and items in any order. */
  function Allocate(lots: seq<SurplusLot>, items: seq<DemandItem>, today: int): seq<Allocation> {
    SortedRows(Sort(lots, LotKey), Sort(items, ItemKey), today)
  }

  // ---- the allocator ----

  lemma {:induction false} NoNeedNoRow(caps: seq<nat>, ok: seq<bool>)
    requires |caps| == |ok|
    ensures forall j :: 0 <= j < |caps| ==> TakeRow(0, caps, ok)[j] == 0
  {
    if caps != [] {
      NoNeedNoRow(caps[1..], ok[1..]);
      assert TakeRow(0, caps, ok)[1..] == TakeRow(0, caps[1..], ok[1..]);
    }
  }

  lemma {:induction false} BlankTail(item: DemandItem, lots: seq<SurplusLot>, row: seq<nat>, from: nat, to: nat)
    requires from <= to <= |row| == |lots| && forall j :: from <= j < to ==> row[j] == 0
    ensures LineRows(item, lots, row, to) == LineRows(item, lots, row, from)
  {
    if from < to { BlankTail(item, lots, row, from, to - 1); }
  }

  lemma LineRowsStep(item: DemandItem, lots: seq<SurplusLot>, row: seq<nat>, n: nat)
    requires n <= |row| == |lots|
    ensures LineRows(item, lots, row, 0) == []
    ensures n > 0 ==>
      LineRows(item, lots, row, n) == LineRows(item, lots, row, n - 1) + Entry(item, lots[n - 1], row[n - 1])
  {
  }

  /** Serving one line: walk the lots, take from each eligible one, and note what is left in it. */
  method ServeLine(
      item: DemandItem, lots: seq<SurplusLot>, today: int, ghost caps: seq<nat>, remainingLot: map<nat, nat>)
      returns (rows: seq<Allocation>, left: map<nat, nat>)
    requires DistinctLots(lots) && |caps| == |lots|
    requires forall j :: 0 <= j < |lots| ==> lots[j].lotId in remainingLot && remainingLot[lots[j].lotId] == caps[j]
    ensures
      var row := TakeRow(NeedOf(item), caps, EligibleLots(lots, item, today));
      && rows == LineRows(item, lots, row, |lots|)
      && (forall j :: 0 <= j < |lots| ==>
            lots[j].lotId in left && left[lots[j].lotId] == Minus(caps, row)[j])
  {
    hide TakeRow, Sum, Apart, LineRows;
    var need := item.quantity;
    rows, left := [], remainingLot;
    ghost var ok := EligibleLots(lots, item, today);
    ghost var row := TakeRow(NeedOf(item), caps, ok);
    TakeRowIsFeasible(NeedOf(item), caps, ok);
    var j := 0;
    assert caps[0..] == caps && ok[0..] == ok && row[0..] == row;
    LineRowsStep(item, lots, row, 0);
    while j < |lots| && need > 0
      invariant 0 <= j <= |lots|
      invariant row[j..] == TakeRow(if need > 0 then need else 0, caps[j..], ok[j..])
      invariant rows == LineRows(item, lots, row, j)
      invariant forall k :: 0 <= k < |lots| ==> lots[k].lotId in left
      invariant forall k :: 0 <= k < |lots| ==> left[lots[k].lotId] == if k < j then Minus(caps, row)[k] else caps[k]
    {
      var lot := lots[j];
      TakeRowHead(need, caps, ok, row, j);
      LineRowsStep(item, lots, row, j + 1);
      OtherLotsApart(lots, j);
      if Eligible(lot, item, today) {
        var available := left[lot.lotId];
        if available > 0 {
          var consumed := if need <= available then need else available;
          rows := rows +
            [Allocation(lot.lotId, item.orderId, item.lineId, item.productId, item.demandDate, consumed)];
          need := need - consumed;
          left := left[lot.lotId := available - consumed];
        }
      }
      j := j + 1;
    }
    if j < |lots| {
      NoNeedNoRow(caps[j..], ok[j..]);
      forall k | j <= k < |lots| ensures row[k] == 0 { assert row[k] == row[j..][k - j]; }
      BlankTail(item, lots, row, j, |lots|);
    }
  }

  lemma OtherLotsApart(lots: seq<SurplusLot>, j: nat)
    requires DistinctLots(lots) && j < |lots|
    ensures forall k :: 0 <= k < |lots| && k != j ==> lots[k].lotId != lots[j].lotId
  {
    forall k | 0 <= k < |lots| && k != j ensures lots[k].lotId != lots[j].lotId {
      assert LotId(lots[k]) != LotId(lots[j]);
    }
  }

  lemma TakeRowHead(need: nat, caps: seq<nat>, ok: seq<bool>, row: seq<nat>, j: nat)
    requires j < |caps| == |ok| == |row| && row[j..] == TakeRow(need, caps[j..], ok[j..])
    ensures row[j] == if ok[j] then Min(need, caps[j]) else 0
    ensures row[j] <= need && row[j + 1..] == TakeRow(need - row[j], caps[j + 1..], ok[j + 1..])
  {
    assert caps[j..][1..] == caps[j + 1..] && ok[j..][1..] == ok[j + 1..] && row[j..][1..] == row[j + 1..];
  }

  lemma SortedLotsDistinct(lots: seq<SurplusLot>)
    requires DistinctLots(lots)
    ensures DistinctLots(Sort(lots, LotKey))
  {
    SortApart(lots, LotKey, LotId);
  }

  /** The opening balances of the sorted lots, as the allocator looks them up by id. */
  ghost predicate Opening(remaining: map<nat, nat>, lots: seq<SurplusLot>, caps: seq<nat>)
    requires |caps| == |lots|
  {
    forall j :: 0 <= j < |lots| ==> lots[j].lotId in remaining && remaining[lots[j].lotId] == caps[j]
  }

  /** The allocator itself: earliest-deadline demand first, each line over the lots in expiry order. */
  method AllocateSurplus(lots: seq<SurplusLot>, items: seq<DemandItem>, today: int) returns (results: seq<Allocation>)
    requires DistinctLots(lots)
    ensures results == Allocate(lots, items, today)
  {
    var sortedItems := Sort(items, ItemKey);
    var sortedLots := Sort(lots, LotKey);
    SortedLotsDistinct(lots);
    ghost var ok := Eligibility(sortedLots, sortedItems, today);
    ghost var needs := Needs(sortedItems);
    ghost var caps := Caps(sortedLots);
    ghost var plan := Plan(sortedLots, sortedItems, today);
    PlanShape(sortedLots, sortedItems, today);
    var remaining := RemainingLots(sortedLots);
    results := [];
    assert needs[0..] == needs && ok[0..] == ok && plan[0..] == plan;
    for i := 0 to |sortedItems|
      invariant |caps| == |sortedLots| && Opening(remaining, sortedLots, caps)
      invariant plan[i..] == Greedy(needs[i..], caps, ok[i..])
      invariant results == Rows(sortedItems, sortedLots, plan, i)
    {
      GreedyHead(needs, caps, ok, plan, i);
      var rows;
      rows, remaining := ServeLine(sortedItems[i], sortedLots, today, caps, remaining);
      results := results + rows;
      caps := Minus(caps, plan[i]);
    }
  }

  lemma GreedyHead(needs: seq<nat>, caps: seq<nat>, ok: seq<seq<bool>>, plan: seq<seq<nat>>, i: nat)
    requires Shape(ok, |needs|, |caps|) && |plan| == |needs| && i < |needs|
    requires plan[i..] == Greedy(needs[i..], caps, ok[i..])
    ensures plan[i] == TakeRow(needs[i], caps, ok[i])
    ensures plan[i + 1..] == Greedy(needs[i + 1..], Minus(caps, plan[i]), ok[i + 1..])
  {
    assert needs[i..][1..] == needs[i + 1..] && ok[i..][1..] == ok[i + 1..] && plan[i..][1..] == plan[i + 1..];
  }

  method RemainingLots(lots: seq<SurplusLot>) returns (remaining: map<nat, nat>)
    requires DistinctLots(lots)
    ensures Opening(remaining, lots, Caps(lots))
  {
    remaining := map[];
    for j := 0 to |lots|
      invariant forall k :: 0 <= k < j ==> lots[k].lotId in remaining && remaining[lots[k].lotId] == FreeIn(lots[k])
    {
      OtherLotsApart(lots, j);
      remaining := remaining[lots[j].lotId := FreeIn(lots[j])];
    }
  }
}
