/** What inventory events and completions put on record, spelled out on the fields of the rows. Costs are the
    nearest storable amounts of exact products, halves upward. */
module CostRecords {
  import opened Sorting
  import opened InventoryCosting
  import Plans = CompletionPlan
  import Decimals = DecimalArithmetic

  /** `value` is `n / d` to the nearest whole, halves upward. */
  predicate Nearest(value: nat, n: nat, d: nat) { (2 * value - 1) * d <= 2 * n < (2 * value + 1) * d }

  lemma HalfUpIsNearest(n: nat, d: nat, value: nat)
    requires d > 0
    ensures Nearest(value, n, d) <==> value == Decimals.HalfUp(n, d)
  {
    Decimals.HalfUpIs(n, d, value);
    Decimals.HalfUpIs(n, d, Decimals.HalfUp(n, d));
  }

  // ---- inventory events ----

  predicate Storable(value: int) { -1_000_000_000_000_000_000 < value < 1_000_000_000_000_000_000 }

  /** The cost of the event can be stored. */
  ghost predicate Priced(quantity: nat, unitCost: nat) {
    exists total: nat :: Nearest(total, quantity * unitCost, 1_000_000) && Storable(total)
  }

  /** A first balance needs an empty ledger; a restock a storable balance; an adjustment also one that is not
      negative, where that is required. */
  ghost predicate Accepted(b: Balance, e: Event, mayGoNegative: bool) {
    match e
    case Initialize(quantity, unitCost) => b.ledger == [] && Priced(quantity, unitCost)
    case Purchase(quantity, unitCost) => Priced(quantity, unitCost) && Storable(b.physical + quantity)
    case Adjust(change) => Storable(b.physical + change) && (b.physical + change < 0 ==> mayGoNegative)
  }

  /** One entry is added, with the quantity and, for stock that was paid for, its unit and total cost. A restock
      sets the latest cost and blends the average, unless there was no stock to blend with. */
  predicate Recorded(b: Balance, e: Event, b': Balance) {
    && |b'.ledger| == |b.ledger| + 1 && b'.ledger[..|b.ledger|] == b.ledger
    && var entry := b'.ledger[|b.ledger|];
       match e
       case Initialize(quantity, unitCost) =>
         && b'.physical == quantity && b'.average == unitCost && b'.latest == b.latest
         && entry.kind == InitialBalance && entry.change == quantity && entry.unitCost == Some(unitCost)
         && entry.totalCost.Some? && Nearest(entry.totalCost.value, quantity * unitCost, 1_000_000)
       case Purchase(quantity, unitCost) =>
         && b'.physical == b.physical + quantity && b'.latest == Some(unitCost)
         && (if b.physical <= 0 then b'.average == unitCost
             else Nearest(b'.average, b.physical * b.average + quantity * unitCost, b.physical + quantity))
         && entry.kind == Restock && entry.change == quantity && entry.unitCost == Some(unitCost)
         && entry.totalCost.Some? && Nearest(entry.totalCost.value, quantity * unitCost, 1_000_000)
       case Adjust(change) =>
         && b'.physical == b.physical + change && b'.average == b.average && b'.latest == b.latest
         && entry.kind == ManualAdjustment && entry.change == change && entry.unitCost == None
         && entry.totalCost == None
  }

  lemma TotalIsNearest(quantity: nat, unitCost: nat)
    ensures Nearest(TotalCost(quantity, unitCost), quantity * unitCost, 1_000_000)
    ensures Priced(quantity, unitCost) <==> Representable(TotalCost(quantity, unitCost))
  {
    hide Decimals.HalfUp, Nearest;
    HalfUpIsNearest(quantity * unitCost, 1_000_000, TotalCost(quantity, unitCost));
    if Priced(quantity, unitCost) {
      var total: nat :| Nearest(total, quantity * unitCost, 1_000_000) && Storable(total);
      HalfUpIsNearest(quantity * unitCost, 1_000_000, total);
    }
  }

  /** An accepted event is recorded; any other changes nothing. */
  lemma EventIsRecorded(b: Balance, e: Event, mayGoNegative: bool)
    requires ValidEvent(e)
    ensures Accepted(b, e, mayGoNegative) ==> Recorded(b, e, After(b, e, mayGoNegative))
    ensures !Accepted(b, e, mayGoNegative) ==> After(b, e, mayGoNegative) == b
    ensures Accepted(b, e, mayGoNegative) <==> Judge(b, e, mayGoNegative) == Done
  {
    hide Decimals.HalfUp, Nearest, TotalCost, Priced;
    match e
    case Initialize(quantity, unitCost) => TotalIsNearest(quantity, unitCost);
    case Purchase(quantity, unitCost) =>
      TotalIsNearest(quantity, unitCost);
      if b.physical > 0 {
        var n, d := b.physical * b.average + quantity * unitCost, b.physical + quantity;
        HalfUpIsNearest(n, d, Decimals.HalfUp(n, d));
      }
    case Adjust(_) =>
  }

  // ---- completion costs ----

  /** By line, then by lot, then by row. */
  predicate ListedBefore(a: Plans.Withdrawal, b: Plans.Withdrawal) {
    || a.lineId < b.lineId
    || (a.lineId == b.lineId && a.source < b.source)
    || (a.lineId == b.lineId && a.source == b.source && a.id < b.id)
  }

  /** Cents of a withdrawal. A purchased line's cost is first stored in full, then rounded to cents; a surplus row's
      is rounded to cents at once. */
  ghost predicate InCents(cents: nat, quantity: nat, unitCost: nat, purchased: bool) {
    if purchased
    then exists total: nat :: Nearest(total, quantity * unitCost, 1_000_000) && Nearest(cents, total, 10_000)
    else Nearest(cents, quantity * unitCost, 10_000_000_000)
  }

  function Withdrawn(rows: seq<Plans.CostRow>): seq<Plans.Withdrawal> {
    seq(|rows|, i requires 0 <= i < |rows| => rows[i].taken)
  }

  /** One row for each withdrawal, in order, at its source's unit cost. */
  ghost predicate CostsListed(
      rows: seq<Plans.CostRow>, ws: seq<Plans.Withdrawal>, stock: map<nat, Plans.Stock>, purchased: bool)
  {
    && multiset(Withdrawn(rows)) == multiset(ws)
    && (forall i, k :: 0 <= i < k < |rows| ==> !ListedBefore(rows[k].taken, rows[i].taken))
    && (forall r :: r in rows ==>
          && (r.taken.source in stock ==> r.unitCost == stock[r.taken.source].unitCost)
          && InCents(r.amount, r.taken.quantity, r.unitCost, purchased))
  }

  /** One packaging row for each line; a custom row for each line whose custom cost is known, zero included. */
  ghost predicate AmountsListed(plan: Plans.Plan, snapshots: seq<Plans.Snapshot>) {
    && (forall i, k :: 0 <= i < k < |plan.packaging| ==> plan.packaging[i].lineId < plan.packaging[k].lineId)
    && (forall i, k :: 0 <= i < k < |plan.custom| ==> plan.custom[i].lineId < plan.custom[k].lineId)
    && (forall a :: a in plan.packaging <==>
          exists x :: x in snapshots && a.lineId == x.lineId && a.amount == x.packaging)
    && (forall a :: a in plan.custom <==>
          exists x :: x in snapshots && a.lineId == x.lineId && x.custom == Some(a.amount))
  }

  lemma AmountIsInCents(w: Plans.Withdrawal, stock: map<nat, Plans.Stock>, purchased: bool)
    ensures
      InCents(Plans.AmountOf(w, stock, purchased), w.quantity, Plans.UnitCost(stock, w.source), purchased)
  {
    hide Decimals.HalfUp, Nearest, TotalCost;
    var n := w.quantity * Plans.UnitCost(stock, w.source);
    if purchased {
      var total := TotalCost(w.quantity, Plans.UnitCost(stock, w.source));
      TotalIsNearest(w.quantity, Plans.UnitCost(stock, w.source));
      HalfUpIsNearest(total, 10_000, Decimals.HalfUp(total, 10_000));
    } else {
      HalfUpIsNearest(n, 10_000_000_000, Decimals.HalfUp(n, 10_000_000_000));
    }
  }

  lemma RowsAreListed(ws: seq<Plans.Withdrawal>, stock: map<nat, Plans.Stock>, purchased: bool)
    ensures CostsListed(Plans.Rows(Sort(ws, Plans.WithdrawalKey), stock, purchased), ws, stock, purchased)
  {
    hide Plans.AmountOf, InCents;
    var sorted := Sort(ws, Plans.WithdrawalKey);
    var rows := Plans.Rows(sorted, stock, purchased);
    SortKeeps(ws, Plans.WithdrawalKey);
    SortSorts(ws, Plans.WithdrawalKey);
    hide Sort;
    assert Withdrawn(rows) == sorted;
    forall i, k | 0 <= i < k < |rows| ensures !ListedBefore(rows[k].taken, rows[i].taken) {
      assert !Less(Plans.WithdrawalKey(sorted[k]), Plans.WithdrawalKey(sorted[i]));
    }
    forall r | r in rows ensures InCents(r.amount, r.taken.quantity, r.unitCost, purchased) {
      var i :| 0 <= i < |rows| && rows[i] == r;
      AmountIsInCents(sorted[i], stock, purchased);
    }
  }

  function SnapshotLine(x: Plans.Snapshot): nat { x.lineId }

  ghost predicate InLineOrder(sorted: seq<Plans.Snapshot>) {
    forall i, k :: 0 <= i < k < |sorted| ==> sorted[i].lineId < sorted[k].lineId
  }

  lemma SnapshotsClimb(snapshots: seq<Plans.Snapshot>)
    requires Apart(snapshots, SnapshotLine)
    ensures InLineOrder(Sort(snapshots, Plans.SnapshotKey))
    ensures forall x :: x in Sort(snapshots, Plans.SnapshotKey) <==> x in snapshots
  {
    var sorted := Sort(snapshots, Plans.SnapshotKey);
    SortSorts(snapshots, Plans.SnapshotKey);
    SortApart(snapshots, Plans.SnapshotKey, SnapshotLine);
    forall x ensures x in sorted <==> x in snapshots { SortMembers(snapshots, Plans.SnapshotKey, x); }
    hide Sort;
    forall i, k | 0 <= i < k < |sorted| ensures sorted[i].lineId < sorted[k].lineId {
      assert !Less(Plans.SnapshotKey(sorted[k]), Plans.SnapshotKey(sorted[i]));
      assert SnapshotLine(sorted[i]) != SnapshotLine(sorted[k]);
    }
  }

  ghost predicate Climb(rows: seq<Plans.LineAmount>) {
    forall i, k :: 0 <= i < k < |rows| ==> rows[i].lineId < rows[k].lineId
  }

  lemma {:induction false} PackagingIs(sorted: seq<Plans.Snapshot>)
    requires InLineOrder(sorted)
    ensures Climb(Plans.Packaging(sorted))
    ensures forall a :: a in Plans.Packaging(sorted) <==>
      exists x :: x in sorted && a.lineId == x.lineId && a.amount == x.packaging
  {
    if sorted != [] {
      var n := |sorted| - 1;
      PackagingIs(sorted[..n]);
      assert sorted == sorted[..n] + [sorted[n]];
      var rest := Plans.Packaging(sorted[..n]);
      forall a | a in rest ensures a.lineId < sorted[n].lineId {
        var x :| x in sorted[..n] && a.lineId == x.lineId && a.amount == x.packaging;
      }
    }
  }

  lemma {:induction false} CustomIs(sorted: seq<Plans.Snapshot>)
    requires InLineOrder(sorted)
    ensures Climb(Plans.Custom(sorted))
    ensures forall a :: a in Plans.Custom(sorted) <==>
      exists x :: x in sorted && a.lineId == x.lineId && x.custom == Some(a.amount)
  {
    if sorted != [] {
      var n := |sorted| - 1;
      CustomIs(sorted[..n]);
      assert sorted == sorted[..n] + [sorted[n]];
      var rest := Plans.Custom(sorted[..n]);
      forall a | a in rest ensures a.lineId < sorted[n].lineId {
        var x :| x in sorted[..n] && a.lineId == x.lineId && x.custom == Some(a.amount);
      }
    }
  }

  /** Everything a plan puts on record for a completion. */
  lemma PlanIsRecorded(
      plan: Plans.Plan, lines: seq<Plans.Withdrawal>, stock: map<nat, Plans.Stock>, rows: seq<Plans.Withdrawal>,
      lots: map<nat, Plans.Stock>, snapshots: seq<Plans.Snapshot>)
    requires Plans.Exactly(plan, lines, stock, rows, lots, snapshots) && Apart(snapshots, SnapshotLine)
    ensures CostsListed(plan.purchased, lines, stock, true) && CostsListed(plan.surplus, rows, lots, false)
    ensures AmountsListed(plan, snapshots)
  {
    hide CostsListed, Plans.Rows, Plans.Packaging, Plans.Custom, Sort;
    RowsAreListed(lines, stock, true);
    RowsAreListed(rows, lots, false);
    SnapshotsClimb(snapshots);
    PackagingIs(Sort(snapshots, Plans.SnapshotKey));
    CustomIs(Sort(snapshots, Plans.SnapshotKey));
  }
}
