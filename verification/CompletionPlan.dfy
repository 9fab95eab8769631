/** Planning a completion from locked facts: demand is added up per product and promises per lot
    before anything is compared with stock, then every deduction and every cost row is fixed. */
module CompletionPlan {
  import opened Sorting
  import opened Arithmetic
  import Costing = InventoryCosting
  import Decimals = DecimalArithmetic

  /** A purchased line taking from its product, or a surplus row taking from its lot. */
  datatype Withdrawal = Withdrawal(id: nat, lineId: nat, source: nat, quantity: nat)

  /** Physical quantity in micro-units, unit cost in millionths. */
  datatype Stock = Stock(physical: int, unitCost: nat)

  datatype Snapshot = Snapshot(lineId: nat, packaging: nat, custom: Option<nat>)

  datatype Failure = Short(source: nat, required: nat, physical: int) | NotRepresentable(lineId: nat)

  /** One cost row: what was taken, at which unit cost, and its cents. */
  datatype CostRow = CostRow(taken: Withdrawal, unitCost: nat, amount: nat)

  datatype LineAmount = LineAmount(lineId: nat, amount: nat)

  datatype Plan = Plan(
    purchased: seq<CostRow>, deduction: map<nat, nat>, surplus: seq<CostRow>, consumption: map<nat, nat>,
    packaging: seq<LineAmount>, custom: seq<LineAmount>)

  const NUMERIC_14_2_LIMIT: nat := 100_0000_0000_0000

  function Physical(stock: map<nat, Stock>, source: nat): int {
    if source in stock then stock[source].physical else 0
  }

  function Taken(ws: seq<Withdrawal>, source: nat): nat {
    if ws == [] then 0
    else
      var last := ws[|ws| - 1];
      Taken(ws[..|ws| - 1], source) + if last.source == source then last.quantity else 0
  }

  function Sources(ws: seq<Withdrawal>): set<nat> { set i | 0 <= i < |ws| :: ws[i].source }

  ghost predicate Covered(ws: seq<Withdrawal>, stock: map<nat, Stock>) {
    forall x :: x in Sources(ws) ==> Taken(ws, x) <= Physical(stock, x)
  }

  ghost predicate AreTotals(totals: map<nat, nat>, ws: seq<Withdrawal>) {
    totals.Keys == Sources(ws) && forall x :: x in totals ==> totals[x] == Taken(ws, x)
  }

  // ---- sufficiency ----

  lemma TakenStep(ws: seq<Withdrawal>, n: nat, source: nat)
    requires n < |ws|
    ensures Taken(ws[..n + 1], source) == Taken(ws[..n], source) + if ws[n].source == source then ws[n].quantity else 0
    ensures Sources(ws[..n + 1]) == Sources(ws[..n]) + {ws[n].source}
  {
    assert ws[..n + 1][..n] == ws[..n];
    forall x | x in Sources(ws[..n]) ensures x in Sources(ws[..n + 1]) {
      var i :| 0 <= i < n && ws[..n][i].source == x;
      assert ws[..n + 1][i].source == x;
    }
    assert ws[..n + 1][n].source in Sources(ws[..n + 1]);
  }

  lemma {:induction false} NothingTaken(ws: seq<Withdrawal>, source: nat)
    requires source !in Sources(ws)
    ensures Taken(ws, source) == 0
  {
    if ws != [] {
      var n := |ws| - 1;
      assert ws[n].source in Sources(ws);
      forall x | x in Sources(ws[..n]) ensures x in Sources(ws) {
        var i :| 0 <= i < n && ws[..n][i].source == x;
        assert ws[i].source == x;
      }
      NothingTaken(ws[..n], source);
    }
  }

  /** Running totals, one entry per source. */
  method Totals(ws: seq<Withdrawal>) returns (totals: map<nat, nat>)
    ensures AreTotals(totals, ws)
  {
    totals := map[];
    var i := 0;
    while i < |ws|
      invariant 0 <= i <= |ws|
      invariant AreTotals(totals, ws[..i])
    {
      var w := ws[i];
      ghost var before := totals;
      totals := totals[w.source := (if w.source in totals then totals[w.source] else 0) + w.quantity];
      forall x | x in totals ensures totals[x] == Taken(ws[..i + 1], x) {
        TakenStep(ws, i, x);
        if w.source !in before { NothingTaken(ws[..i], w.source); }
      }
      TakenStep(ws, i, 0);
      i := i + 1;
    }
    assert ws[..|ws|] == ws;
  }

  /** The failures name exactly the sources that are short, in increasing order, with both figures. */
  ghost predicate Reports(failures: seq<Failure>, ws: seq<Withdrawal>, stock: map<nat, Stock>) {
    && (forall i :: 0 <= i < |failures| ==> failures[i].Short?)
    && (forall i, k :: 0 <= i < k < |failures| ==> failures[i].source < failures[k].source)
    && (forall f :: f in failures ==>
          f.source in Sources(ws) && f.required == Taken(ws, f.source) && f.physical == Physical(stock, f.source)
            && f.physical < f.required)
    && (forall x :: x in Sources(ws) && Physical(stock, x) < Taken(ws, x) ==>
      Short(x, Taken(ws, x), Physical(stock, x)) in failures)
  }

  method Smallest(ids: set<nat>) returns (x: nat)
    requires ids != {}
    ensures x in ids && forall y :: y in ids ==> x <= y
  {
    var todo := ids;
    x :| x in todo;
    todo := todo - {x};
    while todo != {}
      invariant todo <= ids && x in ids
      invariant forall y :: y in ids && y !in todo ==> x <= y
      decreases todo
    {
      var y :| y in todo;
      if y < x { x := y; }
      todo := todo - {y};
    }
  }

  method FindShort(ws: seq<Withdrawal>, stock: map<nat, Stock>) returns (failures: seq<Failure>)
    ensures Reports(failures, ws, stock)
  {
    var totals := Totals(ws);
    failures := [];
    var todo := totals.Keys;
    while todo != {}
      invariant todo <= Sources(ws)
      invariant forall i :: 0 <= i < |failures| ==> failures[i].Short?
      invariant forall i, k :: 0 <= i < k < |failures| ==> failures[i].source < failures[k].source
      invariant forall f, x :: f in failures && x in todo ==> f.source < x
      invariant forall f :: f in failures ==>
        f.source in Sources(ws) && f.required == Taken(ws, f.source) && f.physical == Physical(stock, f.source)
          && f.physical < f.required
      invariant forall x :: x in Sources(ws) - todo && Physical(stock, x) < Taken(ws, x) ==>
        Short(x, Taken(ws, x), Physical(stock, x)) in failures
      decreases todo
    {
      var x := Smallest(todo);
      if Physical(stock, x) - totals[x] < 0 { failures := failures + [Short(x, totals[x], Physical(stock, x))]; }
      todo := todo - {x};
    }
  }

  lemma ReportsNothingIffCovered(failures: seq<Failure>, ws: seq<Withdrawal>, stock: map<nat, Stock>)
    requires Reports(failures, ws, stock)
    ensures failures == [] <==> Covered(ws, stock)
  {
    if failures != [] { assert failures[0] in failures; }
  }

  // ---- costs ----

  /** Cents of a purchased withdrawal: the stored total, itself rounded once, rounded once more. */
  function PurchasedAmount(quantity: nat, unitCost: nat): nat
  {
    Decimals.HalfUp(Costing.TotalCost(quantity, unitCost), 10000)
  }

  /** Cents of a surplus withdrawal, rounded once from the exact product. */
  function SurplusAmount(quantity: nat, unitCost: nat): nat { Decimals.HalfUp(quantity * unitCost, 1_00_0000_0000) }

  function UnitCost(stock: map<nat, Stock>, source: nat): nat { if source in stock then stock[source].unitCost else 0 }

  function AmountOf(w: Withdrawal, stock: map<nat, Stock>, purchased: bool): nat {
    if purchased then PurchasedAmount(w.quantity, UnitCost(stock, w.source))
      else SurplusAmount(w.quantity, UnitCost(stock, w.source))
  }

  predicate Fits(w: Withdrawal, stock: map<nat, Stock>, purchased: bool) {
    && (purchased ==> Costing.TotalCost(w.quantity, UnitCost(stock, w.source)) < Decimals.NUMERIC_18_6_LIMIT)
    && AmountOf(w, stock, purchased) < NUMERIC_14_2_LIMIT
  }

  /** Purchased lines by line id; surplus rows by line, lot and row id. */
  function WithdrawalKey(w: Withdrawal): Key { Key(w.lineId, w.source, w.id, 0) }

  function SnapshotKey(x: Snapshot): Key { Key(x.lineId, 0, 0, 0) }

  function Rows(ws: seq<Withdrawal>, stock: map<nat, Stock>, purchased: bool): (rows: seq<CostRow>)
    ensures |rows| == |ws|
  {
    seq(|ws|, i requires 0 <= i < |ws| =>
      CostRow(ws[i], UnitCost(stock, ws[i].source), AmountOf(ws[i], stock, purchased)))
  }

  /** The line of the first withdrawal whose cost cannot be stored. */
  function FirstUnfit(ws: seq<Withdrawal>, stock: map<nat, Stock>, purchased: bool): Option<nat> {
    if ws == [] then None
    else if !Fits(ws[0], stock, purchased) then Some(ws[0].lineId)
    else FirstUnfit(ws[1..], stock, purchased)
  }

  lemma {:induction false} FirstUnfitAt(ws: seq<Withdrawal>, stock: map<nat, Stock>, purchased: bool, n: nat)
    requires n <= |ws| && forall i :: 0 <= i < n ==> Fits(ws[i], stock, purchased)
    ensures n < |ws| && !Fits(ws[n], stock, purchased) ==> FirstUnfit(ws, stock, purchased) == Some(ws[n].lineId)
    ensures n == |ws| ==> FirstUnfit(ws, stock, purchased) == None
  {
    if n > 0 { FirstUnfitAt(ws[1..], stock, purchased, n - 1); }
  }

  /** Costs in the given order, stopping at the first that cannot be stored. Every source is present:
      the lookup that would raise KeyError is never reached. */
  method PriceAll(ws: seq<Withdrawal>, stock: map<nat, Stock>, purchased: bool)
      returns (rows: seq<CostRow>, totals: map<nat, nat>, unfit: Option<nat>)
    requires forall w :: w in ws ==> w.quantity > 0
    requires Covered(ws, stock)
    ensures unfit == FirstUnfit(ws, stock, purchased)
    ensures unfit.None? ==> rows == Rows(ws, stock, purchased) && AreTotals(totals, ws)
  {
    rows, totals := [], map[];
    var i := 0;
    while i < |ws|
      invariant 0 <= i <= |ws|
      invariant forall k :: 0 <= k < i ==> Fits(ws[k], stock, purchased)
      invariant rows == Rows(ws[..i], stock, purchased)
      invariant AreTotals(totals, ws[..i])
    {
      var w := ws[i];
      SourceIsPresent(ws, stock, i);
      var unitCost := stock[w.source].unitCost;
      var fits, amount;
      if purchased {
        var totalCost := Costing.TotalCost(w.quantity, unitCost);
        amount := Decimals.HalfUp(totalCost, 10000);
        fits := totalCost < Decimals.NUMERIC_18_6_LIMIT && amount < NUMERIC_14_2_LIMIT;
      } else {
        amount := SurplusAmount(w.quantity, unitCost);
        fits := amount < NUMERIC_14_2_LIMIT;
      }
      if !fits {
        FirstUnfitAt(ws, stock, purchased, i);
        return rows, totals, Some(w.lineId);
      }
      rows := rows + [CostRow(w, unitCost, amount)];
      assert rows == Rows(ws[..i + 1], stock, purchased);
      ghost var before := totals;
      totals := totals[w.source := (if w.source in totals then totals[w.source] else 0) + w.quantity];
      forall x | x in totals ensures totals[x] == Taken(ws[..i + 1], x) {
        TakenStep(ws, i, x);
        if w.source !in before { NothingTaken(ws[..i], w.source); }
      }
      TakenStep(ws, i, 0);
      i := i + 1;
    }
    FirstUnfitAt(ws, stock, purchased, |ws|);
    assert ws[..|ws|] == ws;
    unfit := None;
  }

  lemma {:induction false} TakesItsPart(ws: seq<Withdrawal>, i: nat)
    requires i < |ws|
    ensures ws[i].quantity <= Taken(ws, ws[i].source)
  {
    if i < |ws| - 1 { TakesItsPart(ws[..|ws| - 1], i); }
  }

  lemma SourceIsPresent(ws: seq<Withdrawal>, stock: map<nat, Stock>, i: nat)
    requires i < |ws| && ws[i].quantity > 0 && Covered(ws, stock)
    ensures ws[i].source in stock
  {
    TakesItsPart(ws, i);
    assert ws[i].source in Sources(ws);
  }

  function Packaging(snapshots: seq<Snapshot>): seq<LineAmount> {
    if snapshots == [] then []
    else
      var last := snapshots[|snapshots| - 1];
      Packaging(snapshots[..|snapshots| - 1]) + [LineAmount(last.lineId, last.packaging)]
  }

  /** Known zero is a row; unknown is none. */
  function Custom(snapshots: seq<Snapshot>): seq<LineAmount> {
    if snapshots == [] then []
    else
      var last := snapshots[|snapshots| - 1];
      Custom(snapshots[..|snapshots| - 1]) + if last.custom.Some? then [LineAmount(last.lineId, last.custom.value)]
        else []
  }

  // ---- the plan ----

  lemma {:induction false} TakenOfConcat(a: seq<Withdrawal>, b: seq<Withdrawal>, source: nat)
    ensures Taken(a + b, source) == Taken(a, source) + Taken(b, source)
  {
    if b == [] {
      assert a + b == a;
    } else {
      TakenOfConcat(a, b[..|b| - 1], source);
      assert (a + b)[..|a + b| - 1] == a + b[..|b| - 1];
    }
  }

  function Without(ws: seq<Withdrawal>, j: nat): seq<Withdrawal>
    requires j < |ws|
  {
    ws[..j] + ws[j + 1..]
  }

  lemma WithoutOne(ws: seq<Withdrawal>, j: nat, source: nat)
    requires j < |ws|
    ensures Taken(ws, source) == Taken(Without(ws, j), source) + if ws[j].source == source then ws[j].quantity else 0
    ensures multiset(Without(ws, j)) == multiset(ws) - multiset{ws[j]}
  {
    assert ws == ws[..j + 1] + ws[j + 1..] && ws[..j + 1] == ws[..j] + [ws[j]];
    TakenStep(ws, j, source);
    TakenOfConcat(ws[..j + 1], ws[j + 1..], source);
    TakenOfConcat(ws[..j], ws[j + 1..], source);
  }

  lemma {:induction false} TakenOfPile(a: seq<Withdrawal>, b: seq<Withdrawal>, source: nat)
    requires multiset(a) == multiset(b)
    ensures Taken(a, source) == Taken(b, source)
    decreases |a|
  {
    if a == [] {
      assert |multiset(a)| == |multiset(b)|;
    } else {
      hide Taken, Without;
      assert a[0] in multiset(b);
      var j :| 0 <= j < |b| && b[j] == a[0];
      WithoutOne(a, 0, source);
      WithoutOne(b, j, source);
      var one, other := Without(a, 0), Without(b, j);
      assert |one| == |multiset(one)| && |a| == |multiset(a)|;
      TakenOfPile(one, other, source);
    }
  }

  /** Sorting changes neither the sources nor what is taken from them. */
  lemma SortingKeepsTotals(ws: seq<Withdrawal>)
    ensures forall x :: x in Sort(ws, WithdrawalKey) <==> x in ws
    ensures Sources(Sort(ws, WithdrawalKey)) == Sources(ws)
    ensures forall x :: Taken(Sort(ws, WithdrawalKey), x) == Taken(ws, x)
  {
    var sorted := Sort(ws, WithdrawalKey);
    SortKeeps(ws, WithdrawalKey);
    forall x ensures x in sorted <==> x in ws { SortMembers(ws, WithdrawalKey, x); }
    forall x ensures Taken(sorted, x) == Taken(ws, x) { TakenOfPile(sorted, ws, x); }
    forall x | x in Sources(sorted) ensures x in Sources(ws) {
      var i :| 0 <= i < |sorted| && sorted[i].source == x;
      assert sorted[i] in ws;
      var j :| 0 <= j < |ws| && ws[j] == sorted[i];
    }
    forall x | x in Sources(ws) ensures x in Sources(sorted) {
      var i :| 0 <= i < |ws| && ws[i].source == x;
      assert ws[i] in sorted;
      var j :| 0 <= j < |sorted| && sorted[j] == ws[i];
    }
  }

  /** Nothing but the right deductions and the right rows. */
  ghost predicate Exactly(
      plan: Plan, lines: seq<Withdrawal>, stock: map<nat, Stock>, rows: seq<Withdrawal>, lots: map<nat, Stock>,
      snapshots: seq<Snapshot>)
  {
    && AreTotals(plan.deduction, lines)
    && AreTotals(plan.consumption, rows)
    && plan.purchased == Rows(Sort(lines, WithdrawalKey), stock, true)
    && plan.surplus == Rows(Sort(rows, WithdrawalKey), lots, false)
    && plan.packaging == Packaging(Sort(snapshots, SnapshotKey))
    && plan.custom == Custom(Sort(snapshots, SnapshotKey))
  }

  ghost predicate AllFit(ws: seq<Withdrawal>, stock: map<nat, Stock>, purchased: bool) {
    forall w :: w in ws ==> Fits(w, stock, purchased)
  }

  lemma UnfitIff(ws: seq<Withdrawal>, stock: map<nat, Stock>, purchased: bool)
    ensures FirstUnfit(Sort(ws, WithdrawalKey), stock, purchased).None? <==> AllFit(ws, stock, purchased)
  {
    var sorted := Sort(ws, WithdrawalKey);
    forall x ensures x in sorted <==> x in ws { SortMembers(ws, WithdrawalKey, x); }
    NoneUnfit(sorted, stock, purchased);
  }

  lemma {:induction false} NoneUnfit(ws: seq<Withdrawal>, stock: map<nat, Stock>, purchased: bool)
    ensures FirstUnfit(ws, stock, purchased).None? <==> forall w :: w in ws ==> Fits(w, stock, purchased)
  {
    if ws != [] {
      assert ws == [ws[0]] + ws[1..];
      NoneUnfit(ws[1..], stock, purchased);
    }
  }

  lemma CoveredSorted(ws: seq<Withdrawal>, stock: map<nat, Stock>)
    requires Covered(ws, stock)
    ensures Covered(Sort(ws, WithdrawalKey), stock)
  {
    SortingKeepsTotals(ws);
  }

  method BuildCompletionPlan(
      lines: seq<Withdrawal>, stock: map<nat, Stock>, rows: seq<Withdrawal>, lots: map<nat, Stock>,
      snapshots: seq<Snapshot>)
      returns (plan: Option<Plan>, failures: seq<Failure>)
    requires forall w :: w in lines + rows ==> w.quantity > 0
    ensures plan.Some? <==>
      Covered(lines, stock) && Covered(rows, lots) && AllFit(lines, stock, true) && AllFit(rows, lots, false)
    ensures plan.Some? ==> failures == [] && Exactly(plan.value, lines, stock, rows, lots, snapshots)
    ensures !(Covered(lines, stock) && Covered(rows, lots)) ==>
      exists n :: 0 <= n <= |failures| && Reports(failures[..n], lines, stock) && Reports(failures[n..], rows, lots)
    ensures plan.None? && Covered(lines, stock) && Covered(rows, lots) ==>
      var unfitLine := FirstUnfit(Sort(lines, WithdrawalKey), stock, true);
      var unfitRow := FirstUnfit(Sort(rows, WithdrawalKey), lots, false);
      && (unfitLine.Some? || unfitRow.Some?)
      && failures == [NotRepresentable(if unfitLine.Some? then unfitLine.value else unfitRow.value)]
  {
    var shortProducts := FindShort(lines, stock);
    var shortLots := FindShort(rows, lots);
    ReportsNothingIffCovered(shortProducts, lines, stock);
    ReportsNothingIffCovered(shortLots, rows, lots);
    failures := shortProducts + shortLots;
    if failures != [] {
      assert failures[..|shortProducts|] == shortProducts && failures[|shortProducts|..] == shortLots;
      return None, failures;
    }
    CoveredSorted(lines, stock);
    CoveredSorted(rows, lots);
    SortingKeepsTotals(lines);
    SortingKeepsTotals(rows);
    UnfitIff(lines, stock, true);
    UnfitIff(rows, lots, false);
    var purchased, deduction, unfit := PriceAll(Sort(lines, WithdrawalKey), stock, true);
    if unfit.Some? { return None, [NotRepresentable(unfit.value)]; }
    var surplus, consumption, unfitRow := PriceAll(Sort(rows, WithdrawalKey), lots, false);
    if unfitRow.Some? { return None, [NotRepresentable(unfitRow.value)]; }
    var ordered := Sort(snapshots, SnapshotKey);
    plan := Some(Plan(purchased, deduction, surplus, consumption, Packaging(ordered), Custom(ordered)));
  }

  // ---- the order of the inputs ----

  ghost predicate KeyedApart<T(!new)>(s: seq<T>, key: T -> Key) {
    forall x, y :: x in s && y in s && key(x) == key(y) ==> x == y
  }

  /** The same elements in any order, told apart by their key. */
  ghost predicate SamePile<T(!new)>(a: seq<T>, b: seq<T>, key: T -> Key) {
    multiset(a) == multiset(b) && KeyedApart(a, key)
  }

  lemma SamePileTakesTheSame(a: seq<Withdrawal>, b: seq<Withdrawal>)
    requires SamePile(a, b, WithdrawalKey)
    ensures Sort(a, WithdrawalKey) == Sort(b, WithdrawalKey)
    ensures Sources(a) == Sources(b)
    ensures forall x :: Taken(a, x) == Taken(b, x)
  {
    SortIgnoresInputOrder(a, b, WithdrawalKey);
    SortingKeepsTotals(a);
    SortingKeepsTotals(b);
    forall x ensures Taken(a, x) == Taken(b, x) {
      assert Taken(Sort(a, WithdrawalKey), x) == Taken(Sort(b, WithdrawalKey), x);
    }
  }

  /** The plan, down to the order of its rows, depends on which facts were gathered and not on the order
      they came in. */
  lemma PlanIgnoresInputOrder(
      p: Plan, lines: seq<Withdrawal>, rows: seq<Withdrawal>, snapshots: seq<Snapshot>,
      p': Plan, lines': seq<Withdrawal>, rows': seq<Withdrawal>, snapshots': seq<Snapshot>,
      stock: map<nat, Stock>, lots: map<nat, Stock>)
    requires Exactly(p, lines, stock, rows, lots, snapshots) && Exactly(p', lines', stock, rows', lots, snapshots')
    requires SamePile(lines, lines', WithdrawalKey) && SamePile(rows, rows', WithdrawalKey)
    requires SamePile(snapshots, snapshots', SnapshotKey)
    ensures p == p'
  {
    hide Sort, Taken;
    SamePileTakesTheSame(lines, lines');
    SamePileTakesTheSame(rows, rows');
    SortIgnoresInputOrder(snapshots, snapshots', SnapshotKey);
  }

  /** So does the failure report. */
  lemma {:induction false} ReportIgnoresInputOrder(
      f: seq<Failure>, ws: seq<Withdrawal>, f': seq<Failure>, ws': seq<Withdrawal>, stock: map<nat, Stock>)
    requires Reports(f, ws, stock) && Reports(f', ws', stock) && SamePile(ws, ws', WithdrawalKey)
    ensures f == f'
  {
    SamePileTakesTheSame(ws, ws');
    SameClimb(f, f');
  }

  ghost predicate Climbs(f: seq<Failure>) {
    (forall x :: x in f ==> x.Short?) && forall i, k :: 0 <= i < k < |f| ==> f[i].source < f[k].source
  }

  lemma FirstIsOnce(f: seq<Failure>)
    requires Climbs(f) && f != []
    ensures f[0] !in f[1..]
  {
    assert forall i :: 0 <= i < |f| - 1 ==> f[1..][i] == f[i + 1];
  }

  lemma {:induction false} SameClimb(f: seq<Failure>, f': seq<Failure>)
    requires Climbs(f) && Climbs(f') && forall x :: x in f <==> x in f'
    ensures f == f'
  {
    assert f == [] || f[0] in f';
    assert f' == [] || f'[0] in f;
    if f != [] {
      assert f == [f[0]] + f[1..] && f' == [f'[0]] + f'[1..];
      var i :| 0 <= i < |f'| && f'[i] == f[0];
      var k :| 0 <= k < |f| && f[k] == f'[0];
      assert f[0] == f'[0];
      FirstIsOnce(f);
      FirstIsOnce(f');
      forall x ensures x in f[1..] <==> x in f'[1..] {
        assert x in f <==> x == f[0] || x in f[1..];
        assert x in f' <==> x == f'[0] || x in f'[1..];
      }
      SameClimb(f[1..], f'[1..]);
    }
  }

  // ---- applying the plan ----

  /** Every deduction is taken off its own row; nothing else moves and nothing goes below zero. */
  method Deduct(
      stock: map<nat, Stock>, deduction: map<nat, nat>, ghost ws: seq<Withdrawal>) returns (after: map<nat, Stock>)
    requires AreTotals(deduction, ws) && Covered(ws, stock) && forall w :: w in ws ==> w.quantity > 0
    ensures after.Keys == stock.Keys
    ensures forall x :: x in stock ==> after[x] == stock[x].(physical := stock[x].physical - Taken(ws, x))
    ensures forall x :: x in deduction ==> x in after && after[x].physical >= 0
  {
    after := stock;
    var todo := deduction.Keys;
    forall x | x in deduction ensures x in stock {
      var i :| 0 <= i < |ws| && ws[i].source == x;
      assert ws[i] in ws;
      SourceIsPresent(ws, stock, i);
    }
    while todo != {}
      invariant todo <= deduction.Keys && after.Keys == stock.Keys
      invariant forall x :: x in stock ==>
        after[x] == if x in deduction && x !in todo then stock[x].(physical := stock[x].physical - deduction[x])
          else stock[x]
      decreases todo
    {
      var x :| x in todo;
      after := after[x := after[x].(physical := after[x].physical - deduction[x])];
      todo := todo - {x};
    }
    forall x | x in stock && x !in deduction ensures Taken(ws, x) == 0 { NothingTaken(ws, x); }
  }

  // ---- the two ways of rounding ----

  /** Purchased cents are within half a cent and half a millionth of the exact cost; surplus cents within
      half a cent. */
  lemma AmountsAreClose(quantity: nat, unitCost: nat)
    ensures
      var exact := quantity * unitCost;
      && -50_0050_0000 <= exact - 1_00_0000_0000 * PurchasedAmount(quantity, unitCost) <= 50_0050_0000
      && -50_0000_0000 <= exact - 1_00_0000_0000 * SurplusAmount(quantity, unitCost) <= 50_0000_0000
  {
    var exact := quantity * unitCost;
    HalfUpNear(exact, 1000000);
    HalfUpNear(Costing.TotalCost(quantity, unitCost), 10000);
    HalfUpNear(exact, 1_00_0000_0000);
  }

  lemma HalfUpNear(n: nat, d: nat)
    requires d > 0
    ensures 2 * n - d < 2 * d * Decimals.HalfUp(n, d) <= 2 * n + d
  {
    var h := (2 * n + d) / (2 * d);
    assert 2 * n + d == 2 * d * h + (2 * n + d) % (2 * d);
  }

  /** The exact products, modulo a cent, that two roundings take over the half cent. */
  predicate LiftedByRoundingTwice(product: nat) {
    49_9950_0000 <= product % 1_00_0000_0000 < 50_0000_0000
  }

  lemma HalfUpOf(n: nat, d: nat, h: nat, r: int)
    requires d > 0 && n == d * h + r && 0 - d <= 2 * r < d
    ensures Decimals.HalfUp(n, d) == h
  {
    DivModIs(2 * n + d, 2 * d, h, 2 * r + d);
  }

  /** The two ways of rounding differ exactly on those products, and then by one cent. */
  lemma RoundingTwiceGainsIff(quantity: nat, unitCost: nat)
    ensures PurchasedAmount(quantity, unitCost) ==
      SurplusAmount(quantity, unitCost) + if LiftedByRoundingTwice(quantity * unitCost) then 1 else 0
  {
    TwiceRounded(quantity * unitCost);
  }

  lemma TwiceRounded(e: nat)
    ensures Decimals.HalfUp(Decimals.HalfUp(e, 1000000), 10000) ==
      Decimals.HalfUp(e, 1_00_0000_0000) + if LiftedByRoundingTwice(e) then 1 else 0
  {
    var k, r := e / 1_00_0000_0000, e % 1_00_0000_0000;
    var t, u := r / 1000000, r % 1000000;
    var up := if u < 500000 then 0 else 1;
    HalfUpOf(e, 1000000, 10000 * k + t + up, u - 1000000 * up);
    var total := 10000 * k + t + up;
    var far := if t + up < 5000 then 0 else 1;
    HalfUpOf(total, 10000, k + far, t + up - 10000 * far);
    var over := if r < 50_0000_0000 then 0 else 1;
    HalfUpOf(e, 1_00_0000_0000, k + over, r - 1_00_0000_0000 * over);
  }

  /** Rounding twice can gain a cent over rounding once. */
  lemma TwiceRoundedMayDiffer()
    ensures PurchasedAmount(1, 49_9999_9600) == 1 + SurplusAmount(1, 49_9999_9600)
  {
  }
}
