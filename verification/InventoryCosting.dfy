/** Ingredient and purchased-product balances: physical quantity, weighted-average unit cost and the
    append-only ledger. Quantities and unit costs are integer micro-units. */
module InventoryCosting {
  import opened Arithmetic
  import opened Sorting
  import opened DecimalArithmetic

  // ---- the restock calculator ----

  datatype AverageResult = Average(value: Ratio) | NonPositiveQuantity | NegativeCost

  /** The unrounded new average in currency units: the blend of old stock and purchase, or the
      purchase price alone when there is no positive stock to blend with. */
  function RestockAverage(oldQuantity: int, oldAverage: nat, quantity: int, unitCost: int): AverageResult {
    if quantity <= 0 then NonPositiveQuantity
    else if unitCost < 0 then NegativeCost
    else if oldQuantity <= 0 then Average(Ratio(unitCost, 1000000))
    else Average(Round50(oldQuantity * oldAverage + quantity * unitCost, 1000000 * (oldQuantity + quantity)))
  }

  predicate Representable(value: int) { 0 - NUMERIC_18_6_LIMIT < value < NUMERIC_18_6_LIMIT }

  /** The average as it is stored, from exact arithmetic. */
  function BlendedAverage(oldQuantity: int, oldAverage: nat, quantity: nat, unitCost: nat): nat
    requires quantity > 0
  {
    if oldQuantity <= 0 then unitCost
    else HalfUp(oldQuantity * oldAverage + quantity * unitCost, oldQuantity + quantity)
  }

  lemma ProductFits(a: nat, b: nat)
    requires a < NUMERIC_18_6_LIMIT && b < NUMERIC_18_6_LIMIT
    ensures a * b <= NUMERIC_18_6_LIMIT * NUMERIC_18_6_LIMIT
  {
    Scale(a, b, NUMERIC_18_6_LIMIT);
    Scale(NUMERIC_18_6_LIMIT, a, NUMERIC_18_6_LIMIT);
  }

  lemma HalfUpScaled(n: nat, d: nat)
    requires d > 0
    ensures HalfUp(1000000 * n, 1000000 * d) == HalfUp(n, d)
  {
    hide HalfUp;
    var h := HalfUp(n, d);
    HalfUpIs(n, d, h);
    HalfUpIs(1000000 * n, 1000000 * d, h);
    assert (2 * h - 1) * (1000000 * d) == 1000000 * ((2 * h - 1) * d);
    assert (2 * h + 1) * (1000000 * d) == 1000000 * ((2 * h + 1) * d);
  }

  /** For stored inputs the quantized fifty-digit average is the exact half-up average. */
  lemma AverageIsExact(oldQuantity: int, oldAverage: nat, quantity: nat, unitCost: nat)
    requires quantity > 0
    requires Representable(oldQuantity) && Representable(oldAverage) && Representable(quantity)
      && Representable(unitCost)
    ensures RestockAverage(oldQuantity, oldAverage, quantity, unitCost).Average?
    ensures Micros(RestockAverage(oldQuantity, oldAverage, quantity, unitCost).value)
            == BlendedAverage(oldQuantity, oldAverage, quantity, unitCost)
  {
    hide Round50, HalfUp;
    if oldQuantity <= 0 {
      HalfUpIs(1000000 * unitCost, 1000000, unitCost);
    } else {
      BlendFits(oldQuantity, oldAverage, quantity, unitCost);
      var n, d := oldQuantity * oldAverage + quantity * unitCost, oldQuantity + quantity;
      StoredQuotient(n, d);
    }
  }

  lemma BlendFits(oldQuantity: nat, oldAverage: nat, quantity: nat, unitCost: nat)
    requires Representable(oldQuantity) && Representable(oldAverage) && Representable(quantity)
      && Representable(unitCost)
    ensures oldQuantity * oldAverage + quantity * unitCost < OPERAND_LIMIT
  {
    ProductFits(oldQuantity, oldAverage);
    ProductFits(quantity, unitCost);
  }

  lemma StoredQuotient(n: nat, d: nat)
    requires d > 0 && n < OPERAND_LIMIT
    ensures Micros(Round50(n, 1000000 * d)) == HalfUp(n, d)
  {
    hide Round50, HalfUp, Micros;
    QuantizingIsExact(n, 1000000 * d);
    HalfUpScaled(n, d);
  }

  /** A blend lies between the two costs it blends. */
  lemma BlendStaysBetween(oldQuantity: int, oldAverage: nat, quantity: nat, unitCost: nat, lo: nat, hi: nat)
    requires quantity > 0 && lo <= unitCost <= hi
    requires oldQuantity > 0 ==> lo <= oldAverage <= hi
    ensures lo <= BlendedAverage(oldQuantity, oldAverage, quantity, unitCost) <= hi
  {
    hide HalfUp;
    if oldQuantity > 0 {
      var n, d := oldQuantity * oldAverage + quantity * unitCost, oldQuantity + quantity;
      Scale(oldQuantity, lo, oldAverage);
      Scale(quantity, lo, unitCost);
      Scale(oldQuantity, oldAverage, hi);
      Scale(quantity, unitCost, hi);
      Distribute(lo, oldQuantity, quantity);
      Distribute(hi, oldQuantity, quantity);
      HalfUpBetween(n, d, lo, hi);
    }
  }

  lemma HalfUpBetween(n: nat, d: nat, lo: nat, hi: nat)
    requires d > 0 && lo * d <= n <= hi * d
    ensures lo <= HalfUp(n, d) <= hi
  {
    hide HalfUp;
    var h := HalfUp(n, d);
    HalfUpGap(n, d);
    Difference(d, h, hi);
    Difference(d, lo, h);
    Monotone(d, 2, 2 * (h - hi));
    Monotone(d, 2, 2 * (lo - h));
    Bridge(d, h, lo, hi, n);
  }

  lemma Bridge(d: nat, h: nat, lo: nat, hi: nat, n: nat)
    requires d > 0 && lo * d <= n <= hi * d && 0 - d <= 2 * h * d - 2 * n <= d
    requires d * (2 * (h - hi)) == 2 * (h * d) - 2 * (d * hi) && d * (2 * (lo - h)) == 2 * (lo * d) - 2 * (d * h)
    requires 2 <= 2 * (h - hi) ==> d * 2 <= d * (2 * (h - hi))
    requires 2 <= 2 * (lo - h) ==> d * 2 <= d * (2 * (lo - h))
    ensures lo <= h <= hi
  {
  }

  /** One blend moves the value of the stock by at most half a micro-unit per unit held. */
  lemma BlendKeepsValue(oldQuantity: nat, oldAverage: nat, quantity: nat, unitCost: nat)
    requires quantity > 0 && oldQuantity > 0
    ensures
      var d := oldQuantity + quantity;
      var drift := d * BlendedAverage(oldQuantity, oldAverage, quantity, unitCost)
                   - (oldQuantity * oldAverage + quantity * unitCost);
      0 - d <= 2 * drift <= d
  {
    hide HalfUp;
    var n, d := oldQuantity * oldAverage + quantity * unitCost, oldQuantity + quantity;
    var h := BlendedAverage(oldQuantity, oldAverage, quantity, unitCost);
    HalfUpIs(n, d, h);
    assert (2 * h - 1) * d == 2 * (d * h) - d && (2 * h + 1) * d == 2 * (d * h) + d;
  }

  // ---- a balance and its ledger ----

  datatype Kind = InitialBalance | Restock | ManualAdjustment

  datatype Entry = Entry(kind: Kind, change: int, unitCost: Option<nat>, totalCost: Option<nat>)

  datatype Balance = Balance(physical: int, average: nat, latest: Option<nat>, ledger: seq<Entry>)

  datatype Event = Initialize(quantity: nat, unitCost: nat) | Purchase(quantity: nat, unitCost: nat) |
    Adjust(change: int)

  datatype Outcome = Done | AlreadyInitialized | OutOfRange | InsufficientBalance

  predicate ValidEvent(e: Event) {
    match e
    case Initialize(q, c) => 0 < q && Representable(q) && Representable(c)
    case Purchase(q, c) => 0 < q && Representable(q) && Representable(c)
    case Adjust(d) => d != 0 && Representable(d)
  }

  function TotalCost(quantity: nat, unitCost: nat): nat { HalfUp(quantity * unitCost, 1000000) }

  function Judge(b: Balance, e: Event, mayGoNegative: bool): Outcome {
    match e
    case Initialize(q, c) =>
      if b.ledger != [] then AlreadyInitialized
      else if !Representable(TotalCost(q, c)) then OutOfRange
      else Done
    case Purchase(q, c) =>
      if !Representable(TotalCost(q, c)) || !Representable(b.physical + q) then OutOfRange else Done
    case Adjust(d) =>
      if !Representable(b.physical + d) then OutOfRange
      else if b.physical + d < 0 && !mayGoNegative then InsufficientBalance
      else Done
  }

  /** The balance after an event; a refused event leaves it as it was. */
  function After(b: Balance, e: Event, mayGoNegative: bool): Balance
    requires ValidEvent(e)
  {
    if Judge(b, e, mayGoNegative) != Done then b
    else
      match e
      case Initialize(q, c) =>
        b.(physical := q, average := c, ledger := [Entry(InitialBalance, q, Some(c), Some(TotalCost(q, c)))])
      case Purchase(q, c) =>
        Balance(b.physical + q, BlendedAverage(b.physical, b.average, q, c), Some(c),
          b.ledger + [Entry(Restock, q, Some(c), Some(TotalCost(q, c)))])
      case Adjust(d) =>
        b.(physical := b.physical + d, ledger := b.ledger + [Entry(ManualAdjustment, d, None, None)])
  }

  function Run(b: Balance, events: seq<Event>, mayGoNegative: bool): Balance
    requires forall i :: 0 <= i < |events| ==> ValidEvent(events[i])
  {
    if events == [] then b
    else After(Run(b, events[..|events| - 1], mayGoNegative), events[|events| - 1], mayGoNegative)
  }

  function Ledger(entries: seq<Entry>): int {
    if entries == [] then 0 else Ledger(entries[..|entries| - 1]) + entries[|entries| - 1].change
  }

  ghost predicate Consistent(b: Balance, mayGoNegative: bool) {
    && b.physical == Ledger(b.ledger)
    && Representable(b.physical) && Representable(b.average)
    && (b.physical < 0 ==> mayGoNegative)
  }

  /** Every event keeps the balance equal to its ledger, storable, and, for purchased products,
      non-negative. */
  lemma EventKeepsConsistency(b: Balance, e: Event, mayGoNegative: bool)
    requires Consistent(b, mayGoNegative) && ValidEvent(e)
    ensures Consistent(After(b, e, mayGoNegative), mayGoNegative)
  {
    hide HalfUp, BlendedAverage, TotalCost;
    var b' := After(b, e, mayGoNegative);
    if Judge(b, e, mayGoNegative) == Done {
      var n := |b'.ledger| - 1;
      match e
      case Initialize(q, c) => assert b'.ledger[..0] == [];
      case Purchase(q, c) =>
        assert b'.ledger[..n] == b.ledger;
        BlendStaysBetween(b.physical, b.average, q, c, if b.average <= c then b.average else c,
          if b.average <= c then c else b.average);
      case Adjust(d) => assert b'.ledger[..n] == b.ledger;
    }
  }

  lemma {:induction false} RunKeepsConsistency(b: Balance, events: seq<Event>, mayGoNegative: bool)
    requires Consistent(b, mayGoNegative) && forall i :: 0 <= i < |events| ==> ValidEvent(events[i])
    ensures Consistent(Run(b, events, mayGoNegative), mayGoNegative)
  {
    hide Consistent;
    if events != [] {
      RunKeepsConsistency(b, events[..|events| - 1], mayGoNegative);
      EventKeepsConsistency(Run(b, events[..|events| - 1], mayGoNegative), events[|events| - 1], mayGoNegative);
    }
  }

  predicate CostWithin(e: Event, lo: nat, hi: nat) {
    e.Adjust? || lo <= e.unitCost <= hi
  }

  /** Over any run the average stays among the starting average and the recorded unit costs. */
  lemma {:induction false} AverageStaysWithin(b: Balance, events: seq<Event>, mayGoNegative: bool, lo: nat, hi: nat)
    requires lo <= b.average <= hi
    requires forall i :: 0 <= i < |events| ==> ValidEvent(events[i]) && CostWithin(events[i], lo, hi)
    ensures lo <= Run(b, events, mayGoNegative).average <= hi
  {
    if events != [] {
      hide BlendedAverage, HalfUp;
      var n := |events| - 1;
      AverageStaysWithin(b, events[..n], mayGoNegative, lo, hi);
      var before, e := Run(b, events[..n], mayGoNegative), events[n];
      assert CostWithin(e, lo, hi);
      if e.Purchase? {
        BlendStaysBetween(before.physical, before.average, e.quantity, e.unitCost, lo, hi);
      }
    }
  }

  // ---- drift of the weighted average ----

  /** Quantity after the first `n` purchases. */
  function RunningQuantity(start: nat, purchases: seq<Event>, n: nat): nat
    requires n <= |purchases| && forall i :: 0 <= i < |purchases| ==> purchases[i].Purchase?
  {
    if n == 0 then start else RunningQuantity(start, purchases, n - 1) + purchases[n - 1].quantity
  }

  /** The running quantities after each of the first `n` purchases, added up. */
  function RunningSum(start: nat, purchases: seq<Event>, n: nat): nat
    requires n <= |purchases| && forall i :: 0 <= i < |purchases| ==> purchases[i].Purchase?
  {
    if n == 0 then 0 else RunningSum(start, purchases, n - 1) + RunningQuantity(start, purchases, n)
  }

  /** What was really paid: opening value plus quantity times unit cost of every purchase. */
  function TrueValue(start: nat, average: nat, purchases: seq<Event>, n: nat): nat
    requires n <= |purchases| && forall i :: 0 <= i < |purchases| ==> purchases[i].Purchase?
  {
    if n == 0 then start * average
    else TrueValue(start, average, purchases, n - 1) + purchases[n - 1].quantity * purchases[n - 1].unitCost
  }

  ghost predicate AllAccepted(b: Balance, purchases: seq<Event>, mayGoNegative: bool) {
    && (forall i :: 0 <= i < |purchases| ==> purchases[i].Purchase? && ValidEvent(purchases[i]))
    && (forall n :: 0 <= n < |purchases| ==>
      Judge(Run(b, purchases[..n], mayGoNegative), purchases[n], mayGoNegative) == Done)
  }

  lemma NextPurchase(b: Balance, purchases: seq<Event>, mayGoNegative: bool, n: nat)
    requires n < |purchases| && AllAccepted(b, purchases, mayGoNegative)
    ensures
      var before, end, e := Run(b, purchases[..n], mayGoNegative), Run(b, purchases[..n + 1], mayGoNegative),
        purchases[n];
      && e.quantity > 0
      && end.physical == before.physical + e.quantity
      && end.average == BlendedAverage(before.physical, before.average, e.quantity, e.unitCost)
  {
    hide BlendedAverage;
    var longer := purchases[..n + 1];
    assert longer[..n] == purchases[..n] && longer[n] == purchases[n];
    assert Judge(Run(b, purchases[..n], mayGoNegative), purchases[n], mayGoNegative) == Done;
  }

  lemma RunningStep(b: Balance, purchases: seq<Event>, n: nat)
    requires n < |purchases| && b.physical >= 0 && forall i :: 0 <= i < |purchases| ==> purchases[i].Purchase?
    ensures
      var e := purchases[n];
      && RunningQuantity(b.physical, purchases, n + 1) == RunningQuantity(b.physical, purchases, n) + e.quantity
      && RunningSum(b.physical, purchases, n + 1)
         == RunningSum(b.physical, purchases, n) + RunningQuantity(b.physical, purchases, n + 1)
      && TrueValue(b.physical, b.average, purchases, n + 1)
         == TrueValue(b.physical, b.average, purchases, n) + e.quantity * e.unitCost
  {
  }

  /** What the stock is booked at. */
  function Value(b: Balance): int { b.physical * b.average }

  lemma PurchaseKeepsValue(before: Balance, end: Balance, e: Event)
    requires before.physical > 0 && e.Purchase? && e.quantity > 0 && end.physical == before.physical + e.quantity
    requires end.average == BlendedAverage(before.physical, before.average, e.quantity, e.unitCost)
    ensures 0 - end.physical <= 2 * (Value(end) - (Value(before) + e.quantity * e.unitCost)) <= end.physical
  {
    hide BlendedAverage;
    BlendKeepsValue(before.physical, before.average, e.quantity, e.unitCost);
  }

  lemma DriftStep(before: int, after: int, held: int, paid: int, trueBefore: int, sum: int)
    requires -held <= 2 * (after - (before + paid)) <= held
    requires -sum <= 2 * (before - trueBefore) <= sum
    ensures -(sum + held) <= 2 * (after - (trueBefore + paid)) <= sum + held
  {
  }

  /** Over a run of purchases from positive stock, quantity times average drifts from the true value
      by at most half a micro-unit times the sum of the running quantities. */
  lemma {:induction false} DriftIsBounded(b: Balance, purchases: seq<Event>, mayGoNegative: bool, n: nat)
    requires b.physical > 0 && AllAccepted(b, purchases, mayGoNegative) && n <= |purchases|
    ensures
      var end := Run(b, purchases[..n], mayGoNegative);
      var drift := Value(end) - TrueValue(b.physical, b.average, purchases, n);
      && end.physical == RunningQuantity(b.physical, purchases, n) > 0
      && 0 - RunningSum(b.physical, purchases, n) <= 2 * drift <= RunningSum(b.physical, purchases, n)
  {
    if n == 0 {
      assert purchases[..0] == [];
    } else {
      hide BlendedAverage, Run, Judge, RunningSum, TrueValue, RunningQuantity, AllAccepted, Value;
      DriftIsBounded(b, purchases, mayGoNegative, n - 1);
      var before, end := Run(b, purchases[..n - 1], mayGoNegative), Run(b, purchases[..n], mayGoNegative);
      var e := purchases[n - 1];
      NextPurchase(b, purchases, mayGoNegative, n - 1);
      RunningStep(b, purchases, n - 1);
      PurchaseKeepsValue(before, end, e);
      DriftStep(Value(before), Value(end), end.physical, e.quantity * e.unitCost,
        TrueValue(b.physical, b.average, purchases, n - 1), RunningSum(b.physical, purchases, n - 1));
    }
  }

  // ---- the stored row ----

  class StockRow {
    const mayGoNegative: bool
    var physical: int
    var average: nat
    var latest: Option<nat>
    var ledger: seq<Entry>

    ghost function State(): Balance
      reads this
    {
      Balance(physical, average, latest, ledger)
    }

    ghost predicate Valid()
      reads this
    {
      Consistent(State(), mayGoNegative)
    }

    constructor (mayGoNegative: bool)
      ensures Valid() && this.mayGoNegative == mayGoNegative && State() == Balance(0, 0, None, [])
    {
      this.mayGoNegative := mayGoNegative;
      physical, average, latest, ledger := 0, 0, None, [];
    }

    method RecordInitialBalance(quantity: nat, unitCost: nat) returns (outcome: Outcome)
      requires Valid() && ValidEvent(Initialize(quantity, unitCost))
      modifies this
      ensures Valid() && outcome == old(Judge(State(), Initialize(quantity, unitCost), mayGoNegative))
      ensures State() == old(After(State(), Initialize(quantity, unitCost), mayGoNegative))
    {
      hide Round50, BlendedAverage, HalfUp, Ledger;
      EventKeepsConsistency(State(), Initialize(quantity, unitCost), mayGoNegative);
      if ledger != [] { return AlreadyInitialized; }
      var totalCost := HalfUp(quantity * unitCost, 1000000);
      if !Representable(totalCost) { return OutOfRange; }
      physical, average := quantity, unitCost;
      ledger := ledger + [Entry(InitialBalance, quantity, Some(unitCost), Some(totalCost))];
      assert ledger == [Entry(InitialBalance, quantity, Some(unitCost), Some(totalCost))];
      return Done;
    }

    method RestockRow(quantity: nat, unitCost: nat) returns (outcome: Outcome)
      requires Valid() && ValidEvent(Purchase(quantity, unitCost))
      modifies this
      ensures Valid() && outcome == old(Judge(State(), Purchase(quantity, unitCost), mayGoNegative))
      ensures State() == old(After(State(), Purchase(quantity, unitCost), mayGoNegative))
    {
      hide Round50, BlendedAverage, HalfUp, Ledger;
      EventKeepsConsistency(State(), Purchase(quantity, unitCost), mayGoNegative);
      AverageIsExact(physical, average, quantity, unitCost);
      BlendStaysBetween(physical, average, quantity, unitCost, if average <= unitCost then average else unitCost,
        if average <= unitCost then unitCost else average);
      var newAverage := Micros(RestockAverage(physical, average, quantity, unitCost).value);
      if !Representable(newAverage) { return OutOfRange; }
      var totalCost := HalfUp(quantity * unitCost, 1000000);
      if !Representable(totalCost) { return OutOfRange; }
      var newPhysical := physical + quantity;
      if !Representable(newPhysical) { return OutOfRange; }
      physical, average, latest := newPhysical, newAverage, Some(unitCost);
      ledger := ledger + [Entry(Restock, quantity, Some(unitCost), Some(totalCost))];
      return Done;
    }

    method AdjustRow(change: int) returns (outcome: Outcome)
      requires Valid() && ValidEvent(Adjust(change))
      modifies this
      ensures Valid() && outcome == old(Judge(State(), Adjust(change), mayGoNegative))
      ensures State() == old(After(State(), Adjust(change), mayGoNegative))
    {
      hide Round50, BlendedAverage, HalfUp, TotalCost, Ledger;
      EventKeepsConsistency(State(), Adjust(change), mayGoNegative);
      var newPhysical := physical + change;
      if !Representable(newPhysical) { return OutOfRange; }
      if newPhysical < 0 && !mayGoNegative { return InsufficientBalance; }
      physical := newPhysical;
      ledger := ledger + [Entry(ManualAdjustment, change, None, None)];
      return Done;
    }
  }
}
