/** The transactions on orders, runs and stock. Each attempt runs against a set of orders it has
    locked and either yields the committed state or is refused and rolled back. An attempt is one step:
    what it checks, it checks in the state it writes. */
module Lifecycle {
  import opened Sorting
  import opened Tallies
  import opened PlanningState
  import opened Recalculation
  import opened PlanningSystem
  import Sharing = ProductionOutput
  import Decimals = DecimalArithmetic

  // ---- warnings ----

  datatype Fingerprint =
    | MissingTime
    | MissingRecipe(productId: nat)
    | PurchasedShort(productId: nat, quantity: nat)
    | IngredientShort(ingredientId: nat, quantity: nat)

  function ClaimQuantity(k: Claim): nat { k.quantity }

  /** Every reservation of an ingredient, whoever holds it. */
  function ClaimsOn(s: State, ingredientId: nat): set<Claim> {
    set p, k | p in s.closures && k in s.closures[p].claims && k.ingredientId == ingredientId :: k
  }

  ghost function IngredientShortage(s: State, ingredientId: nat): nat {
    Shortage(SumBy(ClaimsOn(s, ingredientId), ClaimQuantity),
      if ingredientId in s.ingredients then s.ingredients[ingredientId] else 0)
  }

  /** Ingredients the rebuilt requirements of `products` reserve. */
  function CandidateIngredients(s: State, products: set<nat>): set<nat> {
    set p, k | p in products && k in ClosureOf(s, p).claims && k.req !in Protected(s.world) :: k.ingredientId
  }

  predicate LacksRecipe(s: State, productId: nat) {
    exists r :: r in ClosureOf(s, productId).reqs && r !in Protected(s.world)
      && ClosureOf(s, productId).reqs[r].plan.None?
  }

  ghost function Fingerprints(s: State, products: set<nat>, missingTime: bool): set<Fingerprint> {
    (if missingTime then {MissingTime} else {})
    + (set p | p in products && LacksRecipe(s, p) :: MissingRecipe(p))
    + (set p | p in products && PurchasedShortage(s, p) > 0 :: PurchasedShort(p, PurchasedShortage(s, p)))
    + (set i | i in CandidateIngredients(s, products) && i in s.ingredients && IngredientShortage(s, i) > 0
         :: IngredientShort(i, IngredientShortage(s, i)))
  }

  // ---- shared steps ----

  function WithStatus(s: State, o: nat, status: Status): State
    requires o in s.world.orders
  {
    s.(world := s.world.(orders := s.world.orders[o := s.world.orders[o].(status := status)]))
  }

  /** Recalculate the products in id order, then evaluate every locked order. */
  ghost function Settle(s: State, products: set<nat>, locked: set<nat>, today: int): Attempt {
    var r := RecalculateAll(s, Ascending(products), today);
    if r.Done? then Done(EvaluateAll(r.state, locked)) else r
  }

  predicate LineLocked(s: State, l: nat)
    requires l in s.world.lines
  {
    && s.world.lines[l].source.OfProduct?
    && l in LockedLines(ClosureOf(s, s.world.lines[l].source.productId), s.world)
  }

  predicate OrderLocked(s: State, o: nat) {
    exists l :: l in LinesOfOrder(s.world, o) && LineLocked(s, l)
  }

  // ---- orders ----

  ghost function Confirm(s: State, o: nat, locked: set<nat>, today: int, acknowledged: set<Fingerprint>): Attempt {
    var w := s.world;
    if o !in w.orders then Refused(NotFound)
    else if w.orders[o].status != Draft then Refused(WrongStatus)
    else if LinesOfOrder(w, o) == {} || w.orders[o].date.None? then Refused(NotConfirmable)
    else
      var products := ProductsOfOrder(w, o);
      if !(Candidates(w, products) + {o} <= locked) then Refused(SetGrew)
      else
        var r := RecalculateAll(WithStatus(s, o, Confirmed), Ascending(products), today);
        if r.Refused? then r
        else if !(Fingerprints(r.state, products, w.orders[o].time.None?) <= acknowledged) then Refused(Unacknowledged)
        else Done(EvaluateAll(r.state, locked))
  }

  /** What the client submits for an edit: header and the complete set of lines. */
  datatype Payload = Payload(date: Option<int>, time: Option<nat>, lines: map<nat, Line>)

  /** References are valid: retained lines belong to the order and keep their type, new lines are new,
      quantities are positive, products exist, and a changed custom item starts unsatisfied. */
  predicate ValidPayload(w: World, o: nat, p: Payload) {
    forall l :: l in p.lines ==> ValidLine(w, o, l, p.lines[l])
  }

  predicate ValidLine(w: World, o: nat, l: nat, line: Line) {
    && line.orderId == o && line.quantity > 0
    && (line.source.OfProduct? ==> line.source.productId in w.products)
    && (l in w.lines ==>
          && w.lines[l].orderId == o
          && (line.source.OfProduct? <==> w.lines[l].source.OfProduct?)
          && (line.source.CustomItem? ==> line == w.lines[l] || !line.source.satisfied))
    && (l !in w.lines && line.source.CustomItem? ==> !line.source.satisfied)
  }

  /** A retained product line whose product or quantity differs. */
  predicate LineChanged(w: World, p: Payload, l: nat) {
    && l in w.lines && l in p.lines && w.lines[l].source.OfProduct?
    && (p.lines[l].source != w.lines[l].source || p.lines[l].quantity != w.lines[l].quantity)
  }

  predicate HeaderChanged(order: Order, p: Payload) {
    p.date != order.date || p.time != order.time
  }

  /** `touched` are the retained lines reported as changed, because of product, selling option or
      package quantity: at least those whose product or underlying quantity differs. */
  predicate DemandAffecting(w: World, o: nat, p: Payload, touched: set<nat>)
    requires o in w.orders
  {
    || HeaderChanged(w.orders[o], p)
    || (exists l :: l in LinesOfOrder(w, o) && l !in p.lines)
    || (exists l :: l in p.lines && l !in w.lines)
    || touched != {}
  }

  /** A production-locked line of the order that the edit would remove or change, or any such line
      when the header changes. */
  predicate TouchesLocked(s: State, o: nat, p: Payload, touched: set<nat>)
    requires o in s.world.orders
  {
    exists l :: l in LinesOfOrder(s.world, o) && LineLocked(s, l)
      && (HeaderChanged(s.world.orders[o], p) || l !in p.lines || l in touched)
  }

  function NewProducts(p: Payload): set<nat> {
    set l | l in p.lines && p.lines[l].source.OfProduct? :: p.lines[l].source.productId
  }

  function ReplaceLines(w: World, o: nat, p: Payload): World
    requires o in w.orders
  {
    w.(orders := w.orders[o := w.orders[o].(date := p.date, time := p.time)],
       lines := (map l | l in w.lines && w.lines[l].orderId != o :: w.lines[l]) + p.lines)
  }

  /** A line that was given output cannot be deleted. */
  predicate RemovesProduced(w: World, o: nat, p: Payload) {
    exists x :: x in w.outputs && x.lineId in w.lines && w.lines[x.lineId].orderId == o && x.lineId !in p.lines
  }

  ghost function Edit(
      s: State, o: nat, p: Payload, touched: set<nat>, locked: set<nat>, today: int,
      acknowledged: set<Fingerprint>): Attempt
  {
    var w := s.world;
    if o !in w.orders then Refused(NotFound)
    else if w.orders[o].status != Confirmed then Refused(WrongStatus)
    else if p.lines == map[] || p.date.None? then Refused(NotConfirmable)
    else if !ValidPayload(w, o, p) || (exists l :: LineChanged(w, p, l) && l !in touched)
      || !(touched <= LinesOfOrder(w, o) * p.lines.Keys)
    then Refused(Invalid)
    else if TouchesLocked(s, o, p, touched) then Refused(ProductionLocked)
    else if RemovesProduced(w, o, p) then Refused(Invalid)
    else if !DemandAffecting(w, o, p, touched) then
      if o in locked then Done(s.(world := ReplaceLines(w, o, p))) else Refused(SetGrew)
    else
      var products := ProductsOfOrder(w, o) + NewProducts(p);
      if !(Candidates(w, products) + {o} <= locked) then Refused(SetGrew)
      else
        var r := RecalculateAll(s.(world := ReplaceLines(w, o, p)), Ascending(products), today);
        if r.Refused? then r
        else if !(Fingerprints(r.state, products, p.time.None?) <= acknowledged) then Refused(Unacknowledged)
        else Done(EvaluateAll(r.state, locked))
  }

  /** Creating or editing a Draft: nothing operational depends on it. */
  ghost function SaveDraft(s: State, o: nat, p: Payload): Attempt {
    var w := s.world;
    if o in w.orders && w.orders[o].status != Draft then Refused(WrongStatus)
    else if !ValidPayload(w, o, p) || RemovesProduced(w, o, p) || (o !in w.orders && LinesOfOrder(w, o) != {})
      then Refused(Invalid)
    else
      var w1 := w.(orders := w.orders[o := Order(Draft, p.date, p.time)]);
      Done(s.(world := ReplaceLines(w1, o, p)))
  }

  ghost function Cancel(s: State, o: nat, locked: set<nat>, today: int, acknowledged: bool): Attempt {
    var w := s.world;
    if o !in w.orders then Refused(NotFound)
    else if !Live(w, o) then Refused(WrongStatus)
    else if OrderLocked(s, o) then Refused(ProductionLocked)
    else if (exists x :: x in w.outputs && x.lineId in LinesOfOrder(w, o)) && !acknowledged then Refused(Unacknowledged)
    else
      var products := ProductsOfOrder(w, o);
      if !(Candidates(w, products) + {o} <= locked) then Refused(SetGrew)
      else Settle(WithStatus(s, o, Canceled), products, locked, today)
  }

  /** Setting or clearing the seller's flag on a custom item. */
  ghost function SetManual(s: State, o: nat, l: nat, satisfied: bool): Attempt {
    var w := s.world;
    if o !in w.orders then Refused(NotFound)
    else if !Live(w, o) then Refused(WrongStatus)
    else if l !in LinesOfOrder(w, o) then Refused(NotFound)
    else if !w.lines[l].source.CustomItem? || !w.lines[l].source.required then Refused(Invalid)
    else
      var line := w.lines[l].(source := CustomItem(true, satisfied));
      Done(EvaluateAll(s.(world := w.(lines := w.lines[l := line])), {o}))
  }

  // ---- completing an order ----

  predicate PurchasedLine(w: World, l: nat) {
    l in w.lines && w.lines[l].source.OfProduct? && w.lines[l].source.productId in w.products
    && w.products[w.lines[l].source.productId].Purchased?
  }

  /** The order's lines of one purchased product, as reservations. */
  function PurchasedNeeds(w: World, o: nat, productId: nat): set<Reservation> {
    set l | l in LinesOfOrder(w, o) && PurchasedLine(w, l) && w.lines[l].source.productId == productId
      :: Reservation(l, w.lines[l].quantity)
  }

  ghost function NeededStock(w: World, o: nat, productId: nat): nat {
    SumBy(PurchasedNeeds(w, o, productId), ReservedQuantity)
  }

  /** The order's reservations are exactly its purchased demand. */
  ghost predicate ReservationsMatch(s: State, o: nat) {
    forall l :: l in LinesOfOrder(s.world, o) && PurchasedLine(s.world, l) ==>
      var reserved := set r | r in ClosureOf(s, s.world.lines[l].source.productId).reservations && r.lineId == l;
      SumBy(reserved, ReservedQuantity) == s.world.lines[l].quantity
  }

  function OrderRowSet(c: Closure, w: World, o: nat): set<SurplusRow> {
    set x | x in c.rows && x.lineId in LinesOfOrder(w, o)
  }

  /** The order's surplus rows of one product. */
  function OrderRows(s: State, o: nat, productId: nat): seq<SurplusRow> {
    Pick(ClosureOf(s, productId).rows, OrderRowSet(ClosureOf(s, productId), s.world, o))
  }

  function StockOf(s: State, productId: nat): int {
    if productId in s.stock then s.stock[productId] else 0
  }

  /** No purchased product and no lot is short of what the order takes from it. */
  ghost predicate Sufficient(s: State, o: nat) {
    && (forall l :: l in LinesOfOrder(s.world, o) && PurchasedLine(s.world, l) ==>
          NeededStock(s.world, o, s.world.lines[l].source.productId) <= StockOf(s, s.world.lines[l].source.productId))
    && (forall lot :: lot in s.world.lots ==>
          OnLot(OrderRows(s, o, s.world.lots[lot].productId), lot) <= s.world.lots[lot].physical)
  }

  function PurchasedEntries(w: World, lines: seq<nat>): seq<Entry> {
    if lines == [] then []
    else
      var l := lines[|lines| - 1];
      PurchasedEntries(w, lines[..|lines| - 1])
      + if PurchasedLine(w, l) then [Entry(PurchasedAccount(w.lines[l].source.productId), 0 - w.lines[l].quantity)]
        else []
  }

  function RowEntries(rows: seq<SurplusRow>): seq<Entry> {
    if rows == [] then []
    else
      var x := rows[|rows| - 1];
      RowEntries(rows[..|rows| - 1]) + [Entry(LotAccount(x.lotId), 0 - x.quantity)]
  }

  function AllRowEntries(s: State, o: nat, products: seq<nat>): seq<Entry> {
    if products == [] then []
    else
      AllRowEntries(s, o, products[..|products| - 1]) + RowEntries(OrderRows(s, o, products[|products| - 1]))
  }

  function WithoutOrder(c: Closure, w: World, o: nat): Closure {
    c.(rows := Pick(c.rows, (set x | x in c.rows && x.lineId !in LinesOfOrder(w, o))))
  }

  /** Stock and lots reduced, the order's surplus rows gone, one ledger entry per line or row. */
  ghost function Fulfilled(s: State, o: nat): State {
    var w := s.world;
    s.(world := w.(lots := map lot | lot in w.lots ::
         w.lots[lot].(physical := w.lots[lot].physical - OnLot(OrderRows(s, o, w.lots[lot].productId), lot))),
       closures := map p | p in s.closures :: WithoutOrder(s.closures[p], w, o),
       stock := map p | p in s.stock :: s.stock[p] - NeededStock(w, o, p),
       ledger := s.ledger + PurchasedEntries(w, Ascending(LinesOfOrder(w, o)))
         + AllRowEntries(s, o, Ascending(ProductsOfOrder(w, o))))
  }

  /** The state just before recalculation. */
  ghost function JustCompleted(s: State, o: nat): State
    requires o in s.world.orders
  {
    WithStatus(Fulfilled(s, o), o, Completed)
  }

  ghost predicate PostConditions(s: State, products: set<nat>) {
    && (forall p :: p in products && p in s.stock ==> s.stock[p] >= 0)
    && (forall lot :: lot in s.world.lots && s.world.lots[lot].productId in products ==>
          OnLot(ClosureOf(s, s.world.lots[lot].productId).rows, lot) <= s.world.lots[lot].physical)
  }

  /** `amountsFit`: every derived cost of the completion can be stored. */
  ghost function Complete(s: State, o: nat, locked: set<nat>, today: int, amountsFit: bool): Attempt {
    var w := s.world;
    if o !in w.orders then Refused(NotFound)
    else if w.orders[o].status != Ready then Refused(WrongStatus)
    else if OrderLocked(s, o) then Refused(ProductionLocked)
    else
      var products := ProductsOfOrder(w, o);
      if !(Candidates(w, products) + {o} <= locked) then Refused(SetGrew)
      else if !Satisfied(s, o) || !ReservationsMatch(s, o) then Refused(CoverageLost)
      else if !Sufficient(s, o) then Refused(StockFailure)
      else if !amountsFit then Refused(ValueOverflow)
      else
        var r := Settle(JustCompleted(s, o), products, locked - {o}, today);
        if r.Done? && !PostConditions(r.state, products) then Refused(InvariantViolated) else r
  }

  // ---- production runs ----

  /** The planned output and every planned ingredient quantity can be stored. */
  predicate RunFits(output: nat, planned: map<nat, nat>) {
    && output < Decimals.NUMERIC_18_6_LIMIT
    && forall i :: i in planned ==> planned[i] < Decimals.NUMERIC_18_6_LIMIT
  }

  /** `batches` is the seller's choice, `costsKnown` that every ingredient has a cost basis, and
      `acknowledged` that under-production was accepted. Only the run row is written. */
  ghost function Start(
      s: State, r: ReqId, run: nat, batches: Option<nat>, costsKnown: bool, acknowledged: bool): Attempt
  {
    var w := s.world;
    var c := ClosureOf(s, r.key.productId);
    if r !in c.reqs then Refused(NotFound)
    else if c.reqs[r].plan.None? || r.key.revision.None? || r.key.revision.value !in w.revisions then Refused(Invalid)
    else if r in Protected(w) then Refused(AlreadyStarted)
    else if run in w.runs || !costsKnown then Refused(Invalid)
    else
      var revision := w.revisions[r.key.revision.value];
      var plan := PlanFor(c.reqs[r].remaining, w.revisions, r.key.revision);
      var chosen := if batches.Some? then batches.value else if plan.Some? then plan.value.batches else 0;
      var planned := map i | i in revision.ingredients :: revision.ingredients[i] * chosen;
      if chosen >= INT32_LIMIT then Refused(ValueOverflow)
      else if chosen == 0 then Refused(Invalid)
      else if revision.perBatch * chosen < c.reqs[r].remaining && !acknowledged then Refused(Unacknowledged)
      else if !RunFits(revision.perBatch * chosen, planned) then Refused(ValueOverflow)
      else
        Done(s.(world :=
          w.(runs := w.runs[run := Run(r, r.key.productId, r.key.revision.value, InProduction, planned)])))
  }

  /** The lines a finished run may serve: those of the product on any locked order with a date. */
  function RecipientLines(w: World, productId: nat, locked: set<nat>): set<nat> {
    set l | l in w.lines && w.lines[l].source == OfProduct(productId) && w.lines[l].orderId in locked
            && w.lines[l].orderId in w.orders && w.orders[w.lines[l].orderId].date.Some?
  }

  function OutstandingLine(s: State, productId: nat, l: nat): Sharing.DemandLine
    requires l in s.world.lines && s.world.lines[l].orderId in s.world.orders
  {
    var line := s.world.lines[l];
    var order := s.world.orders[line.orderId];
    Sharing.DemandLine(line.orderId, l, productId, line.quantity, ProducedFor(s.world.outputs, l),
      OnLine(ClosureOf(s, productId).rows, l), DateOf(order), order.time)
  }

  ghost function Outstanding(s: State, productId: nat, locked: set<nat>): seq<Sharing.DemandLine> {
    var ids := Ascending(RecipientLines(s.world, productId, locked));
    AscendingIs(RecipientLines(s.world, productId, locked));
    assert forall i :: 0 <= i < |ids| ==> ids[i] in RecipientLines(s.world, productId, locked);
    seq(|ids|, i requires 0 <= i < |ids| => OutstandingLine(s, productId, ids[i]))
  }

  ghost function SharesOf(s: State, productId: nat, locked: set<nat>, output: nat): seq<Sharing.Share> {
    var sorted := Sharing.InOrder(Outstanding(s, productId, locked), productId);
    Sharing.Shares(sorted, output, |sorted|)
  }

  ghost function ExcessOf(s: State, productId: nat, locked: set<nat>, output: nat): int {
    Sharing.Excess(Sharing.InOrder(Outstanding(s, productId, locked), productId), output)
  }

  function Outputs(run: nat, shares: seq<Sharing.Share>): seq<Output> {
    if shares == [] then []
    else
      var last := shares[|shares| - 1];
      Outputs(run, shares[..|shares| - 1]) + [Output(run, last.lineId, if last.quantity > 0 then last.quantity else 0)]
  }

  /** Actual usage of a planned ingredient: the override or the plan. */
  function Usage(planned: map<nat, nat>, overrides: map<nat, nat>, i: nat): nat
    requires i in planned
  {
    if i in overrides then overrides[i] else planned[i]
  }

  /** Every recorded usage and every ingredient balance it leaves can be stored. */
  predicate UsageFits(s: State, planned: map<nat, nat>, overrides: map<nat, nat>)
    requires planned.Keys <= s.ingredients.Keys
  {
    forall i :: i in planned ==>
      && Usage(planned, overrides, i) < Decimals.NUMERIC_18_6_LIMIT
      && 0 - Decimals.NUMERIC_18_6_LIMIT < s.ingredients[i] - Usage(planned, overrides, i) < Decimals.NUMERIC_18_6_LIMIT
  }

  function UsageEntries(planned: map<nat, nat>, overrides: map<nat, nat>, ids: seq<nat>): seq<Entry> {
    if ids == [] then []
    else
      var i := ids[|ids| - 1];
      UsageEntries(planned, overrides, ids[..|ids| - 1])
      + if i in planned then [Entry(IngredientAccount(i), 0 - Usage(planned, overrides, i))] else []
  }

  ghost function Consumed(s: State, run: nat, overrides: map<nat, nat>): State
    requires run in s.world.runs
  {
    var planned := s.world.runs[run].planned;
    s.(ingredients := map i | i in s.ingredients ::
         s.ingredients[i] - (if i in planned then Usage(planned, overrides, i) else 0),
       ledger := s.ledger + UsageEntries(planned, overrides, Ascending(planned.Keys)))
  }

  /** What a new lot is recorded with. */
  datatype LotFacts = LotFacts(id: nat, producedAt: int, usableThrough: Option<int>, reusable: bool)

  function WithLot(s: State, productId: nat, facts: LotFacts, quantity: nat): State {
    s.(world := s.world.(lots := s.world.lots[
         facts.id := Lot(productId, quantity, facts.usableThrough, facts.producedAt, facts.reusable)]),
       ledger := s.ledger + [Entry(LotAccount(facts.id), quantity)])
  }

  function RunEnded(s: State, run: nat, status: RunStatus): State
    requires run in s.world.runs
  {
    s.(world := s.world.(runs := s.world.runs[run := s.world.runs[run].(status := status)]))
  }

  function WithOutputs(s: State, more: seq<Output>): State {
    s.(world := s.world.(outputs := s.world.outputs + more))
  }

  function WithExcess(s: State, productId: nat, facts: LotFacts, excess: int): State {
    if excess > 0 then WithLot(s, productId, facts, excess) else s
  }

  /** The state just before recalculation: ingredients consumed, run finished, output shared, and
      any excess in a new lot. */
  ghost function JustProduced(
      s: State, run: nat, output: nat, overrides: map<nat, nat>, locked: set<nat>, facts: LotFacts): State
    requires run in s.world.runs
  {
    var p := s.world.runs[run].productId;
    var ended := RunEnded(Consumed(s, run, overrides), run, Finished);
    if output == 0 then ended
    else
      WithExcess(WithOutputs(ended, Outputs(run, SharesOf(s, p, locked, output))), p, facts,
        ExcessOf(s, p, locked, output))
  }

  ghost function Finish(
      s: State, run: nat, output: nat, overrides: map<nat, nat>, locked: set<nat>, today: int, facts: LotFacts): Attempt
  {
    var w := s.world;
    if run !in w.runs then Refused(NotFound)
    else if w.runs[run].status != InProduction then Refused(WrongStatus)
    else if output >= Decimals.NUMERIC_18_6_LIMIT then Refused(ValueOverflow)
    else if !(Candidates(w, {w.runs[run].productId}) <= locked) then Refused(SetGrew)
    else if !(overrides.Keys <= w.runs[run].planned.Keys) || !(w.runs[run].planned.Keys <= s.ingredients.Keys)
      || facts.id in w.lots
    then Refused(Invalid)
    else if !UsageFits(s, w.runs[run].planned, overrides) then Refused(ValueOverflow)
    else Settle(JustProduced(s, run, output, overrides, locked, facts), {w.runs[run].productId}, locked, today)
  }

  ghost function CancelRun(s: State, run: nat, locked: set<nat>, today: int): Attempt {
    var w := s.world;
    if run !in w.runs then Refused(NotFound)
    else if w.runs[run].status != InProduction then Refused(WrongStatus)
    else if !(Candidates(w, {w.runs[run].productId}) <= locked) then Refused(SetGrew)
    else Settle(RunEnded(s, run, Stopped), {w.runs[run].productId}, locked, today)
  }

  // ---- stock ----

  function StockMoved(s: State, p: nat, change: int): State {
    s.(stock := s.stock[p := StockOf(s, p) + change], ledger := s.ledger + [Entry(PurchasedAccount(p), change)])
  }

  /** Restock or adjustment of an existing purchased row, with readiness evaluation. */
  ghost function MoveStock(s: State, p: nat, change: int, locked: set<nat>): Attempt {
    var w := s.world;
    if p !in w.products || !w.products[p].Purchased? || p !in s.stock then Refused(NotFound)
    else if !(Candidates(w, {p}) <= locked) then Refused(SetGrew)
    else if s.stock[p] + change < 0 then Refused(StockFailure)
    else if s.stock[p] + change >= Decimals.NUMERIC_18_6_LIMIT then Refused(ValueOverflow)
    else Done(EvaluateAll(StockMoved(s, p, change), locked))
  }

  /** The first stock of a purchased product: no order is locked and none is evaluated. */
  ghost function FirstStock(s: State, p: nat, quantity: nat): Attempt {
    if p !in s.world.products || !s.world.products[p].Purchased? then Refused(NotFound)
    else if p in s.stock then Refused(Invalid)
    else Done(StockMoved(s, p, quantity))
  }

  /** Any ingredient movement that is recorded in its ledger. */
  ghost function MoveIngredient(s: State, i: nat, change: int): Attempt {
    if i !in s.ingredients then Refused(NotFound)
    else if !(0 - Decimals.NUMERIC_18_6_LIMIT < s.ingredients[i] + change < Decimals.NUMERIC_18_6_LIMIT)
      then Refused(ValueOverflow)
    else Done(s.(ingredients := s.ingredients[i := s.ingredients[i] + change],
      ledger := s.ledger + [Entry(IngredientAccount(i), change)]))
  }

  // ---- surplus lots by hand ----

  ghost function CreateLot(s: State, p: nat, quantity: nat, facts: LotFacts, locked: set<nat>, today: int): Attempt {
    var w := s.world;
    if p !in w.products || !w.products[p].Produced? || facts.id in w.lots then Refused(Invalid)
    else if !(Candidates(w, {p}) <= locked) then Refused(SetGrew)
    else if quantity >= Decimals.NUMERIC_18_6_LIMIT then Refused(ValueOverflow)
    else if locked == {} then Done(WithLot(s, p, facts, quantity))
    else Settle(WithLot(s, p, facts, quantity), {p}, locked, today)
  }

  function LotReduced(s: State, lot: nat, less: nat): State
    requires lot in s.world.lots
  {
    s.(world := s.world.(lots :=
      s.world.lots[lot := s.world.lots[lot].(physical := s.world.lots[lot].physical - less)]),
       ledger := s.ledger + [Entry(LotAccount(lot), 0 - less)])
  }

  /** A locked order is Ready before and not after. */
  predicate Demotes(w: World, w1: World, locked: set<nat>) {
    exists o :: o in locked && o in w.orders && o in w1.orders && w.orders[o].status == Ready
      && w1.orders[o].status != Ready
  }

  /** A line of a locked order is promised less of the product's surplus than before. */
  predicate LosesSurplus(s: State, s1: State, p: nat, locked: set<nat>) {
    exists l :: l in s.world.lines && s.world.lines[l].orderId in locked
      && OnLine(ClosureOf(s1, p).rows, l) < OnLine(ClosureOf(s, p).rows, l)
  }

  /** Reduction only. Below what is promised, only this lot's promises are reopened,
      and the seller must acknowledge what that takes from the locked orders. */
  ghost function ReduceLot(s: State, lot: nat, less: nat, locked: set<nat>, today: int, acknowledged: bool): Attempt {
    var w := s.world;
    if lot !in w.lots then Refused(NotFound)
    else
      var p, left := w.lots[lot].productId, w.lots[lot].physical - less;
      if left < 0 then Refused(StockFailure)
      else if !(Candidates(w, {p}) <= locked) then Refused(SetGrew)
      else if left < OnLot(RunRows(ClosureOf(s, p), w), lot) then Refused(ProductionLocked)
      else if OnLot(ClosureOf(s, p).rows, lot) <= left then Done(LotReduced(s, lot, less))
      else
        var r := Recalculate(LotReduced(s, lot, less), p, today, {lot});
        if r.Refused? then r
        else
          var settled := EvaluateAll(r.state, locked);
          if (Demotes(w, settled.world, locked) || LosesSurplus(s, settled, p, locked)) && !acknowledged
          then Refused(Unacknowledged)
          else if !PostConditions(settled, {p}) then Refused(InvariantViolated)
          else Done(settled)
  }

  /** A new current recipe revision only matters to demand linked from now on. */
  function SetCurrent(s: State, p: nat, revision: nat): Attempt {
    if p !in s.world.products || !s.world.products[p].Produced? || revision !in s.world.revisions then Refused(Invalid)
    else Done(s.(world := s.world.(products := s.world.products[p := s.world.products[p].(current := Some(revision))])))
  }
}
