/** The whole planning state, recalculation of several products, and readiness. */
module PlanningSystem {
  import opened Tallies
  import opened PlanningState
  import opened Recalculation
  import opened PlanningInvariant
  import opened RecalculationTheorems

  datatype Account = IngredientAccount(id: nat) | PurchasedAccount(id: nat) | LotAccount(id: nat)

  datatype Entry = Entry(account: Account, change: int)

  /** `stock` holds a row per purchased product whose inventory exists. */
  datatype State = State(
    world: World, closures: map<nat, Closure>, stock: map<nat, int>, ingredients: map<nat, int>,
    ledger: seq<Entry>, generation: nat)

  datatype Reason =
    | NotFound | WrongStatus | NotConfirmable | ProductionLocked | SetGrew | Unacknowledged | Invalid
    | DemandDateConflict | ValueOverflow | KeyError | CoverageLost | StockFailure | InvariantViolated | AlreadyStarted

  /** A refused attempt is rolled back: it has no state. */
  datatype Attempt = Done(state: State) | Refused(reason: Reason)

  function ClosureOf(s: State, productId: nat): Closure {
    if productId in s.closures then s.closures[productId] else EMPTY
  }

  function PurchasedClosure(w: World, productId: nat): Closure {
    EMPTY.(reservations := Reservations(w, productId))
  }

  // ---- recalculation ----

  ghost function Recalculate(s: State, productId: nat, today: int, impaired: set<nat>): Attempt {
    if productId !in s.world.products then Done(s)
    else if s.world.products[productId].Purchased? then
      Done(s.(closures := s.closures[productId := PurchasedClosure(s.world, productId)]))
    else
      var c := ClosureOf(s, productId);
      var result := ComputeFor(c, s.world, productId, today, s.generation, impaired);
      match result
      case Projection(_, _, _, _) =>
        Done(s.(closures := s.closures[productId := Replace(c, s.world, result)], generation := s.generation + 1))
      case DemandConflict => Refused(DemandDateConflict)
      case MissingKey => Refused(KeyError)
      case Overflow => Refused(ValueOverflow)
  }

  ghost function RecalculateAll(s: State, products: seq<nat>, today: int): Attempt
    decreases products
  {
    if products == [] then Done(s)
    else
      var first := Recalculate(s, products[0], today, {});
      if first.Done? then RecalculateAll(first.state, products[1..], today) else first
  }

  // ---- readiness ----

  function ReservedQuantity(r: Reservation): nat { r.quantity }

  /** What is reserved beyond the purchased stock; a missing row is no stock. */
  ghost function PurchasedShortage(s: State, productId: nat): nat {
    Shortage(SumBy(ClosureOf(s, productId).reservations, ReservedQuantity),
      if productId in s.stock then s.stock[productId] else 0)
  }

  ghost predicate LineSatisfied(s: State, lineId: nat)
    requires lineId in s.world.lines
  {
    match s.world.lines[lineId].source
    case CustomItem(required, satisfied) => !required || satisfied
    case OfProduct(p) =>
      && p in s.world.products
      && if s.world.products[p].Produced?
         then ProducedFor(s.world.outputs, lineId)
           + OnLine(ClosureOf(s, p).rows, lineId) >= s.world.lines[lineId].quantity
         else PurchasedShortage(s, p) == 0
  }

  function LinesOfOrder(w: World, orderId: nat): set<nat> {
    set l | l in w.lines && w.lines[l].orderId == orderId
  }

  ghost predicate Satisfied(s: State, orderId: nat) {
    && LinesOfOrder(s.world, orderId) != {}
    && forall l :: l in LinesOfOrder(s.world, orderId) ==> LineSatisfied(s, l)
  }

  ghost function Evaluated(s: State, orderId: nat): Order
    requires orderId in s.world.orders
  {
    if Live(s.world, orderId)
    then s.world.orders[orderId].(status := if Satisfied(s, orderId) then Ready else Confirmed)
    else s.world.orders[orderId]
  }

  /** Promotes and demotes every order in `orders`. Satisfaction does not depend on any status, so
      evaluating them one after the other is evaluating them at once. */
  ghost function EvaluateAll(s: State, orders: set<nat>): State {
    s.(world := s.world.(orders := map o | o in s.world.orders ::
      if o in orders then Evaluated(s, o) else s.world.orders[o]))
  }

  function ProductsOfOrder(w: World, orderId: nat): set<nat> {
    set l | l in LinesOfOrder(w, orderId) && w.lines[l].source.OfProduct? :: w.lines[l].source.productId
  }

  /** Every Confirmed or Ready order with a line of one of `products`. */
  function Candidates(w: World, products: set<nat>): set<nat> {
    set l | l in w.lines && w.lines[l].source.OfProduct? && w.lines[l].source.productId in products
            && Live(w, w.lines[l].orderId) :: w.lines[l].orderId
  }

  // ---- the invariant ----

  ghost predicate ProductClean(s: State, p: nat) {
    p in s.world.products ==>
      if s.world.products[p].Produced?
      then Clean(ClosureOf(s, p), s.world, p, s.generation) && ClosureOf(s, p).reservations == {}
      else ClosureOf(s, p) == PurchasedClosure(s.world, p)
  }

  ghost predicate ProductBase(s: State, p: nat, impaired: set<nat>) {
    p in s.world.products && s.world.products[p].Produced? ==>
      Base(ClosureOf(s, p), s.world, p, s.generation, impaired) && ClosureOf(s, p).reservations == {}
  }

  ghost predicate ReadySatisfied(s: State) {
    forall o :: o in s.world.orders && s.world.orders[o].status == Ready ==> Satisfied(s, o)
  }

  function LedgerSum(entries: seq<Entry>, account: Account): int {
    if entries == [] then 0
    else
      var last := entries[|entries| - 1];
      LedgerSum(entries[..|entries| - 1], account) + if last.account == account then last.change else 0
  }

  function BalanceOf(s: State, account: Account): int {
    match account
    case IngredientAccount(i) => if i in s.ingredients then s.ingredients[i] else 0
    case PurchasedAccount(p) => if p in s.stock then s.stock[p] else 0
    case LotAccount(l) => if l in s.world.lots then s.world.lots[l].physical else 0
  }

  ghost predicate LedgerOk(s: State) {
    forall account :: BalanceOf(s, account) == LedgerSum(s.ledger, account)
  }

  /** Every balance is its ledger; purchased stock is never negative. */
  ghost predicate StockOk(s: State) {
    && LedgerOk(s)
    && (forall p :: p in s.stock ==> s.stock[p] >= 0)
  }

  ghost predicate AllClean(s: State) {
    && WorldOk(s.world)
    && s.closures.Keys <= s.world.products.Keys
    && forall p :: ProductClean(s, p)
  }

  ghost predicate Inv(s: State) {
    AllClean(s) && ReadySatisfied(s) && StockOk(s)
  }

  lemma InvIsClean(s: State)
    requires Inv(s)
    ensures AllClean(s) && WorldOk(s.world)
  {
  }

  // ---- recalculating one and many ----

  lemma CleanLater(c: Closure, w: World, p: nat, g: nat, g': nat)
    requires Clean(c, w, p, g) && g <= g'
    ensures Clean(c, w, p, g')
  {
    hide RowOk, RunOk, ProperLink, LotCaps, LineCaps, Meets, ClaimsMeet;
    forall r | r in c.reqs ensures ReqOk(r, w, p, g') { assert ReqOk(r, w, p, g); }
  }

  ghost predicate SameButClosures(s: State, s': State) {
    && s'.world == s.world && s'.stock == s.stock && s'.ingredients == s.ingredients && s'.ledger == s.ledger
    && s'.generation >= s.generation
  }

  /** One recalculation: it never hits a missing key, it only replaces this product's closure, and it
      leaves that closure clean. */
  lemma RecalculateOne(s: State, p: nat, today: int, impaired: set<nat>)
    requires WorldOk(s.world) && p in s.world.products && ProductBase(s, p, impaired)
    ensures Recalculate(s, p, today, impaired) != Refused(KeyError)
    ensures Recalculate(s, p, today, impaired).Done? ==>
      var s' := Recalculate(s, p, today, impaired).state;
      && SameButClosures(s, s') && s'.closures == s.closures[p := ClosureOf(s', p)] && ProductClean(s', p)
  {
    hide ComputeFor, Replace, Base, Clean, WorldOk;
    if s.world.products[p].Produced? {
      BaseHasSkeleton(ClosureOf(s, p), s.world, p, s.generation, impaired);
      NoKeyIsMissing(ClosureOf(s, p), s.world, p, today, s.generation, impaired);
      if Recalculate(s, p, today, impaired).Done? {
        RebuildIsClean(ClosureOf(s, p), s.world, p, today, s.generation, impaired);
        KeepsReservations(ClosureOf(s, p), s.world,
          ComputeFor(ClosureOf(s, p), s.world, p, today, s.generation, impaired));
      }
    }
  }

  lemma KeepsReservations(c: Closure, w: World, p: Projection)
    requires p.Projection?
    ensures Replace(c, w, p).reservations == c.reservations
  {
  }

  lemma FirstRecalculated(s: State, p: nat, today: int)
    requires WorldOk(s.world) && ProductBase(s, p, {}) && s.closures.Keys <= s.world.products.Keys
    ensures Recalculate(s, p, today, {}) != Refused(KeyError)
    ensures Recalculate(s, p, today, {}).Done? ==>
      var s' := Recalculate(s, p, today, {}).state;
      && SameButClosures(s, s') && s'.closures.Keys <= s.world.products.Keys && ProductClean(s', p)
      && (forall q :: q != p ==> ClosureOf(s', q) == ClosureOf(s, q))
  {
    hide ProductClean, ProductBase, WorldOk;
    if p in s.world.products {
      RecalculateOne(s, p, today, {});
      hide Recalculate;
    } else {
      NoSuchProduct(s, p);
    }
  }

  lemma NoSuchProduct(s: State, p: nat)
    requires p !in s.world.products
    ensures ProductClean(s, p)
  {
  }

  /** Recalculating a product leaves the others as clean as they were. */
  lemma OthersStayClean(s: State, s': State, q: nat)
    requires SameButClosures(s, s') && ClosureOf(s', q) == ClosureOf(s, q)
    ensures ProductClean(s, q) ==> ProductClean(s', q)
    ensures ProductBase(s, q, {}) ==> ProductBase(s', q, {})
  {
    hide Clean, Base;
    if ProductClean(s, q) && q in s.world.products && s.world.products[q].Produced? {
      CleanLater(ClosureOf(s, q), s.world, q, s.generation, s'.generation);
    }
    if ProductBase(s, q, {}) && q in s.world.products && s.world.products[q].Produced? {
      BaseLater(ClosureOf(s, q), s.world, q, s.generation, s'.generation);
    }
  }

  lemma BaseLater(c: Closure, w: World, p: nat, g: nat, g': nat)
    requires Base(c, w, p, g, {}) && g <= g'
    ensures Base(c, w, p, g', {})
  {
    hide RowOk, RunOk, ProperLink, FixedLotCaps, FixedLineCaps;
    forall r | r in c.reqs ensures ReqOk(r, w, p, g') { assert ReqOk(r, w, p, g); }
  }

  /** Recalculating a list of products makes every product clean, if those left out already were. */
  lemma {:induction false} RecalculateMany(s: State, products: seq<nat>, today: int)
    requires WorldOk(s.world) && s.closures.Keys <= s.world.products.Keys
    requires forall p :: p in products ==> ProductBase(s, p, {})
    requires forall p :: p !in products ==> ProductClean(s, p)
    requires forall i, k :: 0 <= i < k < |products| ==> products[i] != products[k]
    ensures RecalculateAll(s, products, today) != Refused(KeyError)
    ensures RecalculateAll(s, products, today).Done? ==>
      var s' := RecalculateAll(s, products, today).state;
      && SameButClosures(s, s') && s'.closures.Keys <= s.world.products.Keys
      && (forall p :: ProductClean(s', p))
      && (forall p :: p !in products ==> ClosureOf(s', p) == ClosureOf(s, p))
    decreases products
  {
    if products != [] {
      hide Recalculate, ProductClean, ProductBase, WorldOk;
      var p, rest := products[0], products[1..];
      FirstRecalculated(s, p, today);
      var first := Recalculate(s, p, today, {});
      if first.Done? {
        forall q | q in rest ensures ProductBase(first.state, q, {}) && q != p {
          var i :| 0 <= i < |rest| && rest[i] == q;
          assert products[i + 1] != products[0];
          OthersStayClean(s, first.state, q);
        }
        forall q | q !in rest ensures ProductClean(first.state, q) {
          if q != p { OthersStayClean(s, first.state, q); }
        }
        RecalculateMany(first.state, rest, today);
      }
    }
  }
}
