/** The rows each workflow locks, in the order its code asks for them, read off the planning state; that
    each such list climbs one global order or re-takes a row it holds; and that transactions following
    such lists can wait for each other but never in a circle. */
module LockOrder {
  import opened Sorting
  import opened Tallies
  import opened PlanningState
  import opened PlanningInvariant
  import opened PlanningSystem
  import opened Lifecycle
  import opened ActiveRuns

  datatype Lock =
    | RunRow(id: nat)
    | OrderRow(id: nat)
    | CustomerRow(id: nat)
    | ProductRow(id: nat)
    | RequirementRow(req: ReqId)
    | OptionRow(id: nat)
    | RecipeRow(product: nat)
    | IngredientRow(id: nat)
    | LotRow(product: nat, id: nat)
    | StockRow(product: nat)

  /** Kinds in order; rows of a kind by id; lots, then purchased stock, product by product. No transaction
      locks two requirements. */
  function Rank(x: Lock): Key {
    match x
    case RunRow(id) => Key(0, id, 0, 0)
    case OrderRow(id) => Key(1, id, 0, 0)
    case CustomerRow(id) => Key(2, id, 0, 0)
    case ProductRow(id) => Key(3, id, 0, 0)
    case RequirementRow(req) => Key(4, req.key.productId, 0, 0)
    case OptionRow(id) => Key(5, id, 0, 0)
    case RecipeRow(p) => Key(6, p, 0, 0)
    case IngredientRow(id) => Key(7, id, 0, 0)
    case LotRow(p, id) => Key(8, p, 0, id)
    case StockRow(p) => Key(8, p, 1, 0)
  }

  predicate Below(x: Lock, y: Lock) { Less(Rank(x), Rank(y)) }

  // ---- requests in order ----

  /** Every row is above all rows asked for before it, or one of them. */
  ghost predicate Legal(requests: seq<Lock>) {
    forall k :: 0 <= k < |requests| ==>
      requests[k] in requests[..k] || forall i :: 0 <= i < k ==> Below(requests[i], requests[k])
  }

  ghost predicate Climbs(requests: seq<Lock>) {
    forall i, k :: 0 <= i < k < |requests| ==> Below(requests[i], requests[k])
  }

  /** Climbs, through kinds from `low` to below `high`. */
  ghost predicate Within(requests: seq<Lock>, low: int, high: int) {
    Climbs(requests) && forall i :: 0 <= i < |requests| ==> low <= Rank(requests[i]).a < high
  }

  lemma Onward(a: seq<Lock>, b: seq<Lock>, low: int, middle: int, high: int)
    requires Within(a, low, middle) && Within(b, middle, high) && low <= middle <= high
    ensures Within(a + b, low, high)
  {
  }

  lemma Wider(a: seq<Lock>, low: int, high: int, low': int, high': int)
    requires Within(a, low, high) && low' <= low && high <= high'
    ensures Within(a, low', high')
  {
  }

  lemma ClimbThenRetake(requests: seq<Lock>, again: seq<Lock>)
    requires Climbs(requests) && forall x :: x in again ==> x in requests
    ensures Legal(requests + again)
  {
    var all := requests + again;
    forall k | 0 <= k < |all| ensures all[k] in all[..k] || forall i :: 0 <= i < k ==> Below(all[i], all[k]) {
      if k >= |requests| {
        assert again[k - |requests|] in again;
        var i :| 0 <= i < |requests| && requests[i] == all[k];
        assert all[..k][i] == all[k];
      }
    }
  }

  // ---- rows of one table ----

  datatype Table = Runs | Orders | Customers | Products | Options | Recipes | Ingredients | LotsOf(product: nat)

  function RowOf(table: Table, id: nat): Lock {
    match table
    case Runs => RunRow(id)
    case Orders => OrderRow(id)
    case Customers => CustomerRow(id)
    case Products => ProductRow(id)
    case Options => OptionRow(id)
    case Recipes => RecipeRow(id)
    case Ingredients => IngredientRow(id)
    case LotsOf(p) => LotRow(p, id)
  }

  /** One query, ordered by id. */
  ghost function Each(ids: set<nat>, table: Table): seq<Lock> {
    seq(|Ascending(ids)|, i requires 0 <= i < |Ascending(ids)| => RowOf(table, Ascending(ids)[i]))
  }

  lemma EachClimbs(ids: set<nat>, table: Table, kind: int)
    requires Rank(RowOf(table, 0)).a == kind
    ensures Within(Each(ids, table), kind, kind + 1)
  {
    AscendingIs(ids);
  }

  lemma EachMembers(ids: set<nat>, table: Table, x: nat)
    ensures x in ids ==> RowOf(table, x) in Each(ids, table)
    ensures forall y :: y in Each(ids, table) ==> exists z: nat :: z in ids && y == RowOf(table, z)
  {
    AscendingIs(ids);
    if x in ids {
      var i :| 0 <= i < |Ascending(ids)| && Ascending(ids)[i] == x;
      assert Each(ids, table)[i] == RowOf(table, x);
    }
    forall y | y in Each(ids, table) ensures exists z: nat :: z in ids && y == RowOf(table, z) {
      var i :| 0 <= i < |Each(ids, table)| && Each(ids, table)[i] == y;
      assert Ascending(ids)[i] in ids;
    }
  }

  // ---- the shared parts of the lock graph ----

  /** Revisions whose ingredients a recalculation of `p` may reserve: the current one and every one an
      existing link is pinned to. */
  function Participating(s: State, p: nat): set<nat> {
    (if p in s.world.products && s.world.products[p].Produced? && s.world.products[p].current.Some?
     then {s.world.products[p].current.value} else {})
    + (set k | k in ClosureOf(s, p).links && k.req.key.revision.Some? :: k.req.key.revision.value)
  }

  function LockedIngredients(s: State, p: nat): set<nat> {
    set v, i | v in Participating(s, p) && v in s.world.revisions && i in s.world.revisions[v].ingredients :: i
  }

  function WithRecipe(s: State, products: set<nat>): set<nat> { set p | p in products && Participating(s, p) != {} }

  function IngredientsAmong(s: State, products: set<nat>): set<nat> {
    set p, i | p in products && i in LockedIngredients(s, p) :: i
  }

  /** The recipe of every product that has one, then the ingredients of all of them together. */
  ghost function RecipeAndIngredientRows(s: State, products: set<nat>): seq<Lock> {
    Each(WithRecipe(s, products), Recipes) + Each(IngredientsAmong(s, products), Ingredients)
  }

  function LotIds(s: State, p: nat): set<nat> { set l | l in s.world.lots && s.world.lots[l].productId == p }

  /** The lots of one product, then its purchased stock. */
  ghost function SupplyOf(s: State, p: nat): seq<Lock> {
    Each(LotIds(s, p), LotsOf(p))
    + if p in s.world.products && s.world.products[p].Purchased? && p in s.stock then [StockRow(p)] else []
  }

  /** Product by product. */
  ghost function SurplusAndPurchasedRows(s: State, products: seq<nat>): seq<Lock> {
    if products == [] then []
    else SurplusAndPurchasedRows(s, products[..|products| - 1]) + SupplyOf(s, products[|products| - 1])
  }

  /** Everything recalculation of `products` needs, once the orders are locked. */
  ghost function OperationalGraph(s: State, products: set<nat>): seq<Lock> {
    Each(products, Products) + RecipeAndIngredientRows(s, products) + SurplusAndPurchasedRows(s, Ascending(products))
  }

  lemma RecipesClimb(s: State, products: set<nat>)
    ensures Within(RecipeAndIngredientRows(s, products), 6, 8)
  {
    EachClimbs(WithRecipe(s, products), Recipes, 6);
    EachClimbs(IngredientsAmong(s, products), Ingredients, 7);
    hide Each, Within;
    Onward(Each(WithRecipe(s, products), Recipes), Each(IngredientsAmong(s, products), Ingredients), 6, 7, 8);
  }

  lemma Stacked(low: seq<Lock>, high: seq<Lock>)
    requires Climbs(low) && Climbs(high)
    requires forall i, k :: 0 <= i < |low| && 0 <= k < |high| ==> Below(low[i], high[k])
    ensures Climbs(low + high)
  {
    hide Below;
  }

  lemma SupplyClimbs(s: State, p: nat)
    ensures Within(SupplyOf(s, p), 8, 9)
    ensures forall i :: 0 <= i < |SupplyOf(s, p)| ==> Rank(SupplyOf(s, p)[i]).b == p
  {
    var lots := Each(LotIds(s, p), LotsOf(p));
    EachClimbs(LotIds(s, p), LotsOf(p), 8);
    forall i | 0 <= i < |lots| ensures Rank(lots[i]).b == p && Rank(lots[i]).c == 0 {}
    hide Each;
    Stacked(lots, if p in s.world.products && s.world.products[p].Purchased? && p in s.stock then [StockRow(p)]
      else []);
  }

  /** Rows of product supply, for products up to `p`. */
  ghost predicate SupplyUpTo(requests: seq<Lock>, p: nat) {
    Within(requests, 8, 9) && forall i :: 0 <= i < |requests| ==> Rank(requests[i]).b <= p
  }

  lemma {:induction false} AllSupplyClimbs(s: State, products: seq<nat>)
    requires Increasing(products)
    ensures Within(SurplusAndPurchasedRows(s, products), 8, 9)
    ensures products != [] ==> SupplyUpTo(SurplusAndPurchasedRows(s, products), products[|products| - 1])
  {
    if products != [] {
      hide SupplyOf;
      var n := |products| - 1;
      var before, rows := SurplusAndPurchasedRows(s, products[..n]), SupplyOf(s, products[n]);
      AllSupplyClimbs(s, products[..n]);
      SupplyClimbs(s, products[n]);
      assert n > 0 ==> products[n - 1] < products[n] && SupplyUpTo(before, products[n - 1]);
      assert n == 0 ==> before == [];
      Stacked(before, rows);
    }
  }

  lemma GraphClimbs(s: State, products: set<nat>)
    ensures Within(OperationalGraph(s, products), 3, 9)
  {
    EachClimbs(products, Products, 3);
    RecipesClimb(s, products);
    AscendingIs(products);
    AllSupplyClimbs(s, Ascending(products));
    hide Each, Within, RecipeAndIngredientRows, SurplusAndPurchasedRows;
    var a, b, c := Each(products, Products), RecipeAndIngredientRows(s, products),
      SurplusAndPurchasedRows(s, Ascending(products));
    Wider(a, 3, 4, 3, 6);
    Onward(a, b, 3, 6, 8);
    Onward(a + b, c, 3, 8, 9);
  }

  // ---- what each workflow locks ----

  /** New or changed references of a submitted order. */
  datatype References = References(customer: set<nat>, products: set<nat>, options: set<nat>)

  /** A workflow, with the orders its discovery returned. */
  datatype Workflow =
    | ConfirmOrder(o: nat, locked: set<nat>)
    | EditOrder(o: nat, payload: Payload, touched: set<nat>, references: References, locked: set<nat>)
    | CancelOrder(o: nat, locked: set<nat>)
    | CompleteOrder(o: nat, locked: set<nat>)
    | SaveDraftOrder(known: set<nat>, references: References)
    | SetManualFlag(o: nat)
    | StartRun(r: ReqId)
    | FinishRun(run: nat, locked: set<nat>)
    | StopRun(run: nat, locked: set<nat>)
    | MoveStockOf(p: nat, locked: set<nat>)
    | FirstStockOf(p: nat)
    | MoveIngredientOf(i: nat)
    | ChangeSurplus(p: nat, locked: set<nat>)
    | ReviseRecipe(p: nat, submitted: set<nat>)

  /** The rows of an edit: references first, with every affected product in the same query when demand
      changes, then the rest of the graph. */
  ghost function EditRequests(
      s: State, o: nat, payload: Payload, touched: set<nat>, references: References, locked: set<nat>): seq<Lock>
    requires o in s.world.orders
  {
    var affected := if DemandAffecting(s.world, o, payload, touched)
      then ProductsOfOrder(s.world, o) + NewProducts(payload) else {};
    Each(locked, Orders) + Each(references.customer, Customers) + Each(references.products + affected, Products)
    + Each(references.options, Options) + RecipeAndIngredientRows(s, affected)
    + SurplusAndPurchasedRows(s, Ascending(affected))
  }

  /** Start takes no order lock: its product, the requirement, and the pinned revision's ingredients. */
  ghost function StartRequests(s: State, r: ReqId): seq<Lock> {
    Each({r.key.productId}, Products) + [RequirementRow(r)]
    + Each(
        if r.key.revision.Some? && r.key.revision.value in s.world.revisions
        then s.world.revisions[r.key.revision.value].ingredients.Keys else {}, Ingredients)
  }

  ghost function StopRequests(s: State, run: nat, locked: set<nat>): seq<Lock>
    requires run in s.world.runs
  {
    Each({run}, Runs) + Each(locked, Orders) + OperationalGraph(s, {s.world.runs[run].productId})
  }

  /** Finish locks the run's ingredients once more, after the lots. */
  ghost function FinishRequests(s: State, run: nat, locked: set<nat>): seq<Lock>
    requires run in s.world.runs
  {
    StopRequests(s, run, locked) + Each(s.world.runs[run].planned.Keys, Ingredients)
  }

  /** What must hold for the workflow to get as far as its locks. */
  predicate Applies(s: State, w: Workflow) {
    match w
    case EditOrder(o, _, _, _, _) => o in s.world.orders
    case FinishRun(run, _) => Active(s, run)
    case StopRun(run, _) => run in s.world.runs
    case _ => true
  }

  /** The rows asked for, in the order of the code, in the state the workflow reads under its locks. */
  ghost function RequestsOf(s: State, w: Workflow): seq<Lock>
    requires Applies(s, w)
  {
    match w
    case ConfirmOrder(o, locked) => Each(locked, Orders) + OperationalGraph(s, ProductsOfOrder(s.world, o))
    case EditOrder(o, payload, touched, references, locked) => EditRequests(s, o, payload, touched, references, locked)
    case CancelOrder(o, locked) => Each(locked, Orders) + OperationalGraph(s, ProductsOfOrder(s.world, o))
    case CompleteOrder(o, locked) => Each(locked, Orders) + OperationalGraph(s, ProductsOfOrder(s.world, o))
    case SaveDraftOrder(known, references) =>
      Each(known, Orders) + Each(references.customer, Customers) + Each(references.products, Products)
      + Each(references.options, Options)
    case SetManualFlag(o) => Each({o}, Orders)
    case StartRun(r) => StartRequests(s, r)
    case FinishRun(run, locked) => FinishRequests(s, run, locked)
    case StopRun(run, locked) => StopRequests(s, run, locked)
    case MoveStockOf(p, locked) => Each(locked, Orders) + Each({p}, Products) + [StockRow(p)]
    case FirstStockOf(p) => Each({p}, Products)
    case MoveIngredientOf(i) => Each({i}, Ingredients)
    case ChangeSurplus(p, locked) =>
      Each(locked, Orders) + Each({p}, Products) + RecipeAndIngredientRows(s, {p}) + Each(LotIds(s, p), LotsOf(p))
    case ReviseRecipe(p, submitted) =>
      Each({p}, Products) + Each({p}, Recipes) + Each(LockedIngredients(s, p) + submitted, Ingredients)
      + Each(LotIds(s, p), LotsOf(p))
  }

  lemma OrdersThenGraph(s: State, locked: set<nat>, products: set<nat>)
    ensures Within(Each(locked, Orders) + OperationalGraph(s, products), 1, 9)
  {
    EachClimbs(locked, Orders, 1);
    GraphClimbs(s, products);
    hide Each, Within, OperationalGraph;
    Wider(Each(locked, Orders), 1, 2, 1, 3);
    Onward(Each(locked, Orders), OperationalGraph(s, products), 1, 3, 9);
  }

  /** Customer, products, options, as references are locked. */
  lemma ReferencesClimb(orders: set<nat>, customers: set<nat>, products: set<nat>, options: set<nat>)
    ensures Within(Each(orders, Orders) + Each(customers, Customers) + Each(products, Products)
      + Each(options, Options), 1, 6)
  {
    EachClimbs(orders, Orders, 1);
    EachClimbs(customers, Customers, 2);
    EachClimbs(products, Products, 3);
    EachClimbs(options, Options, 5);
    hide Each, Within;
    var a, b, c, d := Each(orders, Orders), Each(customers, Customers), Each(products, Products),
      Each(options, Options);
    Onward(a, b, 1, 2, 3);
    Onward(a + b, c, 1, 3, 4);
    Wider(a + b + c, 1, 4, 1, 5);
    Onward(a + b + c, d, 1, 5, 6);
  }

  lemma EditClimbs(s: State, o: nat, payload: Payload, touched: set<nat>, references: References, locked: set<nat>)
    requires o in s.world.orders
    ensures Climbs(EditRequests(s, o, payload, touched, references, locked))
  {
    hide DemandAffecting;
    var affected := if DemandAffecting(s.world, o, payload, touched)
      then ProductsOfOrder(s.world, o) + NewProducts(payload) else {};
    ReferencesClimb(locked, references.customer, references.products + affected, references.options);
    RecipesClimb(s, affected);
    AscendingIs(affected);
    AllSupplyClimbs(s, Ascending(affected));
    hide Each, Within, RecipeAndIngredientRows, SurplusAndPurchasedRows, Climbs;
    var a := Each(locked, Orders) + Each(references.customer, Customers)
      + Each(references.products + affected, Products)
      + Each(references.options, Options);
    var b, c := RecipeAndIngredientRows(s, affected), SurplusAndPurchasedRows(s, Ascending(affected));
    Onward(a, b, 1, 6, 8);
    Onward(a + b, c, 1, 8, 9);
    WithinClimbs(a + b + c, 1, 9);
  }

  lemma WithinClimbs(requests: seq<Lock>, low: int, high: int)
    requires Within(requests, low, high)
    ensures Climbs(requests)
  {
  }

  lemma StartClimbs(s: State, r: ReqId)
    ensures Climbs(StartRequests(s, r))
  {
    var ingredients := if r.key.revision.Some? && r.key.revision.value in s.world.revisions
      then s.world.revisions[r.key.revision.value].ingredients.Keys else {};
    EachClimbs({r.key.productId}, Products, 3);
    EachClimbs(ingredients, Ingredients, 7);
    assert Within([RequirementRow(r)], 4, 7);
    hide Each, Within, Climbs;
    var a, b, c := Each({r.key.productId}, Products), [RequirementRow(r)], Each(ingredients, Ingredients);
    Onward(a, b, 3, 4, 7);
    Onward(a + b, c, 3, 7, 8);
    WithinClimbs(a + b + c, 3, 8);
  }

  lemma StopClimbs(s: State, run: nat, locked: set<nat>)
    requires run in s.world.runs
    ensures Climbs(StopRequests(s, run, locked))
  {
    var p := s.world.runs[run].productId;
    EachClimbs({run}, Runs, 0);
    OrdersThenGraph(s, locked, {p});
    hide Each, Within, OperationalGraph, Climbs;
    var a, b, c := Each({run}, Runs), Each(locked, Orders), OperationalGraph(s, {p});
    Onward(a, b + c, 0, 1, 9);
    assert a + (b + c) == a + b + c;
    WithinClimbs(a + b + c, 0, 9);
  }

  lemma RestockClimbs(s: State, p: nat, locked: set<nat>)
    ensures Climbs(Each(locked, Orders) + Each({p}, Products) + [StockRow(p)])
  {
    EachClimbs(locked, Orders, 1);
    EachClimbs({p}, Products, 3);
    assert Within([StockRow(p)], 8, 9);
    hide Each, Within, Climbs;
    var a, b, c := Each(locked, Orders), Each({p}, Products), [StockRow(p)];
    Wider(a, 1, 2, 1, 3);
    Onward(a, b, 1, 3, 4);
    Wider(a + b, 1, 4, 1, 8);
    Onward(a + b, c, 1, 8, 9);
    WithinClimbs(a + b + c, 1, 9);
  }

  lemma SurplusClimbs(s: State, p: nat, locked: set<nat>)
    ensures Climbs(Each(locked, Orders) + Each({p}, Products) + RecipeAndIngredientRows(s, {p})
      + Each(LotIds(s, p), LotsOf(p)))
  {
    EachClimbs(locked, Orders, 1);
    EachClimbs({p}, Products, 3);
    RecipesClimb(s, {p});
    EachClimbs(LotIds(s, p), LotsOf(p), 8);
    hide Each, Within, Climbs, RecipeAndIngredientRows;
    var a, b, c, d := Each(locked, Orders), Each({p}, Products), RecipeAndIngredientRows(s, {p}),
      Each(LotIds(s, p), LotsOf(p));
    Wider(a, 1, 2, 1, 3);
    Onward(a, b, 1, 3, 4);
    Wider(a + b, 1, 4, 1, 6);
    Onward(a + b, c, 1, 6, 8);
    Onward(a + b + c, d, 1, 8, 9);
    WithinClimbs(a + b + c + d, 1, 9);
  }

  lemma RevisionClimbs(s: State, p: nat, submitted: set<nat>)
    ensures Climbs(Each({p}, Products) + Each({p}, Recipes) + Each(LockedIngredients(s, p) + submitted, Ingredients)
      + Each(LotIds(s, p), LotsOf(p)))
  {
    EachClimbs({p}, Products, 3);
    EachClimbs({p}, Recipes, 6);
    EachClimbs(LockedIngredients(s, p) + submitted, Ingredients, 7);
    EachClimbs(LotIds(s, p), LotsOf(p), 8);
    hide Each, Within, Climbs;
    var a, b, c, d := Each({p}, Products), Each({p}, Recipes), Each(LockedIngredients(s, p) + submitted, Ingredients),
      Each(LotIds(s, p), LotsOf(p));
    Wider(a, 3, 4, 3, 6);
    Onward(a, b, 3, 6, 7);
    Onward(a + b, c, 3, 7, 8);
    Onward(a + b + c, d, 3, 8, 9);
    WithinClimbs(a + b + c + d, 3, 9);
  }

  lemma OneTable(ids: set<nat>, table: Table)
    ensures Climbs(Each(ids, table))
  {
    EachClimbs(ids, table, Rank(RowOf(table, 0)).a);
  }

  /** Every workflow but Finish asks for ever higher rows. */
  lemma WorkflowClimbs(s: State, w: Workflow)
    requires Applies(s, w) && !w.FinishRun?
    ensures Climbs(RequestsOf(s, w))
  {
    hide Each, Within, Climbs, OperationalGraph, EditRequests, StartRequests, StopRequests, RecipeAndIngredientRows,
      LockedIngredients, LotIds;
    match w
    case ConfirmOrder(o, locked) =>
      OrdersThenGraph(s, locked, ProductsOfOrder(s.world, o));
      WithinClimbs(RequestsOf(s, w), 1, 9);
    case EditOrder(o, payload, touched, references, locked) => EditClimbs(s, o, payload, touched, references, locked);
    case CancelOrder(o, locked) =>
      OrdersThenGraph(s, locked, ProductsOfOrder(s.world, o));
      WithinClimbs(RequestsOf(s, w), 1, 9);
    case CompleteOrder(o, locked) =>
      OrdersThenGraph(s, locked, ProductsOfOrder(s.world, o));
      WithinClimbs(RequestsOf(s, w), 1, 9);
    case SaveDraftOrder(known, references) =>
      ReferencesClimb(known, references.customer, references.products, references.options);
      WithinClimbs(RequestsOf(s, w), 1, 6);
    case SetManualFlag(o) => OneTable({o}, Orders);
    case StartRun(r) => StartClimbs(s, r);
    case StopRun(run, locked) => StopClimbs(s, run, locked);
    case MoveStockOf(p, locked) => RestockClimbs(s, p, locked);
    case FirstStockOf(p) => OneTable({p}, Products);
    case MoveIngredientOf(i) => OneTable({i}, Ingredients);
    case ChangeSurplus(p, locked) => SurplusClimbs(s, p, locked);
    case ReviseRecipe(p, submitted) => RevisionClimbs(s, p, submitted);
  }

  // ---- Finish locks its ingredients twice ----

  /** A run's ingredients are among those its product's closure locks: its source requirement still has
      a line, and that line's link pins the run's revision. */
  lemma RunIngredientsAreLocked(s: State, run: nat)
    requires AllClean(s) && Active(s, run)
    ensures s.world.runs[run].planned.Keys <= LockedIngredients(s, s.world.runs[run].productId)
  {
    hide LotCaps, LineCaps, Meets, ClaimsMeet, ProperLink, RowOk;
    ActiveHasSource(s, run);
    var w, p := s.world, s.world.runs[run].productId;
    var c, r := ClosureOf(s, p), s.world.runs[run].source;
    assert ProductClean(s, p) && ActiveRun(w, run, p) && RunOk(run, c, w, p) && HasLine(c, r);
    var k :| k in c.links && k.req == r;
    assert w.runs[run].revision in Participating(s, p);
  }

  lemma IngredientsOfOne(s: State, p: nat)
    ensures IngredientsAmong(s, {p}) == LockedIngredients(s, p)
  {
  }

  lemma OtherTable(ids: set<nat>, table: Table, i: nat)
    requires table != Ingredients
    ensures IngredientRow(i) !in Each(ids, table)
  {
    EachMembers(ids, table, i);
  }

  lemma NotAmongSupply(requests: seq<Lock>, i: nat)
    requires Within(requests, 8, 9)
    ensures IngredientRow(i) !in requests
  {
    assert forall k :: 0 <= k < |requests| ==> Rank(requests[k]).a == 8;
  }

  lemma RecipePart(s: State, p: nat, i: nat)
    ensures IngredientRow(i) in RecipeAndIngredientRows(s, {p}) <==> i in LockedIngredients(s, p)
  {
    hide Each, LockedIngredients, Participating, IngredientsAmong, WithRecipe;
    IngredientsOfOne(s, p);
    EachMembers(IngredientsAmong(s, {p}), Ingredients, i);
    OtherTable(WithRecipe(s, {p}), Recipes, i);
  }

  lemma GraphIngredients(s: State, p: nat, i: nat)
    ensures IngredientRow(i) in OperationalGraph(s, {p}) <==> i in LockedIngredients(s, p)
  {
    hide Each, LockedIngredients, SurplusAndPurchasedRows, RecipeAndIngredientRows, Within;
    RecipePart(s, p, i);
    OtherTable({p}, Products, i);
    AscendingIs({p});
    AllSupplyClimbs(s, Ascending({p}));
    NotAmongSupply(SurplusAndPurchasedRows(s, Ascending({p})), i);
  }

  lemma StopRowsAre(s: State, run: nat, locked: set<nat>, i: nat)
    requires run in s.world.runs
    ensures IngredientRow(i) in StopRequests(s, run, locked) <==> i in LockedIngredients(s, s.world.runs[run].productId)
  {
    hide Each, LockedIngredients, OperationalGraph;
    GraphIngredients(s, s.world.runs[run].productId, i);
    OtherTable({run}, Runs, i);
    OtherTable(locked, Orders, i);
  }

  predicate HasStockRow(s: State, p: nat) { p in s.world.products && s.world.products[p].Purchased? && p in s.stock }

  /** What Finish must find locked when it asks for the run's ingredients: each is locked already, or no lot
      and no stock row came before it and every ingredient locked is below it. */
  ghost predicate RetakesInOrder(s: State, run: nat)
    requires run in s.world.runs
  {
    var p := s.world.runs[run].productId;
    forall i :: i in s.world.runs[run].planned && i !in LockedIngredients(s, p) ==>
      && LotIds(s, p) == {} && !HasStockRow(s, p)
      && forall j :: j in LockedIngredients(s, p) ==> j < i
  }

  lemma AscendingOne(p: nat)
    ensures Ascending({p}) == [p]
  {
    assert Least({p}) == p && {p} - {p} == {};
  }

  lemma OneProduct(s: State, p: nat)
    ensures Ascending({p}) == [p] && SurplusAndPurchasedRows(s, [p]) == SupplyOf(s, p)
  {
    AscendingOne(p);
    assert [p][..0] == [];
    assert SurplusAndPurchasedRows(s, [p]) == SurplusAndPurchasedRows(s, []) + SupplyOf(s, p);
  }

  lemma NoSupply(s: State, p: nat)
    requires LotIds(s, p) == {} && !HasStockRow(s, p)
    ensures SurplusAndPurchasedRows(s, Ascending({p})) == []
  {
    OneProduct(s, p);
    AscendingIs({});
    assert Each({}, LotsOf(p)) == [];
  }

  lemma IngredientIsBelow(x: Lock, i: nat)
    ensures Below(x, IngredientRow(i)) <==> Rank(x).a < 7 || (x.IngredientRow? && x.id < i)
  {
  }

  lemma BeforeIngredients(requests: seq<Lock>, low: int, i: nat)
    requires Within(requests, low, 7)
    ensures forall x :: x in requests ==> Below(x, IngredientRow(i))
  {
    forall x | x in requests ensures Below(x, IngredientRow(i)) {
      var k :| 0 <= k < |requests| && requests[k] == x;
      IngredientIsBelow(x, i);
    }
  }

  lemma IngredientsBelow(ids: set<nat>, i: nat)
    requires forall j :: j in ids ==> j < i
    ensures forall x :: x in Each(ids, Ingredients) ==> Below(x, IngredientRow(i))
  {
    EachMembers(ids, Ingredients, 0);
    hide Each;
    forall x | x in Each(ids, Ingredients) ensures Below(x, IngredientRow(i)) {
      var j: nat :| j in ids && x == IngredientRow(j);
    }
  }

  lemma GraphBelow(s: State, p: nat, i: nat)
    requires LotIds(s, p) == {} && !HasStockRow(s, p) && forall j :: j in LockedIngredients(s, p) ==> j < i
    ensures forall x :: x in OperationalGraph(s, {p}) ==> Below(x, IngredientRow(i))
  {
    NoSupply(s, p);
    IngredientsOfOne(s, p);
    EachClimbs({p}, Products, 3);
    BeforeIngredients(Each({p}, Products), 3, i);
    EachClimbs(WithRecipe(s, {p}), Recipes, 6);
    BeforeIngredients(Each(WithRecipe(s, {p}), Recipes), 6, i);
    IngredientsBelow(IngredientsAmong(s, {p}), i);
    hide Each, Below, LockedIngredients, IngredientsAmong, WithRecipe, LotIds, SurplusAndPurchasedRows, Within;
  }

  /** Without supply rows, everything Finish asks for first is below any ingredient above those it locks. */
  lemma AllBelow(s: State, run: nat, locked: set<nat>, i: nat)
    requires run in s.world.runs
    requires LotIds(s, s.world.runs[run].productId) == {} && !HasStockRow(s, s.world.runs[run].productId)
    requires forall j :: j in LockedIngredients(s, s.world.runs[run].productId) ==> j < i
    ensures forall x :: x in StopRequests(s, run, locked) ==> Below(x, IngredientRow(i))
  {
    GraphBelow(s, s.world.runs[run].productId, i);
    EachClimbs({run}, Runs, 0);
    BeforeIngredients(Each({run}, Runs), 0, i);
    EachClimbs(locked, Orders, 1);
    BeforeIngredients(Each(locked, Orders), 1, i);
    hide Each, Below, LockedIngredients, LotIds, OperationalGraph, Within;
  }

  lemma RetakeInOrder(s: State, run: nat, locked: set<nat>, m: nat)
    requires run in s.world.runs && RetakesInOrder(s, run) && m < |Each(s.world.runs[run].planned.Keys, Ingredients)|
    ensures
      var first, again := StopRequests(s, run, locked), Each(s.world.runs[run].planned.Keys, Ingredients);
      again[m] in first || forall i :: 0 <= i < |first| + m ==> Below((first + again)[i], again[m])
  {
    var ids := s.world.runs[run].planned.Keys;
    AscendingIs(ids);
    var i := Ascending(ids)[m];
    assert Each(ids, Ingredients)[m] == IngredientRow(i) && i in ids;
    hide StopRequests, LockedIngredients, LotIds;
    StopRowsAre(s, run, locked, i);
    if i !in LockedIngredients(s, s.world.runs[run].productId) {
      AllBelow(s, run, locked, i);
      AboveBoth(StopRequests(s, run, locked), ids, m);
    }
  }

  /** One by one, the second lock asks in order. */
  lemma FinishRetakes(s: State, run: nat, locked: set<nat>)
    requires run in s.world.runs && RetakesInOrder(s, run)
    ensures Legal(FinishRequests(s, run, locked))
  {
    hide StopRequests, RetakesInOrder, Below, Each;
    var first, again := StopRequests(s, run, locked), Each(s.world.runs[run].planned.Keys, Ingredients);
    var all := first + again;
    StopClimbs(s, run, locked);
    forall k | 0 <= k < |all| ensures all[k] in all[..k] || forall i :: 0 <= i < k ==> Below(all[i], all[k]) {
      if k >= |first| {
        RetakeInOrder(s, run, locked, k - |first|);
        if all[k] in first {
          var m :| 0 <= m < |first| && first[m] == all[k];
          assert all[..k][m] == all[k];
        }
      }
    }
  }

  lemma AboveBoth(first: seq<Lock>, ids: set<nat>, m: nat)
    requires m < |Each(ids, Ingredients)| && forall x :: x in first ==> Below(x, Each(ids, Ingredients)[m])
    ensures forall i :: 0 <= i < |first| + m ==> Below((first + Each(ids, Ingredients))[i], Each(ids, Ingredients)[m])
  {
    AscendingIs(ids);
    forall i | 0 <= i < |first| + m ensures Below((first + Each(ids, Ingredients))[i], Each(ids, Ingredients)[m]) {
      assert i < |first| ==> first[i] in first;
    }
  }

  /** Finish asks in order exactly when its second ingredient lock does. */
  lemma FinishIsLegalIff(s: State, run: nat, locked: set<nat>)
    requires run in s.world.runs
    ensures Legal(FinishRequests(s, run, locked)) <==> RetakesInOrder(s, run)
  {
    hide LockedIngredients, Legal, StopRequests, FinishRequests, LotIds;
    if RetakesInOrder(s, run) { FinishRetakes(s, run, locked); }
    if Legal(FinishRequests(s, run, locked)) {
      var p := s.world.runs[run].productId;
      forall i | i in s.world.runs[run].planned && i !in LockedIngredients(s, p)
        ensures LotIds(s, p) == {} && !HasStockRow(s, p) && forall j :: j in LockedIngredients(s, p) ==> j < i
      {
        AskedAbove(s, run, locked, i);
        SupplyIsAsked(s, run, locked);
        forall x | x in StopRequests(s, run, locked) ensures Rank(x).a < 7 || (x.IngredientRow? && x.id < i) {
          IngredientIsBelow(x, i);
        }
        forall j | j in LockedIngredients(s, p) ensures j < i { StopRowsAre(s, run, locked, j); }
      }
    }
  }

  lemma NewIsAbove(first: seq<Lock>, again: seq<Lock>, j: nat)
    requires Legal(first + again) && j < |again| && again[j] !in first && again[j] !in again[..j]
    ensures forall x :: x in first ==> Below(x, again[j])
  {
    hide Below;
    var all := first + again;
    assert all[|first| + j] == again[j] && all[..|first| + j] == first + again[..j];
    forall x | x in first ensures Below(x, again[j]) {
      var m :| 0 <= m < |first| && first[m] == x;
      assert all[m] == x;
    }
  }

  /** An ingredient not locked before is asked for above everything. */
  lemma AskedAbove(s: State, run: nat, locked: set<nat>, i: nat)
    requires run in s.world.runs && i in s.world.runs[run].planned && Legal(FinishRequests(s, run, locked))
    requires i !in LockedIngredients(s, s.world.runs[run].productId)
    ensures forall x :: x in StopRequests(s, run, locked) ==> Below(x, IngredientRow(i))
  {
    var j := FirstTime(s.world.runs[run].planned.Keys, i);
    StopRowsAre(s, run, locked, i);
    hide StopRequests, LockedIngredients, Each, Legal, Below;
    NewIsAbove(StopRequests(s, run, locked), Each(s.world.runs[run].planned.Keys, Ingredients), j);
  }

  /** One query returns a row once. */
  lemma FirstTime(ids: set<nat>, i: nat) returns (j: nat)
    requires i in ids
    ensures j < |Each(ids, Ingredients)| && Each(ids, Ingredients)[j] == IngredientRow(i)
    ensures IngredientRow(i) !in Each(ids, Ingredients)[..j]
  {
    AscendingIs(ids);
    j :| 0 <= j < |Ascending(ids)| && Ascending(ids)[j] == i;
    assert forall m :: 0 <= m < j ==> Ascending(ids)[m] < Ascending(ids)[j];
  }

  lemma SupplyIsAsked(s: State, run: nat, locked: set<nat>)
    requires run in s.world.runs
    ensures
      var p := s.world.runs[run].productId;
      && (LotIds(s, p) != {} ==> exists x :: x in StopRequests(s, run, locked) && x.LotRow?)
      && (HasStockRow(s, p) ==> exists x :: x in StopRequests(s, run, locked) && x.StockRow?)
  {
    var p := s.world.runs[run].productId;
    OneProduct(s, p);
    if LotIds(s, p) != {} {
      var lot :| lot in LotIds(s, p);
      EachMembers(LotIds(s, p), LotsOf(p), lot);
      hide Each, RecipeAndIngredientRows, LotIds;
      assert LotRow(p, lot) in StopRequests(s, run, locked);
    }
    if HasStockRow(s, p) {
      hide Each, RecipeAndIngredientRows, LotIds;
      assert StockRow(p) in SupplyOf(s, p);
      assert StockRow(p) in StopRequests(s, run, locked);
    }
  }

  /** Nothing is asked of any workflow but Finish. */
  ghost predicate AsksInOrder(s: State, w: Workflow)
    requires Applies(s, w)
  {
    w.FinishRun? ==> RetakesInOrder(s, w.run)
  }

  /** In any state whatever, a workflow asks in order exactly when it is not a Finish that would re-take out
      of order. */
  lemma WorkflowIsLegalIff(s: State, w: Workflow)
    requires Applies(s, w)
    ensures Legal(RequestsOf(s, w)) <==> AsksInOrder(s, w)
  {
    hide Climbs, Legal, RetakesInOrder;
    if w.FinishRun? {
      FinishIsLegalIff(s, w.run, w.locked);
    } else {
      hide RequestsOf;
      WorkflowClimbs(s, w);
      ClimbThenRetake(RequestsOf(s, w), []);
      assert RequestsOf(s, w) + [] == RequestsOf(s, w);
    }
  }

  /** Every workflow asks in order, from every legal state. */
  lemma EveryWorkflowIsLegal(s: State, w: Workflow)
    requires Inv(s) && Applies(s, w)
    ensures AsksInOrder(s, w) && Legal(RequestsOf(s, w))
  {
    hide Legal, LockedIngredients, RequestsOf;
    if w.FinishRun? {
      InvIsClean(s);
      RunIngredientsAreLocked(s, w.run);
    }
    WorkflowIsLegalIff(s, w);
  }

  // ---- following the lists ----

  /** A transaction on its way through a list: the first `next` rows are held, and it may be waiting for
      the one after. */
  datatype Follower = Follower(requests: seq<Lock>, next: nat, waiting: bool)

  predicate OnTrack(f: Follower) { f.next <= |f.requests| && (f.waiting ==> f.next < |f.requests|) }

  function Held(f: Follower): set<Lock>
    requires f.next <= |f.requests|
  {
    set i | 0 <= i < f.next :: f.requests[i]
  }

  /** It waits for a row another transaction holds. */
  ghost predicate WaitsFor(sys: map<nat, Follower>, t: nat, u: nat) {
    && t in sys && u in sys && t != u && OnTrack(sys[t]) && OnTrack(sys[u])
    && sys[t].waiting && sys[t].requests[sys[t].next] in Held(sys[u])
  }

  datatype Event = Open(t: nat, s: State, w: Workflow) | Ask(t: nat) | Grant(t: nat) | Close(t: nat)

  ghost predicate Enabled(sys: map<nat, Follower>, e: Event) {
    match e
    case Open(t, s, w) => t !in sys && Applies(s, w)
    case Ask(t) => t in sys && !sys[t].waiting && sys[t].next < |sys[t].requests|
    case Grant(t) => t in sys && sys[t].waiting && forall u :: u in sys ==> !WaitsFor(sys, t, u)
    case Close(t) => t in sys
  }

  /** A row already held is granted at once; any other, when nobody else holds it. */
  ghost function Step(sys: map<nat, Follower>, e: Event): map<nat, Follower> {
    if !Enabled(sys, e) then sys
    else
      match e
      case Open(t, s, w) => sys[t := Follower(RequestsOf(s, w), 0, false)]
      case Ask(t) => sys[t := sys[t].(waiting := true)]
      case Grant(t) => sys[t := sys[t].(next := sys[t].next + 1, waiting := false)]
      case Close(t) => sys - {t}
  }

  ghost function Run(events: seq<Event>): map<nat, Follower> {
    if events == [] then map[] else Step(Run(events[..|events| - 1]), events[|events| - 1])
  }

  ghost predicate Orderly(sys: map<nat, Follower>) {
    && (forall t :: t in sys ==> OnTrack(sys[t]) && Legal(sys[t].requests))
    && (forall t, u :: t in sys && u in sys && t != u ==> Held(sys[t]) !! Held(sys[u]))
  }

  lemma HeldGrows(f: Follower)
    requires f.next < |f.requests|
    ensures Held(f.(next := f.next + 1, waiting := false)) == Held(f) + {f.requests[f.next]}
  {
  }

  /** The transaction an event opens asks in order. */
  ghost predicate OpensInOrder(e: Event) { e.Open? && Applies(e.s, e.w) ==> AsksInOrder(e.s, e.w) }

  lemma StepKeepsOrderly(sys: map<nat, Follower>, e: Event)
    requires Orderly(sys) && OpensInOrder(e)
    ensures Orderly(Step(sys, e))
  {
    hide RequestsOf, Legal, Applies, RetakesInOrder;
    if Enabled(sys, e) {
      match e
      case Open(t, s, w) => WorkflowIsLegalIff(s, w);
      case Ask(t) =>
      case Grant(t) =>
        HeldGrows(sys[t]);
        forall u | u in sys && u != t
          ensures sys[t].requests[sys[t].next] !in Held(sys[u])
        {
          assert !WaitsFor(sys, t, u);
        }
      case Close(t) =>
    }
  }

  lemma {:induction false} AlwaysOrderly(events: seq<Event>)
    requires forall n :: 0 <= n < |events| ==> OpensInOrder(events[n])
    ensures Orderly(Run(events))
  {
    hide OpensInOrder;
    if events != [] {
      AlwaysOrderly(events[..|events| - 1]);
      StepKeepsOrderly(Run(events[..|events| - 1]), events[|events| - 1]);
    }
  }

  /** It waits for a row it does not hold. */
  ghost predicate Asking(sys: map<nat, Follower>, t: nat) {
    t in sys && OnTrack(sys[t]) && Legal(sys[t].requests) && sys[t].waiting
      && sys[t].requests[sys[t].next] !in Held(sys[t])
  }

  ghost function Wanted(sys: map<nat, Follower>, t: nat): Lock
    requires Asking(sys, t)
  {
    sys[t].requests[sys[t].next]
  }

  /** What it asks for is above everything it holds. */
  lemma AsksAbove(sys: map<nat, Follower>, t: nat)
    requires Asking(sys, t)
    ensures forall x :: x in Held(sys[t]) ==> Below(x, Wanted(sys, t))
  {
    HeldIsPrefix(sys[t]);
  }

  lemma HeldIsPrefix(f: Follower)
    requires f.next <= |f.requests|
    ensures forall x :: x in Held(f) <==> x in f.requests[..f.next]
  {
    forall x | x in f.requests[..f.next] ensures x in Held(f) {
      var i :| 0 <= i < f.next && f.requests[..f.next][i] == x;
      assert f.requests[i] == x;
    }
  }

  /** Among transactions that ask, one asks for a row no other asks above. */
  lemma {:induction false} HighestRequest(sys: map<nat, Follower>, group: set<nat>) returns (t: nat)
    requires group != {} && forall u :: u in group ==> Asking(sys, u)
    ensures t in group && Asking(sys, t)
    ensures forall u :: u in group ==> Asking(sys, u) && !Below(Wanted(sys, t), Wanted(sys, u))
    decreases group
  {
    hide Asking, Wanted;
    t :| t in group;
    if group != {t} {
      var best := HighestRequest(sys, group - {t});
      if Below(Wanted(sys, t), Wanted(sys, best)) { t := best; }
    }
  }

  /** No circle of any size: in every group of transactions one waits for no other of the group, however
      the workflows are interleaved and whatever states their lists were read from, as long as no Finish
      re-takes out of order. */
  lemma NoWaitCycle(events: seq<Event>, group: set<nat>)
    requires forall n :: 0 <= n < |events| ==> OpensInOrder(events[n])
    requires group != {} && group <= Run(events).Keys
    ensures exists t :: t in group && forall u :: u in group ==> !WaitsFor(Run(events), t, u)
  {
    hide Legal, Run, OpensInOrder;
    var t;
    var sys := Run(events);
    AlwaysOrderly(events);
    if idle :| idle in group && !Asking(sys, idle) {
      t := idle;
    } else {
      t := HighestRequest(sys, group);
      forall u | u in group ensures !WaitsFor(sys, t, u) {
        assert Asking(sys, u);
        AsksAbove(sys, u);
      }
    }
  }

  /** Someone can always go on: of the open transactions, one is waiting for nothing or gets what it
      waits for. */
  lemma SomeoneCanGoOn(events: seq<Event>)
    requires forall n :: 0 <= n < |events| ==> OpensInOrder(events[n])
    requires Run(events) != map[]
    ensures exists t :: t in Run(events) && (!Run(events)[t].waiting || Enabled(Run(events), Grant(t)))
  {
    hide Run, OpensInOrder;
    assert Run(events).Keys != {};
    NoWaitCycle(events, Run(events).Keys);
  }

  // ---- a Finish out of order ----

  const STRANDED_SOURCE: ReqId := ReqId(DemandKey(1, Some(9), 0), 0)
  const PLANNED: ReqId := ReqId(DemandKey(2, Some(11), 0), 0)

  /** A run of product 1 whose source has lost its only line, and with it the pin on the run's revision;
      product 2 uses the run's ingredient and one of product 1's current recipe. */
  const STRANDED: State := State(
    World(
      map[1 := Produced(Some(10), true, None), 2 := Produced(Some(11), true, None)],
      map[9 := Revision(1, 1, map[5 := 1]), 10 := Revision(1, 1, map[6 := 1]),
        11 := Revision(2, 1, map[5 := 1, 6 := 1])],
      map[], map[], map[], [], map[1 := PlanningState.Run(STRANDED_SOURCE, 1, 9, InProduction, map[5 := 1])]),
    map[], map[], map[5 := 0, 6 := 0], [], 1)

  const FINISHING: seq<Lock> := [RunRow(1), ProductRow(1), RecipeRow(1), IngredientRow(6), IngredientRow(5)]
  const STARTING: seq<Lock> := [ProductRow(2), RequirementRow(PLANNED), IngredientRow(5), IngredientRow(6)]

  lemma EachOne(x: nat, table: Table)
    ensures Each({x}, table) == [RowOf(table, x)]
  {
    AscendingOne(x);
  }

  lemma EachTwo(x: nat, y: nat, table: Table)
    requires x < y
    ensures Each({x, y}, table) == [RowOf(table, x), RowOf(table, y)]
  {
    AscendingOne(y);
    assert Least({x, y}) == x && {x, y} - {x} == {y};
  }

  lemma StrandedParts()
    ensures LockedIngredients(STRANDED, 1) == {6} && WithRecipe(STRANDED, {1}) == {1}
    ensures SurplusAndPurchasedRows(STRANDED, Ascending({1})) == []
  {
    assert Participating(STRANDED, 1) == {10};
    assert STRANDED.world.revisions[10].ingredients.Keys == {6};
    assert LotIds(STRANDED, 1) == {} && !HasStockRow(STRANDED, 1);
    NoSupply(STRANDED, 1);
  }

  lemma StrandedFinish()
    ensures RequestsOf(STRANDED, FinishRun(1, {})) == FINISHING && !AsksInOrder(STRANDED, FinishRun(1, {}))
  {
    hide Each, LockedIngredients, IngredientsAmong, WithRecipe, SurplusAndPurchasedRows, LotIds;
    StrandedParts();
    IngredientsOfOne(STRANDED, 1);
    EachOne(1, Runs);
    EachNone(Orders);
    EachOne(1, Products);
    EachOne(1, Recipes);
    EachOne(6, Ingredients);
    EachOne(5, Ingredients);
    assert STRANDED.world.runs[1].planned.Keys == {5};
    assert StopRequests(STRANDED, 1, {}) == FINISHING[..4];
  }

  lemma EachNone(table: Table)
    ensures Each({}, table) == []
  {
    AscendingIs({});
  }

  lemma PlannedStart()
    ensures RequestsOf(STRANDED, StartRun(PLANNED)) == STARTING
  {
    hide Each;
    EachOne(2, Products);
    EachTwo(5, 6, Ingredients);
    assert STRANDED.world.revisions[11].ingredients.Keys == {5, 6};
  }

  /** Asking for and getting the next `n` rows. */
  function Walk(t: nat, n: nat): seq<Event> { if n == 0 then [] else Walk(t, n - 1) + [Ask(t), Grant(t)] }

  /** Nobody else holds any of its first `n` rows. */
  ghost predicate Unopposed(sys: map<nat, Follower>, t: nat, n: nat)
    requires t in sys && n <= |sys[t].requests|
  {
    forall u :: u in sys && u != t ==>
      OnTrack(sys[u]) && forall i :: 0 <= i < n ==> sys[t].requests[i] !in Held(sys[u])
  }

  function Moved(sys: map<nat, Follower>, t: nat, n: nat): map<nat, Follower>
    requires t in sys
  {
    sys[t := sys[t].(next := sys[t].next + n)]
  }

  lemma TakesNext(sys: map<nat, Follower>, t: nat, m: nat)
    requires t in sys && !sys[t].waiting && sys[t].next + m < |sys[t].requests|
    requires Unopposed(sys, t, sys[t].next + m + 1)
    ensures Step(Step(Moved(sys, t, m), Ask(t)), Grant(t)) == Moved(sys, t, m + 1)
  {
    hide Held;
    var asked := Step(Moved(sys, t, m), Ask(t));
    assert forall u :: u in asked && u != t ==> asked[u] == sys[u];
  }

  lemma {:induction false} Advance(events: seq<Event>, t: nat, n: nat)
    requires t in Run(events) && !Run(events)[t].waiting && Run(events)[t].next + n <= |Run(events)[t].requests|
    requires Unopposed(Run(events), t, Run(events)[t].next + n)
    ensures Run(events + Walk(t, n)) == Moved(Run(events), t, n)
  {
    if n == 0 {
      assert events + Walk(t, n) == events && Moved(Run(events), t, 0) == Run(events);
    } else {
      FewerUnopposed(Run(events), t, Run(events)[t].next + n);
      WalkFurther(events, t, n);
      hide Run, Step, Moved, Walk, Unopposed;
      Advance(events, t, n - 1);
      TakesNext(Run(events), t, n - 1);
    }
  }

  lemma WalkFurther(events: seq<Event>, t: nat, n: nat)
    requires n > 0
    ensures Run(events + Walk(t, n)) == Step(Step(Run(events + Walk(t, n - 1)), Ask(t)), Grant(t))
  {
    var before := events + Walk(t, n - 1);
    assert before + [Ask(t)] + [Grant(t)] == events + Walk(t, n);
    hide Run, Step, Walk;
    Follow(before, Ask(t));
    Follow(before + [Ask(t)], Grant(t));
  }

  lemma FewerUnopposed(sys: map<nat, Follower>, t: nat, n: nat)
    requires t in sys && 0 < n <= |sys[t].requests| && Unopposed(sys, t, n)
    ensures Unopposed(sys, t, n - 1)
  {
  }

  lemma Follow(events: seq<Event>, e: Event)
    ensures Run(events + [e]) == Step(Run(events), e)
  {
    assert (events + [e])[..|events|] == events;
  }

  lemma FinishTakesFour()
    ensures Run([Open(1, STRANDED, FinishRun(1, {}))] + Walk(1, 4)) == map[1 := Follower(FINISHING, 4, false)]
  {
    StrandedFinish();
    hide RequestsOf, Walk;
    var a := [Open(1, STRANDED, FinishRun(1, {}))];
    assert a == [] + a;
    Follow([], a[0]);
    assert Run(a) == map[1 := Follower(FINISHING, 0, false)];
    Advance(a, 1, 4);
  }

  lemma StartTakesThree(before: seq<Event>)
    requires Run(before) == map[1 := Follower(FINISHING, 4, false)]
    ensures Run(before + [Open(2, STRANDED, StartRun(PLANNED))] + Walk(2, 3))
      == map[1 := Follower(FINISHING, 4, false), 2 := Follower(STARTING, 3, false)]
  {
    PlannedStart();
    hide RequestsOf, Walk;
    var c := before + [Open(2, STRANDED, StartRun(PLANNED))];
    Follow(before, Open(2, STRANDED, StartRun(PLANNED)));
    assert Run(c) == map[1 := Follower(FINISHING, 4, false), 2 := Follower(STARTING, 0, false)];
    FourHeld();
    Advance(c, 2, 3);
  }

  lemma FourHeld()
    ensures Held(Follower(FINISHING, 4, false)) == {RunRow(1), ProductRow(1), RecipeRow(1), IngredientRow(6)}
  {
    HeldIsPrefix(Follower(FINISHING, 4, false));
    assert FINISHING[..4] == [RunRow(1), ProductRow(1), RecipeRow(1), IngredientRow(6)];
  }

  lemma StrandedSystem() returns (events: seq<Event>)
    ensures Run(events) == map[1 := Follower(FINISHING, 4, false), 2 := Follower(STARTING, 3, false)]
  {
    hide Run, Walk, RequestsOf, Applies;
    FinishTakesFour();
    var b := [Open(1, STRANDED, FinishRun(1, {}))] + Walk(1, 4);
    StartTakesThree(b);
    events := b + [Open(2, STRANDED, StartRun(PLANNED))] + Walk(2, 3);
  }

  /** The condition is needed: a Finish that re-takes out of order and a Start of another product can wait
      for each other. */
  lemma StrandedFinishCanDeadlock()
    ensures !AsksInOrder(STRANDED, FinishRun(1, {}))
    ensures exists events ::
      1 in Run(events) && 2 in Run(events) && WaitsFor(Run(events), 1, 2) && WaitsFor(Run(events), 2, 1)
  {
    StrandedFinish();
    var d := StrandedSystem();
    BothWait(Run(d));
    hide *;
    Follow(d, Ask(1));
    Follow(d + [Ask(1)], Ask(2));
  }

  lemma BothWait(sys: map<nat, Follower>)
    requires sys == map[1 := Follower(FINISHING, 4, false), 2 := Follower(STARTING, 3, false)]
    ensures
      var now := Step(Step(sys, Ask(1)), Ask(2));
      1 in now && 2 in now && WaitsFor(now, 1, 2) && WaitsFor(now, 2, 1)
  {
    var now := Step(Step(sys, Ask(1)), Ask(2));
    assert FINISHING[3] in Held(now[1]) && STARTING[2] in Held(now[2]);
  }
}
