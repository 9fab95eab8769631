/** Rebuilding one product's projection from the world: pins, demand groups, surplus allocation around
    what is fixed, whole batches, ingredient reservations. Requirements behind a run in production
    are left alone; surplus rows of Ready orders are carried over row by row. */
module Recalculation {
  import opened Sorting
  import opened Tallies
  import opened PlanningState
  import opened SurplusAllocation
  import opened SurplusStability
  import Decimals = DecimalArithmetic

  /** One line that takes part in the rebuild. `fixed` is the surplus a Ready order keeps on it. */
  datatype Item = Item(
    lineId: nat, orderId: nat, key: DemandKey, time: Option<nat>, quantity: nat, fixed: nat, produced: nat)

  datatype Projection =
    | Projection(reqs: map<ReqId, Requirement>, links: set<Link>, rows: seq<SurplusRow>, claims: set<Claim>)
    | DemandConflict
    | MissingKey
    | Overflow

  // ---- gathering ----

  function CurrentRevision(w: World, productId: nat): Option<nat> {
    if productId in w.products && w.products[productId].Produced? then w.products[productId].current else None
  }

  /** A line keeps the revision of the requirement it is linked to; a new one takes the current. */
  ghost function Pin(c: Closure, w: World, productId: nat, lineId: nat): Option<nat> {
    if exists k :: k in c.links && k.lineId == lineId then
      var k :| k in c.links && k.lineId == lineId;
      k.req.key.revision
    else CurrentRevision(w, productId)
  }

  function RunRowSet(c: Closure, w: World): set<SurplusRow> { set x | x in c.rows && x.req in Protected(w) }

  function RunRows(c: Closure, w: World): seq<SurplusRow> { Pick(c.rows, RunRowSet(c, w)) }

  predicate KeptForReady(x: SurplusRow, w: World, productId: nat, impaired: set<nat>) {
    ReadyLine(w, x.lineId, productId) && x.req !in Protected(w) && x.lotId !in impaired
  }

  function ReadyRowSet(c: Closure, w: World, productId: nat, impaired: set<nat>): set<SurplusRow> {
    set x | x in c.rows && KeptForReady(x, w, productId, impaired)
  }

  /** Rows of Ready orders outside protected requirements, except on lots under reconciliation. */
  function ReadyRows(c: Closure, w: World, productId: nat, impaired: set<nat>): seq<SurplusRow> {
    Pick(c.rows, ReadyRowSet(c, w, productId, impaired))
  }

  function DemandLines(c: Closure, w: World, productId: nat): set<nat> {
    set l | l in w.lines && LiveLine(w, l, productId) && l !in LockedLines(c, w)
  }

  function DateOf(order: Order): int { if order.date.Some? then order.date.value else 0 }

  ghost function ItemOf(c: Closure, w: World, productId: nat, ready: seq<SurplusRow>, lineId: nat): Item
    requires LiveLine(w, lineId, productId)
  {
    var line := w.lines[lineId];
    var order := w.orders[line.orderId];
    Item(lineId, line.orderId, DemandKey(productId, Pin(c, w, productId, lineId), DateOf(order)), order.time,
      line.quantity, OnLine(ready, lineId), ProducedFor(w.outputs, lineId))
  }

  ghost function Items(c: Closure, w: World, productId: nat, ready: seq<SurplusRow>): (items: seq<Item>) {
    var ids := Ascending(DemandLines(c, w, productId));
    AscendingIs(DemandLines(c, w, productId));
    assert forall i :: 0 <= i < |ids| ==> ids[i] in DemandLines(c, w, productId);
    seq(|ids|, i requires 0 <= i < |ids| => ItemOf(c, w, productId, ready, ids[i]))
  }

  function LotsOf(w: World, productId: nat): set<nat> {
    set l | l in w.lots && w.lots[l].productId == productId && w.lots[l].reusable
  }

  function LotOf(w: World, fixed: seq<SurplusRow>, lotId: nat): SurplusLot
    requires lotId in w.lots
  {
    var lot := w.lots[lotId];
    SurplusLot(lotId, lot.productId, lot.physical, OnLot(fixed, lotId), lot.usableThrough, lot.producedAt)
  }

  ghost function Lots(w: World, productId: nat, fixed: seq<SurplusRow>): (lots: seq<SurplusLot>) {
    var ids := Ascending(LotsOf(w, productId));
    AscendingIs(LotsOf(w, productId));
    assert forall i :: 0 <= i < |ids| ==> ids[i] in LotsOf(w, productId);
    seq(|ids|, i requires 0 <= i < |ids| => LotOf(w, fixed, ids[i]))
  }

  function TakenKeys(c: Closure, w: World): set<DemandKey> {
    set r | r in c.reqs && r in Protected(w) :: r.key
  }

  // ---- computing ----

  function DemandOf(item: Item): DemandItem {
    DemandItem(item.orderId, item.lineId, item.key.productId, item.quantity - item.fixed - item.produced,
      item.key.date, item.time)
  }

  function Demands(items: seq<Item>): (demands: seq<DemandItem>)
    ensures |demands| == |items|
  {
    seq(|items|, i requires 0 <= i < |items| => DemandOf(items[i]))
  }

  /** What the allocator gives the lines for their still-open remainder. */
  function Allocated(items: seq<Item>, lots: seq<SurplusLot>, today: int): seq<Allocation> {
    Allocate(lots, Open(Demands(items)), today)
  }

  function KeyMap(items: seq<Item>): map<nat, DemandKey> {
    if items == [] then map[]
    else
      var last := items[|items| - 1];
      KeyMap(items[..|items| - 1])[last.lineId := last.key]
  }

  function Keys(items: seq<Item>): set<DemandKey> { set i | 0 <= i < |items| :: items[i].key }

  /** Demand, finished output and kept surplus of one group's lines. */
  function GroupDemand(items: seq<Item>, key: DemandKey): nat {
    if items == [] then 0
    else
      var last := items[|items| - 1];
      GroupDemand(items[..|items| - 1], key) + if last.key == key then last.quantity else 0
  }

  function GroupProduced(items: seq<Item>, key: DemandKey): nat {
    if items == [] then 0
    else
      var last := items[|items| - 1];
      GroupProduced(items[..|items| - 1], key) + if last.key == key then last.produced else 0
  }

  function GroupFixed(items: seq<Item>, key: DemandKey): nat {
    if items == [] then 0
    else
      var last := items[|items| - 1];
      GroupFixed(items[..|items| - 1], key) + if last.key == key then last.fixed else 0
  }

  function GroupFresh(shares: seq<Allocation>, keys: map<nat, DemandKey>, key: DemandKey): nat {
    if shares == [] then 0
    else
      var last := shares[|shares| - 1];
      GroupFresh(shares[..|shares| - 1], keys, key)
      + if last.lineId in keys && keys[last.lineId] == key then last.quantity else 0
  }

  function Shortage(required: nat, available: int): nat {
    if required - available > 0 then required - available else 0
  }

  function PlanFor(remaining: nat, revisions: map<nat, Revision>, revision: Option<nat>): Option<Batches> {
    if revision.None? || revision.value !in revisions then None
    else
      match Decimals.WholeBatchPlan(remaining, revisions[revision.value].perBatch)
      case BatchPlan(batches, output, excess) => Some(Batches(batches, output, excess))
      case _ => None
  }

  function Group(
      items: seq<Item>, shares: seq<Allocation>, revisions: map<nat, Revision>, key: DemandKey): Requirement {
    var surplus := GroupFresh(shares, KeyMap(items), key) + GroupFixed(items, key);
    var remaining := Shortage(GroupDemand(items, key), surplus + GroupProduced(items, key));
    Requirement(GroupDemand(items, key), surplus, remaining, PlanFor(remaining, revisions, key.revision))
  }

  function Groups(items: seq<Item>, shares: seq<Allocation>, revisions: map<nat, Revision>, generation: nat):
    map<ReqId, Requirement>
  {
    map k | k in Keys(items) :: ReqId(k, generation) := Group(items, shares, revisions, k)
  }

  function Links(items: seq<Item>, generation: nat): set<Link> {
    set i | 0 <= i < |items| :: Link(ReqId(items[i].key, generation), items[i].lineId, items[i].quantity)
  }

  function FreshRows(shares: seq<Allocation>, keys: map<nat, DemandKey>, generation: nat): seq<SurplusRow> {
    if shares == [] then []
    else
      var last := shares[|shares| - 1];
      FreshRows(shares[..|shares| - 1], keys, generation)
      + if last.lineId in keys
        then [SurplusRow(ReqId(keys[last.lineId], generation), last.lotId, last.lineId, last.quantity)]
        else []
  }

  /** Kept rows with the same lot, line and quantity, now under the line's new requirement. */
  function Clones(ready: seq<SurplusRow>, keys: map<nat, DemandKey>, generation: nat): seq<SurplusRow> {
    if ready == [] then []
    else
      var last := ready[|ready| - 1];
      Clones(ready[..|ready| - 1], keys, generation)
      + if last.lineId in keys then [last.(req := ReqId(keys[last.lineId], generation))] else []
  }

  /** Ingredient need of a requirement: whole batches times the quantity per batch. */
  function Needed(reqs: map<ReqId, Requirement>, revisions: map<nat, Revision>, r: ReqId, ingredientId: nat): nat {
    if r in reqs && r.key.revision.Some? && r.key.revision.value in revisions && reqs[r].plan.Some?
       && ingredientId in revisions[r.key.revision.value].ingredients
    then revisions[r.key.revision.value].ingredients[ingredientId] * reqs[r].plan.value.batches
    else 0
  }

  function IngredientsOf(revisions: map<nat, Revision>, r: ReqId): set<nat> {
    if r.key.revision.Some? && r.key.revision.value in revisions
    then revisions[r.key.revision.value].ingredients.Keys
    else {}
  }

  /** One reservation per requirement and ingredient with a positive need. */
  function Claims(reqs: map<ReqId, Requirement>, revisions: map<nat, Revision>): set<Claim> {
    set r, g | r in reqs && g in IngredientsOf(revisions, r) && Needed(reqs, revisions, r, g) > 0
      :: Claim(r, g, Needed(reqs, revisions, r, g))
  }

  const INT32_LIMIT: nat := 0x8000_0000

  predicate StorableRequirement(r: Requirement) {
    && r.demand < Decimals.NUMERIC_18_6_LIMIT
    && r.surplus < Decimals.NUMERIC_18_6_LIMIT
    && r.remaining < Decimals.NUMERIC_18_6_LIMIT
    && (r.plan.Some? ==>
          && r.plan.value.batches < INT32_LIMIT
          && r.plan.value.output < Decimals.NUMERIC_18_6_LIMIT
          && r.plan.value.excess < Decimals.NUMERIC_18_6_LIMIT)
  }

  predicate Storable(reqs: map<ReqId, Requirement>, claims: set<Claim>) {
    && (forall r :: r in reqs ==> StorableRequirement(reqs[r]))
    && (forall k :: k in claims ==> k.quantity < Decimals.NUMERIC_18_6_LIMIT)
  }

  function Compute(
      items: seq<Item>, taken: set<DemandKey>, lots: seq<SurplusLot>, ready: seq<SurplusRow>,
      revisions: map<nat, Revision>, today: int, generation: nat): Projection
  {
    var keys := KeyMap(items);
    var shares := Allocated(items, lots, today);
    var reqs := Groups(items, shares, revisions, generation);
    var claims := Claims(reqs, revisions);
    if Keys(items) * taken != {} then DemandConflict
    else if exists x :: x in ready && x.lineId !in keys then MissingKey
    else if !Storable(reqs, claims) then Overflow
    else Projection(reqs, Links(items, generation),
      FreshRows(shares, keys, generation) + Clones(ready, keys, generation), claims)
  }

  // ---- replacing the projection ----

  function Rebuildable(c: Closure, w: World): set<ReqId> {
    set r | r in c.reqs && r !in Protected(w)
  }

  /** What stays when every rebuildable requirement is deleted with its rows. */
  function Kept(c: Closure, w: World): Closure {
    var gone := Rebuildable(c, w);
    Closure(
      map r | r in c.reqs && r !in gone :: c.reqs[r],
      (set k | k in c.links && k.req !in gone),
      Pick(c.rows, (set x | x in c.rows && x.req !in gone)),
      (set k | k in c.claims && k.req !in gone),
      c.reservations)
  }

  ghost function ComputeFor(
      c: Closure, w: World, productId: nat, today: int, generation: nat, impaired: set<nat>): Projection {
    var ready := ReadyRows(c, w, productId, impaired);
    Compute(Items(c, w, productId, ready), TakenKeys(c, w), Lots(w, productId, RunRows(c, w) + ready), ready,
      w.revisions, today, generation)
  }

  function Replace(c: Closure, w: World, p: Projection): Closure
    requires p.Projection?
  {
    var kept := Kept(c, w);
    Closure(kept.reqs + p.reqs, kept.links + p.links, kept.rows + p.rows, kept.claims + p.claims, kept.reservations)
  }

  /** A purchased product's projection is one reservation per live line. */
  function Reservations(w: World, productId: nat): set<Reservation> {
    set l | l in w.lines && LiveLine(w, l, productId) :: Reservation(l, w.lines[l].quantity)
  }
}
