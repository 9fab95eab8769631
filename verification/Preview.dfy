/** Operational preview: the same computation without writing, with the order's proposed lines as
    hypothetical demand, and ingredient shortages combined over all affected products. */
module Preview {
  import opened Sorting
  import opened Tallies
  import opened PlanningState
  import opened Recalculation
  import opened PlanningInvariant
  import opened PlanningSystem
  import opened Lifecycle

  /** One proposed line; a saved line keeps its own id. */
  datatype Hypothetical = Hypothetical(
    orderId: nat, lineId: nat, productId: nat, quantity: nat, date: int, time: Option<nat>)

  /** Saved demand outside the previewed order. */
  function OtherLines(c: Closure, w: World, p: nat, o: nat): set<nat> {
    set l | l in DemandLines(c, w, p) && w.lines[l].orderId != o
  }

  ghost function RealItems(c: Closure, w: World, p: nat, ready: seq<SurplusRow>, o: nat): seq<Item> {
    var ids := Ascending(OtherLines(c, w, p, o));
    AscendingIs(OtherLines(c, w, p, o));
    assert forall i :: 0 <= i < |ids| ==> ids[i] in OtherLines(c, w, p, o);
    seq(|ids|, i requires 0 <= i < |ids| => ItemOf(c, w, p, ready, ids[i]))
  }

  ghost function HypItem(c: Closure, w: World, ready: seq<SurplusRow>, h: Hypothetical): Item {
    Item(h.lineId, h.orderId, DemandKey(h.productId, Pin(c, w, h.productId, h.lineId), h.date), h.time,
      h.quantity, OnLine(ready, h.lineId), ProducedFor(w.outputs, h.lineId))
  }

  ghost function HypItems(c: Closure, w: World, p: nat, ready: seq<SurplusRow>, hyps: seq<Hypothetical>): seq<Item> {
    if hyps == [] then []
    else
      var last := hyps[|hyps| - 1];
      HypItems(c, w, p, ready, hyps[..|hyps| - 1]) + if last.productId == p then [HypItem(c, w, ready, last)] else []
  }

  /** The projected pass for one produced product: confirmed world without the order, plus its
      proposed lines. Nothing is written. */
  ghost function Projected(s: State, p: nat, o: nat, hyps: seq<Hypothetical>, today: int): Projection {
    var c, w := ClosureOf(s, p), s.world;
    var ready := ReadyRows(c, w, p, {});
    Compute(RealItems(c, w, p, ready, o) + HypItems(c, w, p, ready, hyps), TakenKeys(c, w),
      Lots(w, p, RunRows(c, w) + ready),
      ready, w.revisions, today, s.generation)
  }

  function ClaimsFor(claims: set<Claim>, i: nat): set<Claim> { set k | k in claims && k.ingredientId == i }

  /** The new reservations of an ingredient that the projected pass of `p` would make. */
  ghost function Candidate(s: State, p: nat, o: nat, hyps: seq<Hypothetical>, today: int, i: nat): nat {
    if IsProduced(s.world, p) && Projected(s, p, o, hyps, today).Projection?
    then SumBy(ClaimsFor(Projected(s, p, o, hyps, today).claims, i), ClaimQuantity)
    else 0
  }

  ghost function CandidateTotal(
      s: State, products: seq<nat>, o: nat, hyps: seq<Hypothetical>, today: int, i: nat): nat {
    if products == [] then 0
    else
      CandidateTotal(s, products[..|products| - 1], o, hyps, today, i)
        + Candidate(s, products[|products| - 1], o, hyps, today, i)
  }

  /** Reservations about to be superseded by this very pass. */
  function Superseded(s: State, products: set<nat>): set<ReqId> {
    set p, r | p in products && r in Rebuildable(ClosureOf(s, p), s.world) :: r
  }

  /** Combined shortage: what others reserve, plus every affected product's candidate, beyond stock. */
  ghost function ProjectedShortage(
      s: State, products: set<nat>, o: nat, hyps: seq<Hypothetical>, today: int, i: nat): nat {
    var external := set k | k in ClaimsOn(s, i) && k.req !in Superseded(s, products);
    Shortage(SumBy(external, ClaimQuantity) + CandidateTotal(s, Ascending(products), o, hyps, today, i),
      if i in s.ingredients then s.ingredients[i] else 0)
  }

  ghost function ProjectedIngredients(
      s: State, products: set<nat>, o: nat, hyps: seq<Hypothetical>, today: int): set<nat> {
    set p, k | p in products && IsProduced(s.world, p) && Projected(s, p, o, hyps, today).Projection?
               && k in Projected(s, p, o, hyps, today).claims :: k.ingredientId
  }

  ghost predicate ProjectedLacksRecipe(s: State, p: nat, o: nat, hyps: seq<Hypothetical>, today: int) {
    && IsProduced(s.world, p) && Projected(s, p, o, hyps, today).Projection?
    && exists r :: r in Projected(s, p, o, hyps, today).reqs && Projected(s, p, o, hyps, today).reqs[r].plan.None?
  }

  function OtherReservations(w: World, p: nat, o: nat): set<Reservation> {
    set l | l in w.lines && LiveLine(w, l, p) && w.lines[l].orderId != o :: Reservation(l, w.lines[l].quantity)
  }

  function HypQuantity(p: nat, hyps: seq<Hypothetical>): nat {
    if hyps == [] then 0
    else
      var last := hyps[|hyps| - 1];
      HypQuantity(p, hyps[..|hyps| - 1]) + if last.productId == p then last.quantity else 0
  }

  ghost function ProjectedPurchasedShortage(s: State, p: nat, o: nat, hyps: seq<Hypothetical>): nat {
    if p in s.world.products && s.world.products[p].Purchased?
    then Shortage(SumBy(OtherReservations(s.world, p, o), ReservedQuantity) + HypQuantity(p, hyps), StockOf(s, p))
    else 0
  }

  /** The warnings shown before saving. */
  ghost function PreviewFingerprints(
      s: State, products: set<nat>, o: nat, hyps: seq<Hypothetical>, missingTime: bool, today: int): set<Fingerprint>
  {
    (if missingTime then {MissingTime} else {})
    + (set p | p in products && ProjectedLacksRecipe(s, p, o, hyps, today) :: MissingRecipe(p))
    + (set p | p in products && ProjectedPurchasedShortage(s, p, o, hyps) > 0
         :: PurchasedShort(p, ProjectedPurchasedShortage(s, p, o, hyps)))
    + (set i | i in ProjectedIngredients(s, products, o, hyps, today) && i in s.ingredients
               && ProjectedShortage(s, products, o, hyps, today, i) > 0
         :: IngredientShort(i, ProjectedShortage(s, products, o, hyps, today, i)))
  }

  /** The order's product lines in the world it would be saved to, except production-locked ones. */
  function ProposedLines(s: State, w1: World, o: nat): set<nat> {
    set l | l in LinesOfOrder(w1, o) && w1.lines[l].source.OfProduct?
            && l !in LockedLines(ClosureOf(s, w1.lines[l].source.productId), s.world)
  }

  function HypOf(w1: World, o: nat, l: nat): Hypothetical
    requires l in w1.lines && o in w1.orders
  {
    Hypothetical(o, l, if w1.lines[l].source.OfProduct? then w1.lines[l].source.productId else 0, w1.lines[l].quantity,
      DateOf(w1.orders[o]), w1.orders[o].time)
  }

  ghost function Proposed(s: State, w1: World, o: nat): seq<Hypothetical>
    requires o in w1.orders
  {
    var ids := Ascending(ProposedLines(s, w1, o));
    AscendingIs(ProposedLines(s, w1, o));
    assert forall i :: 0 <= i < |ids| ==> ids[i] in ProposedLines(s, w1, o);
    seq(|ids|, i requires 0 <= i < |ids| => HypOf(w1, o, ids[i]))
  }
}
