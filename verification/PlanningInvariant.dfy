/** The invariant of the projection: what holds of a product's closure once it has been rebuilt
    (`Clean`), and the weaker part that survives while the world changes under it (`Base`). */
module PlanningInvariant {
  import opened Sorting
  import opened Tallies
  import opened PlanningState
  import opened Recalculation

  ghost predicate WorldOk(w: World) {
    && (forall v :: v in w.revisions ==> w.revisions[v].perBatch > 0)
    && (forall l :: l in w.lines ==> LineOk(w, l))
    && (forall o :: Live(w, o) ==> w.orders[o].date.Some?)
    && (forall p :: p in w.products && w.products[p].Produced? && w.products[p].current.Some? ==>
          w.products[p].current.value in w.revisions)
    && (forall x :: x in w.outputs ==> x.lineId in w.lines && x.quantity > 0)
    && (forall l :: l in w.lots ==> w.lots[l].physical >= 0 && IsProduced(w, w.lots[l].productId))
    && (forall run :: run in w.runs && w.runs[run].status == InProduction ==>
          w.runs[run].source.key.productId == w.runs[run].productId && IsProduced(w, w.runs[run].productId))
  }

  predicate IsProduced(w: World, productId: nat) {
    productId in w.products && w.products[productId].Produced?
  }

  ghost predicate LineOk(w: World, l: nat)
    requires l in w.lines
  {
    && w.lines[l].quantity > 0 && w.lines[l].orderId in w.orders
    && (w.lines[l].source.OfProduct? ==> w.lines[l].source.productId in w.products)
  }

  ghost predicate Linked(c: Closure, req: ReqId, lineId: nat) {
    exists k :: k in c.links && k.req == req && k.lineId == lineId
  }

  ghost predicate HasLine(c: Closure, req: ReqId) {
    exists k :: k in c.links && k.req == req
  }

  ghost predicate HasLink(c: Closure, lineId: nat) {
    exists k :: k in c.links && k.lineId == lineId
  }

  predicate ReqOk(r: ReqId, w: World, productId: nat, generation: nat) {
    && r.key.productId == productId && r.generation < generation
    && (r.key.revision.Some? ==> r.key.revision.value in w.revisions)
  }

  ghost predicate RowOk(x: SurplusRow, c: Closure, w: World, productId: nat) {
    && x.req in c.reqs && Linked(c, x.req, x.lineId) && x.quantity > 0
    && x.lotId in w.lots && w.lots[x.lotId].productId == productId
  }

  predicate ActiveRun(w: World, run: nat, productId: nat) {
    run in w.runs && w.runs[run].status == InProduction && w.runs[run].productId == productId
  }

  /** A run in production has its source requirement, for its revision, to itself, and plans that
      revision's ingredients. */
  ghost predicate RunOk(run: nat, c: Closure, w: World, productId: nat)
    requires ActiveRun(w, run, productId)
  {
    && w.runs[run].source in c.reqs
    && w.runs[run].source.key.revision == Some(w.runs[run].revision)
    && w.runs[run].revision in w.revisions
    && w.runs[run].planned.Keys == w.revisions[w.runs[run].revision].ingredients.Keys
    && (forall other :: ActiveRun(w, other, productId) && w.runs[other].source == w.runs[run].source ==> other == run)
  }

  /** References, uniqueness of keys and links, storable numbers, no requirement without a line, and run
      sources. Holds at all times. */
  ghost predicate Skeleton(c: Closure, w: World, productId: nat, generation: nat) {
    && (forall r :: r in c.reqs ==> ReqOk(r, w, productId, generation))
    && (forall r, q :: r in c.reqs && q in c.reqs && r.key == q.key ==> r == q)
    && (forall r :: r in c.reqs ==> StorableRequirement(c.reqs[r]))
    && (forall k :: k in c.links ==> k.req in c.reqs)
    && (forall r :: r in c.reqs ==> HasLine(c, r))
    && (forall k, m :: k in c.links && m in c.links && k.lineId == m.lineId ==> k == m)
    && (forall x :: x in c.rows ==> RowOk(x, c, w, productId))
    && (forall k :: k in c.claims ==> k.req in c.reqs)
    && (forall run :: ActiveRun(w, run, productId) ==> RunOk(run, c, w, productId))
  }

  /** The link says what its line says now. */
  predicate ProperLink(k: Link, w: World, productId: nat) {
    && LiveLine(w, k.lineId, productId)
    && w.lines[k.lineId].quantity == k.quantity
    && w.orders[w.lines[k.lineId].orderId].date == Some(k.req.key.date)
  }

  ghost predicate LotCaps(c: Closure, w: World, productId: nat) {
    forall l :: l in w.lots && w.lots[l].productId == productId ==> OnLot(c.rows, l) <= w.lots[l].physical
  }

  predicate FixedLine(c: Closure, w: World, l: nat, productId: nat) {
    ReadyLine(w, l, productId) || (l in w.lines && l in LockedLines(c, w))
  }

  ghost predicate FixedLineCaps(c: Closure, w: World, productId: nat) {
    forall l :: FixedLine(c, w, l, productId) ==> l in w.lines && OnLine(c.rows, l) <= StillOpen(w, l)
  }

  ghost predicate LineCaps(c: Closure, w: World, productId: nat) {
    forall l :: LiveLine(w, l, productId) ==> OnLine(c.rows, l) <= StillOpen(w, l)
  }

  /** What is fixed on each lot fits it. On a lot under reconciliation only run rows are fixed. */
  ghost predicate FixedLotCaps(c: Closure, w: World, productId: nat, impaired: set<nat>) {
    forall l :: l in w.lots && w.lots[l].productId == productId ==>
      OnLot(RunRows(c, w), l) + OnLot(ReadyRows(c, w, productId, impaired), l) <= w.lots[l].physical
  }

  /** Enough to rebuild from. */
  ghost predicate Base(c: Closure, w: World, productId: nat, generation: nat, impaired: set<nat>) {
    && Skeleton(c, w, productId, generation)
    && (forall k :: k in c.links && k.req in Protected(w) ==> ProperLink(k, w, productId))
    && FixedLotCaps(c, w, productId, impaired)
    && FixedLineCaps(c, w, productId)
  }

  lemma BaseHasSkeleton(c: Closure, w: World, p: nat, g: nat, impaired: set<nat>)
    requires Base(c, w, p, g, impaired)
    ensures Skeleton(c, w, p, g)
  {
  }

  // ---- what a rebuilt requirement says ----

  function LinkQuantity(k: Link): nat { k.quantity }

  function LinksOf(c: Closure, r: ReqId): set<Link> { set k | k in c.links && k.req == r }

  function LinesOf(c: Closure, r: ReqId): set<nat> { set k | k in c.links && k.req == r :: k.lineId }

  function ProducedAmong(outputs: seq<Output>, lines: set<nat>): nat {
    if outputs == [] then 0
    else
      var last := outputs[|outputs| - 1];
      ProducedAmong(outputs[..|outputs| - 1], lines) + if last.lineId in lines then last.quantity else 0
  }

  /** A requirement outside production is a function of the lines linked to it: their quantity, the
      surplus rows under it, what is still to make, the batches for that, and the reservations. */
  ghost predicate Meets(c: Closure, w: World, r: ReqId)
    requires r in c.reqs
  {
    && c.reqs[r].demand == SumBy(LinksOf(c, r), LinkQuantity)
    && c.reqs[r].surplus == OnReq(c.rows, r)
    && c.reqs[r].remaining == Shortage(c.reqs[r].demand, c.reqs[r].surplus + ProducedAmong(w.outputs, LinesOf(c, r)))
    && c.reqs[r].plan == PlanFor(c.reqs[r].remaining, w.revisions, r.key.revision)
  }

  ghost predicate ClaimsMeet(c: Closure, w: World, r: ReqId) {
    forall g, q: nat :: Claim(r, g, q) in c.claims <==>
      g in IngredientsOf(w.revisions, r) && q == Needed(c.reqs, w.revisions, r, g) && q > 0
  }

  /** A rebuilt closure: every link proper, every live line linked, nothing promised twice. */
  ghost predicate Clean(c: Closure, w: World, productId: nat, generation: nat) {
    && Skeleton(c, w, productId, generation)
    && (forall k :: k in c.links ==> ProperLink(k, w, productId))
    && (forall l :: LiveLine(w, l, productId) ==> HasLink(c, l))
    && LotCaps(c, w, productId)
    && LineCaps(c, w, productId)
    && (forall r :: r in c.reqs && r !in Protected(w) ==> Meets(c, w, r) && ClaimsMeet(c, w, r))
  }
}
