/** What a rebuilt requirement's numbers are, spelled out: its demand, what is still to make, the fewest
    whole batches for that, and the ingredients they take. */
module RequirementNumbers {
  import opened Sorting
  import opened Tallies
  import opened PlanningState
  import opened Recalculation
  import opened PlanningInvariant
  import opened RecalculationTheorems
  import opened PlanningSystem
  import Decimals = DecimalArithmetic

  /** The recipe revision the requirement is for, if the catalog has it. */
  predicate HasRecipe(w: World, r: ReqId) { r.key.revision.Some? && r.key.revision.value in w.revisions }

  /** What is still to make: what the lines ask for, less surplus and finished output, never negative. */
  predicate StillToMake(remaining: nat, demand: nat, surplus: nat, produced: nat) {
    if demand <= surplus + produced then remaining == 0 else remaining == demand - surplus - produced
  }

  /** The fewest whole batches that make `remaining`, what they yield, and what is over. */
  predicate FewestBatches(b: Batches, remaining: nat, perBatch: nat) {
    && b.batches * perBatch >= remaining
    && (b.batches == 0 || (b.batches - 1) * perBatch < remaining)
    && b.output == b.batches * perBatch
    && b.excess == b.output - remaining
  }

  /** A requirement's numbers follow from its links, its surplus rows and the finished output of its lines. */
  ghost predicate NumbersFollow(c: Closure, w: World, r: ReqId)
    requires r in c.reqs
  {
    && c.reqs[r].demand == SumBy((set k | k in c.links && k.req == r), LinkQuantity)
    && c.reqs[r].surplus == OnReq(c.rows, r)
    && StillToMake(c.reqs[r].remaining, c.reqs[r].demand, c.reqs[r].surplus,
         ProducedAmong(w.outputs, (set k | k in c.links && k.req == r :: k.lineId)))
    && (c.reqs[r].plan.Some? <==> HasRecipe(w, r))
    && (HasRecipe(w, r) ==>
          FewestBatches(c.reqs[r].plan.value, c.reqs[r].remaining, w.revisions[r.key.revision.value].perBatch))
  }

  /** Its ingredient reservations are exactly its batches' worth of each ingredient of its revision. */
  ghost predicate ReservesItsBatches(c: Closure, w: World, r: ReqId)
    requires r in c.reqs && (c.reqs[r].plan.Some? <==> HasRecipe(w, r))
  {
    forall g, q: nat :: Claim(r, g, q) in c.claims <==>
      && HasRecipe(w, r)
      && g in w.revisions[r.key.revision.value].ingredients
      && q == w.revisions[r.key.revision.value].ingredients[g] * c.reqs[r].plan.value.batches
      && q > 0
  }

  lemma PlanIsFewestBatches(remaining: nat, revisions: map<nat, Revision>, v: nat)
    requires v in revisions && revisions[v].perBatch > 0 && remaining < Decimals.NUMERIC_18_6_LIMIT
    ensures PlanFor(remaining, revisions, Some(v)).Some?
    ensures FewestBatches(PlanFor(remaining, revisions, Some(v)).value, remaining, revisions[v].perBatch)
  {
    hide Decimals.WholeBatchPlan;
    var perBatch := revisions[v].perBatch;
    Decimals.PlanIsLeastCover(remaining, perBatch);
    var b := PlanFor(remaining, revisions, Some(v)).value;
    assert (b.batches - 1) * perBatch == b.batches * perBatch - perBatch;
  }

  lemma MeetingIsFollowing(c: Closure, w: World, p: nat, g: nat, r: ReqId)
    requires WorldOk(w) && Clean(c, w, p, g) && r in c.reqs && r !in Protected(w)
    ensures NumbersFollow(c, w, r) && ReservesItsBatches(c, w, r)
  {
    hide PlanFor, SumBy, OnReq, ProducedAmong, LotCaps, LineCaps, ProperLink, HasLink, RowOk, RunOk, FewestBatches;
    assert Meets(c, w, r) && ClaimsMeet(c, w, r) && StorableRequirement(c.reqs[r]);
    if HasRecipe(w, r) {
      PlanIsFewestBatches(c.reqs[r].remaining, w.revisions, r.key.revision.value);
    } else {
      NoPlan(c.reqs[r].remaining, w, r);
    }
  }

  lemma NoPlan(remaining: nat, w: World, r: ReqId)
    requires !HasRecipe(w, r)
    ensures PlanFor(remaining, w.revisions, r.key.revision).None?
  {
  }

  /** Every successful recalculation from a legal state, whatever lots it reopens, leaves such numbers on every
      requirement it may rebuild. */
  lemma RecalculationSetsTheNumbers(s: State, p: nat, today: int, impaired: set<nat>, r: ReqId)
    requires Inv(s) && IsProduced(s.world, p) && Recalculate(s, p, today, impaired).Done?
    requires
      var c := ClosureOf(Recalculate(s, p, today, impaired).state, p);
      r in c.reqs && r !in Protected(s.world)
    ensures
      var c := ClosureOf(Recalculate(s, p, today, impaired).state, p);
      NumbersFollow(c, s.world, r) && ReservesItsBatches(c, s.world, r)
  {
    hide Clean, Base, WorldOk, Recalculate, ReadySatisfied, StockOk, NumbersFollow, ReservesItsBatches;
    assert ProductClean(s, p);
    CleanIsBase(ClosureOf(s, p), s.world, p, s.generation, impaired);
    RecalculateOne(s, p, today, impaired);
    var s1 := Recalculate(s, p, today, impaired).state;
    MeetingIsFollowing(ClosureOf(s1, p), s.world, p, s1.generation, r);
  }
}
