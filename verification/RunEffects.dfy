/** What a committed Start or Finish does to each table, field by field. */
module RunEffects {
  import opened Sorting
  import opened Deadlines
  import opened Tallies
  import opened PlanningState
  import opened Recalculation
  import opened PlanningInvariant
  import opened PlanningSystem
  import opened Lifecycle
  import opened SupplyTheorems
  import opened RequirementNumbers
  import opened ReadinessMeaning
  import opened OutputPriority
  import opened RebuildPriority
  import Sharing = ProductionOutput
  import Decimals = DecimalArithmetic

  // ---- Start ----

  /** The seller's count, or else the fewest batches that make what remains. */
  predicate IsCount(n: nat, batches: Option<nat>, remaining: nat, perBatch: nat) {
    match batches
    case Some(count) => n == count
    case None => n * perBatch >= remaining && (n == 0 || (n - 1) * perBatch < remaining)
  }

  predicate CanBeStored(quantity: nat) { quantity < 1_000_000_000_000_000_000 }

  /** What a Start for `r` needs: a requirement no run makes yet, with a recipe; a free run id; known costs; and
      a positive, storable count that covers what remains unless under-production is acknowledged. */
  predicate Startable(s: State, r: ReqId, run: nat, n: nat, costsKnown: bool, acknowledged: bool) {
    var c := ClosureOf(s, r.key.productId);
    && r in c.reqs && r.key.revision.Some? && r.key.revision.value in s.world.revisions
    && (forall m :: m in s.world.runs && s.world.runs[m].status == InProduction ==> s.world.runs[m].source != r)
    && run !in s.world.runs && costsKnown
    && 0 < n < 0x8000_0000
    && var revision := s.world.revisions[r.key.revision.value];
       && (revision.perBatch * n >= c.reqs[r].remaining || acknowledged)
       && CanBeStored(revision.perBatch * n)
       && forall i :: i in revision.ingredients ==> CanBeStored(revision.ingredients[i] * n)
  }

  /** Only the run row is written. It plans its revision's quantity per batch, times the count, of each
      ingredient of the revision. */
  predicate Started(s: State, s1: State, r: ReqId, run: nat, n: nat)
    requires r.key.revision.Some? && r.key.revision.value in s.world.revisions
  {
    var v := r.key.revision.value;
    && run in s1.world.runs
    && s1 == s.(world := s.world.(runs := s.world.runs[run := s1.world.runs[run]]))
    && s1.world.runs[run].source == r && s1.world.runs[run].productId == r.key.productId
    && s1.world.runs[run].revision == v && s1.world.runs[run].status == InProduction
    && s1.world.runs[run].planned.Keys == s.world.revisions[v].ingredients.Keys
    && forall i :: i in s.world.revisions[v].ingredients ==>
         s1.world.runs[run].planned[i] == s.world.revisions[v].ingredients[i] * n
  }

  lemma CountIsUnique(n: nat, m: nat, remaining: nat, perBatch: nat)
    requires IsCount(n, None, remaining, perBatch) && IsCount(m, None, remaining, perBatch) && perBatch > 0
    ensures n == m
  {
    if n < m { MoreBatchesMakeMore(n, m - 1, perBatch); }
    if m < n { MoreBatchesMakeMore(m, n - 1, perBatch); }
  }

  lemma MoreBatchesMakeMore(n: nat, m: nat, perBatch: nat)
    requires n <= m
    ensures n * perBatch <= m * perBatch
  {
  }

  /** The numbers a requirement has when Start finds it. */
  lemma RequirementFound(s: State, r: ReqId)
    requires Inv(s) && r in ClosureOf(s, r.key.productId).reqs && r !in Protected(s.world)
    ensures
      var q := ClosureOf(s, r.key.productId).reqs[r];
      && (q.plan.Some? <==> HasRecipe(s.world, r))
      && q.remaining < Decimals.NUMERIC_18_6_LIMIT
      && (HasRecipe(s.world, r) ==>
            var v := s.world.revisions[r.key.revision.value];
            var plan := PlanFor(q.remaining, s.world.revisions, r.key.revision);
            v.perBatch > 0 && plan.Some? && FewestBatches(plan.value, q.remaining, v.perBatch))
  {
    hide Meets, ClaimsMeet, LotCaps, LineCaps, ReadySatisfied, StockOk, RowOk, RunOk, ProperLink, HasLink, HasLine,
      PlanFor, NumbersFollow, ReservesItsBatches, FewestBatches;
    var p := r.key.productId;
    ReqIsProduced(s, r);
    assert ProductClean(s, p);
    var c := ClosureOf(s, p);
    assert StorableRequirement(c.reqs[r]);
    MeetingIsFollowing(c, s.world, p, s.generation, r);
    PlanKnown(c, s.world, r);
    if HasRecipe(s.world, r) { PlanIsFewestBatches(c.reqs[r].remaining, s.world.revisions, r.key.revision.value); }
  }

  lemma PlanKnown(c: Closure, w: World, r: ReqId)
    requires r in c.reqs && NumbersFollow(c, w, r)
    ensures c.reqs[r].plan.Some? <==> HasRecipe(w, r)
  {
    hide SumBy, OnReq, ProducedAmong, FewestBatches;
  }

  lemma ProtectedIs(w: World, r: ReqId)
    ensures r !in Protected(w) <==>
      forall m :: m in w.runs && w.runs[m].status == InProduction ==> w.runs[m].source != r
  {
  }

  lemma PlanFits(revision: Revision, n: nat)
    ensures RunFits(revision.perBatch * n, map i | i in revision.ingredients :: revision.ingredients[i] * n)
      <==> CanBeStored(revision.perBatch * n)
           && forall i :: i in revision.ingredients ==> CanBeStored(revision.ingredients[i] * n)
  {
    var planned := map i | i in revision.ingredients :: revision.ingredients[i] * n;
    assert planned.Keys == revision.ingredients.Keys;
    forall i | i in revision.ingredients ensures planned[i] == revision.ingredients[i] * n {}
    FitsIs(revision.perBatch * n, planned);
    if RunFits(revision.perBatch * n, planned) {
      forall i | i in revision.ingredients ensures CanBeStored(revision.ingredients[i] * n) {
        assert CanBeStored(planned[i]);
      }
    }
  }

  lemma FitsIs(output: nat, planned: map<nat, nat>)
    ensures RunFits(output, planned) <==> CanBeStored(output) && forall i :: i in planned ==> CanBeStored(planned[i])
  {
  }

  /** The count Start takes when the seller gives none. */
  lemma CountIsTheDefault(s: State, r: ReqId, n: nat)
    requires Inv(s) && r in ClosureOf(s, r.key.productId).reqs && r !in Protected(s.world) && HasRecipe(s.world, r)
    requires
      IsCount(n, None, ClosureOf(s, r.key.productId).reqs[r].remaining,
        s.world.revisions[r.key.revision.value].perBatch)
    ensures
      var plan := PlanFor(ClosureOf(s, r.key.productId).reqs[r].remaining, s.world.revisions, r.key.revision);
      plan.Some? && plan.value.batches == n
  {
    hide Inv, PlanFor;
    RequirementFound(s, r);
    var q, v := ClosureOf(s, r.key.productId).reqs[r], s.world.revisions[r.key.revision.value];
    CountIsUnique(n, PlanFor(q.remaining, s.world.revisions, r.key.revision).value.batches, q.remaining, v.perBatch);
  }

  /** Start commits exactly when its count can be started, and then plans that count. */
  lemma StartPlansItsCount(
      s: State, r: ReqId, run: nat, batches: Option<nat>, costsKnown: bool, acknowledged: bool, n: nat)
    requires Inv(s)
    requires r in ClosureOf(s, r.key.productId).reqs && HasRecipe(s.world, r) ==>
      IsCount(n, batches, ClosureOf(s, r.key.productId).reqs[r].remaining,
        s.world.revisions[r.key.revision.value].perBatch)
    ensures Start(s, r, run, batches, costsKnown, acknowledged).Done?
      <==> Startable(s, r, run, n, costsKnown, acknowledged)
    ensures Start(s, r, run, batches, costsKnown, acknowledged).Done? ==>
      Started(s, Start(s, r, run, batches, costsKnown, acknowledged).state, r, run, n)
  {
    hide Inv, PlanFor, FewestBatches, Protected, RunFits;
    ProtectedIs(s.world, r);
    if r in ClosureOf(s, r.key.productId).reqs && r !in Protected(s.world) {
      RequirementFound(s, r);
      if HasRecipe(s.world, r) {
        if batches.None? { CountIsTheDefault(s, r, n); }
        PlanFits(s.world.revisions[r.key.revision.value], n);
      }
    }
  }

  // ---- Finish: who gets the output ----

  /** A line of the product on a locked order with a date. */
  predicate Receives(s: State, p: nat, locked: set<nat>, l: nat) {
    && l in s.world.lines && s.world.lines[l].source == OfProduct(p) && s.world.lines[l].orderId in locked
    && s.world.lines[l].orderId in s.world.orders && s.world.orders[s.world.lines[l].orderId].date.Some?
  }

  /** Its quantity, less the output it received and the surplus it is promised. */
  function Lacks(s: State, p: nat, l: nat): nat {
    if l !in s.world.lines then 0
    else
      var has := ProducedFor(s.world.outputs, l) + OnLine(ClosureOf(s, p).rows, l);
      if has >= s.world.lines[l].quantity then 0 else s.world.lines[l].quantity - has
  }

  function LackOf(s: State, p: nat): nat -> nat { (l: nat) => Lacks(s, p, l) }

  function Receivers(s: State, p: nat, locked: set<nat>): set<nat> {
    set l | l in s.world.lines && Receives(s, p, locked, l)
  }

  function ReceiversBefore(s: State, p: nat, locked: set<nat>, l: nat): set<nat>
    requires Receives(s, p, locked, l)
  {
    set a | a in s.world.lines && Receives(s, p, locked, a)
      && DueBefore(LineDeadline(s.world, a), LineDeadline(s.world, l))
  }

  lemma ReceiversAre(s: State, p: nat, locked: set<nat>)
    ensures Receivers(s, p, locked) == RecipientLines(s.world, p, locked)
  {
  }

  function LinesFor(s: State, p: nat, locked: set<nat>, ids: set<nat>): set<Sharing.DemandLine>
    requires forall l :: l in ids ==> Receives(s, p, locked, l)
  {
    set l | l in ids && Receives(s, p, locked, l) :: OutstandingLine(s, p, l)
  }

  lemma LineWants(s: State, p: nat, l: nat)
    requires l in s.world.lines && s.world.lines[l].orderId in s.world.orders
    ensures Wants(OutstandingLine(s, p, l)) == LackOf(s, p)(l)
    ensures OutstandingLine(s, p, l).lineId == l && OutstandingLine(s, p, l).productId == p
  {
  }

  lemma {:induction false} LinesForSum(s: State, p: nat, locked: set<nat>, ids: set<nat>)
    requires forall l :: l in ids ==> Receives(s, p, locked, l)
    ensures SumBy(LinesFor(s, p, locked, ids), Wants) == SumBy(ids, LackOf(s, p))
    decreases ids
  {
    hide OutstandingLine, Wants, LackOf;
    if ids == {} {
      assert LinesFor(s, p, locked, ids) == {};
    } else {
      var l :| l in ids;
      var rest := ids - {l};
      LinesForSum(s, p, locked, rest);
      forall m | m in ids ensures OutstandingLine(s, p, m).lineId == m { LineWants(s, p, m); }
      LineWants(s, p, l);
      SumRemove(ids, LackOf(s, p), l);
      SumAdd(LinesFor(s, p, locked, rest), Wants, OutstandingLine(s, p, l));
      assert LinesFor(s, p, locked, ids) == LinesFor(s, p, locked, rest) + {OutstandingLine(s, p, l)};
    }
  }

  lemma WaitingAre(s: State, p: nat, locked: set<nat>)
    ensures Waiting(Outstanding(s, p, locked), p) == LinesFor(s, p, locked, Receivers(s, p, locked))
  {
    hide OutstandingLine, RecipientLines;
    OutstandingAre(s, p, locked);
    ReceiversAre(s, p, locked);
    var lines := Outstanding(s, p, locked);
    forall x ensures x in Waiting(lines, p) <==> x in LinesFor(s, p, locked, Receivers(s, p, locked)) {
      if x in lines {
        var i :| 0 <= i < |lines| && lines[i] == x;
        assert x == OutstandingLine(s, p, x.lineId);
      }
      if x in LinesFor(s, p, locked, Receivers(s, p, locked)) {
        var l :| l in Receivers(s, p, locked) && x == OutstandingLine(s, p, l);
        LineWants(s, p, l);
      }
    }
  }

  lemma OrdersAgree(s: State, p: nat, locked: set<nat>, a: nat, b: nat)
    requires Receives(s, p, locked, a) && Receives(s, p, locked, b)
    ensures WaitsBefore(OutstandingLine(s, p, a), OutstandingLine(s, p, b)) <==>
      DueBefore(LineDeadline(s.world, a), LineDeadline(s.world, b))
  {
  }

  lemma AheadAre(s: State, p: nat, locked: set<nat>, l: nat)
    requires Receives(s, p, locked, l)
    ensures Ahead(Outstanding(s, p, locked), OutstandingLine(s, p, l))
      == LinesFor(s, p, locked, ReceiversBefore(s, p, locked, l))
  {
    hide OutstandingLine, RecipientLines, WaitsBefore, DueBefore;
    WaitingAre(s, p, locked);
    var lines, line := Outstanding(s, p, locked), OutstandingLine(s, p, l);
    LineWants(s, p, l);
    forall x ensures x in Ahead(lines, line) <==> x in LinesFor(s, p, locked, ReceiversBefore(s, p, locked, l)) {
      if x in Ahead(lines, line) {
        assert x in Waiting(lines, p);
        var a :| a in Receivers(s, p, locked) && x == OutstandingLine(s, p, a);
        OrdersAgree(s, p, locked, a, l);
      }
      if x in LinesFor(s, p, locked, ReceiversBefore(s, p, locked, l)) {
        var a :| a in ReceiversBefore(s, p, locked, l) && x == OutstandingLine(s, p, a);
        assert x in Waiting(lines, p);
        OrdersAgree(s, p, locked, a, l);
      }
    }
  }

  /** What is over once every receiver has what it lacks. */
  ghost function Rest(s: State, p: nat, locked: set<nat>, output: nat): nat {
    var lacking := SumBy(Receivers(s, p, locked), LackOf(s, p));
    if output > lacking then output - lacking else 0
  }

  lemma ExcessIsTheRest(s: State, p: nat, locked: set<nat>, output: nat)
    ensures ExcessOf(s, p, locked, output) == Rest(s, p, locked, output)
  {
    hide Outstanding, LackOf, Sharing.Excess, Sharing.InOrder;
    OutstandingAre(s, p, locked);
    RestIsOver(Outstanding(s, p, locked), output, p);
    WaitingAre(s, p, locked);
    LinesForSum(s, p, locked, Receivers(s, p, locked));
  }

  /** What a line gains from an output. */
  ghost function Gain(s: State, p: nat, locked: set<nat>, output: nat, l: nat): nat {
    if Receives(s, p, locked, l)
    then Granted(Lacks(s, p, l), output, SumBy(ReceiversBefore(s, p, locked, l), LackOf(s, p)))
    else 0
  }

  lemma ShareIsTheGain(s: State, p: nat, locked: set<nat>, output: nat, l: nat)
    ensures Sharing.GivenTo(SharesOf(s, p, locked, output), l) == Gain(s, p, locked, output, l)
  {
    hide Outstanding, Sharing.GivenTo, Sharing.Shares, Sharing.InOrder, OutstandingLine, RecipientLines;
    OutstandingAre(s, p, locked);
    ReceiversAre(s, p, locked);
    if Receives(s, p, locked, l) {
      LineWants(s, p, l);
      LineGetsWhatIsLeft(Outstanding(s, p, locked), output, OutstandingLine(s, p, l));
      AheadAre(s, p, locked, l);
      LinesForSum(s, p, locked, ReceiversBefore(s, p, locked, l));
    } else {
      SharesAreSound(s, p, locked, output);
      NothingGiven(SharesOf(s, p, locked, output), l);
    }
  }

  // ---- Finish: what it writes ----

  function TotalOf(outputs: seq<Output>): nat {
    if outputs == [] then 0 else TotalOf(outputs[..|outputs| - 1]) + outputs[|outputs| - 1].quantity
  }

  /** Output rows of this run, for receivers only, give each line its gain. With the rest, which goes to a new lot
      if there is any, they make up the output. */
  ghost predicate OutputShared(s: State, s1: State, run: nat, output: nat, locked: set<nat>, facts: LotFacts)
    requires run in s.world.runs
  {
    var p, n := s.world.runs[run].productId, |s.world.outputs|;
    var rest := Rest(s, p, locked, output);
    && n <= |s1.world.outputs| && s1.world.outputs[..n] == s.world.outputs
    && (forall x :: x in s1.world.outputs[n..] ==>
          x.runId == run && x.quantity > 0 && Receives(s, p, locked, x.lineId))
    && (forall l :: ProducedFor(s1.world.outputs, l) == ProducedFor(s.world.outputs, l) + Gain(s, p, locked, output, l))
    && TotalOf(s1.world.outputs[n..]) + rest == output
    && s1.world.lots ==
         if rest == 0 then s.world.lots
         else s.world.lots[facts.id := Lot(p, rest, facts.usableThrough, facts.producedAt, facts.reusable)]
  }

  /** Each planned ingredient falls by its override, or by its plan if it has none; the others stay. */
  predicate IngredientsUsed(s: State, s1: State, run: nat, overrides: map<nat, nat>)
    requires run in s.world.runs
  {
    var planned := s.world.runs[run].planned;
    && s1.ingredients.Keys == s.ingredients.Keys
    && (forall i :: i in s.ingredients && i !in planned ==> s1.ingredients[i] == s.ingredients[i])
    && (forall i :: i in s.ingredients && i in planned && i in overrides ==>
          s1.ingredients[i] == s.ingredients[i] - overrides[i])
    && (forall i :: i in s.ingredients && i in planned && i !in overrides ==>
          s1.ingredients[i] == s.ingredients[i] - planned[i])
  }

  function TakenFrom(ingredientId: nat, quantity: nat): Entry { Entry(IngredientAccount(ingredientId), 0 - quantity) }

  /** The ledger gets one entry for each planned ingredient and one for a new lot. */
  ghost predicate UseRecorded(s: State, s1: State, run: nat, overrides: map<nat, nat>, lot: nat, rest: nat)
    requires run in s.world.runs
  {
    var planned, n := s.world.runs[run].planned, |s.ledger|;
    && n <= |s1.ledger| && s1.ledger[..n] == s.ledger
    && var more := s1.ledger[n..];
       && |more| == |planned| + (if rest == 0 then 0 else 1)
       && (forall i :: i in planned && i in overrides ==>
             TakenFrom(i, overrides[i]) in more[..|planned|])
       && (forall i :: i in planned && i !in overrides ==>
             TakenFrom(i, planned[i]) in more[..|planned|])
       && (rest > 0 ==> more[|planned|] == Entry(LotAccount(lot), rest))
  }

  lemma {:induction false} OutputsTotal(run: nat, shares: seq<Sharing.Share>)
    requires forall x :: x in shares ==> x.quantity > 0
    ensures TotalOf(Outputs(run, shares)) == Sharing.Given(shares)
  {
    if shares != [] {
      var n := |shares| - 1;
      assert shares[n] in shares;
      OutputsTotal(run, shares[..n]);
      var last := Output(run, shares[n].lineId, shares[n].quantity);
      assert (Outputs(run, shares[..n]) + [last])[..|Outputs(run, shares[..n])|] == Outputs(run, shares[..n]);
    }
  }

  /** The added rows, seen by themselves. */
  lemma AddedRows(s: State, p: nat, run: nat, locked: set<nat>, output: nat)
    ensures
      var added := Outputs(run, SharesOf(s, p, locked, output));
      && (forall x :: x in added ==> x.runId == run && x.quantity > 0 && Receives(s, p, locked, x.lineId))
      && (forall l :: ProducedFor(added, l) == Gain(s, p, locked, output, l))
      && TotalOf(added) + Rest(s, p, locked, output) == output
  {
    hide SharesOf, ExcessOf, Gain, Rest, Outputs, TotalOf, ProducedFor, Sharing.GivenTo, Sharing.Given;
    var shares := SharesOf(s, p, locked, output);
    SharesAreSound(s, p, locked, output);
    ReceiversAre(s, p, locked);
    ExcessIsTheRest(s, p, locked, output);
    OutputsTotal(run, shares);
    OutputsGive(run, shares, 0);
    forall l ensures ProducedFor(Outputs(run, shares), l) == Gain(s, p, locked, output, l) {
      OutputsGive(run, shares, l);
      ShareIsTheGain(s, p, locked, output, l);
    }
  }

  lemma NothingToShare(s: State, p: nat, locked: set<nat>, l: nat)
    ensures Rest(s, p, locked, 0) == 0 && Gain(s, p, locked, 0, l) == 0
  {
  }

  lemma SharedFrom(
      s: State, s1: State, run: nat, output: nat, locked: set<nat>, facts: LotFacts, added: seq<Output>)
    requires run in s.world.runs && s1.world.outputs == s.world.outputs + added
    requires
      var p := s.world.runs[run].productId;
      var rest := Rest(s, p, locked, output);
      && (forall x :: x in added ==> x.runId == run && x.quantity > 0 && Receives(s, p, locked, x.lineId))
      && (forall l :: ProducedFor(added, l) == Gain(s, p, locked, output, l))
      && TotalOf(added) + rest == output
      && s1.world.lots ==
           if rest == 0 then s.world.lots
           else s.world.lots[facts.id := Lot(p, rest, facts.usableThrough, facts.producedAt, facts.reusable)]
    ensures OutputShared(s, s1, run, output, locked, facts)
  {
    hide Gain, Rest, TotalOf, ProducedFor, Receives;
    var n, p := |s.world.outputs|, s.world.runs[run].productId;
    assert s1.world.outputs[..n] == s.world.outputs && s1.world.outputs[n..] == added;
    forall l
      ensures ProducedFor(s1.world.outputs, l) == ProducedFor(s.world.outputs, l) + Gain(s, p, locked, output, l)
    {
      ProducedConcat(s.world.outputs, added, l);
    }
  }

  lemma LotsAfter(s: State, run: nat, output: nat, overrides: map<nat, nat>, locked: set<nat>, facts: LotFacts)
    requires run in s.world.runs
    ensures
      var p := s.world.runs[run].productId;
      var rest := Rest(s, p, locked, output);
      JustProduced(s, run, output, overrides, locked, facts).world.lots ==
        if rest == 0 then s.world.lots
        else s.world.lots[facts.id := Lot(p, rest, facts.usableThrough, facts.producedAt, facts.reusable)]
  {
    EndedShape(s, run, overrides);
    hide SharesOf, ExcessOf, Outputs, Rest, Consumed, RunEnded;
    var p := s.world.runs[run].productId;
    ExcessIsTheRest(s, p, locked, output);
    NothingToShare(s, p, locked, 0);
    if output > 0 {
      var shared := WithOutputs(RunEnded(Consumed(s, run, overrides), run, Finished),
        Outputs(run, SharesOf(s, p, locked, output)));
      LotsWithExcess(shared, p, facts, ExcessOf(s, p, locked, output));
      hide WithExcess;
    }
  }

  lemma LotsWithExcess(s: State, p: nat, facts: LotFacts, excess: int)
    ensures WithExcess(s, p, facts, excess).world.lots ==
      if excess > 0
      then s.world.lots[facts.id := Lot(p, excess, facts.usableThrough, facts.producedAt, facts.reusable)]
      else s.world.lots
  {
  }

  lemma NoRows(s: State, p: nat, locked: set<nat>)
    ensures TotalOf([]) == 0 && forall l :: ProducedFor([], l) == Gain(s, p, locked, 0, l)
  {
    forall l ensures ProducedFor([], l) == Gain(s, p, locked, 0, l) { NothingToShare(s, p, locked, l); }
  }

  /** The outputs and lots just before recalculation. */
  lemma SharedBeforeReplanning(
      s: State, run: nat, output: nat, overrides: map<nat, nat>, locked: set<nat>, facts: LotFacts)
    requires run in s.world.runs && facts.id !in s.world.lots
    ensures OutputShared(s, JustProduced(s, run, output, overrides, locked, facts), run, output, locked, facts)
  {
    hide SharesOf, Outputs, Gain, Rest, Receives, JustProduced, ProducedFor, TotalOf, OutputShared;
    var p := s.world.runs[run].productId;
    var added := if output == 0 then [] else Outputs(run, SharesOf(s, p, locked, output));
    FinishedWorld(s, run, output, overrides, locked, facts);
    LotsAfter(s, run, output, overrides, locked, facts);
    if output == 0 {
      NoRows(s, p, locked);
      NothingToShare(s, p, locked, 0);
    } else {
      AddedRows(s, p, run, locked, output);
    }
    SharedFrom(s, JustProduced(s, run, output, overrides, locked, facts), run, output, locked, facts, added);
  }

  lemma {:induction false} UsageIsListed(planned: map<nat, nat>, overrides: map<nat, nat>, ids: seq<nat>)
    requires forall i :: i in ids ==> i in planned
    ensures |UsageEntries(planned, overrides, ids)| == |ids|
    ensures forall i :: i in ids && i in overrides ==>
      TakenFrom(i, overrides[i]) in UsageEntries(planned, overrides, ids)
    ensures forall i :: i in ids && i !in overrides ==>
      TakenFrom(i, planned[i]) in UsageEntries(planned, overrides, ids)
  {
    if ids != [] {
      var n := |ids| - 1;
      assert ids == ids[..n] + [ids[n]];
      UsageIsListed(planned, overrides, ids[..n]);
    }
  }

  lemma {:induction false} AscendingCounts(ids: set<nat>)
    ensures |Ascending(ids)| == |ids|
    decreases ids
  {
    if ids != {} { AscendingCounts(ids - {Least(ids)}); }
  }

  lemma ProducedShape(s: State, run: nat, output: nat, overrides: map<nat, nat>, locked: set<nat>, facts: LotFacts)
    requires run in s.world.runs
    ensures
      var s1 := JustProduced(s, run, output, overrides, locked, facts);
      var planned := s.world.runs[run].planned;
      var rest := Rest(s, s.world.runs[run].productId, locked, output);
      && s1.ingredients == Consumed(s, run, overrides).ingredients
      && s1.ledger == s.ledger + (UsageEntries(planned, overrides, Ascending(planned.Keys))
           + if rest == 0 then [] else [Entry(LotAccount(facts.id), rest)])
  {
    hide SharesOf, ExcessOf, Outputs, UsageEntries, Rest, Usage;
    ExcessIsTheRest(s, s.world.runs[run].productId, locked, output);
    NothingToShare(s, s.world.runs[run].productId, locked, 0);
  }

  lemma ConsumedUses(s: State, s1: State, run: nat, overrides: map<nat, nat>)
    requires run in s.world.runs && s1.ingredients == Consumed(s, run, overrides).ingredients
    ensures IngredientsUsed(s, s1, run, overrides)
  {
    hide UsageEntries;
  }

  lemma UsageIsRecorded(s: State, s1: State, run: nat, overrides: map<nat, nat>, lot: nat, rest: nat)
    requires run in s.world.runs
    requires
      var planned := s.world.runs[run].planned;
      s1.ledger == s.ledger + (UsageEntries(planned, overrides, Ascending(planned.Keys))
        + if rest == 0 then [] else [Entry(LotAccount(lot), rest)])
    ensures UseRecorded(s, s1, run, overrides, lot, rest)
  {
    var planned := s.world.runs[run].planned;
    var ids := Ascending(planned.Keys);
    AscendingIs(planned.Keys);
    AscendingCounts(planned.Keys);
    assert |planned.Keys| == |planned|;
    UsageIsListed(planned, overrides, ids);
    RecordedFrom(s, s1, run, overrides, lot, rest, UsageEntries(planned, overrides, ids));
  }

  lemma RecordedFrom(
      s: State, s1: State, run: nat, overrides: map<nat, nat>, lot: nat, rest: nat, usage: seq<Entry>)
    requires run in s.world.runs && |usage| == |s.world.runs[run].planned|
    requires forall i :: i in s.world.runs[run].planned && i in overrides ==> TakenFrom(i, overrides[i]) in usage
    requires forall i :: i in s.world.runs[run].planned && i !in overrides ==>
      TakenFrom(i, s.world.runs[run].planned[i]) in usage
    requires s1.ledger == s.ledger + (usage + if rest == 0 then [] else [Entry(LotAccount(lot), rest)])
    ensures UseRecorded(s, s1, run, overrides, lot, rest)
  {
    hide TakenFrom;
    Appended(s.ledger, s1.ledger, usage, if rest == 0 then [] else [Entry(LotAccount(lot), rest)]);
  }

  lemma Appended<T>(before: seq<T>, after: seq<T>, a: seq<T>, b: seq<T>)
    requires after == before + (a + b)
    ensures |before| <= |after| && after[..|before|] == before && after[|before|..] == a + b && (a + b)[..|a|] == a
  {
  }

  /** The run ended, its output shared, its ingredients used. Beyond that only its product was recalculated and
      the locked orders judged. */
  ghost predicate RunFinished(
      s: State, s1: State, run: nat, output: nat, overrides: map<nat, nat>, locked: set<nat>, facts: LotFacts)
    requires run in s.world.runs
  {
    var p := s.world.runs[run].productId;
    && s.world.runs[run].status == InProduction && overrides.Keys <= s.world.runs[run].planned.Keys
    && facts.id !in s.world.lots
    && OutputShared(s, s1, run, output, locked, facts)
    && IngredientsUsed(s, s1, run, overrides)
    && UseRecorded(s, s1, run, overrides, facts.id, Rest(s, p, locked, output))
    && ClosuresKept(s, s1, {p})
    && Judged(
         s.(world := s.world.(runs := s.world.runs[run := s.world.runs[run].(status := Finished)],
              lots := s1.world.lots, outputs := s1.world.outputs),
            ingredients := s1.ingredients, ledger := s1.ledger),
         s1, locked)
  }

  lemma FinishIsExact(
      s: State, run: nat, output: nat, overrides: map<nat, nat>, locked: set<nat>, today: int, facts: LotFacts)
    requires Finish(s, run, output, overrides, locked, today, facts).Done?
    ensures RunFinished(s, Finish(s, run, output, overrides, locked, today, facts).state, run, output, overrides,
      locked, facts)
  {
    hide JustProduced, Settle, OutputShared, IngredientsUsed, UseRecorded, ClosuresKept, UsageEntries, Outputs,
      SharesOf, Consumed, UsageFits, Candidates, Rest, Judged;
    var p := s.world.runs[run].productId;
    var mid := JustProduced(s, run, output, overrides, locked, facts);
    FinishedWorld(s, run, output, overrides, locked, facts);
    SharedBeforeReplanning(s, run, output, overrides, locked, facts);
    ProducedShape(s, run, output, overrides, locked, facts);
    ConsumedUses(s, mid, run, overrides);
    UsageIsRecorded(s, mid, run, overrides, facts.id, Rest(s, p, locked, output));
    SettlingIsExact(mid, {p}, locked, today);
    var s1 := Finish(s, run, output, overrides, locked, today, facts).state;
    JudgedKeeps(mid, s1, locked);
    SameTables(s, mid, s1, run, output, overrides, locked, facts);
    assert mid == s.(world := s.world.(runs := s.world.runs[run := s.world.runs[run].(status := Finished)],
        lots := s1.world.lots, outputs := s1.world.outputs),
      ingredients := s1.ingredients, ledger := s1.ledger);
    SameClosures(s, mid, s1, {p});
  }

  lemma SameClosures(s: State, mid: State, s1: State, products: set<nat>)
    requires mid.closures == s.closures && ClosuresKept(mid, s1, products)
    ensures ClosuresKept(s, s1, products)
  {
    forall p ensures ClosureOf(mid, p) == ClosureOf(s, p) {}
  }

  lemma JudgedKeeps(s: State, s1: State, judged: set<nat>)
    requires Judged(s, s1, judged)
    ensures s1.world == s.world.(orders := s1.world.orders)
      && s1.ingredients == s.ingredients && s1.ledger == s.ledger && s1.stock == s.stock
  {
    hide OrderCovered;
  }

  /** What Finish wrote reads the same once the statuses are judged. */
  lemma SameTables(
      s: State, mid: State, s1: State, run: nat, output: nat, overrides: map<nat, nat>, locked: set<nat>,
      facts: LotFacts)
    requires run in s.world.runs
    requires s1.world == mid.world.(orders := s1.world.orders)
      && s1.ingredients == mid.ingredients && s1.ledger == mid.ledger
    ensures OutputShared(s, mid, run, output, locked, facts) ==> OutputShared(s, s1, run, output, locked, facts)
    ensures IngredientsUsed(s, mid, run, overrides) ==> IngredientsUsed(s, s1, run, overrides)
    ensures forall rest ::
      UseRecorded(s, mid, run, overrides, facts.id, rest) ==> UseRecorded(s, s1, run, overrides, facts.id, rest)
  {
    hide Rest, Gain, TotalOf, Receives, ProducedFor;
  }
}
