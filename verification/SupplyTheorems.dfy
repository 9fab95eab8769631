/** Runs, stock and lots: starting, finishing and canceling a run, and every stock movement, keep the
    planning invariant. */
module SupplyTheorems {
  import opened Sorting
  import opened Tallies
  import opened PlanningState
  import opened Recalculation
  import opened PlanningInvariant
  import opened RecalculationTheorems
  import opened PlanningSystem
  import opened WorldChanges
  import opened Lifecycle
  import opened LifecycleTheorems
  import Sharing = ProductionOutput

  // ---- ledger arithmetic ----

  lemma {:induction false} LedgerConcat(a: seq<Entry>, b: seq<Entry>, account: Account)
    ensures LedgerSum(a + b, account) == LedgerSum(a, account) + LedgerSum(b, account)
  {
    if b == [] {
      assert a + b == a;
    } else {
      LedgerConcat(a, b[..|b| - 1], account);
      assert (a + b)[..|a + b| - 1] == a + b[..|b| - 1];
    }
  }

  lemma OneEntry(a: seq<Entry>, e: Entry, account: Account)
    ensures LedgerSum(a + [e], account) == LedgerSum(a, account) + if e.account == account then e.change else 0
  {
    assert (a + [e])[..|a|] == a;
  }

  // ---- starting a run ----

  /** Start puts one requirement behind a run and changes nothing else a closure says. */
  lemma StartedClean(c: Closure, w: World, w1: World, r: ReqId, run: nat, planned: map<nat, nat>, p: nat, g: nat)
    requires Clean(c, w, p, g) && r in c.reqs && r !in Protected(w) && run !in w.runs && r.key.productId == p
    requires r.key.revision.Some? && r.key.revision.value in w.revisions
    requires planned.Keys == w.revisions[r.key.revision.value].ingredients.Keys
    requires w1 == w.(runs := w.runs[run := Run(r, p, r.key.revision.value, InProduction, planned)])
    ensures Clean(c, w1, p, g)
  {
    StartedSkeleton(c, w, w1, r, run, planned, p, g);
    CapsIgnoreRuns(c, w, w1, p);
    hide Skeleton, HasLink, LotCaps, LineCaps, Meets, ClaimsMeet, Protected, ProducedFor;
    forall q | q in c.reqs && q !in Protected(w1) ensures Meets(c, w1, q) && ClaimsMeet(c, w1, q) {
      ProtectedGrows(w, w1, run, q);
      assert Meets(c, w, q) && ClaimsMeet(c, w, q);
      SameMeets(c, w, w1, q);
    }
  }

  lemma CapsIgnoreRuns(c: Closure, w: World, w1: World, p: nat)
    requires w1 == w.(runs := w1.runs)
    ensures LotCaps(c, w1, p) <==> LotCaps(c, w, p)
    ensures LineCaps(c, w1, p) <==> LineCaps(c, w, p)
  {
    hide OnLot, OnLine, ProducedFor;
    forall l ensures LiveLine(w1, l, p) <==> LiveLine(w, l, p) {}
  }

  lemma StartedSkeleton(c: Closure, w: World, w1: World, r: ReqId, run: nat, planned: map<nat, nat>, p: nat, g: nat)
    requires Skeleton(c, w, p, g) && r in c.reqs && r !in Protected(w) && run !in w.runs && r.key.productId == p
    requires r.key.revision.Some? && r.key.revision.value in w.revisions
    requires planned.Keys == w.revisions[r.key.revision.value].ingredients.Keys
    requires w1 == w.(runs := w.runs[run := Run(r, p, r.key.revision.value, InProduction, planned)])
    ensures Skeleton(c, w1, p, g)
  {
    hide Linked, HasLine;
    forall x | x in c.rows ensures RowOk(x, c, w1, p) { assert RowOk(x, c, w, p); }
    forall q | q in c.reqs ensures ReqOk(q, w1, p, g) { assert ReqOk(q, w, p, g); }
    forall m | ActiveRun(w1, m, p) ensures RunOk(m, c, w1, p) {
      if m != run {
        assert ActiveRun(w, m, p) && RunOk(m, c, w, p);
        assert w.runs[m].source in Protected(w);
      }
      forall other | ActiveRun(w1, other, p) && w1.runs[other].source == w1.runs[m].source ensures other == m {
        if other != run { assert w.runs[other].source in Protected(w); }
      }
    }
  }

  lemma ProtectedGrows(w: World, w1: World, run: nat, q: ReqId)
    requires run !in w.runs && run in w1.runs && w1.runs == w.runs[run := w1.runs[run]] && q !in Protected(w1)
    ensures q !in Protected(w)
  {
    forall m | m in w.runs && w.runs[m].status == InProduction ensures w.runs[m].source != q {
      assert w1.runs[m] == w.runs[m];
    }
  }

  lemma SameMeets(c: Closure, w: World, w1: World, q: ReqId)
    requires q in c.reqs && w1.outputs == w.outputs && w1.revisions == w.revisions
    requires Meets(c, w, q) && ClaimsMeet(c, w, q)
    ensures Meets(c, w1, q) && ClaimsMeet(c, w1, q)
  {
    hide SumBy, ProducedAmong, PlanFor, OnReq;
  }

  lemma StartKeepsInv(s: State, r: ReqId, run: nat, batches: Option<nat>, costsKnown: bool, acknowledged: bool)
    requires Inv(s) && Start(s, r, run, batches, costsKnown, acknowledged).Done?
    ensures Inv(Start(s, r, run, batches, costsKnown, acknowledged).state)
  {
    hide Clean, Satisfied, LedgerOk, PlanFor;
    var p := r.key.productId;
    var s1 := Start(s, r, run, batches, costsKnown, acknowledged).state;
    var w, w1 := s.world, s1.world;
    assert w1 == w.(runs := w.runs[run := Run(r, p, r.key.revision.value, InProduction, w1.runs[run].planned)]);
    ReqIsProduced(s, r);
    assert WorldOk(w1) by { forall l | l in w1.lines ensures LineOk(w1, l) { assert LineOk(w, l); } }
    forall q ensures ProductClean(s1, q) {
      assert ProductClean(s, q);
      SameReservationsIfLive(w, w1, q);
      if q in w.products && w.products[q].Produced? {
        if q == p {
          StartedClean(ClosureOf(s, p), w, w1, r, run, w1.runs[run].planned, p, s.generation);
        } else {
          RunsOfOthers(w, w1, run, q);
          CleanSame(ClosureOf(s, q), w, w1, q, s.generation);
        }
      }
    }
    forall o | o in w1.orders && w1.orders[o].status == Ready
      ensures Satisfied(s1, o)
    {
      RunsKeepSatisfaction(s, s1, o);
    }
    WorldChangeKeepsStock(s, w1);
  }

  /** Only produced products have requirements. */
  lemma ReqIsProduced(s: State, r: ReqId)
    requires AllClean(s) && r in ClosureOf(s, r.key.productId).reqs
    ensures IsProduced(s.world, r.key.productId)
  {
    hide Clean, WorldOk;
    assert ProductClean(s, r.key.productId);
  }

  lemma RunIsProduced(w: World, run: nat)
    requires WorldOk(w) && run in w.runs && w.runs[run].status == InProduction
    ensures IsProduced(w, w.runs[run].productId)
  {
  }

  lemma RunsOfOthers(w: World, w1: World, run: nat, q: nat)
    requires WorldOk(w) && run in w1.runs && w1 == w.(runs := w.runs[run := w1.runs[run]])
    requires w1.runs[run].productId != q && (run in w.runs ==> w.runs[run].productId != q)
    ensures SameFor(w, w1, q)
  {
    forall l | LiveLine(w, l, q) ensures SameLine(w, w1, l) { assert LineOk(w, l); }
  }

  lemma SameReservationsIfLive(w: World, w1: World, q: nat)
    requires w1.lines == w.lines && w1.orders == w.orders
    ensures Reservations(w1, q) == Reservations(w, q)
  {
    assert forall x :: x in Reservations(w1, q) <==> x in Reservations(w, q);
  }

  lemma RunsKeepSatisfaction(s: State, s1: State, o: nat)
    requires s1 == s.(world := s.world.(runs := s1.world.runs))
    ensures Satisfied(s1, o) <==> Satisfied(s, o)
  {
    assert LinesOfOrder(s1.world, o) == LinesOfOrder(s.world, o);
    forall l | l in LinesOfOrder(s.world, o) ensures SameSupply(s, s1, l) {}
    SameSupplySatisfies(s, s1, o);
  }

  // ---- canceling a run ----

  /** Ending a run frees its requirement: the product can be rebuilt, whatever the run had fixed. */
  lemma EndedStillRebuildable(c: Closure, w: World, run: nat, status: RunStatus, p: nat, g: nat)
    requires WorldOk(w) && Clean(c, w, p, g) && run in w.runs && status != InProduction
    ensures StillRebuildable(c, w, w.(runs := w.runs[run := w.runs[run].(status := status)]), p, {})
  {
    hide OnLot, OnLine, ProducedFor, Skeleton, Meets, ClaimsMeet;
    var w1 := w.(runs := w.runs[run := w.runs[run].(status := status)]);
    forall l | l in LockedLines(c, w1) ensures LiveLine(w1, l, p) && SameTerms(w, w1, l) {
      var k :| k in c.links && k.req in Protected(w1) && k.lineId == l;
      assert ProperLink(k, w, p);
      assert LineOk(w, l);
    }
    forall l | FixedLine(c, w1, l, p) ensures l in w1.lines && OnLine(c.rows, l) <= StillOpen(w1, l) {
      assert LiveLine(w, l, p);
    }
    forall l | l in w1.lots && w1.lots[l].productId == p
      ensures OnLot(RunRows(c, w1), l) + OnLot(ReadyRows(c, w1, p, {}), l) <= w1.lots[l].physical
    {
      FixedFits(c, w1, p, {}, l);
    }
  }

  lemma CancelRunSettleable(s: State, run: nat, locked: set<nat>)
    requires Inv(s) && run in s.world.runs && s.world.runs[run].status == InProduction
    requires Candidates(s.world, {s.world.runs[run].productId}) <= locked
    ensures Settleable(RunEnded(s, run, Stopped), {s.world.runs[run].productId}, locked)
  {
    hide Clean, Satisfied, LedgerOk, Candidates, ProductsOfOrder, Base, StillRebuildable;
    var p := s.world.runs[run].productId;
    var s1 := RunEnded(s, run, Stopped);
    var w, w1 := s.world, s1.world;
    assert WorldOk(w1) by { forall l | l in w1.lines ensures LineOk(w1, l) { assert LineOk(w, l); } }
    assert ProductClean(s, p);
    if p in w.products && w.products[p].Produced? {
      EndedStillRebuildable(ClosureOf(s, p), w, run, Stopped, p, s.generation);
      BaseAfterChange(ClosureOf(s, p), w, w1, p, s.generation, {});
    }
    forall q | q !in {p} ensures ProductClean(s1, q) {
      assert ProductClean(s, q);
      SameReservationsIfLive(w, w1, q);
      RunsOfOthers(w, w1, run, q);
      if q in w.products && w.products[q].Produced? { CleanSame(ClosureOf(s, q), w, w1, q, s.generation); }
    }
    forall o | o in w1.orders && w1.orders[o].status == Ready && o !in locked
      ensures Satisfied(s1, o) && ProductsOfOrder(w1, o) !! {p}
    {
      RunsKeepSatisfaction(s, s1, o);
      OutsideLocked(w, {p}, locked, o);
      SameProducts(w, w1, o);
    }
    WorldChangeKeepsStock(s, w1);
  }

  lemma SameProducts(w: World, w1: World, o: nat)
    requires w1.lines == w.lines
    ensures ProductsOfOrder(w1, o) == ProductsOfOrder(w, o)
  {
    assert LinesOfOrder(w1, o) == LinesOfOrder(w, o);
  }

  lemma CancelRunKeepsInv(s: State, run: nat, locked: set<nat>, today: int)
    requires Inv(s)
    ensures CancelRun(s, run, locked, today) != Refused(KeyError)
    ensures CancelRun(s, run, locked, today).Done? ==> Inv(CancelRun(s, run, locked, today).state)
  {
    hide Inv, Settleable, Settle, Candidates;
    if run in s.world.runs && s.world.runs[run].status == InProduction
       && Candidates(s.world, {s.world.runs[run].productId}) <= locked {
      CancelRunSettleable(s, run, locked);
      SettleKeepsInv(RunEnded(s, run, Stopped), {s.world.runs[run].productId}, locked, today);
    }
  }

  // ---- finishing a run: the output ----

  lemma OutstandingAre(s: State, p: nat, locked: set<nat>)
    ensures
      var lines := Outstanding(s, p, locked);
      && Apart(lines, Sharing.LineId)
      && (forall i :: 0 <= i < |lines| ==>
            lines[i].lineId in RecipientLines(s.world, p, locked) && lines[i] == OutstandingLine(s, p, lines[i].lineId))
      && (forall l :: l in RecipientLines(s.world, p, locked) ==> OutstandingLine(s, p, l) in lines)
  {
    hide Sharing.StillNeeded;
    AscendingIs(RecipientLines(s.world, p, locked));
    var ids, lines := Ascending(RecipientLines(s.world, p, locked)), Outstanding(s, p, locked);
    forall i, k | 0 <= i < k < |lines|
      ensures Sharing.LineId(lines[i]) != Sharing.LineId(lines[k])
    {
      assert ids[i] < ids[k];
    }
    forall l | l in RecipientLines(s.world, p, locked) ensures OutstandingLine(s, p, l) in lines {
      var i :| 0 <= i < |ids| && ids[i] == l;
      assert lines[i] == OutstandingLine(s, p, l);
    }
  }

  lemma {:induction false} OutputsGive(run: nat, shares: seq<Sharing.Share>, l: nat)
    requires forall x :: x in shares ==> x.quantity > 0
    ensures ProducedFor(Outputs(run, shares), l) == Sharing.GivenTo(shares, l)
    ensures forall x :: x in Outputs(run, shares) ==>
      x.quantity > 0 && x.runId == run && exists y :: y in shares && y.lineId == x.lineId
  {
    if shares != [] {
      var n := |shares| - 1;
      assert shares[n] in shares;
      OutputsGive(run, shares[..n], l);
      var last := Output(run, shares[n].lineId, shares[n].quantity);
      assert (Outputs(run, shares[..n]) + [last])[..|Outputs(run, shares[..n])|] == Outputs(run, shares[..n]);
    }
  }

  lemma {:induction false} ProducedConcat(a: seq<Output>, b: seq<Output>, l: nat)
    ensures ProducedFor(a + b, l) == ProducedFor(a, l) + ProducedFor(b, l)
  {
    if b == [] {
      assert a + b == a;
    } else {
      ProducedConcat(a, b[..|b| - 1], l);
      assert (a + b)[..|a + b| - 1] == a + b[..|b| - 1];
    }
  }

  /** What the shares are: positive, for recipient lines only, and within what each still needs. */
  lemma SharesAreSound(s: State, p: nat, locked: set<nat>, output: nat)
    ensures
      var shares := SharesOf(s, p, locked, output);
      && (forall x :: x in shares ==> x.quantity > 0 && x.lineId in RecipientLines(s.world, p, locked))
      && (forall l :: l in RecipientLines(s.world, p, locked) ==>
            0 <= Sharing.GivenTo(shares, l) <= Sharing.StillNeeded(OutstandingLine(s, p, l)))
    ensures 0 <= ExcessOf(s, p, locked, output)
    ensures Sharing.Given(SharesOf(s, p, locked, output)) + ExcessOf(s, p, locked, output) == output
  {
    hide Sharing.StillNeeded, Outstanding, Sharing.InOrder, Sharing.Shares, Sharing.GivenTo, Sharing.Given,
      Sharing.Excess;
    var lines := Outstanding(s, p, locked);
    OutstandingAre(s, p, locked);
    Sharing.SharingIsSound(lines, output, p);
    Sharing.OutputIsConserved(Sharing.InOrder(lines, p), output);
    var shares := SharesOf(s, p, locked, output);
    forall x | x in shares ensures x.quantity > 0 && x.lineId in RecipientLines(s.world, p, locked) {
      assert Sharing.RowSound(x, lines, p);
      var line :| line in lines && line.lineId == x.lineId;
      var i :| 0 <= i < |lines| && lines[i] == line;
    }
    forall l | l in RecipientLines(s.world, p, locked)
      ensures 0 <= Sharing.GivenTo(shares, l) <= Sharing.StillNeeded(OutstandingLine(s, p, l))
    {
      assert OutstandingLine(s, p, l) in lines;
    }
  }

  /** The shape of the world after Finish. */
  lemma FinishedWorld(s: State, run: nat, output: nat, overrides: map<nat, nat>, locked: set<nat>, facts: LotFacts)
    requires run in s.world.runs && facts.id !in s.world.lots
    ensures
      var p := s.world.runs[run].productId;
      var s1 := JustProduced(s, run, output, overrides, locked, facts);
      var w, w1 := s.world, s1.world;
      && w1.products == w.products && w1.revisions == w.revisions && w1.orders == w.orders && w1.lines == w.lines
      && w1.runs == w.runs[run := w.runs[run].(status := Finished)]
      && w1.outputs == w.outputs + (if output == 0 then [] else Outputs(run, SharesOf(s, p, locked, output)))
      && s1.closures == s.closures && s1.generation == s.generation && s1.stock == s.stock
      && (forall l :: l in w.lots ==> l in w1.lots && w1.lots[l] == w.lots[l])
      && (forall l :: l in w1.lots && l !in w.lots ==>
        l == facts.id && w1.lots[l].productId == p && w1.lots[l].physical >= 0)
  {
    hide SharesOf, ExcessOf, Outputs, UsageEntries, Usage;
    var p := s.world.runs[run].productId;
    var ended := RunEnded(Consumed(s, run, overrides), run, Finished);
    var more, excess := Outputs(run, SharesOf(s, p, locked, output)), ExcessOf(s, p, locked, output);
    EndedShape(s, run, overrides);
    hide Consumed, RunEnded;
    if output == 0 {
      assert ended.world.outputs == s.world.outputs + [];
    } else {
      ExcessShape(WithOutputs(ended, more), p, facts, excess);
      hide WithExcess;
    }
  }

  lemma EndedShape(s: State, run: nat, overrides: map<nat, nat>)
    requires run in s.world.runs
    ensures
      var ended := RunEnded(Consumed(s, run, overrides), run, Finished);
      && ended.world == s.world.(runs := s.world.runs[run := s.world.runs[run].(status := Finished)])
      && ended.closures == s.closures && ended.generation == s.generation && ended.stock == s.stock
  {
  }

  lemma ExcessShape(s: State, p: nat, facts: LotFacts, excess: int)
    requires facts.id !in s.world.lots
    ensures
      var s1 := WithExcess(s, p, facts, excess);
      && s1.world == s.world.(lots := s1.world.lots)
      && s1.closures == s.closures && s1.generation == s.generation && s1.stock == s.stock
      && (forall l :: l in s.world.lots ==> l in s1.world.lots && s1.world.lots[l] == s.world.lots[l])
      && (forall l :: l in s1.world.lots && l !in s.world.lots ==>
            l == facts.id && s1.world.lots[l].productId == p && s1.world.lots[l].physical >= 0)
  {
    if excess > 0 { LotShape(s, p, facts, excess); }
  }

  lemma LotShape(s: State, p: nat, facts: LotFacts, quantity: nat)
    ensures
      var s1 := WithLot(s, p, facts, quantity);
      && s1 == s.(world := s.world.(lots := s1.world.lots),
        ledger := s.ledger + [Entry(LotAccount(facts.id), quantity)])
      && s1.world.lots == s.world.lots[facts.id := s1.world.lots[facts.id]]
      && s1.world.lots[facts.id].productId == p && s1.world.lots[facts.id].physical == quantity
  {
  }

  /** After Finish a line has what it had plus its share; only recipient lines get anything. */
  lemma ProducedAfterFinish(
      s: State, run: nat, output: nat, overrides: map<nat, nat>, locked: set<nat>, facts: LotFacts, l: nat)
    requires run in s.world.runs && facts.id !in s.world.lots
    ensures
      var p := s.world.runs[run].productId;
      var w1 := JustProduced(s, run, output, overrides, locked, facts).world;
      var given := if output == 0 then 0 else Sharing.GivenTo(SharesOf(s, p, locked, output), l);
      && ProducedFor(w1.outputs, l) == ProducedFor(s.world.outputs, l) + given
      && given >= 0
      && (l !in RecipientLines(s.world, p, locked) ==> given == 0)
      && (l in RecipientLines(s.world, p, locked) ==> given <= Sharing.StillNeeded(OutstandingLine(s, p, l)))
  {
    hide ProducedFor, Sharing.GivenTo, SharesOf, ExcessOf, Sharing.StillNeeded, RecipientLines, Outputs, JustProduced;
    var p := s.world.runs[run].productId;
    FinishedWorld(s, run, output, overrides, locked, facts);
    if output > 0 {
      var shares := SharesOf(s, p, locked, output);
      SharesAreSound(s, p, locked, output);
      OutputsGive(run, shares, l);
      ProducedConcat(s.world.outputs, Outputs(run, shares), l);
      if l !in RecipientLines(s.world, p, locked) { NothingGiven(shares, l); }
    } else {
      assert s.world.outputs + [] == s.world.outputs;
    }
  }

  lemma {:induction false} NothingGiven(shares: seq<Sharing.Share>, l: nat)
    requires forall x :: x in shares ==> x.lineId != l
    ensures Sharing.GivenTo(shares, l) == 0
  {
    if shares != [] {
      assert shares[|shares| - 1] in shares;
      NothingGiven(shares[..|shares| - 1], l);
    }
  }

  lemma FinishedWorldOk(s: State, run: nat, output: nat, overrides: map<nat, nat>, locked: set<nat>, facts: LotFacts)
    requires WorldOk(s.world) && run in s.world.runs && facts.id !in s.world.lots
      && IsProduced(s.world, s.world.runs[run].productId)
    ensures WorldOk(JustProduced(s, run, output, overrides, locked, facts).world)
  {
    hide JustProduced, SharesOf, Outputs;
    var p := s.world.runs[run].productId;
    var w, w1 := s.world, JustProduced(s, run, output, overrides, locked, facts).world;
    FinishedWorld(s, run, output, overrides, locked, facts);
    forall x | x in w1.outputs ensures x.lineId in w1.lines && x.quantity > 0 {
      FinishedOutput(s, run, output, overrides, locked, facts, x);
    }
    forall l | l in w1.lines ensures LineOk(w1, l) { assert LineOk(w, l); }
    forall o | Live(w1, o) ensures w1.orders[o].date.Some? { assert Live(w, o); }
  }

  lemma FinishedOutput(
      s: State, run: nat, output: nat, overrides: map<nat, nat>, locked: set<nat>, facts: LotFacts, x: Output)
    requires run in s.world.runs && facts.id !in s.world.lots
    requires x in JustProduced(s, run, output, overrides, locked, facts).world.outputs
    ensures x in s.world.outputs || (x.lineId in s.world.lines && x.quantity > 0)
  {
    hide SharesOf, ExcessOf, Outputs, ProducedFor, Sharing.GivenTo, Sharing.StillNeeded, JustProduced;
    var p := s.world.runs[run].productId;
    FinishedWorld(s, run, output, overrides, locked, facts);
    if output > 0 && x !in s.world.outputs {
      SharesAreSound(s, p, locked, output);
      OutputsGive(run, SharesOf(s, p, locked, output), 0);
    }
  }

  lemma FinishStillRebuildable(
      s: State, run: nat, output: nat, overrides: map<nat, nat>, locked: set<nat>, facts: LotFacts)
    requires WorldOk(s.world) && run in s.world.runs && facts.id !in s.world.lots
    requires
      var p := s.world.runs[run].productId;
      Clean(ClosureOf(s, p), s.world, p, s.generation)
    ensures
      var p := s.world.runs[run].productId;
      StillRebuildable(ClosureOf(s, p), s.world, JustProduced(s, run, output, overrides, locked, facts).world, p, {})
  {
    hide OnLot, OnLine, ProducedFor, Skeleton, Meets, ClaimsMeet, JustProduced, RecipientLines, Sharing.GivenTo,
      SharesOf;
    var p := s.world.runs[run].productId;
    var c, w, w1 := ClosureOf(s, p), s.world, JustProduced(s, run, output, overrides, locked, facts).world;
    FinishedWorld(s, run, output, overrides, locked, facts);
    forall l | l in LockedLines(c, w1) ensures LiveLine(w1, l, p) && SameTerms(w, w1, l) {
      var k :| k in c.links && k.req in Protected(w1) && k.lineId == l;
      assert ProperLink(k, w, p);
      assert LineOk(w, l);
    }
    forall l | FixedLine(c, w1, l, p) ensures l in w1.lines && OnLine(c.rows, l) <= StillOpen(w1, l) {
      assert LiveLine(w, l, p);
      ProducedAfterFinish(s, run, output, overrides, locked, facts, l);
    }
    forall l | l in w1.lots && w1.lots[l].productId == p
      ensures OnLot(RunRows(c, w1), l) + OnLot(ReadyRows(c, w1, p, {}), l) <= w1.lots[l].physical
    {
      FixedFits(c, w1, p, {}, l);
      if l !in w.lots { UnknownLotIsEmpty(c, w, p, s.generation, l); }
    }
  }

  lemma UnknownLotIsEmpty(c: Closure, w: World, p: nat, g: nat, l: nat)
    requires Skeleton(c, w, p, g) && l !in w.lots
    ensures OnLot(c.rows, l) == 0
  {
    forall x | x in c.rows ensures x.lotId != l { assert RowOk(x, c, w, p); }
    NoneOnLot(c.rows, l);
  }

  // ---- finishing a run: other products, other orders, the ledger ----

  lemma FinishOtherProduct(
      s: State, run: nat, output: nat, overrides: map<nat, nat>, locked: set<nat>, facts: LotFacts, q: nat)
    requires WorldOk(s.world) && run in s.world.runs && facts.id !in s.world.lots && s.world.runs[run].productId != q
    ensures SameFor(s.world, JustProduced(s, run, output, overrides, locked, facts).world, q)
  {
    hide ProducedFor, JustProduced, Sharing.GivenTo, SharesOf;
    var w, w1 := s.world, JustProduced(s, run, output, overrides, locked, facts).world;
    FinishedWorld(s, run, output, overrides, locked, facts);
    forall l | LiveLine(w, l, q) ensures SameLine(w, w1, l) {
      assert LineOk(w, l);
      ProducedAfterFinish(s, run, output, overrides, locked, facts, l);
    }
  }

  lemma FinishKeepsSatisfaction(
      s: State, run: nat, output: nat, overrides: map<nat, nat>, locked: set<nat>, facts: LotFacts, o: nat)
    requires run in s.world.runs && facts.id !in s.world.lots
    requires s.world.runs[run].productId !in ProductsOfOrder(s.world, o)
    ensures Satisfied(JustProduced(s, run, output, overrides, locked, facts), o) <==> Satisfied(s, o)
    ensures ProductsOfOrder(JustProduced(s, run, output, overrides, locked, facts).world, o)
      == ProductsOfOrder(s.world, o)
  {
    hide ProducedFor, JustProduced, Sharing.GivenTo, SharesOf, Outputs;
    var s1 := JustProduced(s, run, output, overrides, locked, facts);
    FinishedWorld(s, run, output, overrides, locked, facts);
    SameProducts(s.world, s1.world, o);
    assert LinesOfOrder(s1.world, o) == LinesOfOrder(s.world, o);
    forall l | l in LinesOfOrder(s.world, o) ensures SameSupply(s, s1, l) {
      ProducedAfterFinish(s, run, output, overrides, locked, facts, l);
      if s.world.lines[l].source.OfProduct? {
        assert s.world.lines[l].source.productId in ProductsOfOrder(s.world, o);
      }
    }
    SameSupplySatisfies(s, s1, o);
  }

  function UsageOf(planned: map<nat, nat>, overrides: map<nat, nat>, ids: seq<nat>, account: Account): int {
    if account.IngredientAccount? && account.id in ids && account.id in planned
    then 0 - Usage(planned, overrides, account.id) else 0
  }

  lemma UsageStep(planned: map<nat, nat>, overrides: map<nat, nat>, ids: seq<nat>, account: Account)
    requires Increasing(ids) && ids != []
    ensures
      var n := |ids| - 1;
      UsageOf(planned, overrides, ids, account)
      == UsageOf(planned, overrides, ids[..n], account)
         + if account == IngredientAccount(ids[n]) && ids[n] in planned then 0 - Usage(planned, overrides, ids[n])
           else 0
  {
    hide Usage;
    var n := |ids| - 1;
    assert ids == ids[..n] + [ids[n]];
    assert ids[n] !in ids[..n];
  }

  lemma {:induction false} UsageLedger(
      planned: map<nat, nat>, overrides: map<nat, nat>, ids: seq<nat>, account: Account)
    requires Increasing(ids)
    ensures LedgerSum(UsageEntries(planned, overrides, ids), account) == UsageOf(planned, overrides, ids, account)
  {
    if ids != [] {
      hide Usage, UsageOf, LedgerSum;
      var n := |ids| - 1;
      UsageLedger(planned, overrides, ids[..n], account);
      UsageStep(planned, overrides, ids, account);
      var before := UsageEntries(planned, overrides, ids[..n]);
      if ids[n] in planned {
        OneEntry(before, Entry(IngredientAccount(ids[n]), 0 - Usage(planned, overrides, ids[n])), account);
      } else {
        assert before + [] == before;
      }
    } else {
      hide Usage;
    }
  }

  lemma ConsumedKeepsLedger(s: State, run: nat, overrides: map<nat, nat>)
    requires StockOk(s) && run in s.world.runs && s.world.runs[run].planned.Keys <= s.ingredients.Keys
    ensures StockOk(RunEnded(Consumed(s, run, overrides), run, Finished))
  {
    hide LedgerSum, Usage, UsageOf, UsageEntries;
    var planned := s.world.runs[run].planned;
    var ids := Ascending(planned.Keys);
    AscendingIs(planned.Keys);
    var s1 := RunEnded(Consumed(s, run, overrides), run, Finished);
    forall account ensures BalanceOf(s1, account) == LedgerSum(s1.ledger, account) {
      LedgerConcat(s.ledger, UsageEntries(planned, overrides, ids), account);
      UsageLedger(planned, overrides, ids, account);
      UsageIs(planned, overrides, ids, account);
      assert BalanceOf(s, account) == LedgerSum(s.ledger, account);
    }
  }

  lemma UsageIs(planned: map<nat, nat>, overrides: map<nat, nat>, ids: seq<nat>, account: Account)
    requires forall i: nat :: i in ids <==> i in planned
    ensures UsageOf(planned, overrides, ids, account)
      == if account.IngredientAccount? && account.id in planned then 0 - Usage(planned, overrides, account.id) else 0
  {
    hide Usage;
  }

  lemma NewLotKeepsLedger(s: State, p: nat, facts: LotFacts, quantity: nat)
    requires StockOk(s) && facts.id !in s.world.lots
    ensures StockOk(WithLot(s, p, facts, quantity))
  {
    hide LedgerSum;
    var s1 := WithLot(s, p, facts, quantity);
    LotShape(s, p, facts, quantity);
    forall account ensures BalanceOf(s1, account) == LedgerSum(s1.ledger, account) {
      OneEntry(s.ledger, Entry(LotAccount(facts.id), quantity), account);
      assert BalanceOf(s, account) == LedgerSum(s.ledger, account);
    }
  }

  lemma FinishKeepsLedger(s: State, run: nat, output: nat, overrides: map<nat, nat>, locked: set<nat>, facts: LotFacts)
    requires StockOk(s) && run in s.world.runs && facts.id !in s.world.lots
    requires s.world.runs[run].planned.Keys <= s.ingredients.Keys
    ensures StockOk(JustProduced(s, run, output, overrides, locked, facts))
  {
    hide StockOk, SharesOf, ExcessOf, Outputs;
    var p := s.world.runs[run].productId;
    ConsumedKeepsLedger(s, run, overrides);
    EndedShape(s, run, overrides);
    var ended := RunEnded(Consumed(s, run, overrides), run, Finished);
    hide Consumed, RunEnded;
    if output > 0 {
      var shared := WithOutputs(ended, Outputs(run, SharesOf(s, p, locked, output)));
      WorldChangeKeepsStock(ended, shared.world);
      if ExcessOf(s, p, locked, output) > 0 { NewLotKeepsLedger(shared, p, facts, ExcessOf(s, p, locked, output)); }
    }
  }

  lemma FinishSettleable(s: State, run: nat, output: nat, overrides: map<nat, nat>, locked: set<nat>, facts: LotFacts)
    requires Inv(s) && run in s.world.runs && s.world.runs[run].status == InProduction && facts.id !in s.world.lots
    requires Candidates(s.world, {s.world.runs[run].productId}) <= locked
    requires s.world.runs[run].planned.Keys <= s.ingredients.Keys
    ensures Settleable(JustProduced(s, run, output, overrides, locked, facts), {s.world.runs[run].productId}, locked)
  {
    hide WorldOk, Clean, Satisfied, LedgerOk, Candidates, ProductsOfOrder, Base, StillRebuildable, JustProduced,
      SharesOf, Outputs;
    var p := s.world.runs[run].productId;
    var s1 := JustProduced(s, run, output, overrides, locked, facts);
    var w, w1 := s.world, s1.world;
    FinishedWorld(s, run, output, overrides, locked, facts);
    RunIsProduced(w, run);
    FinishedWorldOk(s, run, output, overrides, locked, facts);
    assert ProductClean(s, p);
    if p in w.products && w.products[p].Produced? {
      FinishStillRebuildable(s, run, output, overrides, locked, facts);
      BaseAfterChange(ClosureOf(s, p), w, w1, p, s.generation, {});
    }
    forall q | q !in {p} ensures ProductClean(s1, q) {
      assert ProductClean(s, q);
      SameReservationsIfLive(w, w1, q);
      FinishOtherProduct(s, run, output, overrides, locked, facts, q);
      if q in w.products && w.products[q].Produced? { CleanSame(ClosureOf(s, q), w, w1, q, s.generation); }
    }
    forall o | o in w1.orders && w1.orders[o].status == Ready && o !in locked
      ensures Satisfied(s1, o) && ProductsOfOrder(w1, o) !! {p}
    {
      OutsideLocked(w, {p}, locked, o);
      FinishKeepsSatisfaction(s, run, output, overrides, locked, facts, o);
    }
    FinishKeepsLedger(s, run, output, overrides, locked, facts);
  }

  lemma FinishKeepsInv(
      s: State, run: nat, output: nat, overrides: map<nat, nat>, locked: set<nat>, today: int, facts: LotFacts)
    requires Inv(s)
    ensures Finish(s, run, output, overrides, locked, today, facts) != Refused(KeyError)
    ensures Finish(s, run, output, overrides, locked, today, facts).Done? ==>
      Inv(Finish(s, run, output, overrides, locked, today, facts).state)
  {
    hide Inv, Settleable, Settle, Candidates, JustProduced;
    if run in s.world.runs && s.world.runs[run].status == InProduction && facts.id !in s.world.lots
       && Candidates(s.world, {s.world.runs[run].productId}) <= locked
       && s.world.runs[run].planned.Keys <= s.ingredients.Keys {
      FinishSettleable(s, run, output, overrides, locked, facts);
      SettleKeepsInv(JustProduced(s, run, output, overrides, locked, facts), {s.world.runs[run].productId}, locked,
        today);
    }
  }

  // ---- purchased stock and ingredients ----

  lemma StockMovedKeepsLedger(s: State, p: nat, change: int)
    requires StockOk(s) && StockOf(s, p) + change >= 0
    ensures StockOk(StockMoved(s, p, change))
  {
    hide LedgerSum;
    var s1 := StockMoved(s, p, change);
    forall account ensures BalanceOf(s1, account) == LedgerSum(s1.ledger, account) {
      OneEntry(s.ledger, Entry(PurchasedAccount(p), change), account);
      assert BalanceOf(s, account) == LedgerSum(s.ledger, account);
    }
  }

  lemma MoveStockKeepsInv(s: State, p: nat, change: int, locked: set<nat>)
    requires Inv(s) && MoveStock(s, p, change, locked).Done?
    ensures Inv(MoveStock(s, p, change, locked).state)
  {
    hide WorldOk, Clean, LedgerOk, LedgerSum;
    var s1 := StockMoved(s, p, change);
    StockMovedKeepsLedger(s, p, change);
    forall q ensures ProductClean(s1, q) { assert ProductClean(s, q); }
    forall o | o in s1.world.orders && s1.world.orders[o].status == Ready && o !in locked ensures Satisfied(s1, o) {
      OutsideLocked(s.world, {p}, locked, o);
      StockSparesOthers(s, p, change, o);
    }
    EvaluatedInv(s1, locked);
  }

  lemma StockSparesOthers(s: State, p: nat, change: int, o: nat)
    requires p !in ProductsOfOrder(s.world, o)
    ensures Satisfied(StockMoved(s, p, change), o) <==> Satisfied(s, o)
  {
    var s1 := StockMoved(s, p, change);
    forall l | l in LinesOfOrder(s.world, o) ensures SameSupply(s, s1, l) {
      if s.world.lines[l].source.OfProduct? {
        assert s.world.lines[l].source.productId in ProductsOfOrder(s.world, o);
      }
    }
    SameSupplySatisfies(s, s1, o);
  }

  /** First stock evaluates nobody: it can only lower a shortage, so Ready orders stay satisfied. */
  lemma FirstStockKeepsInv(s: State, p: nat, quantity: nat)
    requires Inv(s) && FirstStock(s, p, quantity).Done?
    ensures Inv(FirstStock(s, p, quantity).state)
  {
    hide WorldOk, Clean, LedgerOk, LedgerSum, SumBy;
    var s1 := StockMoved(s, p, quantity);
    StockMovedKeepsLedger(s, p, quantity);
    forall q ensures ProductClean(s1, q) { assert ProductClean(s, q); }
    forall o | o in s1.world.orders && s1.world.orders[o].status == Ready ensures Satisfied(s1, o) {
      assert Satisfied(s, o);
      forall l | l in LinesOfOrder(s.world, o) ensures LineSatisfied(s1, l) {
        assert LineSatisfied(s, l);
        forall q ensures ClosureOf(s1, q) == ClosureOf(s, q) {}
      }
    }
  }

  lemma MoveIngredientKeepsInv(s: State, i: nat, change: int)
    requires Inv(s) && MoveIngredient(s, i, change).Done?
    ensures Inv(MoveIngredient(s, i, change).state)
  {
    hide WorldOk, Clean, LedgerSum;
    var s1 := MoveIngredient(s, i, change).state;
    forall account ensures BalanceOf(s1, account) == LedgerSum(s1.ledger, account) {
      OneEntry(s.ledger, Entry(IngredientAccount(i), change), account);
      assert BalanceOf(s, account) == LedgerSum(s.ledger, account);
    }
    forall q ensures ProductClean(s1, q) { assert ProductClean(s, q); }
    forall o | o in s1.world.orders && s1.world.orders[o].status == Ready ensures Satisfied(s1, o) {
      IngredientsSatisfyNobody(s, s1, o);
    }
  }

  lemma IngredientsSatisfyNobody(s: State, s1: State, o: nat)
    requires s1.world == s.world && s1.closures == s.closures && s1.stock == s.stock
    ensures Satisfied(s1, o) <==> Satisfied(s, o)
  {
    forall l | l in LinesOfOrder(s.world, o) ensures SameSupply(s, s1, l) {}
    SameSupplySatisfies(s, s1, o);
  }

  // ---- surplus lots by hand ----

  /** The same world except for lots, each as promised before and still able to keep its promises. */
  ghost predicate LotsKept(c: Closure, w: World, w1: World, p: nat) {
    && w1 == w.(lots := w1.lots)
    && (forall l :: l in w.lots && w.lots[l].productId == p ==> l in w1.lots && w1.lots[l].productId == p)
    && (forall l :: l in w1.lots && w1.lots[l].productId == p ==> OnLot(c.rows, l) <= w1.lots[l].physical)
  }

  lemma LotChangeKeepsClean(c: Closure, w: World, w1: World, p: nat, g: nat)
    requires Clean(c, w, p, g) && LotsKept(c, w, w1, p)
    ensures Clean(c, w1, p, g)
  {
    hide Linked, HasLink, OnLot, OnLine, Meets, ClaimsMeet;
    forall r | r in c.reqs ensures ReqOk(r, w1, p, g) { assert ReqOk(r, w, p, g); }
    forall x | x in c.rows ensures RowOk(x, c, w1, p) { assert RowOk(x, c, w, p); }
    forall m | ActiveRun(w1, m, p) ensures RunOk(m, c, w1, p) { assert RunOk(m, c, w, p); }
    forall k | k in c.links ensures ProperLink(k, w1, p) { assert ProperLink(k, w, p); }
    forall l | LiveLine(w1, l, p) ensures OnLine(c.rows, l) <= StillOpen(w1, l) { assert LiveLine(w, l, p); }
    forall q | q in c.reqs && q !in Protected(w1)
      ensures Meets(c, w1, q) && ClaimsMeet(c, w1, q)
    {
      SameMeets(c, w, w1, q);
    }
  }

  lemma LotsOfOthers(w: World, w1: World, lot: nat, q: nat)
    requires WorldOk(w) && w1 == w.(lots := w1.lots) && lot in w1.lots && w1.lots == w.lots[lot := w1.lots[lot]]
    requires w1.lots[lot].productId != q && (lot in w.lots ==> w.lots[lot].productId != q)
    ensures SameFor(w, w1, q)
  {
    forall l | LiveLine(w, l, q) ensures SameLine(w, w1, l) { assert LineOk(w, l); }
  }

  lemma LotWorldOk(w: World, w1: World)
    requires WorldOk(w) && w1 == w.(lots := w1.lots)
    requires forall l :: l in w1.lots ==> w1.lots[l].physical >= 0 && IsProduced(w, w1.lots[l].productId)
    ensures WorldOk(w1)
  {
    forall l | l in w1.lines ensures LineOk(w1, l) { assert LineOk(w, l); }
  }

  lemma LotsKeepSatisfaction(s: State, s1: State, o: nat)
    requires s1.world == s.world.(lots := s1.world.lots) && s1.closures == s.closures && s1.stock == s.stock
    ensures Satisfied(s1, o) <==> Satisfied(s, o)
  {
    assert LinesOfOrder(s1.world, o) == LinesOfOrder(s.world, o);
    forall l | l in LinesOfOrder(s.world, o) ensures SameSupply(s, s1, l) {}
    SameSupplySatisfies(s, s1, o);
  }

  /** One lot added or changed within what is promised of it: the invariant holds at once. */
  lemma LotChangeKeepsInv(s: State, s1: State, lot: nat)
    requires Inv(s) && StockOk(s1) && s1 == s.(world := s1.world, ledger := s1.ledger)
    requires s1.world == s.world.(lots := s1.world.lots) && lot in s1.world.lots
    requires s1.world.lots == s.world.lots[lot := s1.world.lots[lot]] && s1.world.lots[lot].physical >= 0
    requires IsProduced(s.world, s1.world.lots[lot].productId)
    requires lot in s.world.lots ==> s1.world.lots[lot].productId == s.world.lots[lot].productId
    requires OnLot(ClosureOf(s, s1.world.lots[lot].productId).rows, lot) <= s1.world.lots[lot].physical
    ensures Inv(s1)
  {
    hide Clean, Satisfied, LedgerOk, OnLot, StockOk;
    var w, w1 := s.world, s1.world;
    var p := w1.lots[lot].productId;
    LotWorldOk(w, w1);
    forall q ensures ProductClean(s1, q) {
      assert ProductClean(s, q);
      SameReservationsIfLive(w, w1, q);
      if q in w.products && w.products[q].Produced? {
        if q == p {
          CleanLots(ClosureOf(s, p), w, p, s.generation);
          LotChangeKeepsClean(ClosureOf(s, p), w, w1, p, s.generation);
        } else {
          hide WorldOk;
          LotsOfOthers(w, w1, lot, q);
          CleanSame(ClosureOf(s, q), w, w1, q, s.generation);
        }
      }
    }
    forall o | o in w1.orders && w1.orders[o].status == Ready
      ensures Satisfied(s1, o)
    {
      LotsKeepSatisfaction(s, s1, o);
    }
  }

  lemma CleanLots(c: Closure, w: World, p: nat, g: nat)
    requires Clean(c, w, p, g)
    ensures LotCaps(c, w, p)
  {
  }

  lemma CreateLotKeepsInv(s: State, p: nat, quantity: nat, facts: LotFacts, locked: set<nat>, today: int)
    requires Inv(s)
    ensures CreateLot(s, p, quantity, facts, locked, today) != Refused(KeyError)
    ensures CreateLot(s, p, quantity, facts, locked, today).Done? ==>
      Inv(CreateLot(s, p, quantity, facts, locked, today).state)
  {
    hide Inv, Settle, Candidates, WithLot;
    if p in s.world.products && s.world.products[p].Produced? && facts.id !in s.world.lots {
      LotShape(s, p, facts, quantity);
      var s1 := WithLot(s, p, facts, quantity);
      CreatedLotInv(s, p, quantity, facts);
      if Candidates(s.world, {p}) <= locked {
        assert Candidates(s1.world, {p}) <= locked by { SameCandidates(s.world, s1.world, {p}); }
        InvSettleable(s1, {p}, locked);
        SettleKeepsInv(s1, {p}, locked, today);
      }
    }
  }

  lemma SameCandidates(w: World, w1: World, products: set<nat>)
    requires w1.lines == w.lines && w1.orders == w.orders
    ensures Candidates(w1, products) == Candidates(w, products)
  {
    assert forall x :: x in Candidates(w1, products) <==> x in Candidates(w, products);
  }

  lemma CreatedLotInv(s: State, p: nat, quantity: nat, facts: LotFacts)
    requires Inv(s) && p in s.world.products && s.world.products[p].Produced? && facts.id !in s.world.lots
    ensures Inv(WithLot(s, p, facts, quantity))
  {
    hide Clean, Satisfied, LedgerOk, OnLot, StockOk, WithLot, WorldOk;
    LotShape(s, p, facts, quantity);
    NewLotKeepsLedger(s, p, facts, quantity);
    assert ProductClean(s, p);
    CleanUnknownLot(ClosureOf(s, p), s.world, p, s.generation, facts.id);
    LotChangeKeepsInv(s, WithLot(s, p, facts, quantity), facts.id);
  }

  lemma CleanUnknownLot(c: Closure, w: World, p: nat, g: nat, l: nat)
    requires Clean(c, w, p, g) && l !in w.lots
    ensures OnLot(c.rows, l) == 0
  {
    UnknownLotIsEmpty(c, w, p, g, l);
  }

  /** Any state with the invariant may be settled. */
  lemma InvSettleable(s: State, products: set<nat>, locked: set<nat>)
    requires Inv(s) && Candidates(s.world, products) <= locked
    ensures Settleable(s, products, locked)
  {
    hide WorldOk, Clean, Base, Satisfied, LedgerOk, Candidates, ProductsOfOrder;
    forall p | p in products ensures ProductBase(s, p, {}) {
      assert ProductClean(s, p);
      if p in s.world.products && s.world.products[p].Produced? {
        CleanIsBase(ClosureOf(s, p), s.world, p, s.generation, {});
      }
    }
    forall o | o in s.world.orders && s.world.orders[o].status == Ready && o !in locked
      ensures Satisfied(s, o) && ProductsOfOrder(s.world, o) !! products
    {
      OutsideLocked(s.world, products, locked, o);
    }
  }

  lemma ReducedLotKeepsLedger(s: State, lot: nat, less: nat)
    requires StockOk(s) && lot in s.world.lots
    ensures StockOk(LotReduced(s, lot, less))
  {
    hide LedgerSum;
    var s1 := LotReduced(s, lot, less);
    forall account ensures BalanceOf(s1, account) == LedgerSum(s1.ledger, account) {
      OneEntry(s.ledger, Entry(LotAccount(lot), 0 - less), account);
      assert BalanceOf(s, account) == LedgerSum(s.ledger, account);
    }
  }

  lemma ReducedShape(s: State, lot: nat, less: nat)
    requires lot in s.world.lots
    ensures
      var s1 := LotReduced(s, lot, less);
      && s1 == s.(world := s.world.(lots := s1.world.lots), ledger := s1.ledger)
      && lot in s1.world.lots && s1.world.lots == s.world.lots[lot := s1.world.lots[lot]]
      && s1.world.lots[lot].productId == s.world.lots[lot].productId
      && s1.world.lots[lot].physical == s.world.lots[lot].physical - less
  {
  }

  /** A lot reduced below its promises leaves a product that can be rebuilt, as long as the run rows
      on it still fit: the promises of this lot, and only of this lot, are reopened. */
  lemma ReducedIsBase(s: State, lot: nat, less: nat)
    requires WorldOk(s.world) && lot in s.world.lots && s.world.lots[lot].physical - less >= 0
    requires
      var p := s.world.lots[lot].productId;
      && Clean(ClosureOf(s, p), s.world, p, s.generation)
      && OnLot(RunRows(ClosureOf(s, p), s.world), lot) <= s.world.lots[lot].physical - less
    ensures
      var p := s.world.lots[lot].productId;
      Base(ClosureOf(s, p), LotReduced(s, lot, less).world, p, s.generation, {lot})
  {
    hide OnLot, OnLine, ProducedFor, Skeleton, Meets, ClaimsMeet, LotReduced, RunRows, ReadyRows;
    var p := s.world.lots[lot].productId;
    var c, w, w1 := ClosureOf(s, p), s.world, LotReduced(s, lot, less).world;
    ReducedShape(s, lot, less);
    LotWorldOk(w, w1);
    forall l | l in LockedLines(c, w1) ensures LiveLine(w1, l, p) && SameTerms(w, w1, l) {
      var k :| k in c.links && k.req in Protected(w1) && k.lineId == l;
      assert ProperLink(k, w, p);
      assert LineOk(w, l);
    }
    forall l | FixedLine(c, w1, l, p) ensures l in w1.lines && OnLine(c.rows, l) <= StillOpen(w1, l) {
      assert LiveLine(w, l, p);
    }
    forall l | l in w1.lots && w1.lots[l].productId == p
      ensures OnLot(RunRows(c, w1), l) + OnLot(ReadyRows(c, w1, p, {lot}), l) <= w1.lots[l].physical
    {
      if l == lot {
        SameRunRows(c, w, w1);
        forall x | x in ReadyRows(c, w1, p, {lot}) ensures x.lotId != lot { ReadyRowsAre(c, w1, p, {lot}, x); }
        NoneOnLot(ReadyRows(c, w1, p, {lot}), lot);
      } else {
        FixedFits(c, w1, p, {lot}, l);
      }
    }
    BaseAfterChange(c, w, w1, p, s.generation, {lot});
  }

  lemma SameRunRows(c: Closure, w: World, w1: World)
    requires w1.runs == w.runs
    ensures RunRows(c, w1) == RunRows(c, w)
  {
    assert RunRowSet(c, w1) == RunRowSet(c, w);
  }

  /** The reconciliation branch: rebuild around the reduced lot, then evaluate. */
  lemma ReconcileKeepsInv(s: State, lot: nat, less: nat, locked: set<nat>, today: int)
    requires Inv(s) && lot in s.world.lots && s.world.lots[lot].physical - less >= 0
    requires Candidates(s.world, {s.world.lots[lot].productId}) <= locked
    requires OnLot(RunRows(ClosureOf(s, s.world.lots[lot].productId), s.world), lot)
      <= s.world.lots[lot].physical - less
    ensures
      var r := Recalculate(LotReduced(s, lot, less), s.world.lots[lot].productId, today, {lot});
      && r != Refused(KeyError) && r != Refused(InvariantViolated)
      && (r.Done? ==> Inv(EvaluateAll(r.state, locked)) && PostConditions(r.state, {s.world.lots[lot].productId}))
  {
    hide WorldOk, Clean, Base, Satisfied, LedgerOk, Candidates, ProductsOfOrder, LotReduced, Recalculate, StockOk,
      OnLot, RunRows, EvaluateAll;
    var p := s.world.lots[lot].productId;
    var s1 := LotReduced(s, lot, less);
    ReducedShape(s, lot, less);
    ReducedLotKeepsLedger(s, lot, less);
    LotIsProduced(s, lot);
    LotsStayPositive(s, s1, lot);
    assert ProductClean(s, p);
    ReducedIsBase(s, lot, less);
    RecalculateOne(s1, p, today, {lot});
    RefusalReasons(s1, p, today, {lot});
    var r := Recalculate(s1, p, today, {lot});
    if r.Done? {
      var s2 := r.state;
      forall q ensures ProductClean(s2, q) {
        if q != p {
          assert ProductClean(s, q);
          SameReservationsIfLive(s.world, s1.world, q);
          ReducedOtherProduct(s, s1, lot, q);
          OthersStayClean(s1, s2, q);
        }
      }
      StockUnmoved(s1, s2);
      forall o | o in s2.world.orders && s2.world.orders[o].status == Ready && o !in locked ensures Satisfied(s2, o) {
        OutsideLocked(s.world, {p}, locked, o);
        LotsKeepSatisfaction(s, s1, o);
        SameProducts(s.world, s1.world, o);
        UnrecalculatedOrder(s1, s2, {p}, o);
      }
      EvaluatedInv(s2, locked);
      CleanPost(s2, {p});
    }
  }

  lemma LotIsProduced(s: State, lot: nat)
    requires WorldOk(s.world) && lot in s.world.lots
    ensures IsProduced(s.world, s.world.lots[lot].productId)
  {
  }

  lemma RefusalReasons(s: State, p: nat, today: int, impaired: set<nat>)
    ensures Recalculate(s, p, today, impaired).Refused? ==>
      Recalculate(s, p, today, impaired).reason in {DemandDateConflict, KeyError, ValueOverflow}
  {
    hide ComputeFor, Replace;
  }

  lemma LotsStayPositive(s: State, s1: State, lot: nat)
    requires WorldOk(s.world) && lot in s1.world.lots && s1.world == s.world.(lots := s1.world.lots)
    requires s1.world.lots == s.world.lots[lot := s1.world.lots[lot]] && s1.world.lots[lot].physical >= 0
    requires IsProduced(s.world, s1.world.lots[lot].productId)
    ensures WorldOk(s1.world)
  {
    LotWorldOk(s.world, s1.world);
  }

  lemma ReducedOtherProduct(s: State, s1: State, lot: nat, q: nat)
    requires WorldOk(s.world) && WorldOk(s1.world) && ProductClean(s, q) && lot in s.world.lots && lot in s1.world.lots
    requires s1 == s.(world := s.world.(lots := s1.world.lots), ledger := s1.ledger)
    requires s1.world.lots == s.world.lots[lot := s1.world.lots[lot]]
    requires s1.world.lots[lot].productId == s.world.lots[lot].productId != q
    ensures ProductClean(s1, q)
  {
    hide Clean, WorldOk;
    SameReservationsIfLive(s.world, s1.world, q);
    if q in s.world.products && s.world.products[q].Produced? {
      LotsOfOthers(s.world, s1.world, lot, q);
      CleanSame(ClosureOf(s, q), s.world, s1.world, q, s.generation);
    }
  }

  /** In a clean state with non-negative stock the post-conditions of every product hold. */
  lemma CleanPost(s: State, products: set<nat>)
    requires (forall p :: ProductClean(s, p)) && (forall p :: p in s.stock ==> s.stock[p] >= 0)
    requires s.closures.Keys <= s.world.products.Keys && forall l :: l in s.world.lots ==> s.world.lots[l].physical >= 0
    ensures PostConditions(s, products)
  {
    hide OnLot;
    forall lot | lot in s.world.lots
      ensures OnLot(ClosureOf(s, s.world.lots[lot].productId).rows, lot) <= s.world.lots[lot].physical
    {
      var p := s.world.lots[lot].productId;
      assert ProductClean(s, p);
      NothingOnLot(lot);
    }
  }

  lemma NothingOnLot(lot: nat)
    ensures OnLot([], lot) == 0
  {
  }

  lemma ReduceLotKeepsInv(s: State, lot: nat, less: nat, locked: set<nat>, today: int, acknowledged: bool)
    requires Inv(s)
    ensures ReduceLot(s, lot, less, locked, today, acknowledged) != Refused(KeyError)
    ensures ReduceLot(s, lot, less, locked, today, acknowledged) != Refused(InvariantViolated)
    ensures ReduceLot(s, lot, less, locked, today, acknowledged).Done? ==>
      Inv(ReduceLot(s, lot, less, locked, today, acknowledged).state)
  {
    hide Inv, Recalculate, Candidates, LotReduced, OnLot, RunRows, EvaluateAll, PostConditions, Demotes, LosesSurplus;
    if lot in s.world.lots && s.world.lots[lot].physical - less >= 0
      && Candidates(s.world, {s.world.lots[lot].productId}) <= locked
       && OnLot(RunRows(ClosureOf(s, s.world.lots[lot].productId), s.world), lot) <= s.world.lots[lot].physical - less {
      ReducedShape(s, lot, less);
      if OnLot(ClosureOf(s, s.world.lots[lot].productId).rows, lot) <= s.world.lots[lot].physical - less {
        InvStock(s);
        LotIsProduced(s, lot);
        ReducedLotKeepsLedger(s, lot, less);
        LotChangeKeepsInv(s, LotReduced(s, lot, less), lot);
      } else {
        ReconcileKeepsInv(s, lot, less, locked, today);
        var r := Recalculate(LotReduced(s, lot, less), s.world.lots[lot].productId, today, {lot});
        if r.Done? { PostConditionsReadNoStatus(r.state, locked, {s.world.lots[lot].productId}); }
      }
    }
  }

  lemma PostConditionsReadNoStatus(s: State, locked: set<nat>, products: set<nat>)
    ensures PostConditions(EvaluateAll(s, locked), products) == PostConditions(s, products)
  {
    hide OnLot, Satisfied;
  }

  /** A reduction that needed no acknowledgment takes surplus from no line and demotes no order, locked
      or not. */
  lemma QuietReductionTakesNothing(s: State, lot: nat, less: nat, locked: set<nat>, today: int)
    requires Inv(s) && ReduceLot(s, lot, less, locked, today, false).Done?
    ensures
      var s1 := ReduceLot(s, lot, less, locked, today, false).state;
      && (forall o :: o in s.world.orders && s.world.orders[o].status == Ready ==>
            o in s1.world.orders && s1.world.orders[o].status == Ready)
      && (forall p, l :: OnLine(ClosureOf(s1, p).rows, l) >= OnLine(ClosureOf(s, p).rows, l))
  {
    hide Recalculate, OnLot, OnLine, RunRows, PostConditions, Satisfied, StockOk, ReadySatisfied, Clean, LotReduced,
      WorldOk, Candidates;
    var s1 := ReduceLot(s, lot, less, locked, today, false).state;
    var p := s.world.lots[lot].productId;
    ReducedShape(s, lot, less);
    LotIsProduced(s, lot);
    if OnLot(ClosureOf(s, p).rows, lot) > s.world.lots[lot].physical - less {
      var r := Recalculate(LotReduced(s, lot, less), p, today, {lot});
      RecalculationTouchesOne(LotReduced(s, lot, less), p, today, {lot});
      assert s1 == EvaluateAll(r.state, locked) && !Demotes(s.world, s1.world, locked)
        && !LosesSurplus(s, s1, p, locked);
      forall q, l ensures OnLine(ClosureOf(s1, q).rows, l) >= OnLine(ClosureOf(s, q).rows, l) {
        if q != p {
          assert ClosureOf(r.state, q) == ClosureOf(s, q);
        } else if l in s.world.lines && s.world.lines[l].orderId in locked {
          assert OnLine(ClosureOf(s1, p).rows, l) >= OnLine(ClosureOf(s, p).rows, l);
        } else {
          NothingOnLine(s, p, l, locked);
        }
      }
    }
  }

  lemma RecalculationTouchesOne(s: State, p: nat, today: int, impaired: set<nat>)
    requires Recalculate(s, p, today, impaired).Done?
    ensures Recalculate(s, p, today, impaired).state.world == s.world
    ensures forall q :: q != p ==> ClosureOf(Recalculate(s, p, today, impaired).state, q) == ClosureOf(s, q)
  {
    hide ComputeFor, Replace;
  }

  lemma NothingOnLine(s: State, p: nat, l: nat, locked: set<nat>)
    requires AllClean(s) && Candidates(s.world, {p}) <= locked && IsProduced(s.world, p)
    requires !(l in s.world.lines && s.world.lines[l].orderId in locked)
    ensures OnLine(ClosureOf(s, p).rows, l) == 0
  {
    assert ProductClean(s, p);
    forall x | x in ClosureOf(s, p).rows ensures x.lineId != l {
    }
    NoneOnLine(ClosureOf(s, p).rows, l);
  }

  lemma InvStock(s: State)
    requires Inv(s)
    ensures StockOk(s) && WorldOk(s.world)
  {
  }

  // ---- the catalog ----

  lemma SetCurrentKeepsInv(s: State, p: nat, revision: nat)
    requires Inv(s) && SetCurrent(s, p, revision).Done?
    ensures Inv(SetCurrent(s, p, revision).state)
  {
    hide Clean, LedgerOk, Satisfied;
    var s1 := SetCurrent(s, p, revision).state;
    var w, w1 := s.world, s1.world;
    assert WorldOk(w1) by { forall l | l in w1.lines ensures LineOk(w1, l) { assert LineOk(w, l); } }
    forall q ensures ProductClean(s1, q) {
      assert ProductClean(s, q);
      CatalogSameFor(w, w1, q);
      hide SameFor, WorldOk;
      if q in w.products && w.products[q].Produced? { CleanSame(ClosureOf(s, q), w, w1, q, s.generation); }
      SameReservations(w, w1, q);
    }
    forall o | o in w1.orders && w1.orders[o].status == Ready ensures Satisfied(s1, o) {
      CatalogKeepsSatisfaction(s, s1, p, o);
    }
    WorldChangeKeepsStock(s, w1);
  }

  lemma CatalogSameFor(w: World, w1: World, q: nat)
    requires WorldOk(w) && w1 == w.(products := w1.products)
    ensures SameFor(w, w1, q)
  {
    forall m | LiveLine(w, m, q) ensures SameLine(w, w1, m) { assert LineOk(w, m); }
  }

  lemma CatalogKeepsSatisfaction(s: State, s1: State, p: nat, o: nat)
    requires s1 == s.(world := s.world.(products := s1.world.products))
    requires p in s.world.products && p in s1.world.products
      && s1.world.products == s.world.products[p := s1.world.products[p]]
    requires s.world.products[p].Produced? && s1.world.products[p].Produced?
    ensures Satisfied(s1, o) <==> Satisfied(s, o)
  {
    assert LinesOfOrder(s1.world, o) == LinesOfOrder(s.world, o);
    forall m | m in LinesOfOrder(s.world, o) ensures SameSupply(s, s1, m) {}
    SameSupplySatisfies(s, s1, o);
  }
}
