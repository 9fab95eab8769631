/** What a change of the world does to closures: those of other products stay clean, that of an
    affected product keeps what a rebuild needs. */
module WorldChanges {
  import opened Tallies
  import opened PlanningState
  import opened Recalculation
  import opened PlanningInvariant
  import opened RecalculationTheorems
  import opened PlanningSystem

  /** Nothing product `p`'s closure speaks about differs between the worlds. */
  ghost predicate SameFor(w: World, w': World, p: nat) {
    && w'.revisions == w.revisions
    && (forall run :: ActiveRun(w, run, p) <==> ActiveRun(w', run, p))
    && (forall run :: ActiveRun(w, run, p) ==> w'.runs[run] == w.runs[run])
    && (forall l :: l in w.lots && w.lots[l].productId == p ==> l in w'.lots && w'.lots[l] == w.lots[l])
    && (forall l :: l in w'.lots && w'.lots[l].productId == p ==> l in w.lots && w'.lots[l] == w.lots[l])
    && (forall l :: LiveLine(w, l, p) <==> LiveLine(w', l, p))
    && (forall l :: LiveLine(w, l, p) ==> SameLine(w, w', l))
  }

  predicate SameLine(w: World, w': World, l: nat) {
    && l in w.lines && l in w'.lines && w'.lines[l] == w.lines[l]
    && w.lines[l].orderId in w.orders && w.lines[l].orderId in w'.orders
    && w'.orders[w.lines[l].orderId].date == w.orders[w.lines[l].orderId].date
    && ProducedFor(w'.outputs, l) == ProducedFor(w.outputs, l)
  }

  lemma {:induction false} ProducedAmongAgrees(a: seq<Output>, b: seq<Output>, lines: set<nat>)
    requires forall l :: l in lines ==> ProducedFor(a, l) == ProducedFor(b, l)
    ensures ProducedAmong(a, lines) == ProducedAmong(b, lines)
    decreases lines
  {
    hide ProducedAmong, ProducedFor;
    if lines == {} {
      NoLines(a);
      NoLines(b);
    } else {
      var l :| l in lines;
      ProducedAmongAgrees(a, b, lines - {l});
      OneMoreLine(a, lines - {l}, l);
      OneMoreLine(b, lines - {l}, l);
      assert lines - {l} + {l} == lines;
    }
  }

  /** For a requirement of `p`, being behind a run in production is about `p`'s runs. */
  lemma SameProtection(w: World, w': World, p: nat, r: ReqId)
    requires WorldOk(w) && WorldOk(w') && SameFor(w, w', p) && r.key.productId == p
    ensures r in Protected(w) <==> r in Protected(w')
  {
    if r in Protected(w) {
      var run :| run in w.runs && w.runs[run].status == InProduction && w.runs[run].source == r;
      assert ActiveRun(w', run, p);
    }
    if r in Protected(w') {
      var run :| run in w'.runs && w'.runs[run].status == InProduction && w'.runs[run].source == r;
      assert ActiveRun(w, run, p);
    }
  }

  lemma SameSkeleton(c: Closure, w: World, w': World, p: nat, g: nat)
    requires SameFor(w, w', p) && Skeleton(c, w, p, g)
    ensures Skeleton(c, w', p, g)
  {
    hide Linked;
    forall r | r in c.reqs ensures ReqOk(r, w', p, g) { assert ReqOk(r, w, p, g); }
    forall x | x in c.rows ensures RowOk(x, c, w', p) { assert RowOk(x, c, w, p); }
    forall run | ActiveRun(w', run, p) ensures RunOk(run, c, w', p) {
      assert RunOk(run, c, w, p);
      forall other | ActiveRun(w', other, p) ensures ActiveRun(w, other, p) && w'.runs[other] == w.runs[other] {}
    }
  }

  lemma MeetsSame(c: Closure, w: World, w': World, p: nat, g: nat, r: ReqId)
    requires SameFor(w, w', p) && Skeleton(c, w, p, g) && r in c.reqs && Meets(c, w, r)
    requires forall k :: k in c.links ==> ProperLink(k, w, p)
    ensures Meets(c, w', r)
  {
    hide Skeleton, OnLot, OnLine, OnReq, HasLink, ProducedAmong, ProducedFor, SumBy, PlanFor;
    forall l | l in LinesOf(c, r) ensures ProducedFor(w'.outputs, l) == ProducedFor(w.outputs, l) {
      var k :| k in c.links && k.req == r && k.lineId == l;
      assert ProperLink(k, w, p);
    }
    ProducedAmongAgrees(w.outputs, w'.outputs, LinesOf(c, r));
  }

  /** A closure nothing happened to stays clean. */
  lemma CleanSame(c: Closure, w: World, w': World, p: nat, g: nat)
    requires WorldOk(w) && WorldOk(w') && SameFor(w, w', p) && Clean(c, w, p, g)
    ensures Clean(c, w', p, g)
  {
    SameSkeleton(c, w, w', p, g);
    hide Skeleton, OnLot, OnLine, HasLink, ProducedFor, Meets, ClaimsMeet, WorldOk;
    forall k | k in c.links ensures ProperLink(k, w', p) { assert ProperLink(k, w, p) && LiveLine(w', k.lineId, p); }
    forall l | LiveLine(w', l, p) ensures OnLine(c.rows, l) <= StillOpen(w', l) {
      assert LiveLine(w, l, p);
    }
    forall r | r in c.reqs && r !in Protected(w') ensures Meets(c, w', r) && ClaimsMeet(c, w', r) {
      ReqProduct(c, w, p, g, r);
      SameProtection(w, w', p, r);
      MeetsSame(c, w, w', p, g, r);
      SameClaims(c, w, w', r);
    }
  }

  lemma ReqProduct(c: Closure, w: World, p: nat, g: nat, r: ReqId)
    requires Skeleton(c, w, p, g) && r in c.reqs
    ensures r.key.productId == p
  {
    assert ReqOk(r, w, p, g);
  }

  lemma SameClaims(c: Closure, w: World, w': World, r: ReqId)
    requires w'.revisions == w.revisions && ClaimsMeet(c, w, r)
    ensures ClaimsMeet(c, w', r)
  {
  }

  // ---- an affected product ----

  /** What a change must leave alone for `p` to be rebuilt from: revisions, lots, runs it does not
      end, and every line that stays fixed. */
  ghost predicate StillRebuildable(c: Closure, w: World, w': World, p: nat, impaired: set<nat>) {
    && w'.revisions == w.revisions
    && (forall run :: ActiveRun(w', run, p) ==> ActiveRun(w, run, p) && w'.runs[run] == w.runs[run])
    && (forall l :: l in w.lots && w.lots[l].productId == p ==> l in w'.lots && w'.lots[l].productId == p)
    && (forall l :: l in LockedLines(c, w') ==> LiveLine(w', l, p) && SameTerms(w, w', l))
    && (forall l :: FixedLine(c, w', l, p) ==> l in w'.lines && OnLine(c.rows, l) <= StillOpen(w', l))
    && FixedLotCaps(c, w', p, impaired)
  }

  predicate SameTerms(w: World, w': World, l: nat) {
    && l in w.lines && l in w'.lines && w'.lines[l] == w.lines[l]
    && w.lines[l].orderId in w.orders && w.lines[l].orderId in w'.orders
    && w'.orders[w.lines[l].orderId].date == w.orders[w.lines[l].orderId].date
  }

  /** References in order and every link proper. */
  ghost predicate WellLinked(c: Closure, w: World, p: nat, g: nat) {
    Skeleton(c, w, p, g) && forall k :: k in c.links ==> ProperLink(k, w, p)
  }

  lemma CleanIsWellLinked(c: Closure, w: World, p: nat, g: nat)
    requires Clean(c, w, p, g)
    ensures WellLinked(c, w, p, g)
  {
  }

  lemma BaseAfterChange(c: Closure, w: World, w': World, p: nat, g: nat, impaired: set<nat>)
    requires Clean(c, w, p, g) && WorldOk(w') && StillRebuildable(c, w, w', p, impaired)
    ensures Base(c, w', p, g, impaired)
  {
    hide Clean, StillRebuildable, Base, WorldOk, WellLinked;
    CleanIsWellLinked(c, w, p, g);
    BaseAfterLinkedChange(c, w, w', p, g, impaired);
  }

  /** The affected product's closure is still one to rebuild from. */
  lemma BaseAfterLinkedChange(c: Closure, w: World, w': World, p: nat, g: nat, impaired: set<nat>)
    requires WellLinked(c, w, p, g) && WorldOk(w') && StillRebuildable(c, w, w', p, impaired)
    ensures Base(c, w', p, g, impaired)
  {
    hide OnLot, OnLine, Linked, StillOpen, FixedLotCaps, RunRows, ReadyRows;
    forall r | r in c.reqs ensures ReqOk(r, w', p, g) { assert ReqOk(r, w, p, g); }
    forall x | x in c.rows ensures RowOk(x, c, w', p) { assert RowOk(x, c, w, p); }
    forall run | ActiveRun(w', run, p) ensures RunOk(run, c, w', p) {
      assert RunOk(run, c, w, p);
      forall other | ActiveRun(w', other, p) ensures ActiveRun(w, other, p) && w'.runs[other] == w.runs[other] {}
    }
    forall k | k in c.links && k.req in Protected(w') ensures ProperLink(k, w', p) {
      assert ProperLink(k, w, p);
      assert k.lineId in LockedLines(c, w');
    }
  }

  // ---- promotions and demotions ----

  lemma EvaluateKeepsWorld(s: State, orders: set<nat>)
    requires WorldOk(s.world)
    ensures WorldOk(EvaluateAll(s, orders).world)
    ensures forall p :: SameFor(s.world, EvaluateAll(s, orders).world, p)
    ensures forall o :: Live(EvaluateAll(s, orders).world, o) <==> Live(s.world, o)
  {
    hide Satisfied, ProducedFor;
    var w, w' := s.world, EvaluateAll(s, orders).world;
    forall o ensures Live(w', o) <==> Live(w, o) {}
    forall l | l in w'.lines ensures LineOk(w', l) { assert LineOk(w, l); }
    forall p, l | LiveLine(w, l, p) ensures SameLine(w, w', l) {
      assert LineOk(w, l);
    }
  }

  /** Readiness evaluation keeps every closure clean. */
  lemma EvaluateKeepsClean(s: State, orders: set<nat>)
    requires AllClean(s)
    ensures AllClean(EvaluateAll(s, orders))
  {
    hide WorldOk, Clean, SameFor;
    var s' := EvaluateAll(s, orders);
    EvaluateKeepsWorld(s, orders);
    forall p ensures ProductClean(s', p) {
      assert ProductClean(s, p);
      if p in s.world.products && s.world.products[p].Produced? {
        CleanSame(ClosureOf(s, p), s.world, s'.world, p, s.generation);
      }
      SameReservations(s.world, s'.world, p);
    }
  }

  lemma SameReservations(w: World, w': World, p: nat)
    requires SameFor(w, w', p)
    ensures Reservations(w', p) == Reservations(w, p)
  {
    forall l | LiveLine(w, l, p) ensures w'.lines[l].quantity == w.lines[l].quantity { assert SameLine(w, w', l); }
    assert forall x :: x in Reservations(w', p) <==> x in Reservations(w, p);
  }

  // ---- satisfaction ----

  /** Everything satisfaction of `l` reads is the same in both states. */
  ghost predicate SameSupply(s: State, s': State, l: nat) {
    && l in s.world.lines && l in s'.world.lines && s'.world.lines[l] == s.world.lines[l]
    && (s.world.lines[l].source.OfProduct? ==>
          var p := s.world.lines[l].source.productId;
          && (p in s.world.products <==> p in s'.world.products)
          && (p in s.world.products ==> (s'.world.products[p].Produced? <==> s.world.products[p].Produced?))
          && ProducedFor(s'.world.outputs, l) == ProducedFor(s.world.outputs, l)
          && ClosureOf(s', p) == ClosureOf(s, p)
          && (p in s.stock <==> p in s'.stock) && (p in s.stock ==> s'.stock[p] == s.stock[p]))
  }

  lemma SameSupplySatisfies(s: State, s': State, o: nat)
    requires LinesOfOrder(s'.world, o) == LinesOfOrder(s.world, o)
    requires forall l :: l in LinesOfOrder(s.world, o) ==> SameSupply(s, s', l)
    ensures Satisfied(s', o) <==> Satisfied(s, o)
  {
    forall l | l in LinesOfOrder(s.world, o) ensures LineSatisfied(s', l) <==> LineSatisfied(s, l) {
      assert SameSupply(s, s', l);
    }
  }

  /** Satisfaction reads no status: evaluating orders changes nobody's satisfaction. */
  lemma EvaluationKeepsSatisfaction(s: State, orders: set<nat>, o: nat)
    ensures Satisfied(EvaluateAll(s, orders), o) <==> Satisfied(s, o)
  {
    var s' := EvaluateAll(s, orders);
    assert LinesOfOrder(s'.world, o) == LinesOfOrder(s.world, o);
    forall l | l in LinesOfOrder(s.world, o) ensures LineSatisfied(s', l) <==> LineSatisfied(s, l) {
      forall p ensures ClosureOf(s', p) == ClosureOf(s, p) {}
    }
  }

  /** Evaluating one order and then others is evaluating them together. */
  lemma EvaluationOrderIsIrrelevant(s: State, o: nat, orders: set<nat>)
    ensures EvaluateAll(EvaluateAll(s, {o}), orders) == EvaluateAll(s, orders + {o})
  {
    var s1 := EvaluateAll(s, {o});
    forall q | q in s.world.orders
      ensures EvaluateAll(s1, orders).world.orders[q] == EvaluateAll(s, orders + {o}).world.orders[q]
    {
      EvaluationKeepsSatisfaction(s, {o}, q);
    }
  }

  /** After evaluating `orders`, every Ready order is satisfied, if those outside were. */
  lemma EvaluationEstablishesReady(s: State, orders: set<nat>)
    requires forall o :: o in s.world.orders && s.world.orders[o].status == Ready && o !in orders ==> Satisfied(s, o)
    ensures ReadySatisfied(EvaluateAll(s, orders))
  {
    var s' := EvaluateAll(s, orders);
    forall o | o in s'.world.orders && s'.world.orders[o].status == Ready ensures Satisfied(s', o) {
      EvaluationKeepsSatisfaction(s, orders, o);
    }
  }
}
