/** Edit and Cancel without their protection check, as one of them writes when a run was started between
    its check and its product locks: exactly when the planning state is still legal afterwards. */
module OvertakenSteps {
  import opened Tallies
  import opened PlanningState
  import opened Recalculation
  import opened RecalculationTheorems
  import opened PlanningInvariant
  import opened PlanningSystem
  import opened WorldChanges
  import opened Lifecycle
  import opened LifecycleTheorems

  // ---- Cancel ----

  /** Cancel without its protection check: what it commits when a run was started after the check. */
  ghost function UncheckedCancel(s: State, o: nat, locked: set<nat>, today: int): Attempt
    requires o in s.world.orders
  {
    Settle(WithStatus(s, o, Canceled), ProductsOfOrder(s.world, o), locked, today)
  }

  lemma RecalculationKeepsLink(s: State, q: nat, today: int, p: nat, k: Link)
    requires Recalculate(s, q, today, {}).Done? && k in ClosureOf(s, p).links && k.req in Protected(s.world)
    requires IsProduced(s.world, p)
    ensures k in ClosureOf(Recalculate(s, q, today, {}).state, p).links
      && Recalculate(s, q, today, {}).state.world == s.world
  {
    hide ComputeFor, Protected;
  }

  lemma {:induction false} ProtectedLinkStays(s: State, products: seq<nat>, today: int, p: nat, k: Link)
    requires RecalculateAll(s, products, today).Done? && k in ClosureOf(s, p).links && k.req in Protected(s.world)
    requires IsProduced(s.world, p)
    ensures k in ClosureOf(RecalculateAll(s, products, today).state, p).links
    ensures RecalculateAll(s, products, today).state.world == s.world
    decreases products
  {
    if products != [] {
      RecalculationKeepsLink(s, products[0], today, p, k);
      hide Recalculate, ClosureOf, Protected;
      ProtectedLinkStays(Recalculate(s, products[0], today, {}).state, products[1..], today, p, k);
    }
  }

  /** A protected link of the canceled order outlives the cancel, to a line that is no longer live. */
  lemma CanceledBehindARun(s: State, o: nat, locked: set<nat>, today: int)
    requires Inv(s) && o in s.world.orders && OrderLocked(s, o) && UncheckedCancel(s, o, locked, today).Done?
    ensures !Inv(UncheckedCancel(s, o, locked, today).state)
  {
    hide RecalculateAll, Skeleton, ReadySatisfied, StockOk, LotCaps, LineCaps, Meets, ClaimsMeet, WorldOk, Satisfied;
    var w, s1 := s.world, WithStatus(s, o, Canceled);
    var l :| l in LinesOfOrder(w, o) && LineLocked(s, l);
    var p := w.lines[l].source.productId;
    var k :| k in ClosureOf(s, p).links && k.req in Protected(w) && k.lineId == l;
    assert ProductClean(s, p) && IsProduced(w, p);
    assert Protected(s1.world) == Protected(w) && ClosureOf(s1, p) == ClosureOf(s, p);
    ProtectedLinkStays(s1, Ascending(ProductsOfOrder(w, o)), today, p, k);
    var s2 := UncheckedCancel(s, o, locked, today).state;
    assert k in ClosureOf(s2, p).links && IsProduced(s2.world, p);
    assert !Live(s2.world, o) && s2.world.lines == w.lines;
    assert !ProperLink(k, s2.world, p);
    assert !ProductClean(s2, p);
  }

  /** So the check is exactly what the invariant needs. */
  lemma UncheckedCancelKeepsInvIff(s: State, o: nat, locked: set<nat>, today: int)
    requires Inv(s) && Live(s.world, o) && Candidates(s.world, ProductsOfOrder(s.world, o)) + {o} <= locked
    requires UncheckedCancel(s, o, locked, today).Done?
    ensures Inv(UncheckedCancel(s, o, locked, today).state) <==> !OrderLocked(s, o)
  {
    hide Inv, Settleable, Settle, Candidates, ProductsOfOrder, OrderLocked;
    if OrderLocked(s, o) {
      CanceledBehindARun(s, o, locked, today);
    } else {
      StatusSettleable(s, o, Canceled, locked);
      SettleKeepsInv(WithStatus(s, o, Canceled), ProductsOfOrder(s.world, o), locked, today);
    }
  }

  // ---- Edit ----

  /** The lines the edit deletes. */
  function Gone(w: World, o: nat, p: Payload): set<nat> { set l | l in LinesOfOrder(w, o) && l !in p.lines }

  predicate Cascades(w: World, gone: set<nat>, req: ReqId, lineId: nat) { req in Protected(w) && lineId in gone }

  function RowsLeft(c: Closure, w: World, gone: set<nat>): set<SurplusRow> {
    set x | x in c.rows && !Cascades(w, gone, x.req, x.lineId)
  }

  /** Deleting lines deletes their links and rows under requirements behind runs; those under any other
      requirement go when the same step rebuilds it. */
  function WithoutLines(c: Closure, w: World, gone: set<nat>): Closure {
    c.(links := (set k | k in c.links && !Cascades(w, gone, k.req, k.lineId)),
      rows := Pick(c.rows, RowsLeft(c, w, gone)))
  }

  function Edited(s: State, o: nat, p: Payload): State
    requires o in s.world.orders
  {
    s.(world := ReplaceLines(s.world, o, p),
       closures := map q | q in s.closures :: WithoutLines(s.closures[q], s.world, Gone(s.world, o, p)))
  }

  ghost function UncheckedEdit(s: State, o: nat, p: Payload, locked: set<nat>, today: int): Attempt
    requires o in s.world.orders
  {
    Settle(Edited(s, o, p), ProductsOfOrder(s.world, o) + NewProducts(p), locked, today)
  }

  /** What a run still needs: every line of the order behind a run that stays is unchanged, date included,
      and every requirement behind a run keeps a line. */
  ghost predicate LeavesRunsWhole(s: State, o: nat, p: Payload)
    requires o in s.world.orders
  {
    && (forall l :: l in LinesOfOrder(s.world, o) && LineLocked(s, l) && l in p.lines ==>
          p.lines[l] == s.world.lines[l] && p.date == s.world.orders[o].date)
    && (forall q, r :: r in ClosureOf(s, q).reqs && r in Protected(s.world) ==> KeepsALine(s, o, p, q, r))
  }

  ghost predicate KeepsALine(s: State, o: nat, p: Payload, q: nat, r: ReqId)
    requires o in s.world.orders
  {
    exists k :: k in ClosureOf(s, q).links && k.req == r && k.lineId !in Gone(s.world, o, p)
  }

  /** An edit the service accepts but for active runs. */
  ghost predicate Acceptable(s: State, o: nat, p: Payload, locked: set<nat>) {
    && o in s.world.orders && s.world.orders[o].status == Confirmed && p.date.Some?
    && ValidPayload(s.world, o, p) && !RemovesProduced(s.world, o, p)
    && Candidates(s.world, ProductsOfOrder(s.world, o) + NewProducts(p)) + {o} <= locked
  }

  // ---- a legal state needs it ----

  lemma EditedClosure(s: State, o: nat, p: Payload, q: nat)
    requires o in s.world.orders
    ensures ClosureOf(Edited(s, o, p), q) == WithoutLines(ClosureOf(s, q), s.world, Gone(s.world, o, p))
  {
    if q !in s.closures { assert WithoutLines(EMPTY, s.world, Gone(s.world, o, p)) == EMPTY; }
  }

  lemma ProtectedIsProduced(s: State, q: nat, r: ReqId)
    requires AllClean(s) && r in ClosureOf(s, q).reqs
    ensures IsProduced(s.world, q) && ReqOk(r, s.world, q, s.generation)
  {
    hide WorldOk, Meets, ClaimsMeet, LotCaps, LineCaps, RowOk, RunOk, ProperLink;
    assert ProductClean(s, q);
  }

  /** Rebuilds add only links of their own generation. */
  lemma OldLinkWasThere(s: State, q: nat, today: int, p: nat, k: Link)
    requires Recalculate(s, q, today, {}).Done? && k in ClosureOf(Recalculate(s, q, today, {}).state, p).links
    requires k.req.generation < s.generation
    ensures k in ClosureOf(s, p).links
    ensures Recalculate(s, q, today, {}).state.generation >= s.generation
  {
    hide Items, Lots, ReadyRows, RunRows, TakenKeys, Allocated, Groups, Claims, Storable, KeyMap, FreshRows, Clones;
  }

  lemma {:induction false} OldLinksOnly(s: State, products: seq<nat>, today: int, p: nat, k: Link)
    requires RecalculateAll(s, products, today).Done?
      && k in ClosureOf(RecalculateAll(s, products, today).state, p).links
    requires k.req.generation < s.generation
    ensures k in ClosureOf(s, p).links
    decreases products
  {
    if products != [] {
      var first := Recalculate(s, products[0], today, {}).state;
      RecalculationGrows(s, products[0], today);
      hide Recalculate, ClosureOf;
      OldLinksOnly(first, products[1..], today, p, k);
      OldLinkWasThere(s, products[0], today, p, k);
    }
  }

  lemma RecalculationGrows(s: State, q: nat, today: int)
    requires Recalculate(s, q, today, {}).Done?
    ensures Recalculate(s, q, today, {}).state.generation >= s.generation
  {
    hide ComputeFor, Replace;
  }

  lemma {:induction false} ProtectedReqStays(s: State, products: seq<nat>, today: int, p: nat, r: ReqId)
    requires RecalculateAll(s, products, today).Done? && r in ClosureOf(s, p).reqs && r in Protected(s.world)
    requires IsProduced(s.world, p)
    ensures r in ClosureOf(RecalculateAll(s, products, today).state, p).reqs
    decreases products
  {
    if products != [] {
      RecalculationKeepsReq(s, products[0], today, p, r);
      hide Recalculate, ClosureOf, Protected;
      ProtectedReqStays(Recalculate(s, products[0], today, {}).state, products[1..], today, p, r);
    }
  }

  lemma RecalculationKeepsReq(s: State, q: nat, today: int, p: nat, r: ReqId)
    requires Recalculate(s, q, today, {}).Done? && r in ClosureOf(s, p).reqs && r in Protected(s.world)
    requires IsProduced(s.world, p)
    ensures r in ClosureOf(Recalculate(s, q, today, {}).state, p).reqs
    ensures Recalculate(s, q, today, {}).state.world == s.world
  {
    hide ComputeFor, Protected;
  }

  /** A line that stays linked behind a run must still say what its link says. */
  lemma LegalEditKeepsTerms(s: State, o: nat, p: Payload, locked: set<nat>, today: int, l: nat)
    requires Inv(s) && Acceptable(s, o, p, locked) && UncheckedEdit(s, o, p, locked, today).Done?
    requires Inv(UncheckedEdit(s, o, p, locked, today).state)
    requires l in LinesOfOrder(s.world, o) && LineLocked(s, l) && l in p.lines
    ensures p.lines[l] == s.world.lines[l] && p.date == s.world.orders[o].date
  {
    hide RecalculateAll, Skeleton, ReadySatisfied, StockOk, LotCaps, LineCaps, Meets, ClaimsMeet, WorldOk, Satisfied,
      RemovesProduced, Candidates;
    var w, s1, s2 := s.world, Edited(s, o, p), UncheckedEdit(s, o, p, locked, today).state;
    var q := w.lines[l].source.productId;
    var k :| k in ClosureOf(s, q).links && k.req in Protected(w) && k.lineId == l;
    assert ProductClean(s, q) && ProperLink(k, w, q);
    EditedClosure(s, o, p, q);
    assert Protected(s1.world) == Protected(w) && k in ClosureOf(s1, q).links;
    ProtectedLinkStays(s1, Ascending(ProductsOfOrder(w, o) + NewProducts(p)), today, q, k);
    assert ClosureOf(s2, q)
      == ClosureOf(RecalculateAll(s1, Ascending(ProductsOfOrder(w, o) + NewProducts(p)), today).state, q);
    assert ProductClean(s2, q) && ProperLink(k, s2.world, q);
    assert ValidLine(w, o, l, p.lines[l]);
  }

  lemma LegalEditKeepsALine(s: State, o: nat, p: Payload, locked: set<nat>, today: int, q: nat, r: ReqId)
    requires Inv(s) && Acceptable(s, o, p, locked) && UncheckedEdit(s, o, p, locked, today).Done?
    requires Inv(UncheckedEdit(s, o, p, locked, today).state)
    requires r in ClosureOf(s, q).reqs && r in Protected(s.world)
    ensures KeepsALine(s, o, p, q, r)
  {
    hide RecalculateAll, ReadySatisfied, StockOk, LotCaps, LineCaps, Meets, ClaimsMeet, WorldOk, Satisfied,
      RemovesProduced, Candidates, ValidPayload, RowOk, RunOk, ProperLink;
    var w, s1, s2 := s.world, Edited(s, o, p), UncheckedEdit(s, o, p, locked, today).state;
    var products := Ascending(ProductsOfOrder(w, o) + NewProducts(p));
    ProtectedIsProduced(s, q, r);
    EditedClosure(s, o, p, q);
    assert Protected(s1.world) == Protected(w);
    ProtectedReqStays(s1, products, today, q, r);
    assert ClosureOf(s2, q) == ClosureOf(RecalculateAll(s1, products, today).state, q);
    assert ProductClean(s2, q) && IsProduced(s2.world, q) && HasLine(ClosureOf(s2, q), r);
    var k :| k in ClosureOf(s2, q).links && k.req == r;
    OldLinksOnly(s1, products, today, q, k);
  }

  // ---- and that is enough ----

  lemma FewerLinksWellLinked(c: Closure, w: World, q: nat, g: nat, gone: set<nat>)
    requires WellLinked(c, w, q, g)
    requires forall r :: r in c.reqs && r in Protected(w) ==>
      exists k :: k in c.links && k.req == r && k.lineId !in gone
    ensures WellLinked(WithoutLines(c, w, gone), w, q, g)
  {
    hide Pick;
    var c1 := WithoutLines(c, w, gone);
    forall r | r in c1.reqs ensures HasLine(c1, r) {
      if r in Protected(w) {
        var k :| k in c.links && k.req == r && k.lineId !in gone;
        assert k in c1.links;
      } else {
        assert HasLine(c, r);
        var k :| k in c.links && k.req == r;
        assert k in c1.links;
      }
    }
    forall x | x in c1.rows ensures RowOk(x, c1, w, q) {
      PickMembers(c.rows, RowsLeft(c, w, gone), x);
      assert RowOk(x, c, w, q);
      var k :| k in c.links && k.req == x.req && k.lineId == x.lineId;
      assert k in c1.links;
    }
    forall run | ActiveRun(w, run, q) ensures RunOk(run, c1, w, q) { assert RunOk(run, c, w, q); }
  }

  lemma LineStays(s: State, o: nat, p: Payload, q: nat, k: Link)
    requires AllClean(s) && o in s.world.orders && ValidPayload(s.world, o, p) && LeavesRunsWhole(s, o, p)
    requires k in ClosureOf(s, q).links && k.req in Protected(s.world) && k.lineId !in Gone(s.world, o, p)
    requires IsProduced(s.world, q)
    ensures LiveLine(s.world, k.lineId, q)
    ensures s.world.orders[o].status == Confirmed ==>
      LiveLine(ReplaceLines(s.world, o, p), k.lineId, q) && SameTerms(s.world, ReplaceLines(s.world, o, p), k.lineId)
  {
    hide Skeleton, LotCaps, LineCaps, Meets, ClaimsMeet, KeepsALine;
    var w := s.world;
    assert ProductClean(s, q) && ProperLink(k, w, q);
    assert LineOk(w, k.lineId);
    if w.lines[k.lineId].orderId == o {
      assert k.lineId in LinesOfOrder(w, o) && LineLocked(s, k.lineId);
    } else {
      EditedLine(w, o, p, k.lineId);
    }
  }

  lemma WholeEditStillRebuildable(s: State, o: nat, p: Payload, q: nat)
    requires Inv(s) && o in s.world.orders && s.world.orders[o].status == Confirmed && ValidPayload(s.world, o, p)
    requires LeavesRunsWhole(s, o, p) && IsProduced(s.world, q)
    ensures StillRebuildable(
      WithoutLines(ClosureOf(s, q), s.world, Gone(s.world, o, p)), s.world, ReplaceLines(s.world, o, p), q, {})
  {
    hide OnLot, OnLine, ProducedFor, Skeleton, Meets, ClaimsMeet, Pick, LedgerOk, Satisfied, LeavesRunsWhole,
      ValidPayload;
    var w, w1, gone := s.world, ReplaceLines(s.world, o, p), Gone(s.world, o, p);
    var c := ClosureOf(s, q);
    var c1 := WithoutLines(c, w, gone);
    assert ProductClean(s, q);
    assert Protected(w1) == Protected(w);
    forall l | l in LockedLines(c1, w1) ensures LiveLine(w1, l, q) && SameTerms(w, w1, l) && LiveLine(w, l, q) {
      var k :| k in c1.links && k.req in Protected(w) && k.lineId == l;
      LineStays(s, o, p, q, k);
    }
    forall l | ReadyLine(w1, l, q) ensures LiveLine(w, l, q) && w1.lines[l] == w.lines[l] { EditedOrigin(w, o, p, l); }
    forall l | FixedLine(c1, w1, l, q) ensures l in w1.lines && OnLine(c1.rows, l) <= StillOpen(w1, l) {
      assert LiveLine(w, l, q);
      PartHoldsLess(c.rows, RowsLeft(c, w, gone), l);
    }
    forall l | l in w1.lots && w1.lots[l].productId == q
      ensures OnLot(RunRows(c1, w1), l) + OnLot(ReadyRows(c1, w1, q, {}), l) <= w1.lots[l].physical
    {
      FixedFits(c1, w1, q, {}, l);
      PartHoldsLess(c.rows, RowsLeft(c, w, gone), l);
    }
  }

  lemma WholeEditOwnProduct(s: State, o: nat, p: Payload, q: nat)
    requires Inv(s) && o in s.world.orders && s.world.orders[o].status == Confirmed && ValidPayload(s.world, o, p)
    requires LeavesRunsWhole(s, o, p) && WorldOk(ReplaceLines(s.world, o, p))
    ensures ProductBase(Edited(s, o, p), q, {})
  {
    hide WorldOk, WellLinked, Base, StillRebuildable, Pick, LedgerOk, Satisfied, ValidPayload, Skeleton, LotCaps,
      LineCaps, Meets, ClaimsMeet;
    if IsProduced(s.world, q) {
      var c, gone := ClosureOf(s, q), Gone(s.world, o, p);
      assert ProductClean(s, q);
      EditedClosure(s, o, p, q);
      CleanIsWellLinked(c, s.world, q, s.generation);
      forall r | r in c.reqs && r in Protected(s.world)
        ensures exists k :: k in c.links && k.req == r && k.lineId !in gone
      {
        assert KeepsALine(s, o, p, q, r);
      }
      FewerLinksWellLinked(c, s.world, q, s.generation, gone);
      WholeEditStillRebuildable(s, o, p, q);
      BaseAfterLinkedChange(WithoutLines(c, s.world, gone), s.world, ReplaceLines(s.world, o, p), q, s.generation, {});
    }
  }

  lemma {:induction false} PickedWhole(rows: seq<SurplusRow>, which: set<SurplusRow>)
    requires forall x :: x in rows ==> x in which
    ensures Pick(rows, which) == rows
  {
    if rows != [] {
      var n := |rows| - 1;
      assert rows == rows[..n] + [rows[n]];
      PickedWhole(rows[..n], which);
    }
  }

  /** Products the order has no line of lose nothing. */
  lemma OthersLoseNothing(s: State, o: nat, p: Payload, q: nat)
    requires AllClean(s) && o in s.world.orders && q !in ProductsOfOrder(s.world, o)
    ensures ClosureOf(Edited(s, o, p), q) == ClosureOf(s, q)
  {
    hide Pick, LotCaps, LineCaps, Meets, ClaimsMeet, WorldOk, RunOk;
    var w, c, gone := s.world, ClosureOf(s, q), Gone(s.world, o, p);
    EditedClosure(s, o, p, q);
    assert ProductClean(s, q);
    forall k | k in c.links ensures k.lineId !in gone {
      assert ProperLink(k, w, q);
      assert k.lineId in LinesOfOrder(w, o) ==> q in ProductsOfOrder(w, o);
    }
    forall x | x in c.rows ensures x in RowsLeft(c, w, gone) {
      assert RowOk(x, c, w, q);
      var k :| k in c.links && k.req == x.req && k.lineId == x.lineId;
    }
    PickedWhole(c.rows, RowsLeft(c, w, gone));
    assert WithoutLines(c, w, gone).links == c.links;
  }

  lemma WholeEditSettleable(s: State, o: nat, p: Payload, locked: set<nat>)
    requires Inv(s) && Acceptable(s, o, p, locked) && LeavesRunsWhole(s, o, p)
    ensures Settleable(Edited(s, o, p), ProductsOfOrder(s.world, o) + NewProducts(p), locked)
  {
    hide WorldOk, Clean, Satisfied, ProductsOfOrder, Candidates, LedgerOk, ValidPayload, RemovesProduced,
      LeavesRunsWhole, Base, WithoutLines;
    var w, s1, plain := s.world, Edited(s, o, p), s.(world := ReplaceLines(s.world, o, p));
    var products := ProductsOfOrder(w, o) + NewProducts(p);
    EditedWorldOk(w, o, p);
    forall q | q in products ensures ProductBase(s1, q, {}) { WholeEditOwnProduct(s, o, p, q); }
    forall q | q !in products ensures ProductClean(s1, q) && ClosureOf(s1, q) == ClosureOf(plain, q) {
      OthersLoseNothing(s, o, p, q);
      EditedOtherProduct(s, o, p, q);
    }
    forall q | q in s1.world.orders && s1.world.orders[q].status == Ready && q !in locked
      ensures Satisfied(s1, q) && ProductsOfOrder(s1.world, q) !! products
    {
      OutsideLocked(w, products, locked, q);
      EditKeepsOthersSatisfied(s, o, p, q);
      UnrecalculatedOrder(plain, s1, products, q);
    }
    WorldChangeKeepsStock(s, s1.world);
    StockUnmoved(plain, s1);
  }

  /** Exactly when an Edit that missed a run leaves a legal state. */
  lemma UncheckedEditKeepsInvIff(s: State, o: nat, p: Payload, locked: set<nat>, today: int)
    requires Inv(s) && Acceptable(s, o, p, locked) && UncheckedEdit(s, o, p, locked, today).Done?
    ensures Inv(UncheckedEdit(s, o, p, locked, today).state) <==> LeavesRunsWhole(s, o, p)
  {
    hide Inv, Settleable, Settle, LineLocked, KeepsALine, ValidPayload, RemovesProduced, Candidates;
    if Inv(UncheckedEdit(s, o, p, locked, today).state) {
      forall l | l in LinesOfOrder(s.world, o) && LineLocked(s, l) && l in p.lines
        ensures p.lines[l] == s.world.lines[l] && p.date == s.world.orders[o].date
      {
        LegalEditKeepsTerms(s, o, p, locked, today, l);
      }
      forall q, r | r in ClosureOf(s, q).reqs && r in Protected(s.world) ensures KeepsALine(s, o, p, q, r) {
        LegalEditKeepsALine(s, o, p, locked, today, q, r);
      }
    } else if LeavesRunsWhole(s, o, p) {
      WholeEditSettleable(s, o, p, locked);
      SettleKeepsInv(Edited(s, o, p), ProductsOfOrder(s.world, o) + NewProducts(p), locked, today);
    }
  }

  /** The protection check asks for more than that: what it lets pass leaves runs whole. */
  lemma CheckLeavesRunsWhole(s: State, o: nat, p: Payload, touched: set<nat>)
    requires Inv(s) && o in s.world.orders && p.date.Some? && ValidPayload(s.world, o, p)
    requires !TouchesLocked(s, o, p, touched) && forall l :: LineChanged(s.world, p, l) ==> l in touched
    ensures LeavesRunsWhole(s, o, p)
  {
    hide ReadySatisfied, StockOk, WorldOk, LotCaps, LineCaps, Meets, ClaimsMeet, RowOk, RunOk;
    var w := s.world;
    forall l | l in LinesOfOrder(w, o) && LineLocked(s, l) && l in p.lines
      ensures p.lines[l] == w.lines[l] && p.date == w.orders[o].date
    {
      assert ValidLine(w, o, l, p.lines[l]) && !LineChanged(w, p, l);
    }
    forall q, r | r in ClosureOf(s, q).reqs && r in Protected(w) ensures KeepsALine(s, o, p, q, r) {
      ProtectedIsProduced(s, q, r);
      assert ProductClean(s, q) && HasLine(ClosureOf(s, q), r);
      var k :| k in ClosureOf(s, q).links && k.req == r;
      assert ProperLink(k, w, q);
      assert k.lineId in LinesOfOrder(w, o) ==> LineLocked(s, k.lineId);
    }
  }
}
