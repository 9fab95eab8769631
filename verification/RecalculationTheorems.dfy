/** A rebuild turns any closure it may start from into a clean one, without touching what is behind
    a run in production and without taking surplus from a Ready order. */
module RecalculationTheorems {
  import opened Sorting
  import opened Tallies
  import opened PlanningState
  import opened Recalculation
  import opened RecalculationFacts
  import opened PlanningInvariant
  import Allocator = SurplusAllocation
  import Surplus = SurplusTheorems

  // ---- the gathered lines and lots ----

  lemma ItemsAre(c: Closure, w: World, productId: nat, ready: seq<SurplusRow>)
    ensures
      var items := Items(c, w, productId, ready);
      && DistinctLines(items)
      && (forall i :: 0 <= i < |items| ==>
            items[i].lineId in DemandLines(c, w, productId)
            && items[i] == ItemOf(c, w, productId, ready, items[i].lineId))
      && (forall l :: l in DemandLines(c, w, productId) ==> exists i :: 0 <= i < |items| && items[i].lineId == l)
  {
    AscendingIs(DemandLines(c, w, productId));
    var ids, items := Ascending(DemandLines(c, w, productId)), Items(c, w, productId, ready);
    forall l | l in DemandLines(c, w, productId) ensures exists i :: 0 <= i < |items| && items[i].lineId == l {
      var i :| 0 <= i < |ids| && ids[i] == l;
      assert items[i].lineId == l;
    }
  }

  lemma LotsAre(w: World, productId: nat, fixed: seq<SurplusRow>)
    ensures
      var lots := Lots(w, productId, fixed);
      && Allocator.DistinctLots(lots)
      && (forall j :: 0 <= j < |lots| ==>
            lots[j].lotId in LotsOf(w, productId) && lots[j] == LotOf(w, fixed, lots[j].lotId))
      && (forall l :: l in LotsOf(w, productId) ==> exists j :: 0 <= j < |lots| && lots[j].lotId == l)
  {
    AscendingIs(LotsOf(w, productId));
    var ids, lots := Ascending(LotsOf(w, productId)), Lots(w, productId, fixed);
    forall i, k | 0 <= i < k < |lots| ensures Allocator.LotId(lots[i]) != Allocator.LotId(lots[k]) {
      assert ids[i] < ids[k];
    }
    forall l | l in LotsOf(w, productId) ensures exists j :: 0 <= j < |lots| && lots[j].lotId == l {
      var j :| 0 <= j < |ids| && ids[j] == l;
      assert lots[j].lotId == l;
    }
  }

  /** A row outside protected requirements sits on a line that is not production-locked. */
  lemma RowLineIsFree(c: Closure, w: World, productId: nat, generation: nat, x: SurplusRow)
    requires Skeleton(c, w, productId, generation) && x in c.rows && x.req !in Protected(w)
    ensures x.lineId !in LockedLines(c, w)
  {
    assert RowOk(x, c, w, productId);
    var k :| k in c.links && k.req == x.req && k.lineId == x.lineId;
    forall m | m in c.links && m.req in Protected(w) ensures m.lineId != x.lineId {}
  }

  lemma ReadyRowsAre(c: Closure, w: World, productId: nat, impaired: set<nat>, x: SurplusRow)
    ensures x in ReadyRows(c, w, productId, impaired) <==> x in c.rows && KeptForReady(x, w, productId, impaired)
  {
    PickMembers(c.rows, ReadyRowSet(c, w, productId, impaired), x);
  }

  lemma RunRowsAre(c: Closure, w: World, x: SurplusRow)
    ensures x in RunRows(c, w) <==> x in c.rows && x.req in Protected(w)
  {
    PickMembers(c.rows, RunRowSet(c, w), x);
  }

  /** Every kept row belongs to a line of this rebuild, so its group lookup never fails. */
  lemma KeptRowsHaveKeys(c: Closure, w: World, productId: nat, generation: nat, impaired: set<nat>)
    requires Skeleton(c, w, productId, generation)
    ensures
      var ready := ReadyRows(c, w, productId, impaired);
      RowsKeyed(ready, KeyMap(Items(c, w, productId, ready)))
  {
    hide Items, KeyMap, Skeleton, ReadyRows;
    var ready := ReadyRows(c, w, productId, impaired);
    var items := Items(c, w, productId, ready);
    ItemsAre(c, w, productId, ready);
    KeyMapIs(items);
    forall x | x in ready ensures x.lineId in KeyMap(items) {
      ReadyRowsAre(c, w, productId, impaired, x);
      RowLineIsFree(c, w, productId, generation, x);
      assert x.lineId in DemandLines(c, w, productId);
      var i :| 0 <= i < |items| && items[i].lineId == x.lineId;
    }
  }

  /** The kept part of a closure is its protected part. */
  lemma KeptIsProtected(c: Closure, w: World, productId: nat, generation: nat)
    requires Skeleton(c, w, productId, generation)
    ensures forall r :: r in Kept(c, w).reqs <==> r in c.reqs && r in Protected(w)
    ensures forall r :: r in Kept(c, w).reqs ==> Kept(c, w).reqs[r] == c.reqs[r]
    ensures forall k :: k in Kept(c, w).links <==> k in c.links && k.req in Protected(w)
    ensures forall k :: k in Kept(c, w).claims <==> k in c.claims && k.req in Protected(w)
    ensures Kept(c, w).rows == RunRows(c, w)
  {
    var gone := Rebuildable(c, w);
    forall x | x in c.rows ensures x.req in c.reqs { assert RowOk(x, c, w, productId); }
    PickAgrees(c.rows, (set x | x in c.rows && x.req !in gone), RunRowSet(c, w));
  }

  // ---- the rows a rebuild adds ----

  ghost predicate NewRowOk(x: SurplusRow, items: seq<Item>, w: World, productId: nat, generation: nat) {
    && x.lineId in KeyMap(items) && x.req == ReqId(KeyMap(items)[x.lineId], generation) && x.quantity > 0
    && x.lotId in w.lots && w.lots[x.lotId].productId == productId
  }

  function NewRows(
      shares: seq<Allocator.Allocation>, ready: seq<SurplusRow>, keys: map<nat, DemandKey>,
      generation: nat): seq<SurplusRow> {
    FreshRows(shares, keys, generation) + Clones(ready, keys, generation)
  }

  lemma NewRowsAreOk(
      c: Closure, w: World, productId: nat, generation: nat, today: int, impaired: set<nat>, x: SurplusRow)
    requires Skeleton(c, w, productId, generation)
    requires
      var ready := ReadyRows(c, w, productId, impaired);
      var items := Items(c, w, productId, ready);
      var shares := Allocated(items, Lots(w, productId, RunRows(c, w) + ready), today);
      x in NewRows(shares, ready, KeyMap(items), generation)
    ensures NewRowOk(x, Items(c, w, productId, ReadyRows(c, w, productId, impaired)), w, productId, generation)
  {
    hide Allocated, Items, Lots, KeyMap;
    var ready := ReadyRows(c, w, productId, impaired);
    var items := Items(c, w, productId, ready);
    var lots := Lots(w, productId, RunRows(c, w) + ready);
    var shares := Allocated(items, lots, today);
    ItemsAre(c, w, productId, ready);
    LotsAre(w, productId, RunRows(c, w) + ready);
    if x in FreshRows(shares, KeyMap(items), generation) {
      FreshRowOrigin(shares, KeyMap(items), generation, x);
      var a :| a in shares && a.lotId == x.lotId && a.lineId == x.lineId && a.quantity == x.quantity;
      SharesAreListed(items, lots, today, a);
    } else {
      CloneOrigin(ready, KeyMap(items), generation, x);
      var y :| y in ready && x == y.(req := x.req);
      ReadyRowsAre(c, w, productId, impaired, y);
      assert RowOk(y, c, w, productId);
    }
  }

  // ---- references and uniqueness ----

  lemma NewLinksAre(items: seq<Item>, generation: nat)
    requires DistinctLines(items)
    ensures forall k :: k in Links(items, generation) ==>
      k.lineId in KeyMap(items) && k.req == ReqId(KeyMap(items)[k.lineId], generation)
    ensures forall l :: l in KeyMap(items) ==>
      exists k :: k in Links(items, generation) && k.lineId == l && k.req == ReqId(KeyMap(items)[l], generation)
    ensures forall k, m :: k in Links(items, generation) && m in Links(items, generation) && k.lineId == m.lineId ==>
      k == m
  {
    KeyMapIs(items);
    forall l | l in KeyMap(items)
      ensures exists k :: k in Links(items, generation) && k.lineId == l && k.req == ReqId(KeyMap(items)[l], generation)
    {
      var i :| 0 <= i < |items| && items[i].lineId == l;
      assert Link(ReqId(items[i].key, generation), items[i].lineId, items[i].quantity) in Links(items, generation);
    }
  }

  lemma KeysAre(items: seq<Item>)
    requires DistinctLines(items)
    ensures forall l :: l in KeyMap(items) ==> KeyMap(items)[l] in Keys(items)
    ensures forall k :: k in Keys(items) ==> exists l :: l in KeyMap(items) && KeyMap(items)[l] == k
  {
    KeyMapIs(items);
    forall k | k in Keys(items) ensures exists l :: l in KeyMap(items) && KeyMap(items)[l] == k {
      var i :| 0 <= i < |items| && items[i].key == k;
      assert items[i].lineId in KeyMap(items);
    }
  }

  lemma ItemKeyIs(c: Closure, w: World, productId: nat, generation: nat, ready: seq<SurplusRow>, i: nat)
    requires WorldOk(w) && Skeleton(c, w, productId, generation)
    requires i < |Items(c, w, productId, ready)|
    ensures
      var item := Items(c, w, productId, ready)[i];
      && LiveLine(w, item.lineId, productId) && item.lineId !in LockedLines(c, w)
      && item.quantity == w.lines[item.lineId].quantity
      && item.fixed == OnLine(ready, item.lineId) && item.produced == ProducedFor(w.outputs, item.lineId)
      && item.key.productId == productId
      && w.orders[w.lines[item.lineId].orderId].date == Some(item.key.date)
      && (item.key.revision.Some? ==> item.key.revision.value in w.revisions)
  {
    ItemsAre(c, w, productId, ready);
    var item := Items(c, w, productId, ready)[i];
    if HasLink(c, item.lineId) {
      var k :| k in c.links && k.lineId == item.lineId && item.key.revision == k.req.key.revision;
      assert ReqOk(k.req, w, productId, generation);
    }
  }

  // ---- the rebuilt closure, piece by piece ----

  /** The parts of one successful rebuild. */
  ghost predicate RebuiltFrom(
      c: Closure, w: World, productId: nat, generation: nat, items: seq<Item>, shares: seq<Allocator.Allocation>,
      ready: seq<SurplusRow>, c': Closure)
  {
    && DistinctLines(items)
    && Keys(items) !! TakenKeys(c, w)
    && c'.reqs == Kept(c, w).reqs + Groups(items, shares, w.revisions, generation)
    && c'.links == Kept(c, w).links + Links(items, generation)
    && c'.rows == Kept(c, w).rows + NewRows(shares, ready, KeyMap(items), generation)
    && c'.claims == Kept(c, w).claims + Claims(Groups(items, shares, w.revisions, generation), w.revisions)
    && Storable(Groups(items, shares, w.revisions, generation),
         Claims(Groups(items, shares, w.revisions, generation), w.revisions))
  }

  /** Facts about the lines of a rebuild. */
  ghost predicate ItemsFit(
      c: Closure, w: World, productId: nat, generation: nat, items: seq<Item>, ready: seq<SurplusRow>) {
    && (forall i :: 0 <= i < |items| ==> ItemFits(items[i], c, w, productId, ready))
    && (forall l :: LiveLine(w, l, productId) && l !in LockedLines(c, w) ==> l in KeyMap(items))
    && (forall l :: l in KeyMap(items) ==> LiveLine(w, l, productId) && l !in LockedLines(c, w))
  }

  ghost predicate ItemFits(item: Item, c: Closure, w: World, productId: nat, ready: seq<SurplusRow>) {
    && LiveLine(w, item.lineId, productId) && item.lineId !in LockedLines(c, w)
    && item.quantity == w.lines[item.lineId].quantity
    && item.fixed == OnLine(ready, item.lineId) && item.produced == ProducedFor(w.outputs, item.lineId)
    && item.key.productId == productId
    && w.orders[w.lines[item.lineId].orderId].date == Some(item.key.date)
    && (item.key.revision.Some? ==> item.key.revision.value in w.revisions)
  }

  lemma ItemsDoFit(c: Closure, w: World, productId: nat, generation: nat, ready: seq<SurplusRow>)
    requires WorldOk(w) && Skeleton(c, w, productId, generation)
    ensures DistinctLines(Items(c, w, productId, ready))
    ensures ItemsFit(c, w, productId, generation, Items(c, w, productId, ready), ready)
  {
    hide Items, KeyMap, Skeleton, WorldOk;
    var items := Items(c, w, productId, ready);
    ItemsAre(c, w, productId, ready);
    KeyMapIs(items);
    forall i | 0 <= i < |items| ensures ItemFits(items[i], c, w, productId, ready) {
      ItemKeyIs(c, w, productId, generation, ready, i);
    }
    forall l | LiveLine(w, l, productId) && l !in LockedLines(c, w) ensures l in KeyMap(items) {
      assert l in DemandLines(c, w, productId);
    }
  }

  lemma NewIdsAreNew(
      c: Closure, w: World, productId: nat, generation: nat, items: seq<Item>, shares: seq<Allocator.Allocation>)
    requires Skeleton(c, w, productId, generation)
    ensures forall r :: r in Groups(items, shares, w.revisions, generation) ==>
      r.generation == generation && r.key in Keys(items)
    ensures forall k :: k in Keys(items) ==> ReqId(k, generation) in Groups(items, shares, w.revisions, generation)
    ensures forall r :: r in c.reqs ==> r.generation < generation
  {
    hide Group;
    forall r | r in c.reqs ensures r.generation < generation { assert ReqOk(r, w, productId, generation); }
  }

  lemma RebuiltReqs(
      c: Closure, w: World, productId: nat, generation: nat, items: seq<Item>, shares: seq<Allocator.Allocation>,
      ready: seq<SurplusRow>, c': Closure)
    requires Skeleton(c, w, productId, generation) && ItemsFit(c, w, productId, generation, items, ready)
    requires RebuiltFrom(c, w, productId, generation, items, shares, ready, c')
    ensures forall r :: r in c'.reqs ==> ReqOk(r, w, productId, generation + 1)
    ensures forall r, q :: r in c'.reqs && q in c'.reqs && r.key == q.key ==> r == q
    ensures forall r :: r in c'.reqs && r.generation < generation <==> r in c.reqs && r in Protected(w)
    ensures forall r :: r in c.reqs && r in Protected(w) ==> c'.reqs[r] == c.reqs[r]
    ensures forall l :: l in KeyMap(items) ==> ReqId(KeyMap(items)[l], generation) in c'.reqs
  {
    hide Groups, Kept, KeyMap;
    NewIdsAreNew(c, w, productId, generation, items, shares);
    KeptIsProtected(c, w, productId, generation);
    KeysAre(items);
    forall r | r in c'.reqs ensures ReqOk(r, w, productId, generation + 1) {
      if r.generation == generation {
        var i :| 0 <= i < |items| && items[i].key == r.key;
        assert ItemFits(items[i], c, w, productId, ready);
      } else {
        assert ReqOk(r, w, productId, generation);
      }
    }
    forall r, q | r in c'.reqs && q in c'.reqs && r.key == q.key ensures r == q {
      if r.generation < generation { assert r.key in TakenKeys(c, w); }
      if q.generation < generation { assert q.key in TakenKeys(c, w); }
    }
  }

  lemma NoFreshIdIsProtected(c: Closure, w: World, productId: nat, generation: nat, r: ReqId)
    requires WorldOk(w) && Skeleton(c, w, productId, generation)
    requires r.key.productId == productId && r.generation >= generation
    ensures r !in Protected(w)
  {
    forall run | run in w.runs && w.runs[run].status == InProduction ensures w.runs[run].source != r {
      if w.runs[run].productId == productId {
        assert ActiveRun(w, run, productId) && RunOk(run, c, w, productId);
        assert ReqOk(w.runs[run].source, w, productId, generation);
      }
    }
  }

  lemma NewLinkIsProper(
      items: seq<Item>, c: Closure, w: World, productId: nat, generation: nat, ready: seq<SurplusRow>, k: Link)
    requires ItemsFit(c, w, productId, generation, items, ready) && k in Links(items, generation)
    ensures ProperLink(k, w, productId) && k.lineId !in LockedLines(c, w)
    ensures k.req.key.productId == productId && k.req.generation == generation
  {
    var i :| 0 <= i < |items| && k == Link(ReqId(items[i].key, generation), items[i].lineId, items[i].quantity);
    assert ItemFits(items[i], c, w, productId, ready);
  }

  lemma RebuiltLinks(
      c: Closure, w: World, productId: nat, generation: nat, impaired: set<nat>, items: seq<Item>,
      shares: seq<Allocator.Allocation>,
      ready: seq<SurplusRow>, c': Closure)
    requires WorldOk(w) && Base(c, w, productId, generation, impaired)
      && ItemsFit(c, w, productId, generation, items, ready)
    requires RebuiltFrom(c, w, productId, generation, items, shares, ready, c')
    ensures forall k :: k in c'.links ==> k.req in c'.reqs && ProperLink(k, w, productId)
    ensures forall k, m :: k in c'.links && m in c'.links && k.lineId == m.lineId ==> k == m
    ensures forall l :: LiveLine(w, l, productId) ==> HasLink(c', l)
    ensures forall l :: l in KeyMap(items) ==> Linked(c', ReqId(KeyMap(items)[l], generation), l)
    ensures forall k :: k in c'.links && k.req in Protected(w) <==> k in c.links && k.req in Protected(w)
  {
    hide Groups, Kept, KeyMap, Links;
    NewLinksAre(items, generation);
    KeptIsProtected(c, w, productId, generation);
    RebuiltReqs(c, w, productId, generation, items, shares, ready, c');
    NewIdsAreNew(c, w, productId, generation, items, shares);
    forall k | k in c'.links ensures k.req in c'.reqs && ProperLink(k, w, productId) {
      if k in Links(items, generation) { NewLinkIsProper(items, c, w, productId, generation, ready, k); }
    }
    forall k, m | k in c'.links && m in c'.links && k.lineId == m.lineId ensures k == m {
      if k in Links(items, generation) { NewLinkIsProper(items, c, w, productId, generation, ready, k); }
      if m in Links(items, generation) { NewLinkIsProper(items, c, w, productId, generation, ready, m); }
      assert k !in Links(items, generation) ==> k.lineId in LockedLines(c, w);
      assert m !in Links(items, generation) ==> m.lineId in LockedLines(c, w);
    }
    forall l | LiveLine(w, l, productId) ensures HasLink(c', l) {
      if l in LockedLines(c, w) {
        var k :| k in c.links && k.req in Protected(w) && k.lineId == l;
        assert k in c'.links;
      } else {
        var k :| k in Links(items, generation) && k.lineId == l;
        assert k in c'.links;
      }
    }
    forall k | k in c'.links && k.req in Protected(w) ensures k in c.links {
      if k in Links(items, generation) {
        NewLinkIsProper(items, c, w, productId, generation, ready, k);
        NoFreshIdIsProtected(c, w, productId, generation, k.req);
      }
    }
  }

  ghost predicate NewRowsFit(rows: seq<SurplusRow>, items: seq<Item>, w: World, productId: nat, generation: nat) {
    forall x :: x in rows ==> NewRowOk(x, items, w, productId, generation)
  }

  lemma RebuiltRowsAreOk(
      c: Closure, w: World, productId: nat, generation: nat, impaired: set<nat>, items: seq<Item>,
      shares: seq<Allocator.Allocation>,
      ready: seq<SurplusRow>, c': Closure)
    requires WorldOk(w) && Base(c, w, productId, generation, impaired)
      && ItemsFit(c, w, productId, generation, items, ready)
    requires RebuiltFrom(c, w, productId, generation, items, shares, ready, c')
    requires NewRowsFit(NewRows(shares, ready, KeyMap(items), generation), items, w, productId, generation)
    ensures forall x :: x in c'.rows ==> RowOk(x, c', w, productId)
  {
    hide Groups, Kept, KeyMap, Links, NewRows, RunRows;
    KeptIsProtected(c, w, productId, generation);
    RebuiltReqs(c, w, productId, generation, items, shares, ready, c');
    RebuiltLinks(c, w, productId, generation, impaired, items, shares, ready, c');
    forall x | x in c'.rows ensures RowOk(x, c', w, productId) {
      if x in Kept(c, w).rows {
        RunRowsAre(c, w, x);
        assert RowOk(x, c, w, productId);
        var k :| k in c.links && k.req == x.req && k.lineId == x.lineId;
        assert k in c'.links;
      } else {
        assert NewRowOk(x, items, w, productId, generation);
      }
    }
  }

  /** No rebuilt requirement is without a line. */
  lemma RebuiltLines(
      c: Closure, w: World, productId: nat, generation: nat, impaired: set<nat>, items: seq<Item>,
      shares: seq<Allocator.Allocation>,
      ready: seq<SurplusRow>, c': Closure)
    requires WorldOk(w) && Base(c, w, productId, generation, impaired)
      && ItemsFit(c, w, productId, generation, items, ready)
    requires RebuiltFrom(c, w, productId, generation, items, shares, ready, c')
    ensures forall r :: r in c'.reqs ==> HasLine(c', r)
  {
    hide Kept, KeyMap, Links, ItemsFit, FixedLineCaps, FixedLotCaps, RowOk, RunOk, Keys, Groups;
    KeptIsProtected(c, w, productId, generation);
    NewIdsAreNew(c, w, productId, generation, items, shares);
    KeysAre(items);
    RebuiltLinks(c, w, productId, generation, impaired, items, shares, ready, c');
    forall r | r in c'.reqs ensures HasLine(c', r) {
      if r in Kept(c, w).reqs {
        assert HasLine(c, r);
        var k :| k in c.links && k.req == r;
        assert k in c'.links;
      } else {
        var l :| l in KeyMap(items) && KeyMap(items)[l] == r.key;
        assert Linked(c', ReqId(KeyMap(items)[l], generation), l);
      }
    }
  }

  lemma RebuiltRuns(
      c: Closure, w: World, productId: nat, generation: nat, items: seq<Item>, shares: seq<Allocator.Allocation>,
      ready: seq<SurplusRow>, c': Closure)
    requires Skeleton(c, w, productId, generation)
    requires RebuiltFrom(c, w, productId, generation, items, shares, ready, c')
    ensures forall run :: ActiveRun(w, run, productId) ==> RunOk(run, c', w, productId)
  {
    hide Groups, StorableRequirement, Storable, Claims, Links, KeyMap, HasLine, RowOk, ReqOk, NewRows;
    forall run | ActiveRun(w, run, productId) ensures RunOk(run, c', w, productId) {
      assert RunOk(run, c, w, productId);
      assert w.runs[run].source in Protected(w);
    }
  }

  lemma RebuiltStorable(
      c: Closure, w: World, productId: nat, generation: nat, items: seq<Item>, shares: seq<Allocator.Allocation>,
      ready: seq<SurplusRow>, c': Closure)
    requires Skeleton(c, w, productId, generation)
    requires RebuiltFrom(c, w, productId, generation, items, shares, ready, c')
    ensures forall r :: r in c'.reqs ==> StorableRequirement(c'.reqs[r])
  {
    hide Groups, StorableRequirement, Claims, Links, KeyMap;
  }

  lemma RebuiltSkeleton(
      c: Closure, w: World, productId: nat, generation: nat, impaired: set<nat>, items: seq<Item>,
      shares: seq<Allocator.Allocation>,
      ready: seq<SurplusRow>, c': Closure)
    requires WorldOk(w) && Base(c, w, productId, generation, impaired)
      && ItemsFit(c, w, productId, generation, items, ready)
    requires RebuiltFrom(c, w, productId, generation, items, shares, ready, c')
    requires NewRowsFit(NewRows(shares, ready, KeyMap(items), generation), items, w, productId, generation)
    ensures Skeleton(c', w, productId, generation + 1)
  {
    RebuiltStorable(c, w, productId, generation, items, shares, ready, c');
    RebuiltRuns(c, w, productId, generation, items, shares, ready, c');
    hide Groups, Kept, KeyMap, Links, NewRows, ItemsFit, NewRowsFit, FixedLineCaps, LotCaps, StorableRequirement,
      Storable, RunOk;
    KeptIsProtected(c, w, productId, generation);
    RebuiltReqs(c, w, productId, generation, items, shares, ready, c');
    RebuiltLinks(c, w, productId, generation, impaired, items, shares, ready, c');
    RebuiltRowsAreOk(c, w, productId, generation, impaired, items, shares, ready, c');
    RebuiltLines(c, w, productId, generation, impaired, items, shares, ready, c');
  }

  // ---- capacity ----

  /** What is fixed on a lot before the allocator runs is part of what was on it. */
  lemma FixedFits(c: Closure, w: World, productId: nat, impaired: set<nat>, lotId: nat)
    ensures OnLot(RunRows(c, w), lotId) + OnLot(ReadyRows(c, w, productId, impaired), lotId) <= OnLot(c.rows, lotId)
  {
    hide OnLot, OnLine, OnReq, KeptForReady;
    var all := set x | x in c.rows;
    var a, b := RunRowSet(c, w), ReadyRowSet(c, w, productId, impaired);
    assert a !! b by { Disjoint(c, w, productId, impaired); }
    var none := ReqId(DemandKey(0, None, 0), 0);
    PickSplits(c.rows, a + b, all - a - b, lotId, none);
    PickSplits(Pick(c.rows, a + b), a, b, lotId, none) by {
      forall x | x in Pick(c.rows, a + b) ensures x in a + b { PickMembers(c.rows, a + b, x); }
    }
    PickPick(c.rows, a + b, a);
    PickPick(c.rows, a + b, b);
  }

  lemma Disjoint(c: Closure, w: World, productId: nat, impaired: set<nat>)
    ensures RunRowSet(c, w) !! ReadyRowSet(c, w, productId, impaired)
  {
  }

  lemma {:induction false} PickConcat(rows: seq<SurplusRow>, more: seq<SurplusRow>, which: set<SurplusRow>)
    ensures Pick(rows + more, which) == Pick(rows, which) + Pick(more, which)
  {
    if more == [] {
      assert rows + more == rows;
    } else {
      PickConcat(rows, more[..|more| - 1], which);
      assert (rows + more)[..|rows + more| - 1] == rows + more[..|more| - 1];
    }
  }

  lemma {:induction false} PickPick(rows: seq<SurplusRow>, big: set<SurplusRow>, small: set<SurplusRow>)
    requires small <= big
    ensures Pick(Pick(rows, big), small) == Pick(rows, small)
  {
    if rows != [] {
      var n := |rows| - 1;
      PickPick(rows[..n], big, small);
      PickConcat(Pick(rows[..n], big), if rows[n] in big then [rows[n]] else [], small);
      assert [rows[n]][..0] == [];
    }
  }

  /** What a rebuild puts on a lot: what is fixed there and what the allocator takes of it. */
  lemma RebuiltOnLot(
      c: Closure, w: World, productId: nat, generation: nat, items: seq<Item>, shares: seq<Allocator.Allocation>,
      ready: seq<SurplusRow>, c': Closure, lotId: nat)
    requires Skeleton(c, w, productId, generation)
    requires RebuiltFrom(c, w, productId, generation, items, shares, ready, c')
    requires AllKeyed(shares, KeyMap(items)) && RowsKeyed(ready, KeyMap(items))
    ensures OnLot(c'.rows, lotId) == OnLot(RunRows(c, w) + ready, lotId) + Surplus.OnLot(shares, lotId)
    ensures OnLot(RunRows(c, w) + ready, lotId) == OnLot(RunRows(c, w), lotId) + OnLot(ready, lotId)
  {
    hide OnLot, KeyMap, Kept, Groups, RunRows, Skeleton;
    KeptIsProtected(c, w, productId, generation);
    var freshRows, clones := FreshRows(shares, KeyMap(items), generation), Clones(ready, KeyMap(items), generation);
    var none := ReqId(DemandKey(0, None, 0), 0);
    SumsConcat(RunRows(c, w), freshRows + clones, lotId, none);
    SumsConcat(freshRows, clones, lotId, none);
    SumsConcat(RunRows(c, w), ready, lotId, none);
    FreshRowSums(shares, KeyMap(items), generation, lotId, DemandKey(0, None, 0));
    CloneSums(ready, KeyMap(items), generation, lotId);
  }

  /** After a rebuild every lot holds: what is fixed, plus at most what was free. */
  lemma RebuiltLotCaps(
      c: Closure, w: World, productId: nat, generation: nat, items: seq<Item>, today: int,
      impaired: set<nat>, c': Closure, lotId: nat)
    requires WorldOk(w) && Skeleton(c, w, productId, generation)
    requires lotId in w.lots && w.lots[lotId].productId == productId
    requires OnLot(RunRows(c, w), lotId) + OnLot(ReadyRows(c, w, productId, impaired), lotId) <= w.lots[lotId].physical
    requires
      var ready := ReadyRows(c, w, productId, impaired);
      var shares := Allocated(items, Lots(w, productId, RunRows(c, w) + ready), today);
      RebuiltFrom(c, w, productId, generation, items, shares, ready, c')
      && AllKeyed(shares, KeyMap(items)) && RowsKeyed(ready, KeyMap(items))
    ensures OnLot(c'.rows, lotId) <= w.lots[lotId].physical
  {
    hide OnLot, Items, KeyMap, Kept, Allocated, Groups, Lots, ReadyRows, RunRows;
    var ready := ReadyRows(c, w, productId, impaired);
    var fixed := RunRows(c, w) + ready;
    var lots := Lots(w, productId, fixed);
    var shares := Allocated(items, lots, today);
    LotsAre(w, productId, fixed);
    SharesFit(items, lots, today);
    RebuiltOnLot(c, w, productId, generation, items, shares, ready, c', lotId);
    if lotId in LotsOf(w, productId) {
      var j :| 0 <= j < |lots| && lots[j].lotId == lotId;
      assert Surplus.OnLot(shares, lots[j].lotId) <= Allocator.FreeIn(lots[j]);
    } else {
      forall a | a in shares ensures a.lotId != lotId { SharesAreListed(items, lots, today, a); }
      NoShareOnLot(shares, lotId);
    }
  }

  lemma RunRowsAreLocked(c: Closure, w: World, productId: nat, generation: nat, l: nat)
    requires Skeleton(c, w, productId, generation)
    ensures l !in LockedLines(c, w) ==> OnLine(RunRows(c, w), l) == 0
    ensures l in LockedLines(c, w) ==> OnLine(RunRows(c, w), l) == OnLine(c.rows, l)
  {
    hide OnLine, Pick;
    if l !in LockedLines(c, w) {
      forall x | x in RunRows(c, w) ensures x.lineId != l {
        RunRowsAre(c, w, x);
        assert RowOk(x, c, w, productId);
      }
      NoneOnLine(RunRows(c, w), l);
    } else {
      forall x | x in c.rows && x.lineId == l ensures x in RunRowSet(c, w) {
        if x.req !in Protected(w) { RowLineIsFree(c, w, productId, generation, x); }
      }
      PickKeepsLine(c.rows, RunRowSet(c, w), l);
    }
  }

  /** What a line gets from a rebuild: its kept rows and its share, or, under a run, what it had. */
  lemma RebuiltOnLine(
      c: Closure, w: World, productId: nat, generation: nat, items: seq<Item>, shares: seq<Allocator.Allocation>,
      ready: seq<SurplusRow>, c': Closure, l: nat)
    requires WorldOk(w) && Skeleton(c, w, productId, generation) && ItemsFit(c, w, productId, generation, items, ready)
    requires RebuiltFrom(c, w, productId, generation, items, shares, ready, c')
    requires AllKeyed(shares, KeyMap(items)) && RowsKeyed(ready, KeyMap(items))
    ensures l !in LockedLines(c, w) ==> OnLine(c'.rows, l) == OnLine(ready, l) + Surplus.OnLine(shares, l)
    ensures l in LockedLines(c, w) ==> OnLine(c'.rows, l) == OnLine(c.rows, l)
  {
    hide OnLine, KeyMap, Kept, Groups, RunRows, Pick;
    KeptIsProtected(c, w, productId, generation);
    RunRowsAreLocked(c, w, productId, generation, l);
    var freshRows, clones := FreshRows(shares, KeyMap(items), generation), Clones(ready, KeyMap(items), generation);
    var none := ReqId(DemandKey(0, None, 0), 0);
    SumsConcat(RunRows(c, w), freshRows + clones, l, none);
    SumsConcat(freshRows, clones, l, none);
    FreshRowSums(shares, KeyMap(items), generation, l, DemandKey(0, None, 0));
    CloneSums(ready, KeyMap(items), generation, l);
    if l in LockedLines(c, w) {
      assert forall x :: x in ready ==> x.lineId != l;
      assert forall a :: a in shares ==> a.lineId != l;
      NoneOnLine(ready, l);
      NoShareOnLine(shares, l);
    }
  }

  lemma ReadyRowsOnLine(c: Closure, w: World, productId: nat, generation: nat, impaired: set<nat>, l: nat)
    requires Skeleton(c, w, productId, generation)
    ensures OnLine(ReadyRows(c, w, productId, impaired), l) <= OnLine(c.rows, l)
    ensures !ReadyLine(w, l, productId) ==> OnLine(ReadyRows(c, w, productId, impaired), l) == 0
    ensures ReadyLine(w, l, productId) && l !in LockedLines(c, w) && impaired == {} ==>
      OnLine(ReadyRows(c, w, productId, impaired), l) == OnLine(c.rows, l)
  {
    hide OnLine, OnLot, Pick, KeptForReady, Skeleton;
    var which := ReadyRowSet(c, w, productId, impaired);
    PartHoldsLess(c.rows, which, l);
    if !ReadyLine(w, l, productId) {
      forall x | x in ReadyRows(c, w, productId, impaired) ensures x.lineId != l {
        ReadyRowsAre(c, w, productId, impaired, x);
        KeptRowIsReady(x, w, productId, impaired);
      }
      NoneOnLine(ReadyRows(c, w, productId, impaired), l);
    } else if l !in LockedLines(c, w) && impaired == {} {
      forall x | x in c.rows && x.lineId == l ensures x in which {
        LockedRow(c, w, productId, generation, x);
        KeptRowIsReady(x, w, productId, impaired);
      }
      PickKeepsLine(c.rows, which, l);
    }
  }

  lemma KeptRowIsReady(x: SurplusRow, w: World, productId: nat, impaired: set<nat>)
    ensures KeptForReady(x, w, productId, impaired) ==> ReadyLine(w, x.lineId, productId)
    ensures ReadyLine(w, x.lineId, productId) && x.req !in Protected(w) && impaired == {} ==>
      KeptForReady(x, w, productId, impaired)
  {
  }

  lemma LockedRow(c: Closure, w: World, productId: nat, generation: nat, x: SurplusRow)
    requires Skeleton(c, w, productId, generation) && x in c.rows && x.lineId !in LockedLines(c, w)
    ensures x.req !in Protected(w)
  {
    assert RowOk(x, c, w, productId);
  }

  lemma RebuiltLineCaps(
      c: Closure, w: World, productId: nat, generation: nat, items: seq<Item>, today: int,
      impaired: set<nat>, c': Closure, l: nat)
    requires WorldOk(w) && Base(c, w, productId, generation, impaired)
    requires
      var ready := ReadyRows(c, w, productId, impaired);
      var shares := Allocated(items, Lots(w, productId, RunRows(c, w) + ready), today);
      && RebuiltFrom(c, w, productId, generation, items, shares, ready, c')
      && ItemsFit(c, w, productId, generation, items, ready)
      && AllKeyed(shares, KeyMap(items)) && RowsKeyed(ready, KeyMap(items))
    requires LiveLine(w, l, productId)
    ensures OnLine(c'.rows, l) <= StillOpen(w, l)
  {
    hide OnLine, Items, KeyMap, Kept, Allocated, Groups, Lots, ReadyRows, RunRows, ProducedFor, Skeleton, LotCaps;
    var ready := ReadyRows(c, w, productId, impaired);
    var lots := Lots(w, productId, RunRows(c, w) + ready);
    var shares := Allocated(items, lots, today);
    RebuiltOnLine(c, w, productId, generation, items, shares, ready, c', l);
    ReadyRowsOnLine(c, w, productId, generation, impaired, l);
    if l in LockedLines(c, w) {
      assert FixedLine(c, w, l, productId);
    } else {
      assert ReadyLine(w, l, productId) ==> FixedLine(c, w, l, productId);
      LotsAre(w, productId, RunRows(c, w) + ready);
      SharesFit(items, lots, today);
      KeyMapIs(items);
      var i :| 0 <= i < |items| && items[i].lineId == l;
      assert ItemFits(items[i], c, w, productId, ready);
    }
  }

  // ---- the rebuilt requirements ----

  function GroupLinks(items: seq<Item>, generation: nat, key: DemandKey): set<Link> {
    set k | k in Links(items, generation) && k.req == ReqId(key, generation)
  }

  function GroupLines(items: seq<Item>, key: DemandKey): set<nat> {
    set i | 0 <= i < |items| && items[i].key == key :: items[i].lineId
  }

  lemma {:induction false} DemandIsLinked(items: seq<Item>, generation: nat, key: DemandKey)
    requires DistinctLines(items)
    ensures SumBy(GroupLinks(items, generation, key), LinkQuantity) == GroupDemand(items, key)
  {
    hide SumBy;
    if items == [] {
      assert GroupLinks(items, generation, key) == {};
      NoSum();
    } else {
      var n := |items| - 1;
      var before := GroupLinks(items[..n], generation, key);
      DemandIsLinked(items[..n], generation, key);
      var last := Link(ReqId(items[n].key, generation), items[n].lineId, items[n].quantity);
      LinksSnoc(items, generation, n);
      if items[n].key == key {
        assert GroupLinks(items, generation, key) == before + {last};
        SumAdd(before, LinkQuantity, last);
      } else {
        assert GroupLinks(items, generation, key) == before;
      }
    }
  }

  lemma NoSum()
    ensures SumBy({}, LinkQuantity) == 0
  {
  }

  lemma LinksSnoc(items: seq<Item>, generation: nat, n: nat)
    requires DistinctLines(items) && n + 1 == |items|
    ensures
      var last := Link(ReqId(items[n].key, generation), items[n].lineId, items[n].quantity);
      && Links(items, generation) == Links(items[..n], generation) + {last}
      && last !in Links(items[..n], generation)
  {
    var last := Link(ReqId(items[n].key, generation), items[n].lineId, items[n].quantity);
    forall k | k in Links(items, generation) ensures k in Links(items[..n], generation) + {last} {
      var i :| 0 <= i < |items| && k == Link(ReqId(items[i].key, generation), items[i].lineId, items[i].quantity);
      if i < n { assert items[..n][i] == items[i]; }
    }
    forall k | k in Links(items[..n], generation) ensures k in Links(items, generation) && k.lineId != last.lineId {
      var i :| 0 <= i < n
        && k == Link(ReqId(items[..n][i].key, generation), items[..n][i].lineId, items[..n][i].quantity);
      assert k == Link(ReqId(items[i].key, generation), items[i].lineId, items[i].quantity);
    }
  }

  lemma {:induction false} OneMoreLine(outputs: seq<Output>, lines: set<nat>, l: nat)
    requires l !in lines
    ensures ProducedAmong(outputs, lines + {l}) == ProducedAmong(outputs, lines) + ProducedFor(outputs, l)
  {
    if outputs != [] { OneMoreLine(outputs[..|outputs| - 1], lines, l); }
  }

  lemma {:induction false} NoLines(outputs: seq<Output>)
    ensures ProducedAmong(outputs, {}) == 0
  {
    if outputs != [] { NoLines(outputs[..|outputs| - 1]); }
  }

  lemma {:induction false} ProducedIsLinked(items: seq<Item>, outputs: seq<Output>, key: DemandKey)
    requires DistinctLines(items)
    requires forall i :: 0 <= i < |items| ==> items[i].produced == ProducedFor(outputs, items[i].lineId)
    ensures ProducedAmong(outputs, GroupLines(items, key)) == GroupProduced(items, key)
  {
    hide ProducedAmong, ProducedFor;
    if items == [] {
      assert GroupLines(items, key) == {};
      NoLines(outputs);
    } else {
      var n := |items| - 1;
      var before := GroupLines(items[..n], key);
      ProducedIsLinked(items[..n], outputs, key);
      forall i | 0 <= i < n ensures items[..n][i] == items[i] {}
      if items[n].key == key {
        assert GroupLines(items, key) == before + {items[n].lineId};
        OneMoreLine(outputs, before, items[n].lineId);
      } else {
        assert GroupLines(items, key) == before;
      }
    }
  }

  lemma SurplusIsUnderIt(
      c: Closure, w: World, productId: nat, generation: nat, items: seq<Item>, shares: seq<Allocator.Allocation>,
      ready: seq<SurplusRow>, c': Closure, key: DemandKey)
    requires WorldOk(w) && Skeleton(c, w, productId, generation) && ItemsFit(c, w, productId, generation, items, ready)
    requires RebuiltFrom(c, w, productId, generation, items, shares, ready, c')
    requires AllKeyed(shares, KeyMap(items)) && RowsKeyed(ready, KeyMap(items)) && key.productId == productId
    ensures OnReq(c'.rows, ReqId(key, generation)) == GroupFresh(shares, KeyMap(items), key) + GroupFixed(items, key)
  {
    hide OnReq, KeyMap, Kept, Groups, RunRows, GroupFresh, GroupFixed, Skeleton;
    var r := ReqId(key, generation);
    KeptIsProtected(c, w, productId, generation);
    NoFreshIdIsProtected(c, w, productId, generation, r);
    forall x | x in RunRows(c, w) ensures x.req != r { RunRowsAre(c, w, x); }
    NoneOnReq(RunRows(c, w), r);
    var freshRows, clones := FreshRows(shares, KeyMap(items), generation), Clones(ready, KeyMap(items), generation);
    SumsConcat(RunRows(c, w), freshRows + clones, 0, r);
    SumsConcat(freshRows, clones, 0, r);
    FreshRowSums(shares, KeyMap(items), generation, 0, key);
    CloneGroup(ready, KeyMap(items), generation, key);
    KeptByLineIsByGroup(items, ready, key);
    forall i | 0 <= i < |items| ensures items[i].fixed == OnLine(ready, items[i].lineId) {
      assert ItemFits(items[i], c, w, productId, ready);
    }
    FixedIsKept(items, ready, key);
  }

  lemma LinksUnderIt(
      c: Closure, w: World, productId: nat, generation: nat, items: seq<Item>, shares: seq<Allocator.Allocation>,
      ready: seq<SurplusRow>, c': Closure, key: DemandKey)
    requires WorldOk(w) && Skeleton(c, w, productId, generation) && key.productId == productId
    requires RebuiltFrom(c, w, productId, generation, items, shares, ready, c')
    ensures LinksOf(c', ReqId(key, generation)) == GroupLinks(items, generation, key)
    ensures LinesOf(c', ReqId(key, generation)) == GroupLines(items, key)
  {
    hide Kept, Groups, KeyMap;
    var r := ReqId(key, generation);
    KeptIsProtected(c, w, productId, generation);
    NoFreshIdIsProtected(c, w, productId, generation, r);
    assert LinksOf(c', r) == GroupLinks(items, generation, key);
    forall l | l in GroupLines(items, key) ensures l in LinesOf(c', r) {
      var i :| 0 <= i < |items| && items[i].key == key && items[i].lineId == l;
      assert Link(r, items[i].lineId, items[i].quantity) in Links(items, generation);
      assert Link(r, items[i].lineId, items[i].quantity) in LinksOf(c', r);
    }
    forall l | l in LinesOf(c', r) ensures l in GroupLines(items, key) {
      var k :| k in LinksOf(c', r) && k.lineId == l;
    }
  }

  lemma RebuiltMeets(
      c: Closure, w: World, productId: nat, generation: nat, impaired: set<nat>, items: seq<Item>,
      shares: seq<Allocator.Allocation>,
      ready: seq<SurplusRow>, c': Closure, key: DemandKey)
    requires WorldOk(w) && Base(c, w, productId, generation, impaired)
      && ItemsFit(c, w, productId, generation, items, ready)
    requires RebuiltFrom(c, w, productId, generation, items, shares, ready, c') && key in Keys(items)
    requires AllKeyed(shares, KeyMap(items)) && RowsKeyed(ready, KeyMap(items))
    ensures ReqId(key, generation) in c'.reqs
    ensures Meets(c', w, ReqId(key, generation))
  {
    hide OnReq, KeyMap, Kept, GroupFresh, GroupFixed, GroupDemand, GroupProduced, SumBy, ProducedAmong, Links, Skeleton,
      PlanFor;
    var i :| 0 <= i < |items| && items[i].key == key;
    assert ItemFits(items[i], c, w, productId, ready);
    var r := ReqId(key, generation);
    assert r in Groups(items, shares, w.revisions, generation);
    assert c'.reqs[r] == Group(items, shares, w.revisions, key);
    SurplusIsUnderIt(c, w, productId, generation, items, shares, ready, c', key);
    LinksUnderIt(c, w, productId, generation, items, shares, ready, c', key);
    DemandIsLinked(items, generation, key);
    forall j | 0 <= j < |items| ensures items[j].produced == ProducedFor(w.outputs, items[j].lineId) {
      assert ItemFits(items[j], c, w, productId, ready);
    }
    ProducedIsLinked(items, w.outputs, key);
  }

  lemma RebuiltClaims(
      c: Closure, w: World, productId: nat, generation: nat, items: seq<Item>, shares: seq<Allocator.Allocation>,
      ready: seq<SurplusRow>, c': Closure, key: DemandKey)
    requires WorldOk(w) && Skeleton(c, w, productId, generation) && key.productId == productId
    requires RebuiltFrom(c, w, productId, generation, items, shares, ready, c') && key in Keys(items)
    ensures ClaimsMeet(c', w, ReqId(key, generation))
  {
    hide Kept, KeyMap, Group, Links, Skeleton;
    var r := ReqId(key, generation);
    var reqs := Groups(items, shares, w.revisions, generation);
    KeptIsProtected(c, w, productId, generation);
    NoFreshIdIsProtected(c, w, productId, generation, r);
    assert r in reqs && c'.reqs[r] == reqs[r];
    forall g, q: nat
      ensures Claim(r, g, q) in c'.claims <==>
        g in IngredientsOf(w.revisions, r) && q == Needed(c'.reqs, w.revisions, r, g) && q > 0
    {
      assert Needed(c'.reqs, w.revisions, r, g) == Needed(reqs, w.revisions, r, g);
      assert Claim(r, g, q) !in Kept(c, w).claims;
    }
  }

  // ---- the main results ----

  lemma ProjectionParts(
      items: seq<Item>, taken: set<DemandKey>, lots: seq<Allocator.SurplusLot>, ready: seq<SurplusRow>,
      revisions: map<nat, Revision>, today: int, generation: nat)
    requires Compute(items, taken, lots, ready, revisions, today, generation).Projection?
    ensures
      var shares := Allocated(items, lots, today);
      var reqs := Groups(items, shares, revisions, generation);
      && Keys(items) !! taken && Storable(reqs, Claims(reqs, revisions))
      && Compute(items, taken, lots, ready, revisions, today, generation)
         == Projection(reqs, Links(items, generation), NewRows(shares, ready, KeyMap(items), generation),
           Claims(reqs, revisions))
  {
    hide KeyMap, Allocated, Groups, Storable, Claims, Links, FreshRows, Clones;
    var shares := Allocated(items, lots, today);
    var reqs := Groups(items, shares, revisions, generation);
    forall k | k in Keys(items) ensures k !in taken { assert k !in Keys(items) * taken; }
    assert NewRows(shares, ready, KeyMap(items), generation)
        == FreshRows(shares, KeyMap(items), generation) + Clones(ready, KeyMap(items), generation);
    assert Compute(items, taken, lots, ready, revisions, today, generation)
        == Projection(reqs, Links(items, generation), NewRows(shares, ready, KeyMap(items), generation),
          Claims(reqs, revisions));
  }

  /** Instantiates the pieces for one successful rebuild. */
  lemma Pieces(c: Closure, w: World, productId: nat, today: int, generation: nat, impaired: set<nat>)
      returns (items: seq<Item>, shares: seq<Allocator.Allocation>, ready: seq<SurplusRow>)
    requires WorldOk(w) && Base(c, w, productId, generation, impaired)
    requires ComputeFor(c, w, productId, today, generation, impaired).Projection?
    ensures ready == ReadyRows(c, w, productId, impaired) && items == Items(c, w, productId, ready)
    ensures shares == Allocated(items, Lots(w, productId, RunRows(c, w) + ready), today)
    ensures ItemsFit(c, w, productId, generation, items, ready)
    ensures AllKeyed(shares, KeyMap(items)) && RowsKeyed(ready, KeyMap(items))
    ensures NewRowsFit(NewRows(shares, ready, KeyMap(items), generation), items, w, productId, generation)
    ensures
      var c' := Replace(c, w, ComputeFor(c, w, productId, today, generation, impaired));
      RebuiltFrom(c, w, productId, generation, items, shares, ready, c')
  {
    hide Items, KeyMap, Kept, Allocated, Groups, Lots, ReadyRows, RunRows, Skeleton, Claims, Links, NewRowOk, ItemsFit,
      NewRows, Compute, Keys, TakenKeys;
    ready := ReadyRows(c, w, productId, impaired);
    items := Items(c, w, productId, ready);
    var lots := Lots(w, productId, RunRows(c, w) + ready);
    shares := Allocated(items, lots, today);
    ItemsDoFit(c, w, productId, generation, ready);
    ProjectionParts(items, TakenKeys(c, w), lots, ready, w.revisions, today, generation);
    KeptRowsHaveKeys(c, w, productId, generation, impaired);
    LotsAre(w, productId, RunRows(c, w) + ready);
    KeyMapIs(items);
    forall a | a in shares ensures a.lineId in KeyMap(items) { SharesAreListed(items, lots, today, a); }
    forall x | x in NewRows(shares, ready, KeyMap(items), generation)
      ensures NewRowOk(x, items, w, productId, generation)
    {
      NewRowsAreOk(c, w, productId, generation, today, impaired, x);
    }
  }

  /** The rebuild is sound: from any state it may start in, a successful rebuild leaves a clean
      closure. Every live line is linked to exactly one requirement that says what the line says;
      keys are unique, also against protected ones; each requirement is the function of its lines
      that `Meets` and `ClaimsMeet` spell out; no lot and no line is promised more than it has. */
  lemma RebuildIsClean(c: Closure, w: World, productId: nat, today: int, generation: nat, impaired: set<nat>)
    requires WorldOk(w) && Base(c, w, productId, generation, impaired)
    requires ComputeFor(c, w, productId, today, generation, impaired).Projection?
    ensures Clean(Replace(c, w, ComputeFor(c, w, productId, today, generation, impaired)), w, productId, generation + 1)
  {
    hide WorldOk, Base, ComputeFor, Replace, Skeleton, Meets, ClaimsMeet, ProperLink, LiveLine, HasLink, LotCaps,
      LineCaps;
    CleanLinks(c, w, productId, today, generation, impaired);
    CleanCaps(c, w, productId, today, generation, impaired);
    CleanSpec(c, w, productId, today, generation, impaired);
  }

  lemma CleanLinks(c: Closure, w: World, productId: nat, today: int, generation: nat, impaired: set<nat>)
    requires WorldOk(w) && Base(c, w, productId, generation, impaired)
    requires ComputeFor(c, w, productId, today, generation, impaired).Projection?
    ensures
      var c' := Replace(c, w, ComputeFor(c, w, productId, today, generation, impaired));
      && Skeleton(c', w, productId, generation + 1)
      && (forall k :: k in c'.links ==> ProperLink(k, w, productId))
      && (forall l :: LiveLine(w, l, productId) ==> HasLink(c', l))
  {
    var c' := Replace(c, w, ComputeFor(c, w, productId, today, generation, impaired));
    hide WorldOk, Base, ComputeFor, Replace, Skeleton, ItemsFit, AllKeyed, RowsKeyed, NewRowsFit, RebuiltFrom,
      ReadyRows, RunRows, Items, Allocated, Lots, NewRows, KeyMap, ProperLink, LiveLine, HasLink;
    var items, shares, ready := Pieces(c, w, productId, today, generation, impaired);
    RebuiltSkeleton(c, w, productId, generation, impaired, items, shares, ready, c');
    RebuiltLinks(c, w, productId, generation, impaired, items, shares, ready, c');
  }

  lemma CleanCaps(c: Closure, w: World, productId: nat, today: int, generation: nat, impaired: set<nat>)
    requires WorldOk(w) && Base(c, w, productId, generation, impaired)
    requires ComputeFor(c, w, productId, today, generation, impaired).Projection?
    ensures
      var c' := Replace(c, w, ComputeFor(c, w, productId, today, generation, impaired));
      LotCaps(c', w, productId) && LineCaps(c', w, productId)
  {
    var c' := Replace(c, w, ComputeFor(c, w, productId, today, generation, impaired));
    hide WorldOk, Base, ComputeFor, Replace, ItemsFit, AllKeyed, RowsKeyed, NewRowsFit, RebuiltFrom, ReadyRows, RunRows,
      Items, Allocated, Lots, NewRows, KeyMap, LotCaps, LineCaps;
    var items, shares, ready := Pieces(c, w, productId, today, generation, impaired);
    RebuiltCaps(c, w, productId, today, generation, impaired, items, c');
  }

  lemma CleanSpec(c: Closure, w: World, productId: nat, today: int, generation: nat, impaired: set<nat>)
    requires WorldOk(w) && Base(c, w, productId, generation, impaired)
    requires ComputeFor(c, w, productId, today, generation, impaired).Projection?
    ensures
      var c' := Replace(c, w, ComputeFor(c, w, productId, today, generation, impaired));
      forall r :: r in c'.reqs && r !in Protected(w) ==> Meets(c', w, r) && ClaimsMeet(c', w, r)
  {
    var c' := Replace(c, w, ComputeFor(c, w, productId, today, generation, impaired));
    hide WorldOk, Base, ComputeFor, Replace, ItemsFit, AllKeyed, RowsKeyed, NewRowsFit, RebuiltFrom, ReadyRows, RunRows,
      Items, Allocated, Lots, NewRows, KeyMap, Meets, ClaimsMeet;
    var items, shares, ready := Pieces(c, w, productId, today, generation, impaired);
    RebuiltSpec(c, w, productId, generation, impaired, items, shares, ready, c');
  }

  lemma RebuiltCaps(
      c: Closure, w: World, productId: nat, today: int, generation: nat, impaired: set<nat>, items: seq<Item>,
      c': Closure)
    requires WorldOk(w) && Base(c, w, productId, generation, impaired)
    requires
      var ready := ReadyRows(c, w, productId, impaired);
      var shares := Allocated(items, Lots(w, productId, RunRows(c, w) + ready), today);
      && RebuiltFrom(c, w, productId, generation, items, shares, ready, c')
      && ItemsFit(c, w, productId, generation, items, ready)
      && AllKeyed(shares, KeyMap(items)) && RowsKeyed(ready, KeyMap(items))
    ensures LotCaps(c', w, productId) && LineCaps(c', w, productId)
  {
    hide Skeleton, ItemsFit, AllKeyed, RowsKeyed, RebuiltFrom, OnLot, OnLine, FixedLineCaps, ReadyRows, RunRows, Items,
      Allocated, Lots, KeyMap, ProperLink, StillOpen;
    forall l | l in w.lots && w.lots[l].productId == productId ensures OnLot(c'.rows, l) <= w.lots[l].physical {
      RebuiltLotCaps(c, w, productId, generation, items, today, impaired, c', l);
    }
    forall l | LiveLine(w, l, productId) ensures OnLine(c'.rows, l) <= StillOpen(w, l) {
      RebuiltLineCaps(c, w, productId, generation, items, today, impaired, c', l);
    }
  }

  lemma RebuiltSpec(
      c: Closure, w: World, productId: nat, generation: nat, impaired: set<nat>, items: seq<Item>,
      shares: seq<Allocator.Allocation>,
      ready: seq<SurplusRow>, c': Closure)
    requires WorldOk(w) && Base(c, w, productId, generation, impaired)
      && ItemsFit(c, w, productId, generation, items, ready)
    requires RebuiltFrom(c, w, productId, generation, items, shares, ready, c')
    requires AllKeyed(shares, KeyMap(items)) && RowsKeyed(ready, KeyMap(items))
    ensures forall r :: r in c'.reqs && r !in Protected(w) ==> Meets(c', w, r) && ClaimsMeet(c', w, r)
  {
    hide Skeleton, ItemsFit, AllKeyed, RowsKeyed, RebuiltFrom, Meets, ClaimsMeet, KeyMap, LotCaps, FixedLineCaps;
    forall r | r in c'.reqs && r !in Protected(w) ensures Meets(c', w, r) && ClaimsMeet(c', w, r) {
      NewReqKey(c, w, productId, generation, items, shares, ready, c', r);
      RebuiltMeets(c, w, productId, generation, impaired, items, shares, ready, c', r.key);
      RebuiltClaims(c, w, productId, generation, items, shares, ready, c', r.key);
    }
  }

  lemma NewReqKey(
      c: Closure, w: World, productId: nat, generation: nat, items: seq<Item>, shares: seq<Allocator.Allocation>,
      ready: seq<SurplusRow>, c': Closure, r: ReqId)
    requires WorldOk(w) && Skeleton(c, w, productId, generation) && ItemsFit(c, w, productId, generation, items, ready)
    requires RebuiltFrom(c, w, productId, generation, items, shares, ready, c') && r in c'.reqs && r !in Protected(w)
    ensures r == ReqId(r.key, generation) && r.key in Keys(items) && r.key.productId == productId
  {
    hide Kept, Groups, KeyMap, Links;
    KeptIsProtected(c, w, productId, generation);
    NewIdsAreNew(c, w, productId, generation, items, shares);
    var i :| 0 <= i < |items| && items[i].key == r.key;
    assert ItemFits(items[i], c, w, productId, ready);
  }

  /** The group lookup that would raise a key error never does. */
  lemma NoKeyIsMissing(c: Closure, w: World, productId: nat, today: int, generation: nat, impaired: set<nat>)
    requires Skeleton(c, w, productId, generation)
    ensures ComputeFor(c, w, productId, today, generation, impaired) != MissingKey
  {
    hide Items, KeyMap, Allocated, Groups, Lots, ReadyRows, RunRows, Skeleton, Storable, Claims, Links;
    KeptRowsHaveKeys(c, w, productId, generation, impaired);
  }

  /** When every line of the rebuild already has a proper link, as after releasing demand, no new
      group can land on a protected key. */
  lemma LinkedDemandNeverConflicts(
      c: Closure, w: World, productId: nat, today: int, generation: nat, impaired: set<nat>)
    requires WorldOk(w) && Skeleton(c, w, productId, generation)
    requires forall l :: l in DemandLines(c, w, productId) ==>
      exists k :: k in c.links && k.lineId == l && ProperLink(k, w, productId)
    ensures ComputeFor(c, w, productId, today, generation, impaired) != DemandConflict
  {
    var ready := ReadyRows(c, w, productId, impaired);
    var items := Items(c, w, productId, ready);
    ItemsAre(c, w, productId, ready);
    forall i | 0 <= i < |items| ensures items[i].key !in TakenKeys(c, w) {
      LinkedItemKey(c, w, productId, generation, ready, items[i].lineId);
    }
    hide Items, KeyMap, Allocated, Groups, Lots, ReadyRows, RunRows, Skeleton, Storable, Claims, Links, TakenKeys;
    assert Keys(items) * TakenKeys(c, w) == {};
  }

  /** A linked line keeps its key. */
  lemma LinkedItemKey(c: Closure, w: World, productId: nat, generation: nat, ready: seq<SurplusRow>, l: nat)
    requires Skeleton(c, w, productId, generation) && l in DemandLines(c, w, productId)
    requires exists k :: k in c.links && k.lineId == l && ProperLink(k, w, productId)
    ensures exists k :: k in c.links && k.lineId == l && ItemOf(c, w, productId, ready, l).key == k.req.key
    ensures ItemOf(c, w, productId, ready, l).key !in TakenKeys(c, w)
  {
    var k :| k in c.links && k.lineId == l && ProperLink(k, w, productId);
    assert ReqOk(k.req, w, productId, generation);
    assert Pin(c, w, productId, l) == k.req.key.revision;
    assert ItemOf(c, w, productId, ready, l).key == k.req.key;
    forall r | r in c.reqs && r in Protected(w) ensures r.key != k.req.key {}
  }

  /** Behind a run in production nothing changes: requirement, links and surplus rows are those
      there were. */
  lemma ProtectedPartStays(c: Closure, w: World, productId: nat, today: int, generation: nat, impaired: set<nat>)
    requires WorldOk(w) && Base(c, w, productId, generation, impaired)
    requires ComputeFor(c, w, productId, today, generation, impaired).Projection?
    ensures
      var c' := Replace(c, w, ComputeFor(c, w, productId, today, generation, impaired));
      && (forall r :: r in c.reqs && r in Protected(w) ==> r in c'.reqs && c'.reqs[r] == c.reqs[r])
      && (forall k :: k in c'.links && k.req in Protected(w) <==> k in c.links && k.req in Protected(w))
      && RunRows(c', w) == RunRows(c, w)
  {
    var c' := Replace(c, w, ComputeFor(c, w, productId, today, generation, impaired));
    hide ComputeFor, Replace, Skeleton, ItemsFit, AllKeyed, RowsKeyed, NewRowsFit, Meets, ClaimsMeet, OnLot, OnLine,
      ReadyRows, RunRows, Items, Allocated, Lots, NewRows, KeyMap, ProperLink, LiveLine, StillOpen, Kept, Links;
    var items, shares, ready := Pieces(c, w, productId, today, generation, impaired);
    RebuiltReqs(c, w, productId, generation, items, shares, ready, c');
    RebuiltLinks(c, w, productId, generation, impaired, items, shares, ready, c');
    KeptIsProtected(c, w, productId, generation);
    RunRowsOfRebuilt(c, w, productId, generation, items, NewRows(shares, ready, KeyMap(items), generation), ready, c');
  }

  lemma RunRowsOfRebuilt(
      c: Closure, w: World, productId: nat, generation: nat, items: seq<Item>, more: seq<SurplusRow>,
      ready: seq<SurplusRow>, c': Closure)
    requires WorldOk(w) && Skeleton(c, w, productId, generation) && ItemsFit(c, w, productId, generation, items, ready)
    requires DistinctLines(items) && c'.rows == RunRows(c, w) + more
      && NewRowsFit(more, items, w, productId, generation)
    ensures RunRows(c', w) == RunRows(c, w)
  {
    hide Pick, KeyMap, Skeleton;
    PickConcat(RunRows(c, w), more, RunRowSet(c', w));
    forall x | x in more ensures x !in RunRowSet(c', w) {
      assert NewRowOk(x, items, w, productId, generation);
      KeyMapIs(items);
      var i :| 0 <= i < |items| && items[i].lineId == x.lineId;
      assert ItemFits(items[i], c, w, productId, ready);
      NoFreshIdIsProtected(c, w, productId, generation, x.req);
    }
    PickNone(more, RunRowSet(c', w));
    forall x | x in RunRows(c, w) ensures x in RunRowSet(c', w) { RunRowsAre(c, w, x); }
    PickAll(RunRows(c, w), RunRowSet(c', w));
  }

  lemma {:induction false} PickNone(rows: seq<SurplusRow>, which: set<SurplusRow>)
    requires forall x :: x in rows ==> x !in which
    ensures Pick(rows, which) == []
  {
    if rows != [] {
      assert rows[|rows| - 1] in rows;
      PickNone(rows[..|rows| - 1], which);
    }
  }

  lemma {:induction false} PickAll(rows: seq<SurplusRow>, which: set<SurplusRow>)
    requires forall x :: x in rows ==> x in which
    ensures Pick(rows, which) == rows
  {
    if rows != [] {
      assert rows[|rows| - 1] in rows;
      PickAll(rows[..|rows| - 1], which);
      assert rows == rows[..|rows| - 1] + [rows[|rows| - 1]];
    }
  }

  /** A line of a Ready order never loses surplus to a rebuild that preserves Ready orders. */
  lemma ReadyLinesKeepSurplus(c: Closure, w: World, productId: nat, today: int, generation: nat, l: nat)
    requires WorldOk(w) && Base(c, w, productId, generation, {}) && ReadyLine(w, l, productId)
    requires ComputeFor(c, w, productId, today, generation, {}).Projection?
    ensures OnLine(Replace(c, w, ComputeFor(c, w, productId, today, generation, {})).rows, l) >= OnLine(c.rows, l)
  {
    var c' := Replace(c, w, ComputeFor(c, w, productId, today, generation, {}));
    hide ComputeFor, Replace, Skeleton, ItemsFit, AllKeyed, RowsKeyed, NewRowsFit, Meets, ClaimsMeet, OnLot, OnLine,
      RebuiltFrom, ReadyRows, RunRows, Items, Allocated, Lots, NewRows, KeyMap, ProperLink, StillOpen, Kept, Links;
    var items, shares, ready := Pieces(c, w, productId, today, generation, {});
    RebuiltOnLine(c, w, productId, generation, items, shares, ready, c', l);
    ReadyRowsOnLine(c, w, productId, generation, {}, l);
  }

  /** A clean closure may be rebuilt. */
  lemma CleanIsBase(c: Closure, w: World, productId: nat, generation: nat, impaired: set<nat>)
    requires WorldOk(w) && Clean(c, w, productId, generation)
    ensures Base(c, w, productId, generation, impaired)
  {
    hide Skeleton, RunRows, ReadyRows, OnLot, OnLine;
    forall l | l in w.lots && w.lots[l].productId == productId
      ensures OnLot(RunRows(c, w), l) + OnLot(ReadyRows(c, w, productId, impaired), l) <= w.lots[l].physical
    {
      FixedFits(c, w, productId, impaired, l);
    }
    forall l | FixedLine(c, w, l, productId) ensures l in w.lines && OnLine(c.rows, l) <= StillOpen(w, l) {
      if !ReadyLine(w, l, productId) {
        var k :| k in c.links && k.req in Protected(w) && k.lineId == l;
        assert ProperLink(k, w, productId);
      }
    }
  }
}
