/** The rebuild of one product's projection as the service runs it: loops over lines, rows, finished
    output and allocations that keep dictionaries of totals, then group by group the new rows. Each
    loop is proved against the function it computes; together they compute `ComputeFor`. */
module Rebuilding {
  import opened Sorting
  import opened Tallies
  import opened PlanningState
  import opened Recalculation
  import opened RecalculationTheorems
  import Planner = CompletionPlan
  import Stability = SurplusStability
  import Allocator = SurplusAllocation

  // ---- running totals ----

  method TotalsByLot(rows: seq<SurplusRow>) returns (totals: map<nat, nat>)
    ensures forall id: nat :: Lookup(totals, id) == OnLot(rows, id)
  {
    totals := map[];
    for i := 0 to |rows|
      invariant forall id: nat :: Lookup(totals, id) == OnLot(rows[..i], id)
    {
      assert rows[..i + 1][..i] == rows[..i];
      totals := totals[rows[i].lotId := Lookup(totals, rows[i].lotId) + rows[i].quantity];
    }
    assert rows[..|rows|] == rows;
  }

  method TotalsByLine(rows: seq<SurplusRow>) returns (totals: map<nat, nat>)
    ensures forall id: nat :: Lookup(totals, id) == OnLine(rows, id)
  {
    totals := map[];
    for i := 0 to |rows|
      invariant forall id: nat :: Lookup(totals, id) == OnLine(rows[..i], id)
    {
      assert rows[..i + 1][..i] == rows[..i];
      totals := totals[rows[i].lineId := Lookup(totals, rows[i].lineId) + rows[i].quantity];
    }
    assert rows[..|rows|] == rows;
  }

  method CompletedByLine(outputs: seq<Output>) returns (totals: map<nat, nat>)
    ensures forall id: nat :: Lookup(totals, id) == ProducedFor(outputs, id)
  {
    totals := map[];
    for i := 0 to |outputs|
      invariant forall id: nat :: Lookup(totals, id) == ProducedFor(outputs[..i], id)
    {
      assert outputs[..i + 1][..i] == outputs[..i];
      totals := totals[outputs[i].lineId := Lookup(totals, outputs[i].lineId) + outputs[i].quantity];
    }
    assert outputs[..|outputs|] == outputs;
  }

  method SurplusByKey(
      shares: seq<Allocator.Allocation>, keys: map<nat, DemandKey>) returns (totals: map<DemandKey, nat>)
    ensures forall k :: Lookup(totals, k) == GroupFresh(shares, keys, k)
  {
    totals := map[];
    for i := 0 to |shares|
      invariant forall k :: Lookup(totals, k) == GroupFresh(shares[..i], keys, k)
    {
      assert shares[..i + 1][..i] == shares[..i];
      if shares[i].lineId in keys {
        var k := keys[shares[i].lineId];
        totals := totals[k := Lookup(totals, k) + shares[i].quantity];
      }
    }
    assert shares[..|shares|] == shares;
  }

  /** Demand, finished output and kept surplus per group; a group exists for every line's key. */
  method TotalsByKey(
      items: seq<Item>) returns (demand: map<DemandKey, nat>, produced: map<DemandKey, nat>, fixed: map<DemandKey, nat>)
    ensures demand.Keys == Keys(items)
    ensures forall k :: Lookup(demand, k) == GroupDemand(items, k)
    ensures forall k :: Lookup(produced, k) == GroupProduced(items, k)
    ensures forall k :: Lookup(fixed, k) == GroupFixed(items, k)
  {
    demand, produced, fixed := map[], map[], map[];
    for i := 0 to |items|
      invariant demand.Keys == Keys(items[..i])
      invariant forall k :: Lookup(demand, k) == GroupDemand(items[..i], k)
      invariant forall k :: Lookup(produced, k) == GroupProduced(items[..i], k)
      invariant forall k :: Lookup(fixed, k) == GroupFixed(items[..i], k)
    {
      var x := items[i];
      assert items[..i + 1][..i] == items[..i];
      KeysSnoc(items, i);
      demand := demand[x.key := Lookup(demand, x.key) + x.quantity];
      produced := produced[x.key := Lookup(produced, x.key) + x.produced];
      fixed := fixed[x.key := Lookup(fixed, x.key) + x.fixed];
    }
    assert items[..|items|] == items;
  }

  lemma KeysSnoc(items: seq<Item>, n: nat)
    requires n < |items|
    ensures Keys(items[..n + 1]) == Keys(items[..n]) + {items[n].key}
  {
    forall k | k in Keys(items[..n]) ensures k in Keys(items[..n + 1]) {
      var i :| 0 <= i < n && items[..n][i].key == k;
      assert items[..n + 1][i].key == k;
    }
    assert items[..n + 1][n].key in Keys(items[..n + 1]);
  }

  // ---- gathering ----

  ghost predicate LinksApart(c: Closure) {
    forall k, m :: k in c.links && m in c.links && k.lineId == m.lineId ==> k == m
  }

  method ResolvePin(c: Closure, w: World, p: nat, l: nat) returns (pin: Option<nat>)
    requires LinksApart(c)
    ensures pin == Pin(c, w, p, l)
  {
    var todo := c.links;
    while todo != {}
      invariant todo <= c.links && forall k :: k in c.links && k.lineId == l ==> k in todo
      decreases todo
    {
      var k :| k in todo;
      if k.lineId == l { return k.req.key.revision; }
      todo := todo - {k};
    }
    pin := CurrentRevision(w, p);
  }

  lemma LeastFirst(ids: set<nat>, x: nat)
    requires x in ids && forall y :: y in ids ==> x <= y
    ensures Ascending(ids) == [x] + Ascending(ids - {x})
  {
    assert Least(ids) == x;
  }

  /** Walking a set from its least element lists it in order. */
  lemma WalkOn(ids: seq<nat>, done: seq<nat>, todo: set<nat>, x: nat)
    requires ids == done + Ascending(todo) && x in todo && forall y :: y in todo ==> x <= y
    ensures ids == done + [x] + Ascending(todo - {x})
  {
    LeastFirst(todo, x);
  }

  method GatherItem(
      c: Closure, w: World, p: nat, fixedByLine: map<nat, nat>, completedByLine: map<nat, nat>,
      ghost ready: seq<SurplusRow>, l: nat)
      returns (item: Item)
    requires LinksApart(c) && LiveLine(w, l, p)
    requires Lookup(fixedByLine, l) == OnLine(ready, l) && Lookup(completedByLine, l) == ProducedFor(w.outputs, l)
    ensures item == ItemOf(c, w, p, ready, l)
  {
    var pin := ResolvePin(c, w, p, l);
    var line := w.lines[l];
    var order := w.orders[line.orderId];
    item := Item(l, line.orderId, DemandKey(p, pin, DateOf(order)), order.time, line.quantity,
      Lookup(fixedByLine, l), Lookup(completedByLine, l));
  }

  lemma ItemsInOrder(c: Closure, w: World, p: nat, ready: seq<SurplusRow>, done: seq<nat>, items: seq<Item>)
    requires done == Ascending(DemandLines(c, w, p)) && |items| == |done|
    requires forall i :: 0 <= i < |done| ==> LiveLine(w, done[i], p) && items[i] == ItemOf(c, w, p, ready, done[i])
    ensures items == Items(c, w, p, ready)
  {
  }

  /** The lines to rebuild, in id order, each with its pin, its kept surplus and its finished output. */
  method GatherItems(
      c: Closure, w: World, p: nat, fixedByLine: map<nat, nat>, completedByLine: map<nat, nat>,
      ghost ready: seq<SurplusRow>)
      returns (items: seq<Item>)
    requires LinksApart(c)
    requires forall l: nat ::
      Lookup(fixedByLine, l) == OnLine(ready, l) && Lookup(completedByLine, l) == ProducedFor(w.outputs, l)
    ensures items == Items(c, w, p, ready)
  {
    hide ItemOf, Items, OnLine, ProducedFor, Ascending, LinksApart;
    var todo := DemandLines(c, w, p);
    ghost var ids, done := Ascending(todo), [];
    items := [];
    assert [] + Ascending(todo) == Ascending(todo);
    while todo != {}
      invariant todo <= DemandLines(c, w, p) && ids == done + Ascending(todo) && |items| == |done|
      invariant forall i :: 0 <= i < |done| ==> LiveLine(w, done[i], p) && items[i] == ItemOf(c, w, p, ready, done[i])
      decreases todo
    {
      var l := Planner.Smallest(todo);
      WalkOn(ids, done, todo, l);
      var item := GatherItem(c, w, p, fixedByLine, completedByLine, ready, l);
      items := items + [item];
      done := done + [l];
      todo := todo - {l};
    }
    NothingAscending();
    ItemsInOrder(c, w, p, ready, done, items);
  }

  lemma NothingAscending()
    ensures Ascending({}) == []
  {
  }

  lemma LotsInOrder(w: World, p: nat, fixed: seq<SurplusRow>, done: seq<nat>, lots: seq<Allocator.SurplusLot>)
    requires done == Ascending(LotsOf(w, p)) && |lots| == |done|
    requires forall i :: 0 <= i < |done| ==> done[i] in w.lots && lots[i] == LotOf(w, fixed, done[i])
    ensures lots == Lots(w, p, fixed)
  {
  }

  method GatherLots(
      w: World, p: nat, fixedByLot: map<nat, nat>, ghost fixed: seq<SurplusRow>)
      returns (lots: seq<Allocator.SurplusLot>)
    requires forall l: nat :: Lookup(fixedByLot, l) == OnLot(fixed, l)
    ensures lots == Lots(w, p, fixed)
  {
    hide Lots, OnLot, Ascending;
    var todo := LotsOf(w, p);
    ghost var ids, done := Ascending(todo), [];
    lots := [];
    assert [] + Ascending(todo) == Ascending(todo);
    while todo != {}
      invariant todo <= LotsOf(w, p) && ids == done + Ascending(todo) && |lots| == |done|
      invariant forall i :: 0 <= i < |done| ==> done[i] in w.lots && lots[i] == LotOf(w, fixed, done[i])
      decreases todo
    {
      var l := Planner.Smallest(todo);
      WalkOn(ids, done, todo, l);
      var lot := w.lots[l];
      lots := lots
        + [Allocator.SurplusLot(l, lot.productId, lot.physical, Lookup(fixedByLot, l), lot.usableThrough,
        lot.producedAt)];
      done := done + [l];
      todo := todo - {l};
    }
    NothingAscending();
    LotsInOrder(w, p, fixed, done, lots);
  }

  lemma OpenStep(all: seq<Allocator.DemandItem>, i: nat)
    requires i < |all|
    ensures Stability.Open(all[i..]) == (if all[i].quantity > 0 then [all[i]] else []) + Stability.Open(all[i + 1..])
  {
    assert all[i..][1..] == all[i + 1..];
  }

  /** What the allocator is asked for: the still-open remainder of each line that has one. */
  method OpenDemands(items: seq<Item>) returns (demands: seq<Allocator.DemandItem>)
    ensures demands == Stability.Open(Demands(items))
  {
    demands := [];
    ghost var all := Demands(items);
    assert all[0..] == all && [] + Stability.Open(all) == Stability.Open(all);
    for i := 0 to |items|
      invariant demands + Stability.Open(all[i..]) == Stability.Open(all)
    {
      hide Stability.Open;
      OpenStep(all, i);
      var x := items[i];
      var released := x.quantity - (x.fixed + x.produced);
      ghost var before := demands;
      if released > 0 {
        demands := demands + [Allocator.DemandItem(x.orderId, x.lineId, x.key.productId, released, x.key.date, x.time)];
        assert demands + Stability.Open(all[i + 1..]) == before + ([all[i]] + Stability.Open(all[i + 1..]));
      } else {
        assert [] + Stability.Open(all[i + 1..]) == Stability.Open(all[i + 1..]);
      }
    }
    assert all[|items|..] == [];
    assert demands + [] == demands;
  }

  // ---- group by group ----

  method BuildRequirement(
      k: DemandKey, demand: nat, surplus: nat, produced: nat, fixed: nat, revisions: map<nat, Revision>,
      ghost items: seq<Item>, ghost shares: seq<Allocator.Allocation>) returns (requirement: Requirement)
    requires demand == GroupDemand(items, k) && produced == GroupProduced(items, k) && fixed == GroupFixed(items, k)
    requires surplus == GroupFresh(shares, KeyMap(items), k)
    ensures requirement == Group(items, shares, revisions, k)
  {
    var total := surplus + fixed;
    var satisfied := total + produced;
    var remaining := Shortage(demand, satisfied);
    requirement := Requirement(demand, total, remaining, PlanFor(remaining, revisions, k.revision));
  }

  /** One requirement per group, with the whole batches for what is still to make. */
  method BuildRequirements(
      demand: map<DemandKey, nat>, surplus: map<DemandKey, nat>, produced: map<DemandKey, nat>, fixed: map<DemandKey,
      nat>,
      revisions: map<nat, Revision>, generation: nat, ghost items: seq<Item>, ghost shares: seq<Allocator.Allocation>)
      returns (reqs: map<ReqId, Requirement>)
    requires demand.Keys == Keys(items)
    requires forall k :: Lookup(demand, k) == GroupDemand(items, k)
    requires forall k :: Lookup(produced, k) == GroupProduced(items, k)
    requires forall k :: Lookup(fixed, k) == GroupFixed(items, k)
    requires forall k :: Lookup(surplus, k) == GroupFresh(shares, KeyMap(items), k)
    ensures reqs == Groups(items, shares, revisions, generation)
  {
    hide Group, KeyMap, GroupDemand, GroupProduced, GroupFixed, GroupFresh, Lookup, Keys;
    reqs := map[];
    var todo := demand.Keys;
    while todo != {}
      invariant todo <= demand.Keys
      invariant forall r :: r in reqs ==> r.generation == generation && r.key in demand.Keys - todo
      invariant forall k :: k in demand.Keys - todo ==>
        ReqId(k, generation) in reqs && reqs[ReqId(k, generation)] == Group(items, shares, revisions, k)
      decreases todo
    {
      var k :| k in todo;
      var requirement :=
        BuildRequirement(k, Lookup(demand, k), Lookup(surplus, k), Lookup(produced, k), Lookup(fixed, k),
        revisions, items, shares);
      reqs := reqs[ReqId(k, generation) := requirement];
      todo := todo - {k};
    }
    forall r | r in reqs ensures r == ReqId(r.key, generation) {}
  }

  /** One reservation per requirement and ingredient with something to reserve. */
  method BuildClaims(reqs: map<ReqId, Requirement>, revisions: map<nat, Revision>) returns (claims: set<Claim>)
    ensures claims == Claims(reqs, revisions)
  {
    claims := {};
    var todo := reqs.Keys;
    while todo != {}
      invariant todo <= reqs.Keys
      invariant forall x :: x in claims <==> x in Claims(reqs, revisions) && x.req !in todo
      decreases todo
    {
      var r :| r in todo;
      var left := IngredientsOf(revisions, r);
      while left != {}
        invariant left <= IngredientsOf(revisions, r)
        invariant forall x :: x in claims <==>
          x in Claims(reqs, revisions) && (x.req !in todo || (x.req == r && x.ingredientId !in left))
        decreases left
      {
        var g :| g in left;
        var needed := Needed(reqs, revisions, r, g);
        if needed > 0 { claims := claims + {Claim(r, g, needed)}; }
        left := left - {g};
      }
      todo := todo - {r};
    }
  }

  method BuildLinks(items: seq<Item>, generation: nat) returns (links: set<Link>)
    ensures links == Links(items, generation)
  {
    links := {};
    for i := 0 to |items|
      invariant links == set k | 0 <= k < i :: Link(ReqId(items[k].key, generation), items[k].lineId, items[k].quantity)
    {
      links := links + {Link(ReqId(items[i].key, generation), items[i].lineId, items[i].quantity)};
    }
  }

  /** New rows from the allocator's results, then clones of the kept rows, each under its line's new
      requirement. */
  method BuildRows(
      shares: seq<Allocator.Allocation>, ready: seq<SurplusRow>, keys: map<nat, DemandKey>, generation: nat)
      returns (rows: seq<SurplusRow>)
    ensures rows == FreshRows(shares, keys, generation) + Clones(ready, keys, generation)
  {
    rows := [];
    for i := 0 to |shares|
      invariant rows == FreshRows(shares[..i], keys, generation)
    {
      assert shares[..i + 1][..i] == shares[..i];
      var a := shares[i];
      if a.lineId in keys {
        rows := rows + [SurplusRow(ReqId(keys[a.lineId], generation), a.lotId, a.lineId, a.quantity)];
      }
    }
    assert shares[..|shares|] == shares;
    ghost var fromShares := rows;
    for i := 0 to |ready|
      invariant rows == fromShares + Clones(ready[..i], keys, generation)
    {
      assert ready[..i + 1][..i] == ready[..i];
      if ready[i].lineId in keys { rows := rows + [ready[i].(req := ReqId(keys[ready[i].lineId], generation))]; }
    }
    assert ready[..|ready|] == ready;
  }

  method LineKeys(items: seq<Item>) returns (keys: map<nat, DemandKey>)
    ensures keys == KeyMap(items)
  {
    keys := map[];
    for i := 0 to |items|
      invariant keys == KeyMap(items[..i])
    {
      assert items[..i + 1][..i] == items[..i];
      keys := keys[items[i].lineId := items[i].key];
    }
    assert items[..|items|] == items;
  }

  // ---- the whole rebuild ----

  method Rebuild(
      c: Closure, w: World, p: nat, today: int, generation: nat, impaired: set<nat>) returns (result: Projection)
    requires LinksApart(c)
    ensures result == ComputeFor(c, w, p, today, generation, impaired)
  {
    hide Items, Lots, Demands, Groups, Claims, Links, FreshRows, Clones, KeyMap, Keys, Storable, RunRows, ReadyRows,
      Stability.Open, Allocator.Allocate, GroupDemand, GroupProduced, GroupFixed, GroupFresh, OnLot, OnLine,
      ProducedFor;
    var ready := ReadyRows(c, w, p, impaired);
    var running := RunRows(c, w);
    var fixedByLot := TotalsByLot(running + ready);
    var fixedByLine := TotalsByLine(ready);
    var completedByLine := CompletedByLine(w.outputs);
    var items := GatherItems(c, w, p, fixedByLine, completedByLine, ready);
    var lots := GatherLots(w, p, fixedByLot, running + ready);
    LotsAre(w, p, running + ready);
    var demand, produced, fixed := TotalsByKey(items);
    if demand.Keys * TakenKeys(c, w) != {} { return DemandConflict; }
    var demands := OpenDemands(items);
    var shares := Allocator.AllocateSurplus(lots, demands, today);
    var keys := LineKeys(items);
    var surplus := SurplusByKey(shares, keys);
    if exists x :: x in ready && x.lineId !in keys { return MissingKey; }
    var reqs := BuildRequirements(demand, surplus, produced, fixed, w.revisions, generation, items, shares);
    var claims := BuildClaims(reqs, w.revisions);
    if !Storable(reqs, claims) { return Overflow; }
    var links := BuildLinks(items, generation);
    var rows := BuildRows(shares, ready, keys, generation);
    result := Projection(reqs, links, rows, claims);
  }
}
