/** Who a finished run serves. The lines are taken from the orders locked for the attempt, without
    another look at their status: an order canceled between discovery and lock is still served. */
module FinishRecipients {
  import opened Sorting
  import opened PlanningState
  import opened PlanningInvariant
  import opened PlanningSystem
  import opened Lifecycle
  import opened SupplyTheorems
  import Sharing = ProductionOutput

  /** A locked order with an unmet line of the product that is no longer live. */
  ghost predicate StaleNeed(s: State, p: nat, locked: set<nat>) {
    exists l :: l in RecipientLines(s.world, p, locked) && !LiveLine(s.world, l, p)
      && Sharing.StillNeeded(OutstandingLine(s, p, l)) > 0
  }

  ghost predicate ServesOnlyLive(s: State, p: nat, locked: set<nat>, output: nat) {
    forall x :: x in SharesOf(s, p, locked, output) ==> LiveLine(s.world, x.lineId, p)
  }

  /** With enough for everyone, every line with a need has its row. */
  lemma {:induction false} EnoughServesEveryNeed(lines: seq<Sharing.DemandLine>, output: nat, n: nat, i: nat)
    requires i < n <= |lines| && Sharing.NeedBefore(lines, |lines|) <= output && Sharing.StillNeeded(lines[i]) > 0
    ensures Sharing.Share(lines[i].orderId, lines[i].lineId, Sharing.StillNeeded(lines[i]))
      in Sharing.Shares(lines, output, n)
  {
    Sharing.NeedGrows(lines, i + 1, |lines|);
    if i < n - 1 { EnoughServesEveryNeed(lines, output, n - 1, i); }
  }

  lemma SortedOutstanding(s: State, p: nat, locked: set<nat>, l: nat)
    requires l in RecipientLines(s.world, p, locked)
    ensures OutstandingLine(s, p, l) in Sharing.InOrder(Outstanding(s, p, locked), p)
  {
    var lines := Outstanding(s, p, locked);
    OutstandingAre(s, p, locked);
    assert OutstandingLine(s, p, l) in lines;
    Sharing.OfProductMembers(lines, p, OutstandingLine(s, p, l));
    SortMembers(Sharing.OfProduct(lines, p), Sharing.LineKey, OutstandingLine(s, p, l));
  }

  /** An output that meets every need serves this line too. */
  lemma LargeOutputServes(s: State, p: nat, locked: set<nat>, l: nat, output: nat)
    requires l in RecipientLines(s.world, p, locked) && Sharing.StillNeeded(OutstandingLine(s, p, l)) > 0
    requires var sorted := Sharing.InOrder(Outstanding(s, p, locked), p); Sharing.NeedBefore(sorted, |sorted|) <= output
    ensures Sharing.Share(s.world.lines[l].orderId, l, Sharing.StillNeeded(OutstandingLine(s, p, l)))
      in SharesOf(s, p, locked, output)
  {
    var sorted := Sharing.InOrder(Outstanding(s, p, locked), p);
    SortedOutstanding(s, p, locked, l);
    var i :| 0 <= i < |sorted| && sorted[i] == OutstandingLine(s, p, l);
    EnoughServesEveryNeed(sorted, output, |sorted|, i);
  }

  /** A line that got something still needed something. */
  lemma ServedNeeded(s: State, p: nat, locked: set<nat>, output: nat, x: Sharing.Share)
    requires x in SharesOf(s, p, locked, output)
    ensures x.lineId in RecipientLines(s.world, p, locked) && Sharing.StillNeeded(OutstandingLine(s, p, x.lineId)) > 0
  {
    hide Sharing.StillNeeded, Outstanding, OutstandingLine;
    OutstandingAre(s, p, locked);
    Sharing.SharingIsSound(Outstanding(s, p, locked), output, p);
    assert Sharing.RowSound(x, Outstanding(s, p, locked), p);
    var line :| line in Outstanding(s, p, locked) && line.lineId == x.lineId
      && 0 < x.quantity <= Sharing.StillNeeded(line);
    var i :| 0 <= i < |Outstanding(s, p, locked)| && Outstanding(s, p, locked)[i] == line;
  }

  /** Finish serves only Confirmed and Ready orders, whatever the output, exactly when no locked order
      that stopped being live still has an unmet line of the product. */
  lemma OnlyLiveOrdersServedIff(s: State, p: nat, locked: set<nat>)
    ensures (forall output: nat :: ServesOnlyLive(s, p, locked, output)) <==> !StaleNeed(s, p, locked)
  {
    hide SharesOf, Sharing.StillNeeded, LiveLine;
    if StaleNeed(s, p, locked) {
      var l :| l in RecipientLines(s.world, p, locked) && !LiveLine(s.world, l, p)
               && Sharing.StillNeeded(OutstandingLine(s, p, l)) > 0;
      var sorted := Sharing.InOrder(Outstanding(s, p, locked), p);
      var output := Sharing.NeedBefore(sorted, |sorted|);
      LargeOutputServes(s, p, locked, l, output);
      assert !ServesOnlyLive(s, p, locked, output);
    } else {
      forall output: nat, x | x in SharesOf(s, p, locked, output) ensures LiveLine(s.world, x.lineId, p) {
        ServedNeeded(s, p, locked, output, x);
      }
    }
  }

  /** In particular when every locked order is live. */
  lemma LiveLocksServeLive(s: State, p: nat, locked: set<nat>)
    requires forall o :: o in locked && o in s.world.orders ==> Live(s.world, o)
    ensures forall output: nat :: ServesOnlyLive(s, p, locked, output)
  {
    OnlyLiveOrdersServedIff(s, p, locked);
  }

  // ---- a state in which a canceled order is served ----

  const KEY := DemandKey(7, Some(0), 0)
  const SOURCE := ReqId(KEY, 0)

  /** Product 7 has a run in production for order 1. Order 2 was canceled after Finish discovered it. */
  const CANCELED_WHILE_WAITING: State := State(
    World(map[7 := Produced(Some(0), true, None)], map[0 := Revision(7, 1, map[])],
      map[1 := Order(Confirmed, Some(0), None), 2 := Order(Canceled, Some(0), None)],
      map[1 := Line(1, OfProduct(7), 2), 2 := Line(2, OfProduct(7), 5)],
      map[], [], map[3 := Run(SOURCE, 7, 0, InProduction, map[])]),
    map[7 := Closure(map[SOURCE := Requirement(2, 0, 2, Some(Batches(2, 2, 0)))], {Link(SOURCE, 1, 2)}, [], {}, {})],
    map[], map[], [], 1)

  lemma CanceledWhileWaitingIsLegal()
    ensures Inv(CANCELED_WHILE_WAITING)
  {
    var s := CANCELED_WHILE_WAITING;
    SourceIsLegal();
    WorldIsLegal();
    hide Clean, WorldOk;
    forall p ensures ProductClean(s, p) {}
    assert LedgerOk(s) by { forall account ensures BalanceOf(s, account) == LedgerSum(s.ledger, account) {} }
  }

  lemma WorldIsLegal()
    ensures WorldOk(CANCELED_WHILE_WAITING.world)
  {
    assert forall o :: Live(CANCELED_WHILE_WAITING.world, o) <==> o == 1;
  }

  lemma SourceIsLegal()
    ensures Clean(ClosureOf(CANCELED_WHILE_WAITING, 7), CANCELED_WHILE_WAITING.world, 7, 1)
  {
    var w, c := CANCELED_WHILE_WAITING.world, ClosureOf(CANCELED_WHILE_WAITING, 7);
    assert Protected(w) == {SOURCE} by { assert w.runs[3].source == SOURCE; }
    assert forall l :: LiveLine(w, l, 7) <==> l == 1;
    assert Link(SOURCE, 1, 2) in c.links && c.links == {Link(SOURCE, 1, 2)};
    assert forall run :: ActiveRun(w, run, 7) <==> run == 3;
    assert RunOk(3, c, w, 7);
    assert HasLine(c, SOURCE);
    hide RunOk, HasLine, Protected;
    assert Skeleton(c, w, 7, 1);
  }

  /** A Finish locked on orders 1 and 2 gives output to the canceled order's line. */
  lemma CanceledOrderMayBeServed()
    ensures
      var s := CANCELED_WHILE_WAITING;
      && Inv(s) && Candidates(s.world, {7}) <= {1, 2} && s.world.orders[2].status == Canceled
      && exists output: nat, q: nat :: q > 0 && Sharing.Share(2, 2, q) in SharesOf(s, 7, {1, 2}, output)
  {
    var s := CANCELED_WHILE_WAITING;
    CanceledWhileWaitingIsLegal();
    assert forall l :: l in RecipientLines(s.world, 7, {1, 2}) <==> l == 1 || l == 2;
    assert Sharing.StillNeeded(OutstandingLine(s, 7, 2)) == 5;
    var sorted := Sharing.InOrder(Outstanding(s, 7, {1, 2}), 7);
    LargeOutputServes(s, 7, {1, 2}, 2, Sharing.NeedBefore(sorted, |sorted|));
  }
}
