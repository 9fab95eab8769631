/** Active-run protection between transactions. Edit and Cancel read it before their product locks and
    never again; starting a run takes no order lock, so it can commit in between. The module says exactly
    when that goes wrong, shows it going wrong, and proves that reading again under the product locks, as
    Complete does, restores the property in every interleaving. */
module ProtectionRace {
  import opened LockProtocol

  // ---- when a run is missed ----

  /** The transaction missed no run: none started since its check is behind a line it would touch. */
  predicate MissedNothing(db: Db, t: nat)
    requires t in db.txs
  {
    var tx := db.txs[t];
    forall r :: r in tx.started && Concerns(db.rows, tx.work, r) ==> !TouchesReq(db, tx.work, r)
  }

  /** `started` is what it is called: it grows by the runs other transactions start once this one has
      read its protection, and by nothing else. */
  lemma StartedSinceTheCheck(policy: Policy, db: Db, e: Event, t: nat, r: Req)
    requires t in db.txs && e.t != t
    ensures t in Step(policy, db, e).txs
    ensures r in Step(policy, db, e).txs[t].started <==>
      || r in db.txs[t].started
      || (db.txs[t].stage != LockingOrders && e.Commit? && Enabled(policy, db, e) && db.txs[e.t].work == Start(r))
  {
    hide Admissible, SecondLook, Spared, Write, Rebuild, ActiveAfter, Fits;
  }

  /** In every interleaving, from the check on: the commit would spare every protected line exactly when no
      run behind a line it touches was started since the check. */
  lemma SparedIffNothingMissed(policy: Policy, db: Db, events: seq<Event>, t: nat)
    requires db.txs == map[] && t in Run(policy, db, events).txs
      && Run(policy, db, events).txs[t].stage != LockingOrders
    ensures
      var now := Run(policy, db, events);
      Spared(now, now.txs[t].work) <==> MissedNothing(now, t)
  {
    hide Concerns, TouchesReq;
    AlwaysSafe(policy, db, events);
    assert Watched(Run(policy, db, events), t);
  }

  /** Once the transaction holds its products no such run can be started any more: only what commits
      between the check and the last product lock matters. */
  lemma NoStartUnderProductLocks(policy: Policy, db: Db, e: Event, t: nat, r: Req)
    requires Safe(policy, db) && t in db.txs && db.txs[t].stage != LockingOrders && e.t != t
    requires db.txs[t].needed <= db.txs[t].products && Concerns(db.rows, db.txs[t].work, r)
    ensures t in Step(policy, db, e).txs && (r in Step(policy, db, e).txs[t].started <==> r in db.txs[t].started)
  {
    hide Admissible, Candidates, Write, Rebuild, ActiveAfter, Fits, TouchesReq, Touches;
    StartedSinceTheCheck(policy, db, e, t, r);
    assert Grounded(db, t);
    if e.Commit? && Enabled(policy, db, e) {
      assert Grounded(db, e.t) && Covered(policy, db, e.t);
      RunsNeedTheirProduct(db.rows, db.txs[e.t].work);
    }
  }

  /** A workflow that reads its protection again under its product locks spares every protected line, from
      that read to its commit, in every interleaving. As written, this is Complete. */
  lemma RecheckHoldsUntilCommit(policy: Policy, db: Db, events: seq<Event>, t: nat)
    requires db.txs == map[] && t in Run(policy, db, events).txs && Run(policy, db, events).txs[t].stage == Verified
    requires Repeats(policy, Run(policy, db, events).txs[t].work)
    ensures Spared(Run(policy, db, events), Run(policy, db, events).txs[t].work)
  {
    hide Concerns, TouchesReq, Candidates;
    AlwaysSafe(policy, db, events);
    assert Covered(policy, Run(policy, db, events), t);
  }

  // ---- what a commit does to protected requirements ----

  /** Every requirement has a line, every link is proper, and every active run has its requirement. */
  ghost predicate Proper(db: Db) {
    && db.active <= db.reqs.Keys
    && forall r :: r in db.reqs ==> ProperLinks(db.rows, r, db.reqs[r])
  }

  /** Requirements behind runs that go on keep every link, and every link stays proper. */
  ghost predicate KeepsPromises(db: Db, db': Db) {
    forall r :: r in db.active && r in db'.active ==>
      r in db.reqs && r in db'.reqs && db'.reqs[r] == db.reqs[r] && ProperLinks(db'.rows, r, db'.reqs[r])
  }

  /** A proper link stays proper unless the commit touches its line. */
  lemma LinkSurvivesIff(rows: map<nat, Row>, work: Work, r: Req, l: LineId, quantity: nat)
    requires Admissible(rows, work) && ProperLink(rows, r, l, quantity)
    ensures ProperLink(Write(rows, work), r, l, quantity) <==> !Touches(rows, work, l)
    ensures Touches(rows, work, l) ==> Concerns(rows, work, r)
  {
  }

  lemma LinksSurvive(rows: map<nat, Row>, work: Work, r: Req, links: Links)
    requires Admissible(rows, work) && ProperLinks(rows, r, links)
    requires forall l :: l in links ==> !Touches(rows, work, l)
    ensures Cascade(links, Write(rows, work)) == links && ProperLinks(Write(rows, work), r, links)
  {
    hide Admissible, Write, Touches;
    forall l | l in links ensures ProperLink(Write(rows, work), r, l, links[l]) {
      LinkSurvivesIff(rows, work, r, l, links[l]);
    }
  }

  /** Links outside the order's reach are not touched. */
  lemma OutOfReach(rows: map<nat, Row>, work: Work, r: Req, links: Links)
    requires Admissible(rows, work) && ProperLinks(rows, r, links) && !Concerns(rows, work, r)
    ensures forall l :: l in links ==> !Touches(rows, work, l)
  {
    hide Admissible, Touches, Concerns;
    forall l | l in links ensures !Touches(rows, work, l) { LinkSurvivesIff(rows, work, r, l, links[l]); }
  }

  lemma SparedLinks(db: Db, work: Work, r: Req)
    requires Proper(db) && Spared(db, work) && r in db.active && Admissible(db.rows, work)
    ensures r in db.reqs && forall l :: l in db.reqs[r] ==> !Touches(db.rows, work, l)
  {
    hide Admissible, Touches, Concerns, ProperLinks;
    if !Concerns(db.rows, work, r) { OutOfReach(db.rows, work, r, db.reqs[r]); }
  }

  lemma ConcernsIsNeeded(rows: map<nat, Row>, tx: Tx, r: Req)
    requires Concerns(rows, tx.work, r) && tx.needed == Needed(rows, tx.work)
    ensures r.product in Scope(tx)
  {
  }

  /** A commit that spares the protected lines leaves everything proper. */
  lemma SparingCommitKeepsProper(policy: Policy, db: Db, t: nat, rebuilt: map<Req, Links>)
    requires Safe(policy, db) && Proper(db) && Enabled(policy, db, Commit(t, rebuilt)) && Spared(db, db.txs[t].work)
    ensures Proper(Committed(db, t, rebuilt)) && KeepsPromises(db, Committed(db, t, rebuilt))
  {
    hide Admissible, Touches, Concerns, ProperLinks, Write, Spared, Candidates, Cascade, Scope, Needed;
    var db', tx := Committed(db, t, rebuilt), db.txs[t];
    assert Grounded(db, t) && Covered(policy, db, t);
    forall r | r in db.reqs && (r in db'.active || r.product !in Scope(tx))
      ensures Cascade(db.reqs[r], db'.rows) == db.reqs[r] && ProperLinks(db'.rows, r, db.reqs[r])
    {
      if r in db.active {
        SparedLinks(db, tx.work, r);
      } else {
        if Concerns(db.rows, tx.work, r) {
          ConcernsIsNeeded(db.rows, tx, r);
          StartConcernsNothing(db.rows, tx.work, r);
        }
        OutOfReach(db.rows, tx.work, r, db.reqs[r]);
      }
      LinksSurvive(db.rows, tx.work, r, db.reqs[r]);
    }
  }

  lemma StartConcernsNothing(rows: map<nat, Row>, work: Work, r: Req)
    requires Concerns(rows, work, r)
    ensures !work.Start? && !work.EndRun?
  {
  }

  /** Exactly the commits that spare every protected line keep what active runs were promised. */
  lemma CommitKeepsPromisesIff(policy: Policy, db: Db, t: nat, rebuilt: map<Req, Links>)
    requires Safe(policy, db) && Proper(db) && Enabled(policy, db, Commit(t, rebuilt))
    ensures KeepsPromises(db, Committed(db, t, rebuilt)) <==> Spared(db, db.txs[t].work)
  {
    hide Admissible, Touches, Concerns, Write, Candidates, Cascade, Scope, Needed, Fits, Rebuild, SecondLook,
      ProperLink, Safe;
    var db', work := Committed(db, t, rebuilt), db.txs[t].work;
    if Spared(db, work) {
      SparingCommitKeepsProper(policy, db, t, rebuilt);
    } else {
      var r :| r in db.active && Concerns(db.rows, work, r) && TouchesReq(db, work, r);
      var l :| l in db.reqs[r] && Touches(db.rows, work, l);
      StartConcernsNothing(db.rows, work, r);
      assert r in db'.active;
      LinkSurvivesIff(db.rows, work, r, l, db.reqs[r][l]);
    }
  }

  /** The two together, for a workflow as written: its commit keeps what active runs were promised exactly
      when no run behind a line it touches was started between its check and its product locks. */
  lemma PromisesKeptIffNothingMissed(policy: Policy, db: Db, events: seq<Event>, t: nat, rebuilt: map<Req, Links>)
    requires db.txs == map[] && Proper(Run(policy, db, events))
      && Enabled(policy, Run(policy, db, events), Commit(t, rebuilt))
    ensures
      var now := Run(policy, db, events);
      KeepsPromises(now, Committed(now, t, rebuilt)) <==> MissedNothing(now, t)
  {
    hide Spared, Safe, Proper, KeepsPromises, MissedNothing, Fits, Committed;
    AlwaysSafe(policy, db, events);
    SparedIffNothingMissed(policy, db, events, t);
    CommitKeepsPromisesIff(policy, Run(policy, db, events), t, rebuilt);
  }

  // ---- whole runs ----

  /** Where the protection is not read again, the commit missed nothing. */
  ghost predicate NothingMissedAt(policy: Policy, db: Db, e: Event) {
    e.Commit? && Enabled(policy, db, e) && !Repeats(policy, db.txs[e.t].work) ==> MissedNothing(db, e.t)
  }

  lemma StepKeepsProper(policy: Policy, db: Db, e: Event)
    requires Safe(policy, db) && Proper(db) && NothingMissedAt(policy, db, e)
    ensures Proper(Step(policy, db, e))
  {
    hide Concerns, TouchesReq, Candidates, Admissible, ProperLinks, Needed, Fits, Committed;
    if e.Commit? && Enabled(policy, db, e) {
      assert Watched(db, e.t) && Covered(policy, db, e.t);
      SparingCommitKeepsProper(policy, db, e.t, e.rebuilt);
    }
  }

  /** Every reachable state is proper as long as no commit misses a run. */
  lemma {:induction false} AlwaysProper(policy: Policy, db: Db, events: seq<Event>)
    requires db.txs == map[] && Proper(db)
    requires forall n :: 0 <= n < |events| ==> NothingMissedAt(policy, Run(policy, db, events[..n]), events[n])
    ensures Proper(Run(policy, db, events))
  {
    hide NothingMissedAt, Step, Safe;
    if events != [] {
      var n := |events| - 1;
      forall i | 0 <= i < n ensures NothingMissedAt(policy, Run(policy, db, events[..n][..i]), events[..n][i]) {
        assert events[..n][..i] == events[..i];
      }
      AlwaysProper(policy, db, events[..n]);
      AlwaysSafe(policy, db, events[..n]);
      StepKeepsProper(policy, Run(policy, db, events[..n]), events[n]);
    }
  }

  /** Reading the protection again under the product locks, in Edit and Cancel as in Complete, restores
      it: no interleaving reaches a run without its lines. */
  lemma RepeatingTheCheckRestoresIt(db: Db, events: seq<Event>)
    requires db.txs == map[] && Proper(db)
    ensures Proper(Run(Everywhere, db, events))
  {
    forall n | 0 <= n < |events| ensures NothingMissedAt(Everywhere, Run(Everywhere, db, events[..n]), events[n]) {
      NobodyOmitsIt(db, events[..n], events[n]);
    }
    AlwaysProper(Everywhere, db, events);
  }

  lemma NobodyOmitsIt(db: Db, events: seq<Event>, e: Event)
    ensures NothingMissedAt(Everywhere, Run(Everywhere, db, events), e)
  {
  }

  // ---- two interleavings ----

  const SOURCE: Req := Req(7, 0, 0)

  /** One live order with one line of product 7, linked to a requirement no run is behind yet. */
  const PLANNED: Db :=
    Db(map[5 := Row(LiveRow, 0, map[1 := Terms(7, 3)])], map[SOURCE := map[LineId(5, 1) := 3]], {}, map[])

  /** Replaces the line by one of product 8. */
  const EDITING: Work := Edit(5, 0, map[2 := Terms(8, 3)])

  const CANCELING: Work := Cancel(5)

  /** The order is locked and its protection read; then a run is started behind its line. */
  function Overtaken(work: Work): seq<Event> {
    [Begin(1, work, {5}), TakeOrder(1, 5), Reread(1), Begin(2, Start(SOURCE), {}), Reread(2), TakeProduct(2, 7),
      Verify(2),
     Commit(2, map[])]
  }

  function Checked(work: Work, started: set<Req>): Tx {
    Tx(work, LockingProducts, {5}, {5}, Needed(PLANNED.rows, work), {}, started)
  }

  const STARTING: Tx := Tx(Start(SOURCE), LockingProducts, {}, {}, {7}, {7}, {})

  lemma PlannedFacts()
    ensures Proper(PLANNED) && ProductsOf(PLANNED.rows, 5) == {7}
    ensures Needed(PLANNED.rows, CANCELING) == {7} && Needed(PLANNED.rows, EDITING) == {7, 8}
  {
    assert PLANNED.rows[5].lines[1] == Terms(7, 3) && EDITING.lines[2] == Terms(8, 3);
    assert ProductsIn(EDITING.lines) == {8};
    var links := PLANNED.reqs[SOURCE];
    assert LineId(5, 1) in links && ProperLinks(PLANNED.rows, SOURCE, links);
  }

  lemma Then(policy: Policy, db: Db, events: seq<Event>, e: Event)
    ensures Run(policy, db, events + [e]) == Step(policy, Run(policy, db, events), e)
  {
    assert (events + [e])[..|events|] == events;
  }

  lemma ChecksFirst(policy: Policy, work: Work)
    requires work == EDITING || work == CANCELING
    ensures Run(policy, PLANNED, [Begin(1, work, {5}), TakeOrder(1, 5), Reread(1)])
      == PLANNED.(txs := map[1 := Checked(work, {})])
  {
    hide Fits, Committed, Needed, Candidates, SecondLook;
    Then(policy, PLANNED, [], Begin(1, work, {5}));
    Then(policy, PLANNED, [Begin(1, work, {5})], TakeOrder(1, 5));
    Then(policy, PLANNED, [Begin(1, work, {5}), TakeOrder(1, 5)], Reread(1));
    assert [] + [Begin(1, work, {5})] == [Begin(1, work, {5})];
    assert [Begin(1, work, {5})] + [TakeOrder(1, 5)] == [Begin(1, work, {5}), TakeOrder(1, 5)];
    assert [Begin(1, work, {5}), TakeOrder(1, 5)] + [Reread(1)] == [Begin(1, work, {5}), TakeOrder(1, 5), Reread(1)];
    var locking := Tx(work, LockingOrders, {5}, {}, {}, {}, {});
    assert Run(policy, PLANNED, [Begin(1, work, {5})]) == PLANNED.(txs := map[1 := locking]);
    assert {} + {5} == {5};
  }

  lemma StartNeeds(db: Db)
    ensures Needed(db.rows, Start(SOURCE)) == {7} && Spared(db, Start(SOURCE)) && Admissible(db.rows, Start(SOURCE))
  {
  }

  const BEGUN: Tx := Tx(Start(SOURCE), LockingOrders, {}, {}, {}, {}, {})

  lemma StartBegins(policy: Policy, a: Db)
    requires 2 !in a.txs
    ensures
      var b := Step(policy, a, Begin(2, Start(SOURCE), {}));
      Step(policy, b, Reread(2)) == a.(txs := a.txs[2 := STARTING.(products := {})])
  {
    hide Fits, Committed, Needed, Candidates, Spared;
    var b := a.(txs := a.txs[2 := BEGUN]);
    StartNeeds(b);
    assert Step(policy, a, Begin(2, Start(SOURCE), {})) == b;
  }

  /** The other transaction's steps, up to its commit. */
  lemma StartsBehindIt(policy: Policy, mine: Tx)
    requires 7 !in mine.products
    ensures
      var a := PLANNED.(txs := map[1 := mine]);
      var b := Step(policy, a, Begin(2, Start(SOURCE), {}));
      var c := Step(policy, b, Reread(2));
      var d := Step(policy, c, TakeProduct(2, 7));
      Step(policy, d, Verify(2)) == PLANNED.(txs := map[1 := mine, 2 := STARTING.(stage := Verified)])
  {
    var a := PLANNED.(txs := map[1 := mine]);
    StartBegins(policy, a);
    hide Fits, Committed, Needed, Candidates, Spared;
    assert {} + {7} == {7};
    assert Step(policy, a.(txs := a.txs[2 := STARTING.(products := {})]), TakeProduct(2, 7))
      == a.(txs := a.txs[2 := STARTING]);
  }

  /** The start commits: it needs no order lock. */
  lemma StartCommits(policy: Policy, mine: Tx)
    requires mine.stage == LockingProducts
    ensures Step(policy, PLANNED.(txs := map[1 := mine, 2 := STARTING.(stage := Verified)]), Commit(2, map[]))
      == Db(PLANNED.rows, PLANNED.reqs, {SOURCE}, map[1 := mine.(started := mine.started + {SOURCE})])
  {
    hide Candidates, Spared, Needed, SecondLook, Rebuild;
    NothingRebuilt();
    var db := PLANNED.(txs := map[1 := mine, 2 := STARTING.(stage := Verified)]);
    assert Enabled(policy, db, Commit(2, map[]));
    assert {} + {SOURCE} == {SOURCE};
    assert Committed(db, 2, map[]).txs == map[1 := mine.(started := mine.started + {SOURCE})];
  }

  lemma NothingRebuilt()
    ensures Rebuild(PLANNED.reqs, PLANNED.rows, {SOURCE}, {}, map[]) == PLANNED.reqs
  {
    var links := PLANNED.reqs[SOURCE];
    assert Cascade(links, PLANNED.rows) == links by { assert LineId(5, 1) in links; }
  }

  lemma RunStarts(policy: Policy, work: Work)
    requires work == EDITING || work == CANCELING
    ensures Run(policy, PLANNED, Overtaken(work))
      == Db(PLANNED.rows, PLANNED.reqs, {SOURCE}, map[1 := Checked(work, {SOURCE})])
  {
    hide Step, Needed;
    var events, mine := Overtaken(work), Checked(work, {});
    ChecksFirst(policy, work);
    assert events[..3] == [Begin(1, work, {5}), TakeOrder(1, 5), Reread(1)];
    RunOne(policy, PLANNED, events, 3);
    RunOne(policy, PLANNED, events, 4);
    RunOne(policy, PLANNED, events, 5);
    RunOne(policy, PLANNED, events, 6);
    RunOne(policy, PLANNED, events, 7);
    StartsBehindIt(policy, mine);
    StartCommits(policy, mine);
    assert events[..8] == events;
    assert {} + {SOURCE} == {SOURCE};
  }

  /** An overtaken transaction that holds `products`. */
  function Overtaking(work: Work, products: set<nat>): Db {
    Db(PLANNED.rows, PLANNED.reqs, {SOURCE}, map[1 := Checked(work, {SOURCE}).(products := products)])
  }

  function LookedAgain(work: Work, products: set<nat>): Db {
    Db(PLANNED.rows, PLANNED.reqs, {SOURCE},
      map[1 := Checked(work, {SOURCE}).(products := products, stage := Verified)])
  }

  lemma LooksAgain(work: Work, products: set<nat>)
    requires work == EDITING || work == CANCELING
    requires Needed(PLANNED.rows, work) == products
    ensures Step(AsWritten, Overtaking(work, products), Verify(1)) == LookedAgain(work, products)
  {
    assert Candidates(PLANNED.rows, products) <= {5};
  }

  /** A Cancel overtaken by a Start closes the order behind the run: the run's requirement keeps a link to
      a closed order. */
  lemma CancelCanLoseARace()
    ensures
      var events := Overtaken(CANCELING) + [TakeProduct(1, 7)] + [Verify(1)] + [Commit(1, map[])];
      var now := Run(AsWritten, PLANNED, events);
      && Proper(PLANNED)
      && SOURCE in now.active && 5 in now.rows && now.rows[5].kind == ClosedRow
      && now.reqs == map[SOURCE := map[LineId(5, 1) := 3]] && !Proper(now)
  {
    hide Step, Proper;
    var start := Overtaken(CANCELING);
    PlannedFacts();
    RunStarts(AsWritten, CANCELING);
    Then(AsWritten, PLANNED, start, TakeProduct(1, 7));
    Then(AsWritten, PLANNED, start + [TakeProduct(1, 7)], Verify(1));
    Then(AsWritten, PLANNED, start + [TakeProduct(1, 7)] + [Verify(1)], Commit(1, map[]));
    TakesSeven(CANCELING);
    LooksAgain(CANCELING, {7});
    ClosedBehindTheRun();
  }

  lemma TakesSeven(work: Work)
    requires 7 in Needed(PLANNED.rows, work) && forall p :: p in Needed(PLANNED.rows, work) ==> 7 <= p
    ensures Step(AsWritten, Overtaking(work, {}), TakeProduct(1, 7)) == Overtaking(work, {7})
  {
    assert {} + {7} == {7};
  }

  lemma ClosedBehindTheRun()
    ensures
      var db' := Step(AsWritten, LookedAgain(CANCELING, {7}), Commit(1, map[]));
      && SOURCE in db'.active && 5 in db'.rows && db'.rows[5].kind == ClosedRow
      && db'.reqs == map[SOURCE := map[LineId(5, 1) := 3]] && !Proper(db')
  {
    var rows', links := Write(PLANNED.rows, CANCELING), PLANNED.reqs[SOURCE];
    assert Cascade(links, rows') == links by { assert LineId(5, 1) in links; }
    assert Rebuild(PLANNED.reqs, rows', {SOURCE}, Needed(PLANNED.rows, CANCELING), map[]) == PLANNED.reqs;
    assert LineId(5, 1) in links && !ProperLink(rows', SOURCE, LineId(5, 1), links[LineId(5, 1)]);
  }

  const REPLACED: map<Req, Links> := map[Req(8, 0, 0) := map[LineId(5, 2) := 3]]

  /** An Edit overtaken by a Start deletes the line behind the run: the run's requirement has no line
      left. */
  lemma EditCanLoseARace()
    ensures
      var events :=
        Overtaken(EDITING) + [TakeProduct(1, 7)] + [TakeProduct(1, 8)] + [Verify(1)] + [Commit(1, REPLACED)];
      var now := Run(AsWritten, PLANNED, events);
      && Proper(PLANNED)
      && SOURCE in now.active && SOURCE in now.reqs && now.reqs[SOURCE] == map[] && !Proper(now)
  {
    hide Step, Proper;
    var start := Overtaken(EDITING);
    PlannedFacts();
    RunStarts(AsWritten, EDITING);
    Then(AsWritten, PLANNED, start, TakeProduct(1, 7));
    Then(AsWritten, PLANNED, start + [TakeProduct(1, 7)], TakeProduct(1, 8));
    Then(AsWritten, PLANNED, start + [TakeProduct(1, 7)] + [TakeProduct(1, 8)], Verify(1));
    Then(AsWritten, PLANNED, start + [TakeProduct(1, 7)] + [TakeProduct(1, 8)] + [Verify(1)], Commit(1, REPLACED));
    TakesSeven(EDITING);
    TakesEight();
    LooksAgain(EDITING, {7, 8});
    DeletedBehindTheRun();
  }

  lemma TakesEight()
    ensures Step(AsWritten, Overtaking(EDITING, {7}), TakeProduct(1, 8)) == Overtaking(EDITING, {7, 8})
  {
    PlannedFacts();
    assert {7} + {8} == {7, 8};
  }

  lemma DeletedBehindTheRun()
    ensures
      var db' := Step(AsWritten, LookedAgain(EDITING, {7, 8}), Commit(1, REPLACED));
      SOURCE in db'.active && SOURCE in db'.reqs && db'.reqs[SOURCE] == map[] && !Proper(db')
  {
    var rows' := Write(PLANNED.rows, EDITING);
    PlannedFacts();
    var links := REPLACED[Req(8, 0, 0)];
    assert LineId(5, 2) in links && ProperLinks(rows', Req(8, 0, 0), links);
    assert Fits(rows', {SOURCE}, {7, 8}, REPLACED);
    assert Cascade(PLANNED.reqs[SOURCE], rows') == map[];
  }

  /** The second read would have stopped both. */
  lemma TheRecheckStopsThem(work: Work, products: set<nat>)
    requires work == EDITING || work == CANCELING
    ensures !Enabled(Everywhere, Overtaking(work, products), Verify(1))
  {
    var db := Overtaking(work, products);
    PlannedFacts();
    assert LineId(5, 1) in db.reqs[SOURCE] && Touches(db.rows, work, LineId(5, 1));
    assert TouchesReq(db, work, SOURCE);
  }
}
