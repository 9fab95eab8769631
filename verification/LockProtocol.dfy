/** Interleaved transactions under READ COMMITTED. Every workflow on orders discovers the orders it may
    touch without locks, locks them in id order, reads its own order and its active-run protection, locks
    its products in id order, looks again, and only then works and commits. Starting a run locks its
    product and no order. What the second look found stays true until the commit; what the first read of
    protection found need not, and the module says exactly when it does. */
module LockProtocol {

  datatype Kind = DraftRow | LiveRow | ClosedRow

  datatype Terms = Terms(product: nat, quantity: nat)

  /** A committed order: whether it is Confirmed or Ready, its date and its product lines. */
  datatype Row = Row(kind: Kind, date: int, lines: map<nat, Terms>)

  datatype LineId = LineId(order: nat, index: nat)

  datatype Req = Req(product: nat, date: int, serial: nat)

  /** The lines a requirement is linked to, with the quantity each link carries. */
  type Links = map<LineId, nat>

  datatype Work =
    | Confirm(order: nat)
    | Edit(order: nat, date: int, lines: map<nat, Terms>)
    | Cancel(order: nat)
    | Complete(order: nat)
    | SaveDraft(order: nat, date: int, lines: map<nat, Terms>)
    | OnProduct(product: nat)
    | Start(req: Req)
    | EndRun(req: Req)

  datatype Stage = LockingOrders | LockingProducts | Verified

  /** `wanted` is what discovery returned; `orders` and `products` are the rows held. `started` is history:
      the requirements whose runs were started since this transaction read its protection. */
  datatype Tx = Tx(
    work: Work, stage: Stage, wanted: set<nat>, orders: set<nat>, needed: set<nat>, products: set<nat>,
    started: set<Req>)

  /** `active`: the requirements behind a run in production. */
  datatype Db = Db(rows: map<nat, Row>, reqs: map<Req, Links>, active: set<Req>, txs: map<nat, Tx>)

  /** Who reads active-run protection again once its products are locked: Complete alone, as the workflows
      are written, or all three that depend on it. */
  datatype Policy = AsWritten | Everywhere

  function ProductsOf(rows: map<nat, Row>, o: nat): set<nat> {
    if o in rows then set i | i in rows[o].lines :: rows[o].lines[i].product else {}
  }

  function Candidates(rows: map<nat, Row>, products: set<nat>): set<nat> {
    set o | o in rows && rows[o].kind == LiveRow && ProductsOf(rows, o) * products != {}
  }

  predicate OnOrder(work: Work) { !work.OnProduct? && !work.Start? && !work.EndRun? }

  function Addressed(work: Work): set<nat> { if OnOrder(work) then {work.order} else {} }

  /** What the addressed order must be, read again under its lock. */
  predicate Admissible(rows: map<nat, Row>, work: Work) {
    match work
    case Confirm(o) => o in rows && rows[o].kind == DraftRow
    case Edit(o, _, _) => o in rows && rows[o].kind == LiveRow
    case Cancel(o) => o in rows && rows[o].kind == LiveRow
    case Complete(o) => o in rows && rows[o].kind == LiveRow
    case SaveDraft(o, _, _) => o !in rows || rows[o].kind == DraftRow
    case _ => true
  }

  function ProductsIn(lines: map<nat, Terms>): set<nat> { set i | i in lines :: lines[i].product }

  /** The products to lock: those of the order's lines under its lock, and those it is moved to. */
  function Needed(rows: map<nat, Row>, work: Work): set<nat> {
    match work
    case Edit(o, _, lines) => ProductsOf(rows, o) + ProductsIn(lines)
    case SaveDraft(_, _, _) => {}
    case OnProduct(p) => {p}
    case Start(r) => {r.product}
    case EndRun(r) => {r.product}
    case _ => ProductsOf(rows, work.order)
  }

  // ---- active-run protection ----

  /** The workflows an active run can forbid. */
  predicate Restrained(work: Work) { work.Edit? || work.Cancel? || work.Complete? }

  predicate Repeats(policy: Policy, work: Work) { work.Complete? || (policy.Everywhere? && Restrained(work)) }

  /** The commit removes the line, changes its terms or its date, or closes its order. */
  predicate Touches(rows: map<nat, Row>, work: Work, l: LineId) {
    match work
    case Cancel(o) => l.order == o
    case Complete(o) => l.order == o
    case Edit(o, date, lines) =>
      l.order == o && o in rows
      && (date != rows[o].date || l.index !in lines || l.index !in rows[o].lines
        || lines[l.index] != rows[o].lines[l.index])
    case _ => false
  }

  predicate TouchesReq(db: Db, work: Work, r: Req) {
    r in db.reqs && exists l :: l in db.reqs[r] && Touches(db.rows, work, l)
  }

  /** Requirements of the order's products. */
  predicate Concerns(rows: map<nat, Row>, work: Work, r: Req) {
    Restrained(work) && r.product in ProductsOf(rows, work.order)
  }

  /** No line behind an active run would be touched: what the protection check establishes. */
  predicate Spared(db: Db, work: Work) {
    forall r :: r in db.active && Concerns(db.rows, work, r) ==> !TouchesReq(db, work, r)
  }

  // ---- writing ----

  function Write(rows: map<nat, Row>, work: Work): map<nat, Row>
    requires Admissible(rows, work)
  {
    match work
    case Confirm(o) => rows[o := rows[o].(kind := LiveRow)]
    case Edit(o, date, lines) => rows[o := Row(LiveRow, date, lines)]
    case Cancel(o) => rows[o := rows[o].(kind := ClosedRow)]
    case Complete(o) => rows[o := rows[o].(kind := ClosedRow)]
    case SaveDraft(o, date, lines) => rows[o := Row(DraftRow, date, lines)]
    case _ => rows
  }

  function ActiveAfter(active: set<Req>, work: Work): set<Req> {
    match work
    case Start(r) => active + {r}
    case EndRun(r) => active - {r}
    case _ => active
  }

  /** The products whose requirements the commit rebuilds. */
  function Scope(tx: Tx): set<nat> { if tx.work.Start? then {} else tx.needed }

  /** Deleting a line deletes its links. */
  function Cascade(links: Links, rows: map<nat, Row>): Links {
    map l | l in links && l.order in rows && l.index in rows[l.order].lines :: links[l]
  }

  predicate ProperLink(rows: map<nat, Row>, r: Req, l: LineId, quantity: nat) {
    && l.order in rows && rows[l.order].kind == LiveRow && rows[l.order].date == r.date
    && l.index in rows[l.order].lines && rows[l.order].lines[l.index] == Terms(r.product, quantity)
  }

  /** A requirement has a line, and every link is to a line of a live order on its terms. */
  predicate ProperLinks(rows: map<nat, Row>, r: Req, links: Links) {
    links != map[] && forall l :: l in links ==> ProperLink(rows, r, l, links[l])
  }

  /** A rebuild replaces what no run protects, with requirements that fit the rows it leaves. */
  predicate Fits(rows: map<nat, Row>, active: set<Req>, scope: set<nat>, rebuilt: map<Req, Links>) {
    forall r :: r in rebuilt ==> r.product in scope && r !in active && ProperLinks(rows, r, rebuilt[r])
  }

  function Rebuild(
      reqs: map<Req, Links>, rows: map<nat, Row>, active: set<Req>, scope: set<nat>, rebuilt: map<Req, Links>):
    map<Req, Links>
  {
    (map r | r in reqs && (r in active || r.product !in scope) :: Cascade(reqs[r], rows)) + rebuilt
  }

  // ---- events ----

  datatype Event =
    | Begin(t: nat, work: Work, discovered: set<nat>)
    | TakeOrder(t: nat, row: nat)
    | Reread(t: nat)
    | TakeProduct(t: nat, row: nat)
    | Verify(t: nat)
    | Commit(t: nat, rebuilt: map<Req, Links>)
    | Rollback(t: nat)

  predicate OrderFree(db: Db, t: nat, o: nat) { forall u :: u in db.txs && u != t ==> o !in db.txs[u].orders }

  predicate ProductFree(db: Db, t: nat, p: nat) { forall u :: u in db.txs && u != t ==> p !in db.txs[u].products }

  predicate IsNext(x: nat, wanted: set<nat>, held: set<nat>) {
    x in wanted - held && forall y :: y in wanted - held ==> x <= y
  }

  /** What the second look asks, under all locks. */
  predicate SecondLook(policy: Policy, db: Db, tx: Tx) {
    match tx.work
    case Start(r) => r in db.reqs && r !in db.active
    case EndRun(r) => r in db.active && Candidates(db.rows, tx.needed) <= tx.orders
    case _ => Candidates(db.rows, tx.needed) <= tx.orders && (Repeats(policy, tx.work) ==> Spared(db, tx.work))
  }

  /** When the event can happen. Discovery may return anything: it reads without locks, over several
      statements, and may be stale when it is used. */
  predicate Enabled(policy: Policy, db: Db, e: Event) {
    match e
    case Begin(t, work, discovered) => t !in db.txs && Addressed(work) <= discovered
    case TakeOrder(t, o) =>
      t in db.txs && db.txs[t].stage == LockingOrders && IsNext(o, db.txs[t].wanted, db.txs[t].orders)
        && OrderFree(db, t, o)
    case Reread(t) =>
      t in db.txs && db.txs[t].stage == LockingOrders && db.txs[t].wanted <= db.txs[t].orders
      && Admissible(db.rows, db.txs[t].work) && Spared(db, db.txs[t].work)
    case TakeProduct(t, p) =>
      t in db.txs && db.txs[t].stage == LockingProducts && IsNext(p, db.txs[t].needed, db.txs[t].products)
        && ProductFree(db, t, p)
    case Verify(t) =>
      t in db.txs && db.txs[t].stage == LockingProducts && db.txs[t].needed <= db.txs[t].products
      && SecondLook(policy, db, db.txs[t])
    case Commit(t, rebuilt) =>
      t in db.txs && db.txs[t].stage == Verified && Admissible(db.rows, db.txs[t].work)
      && Fits(Write(db.rows, db.txs[t].work), ActiveAfter(db.active, db.txs[t].work), Scope(db.txs[t]), rebuilt)
    case Rollback(t) => t in db.txs
  }

  /** A transaction past its protection check, when `work` commits. */
  function Noted(tx: Tx, work: Work): Tx {
    if work.Start? && tx.stage != LockingOrders then tx.(started := tx.started + {work.req}) else tx
  }

  function Committed(db: Db, t: nat, rebuilt: map<Req, Links>): Db
    requires t in db.txs && Admissible(db.rows, db.txs[t].work)
  {
    var tx := db.txs[t];
    var rows, active := Write(db.rows, tx.work), ActiveAfter(db.active, tx.work);
    Db(rows, Rebuild(db.reqs, rows, active, Scope(tx), rebuilt), active,
      map u | u in db.txs && u != t :: Noted(db.txs[u], tx.work))
  }

  function Step(policy: Policy, db: Db, e: Event): Db {
    if !Enabled(policy, db, e) then db
    else
      match e
      case Begin(t, work, discovered) => db.(txs := db.txs[t := Tx(work, LockingOrders, discovered, {}, {}, {}, {})])
      case TakeOrder(t, o) => db.(txs := db.txs[t := db.txs[t].(orders := db.txs[t].orders + {o})])
      case Reread(t) =>
        db.(txs := db.txs[t :=
          db.txs[t].(stage := LockingProducts, needed := Needed(db.rows, db.txs[t].work), started := {})])
      case TakeProduct(t, p) => db.(txs := db.txs[t := db.txs[t].(products := db.txs[t].products + {p})])
      case Verify(t) => db.(txs := db.txs[t := db.txs[t].(stage := Verified)])
      case Commit(t, rebuilt) => Committed(db, t, rebuilt)
      case Rollback(t) => db.(txs := db.txs - {t})
  }

  function Run(policy: Policy, db: Db, events: seq<Event>): Db {
    if events == [] then db else Step(policy, Run(policy, db, events[..|events| - 1]), events[|events| - 1])
  }

  // ---- the invariant ----

  /** No row is locked twice. */
  ghost predicate Exclusive(db: Db) {
    forall t, u :: t in db.txs && u in db.txs && t != u ==>
      db.txs[t].orders !! db.txs[u].orders && db.txs[t].products !! db.txs[u].products
  }

  /** Past its order locks, what a transaction read about its own order is still so. */
  ghost predicate Grounded(db: Db, t: nat)
    requires t in db.txs
  {
    var tx := db.txs[t];
    && Addressed(tx.work) <= tx.wanted
    && (tx.stage != LockingOrders ==>
          Addressed(tx.work) <= tx.orders && Admissible(db.rows, tx.work) && tx.needed == Needed(db.rows, tx.work))
  }

  /** Past verification, what the second look found is still so. */
  ghost predicate Covered(policy: Policy, db: Db, t: nat)
    requires t in db.txs
  {
    var tx := db.txs[t];
    tx.stage == Verified ==> tx.needed <= tx.products && SecondLook(policy, db, tx)
  }

  /** Past its protection check: a run behind a line it would touch was started since, and every run
      started since on its order's products is still active. */
  ghost predicate Watched(db: Db, t: nat)
    requires t in db.txs
  {
    var tx := db.txs[t];
    tx.stage != LockingOrders ==>
      && (forall r :: r in db.active && Concerns(db.rows, tx.work, r) && TouchesReq(db, tx.work, r) ==> r in tx.started)
      && (forall r :: r in tx.started && Concerns(db.rows, tx.work, r) ==> r in db.active)
  }

  ghost predicate Safe(policy: Policy, db: Db) {
    Exclusive(db) && forall t :: t in db.txs ==> Grounded(db, t) && Covered(policy, db, t) && Watched(db, t)
  }

  // ---- what a commit leaves alone ----

  /** A commit changes at most its own order's row. */
  lemma WritesOwnRow(rows: map<nat, Row>, work: Work, o: nat)
    requires Admissible(rows, work) && o !in Addressed(work)
    ensures (o in Write(rows, work) <==> o in rows) && (o in rows ==> Write(rows, work)[o] == rows[o])
  {
  }

  /** The order it writes is live, before or after, only for products the transaction needed. */
  lemma WritesNeededProducts(rows: map<nat, Row>, work: Work, o: nat)
    requires Admissible(rows, work) && o in Addressed(work)
    ensures o in rows && rows[o].kind == LiveRow ==> ProductsOf(rows, o) <= Needed(rows, work)
    ensures o in Write(rows, work) && Write(rows, work)[o].kind == LiveRow ==>
      ProductsOf(Write(rows, work), o) <= Needed(rows, work)
  {
  }

  lemma SameRowSameProducts(rows: map<nat, Row>, rows': map<nat, Row>, o: nat)
    requires (o in rows' <==> o in rows) && (o in rows ==> rows'[o] == rows[o])
    ensures ProductsOf(rows', o) == ProductsOf(rows, o)
  {
  }

  lemma WriteKeepsCandidates(rows: map<nat, Row>, work: Work, products: set<nat>)
    requires Admissible(rows, work) && products !! Needed(rows, work)
    ensures Candidates(Write(rows, work), products) == Candidates(rows, products)
  {
    hide Admissible, Needed, Write, ProductsOf;
    var rows' := Write(rows, work);
    forall o ensures o in Candidates(rows', products) <==> o in Candidates(rows, products) {
      if o in Addressed(work) {
        WritesNeededProducts(rows, work, o);
      } else {
        WritesOwnRow(rows, work, o);
        SameRowSameProducts(rows, rows', o);
      }
    }
  }

  /** What the commit of `u` leaves alone for another transaction: the orders it holds, and the demand,
      the requirements and the runs of the products it holds. */
  lemma CommitSparesOthers(policy: Policy, db: Db, u: nat, rebuilt: map<Req, Links>, t: nat)
    requires Safe(policy, db) && Enabled(policy, db, Commit(u, rebuilt)) && t in db.txs && u != t
    ensures
      var db' := Committed(db, u, rebuilt);
      && (forall o :: o in db.txs[t].orders ==>
        (o in db'.rows <==> o in db.rows) && (o in db.rows ==> db'.rows[o] == db.rows[o]))
      && (forall products :: products <= db.txs[t].products ==>
        Candidates(db'.rows, products) == Candidates(db.rows, products))
      && (forall r: Req :: r.product in db.txs[t].products ==> (r in db'.active <==> r in db.active))
      && (forall r: Req :: r.product in db.txs[t].products ==> (r in db'.reqs <==> r in db.reqs))
  {
    assert Grounded(db, u) && Covered(policy, db, u);
    var work := db.txs[u].work;
    hide Admissible, Needed, Write, ProductsOf, Candidates, SecondLook, Fits;
    forall o | o in db.txs[t].orders
      ensures (o in Committed(db, u, rebuilt).rows <==> o in db.rows)
        && (o in db.rows ==> Committed(db, u, rebuilt).rows[o] == db.rows[o])
    {
      WritesOwnRow(db.rows, work, o);
    }
    forall products | products <= db.txs[t].products
      ensures Candidates(Committed(db, u, rebuilt).rows, products) == Candidates(db.rows, products)
    {
      WriteKeepsCandidates(db.rows, work, products);
    }
    RunsNeedTheirProduct(db.rows, work);
    RebuildStaysInScope(db, u, rebuilt);
  }

  lemma RunsNeedTheirProduct(rows: map<nat, Row>, work: Work)
    ensures work.Start? || work.EndRun? ==> work.req.product in Needed(rows, work)
  {
  }

  /** Requirements outside the scope stay, with at most fewer links. */
  lemma RebuildStaysInScope(db: Db, u: nat, rebuilt: map<Req, Links>)
    requires u in db.txs && Admissible(db.rows, db.txs[u].work)
    requires Fits(Write(db.rows, db.txs[u].work), ActiveAfter(db.active, db.txs[u].work), Scope(db.txs[u]), rebuilt)
    ensures forall r: Req :: r.product !in Scope(db.txs[u]) ==>
      (r in Committed(db, u, rebuilt).reqs <==> r in db.reqs)
      && (r in db.reqs ==> Committed(db, u, rebuilt).reqs[r] == Cascade(db.reqs[r], Write(db.rows, db.txs[u].work)))
  {
    hide Admissible, Write, ActiveAfter, Scope, Cascade, ProperLinks;
  }

  lemma SameOwnRow(rows: map<nat, Row>, rows': map<nat, Row>, work: Work)
    requires forall o :: o in Addressed(work) ==> (o in rows' <==> o in rows) && (o in rows ==> rows'[o] == rows[o])
    ensures Admissible(rows', work) <==> Admissible(rows, work)
    ensures Needed(rows', work) == Needed(rows, work)
    ensures forall l :: Touches(rows', work, l) <==> Touches(rows, work, l)
    ensures forall r :: Concerns(rows', work, r) <==> Concerns(rows, work, r)
  {
  }

  /** A transaction that rebuilds a product of a live order holds that order: it cannot commit while
      another transaction holds it. */
  lemma NobodyElseRebuilds(policy: Policy, db: Db, u: nat, t: nat, r: Req)
    requires Safe(policy, db) && t in db.txs && u in db.txs && u != t && db.txs[u].stage == Verified
    requires db.txs[t].stage != LockingOrders && Concerns(db.rows, db.txs[t].work, r)
    ensures r.product !in Scope(db.txs[u])
    ensures db.txs[u].work.EndRun? ==> db.txs[u].work.req != r
  {
    assert Grounded(db, t) && Grounded(db, u) && Covered(policy, db, u);
    var o := db.txs[t].work.order;
    assert o in db.txs[t].orders && o in db.rows && db.rows[o].kind == LiveRow;
    if r.product in db.txs[u].needed {
      assert r.product in ProductsOf(db.rows, o) * db.txs[u].needed;
      assert o in Candidates(db.rows, db.txs[u].needed);
    }
  }

  lemma FewerLinks(db: Db, db': Db, work: Work, r: Req)
    requires forall l :: Touches(db'.rows, work, l) <==> Touches(db.rows, work, l)
    requires r in db'.reqs ==> r in db.reqs && forall l :: l in db'.reqs[r] ==> l in db.reqs[r]
    ensures TouchesReq(db', work, r) ==> TouchesReq(db, work, r)
  {
  }

  lemma CascadeDrops(links: Links, rows: map<nat, Row>)
    ensures forall l :: l in Cascade(links, rows) ==> l in links
  {
  }

  /** What another commit does to the requirements of a held, restrained order: at most it starts a run. */
  lemma CommitSparesOrder(policy: Policy, db: Db, u: nat, rebuilt: map<Req, Links>, t: nat, r: Req)
    requires Safe(policy, db) && Enabled(policy, db, Commit(u, rebuilt)) && t in db.txs && u != t
    requires db.txs[t].stage != LockingOrders && Concerns(db.rows, db.txs[t].work, r)
    ensures
      var db' := Committed(db, u, rebuilt);
      && (TouchesReq(db', db.txs[t].work, r) ==> TouchesReq(db, db.txs[t].work, r))
      && (r in db'.active <==> r in db.active || db.txs[u].work == Start(r))
  {
    hide Admissible, Needed, Write, SecondLook, Fits, TouchesReq, Cascade, Touches, Concerns;
    var db' := Committed(db, u, rebuilt);
    assert Grounded(db, t);
    NobodyElseRebuilds(policy, db, u, t, r);
    CommitSparesOthers(policy, db, u, rebuilt, t);
    SameOwnRow(db.rows, db'.rows, db.txs[t].work);
    RebuildStaysInScope(db, u, rebuilt);
    if r in db.reqs { CascadeDrops(db.reqs[r], Write(db.rows, db.txs[u].work)); }
    FewerLinks(db, db', db.txs[t].work, r);
  }

  // ---- the invariant is kept ----

  lemma StepKeepsExclusive(policy: Policy, db: Db, e: Event)
    requires Exclusive(db)
    ensures Exclusive(Step(policy, db, e))
  {
    hide Admissible, Needed, Write, IsNext, Candidates, SecondLook, Spared, Rebuild, ActiveAfter, Fits, Scope;
    var db' := Step(policy, db, e);
    forall t, v | t in db'.txs && v in db'.txs && t != v
      ensures db'.txs[t].orders !! db'.txs[v].orders && db'.txs[t].products !! db'.txs[v].products
    {
      assert t in db.txs && v in db.txs ==>
        db.txs[t].orders !! db.txs[v].orders && db.txs[t].products !! db.txs[v].products;
    }
  }

  /** Under its product locks nothing an active run forbids can come up any more. */
  lemma SparedStays(policy: Policy, db: Db, u: nat, rebuilt: map<Req, Links>, t: nat)
    requires Safe(policy, db) && Enabled(policy, db, Commit(u, rebuilt)) && t in db.txs && u != t
    requires db.txs[t].stage == Verified && Spared(db, db.txs[t].work)
    ensures Spared(Committed(db, u, rebuilt), db.txs[t].work)
  {
    hide Admissible, Write, SecondLook, Fits, TouchesReq, Touches, Candidates, Committed;
    var db', work := Committed(db, u, rebuilt), db.txs[t].work;
    assert Grounded(db, t) && Covered(policy, db, t);
    CommitSparesOthers(policy, db, u, rebuilt, t);
    SameOwnRow(db.rows, db'.rows, work);
    forall r | r in db'.active && Concerns(db'.rows, work, r) ensures !TouchesReq(db', work, r) {
      assert r.product in Needed(db.rows, work);
      CommitSparesOrder(policy, db, u, rebuilt, t, r);
    }
  }

  lemma CommitKeepsCovered(policy: Policy, db: Db, u: nat, rebuilt: map<Req, Links>, t: nat)
    requires Safe(policy, db) && Enabled(policy, db, Commit(u, rebuilt)) && t in db.txs && u != t
    ensures Covered(policy, Committed(db, u, rebuilt), t)
  {
    hide Admissible, Write, Fits, TouchesReq, Touches, Candidates, Spared, Rebuild, ActiveAfter;
    assert Grounded(db, t) && Covered(policy, db, t);
    CommitSparesOthers(policy, db, u, rebuilt, t);
    if db.txs[t].stage == Verified {
      RunsNeedTheirProduct(db.rows, db.txs[t].work);
      if Spared(db, db.txs[t].work) { SparedStays(policy, db, u, rebuilt, t); }
    }
  }

  lemma CommitKeepsWatched(policy: Policy, db: Db, u: nat, rebuilt: map<Req, Links>, t: nat)
    requires Safe(policy, db) && Enabled(policy, db, Commit(u, rebuilt)) && t in db.txs && u != t
    ensures Watched(Committed(db, u, rebuilt), t)
  {
    hide Admissible, Write, Fits, TouchesReq, Touches, Candidates, Spared, Rebuild, ActiveAfter, SecondLook, Needed;
    var db', work := Committed(db, u, rebuilt), db.txs[t].work;
    assert Grounded(db, t) && Watched(db, t);
    if db.txs[t].stage != LockingOrders {
      CommitSparesOthers(policy, db, u, rebuilt, t);
      SameOwnRow(db.rows, db'.rows, work);
      forall r | Concerns(db'.rows, work, r)
        ensures r in db'.active && TouchesReq(db', work, r) ==> r in db'.txs[t].started
        ensures r in db'.txs[t].started ==> r in db'.active
      {
        CommitSparesOrder(policy, db, u, rebuilt, t, r);
      }
    }
  }

  lemma CommitKeepsSafe(policy: Policy, db: Db, u: nat, rebuilt: map<Req, Links>)
    requires Safe(policy, db) && Enabled(policy, db, Commit(u, rebuilt))
    ensures
      var db' := Committed(db, u, rebuilt);
      forall t :: t in db'.txs ==> Grounded(db', t) && Covered(policy, db', t) && Watched(db', t)
  {
    hide Covered, Watched, Write, Fits, Rebuild, ActiveAfter, Scope, Admissible, Needed, Candidates;
    var db' := Committed(db, u, rebuilt);
    forall t | t in db'.txs ensures Grounded(db', t) && Covered(policy, db', t) && Watched(db', t) {
      assert Grounded(db, t);
      CommitSparesOthers(policy, db, u, rebuilt, t);
      CommitKeepsCovered(policy, db, u, rebuilt, t);
      CommitKeepsWatched(policy, db, u, rebuilt, t);
      if db.txs[t].stage != LockingOrders { SameOwnRow(db.rows, db'.rows, db.txs[t].work); }
    }
  }

  /** An event that writes nothing leaves every other transaction as it was. */
  lemma QuietStepSparesOthers(policy: Policy, db: Db, e: Event, t: nat)
    requires !e.Commit? && t in db.txs && (t != e.t || !Enabled(policy, db, e))
    ensures
      var db' := Step(policy, db, e);
      t in db'.txs && db'.txs[t] == db.txs[t] && db'.rows == db.rows && db'.reqs == db.reqs && db'.active == db.active
  {
    hide Admissible, Needed, IsNext, SecondLook, Spared, Committed, OrderFree, ProductFree;
  }

  lemma ActorStaysSafe(policy: Policy, db: Db, e: Event)
    requires Safe(policy, db) && Enabled(policy, db, e) && !e.Commit? && e.t in Step(policy, db, e).txs
    ensures
      var db' := Step(policy, db, e);
      Grounded(db', e.t) && Covered(policy, db', e.t) && Watched(db', e.t)
  {
    hide Admissible, Needed, Exclusive, Committed, Candidates, Concerns, TouchesReq, SecondLook, IsNext, OrderFree,
      ProductFree;
    if e.t in db.txs { assert Grounded(db, e.t) && Covered(policy, db, e.t) && Watched(db, e.t); }
    if e.Verify? { LookIsAboutRows(policy, db, e.t); }
    if e.t in db.txs { SameTouch(db, Step(policy, db, e), db.txs[e.t].work); }
  }

  lemma SameTouch(db: Db, db': Db, work: Work)
    requires db'.rows == db.rows && db'.reqs == db.reqs
    ensures forall r :: TouchesReq(db', work, r) <==> TouchesReq(db, work, r)
  {
  }

  lemma LookIsAboutRows(policy: Policy, db: Db, t: nat)
    requires t in db.txs
    ensures
      var verified := db.txs[t].(stage := Verified);
      SecondLook(policy, db.(txs := db.txs[t := verified]), verified) <==> SecondLook(policy, db, db.txs[t])
  {
    hide Candidates, Touches, Concerns;
  }

  lemma SameLook(policy: Policy, db: Db, db': Db, t: nat)
    requires t in db.txs && t in db'.txs && db'.txs[t] == db.txs[t]
    requires db'.rows == db.rows && db'.reqs == db.reqs && db'.active == db.active
    ensures Grounded(db, t) ==> Grounded(db', t)
    ensures Covered(policy, db, t) ==> Covered(policy, db', t)
    ensures Watched(db, t) ==> Watched(db', t)
  {
    hide Candidates, Touches, Concerns, Admissible, Needed;
  }

  lemma StepKeepsSafe(policy: Policy, db: Db, e: Event)
    requires Safe(policy, db)
    ensures Safe(policy, Step(policy, db, e))
  {
    StepKeepsExclusive(policy, db, e);
    var db' := Step(policy, db, e);
    if Enabled(policy, db, e) && e.Commit? {
      CommitKeepsSafe(policy, db, e.t, e.rebuilt);
    } else if Enabled(policy, db, e) {
      forall t | t in db'.txs ensures Grounded(db', t) && Covered(policy, db', t) && Watched(db', t) {
        hide Enabled, Step, Grounded, Covered, Watched, Exclusive;
        if t == e.t {
          ActorStaysSafe(policy, db, e);
        } else {
          OnlyBeginAdds(policy, db, e, t);
          QuietStepSparesOthers(policy, db, e, t);
          SameLook(policy, db, db', t);
        }
      }
    }
  }

  lemma OnlyBeginAdds(policy: Policy, db: Db, e: Event, t: nat)
    requires t in Step(policy, db, e).txs && t != e.t
    ensures t in db.txs
  {
    hide Admissible, Needed, IsNext, SecondLook, Spared, OrderFree, ProductFree;
  }

  /** Every interleaving from any committed rows with no transaction open. */
  lemma {:induction false} AlwaysSafe(policy: Policy, db: Db, events: seq<Event>)
    requires db.txs == map[]
    ensures Safe(policy, Run(policy, db, events))
  {
    if events != [] {
      AlwaysSafe(policy, db, events[..|events| - 1]);
      StepKeepsSafe(policy, Run(policy, db, events[..|events| - 1]), events[|events| - 1]);
    }
  }

  // ---- what it means for a workflow ----

  /** Soundness of discover, lock, verify: from its second look to its commit, in every interleaving, a
      transaction that recalculates holds every order that is live for its products. */
  lemma NoOrderJoinsUnderVerification(policy: Policy, db: Db, events: seq<Event>, t: nat)
    requires db.txs == map[] && t in Run(policy, db, events).txs && Run(policy, db, events).txs[t].stage == Verified
    requires !Run(policy, db, events).txs[t].work.Start?
    ensures
      var now := Run(policy, db, events);
      var tx := now.txs[t];
      && Candidates(now.rows, tx.needed) + Addressed(tx.work) <= tx.orders
      && tx.needed == Needed(now.rows, tx.work) && Admissible(now.rows, tx.work)
  {
    hide Candidates, Needed, Admissible;
    AlwaysSafe(policy, db, events);
    assert Grounded(Run(policy, db, events), t) && Covered(policy, Run(policy, db, events), t);
  }

  function Actor(e: Event): nat { e.t }

  /** Nothing a verified transaction has read moves under it: whatever another one does, the rows it
      holds, the orders competing for its products and the runs on them are the same after as before. */
  lemma NothingMovesUnderVerification(policy: Policy, db: Db, e: Event, t: nat)
    requires Safe(policy, db) && t in db.txs && db.txs[t].stage == Verified && Actor(e) != t
    ensures
      var db' := Step(policy, db, e);
      && t in db'.txs && db'.txs[t] == db.txs[t].(started := db'.txs[t].started)
      && (forall o :: o in db.txs[t].orders ==>
        (o in db'.rows <==> o in db.rows) && (o in db.rows ==> db'.rows[o] == db.rows[o]))
      && Candidates(db'.rows, db.txs[t].needed) == Candidates(db.rows, db.txs[t].needed)
      && (forall r: Req :: r.product in db.txs[t].needed ==>
        (r in db'.active <==> r in db.active) && (r in db'.reqs <==> r in db.reqs))
  {
    hide Admissible, Needed, Write, Candidates, Fits, SecondLook, Spared, Rebuild, ActiveAfter, Scope;
    assert Covered(policy, db, t);
    if Enabled(policy, db, e) && e.Commit? { CommitSparesOthers(policy, db, e.t, e.rebuilt, t); }
  }

  /** Two transactions past verification work on different products and different orders. */
  lemma CriticalSectionsAreApart(policy: Policy, db: Db, events: seq<Event>, t: nat, u: nat)
    requires db.txs == map[] && t != u && t in Run(policy, db, events).txs && u in Run(policy, db, events).txs
    requires Run(policy, db, events).txs[t].stage == Verified && Run(policy, db, events).txs[u].stage == Verified
    ensures Run(policy, db, events).txs[t].needed !! Run(policy, db, events).txs[u].needed
    ensures Run(policy, db, events).txs[t].orders !! Run(policy, db, events).txs[u].orders
  {
    hide Candidates, Needed, Admissible, SecondLook;
    var now := Run(policy, db, events);
    AlwaysSafe(policy, db, events);
    assert Covered(policy, now, t) && Covered(policy, now, u);
  }

  // ---- why the second look is needed ----

  const CONFIRMING: seq<Event> := [
    Begin(1, OnProduct(7), {}), Begin(2, Confirm(5), {5}), TakeOrder(2, 5), Reread(2), TakeProduct(2, 7), Verify(2),
    Commit(2, map[]), Reread(1), TakeProduct(1, 7)]

  const BEFORE: Db := Db(map[5 := Row(DraftRow, 0, map[1 := Terms(7, 3)])], map[], {}, map[])
  const WAITING: Tx := Tx(OnProduct(7), LockingOrders, {}, {}, {}, {}, {})
  const CONFIRMED: Tx := Tx(Confirm(5), LockingProducts, {5}, {5}, {7}, {7}, {})

  lemma BothBegin(policy: Policy)
    ensures Run(policy, BEFORE, CONFIRMING[..2])
      == BEFORE.(txs := map[1 := WAITING, 2 := Tx(Confirm(5), LockingOrders, {5}, {}, {}, {}, {})])
  {
    hide Fits, Committed, Candidates, SecondLook, Needed;
    RunOne(policy, BEFORE, CONFIRMING, 0);
    RunOne(policy, BEFORE, CONFIRMING, 1);
  }

  lemma ConfirmationReads(policy: Policy)
    ensures Run(policy, BEFORE, CONFIRMING[..4]) == BEFORE.(txs := map[1 := WAITING, 2 := CONFIRMED.(products := {})])
  {
    hide Fits, Committed, Candidates, SecondLook;
    BothBegin(policy);
    RunOne(policy, BEFORE, CONFIRMING, 2);
    var two := Tx(Confirm(5), LockingOrders, {5}, {5}, {}, {}, {});
    assert {} + {5} == {5};
    assert Run(policy, BEFORE, CONFIRMING[..3]) == BEFORE.(txs := map[1 := WAITING, 2 := two]);
    RunOne(policy, BEFORE, CONFIRMING, 3);
    assert ProductsOf(BEFORE.rows, 5) == {7} by { assert BEFORE.rows[5].lines[1] == Terms(7, 3); }
  }

  lemma ConfirmationGetsItsLocks(policy: Policy)
    ensures Run(policy, BEFORE, CONFIRMING[..5]) == BEFORE.(txs := map[1 := WAITING, 2 := CONFIRMED])
  {
    hide Fits, Committed, Candidates, SecondLook, Needed;
    ConfirmationReads(policy);
    RunOne(policy, BEFORE, CONFIRMING, 4);
    assert {} + {7} == {7};
  }

  const AFTERWARDS: Db := Db(map[5 := Row(LiveRow, 0, map[1 := Terms(7, 3)])], map[], {}, map[1 := WAITING])

  lemma ConfirmationVerifies(policy: Policy)
    ensures Run(policy, BEFORE, CONFIRMING[..6])
      == BEFORE.(txs := map[1 := WAITING, 2 := CONFIRMED.(stage := Verified)])
  {
    hide Fits, Committed;
    ConfirmationGetsItsLocks(policy);
    RunOne(policy, BEFORE, CONFIRMING, 5);
    assert Candidates(BEFORE.rows, {7}) == {};
  }

  lemma ConfirmationCommits(policy: Policy)
    ensures Run(policy, BEFORE, CONFIRMING[..7]) == AFTERWARDS
  {
    hide Candidates;
    ConfirmationVerifies(policy);
    RunOne(policy, BEFORE, CONFIRMING, 6);
    assert Committed(BEFORE.(txs := map[1 := WAITING, 2 := CONFIRMED.(stage := Verified)]), 2, map[]) == AFTERWARDS;
  }

  /** A restock discovers no order, a confirmation commits, the restock locks the product: it now holds
      every lock it asked for and yet misses the new order. Only the second look stops it. */
  lemma DiscoveryAloneIsNotEnough(policy: Policy)
    ensures
      var now := Run(policy, BEFORE, CONFIRMING);
      && 1 in now.txs && now.txs[1].stage == LockingProducts && now.txs[1].needed == now.txs[1].products == {7}
      && 5 in Candidates(now.rows, {7}) && 5 !in now.txs[1].orders
      && !Enabled(policy, now, Verify(1))
  {
    hide Committed, Fits;
    ConfirmationCommits(policy);
    RunOne(policy, BEFORE, CONFIRMING, 7);
    var looking := WAITING.(stage := LockingProducts, needed := {7});
    assert Run(policy, BEFORE, CONFIRMING[..8]) == AFTERWARDS.(txs := map[1 := looking]);
    RunOne(policy, BEFORE, CONFIRMING, 8);
    assert Enabled(policy, Run(policy, BEFORE, CONFIRMING[..8]), TakeProduct(1, 7));
    assert {} + {7} == {7};
    assert CONFIRMING[..9] == CONFIRMING;
    assert ProductsOf(AFTERWARDS.rows, 5) == {7};
    assert 7 in {7} * {7};
  }

  lemma RunOne(policy: Policy, db: Db, events: seq<Event>, n: nat)
    requires n < |events|
    ensures Run(policy, db, events[..n + 1]) == Step(policy, Run(policy, db, events[..n]), events[n])
    ensures n == 0 ==> Run(policy, db, events[..n]) == db
  {
    assert events[..n + 1][..n] == events[..n];
  }
}
