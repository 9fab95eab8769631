/** The planning database of one business: orders and their lines, produced output, surplus lots and
    production runs (the world), and per product the projection that recalculation rebuilds. Ids
    are naturals, quantities integer micro-units, dates day numbers. */
module PlanningState {
  import opened Sorting

  datatype Status = Draft | Confirmed | Ready | Completed | Canceled

  datatype Order = Order(status: Status, date: Option<int>, time: Option<nat>)

  datatype Source = OfProduct(productId: nat) | CustomItem(required: bool, satisfied: bool)

  datatype Line = Line(orderId: nat, source: Source, quantity: nat)

  /** A recipe revision: output per batch and canonical ingredient quantity per batch. */
  datatype Revision = Revision(productId: nat, perBatch: nat, ingredients: map<nat, nat>)

  datatype Product = Produced(current: Option<nat>, reusable: bool, usableDays: Option<nat>) | Purchased

  datatype Lot = Lot(productId: nat, physical: int, usableThrough: Option<int>, producedAt: int, reusable: bool)

  datatype DemandKey = DemandKey(productId: nat, revision: Option<nat>, date: int)

  /** The fresh id of the requirement created for `key` by recalculation number `generation`. */
  datatype ReqId = ReqId(key: DemandKey, generation: nat)

  datatype RunStatus = InProduction | Finished | Stopped

  datatype Run = Run(source: ReqId, productId: nat, revision: nat, status: RunStatus, planned: map<nat, nat>)

  /** Output of a finished run given to an order line; never changed or removed. */
  datatype Output = Output(runId: nat, lineId: nat, quantity: nat)

  datatype World = World(
    products: map<nat, Product>, revisions: map<nat, Revision>, orders: map<nat, Order>, lines: map<nat, Line>,
    lots: map<nat, Lot>, outputs: seq<Output>, runs: map<nat, Run>)

  datatype Batches = Batches(batches: nat, output: nat, excess: int)

  /** `plan` is absent when no recipe revision applies. */
  datatype Requirement = Requirement(demand: nat, surplus: nat, remaining: nat, plan: Option<Batches>)

  datatype Link = Link(req: ReqId, lineId: nat, quantity: nat)

  datatype SurplusRow = SurplusRow(req: ReqId, lotId: nat, lineId: nat, quantity: nat)

  /** An ingredient reservation. */
  datatype Claim = Claim(req: ReqId, ingredientId: nat, quantity: nat)

  /** A purchased-product reservation. */
  datatype Reservation = Reservation(lineId: nat, quantity: nat)

  /** Everything recalculation owns for one product. */
  datatype Closure = Closure(
    reqs: map<ReqId, Requirement>, links: set<Link>, rows: seq<SurplusRow>, claims: set<Claim>,
    reservations: set<Reservation>)

  const EMPTY := Closure(map[], {}, [], {}, {})

  // ---- demand ----

  predicate Live(w: World, orderId: nat) {
    orderId in w.orders && (w.orders[orderId].status == Confirmed || w.orders[orderId].status == Ready)
  }

  predicate LiveLine(w: World, lineId: nat, productId: nat) {
    lineId in w.lines && w.lines[lineId].source == OfProduct(productId) && Live(w, w.lines[lineId].orderId)
  }

  predicate ReadyLine(w: World, lineId: nat, productId: nat) {
    LiveLine(w, lineId, productId) && w.orders[w.lines[lineId].orderId].status == Ready
  }

  /** Requirements behind a run that is in production. */
  function Protected(w: World): set<ReqId> {
    set r | r in w.runs && w.runs[r].status == InProduction :: w.runs[r].source
  }

  function LockedLines(c: Closure, w: World): set<nat> {
    set k | k in c.links && k.req in Protected(w) :: k.lineId
  }

  function ProducedFor(outputs: seq<Output>, lineId: nat): nat {
    if outputs == [] then 0
    else
      var last := outputs[|outputs| - 1];
      ProducedFor(outputs[..|outputs| - 1], lineId) + if last.lineId == lineId then last.quantity else 0
  }

  /** What a line still lacks once finished output is counted. */
  function StillOpen(w: World, lineId: nat): nat
    requires lineId in w.lines
  {
    var open := w.lines[lineId].quantity - ProducedFor(w.outputs, lineId);
    if open > 0 then open else 0
  }

  // ---- surplus rows ----

  function OnLot(rows: seq<SurplusRow>, lotId: nat): nat {
    if rows == [] then 0
    else
      var last := rows[|rows| - 1];
      OnLot(rows[..|rows| - 1], lotId) + if last.lotId == lotId then last.quantity else 0
  }

  function OnLine(rows: seq<SurplusRow>, lineId: nat): nat {
    if rows == [] then 0
    else
      var last := rows[|rows| - 1];
      OnLine(rows[..|rows| - 1], lineId) + if last.lineId == lineId then last.quantity else 0
  }

  function OnReq(rows: seq<SurplusRow>, req: ReqId): nat {
    if rows == [] then 0
    else
      var last := rows[|rows| - 1];
      OnReq(rows[..|rows| - 1], req) + if last.req == req then last.quantity else 0
  }

  /** The rows that are among `which`, in order. */
  function Pick(rows: seq<SurplusRow>, which: set<SurplusRow>): seq<SurplusRow> {
    if rows == [] then []
    else
      var last := rows[|rows| - 1];
      Pick(rows[..|rows| - 1], which) + if last in which then [last] else []
  }

  lemma {:induction false} SumsConcat(a: seq<SurplusRow>, b: seq<SurplusRow>, id: nat, req: ReqId)
    ensures OnLot(a + b, id) == OnLot(a, id) + OnLot(b, id)
    ensures OnLine(a + b, id) == OnLine(a, id) + OnLine(b, id)
    ensures OnReq(a + b, req) == OnReq(a, req) + OnReq(b, req)
  {
    if b == [] {
      assert a + b == a;
    } else {
      SumsConcat(a, b[..|b| - 1], id, req);
      assert (a + b)[..|a + b| - 1] == a + b[..|b| - 1];
    }
  }

  lemma {:induction false} PickMembers(rows: seq<SurplusRow>, which: set<SurplusRow>, x: SurplusRow)
    ensures x in Pick(rows, which) <==> x in rows && x in which
  {
    if rows != [] {
      var n := |rows| - 1;
      PickMembers(rows[..n], which, x);
      assert rows == rows[..n] + [rows[n]];
    }
  }

  /** Splitting rows in two splits every sum. */
  lemma {:induction false} PickSplits(
      rows: seq<SurplusRow>, a: set<SurplusRow>, b: set<SurplusRow>, id: nat, req: ReqId)
    requires a !! b && forall x :: x in rows ==> x in a + b
    ensures OnLot(rows, id) == OnLot(Pick(rows, a), id) + OnLot(Pick(rows, b), id)
    ensures OnLine(rows, id) == OnLine(Pick(rows, a), id) + OnLine(Pick(rows, b), id)
    ensures OnReq(rows, req) == OnReq(Pick(rows, a), req) + OnReq(Pick(rows, b), req)
  {
    if rows != [] {
      var n := |rows| - 1;
      PickSplits(rows[..n], a, b, id, req);
      OneRow(Pick(rows[..n], a), rows[n], rows[n] in a, id, req);
      OneRow(Pick(rows[..n], b), rows[n], rows[n] in b, id, req);
      assert rows[n] in rows;
    }
  }

  lemma OneRow(rows: seq<SurplusRow>, row: SurplusRow, taken: bool, id: nat, req: ReqId)
    ensures OnLot(rows + (if taken then [row] else []), id) == OnLot(rows, id) + if taken && row.lotId == id
      then row.quantity else 0
    ensures OnLine(rows + (if taken then [row] else []), id) == OnLine(rows, id) + if taken && row.lineId == id
      then row.quantity else 0
    ensures OnReq(rows + (if taken then [row] else []), req) == OnReq(rows, req) + if taken && row.req == req
      then row.quantity else 0
  {
    assert taken ==> (rows + [row])[..|rows|] == rows;
    assert !taken ==> rows + [] == rows;
  }

  lemma {:induction false} NoneOnLine(rows: seq<SurplusRow>, id: nat)
    requires forall x :: x in rows ==> x.lineId != id
    ensures OnLine(rows, id) == 0
  {
    if rows != [] {
      assert rows[|rows| - 1] in rows;
      NoneOnLine(rows[..|rows| - 1], id);
    }
  }

  lemma {:induction false} NoneOnLot(rows: seq<SurplusRow>, id: nat)
    requires forall x :: x in rows ==> x.lotId != id
    ensures OnLot(rows, id) == 0
  {
    if rows != [] {
      assert rows[|rows| - 1] in rows;
      NoneOnLot(rows[..|rows| - 1], id);
    }
  }

  lemma {:induction false} NoneOnReq(rows: seq<SurplusRow>, req: ReqId)
    requires forall x :: x in rows ==> x.req != req
    ensures OnReq(rows, req) == 0
  {
    if rows != [] {
      assert rows[|rows| - 1] in rows;
      NoneOnReq(rows[..|rows| - 1], req);
    }
  }

  /** Any part of the rows holds no more of a lot, or gives no more to a line, than all of them. */
  lemma PartHoldsLess(rows: seq<SurplusRow>, which: set<SurplusRow>, id: nat)
    ensures OnLot(Pick(rows, which), id) <= OnLot(rows, id)
    ensures OnLine(Pick(rows, which), id) <= OnLine(rows, id)
  {
    var all := set x | x in rows;
    PickAgrees(rows, which, all * which);
    PickSplits(rows, all * which, all - which, id, ReqId(DemandKey(0, None, 0), 0));
  }

  lemma {:induction false} PickAgrees(rows: seq<SurplusRow>, a: set<SurplusRow>, b: set<SurplusRow>)
    requires forall x :: x in rows ==> (x in a <==> x in b)
    ensures Pick(rows, a) == Pick(rows, b)
  {
    if rows != [] {
      assert rows[|rows| - 1] in rows;
      PickAgrees(rows[..|rows| - 1], a, b);
    }
  }

  /** If every row of a line is picked, the picked rows give the line the same. */
  lemma PickKeepsLine(rows: seq<SurplusRow>, which: set<SurplusRow>, id: nat)
    requires forall x :: x in rows && x.lineId == id ==> x in which
    ensures OnLine(Pick(rows, which), id) == OnLine(rows, id)
  {
    var all := set x | x in rows;
    PickAgrees(rows, which, all * which);
    PickSplits(rows, all * which, all - which, id, ReqId(DemandKey(0, None, 0), 0));
    forall x | x in Pick(rows, all - which) ensures x.lineId != id { PickMembers(rows, all - which, x); }
    NoneOnLine(Pick(rows, all - which), id);
  }
}
