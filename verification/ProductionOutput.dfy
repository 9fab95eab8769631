/** Sharing a finished run's output among the lines that still wait for its product. The output is
    one pool, walked in deadline order; what no line needs is the excess that becomes surplus. */
module ProductionOutput {
  import opened Sorting

  datatype DemandLine = DemandLine(
    orderId: nat, lineId: nat, productId: nat, underlying: int, completed: int, surplus: int,
    date: int, time: Option<nat>)

  datatype Share = Share(orderId: nat, lineId: nat, quantity: int)

  /** Earliest date, then earliest time with untimed last, then line id. */
  function LineKey(line: DemandLine): Key {
    match line.time
    case Some(t) => Key(line.date, 0, t, line.lineId)
    case None => Key(line.date, 1, 0, line.lineId)
  }

  /** What neither earlier runs nor reserved surplus cover. */
  function StillNeeded(line: DemandLine): nat {
    if line.underlying - line.completed - line.surplus > 0
    then line.underlying - line.completed - line.surplus
    else 0
  }

  function OfProduct(lines: seq<DemandLine>, productId: nat): seq<DemandLine> {
    if lines == [] then []
    else (if lines[0].productId == productId then [lines[0]] else []) + OfProduct(lines[1..], productId)
  }

  /** What the first `n` lines need together. */
  function NeedBefore(lines: seq<DemandLine>, n: nat): nat
    requires n <= |lines|
  {
    if n == 0 then 0 else NeedBefore(lines, n - 1) + StillNeeded(lines[n - 1])
  }

  /** Line `i` gets its need, or what the lines before it leave of the output. */
  function ShareOf(lines: seq<DemandLine>, output: int, i: nat): nat
    requires i < |lines|
  {
    var left := output - NeedBefore(lines, i);
    if left <= 0 then 0 else if StillNeeded(lines[i]) <= left then StillNeeded(lines[i]) else left
  }

  /** The shares of the first `n` lines, one row for each line that gets something. */
  function Shares(lines: seq<DemandLine>, output: int, n: nat): seq<Share>
    requires n <= |lines|
  {
    if n == 0 then []
    else
      var q := ShareOf(lines, output, n - 1);
      if q > 0 then Shares(lines, output, n - 1) + [Share(lines[n - 1].orderId, lines[n - 1].lineId, q)]
      else Shares(lines, output, n - 1)
  }

  /** What is over once every line has its need. */
  function Excess(lines: seq<DemandLine>, output: int): int {
    var need := NeedBefore(lines, |lines|);
    if output <= 0 then output else if output <= need then 0 else output - need
  }

  function InOrder(lines: seq<DemandLine>, productId: nat): seq<DemandLine> {
    Sort(OfProduct(lines, productId), LineKey)
  }

  lemma NothingLeft(lines: seq<DemandLine>, output: int, i: nat, n: nat)
    requires i <= n <= |lines| && output <= NeedBefore(lines, i)
    ensures Shares(lines, output, n) == Shares(lines, output, i) && output <= NeedBefore(lines, n)
  {
  }

  /** The walk itself: a single shrinking pool, left early once it is empty. */
  method AllocateProductionOutput(lines: seq<DemandLine>, output: int, productId: nat)
      returns (shares: seq<Share>, excess: int)
    ensures shares == Shares(InOrder(lines, productId), output, |InOrder(lines, productId)|)
    ensures excess == Excess(InOrder(lines, productId), output)
  {
    var sorted := Sort(OfProduct(lines, productId), LineKey);
    shares, excess := [], output;
    var i := 0;
    while i < |sorted| && excess > 0
      invariant 0 <= i <= |sorted|
      invariant shares == Shares(sorted, output, i)
      invariant excess > 0 ==> excess == output - NeedBefore(sorted, i)
      invariant excess <= 0 ==> output <= NeedBefore(sorted, i) && excess == if output <= 0 then output else 0
    {
      var need := StillNeeded(sorted[i]);
      if need > 0 {
        var consumed := if need <= excess then need else excess;
        shares := shares + [Share(sorted[i].orderId, sorted[i].lineId, consumed)];
        excess := excess - consumed;
      }
      i := i + 1;
    }
    if i < |sorted| { NothingLeft(sorted, output, i, |sorted|); }
  }

  // ---- what the shares add up to ----

  function GivenTo(shares: seq<Share>, lineId: nat): int {
    if shares == [] then 0
    else
      var last := shares[|shares| - 1];
      GivenTo(shares[..|shares| - 1], lineId) + if last.lineId == lineId then last.quantity else 0
  }

  function Given(shares: seq<Share>): int {
    if shares == [] then 0 else Given(shares[..|shares| - 1]) + shares[|shares| - 1].quantity
  }

  function LineId(line: DemandLine): nat { line.lineId }

  lemma OneMoreShare(shares: seq<Share>, s: Share, id: nat)
    ensures Given(shares + [s]) == Given(shares) + s.quantity
    ensures GivenTo(shares + [s], id) == GivenTo(shares, id) + if s.lineId == id then s.quantity else 0
  {
    assert (shares + [s])[..|shares + [s]| - 1] == shares;
  }

  lemma SharesStep(lines: seq<DemandLine>, output: int, n: nat, id: nat)
    requires 0 < n <= |lines|
    ensures Given(Shares(lines, output, n)) == Given(Shares(lines, output, n - 1)) + ShareOf(lines, output, n - 1)
    ensures GivenTo(Shares(lines, output, n), id)
            == GivenTo(Shares(lines, output, n - 1), id)
               + if lines[n - 1].lineId == id then ShareOf(lines, output, n - 1) else 0
  {
    hide ShareOf, Given, GivenTo;
    var q := ShareOf(lines, output, n - 1);
    OneMoreShare(Shares(lines, output, n - 1), Share(lines[n - 1].orderId, lines[n - 1].lineId, q), id);
  }

  /** The first `n` lines together get the output or their whole need, whichever is less. */
  lemma {:induction false} PrefixGetsAllItCan(lines: seq<DemandLine>, output: nat, n: nat)
    requires n <= |lines|
    ensures Given(Shares(lines, output, n)) == if NeedBefore(lines, n) <= output then NeedBefore(lines, n) else output
  {
    if n > 0 {
      hide Shares, Given, StillNeeded;
      PrefixGetsAllItCan(lines, output, n - 1);
      SharesStep(lines, output, n, 0);
    }
  }

  /** Each line's total is its closed-form share, counted once. */
  lemma {:induction false} LineGetsItsShare(lines: seq<DemandLine>, output: int, n: nat, i: nat)
    requires n <= |lines| && i < |lines| && Apart(lines, LineId)
    ensures GivenTo(Shares(lines, output, n), lines[i].lineId) == if i < n then ShareOf(lines, output, i) else 0
  {
    if n > 0 {
      hide Shares, GivenTo;
      LineGetsItsShare(lines, output, n - 1, i);
      SharesStep(lines, output, n, lines[i].lineId);
      assert i != n - 1 ==> LineId(lines[i]) != LineId(lines[n - 1]);
    }
  }

  /** Nothing is lost: what lines get plus what becomes surplus is the output. A positive excess
      means every line got its whole need. */
  lemma OutputIsConserved(lines: seq<DemandLine>, output: nat)
    ensures Given(Shares(lines, output, |lines|)) + Excess(lines, output) == output
    ensures 0 <= Excess(lines, output)
    ensures Excess(lines, output) > 0 ==> forall i :: 0 <= i < |lines| ==>
      ShareOf(lines, output, i) == StillNeeded(lines[i])
  {
    PrefixGetsAllItCan(lines, output, |lines|);
    forall i | 0 <= i < |lines| && Excess(lines, output) > 0
      ensures ShareOf(lines, output, i) == StillNeeded(lines[i])
    {
      NeedGrows(lines, i + 1, |lines|);
    }
  }

  lemma {:induction false} NeedGrows(lines: seq<DemandLine>, i: nat, n: nat)
    requires i <= n <= |lines|
    ensures NeedBefore(lines, i) <= NeedBefore(lines, n)
  {
    if i < n { NeedGrows(lines, i, n - 1); }
  }

  /** Deadline order is strict: a line that gets anything is only preceded by lines served in full. */
  lemma EarlierLinesFirst(lines: seq<DemandLine>, output: int, i: nat, k: nat)
    requires i < k < |lines| && ShareOf(lines, output, k) > 0
    ensures ShareOf(lines, output, i) == StillNeeded(lines[i])
  {
    NeedGrows(lines, i + 1, k);
  }

  lemma {:induction false} OfProductMembers(lines: seq<DemandLine>, productId: nat, x: DemandLine)
    ensures x in OfProduct(lines, productId) <==> x in lines && x.productId == productId
  {
    if lines != [] { OfProductMembers(lines[1..], productId, x); }
  }

  lemma {:induction false} OfProductApart(lines: seq<DemandLine>, productId: nat)
    requires Apart(lines, LineId)
    ensures Apart(OfProduct(lines, productId), LineId)
  {
    if lines != [] {
      OfProductApart(lines[1..], productId);
      var rest := OfProduct(lines[1..], productId);
      forall k | 0 <= k < |rest| ensures LineId(rest[k]) != LineId(lines[0]) {
        OfProductMembers(lines[1..], productId, rest[k]);
        var i :| 0 <= i < |lines[1..]| && lines[1..][i] == rest[k];
        assert LineId(lines[0]) != LineId(lines[i + 1]);
      }
    }
  }

  ghost predicate RowSound(s: Share, lines: seq<DemandLine>, productId: nat) {
    exists line :: line in lines && line.productId == productId && line.lineId == s.lineId
      && line.orderId == s.orderId && 0 < s.quantity <= StillNeeded(line)
  }

  lemma {:induction false} SharesSound(
      sorted: seq<DemandLine>, lines: seq<DemandLine>, productId: nat, output: int, n: nat)
    requires n <= |sorted| && forall x :: x in sorted ==> x in lines && x.productId == productId
    ensures forall s :: s in Shares(sorted, output, n) ==> RowSound(s, lines, productId)
  {
    if n > 0 {
      SharesSound(sorted, lines, productId, output, n - 1);
      assert sorted[n - 1] in sorted;
    }
  }

  /** End to end, for lines of any product in any order: shares are positive and within need, no
      line is served twice over its need, and nothing is lost. */
  lemma SharingIsSound(lines: seq<DemandLine>, output: nat, productId: nat)
    requires Apart(lines, LineId)
    ensures
      var sorted := InOrder(lines, productId);
      var shares := Shares(sorted, output, |sorted|);
      && (forall s :: s in shares ==> RowSound(s, lines, productId))
      && (forall line :: line in lines ==>
            0 <= GivenTo(shares, line.lineId) <= if line.productId == productId then StillNeeded(line) else 0)
      && Given(shares) + Excess(sorted, output) == output
  {
    var sorted := InOrder(lines, productId);
    var shares := Shares(sorted, output, |sorted|);
    OfProductApart(lines, productId);
    SortApart(OfProduct(lines, productId), LineKey, LineId);
    forall x ensures x in sorted <==> x in lines && x.productId == productId {
      SortMembers(OfProduct(lines, productId), LineKey, x);
      OfProductMembers(lines, productId, x);
    }
    SharesSound(sorted, lines, productId, output, |sorted|);
    forall line | line in lines
      ensures 0 <= GivenTo(shares, line.lineId) <= if line.productId == productId then StillNeeded(line) else 0
    {
      if line.productId == productId {
        var i :| 0 <= i < |sorted| && sorted[i] == line;
        LineGetsItsShare(sorted, output, |sorted|, i);
      } else {
        var l :| 0 <= l < |lines| && lines[l] == line;
        forall k | 0 <= k < |sorted| ensures sorted[k].lineId != line.lineId {
          assert sorted[k] in sorted;
          var m :| 0 <= m < |lines| && lines[m] == sorted[k];
          assert m < l ==> LineId(lines[m]) != LineId(lines[l]);
          assert l < m ==> LineId(lines[l]) != LineId(lines[m]);
        }
        StrangersGetNothing(sorted, output, |sorted|, line.lineId);
      }
    }
    OutputIsConserved(sorted, output);
  }

  lemma {:induction false} StrangersGetNothing(lines: seq<DemandLine>, output: int, n: nat, id: nat)
    requires n <= |lines| && forall k :: 0 <= k < |lines| ==> lines[k].lineId != id
    ensures GivenTo(Shares(lines, output, n), id) == 0
  {
    if n > 0 {
      StrangersGetNothing(lines, output, n - 1, id);
      SharesStep(lines, output, n, id);
    }
  }
}
