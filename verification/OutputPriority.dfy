/** The deadline order of a finished run's output, spelled out on the fields of the lines, and what each
    line gets by it, for lines listed in any order. */
module OutputPriority {
  import opened Sorting
  import opened Deadlines
  import opened Tallies
  import opened ProductionOutput

  function DeadlineOf(line: DemandLine): Deadline { Deadline(line.date, line.time, line.lineId) }

  predicate WaitsBefore(a: DemandLine, b: DemandLine) { DueBefore(DeadlineOf(a), DeadlineOf(b)) }

  /** What a line still waits for: its quantity, less what earlier runs and surplus give it. */
  function Wants(line: DemandLine): nat {
    if line.completed + line.surplus >= line.underlying then 0 else line.underlying - line.completed - line.surplus
  }

  function Waiting(lines: seq<DemandLine>, productId: nat): set<DemandLine> {
    set x | x in lines && x.productId == productId
  }

  function Ahead(lines: seq<DemandLine>, line: DemandLine): set<DemandLine> {
    set x | x in lines && x.productId == line.productId && WaitsBefore(x, line)
  }

  /** What is left of `output` after `before`, up to `want`. */
  function Granted(want: nat, output: nat, before: nat): nat {
    if before >= output then 0 else if output - before < want then output - before else want
  }

  lemma KeyIsTheOrder(a: DemandLine, b: DemandLine)
    ensures Less(LineKey(a), LineKey(b)) <==> WaitsBefore(a, b)
    ensures StillNeeded(a) == Wants(a)
  {
  }

  lemma {:induction false} NeedIsSum(sorted: seq<DemandLine>, n: nat)
    requires n <= |sorted| && Apart(sorted, LineId)
    ensures NeedBefore(sorted, n) == SumBy((set x | x in sorted[..n]), Wants)
  {
    if n > 0 {
      NeedIsSum(sorted, n - 1);
      var earlier := sorted[..n - 1];
      var before := set x | x in earlier;
      forall x | x in before ensures x != sorted[n - 1] { assert LineId(x) != LineId(sorted[n - 1]); }
      SumAdd(before, Wants, sorted[n - 1]);
      assert sorted[..n] == earlier + [sorted[n - 1]];
      assert (set x | x in sorted[..n]) == before + {sorted[n - 1]};
      KeyIsTheOrder(sorted[n - 1], sorted[n - 1]);
    }
  }

  lemma InOrderIs(lines: seq<DemandLine>, productId: nat)
    requires Apart(lines, LineId)
    ensures
      var sorted := InOrder(lines, productId);
      && Apart(sorted, LineId)
      && (forall x :: x in sorted <==> x in lines && x.productId == productId)
      && (forall i, k :: 0 <= i < |sorted| && 0 <= k < |sorted| ==> (WaitsBefore(sorted[i], sorted[k]) <==> i < k))
  {
    hide WaitsBefore, Less, LineKey;
    var own, sorted := OfProduct(lines, productId), InOrder(lines, productId);
    OfProductApart(lines, productId);
    SortApart(own, LineKey, LineId);
    SortSorts(own, LineKey);
    forall x ensures x in sorted <==> x in lines && x.productId == productId {
      SortMembers(own, LineKey, x);
      OfProductMembers(lines, productId, x);
    }
    hide Sort, OfProduct, InOrder;
    forall i, k | 0 <= i < |sorted| && 0 <= k < |sorted| ensures WaitsBefore(sorted[i], sorted[k]) <==> i < k {
      Placed(sorted, i, k);
    }
  }

  lemma Placed(sorted: seq<DemandLine>, i: nat, k: nat)
    requires Sorted(sorted, LineKey) && Apart(sorted, LineId) && i < |sorted| && k < |sorted|
    ensures WaitsBefore(sorted[i], sorted[k]) <==> i < k
  {
    hide DueBefore, Less, LineKey;
    KeyIsTheOrder(sorted[i], sorted[k]);
    KeyIsTheOrder(sorted[k], sorted[i]);
    DeadlinesDecide(DeadlineOf(sorted[i]), DeadlineOf(sorted[k]));
    if i < k {
      assert LineId(sorted[i]) != LineId(sorted[k]);
    } else if k < i {
      assert LineId(sorted[k]) != LineId(sorted[i]);
    }
  }

  /** Each line gets what it wants, up to what the lines that wait before it leave of the output. */
  lemma LineGetsWhatIsLeft(lines: seq<DemandLine>, output: nat, line: DemandLine)
    requires Apart(lines, LineId) && line in lines
    ensures
      var sorted := InOrder(lines, line.productId);
      GivenTo(Shares(sorted, output, |sorted|), line.lineId)
      == Granted(Wants(line), output, SumBy(Ahead(lines, line), Wants))
  {
    hide GivenTo, Shares, WaitsBefore, InOrder;
    var sorted := InOrder(lines, line.productId);
    InOrderIs(lines, line.productId);
    var i :| 0 <= i < |sorted| && sorted[i] == line;
    LineGetsItsShare(sorted, output, |sorted|, i);
    NeedIsSum(sorted, i);
    KeyIsTheOrder(line, line);
    forall x ensures x in Ahead(lines, line) <==> x in sorted[..i] {
      if x in Ahead(lines, line) { var k :| 0 <= k < |sorted| && sorted[k] == x; }
    }
    assert (set x | x in sorted[..i]) == Ahead(lines, line);
  }

  /** What is over is what the output exceeds all wants by. */
  lemma RestIsOver(lines: seq<DemandLine>, output: nat, productId: nat)
    requires Apart(lines, LineId)
    ensures
      var wanted := SumBy(Waiting(lines, productId), Wants);
      Excess(InOrder(lines, productId), output) == if output > wanted then output - wanted else 0
  {
    hide WaitsBefore, InOrder;
    var sorted := InOrder(lines, productId);
    InOrderIs(lines, productId);
    NeedIsSum(sorted, |sorted|);
    assert sorted[..|sorted|] == sorted;
    assert (set x | x in sorted[..|sorted|]) == Waiting(lines, productId);
  }

  /** A line that gets anything is only preceded by lines served in full. */
  lemma EarlierLinesAreServedInFull(lines: seq<DemandLine>, output: nat, earlier: DemandLine, line: DemandLine)
    requires Apart(lines, LineId) && line in lines && earlier in lines && earlier.productId == line.productId
    requires WaitsBefore(earlier, line)
    requires
      var sorted := InOrder(lines, line.productId);
      GivenTo(Shares(sorted, output, |sorted|), line.lineId) > 0
    ensures
      var sorted := InOrder(lines, line.productId);
      GivenTo(Shares(sorted, output, |sorted|), earlier.lineId) == Wants(earlier)
  {
    hide GivenTo, Shares, WaitsBefore, InOrder;
    var sorted := InOrder(lines, line.productId);
    InOrderIs(lines, line.productId);
    var i :| 0 <= i < |sorted| && sorted[i] == earlier;
    var k :| 0 <= k < |sorted| && sorted[k] == line;
    LineGetsItsShare(sorted, output, |sorted|, i);
    LineGetsItsShare(sorted, output, |sorted|, k);
    EarlierLinesFirst(sorted, output, i, k);
    KeyIsTheOrder(earlier, earlier);
  }
}
