/** The quantity-only core of first-expired-first-out allocation: demand lines in priority
    order draw from lots in expiry order. Lines and lots are positions here; ids, dates and
    eligibility are in `SurplusAllocation`. A plan is a matrix: `plan[i][j]` is what line `i`
    takes from lot `j`. */
module Fefo {

  function Min(a: nat, b: nat): nat { if a <= b then a else b }

  function Sum(row: seq<nat>): nat {
    if row == [] then 0 else row[0] + Sum(row[1..])
  }

  function Total(plan: seq<seq<nat>>): nat {
    if plan == [] then 0 else Sum(plan[0]) + Total(plan[1..])
  }

  /** What all lines of a plan together take from lot `j`. */
  function Column(plan: seq<seq<nat>>, j: nat): nat {
    if plan == [] then 0 else (if j < |plan[0]| then plan[0][j] else 0) + Column(plan[1..], j)
  }

  predicate Below(a: seq<nat>, b: seq<nat>) {
    |a| == |b| && forall j :: 0 <= j < |a| ==> a[j] <= b[j]
  }

  function Minus(a: seq<nat>, b: seq<nat>): (c: seq<nat>)
    requires |a| == |b|
    ensures |c| == |a|
  {
    seq(|a|, j requires 0 <= j < |a| => if b[j] <= a[j] then a[j] - b[j] else 0)
  }

  predicate Shape(ok: seq<seq<bool>>, lines: nat, lots: nat) {
    |ok| == lines && forall i :: 0 <= i < |ok| ==> |ok[i]| == lots
  }

  // ---- the greedy rule ----

  /** One line walks the lots in order and takes what it can from each eligible one. */
  function TakeRow(need: nat, caps: seq<nat>, ok: seq<bool>): (row: seq<nat>)
    requires |caps| == |ok|
    ensures |row| == |caps|
  {
    if caps == [] then []
    else
      var t := if ok[0] then Min(need, caps[0]) else 0;
      [t] + TakeRow(need - t, caps[1..], ok[1..])
  }

  /** Lines are served one after the other, each from what the earlier ones left. */
  function Greedy(needs: seq<nat>, caps: seq<nat>, ok: seq<seq<bool>>): (plan: seq<seq<nat>>)
    requires Shape(ok, |needs|, |caps|)
    ensures |plan| == |needs|
  {
    if needs == [] then []
    else
      var row := TakeRow(needs[0], caps, ok[0]);
      [row] + Greedy(needs[1..], Minus(caps, row), ok[1..])
  }

  // ---- feasible plans ----

  predicate FeasibleRow(row: seq<nat>, need: nat, caps: seq<nat>, ok: seq<bool>)
    requires |caps| == |ok|
  {
    && Below(row, caps)
    && Sum(row) <= need
    && forall j :: 0 <= j < |row| && !ok[j] ==> row[j] == 0
  }

  /** Any plan at all that respects lot capacity, line need and eligibility. */
  predicate Feasible(plan: seq<seq<nat>>, needs: seq<nat>, caps: seq<nat>, ok: seq<seq<bool>>)
    requires Shape(ok, |needs|, |caps|)
  {
    && |plan| == |needs|
    && (forall i :: 0 <= i < |plan| ==> FeasibleRow(plan[i], needs[i], caps, ok[i]))
    && (forall j :: 0 <= j < |caps| ==> Column(plan, j) <= caps[j])
  }

  lemma {:induction false} TakeRowIsFeasible(need: nat, caps: seq<nat>, ok: seq<bool>)
    requires |caps| == |ok|
    ensures FeasibleRow(TakeRow(need, caps, ok), need, caps, ok)
  {
    if caps != [] {
      var t := if ok[0] then Min(need, caps[0]) else 0;
      var rest := TakeRow(need - t, caps[1..], ok[1..]);
      TakeRowIsFeasible(need - t, caps[1..], ok[1..]);
      var row := TakeRow(need, caps, ok);
      assert row[1..] == rest;
      forall j | 0 < j < |caps| ensures row[j] <= caps[j] && (!ok[j] ==> row[j] == 0) {
        assert row[j] == rest[j - 1] <= caps[1..][j - 1] && ok[j] == ok[1..][j - 1];
      }
    }
  }

  lemma {:induction false} GreedyIsFeasible(needs: seq<nat>, caps: seq<nat>, ok: seq<seq<bool>>)
    requires Shape(ok, |needs|, |caps|)
    ensures Feasible(Greedy(needs, caps, ok), needs, caps, ok)
  {
    if needs != [] {
      var row := TakeRow(needs[0], caps, ok[0]);
      var rest := Greedy(needs[1..], Minus(caps, row), ok[1..]);
      GreedyIsFeasible(needs[1..], Minus(caps, row), ok[1..]);
      TakeRowIsFeasible(needs[0], caps, ok[0]);
      var plan := Greedy(needs, caps, ok);
      assert plan[1..] == rest;
      forall j | 0 <= j < |caps| ensures Column(plan, j) <= caps[j] {
        assert Column(plan, j) == row[j] + Column(rest, j);
      }
      forall i | 0 <= i < |plan| ensures FeasibleRow(plan[i], needs[i], caps, ok[i]) {
        if i > 0 {
          assert plan[i] == rest[i - 1] && needs[i] == needs[1..][i - 1] && ok[i] == ok[1..][i - 1];
        }
      }
    }
  }

  /** The plan for the first `k` lines does not depend on the lines after them. */
  lemma {:induction false} GreedyPrefix(needs: seq<nat>, caps: seq<nat>, ok: seq<seq<bool>>, k: nat)
    requires Shape(ok, |needs|, |caps|) && k <= |needs|
    ensures Shape(ok[..k], k, |caps|)
    ensures Greedy(needs, caps, ok)[..k] == Greedy(needs[..k], caps, ok[..k])
  {
    if k > 0 {
      var row := TakeRow(needs[0], caps, ok[0]);
      GreedyPrefix(needs[1..], Minus(caps, row), ok[1..], k - 1);
      assert needs[..k][1..] == needs[1..][..k - 1] && ok[..k][1..] == ok[1..][..k - 1];
    }
  }

  // ---- optimality by a minimum cut ----

  function Tail(caps: seq<nat>, from: nat): nat
    requires from <= |caps|
  {
    Sum(caps[from..])
  }

  /** Eligibility of date-ordered lines over expiry-ordered lots: line `i` may use exactly the
      lots from position `starts[i]` on, and later lines start no earlier. */
  predicate Nested(ok: seq<seq<bool>>, starts: seq<nat>, lots: nat) {
    && Shape(ok, |starts|, lots)
    && (forall i :: 0 <= i < |starts| ==> starts[i] <= lots)
    && (forall i, j :: 0 <= i < |starts| && 0 <= j < lots ==> (ok[i][j] <==> starts[i] <= j))
    && (forall i, k :: 0 <= i < k < |starts| ==> starts[i] <= starts[k])
  }

  /** A cut of the transport network: the first `k` lines pay their need, and every later line
      is bounded by the lots still open to line `k`. */
  function Cut(needs: seq<nat>, caps: seq<nat>, starts: seq<nat>, k: nat): nat
    requires |starts| == |needs| && k <= |needs|
    requires forall i :: 0 <= i < |starts| ==> starts[i] <= |caps|
  {
    if k == |needs| then Sum(needs)
    else if k == 0 then Tail(caps, starts[0])
    else needs[0] + Cut(needs[1..], caps, starts[1..], k - 1)
  }

  lemma {:induction false} SumSplit(row: seq<nat>, from: nat)
    requires from <= |row|
    ensures Sum(row) == Sum(row[..from]) + Tail(row, from)
  {
    if from > 0 {
      SumSplit(row[1..], from - 1);
      assert row[..from][1..] == row[1..][..from - 1];
      assert row[from..] == row[1..][from - 1..];
    } else {
      assert row[0..] == row;
    }
  }

  lemma {:induction false} SumZero(row: seq<nat>)
    requires forall j :: 0 <= j < |row| ==> row[j] == 0
    ensures Sum(row) == 0
  {
    if row != [] { SumZero(row[1..]); }
  }

  lemma {:induction false} SumMinus(a: seq<nat>, b: seq<nat>)
    requires Below(b, a)
    ensures Sum(Minus(a, b)) == Sum(a) - Sum(b)
  {
    if a != [] {
      SumMinus(a[1..], b[1..]);
      assert Minus(a, b)[1..] == Minus(a[1..], b[1..]);
    }
  }

  lemma TailMinus(a: seq<nat>, b: seq<nat>, from: nat)
    requires Below(b, a) && from <= |a|
    ensures Tail(Minus(a, b), from) == Tail(a, from) - Tail(b, from)
  {
    assert Minus(a, b)[from..] == Minus(a[from..], b[from..]);
    SumMinus(a[from..], b[from..]);
  }

  /** A row that uses only lots from `from` on draws its whole total from there. */
  lemma SuffixRow(row: seq<nat>, from: nat)
    requires from <= |row|
    requires forall j :: 0 <= j < from ==> row[j] == 0
    ensures Sum(row) == Tail(row, from)
  {
    SumSplit(row, from);
    SumZero(row[..from]);
  }

  /** Removing a feasible first row leaves a feasible plan over the remaining capacity. */
  lemma FeasibleRest(plan: seq<seq<nat>>, needs: seq<nat>, caps: seq<nat>, ok: seq<seq<bool>>)
    requires Shape(ok, |needs|, |caps|) && needs != []
    requires Feasible(plan, needs, caps, ok)
    ensures Feasible(plan[1..], needs[1..], Minus(caps, plan[0]), ok[1..])
  {
    var left := Minus(caps, plan[0]);
    forall j | 0 <= j < |caps| ensures Column(plan[1..], j) <= left[j] {
      assert Column(plan, j) == plan[0][j] + Column(plan[1..], j);
    }
    forall i | 0 <= i < |plan| - 1 ensures FeasibleRow(plan[1..][i], needs[1..][i], left, ok[1..][i]) {
      forall j | 0 <= j < |caps| ensures plan[i + 1][j] <= left[j] {
        EntryBelowColumn(plan[1..], i, j);
        assert Column(plan, j) == plan[0][j] + Column(plan[1..], j);
      }
      assert FeasibleRow(plan[i + 1], needs[i + 1], caps, ok[i + 1]);
    }
  }

  lemma {:induction false} EntryBelowColumn(plan: seq<seq<nat>>, i: nat, j: nat)
    requires i < |plan|
    requires forall k :: 0 <= k < |plan| ==> j < |plan[k]|
    ensures plan[i][j] <= Column(plan, j)
  {
    if i > 0 { EntryBelowColumn(plan[1..], i - 1, j); }
  }

  /** No feasible plan whose lines all start at `from` or later exceeds what the lots there hold. */
  lemma {:induction false} BoundedByTail(
      plan: seq<seq<nat>>, needs: seq<nat>, caps: seq<nat>, ok: seq<seq<bool>>, starts: seq<nat>, from: nat)
    requires |starts| == |needs| && Nested(ok, starts, |caps|) && Feasible(plan, needs, caps, ok)
    requires from <= |caps| && forall i :: 0 <= i < |starts| ==> from <= starts[i]
    ensures Total(plan) <= Tail(caps, from)
  {
    if needs != [] {
      assert FeasibleRow(plan[0], needs[0], caps, ok[0]);
      SuffixRow(plan[0], from);
      FeasibleRest(plan, needs, caps, ok);
      BoundedByTail(plan[1..], needs[1..], Minus(caps, plan[0]), ok[1..], starts[1..], from);
      TailMinus(caps, plan[0], from);
    }
  }

  lemma {:induction false} CutMonotone(needs: seq<nat>, low: seq<nat>, high: seq<nat>, starts: seq<nat>, k: nat)
    requires |starts| == |needs| && k <= |needs| && Below(low, high)
    requires forall i :: 0 <= i < |starts| ==> starts[i] <= |high|
    ensures Cut(needs, low, starts, k) <= Cut(needs, high, starts, k)
  {
    if k == |needs| {
    } else if k == 0 {
      TailMinus(high, low, starts[0]);
    } else {
      CutMonotone(needs[1..], low, high, starts[1..], k - 1);
    }
  }

  /** Weak duality: every feasible plan is bounded by every cut. */
  lemma {:induction false} AnyPlanBelowAnyCut(
      plan: seq<seq<nat>>, needs: seq<nat>, caps: seq<nat>, ok: seq<seq<bool>>, starts: seq<nat>, k: nat)
    requires |starts| == |needs| && Nested(ok, starts, |caps|) && Feasible(plan, needs, caps, ok)
    requires k <= |needs|
    ensures Total(plan) <= Cut(needs, caps, starts, k)
  {
    if needs == [] {
    } else if k == 0 {
      BoundedByTail(plan, needs, caps, ok, starts, starts[0]);
    } else {
      assert FeasibleRow(plan[0], needs[0], caps, ok[0]);
      FeasibleRest(plan, needs, caps, ok);
      var left := Minus(caps, plan[0]);
      AnyPlanBelowAnyCut(plan[1..], needs[1..], left, ok[1..], starts[1..], k - 1);
      CutMonotone(needs[1..], left, caps, starts[1..], k - 1);
    }
  }

  /** A line left short has emptied every lot it may use. */
  lemma {:induction false} ShortLineEmptiesLots(need: nat, caps: seq<nat>, ok: seq<bool>)
    requires |caps| == |ok|
    requires Sum(TakeRow(need, caps, ok)) < need
    ensures forall j :: 0 <= j < |caps| && ok[j] ==> TakeRow(need, caps, ok)[j] == caps[j]
  {
    if caps != [] {
      var t := if ok[0] then Min(need, caps[0]) else 0;
      var row := TakeRow(need, caps, ok);
      assert row[1..] == TakeRow(need - t, caps[1..], ok[1..]);
      ShortLineEmptiesLots(need - t, caps[1..], ok[1..]);
      forall j | 0 <= j < |caps| && ok[j] ensures row[j] == caps[j] {
        if j > 0 { assert row[j] == row[1..][j - 1] && ok[j] == ok[1..][j - 1]; }
      }
    }
  }

  /** A row that leaves nothing in the eligible lots before `to`. */
  predicate Empties(row: seq<nat>, caps: seq<nat>, ok: seq<bool>, to: nat)
    requires |row| == |caps| == |ok| && to <= |caps|
  {
    forall i :: 0 <= i < to && ok[i] ==> row[i] == caps[i]
  }

  /** A line that takes anything from lot `c` on has emptied every eligible lot before `c`. */
  lemma {:induction false} ReachingPastEmpties(need: nat, caps: seq<nat>, ok: seq<bool>, c: nat)
    requires |caps| == |ok| && c <= |caps|
    requires Tail(TakeRow(need, caps, ok), c) > 0
    ensures Empties(TakeRow(need, caps, ok), caps, ok, c)
  {
    if c > 0 {
      var t := if ok[0] then Min(need, caps[0]) else 0;
      var row := TakeRow(need, caps, ok);
      var rest := TakeRow(need - t, caps[1..], ok[1..]);
      assert row[c..] == rest[c - 1..];
      assert Tail(rest, c - 1) > 0;
      assert ok[0] ==> t == caps[0] by {
        SumSplit(rest, c - 1);
        TakeRowIsFeasible(need - t, caps[1..], ok[1..]);
      }
      ReachingPastEmpties(need - t, caps[1..], ok[1..], c - 1);
      forall i | 0 < i < c && ok[i] ensures row[i] == caps[i] {
        assert rest[i - 1] == caps[1..][i - 1] && ok[i] == ok[1..][i - 1];
      }
    }
  }

  lemma {:induction false} SumEqualWhenTailEmptied(row: seq<nat>, caps: seq<nat>, from: nat)
    requires Below(row, caps) && from <= |caps|
    requires forall j :: from <= j < |caps| ==> row[j] == caps[j]
    ensures Tail(row, from) == Tail(caps, from)
  {
    assert row[from..] == caps[from..];
  }

  /** Strong duality: the greedy total equals some cut. */
  lemma {:induction false} GreedyMeetsACut(needs: seq<nat>, caps: seq<nat>, ok: seq<seq<bool>>, starts: seq<nat>)
      returns (k: nat)
    requires |starts| == |needs| && Nested(ok, starts, |caps|)
    ensures k <= |needs|
    ensures Total(Greedy(needs, caps, ok)) == Cut(needs, caps, starts, k)
  {
    if needs == [] {
      k := 0;
    } else {
      var row := TakeRow(needs[0], caps, ok[0]);
      var left := Minus(caps, row);
      var rest := Greedy(needs[1..], left, ok[1..]);
      assert Greedy(needs, caps, ok)[1..] == rest;
      var s := starts[0];
      TakeRowIsFeasible(needs[0], caps, ok[0]);
      SuffixRow(row, s);
      GreedyIsFeasible(needs[1..], left, ok[1..]);
      BoundedByTail(rest, needs[1..], left, ok[1..], starts[1..], s);
      TailMinus(caps, row, s);
      if Sum(row) < needs[0] {
        ShortLineEmptiesLots(needs[0], caps, ok[0]);
        SumEqualWhenTailEmptied(row, caps, s);
        k := 0;
      } else {
        var k' := GreedyMeetsACut(needs[1..], left, ok[1..], starts[1..]);
        forall c | 0 <= c <= |caps| && Tail(row, c) > 0 ensures Empties(row, caps, ok[0], c) {
          ReachingPastEmpties(needs[0], caps, ok[0], c);
        }
        k := ServedLineKeepsACut(needs, caps, ok, starts, row, rest, k');
      }
    }
  }

  lemma {:induction false} TailSkipsZeros(row: seq<nat>, lo: nat, hi: nat)
    requires lo <= hi <= |row|
    requires forall j :: lo <= j < hi ==> row[j] == 0
    ensures Tail(row, lo) == Tail(row, hi)
    decreases hi - lo
  {
    if lo < hi {
      TailSkipsZeros(row, lo + 1, hi);
      assert row[lo..][1..] == row[lo + 1..];
    }
  }

  lemma EmptiedLotsHoldNothing(row: seq<nat>, caps: seq<nat>, ok: seq<bool>, s: nat, c: nat)
    requires Below(row, caps) && |ok| == |caps| && s <= c <= |caps|
    requires forall j :: s <= j < |caps| ==> ok[j]
    requires Empties(row, caps, ok, c)
    ensures Tail(Minus(caps, row), s) == Tail(Minus(caps, row), c)
  {
    TailSkipsZeros(Minus(caps, row), s, c);
  }

  /** The inductive step when the first line is fully served: either its lots are untouched by
      the later cut, which then still works, or everything before that cut is empty and the
      cut moves to the front. */
  lemma ServedLineKeepsACut(
      needs: seq<nat>, caps: seq<nat>, ok: seq<seq<bool>>, starts: seq<nat>,
      row: seq<nat>, rest: seq<seq<nat>>, k': nat) returns (k: nat)
    requires |starts| == |needs| > 0 && Nested(ok, starts, |caps|)
    requires FeasibleRow(row, needs[0], caps, ok[0]) && Sum(row) == needs[0]
    requires forall c {:trigger Tail(row, c)} ::
      0 <= c <= |caps| && Tail(row, c) > 0 ==> Empties(row, caps, ok[0], c)
    requires Feasible(rest, needs[1..], Minus(caps, row), ok[1..])
    requires k' <= |needs| - 1 && Total(rest) == Cut(needs[1..], Minus(caps, row), starts[1..], k')
    ensures k <= |needs|
    ensures needs[0] + Total(rest) == Cut(needs, caps, starts, k)
  {
    var left := Minus(caps, row);
    if k' == |needs| - 1 {
      k := |needs|;
    } else if Tail(row, starts[k' + 1]) == 0 {
      k := k' + 1;
      CutUntouched(needs[1..], caps, row, starts[1..], k');
    } else {
      var s, c := starts[0], starts[k' + 1];
      EmptiedLotsHoldNothing(row, caps, ok[0], s, c);
      BoundedByTail(rest, needs[1..], left, ok[1..], starts[1..], s);
      CutAtLeastItsTail(needs[1..], left, starts[1..], k');
      SuffixRow(row, s);
      TailMinus(caps, row, s);
      k := 0;
    }
  }

  lemma {:induction false} CutAtLeastItsTail(needs: seq<nat>, caps: seq<nat>, starts: seq<nat>, k: nat)
    requires |starts| == |needs| && k < |needs|
    requires forall i :: 0 <= i < |starts| ==> starts[i] <= |caps|
    ensures Cut(needs, caps, starts, k) >= Tail(caps, starts[k])
  {
    if k > 0 { CutAtLeastItsTail(needs[1..], caps, starts[1..], k - 1); }
  }

  lemma {:induction false} CutUntouched(needs: seq<nat>, caps: seq<nat>, row: seq<nat>, starts: seq<nat>, k: nat)
    requires |starts| == |needs| && k < |needs| && Below(row, caps)
    requires forall i :: 0 <= i < |starts| ==> starts[i] <= |caps|
    requires Tail(row, starts[k]) == 0
    ensures Cut(needs, Minus(caps, row), starts, k) == Cut(needs, caps, starts, k)
  {
    if k == 0 {
      TailMinus(caps, row, starts[0]);
    } else {
      CutUntouched(needs[1..], caps, row, starts[1..], k - 1);
    }
  }

  /** Greedy is optimal, and for every priority prefix at once: no feasible plan covers more of
      the first `k` lines' demand than the greedy one does. */
  lemma GreedyIsOptimal(
      other: seq<seq<nat>>, needs: seq<nat>, caps: seq<nat>, ok: seq<seq<bool>>, starts: seq<nat>, k: nat)
    requires |starts| == |needs| && Nested(ok, starts, |caps|) && Feasible(other, needs, caps, ok)
    requires k <= |needs|
    ensures Total(other[..k]) <= Total(Greedy(needs, caps, ok)[..k])
  {
    GreedyPrefix(needs, caps, ok, k);
    FeasiblePrefix(other, needs, caps, ok, k);
    assert Nested(ok[..k], starts[..k], |caps|);
    var c := GreedyMeetsACut(needs[..k], caps, ok[..k], starts[..k]);
    AnyPlanBelowAnyCut(other[..k], needs[..k], caps, ok[..k], starts[..k], c);
  }

  lemma FeasiblePrefix(plan: seq<seq<nat>>, needs: seq<nat>, caps: seq<nat>, ok: seq<seq<bool>>, k: nat)
    requires Shape(ok, |needs|, |caps|) && Feasible(plan, needs, caps, ok) && k <= |needs|
    ensures Feasible(plan[..k], needs[..k], caps, ok[..k])
  {
    forall j | 0 <= j < |caps| ensures Column(plan[..k], j) <= caps[j] {
      ColumnPrefix(plan, j, k);
    }
  }

  lemma {:induction false} ColumnPrefix(plan: seq<seq<nat>>, j: nat, k: nat)
    requires forall i :: 0 <= i < |plan| ==> j < |plan[i]|
    requires k <= |plan|
    ensures Column(plan[..k], j) <= Column(plan, j)
  {
    if k > 0 {
      ColumnPrefix(plan[1..], j, k - 1);
      assert plan[..k][1..] == plan[1..][..k - 1];
    }
  }
}
