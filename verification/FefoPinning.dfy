/** Stability of the greedy plan: fix what any subset of lines received, take it out of the lots
    and out of those lines' needs, run the greedy rule again, and every other line gets what it
    had while the fixed lines get nothing more. This is what makes a second recalculation, and
    the row-for-row preservation of Ready orders' stock, agree with the first. */
module FefoPinning {
  import opened Fefo

  function Zeros(n: nat): (z: seq<nat>)
    ensures |z| == n
  {
    seq(n, _ => 0)
  }

  /** What the pinned lines of a plan hold of lot `j`. */
  function HeldOf(plan: seq<seq<nat>>, pinned: seq<bool>, j: nat): nat
    requires |pinned| == |plan|
  {
    if plan == [] then 0
    else (if pinned[0] && j < |plan[0]| then plan[0][j] else 0) + HeldOf(plan[1..], pinned[1..], j)
  }

  function Held(plan: seq<seq<nat>>, pinned: seq<bool>, lots: nat): (h: seq<nat>)
    requires |pinned| == |plan|
    ensures |h| == lots
  {
    seq(lots, j requires 0 <= j < lots => HeldOf(plan, pinned, j))
  }

  /** A pinned line only asks for what it is still short of. */
  function ReducedNeeds(needs: seq<nat>, plan: seq<seq<nat>>, pinned: seq<bool>): (r: seq<nat>)
    requires |pinned| == |plan| == |needs|
    ensures |r| == |needs|
  {
    seq(|needs|, i requires 0 <= i < |needs| =>
      if pinned[i] && Sum(plan[i]) <= needs[i] then needs[i] - Sum(plan[i])
      else if pinned[i] then 0 else needs[i])
  }

  /** The plan with the pinned lines' rows blanked. */
  function Unpinned(plan: seq<seq<nat>>, pinned: seq<bool>, lots: nat): (r: seq<seq<nat>>)
    requires |pinned| == |plan|
    ensures |r| == |plan|
  {
    seq(|plan|, i requires 0 <= i < |plan| => if pinned[i] then Zeros(lots) else plan[i])
  }

  lemma {:induction false} HeldFits(plan: seq<seq<nat>>, pinned: seq<bool>, j: nat)
    requires |pinned| == |plan|
    ensures HeldOf(plan, pinned, j) <= Column(plan, j)
  {
    if plan != [] { HeldFits(plan[1..], pinned[1..], j); }
  }

  /** A line takes the same from smaller lots as long as they still hold what it took. */
  lemma {:induction false} SameTakeFromLess(need: nat, caps: seq<nat>, caps': seq<nat>, ok: seq<bool>)
    requires |caps| == |ok| && Below(caps', caps) && Below(TakeRow(need, caps, ok), caps')
    ensures TakeRow(need, caps', ok) == TakeRow(need, caps, ok)
  {
    if caps != [] {
      var t := if ok[0] then Min(need, caps[0]) else 0;
      var row := TakeRow(need, caps, ok);
      assert t == row[0] && t == if ok[0] then Min(need, caps'[0]) else 0;
      assert row[1..] == TakeRow(need - t, caps[1..], ok[1..]);
      SameTakeFromLess(need - t, caps[1..], caps'[1..], ok[1..]);
    }
  }

  /** A line that comes back for its shortfall finds nothing. */
  lemma {:induction false} NothingMoreToTake(
      need: nat, need': nat, caps: seq<nat>, caps': seq<nat>, ok: seq<bool>, row: seq<nat>)
    requires |caps| == |ok| == |caps'| && row == TakeRow(need, caps, ok)
    requires forall j :: 0 <= j < |caps| ==> caps'[j] + row[j] <= caps[j]
    requires need' + Sum(row) == need
    ensures TakeRow(need', caps', ok) == Zeros(|caps|)
  {
    if caps != [] {
      var t := if ok[0] then Min(need, caps[0]) else 0;
      var rest := TakeRow(need - t, caps[1..], ok[1..]);
      assert row[1..] == rest && Sum(row) == t + Sum(rest);
      NothingMoreToTake(need - t, need', caps[1..], caps'[1..], ok[1..], rest);
      assert ok[0] ==> Min(need', caps'[0]) == 0;
    }
  }

  lemma GreedyCons(
      needs: seq<nat>, caps: seq<nat>, ok: seq<seq<bool>>, row: seq<nat>, rest: seq<nat>, left: seq<nat>)
    requires Shape(ok, |needs|, |caps|) && needs != [] && row == TakeRow(needs[0], caps, ok[0])
    requires rest == needs[1..] && left == Minus(caps, row)
    ensures Greedy(needs, caps, ok) == [row] + Greedy(rest, left, ok[1..])
  {
  }

  lemma MinusIs(caps: seq<nat>, row: seq<nat>, left: seq<nat>)
    requires |left| == |caps| == |row| && forall j :: 0 <= j < |caps| ==> left[j] + row[j] == caps[j]
    ensures left == Minus(caps, row)
  {
  }

  lemma ReducedCons(needs: seq<nat>, plan: seq<seq<nat>>, pinned: seq<bool>)
    requires |pinned| == |plan| == |needs| > 0
    ensures ReducedNeeds(needs, plan, pinned)[0]
            == if pinned[0] then (if Sum(plan[0]) <= needs[0] then needs[0] - Sum(plan[0]) else 0) else needs[0]
    ensures ReducedNeeds(needs, plan, pinned)[1..] == ReducedNeeds(needs[1..], plan[1..], pinned[1..])
  {
  }

  lemma UnpinnedCons(plan: seq<seq<nat>>, pinned: seq<bool>, lots: nat)
    requires |pinned| == |plan| > 0
    ensures Unpinned(plan, pinned, lots)
            == [if pinned[0] then Zeros(lots) else plan[0]] + Unpinned(plan[1..], pinned[1..], lots)
  {
  }

  /** The capacity after holding the pinned rows of a plan, given what its first line took. */
  lemma HeldCons(plan: seq<seq<nat>>, pinned: seq<bool>, lots: nat, row: seq<nat>)
    requires |pinned| == |plan| > 0 && plan[0] == row && |row| == lots
    ensures forall j :: 0 <= j < lots ==>
      Held(plan, pinned, lots)[j] == (if pinned[0] then row[j] else 0) + Held(plan[1..], pinned[1..], lots)[j]
  {
  }

  /** Pinning stability of the whole plan. */
  lemma {:induction false} PinningKeepsThePlan(
      needs: seq<nat>, caps: seq<nat>, ok: seq<seq<bool>>, pinned: seq<bool>)
    requires Shape(ok, |needs|, |caps|) && |pinned| == |needs|
    ensures
      var plan := Greedy(needs, caps, ok);
      && Below(Held(plan, pinned, |caps|), caps)
      && Greedy(ReducedNeeds(needs, plan, pinned), Minus(caps, Held(plan, pinned, |caps|)), ok)
         == Unpinned(plan, pinned, |caps|)
  {
    var plan := Greedy(needs, caps, ok);
    GreedyIsFeasible(needs, caps, ok);
    forall j | 0 <= j < |caps| ensures HeldOf(plan, pinned, j) <= caps[j] {
      HeldFits(plan, pinned, j);
    }
    if needs != [] {
      var left := Minus(caps, TakeRow(needs[0], caps, ok[0]));
      PinningKeepsThePlan(needs[1..], left, ok[1..], pinned[1..]);
      PinningStep(needs, caps, ok, pinned, plan);
    }
  }

  lemma PinningStep(
      needs: seq<nat>, caps: seq<nat>, ok: seq<seq<bool>>, pinned: seq<bool>, plan: seq<seq<nat>>)
    requires Shape(ok, |needs|, |caps|) && |pinned| == |needs| > 0
    requires plan == Greedy(needs, caps, ok)
    requires
      var left := Minus(caps, TakeRow(needs[0], caps, ok[0]));
      var rest := Greedy(needs[1..], left, ok[1..]);
      var held := Held(rest, pinned[1..], |caps|);
      && Below(held, left)
      && Greedy(ReducedNeeds(needs[1..], rest, pinned[1..]), Minus(left, held), ok[1..])
         == Unpinned(rest, pinned[1..], |caps|)
    ensures Greedy(ReducedNeeds(needs, plan, pinned), Minus(caps, Held(plan, pinned, |caps|)), ok)
            == Unpinned(plan, pinned, |caps|)
  {
    hide TakeRow, Greedy, Unpinned, ReducedNeeds, Held, Sum;
    var row := TakeRow(needs[0], caps, ok[0]);
    var left := Minus(caps, row);
    GreedyCons(needs, caps, ok, row, needs[1..], left);
    assert plan[1..] == Greedy(needs[1..], left, ok[1..]);
    var held := Held(plan[1..], pinned[1..], |caps|);
    var caps' := Minus(caps, Held(plan, pinned, |caps|));
    var needs' := ReducedNeeds(needs, plan, pinned);
    var first := if pinned[0] then Zeros(|caps|) else row;
    HeldCons(plan, pinned, |caps|, row);
    ReducedCons(needs, plan, pinned);
    FirstLineAgain(needs[0], caps, ok[0], row, held, pinned[0], Held(plan, pinned, |caps|), needs'[0]);
    GreedyCons(needs', caps', ok, first, needs'[1..], Minus(left, held));
    UnpinnedCons(plan, pinned, |caps|);
  }

  lemma FirstLineAgain(
      need: nat, caps: seq<nat>, ok: seq<bool>, row: seq<nat>, held: seq<nat>, pinned: bool,
      all: seq<nat>, need': nat)
    requires |caps| == |ok| == |all| && row == TakeRow(need, caps, ok) && Below(held, Minus(caps, row))
    requires forall j :: 0 <= j < |caps| ==> all[j] == (if pinned then row[j] else 0) + held[j]
    requires need' == if pinned then (if Sum(row) <= need then need - Sum(row) else 0) else need
    ensures
      var first := if pinned then Zeros(|caps|) else row;
      && TakeRow(need', Minus(caps, all), ok) == first
      && Minus(Minus(caps, row), held) == Minus(Minus(caps, all), first)
  {
    TakeRowIsFeasible(need, caps, ok);
    forall j | 0 <= j < |caps| ensures held[j] + row[j] <= caps[j] {
      assert held[j] <= Minus(caps, row)[j];
    }
    var caps' := Minus(caps, all);
    if pinned {
      NothingMoreToTake(need, need', caps, caps', ok, row);
    } else {
      SameTakeFromLess(need, caps, caps', ok);
    }
    MinusIs(caps', if pinned then Zeros(|caps|) else row, Minus(Minus(caps, row), held));
  }
}
