/** The cost of a finished run, from micro-units to the cents booked on order lines and on the new
    surplus lot. One cent is 10 000 micro-units. */
module ProductionCost {
  import opened Arithmetic
  import opened Sorting
  import opened Fefo
  import opened SurplusTheorems
  import opened CostApportionment
  import Output = ProductionOutput

  const MICROS_PER_CENT: nat := 10000

  datatype Recipient = Recipient(lineId: nat, quantity: nat)

  datatype CostResult =
    | Apportioned(amounts: map<nat, nat>, lotCost: Option<nat>)
    | NoPositiveOutput
    | QuantitiesDoNotAddUp

  function Quantities(direct: seq<Recipient>): (w: seq<nat>)
    ensures |w| == |direct|
  {
    seq(|direct|, i requires 0 <= i < |direct| => direct[i].quantity)
  }

  function Weights(direct: seq<Recipient>, excess: int): seq<nat> {
    Quantities(direct) + if excess > 0 then [excess] else []
  }

  /** The whole cost, rounded half up to cents once. */
  function RoundedCents(cost: nat): nat { (cost + MICROS_PER_CENT / 2) / MICROS_PER_CENT }

  /** Whole cents per recipient: the second pass weighs by the first pass's micro-units. */
  function Cents(cost: nat, weights: seq<nat>): (c: seq<nat>)
    requires Sum(weights) > 0
    ensures |c| == |weights|
  {
    var micros := Hamilton(cost, weights);
    if Sum(micros) > 0 then Hamilton(RoundedCents(cost), micros) else seq(|micros|, _ => 0)
  }

  function Amounts(direct: seq<Recipient>, cents: seq<nat>, n: nat): map<nat, nat>
    requires n <= |direct| <= |cents|
  {
    if n == 0 then map[] else Amounts(direct, cents, n - 1)[direct[n - 1].lineId := cents[n - 1]]
  }

  method ApportionProductionCost(cost: nat, output: int, direct: seq<Recipient>, excess: int)
      returns (result: CostResult)
    ensures
      var weights := Weights(direct, excess);
      result ==
        if output <= 0 then NoPositiveOutput
        else if Sum(weights) == 0 then Apportioned(map[], None)
        else if Sum(weights) != output then QuantitiesDoNotAddUp
        else
          Apportioned(
            Amounts(direct, Cents(cost, weights), |direct|),
            if excess > 0 then Some(Cents(cost, weights)[|direct|]) else None)
  {
    hide Sum, Hamilton;
    if output <= 0 { return NoPositiveOutput; }
    var weights := Quantities(direct);
    if excess > 0 {
      weights := weights + [excess];
    } else {
      assert Weights(direct, excess) == weights;
    }
    if Sum(weights) == 0 { return Apportioned(map[], None); }
    if Sum(weights) != output { return QuantitiesDoNotAddUp; }
    var micros := HamiltonApportion(cost, weights);
    var cents := seq(|micros|, _ => 0);
    if Sum(micros) > 0 {
      cents := HamiltonApportion((cost + MICROS_PER_CENT / 2) / MICROS_PER_CENT, micros);
    }
    var amounts: map<nat, nat> := map[];
    for i := 0 to |direct|
      invariant amounts == Amounts(direct, cents, i)
    {
      amounts := amounts[direct[i].lineId := cents[i]];
    }
    result := Apportioned(amounts, if excess > 0 then Some(cents[|direct|]) else None);
  }

  // ---- what the cents satisfy ----

  lemma {:induction false} ZerosSum(n: nat)
    ensures Sum(seq(n, _ => 0)) == 0
  {
    SumZero(seq(n, _ => 0));
  }

  /** To the cent: the shares add up to the whole cost rounded once. */
  lemma CentsSumExactly(cost: nat, weights: seq<nat>)
    requires Sum(weights) > 0
    ensures Sum(Cents(cost, weights)) == RoundedCents(cost)
  {
    hide Sum, Hamilton;
    HamiltonSumsExactly(cost, weights);
    var micros := Hamilton(cost, weights);
    if cost > 0 {
      HamiltonSumsExactly(RoundedCents(cost), micros);
    } else {
      ZerosSum(|micros|);
    }
  }

  lemma MicroBound(cost: nat, weights: seq<nat>, i: nat)
    requires Sum(weights) > 0 && i < |weights|
    ensures -15000 < MICROS_PER_CENT * Cents(cost, weights)[i] - Hamilton(cost, weights)[i] < 15000
  {
    hide Sum, Hamilton;
    HamiltonSumsExactly(cost, weights);
    var micros := Hamilton(cost, weights);
    if cost > 0 {
      var target, cents := RoundedCents(cost), Cents(cost, weights)[i];
      HamiltonKeepsQuota(target, micros, i);
      PartOfSum(micros, i);
      CentBound(cost, target, micros[i], cents);
    } else {
      PartOfSum(micros, i);
    }
  }

  lemma CentBound(cost: nat, target: nat, micro: nat, cents: nat)
    requires cost > 0 && micro <= cost
    requires -5000 <= 10000 * target - cost <= 5000
    requires target * micro - cost < cost * cents < target * micro + cost
    ensures -15000 < 10000 * cents - micro < 15000
  {
    var d, e := 10000 * target - cost, 10000 * cents - micro;
    ProductBound(d, micro, cost);
    assert d * micro == 10000 * (target * micro) - cost * micro by {
      assert (10000 * target - cost) * micro == 10000 * target * micro - cost * micro;
    }
    assert cost * e == 10000 * (cost * cents) - cost * micro by {
      assert cost * (10000 * cents - micro) == cost * (10000 * cents) - cost * micro;
    }
    Divide(cost, e, 15000);
  }

  lemma ProductBound(d: int, micro: nat, cost: nat)
    requires -5000 <= d <= 5000 && micro <= cost
    ensures -5000 * cost <= d * micro <= 5000 * cost
  {
    Scale(micro, d, 5000);
    Scale(micro, -5000, d);
  }

  lemma Divide(cost: nat, e: int, bound: int)
    requires cost > 0 && bound > 0 && -(bound * cost) < cost * e < bound * cost
    ensures -bound < e < bound
  {
    Monotone(cost, bound, e);
    Monotone(cost, e, -bound);
  }

  /** Proportion: no share is 1.5001 cents or more away from its exact part of the cost. */
  lemma CentsAreProportional(cost: nat, weights: seq<nat>, i: nat)
    requires Sum(weights) > 0 && i < |weights|
    ensures
      var error := MICROS_PER_CENT * Sum(weights) * Cents(cost, weights)[i] - cost * weights[i];
      -(15001 * Sum(weights)) < error < 15001 * Sum(weights)
  {
    hide Sum, Hamilton, Cents;
    MicroBound(cost, weights, i);
    HamiltonKeepsQuota(cost, weights, i);
    Compose(Sum(weights), cost * weights[i], Hamilton(cost, weights)[i], Cents(cost, weights)[i]);
  }

  lemma Compose(sum: nat, exact: int, micro: nat, cents: nat)
    requires sum > 0 && exact - sum < sum * micro < exact + sum
    requires -15000 < 10000 * cents - micro < 15000
    ensures -(15001 * sum) < 10000 * sum * cents - exact < 15001 * sum
  {
    var e := 10000 * cents - micro;
    Scale(sum, e, 14999);
    Scale(sum, -14999, e);
    assert sum * e == 10000 * sum * cents - sum * micro by {
      assert sum * (10000 * cents - micro) == sum * (10000 * cents) - sum * micro;
    }
  }

  /** Priority: an earlier recipient with at least as much quantity never gets fewer cents. */
  lemma CentsAreFair(cost: nat, weights: seq<nat>, i: nat, k: nat)
    requires Sum(weights) > 0 && i < k < |weights| && weights[i] >= weights[k]
    ensures Cents(cost, weights)[i] >= Cents(cost, weights)[k]
  {
    hide Sum, Hamilton;
    HamiltonIsFair(cost, weights, i, k);
    var micros := Hamilton(cost, weights);
    if Sum(micros) > 0 { HamiltonIsFair(RoundedCents(cost), micros, i, k); }
  }

  /** A recipient of nothing pays nothing. */
  lemma NoQuantityNoCents(cost: nat, weights: seq<nat>, i: nat)
    requires Sum(weights) > 0 && i < |weights| && weights[i] == 0
    ensures Cents(cost, weights)[i] == 0
  {
    hide Sum, Hamilton;
    HamiltonKeepsQuota(cost, weights, i);
    var micros := Hamilton(cost, weights);
    if Sum(micros) > 0 { HamiltonKeepsQuota(RoundedCents(cost), micros, i); }
  }

  /** Exactly when a later recipient of more gets fewer cents: its micro-units tie with the earlier
      recipient's and the leftover cents run out between the two. It is then one cent less. */
  lemma LaterHeavierGetsLessIff(cost: nat, weights: seq<nat>, i: nat, k: nat)
    requires Sum(weights) > 0 && i < k < |weights| && weights[i] < weights[k]
    ensures
      var micros := Hamilton(cost, weights);
      Cents(cost, weights)[k] < Cents(cost, weights)[i] <==>
        micros[i] == micros[k] && Sum(micros) > 0 && RunsOutBetween(RoundedCents(cost), micros, i, k)
    ensures Cents(cost, weights)[i] <= Cents(cost, weights)[k] + 1
  {
    hide Sum, Hamilton, RunsOutBetween;
    var micros := Hamilton(cost, weights);
    HeavierNeverGetsLess(cost, weights, k, i);
    if Sum(micros) > 0 {
      if micros[i] == micros[k] {
        EqualWeightsDifferIff(RoundedCents(cost), micros, i, k);
      } else {
        HeavierNeverGetsLess(RoundedCents(cost), micros, k, i);
      }
    }
  }

  /** A recipient that is heavier by two micro-units' worth of quantity never gets less, wherever it
      stands. */
  lemma ClearlyHeavierNeverGetsLess(cost: nat, weights: seq<nat>, i: nat, k: nat)
    requires Sum(weights) > 0 && i < |weights| && k < |weights|
    requires cost * weights[k] >= cost * weights[i] + 2 * Sum(weights)
    ensures Cents(cost, weights)[k] >= Cents(cost, weights)[i]
  {
    hide Sum, Hamilton;
    var micros := Hamilton(cost, weights);
    HamiltonKeepsQuota(cost, weights, i);
    HamiltonKeepsQuota(cost, weights, k);
    Apart2(Sum(weights), cost, weights[i], weights[k], micros[i], micros[k]);
    if Sum(micros) > 0 { HeavierNeverGetsLess(RoundedCents(cost), micros, k, i); }
  }

  lemma Apart2(sum: nat, cost: nat, wi: nat, wk: nat, mi: nat, mk: nat)
    requires sum > 0 && cost * wk >= cost * wi + 2 * sum
    requires cost * wk - sum < sum * mk && sum * mi < cost * wi + sum
    ensures mk > mi
  {
    Monotone(sum, mk, mi);
  }

  /** Quantity alone does not order the cents: a later recipient of slightly more can get less. */
  lemma HeavierButLaterMayGetLess()
    ensures
      var weights := [1000000, 1000001];
      Sum(weights) > 0 && Cents(10000, weights)[0] == 1 && Cents(10000, weights)[1] == 0
  {
    var weights: seq<nat> := [1000000, 1000001];
    assert weights[1..] == [1000001] && [1000001][1..] == [];
    assert Sum(weights) == 2000001;
    HamiltonSumsExactly(10000, weights);
    var micros := Hamilton(10000, weights);
    HamiltonKeepsQuota(10000, weights, 0);
    HamiltonKeepsQuota(10000, weights, 1);
    TwoPart(micros);
    assert micros[1] == 5000 by {
      BonusToFirst(weights);
    }
    assert micros == [5000, 5000];
    HamiltonIsFair(1, micros, 0, 1);
    HamiltonSumsExactly(1, micros);
    TwoPart(Hamilton(1, micros));
  }

  lemma TwoPart(s: seq<nat>)
    requires |s| == 2
    ensures Sum(s) == s[0] + s[1]
  {
    assert s[1..] == [s[1]] && s[1..][1..] == [];
    assert Sum(s[1..]) == s[1] + Sum([]);
  }

  lemma BonusToFirst(weights: seq<nat>)
    requires weights == [1000000, 1000001] && Sum(weights) == 2000001
    ensures Hamilton(10000, weights)[1] == 5000
  {
    hide Sum, BonusOrder;
    var rems := Remainders(10000, weights);
    assert rems[0] == 1995001 && rems[1] == 5000;
    var bases := Bases(10000, weights);
    assert bases == [4999, 5000];
    TwoPart(bases);
    assert Left(10000, weights) == 1;
    GotBonus(10000, weights, 1);
    var order := BonusOrder(rems);
    BonusOrderIs(rems);
    assert Precedes(rems, 0, 1);
    if 1 in order[..1] { BonusIsUpwardClosed(rems, 1, 0, 1); }
  }

  // ---- the cost of a finish ----

  function Recipients(shares: seq<Output.Share>): seq<Recipient> {
    seq(|shares|, i requires 0 <= i < |shares| =>
      Recipient(shares[i].lineId, if shares[i].quantity > 0 then shares[i].quantity else 0))
  }

  /** Cents booked on the recipients of `direct`, as the amounts map has them. */
  function Booked(direct: seq<Recipient>, amounts: map<nat, nat>, n: nat): nat
    requires n <= |direct|
  {
    if n == 0 then 0
    else
      Booked(direct, amounts, n - 1)
      + if direct[n - 1].lineId in amounts then amounts[direct[n - 1].lineId] else 0
  }

  ghost predicate DistinctRecipients(direct: seq<Recipient>) {
    forall i, k :: 0 <= i < k < |direct| ==> direct[i].lineId != direct[k].lineId
  }

  lemma {:induction false} AmountsAre(direct: seq<Recipient>, cents: seq<nat>, n: nat)
    requires n <= |direct| <= |cents| && DistinctRecipients(direct)
    ensures forall i :: 0 <= i < n ==>
      direct[i].lineId in Amounts(direct, cents, n) && Amounts(direct, cents, n)[direct[i].lineId] == cents[i]
  {
    if n > 0 { AmountsAre(direct, cents, n - 1); }
  }

  lemma {:induction false} BookedIsSum(direct: seq<Recipient>, cents: seq<nat>, amounts: map<nat, nat>, n: nat)
    requires n <= |direct| <= |cents|
    requires forall i :: 0 <= i < |direct| ==> direct[i].lineId in amounts && amounts[direct[i].lineId] == cents[i]
    ensures Booked(direct, amounts, n) == Sum(cents[..n])
  {
    hide Sum;
    if n == 0 {
      assert cents[..0] == [];
      Nothing(0);
    } else {
      BookedIsSum(direct, cents, amounts, n - 1);
      PrefixStep(cents, n);
      SumSnoc(cents[..n - 1], cents[n - 1]);
    }
  }

  lemma {:induction false} SharedQuantities(shares: seq<Output.Share>)
    requires forall i :: 0 <= i < |shares| ==> shares[i].quantity > 0
    ensures Sum(Quantities(Recipients(shares))) == Output.Given(shares)
  {
    hide Sum;
    if shares == [] {
      Nothing(0);
    } else {
      var n := |shares| - 1;
      SharedQuantities(shares[..n]);
      SumSnoc(Quantities(Recipients(shares[..n])), shares[n].quantity);
      assert Quantities(Recipients(shares)) == Quantities(Recipients(shares[..n])) + [shares[n].quantity];
    }
  }

  lemma {:induction false} SharesAreDistinct(lines: seq<Output.DemandLine>, output: int, n: nat)
    requires n <= |lines| && Apart(lines, Output.LineId)
    ensures DistinctRecipients(Recipients(Output.Shares(lines, output, n)))
    ensures forall s :: s in Output.Shares(lines, output, n) ==>
      s.quantity > 0 && exists i :: 0 <= i < n && lines[i].lineId == s.lineId
  {
    if n > 0 {
      SharesAreDistinct(lines, output, n - 1);
      var before := Output.Shares(lines, output, n - 1);
      forall i | 0 <= i < |before| ensures before[i].lineId != lines[n - 1].lineId {
        assert before[i] in before;
        var k :| 0 <= k < n - 1 && lines[k].lineId == before[i].lineId;
        assert Output.LineId(lines[k]) != Output.LineId(lines[n - 1]);
      }
      var after := Output.Shares(lines, output, n);
      if Output.ShareOf(lines, output, n - 1) > 0 {
        assert Recipients(after) == Recipients(before) + [Recipient(lines[n - 1].lineId, after[|before|].quantity)];
      }
    }
  }

  /** Finish books the whole rounded cost: for any demand and any positive output the recipients
      and the excess add up to the output, so the sum check never fires, and the cents on order
      lines plus the new lot's source cost are the run's cost rounded once. */
  lemma FinishBooksTheWholeCost(lines: seq<Output.DemandLine>, output: nat, productId: nat, cost: nat)
    requires Apart(lines, Output.LineId) && output > 0
    ensures
      var sorted := Output.InOrder(lines, productId);
      var direct := Recipients(Output.Shares(sorted, output, |sorted|));
      var excess := Output.Excess(sorted, output);
      && Sum(Weights(direct, excess)) == output
      && var cents := Cents(cost, Weights(direct, excess));
         Booked(direct, Amounts(direct, cents, |direct|), |direct|) + (if excess > 0 then cents[|direct|] else 0)
         == RoundedCents(cost)
  {
    hide Sum, Cents, Booked, RoundedCents, Output.InOrder, Output.Shares, Output.Given, Output.Excess;
    var sorted := Output.InOrder(lines, productId);
    var shares := Output.Shares(sorted, output, |sorted|);
    var excess := Output.Excess(sorted, output);
    InOrderApart(lines, productId);
    SharesAreDistinct(sorted, output, |sorted|);
    Output.OutputIsConserved(sorted, output);
    SharedQuantities(shares);
    WeightsSum(Recipients(shares), excess);
    BookedAndLot(Recipients(shares), excess, cost);
  }

  lemma InOrderApart(lines: seq<Output.DemandLine>, productId: nat)
    requires Apart(lines, Output.LineId)
    ensures Apart(Output.InOrder(lines, productId), Output.LineId)
  {
    Output.OfProductApart(lines, productId);
    SortApart(Output.OfProduct(lines, productId), Output.LineKey, Output.LineId);
  }

  lemma BookedAndLot(direct: seq<Recipient>, excess: int, cost: nat)
    requires DistinctRecipients(direct) && Sum(Weights(direct, excess)) > 0
    ensures
      var cents := Cents(cost, Weights(direct, excess));
      Booked(direct, Amounts(direct, cents, |direct|), |direct|) + (if excess > 0 then cents[|direct|] else 0)
      == RoundedCents(cost)
  {
    hide Sum, Cents, Amounts, Booked, RoundedCents;
    var cents := Cents(cost, Weights(direct, excess));
    CentsSumExactly(cost, Weights(direct, excess));
    AmountsAre(direct, cents, |direct|);
    BookedIsSum(direct, cents, Amounts(direct, cents, |direct|), |direct|);
    SumOfTwoParts(cents, |direct|);
  }

  lemma SumOfTwoParts(values: seq<nat>, n: nat)
    requires n <= |values| <= n + 1
    ensures Sum(values) == Sum(values[..n]) + if |values| == n + 1 then values[n] else 0
  {
    hide Sum;
    if |values| == n + 1 {
      assert values == values[..n] + [values[n]];
      SumSnoc(values[..n], values[n]);
    } else {
      assert values == values[..n];
    }
  }

  lemma WeightsSum(direct: seq<Recipient>, excess: int)
    requires excess >= 0
    ensures Sum(Weights(direct, excess)) == Sum(Quantities(direct)) + excess
  {
    hide Sum;
    if excess > 0 {
      SumSnoc(Quantities(direct), excess);
    } else {
      assert Weights(direct, excess) == Quantities(direct);
    }
  }
}
