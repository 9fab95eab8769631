/** Splitting a finished run's cost over its recipients in whole units, by largest remainder. A
    first pass splits micro-units by quantity, a second splits whole cents by the micro-unit
    shares. Recipients come in priority order, the surplus recipient last. */
module CostApportionment {
  import opened Arithmetic
  import opened Sorting
  import opened Fefo
  import opened SurplusTheorems

  function Base(total: nat, weights: seq<nat>, i: nat): nat
    requires i < |weights| && Sum(weights) > 0
  {
    total * weights[i] / Sum(weights)
  }

  function Remainder(total: nat, weights: seq<nat>, i: nat): nat
    requires i < |weights| && Sum(weights) > 0
  {
    total * weights[i] % Sum(weights)
  }

  function Bases(total: nat, weights: seq<nat>): (r: seq<nat>)
    requires Sum(weights) > 0
    ensures |r| == |weights|
  {
    seq(|weights|, i requires 0 <= i < |weights| => Base(total, weights, i))
  }

  function Remainders(total: nat, weights: seq<nat>): (r: seq<nat>)
    requires Sum(weights) > 0
    ensures |r| == |weights|
  {
    seq(|weights|, i requires 0 <= i < |weights| => Remainder(total, weights, i))
  }

  function Indices(n: nat): (r: seq<nat>)
    ensures |r| == n
  {
    seq(n, i => i)
  }

  /** Largest remainder first; the sort is stable, so ties keep priority order. */
  function ByRemainder(remainders: seq<nat>): nat -> Key {
    (i: nat) => Key(if i < |remainders| then 0 - remainders[i] as int else 0, 0, 0, 0)
  }

  function BonusOrder(remainders: seq<nat>): seq<nat> {
    Sort(Indices(|remainders|), ByRemainder(remainders))
  }

  /** Everyone gets the floor; the units left over go to the largest remainders. */
  function Shares(bases: seq<nat>, order: seq<nat>, bonus: nat): (r: seq<nat>)
    ensures |r| == |bases|
  {
    seq(|bases|, i requires 0 <= i < |bases| => bases[i] + if i in order[..Min(bonus, |order|)] then 1 else 0)
  }

  /** The units the floors leave over. */
  function Left(total: nat, weights: seq<nat>): nat
    requires Sum(weights) > 0
  {
    if Sum(Bases(total, weights)) <= total then total - Sum(Bases(total, weights)) else 0
  }

  function Hamilton(total: nat, weights: seq<nat>): (r: seq<nat>)
    requires Sum(weights) > 0
    ensures |r| == |weights|
  {
    Shares(Bases(total, weights), BonusOrder(Remainders(total, weights)), Left(total, weights))
  }

  // ---- the bonus units ----

  /** Recipient `i` is served before `k`: larger remainder, or the same and earlier. */
  predicate Precedes(remainders: seq<nat>, i: nat, k: nat)
    requires i < |remainders| && k < |remainders|
  {
    remainders[i] > remainders[k] || (remainders[i] == remainders[k] && i < k)
  }

  ghost predicate InBonusOrder(order: seq<nat>, remainders: seq<nat>) {
    && (forall a :: 0 <= a < |order| ==> order[a] < |remainders|)
    && (forall a, b :: 0 <= a < b < |order| ==> Precedes(remainders, order[a], order[b]))
  }

  lemma {:induction false} InsertEarlier(x: nat, order: seq<nat>, remainders: seq<nat>)
    requires InBonusOrder(order, remainders) && x < |remainders| && forall y :: y in order ==> x < y
    ensures InBonusOrder(Insert(x, order, ByRemainder(remainders)), remainders)
  {
    var key := ByRemainder(remainders);
    if order == [] || !Less(key(order[0]), key(x)) {
      forall b | 0 <= b < |order| ensures Precedes(remainders, x, order[b]) {
        assert order[b] in order;
        assert b > 0 ==> Precedes(remainders, order[0], order[b]);
        assert order[0] in order;
      }
    } else {
      forall y | y in order[1..] ensures x < y { assert y in order; }
      InsertEarlier(x, order[1..], remainders);
      var rest := Insert(x, order[1..], key);
      forall b | 0 <= b < |rest| ensures Precedes(remainders, order[0], rest[b]) {
        InsertMembers(x, order[1..], key, rest[b]);
      }
    }
  }

  lemma {:induction false} SortedByPrecedence(indices: seq<nat>, remainders: seq<nat>)
    requires forall a :: 0 <= a < |indices| ==> indices[a] < |remainders|
    requires forall a, b :: 0 <= a < b < |indices| ==> indices[a] < indices[b]
    ensures InBonusOrder(Sort(indices, ByRemainder(remainders)), remainders)
  {
    if indices != [] {
      SortedByPrecedence(indices[1..], remainders);
      var rest := Sort(indices[1..], ByRemainder(remainders));
      forall y | y in rest ensures indices[0] < y {
        SortMembers(indices[1..], ByRemainder(remainders), y);
      }
      InsertEarlier(indices[0], rest, remainders);
    }
  }

  /** The bonus order lists every recipient once, largest remainder first, ties by priority. */
  lemma BonusOrderIs(remainders: seq<nat>)
    ensures InBonusOrder(BonusOrder(remainders), remainders)
    ensures |BonusOrder(remainders)| == |remainders|
    ensures forall i: nat :: i < |remainders| ==> i in BonusOrder(remainders)
  {
    SortedByPrecedence(Indices(|remainders|), remainders);
    SortKeeps(Indices(|remainders|), ByRemainder(remainders));
    forall i: nat | i < |remainders| ensures i in BonusOrder(remainders) {
      assert Indices(|remainders|)[i] == i;
      SortMembers(Indices(|remainders|), ByRemainder(remainders), i);
    }
  }

  /** Whoever precedes a bonus recipient is one too. */
  lemma BonusIsUpwardClosed(remainders: seq<nat>, bonus: nat, i: nat, k: nat)
    requires bonus <= |remainders| && i < |remainders| && k < |remainders| && Precedes(remainders, i, k)
    requires k in BonusOrder(remainders)[..Min(bonus, |BonusOrder(remainders)|)]
    ensures i in BonusOrder(remainders)[..Min(bonus, |BonusOrder(remainders)|)]
  {
    BonusOrderIs(remainders);
    var order := BonusOrder(remainders);
    var b :| 0 <= b < bonus && order[b] == k;
    assert i in order;
    var a :| 0 <= a < |order| && order[a] == i;
    OrderTells(order, remainders, b, a);
  }

  lemma OrderTells(order: seq<nat>, remainders: seq<nat>, b: nat, a: nat)
    requires InBonusOrder(order, remainders) && a < |order| && b < |order|
    ensures b < a ==> Precedes(remainders, order[b], order[a])
  {
  }

  function CountBelow(chosen: set<nat>, n: nat): nat {
    if n == 0 then 0 else CountBelow(chosen, n - 1) + if n - 1 in chosen then 1 else 0
  }

  lemma {:induction false} CountIsSize(chosen: set<nat>, n: nat)
    requires forall i :: i in chosen ==> i < n
    ensures CountBelow(chosen, n) == |chosen|
  {
    if n == 0 {
      assert chosen == {};
    } else {
      CountIsSize(chosen - {n - 1}, n - 1);
      CountAgrees(chosen, chosen - {n - 1}, n - 1);
    }
  }

  lemma {:induction false} CountAgrees(a: set<nat>, b: set<nat>, n: nat)
    requires forall i :: 0 <= i < n ==> (i in a <==> i in b)
    ensures CountBelow(a, n) == CountBelow(b, n)
  {
    if n > 0 { CountAgrees(a, b, n - 1); }
  }

  lemma {:induction false} FlagsAdd(bases: seq<nat>, shares: seq<nat>, chosen: set<nat>, n: nat)
    requires n <= |bases| == |shares|
    requires forall i: nat :: i < |bases| ==> shares[i] == bases[i] + if i in chosen then 1 else 0
    ensures Sum(shares[..n]) == Sum(bases[..n]) + CountBelow(chosen, n)
  {
    hide Sum;
    if n == 0 {
      assert shares[..0] == [] && bases[..0] == [];
    } else {
      FlagsAdd(bases, shares, chosen, n - 1);
      PrefixStep(shares, n);
      PrefixStep(bases, n);
      SumSnoc(shares[..n - 1], shares[n - 1]);
      SumSnoc(bases[..n - 1], bases[n - 1]);
    }
  }

  function Members(order: seq<nat>): set<nat> { set i | i in order }

  lemma PrecededApart(order: seq<nat>, remainders: seq<nat>, m: nat)
    requires InBonusOrder(order, remainders) && 0 < m <= |order|
    ensures order[m - 1] !in order[..m - 1]
  {
    forall a | 0 <= a < m - 1 ensures order[a] != order[m - 1] {
      assert Precedes(remainders, order[a], order[m - 1]);
    }
  }

  lemma MembersSnoc(order: seq<nat>, x: nat)
    requires x !in order
    ensures |Members(order + [x])| == |Members(order)| + 1
  {
    assert Members(order + [x]) == Members(order) + {x};
  }

  lemma {:induction false} PrefixSize(order: seq<nat>, remainders: seq<nat>, m: nat)
    requires InBonusOrder(order, remainders) && m <= |order|
    ensures |Members(order[..m])| == m
  {
    hide Precedes;
    if m > 0 {
      PrefixSize(order, remainders, m - 1);
      PrefixStep(order, m);
      PrecededApart(order, remainders, m);
      hide Members;
      MembersSnoc(order[..m - 1], order[m - 1]);
    }
  }

  /** Exactly `bonus` recipients get one unit more. */
  lemma SharesSum(bases: seq<nat>, remainders: seq<nat>, bonus: nat)
    requires |bases| == |remainders| && bonus <= |bases|
    ensures Sum(Shares(bases, BonusOrder(remainders), bonus)) == Sum(bases) + bonus
  {
    hide Sum, BonusOrder;
    BonusOrderIs(remainders);
    var order := BonusOrder(remainders);
    var chosen := Members(order[..bonus]);
    var shares := Shares(bases, order, bonus);
    assert Min(bonus, |order|) == bonus;
    forall i: nat | i < |bases| ensures shares[i] == bases[i] + if i in chosen then 1 else 0 {
      assert i in order[..bonus] <==> i in chosen;
    }
    FlagsAdd(bases, shares, chosen, |bases|);
    PrefixSize(order, remainders, bonus);
    CountIsSize(chosen, |bases|);
    assert shares[..|bases|] == shares && bases[..|bases|] == bases;
  }

  // ---- floors and remainders add up ----

  lemma DivMod(total: nat, w: nat, sum: nat)
    requires sum > 0
    ensures total * w == sum * (total * w / sum) + total * w % sum
  {
  }

  lemma {:induction false} FloorsAndRemainders(total: nat, weights: seq<nat>, n: nat)
    requires n <= |weights| && Sum(weights) > 0
    ensures
      total * Sum(weights[..n])
      == Sum(weights) * Sum(Bases(total, weights)[..n]) + Sum(Remainders(total, weights)[..n])
  {
    hide Sum;
    var bases, rems, sum := Bases(total, weights), Remainders(total, weights), Sum(weights);
    if n == 0 {
      assert weights[..0] == [] && bases[..0] == [] && rems[..0] == [];
      Nothing(0);
    } else {
      FloorsAndRemainders(total, weights, n - 1);
      PrefixStep(weights, n);
      PrefixStep(bases, n);
      PrefixStep(rems, n);
      SumSnoc(weights[..n - 1], weights[n - 1]);
      SumSnoc(bases[..n - 1], bases[n - 1]);
      SumSnoc(rems[..n - 1], rems[n - 1]);
      DivMod(total, weights[n - 1], sum);
      Distribute(total, Sum(weights[..n - 1]), weights[n - 1]);
      Distribute(sum, Sum(bases[..n - 1]), bases[n - 1]);
    }
  }

  function Positive(values: seq<nat>): set<nat> { set i | 0 <= i < |values| && values[i] > 0 }

  lemma {:induction false} SumBelow(values: seq<nat>, bound: nat)
    requires forall i :: 0 <= i < |values| ==> values[i] < bound
    ensures Sum(values) + |Positive(values)| <= bound * |Positive(values)|
    ensures |Positive(values)| <= |values|
  {
    hide Sum;
    if values == [] {
      Nothing(0);
    } else {
      var n := |values| - 1;
      SumBelow(values[..n], bound);
      SumSnoc(values[..n], values[n]);
      assert values == values[..n] + [values[n]];
      if values[n] > 0 {
        assert Positive(values) == Positive(values[..n]) + {n};
        Distribute(bound, |Positive(values[..n])|, 1);
      } else {
        assert Positive(values) == Positive(values[..n]);
      }
    }
  }

  /** How many units are left over, and that there are at least as many fractional quotas. */
  lemma LeftOver(total: nat, weights: seq<nat>)
    requires Sum(weights) > 0
    ensures Sum(Bases(total, weights)) <= total
    ensures total - Sum(Bases(total, weights)) <= |Positive(Remainders(total, weights))| <= |weights|
  {
    hide Sum;
    var bases, rems, sum := Bases(total, weights), Remainders(total, weights), Sum(weights);
    FloorsAndRemainders(total, weights, |weights|);
    assert weights[..|weights|] == weights && bases[..|weights|] == bases && rems[..|weights|] == rems;
    SumBelow(rems, sum);
    CancelFactor(sum, total, Sum(bases), Sum(rems), |Positive(rems)|);
  }

  lemma CancelFactor(sum: nat, total: nat, floors: nat, rems: nat, n: nat)
    requires sum > 0 && total * sum == sum * floors + rems && rems + n <= sum * n
    ensures 0 <= total - floors <= n
  {
    var left := total - floors;
    Distribute(sum, floors, left);
    Monotone(sum, left, -1);
    Monotone(sum, n, left);
  }

  /** A pass hands out exactly its total. */
  lemma HamiltonSumsExactly(total: nat, weights: seq<nat>)
    requires Sum(weights) > 0
    ensures Sum(Hamilton(total, weights)) == total
  {
    hide Sum, Shares;
    LeftOver(total, weights);
    SharesSum(Bases(total, weights), Remainders(total, weights), Left(total, weights));
  }

  lemma GotBonus(total: nat, weights: seq<nat>, i: nat)
    requires Sum(weights) > 0 && i < |weights|
    ensures |BonusOrder(Remainders(total, weights))| == |weights| >= Left(total, weights)
    ensures
      var order := BonusOrder(Remainders(total, weights));
      Hamilton(total, weights)[i]
      == Base(total, weights, i) + if i in order[..Left(total, weights)] then 1 else 0
  {
    hide Sum, BonusOrder, Left;
    LeftFits(total, weights);
    BonusOrderIs(Remainders(total, weights));
    var order := BonusOrder(Remainders(total, weights));
    assert Min(Left(total, weights), |order|) == Left(total, weights);
    assert Hamilton(total, weights) == Shares(Bases(total, weights), order, Left(total, weights));
  }

  lemma LeftFits(total: nat, weights: seq<nat>)
    requires Sum(weights) > 0
    ensures Left(total, weights) <= |weights| && Left(total, weights) == total - Sum(Bases(total, weights))
  {
    LeftOver(total, weights);
  }

  /** Only a recipient with a fractional quota can get a bonus unit. */
  lemma BonusNeedsAFraction(total: nat, weights: seq<nat>, i: nat)
    requires Sum(weights) > 0 && i < |weights|
    requires Hamilton(total, weights)[i] > Base(total, weights, i)
    ensures Remainders(total, weights)[i] > 0
  {
    hide Sum, BonusOrder, Hamilton, Remainders;
    var rems, left := Remainders(total, weights), Left(total, weights);
    LeftOver(total, weights);
    GotBonus(total, weights, i);
    BonusOrderIs(rems);
    PrefixSize(BonusOrder(rems), rems, left);
    var given := Members(BonusOrder(rems)[..left]);
    forall k | k in Positive(rems) && rems[i] == 0 ensures k in given && k != i {
      BonusIsUpwardClosed(rems, left, k, i);
    }
    if rems[i] == 0 { SubsetSize(Positive(rems), given - {i}); }
  }

  lemma {:induction false} SubsetSize(a: set<nat>, b: set<nat>)
    requires a <= b
    ensures |a| <= |b|
    decreases a
  {
    if a != {} {
      var x :| x in a;
      SubsetSize(a - {x}, b - {x});
    }
  }

  /** Quota: every share is the floor of its exact proportion or, if that is not whole, the next
      integer. */
  lemma HamiltonKeepsQuota(total: nat, weights: seq<nat>, i: nat)
    requires Sum(weights) > 0 && i < |weights|
    ensures total * weights[i] - Sum(weights) < Sum(weights) * Hamilton(total, weights)[i]
      < total * weights[i] + Sum(weights)
    ensures weights[i] == 0 ==> Hamilton(total, weights)[i] == 0
  {
    hide Sum, Hamilton;
    var sum, share := Sum(weights), Hamilton(total, weights)[i];
    DivMod(total, weights[i], sum);
    ShareIsBaseOrNext(total, weights, i);
    if share > Base(total, weights, i) {
      BonusNeedsAFraction(total, weights, i);
      Distribute(sum, Base(total, weights, i), 1);
    }
  }

  lemma ShareIsBaseOrNext(total: nat, weights: seq<nat>, i: nat)
    requires Sum(weights) > 0 && i < |weights|
    ensures Base(total, weights, i) <= Hamilton(total, weights)[i] <= Base(total, weights, i) + 1
  {
  }

  /** Priority: an earlier recipient with at least as much weight never gets less. */
  lemma HamiltonIsFair(total: nat, weights: seq<nat>, i: nat, k: nat)
    requires Sum(weights) > 0 && i < k < |weights| && weights[i] >= weights[k]
    ensures Hamilton(total, weights)[i] >= Hamilton(total, weights)[k]
  {
    hide Sum, Hamilton, BonusOrder;
    var rems, left := Remainders(total, weights), Left(total, weights);
    QuotientsOrdered(total, weights[i], weights[k], Sum(weights));
    GotBonus(total, weights, i);
    GotBonus(total, weights, k);
    if Base(total, weights, i) == Base(total, weights, k) && k in BonusOrder(rems)[..left] {
      BonusIsUpwardClosed(rems, left, i, k);
    }
  }

  lemma QuotientsOrdered(total: nat, w: nat, w': nat, sum: nat)
    requires sum > 0 && w >= w'
    ensures total * w / sum >= total * w' / sum
    ensures total * w / sum == total * w' / sum ==> total * w % sum >= total * w' % sum
  {
    DivMod(total, w, sum);
    DivMod(total, w', sum);
    Scale(total, w', w);
    var q, q' := total * w / sum, total * w' / sum;
    Monotone(sum, q + 1, q');
    Distribute(sum, q, 1);
  }

  /** Weight: a strictly heavier recipient never gets less, wherever it stands. */
  lemma HeavierNeverGetsLess(total: nat, weights: seq<nat>, i: nat, k: nat)
    requires Sum(weights) > 0 && i < |weights| && k < |weights| && weights[i] > weights[k]
    ensures Hamilton(total, weights)[i] >= Hamilton(total, weights)[k]
  {
    hide Sum, Hamilton, BonusOrder;
    var rems, left := Remainders(total, weights), Left(total, weights);
    QuotientsOrdered(total, weights[i], weights[k], Sum(weights));
    StrictlyHeavier(total, weights[i], weights[k], Sum(weights));
    GotBonus(total, weights, i);
    GotBonus(total, weights, k);
    if total == 0 {
      HamiltonSumsExactly(total, weights);
      PartOfSum(Hamilton(total, weights), k);
    } else if Base(total, weights, i) == Base(total, weights, k) && k in BonusOrder(rems)[..left] {
      BonusIsUpwardClosed(rems, left, i, k);
    }
  }

  lemma StrictlyHeavier(total: nat, w: nat, w': nat, sum: nat)
    requires sum > 0 && w > w'
    ensures total > 0 && total * w / sum == total * w' / sum ==> total * w % sum > total * w' % sum
  {
    DivMod(total, w, sum);
    DivMod(total, w', sum);
    Monotone(total, w', w);
  }

  lemma {:induction false} PartOfSum(values: seq<nat>, i: nat)
    requires i < |values|
    ensures values[i] <= Sum(values)
  {
    if i > 0 { PartOfSum(values[1..], i - 1); }
  }

  /** The units left over after the floors go to `i` but no longer to `k`. */
  ghost predicate RunsOutBetween(total: nat, weights: seq<nat>, i: nat, k: nat)
    requires Sum(weights) > 0
  {
    var order := BonusOrder(Remainders(total, weights));
    var left := Min(Left(total, weights), |order|);
    i in order[..left] && k !in order[..left]
  }

  /** Between equal weights the shares differ exactly when the leftover units run out between them. */
  lemma EqualWeightsDifferIff(total: nat, weights: seq<nat>, i: nat, k: nat)
    requires Sum(weights) > 0 && i < k < |weights| && weights[i] == weights[k]
    ensures Hamilton(total, weights)[i]
      == Hamilton(total, weights)[k] + if RunsOutBetween(total, weights, i, k) then 1 else 0
  {
    hide Sum, Hamilton, BonusOrder;
    GotBonus(total, weights, i);
    GotBonus(total, weights, k);
    HamiltonIsFair(total, weights, i, k);
  }

  // ---- the pass as it runs ----

  method HamiltonApportion(total: nat, weights: seq<nat>) returns (shares: seq<nat>)
    requires Sum(weights) > 0
    ensures shares == Hamilton(total, weights)
  {
    hide Sum, BonusOrder, Base, Remainder, Hamilton, Left;
    var weightSum := Sum(weights);
    var bases: seq<nat>, remainders: seq<nat>, given := [], [], 0;
    Nothing(0);
    for i := 0 to |weights|
      invariant bases == Bases(total, weights)[..i]
      invariant remainders == Remainders(total, weights)[..i]
      invariant given == Sum(bases)
    {
      Quota(total, weights, i);
      var numerator := total * weights[i];
      SumSnoc(bases, numerator / weightSum);
      bases := bases + [numerator / weightSum];
      remainders := remainders + [numerator % weightSum];
      given := given + numerator / weightSum;
    }
    assert bases == Bases(total, weights) && remainders == Remainders(total, weights);
    LeftFits(total, weights);
    BonusOrderIs(remainders);
    var order := BonusOrder(remainders);
    var lucky := order[..total - given];
    shares := [];
    for i := 0 to |bases|
      invariant shares == Hamilton(total, weights)[..i]
    {
      GotBonus(total, weights, i);
      shares := shares + [bases[i] + if i in lucky then 1 else 0];
    }
  }

  lemma Quota(total: nat, weights: seq<nat>, i: nat)
    requires Sum(weights) > 0 && i < |weights|
    ensures Bases(total, weights)[i] == Base(total, weights, i) == total * weights[i] / Sum(weights)
    ensures Remainders(total, weights)[i] == Remainder(total, weights, i) == total * weights[i] % Sum(weights)
  {
  }
}
