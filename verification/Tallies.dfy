/** Sums over finite sets and the ascending listing of a set of ids. */
module Tallies {

  ghost function SumBy<T>(s: set<T>, weight: T -> nat): nat {
    if s == {} then 0
    else
      var x :| x in s;
      weight(x) + SumBy(s - {x}, weight)
  }

  lemma {:induction false} SumRemove<T>(s: set<T>, weight: T -> nat, x: T)
    requires x in s
    ensures SumBy(s, weight) == weight(x) + SumBy(s - {x}, weight)
    decreases s
  {
    var y :| y in s && SumBy(s, weight) == weight(y) + SumBy(s - {y}, weight);
    if y != x {
      SumRemove(s - {y}, weight, x);
      SumRemove(s - {x}, weight, y);
      assert s - {y} - {x} == s - {x} - {y};
    }
  }

  lemma SumAdd<T>(s: set<T>, weight: T -> nat, x: T)
    requires x !in s
    ensures SumBy(s + {x}, weight) == SumBy(s, weight) + weight(x)
  {
    SumRemove(s + {x}, weight, x);
    assert s + {x} - {x} == s;
  }

  /** Disjoint parts add up. */
  lemma {:induction false} SumUnion<T>(a: set<T>, b: set<T>, weight: T -> nat)
    requires a !! b
    ensures SumBy(a + b, weight) == SumBy(a, weight) + SumBy(b, weight)
    decreases b
  {
    if b == {} {
      assert a + b == a;
    } else {
      var x :| x in b;
      SumUnion(a, b - {x}, weight);
      SumAdd(a + (b - {x}), weight, x);
      SumRemove(b, weight, x);
      assert a + (b - {x}) + {x} == a + b;
    }
  }

  /** A missing entry counts as zero. */
  function Lookup<K(==)>(totals: map<K, nat>, k: K): nat { if k in totals then totals[k] else 0 }

  ghost function Least(ids: set<nat>): (x: nat)
    requires ids != {}
    ensures x in ids && forall y: nat :: y in ids ==> x <= y
    decreases ids
  {
    var y :| y in ids;
    var rest := ids - {y};
    assert ids == rest + {y};
    if rest == {} then y
    else
      var z := Least(rest);
      if y <= z then y else z
  }

  /** The ids in increasing order. */
  ghost function Ascending(ids: set<nat>): seq<nat>
    decreases ids
  {
    if ids == {} then [] else [Least(ids)] + Ascending(ids - {Least(ids)})
  }

  ghost predicate Increasing(s: seq<nat>) {
    forall i, k :: 0 <= i < k < |s| ==> s[i] < s[k]
  }

  lemma {:induction false} AscendingMembers(ids: set<nat>, x: nat)
    ensures x in Ascending(ids) <==> x in ids
    decreases ids
  {
    if ids != {} { AscendingMembers(ids - {Least(ids)}, x); }
  }

  lemma {:induction false} AscendingIncreases(ids: set<nat>)
    ensures Increasing(Ascending(ids))
    decreases ids
  {
    if ids != {} {
      var least, rest := Least(ids), Ascending(ids - {Least(ids)});
      AscendingIncreases(ids - {least});
      forall k | 0 <= k < |rest| ensures least < rest[k] {
        AscendingMembers(ids - {least}, rest[k]);
      }
      IncreasingCons(least, rest);
    }
  }

  lemma IncreasingCons(x: nat, s: seq<nat>)
    requires Increasing(s) && forall k :: 0 <= k < |s| ==> x < s[k]
    ensures Increasing([x] + s)
  {
  }

  lemma AscendingIs(ids: set<nat>)
    ensures forall x: nat :: x in Ascending(ids) <==> x in ids
    ensures Increasing(Ascending(ids))
  {
    AscendingIncreases(ids);
    forall x: nat ensures x in Ascending(ids) <==> x in ids { AscendingMembers(ids, x); }
  }
}
