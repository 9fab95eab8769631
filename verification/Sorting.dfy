/** Sorting by a key, as the allocators do it: keys are compared lexicographically and the sort is
    stable. When keys are distinct the result depends only on which elements there are. */
module Sorting {

  datatype Option<+T> = None | Some(value: T)

  datatype Key = Key(a: int, b: int, c: int, d: int)

  predicate Less(x: Key, y: Key) {
    || x.a < y.a
    || (x.a == y.a && x.b < y.b)
    || (x.a == y.a && x.b == y.b && x.c < y.c)
    || (x.a == y.a && x.b == y.b && x.c == y.c && x.d < y.d)
  }

  function Insert<T>(x: T, s: seq<T>, key: T -> Key): (r: seq<T>) {
    if s == [] || !Less(key(s[0]), key(x)) then [x] + s
    else [s[0]] + Insert(x, s[1..], key)
  }

  /** Inserting from the back keeps equal keys in their original order. */
  function Sort<T>(s: seq<T>, key: T -> Key): (r: seq<T>) {
    if s == [] then [] else Insert(s[0], Sort(s[1..], key), key)
  }

  ghost predicate Sorted<T>(s: seq<T>, key: T -> Key) {
    forall i, j :: 0 <= i < j < |s| ==> !Less(key(s[j]), key(s[i]))
  }

  lemma {:induction false} InsertKeeps<T>(x: T, s: seq<T>, key: T -> Key)
    ensures multiset(Insert(x, s, key)) == multiset{x} + multiset(s)
    ensures |Insert(x, s, key)| == |s| + 1
  {
    if s == [] || !Less(key(s[0]), key(x)) {
    } else {
      InsertKeeps(x, s[1..], key);
      assert s == [s[0]] + s[1..];
    }
  }

  lemma {:induction false} SortKeeps<T>(s: seq<T>, key: T -> Key)
    ensures multiset(Sort(s, key)) == multiset(s)
    ensures |Sort(s, key)| == |s|
  {
    if s != [] {
      SortKeeps(s[1..], key);
      InsertKeeps(s[0], Sort(s[1..], key), key);
      assert s == [s[0]] + s[1..];
    }
  }

  lemma {:induction false} InsertSorted<T>(x: T, s: seq<T>, key: T -> Key)
    requires Sorted(s, key)
    ensures Sorted(Insert(x, s, key), key)
    ensures Insert(x, s, key)[0] == x || (s != [] && Insert(x, s, key)[0] == s[0])
  {
    if s == [] || !Less(key(s[0]), key(x)) {
    } else {
      InsertSorted(x, s[1..], key);
      var rest := Insert(x, s[1..], key);
      forall j | 0 <= j < |rest| ensures !Less(key(rest[j]), key(s[0])) {
        InsertKeeps(x, s[1..], key);
        assert rest[j] in multiset(rest);
        assert rest[j] in multiset{x} + multiset(s[1..]);
      }
    }
  }

  lemma {:induction false} SortSorts<T>(s: seq<T>, key: T -> Key)
    ensures Sorted(Sort(s, key), key)
  {
    if s != [] {
      SortSorts(s[1..], key);
      InsertSorted(s[0], Sort(s[1..], key), key);
    }
  }

  lemma SortMembers<T>(s: seq<T>, key: T -> Key, x: T)
    ensures x in Sort(s, key) <==> x in s
  {
    SortKeeps(s, key);
    assert x in Sort(s, key) <==> x in multiset(Sort(s, key));
    assert x in s <==> x in multiset(s);
  }

  /** Two sorted sequences with the same elements, keyed apart, are the same sequence. */
  lemma {:induction false} SortedIsUnique<T>(r: seq<T>, s: seq<T>, key: T -> Key)
    requires Sorted(r, key) && Sorted(s, key) && multiset(r) == multiset(s)
    requires forall x, y :: x in r && y in r && key(x) == key(y) ==> x == y
    ensures r == s
  {
    if r == [] {
      assert |multiset(r)| == |multiset(s)|;
    } else {
      assert r[0] in multiset(s);
      assert s != [];
      FirstIsLeast(r, s, key);
      assert r == [r[0]] + r[1..] && s == [s[0]] + s[1..];
      assert multiset(r[1..]) == multiset(r) - multiset{r[0]};
      assert multiset(s[1..]) == multiset(s) - multiset{s[0]};
      SortedIsUnique(r[1..], s[1..], key);
    }
  }

  lemma FirstIsLeast<T>(r: seq<T>, s: seq<T>, key: T -> Key)
    requires Sorted(r, key) && Sorted(s, key) && multiset(r) == multiset(s) && r != [] && s != []
    requires forall x, y :: x in r && y in r && key(x) == key(y) ==> x == y
    ensures r[0] == s[0]
  {
    assert r[0] in multiset(s) && s[0] in multiset(r);
    var i :| 0 <= i < |s| && s[i] == r[0];
    var j :| 0 <= j < |r| && r[j] == s[0];
    assert !Less(key(s[i]), key(s[0])) && !Less(key(r[j]), key(r[0]));
  }

  /** Sorting forgets the order the elements came in. */
  lemma SortIgnoresInputOrder<T>(r: seq<T>, s: seq<T>, key: T -> Key)
    requires multiset(r) == multiset(s)
    requires forall x, y :: x in r && y in r && key(x) == key(y) ==> x == y
    ensures Sort(r, key) == Sort(s, key)
  {
    SortKeeps(r, key);
    SortKeeps(s, key);
    SortSorts(r, key);
    SortSorts(s, key);
    forall x, y | x in Sort(r, key) && y in Sort(r, key) && key(x) == key(y) ensures x == y {
      SortMembers(r, key, x);
      SortMembers(r, key, y);
    }
    SortedIsUnique(Sort(r, key), Sort(s, key), key);
  }

  ghost predicate Apart<T>(s: seq<T>, id: T -> nat) {
    forall i, k :: 0 <= i < k < |s| ==> id(s[i]) != id(s[k])
  }

  lemma InsertMembers<T>(x: T, s: seq<T>, key: T -> Key, y: T)
    ensures y in Insert(x, s, key) <==> y == x || y in s
  {
    InsertKeeps(x, s, key);
    assert y in Insert(x, s, key) <==> y in multiset(Insert(x, s, key));
    assert y in s <==> y in multiset(s);
  }

  lemma {:induction false} InsertApart<T>(x: T, s: seq<T>, key: T -> Key, id: T -> nat)
    requires Apart(s, id) && forall i :: 0 <= i < |s| ==> id(s[i]) != id(x)
    ensures Apart(Insert(x, s, key), id)
  {
    if s == [] || !Less(key(s[0]), key(x)) {
    } else {
      InsertApart(x, s[1..], key, id);
      var rest := Insert(x, s[1..], key);
      forall k | 0 <= k < |rest| ensures id(rest[k]) != id(s[0]) {
        InsertMembers(x, s[1..], key, rest[k]);
      }
    }
  }

  /** Sorting keeps ids apart. */
  lemma {:induction false} SortApart<T>(s: seq<T>, key: T -> Key, id: T -> nat)
    requires Apart(s, id)
    ensures Apart(Sort(s, key), id)
  {
    if s != [] {
      SortApart(s[1..], key, id);
      var rest := Sort(s[1..], key);
      forall k | 0 <= k < |rest| ensures id(rest[k]) != id(s[0]) {
        SortMembers(s[1..], key, rest[k]);
      }
      InsertApart(s[0], rest, key, id);
    }
  }
}
