/** Array.prototype.sort with a comparison function: stable, by insertion. */
module StableSort {

  /** The comparison is a total preorder, as sort() expects of it. */
  ghost predicate IsOrder<T(!new)>(compare: (T, T) -> int) {
    && (forall a, b :: compare(a, b) <= 0 || compare(b, a) <= 0)
    && (forall a, b, c :: Chains(compare, a, b, c))
  }

  predicate Chains<T>(compare: (T, T) -> int, a: T, b: T, c: T) {
    compare(a, b) <= 0 && compare(b, c) <= 0 ==> compare(a, c) <= 0
  }

  ghost predicate InOrder<T>(compare: (T, T) -> int, s: seq<T>) {
    forall i, j :: 0 <= i < j < |s| ==> compare(s[i], s[j]) <= 0
  }

  /** Behind the last element that need not come after `x`. */
  function PlaceOf<T>(compare: (T, T) -> int, s: seq<T>, x: T): (k: nat)
    ensures k <= |s|
    ensures k > 0 ==> compare(s[k - 1], x) <= 0
    ensures forall i :: k <= i < |s| ==> compare(s[i], x) > 0
  {
    if s == [] || compare(s[|s| - 1], x) <= 0 then |s| else PlaceOf(compare, s[..|s| - 1], x)
  }

  function Inserted<T>(s: seq<T>, k: nat, x: T): seq<T>
    requires k <= |s|
  {
    s[..k] + [x] + s[k..]
  }

  function Sorted<T>(compare: (T, T) -> int, s: seq<T>): seq<T> {
    if s == [] then []
    else
      var before, x := Sorted(compare, s[..|s| - 1]), s[|s| - 1];
      Inserted(before, PlaceOf(compare, before, x), x)
  }

  lemma {:induction false} InsertedMembers<T>(s: seq<T>, k: nat, x: T)
    requires k <= |s|
    ensures multiset(Inserted(s, k, x)) == multiset(s) + multiset{x}
  {
    assert s == s[..k] + s[k..];
  }

  /** Sorting rearranges. */
  lemma {:induction false} SortedMembers<T>(compare: (T, T) -> int, s: seq<T>)
    ensures multiset(Sorted(compare, s)) == multiset(s)
  {
    if s != [] {
      var n := |s| - 1;
      var before := Sorted(compare, s[..n]);
      SortedMembers(compare, s[..n]);
      InsertedMembers(before, PlaceOf(compare, before, s[n]), s[n]);
      assert s == s[..n] + [s[n]];
    }
  }

  lemma {:induction false} InsertedAt<T>(s: seq<T>, k: nat, x: T, i: nat)
    requires k <= |s| && i <= |s|
    ensures |Inserted(s, k, x)| == |s| + 1
    ensures Inserted(s, k, x)[i] == if i < k then s[i] else if i == k then x else s[i - 1]
  {
  }

  ghost predicate Divides<T>(compare: (T, T) -> int, s: seq<T>, k: nat, x: T)
    requires k <= |s|
  {
    && (forall i :: 0 <= i < k ==> compare(s[i], x) <= 0)
    && (forall i :: k <= i < |s| ==> compare(x, s[i]) <= 0)
  }

  lemma {:induction false} InsertedInOrder<T>(compare: (T, T) -> int, s: seq<T>, k: nat, x: T)
    requires k <= |s| && InOrder(compare, s) && Divides(compare, s, k, x)
    ensures InOrder(compare, Inserted(s, k, x))
  {
    var t := Inserted(s, k, x);
    forall i, j | 0 <= i < j < |t| ensures compare(t[i], t[j]) <= 0 {
      InsertedAt(s, k, x, i);
      InsertedAt(s, k, x, j);
    }
  }

  lemma {:induction false} PlaceDivides<T(!new)>(compare: (T, T) -> int, s: seq<T>, x: T)
    requires IsOrder(compare) && InOrder(compare, s)
    ensures Divides(compare, s, PlaceOf(compare, s, x), x)
  {
    var k := PlaceOf(compare, s, x);
    forall i | 0 <= i < k ensures compare(s[i], x) <= 0 {
      if i < k - 1 { assert Chains(compare, s[i], s[k - 1], x); }
    }
  }

  /** Sorting puts in order. */
  lemma {:induction false} SortedInOrder<T(!new)>(compare: (T, T) -> int, s: seq<T>)
    requires IsOrder(compare)
    ensures InOrder(compare, Sorted(compare, s))
  {
    if s != [] {
      var n := |s| - 1;
      var before := Sorted(compare, s[..n]);
      SortedInOrder(compare, s[..n]);
      PlaceDivides(compare, before, s[n]);
      InsertedInOrder(compare, before, PlaceOf(compare, before, s[n]), s[n]);
    }
  }
}
