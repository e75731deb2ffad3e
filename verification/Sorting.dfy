/** Sorting by a comparison, as the programs' built-in sorts do it. */
module Sorting {

  ghost predicate TotalPreorder<T(!new)>(atMost: (T, T) -> bool) {
    && (forall a, b :: atMost(a, b) || atMost(b, a))
    && (forall a, b, c :: atMost(a, b) && atMost(b, c) ==> atMost(a, c))
  }

  ghost predicate Antisymmetric<T(!new)>(atMost: (T, T) -> bool) {
    forall a, b :: atMost(a, b) && atMost(b, a) ==> a == b
  }

  predicate Ordered<T>(atMost: (T, T) -> bool, s: seq<T>) {
    forall i, j :: 0 <= i < j < |s| ==> atMost(s[i], s[j])
  }

  function Insert<T>(atMost: (T, T) -> bool, x: T, s: seq<T>): seq<T> {
    if s == [] then [x] else if atMost(x, s[0]) then [x] + s else [s[0]] + Insert(atMost, x, s[1..])
  }

  function Sorted<T>(atMost: (T, T) -> bool, s: seq<T>): seq<T> {
    if s == [] then [] else Insert(atMost, s[|s| - 1], Sorted(atMost, s[..|s| - 1]))
  }

  lemma {:induction false} InsertKeeps<T(!new)>(atMost: (T, T) -> bool, x: T, s: seq<T>)
    requires TotalPreorder(atMost) && Ordered(atMost, s)
    ensures Ordered(atMost, Insert(atMost, x, s)) && multiset(Insert(atMost, x, s)) == multiset(s) + multiset{x}
  {
    if s != [] && !atMost(x, s[0]) {
      InsertKeeps(atMost, x, s[1..]);
      assert s == [s[0]] + s[1..];
      var rest := Insert(atMost, x, s[1..]);
      forall i | 0 <= i < |rest| ensures atMost(s[0], rest[i]) {
        assert rest[i] in multiset(rest);
        assert rest[i] == x || rest[i] in s[1..];
      }
    } else {
      assert Insert(atMost, x, s) == [x] + s;
    }
  }

  lemma {:induction false} SortedIsOrdered<T(!new)>(atMost: (T, T) -> bool, s: seq<T>)
    requires TotalPreorder(atMost)
    ensures Ordered(atMost, Sorted(atMost, s)) && multiset(Sorted(atMost, s)) == multiset(s)
  {
    if s != [] {
      SortedIsOrdered(atMost, s[..|s| - 1]);
      InsertKeeps(atMost, s[|s| - 1], Sorted(atMost, s[..|s| - 1]));
      assert s == s[..|s| - 1] + [s[|s| - 1]];
    }
  }

  /** Two ordered lists with the same elements are the same list. */
  lemma {:induction false} OrderIsUnique<T(!new)>(atMost: (T, T) -> bool, a: seq<T>, b: seq<T>)
    requires Antisymmetric(atMost) && Ordered(atMost, a) && Ordered(atMost, b) && multiset(a) == multiset(b)
    ensures a == b
  {
    assert |a| == |multiset(a)| == |multiset(b)| == |b|;
    if a != [] {
      assert a[0] in multiset(a) && b[0] in multiset(b);
      assert a[0] in b && b[0] in a;
      assert a[0] == b[0];
      assert a == [a[0]] + a[1..] && b == [b[0]] + b[1..];
      assert multiset(a[1..]) == multiset(a) - multiset{a[0]};
      assert multiset(b[1..]) == multiset(b) - multiset{b[0]};
      OrderIsUnique(atMost, a[1..], b[1..]);
    }
  }

  /** Sorting forgets the order of its input. */
  lemma SortingIsOrderFree<T(!new)>(atMost: (T, T) -> bool, a: seq<T>, b: seq<T>)
    requires TotalPreorder(atMost) && Antisymmetric(atMost) && multiset(a) == multiset(b)
    ensures Sorted(atMost, a) == Sorted(atMost, b)
  {
    SortedIsOrdered(atMost, a);
    SortedIsOrdered(atMost, b);
    OrderIsUnique(atMost, Sorted(atMost, a), Sorted(atMost, b));
  }
}
