/** Python's `sorted`: a stable sort by an order given as a function, and `sorted(set(...))`,
    which also drops repeats. */
module Sorting {
  import opened Text

  /** No element twice. */
  ghost predicate Distinct<T>(xs: seq<T>) {
    forall i, j :: 0 <= i < j < |xs| ==> xs[i] != xs[j]
  }

  ghost predicate TotalPreorder<T(!new)>(le: (T, T) -> bool) {
    && (forall a, b :: le(a, b) || le(b, a))
    && (forall a, b, c :: le(a, b) && le(b, c) ==> le(a, c))
  }

  ghost predicate Sorted<T>(le: (T, T) -> bool, xs: seq<T>) {
    forall i, j :: 0 <= i < j < |xs| ==> le(xs[i], xs[j])
  }

  function Insert<T>(le: (T, T) -> bool, xs: seq<T>, x: T): seq<T> {
    if xs == [] then [x]
    else
      var n := |xs| - 1;
      if le(xs[n], x) then xs + [x] else Insert(le, xs[..n], x) + [xs[n]]
  }

  function Sort<T>(le: (T, T) -> bool, xs: seq<T>): seq<T> {
    if xs == [] then [] else Insert(le, Sort(le, xs[..|xs| - 1]), xs[|xs| - 1])
  }

  lemma {:induction false} InsertPermutes<T>(le: (T, T) -> bool, xs: seq<T>, x: T)
    ensures multiset(Insert(le, xs, x)) == multiset(xs) + multiset{x}
  {
    if xs != [] {
      var n := |xs| - 1;
      InsertPermutes(le, xs[..n], x);
      LastCounted(xs);
    }
  }

  lemma LastCounted<T>(xs: seq<T>)
    requires xs != []
    ensures multiset(xs) == multiset(xs[..|xs| - 1]) + multiset{xs[|xs| - 1]}
  {
    assert xs == xs[..|xs| - 1] + [xs[|xs| - 1]];
  }

  /** A sort keeps every element exactly as often as it occurs. */
  lemma {:induction false} SortPermutes<T>(le: (T, T) -> bool, xs: seq<T>)
    ensures multiset(Sort(le, xs)) == multiset(xs)
  {
    if xs != [] {
      var n := |xs| - 1;
      SortPermutes(le, xs[..n]);
      InsertPermutes(le, Sort(le, xs[..n]), xs[n]);
      LastCounted(xs);
    }
  }

  lemma SortMembers<T>(le: (T, T) -> bool, xs: seq<T>)
    ensures |Sort(le, xs)| == |xs|
    ensures forall x :: x in Sort(le, xs) <==> x in xs
  {
    SortPermutes(le, xs);
    assert |Sort(le, xs)| == |multiset(Sort(le, xs))|;
    forall x ensures x in Sort(le, xs) <==> x in xs {
      assert x in Sort(le, xs) <==> x in multiset(Sort(le, xs));
    }
  }

  lemma {:induction false} InsertSorted<T(!new)>(le: (T, T) -> bool, xs: seq<T>, x: T)
    requires TotalPreorder(le) && Sorted(le, xs)
    ensures Sorted(le, Insert(le, xs, x))
  {
    if xs != [] {
      var n := |xs| - 1;
      if le(xs[n], x) {
        assert forall i :: 0 <= i < n ==> le(xs[i], xs[n]);
      } else {
        var front := Insert(le, xs[..n], x);
        InsertSorted(le, xs[..n], x);
        InsertPermutes(le, xs[..n], x);
        forall i | 0 <= i < |front| ensures le(front[i], xs[n]) {
          assert front[i] in multiset(front);
          assert front[i] == x || front[i] in xs[..n];
        }
      }
    }
  }

  lemma {:induction false} SortSorted<T(!new)>(le: (T, T) -> bool, xs: seq<T>)
    requires TotalPreorder(le)
    ensures Sorted(le, Sort(le, xs))
  {
    if xs != [] {
      SortSorted(le, xs[..|xs| - 1]);
      InsertSorted(le, Sort(le, xs[..|xs| - 1]), xs[|xs| - 1]);
    }
  }

  // --- Strictly ascending sequences: the sorted form of a set ---

  ghost predicate StrictOrder<T(!new)>(less: (T, T) -> bool) {
    && (forall a :: !less(a, a))
    && (forall a, b, c :: less(a, b) && less(b, c) ==> less(a, c))
    && (forall a, b :: less(a, b) || a == b || less(b, a))
  }

  ghost predicate Ascending<T>(less: (T, T) -> bool, xs: seq<T>) {
    forall i, j :: 0 <= i < j < |xs| ==> less(xs[i], xs[j])
  }

  function InsertUnique<T(==, !new)>(less: (T, T) -> bool, xs: seq<T>, x: T): (r: seq<T>)
    ensures forall y :: y in r <==> y in xs || y == x
  {
    if xs == [] then [x]
    else
      var n := |xs| - 1;
      assert xs == xs[..n] + [xs[n]];
      if xs[n] == x then xs
      else if less(xs[n], x) then xs + [x]
      else InsertUnique(less, xs[..n], x) + [xs[n]]
  }

  function SortedUnique<T(==, !new)>(less: (T, T) -> bool, xs: seq<T>): (r: seq<T>)
    ensures forall y :: y in r <==> y in xs
  {
    if xs == [] then []
    else
      assert xs == xs[..|xs| - 1] + [xs[|xs| - 1]];
      InsertUnique(less, SortedUnique(less, xs[..|xs| - 1]), xs[|xs| - 1])
  }

  lemma {:induction false} InsertUniqueAscending<T(!new)>(less: (T, T) -> bool, xs: seq<T>, x: T)
    requires StrictOrder(less) && Ascending(less, xs)
    ensures Ascending(less, InsertUnique(less, xs, x))
  {
    if xs != [] {
      var n := |xs| - 1;
      if xs[n] == x {
      } else if less(xs[n], x) {
        assert forall i :: 0 <= i < n ==> less(xs[i], xs[n]);
      } else {
        var front := InsertUnique(less, xs[..n], x);
        InsertUniqueAscending(less, xs[..n], x);
        forall i | 0 <= i < |front| ensures less(front[i], xs[n]) {
          assert front[i] in front;
          assert front[i] == x || front[i] in xs[..n];
        }
      }
    }
  }

  /** `sorted(set(xs))` is strictly ascending; with the contract of `SortedUnique` (the same members)
      that fixes it. */
  lemma {:induction false} SortedUniqueAscending<T(!new)>(less: (T, T) -> bool, xs: seq<T>)
    requires StrictOrder(less)
    ensures Ascending(less, SortedUnique(less, xs))
  {
    if xs != [] {
      SortedUniqueAscending(less, xs[..|xs| - 1]);
      InsertUniqueAscending(less, SortedUnique(less, xs[..|xs| - 1]), xs[|xs| - 1]);
    }
  }

  /** Python's order of strings. */
  lemma StringOrder()
    ensures StrictOrder(Less)
  {
    forall a, b ensures Less(a, b) || a == b || Less(b, a) {
      LessTrichotomy(a, b);
    }
    forall a ensures !Less(a, a) {
      LessIrreflexive(a);
    }
    forall a, b, c | Less(a, b) && Less(b, c) ensures Less(a, c) {
      LessTransitive(a, b, c);
    }
  }

  lemma AscendingDistinct<T(!new)>(less: (T, T) -> bool, xs: seq<T>)
    requires StrictOrder(less) && Ascending(less, xs)
    ensures Distinct(xs)
  {
    forall i, j | 0 <= i < j < |xs| ensures xs[i] != xs[j] {
      assert less(xs[i], xs[j]);
    }
  }
}
