/** Sorted lists as canonical forms of sets: what collecting from a Go map and sorting amounts to. */
module Ordering {
  /** Go's `<` on strings. */
  predicate Less(a: string, b: string) {
    b != [] && (a == [] || a[0] < b[0] || (a[0] == b[0] && Less(a[1..], b[1..])))
  }

  ghost predicate StrictTotal<T(!new)>(less: (T, T) -> bool) {
    && (forall a :: !less(a, a))
    && (forall a, b :: less(a, b) || less(b, a) || a == b)
    && (forall a, b, c :: less(a, b) && less(b, c) ==> less(a, c))
  }

  lemma {:induction false} LessIrreflexive(a: string)
    ensures !Less(a, a)
  {
    if a != [] {
      LessIrreflexive(a[1..]);
    }
  }

  lemma {:induction false} LessConnected(a: string, b: string)
    ensures Less(a, b) || Less(b, a) || a == b
  {
    if a != [] && b != [] && a[0] == b[0] {
      LessConnected(a[1..], b[1..]);
      assert a == [a[0]] + a[1..] && b == [b[0]] + b[1..];
    }
  }

  lemma {:induction false} LessTransitive(a: string, b: string, c: string)
    requires Less(a, b) && Less(b, c)
    ensures Less(a, c)
  {
    if a != [] && a[0] == b[0] && b[0] == c[0] {
      LessTransitive(a[1..], b[1..], c[1..]);
    }
  }

  lemma StringOrder()
    ensures StrictTotal(Less)
  {
    forall a: string
      ensures !Less(a, a)
    {
      LessIrreflexive(a);
    }
    forall a: string, b: string
      ensures Less(a, b) || Less(b, a) || a == b
    {
      LessConnected(a, b);
    }
    forall a: string, b: string, c: string | Less(a, b) && Less(b, c)
      ensures Less(a, c)
    {
      LessTransitive(a, b, c);
    }
  }

  predicate Sorted<T>(less: (T, T) -> bool, xs: seq<T>) {
    forall i, j | 0 <= i < j < |xs| :: less(xs[i], xs[j])
  }

  /** The elements of `s`, each once, in order. */
  predicate IsCanonical<T(==)>(less: (T, T) -> bool, s: set<T>, xs: seq<T>) {
    Sorted(less, xs) && (forall x | x in xs :: x in s) && (forall x | x in s :: x in xs)
  }

  /** A set has one sorted list, so the order in which it was collected leaves no trace. */
  lemma {:induction false} CanonicalIsUnique<T(!new)>(less: (T, T) -> bool, s: set<T>, xs: seq<T>, ys: seq<T>)
    requires StrictTotal(less) && IsCanonical(less, s, xs) && IsCanonical(less, s, ys)
    ensures xs == ys
    decreases |xs|
  {
    EmptyIsCanonical(less, s, xs);
    EmptyIsCanonical(less, s, ys);
    if xs != [] {
      assert xs[0] in s;
      assert xs[0] in ys && ys[0] in xs;
      assert xs[0] == ys[0];
      TailIsCanonical(less, s, xs);
      TailIsCanonical(less, s, ys);
      CanonicalIsUnique(less, s - {xs[0]}, xs[1..], ys[1..]);
    }
  }

  lemma EmptyIsCanonical<T(!new)>(less: (T, T) -> bool, s: set<T>, xs: seq<T>)
    requires IsCanonical(less, s, xs)
    ensures xs == [] <==> s == {}
  {
    if xs != [] {
      assert xs[0] in s;
    }
  }

  lemma TailIsCanonical<T(!new)>(less: (T, T) -> bool, s: set<T>, xs: seq<T>)
    requires StrictTotal(less) && IsCanonical(less, s, xs) && xs != []
    ensures IsCanonical(less, s - {xs[0]}, xs[1..])
  {
    forall x | x in xs[1..]
      ensures x in s - {xs[0]}
    {
      var i :| 0 < i < |xs| && xs[i] == x;
    }
  }

  function Insert<T(==)>(less: (T, T) -> bool, x: T, xs: seq<T>): seq<T> {
    if xs == [] || less(x, xs[0]) then [x] + xs else [xs[0]] + Insert(less, x, xs[1..])
  }

  /** A sort, in the place of `sort.Slice` and `sort.Strings`. */
  function Sort<T(==)>(less: (T, T) -> bool, xs: seq<T>): seq<T> {
    if xs == [] then [] else Insert(less, xs[0], Sort(less, xs[1..]))
  }

  lemma {:induction false} InsertKeepsSorted<T(!new)>(less: (T, T) -> bool, x: T, xs: seq<T>)
    requires StrictTotal(less) && Sorted(less, xs) && x !in xs
    ensures var r := Insert(less, x, xs); Sorted(less, r) && forall y :: y in r <==> y == x || y in xs
  {
    if xs != [] && !less(x, xs[0]) {
      var rest := xs[1..];
      assert xs[0] in xs;
      assert xs == [xs[0]] + rest;
      InsertKeepsSorted(less, x, rest);
      var r := Insert(less, x, rest);
      forall j | 0 <= j < |r|
        ensures less(xs[0], r[j])
      {
        assert r[j] in r;
      }
    }
  }

  predicate Distinct<T(==)>(xs: seq<T>) {
    forall i, j | 0 <= i < j < |xs| :: xs[i] != xs[j]
  }

  lemma {:induction false} SortIsCanonical<T(!new)>(less: (T, T) -> bool, xs: seq<T>)
    requires StrictTotal(less) && Distinct(xs)
    ensures IsCanonical(less, (set x | x in xs), Sort(less, xs))
  {
    if xs != [] {
      SortIsCanonical(less, xs[1..]);
      assert xs == [xs[0]] + xs[1..];
      assert Distinct(xs[1..]) && xs[0] !in xs[1..];
      InsertKeepsSorted(less, xs[0], Sort(less, xs[1..]));
    }
  }

  lemma {:induction false} CanonicalExists<T(!new)>(less: (T, T) -> bool, s: set<T>) returns (xs: seq<T>)
    requires StrictTotal(less)
    ensures IsCanonical(less, s, xs)
  {
    if s == {} {
      xs := [];
    } else {
      var x :| x in s;
      var rest := CanonicalExists(less, s - {x});
      xs := Insert(less, x, rest);
      InsertKeepsSorted(less, x, rest);
    }
  }

  lemma CanonicalWitness<T(!new)>(less: (T, T) -> bool, s: set<T>)
    requires StrictTotal(less)
    ensures exists xs :: IsCanonical(less, s, xs)
  {
    var xs := CanonicalExists(less, s);
  }

  /** The sorted list of a set. */
  ghost function Canonical<T(!new)>(less: (T, T) -> bool, s: set<T>): (xs: seq<T>)
    requires StrictTotal(less)
    ensures IsCanonical(less, s, xs)
  {
    CanonicalWitness(less, s);
    var xs :| IsCanonical(less, s, xs); xs
  }

  /** Collect from a set in any order and sort: the result is the sorted list of the set. */
  method CollectSorted<T(==, !new)>(less: (T, T) -> bool, s: set<T>) returns (xs: seq<T>)
    requires StrictTotal(less)
    ensures xs == Canonical(less, s)
  {
    var list: seq<T>, rest := [], s;
    while rest != {}
      invariant Distinct(list) && rest <= s
      invariant forall x :: x in list <==> x in s && x !in rest
      decreases rest
    {
      var x :| x in rest;
      list := list + [x];
      rest := rest - {x};
    }
    xs := Sort(less, list);
    SortIsCanonical(less, list);
    assert (set x | x in list) == s;
    CanonicalIsUnique(less, s, xs, Canonical(less, s));
  }
}
