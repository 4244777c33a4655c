/**
  A stable sort driven by a comparison, standing for `Array.prototype.sort` and for
  the database's `ORDER BY`. Both are only ever used through the two facts proved
  here: the result is a sorted permutation, and a sorted permutation is unique as
  soon as the comparison tells the elements apart.
*/
module Sorting {

  ghost predicate TotalPreorder<T(!new)>(le: (T, T) -> bool) {
    && (forall x, y :: le(x, y) || le(y, x))
    && (forall x, y, z :: le(x, y) && le(y, z) ==> le(x, z))
  }

  ghost predicate Sorted<T>(le: (T, T) -> bool, s: seq<T>) {
    forall i, j | 0 <= i < j < |s| :: le(s[i], s[j])
  }

  /** `le` never ties two different elements of `s`. */
  ghost predicate Separates<T>(le: (T, T) -> bool, s: seq<T>) {
    forall x, y | x in s && y in s && le(x, y) && le(y, x) :: x == y
  }

  ghost predicate Distinct<T>(s: seq<T>) {
    forall i, j | 0 <= i < j < |s| :: s[i] != s[j]
  }

  function Insert<T>(le: (T, T) -> bool, x: T, s: seq<T>): seq<T> {
    if s == [] then [x]
    else if le(x, s[0]) then [x] + s
    else [s[0]] + Insert(le, x, s[1..])
  }

  function SortBy<T>(le: (T, T) -> bool, s: seq<T>): seq<T> {
    if s == [] then [] else Insert(le, s[0], SortBy(le, s[1..]))
  }

  lemma {:induction false} InsertPermutes<T>(le: (T, T) -> bool, x: T, s: seq<T>)
    ensures multiset(Insert(le, x, s)) == multiset{x} + multiset(s)
  {
    if s != [] {
      assert s == [s[0]] + s[1..];
      if !le(x, s[0]) {
        InsertPermutes(le, x, s[1..]);
      }
    }
  }

  lemma {:induction false} SortPermutes<T>(le: (T, T) -> bool, s: seq<T>)
    ensures multiset(SortBy(le, s)) == multiset(s)
    ensures |SortBy(le, s)| == |s|
  {
    if s != [] {
      assert s == [s[0]] + s[1..];
      SortPermutes(le, s[1..]);
      InsertPermutes(le, s[0], SortBy(le, s[1..]));
    }
    SameMultisetSameSize(SortBy(le, s), s);
  }

  lemma SameMultisetSameSize<T>(a: seq<T>, b: seq<T>)
    requires multiset(a) == multiset(b)
    ensures |a| == |b|
  {
    assert |a| == |multiset(a)| && |b| == |multiset(b)|;
  }

  lemma {:induction false} InsertSorts<T(!new)>(le: (T, T) -> bool, x: T, s: seq<T>)
    requires TotalPreorder(le) && Sorted(le, s)
    ensures Sorted(le, Insert(le, x, s))
  {
    if s != [] && !le(x, s[0]) {
      var rest := Insert(le, x, s[1..]);
      InsertSorts(le, x, s[1..]);
      InsertPermutes(le, x, s[1..]);
      forall y | y in rest ensures le(s[0], y) {
        assert y in multiset(rest);
        assert y == x || y in s[1..];
      }
    }
  }

  lemma {:induction false} SortSorts<T(!new)>(le: (T, T) -> bool, s: seq<T>)
    requires TotalPreorder(le)
    ensures Sorted(le, SortBy(le, s))
  {
    if s != [] {
      SortSorts(le, s[1..]);
      InsertSorts(le, s[0], SortBy(le, s[1..]));
    }
  }

  /** Sorted arrangements of the same elements begin alike. */
  lemma SameFirst<T>(le: (T, T) -> bool, a: seq<T>, b: seq<T>)
    requires Sorted(le, a) && Sorted(le, b) && Separates(le, a) && a != [] && b != []
    requires a[0] in b && b[0] in a
    ensures a[0] == b[0]
  {
    var i :| 0 <= i < |b| && b[i] == a[0];
    var j :| 0 <= j < |a| && a[j] == b[0];
    if i > 0 && j > 0 {
      assert le(b[0], b[i]) && le(a[0], a[j]);
    }
  }

  lemma SameRest<T>(a: seq<T>, b: seq<T>)
    requires a != [] && b != [] && a[0] == b[0] && multiset(a) == multiset(b)
    ensures multiset(a[1..]) == multiset(b[1..])
  {
    assert a == [a[0]] + a[1..] && b == [b[0]] + b[1..];
    assert multiset(a[1..]) == multiset(a) - multiset{a[0]};
    assert multiset(b[1..]) == multiset(b) - multiset{b[0]};
  }

  /** Two sorted arrangements of the same elements are the same sequence. */
  lemma {:induction false} SortedUnique<T>(le: (T, T) -> bool, a: seq<T>, b: seq<T>)
    requires Sorted(le, a) && Sorted(le, b) && multiset(a) == multiset(b)
    requires Separates(le, a)
    ensures a == b
  {
    SameMultisetSameSize(a, b);
    if a != [] {
      assert a[0] in multiset(b) && b[0] in multiset(a);
      SameFirst(le, a, b);
      SameRest(a, b);
      SortedUnique(le, a[1..], b[1..]);
      assert a == [a[0]] + a[1..] && b == [b[0]] + b[1..];
    }
  }

  /** Sorting forgets the order it was given, when the comparison separates the elements. */
  lemma SortForgetsOrder<T(!new)>(le: (T, T) -> bool, a: seq<T>, b: seq<T>)
    requires TotalPreorder(le) && multiset(a) == multiset(b) && Separates(le, a)
    ensures SortBy(le, a) == SortBy(le, b)
  {
    SortSorts(le, a);
    SortSorts(le, b);
    SortPermutes(le, a);
    SortPermutes(le, b);
    forall x | x in SortBy(le, a) ensures x in a {
      assert x in multiset(SortBy(le, a));
    }
    SortedUnique(le, SortBy(le, a), SortBy(le, b));
  }

  /** Repetition-free sequences with the same elements are permutations of each other. */
  lemma {:induction false} SameElementsPermute<T>(a: seq<T>, b: seq<T>)
    requires Distinct(a) && Distinct(b)
    requires forall x :: x in a <==> x in b
    ensures multiset(a) == multiset(b)
  {
    DistinctCounts(a);
    DistinctCounts(b);
    forall x ensures multiset(a)[x] == multiset(b)[x] {
      assert x in multiset(a) <==> x in a;
      assert x in multiset(b) <==> x in b;
    }
  }

  lemma {:induction false} DistinctCounts<T>(a: seq<T>)
    requires Distinct(a)
    ensures forall x | x in a :: multiset(a)[x] == 1
  {
    if a != [] {
      assert a == [a[0]] + a[1..];
      DistinctCounts(a[1..]);
      forall x | x in a ensures multiset(a)[x] == 1 {
        if x == a[0] {
          assert x !in a[1..];
          assert x !in multiset(a[1..]);
        }
      }
    }
  }

  /** The converse: permuting keeps a sequence free of repetitions. */
  lemma PermutationStaysDistinct<T>(a: seq<T>, b: seq<T>)
    requires Distinct(a) && multiset(a) == multiset(b)
    ensures Distinct(b)
  {
    DistinctCounts(a);
    forall i, j | 0 <= i < j < |b| ensures b[i] != b[j] {
      RepeatCountsTwice(b, i, j);
      assert b[i] in multiset(a);
    }
  }

  lemma RepeatCountsTwice<T>(b: seq<T>, i: nat, j: nat)
    requires i < j < |b|
    ensures b[i] == b[j] ==> multiset(b)[b[i]] >= 2
  {
    assert b == b[..i] + [b[i]] + b[i+1..j] + [b[j]] + b[j+1..];
  }

  function Mapped<A, B>(f: A -> B, s: seq<A>): (r: seq<B>)
    ensures |r| == |s|
    ensures forall i | 0 <= i < |s| :: r[i] == f(s[i])
  {
    seq(|s|, i requires 0 <= i < |s| => f(s[i]))
  }

  function Without<T>(s: seq<T>, k: nat): seq<T>
    requires k < |s|
  {
    s[..k] + s[k+1..]
  }

  lemma MappedWithout<A, B>(f: A -> B, s: seq<A>, k: nat)
    requires k < |s|
    ensures multiset(Mapped(f, s)) == multiset(Mapped(f, Without(s, k))) + multiset{f(s[k])}
  {
    var r := Mapped(f, s);
    assert r == r[..k] + [r[k]] + r[k+1..];
    assert Mapped(f, Without(s, k)) == r[..k] + r[k+1..];
  }

  /**
    When `g` sees no more of an element than `f` does, sequences that `f` maps to
    permutations of each other are mapped to permutations by `g` too.
  */
  lemma {:induction false} PermutationFactors<A, B, C>(f: A -> B, g: A -> C, a: seq<A>, b: seq<A>)
    requires multiset(Mapped(f, a)) == multiset(Mapped(f, b))
    requires forall x, y | x in a && y in b && f(x) == f(y) :: g(x) == g(y)
    ensures multiset(Mapped(g, a)) == multiset(Mapped(g, b))
    decreases |a|
  {
    SameMultisetSameSize(Mapped(f, a), Mapped(f, b));
    if a != [] {
      assert Mapped(f, a)[0] in multiset(Mapped(f, b));
      var k :| 0 <= k < |b| && Mapped(f, b)[k] == f(a[0]);
      MappedWithout(f, a, 0);
      MappedWithout(f, b, k);
      MappedWithout(g, a, 0);
      MappedWithout(g, b, k);
      assert a[0] in a && b[k] in b;
      assert multiset(Mapped(f, Without(a, 0))) == multiset(Mapped(f, a)) - multiset{f(a[0])};
      assert multiset(Mapped(f, Without(b, k))) == multiset(Mapped(f, b)) - multiset{f(a[0])};
      PermutationFactors(f, g, Without(a, 0), Without(b, k));
    }
  }

  lemma MappedPermutation<A, B>(f: A -> B, a: seq<A>, b: seq<A>)
    requires multiset(a) == multiset(b)
    ensures multiset(Mapped(f, a)) == multiset(Mapped(f, b))
  {
    var id := (x: A) => x;
    assert Mapped(id, a) == a && Mapped(id, b) == b;
    PermutationFactors(id, f, a, b);
  }

  // ----- filtering -----

  function Filter<T>(p: T -> bool, s: seq<T>): seq<T> {
    if s == [] then [] else if p(s[0]) then [s[0]] + Filter(p, s[1..]) else Filter(p, s[1..])
  }

  lemma {:induction false} FilterAgrees<T(!new)>(p: T -> bool, q: T -> bool, s: seq<T>)
    requires forall r :: p(r) == q(r)
    ensures Filter(p, s) == Filter(q, s)
  {
    if s != [] { FilterAgrees(p, q, s[1..]); }
  }

  lemma {:induction false} FilterCounts<T>(p: T -> bool, s: seq<T>, x: T)
    ensures multiset(Filter(p, s))[x] == if p(x) then multiset(s)[x] else 0
  {
    if s != [] {
      FilterCounts(p, s[1..], x);
      assert s == [s[0]] + s[1..];
    }
  }

  lemma FilterHolds<T>(p: T -> bool, s: seq<T>, x: T)
    ensures x in Filter(p, s) <==> x in s && p(x)
  {
    FilterCounts(p, s, x);
    assert x in Filter(p, s) <==> multiset(Filter(p, s))[x] > 0;
    assert x in s <==> multiset(s)[x] > 0;
  }

  /** Elements told apart by `f` stay so when some are left out. */
  lemma {:induction false} FilterKeepsDistinct<T, K>(p: T -> bool, f: T -> K, s: seq<T>)
    requires Distinct(Mapped(f, s))
    ensures Distinct(Mapped(f, Filter(p, s)))
  {
    if s != [] {
      var rest := Filter(p, s[1..]);
      assert Distinct(Mapped(f, s[1..])) by {
        assert forall i | 0 <= i < |s[1..]| :: Mapped(f, s[1..])[i] == Mapped(f, s)[i + 1];
      }
      FilterKeepsDistinct(p, f, s[1..]);
      forall i | 0 <= i < |rest| ensures f(rest[i]) != f(s[0]) {
        FilterHolds(p, s[1..], rest[i]);
        var j :| 0 <= j < |s[1..]| && s[1..][j] == rest[i];
        assert Mapped(f, s)[j + 1] != Mapped(f, s)[0];
      }
    }
  }

  lemma SortKeepsDistinct<T, K>(le: (T, T) -> bool, f: T -> K, s: seq<T>)
    requires Distinct(Mapped(f, s))
    ensures Distinct(Mapped(f, SortBy(le, s)))
  {
    SortPermutes(le, s);
    MappedPermutation(f, s, SortBy(le, s));
    PermutationStaysDistinct(Mapped(f, s), Mapped(f, SortBy(le, s)));
  }

  function Take<T>(s: seq<T>, n: nat): seq<T> {
    if |s| <= n then s else s[..n]
  }

  /** What is left out of the first `n` comes after all of them. */
  lemma TakenFirst<T>(le: (T, T) -> bool, s: seq<T>, n: nat, e: T)
    requires Sorted(le, s) && e in s && e !in Take(s, n)
    ensures |Take(s, n)| == n && forall t | t in Take(s, n) :: le(t, e)
  {
    var j :| 0 <= j < |s| && s[j] == e;
    forall i | 0 <= i < n && i < |s| ensures s[i] != e {
      assert Take(s, n)[i] in Take(s, n);
    }
  }

  lemma TakeKeepsDistinct<T, K>(f: T -> K, s: seq<T>, n: nat)
    requires Distinct(Mapped(f, s))
    ensures Distinct(Mapped(f, Take(s, n))) && |Take(s, n)| <= n && forall t | t in Take(s, n) :: t in s
  {
    assert forall i | 0 <= i < |Take(s, n)| :: Mapped(f, Take(s, n))[i] == Mapped(f, s)[i];
  }
}
