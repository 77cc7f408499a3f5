/** Collecting what each element of a list contributes, independently of the list's order. */
module Gathering {
  import opened Sorting
  import opened Percentiles

  function Gather<X, T>(xs: seq<X>, pick: X -> seq<T>): seq<T>
  {
    if xs == [] then [] else Gather(xs[..|xs| - 1], pick) + pick(xs[|xs| - 1])
  }

  lemma {:induction false} GatherNext<X, T>(xs: seq<X>, x: X, pick: X -> seq<T>)
    ensures Gather(xs + [x], pick) == Gather(xs, pick) + pick(x)
  {
    assert (xs + [x])[..|xs|] == xs;
  }

  lemma {:induction false} GatherConcat<X, T>(xs: seq<X>, ys: seq<X>, pick: X -> seq<T>)
    ensures Gather(xs + ys, pick) == Gather(xs, pick) + Gather(ys, pick)
  {
    if ys == [] {
      assert xs + ys == xs;
    } else {
      var front, last := ys[..|ys| - 1], ys[|ys| - 1];
      hide Gather;
      assert xs + ys == (xs + front) + [last] && ys == front + [last];
      GatherNext(xs + front, last, pick);
      GatherNext(front, last, pick);
      GatherConcat(xs, front, pick);
    }
  }

  function Without<X>(xs: seq<X>, i: nat): (r: seq<X>)
    requires i < |xs|
    ensures |r| == |xs| - 1
  {
    xs[..i] + xs[i + 1..]
  }

  lemma {:induction false} WithoutElements<X>(xs: seq<X>, i: nat)
    requires i < |xs|
    ensures multiset(xs) == multiset(Without(xs, i)) + multiset{xs[i]}
  {
    assert xs == xs[..i] + [xs[i]] + xs[i + 1..];
  }

  lemma {:induction false} GatherWithout<X, T>(xs: seq<X>, i: nat, pick: X -> seq<T>)
    requires i < |xs|
    ensures multiset(Gather(xs, pick)) == multiset(Gather(Without(xs, i), pick)) + multiset(pick(xs[i]))
  {
    var n, rest := |xs| - 1, Without(xs, i);
    if i == n {
      assert rest == xs[..n];
    } else {
      GatherWithout(xs[..n], i, pick);
      assert rest == Without(xs[..n], i) + [xs[n]];
      hide Gather, Without;
      GatherNext(Without(xs[..n], i), xs[n], pick);
      assert xs == xs[..n] + [xs[n]];
      GatherNext(xs[..n], xs[n], pick);
    }
  }

  lemma {:induction false} IndexOf<X>(xs: seq<X>, x: X) returns (i: nat)
    requires x in multiset(xs)
    ensures i < |xs| && xs[i] == x
  {
    i :| 0 <= i < |xs| && xs[i] == x;
  }

  lemma {:induction false} SizeOf<X>(a: seq<X>, b: seq<X>)
    requires multiset(a) == multiset(b)
    ensures |a| == |b|
  {
    assert |multiset(a)| == |a| && |multiset(b)| == |b|;
  }

  lemma {:induction false} Cancel<X>(p: multiset<X>, q: multiset<X>, x: X)
    requires p + multiset{x} == q + multiset{x}
    ensures p == q
  {
    assert p == (p + multiset{x}) - multiset{x} && q == (q + multiset{x}) - multiset{x};
  }

  lemma {:induction false} GatherOfPermutation<X, T>(a: seq<X>, b: seq<X>, pick: X -> seq<T>)
    requires multiset(a) == multiset(b)
    ensures multiset(Gather(a, pick)) == multiset(Gather(b, pick))
    decreases |a|
  {
    hide Gather, Without;
    SizeOf(a, b);
    if a == [] {
      assert b == [];
    } else {
      var n := |a| - 1;
      WithoutElements(a, n);
      var i := IndexOf(b, a[n]);
      WithoutElements(b, i);
      Cancel(multiset(Without(a, n)), multiset(Without(b, i)), a[n]);
      GatherWithout(a, n, pick);
      GatherWithout(b, i, pick);
      GatherOfPermutation(Without(a, n), Without(b, i), pick);
    }
  }

  lemma {:induction false} DistinctPermutation<X>(a: seq<X>, b: seq<X>)
    requires forall i, j :: 0 <= i < j < |a| ==> a[i] != a[j]
    requires forall i, j :: 0 <= i < j < |b| ==> b[i] != b[j]
    requires forall x :: x in a <==> x in b
    ensures multiset(a) == multiset(b)
  {
    forall x ensures multiset(a)[x] == multiset(b)[x] {
      AtMostOnce(a, x);
      AtMostOnce(b, x);
    }
  }

  lemma {:induction false} AtMostOnce<X>(s: seq<X>, x: X)
    requires forall i, j :: 0 <= i < j < |s| ==> s[i] != s[j]
    ensures multiset(s)[x] == if x in s then 1 else 0
  {
    if s != [] {
      var front, last := s[..|s| - 1], s[|s| - 1];
      assert s == front + [last];
      AtMostOnce(front, x);
    }
  }

  // ---- totals ----

  lemma {:induction false} TotalAppend(a: seq<real>, b: seq<real>)
    ensures Total(a + b) == Total(a) + Total(b)
  {
    if a == [] {
      assert a + b == b;
    } else {
      assert (a + b)[1..] == a[1..] + b;
      TotalAppend(a[1..], b);
    }
  }

  lemma {:induction false} TotalOfPermutation(a: seq<real>, b: seq<real>)
    requires multiset(a) == multiset(b)
    ensures Total(a) == Total(b)
  {
    TotalSort(a);
    TotalSort(b);
    SortedSame(a, b);
  }

  lemma {:induction false} SortedSame(a: seq<real>, b: seq<real>)
    requires multiset(a) == multiset(b)
    ensures Sort(a, RealLe) == Sort(b, RealLe)
  {
    SortOfPermutation(a, b, RealLe);
  }
}
