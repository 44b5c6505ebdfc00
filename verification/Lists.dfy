/** Lists as the models use them: distinct elements, first part and last element, and views. */
module Lists {

  predicate Distinct<T(==)>(xs: seq<T>)
  {
    forall i, j :: 0 <= i < j < |xs| ==> xs[i] != xs[j]
  }

  function Init<T>(xs: seq<T>): seq<T>
    requires xs != []
  {
    xs[..|xs| - 1]
  }

  function Last<T>(xs: seq<T>): T
    requires xs != []
  {
    xs[|xs| - 1]
  }

  // The keys of a dict after `d[x] = ...`: a known key keeps its place, a new one comes last.
  function Filed<T(==)>(xs: seq<T>, x: T): seq<T>
  {
    if x in xs then xs else xs + [x]
  }

  // All of xs but x, as after `del d[x]` for the keys of a dict.
  function Without<T(==)>(xs: seq<T>, x: T): seq<T>
  {
    if xs == [] then [] else (if xs[0] == x then [] else [xs[0]]) + Without(xs[1..], x)
  }

  lemma {:induction false} WithoutIsSublist<T>(xs: seq<T>, x: T)
    ensures forall y :: y in Without(xs, x) <==> y in xs && y != x
    ensures Distinct(xs) ==> Distinct(Without(xs, x))
  {
    if xs != [] {
      WithoutIsSublist(xs[1..], x);
      assert forall y :: y in xs <==> y == xs[0] || y in xs[1..];
      if Distinct(xs) {
        assert xs[0] !in xs[1..];
        assert Distinct(xs[1..]);
      }
    }
  }

  lemma {:induction false} WithoutAbsent<T>(xs: seq<T>, x: T)
    requires x !in xs
    ensures Without(xs, x) == xs
  {
    if xs != [] {
      WithoutAbsent(xs[1..], x);
      assert [xs[0]] + xs[1..] == xs;
    }
  }

  lemma WithoutTwice<T>(xs: seq<T>, x: T)
    ensures Without(Without(xs, x), x) == Without(xs, x)
  {
    WithoutIsSublist(xs, x);
    WithoutAbsent(Without(xs, x), x);
  }

  lemma FiledIsLonger<T>(xs: seq<T>, x: T)
    ensures forall y :: y in Filed(xs, x) <==> y in xs || y == x
    ensures Distinct(xs) ==> Distinct(Filed(xs, x))
    ensures xs <= Filed(xs, x)
  {
  }

  // What f sees of each element, one after the other.
  function Collect<A, B>(xs: seq<A>, f: A -> seq<B>): seq<B>
  {
    if xs == [] then [] else f(xs[0]) + Collect(xs[1..], f)
  }

  lemma {:induction false} CollectConcat<A, B>(xs: seq<A>, ys: seq<A>, f: A -> seq<B>)
    ensures Collect(xs + ys, f) == Collect(xs, f) + Collect(ys, f)
  {
    if xs == [] {
      assert xs + ys == ys;
    } else {
      assert (xs + ys)[1..] == xs[1..] + ys;
      CollectConcat(xs[1..], ys, f);
    }
  }

  lemma CollectPush<A, B>(xs: seq<A>, x: A, f: A -> seq<B>)
    ensures Collect(xs + [x], f) == Collect(xs, f) + f(x)
    ensures f(x) == [] ==> Collect(xs + [x], f) == Collect(xs, f)
  {
    CollectConcat(xs, [x], f);
    assert [x][1..] == [];
    assert Collect([x], f) == f(x);
  }

  lemma CollectPop<A, B>(xs: seq<A>, f: A -> seq<B>)
    requires xs != []
    ensures Collect(xs, f) == f(xs[0]) + Collect(xs[1..], f)
    ensures f(xs[0]) == [] ==> Collect(xs, f) == Collect(xs[1..], f)
  {
  }

  // Looking at a view of a view.
  lemma {:induction false} CollectTwice<A, B, C>(xs: seq<A>, f: A -> seq<B>, g: B -> seq<C>, h: A -> seq<C>)
    requires forall x :: x in xs ==> Collect(f(x), g) == h(x)
    ensures Collect(Collect(xs, f), g) == Collect(xs, h)
  {
    if xs != [] {
      assert forall x :: x in xs[1..] ==> x in xs;
      CollectTwice(xs[1..], f, g, h);
      CollectConcat(f(xs[0]), Collect(xs[1..], f), g);
    }
  }

  // Two views that agree on the elements there are.
  lemma {:induction false} CollectSame<A, B>(xs: seq<A>, f: A -> seq<B>, g: A -> seq<B>)
    requires forall x :: x in xs ==> f(x) == g(x)
    ensures Collect(xs, f) == Collect(xs, g)
  {
    if xs != [] {
      assert forall x :: x in xs[1..] ==> x in xs;
      CollectSame(xs[1..], f, g);
    }
  }

  predicate Increasing(xs: seq<nat>)
  {
    forall i, j :: 0 <= i < j < |xs| ==> xs[i] < xs[j]
  }

  lemma IncreasingSplit(a: seq<nat>, b: seq<nat>)
    requires Increasing(a + b)
    ensures Increasing(a) && Increasing(b)
    ensures forall x, y :: x in a && y in b ==> x < y
  {
    var all := a + b;
    forall i | 0 <= i < |a| ensures a[i] == all[i] {}
    forall i | 0 <= i < |b| ensures b[i] == all[|a| + i] {}
  }

  lemma IncreasingCons(x: nat, xs: seq<nat>)
    requires Increasing(xs) && forall y :: y in xs ==> x < y
    ensures Increasing([x] + xs)
  {
    var all := [x] + xs;
    forall i | 1 <= i < |all| ensures all[i] == xs[i - 1] && xs[i - 1] in xs {}
  }
}
