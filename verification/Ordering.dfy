/** The order of text, and lists kept ascending without repeats. */
module Ordering {
  predicate Before(a: string, b: string)
    decreases |a|
  {
    b != [] && (a == [] || a[0] < b[0] || (a[0] == b[0] && Before(a[1..], b[1..])))
  }

  lemma {:induction false} BeforeTotal(a: string, b: string)
    ensures (a == b) || Before(a, b) || Before(b, a)
    ensures !(Before(a, b) && Before(b, a)) && !Before(a, a)
    decreases |a|
  {
    if a != [] {
      BeforeTotal(a[1..], a[1..]);
    }
    if a != [] && b != [] {
      BeforeTotal(a[1..], b[1..]);
      if a[0] == b[0] && a[1..] == b[1..] {
        assert a == [a[0]] + a[1..] && b == [b[0]] + b[1..];
      }
    }
  }

  lemma {:induction false} BeforeTransitive(a: string, b: string, c: string)
    requires Before(a, b) && Before(b, c)
    ensures Before(a, c)
    decreases |a|
  {
    if a != [] && a[0] == b[0] == c[0] {
      BeforeTransitive(a[1..], b[1..], c[1..]);
    }
  }

  /** The first difference decides. */
  lemma {:induction false} FirstDifference(a: string, b: string, k: nat)
    requires k < |a| && k < |b| && a[k] < b[k]
    requires forall i :: 0 <= i < k ==> a[i] == b[i]
    ensures Before(a, b)
    decreases k
  {
    if k > 0 {
      FirstDifference(a[1..], b[1..], k - 1);
    }
  }

  ghost predicate Total<T(!new)>(before: (T, T) -> bool) {
    && (forall a, b :: a == b || before(a, b) || before(b, a))
    && (forall a, b :: !(before(a, b) && before(b, a)))
    && (forall a, b, c :: before(a, b) && before(b, c) ==> before(a, c))
  }

  lemma StringsTotal()
    ensures Total(Before)
  {
    forall a: string, b: string
      ensures (a == b || Before(a, b) || Before(b, a)) && !(Before(a, b) && Before(b, a))
    {
      BeforeTotal(a, b);
    }
    forall a, b, c | Before(a, b) && Before(b, c)
      ensures Before(a, c)
    {
      BeforeTransitive(a, b, c);
    }
  }

  /** Put an element where it belongs, unless it is there already. */
  function Insert<T(==)>(x: T, xs: seq<T>, before: (T, T) -> bool): seq<T> {
    if xs == [] then [x]
    else if x == xs[0] then xs
    else if before(x, xs[0]) then [x] + xs
    else [xs[0]] + Insert(x, xs[1..], before)
  }

  /** What sorting and then dropping equal neighbours leaves. */
  function SortUnique<T(==)>(xs: seq<T>, before: (T, T) -> bool): seq<T> {
    if xs == [] then [] else Insert(xs[0], SortUnique(xs[1..], before), before)
  }

  ghost predicate Ascending<T(!new)>(xs: seq<T>, before: (T, T) -> bool) {
    forall i, j :: 0 <= i < j < |xs| ==> before(xs[i], xs[j])
  }

  lemma {:induction false} InsertKeeps<T(!new)>(x: T, xs: seq<T>, before: (T, T) -> bool)
    requires Total(before) && Ascending(xs, before)
    ensures Ascending(Insert(x, xs, before), before)
    ensures forall y :: y in Insert(x, xs, before) <==> y == x || y in xs
  {
    if xs != [] && x != xs[0] && !before(x, xs[0]) {
      InsertKeeps(x, xs[1..], before);
      var rest := Insert(x, xs[1..], before);
      assert forall y <- rest :: before(xs[0], y);
      assert forall i :: 0 <= i < |rest| ==> rest[i] in rest;
    } else if xs != [] && x != xs[0] {
      assert forall i :: 0 <= i < |xs| ==> before(x, xs[i]);
    }
  }

  lemma {:induction false} SortUniqueSorts<T(!new)>(xs: seq<T>, before: (T, T) -> bool)
    requires Total(before)
    ensures Ascending(SortUnique(xs, before), before)
    ensures forall y :: y in SortUnique(xs, before) <==> y in xs
  {
    if xs != [] {
      SortUniqueSorts(xs[1..], before);
      InsertKeeps(xs[0], SortUnique(xs[1..], before), before);
    }
  }

  lemma Inhabited<T>(xs: seq<T>)
    ensures xs != [] <==> exists z :: z in xs
  {
    if xs != [] {
      assert xs[0] in xs;
    }
  }

  /** There is only one such list, so the way of sorting does not matter. */
  lemma {:induction false} AscendingUnique<T(!new)>(xs: seq<T>, ys: seq<T>, before: (T, T) -> bool)
    requires Total(before) && Ascending(xs, before) && Ascending(ys, before)
    requires forall z :: z in xs <==> z in ys
    ensures xs == ys
    decreases |xs|
  {
    Inhabited(xs);
    Inhabited(ys);
    if xs != [] {
      assert xs[0] in ys && ys[0] in xs;
      assert xs[0] == ys[0];
      assert forall z <- xs[1..] :: z != xs[0] && z in ys;
      assert forall z <- ys[1..] :: z != ys[0] && z in xs;
      AscendingUnique(xs[1..], ys[1..], before);
    }
  }
}
