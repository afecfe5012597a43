/** The one array operation the client applies to transaction lists: `filter`. */
module Lists {
  /** `xs.filter(keep)`: the elements of `xs` that satisfy `keep`, in their original order. */
  function Filter<T(==,!new)>(xs: seq<T>, keep: T -> bool): (r: seq<T>)
    ensures |r| <= |xs|
  {
    if xs == [] then []
    else Filter(xs[..|xs| - 1], keep) + (if keep(xs[|xs| - 1]) then [xs[|xs| - 1]] else [])
  }

  /** An element is in the filtered list exactly when it is in the list and is kept. */
  lemma {:induction false} FilterMembership<T(!new)>(xs: seq<T>, keep: T -> bool, x: T)
    ensures x in Filter(xs, keep) <==> x in xs && keep(x)
    decreases |xs|
  {
    if xs != [] {
      var xs' := xs[..|xs| - 1];
      assert xs == xs' + [xs[|xs| - 1]];
      FilterMembership(xs', keep, x);
    }
  }

  /** Filtering one element onto the end of a list. */
  lemma FilterSnoc<T(!new)>(xs: seq<T>, x: T, keep: T -> bool)
    ensures Filter(xs + [x], keep) == Filter(xs, keep) + (if keep(x) then [x] else [])
  {
    assert (xs + [x])[..|xs|] == xs;
  }

  /** Filtering distributes over concatenation, so it keeps relative order. */
  lemma {:induction false} FilterAppend<T(!new)>(a: seq<T>, b: seq<T>, keep: T -> bool)
    ensures Filter(a + b, keep) == Filter(a, keep) + Filter(b, keep)
    decreases |b|
  {
    if b == [] {
      assert a + b == a;
    } else {
      var b' := b[..|b| - 1];
      var x := b[|b| - 1];
      assert b == b' + [x];
      assert a + b == (a + b') + [x];
      FilterAppend(a, b', keep);
      FilterSnoc(a + b', x, keep);
      FilterSnoc(b', x, keep);
    }
  }

  /** Filtering keeps every kept element as often as it occurred, and no other. */
  lemma {:induction false} FilterCount<T(!new)>(xs: seq<T>, keep: T -> bool, x: T)
    ensures multiset(Filter(xs, keep))[x] == if keep(x) then multiset(xs)[x] else 0
    decreases |xs|
  {
    if xs != [] {
      var xs' := xs[..|xs| - 1];
      var y := xs[|xs| - 1];
      assert xs == xs' + [y];
      FilterCount(xs', keep, x);
    }
  }

  /**
   * Filtering loses nothing exactly when every element is kept, and then it
   * returns the list itself.
   */
  lemma {:induction false} FilterKeepsAll<T(!new)>(xs: seq<T>, keep: T -> bool)
    ensures |Filter(xs, keep)| == |xs| <==> forall x | x in xs :: keep(x)
    ensures (forall x | x in xs :: keep(x)) ==> Filter(xs, keep) == xs
    decreases |xs|
  {
    if xs != [] {
      var xs' := xs[..|xs| - 1];
      var y := xs[|xs| - 1];
      assert xs == xs' + [y];
      FilterKeepsAll(xs', keep);
    }
  }

  /** Filtering a list none of whose elements is kept leaves nothing. */
  lemma {:induction false} FilterDropsAll<T(!new)>(xs: seq<T>, keep: T -> bool)
    ensures (forall x | x in xs :: !keep(x)) ==> Filter(xs, keep) == []
    decreases |xs|
  {
    if xs != [] {
      var xs' := xs[..|xs| - 1];
      assert xs == xs' + [xs[|xs| - 1]];
      FilterDropsAll(xs', keep);
    }
  }

  /** Reordering the input only reorders the output. */
  lemma FilterPermutation<T(!new)>(xs: seq<T>, ys: seq<T>, keep: T -> bool)
    requires multiset(xs) == multiset(ys)
    ensures multiset(Filter(xs, keep)) == multiset(Filter(ys, keep))
  {
    forall x
      ensures multiset(Filter(xs, keep))[x] == multiset(Filter(ys, keep))[x]
    {
      FilterCount(xs, keep, x);
      FilterCount(ys, keep, x);
    }
  }
}
