/** Sequences as lists: distinct elements, permutations, filters and sums. */
module Lists {

  ghost predicate NoRepeats<T>(xs: seq<T>)
  {
    forall i, j :: 0 <= i < j < |xs| ==> xs[i] != xs[j]
  }

  lemma TwoDiffer<T>(xs: seq<T>, x: T)
    requires NoRepeats(xs) && |xs| >= 2
    ensures xs[0] != x || xs[1] != x
  {
  }

  /** `[...new Set(xs)]`: first occurrences, in order. */
  function Unique<T(==,!new)>(xs: seq<T>): (ys: seq<T>)
    ensures forall x :: x in ys <==> x in xs
    ensures NoRepeats(ys)
  {
    if xs == [] then []
    else
      var init, last := Unique(xs[..|xs| - 1]), xs[|xs| - 1];
      assert xs == xs[..|xs| - 1] + [last];
      if last in init then init else init + [last]
  }

  lemma UniqueAppend<T(!new)>(xs: seq<T>, x: T)
    ensures Unique(xs + [x]) == if x in xs then Unique(xs) else Unique(xs) + [x]
  {
    assert (xs + [x])[..|xs|] == xs;
  }

  // ---------------------------------------------------------------- permutations

  function Without<T>(xs: seq<T>, i: nat): seq<T>
    requires i < |xs|
  {
    xs[..i] + xs[i + 1..]
  }

  lemma SplitAt<T>(xs: seq<T>, i: nat)
    requires i < |xs|
    ensures xs == (xs[..i] + [xs[i]]) + xs[i + 1..]
  {
  }

  lemma WithoutMultiset<T>(xs: seq<T>, i: nat)
    requires i < |xs|
    ensures multiset(Without(xs, i)) == multiset(xs) - multiset{xs[i]}
  {
    SplitAt(xs, i);
  }

  /** Taking out an element before the last one leaves the last one last. */
  lemma WithoutLast<T>(xs: seq<T>, i: nat)
    requires i < |xs| - 1
    ensures Without(xs, i) == Without(xs[..|xs| - 1], i) + [xs[|xs| - 1]]
    ensures Without(xs, i) != [] && Without(xs, i)[..|xs| - 2] == Without(xs[..|xs| - 1], i)
  {
  }

  /** The last element of a list, found in any permutation of it. */
  lemma Partner<T>(xs: seq<T>, ys: seq<T>) returns (j: nat)
    requires xs != [] && multiset(xs) == multiset(ys)
    ensures j < |ys| && ys[j] == xs[|xs| - 1]
    ensures multiset(xs[..|xs| - 1]) == multiset(Without(ys, j))
  {
    var n := |xs| - 1;
    assert xs[n] in multiset(ys);
    j :| 0 <= j < |ys| && ys[j] == xs[n];
    WithoutMultiset(xs, n);
    WithoutMultiset(ys, j);
    assert Without(xs, n) == xs[..n];
  }

  lemma EmptyPermutation<T>(xs: seq<T>, ys: seq<T>)
    requires xs == [] && multiset(xs) == multiset(ys)
    ensures ys == []
  {
    assert |multiset(ys)| == 0;
  }

  lemma TwiceIn<T>(xs: seq<T>, i: nat, j: nat)
    requires i < j < |xs| && xs[i] == xs[j]
    ensures multiset(xs)[xs[i]] >= 2
  {
    assert xs == xs[..i] + [xs[i]] + xs[i + 1..j] + [xs[j]] + xs[j + 1..];
  }

  lemma OccursTwice<T>(xs: seq<T>, x: T)
    requires multiset(xs)[x] >= 2
    ensures exists k, l :: 0 <= k < l < |xs| && xs[k] == x && xs[l] == x
  {
    assert x in multiset(xs);
    var k :| 0 <= k < |xs| && xs[k] == x;
    WithoutMultiset(xs, k);
    assert x in multiset(Without(xs, k));
    var l :| 0 <= l < |xs| - 1 && Without(xs, k)[l] == x;
    var l' := if l < k then l else l + 1;
    assert xs[l'] == x && l' != k;
    assert xs[if k < l' then k else l'] == x && xs[if k < l' then l' else k] == x;
  }

  /** Two lists without repeats and with the same members are permutations of each other. */
  lemma {:induction false} SameMembersPermute<T(!new)>(xs: seq<T>, ys: seq<T>)
    requires NoRepeats(xs) && NoRepeats(ys)
    requires forall x :: x in xs <==> x in ys
    ensures multiset(xs) == multiset(ys)
  {
    forall x
      ensures multiset(xs)[x] == multiset(ys)[x]
    {
      OnceEach(xs, x);
      OnceEach(ys, x);
    }
  }

  lemma OnceEach<T>(xs: seq<T>, x: T)
    requires NoRepeats(xs)
    ensures multiset(xs)[x] == if x in xs then 1 else 0
  {
    if multiset(xs)[x] >= 2 {
      OccursTwice(xs, x);
    }
  }

  // ---------------------------------------------------------------- filters

  function Filter<T>(xs: seq<T>, keep: T -> bool): seq<T>
  {
    if xs == [] then []
    else
      var rest, last := Filter(xs[..|xs| - 1], keep), xs[|xs| - 1];
      if keep(last) then rest + [last] else rest
  }

  lemma FilterAppend<T>(xs: seq<T>, x: T, keep: T -> bool)
    ensures Filter(xs + [x], keep) == Filter(xs, keep) + if keep(x) then [x] else []
  {
    assert (xs + [x])[..|xs|] == xs;
  }

  lemma {:induction false} FilterConcat<T>(xs: seq<T>, ys: seq<T>, keep: T -> bool)
    ensures Filter(xs + ys, keep) == Filter(xs, keep) + Filter(ys, keep)
  {
    if ys == [] {
      assert xs + ys == xs;
    } else {
      var init, last := ys[..|ys| - 1], ys[|ys| - 1];
      FilterConcat(xs, init, keep);
      FilterAppend(xs + init, last, keep);
      assert xs + ys == xs + init + [last];
    }
  }

  lemma FilterFirst<T>(xs: seq<T>, keep: T -> bool)
    requires xs != []
    ensures Filter(xs, keep) == (if keep(xs[0]) then [xs[0]] else []) + Filter(xs[1..], keep)
  {
    FilterConcat([xs[0]], xs[1..], keep);
    assert xs == [xs[0]] + xs[1..] && [xs[0]] == [] + [xs[0]];
    FilterAppend([], xs[0], keep);
  }

  lemma {:induction false} FilterMultiplicity<T>(xs: seq<T>, keep: T -> bool, x: T)
    ensures multiset(Filter(xs, keep))[x] == if keep(x) then multiset(xs)[x] else 0
  {
    if xs != [] {
      var init, last := xs[..|xs| - 1], xs[|xs| - 1];
      FilterMultiplicity(init, keep, x);
      assert xs == init + [last];
    }
  }

  lemma FilterMember<T>(xs: seq<T>, keep: T -> bool, x: T)
    ensures x in Filter(xs, keep) <==> x in xs && keep(x)
  {
    FilterMultiplicity(xs, keep, x);
    assert x in multiset(xs) <==> x in xs;
    assert x in multiset(Filter(xs, keep)) <==> x in Filter(xs, keep);
  }

  /** Filtering respects permutation. */
  lemma FilterPermutes<T(!new)>(xs: seq<T>, ys: seq<T>, keep: T -> bool)
    requires multiset(xs) == multiset(ys)
    ensures multiset(Filter(xs, keep)) == multiset(Filter(ys, keep))
  {
    forall x
      ensures multiset(Filter(xs, keep))[x] == multiset(Filter(ys, keep))[x]
    {
      FilterMultiplicity(xs, keep, x);
      FilterMultiplicity(ys, keep, x);
    }
  }

  lemma {:induction false} FilterAll<T>(xs: seq<T>, keep: T -> bool)
    requires forall i :: 0 <= i < |xs| ==> keep(xs[i])
    ensures Filter(xs, keep) == xs
  {
    if xs != [] {
      var init, last := xs[..|xs| - 1], xs[|xs| - 1];
      FilterAll(init, keep);
      assert xs == init + [last];
    }
  }

  lemma {:induction false} FilterNone<T>(xs: seq<T>, keep: T -> bool)
    requires forall i :: 0 <= i < |xs| ==> !keep(xs[i])
    ensures Filter(xs, keep) == []
  {
    if xs != [] {
      FilterNone(xs[..|xs| - 1], keep);
    }
  }

  /** `at` lists, in growing order, the positions of the elements a filter keeps. */
  ghost predicate Positions<T>(at: seq<nat>, xs: seq<T>, keep: T -> bool)
  {
    (forall i :: 0 <= i < |at| ==> at[i] < |xs|) &&
    (forall i, j :: 0 <= i < j < |at| ==> at[i] < at[j]) &&
    forall k :: 0 <= k < |xs| ==> (keep(xs[k]) <==> k in at)
  }

  function Pick<T>(xs: seq<T>, at: seq<nat>): (ys: seq<T>)
    requires forall i :: 0 <= i < |at| ==> at[i] < |xs|
    ensures |ys| == |at| && forall i :: 0 <= i < |at| ==> ys[i] == xs[at[i]]
  {
    seq(|at|, i requires 0 <= i < |at| => xs[at[i]])
  }

  lemma PositionsExtend<T>(at: seq<nat>, xs: seq<T>, x: T, keep: T -> bool)
    requires Positions(at, xs, keep)
    ensures Positions(if keep(x) then at + [|xs|] else at, xs + [x], keep)
  {
    var next, ys := if keep(x) then at + [|xs|] else at, xs + [x];
    forall k | 0 <= k < |ys|
      ensures keep(ys[k]) <==> k in next
    {
      if k < |xs| {
        assert ys[k] == xs[k];
        assert k in next <==> k in at;
      } else if k in at {
        assert false;
      }
    }
  }

  lemma PickExtend<T>(at: seq<nat>, xs: seq<T>, x: T)
    requires forall i :: 0 <= i < |at| ==> at[i] < |xs|
    ensures Pick(xs + [x], at) == Pick(xs, at)
    ensures Pick(xs + [x], at + [|xs|]) == Pick(xs, at) + [x]
  {
  }

  /** A filter is the subsequence at the positions that pass the test. */
  lemma {:induction false} FilterKeepsOrder<T>(xs: seq<T>, keep: T -> bool) returns (at: seq<nat>)
    ensures Positions(at, xs, keep) && Filter(xs, keep) == Pick(xs, at)
  {
    if xs == [] {
      at := [];
    } else {
      var init, last := xs[..|xs| - 1], xs[|xs| - 1];
      at := FilterKeepsOrder(init, keep);
      assert xs == init + [last];
      PositionsExtend(at, init, last, keep);
      PickExtend(at, init, last);
      if keep(last) {
        at := at + [|init|];
      }
    }
  }

  /** Filtering a list without repeats leaves one without repeats. */
  lemma FilterKeepsDistinct<T>(xs: seq<T>, keep: T -> bool)
    requires NoRepeats(xs)
    ensures NoRepeats(Filter(xs, keep))
  {
    var at := FilterKeepsOrder(xs, keep);
  }

  // ---------------------------------------------------------------- sums

  function SumBy<T>(xs: seq<T>, f: T -> nat): nat
  {
    if xs == [] then 0 else SumBy(xs[..|xs| - 1], f) + f(xs[|xs| - 1])
  }

  lemma SumAppend<T>(xs: seq<T>, x: T, f: T -> nat)
    ensures SumBy(xs + [x], f) == SumBy(xs, f) + f(x)
  {
    assert (xs + [x])[..|xs|] == xs;
  }

  lemma {:induction false} SumConcat<T>(xs: seq<T>, ys: seq<T>, f: T -> nat)
    ensures SumBy(xs + ys, f) == SumBy(xs, f) + SumBy(ys, f)
  {
    if ys == [] {
      assert xs + ys == xs;
    } else {
      var init, last := ys[..|ys| - 1], ys[|ys| - 1];
      SumConcat(xs, init, f);
      SumAppend(xs + init, last, f);
      assert xs + ys == xs + init + [last];
    }
  }

  lemma SumWithout<T>(xs: seq<T>, i: nat, f: T -> nat)
    requires i < |xs|
    ensures SumBy(xs, f) == SumBy(Without(xs, i), f) + f(xs[i])
  {
    var a, b := xs[..i], xs[i + 1..];
    SplitAt(xs, i);
    SumConcat(a + [xs[i]], b, f);
    SumAppend(a, xs[i], f);
    SumConcat(a, b, f);
  }

  lemma {:induction false} SumPermutes<T>(xs: seq<T>, ys: seq<T>, f: T -> nat)
    requires multiset(xs) == multiset(ys)
    ensures SumBy(xs, f) == SumBy(ys, f)
    decreases |xs|
  {
    if xs == [] {
      EmptyPermutation(xs, ys);
    } else {
      var j := Partner(xs, ys);
      SumWithout(ys, j, f);
      SumPermutes(xs[..|xs| - 1], Without(ys, j), f);
    }
  }

  /** A sum splits over a test and its complement. */
  lemma {:induction false} SumSplits<T>(xs: seq<T>, f: T -> nat, keep: T -> bool, drop: T -> bool)
    requires forall i :: 0 <= i < |xs| ==> keep(xs[i]) != drop(xs[i])
    ensures SumBy(xs, f) == SumBy(Filter(xs, keep), f) + SumBy(Filter(xs, drop), f)
  {
    if xs != [] {
      var init, last := xs[..|xs| - 1], xs[|xs| - 1];
      SumSplits(init, f, keep, drop);
      SumAppend(Filter(init, keep), last, f);
      SumAppend(Filter(init, drop), last, f);
      assert keep(last) != drop(last);
    }
  }
}
