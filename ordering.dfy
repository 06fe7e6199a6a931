/**
 * `inputs.sort()` over InputArgument objects, whose only comparison is
 * `__lt__`. The sort is modelled as an insertion sort that asks nothing but
 * `Lt`; what it promises is what any sort driven by that comparator
 * delivers: a permutation, sorted by `Before`.
 */
module Ordering {
  import opened PyValue
  import opened Arguments

  /** The inputs at position `p`, in their order in `xs`. */
  function AtPosition(xs: seq<InputArgument>, p: int): (r: seq<InputArgument>)
    ensures |r| <= |xs|
    ensures forall k :: 0 <= k < |r| ==> r[k].position == Some(p)
  {
    if xs == [] then []
    else (if xs[0].position == Some(p) then [xs[0]] else []) + AtPosition(xs[1..], p)
  }

  /**
   * `ys` lists the inputs that share a position in the order `xs` does:
   * what a stable sort promises for inputs `__lt__` cannot tell apart.
   */
  ghost predicate KeepsTies(ys: seq<InputArgument>, xs: seq<InputArgument>)
  {
    forall p :: AtPosition(ys, p) == AtPosition(xs, p)
  }

  lemma {:induction false} AtPositionAppend(xs: seq<InputArgument>, ys: seq<InputArgument>, p: int)
    ensures AtPosition(xs + ys, p) == AtPosition(xs, p) + AtPosition(ys, p)
    decreases |xs|
  {
    if xs == [] {
      assert xs + ys == ys;
    } else {
      assert (xs + ys)[0] == xs[0];
      assert (xs + ys)[1..] == xs[1..] + ys;
      AtPositionAppend(xs[1..], ys, p);
    }
  }

  /** Exchanging two neighbours that do not share a position keeps every tie in order. */
  lemma SwapKeepsTies(s: seq<InputArgument>, j: int)
    requires 0 < j < |s|
    requires !(s[j].position.Some? && s[j].position == s[j - 1].position)
    ensures KeepsTies(s[j - 1 := s[j]][j := s[j - 1]], s)
  {
    var t := s[j - 1 := s[j]][j := s[j - 1]];
    var u, w := s[..j - 1], s[j + 1..];
    assert s == u + ([s[j - 1], s[j]] + w);
    assert t == u + ([s[j], s[j - 1]] + w);
    forall p ensures AtPosition(t, p) == AtPosition(s, p) {
      AtPositionAppend(u, [s[j - 1], s[j]] + w, p);
      AtPositionAppend(u, [s[j], s[j - 1]] + w, p);
      AtPositionAppend([s[j - 1], s[j]], w, p);
      AtPositionAppend([s[j], s[j - 1]], w, p);
      assert [s[j - 1], s[j]][1..] == [s[j]] && [s[j], s[j - 1]][1..] == [s[j - 1]];
      assert [s[j]][1..] == [] && [s[j - 1]][1..] == [];
    }
  }

  /** Exchanges `a[j - 1]` and `a[j]`. */
  method SwapDown(a: array<InputArgument>, j: int)
    requires 0 < j < a.Length
    modifies a
    ensures a[..] == old(a[..])[j - 1 := old(a[j])][j := old(a[j - 1])]
    ensures multiset(a[..]) == multiset(old(a[..]))
  {
    a[j - 1], a[j] := a[j], a[j - 1];
  }

  /** Every pair in `a[..n]` is in order, except possibly pairs involving index `j`. */
  ghost predicate SortedExcept(s: seq<InputArgument>, n: int, j: int)
    requires 0 <= n <= |s|
  {
    forall k, l :: 0 <= k < l < n && k != j && l != j ==> Before(s[k], s[l])
  }

  /** One pass of insertion: moves `a[i]` left into the sorted prefix `a[..i]`. */
  method Insert(a: array<InputArgument>, i: int)
    requires 0 <= i < a.Length
    requires Sorted(a[..i])
    modifies a
    ensures Sorted(a[..i + 1])
    ensures multiset(a[..]) == multiset(old(a[..]))
    ensures KeepsTies(a[..], old(a[..]))
  {
    var j := i;
    while j > 0 && Lt(a[j], a[j - 1])
      invariant 0 <= j <= i
      invariant multiset(a[..]) == multiset(old(a[..]))
      invariant KeepsTies(a[..], old(a[..]))
      invariant SortedExcept(a[..], i + 1, j)
      invariant forall l :: j < l <= i ==> Before(a[j], a[l])
    {
      LtAgreesWithBefore(a[j], a[j - 1]);
      ghost var before := a[..];
      SwapKeepsTies(before, j);
      SwapDown(a, j);
      j := j - 1;
    }
    if j > 0 {
      LtAgreesWithBefore(a[j], a[j - 1]);
      forall k | 0 <= k < j ensures Before(a[k], a[j]) {
        if k < j - 1 {
          BeforeTransitive(a[k], a[j - 1], a[j]);
        }
      }
    }
  }

  /** Sorts `a` in place, inserting one element at a time. */
  method InsertionSort(a: array<InputArgument>)
    modifies a
    ensures Sorted(a[..])
    ensures multiset(a[..]) == multiset(old(a[..]))
    ensures KeepsTies(a[..], old(a[..]))
  {
    var i := 0;
    while i < a.Length
      invariant 0 <= i <= a.Length
      invariant Sorted(a[..i])
      invariant multiset(a[..]) == multiset(old(a[..]))
      invariant KeepsTies(a[..], old(a[..]))
    {
      Insert(a, i);
      i := i + 1;
    }
    assert a[..a.Length] == a[..];
  }

  /**
   * The input list `__set_inputs` stores: the processed inputs, sorted.
   * Positioned inputs come first in non-decreasing position order (see
   * `SortedMeansPositionOrder`), nothing is lost or duplicated, and inputs
   * sharing a position keep their order, as Python's stable sort keeps them.
   */
  method SortInputs(xs: seq<InputArgument>) returns (r: seq<InputArgument>)
    ensures Sorted(r)
    ensures multiset(r) == multiset(xs)
    ensures KeepsTies(r, xs)
  {
    var a := new InputArgument[|xs|](k requires 0 <= k < |xs| => xs[k]);
    assert a[..] == xs;
    InsertionSort(a);
    r := a[..];
  }

  predicate AllPositioned(xs: seq<InputArgument>)
  {
    forall i :: 0 <= i < |xs| ==> xs[i].position.Some?
  }

  predicate DistinctPositions(xs: seq<InputArgument>)
  {
    forall i, j :: 0 <= i < j < |xs| ==> xs[i].position != xs[j].position
  }

  lemma SortedFirst(xs: seq<InputArgument>, m: int)
    requires Sorted(xs) && 0 <= m < |xs|
    ensures Before(xs[0], xs[m])
  {
    if m > 0 {
      assert Before(xs[0], xs[m]);
    }
  }

  lemma OnlyOneAtPosition(xs: seq<InputArgument>, m: int)
    requires AllPositioned(xs) && DistinctPositions(xs) && 0 <= m < |xs|
    requires Before(xs[0], xs[m]) && Before(xs[m], xs[0])
    ensures m == 0
  {
  }

  lemma TailsPermutation(xs: seq<InputArgument>, ys: seq<InputArgument>)
    requires xs != [] && ys != [] && xs[0] == ys[0] && multiset(xs) == multiset(ys)
    ensures multiset(xs[1..]) == multiset(ys[1..])
  {
    assert xs == [xs[0]] + xs[1..];
    assert ys == [ys[0]] + ys[1..];
    var a, b, h := multiset(xs[1..]), multiset(ys[1..]), multiset{xs[0]};
    assert multiset(xs) == h + a;
    assert multiset(ys) == h + b;
    assert a == (h + a) - h;
    assert b == (h + b) - h;
  }

  lemma AllPositionedTail(xs: seq<InputArgument>)
    requires xs != [] && AllPositioned(xs) && DistinctPositions(xs)
    ensures AllPositioned(xs[1..]) && DistinctPositions(xs[1..])
  {
    forall i | 0 <= i < |xs[1..]| ensures xs[1..][i].position.Some? {
      assert xs[1..][i] == xs[i + 1];
    }
    forall i, j | 0 <= i < j < |xs[1..]| ensures xs[1..][i].position != xs[1..][j].position {
      assert xs[1..][i] == xs[i + 1] && xs[1..][j] == xs[j + 1];
    }
  }

  /**
   * When every input has a position and no two share one, there is exactly
   * one sorted permutation: the command order is then fully determined by
   * the document, whatever sorting algorithm produced it.
   */
  lemma {:induction false} SortedPermutationUnique(xs: seq<InputArgument>, ys: seq<InputArgument>)
    requires Sorted(xs) && Sorted(ys) && multiset(xs) == multiset(ys)
    requires AllPositioned(xs) && DistinctPositions(xs)
    ensures xs == ys
    decreases |xs|
  {
    assert |xs| == |multiset(xs)| == |ys|;
    if xs != [] {
      assert xs[0] in multiset(ys);
      var k :| 0 <= k < |ys| && ys[k] == xs[0];
      assert ys[0] in multiset(xs);
      var m :| 0 <= m < |xs| && xs[m] == ys[0];
      SortedFirst(xs, m);
      SortedFirst(ys, k);
      OnlyOneAtPosition(xs, m);
      TailsPermutation(xs, ys);
      AllPositionedTail(xs);
      SortedPermutationUnique(xs[1..], ys[1..]);
    }
  }
}
