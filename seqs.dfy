/** Sequence helpers shared by the model: the `filter`, `map` and `find`
    of the source's arrays, and the facts about them that the rest of the
    model relies on. */
module Seqs {

  /** The result of a lookup that may find nothing (`null` in the source). */
  datatype Option<+T> = None | Some(value: T)

  /** `xs.filter(p)`: the elements satisfying `p`, in their original order. */
  function Filter<T>(xs: seq<T>, p: T -> bool): (r: seq<T>)
    ensures |r| <= |xs|
    ensures forall i :: 0 <= i < |r| ==> r[i] in xs && p(r[i])
    ensures forall i :: 0 <= i < |xs| && p(xs[i]) ==> xs[i] in r
    decreases |xs|
  {
    if |xs| == 0 then []
    else
      var init := xs[..|xs| - 1];
      assert xs == init + [xs[|xs| - 1]];
      Filter(init, p) + (if p(xs[|xs| - 1]) then [xs[|xs| - 1]] else [])
  }

  /** `xs.map(f)`. */
  function Map<T, U>(xs: seq<T>, f: T -> U): (r: seq<U>)
    ensures |r| == |xs|
    ensures forall i :: 0 <= i < |xs| ==> r[i] == f(xs[i])
  {
    seq(|xs|, i requires 0 <= i < |xs| => f(xs[i]))
  }

  /** `xs.findIndex(p)`, or the first document a query matches: the least
      index whose element satisfies `p`. */
  function FirstIndex<T>(xs: seq<T>, p: T -> bool): (r: Option<nat>)
    ensures r.Some? ==> r.value < |xs| && p(xs[r.value])
    ensures r.Some? ==> forall j :: 0 <= j < r.value ==> !p(xs[j])
    ensures r.None? <==> forall j :: 0 <= j < |xs| ==> !p(xs[j])
    decreases |xs|
  {
    if |xs| == 0 then None
    else if p(xs[0]) then Some(0)
    else match FirstIndex(xs[1..], p)
      case None => None
      case Some(k) => Some(k + 1)
  }

  /** The complement of a predicate. */
  function Not<T>(p: T -> bool): T -> bool
  {
    (x: T) => !p(x)
  }

  /** Filtering distributes over concatenation: together with the
      one-element case this pins `Filter` down as the order-preserving
      sub-list. */
  lemma {:induction false} FilterAppend<T>(a: seq<T>, b: seq<T>, p: T -> bool)
    ensures Filter(a + b, p) == Filter(a, p) + Filter(b, p)
    decreases |b|
  {
    if |b| == 0 {
      assert a + b == a;
    } else {
      var b' := b[..|b| - 1];
      assert (a + b)[..|a + b| - 1] == a + b';
      assert (a + b)[|a + b| - 1] == b[|b| - 1];
      FilterAppend(a, b', p);
    }
  }

  /** Filtering a one-step longer prefix adds at most the new element. */
  lemma FilterSnoc<T>(xs: seq<T>, j: nat, p: T -> bool)
    requires j < |xs|
    ensures Filter(xs[..j + 1], p) == Filter(xs[..j], p) + (if p(xs[j]) then [xs[j]] else [])
  {
    assert xs[..j + 1][..j] == xs[..j];
  }

  /** Mapping a one-step longer prefix adds the image of the new element. */
  lemma MapSnoc<T, U>(xs: seq<T>, j: nat, f: T -> U)
    requires j < |xs|
    ensures Map(xs[..j + 1], f) == Map(xs[..j], f) + [f(xs[j])]
  {
  }

  /** Mapping distributes over concatenation. */
  lemma MapAppend<T, U>(a: seq<T>, b: seq<T>, f: T -> U)
    ensures Map(a + b, f) == Map(a, f) + Map(b, f)
  {
  }

  /** The image of a member is a member of the image. */
  lemma MapMember<T, U>(xs: seq<T>, i: nat, f: T -> U)
    requires i < |xs|
    ensures f(xs[i]) in Map(xs, f)
  {
    assert Map(xs, f)[i] == f(xs[i]);
  }

  /** Mapping the filtered prefix one step further. */
  lemma MapFilterSnoc<T, U>(xs: seq<T>, j: nat, p: T -> bool, f: T -> U)
    requires j < |xs|
    ensures Map(Filter(xs[..j + 1], p), f)
         == Map(Filter(xs[..j], p), f) + (if p(xs[j]) then [f(xs[j])] else [])
  {
    FilterSnoc(xs, j, p);
  }

  /** Filtering the images by a test that agrees with `p` on the
      originals is mapping the originals `p` keeps. */
  lemma {:induction false} FilterMapCommute<T, U>(xs: seq<T>, f: T -> U, q: U -> bool, p: T -> bool)
    requires forall i :: 0 <= i < |xs| ==> q(f(xs[i])) == p(xs[i])
    ensures Filter(Map(xs, f), q) == Map(Filter(xs, p), f)
    decreases |xs|
  {
    if |xs| > 0 {
      var n := |xs| - 1;
      FilterMapCommute(xs[..n], f, q, p);
      assert Map(xs, f)[..n] == Map(xs[..n], f);
      var kept := if p(xs[n]) then [xs[n]] else [];
      MapAppend(Filter(xs[..n], p), kept, f);
    }
  }

  /** Every element lands on exactly one side of a predicate. */
  lemma {:induction false} FilterPartition<T>(xs: seq<T>, p: T -> bool)
    ensures |Filter(xs, p)| + |Filter(xs, Not(p))| == |xs|
    decreases |xs|
  {
    if |xs| > 0 {
      FilterPartition(xs[..|xs| - 1], p);
    }
  }

  /** A filter that keeps everything is the identity. */
  lemma {:induction false} FilterAll<T>(xs: seq<T>, p: T -> bool)
    requires forall i :: 0 <= i < |xs| ==> p(xs[i])
    ensures Filter(xs, p) == xs
    decreases |xs|
  {
    if |xs| > 0 {
      FilterAll(xs[..|xs| - 1], p);
      assert xs == xs[..|xs| - 1] + [xs[|xs| - 1]];
    }
  }

  /** A filter that keeps nothing is empty. */
  lemma {:induction false} FilterNone<T>(xs: seq<T>, p: T -> bool)
    requires forall i :: 0 <= i < |xs| ==> !p(xs[i])
    ensures Filter(xs, p) == []
    decreases |xs|
  {
    if |xs| > 0 {
      FilterNone(xs[..|xs| - 1], p);
    }
  }
}
