/**
 * Sequence operations the code applies to documents and React state:
 * `findOne` (first match), `Array.prototype.filter`, and the replace-by-id
 * (`prev.map(x => x._id === id ? updated : x)`), remove-by-id
 * (`prev.filter(x => x._id !== id)`) and append (`[...prev, x]`) updates.
 */
module Collections {
  import opened Wrappers

  function FindFirst<T>(xs: seq<T>, p: T -> bool): (r: Option<T>)
    ensures r.Some? ==> r.value in xs && p(r.value)
    ensures r.None? <==> forall k :: 0 <= k < |xs| ==> !p(xs[k])
  {
    if xs == [] then None else if p(xs[0]) then Some(xs[0]) else FindFirst(xs[1..], p)
  }

  /** `a` occurs in `b` in order, possibly with gaps. */
  predicate IsSubsequence<T(==)>(a: seq<T>, b: seq<T>)
    decreases |b|
  {
    a == [] || (b != [] && if a[0] == b[0] then IsSubsequence(a[1..], b[1..]) else IsSubsequence(a, b[1..]))
  }

  /** A subsequence stays one when an element is put in front of the longer sequence. */
  lemma {:induction false} SubsequenceOfTail<T>(a: seq<T>, b: seq<T>, x: T)
    requires IsSubsequence(a, b)
    ensures IsSubsequence(a, [x] + b)
    decreases |b|, 1
  {
    assert ([x] + b)[1..] == b;
    if a != [] && a[0] == x {
      SubsequenceDropHead(a, b);
    }
  }

  /** Dropping the first element of a subsequence leaves a subsequence. */
  lemma {:induction false} SubsequenceDropHead<T>(a: seq<T>, b: seq<T>)
    requires a != [] && IsSubsequence(a, b)
    ensures IsSubsequence(a[1..], b)
    decreases |b|, 0
  {
    assert [b[0]] + b[1..] == b;
    if a[0] != b[0] {
      SubsequenceDropHead(a, b[1..]);
    }
    SubsequenceOfTail(a[1..], b[1..], b[0]);
  }

  /** `Array.prototype.filter`: the elements satisfying `p`, in their original order. */
  function Filter<T(==)>(xs: seq<T>, p: T -> bool): (r: seq<T>)
    ensures |r| <= |xs|
    ensures forall k :: 0 <= k < |r| ==> r[k] in xs && p(r[k])
    ensures forall k :: 0 <= k < |xs| && p(xs[k]) ==> xs[k] in r
    ensures IsSubsequence(r, xs)
  {
    if xs == [] then []
    else
      var rest := Filter(xs[1..], p);
      if p(xs[0]) then
        var r := [xs[0]] + rest;
        assert r[1..] == rest && xs[1..] == xs[1..];
        r
      else
        SubsequenceOfTail(rest, xs[1..], xs[0]);
        assert [xs[0]] + xs[1..] == xs;
        rest
  }

  /** Filtering with a predicate that every element satisfies changes nothing. */
  lemma {:induction false} FilterAll<T>(xs: seq<T>, p: T -> bool)
    requires forall k :: 0 <= k < |xs| ==> p(xs[k])
    ensures Filter(xs, p) == xs
  {
    if xs != [] {
      FilterAll(xs[1..], p);
    }
  }

  /** Two predicates that agree on every element filter alike. */
  lemma {:induction false} FilterAgree<T>(xs: seq<T>, p: T -> bool, q: T -> bool)
    requires forall k :: 0 <= k < |xs| ==> p(xs[k]) == q(xs[k])
    ensures Filter(xs, p) == Filter(xs, q)
  {
    if xs != [] {
      FilterAgree(xs[1..], p, q);
    }
  }

  /** Filtering an appended sequence filters each part. */
  lemma {:induction false} FilterAppend<T>(xs: seq<T>, ys: seq<T>, p: T -> bool)
    ensures Filter(xs + ys, p) == Filter(xs, p) + Filter(ys, p)
  {
    if xs == [] {
      assert xs + ys == ys;
    } else {
      assert (xs + ys)[0] == xs[0] && (xs + ys)[1..] == xs[1..] + ys;
      FilterAppend(xs[1..], ys, p);
    }
  }

  /** `prev.map(x => matches(x) ? replacement : x)`. */
  function ReplaceWhere<T>(xs: seq<T>, matches: T -> bool, replacement: T): (r: seq<T>)
    ensures |r| == |xs|
    ensures forall k :: 0 <= k < |xs| ==> r[k] == if matches(xs[k]) then replacement else xs[k]
  {
    if xs == [] then [] else [if matches(xs[0]) then replacement else xs[0]] + ReplaceWhere(xs[1..], matches, replacement)
  }

  /** When exactly one position matches, replacing is a single-position update. */
  lemma ReplaceUnique<T>(xs: seq<T>, matches: T -> bool, replacement: T, i: nat)
    requires i < |xs| && matches(xs[i])
    requires forall k :: 0 <= k < |xs| && k != i ==> !matches(xs[k])
    ensures ReplaceWhere(xs, matches, replacement) == xs[i := replacement]
  {
  }

  /** Replacing where nothing matches is the identity. */
  lemma ReplaceAbsent<T>(xs: seq<T>, matches: T -> bool, replacement: T)
    requires forall k :: 0 <= k < |xs| ==> !matches(xs[k])
    ensures ReplaceWhere(xs, matches, replacement) == xs
  {
  }

  /**
   * The listing order of `sort({ createdAt: -1 })` over a store kept in
   * creation order: the reverse.
   */
  function Reverse<T>(xs: seq<T>): (r: seq<T>)
    ensures |r| == |xs| && forall k :: 0 <= k < |xs| ==> r[k] == xs[|xs| - 1 - k]
  {
    if xs == [] then [] else Reverse(xs[1..]) + [xs[0]]
  }

  /** The number of elements satisfying `p`. */
  function Count<T>(xs: seq<T>, p: T -> bool): (n: nat)
    ensures n <= |xs|
  {
    if xs == [] then 0 else (if p(xs[0]) then 1 else 0) + Count(xs[1..], p)
  }

  /** Filtering then reversing keeps the counted elements, each one satisfying `p`. */
  lemma ReverseFilterSpec<T>(xs: seq<T>, p: T -> bool)
    ensures |Reverse(Filter(xs, p))| == Count(xs, p)
    ensures forall k :: 0 <= k < |Reverse(Filter(xs, p))| ==>
      Reverse(Filter(xs, p))[k] in xs && p(Reverse(Filter(xs, p))[k])
  {
    FilterCount(xs, p);
    var m := Filter(xs, p);
    var r := Reverse(m);
    forall k | 0 <= k < |r| ensures r[k] in xs && p(r[k]) {
      assert r[k] == m[|m| - 1 - k];
    }
  }

  /** Filtering keeps exactly the elements counted. */
  lemma {:induction false} FilterCount<T>(xs: seq<T>, p: T -> bool)
    ensures |Filter(xs, p)| == Count(xs, p)
  {
    if xs != [] {
      FilterCount(xs[1..], p);
    }
  }
}
