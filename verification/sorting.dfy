/**
 * The final ordering: `chartData.sort((a, b) => (a.value < b.value ? 1 : -1))`,
 * an in-place sort that puts greater values first.
 */
module Sorting {
  import opened Numbers
  import opened Records

  /** No point is followed by a strictly greater one (descending under JavaScript's `<`). */
  predicate SortedDescending(ps: seq<Point>)
  {
    forall i, j :: 0 <= i < j < |ps| ==> !Less(ps[i].value, ps[j].value)
  }

  /** Either every value is NaN or none is: on such a series `<` orders consistently. */
  predicate Uniform(ps: seq<Point>)
  {
    forall i, j :: 0 <= i < |ps| && 0 <= j < |ps| ==> ps[i].value.NaN? == ps[j].value.NaN?
  }

  /** The first `n` points are in descending order. */
  predicate SortedPrefix(ps: seq<Point>, n: int)
    requires 0 <= n <= |ps|
  {
    forall p, q :: 0 <= p < q < n ==> !Less(ps[p].value, ps[q].value)
  }

  /**
   * The state of an insertion step that is moving the value at `j` to the
   * left: apart from position `j`, the first `i + 1` points are in order,
   * and the moving value is not below anything to its right.
   */
  predicate Inserting(ps: seq<Point>, j: int, i: int)
    requires 0 <= j <= i < |ps|
  {
    && (forall p, q :: 0 <= p < q <= i && p != j && q != j ==> !Less(ps[p].value, ps[q].value))
    && (forall q :: j < q <= i ==> !Less(ps[j].value, ps[q].value))
  }

  /**
   * Sorts `a` in place, greatest value first; the result is a permutation of
   * the input. Equal values end up in an order the source leaves to the
   * JavaScript engine; this model happens to keep them in input order.
   */
  method SortDescending(a: array<Point>)
    requires Uniform(a[..])
    modifies a
    ensures SortedDescending(a[..])
    ensures multiset(a[..]) == multiset(old(a[..]))
  {
    if a.Length == 0 {
      return;
    }
    var i := 1;
    while i < a.Length
      invariant 1 <= i <= a.Length
      invariant Uniform(a[..])
      invariant SortedPrefix(a[..], i)
      invariant multiset(a[..]) == multiset(old(a[..]))
    {
      InsertLast(a, i);
      i := i + 1;
    }
  }

  /**
   * One insertion step: `a[..i]` is sorted, and `a[i]` is moved left past
   * every smaller value, so that `a[..i + 1]` is sorted.
   */
  method InsertLast(a: array<Point>, i: int)
    requires 1 <= i < a.Length
    requires Uniform(a[..]) && SortedPrefix(a[..], i)
    modifies a
    ensures Uniform(a[..]) && SortedPrefix(a[..], i + 1)
    ensures multiset(a[..]) == multiset(old(a[..]))
  {
    var j := i;
    while j > 0 && Less(a[j - 1].value, a[j].value)
      invariant 0 <= j <= i
      invariant Uniform(a[..]) && Inserting(a[..], j, i)
      invariant multiset(a[..]) == multiset(old(a[..]))
    {
      ghost var before := a[..];
      a[j - 1], a[j] := a[j], a[j - 1];
      assert a[..] == before[j - 1 := before[j]][j := before[j - 1]];
      SwapStep(before, j, i);
      j := j - 1;
    }
    SortedAfterInsert(a[..], j, i);
  }

  /**
   * Swapping the moving value `s[j]` with a smaller left neighbour keeps
   * the insertion state, one position further left, and the multiset.
   */
  lemma SwapStep(s: seq<Point>, j: int, i: int)
    requires 0 < j <= i < |s|
    requires Uniform(s) && Inserting(s, j, i) && Less(s[j - 1].value, s[j].value)
    ensures var t := s[j - 1 := s[j]][j := s[j - 1]];
      Uniform(t) && Inserting(t, j - 1, i) && multiset(t) == multiset(s)
  {
    var t := s[j - 1 := s[j]][j := s[j - 1]];
    forall q | j - 1 < q <= i
      ensures !Less(t[j - 1].value, t[q].value)
    {
      if q == j {
        LessTotal(s[j - 1].value, s[j].value);
      }
    }
    assert multiset(t) == multiset(s);
  }

  /**
   * Once the moving value no longer exceeds its left neighbour, the first
   * `i + 1` points are sorted.
   */
  lemma SortedAfterInsert(s: seq<Point>, j: int, i: int)
    requires 0 <= j <= i < |s|
    requires Uniform(s) && Inserting(s, j, i)
    requires j > 0 ==> !Less(s[j - 1].value, s[j].value)
    ensures SortedPrefix(s, i + 1)
  {
    forall p | 0 <= p < j
      ensures !Less(s[p].value, s[j].value)
    {
      if p < j - 1 {
        NotLessTransitive(s[p].value, s[j - 1].value, s[j].value);
      }
    }
  }
}
