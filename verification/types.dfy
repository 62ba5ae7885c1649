/**
 * The value types of the peak finder: the half-open index range of a plateau,
 * the Peak record, and the inclusive bounds (Limits) every filter tests against.
 */
module Types {
  import opened Wrappers

  /** Rust's `Range<usize>`: the indices start, start + 1, ..., end - 1. */
  datatype Range = Range(start: nat, end: nat) {

    /** Number of indices in the range (`ExactSizeIterator::len`, zero when end <= start). */
    function Len(): nat {
      if start <= end then end - start else 0
    }
  }

  /** One detected peak: the plateau it spans, the steps into and out of it, and the optional properties. */
  datatype Peak = Peak(position: Range, leftDiff: int, rightDiff: int, height: Option<int>, prominence: Option<int>) {

    /** A peak as the scan creates it: neither height nor prominence is computed yet. */
    static function New(position: Range, leftDiff: int, rightDiff: int): (p: Peak)
      ensures p.position == position && p.leftDiff == leftDiff && p.rightDiff == rightDiff
      ensures p.height.None? && p.prominence.None?
    {
      Peak(position, leftDiff, rightDiff, None, None)
    }

    /** Records the height; every other field is kept. */
    function AddHeight(h: int): (p: Peak)
      ensures p.height == Some(h)
      ensures p.position == position && p.leftDiff == leftDiff && p.rightDiff == rightDiff
      ensures p.prominence == prominence
    {
      this.(height := Some(h))
    }

    /** Records the prominence; every other field is kept. */
    function AddProminence(v: int): (p: Peak)
      ensures p.prominence == Some(v)
      ensures p.position == position && p.leftDiff == leftDiff && p.rightDiff == rightDiff
      ensures p.height == height
    {
      this.(prominence := Some(v))
    }

    /** The middle index of the plateau, rounded down for an even plateau size. */
    function MiddlePosition(): (m: nat)
      ensures 2 * m <= position.start + position.end < 2 * m + 2
      ensures position.start < position.end ==> position.start <= m < position.end
    {
      (position.start + position.end) / 2
    }
  }

  /** True when the peak's plateau lies inside a sequence of n samples and is not empty. */
  predicate WellFormed(p: Peak, n: nat) {
    p.position.start < p.position.end <= n
  }

  /** An inclusive interval with an optional lower and an optional upper bound. */
  datatype Limits = Limits(lower: Option<int>, upper: Option<int>) {

    /** The unrestricted interval. */
    static function Empty(): (l: Limits)
      ensures l.IsEmpty()
    {
      Limits(None, None)
    }

    /**
     * Both bounds are absent: the property this interval filters need not be computed.
     * That is exactly the interval that accepts every value.
     */
    predicate IsEmpty(): (r: bool)
      ensures r <==> forall v :: IsInside(v)
    {
      var probe := if lower.Some? then lower.value - 1 else if upper.Some? then upper.value + 1 else 0;
      assert lower.Some? || upper.Some? ==> !IsInside(probe);
      lower.None? && upper.None?
    }

    /** v satisfies every bound that is present; bounds that cross accept nothing. */
    predicate IsInside(v: int): (r: bool)
      ensures lower.None? && upper.None? ==> r
      ensures lower.Some? && upper.Some? && lower.value > upper.value ==> !r
    {
      && (lower.None? || v >= lower.value)
      && (upper.None? || v <= upper.value)
    }
  }

  /** Every bound present is at least zero (what the prominence, difference and distance setters demand). */
  predicate NonNegative(l: Limits) {
    && (l.lower.None? || l.lower.value >= 0)
    && (l.upper.None? || l.upper.value >= 0)
  }

  /**
   * Rust's order on `Option<i64>` read as "a >= b": None is below every Some,
   * two Somes compare by value.
   */
  predicate HeightAtLeast(a: Option<int>, b: Option<int>) {
    b.None? || (a.Some? && a.value >= b.value)
  }

  /** Heights are non-increasing along s (None ranks below every Some). */
  predicate HeightDescending(s: seq<Peak>) {
    forall i, j :: 0 <= i < j < |s| ==> HeightAtLeast(s[i].height, s[j].height)
  }

  /** s is s0 rearranged into height-descending order. */
  predicate IsHeightSorting(s0: seq<Peak>, s: seq<Peak>) {
    multiset(s) == multiset(s0) && HeightDescending(s)
  }

  /** a can be obtained from b by deleting elements, keeping the order of the rest. */
  predicate IsSubsequence<T(==)>(a: seq<T>, b: seq<T>)
    decreases |b|
  {
    if a == [] then true
    else if b == [] then false
    else (a[0] == b[0] && IsSubsequence(a[1..], b[1..])) || IsSubsequence(a, b[1..])
  }

  /** Every sequence is a subsequence of itself. */
  lemma {:induction false} SubsequenceReflexive<T>(a: seq<T>)
    ensures IsSubsequence(a, a)
    decreases |a|
  {
    if a != [] {
      SubsequenceReflexive(a[1..]);
    }
  }

  /** Every element of a subsequence is an element of the whole. */
  lemma {:induction false} SubsequenceMembers<T>(a: seq<T>, b: seq<T>)
    requires IsSubsequence(a, b)
    ensures forall e :: e in a ==> e in b
    ensures multiset(a) <= multiset(b)
    decreases |b|
  {
    if a != [] {
      assert b != [];
      if a[0] == b[0] && IsSubsequence(a[1..], b[1..]) {
        SubsequenceMembers(a[1..], b[1..]);
        assert a == [a[0]] + a[1..];
        assert b == [b[0]] + b[1..];
      } else {
        SubsequenceMembers(a, b[1..]);
        assert b == [b[0]] + b[1..];
      }
    }
  }
}
