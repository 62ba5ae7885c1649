/**
 * The last stage of the pipeline, `filter_distance`: sort the peaks by height,
 * descending, then keep the highest one and every following peak whose position
 * is inside the distance limits from the most recently kept one.
 */
module Distance {
  import opened Wrappers
  import opened Types

  /** Exchanges a[i] and a[j]. */
  method Swap(a: array<Peak>, i: nat, j: nat)
    requires i < a.Length && j < a.Length
    modifies a
    ensures a[i] == old(a[j]) && a[j] == old(a[i])
    ensures forall k :: 0 <= k < a.Length && k != i && k != j ==> a[k] == old(a[k])
    ensures multiset(a[..]) == multiset(old(a[..]))
  {
    a[i], a[j] := a[j], a[i];
  }

  /**
   * `sort_unstable_by` with the key "height, descending": sorts a in place.
   * The order among equal heights is left open, as it is in the source.
   */
  method SortByHeight(a: array<Peak>)
    modifies a
    ensures HeightDescending(a[..])
    ensures multiset(a[..]) == multiset(old(a[..]))
  {
    for i := 0 to a.Length
      invariant forall k, l :: 0 <= k < l < i ==> HeightAtLeast(a[k].height, a[l].height)
      invariant multiset(a[..]) == multiset(old(a[..]))
    {
      var j := i;
      while j > 0 && !HeightAtLeast(a[j - 1].height, a[j].height)
        invariant 0 <= j <= i
        invariant forall k, l :: 0 <= k < l <= i && k != j && l != j ==> HeightAtLeast(a[k].height, a[l].height)
        invariant forall l :: j < l <= i ==> HeightAtLeast(a[j].height, a[l].height)
        invariant multiset(a[..]) == multiset(old(a[..]))
      {
        Swap(a, j - 1, j);
        j := j - 1;
      }
    }
  }

  /** The distance between two positions, as the source computes it (larger minus smaller). */
  function Dist(a: int, b: int): (d: int)
    ensures d >= 0 && (d == a - b || d == b - a)
  {
    if a > b then a - b else b - a
  }

  /** All peaks have their middle index inside the position sequence x. */
  predicate FitsPositions(x: seq<int>, peaks: seq<Peak>) {
    forall p :: p in peaks ==> p.MiddlePosition() < |x|
  }

  /**
   * The greedy pass over rest: a peak is kept when the distance from its position to
   * xPrev, the position of the most recently kept peak, is inside the limits.
   */
  function KeepByDistance(x: seq<int>, lim: Limits, rest: seq<Peak>, xPrev: int): (r: seq<Peak>)
    requires FitsPositions(x, rest)
    ensures |r| <= |rest|
    ensures forall p :: p in r ==> p in rest
    decreases |rest|
  {
    if rest == [] then []
    else
      var xi := x[rest[0].MiddlePosition()];
      if lim.IsInside(Dist(xi, xPrev)) then [rest[0]] + KeepByDistance(x, lim, rest[1..], xi)
      else KeepByDistance(x, lim, rest[1..], xPrev)
  }

  /** The distance filter applied to a height-sorted, non-empty list: the first peak is always kept. */
  function ByDistance(x: seq<int>, lim: Limits, sorted: seq<Peak>): (r: seq<Peak>)
    requires sorted != [] && FitsPositions(x, sorted)
    ensures r != [] && r[0] == sorted[0]
  {
    [sorted[0]] + KeepByDistance(x, lim, sorted[1..], x[sorted[0].MiddlePosition()])
  }

  /**
   * What `filter_distance` may return for peaks: with empty limits a height-descending
   * permutation; with limits set and no peaks, the panic of `peaks[0]`; otherwise the
   * greedy pass over some height-descending permutation.
   */
  ghost predicate DistanceOutcome(x: seq<int>, lim: Limits, peaks: seq<Peak>, r: Result<seq<Peak>>) {
    FitsPositions(x, peaks) &&
    if lim.IsEmpty() then r.Ok? && IsHeightSorting(peaks, r.value)
    else if peaks == [] then r.Panic?
    else r.Ok? && exists s :: IsHeightSorting(peaks, s) && FitsPositions(x, s) && s != [] && r.value == ByDistance(x, lim, s)
  }

  lemma {:induction false} KeepIsSubsequence(x: seq<int>, lim: Limits, rest: seq<Peak>, xPrev: int)
    requires FitsPositions(x, rest)
    ensures IsSubsequence(KeepByDistance(x, lim, rest, xPrev), rest)
    decreases |rest|
  {
    if rest != [] {
      var xi := x[rest[0].MiddlePosition()];
      if lim.IsInside(Dist(xi, xPrev)) {
        KeepIsSubsequence(x, lim, rest[1..], xi);
        assert ([rest[0]] + KeepByDistance(x, lim, rest[1..], xi))[1..] == KeepByDistance(x, lim, rest[1..], xi);
      } else {
        KeepIsSubsequence(x, lim, rest[1..], xPrev);
      }
    }
  }

  /** The kept peaks are a subsequence of the sorted list: nothing is added or reordered. */
  lemma ByDistanceIsSubsequence(x: seq<int>, lim: Limits, sorted: seq<Peak>)
    requires sorted != [] && FitsPositions(x, sorted)
    ensures IsSubsequence(ByDistance(x, lim, sorted), sorted)
  {
    var xs := x[sorted[0].MiddlePosition()];
    KeepIsSubsequence(x, lim, sorted[1..], xs);
    assert ByDistance(x, lim, sorted)[1..] == KeepByDistance(x, lim, sorted[1..], xs);
  }

  /** Position of a peak's middle in x. */
  function PositionOf(x: seq<int>, p: Peak): int
    requires p.MiddlePosition() < |x|
  {
    x[p.MiddlePosition()]
  }

  lemma {:induction false} KeepSpacing(x: seq<int>, lim: Limits, rest: seq<Peak>, xPrev: int)
    requires FitsPositions(x, rest)
    ensures var r := KeepByDistance(x, lim, rest, xPrev);
      && FitsPositions(x, r)
      && (r != [] ==> lim.IsInside(Dist(PositionOf(x, r[0]), xPrev)))
      && forall k :: 1 <= k < |r| ==> lim.IsInside(Dist(PositionOf(x, r[k]), PositionOf(x, r[k - 1])))
    decreases |rest|
  {
    if rest != [] {
      var xi := x[rest[0].MiddlePosition()];
      KeepIsSubsequence(x, lim, rest, xPrev);
      SubsequenceMembers(KeepByDistance(x, lim, rest, xPrev), rest);
      if lim.IsInside(Dist(xi, xPrev)) {
        KeepSpacing(x, lim, rest[1..], xi);
      } else {
        KeepSpacing(x, lim, rest[1..], xPrev);
      }
    }
  }

  /** Every kept peak is inside the distance limits from the peak kept just before it. */
  lemma ByDistanceSpacing(x: seq<int>, lim: Limits, sorted: seq<Peak>)
    requires sorted != [] && FitsPositions(x, sorted)
    ensures var r := ByDistance(x, lim, sorted);
      && FitsPositions(x, r)
      && forall k :: 1 <= k < |r| ==> lim.IsInside(Dist(PositionOf(x, r[k]), PositionOf(x, r[k - 1])))
  {
    KeepSpacing(x, lim, sorted[1..], x[sorted[0].MiddlePosition()]);
  }

  lemma {:induction false} KeepAll(x: seq<int>, lim: Limits, rest: seq<Peak>, xPrev: int)
    requires FitsPositions(x, rest)
    requires forall d :: d >= 0 ==> lim.IsInside(d)
    ensures KeepByDistance(x, lim, rest, xPrev) == rest
    decreases |rest|
  {
    if rest != [] {
      var xi := x[rest[0].MiddlePosition()];
      assert lim.IsInside(Dist(xi, xPrev));
      KeepAll(x, lim, rest[1..], xi);
    }
  }

  /** Limits that accept every non-negative distance (a minimum distance of 0) drop nothing. */
  lemma ByDistanceKeepsAll(x: seq<int>, lim: Limits, sorted: seq<Peak>)
    requires sorted != [] && FitsPositions(x, sorted)
    requires forall d :: d >= 0 ==> lim.IsInside(d)
    ensures ByDistance(x, lim, sorted) == sorted
  {
    KeepAll(x, lim, sorted[1..], x[sorted[0].MiddlePosition()]);
  }

  /** r lists the peaks of s at the indices ks, in that order. */
  predicate Selects(r: seq<Peak>, s: seq<Peak>, ks: seq<nat>) {
    && |r| == |ks|
    && (forall k :: 0 <= k < |ks| ==> ks[k] < |s| && r[k] == s[ks[k]])
  }

  /** ks are indices below n, strictly increasing. */
  predicate Increasing(ks: seq<nat>, n: nat) {
    && (forall k :: 0 <= k < |ks| ==> ks[k] < n)
    && (forall k :: 1 <= k < |ks| ==> ks[k - 1] < ks[k])
  }

  /** Each kept peak after the first is inside the limits from the one kept before it. */
  ghost predicate KeptSpaced(x: seq<int>, lim: Limits, s: seq<Peak>, ks: seq<nat>)
    requires FitsPositions(x, s) && Increasing(ks, |s|)
  {
    forall k :: 1 <= k < |ks| ==> lim.IsInside(Dist(PositionOf(x, s[ks[k]]), PositionOf(x, s[ks[k - 1]])))
  }

  /** Every peak between two kept ones, or after the last, is outside the limits from the kept peak just before it. */
  ghost predicate DroppedFar(x: seq<int>, lim: Limits, s: seq<Peak>, ks: seq<nat>)
    requires FitsPositions(x, s) && Increasing(ks, |s|)
  {
    forall k, j :: 0 <= k < |ks| && ks[k] < j < |s| && (k + 1 == |ks| || j < ks[k + 1]) ==>
      !lim.IsInside(Dist(PositionOf(x, s[j]), PositionOf(x, s[ks[k]])))
  }

  /** The greedy rule over s, read from the kept indices ks. */
  ghost predicate GreedyAfter(x: seq<int>, lim: Limits, s: seq<Peak>, ks: seq<nat>)
    requires FitsPositions(x, s)
  {
    Increasing(ks, |s|) && KeptSpaced(x, lim, s, ks) && DroppedFar(x, lim, s, ks)
  }

  /** The indices ks shifted by one, for a list with one more peak in front. */
  function Shift(ks: seq<nat>): (r: seq<nat>)
    ensures |r| == |ks| && forall k :: 0 <= k < |ks| ==> r[k] == ks[k] + 1
  {
    seq(|ks|, k requires 0 <= k < |ks| => ks[k] + 1)
  }

  lemma ShiftIncreasing(ks: seq<nat>, n: nat)
    requires Increasing(ks, n)
    ensures Increasing(Shift(ks), n + 1) && Increasing([0] + Shift(ks), n + 1)
  {
  }

  /**
   * The pass over rest from position xPrev keeps exactly the peaks at some indices ks:
   * the first kept one is the first inside the limits from xPrev, all before it are
   * outside, and from there on the greedy rule holds.
   */
  lemma {:induction false} KeepIndices(x: seq<int>, lim: Limits, rest: seq<Peak>, xPrev: int) returns (ks: seq<nat>)
    requires FitsPositions(x, rest)
    ensures Selects(KeepByDistance(x, lim, rest, xPrev), rest, ks)
    ensures GreedyAfter(x, lim, rest, ks)
    ensures |ks| > 0 ==> lim.IsInside(Dist(PositionOf(x, rest[ks[0]]), xPrev))
    ensures forall j :: 0 <= j < |rest| && (|ks| == 0 || j < ks[0]) ==> !lim.IsInside(Dist(PositionOf(x, rest[j]), xPrev))
    decreases |rest|
  {
    if rest == [] {
      return [];
    }
    var xi := PositionOf(x, rest[0]);
    var tail := rest[1..];
    if lim.IsInside(Dist(xi, xPrev)) {
      var ks' := KeepIndices(x, lim, tail, xi);
      assert KeepByDistance(x, lim, rest, xPrev) == [rest[0]] + KeepByDistance(x, lim, tail, xi);
      ks := [0] + Shift(ks');
      ShiftIncreasing(ks', |tail|);
      KeptFrontSpaced(x, lim, rest, xi, ks');
      KeptFrontDropped(x, lim, rest, xi, ks');
    } else {
      var ks' := KeepIndices(x, lim, tail, xPrev);
      assert KeepByDistance(x, lim, rest, xPrev) == KeepByDistance(x, lim, tail, xPrev);
      ks := Shift(ks');
      ShiftIncreasing(ks', |tail|);
      ShiftSpaced(x, lim, rest, ks');
      ShiftDropped(x, lim, rest, ks');
      DroppedFrontBefore(x, lim, rest, xPrev, ks');
    }
  }

  /** Dropping the front peak: it and the tail's peaks before the first kept one are all far from xPrev. */
  lemma DroppedFrontBefore(x: seq<int>, lim: Limits, rest: seq<Peak>, xPrev: int, ks': seq<nat>)
    requires FitsPositions(x, rest) && rest != []
    requires !lim.IsInside(Dist(PositionOf(x, rest[0]), xPrev))
    requires forall j :: 0 <= j < |rest| - 1 && (|ks'| == 0 || j < ks'[0]) ==> !lim.IsInside(Dist(PositionOf(x, rest[1..][j]), xPrev))
    ensures forall j :: 0 <= j < |rest| && (|ks'| == 0 || j < Shift(ks')[0]) ==> !lim.IsInside(Dist(PositionOf(x, rest[j]), xPrev))
  {
    forall j | 0 < j < |rest| && (|ks'| == 0 || j < Shift(ks')[0])
      ensures !lim.IsInside(Dist(PositionOf(x, rest[j]), xPrev))
    {
      assert rest[1..][j - 1] == rest[j];
    }
  }

  /** Keeping the front peak: index 0, then the tail's kept indices shifted, stay spaced. */
  lemma KeptFrontSpaced(x: seq<int>, lim: Limits, rest: seq<Peak>, xi: int, ks': seq<nat>)
    requires FitsPositions(x, rest) && rest != [] && xi == PositionOf(x, rest[0])
    requires Increasing(ks', |rest| - 1) && KeptSpaced(x, lim, rest[1..], ks')
    requires |ks'| > 0 ==> lim.IsInside(Dist(PositionOf(x, rest[1..][ks'[0]]), xi))
    ensures Increasing([0] + Shift(ks'), |rest|) && KeptSpaced(x, lim, rest, [0] + Shift(ks'))
  {
    var ks := [0] + Shift(ks');
    ShiftIncreasing(ks', |rest| - 1);
    forall k | 1 <= k < |ks|
      ensures lim.IsInside(Dist(PositionOf(x, rest[ks[k]]), PositionOf(x, rest[ks[k - 1]])))
    {
      assert rest[1..][ks'[k - 1]] == rest[ks[k]];
      if k > 1 {
        assert rest[1..][ks'[k - 2]] == rest[ks[k - 1]];
      }
    }
  }

  /** Keeping the front peak: the peaks the tail drops before its first kept one are far from the front. */
  lemma KeptFrontDropped(x: seq<int>, lim: Limits, rest: seq<Peak>, xi: int, ks': seq<nat>)
    requires FitsPositions(x, rest) && rest != [] && xi == PositionOf(x, rest[0])
    requires Increasing(ks', |rest| - 1) && DroppedFar(x, lim, rest[1..], ks')
    requires forall j :: 0 <= j < |rest| - 1 && (|ks'| == 0 || j < ks'[0]) ==> !lim.IsInside(Dist(PositionOf(x, rest[1..][j]), xi))
    ensures Increasing([0] + Shift(ks'), |rest|) && DroppedFar(x, lim, rest, [0] + Shift(ks'))
  {
    var ks := [0] + Shift(ks');
    ShiftIncreasing(ks', |rest| - 1);
    forall k, j | 0 <= k < |ks| && ks[k] < j < |rest| && (k + 1 == |ks| || j < ks[k + 1])
      ensures !lim.IsInside(Dist(PositionOf(x, rest[j]), PositionOf(x, rest[ks[k]])))
    {
      assert rest[1..][j - 1] == rest[j];
      if k > 0 {
        assert rest[1..][ks'[k - 1]] == rest[ks[k]];
        assert k == |ks'| || j - 1 < ks'[k];
      }
    }
  }

  /** Dropping the front peak: the tail's kept indices, shifted, stay spaced. */
  lemma ShiftSpaced(x: seq<int>, lim: Limits, rest: seq<Peak>, ks': seq<nat>)
    requires FitsPositions(x, rest) && rest != []
    requires Increasing(ks', |rest| - 1) && KeptSpaced(x, lim, rest[1..], ks')
    ensures Increasing(Shift(ks'), |rest|) && KeptSpaced(x, lim, rest, Shift(ks'))
  {
    var ks := Shift(ks');
    ShiftIncreasing(ks', |rest| - 1);
    forall k | 1 <= k < |ks|
      ensures lim.IsInside(Dist(PositionOf(x, rest[ks[k]]), PositionOf(x, rest[ks[k - 1]])))
    {
      assert rest[1..][ks'[k]] == rest[ks[k]] && rest[1..][ks'[k - 1]] == rest[ks[k - 1]];
    }
  }

  /** Dropping the front peak: the peaks the tail drops stay far from the kept peak before them. */
  lemma ShiftDropped(x: seq<int>, lim: Limits, rest: seq<Peak>, ks': seq<nat>)
    requires FitsPositions(x, rest) && rest != []
    requires Increasing(ks', |rest| - 1) && DroppedFar(x, lim, rest[1..], ks')
    ensures Increasing(Shift(ks'), |rest|) && DroppedFar(x, lim, rest, Shift(ks'))
  {
    var ks := Shift(ks');
    ShiftIncreasing(ks', |rest| - 1);
    forall k, j | 0 <= k < |ks| && ks[k] < j < |rest| && (k + 1 == |ks| || j < ks[k + 1])
      ensures !lim.IsInside(Dist(PositionOf(x, rest[j]), PositionOf(x, rest[ks[k]])))
    {
      assert rest[1..][ks'[k]] == rest[ks[k]] && rest[1..][j - 1] == rest[j];
    }
  }

  /**
   * `filter_distance` past the sort: the result is the peaks of sorted at increasing
   * indices starting with 0, and a peak is kept exactly when its distance from the
   * peak kept before it is inside the limits.
   */
  lemma ByDistanceIndices(x: seq<int>, lim: Limits, sorted: seq<Peak>) returns (ks: seq<nat>)
    requires sorted != [] && FitsPositions(x, sorted)
    ensures |ks| > 0 && ks[0] == 0
    ensures Selects(ByDistance(x, lim, sorted), sorted, ks)
    ensures GreedyAfter(x, lim, sorted, ks)
  {
    var x0 := PositionOf(x, sorted[0]);
    var ks' := KeepIndices(x, lim, sorted[1..], x0);
    ks := [0] + Shift(ks');
    ShiftIncreasing(ks', |sorted| - 1);
    KeptFrontSpaced(x, lim, sorted, x0, ks');
    KeptFrontDropped(x, lim, sorted, x0, ks');
  }

  /** Whatever `filter_distance` returns holds only peaks it was given. */
  lemma DistanceOutcomeMembers(x: seq<int>, lim: Limits, peaks: seq<Peak>, r: Result<seq<Peak>>)
    requires DistanceOutcome(x, lim, peaks, r) && r.Ok?
    ensures forall p :: p in r.value ==> p in peaks
  {
    if lim.IsEmpty() {
      forall p | p in r.value ensures p in peaks {
        assert p in multiset(r.value);
      }
    } else {
      var s :| IsHeightSorting(peaks, s) && FitsPositions(x, s) && s != [] && r.value == ByDistance(x, lim, s);
      ByDistanceIsSubsequence(x, lim, s);
      SubsequenceMembers(r.value, s);
      forall p | p in r.value ensures p in peaks {
        assert p in multiset(s);
      }
    }
  }

  /** A rearrangement of peaks that fit the positions fits them too. */
  lemma SortingFits(x: seq<int>, peaks: seq<Peak>, s: seq<Peak>)
    requires FitsPositions(x, peaks) && multiset(s) == multiset(peaks)
    ensures FitsPositions(x, s)
  {
    forall p | p in s ensures p.MiddlePosition() < |x| {
      assert p in multiset(peaks);
    }
  }

  /** The three outcomes of `filter_distance`, given the height-sorted list s. */
  lemma SortedOutcome(x: seq<int>, lim: Limits, peaks: seq<Peak>, s: seq<Peak>, message: string)
    requires FitsPositions(x, peaks) && IsHeightSorting(peaks, s)
    ensures FitsPositions(x, s)
    ensures lim.IsEmpty() ==> DistanceOutcome(x, lim, peaks, Ok(s))
    ensures !lim.IsEmpty() && s == [] ==> DistanceOutcome(x, lim, peaks, Panic(message))
    ensures !lim.IsEmpty() && s != [] ==> DistanceOutcome(x, lim, peaks, Ok(ByDistance(x, lim, s)))
  {
    SortingFits(x, peaks, s);
    if s == [] {
      assert |peaks| == |multiset(peaks)| == 0;
    }
  }
}
