/**
 * `PeakFinder`: the samples y, their positions x and the five limits, the builder
 * setters that change one bound each, and `find_peaks`, which runs the scan, the
 * plateau, height and prominence filters and the distance filter.
 */
module Finder {
  import opened Wrappers
  import opened Types
  import opened Scan
  import opened Filters
  import opened Distance

  /** The plateau, height and prominence filters applied in turn, as `find_peaks` chains them. */
  function FilterStages(y: seq<int>, candidates: seq<Peak>, plateau: Limits, height: Limits, prominence: Limits): seq<Peak>
    requires forall p :: p in candidates ==> WellFormed(p, |y|)
  {
    var sized := FilterPlateau(candidates, plateau);
    assert forall p :: p in sized ==> WellFormed(p, |y|) by {
      forall p | p in sized ensures WellFormed(p, |y|) {
        assert p in candidates;
      }
    }
    var high := FilterHeight(y, sized, height);
    assert forall q :: q in high ==> WellFormed(q, |y|) by {
      forall q | q in high ensures WellFormed(q, |y|) {
        var p := HeightOrigin(y, sized, height, q);
      }
    }
    FilterProminence(y, high, prominence)
  }

  /** The peaks that survive every stage before the distance filter. */
  function Survivors(y: seq<int>, difference: Limits, plateau: Limits, height: Limits, prominence: Limits): seq<Peak> {
    LocalMaximaSound(y, difference);
    FilterStages(y, LocalMaxima(y, difference), plateau, height, prominence)
  }

  /**
   * What a reported peak satisfies: it is a candidate of the scan, its plateau size is
   * inside the plateau limits, and its height and prominence are recorded (and inside
   * their limits) exactly when those limits are set.
   */
  predicate Accepted(y: seq<int>, difference: Limits, plateau: Limits, height: Limits, prominence: Limits, p: Peak) {
    && IsCandidate(y, difference, p)
    && plateau.IsInside(p.position.Len())
    && (if height.IsEmpty() then p.height.None?
        else p.height == Some(y[p.position.start]) && height.IsInside(y[p.position.start]))
    && (if prominence.IsEmpty() then p.prominence.None?
        else p.prominence == Some(CalcProminence(y, p)) && prominence.IsInside(CalcProminence(y, p)))
  }

  /** A candidate of the scan with the height and prominence the filters record for it. */
  function Annotated(y: seq<int>, height: Limits, prominence: Limits, p: Peak): Peak
    requires WellFormed(p, |y|)
  {
    var h := if height.IsEmpty() then p else p.AddHeight(y[p.position.start]);
    if prominence.IsEmpty() then h else h.AddProminence(CalcProminence(y, h))
  }

  /** Every survivor of the first four stages satisfies all the configured limits. */
  lemma SurvivorsSound(y: seq<int>, difference: Limits, plateau: Limits, height: Limits, prominence: Limits)
    ensures forall q :: q in Survivors(y, difference, plateau, height, prominence) ==>
      Accepted(y, difference, plateau, height, prominence, q)
  {
    forall q | q in Survivors(y, difference, plateau, height, prominence)
      ensures Accepted(y, difference, plateau, height, prominence, q)
    {
      SurvivorAccepted(y, difference, plateau, height, prominence, q);
    }
  }

  lemma SurvivorAccepted(y: seq<int>, difference: Limits, plateau: Limits, height: Limits, prominence: Limits, q: Peak)
    requires q in Survivors(y, difference, plateau, height, prominence)
    ensures Accepted(y, difference, plateau, height, prominence, q)
  {
    var candidates := LocalMaxima(y, difference);
    LocalMaximaSound(y, difference);
    var sized := FilterPlateau(candidates, plateau);
    var high := FilterHeight(y, sized, height);
    assert forall p :: p in sized ==> WellFormed(p, |y|) by {
      forall p | p in sized ensures WellFormed(p, |y|) {
        assert p in candidates;
      }
    }
    assert forall q :: q in high ==> WellFormed(q, |y|) by {
      forall q | q in high ensures WellFormed(q, |y|) {
        var p := HeightOrigin(y, sized, height, q);
      }
    }
    var hq := ProminenceOrigin(y, high, prominence, q);
    var p := HeightOrigin(y, sized, height, hq);
    assert p in candidates && plateau.IsInside(p.position.Len());
    AcceptedFromOrigin(y, difference, plateau, height, prominence, p, hq, q);
  }

  /** The fields a survivor shares with the candidate it came from decide Accepted. */
  lemma AcceptedFromOrigin(y: seq<int>, difference: Limits, plateau: Limits, height: Limits, prominence: Limits, p: Peak, hq: Peak, q: Peak)
    requires IsCandidate(y, difference, p) && p.height.None? && p.prominence.None?
    requires plateau.IsInside(p.position.Len())
    requires height.IsEmpty() ==> hq == p
    requires !height.IsEmpty() ==> height.IsInside(y[p.position.start]) && hq == p.AddHeight(y[p.position.start])
    requires hq.position == p.position
    requires prominence.IsEmpty() ==> q == hq
    requires !prominence.IsEmpty() ==> prominence.IsInside(CalcProminence(y, hq)) && q == hq.AddProminence(CalcProminence(y, hq))
    ensures Accepted(y, difference, plateau, height, prominence, q)
  {
    assert q.position == p.position && q.leftDiff == p.leftDiff && q.rightDiff == p.rightDiff;
    assert CalcProminence(y, hq) == CalcProminence(y, q);
  }

  /**
   * Conversely, every candidate of the scan whose plateau size, height and prominence
   * are inside the limits survives, with those properties recorded.
   */
  lemma SurvivorsComplete(y: seq<int>, difference: Limits, plateau: Limits, height: Limits, prominence: Limits, p: Peak)
    requires p in LocalMaxima(y, difference)
    requires WellFormed(p, |y|) // holds of every candidate, by LocalMaximaSound
    requires plateau.IsInside(p.position.Len())
    requires height.IsInside(y[p.position.start])
    requires prominence.IsInside(CalcProminence(y, p))
    ensures Annotated(y, height, prominence, p) in Survivors(y, difference, plateau, height, prominence)
  {
    var candidates := LocalMaxima(y, difference);
    LocalMaximaSound(y, difference);
    var sized := FilterPlateau(candidates, plateau);
    var high := FilterHeight(y, sized, height);
    assert p in sized;
    var h := if height.IsEmpty() then p else p.AddHeight(y[p.position.start]);
    assert h in high;
    assert CalcProminence(y, h) == CalcProminence(y, p);
  }

  /**
   * What `find_peaks` reports: every peak satisfies all the limits and, under a
   * non-negative minimum difference, is a local maximum with a strict step down on its right.
   */
  lemma ReportedPeaksAccepted(y: seq<int>, x: seq<int>, difference: Limits, plateau: Limits, height: Limits,
                              prominence: Limits, distance: Limits, r: Result<seq<Peak>>)
    requires DistanceOutcome(x, distance, Survivors(y, difference, plateau, height, prominence), r) && r.Ok?
    requires difference.lower.Some? && difference.lower.value >= 0
    ensures forall p :: p in r.value ==> Accepted(y, difference, plateau, height, prominence, p)
    ensures forall p :: p in r.value ==> IsLocalMaximum(y, p)
  {
    var survivors := Survivors(y, difference, plateau, height, prominence);
    DistanceOutcomeMembers(x, distance, survivors, r);
    forall p | p in r.value
      ensures Accepted(y, difference, plateau, height, prominence, p)
      ensures IsLocalMaximum(y, p)
    {
      SurvivorAccepted(y, difference, plateau, height, prominence, p);
      CandidateIsLocalMaximum(y, difference, p);
    }
  }

  class PeakFinder {
    /** The samples. */
    const y: seq<int>
    /** The position of each sample; 0, 1, 2, ... unless the caller gives them. */
    const x: seq<int>
    var height: Limits
    var prominence: Limits
    var difference: Limits
    var plateauSize: Limits
    var distance: Limits

    /** One position per sample, and the bounds every setter has let through. */
    ghost predicate Valid()
      reads this
    {
      && |x| == |y|
      && NonNegative(prominence) && NonNegative(difference) && NonNegative(distance) && NonNegative(plateauSize)
      && (|y| > 0 ==> difference.lower.Some?)
    }

    /** `PeakFinder::new`: positions are the sample indices. */
    constructor New(yData: seq<int>)
      ensures Valid()
      ensures y == yData && x == seq(|yData|, i => i)
      ensures height == Limits.Empty() && prominence == Limits.Empty()
      ensures plateauSize == Limits.Empty() && distance == Limits.Empty()
      ensures difference == if yData == [] then Limits.Empty() else Limits(Some(0), None)
    {
      y := yData;
      x := seq(|yData|, i => i);
      height, prominence, plateauSize, distance := Limits.Empty(), Limits.Empty(), Limits.Empty(), Limits.Empty();
      difference := if yData == [] then Limits.Empty() else Limits(Some(0), None);
    }

    /** `PeakFinder::new_with_x`: the caller gives one position per sample. */
    constructor NewWithX(yData: seq<int>, xData: seq<int>)
      requires |xData| == |yData|
      ensures Valid()
      ensures y == yData && x == xData
      ensures height == Limits.Empty() && prominence == Limits.Empty()
      ensures plateauSize == Limits.Empty() && distance == Limits.Empty()
      ensures difference == if yData == [] then Limits.Empty() else Limits(Some(0), None)
    {
      y := yData;
      x := xData;
      height, prominence, plateauSize, distance := Limits.Empty(), Limits.Empty(), Limits.Empty(), Limits.Empty();
      difference := if yData == [] then Limits.Empty() else Limits(Some(0), None);
    }

    /** `get_local_maxima`: the left-to-right scan over the samples. */
    method GetLocalMaxima() returns (peaks: seq<Peak>)
      requires |y| >= 2
      ensures peaks == LocalMaxima(y, difference)
    {
      var zeroth, first := y[0], y[1];
      var backDiff := first - zeroth;
      var prev := first;
      var limit := difference;
      var start: Option<nat> := None;
      ghost var all := ScanFrom(y, limit, 2, ScanState(backDiff, start));
      peaks := [];
      var i := 2;
      while i < |y|
        invariant 2 <= i <= |y|
        invariant prev == y[i - 1]
        invariant peaks + ScanFrom(y, limit, i, ScanState(backDiff, start)) == all
      {
        ghost var st := ScanState(backDiff, start);
        ghost var before := peaks;
        ScanAdvance(y, limit, i, st, before);
        var cur := y[i];
        var aheadDiff := prev - cur;
        var aheadInside := limit.IsInside(aheadDiff);
        var backInside := limit.IsInside(backDiff);
        if backInside && aheadDiff == 0 {
          if start.None? {
            start := Some(i - 1);
          }
        } else {
          if aheadInside && backInside {
            peaks := peaks + [Peak.New(Range(start.UnwrapOr(i - 1), i), backDiff, aheadDiff)];
          }
          start := None;
          backDiff := 0 - aheadDiff;
        }
        assert peaks == before + Emitted(y, limit, i, st);
        assert ScanState(backDiff, start) == Next(y, limit, i, st);
        prev := cur;
        i := i + 1;
      }
      assert all == LocalMaxima(y, difference);
    }

    /** `filter_distance`: sorts by height, descending, then keeps peaks by distance to the last kept one. */
    method FilterDistance(peaks: seq<Peak>) returns (r: Result<seq<Peak>>)
      requires FitsPositions(x, peaks)
      ensures DistanceOutcome(x, distance, peaks, r)
    {
      var a := new Peak[|peaks|](i requires 0 <= i < |peaks| => peaks[i]);
      assert a[..] == peaks;
      SortByHeight(a);
      var sorted := a[..];
      var limit, xData := distance, x;
      var message := "index out of bounds: the len is 0 but the index is 0";
      SortedOutcome(xData, limit, peaks, sorted, message);
      if limit.IsEmpty() {
        return Ok(sorted);
      }
      if a.Length == 0 {
        return Panic(message);
      }
      var filtered := [a[0]];
      var xPrev := xData[a[0].MiddlePosition()];
      for i := 1 to a.Length
        invariant a[..] == sorted
        invariant filtered + KeepByDistance(xData, limit, sorted[i..], xPrev) == ByDistance(xData, limit, sorted)
      {
        assert sorted[i] in sorted;
        var xi := xData[a[i].MiddlePosition()];
        var dist := if xi > xPrev then xi - xPrev else xPrev - xi;
        assert sorted[i..][1..] == sorted[i + 1..];
        if limit.IsInside(dist) {
          filtered := filtered + [a[i]];
          xPrev := xi;
        }
      }
      return Ok(filtered);
    }

    /** `find_peaks`: the whole pipeline; fewer than two samples give no peaks. */
    method FindPeaks() returns (r: Result<seq<Peak>>)
      requires Valid()
      ensures |y| < 2 ==> r == Ok([])
      ensures |y| >= 2 ==> DistanceOutcome(x, distance, Survivors(y, difference, plateauSize, height, prominence), r)
      ensures r.Panic? <==> |y| >= 2 && !distance.IsEmpty() && Survivors(y, difference, plateauSize, height, prominence) == []
      ensures r.Ok? ==> forall p :: p in r.value ==> Accepted(y, difference, plateauSize, height, prominence, p)
      ensures r.Ok? ==> forall p :: p in r.value ==> IsLocalMaximum(y, p)
    {
      if |y| == 0 || |y| == 1 {
        return Ok([]);
      }
      var candidates := GetLocalMaxima();
      LocalMaximaSound(y, difference);
      var peaks := FilterStages(y, candidates, plateauSize, height, prominence);
      assert peaks == Survivors(y, difference, plateauSize, height, prominence);
      SurvivorsSound(y, difference, plateauSize, height, prominence);
      assert FitsPositions(x, peaks) by {
        forall p | p in peaks ensures p.MiddlePosition() < |x| {
          assert Accepted(y, difference, plateauSize, height, prominence, p);
        }
      }
      r := FilterDistance(peaks);
      if r.Ok? {
        ReportedPeaksAccepted(y, x, difference, plateauSize, height, prominence, distance, r);
      }
    }

    method WithMinHeight(h: int)
      requires Valid()
      modifies this
      ensures Valid()
      ensures height == old(height).(lower := Some(h))
      ensures prominence == old(prominence) && difference == old(difference)
      ensures plateauSize == old(plateauSize) && distance == old(distance)
    {
      height := height.(lower := Some(h));
    }

    method WithMaxHeight(h: int)
      requires Valid()
      modifies this
      ensures Valid()
      ensures height == old(height).(upper := Some(h))
      ensures prominence == old(prominence) && difference == old(difference)
      ensures plateauSize == old(plateauSize) && distance == old(distance)
    {
      height := height.(upper := Some(h));
    }

    /** Panics (here: may not be called) on a negative prominence. */
    method WithMinProminence(p: int)
      requires Valid() && p >= 0
      modifies this
      ensures Valid()
      ensures prominence == old(prominence).(lower := Some(p))
      ensures height == old(height) && difference == old(difference)
      ensures plateauSize == old(plateauSize) && distance == old(distance)
    {
      prominence := prominence.(lower := Some(p));
    }

    method WithMaxProminence(p: int)
      requires Valid() && p >= 0
      modifies this
      ensures Valid()
      ensures prominence == old(prominence).(upper := Some(p))
      ensures height == old(height) && difference == old(difference)
      ensures plateauSize == old(plateauSize) && distance == old(distance)
    {
      prominence := prominence.(upper := Some(p));
    }

    method WithMinDifference(d: int)
      requires Valid() && d >= 0
      modifies this
      ensures Valid()
      ensures difference == old(difference).(lower := Some(d))
      ensures height == old(height) && prominence == old(prominence)
      ensures plateauSize == old(plateauSize) && distance == old(distance)
    {
      difference := difference.(lower := Some(d));
    }

    method WithMaxDifference(d: int)
      requires Valid() && d >= 0
      modifies this
      ensures Valid()
      ensures difference == old(difference).(upper := Some(d))
      ensures height == old(height) && prominence == old(prominence)
      ensures plateauSize == old(plateauSize) && distance == old(distance)
    {
      difference := difference.(upper := Some(d));
    }

    method WithMinPlateauSize(size: nat)
      requires Valid()
      modifies this
      ensures Valid()
      ensures plateauSize == old(plateauSize).(lower := Some(size))
      ensures height == old(height) && prominence == old(prominence)
      ensures difference == old(difference) && distance == old(distance)
    {
      plateauSize := plateauSize.(lower := Some(size));
    }

    method WithMaxPlateauSize(size: nat)
      requires Valid()
      modifies this
      ensures Valid()
      ensures plateauSize == old(plateauSize).(upper := Some(size))
      ensures height == old(height) && prominence == old(prominence)
      ensures difference == old(difference) && distance == old(distance)
    {
      plateauSize := plateauSize.(upper := Some(size));
    }

    method WithMinDistance(d: int)
      requires Valid() && d >= 0
      modifies this
      ensures Valid()
      ensures distance == old(distance).(lower := Some(d))
      ensures height == old(height) && prominence == old(prominence)
      ensures difference == old(difference) && plateauSize == old(plateauSize)
    {
      distance := distance.(lower := Some(d));
    }

    method WithMaxDistance(d: int)
      requires Valid() && d >= 0
      modifies this
      ensures Valid()
      ensures distance == old(distance).(upper := Some(d))
      ensures height == old(height) && prominence == old(prominence)
      ensures difference == old(difference) && plateauSize == old(plateauSize)
    {
      distance := distance.(upper := Some(d));
    }
  }
}
