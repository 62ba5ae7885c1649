/**
 * The scenarios of the source's unit tests and doc example, stated over the model:
 * the candidates of the scan, the prominences, the order the distance stage fixes,
 * and the inputs that give no peaks at all.
 */
module Scenarios {
  import opened Wrappers
  import opened Types
  import opened Scan
  import opened Filters
  import opened Distance
  import opened Finder

  /** The difference limits `PeakFinder::new` starts with on non-empty data. */
  function DefaultDifference(): Limits {
    Limits(Some(0), None)
  }

  function Sample(): seq<int> {
    [1, 2, 3, 0, 5, 0]
  }

  /** [1, 2, 3, 0, 5, 0] has two candidates, [2, 3) and [4, 5), with the diffs the tests expect. */
  lemma SampleCandidates()
    ensures LocalMaxima(Sample(), DefaultDifference()) ==
      [Peak.New(Range(2, 3), 1, 3), Peak.New(Range(4, 5), 5, 5)]
  {
    var y, lim := Sample(), DefaultDifference();
    var s2 := ScanState(1, None);
    var s3 := Next(y, lim, 2, s2);
    var s4 := Next(y, lim, 3, s3);
    var s5 := Next(y, lim, 4, s4);
    assert s3 == ScanState(1, None);
    assert s4 == ScanState(-3, None);
    assert s5 == ScanState(5, None);
    assert ScanFrom(y, lim, 6, Next(y, lim, 5, s5)) == [];
    assert ScanFrom(y, lim, 5, s5) == [Peak.New(Range(4, 5), 5, 5)];
    assert ScanFrom(y, lim, 4, s4) == [Peak.New(Range(4, 5), 5, 5)];
    assert ScanFrom(y, lim, 3, s3) == [Peak.New(Range(2, 3), 1, 3), Peak.New(Range(4, 5), 5, 5)];
  }

  /** The prominences of the two peaks of [1, 2, 3, 0, 5, 0] are 5 and 2. */
  lemma SampleProminences()
    ensures CalcProminence(Sample(), Peak.New(Range(4, 5), 5, 5)) == 5
    ensures CalcProminence(Sample(), Peak.New(Range(2, 3), 1, 3)) == 2
  {
    var y := Sample();
    assert LeftValley(y, 0, 5) == None;
    assert LeftValley(y, 1, 5) == Some(1);
    assert LeftValley(y, 2, 5) == Some(1);
    assert LeftValley(y, 3, 5) == Some(1);
    assert LeftValley(y, 4, 5) == Some(0);
    assert RightValley(y, 6, 5) == None;
    assert RightValley(y, 5, 5) == Some(0);
    assert LeftValley(y, 0, 3) == None;
    assert LeftValley(y, 1, 3) == Some(1);
    assert LeftValley(y, 2, 3) == Some(1);
    assert RightValley(y, 4, 3) == None;
    assert RightValley(y, 3, 3) == Some(0);
  }

  /** Two peaks with different heights have exactly one height-descending order. */
  lemma TwoPeaksOrder(a: Peak, b: Peak, s: seq<Peak>)
    requires a.height.Some? && b.height.Some? && a.height.value > b.height.value
    requires IsHeightSorting([b, a], s)
    ensures s == [a, b]
  {
    assert |s| == |multiset(s)| == 2;
    assert s[0] in multiset([b, a]) && s[1] in multiset([b, a]);
    assert multiset(s) == multiset{s[0], s[1]} by {
      assert s == [s[0], s[1]];
    }
  }

  /**
   * With a minimum height of 0 and a minimum prominence of 1, both candidates of
   * [1, 2, 3, 0, 5, 0] survive, with heights 3 and 5 and prominences 2 and 5.
   */
  lemma SampleSurvivors()
    ensures Survivors(Sample(), DefaultDifference(), Limits.Empty(), Limits(Some(0), None), Limits(Some(1), None))
      == [Peak(Range(2, 3), 1, 3, Some(3), Some(2)), Peak(Range(4, 5), 5, 5, Some(5), Some(5))]
  {
    var p23, p45 := Peak.New(Range(2, 3), 1, 3), Peak.New(Range(4, 5), 5, 5);
    SampleCandidates();
    assert FilterPlateau([p23, p45], Limits.Empty()) == [p23, p45];
    SampleHeights();
    SampleProminenceStage();
  }

  lemma SampleHeights()
    ensures FilterHeight(Sample(), [Peak.New(Range(2, 3), 1, 3), Peak.New(Range(4, 5), 5, 5)], Limits(Some(0), None))
      == [Peak(Range(2, 3), 1, 3, Some(3), None), Peak(Range(4, 5), 5, 5, Some(5), None)]
  {
    var p45 := Peak.New(Range(4, 5), 5, 5);
    assert [p45][1..] == [];
  }

  lemma SampleProminenceStage()
    ensures FilterProminence(Sample(), [Peak(Range(2, 3), 1, 3, Some(3), None), Peak(Range(4, 5), 5, 5, Some(5), None)], Limits(Some(1), None))
      == [Peak(Range(2, 3), 1, 3, Some(3), Some(2)), Peak(Range(4, 5), 5, 5, Some(5), Some(5))]
  {
    SampleProminences();
    var h23, h45 := Peak(Range(2, 3), 1, 3, Some(3), None), Peak(Range(4, 5), 5, 5, Some(5), None);
    assert CalcProminence(Sample(), h23) == 2 && CalcProminence(Sample(), h45) == 5;
    assert [h45][1..] == [];
  }

  /**
   * With no distance limits, `find_peaks` on [1, 2, 3, 0, 5, 0] (minimum height 0,
   * minimum prominence 1) reports the peak at [4, 5) before the peak at [2, 3).
   */
  lemma SampleFindPeaks(r: Result<seq<Peak>>)
    requires DistanceOutcome(seq(6, i => i), Limits.Empty(),
      Survivors(Sample(), DefaultDifference(), Limits.Empty(), Limits(Some(0), None), Limits(Some(1), None)), r)
    ensures r == Ok([Peak(Range(4, 5), 5, 5, Some(5), Some(5)), Peak(Range(2, 3), 1, 3, Some(3), Some(2))])
  {
    SampleSurvivors();
    TwoPeaksOrder(Peak(Range(4, 5), 5, 5, Some(5), Some(5)), Peak(Range(2, 3), 1, 3, Some(3), Some(2)), r.value);
  }

  function PlateauSample(): seq<int> {
    [1, 2, 3, 3, 3, 0, 5, 5, 0]
  }

  /** [1, 2, 3, 3, 3, 0, 5, 5, 0] has the plateau candidates [2, 5) and [6, 8). */
  lemma PlateauCandidates()
    ensures LocalMaxima(PlateauSample(), DefaultDifference()) ==
      [Peak.New(Range(2, 5), 1, 3), Peak.New(Range(6, 8), 5, 5)]
  {
    var y, lim := PlateauSample(), DefaultDifference();
    var s2 := ScanState(1, None);
    var s3 := Next(y, lim, 2, s2);
    var s4 := Next(y, lim, 3, s3);
    var s5 := Next(y, lim, 4, s4);
    var s6 := Next(y, lim, 5, s5);
    var s7 := Next(y, lim, 6, s6);
    var s8 := Next(y, lim, 7, s7);
    assert s3 == ScanState(1, None);
    assert s4 == ScanState(1, Some(2));
    assert s5 == ScanState(1, Some(2));
    assert s6 == ScanState(-3, None);
    assert s7 == ScanState(5, None);
    assert s8 == ScanState(5, Some(6));
    assert ScanFrom(y, lim, 9, Next(y, lim, 8, s8)) == [];
    assert ScanFrom(y, lim, 8, s8) == [Peak.New(Range(6, 8), 5, 5)];
    assert ScanFrom(y, lim, 5, s5) == [Peak.New(Range(2, 5), 1, 3), Peak.New(Range(6, 8), 5, 5)];
    assert ScanFrom(y, lim, 3, s3) == ScanFrom(y, lim, 5, s5);
  }

  /** A minimum plateau size of 3 keeps only [2, 5) of the two plateau candidates. */
  lemma PlateauSizeFilter()
    ensures FilterPlateau(LocalMaxima(PlateauSample(), DefaultDifference()), Limits(Some(3), None)) ==
      [Peak.New(Range(2, 5), 1, 3)]
  {
    PlateauCandidates();
  }

  /**
   * The prominences on [1, 2, 3, 3, 3, 0, 5, 5, 0] are 2 for [2, 5) and 5 for [6, 8):
   * the right valley of the wide plateau starts at its end, index 5.
   */
  lemma PlateauProminences()
    ensures CalcProminence(PlateauSample(), Peak.New(Range(2, 5), 1, 3)) == 2
    ensures CalcProminence(PlateauSample(), Peak.New(Range(6, 8), 5, 5)) == 5
  {
    var y := PlateauSample();
    assert LeftValley(y, 0, 3) == None;
    assert LeftValley(y, 1, 3) == Some(1);
    assert LeftValley(y, 2, 3) == Some(1);
    assert RightValley(y, 6, 3) == None;
    assert RightValley(y, 5, 3) == Some(0);
    assert LeftValley(y, 0, 5) == None;
    assert LeftValley(y, 1, 5) == Some(1);
    assert LeftValley(y, 2, 5) == Some(1);
    assert LeftValley(y, 3, 5) == Some(1);
    assert LeftValley(y, 4, 5) == Some(1);
    assert LeftValley(y, 5, 5) == Some(1);
    assert LeftValley(y, 6, 5) == Some(0);
    assert RightValley(y, 9, 5) == None;
    assert RightValley(y, 8, 5) == Some(0);
  }

  lemma PlateauHeights()
    ensures FilterHeight(PlateauSample(), [Peak.New(Range(2, 5), 1, 3), Peak.New(Range(6, 8), 5, 5)], Limits(Some(0), None))
      == [Peak(Range(2, 5), 1, 3, Some(3), None), Peak(Range(6, 8), 5, 5, Some(5), None)]
  {
    var p68 := Peak.New(Range(6, 8), 5, 5);
    assert [p68][1..] == [];
  }

  lemma PlateauProminenceStage()
    ensures FilterProminence(PlateauSample(), [Peak(Range(2, 5), 1, 3, Some(3), None), Peak(Range(6, 8), 5, 5, Some(5), None)], Limits(Some(0), None))
      == [Peak(Range(2, 5), 1, 3, Some(3), Some(2)), Peak(Range(6, 8), 5, 5, Some(5), Some(5))]
  {
    PlateauProminences();
    var h25, h68 := Peak(Range(2, 5), 1, 3, Some(3), None), Peak(Range(6, 8), 5, 5, Some(5), None);
    assert CalcProminence(PlateauSample(), h25) == 2 && CalcProminence(PlateauSample(), h68) == 5;
    assert [h68][1..] == [];
  }

  /**
   * The `plateaus` test: with a minimum height and a minimum prominence of 0 both plateaus
   * survive, [2, 5) with height 3 and prominence 2, [6, 8) with height 5 and prominence 5.
   */
  lemma PlateauSurvivors()
    ensures Survivors(PlateauSample(), DefaultDifference(), Limits.Empty(), Limits(Some(0), None), Limits(Some(0), None))
      == [Peak(Range(2, 5), 1, 3, Some(3), Some(2)), Peak(Range(6, 8), 5, 5, Some(5), Some(5))]
  {
    var p25, p68 := Peak.New(Range(2, 5), 1, 3), Peak.New(Range(6, 8), 5, 5);
    PlateauCandidates();
    assert FilterPlateau([p25, p68], Limits.Empty()) == [p25, p68];
    PlateauHeights();
    PlateauProminenceStage();
  }

  /** `find_peaks` on the plateau data reports [6, 8) before [2, 5). */
  lemma PlateauFindPeaks(r: Result<seq<Peak>>)
    requires DistanceOutcome(seq(9, i => i), Limits.Empty(),
      Survivors(PlateauSample(), DefaultDifference(), Limits.Empty(), Limits(Some(0), None), Limits(Some(0), None)), r)
    ensures r == Ok([Peak(Range(6, 8), 5, 5, Some(5), Some(5)), Peak(Range(2, 5), 1, 3, Some(3), Some(2))])
  {
    PlateauSurvivors();
    TwoPeaksOrder(Peak(Range(6, 8), 5, 5, Some(5), Some(5)), Peak(Range(2, 5), 1, 3, Some(3), Some(2)), r.value);
  }

  /** A single peak has exactly one height-descending order. */
  lemma OnePeakOrder(a: Peak, s: seq<Peak>)
    requires IsHeightSorting([a], s)
    ensures s == [a]
  {
    assert |s| == |multiset(s)| == 1;
    assert s[0] in multiset([a]);
    assert s == [s[0]];
  }

  lemma PlateauSizeStages()
    ensures FilterHeight(PlateauSample(), [Peak.New(Range(2, 5), 1, 3)], Limits(Some(0), None))
      == [Peak(Range(2, 5), 1, 3, Some(3), None)]
    ensures FilterProminence(PlateauSample(), [Peak(Range(2, 5), 1, 3, Some(3), None)], Limits(Some(0), None))
      == [Peak(Range(2, 5), 1, 3, Some(3), Some(2))]
  {
    PlateauProminences();
    assert CalcProminence(PlateauSample(), Peak(Range(2, 5), 1, 3, Some(3), None)) == 2;
  }

  /** With a minimum plateau size of 3, only [2, 5) survives, with height 3 and prominence 2. */
  lemma PlateauSizeSurvivors()
    ensures Survivors(PlateauSample(), DefaultDifference(), Limits(Some(3), None), Limits(Some(0), None), Limits(Some(0), None))
      == [Peak(Range(2, 5), 1, 3, Some(3), Some(2))]
  {
    PlateauSizeFilter();
    PlateauSizeStages();
  }

  /** The second half of the `plateaus` test: a minimum plateau size of 3 reports only [2, 5). */
  lemma PlateauSizeFindPeaks(r: Result<seq<Peak>>)
    requires DistanceOutcome(seq(9, i => i), Limits.Empty(),
      Survivors(PlateauSample(), DefaultDifference(), Limits(Some(3), None), Limits(Some(0), None), Limits(Some(0), None)), r)
    ensures r == Ok([Peak(Range(2, 5), 1, 3, Some(3), Some(2))])
  {
    PlateauSizeSurvivors();
    OnePeakOrder(Peak(Range(2, 5), 1, 3, Some(3), Some(2)), r.value);
  }

  /** With a minimum difference of 4 only [6, 8), whose diffs are both 5, is a candidate. */
  lemma MinDifferenceFilter()
    ensures LocalMaxima(PlateauSample(), Limits(Some(4), None)) == [Peak.New(Range(6, 8), 5, 5)]
  {
    var y, lim := PlateauSample(), Limits(Some(4), None);
    var s2 := ScanState(1, None);
    var s3 := Next(y, lim, 2, s2);
    var s4 := Next(y, lim, 3, s3);
    var s5 := Next(y, lim, 4, s4);
    var s6 := Next(y, lim, 5, s5);
    var s7 := Next(y, lim, 6, s6);
    var s8 := Next(y, lim, 7, s7);
    assert s3 == ScanState(1, None);
    assert s4 == ScanState(0, None);
    assert s5 == ScanState(0, None);
    assert s6 == ScanState(-3, None);
    assert s7 == ScanState(5, None);
    assert s8 == ScanState(5, Some(6));
    assert ScanFrom(y, lim, 9, Next(y, lim, 8, s8)) == [];
    assert ScanFrom(y, lim, 8, s8) == [Peak.New(Range(6, 8), 5, 5)];
    assert ScanFrom(y, lim, 5, s5) == [Peak.New(Range(6, 8), 5, 5)];
    assert ScanFrom(y, lim, 3, s3) == ScanFrom(y, lim, 5, s5);
  }

  /**
   * With positions 1..6 and a minimum distance of 2, the two peaks of
   * [1, 2, 3, 0, 5, 0], at positions 5 and 3, are both kept.
   */
  lemma DistanceKeepsBoth()
    ensures var p45, p23 := Peak(Range(4, 5), 5, 5, Some(5), None), Peak(Range(2, 3), 1, 3, Some(3), None);
      ByDistance(seq(6, i => i + 1), Limits(Some(2), None), [p45, p23]) == [p45, p23]
  {
    var x, lim := seq(6, i => i + 1), Limits(Some(2), None);
    var p45, p23 := Peak(Range(4, 5), 5, 5, Some(5), None), Peak(Range(2, 3), 1, 3, Some(3), None);
    assert x[4] == 5 && x[2] == 3;
    assert [p23][1..] == [];
    assert KeepByDistance(x, lim, [p23], 5) == [p23];
  }

  /**
   * A descending staircase with a flat step, [3, 2, 2, 1], yields the one-sample
   * candidate [2, 3) with a left diff of 0: after the step into the flat run is
   * rejected the scan restarts with a back difference of 0.
   */
  lemma StaircaseCandidate()
    ensures LocalMaxima([3, 2, 2, 1], DefaultDifference()) == [Peak.New(Range(2, 3), 0, 1)]
  {
    var y, lim := [3, 2, 2, 1], DefaultDifference();
    var s2 := ScanState(-1, None);
    var s3 := Next(y, lim, 2, s2);
    assert s3 == ScanState(0, None);
    assert ScanFrom(y, lim, 4, Next(y, lim, 3, s3)) == [];
    assert ScanFrom(y, lim, 3, s3) == [Peak.New(Range(2, 3), 0, 1)];
  }

  /** Fewer than two samples, or two equal ones, give no candidates and so no survivors. */
  lemma ShortInputsHaveNoPeaks(difference: Limits, plateau: Limits, height: Limits, prominence: Limits)
    ensures Survivors([], difference, plateau, height, prominence) == []
    ensures Survivors([1], difference, plateau, height, prominence) == []
    ensures Survivors([2, 2], difference, plateau, height, prominence) == []
  {
    assert LocalMaxima([2, 2], difference) == [];
  }
}
