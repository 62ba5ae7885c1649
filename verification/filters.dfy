/**
 * The per-peak stages of the pipeline: the plateau-size, height and prominence
 * filters, and the prominence computation with its two valleys. Each filter
 * passes its input through untouched when its limits are empty.
 */
module Filters {
  import opened Wrappers
  import opened Types

  /** `filter_plateau`: keeps the peaks whose plateau size is inside the limits. */
  function FilterPlateau(peaks: seq<Peak>, lim: Limits): (r: seq<Peak>)
    ensures lim.IsEmpty() ==> r == peaks
    ensures forall p :: p in r <==> p in peaks && lim.IsInside(p.position.Len())
    ensures IsSubsequence(r, peaks)
    decreases |peaks|
  {
    if lim.IsEmpty() || peaks == [] then
      SubsequenceReflexive(peaks);
      peaks
    else
      var rest := FilterPlateau(peaks[1..], lim);
      assert peaks == [peaks[0]] + peaks[1..];
      if lim.IsInside(peaks[0].position.Len()) then [peaks[0]] + rest else rest
  }

  /** `filter_height`: keeps the peaks whose sample value is inside the limits and records it as their height. */
  function FilterHeight(y: seq<int>, peaks: seq<Peak>, lim: Limits): (r: seq<Peak>)
    requires forall p :: p in peaks ==> p.position.start < |y|
    ensures lim.IsEmpty() ==> r == peaks
    ensures !lim.IsEmpty() ==>
      forall p :: p in peaks && lim.IsInside(y[p.position.start]) ==> p.AddHeight(y[p.position.start]) in r
    ensures !lim.IsEmpty() ==>
      forall q :: q in r ==> exists p :: p in peaks && lim.IsInside(y[p.position.start]) && q == p.AddHeight(y[p.position.start])
    ensures |r| <= |peaks|
    decreases |peaks|
  {
    if lim.IsEmpty() || peaks == [] then peaks
    else
      var rest := FilterHeight(y, peaks[1..], lim);
      assert peaks == [peaks[0]] + peaks[1..];
      var h := y[peaks[0].position.start];
      if lim.IsInside(h) then [peaks[0].AddHeight(h)] + rest else rest
  }

  /** The peak a survivor of the height filter came from. */
  lemma HeightOrigin(y: seq<int>, peaks: seq<Peak>, lim: Limits, q: Peak) returns (p: Peak)
    requires forall p :: p in peaks ==> p.position.start < |y|
    requires q in FilterHeight(y, peaks, lim)
    ensures p in peaks && p.position == q.position
    ensures lim.IsEmpty() ==> q == p
    ensures !lim.IsEmpty() ==> lim.IsInside(y[p.position.start]) && q == p.AddHeight(y[p.position.start])
  {
    if lim.IsEmpty() {
      p := q;
    } else {
      p :| p in peaks && lim.IsInside(y[p.position.start]) && q == p.AddHeight(y[p.position.start]);
    }
  }

  function Min(a: int, b: int): int {
    if a <= b then a else b
  }

  /**
   * The left valley of a peak of height h whose plateau starts at i: the minimum of
   * y[i - 1], y[i - 2], ... taken while the samples are at most h; None when none is taken.
   */
  function LeftValley(y: seq<int>, i: nat, h: int): (v: Option<int>)
    requires i <= |y|
    ensures v.None? <==> i == 0 || y[i - 1] > h
    ensures v.Some? ==> v.value <= y[i - 1] <= h
    decreases i
  {
    if i == 0 || y[i - 1] > h then None
    else Some(match LeftValley(y, i - 1, h) case None => y[i - 1] case Some(m) => Min(y[i - 1], m))
  }

  /**
   * The right valley of a peak of height h whose plateau ends before i: the minimum of
   * y[i], y[i + 1], ... taken while the samples are at most h; None when none is taken.
   */
  function RightValley(y: seq<int>, i: nat, h: int): (v: Option<int>)
    requires i <= |y|
    ensures v.None? <==> i == |y| || y[i] > h
    ensures v.Some? ==> v.value <= y[i] <= h
    decreases |y| - i
  {
    if i == |y| || y[i] > h then None
    else Some(match RightValley(y, i + 1, h) case None => y[i] case Some(m) => Min(y[i], m))
  }

  /**
   * The left valley is the minimum of the maximal run y[k..i) of samples at most h
   * that ends next to the plateau.
   */
  lemma {:induction false} LeftValleyIsRunMinimum(y: seq<int>, i: nat, h: int, k: nat)
    requires k < i <= |y|
    requires forall j :: k <= j < i ==> y[j] <= h
    requires k == 0 || y[k - 1] > h
    ensures LeftValley(y, i, h).Some?
    ensures forall j :: k <= j < i ==> LeftValley(y, i, h).value <= y[j]
    ensures exists j :: k <= j < i && y[j] == LeftValley(y, i, h).value
    decreases i
  {
    if k < i - 1 {
      LeftValleyIsRunMinimum(y, i - 1, h, k);
    }
  }

  /**
   * The right valley is the minimum of the maximal run y[i..k) of samples at most h
   * that starts next to the plateau.
   */
  lemma {:induction false} RightValleyIsRunMinimum(y: seq<int>, i: nat, h: int, k: nat)
    requires i < k <= |y|
    requires forall j :: i <= j < k ==> y[j] <= h
    requires k == |y| || y[k] > h
    ensures RightValley(y, i, h).Some?
    ensures forall j :: i <= j < k ==> RightValley(y, i, h).value <= y[j]
    ensures exists j :: i <= j < k && y[j] == RightValley(y, i, h).value
    decreases |y| - i
  {
    if i + 1 < k {
      RightValleyIsRunMinimum(y, i + 1, h, k);
    }
  }

  /**
   * `calc_prominence`: the plateau's height above the higher of its defined valleys,
   * zero when neither side has a valley.
   */
  function CalcProminence(y: seq<int>, p: Peak): (r: int)
    requires WellFormed(p, |y|)
    ensures r >= 0
    ensures var h := y[p.position.start];
      && (LeftValley(y, p.position.start, h).Some? ==> r <= h - LeftValley(y, p.position.start, h).value)
      && (RightValley(y, p.position.end, h).Some? ==> r <= h - RightValley(y, p.position.end, h).value)
      && ((LeftValley(y, p.position.start, h).None? && RightValley(y, p.position.end, h).None?) || (exists v :: (LeftValley(y, p.position.start, h) == Some(v) || RightValley(y, p.position.end, h) == Some(v)) && r == h - v))
    ensures LeftValley(y, p.position.start, y[p.position.start]).None? && RightValley(y, p.position.end, y[p.position.start]).None? ==> r == 0
  {
    var h := y[p.position.start];
    match (LeftValley(y, p.position.start, h), RightValley(y, p.position.end, h))
    case (None, None) => 0
    case (Some(v), None) => h - v
    case (None, Some(v)) => h - v
    case (Some(v1), Some(v2)) => h - (if v1 >= v2 then v1 else v2)
  }

  /** `filter_prominence`: keeps the peaks whose prominence is inside the limits and records it. */
  function FilterProminence(y: seq<int>, peaks: seq<Peak>, lim: Limits): (r: seq<Peak>)
    requires forall p :: p in peaks ==> WellFormed(p, |y|)
    ensures lim.IsEmpty() ==> r == peaks
    ensures !lim.IsEmpty() ==>
      forall p :: p in peaks && lim.IsInside(CalcProminence(y, p)) ==> p.AddProminence(CalcProminence(y, p)) in r
    ensures !lim.IsEmpty() ==>
      forall q :: q in r ==> exists p :: p in peaks && lim.IsInside(CalcProminence(y, p)) && q == p.AddProminence(CalcProminence(y, p))
    ensures |r| <= |peaks|
    decreases |peaks|
  {
    if lim.IsEmpty() || peaks == [] then peaks
    else
      var rest := FilterProminence(y, peaks[1..], lim);
      assert peaks == [peaks[0]] + peaks[1..];
      var prom := CalcProminence(y, peaks[0]);
      if lim.IsInside(prom) then [peaks[0].AddProminence(prom)] + rest else rest
  }

  /** The peak a survivor of the prominence filter came from. */
  lemma ProminenceOrigin(y: seq<int>, peaks: seq<Peak>, lim: Limits, q: Peak) returns (p: Peak)
    requires forall p :: p in peaks ==> WellFormed(p, |y|)
    requires q in FilterProminence(y, peaks, lim)
    ensures p in peaks && p.position == q.position
    ensures lim.IsEmpty() ==> q == p
    ensures !lim.IsEmpty() ==> lim.IsInside(CalcProminence(y, p)) && q == p.AddProminence(CalcProminence(y, p))
  {
    if lim.IsEmpty() {
      p := q;
    } else {
      p :| p in peaks && lim.IsInside(CalcProminence(y, p)) && q == p.AddProminence(CalcProminence(y, p));
    }
  }
}
