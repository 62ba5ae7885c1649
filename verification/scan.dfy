/**
 * The left-to-right local-maximum scan of `PeakFinder::get_local_maxima`,
 * written as a specification: the scan state after each sample and the
 * candidate peaks it emits, then what every emitted candidate satisfies.
 */
module Scan {
  import opened Wrappers
  import opened Types

  /**
   * The state the scan carries from one sample to the next: the back difference
   * (the step into the current position, "current minus previous") and the start
   * of an open plateau, if any. The previous sample is always y[i - 1].
   */
  datatype ScanState = ScanState(backDiff: int, start: Option<nat>)

  /** The step out of sample i - 1 into sample i, "previous minus current": positive on a downward slope. */
  function AheadDiff(y: seq<int>, i: nat): int
    requires 1 <= i < |y|
  {
    y[i - 1] - y[i]
  }

  /** At sample i the scan stays on (or opens) a plateau instead of closing it. */
  predicate Extends(y: seq<int>, lim: Limits, i: nat, st: ScanState)
    requires 1 <= i < |y|
  {
    lim.IsInside(st.backDiff) && AheadDiff(y, i) == 0
  }

  /** The candidate emitted at sample i: the plateau closing at i, when both of its steps are inside the limits. */
  function Emitted(y: seq<int>, lim: Limits, i: nat, st: ScanState): seq<Peak>
    requires 1 <= i < |y|
  {
    if Extends(y, lim, i, st) then []
    else if lim.IsInside(AheadDiff(y, i)) && lim.IsInside(st.backDiff) then
      [Peak.New(Range(st.start.UnwrapOr(i - 1), i), st.backDiff, AheadDiff(y, i))]
    else []
  }

  /** The scan state after sample i. */
  function Next(y: seq<int>, lim: Limits, i: nat, st: ScanState): ScanState
    requires 1 <= i < |y|
  {
    if Extends(y, lim, i, st) then
      ScanState(st.backDiff, if st.start.None? then Some(i - 1) else st.start)
    else
      ScanState(0 - AheadDiff(y, i), None)
  }

  /** The candidates emitted from sample i to the end, starting in state st. */
  function ScanFrom(y: seq<int>, lim: Limits, i: nat, st: ScanState): seq<Peak>
    requires 1 <= i <= |y|
    decreases |y| - i
  {
    if i == |y| then []
    else Emitted(y, lim, i, st) + ScanFrom(y, lim, i + 1, Next(y, lim, i, st))
  }

  /** One step of the scan: what was emitted before sample i, plus sample i's output, plus the rest. */
  lemma ScanAdvance(y: seq<int>, lim: Limits, i: nat, st: ScanState, acc: seq<Peak>)
    requires 1 <= i < |y|
    ensures acc + ScanFrom(y, lim, i, st) == (acc + Emitted(y, lim, i, st)) + ScanFrom(y, lim, i + 1, Next(y, lim, i, st))
  {
  }

  /**
   * A candidate of the scan: a non-empty plateau of equal samples strictly inside
   * the data, whose diffs are the steps into and out of it, both inside the
   * difference limits, and whose step out is not flat.
   */
  predicate IsCandidate(y: seq<int>, lim: Limits, p: Peak) {
    var s, e := p.position.start, p.position.end;
    && 1 <= s < e < |y|
    && (forall k :: s <= k < e ==> y[k] == y[s])
    && p.leftDiff == y[s] - y[s - 1]
    && p.rightDiff == y[e - 1] - y[e]
    && p.rightDiff != 0
    && lim.IsInside(p.leftDiff) && lim.IsInside(p.rightDiff)
  }

  /** Candidates come in strictly increasing, non-overlapping position order. */
  predicate Ordered(ps: seq<Peak>) {
    forall k, l :: 0 <= k < l < |ps| ==> ps[k].position.end <= ps[l].position.start
  }

  /** What the scan state records about the samples before i. */
  ghost predicate StateInv(y: seq<int>, lim: Limits, i: nat, st: ScanState) {
    && 2 <= i <= |y|
    && match st.start
       case None => st.backDiff == y[i - 1] - y[i - 2]
       case Some(s) =>
         && 1 <= s <= i - 2
         && (forall k :: s <= k < i ==> y[k] == y[s])
         && st.backDiff == y[s] - y[s - 1]
         && lim.IsInside(st.backDiff)
  }

  /** The leftmost index a candidate emitted from state st at sample i can start at. */
  function LowestStart(i: nat, st: ScanState): nat
    requires i >= 1
  {
    st.start.UnwrapOr(i - 1)
  }

  lemma StepInv(y: seq<int>, lim: Limits, i: nat, st: ScanState)
    requires StateInv(y, lim, i, st) && i < |y|
    ensures StateInv(y, lim, i + 1, Next(y, lim, i, st))
    ensures LowestStart(i, st) <= LowestStart(i + 1, Next(y, lim, i, st))
    ensures forall p :: p in Emitted(y, lim, i, st) ==>
      IsCandidate(y, lim, p) && p.height.None? && p.prominence.None? &&
      LowestStart(i, st) <= p.position.start && p.position.end <= LowestStart(i + 1, Next(y, lim, i, st))
  {
  }

  /** Every candidate the scan emits from a consistent state is a candidate, and they come in order. */
  lemma {:induction false} ScanSound(y: seq<int>, lim: Limits, i: nat, st: ScanState)
    requires StateInv(y, lim, i, st)
    ensures forall p :: p in ScanFrom(y, lim, i, st) ==>
      IsCandidate(y, lim, p) && p.height.None? && p.prominence.None? && LowestStart(i, st) <= p.position.start
    ensures Ordered(ScanFrom(y, lim, i, st))
    decreases |y| - i
  {
    if i < |y| {
      var st' := Next(y, lim, i, st);
      StepInv(y, lim, i, st);
      ScanSound(y, lim, i + 1, st');
      var e: seq<Peak> := Emitted(y, lim, i, st);
      var rest: seq<Peak> := ScanFrom(y, lim, i + 1, st');
      assert ScanFrom(y, lim, i, st) == e + rest;
      forall k, l | 0 <= k < l < |e + rest|
        ensures (e + rest)[k].position.end <= (e + rest)[l].position.start
      {
        if l < |e| {
          assert false;
        } else if k < |e| {
          assert (e + rest)[k] in e && (e + rest)[l] in rest;
        } else {
          assert (e + rest)[k] == rest[k - |e|] && (e + rest)[l] == rest[l - |e|];
        }
      }
    }
  }

  /** The candidates of the whole sample sequence, as `get_local_maxima` produces them. */
  function LocalMaxima(y: seq<int>, lim: Limits): seq<Peak> {
    if |y| < 2 then [] else ScanFrom(y, lim, 2, ScanState(y[1] - y[0], None))
  }

  /**
   * Every candidate of the whole scan is a candidate with no height and no prominence
   * yet, and the candidates come in increasing, non-overlapping order.
   */
  lemma LocalMaximaSound(y: seq<int>, lim: Limits)
    ensures forall p :: p in LocalMaxima(y, lim) ==> IsCandidate(y, lim, p) && p.height.None? && p.prominence.None?
    ensures Ordered(LocalMaxima(y, lim))
  {
    if |y| >= 2 {
      ScanSound(y, lim, 2, ScanState(y[1] - y[0], None));
    }
  }

  /** A maximal run of equal samples strictly inside the data. */
  predicate IsStrictPlateau(y: seq<int>, s: nat, e: nat) {
    && 1 <= s < e < |y|
    && (forall k :: s <= k < e ==> y[k] == y[s])
    && y[s - 1] != y[s] && y[e - 1] != y[e]
  }

  /** On the plateau [s, e): walking from sample i to e ends by emitting the plateau. */
  lemma {:induction false} WalkPlateau(y: seq<int>, lim: Limits, s: nat, e: nat, i: nat, st: ScanState)
    requires IsStrictPlateau(y, s, e)
    requires lim.IsInside(y[s] - y[s - 1]) && lim.IsInside(y[e - 1] - y[e])
    requires s + 1 <= i <= e
    requires st == ScanState(y[s] - y[s - 1], if i == s + 1 then None else Some(s))
    ensures Peak.New(Range(s, e), y[s] - y[s - 1], y[e - 1] - y[e]) in ScanFrom(y, lim, i, st)
    decreases e - i
  {
    assert ScanFrom(y, lim, i, st) == Emitted(y, lim, i, st) + ScanFrom(y, lim, i + 1, Next(y, lim, i, st));
    if i < e {
      assert y[i - 1] == y[s] == y[i];
      assert Extends(y, lim, i, st);
      WalkPlateau(y, lim, s, e, i + 1, Next(y, lim, i, st));
    } else {
      assert Emitted(y, lim, i, st) == [Peak.New(Range(s, e), y[s] - y[s - 1], y[e - 1] - y[e])];
    }
  }

  /** Before the plateau [s, e): the scan reaches sample s + 1 with no plateau open and emits it later. */
  lemma {:induction false} ReachPlateau(y: seq<int>, lim: Limits, s: nat, e: nat, i: nat, st: ScanState)
    requires IsStrictPlateau(y, s, e)
    requires lim.IsInside(y[s] - y[s - 1]) && lim.IsInside(y[e - 1] - y[e])
    requires StateInv(y, lim, i, st) && i <= s + 1
    requires i == s + 1 ==> st.start.None?
    ensures Peak.New(Range(s, e), y[s] - y[s - 1], y[e - 1] - y[e]) in ScanFrom(y, lim, i, st)
    decreases s + 1 - i
  {
    if i == s + 1 {
      WalkPlateau(y, lim, s, e, i, st);
    } else {
      StepInv(y, lim, i, st);
      assert ScanFrom(y, lim, i, st) == Emitted(y, lim, i, st) + ScanFrom(y, lim, i + 1, Next(y, lim, i, st));
      ReachPlateau(y, lim, s, e, i + 1, Next(y, lim, i, st));
    }
  }

  /**
   * Every maximal plateau strictly inside the data whose steps in and out are both
   * inside the difference limits is reported, with those steps as its diffs.
   */
  lemma LocalMaximaComplete(y: seq<int>, lim: Limits, s: nat, e: nat)
    requires IsStrictPlateau(y, s, e)
    requires lim.IsInside(y[s] - y[s - 1]) && lim.IsInside(y[e - 1] - y[e])
    ensures Peak.New(Range(s, e), y[s] - y[s - 1], y[e - 1] - y[e]) in LocalMaxima(y, lim)
  {
    ReachPlateau(y, lim, s, e, 2, ScanState(y[1] - y[0], None));
  }

  /**
   * The plateau [start, end) is a local maximum: no higher sample just before it,
   * every sample of it strictly above the sample just after it.
   */
  predicate IsLocalMaximum(y: seq<int>, p: Peak) {
    var s, e := p.position.start, p.position.end;
    && 1 <= s < e < |y|
    && y[s - 1] <= y[s]
    && forall k :: s <= k < e ==> y[k] > y[e]
  }

  /** With a non-negative lower difference bound, every candidate is a local maximum. */
  lemma CandidateIsLocalMaximum(y: seq<int>, lim: Limits, p: Peak)
    requires IsCandidate(y, lim, p)
    requires lim.lower.Some? && lim.lower.value >= 0
    ensures IsLocalMaximum(y, p)
  {
  }
}
