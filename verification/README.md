# find_peaks: a Dafny model of the peak-finding pipeline

This project models the core of the Rust crate `find_peaks`: `PeakFinder` finds
the local maxima ("peaks") of a sequence of samples `y` and filters them by five
inclusive `Limits` (plateau size, height, prominence, the left/right difference,
and the distance between kept peaks). Samples and positions are modelled as `int`.

The model follows the pipeline of `find_peaks`, stage by stage:

- `Types` — `Range` (the half-open plateau `start..end`), the `Peak` record with
  `New`, `AddHeight`, `AddProminence` and `MiddlePosition`, and `Limits` with
  `Empty`, `IsEmpty` and `IsInside`. Rust's order on `Option` (None below every
  Some) is `HeightAtLeast`.
- `Scan` — `get_local_maxima` as a specification: the scan state (`backDiff` and the
  open plateau `start`; `prev` is always `y[i - 1]`), what each sample emits, and
  `LocalMaxima`. Every candidate is a plateau of equal samples strictly inside the
  data, with `leftDiff = y[start] - y[start - 1]` and `rightDiff = y[end - 1] - y[end]`,
  both inside the difference limits and `rightDiff != 0`. Candidates are in
  increasing, non-overlapping order. Every maximal plateau whose two steps are inside
  the limits is reported. The scan can also report a plateau that is not maximal on
  its left. On `[3, 2, 2, 1]` it reports `[2, 3)` with a left diff of 0: the rejected
  step into the flat run resets the back difference to 0 (`StaircaseCandidate`).
- `Filters` — `filter_plateau`, `filter_height`, `filter_prominence` and
  `calc_prominence` as functions. The valleys come from the `take_while` runs next to
  the plateau. A valley is None only when no sample is taken, i.e. the neighbour is
  higher or there is none.
- `Distance` — the sort on the stored `height` (an in-place insertion sort on an
  array, specified only by "permutation" and "heights non-increasing") and the greedy
  "last kept" pass (`KeepByDistance`, `ByDistance`). `DistanceOutcome` says what
  `filter_distance` may return. `peaks[0]` panics on an empty list when distance
  limits are set; this is the `Panic` outcome.
- `Finder` — the class `PeakFinder`. It has the constant fields `y` and `x`, the five
  limits as mutable fields, the two constructors, the ten builder setters, the scan
  and the distance filter as methods with loops, and `FindPeaks`. `Survivors` is the
  list before the distance stage. The end-to-end lemmas say that every reported peak
  satisfies every configured limit and is a local maximum.
- `Scenarios` — the unit tests and the doc example of `src/lib.rs`, stated over the
  model.

The model follows the code where the library's doc comment says otherwise:

- The doc comment calls `left_diff`/`right_diff` absolute values. The code stores
  signed differences, and so does the model.

Three points are documented nowhere in the library; the model takes them from the code:

- The distance stage ranks by the stored `height` field. When no height limit is set
  every key is None, all keys tie, and the order is left open.
- In the `with_x` test the two peaks sit at positions 5 and 3. Their distance is
  2, and they are both kept because the minimum distance 2 is inclusive.
- A valley that runs into the edge of the data is still defined: it is the minimum
  of the samples taken.

## Model

| member | source | states |
|---|---|---|
| `Types.Peak.New` | src/lib.rs:21-29 | a new peak has the given range and diffs and neither height nor prominence |
| `Types.Peak.AddHeight` | src/lib.rs:30-32 | sets the height to `Some(h)`; range, diffs and prominence unchanged |
| `Types.Peak.AddProminence` | src/lib.rs:33-35 | sets the prominence to `Some(p)`; range, diffs and height unchanged |
| `Types.Peak.MiddlePosition` | src/lib.rs:37-40 | the middle index is the floor of (start+end)/2 and lies in `[start, end)` for a non-empty plateau |
| `Types.Limits.Empty` | src/lib.rs:53-58 | the limits built by `empty` are empty |
| `Types.Limits.IsEmpty` | src/lib.rs:60-62 | limits are empty iff `is_inside` accepts every value (both directions) |
| `Types.Limits.IsInside` | src/lib.rs:64-67 | limits with neither bound accept every value; limits whose lower bound exceeds their upper bound accept none |
| `Scan.LocalMaximaSound` | src/lib.rs:160-204 | every candidate of the scan lies strictly inside the data and has equal samples. Its diffs are the steps in and out, both inside the difference limits, the step out is non-zero, and height/prominence are None. Candidates are strictly ordered and do not overlap |
| `Scan.ScanSound` | src/lib.rs:167-203 | from any consistent scan state, every emitted peak is a candidate starting at or after the open plateau, and the emitted peaks are in order |
| `Scan.LocalMaximaComplete` | src/lib.rs:174-203 | every maximal plateau strictly inside the data whose two steps are inside the difference limits is emitted with those steps as diffs |
| `Scan.CandidateIsLocalMaximum` | src/lib.rs:174-198 | with a non-negative lower difference bound, a candidate has no higher sample on its left and every plateau sample is above the sample on its right |
| `Filters.FilterPlateau` | src/lib.rs:206-225 | empty limits keep the list as is. Otherwise a peak is kept iff its plateau size is inside the limits, and the survivors keep their input order |
| `Filters.FilterHeight` | src/lib.rs:227-249 | empty limits keep the list, heights stay None. Otherwise the survivors are exactly the peaks with `y[start]` inside the limits, each with height `Some(y[start])` |
| `Filters.LeftValley` | src/lib.rs:315-319 | the left valley is None iff the plateau starts at 0 or its left neighbour is higher than the peak; otherwise it is at most that neighbour and the peak height |
| `Filters.RightValley` | src/lib.rs:314-322 | the right valley is None iff the plateau ends at the data's end or its right neighbour is higher; otherwise it is at most that neighbour and the peak height |
| `Filters.LeftValleyIsRunMinimum` | src/lib.rs:315-319 | the left valley is the minimum of the maximal run of samples at most the peak height that ends next to the plateau |
| `Filters.RightValleyIsRunMinimum` | src/lib.rs:314-322 | the right valley is the minimum of the maximal run of samples at most the peak height that starts next to the plateau |
| `Filters.CalcProminence` | src/lib.rs:306-332 | the prominence is non-negative, at most the drop to each defined valley, and equal to the drop to one of them unless neither valley is defined, when it is 0. Together: the height minus the higher defined valley |
| `Filters.FilterProminence` | src/lib.rs:251-273 | empty limits keep the list, prominence stays None. Otherwise the survivors are exactly the peaks whose prominence is inside the limits, each with that prominence recorded |
| `Distance.SortByHeight` | src/lib.rs:277 | sorts the array in place into a permutation of its input with non-increasing heights, None ranked below Some |
| `Distance.Dist` | src/lib.rs:291-295 | the distance of two positions is non-negative and is their difference one way round or the other |
| `Distance.KeepByDistance` | src/lib.rs:289-299 | the pass over the remaining peaks keeps no more peaks than it is given, and only peaks it is given |
| `Distance.KeepIndices` | src/lib.rs:289-299 | the pass keeps the peaks at increasing indices. The first kept peak is the first inside the limits from the previous position, and every peak before it is outside. Each later kept peak is inside the limits from the peak kept before it, and every peak it skips is outside the limits from the peak kept just before it |
| `Distance.ByDistanceIndices` | src/lib.rs:284-299 | the result of the distance stage is the sorted list at increasing indices starting at 0: a peak is kept exactly when its distance from the last kept peak is inside the limits |
| `Distance.ByDistance` | src/lib.rs:284-288 | the first (highest) peak is always kept |
| `Distance.ByDistanceIsSubsequence` | src/lib.rs:284-300 | the kept peaks are a subsequence of the sorted list |
| `Distance.ByDistanceSpacing` | src/lib.rs:288-299 | each kept peak's position is inside the distance limits from the position of the peak kept just before it |
| `Distance.ByDistanceKeepsAll` | src/lib.rs:289-299 | limits that accept every non-negative distance drop no peak |
| `Distance.DistanceOutcomeMembers` | src/lib.rs:275-304 | `filter_distance` returns only peaks it was given |
| `Finder.SurvivorsSound` | src/lib.rs:364-367 | every peak that survives the scan and the plateau, height and prominence filters satisfies every configured limit. Height and prominence are recorded exactly when their limits are set |
| `Finder.SurvivorsComplete` | src/lib.rs:364-367 | every candidate whose plateau size, height and prominence are inside the limits survives, annotated with the properties whose limits are set |
| `Finder.ReportedPeaksAccepted` | src/lib.rs:359-369 | every peak `find_peaks` reports satisfies all limits and, with a non-negative minimum difference, is a local maximum |
| `Finder.PeakFinder.New` | src/lib.rs:92-121 | positions are `0..len`. The difference limit is `[0, ∞)` for non-empty data and empty otherwise; every other limit is empty |
| `Finder.PeakFinder.NewWithX` | src/lib.rs:130-158 | as `new`, but the positions are the caller's (one per sample) |
| `Finder.PeakFinder.GetLocalMaxima` | src/lib.rs:160-204 | the loop with `prev`, `back_diff` and `start` returns exactly the candidates of the functional scan `LocalMaxima`, which `Scan.LocalMaximaSound` shows to be sound and ordered |
| `Finder.PeakFinder.FilterDistance` | src/lib.rs:275-304 | empty limits give a height-descending permutation. Limits with no peaks panic. Otherwise the result is the greedy last-kept pass over a height-descending permutation |
| `Finder.PeakFinder.FindPeaks` | src/lib.rs:359-369 | fewer than two samples give no peaks. Otherwise the result is the distance stage applied to the survivors. It panics iff distance limits are set and nothing survives, and every reported peak satisfies all limits and is a local maximum |
| `Finder.PeakFinder.WithMinHeight` | src/lib.rs:371-374 | sets only the lower height bound |
| `Finder.PeakFinder.WithMaxHeight` | src/lib.rs:376-379 | sets only the upper height bound |
| `Finder.PeakFinder.WithMinProminence` | src/lib.rs:381-387 | demands a non-negative value and sets only the lower prominence bound |
| `Finder.PeakFinder.WithMaxProminence` | src/lib.rs:389-395 | demands a non-negative value and sets only the upper prominence bound |
| `Finder.PeakFinder.WithMinDifference` | src/lib.rs:397-403 | demands a non-negative value and sets only the lower difference bound |
| `Finder.PeakFinder.WithMaxDifference` | src/lib.rs:405-411 | demands a non-negative value and sets only the upper difference bound |
| `Finder.PeakFinder.WithMinPlateauSize` | src/lib.rs:413-416 | sets only the lower plateau-size bound |
| `Finder.PeakFinder.WithMaxPlateauSize` | src/lib.rs:418-421 | sets only the upper plateau-size bound |
| `Finder.PeakFinder.WithMinDistance` | src/lib.rs:423-429 | demands a non-negative value and sets only the lower distance bound |
| `Finder.PeakFinder.WithMaxDistance` | src/lib.rs:431-437 | demands a non-negative value and sets only the upper distance bound |
| `Scenarios.SampleCandidates` | src/lib.rs:444-469 | `[1,2,3,0,5,0]` has the candidates `[2,3)` (diffs 1, 3) and `[4,5)` (diffs 5, 5) |
| `Scenarios.SampleProminences` | src/lib.rs:471-497 | their prominences are 2 and 5 |
| `Scenarios.SampleSurvivors` | src/lib.rs:471-497 | with minimum height 0 and minimum prominence 1 both survive, with heights 3, 5 and prominences 2, 5 |
| `Scenarios.TwoPeaksOrder` | src/lib.rs:277 | two peaks of different heights have exactly one height-descending order |
| `Scenarios.SampleFindPeaks` | src/lib.rs:343-358 | without distance limits the result is `[4,5)` then `[2,3)`, as the doc example and the `proms` test expect |
| `Scenarios.PlateauCandidates` | src/lib.rs:499-526 | `[1,2,3,3,3,0,5,5,0]` has the plateau candidates `[2,5)` and `[6,8)` |
| `Scenarios.PlateauSizeFilter` | src/lib.rs:528-540 | a minimum plateau size of 3 keeps only `[2,5)` |
| `Scenarios.PlateauProminences` | src/lib.rs:499-526 | the prominences are 2 for `[2,5)` (its right valley starts at its end) and 5 for `[6,8)` |
| `Scenarios.PlateauSurvivors` | src/lib.rs:499-526 | with minimum height and prominence 0 both plateaus survive, with heights 3, 5 and prominences 2, 5 |
| `Scenarios.PlateauFindPeaks` | src/lib.rs:499-526 | `find_peaks` reports `[6,8)` then `[2,5)`, with the test's fields |
| `Scenarios.PlateauSizeSurvivors` | src/lib.rs:528-540 | with a minimum plateau size of 3 only `[2,5)` survives, with height 3 and prominence 2 |
| `Scenarios.PlateauSizeFindPeaks` | src/lib.rs:528-540 | `find_peaks` then reports only `[2,5)`, with the test's fields |
| `Scenarios.OnePeakOrder` | src/lib.rs:277 | a single peak has exactly one height-descending order |
| `Scenarios.MinDifferenceFilter` | src/lib.rs:543-563 | a minimum difference of 4 leaves only `[6,8)` |
| `Scenarios.DistanceKeepsBoth` | src/lib.rs:565-592 | with positions `1..=6` and a minimum distance of 2 both peaks are kept |
| `Scenarios.StaircaseCandidate` | src/lib.rs:174-203 | `[3,2,2,1]` yields the candidate `[2,3)` with left diff 0 |
| `Scenarios.ShortInputsHaveNoPeaks` | src/lib.rs:594-616 | `[]`, `[1]` and `[2,2]` leave no survivors, whatever the limits |

## Left out

- Generic sample and position types, floating point, and the NaN handling of `partial_cmp(...).unwrap_or(Equal)`: samples, positions and bounds are `int`.
- The `zero` field and the zero derived as `v - v`: the model uses 0. The field is None only for empty data, where `find_peaks` returns before reading it.
- Unsigned wrap-around on subtraction: `int` does not wrap.
- Laziness of the iterator chain, `Cow` borrowing and lifetimes, `Vec::with_capacity` and `shrink_to_fit`: each stage maps a sequence to a sequence.
- Builder chaining: the setters return nothing instead of `&mut Self`.
- Panics on bad arguments are preconditions: the `assert!` of the prominence, difference and distance setters (a non-negative argument is required), the length of `x` in `new_with_x` (the code does not check it and would panic on `x_data[mid]`), and the two samples `get_local_maxima` needs (its only caller checks this). The `peaks[0]` panic is a `Panic` result.
- Finder.PeakFinder.FindPeaks: the result is fixed only up to the order of equal heights, because the sort's tie order is left open. So calling it twice is not proved to give the same list. The list before the sort (`Survivors`) is a function of the configuration, and `FindPeaks` changes no state.
- Filters.FilterHeight: states membership both ways and the length bound, not that the survivors keep their input order (the distance stage re-sorts them).
- Filters.FilterProminence: states membership both ways and the length bound, not that the survivors keep their input order (the distance stage re-sorts them).
- `examples/oil.rs`, `demo/electrocardiogram.rs` and `examples/spectrum.rs`: Python interop, plotting, file I/O and float parsing around `find_peaks`.
