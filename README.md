# DualSense recognition logic in Dafny

DualSense is a system for recognising signs of a tactile sign language drawn
with fingers on a touch screen. The app sends the backend a list of touch
records `{"timestamp": t, "location": [x, y]}`. For each sign, a recogniser
turns those records into an accept/reject decision. This project models that
decision logic and proves properties of it:

- `Recognition` holds the per-sign duration gate shared by every recogniser.
- `Extraction` splits records into parallel timestamp and location lists.
- `SignA` and `SignB` hold the containment gates of the tap signs 'A' (a
  circle) and 'B' (a rectangle plus a touch-count limit).
- `Segmentation` holds the greedy threshold split of a two-finger gesture
  into two strokes.
- `Parameterisation` covers quartic Bézier evaluation, sampling, the
  least-squares fitting error and the fit with its endpoints pinned.
  `LinearBezier` is the straight-segment curve used for 'CH'.
- `Pairing` holds the start-point pairing of two user curves with an upper
  and a lower template, and the two-score acceptance rule.
- `SignCh`, `SignLl` and `SignW` are the recognisers of 'CH', 'LL' and 'W':
  both 'W' variants, with the per-row argmin assignment over three
  templates.

Coordinates and timestamps are `real`.

Euclidean distances are never computed. The source compares a distance with a
threshold or with another distance, and the square root is monotone on
non-negative numbers, so each comparison is made on squared distances (`SqDist`)
against squared thresholds. `Geometry.CompareDistances` and
`Geometry.WithinDistance` prove the two forms agree for any `d` with `d >= 0`
and `d * d == SqDist(p, q)`.

Recognisers return a `Verdict`:

- `Match`
- `TooManyTouchPoints`
- `DurationTooLong`
- `OutsideRectangle`
- `SplitFailed`
- `DistanceTooLarge`

The source returns a bool and prints the reason for a rejection. The model
keeps the reason, and `Verdicts.Accepted(v)` is the bool the Python recogniser returns.

Several things are parameters of the model rather than code:

- the DTW score (`Pairing.Dtw`);
- the BFGS optimiser (`Parameterisation.Optimiser`, returning the three
  interior control points);
- the two- and three-stroke splitters, which return the strokes or the
  ValueError they raise;
- the parametric package's `generate_two_linear_beziers(curve1, curve2)`;
- the templates, which are passed in as non-empty point sequences.

Where the code and the comments around it differ, the model follows the code:

- The duration gate of 'B' is the default 2 seconds, though the docstring of
  `is_sign_b` says 3.
- The greedy split compares each touch only with the last touch of the first
  stroke. A touch can therefore rejoin the first stroke after other touches
  went to the second (`Segmentation.RejoinExample`).
- `return_quartic_bezier_curve` with one point samples `t = 0` only, so its
  single point is `P0`, not `P4`.

## Model

| member | source | states |
|---|---|---|
| Recognition.DurationLimit | Backend/recognition.py:17-30 | 'LL', 'Ñ', 'RR' and 'W' get exactly 4 s, 'Y' exactly 1 s, 'Z' exactly 3 s, and every other label 2 s (each as an if-and-only-if) |
| Recognition.TimestampDurationValid | Backend/recognition.py:8-32 | valid iff last minus first timestamp is at most the label's limit (inclusive); a single timestamp or a non-increasing pair always passes; a duration of at most 1 s always passes, and one above 4 s never does |
| Recognition.OnlyEndpointsMatter | Backend/recognition.py:32 | lists with the same first and last timestamps get the same answer, whatever lies between |
| Recognition.LongerFailsIfShorterFails | Backend/recognition.py:32 | the gate is monotone: a longer duration never passes when a shorter one fails |
| Recognition.LabelExamples | Backend/recognition.py:17-30 | the limits of 'CH', 'B', 'J', 'LL', 'W', 'Ñ', 'RR', 'Y' and 'Z' |
| Recognition.DurationExamples | Backend/Tests/test_sign_b.py:11-19 | 'B' over [1,2,3] passes and over [1,5] fails; 'W' over [1,5] passes; 'Y' over 1.5 s fails |
| Extraction.ExtractTimestampsAndLocations | Backend/extraction.py:8-26 | both outputs have the input's length; position i holds record i's timestamp and location; rebuilding records from the outputs gives back the input |
| Extraction.ExtractRecordsRoundTrip | Backend/extraction.py:18-24 | extracting the records rebuilt from two parallel lists gives back exactly those two lists |
| Extraction.ExtractionExamples | Backend/Parametric/Tests/test_extraction.py:8-18 | two records give [1.0, 2.0] and [[0,1],[1,2]]; no records give two empty lists |
| Geometry.SqDist | Backend/sign_ch.py:13-18 | the squared Euclidean distance is never negative |
| Geometry.IsDistance | Backend/sign_ch/sign_ch.py:30-35 | `d` is the non-negative root of the squared distance, so it is 0 exactly between equal points |
| Geometry.SqDistZero | Backend/sign_ch.py:13-18 | the squared distance is symmetric and zero exactly between equal points |
| Geometry.DistanceSymmetric | Backend/sign_ch/sign_ch.py:30-35 | a Euclidean distance is symmetric and zero exactly between equal points |
| Geometry.CompareDistances | Backend/sign_ll/sign_ll.py:138-141 | comparing two Euclidean distances with `<` or `<=` gives the same answer as comparing their squares |
| Geometry.WithinDistance | Backend/sign_ch.py:32 | a Euclidean distance is within a bound exactly when its square is within the bound's square |
| Geometry.DistanceExamples | Backend/Tests/test_sign_ch.py:30-41 | the distance from (-1,-1) to (1,1) is twice the distance from (0,0) to (1,1) |
| Geometry.ZeroDistanceExample | Backend/Tests/test_sign_ch.py:35-37 | identical points are 0 apart |
| SignA.IsTouchInsideCircle | Backend/sign_a.py:11-23 | inside iff the squared distance to (477.5, 755.5) is at most 369.5 squared |
| SignA.InsideIffWithinRadius | Backend/sign_a.py:22-23 | inside iff the Euclidean distance to the centre is at most R |
| SignA.InsideWithinBoundingSquare | Backend/sign_a.py:23 | every touch inside lies within R of the centre on each axis |
| SignA.CircleExamples | Backend/Tests/test_sign_a.py:11-13 | the centre and the two boundary points exactly R away are inside; (1000, 755.5) is outside |
| SignB.InsideRectangle | Backend/Parametric/sign_b/sign_b.py:12-36 | a touch is inside iff it lies in the 800 by 472 box centred at (555, 784.5), edges included |
| SignB.LocationsInsideRectangle | Backend/Parametric/sign_b/sign_b.py:12-36 | true iff every touch has 155 <= x <= 955 and 548.5 <= y <= 1020.5; when false, some touch is outside; an empty list is inside |
| SignB.IsSignB | Backend/Parametric/sign_b/sign_b.py:39-60 | more than 20 timestamps gives TooManyTouchPoints; otherwise a failed 'B' duration gives DurationTooLong; otherwise a touch outside gives OutsideRectangle; accepted iff at most 20 timestamps, at most 2 s and all touches inside |
| SignB.RectangleExamples | Backend/Tests/test_sign_b.py:6-8 | [[200,600],[300,700]] is inside; a list with (1000, 1100) is not |
| SignB.SignBExamples | Backend/Tests/test_sign_b.py:11-19 | a valid tap is accepted; 30 touches, a touch outside and a 4-second tap are each rejected for their own reason |
| Segmentation.SplitTouchLocations | Backend/sign_ch/sign_ch.py:38-55 | the loop computes exactly the specification `Split`: curve1 starts with the first touch and the two curves hold as many touches as the input |
| Segmentation.SplitPrefix | Backend/sign_ch.py:26-35 | the split of the first n touches keeps the first touch first in curve1 and holds n touches in all |
| Segmentation.Split | Backend/sign_ch.py:21-37 | the split of all touches keeps the first touch first and loses no touch in count |
| Segmentation.NearIffWithinThreshold | Backend/sign_ch.py:32 | the squared test against 100 is `split_touch_locations`'s `distance(...) <= 10` |
| Segmentation.SplitIsRouting | Backend/sign_ch.py:31-35 | curve1 is exactly the touches routed to it and curve2 exactly the others, each in input order (both are subsequences of the input) |
| Segmentation.SplitIsPartition | Backend/sign_ch.py:31-35 | together the two curves hold every touch exactly once (multiset equality) |
| Segmentation.KeepPartition | Backend/sign_ch.py:31-35 | the two sides of any routing share the touches out without loss |
| Segmentation.Curve1Connected | Backend/sign_ch.py:32-33 | consecutive touches of curve1 are within 10 of each other |
| Segmentation.RejoinExample | Backend/sign_ch.py:32 | (0,0), (50,50), (5,5) splits into [(0,0), (5,5)] and [(50,50)]: curve2 is never consulted |
| Segmentation.SplitExampleTwoStrokes | Backend/Tests/test_sign_ch.py:50-53 | the six-touch example splits 3/3 |
| Segmentation.SplitExampleSteps11 | Backend/Tests/test_sign_ch.py:55-58 | with steps of 11 only (0,0) stays in curve1 |
| Segmentation.SplitExampleSteps5 | Backend/Tests/test_sign_ch.py:60-63 | with steps of 5 every touch stays in curve1 and curve2 is empty, without error |
| Parameterisation.Linspace | Backend/parameterisation.py:39 | `np.linspace(0, 1, n)`: n values in [0, 1], the first 0 and, for n >= 2, the last 1 |
| Parameterisation.LinspaceUniform | Backend/parameterisation.py:93 | consecutive linspace values are 1/(n-1) apart |
| Parameterisation.LinspaceFive | Backend/parameterisation.py:39 | five touches are fitted at times 0, 0.25, 0.5, 0.75, 1 |
| Parameterisation.Basis | Backend/parameterisation.py:80-81 | the five quartic Bernstein weights sum to 1 |
| Parameterisation.BasisNonNegative | Backend/parameterisation.py:80-81 | on [0, 1] no weight is negative |
| Parameterisation.BasisAtEnds | Backend/parameterisation.py:80-81 | at t = 0 all weight is on P0, at t = 1 on P4 |
| Parameterisation.CombineBounded | Backend/parameterisation.py:80-81 | a convex combination of values stays between their minimum and maximum |
| Parameterisation.QuarticAt | Backend/parameterisation.py:22-23 | the Bernstein point is P0 at t = 0 and P4 at t = 1, for any control points |
| Parameterisation.QuarticInControlBox | Backend/parameterisation.py:80-81 | for t in [0, 1] the point lies in the box spanned by the control points |
| Parameterisation.CalculateQuarticBezierCurvePoint | Backend/parameterisation.py:69-82 | requires 0 <= t <= 1 (the Python function's assert); B(0) = P0, B(1) = P4, and B(t) lies in the control points' box |
| Parameterisation.QuarticLinearPrecision | Backend/parameterisation.py:80-81 | evenly spaced collinear control points give B(t) = P0 + 4t(P1 - P0) |
| Parameterisation.DiagonalCurve | Backend/Parametric/Tests/test_bezier_quartic.py:36-49 | control points (0,0)..(4,4) give B(t) = (4t, 4t), so B(0.5) = (2, 2) |
| Parameterisation.ReturnQuarticBezierCurve | Backend/parameterisation.py:85-95 | exactly `num_points` points; the first is P0; for two or more the last is P4; one point gives [P0]; every point lies in the control points' box |
| Parameterisation.SampleAt | Backend/parameterisation.py:93-94 | sampled point i is the curve at t = i/(num_points - 1) |
| Parameterisation.ReturnTwoQuarticBezierCurves | Backend/parameterisation.py:98-109 | both curves have 100 points and run from their P0 to their P4 |
| Parameterisation.WithEnds | Backend/parameterisation.py:18-19 | the scored control points take P0 and P4 from the first and last coordinate and only P1..P3 from `control` |
| Parameterisation.SumSquaredResiduals | Backend/parameterisation.py:26 | a sum of squares is never negative |
| Parameterisation.ResidualsZeroIffOnCurve | Backend/parameterisation.py:22-26 | the residual sum is 0 iff every coordinate equals the curve point at its time |
| Parameterisation.ErrorFunctionQuartic | Backend/parameterisation.py:8-26 | the error is at least 0, and is 0 iff every coordinate lies on the curve through the first and last coordinate at its time |
| Parameterisation.ErrorZeroAtStart | Backend/Parametric/Tests/test_bezier_quartic.py:6-19 | with all times 0, coordinates all equal to the first score 0 for any interior points |
| Parameterisation.ZeroErrorIsMinimal | Backend/parameterisation.py:26 | interior points that put every coordinate on the curve score 0, which no other interior points beat |
| Parameterisation.FitQuarticBezierControlPoints | Backend/parameterisation.py:29-49 | the first control point is the first coordinate and the last is the last coordinate; only the middle three come from the optimiser, run on evenly spaced times |
| Parameterisation.FitPassesThroughWhenExact | Backend/parameterisation.py:39-49 | when the optimiser reaches error 0, the fitted curve passes through every coordinate at its time |
| Parameterisation.StraightLineFit | Backend/Parametric/Tests/test_bezier_quartic.py:22-33 | five touches (0,0)..(4,4) lie on the diagonal curve at the linspace times, so those interior points have error 0 |
| Parameterisation.GenerateTwoQuarticBeziersControlPoints | Backend/parameterisation.py:52-66 | each stroke is fitted on its own and keeps its own first and last touch as P0 and P4 |
| LinearBezier.LinearPoint | Backend/sign_ch/sign_ch.py:27 | (1-t)p0 + t p1 is p0 at t = 0 and p1 at t = 1 |
| LinearBezier.LinearStep | Backend/sign_ch/sign_ch.py:27 | moving from t1 to t2 moves the point by (t2 - t1)(p1 - p0) |
| LinearBezier.LinearCollinear | Backend/sign_ch/sign_ch.py:27 | every point lies on the line through p0 and p1 |
| LinearBezier.LinearBezierCurve | Backend/sign_ch/sign_ch.py:17-27 | one point per t, equal to (1-t)p0 + t p1, and p0 where t = 0, p1 where t = 1 |
| LinearBezier.LinearSampleStep | Backend/sign_ch/sign_ch.py:79-82 | at n evenly spaced values, consecutive points differ by (p1 - p0)/(n - 1) |
| LinearBezier.LinearCurveIsStraight | Backend/Tests/test_sign_ch.py:24-27 | all consecutive differences of the sampled curve are equal |
| LinearBezier.LinearCurveExample | Backend/Tests/test_sign_ch.py:5-22 | from (1,1) to (2,2) over 100 values: 100 points, starting at (1,1) and ending at (2,2) |
| LinearBezier.GenerateTwoLinearBeziers | Backend/sign_ch/sign_ch.py:58-87 | requires a non-empty curve2 (it is indexed); bezier1 is the linear curve from curve1's first to last touch and bezier2 the one from curve2's first to last, each over the same 100 evenly spaced values |
| LinearBezier.GenerateExample | Backend/Tests/test_sign_ch.py:66-88 | the six-touch example gives segments (0,0)-(2,2) and (20,20)-(22,22) |
| Pairing.PairByStart | Backend/Parametric/sign_ch/sign_ch.py:87-97 | strictly closer to the upper template's start pairs (u1, upper), (u2, lower); otherwise, ties included, (u1, lower), (u2, upper) |
| Pairing.PairingByDistance | Backend/sign_ll/sign_ll.py:138-148 | the same rule stated with the Euclidean distances `dist1 < dist2` that `is_sign_ll` computes |
| Pairing.PairingUsesEachTemplateOnce | Backend/sign_ll/sign_ll.py:141-148 | in either branch each template is paired with exactly one user curve |
| Pairing.PairingPrefersCloserStart | Backend/Parametric/sign_ch/sign_ch.py:90-97 | user curve 1 always gets a template whose start is at least as close as the other's |
| Pairing.PairingReadsOnlyFirstStart | Backend/Parametric/sign_ch/sign_ch.py:87-88 | only user curve 1's first point decides; user curve 2 is never consulted |
| Pairing.TieGoesToLower | Backend/Parametric/sign_ch/sign_ch.py:90-97 | a start exactly halfway between the template starts pairs user curve 1 with the lower template |
| Pairing.BothWithin | Backend/Parametric/sign_ch/sign_ch.py:102-105 | accepted iff both scores are at most the limit; either one above rejects |
| SignCh.PairedCurves | Backend/Parametric/sign_ch/sign_ch.py:77-97 | the user curves come from the generator, and the two templates are used once each |
| SignCh.IsSignCh | Backend/Parametric/sign_ch/sign_ch.py:52-105 | DurationTooLong iff the gesture lasts more than 2 s; otherwise SplitFailed iff the splitter raises; accepted iff within 2 s, split, and both paired DTW scores at most 5000 |
| SignCh.DurationCheckedFirst | Backend/Parametric/sign_ch/sign_ch.py:65-67 | a gesture that is too slow gets the same verdict whatever the touches, splitter, generator or DTW |
| SignCh.AcceptanceMonotoneInScores | Backend/Parametric/sign_ch/sign_ch.py:102-105 | lower DTW scores never turn an accepted gesture into a rejected one |
| SignCh.PairScores | Backend/Parametric/sign_ch/sign_ch.py:87-97 | the scores are (u1 vs upper, u2 vs lower) when u1's start is strictly closer to upper's, else (u1 vs lower, u2 vs upper) |
| SignCh.OneStrokeRejected | Backend/Parametric/sign_ch/sign_ch.py:69-74 | a quick gesture for which the splitter raises is rejected as SplitFailed |
| SignLl.UserCurves | Backend/sign_ll/sign_ll.py:104-107 | each stroke is fitted and sampled at 100 points, running from its first touch to its last |
| SignLl.PairedCurves | Backend/sign_ll/sign_ll.py:138-148 | the user curves are the fitted samples, and the two templates are used once each |
| SignLl.IsSignLl | Backend/sign_ll/sign_ll.py:79-156 | DurationTooLong iff the gesture lasts more than 4 s; otherwise SplitFailed iff the splitter raises; accepted iff within 4 s, split, and both paired DTW scores at most 7000 |
| SignLl.PairingFollowsFirstTouch | Backend/sign_ll/sign_ll.py:104-148 | the pairing is decided by the first touch of stroke 1 alone, whatever the optimiser returns |
| SignLl.DurationCheckedFirst | Backend/sign_ll/sign_ll.py:92-94 | a gesture that is too slow gets the same verdict whatever the touches, splitter, optimiser or DTW |
| SignLl.AcceptanceMonotoneInScores | Backend/sign_ll/sign_ll.py:153-156 | lower DTW scores never turn an accepted gesture into a rejected one |
| SignLl.FourSecondsAllowed | Backend/recognition.py:19-20 | a 4-second 'LL' passes the duration gate, although 4 s fails the default limit of 'CH' |
| SignW.SampledFit | Backend/sign_w/sign_w.py:147-151 | the fitted sample has 100 points and runs from the first touch to the last |
| SignW.IsSignWSingleCurve | Backend/sign_w/sign_w.py:127-185 | DurationTooLong iff the gesture lasts more than 4 s; accepted iff within 4 s and the DTW score of the single fitted curve is at most 3000 |
| SignW.SingleCurveEndpoints | Backend/sign_w/sign_w.py:147-151 | whatever the optimiser returns, the compared curve starts at the first touch and ends at the last |
| SignW.ThreeUserCurves | Backend/sign_w/sign_w.py:215-221 | three curves of 100 points, each starting at its stroke's first touch |
| SignW.FirstArgminUnique | Backend/sign_w/sign_w.py:274 | a row has only one first index of its minimum |
| SignW.FirstArgmin | Backend/sign_w/sign_w.py:274 | the index is in range, its value is at most every value in the row, and strictly below every earlier value |
| SignW.Argmin | Backend/sign_w/sign_w.py:274 | the scan returns the first index of the row's minimum |
| SignW.ArgminOfSameOrder | Backend/sign_w/sign_w.py:274 | rows that order their entries alike have the same argmin |
| SignW.ArgminOfDistances | Backend/sign_w/sign_w.py:260-275 | the argmin over squared start distances is the argmin over the Euclidean distances `is_sign_w` computes with `euclidean` |
| SignW.StartDistanceRow | Backend/sign_w/sign_w.py:266-268 | entry j is the squared distance between the user curve's start and template j's start |
| SignW.StartDistances | Backend/sign_w/sign_w.py:257-269 | row i of the table is user curve i's start-distance row |
| SignW.Assignments | Backend/sign_w/sign_w.py:272-275 | each assignment is a template index, and no template's start is closer to the user curve's start than the assigned one's |
| SignW.AssignClosest | Backend/sign_w/sign_w.py:272-275 | assignment i is the first argmin of row i |
| SignW.AssignmentIsTheArgmin | Backend/sign_w/sign_w.py:272-275 | any first argmin of a user curve's start-distance row is the template the assignment picks |
| SignW.AllPairsWithin | Backend/sign_w/sign_w.py:278-286 | true iff every user curve scores at most 5000 against the template whose start is the first closest to its own |
| SignW.CheckPairs | Backend/sign_w/sign_w.py:278-286 | true iff every user curve's DTW score against its assigned template is at most 5000 |
| SignW.IsSignWThreeCurves | Backend/sign_w/sign_w.py:188-286 | DurationTooLong iff the gesture lasts more than 4 s; otherwise SplitFailed iff the three-curve splitter raises; accepted iff within 4 s, split, and every curve within 5000 of its assigned template |
| SignW.SameStartSameTemplate | Backend/sign_w/sign_w.py:272-275 | user curves that start at the same point get the same template, so the assignment need not be one to one |
| SignW.ArgminExamples | Backend/sign_w/sign_w.py:274 | np.argmin examples; a tie goes to the first tied index |

## Left out

- Reading touch data from JSON, loading and saving templates (`.npy`), and all plotting are I/O. Templates are parameters.
- The scipy BFGS minimisation is a foreign numeric call, so the optimiser is a parameter. Its initial guess only feeds the optimiser and is not modelled.
- The sequence-distance scores are a parameter (`Pairing.Dtw`), so nothing is proved about their values. `compare_sequences` and `compare_sequences_fdtw` are fastdtw calls. `compare_sequences_dtw`, which `is_sign_w_three_curves` uses (Backend/sign_w/sign_w.py:280), is an exact DTW; the model does not tell the two apart.
- The recognisers import `compare_sequences_fdtw`, `compare_sequences_dtw` and `euclidean_distance` from `recognition`, but Backend/recognition.py defines only `timestamp_duration_valid` and `compare_sequences`. The versions they import are not part of this model. The model assumes the duration gate they import is the `timestamp_duration_valid` in Backend/recognition.py, and that `euclidean_distance` is the Euclidean distance of Backend/sign_ch/sign_ch.py:30-35.
- `split_touch_locations_two_curves` and `split_touch_locations_three_curves` are not part of this model. They are parameters returning the strokes or their ValueError.
- `generate_two_linear_beziers(curve1, curve2)` of the parametric package is not part of this model. `SignCh.IsSignCh` takes it as a parameter.
- Parameterisation.ErrorFunctionQuartic: needs one time per coordinate. numpy broadcasting of other shapes is not modelled.
- SignW.IsSignWSingleCurve: requires non-empty touches once the duration gate passes, because the fit indexes the first touch and the Python code raises there.
- The unfinished `is_sign_ch` of Backend/sign_ch/sign_ch.py:123-157 is left out. It loads templates and returns None.
- The plotting routine and `pass` stub in Backend/sign_ch.py:40-80 are left out.
- The single-curve recognisers of 'Y', 'Z', 'G', 'H' and 'J' are left out. Beyond the modelled duration gate, each is one DTW call against a loaded template.
- `location_inside_circle` and `is_sign_a`, which the sign 'A' tests import, are not part of this model.
- The Flask endpoint, the ML pipeline and the Swift app are left out.
- Floating-point rounding and the `np.allclose` tolerances of the tests are not modelled. Arithmetic is exact over `real`.
