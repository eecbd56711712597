# Squat repetition counter — a Dafny model

This project models the repetition-counting core of the `SquatCounter`
server component of a fitness-challenge application
(`server/squat_counter.py`). Each camera frame yields pose landmarks. The
counter checks that the body is upright, combines the two knee angles into
one, smooths it with the median of the last five angles, and runs a
two-state `up`/`down` machine with hysteresis (down below 110 degrees, up
above 160). It counts a rep on a `down` to `up` move, but only if more than
one second has passed since the last counted rep.

Modules, one per part of the component:

- `Options` (`options.dfy`): the `Option` type standing for Python's `None`.
- `Medians` (`median.dfy`): numpy's median as sort-then-middle, with its range and order-independence.
- `Smoothing` (`smoothing.dfy`): the five-entry window update (`append`, then `pop(0)` when too long).
- `Pose` (`pose.dfy`): landmarks and the body-orientation check.
- `Reps` (`reps.dfy`): leg-angle combination, the state machine as a function `Next`, and lemmas about runs of frames.
- `Counter` (`squat_counter.dfy`): the class `SquatCounter` with fields `counter`, `state`, `lastRepTime`, `history`. Its methods update these fields in place (constructor, reset, smoothing, one step of the state machine, one frame of the processing loop). Each method's result is tied to the pure functions above. The class invariant says the window is exactly the latest five angles received since the last reset, in arrival order.

Angles, coordinates and times are Dafny `real`s (exact); the rounding
this leaves out is listed under "## Left out". The time
of a frame (`time.time()` in the source) is a parameter. The state strings
`"up"`/`"down"` are the datatype `Phase`, so the state cannot be anything
else. The published status strings are the datatype `Status`; their text
formatting is not modelled.

## Model

| member | source | states |
|---|---|---|
| `Medians.Sort` | server/squat_counter.py:83-84 | the result is sorted and is a permutation (same multiset) of the window |
| `Medians.Median` | server/squat_counter.py:83-84 | the median of a non-empty window lies between the window's minimum and maximum |
| `Medians.SortedUnique` | server/squat_counter.py:83-84 | two sorted sequences with the same multiset are equal, so sorting gives one answer |
| `Medians.MedianIgnoresOrder` | server/squat_counter.py:83-84 | two windows holding the same angles in any order have the same median |
| `Medians.MedianOfOddIsElement` | server/squat_counter.py:83-84 | for windows of odd length (1, 3 or 5 frames) the smoothed value is an angle actually measured |
| `Smoothing.Push` | server/squat_counter.py:79-81 | the new angle becomes the last entry; a window of at most 5 stays at most 5; the oldest entry is dropped only when the window already held 5 |
| `Smoothing.PushKeepsLatest` | server/squat_counter.py:79-81 | if the window is the last 5 angles received, after one push it is the last 5 of the received angles plus the new one |
| `Pose.AllVisible` | server/squat_counter.py:52-55 | the guard loop passes exactly when every listed landmark has visibility at least 0.5 |
| `Pose.BodyOrientation` | server/squat_counter.py:38-72 | `Vertical` exactly when all eight key landmarks are visible and the mean hip y exceeds the mean shoulder y by more than 0.1; any key landmark under 0.5 gives `Invalid` |
| `Pose.OrientationUsesKeyPointsOnly` | server/squat_counter.py:41-65 | landmark lists that agree on the eight key landmarks get the same orientation |
| `Reps.CombineLegs` | server/squat_counter.py:152-159 | no angle exactly when neither leg has one; the midpoint of both legs when both have one; the known leg's angle when only one has |
| `Reps.CombineLegsBetween` | server/squat_counter.py:152-153 | the two-leg angle lies between the two legs' angles and does not depend on which leg is left |
| `Reps.Next` | server/squat_counter.py:171-186 | counter never falls and rises by at most 1; it rises exactly on a down-to-up move more than 1 s after the last rep; lastRepTime changes exactly when it rises and becomes now; up-to-down exactly below 110, leaving down exactly above 160; angles in [110, 160] change nothing; a too-early rise returns to up without counting |
| `Reps.RunCounterBounds` | server/squat_counter.py:175-180 | over any sequence of frames the counter never falls and gains at most one per frame |
| `Reps.RepsNeedDescents` | server/squat_counter.py:171-186 | over any run, reps counted plus one if the run ends down is at most the up-to-down moves made plus one if it started down |
| `Reps.RepsAreSpaced` | server/squat_counter.py:176-179 | k reps counted during a run move lastRepTime forward by more than k seconds; a run that counts nothing leaves it unchanged |
| `Counter.SquatCounter.constructor` | server/squat_counter.py:12-24 | a new counter has count 0, state up, last rep time 0 and an empty window |
| `Counter.SquatCounter.Reset` | server/squat_counter.py:94-97 | reset sets count 0, state up, last rep time 0 and an empty window, keeping the window invariant |
| `Counter.SquatCounter.SmoothedAngle` | server/squat_counter.py:74-84 | no angle: returns none and changes nothing; an angle: the window is pushed in place, the result is the window's median, the rep fields are untouched, and the window stays the last 5 angles received |
| `Counter.SquatCounter.Step` | server/squat_counter.py:161-186 | for a combined angle, the window is pushed and the rep fields become `Next` of the old ones at the new median; the status reports the median with counted, down or the old state; no angle reports ready and changes nothing |
| `Counter.SquatCounter.ProcessFrame` | server/squat_counter.py:125-190 | no person or a non-vertical body reports that and changes nothing; a vertical body combines the legs and runs `Step` |

## Left out

- Camera capture, frame reading and colour conversion: these are I/O.
- Pose inference by MediaPipe is a foreign library. Landmarks are plain records with `x`, `y` and `visibility`, passed in with the frame.
- `calculate_angle` depends on floating-point `arctan2`. Each leg's knee angle is an input of the frame (`Option<real>`).
- The source always passes `calculate_angle` coordinate pairs, never `None`, so both leg angles are always numbers there. The one-leg and no-leg cases of `Reps.CombineLegs`, and a `Ready` status for a vertical frame, cannot arise in the source; the model covers them as the code's branches are written.
- Socket emission of counts and statuses: network push. The status is returned as a value, and its text formatting (`{:.1f}`) is not modelled.
- Threads, `start`, `stop`, `main`, the stop event and the sleep loop: concurrency and process lifecycle.
- Wall-clock reads: the time of a frame is a parameter of `Step` and `ProcessFrame`.
- `print` diagnostics and the broad `except` in the processing loop.
- `Counter.SquatCounter.ProcessFrame`: requires the landmark list to reach index 28. The pose model always gives 33 landmarks. With a shorter list the source raises `IndexError` and leaves the loop through its broad `except`, which is not modelled, unless a key landmark checked earlier (in the order 11, 23, 25, 27, 12, 24, 26, 28) is below 0.5 visibility, in which case it reports an invalid position.
- `Pose.BodyOrientation`: has the same requires, for the same reason.
- The unused `confidence_threshold` field (0.65) and the detector's confidence settings (0.7) only configure the detector or are never read.
- `Medians.Median`: numpy computes the median in floating point; the model computes it on exact reals.
- Floating-point rounding elsewhere is not modelled either: the mean of the two legs' angles, the hip-minus-shoulder comparison against 0.1, and the time difference since the last rep, where the source subtracts two wall-clock times near 1.7e9 seconds.
