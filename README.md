# Gesture-unlock alarm clock: a Dafny model of its core

The system watches a camera. While it is locked (BLOQUEADO) it looks for
hand-drawn shapes in a square region of interest: CIRCULO, FLECHA,
CUADRADO, MONTANA and PICO. When the drawn shapes match the configured
sequence, a countdown starts (COUNTDOWN). Then a background-subtraction
tracker follows the largest moving blob (TRACKING). Once the blob has moved
more than 700 pixels from where it was first seen, the alarm unlocks
(UNLOCKED) and a second countdown ends the program. Separately,
calibration.py builds the chessboard object points used for lens
calibration.

The model has five modules, one per component:

- `Common` (common.dfy): `Option`, pixel points and boxes, and `TruncDiv`,
  which is Python's `int()` of a quotient (it rounds toward zero).
- `Shapes` (shapes.dfy): `detect_pattern`. The OpenCV results for each
  contour are inputs: area, bounding box, approximated polygon, convexity,
  a circularity flag and the defect depths. The module models the two
  screens, the label decision tree (`LabelFor`), the defect-counting loop
  (`CountDeepDefects`) and the running maximum (`DetectPattern`).
- `Tracker` (tracker.dfy): `AutoKalmanTracker` as a class. Its fields are
  `firstDetection`, `initialPos`, `bestW` and `bestH`, and `Update` changes
  them in place, as the pure `NextView` states on their value `TrackerView`. The Kalman filter is opaque: the integer positions of its
  prediction and of its correction for the frame come in as parameters.
- `Alarm` (alarm.dfy): the `while` loop of `main` as the class `Sequencer`.
  Its fields are the loop's variables. There is one method per state
  (`StepLocked`, `StepCountdown`, `StepTracking`, `StepUnlocked`), a
  per-frame `Step`, and `Run` over a finite stream of frames. Each method
  is proved equal to a pure function over a `Snapshot`, the loop's
  variables plus the tracker's fields as a value: `NextLocked`,
  `NextCountdown` and `NextTracking` for the states, `Next` for a frame
  and `RunFrames` for a stream. The properties of the machine are the
  contracts of `Next` and `RunFrames`. The BLOQUEADO bookkeeping is also
  the pure function `LockedUpdate`, and `LockedRun` replays it over many
  frames on its own, apart from the class.
- `Calibration` (calibration.dfy): `get_chessboard_points` as the
  nested-loop method `GetChessboardPoints`. It is proved equal to the
  function `ChessboardPoints`, and the grid properties are lemmas about
  that function.

Time is integer milliseconds and is passed in. One `now` stands for every
`time.time()` read within a frame. The thresholds are `> 200` ms (debounce)
and `> 2000` ms (mismatch reset).

Where the code and the design intent written around it disagree, the
model follows the code:

- The countdown shows `int(5 - elapsed) + 1`. Because `int()` truncates
  toward zero, the number 1 stays on screen from 4 s to 6 s, and both
  countdowns end only once elapsed time reaches 6 s, not 5 s
  (`Alarm.Remaining`). A reading of the countdown as
  `ceil(5 - elapsed)` would end it at 5 s.
- The fallback label `num_vert_<n>` is a non-empty string, so the truth
  test `pattern_label and area > max_area` accepts it
  (`Shapes.LabelName`). Fallback contours therefore take part in
  the largest-area selection and can be returned. They are more than
  "not a recognised gesture".

## Model

| member | source | states |
|---|---|---|
| `Shapes.LabelName` | main.py:52-86 | every label string is non-empty, so the truth test at line 86 never rejects a label; only the fallback strings `num_vert_<n>` start with `n` |
| `Shapes.LabelNameInjective` | main.py:52-84 | different labels have different strings, so comparing labels is the same as comparing the strings at line 202 |
| `Shapes.NatToStringInjective` | main.py:52 | different vertex counts give different `num_vert_<n>` strings |
| `Shapes.AreaInRange` | main.py:35-41 | the area screen keeps only contours of positive area smaller than the image |
| `Shapes.InsideBorder` | main.py:42-45 | a box that passes the border screen lies strictly inside the image, at most 4 pixels narrower and shorter than it |
| `Shapes.Survives` | main.py:35-45 | a contour that passes both screens has positive area, in an image of positive size |
| `Shapes.DeepCount` | main.py:72-77 | the deep-defect count is at most the number of defects, and it is zero exactly when no depth exceeds the limit |
| `Shapes.DeepDefects` | main.py:65-77 | no defects (none reported, or `cv2.error`) count as zero; otherwise the count is at most the number of defects and is zero exactly when no depth exceeds `20 * max(w, h)` |
| `Shapes.CountDeepDefects` | main.py:72-77 | the counting loop returns the number of depths above `20 * max(w, h)` |
| `Shapes.LabelFor` | main.py:52-84 | each recognised label holds exactly when its rule holds: CIRCULO iff more than 7 vertices, convex and circular; FLECHA iff 4 vertices and not convex; CUADRADO iff 4 vertices and convex; MONTANA or PICO iff 5 vertices, not convex, and 1 or 2 deep defects. Every other case is the fallback `NumVert` carrying the vertex count |
| `Shapes.Classify` | main.py:47-84 | MONTANA and PICO need a defect computation that succeeded on a 5-vertex non-convex polygon; CIRCULO needs more than 7 vertices, convexity and circularity; a fallback label carries the contour's vertex count |
| `Shapes.FourVerticesArrowOrSquare` | main.py:61-84 | a 4-vertex contour is FLECHA or CUADRADO, and FLECHA exactly when it is not convex |
| `Shapes.DefectErrorFallsBack` | main.py:65-81 | when the defect computation raises or returns nothing, a 5-vertex non-convex contour gets `num_vert_5` and is still classified |
| `Shapes.BestIsUnique` | main.py:86-89 | the kept contour is fully determined by the contours: two indices that meet the selection property are equal |
| `Shapes.PatternOfBest` | main.py:86-91 | the label of the kept contour, `PatternOf`, is the label of any index meeting the selection property |
| `Shapes.DetectPattern` | main.py:29-91 | the result is absent exactly when no contour passes both screens (area strictly between 2% and 80% of the image, bounding box at least 2 pixels from every border). Otherwise it is the label and polygon of the first survivor of greatest area: no survivor is larger, every earlier survivor is strictly smaller, and fallback labels are included. The label returned is `PatternOf` of the contours |
| `Common.TruncDiv` | main.py:245 | `int()` of a quotient: for a non-negative dividend it is the floor, and for a negative dividend it is the ceiling (rounding toward zero) |
| `Alarm.Remaining` | main.py:244-245 | `int(5 - elapsed) + 1` is 0 or less exactly when elapsed time is at least 6000 ms, and during the first 6 s it is a number from 1 to 6 |
| `Alarm.LockedUpdate` | main.py:199-233 | a proper prefix of the expected sequence stays a prefix. The sequence grows exactly when the shape is the next expected one and more than 200 ms have passed; it then grows by that shape and records `now`. A wrong shape after more than 2000 ms clears it, records `now` and raises the reset message. In every other case, including no shape, nothing changes |
| `Alarm.AbsentPatternKeepsSequence` | main.py:199 | a frame without a shape leaves the sequence, the timestamp and the message unchanged |
| `Alarm.LockedRun` | main.py:192-241 | over any run of BLOQUEADO frames, the detected sequence remains a prefix of the expected one |
| `Alarm.ResetsKeepEmpty` | main.py:230-233 | starting empty, any run of wrong shapes keeps the sequence empty, however many resets it triggers |
| `Alarm.DebounceCountsOnce` | main.py:225-227 | a correct shape seen at 0 ms and again at 100 ms is appended once |
| `Alarm.SingleMontanaCompletes` | main.py:8 | with the configured sequence `["MONTANA"]`, one MONTANA seen more than 200 ms after start-up completes the sequence |
| `Alarm.FarEnough` | main.py:272-279 | along either axis, the unlock test holds exactly when the position is more than 700 pixels from the initial one |
| `Alarm.FarEnoughThreshold` | main.py:273-279 | the unlock test is strict at 700 pixels: moving 701 pixels unlocks and moving 700 does not |
| `Alarm.NextLocked` | main.py:199-241 | a BLOQUEADO frame keeps the detected sequence a proper prefix while BLOQUEADO, and moves to COUNTDOWN exactly when the sequence equals the expected one |
| `Alarm.Next` | main.py:192-301 | one captured frame keeps the machine's invariant and moves the state forward by at most one step along BLOQUEADO, COUNTDOWN, TRACKING, UNLOCKED. BLOQUEADO: the sequence and timestamp are those of `LockedUpdate` for the classifier's label on the 450 by 450 region; COUNTDOWN follows exactly on the full sequence and records `now` and clears the message; otherwise the message is `LockedUpdate`'s; the tracker and the shutdown time are untouched. COUNTDOWN: TRACKING starts exactly at 6 s elapsed with a fresh tracker and nothing else changes; before that nothing changes at all. TRACKING: the tracker's fields become `NextView`'s; UNLOCKED follows exactly when the tracker is active and the reported position is far enough, recording `now` as the shutdown time; nothing else changes. UNLOCKED: nothing changes, and the loop ends exactly at 6 s after the unlock. Only UNLOCKED ends the loop |
| `Alarm.RunFrames` | main.py:174-301 | over a stream of frames, the invariant holds throughout and the state never moves backward. If the loop ends, it ends in UNLOCKED on a captured frame at least 6000 ms after the unlock; otherwise every frame was read. A stream of lost frames changes nothing |
| `Alarm.RunFramesLost` | main.py:175-178 | a lost frame is read and skipped without changing anything |
| `Alarm.RunFramesCaptured` | main.py:174-301 | a captured frame takes one step of `Next`, and the loop stops there when that step ends it |
| `Alarm.Sequencer.constructor` | main.py:161-166 | the machine starts BLOQUEADO with an empty sequence, the start-up time as the last detection, no reset message and no tracker |
| `Alarm.Sequencer.StepLocked` | main.py:199-241 | the new state is `NextLocked`'s. The new sequence and timestamp are those of `LockedUpdate`. The state becomes COUNTDOWN, recording `now` and clearing the message, in the same frame the sequence equals the expected one. Otherwise it stays BLOQUEADO with a proper prefix, so the index at line 200 is always in bounds |
| `Alarm.Sequencer.StepCountdown` | main.py:243-259 | the new state is `NextCountdown`'s: once the countdown shows 0 or less, the state becomes TRACKING with a freshly made tracker that is not active and has no initial position. Before that nothing changes |
| `Alarm.Sequencer.StepTracking` | main.py:261-281 | the new state is `NextTracking`'s. The tracker's box becomes the measured box and its initial position is set at the first measurement; a frame without measurement leaves the tracker as it was. The state becomes UNLOCKED, recording `now`, exactly when the tracker is active and the squared distance from the initial position exceeds 700 squared. An initial position already recorded never changes |
| `Alarm.Sequencer.StepUnlocked` | main.py:283-301 | the loop ends exactly when the shown number is 0 or less, that is once 6000 ms or more have passed since the unlock |
| `Alarm.Sequencer.Step` | main.py:192-301 | the new variables and tracker fields are those of `Next`, and the loop ends exactly when `Next` says so. The label used in BLOQUEADO is the classifier's `PatternOf` on the 450 by 450 region: absent exactly when no contour survives, and otherwise the label of the kept contour. A new tracker object appears only when TRACKING starts |
| `Alarm.Sequencer.Run` | main.py:174-301 | over a stream of frames, the final variables and tracker fields, whether the loop ended, and the number of frames read are exactly those of `RunFrames`; a stream of lost frames keeps the same tracker object |
| `Tracker.ArgMax` | main.py:113-114 | `max(contours, key=contourArea)` picks a blob of greatest area, the first one among ties |
| `Tracker.Measurement` | main.py:112-120 | a frame yields a measurement exactly when some blob's area exceeds 3000, and the measured box is then that of a blob no other blob is larger than |
| `Tracker.Center` | main.py:120 | the measured point is as far from the box's left edge as from its right edge, and from the top as from the bottom |
| `Tracker.NextView` | main.py:112-132 | `best_w` and `best_h` change only on frames with a measurement, and then to that box; nothing changes without one. The initial position is set to the box centre at the first measurement and never changes afterwards. Active goes from false to true at the first measurement and never back. The initial position is recorded exactly when the first detection has happened |
| `Tracker.AutoKalmanTracker.constructor` | main.py:95-105 | a new tracker is not active, has no initial position, and has a 100 by 100 best box |
| `Tracker.AutoKalmanTracker.Update` | main.py:107-132 | the new fields are `NextView`'s: `best_w` and `best_h` change only on frames with a measurement, and then to that blob's box. The initial position is set to the box centre at the first measurement and never changes afterwards. Active goes from false to true at the first measurement and never back. The reported position is the correction when there is a measurement and the prediction otherwise |
| `Calibration.GetChessboardPoints` | calibration.py:22-36 | the nested loops build exactly `ChessboardPoints(rows, cols, dx, dy)`, which has `rows * cols` points |
| `Calibration.ChessboardLength` | calibration.py:24-36 | there are `rows * cols` points (none when either count is not positive) |
| `Calibration.ChessboardAt` | calibration.py:30-33 | the point at index `i * rows + j` is `[j * dx, i * dy, 0]` |
| `Calibration.ChessboardFlat` | calibration.py:33 | every point has z = 0 |
| `Calibration.ChessboardSteps` | calibration.py:30-33 | each block of `rows` points starts at x = 0. Within a block x grows by `dx` and y stays the same. The next block has y larger by `dy` at the same x |

## Left out

- OpenCV geometry (`contourArea`, `boundingRect`, `arcLength`, `approxPolyDP`, `isContourConvex`, `convexHull`, `convexityDefects`, `findContours`) and `compute_contours`: these are foreign calls. Their results are the fields of `Contour` and `Blob`.
- The circularity formula `4*pi*area/perimeter^2 > 0.7`, with its `perimeter > 0` guard: it is floating point with pi. It enters as the boolean `Contour.circular`.
- Shapes.DetectPattern: float rounding of `0.02 * H * W` and `0.8 * H * W` is not modelled, because areas and thresholds are exact reals.
- The MOG2 background subtractor, the morphological opening and the Kalman filter arithmetic, including the seeding of `statePre`/`statePost` at the first measurement: these are foreign numerics. The two estimator outputs are parameters.
- Tracker.AutoKalmanTracker.Update: does not model the `int()` of the float estimate or the float32 centre. The estimator parameters are already integers, and the centre is an exact real.
- Alarm.FarEnough: compares the squared distance with 700 squared in exact reals, in place of the float `sqrt`.
- The progress bar `min(d/700, 1.0)`, the FPS counter and all drawing (`putText`, `rectangle`, `drawContours`, `minEnclosingCircle`, `drawMarker`, the colour choice at main.py:205-208): these are display only.
- Undistortion, remap, crop and resize (main.py:156-189): a library wrapper upstream of the core.
- `VideoCapture`, the start-up failures, the `waitKey` 'q' exit, the `KeyboardInterrupt`/`finally` release and the `__main__` blocks: these are I/O and cancellation. A lost frame is the `Frame.Lost` case, which `Run` skips.
- Alarm.Sequencer: requires a non-empty expected sequence. With an empty `EXPECTED_SEQUENCE`, a first captured frame without a shape passes the test `[] == []` at main.py:238 and goes to COUNTDOWN; only a shape on that very first frame reaches the out-of-range index at main.py:200. The model does not cover either run.
- Alarm.Sequencer.Run: the ending conditions (the loop stops only in UNLOCKED, on a captured frame, 6000 ms or more after the unlock) and the all-lost case are stated on `RunFrames`, which `Run` equals, rather than repeated on `Run`.
- Alarm.Sequencer.Step: one `now` per frame stands for the separate `time.time()` reads at lines 201 and 240. Time has millisecond resolution.
- calibration.py `main`, `load_images`, `show_image`, `write_image` and `save_calibration_parameters`: file I/O plus chessboard detection and camera calibration through OpenCV.
- Calibration.GetChessboardPoints: the float32 conversion of `np.array(..., dtype=np.float32)` is not modelled. Coordinates are exact reals.
