# Push-up trainer: angle features and rep state machine

A model of the per-frame logic of a webcam push-up counter. Each video frame,
a pose model yields body landmarks. The program measures joint angles from them,
gates on the visibility of six key landmarks, and judges elbow tuck. It then
updates three loop variables: the phase `state`, the rep `counter` and the
`feedback` text. Finally it colours the feedback box by looking for keywords in
that text.

The model has four modules:

- `Geometry` (`geometry.dfy`) is `calculate_angle`. The difference of two
  bearings around the vertex is folded into [0, 180] degrees: absolute value
  first, then a reflex angle `x` becomes `360 - x`. `atan2` in degrees is a
  parameter of type `Bearing`: any total function on reals whose values lie in
  [-180, 180].
- `Landmarks` (`landmarks.dfy`) covers the ten landmarks the program reads and
  the visibility gate (Python's `all(...)` over six landmarks). It also has the
  bilateral elbow and back averages and the "GOOD FORM" / "TUCK ELBOWS" verdict.
- `Feedback` (`feedback.dfy`) holds the feedback strings, Python's substring
  test `in`, and the colour classifier.
- `RepCounter` (`rep_counter.dfy`) is the state machine. It has the four phases
  the code uses: `get_ready`, `ready`, `up`, `down`. A frame is either
  `Detected(landmarks)` or `NotDetected`. `NotDetected` stands for the `except`
  branch. The pure step `Next` specifies the class `Trainer`. `Trainer` keeps
  the three loop variables as fields and updates them in `Step`. Its
  `ProcessFrames` method is the frame loop.

The machine follows the code, not the intended design. The code enters `ready`
at lines 84 and 98, but its `if/elif` chain only handles `get_ready`, `up` and
`down`. On a detected frame in `ready`, nothing changes. So from the initial
state (`get_ready`, 0, `""`) the machine never reaches `up` or `down`, and the
counter stays 0 (`SessionNeverCounts`). A prose description of this program
treats `ready` as the same phase as `up`. The model does not merge them. It
records the gap under "## Findings" instead. The thresholds are constants, as
in the code, not configuration parameters.

## Model

| member | source | states |
|---|---|---|
| Geometry.RawDifference | pushup_trainer.py:14 | the difference of two bearings lies in [-360, 360] |
| Geometry.Angle | pushup_trainer.py:9-18 | `calculate_angle` always returns an angle in [0, 180] |
| Geometry.FoldRange | pushup_trainer.py:15-18 | the fold of any difference in [-360, 360] lies in [0, 180] and is the smaller of `abs(d)` and `360 - abs(d)` |
| Geometry.FoldEven | pushup_trainer.py:15-17 | the fold ignores the sign of the difference |
| Geometry.FoldFullTurn | pushup_trainer.py:15-17 | differences a full turn apart fold to the same angle, so the branch `atan2` returns does not matter |
| Geometry.AngleSymmetric | pushup_trainer.py:14-17 | `calculate_angle(a, b, c) == calculate_angle(c, b, a)` |
| Geometry.AngleExtremes | pushup_trainer.py:14-18 | bearings half a turn apart give 180; equal bearings, or bearings a full turn apart, give 0 |
| Landmarks.AllVisible | pushup_trainer.py:67 | `all(lm.visibility > t ...)` is true exactly when every listed landmark is strictly above `t` |
| Landmarks.BodyVisibleIff | pushup_trainer.py:67 | the body is visible exactly when all of left/right shoulder, elbow and hip have visibility strictly above 0.8 |
| Landmarks.WristAnkleNotGated | pushup_trainer.py:67-70 | changing wrist or ankle visibility never changes the gate |
| Landmarks.AvgElbowAngle | pushup_trainer.py:73 | the average of the two shoulder-elbow-wrist angles lies in [0, 180] |
| Landmarks.AvgBackAngle | pushup_trainer.py:74 | the average of the two shoulder-hip-ankle angles lies in [0, 180] |
| Landmarks.FormFeedbackIff | pushup_trainer.py:76-78 | the verdict is "TUCK ELBOWS" exactly when either side's hip-shoulder-elbow angle is strictly above 65, and "GOOD FORM" exactly when neither is |
| Landmarks.Extract | pushup_trainer.py:67-78 | both averages lie in [0, 180]; the form verdict is one of the two form strings |
| Feedback.TuckElbowsColour | pushup_trainer.py:107 | "TUCK ELBOWS" gets the tuck colour |
| Feedback.GoodFormColour | pushup_trainer.py:107-108 | "GOOD FORM" gets the good colour |
| Feedback.RepCountedColour | pushup_trainer.py:107-109 | "REP COUNTED!" misses the first two keywords and gets the counted colour |
| Feedback.NoBodyDetectedColour | pushup_trainer.py:107-110 | "NO BODY DETECTED" misses the first three keywords and gets the detected colour |
| Feedback.GetIntoPlankColour | pushup_trainer.py:107-111 | "GET INTO PLANK POSITION" matches no keyword and gets the default colour |
| Feedback.ProducedColours | pushup_trainer.py:107-111 | the colour of each of the six feedback values the program can hold; the initial `""` gets the default |
| Feedback.TuckTakesPriority | pushup_trainer.py:107-108 | any text that contains "TUCK ELBOWS" is coloured as a tuck warning, even if it also contains "GOOD" |
| Feedback.ProducedColoursDistinguish | pushup_trainer.py:107-111 | two produced feedback strings share a colour only if they are equal, or if both are `""` / "GET INTO PLANK POSITION" |
| RepCounter.Trainer.constructor | pushup_trainer.py:32-34 | a session starts in `get_ready` with counter 0 and empty feedback |
| RepCounter.Trainer.Step | pushup_trainer.py:81-103 | one frame updates state, counter and feedback exactly as `Next` does |
| RepCounter.Trainer.ProcessFrames | pushup_trainer.py:38-103 | the loop leaves the variables as `RunFrames` gives for the frames in order |
| RepCounter.NoDetectionReset | pushup_trainer.py:101-103 | a frame without a body, from any phase, gives `get_ready`, the same counter and "NO BODY DETECTED" |
| RepCounter.ReadyIsInert | pushup_trainer.py:81-99 | on a detected frame in `ready`, state, counter and feedback all stay as they were |
| RepCounter.GetReadyStep | pushup_trainer.py:81-87 | from `get_ready` the machine enters `ready` with the form verdict exactly when visible, back > 145 and elbow > 155; otherwise it stays with "GET INTO PLANK POSITION"; the counter never changes |
| RepCounter.VisibilityGate | pushup_trainer.py:67-87 | one gated landmark at or below 0.8 keeps `get_ready`, whatever the angles |
| RepCounter.UpStep | pushup_trainer.py:89-92 | in `up` the feedback becomes the form verdict, and the phase becomes `down` exactly when elbow < 90 |
| RepCounter.DownStep | pushup_trainer.py:94-99 | in `down`, elbow > 155 gives `ready` with counter + 1 and "REP COUNTED!"; otherwise the phase stays and the feedback becomes the form verdict |
| RepCounter.CounterStep | pushup_trainer.py:81-103 | the counter never decreases; it changes exactly on a detected frame in `down` with elbow > 155, by one, into `ready` with "REP COUNTED!" |
| RepCounter.FeedbackStaysProduced | pushup_trainer.py:76-103 | the feedback variable only ever holds one of the six known strings |
| RepCounter.RunCounterMonotone | pushup_trainer.py:38-103 | over any run the counter never decreases and rises by at most one per frame |
| RepCounter.StuckBeforeUp | pushup_trainer.py:81-103 | from `get_ready` or `ready`, every run stays in those two phases with the counter unchanged |
| RepCounter.SessionNeverCounts | pushup_trainer.py:32-103 | from the initial state every reachable state is `get_ready` or `ready`, the counter is 0 and "REP COUNTED!" is never shown |
| RepCounter.AsWrittenMissesRep | pushup_trainer.py:81-99 | plank, bent-arm and extended-arm frames from the start leave the counter at 0 in `ready` |
| RepCounter.CorrectedCountsRep | pushup_trainer.py:84-98 | with `up` entered at lines 84 and 98, the same three frames count one rep |
| RepCounter.CorrectedRepCycle | pushup_trainer.py:89-99 | in the corrected machine, from `up`, a descent below 90 then an extension above 155 counts one rep and returns to `up` |
| RepCounter.CorrectedCounterStep | pushup_trainer.py:94-99 | the corrected machine keeps the counter rule: never decreases, and rises by one only from `down` with elbow > 155 |

## Findings

| source | as written | input that shows it | evidently intended | confidence | as-written member | corrected member |
|---|---|---|---|---|---|---|
| pushup_trainer.py:84 | the plank test (and a counted rep, line 98) sets `state = 'ready'`, a phase the `if/elif` chain never handles, so the machine never reaches `up` or `down` | from (`get_ready`, 0, `""`): a visible frame with back 150 and elbow 160, then elbow 80, then elbow 160; the counter stays 0 | enter `up`, the phase that watches for the descent | high; not executed | RepCounter.AsWrittenMissesRep | RepCounter.CorrectedCountsRep |

`RepCounter.CorrectedTransition` is the step with `up` at lines 84 and 98.
The class `Trainer` and the run lemmas keep the behaviour as written, because
they model the program as it is.

## Left out

- Camera capture, frame-size queries, the video writer and its output file (pushup_trainer.py:22-29, 38-41, 134, 140-142): device I/O. The end of the camera stream is the end of the frame sequence given to `ProcessFrames`.
- The pose model and the colour-space conversion (pushup_trainer.py:37, 43-47) come from a foreign library. Landmarks arrive as a `LandmarkSet`, or as `NotDetected`.
- Which exceptions reach the `except` (pushup_trainer.py:101). Only "no landmarks" is modelled, as `NotDetected`.
- `np.arctan2`, `np.pi` and floating point (pushup_trainer.py:14-15). `atan2` in degrees is the parameter `atan2: Bearing`, known only by its range [-180, 180]. Angles are Dafny `real`s, so rounding, NaN and infinities are not modelled.
- Drawing: rectangles, text, text centring, the `int()` debug overlay and the reset of the two averages to 0 that only feeds it, and landmark drawing (pushup_trainer.py:50-51, 113-132). These are presentation and depend on library metrics.
- Window display and the `q` key that ends the loop (pushup_trainer.py:135-138): UI events. Stopping early is the same as a shorter frame sequence.
