# Live face tracking: a Dafny model of the tracking component

The tracking page (`src/components/FaceTracker.tsx`) runs a self-rescheduling detection
loop. Each cycle asks a face-landmark detector for the current webcam frame. From the
first face it takes the nose (landmark 1), left eye (159) and right eye (386) as a
timestamped `FaceData` sample. It sends the sample to the `face_tracking_data` table and
appends it to a 50-entry history window, which feeds a line chart of nose x and nose y.
A boolean tracking flag, driven by a start button and a stop button, gates the loop.

The model has four modules, one per component of that file, plus a module of client
runs:

- `SampleExtractor` (`sample_extractor.dfy`): the `FaceData` record, the detector's
  output shape (`Face`, `Keypoint`), and `Extract`. Extraction yields no sample, a
  sample, or the missing landmark that makes the record literal throw.
- `HistoryBuffer` (`history_buffer.dfy`): the `[...prev, x].slice(-50)` update as
  `AppendBounded`. `LastN` is its reference window. `Replay` runs a sequence of appends
  from the empty buffer.
- `ChartProjector` (`chart_projector.dfy`): index labels (with a decimal `toString`
  and its inverse), the nose-x and nose-y series, and the whole chart input.
- `Tracker` (`face_tracker.dfy`): class `FaceTracker` with the fields `modelLoaded`,
  `isTracking` and `faceData`, plus a ghost log `inserted` of the rows sent to the store.
  It has the start and stop commands with their enable conditions, and one detection
  cycle `Detect`, which returns how the cycle ends (next frame requested, chain halted,
  or thrown on a missing landmark; a rejected or never-settling detector call is not
  modelled, see "Left out"). Its invariant `Valid()` says two things: the window is the last 50 rows
  sent to the store, and tracking is only on once the detector is loaded. The first part
  is a fact about a single rescheduling chain (see `Tracker.FaceTracker.Detect` under
  "Left out").
- `Scenarios` (`scenarios.dfy`): client methods that drive a `FaceTracker` through its
  contracts alone. They cover start before the detector loads, start/stop/start, a
  second start while tracking, a first detection with concrete coordinates, sixty
  detections, a stop during a detection, a stop and a restart during a detection, and a
  landmark list that is too short.

The parameters of a cycle are:

- the detector's answer (`faces`);
- the clock reading (`now`, which stands for `Date.now()`);
- the readiness of the webcam, canvas, video element and 2D context (`Host`);
- the start and stop presses the page handles while the cycle is suspended at an
  `await` (`suspendedCommands`), in order. They change only the flag. `Detect` also
  returns how many new frames those presses requested (`chains`): each enabled start
  begins a rescheduling chain of its own.

Coordinates are `real`, because the component only copies them. Timestamps are `int`.

Two behaviours of the code worth stating:

- A landmark list too short for index 1, 159 or 386 makes `nose[0]`, `leftEye[0]` or
  `rightEye[0]` throw inside the async `detect`. The promise rejects before the check at
  line 112, so no further frame is requested. The flag stays set, so the start button
  stays disabled until stop is pressed. The model returns `Threw(index)` with the first
  missing index in the order the literal reads them. The cycle itself does not touch
  `isTracking`; only the presses handled during its await change it.
- Timestamps come from whatever the clock returns. The model puts no ordering on
  successive `now` values, because `Date.now()` is wall-clock time and is not promised
  to be monotonic.

## Model

| member | source | states |
|---|---|---|
| `SampleExtractor.Extract` | src/components/FaceTracker.tsx:74-91 | No sample exactly when there are no faces. A sample exactly when the first face has landmarks 1, 159 and 386; its six coordinates are components [0] and [1] of those three landmarks, and its timestamp is `now`. Otherwise the error names the first of 1, 159, 386 (in reading order) that is out of range. |
| `SampleExtractor.ExtractUsesFirstFaceOnly` | src/components/FaceTracker.tsx:74-76 | Faces after the first never change the result. |
| `SampleExtractor.ExtractReadsOnlySelectedLandmarks` | src/components/FaceTracker.tsx:79-91 | Two faces that agree on x and y of the three selected landmarks give the same sample. No other landmark or component is read. |
| `SampleExtractor.ExtractPlanted` | src/components/FaceTracker.tsx:83-91 | Extraction inverts planting a sample's positions at indices 1, 159 and 386: the result is that sample, whatever the other landmarks and faces are. |
| `HistoryBuffer.SliceFromIsSuffix` | src/components/FaceTracker.tsx:98 | `slice(start)` always keeps a suffix. A negative start keeps the last `-start` elements, or all of them when the array is shorter; a non-negative start drops the first `start`, or all of them. |
| `HistoryBuffer.AppendBounded` | src/components/FaceTracker.tsx:98 | Length becomes min(50, old+1). The result is a suffix of the old buffer (its newest entries, in order) followed by the new sample, so the new sample is last; below capacity nothing is dropped, and a full buffer loses only its front element. |
| `HistoryBuffer.AppendBoundedWindow` | src/components/FaceTracker.tsx:98 | A bounded append to the window of a stream gives the window of the extended stream. |
| `HistoryBuffer.Replay` | src/components/FaceTracker.tsx:98 | After n appends from the empty buffer of line 42, the length is min(n, 50). |
| `HistoryBuffer.ReplayIsLastWindow` | src/components/FaceTracker.tsx:98 | After any sequence of appends from empty, the buffer is exactly the last min(n, 50) samples in arrival order. |
| `HistoryBuffer.ReplayAt` | src/components/FaceTracker.tsx:98 | Position i of the buffer holds sample number n - min(n, 50) + i. |
| `HistoryBuffer.SixtyAppends` | src/components/FaceTracker.tsx:98 | After 60 appends the buffer is full, its first element is sample #11 and its last is sample #60. |
| `ChartProjector.NatToString` | src/components/FaceTracker.tsx:118 | `i.toString()`: non-empty, all decimal digits, one digit exactly below 10, a leading '0' only for 0. |
| `ChartProjector.NatToStringRoundTrip` | src/components/FaceTracker.tsx:118 | Reading a label's digits back gives the index it came from. |
| `ChartProjector.NatToStringInjective` | src/components/FaceTracker.tsx:118 | Different indices give different labels. |
| `ChartProjector.Labels` | src/components/FaceTracker.tsx:118 | One label per buffered sample; label i is the decimal string of i. |
| `ChartProjector.LabelsDistinct` | src/components/FaceTracker.tsx:118 | The labels are pairwise distinct and each reads back as its position. |
| `ChartProjector.LabelsFollowLength` | src/components/FaceTracker.tsx:118 | Labels depend only on the buffer's length: they are window positions, not sample identities. |
| `ChartProjector.FullBufferKeepsLabels` | src/components/FaceTracker.tsx:98-118 | When a full buffer slides by one append, its labels stay the same. |
| `ChartProjector.NoseXSeries` | src/components/FaceTracker.tsx:122 | The nose-x dataset has the buffer's length, and element i is sample i's nose x. |
| `ChartProjector.NoseYSeries` | src/components/FaceTracker.tsx:128 | The nose-y dataset has the buffer's length, and element i is sample i's nose y. |
| `ChartProjector.SeriesFollowAppend` | src/components/FaceTracker.tsx:98-128 | Projecting after a bounded append gives the bounded append of the new coordinate to the projected series, for both series. |
| `ChartProjector.ChartedSeriesIsLastWindow` | src/components/FaceTracker.tsx:117-133 | After any run of detections from empty, each charted series is the last 50 detected values of that coordinate. |
| `ChartProjector.ChartDataOf` | src/components/FaceTracker.tsx:117-133 | The chart input is a function of the buffer alone. It has one label per sample ("0".."n-1") and exactly two datasets, "Nose X Position" and "Nose Y Position", each as long as the buffer and taken position by position. |
| `Tracker.CanDetect` | src/components/FaceTracker.tsx:66-71 | The detector is never invoked before it has loaded, on a frame whose ready state is not `HAVE_ENOUGH_DATA`, or without the webcam, canvas, video element and 2D context. |
| `Tracker.Step` | src/components/FaceTracker.tsx:54-61 | A stop always leaves the flag clear; a start leaves it set exactly when it was set already or the detector has loaded (start is disabled otherwise, line 156). |
| `Tracker.FlagAfter` | src/components/FaceTracker.tsx:54-61 | After a run of presses ending in a stop the flag is clear. Before the detector loads, the flag stays set exactly when it was set and no stop was pressed. |
| `Tracker.StartGranted` | src/components/FaceTracker.tsx:54-57 | A press requests a frame exactly when it is a start that turns a clear flag into a set one; the start button's enable condition (line 156) is this one, applied to the component's flag. |
| `Tracker.StartsGranted` | src/components/FaceTracker.tsx:54-61 | Counts the enabled starts in a run of presses, each requesting a frame. Before the detector loads there are none. Counting a set starting flag as one running chain, the chains begun never outnumber the stops plus the one the final flag keeps: every new chain needs a stop first, because line 156 disables start while tracking. |
| `Tracker.FlagAfterLastCommand` | src/components/FaceTracker.tsx:54-61 | With the detector loaded, the flag after a run of presses is set exactly when the last press is a start (or there were none and it was set). |
| `Tracker.FaceTracker.constructor` | src/components/FaceTracker.tsx:41-43 | A new component has no detector, is not tracking, and has an empty window and an empty insert log. |
| `Tracker.FaceTracker.StartEnabled` | src/components/FaceTracker.tsx:156 | Start is never enabled together with stop, and when neither is enabled the detector has not loaded. |
| `Tracker.FaceTracker.StopEnabled` | src/components/FaceTracker.tsx:163 | In a valid state stop is enabled only once the detector has loaded. |
| `Tracker.FaceTracker.ModelReady` | src/components/FaceTracker.tsx:45-52 | Storing the loaded detector sets only `modelLoaded`. |
| `Tracker.FaceTracker.StartTracking` | src/components/FaceTracker.tsx:54-57 | A first cycle is requested exactly when start is enabled (detector loaded and not tracking, line 156). Then the flag is set; otherwise nothing changes. |
| `Tracker.FaceTracker.StopTracking` | src/components/FaceTracker.tsx:59-61 | Afterwards the flag is clear and nothing else has changed. When stop is disabled (line 163) the command does nothing. |
| `Tracker.FaceTracker.Detect` | src/components/FaceTracker.tsx:63-115 | A cycle entered with the flag clear changes nothing and halts. If a readiness guard fails, nothing is recorded and the cycle reschedules. If the detector ran, a produced sample is inserted once and appended to the window; no face records nothing; a missing landmark throws without recording or rescheduling; otherwise the cycle reschedules exactly when the flag, after the presses handled during its awaits, is set at line 112. The frames those presses request are counted in `chains`. `Valid()` is preserved. |
| `Scenarios.StartBeforeModelLoads` | src/components/FaceTracker.tsx:156 | Start before the detector loads requests no cycle and leaves tracking off. |
| `Scenarios.StartStopStart` | src/components/FaceTracker.tsx:54-61 | With the detector loaded, start; stop; start makes two enabled starts and ends with tracking on. |
| `Scenarios.StartTwice` | src/components/FaceTracker.tsx:156 | A second start while tracking requests no further cycle. |
| `Scenarios.FirstDetection` | src/components/FaceTracker.tsx:74-98 | Nose (100, 120), left eye (80, 110), right eye (120, 110) give exactly that sample as the window's only entry, and the cycle reschedules. |
| `Scenarios.RunDetections` | src/components/FaceTracker.tsx:94-98 | One detection per sample leaves the last 50 samples in the window, in order. After sixty samples the window is full and starts at the eleventh. |
| `Scenarios.StopDuringDetection` | src/components/FaceTracker.tsx:112-114 | A stop during the detector call still records that cycle's sample. The cycle then halts, and a later cycle does nothing. |
| `Scenarios.RestartDuringDetection` | src/components/FaceTracker.tsx:54-114 | A stop and then a start during the detector call: the start requests its own frame and the suspended cycle reschedules as well, so two chains run; the sample is still recorded. |
| `Scenarios.TopologyMismatch` | src/components/FaceTracker.tsx:79-91 | A landmark list without index 386 makes the cycle throw on the right eye. Nothing is recorded, and the flag stays set. |

## Left out

- `live_face_tracking.py`: an OpenCV capture-and-display loop around GPU face-alignment models, with floating-point eye and mouth means and a wall-clock frame counter. It is all I/O, foreign calls and floating point.
- Loading the detector (`tf.ready`, `loadFaceLandmarksDetection`, lines 45-52) is an asynchronous foreign call. Only its effect is modelled, as `ModelReady` setting `modelLoaded`.
- The detector (`model.estimateFaces`, line 72) is foreign code. Its answer is the `faces` parameter of `Detect`.
- The Supabase insert (lines 94-96) is a network call. It is modelled only as the ghost log `inserted`, which gains one row per sample. A failed insert is not modelled: the client library reports errors in its result rather than throwing, and the component ignores that result.
- Canvas drawing (lines 101-107) is a side effect on an external 2D surface and is not modelled.
- `requestAnimationFrame` and the `await` points (lines 56, 72, 94, 113) are not modelled as real asynchrony. A requested frame is the `scheduled`, `Rescheduled` or `chains` result. Button presses handled while a cycle is suspended are the `suspendedCommands` parameter. Presses at the detector's await (line 72) and at the insert's await (line 94) are merged into one point, because neither the flag nor the presses touch what the cycle does between those two points.
- `Tracker.FaceTracker.Detect`: the detector's answer is always an answer. Neither the `await` on `model.estimateFaces` (line 72) nor the one on the insert (line 94) is guarded by a try/catch or a timeout. If `estimateFaces` rejects, the cycle rejects before line 112 with nothing recorded and the flag still set, which is the end the model gives as `Threw` for a missing landmark; the model has no separate end for it. A call that never settles leaves the cycle suspended for good, and that hang is not represented: every `Detect` call returns.
- `Tracker.FaceTracker.Detect`: cycles of two rescheduling chains are not interleaved. A stop and then a start during a cycle's await leaves two chains running (`chains`), and in the page a cycle of the second chain can run its own insert and window update while the first cycle waits. The model runs each cycle to its end in one call. So `Valid()`'s agreement between the window and the insert log holds for a single chain, or when inserts resolve in the order they were sent. If a second chain's insert resolves first, the page's window ends with the two rows in the opposite order to the one they were sent in.
- React's stale-closure semantics are not modelled. In React, `detect` keeps the `isTracking` value of the render that created it, and the render that handles the start click saw it as false. The model reads the flag as a field at lines 64 and 112, as the code's control flow intends.
- The detector's landmark objects are modelled as the code indexes them: a point is a coordinate tuple of at least two components, read as `point[0]` and `point[1]`.
- The JSX layout, chart styling (colours, tension) and Chart.js registration (lines 18-26, 135-174) are presentation only. Only the dataset labels are kept.
