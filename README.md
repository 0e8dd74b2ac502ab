# Person detection on video: a Dafny model of the frame pipeline

This project models the per-frame bookkeeping of the person-detection video
processor and the two small rules of its detector wrapper, and proves their
properties.

- `detector.dfy` (module `Detector`) models `PersonDetector.detect_persons`
  and `PersonDetector.draw_detections`. The detection model is the function
  field `predict` of `PersonDetector`. It maps a frame to the list of results
  the model yields, each with an optional list of raw float boxes. The nested
  loops of `detect_persons` keep a box only when `x2 > x1 and y2 > y1` on the
  raw coordinates, then truncate the corners toward zero as Python's `int()`
  does. Drawing is a list of OpenCV primitives appended to a frame value: for
  each detection, in order, its box, a filled label background, then the
  label text. The label's baseline follows the rule of
  `src/detector.py:145`. Text metrics are the input function `textSize`.
- `video_processor.dfy` (module `VideoProcessing`) models
  `VideoProcessor.__init__` and `process_video`. The environment is a value
  (`FileSystem`) holding three things: the paths that exist, the videos a
  capture can open (metadata and decoded frames), and the paths a writer can
  open. The capture and writer are small classes: a read position over the
  frames, and an append-only log of written frames. The progress callback is
  the list of calls it received. `ProcessVideo` is proved equal to the
  function `Run`. The lemmas about `Run` state the promises of the source:
  - one written frame per decoded frame (`RunFrameBookkeeping`), and one
    person count per decoded frame (`FrameLoop`);
  - the callback cadence (`n / 30` calls at frames 30, 60, …);
  - the FPS overlay rule;
  - the summary statistics;
  - every error path the core raises itself, except the FPS-window division
    listed under "## Left out".

The model follows the code in these points, which are easy to misread:
- The handles are released only after the loop exits normally. There is no
  `try`/`finally`, so a division error inside the loop leaves both handles
  unreleased (`RunOutcome`, `RunZeroTotalDivides`).
- A detection's integer box is only ordered (`x1 <= x2`), not strictly. A
  valid raw box narrower than one pixel truncates to a degenerate box
  (`DegenerateBoxAfterTruncation`).
- The callback's `current` values strictly increase.
- The duration line at `src/video_processor.py:78` divides `total_frames` by
  the integer fps. A stream whose fps metadata is 0 therefore raises a
  division error before the writer is created. The model keeps this error
  and drops the printing.

## Model

| member | source | states |
|---|---|---|
| `Detector.DetectPersons` | src/detector.py:51-93 | the result is exactly `Detections` of the model's results: the nested loops keep valid boxes in model order and skip results without boxes |
| `Detector.Trunc` | src/detector.py:87 | `int()` on a float truncates toward zero: for `r >= 0`, `t <= r < t + 1`; for `r < 0`, `t - 1 < r <= t` |
| `Detector.TruncMonotone` | src/detector.py:80-87 | truncation preserves `<=`, so a box that passed the raw check keeps its corners ordered |
| `Detector.Kept` | src/detector.py:78-91 | the inner loop never yields more detections than boxes |
| `Detector.KeptAppend` | src/detector.py:78-91 | filtering distributes over concatenation: kept boxes stay in input order |
| `Detector.DetectionsAreKeptBoxes` | src/detector.py:72-91 | the nested loops equal one filter over the flattened box stream of all results |
| `Detector.KeptMembership` | src/detector.py:84-91 | a detection is produced exactly for some valid box, so rejected boxes contribute nothing |
| `Detector.KeptFields` | src/detector.py:84-90 | every kept detection has class name "person" and `x1 <= x2`, `y1 <= y2` |
| `Detector.DetectionsCharacterized` | src/detector.py:70-93 | a detection is in the result iff a valid box of some result maps to it (class id included), and every result is a "person" with an ordered box |
| `Detector.DegenerateBoxAfterTruncation` | src/detector.py:85-87 | the raw box (0.2, 0.2, 0.7, 0.7) passes the check and is returned as the integer box (0, 0, 0, 0) |
| `Detector.LabelY` | src/detector.py:145 | the label goes above the box (`text_y < y1`, and then `text_y - text_height > 0`) iff `y1 - 10 > text_height`; otherwise it goes below the top edge at `y1 + text_height + 10` |
| `Detector.AnnotationLength` | src/detector.py:119-166 | three primitives are drawn per detection |
| `Detector.AnnotationAt` | src/detector.py:119-166 | detection k owns primitives 3k..3k+2: its box rectangle, the filled background from `(x1, text_y - h - baseline)` to `(x1 + w + 4, text_y + baseline)`, and the text anchored at `(x1 + 2, text_y - 2)` |
| `Detector.DrawDetections` | src/detector.py:95-168 | the output keeps the input's pixels and appends exactly the annotation primitives; the caller's frame is a value and is never changed |
| `VideoProcessing.NewVideoProcessor` | src/video_processor.py:21-41 | construction succeeds iff the input path exists, and fails with FileNotFound of that path otherwise |
| `VideoProcessing.Capture.constructor` | src/video_processor.py:61 | an opened capture starts at the first frame of the stream, unreleased |
| `VideoProcessing.Capture.Read` | src/video_processor.py:103-106 | a read yields the next frame in decode order and advances, or reports no frame exactly when the stream is exhausted |
| `VideoProcessing.Capture.Release` | src/video_processor.py:155 | `cap.release()` marks the capture released |
| `VideoProcessing.Writer.constructor` | src/video_processor.py:82-87 | an opened writer for the output path starts with no frames written, unreleased |
| `VideoProcessing.Writer.Write` | src/video_processor.py:135 | a write appends the frame to the output log |
| `VideoProcessing.Writer.Release` | src/video_processor.py:156 | `out.release()` marks the writer released |
| `VideoProcessing.ProcessFrame` | src/video_processor.py:111-132 | for one frame: the person count is the number of detections, and the output frame is the annotated copy plus the FPS line when `show_fps` holds and a frame was timed before |
| `VideoProcessing.FrameLoop` | src/video_processor.py:94-152 | the loop ends only on an exhausted stream or the progress division error; the person-count series and the output log then hold one entry per frame processed, and the callback log one entry per 30 frames |
| `VideoProcessing.ProcessVideo` | src/video_processor.py:47-179 | the return value and the trace (written frames, callback calls, released handles) equal `Run` of the environment |
| `VideoProcessing.Run` | src/video_processor.py:47-179 | the outcome of a run as a function of its environment; both handles are released exactly when it returns statistics, and then `total_frames` is the number of frames written and `output_path` is the processor's output path |
| `VideoProcessing.ProgressEventsClosedForm` | src/video_processor.py:143-152 | n frames give n / 30 callback calls; call k is at frame 30(k+1), with the metadata total and the percentage current / total * 100 |
| `VideoProcessing.ProgressEventsIncreasing` | src/video_processor.py:143-152 | the callback's `current` values strictly increase |
| `VideoProcessing.NoEventsBeforeFirstInterval` | src/video_processor.py:144 | no callback call happens before frame 30 |
| `VideoProcessing.Max` | src/video_processor.py:163 | `max` of a non-empty series is one of its entries and bounds all of them from above |
| `VideoProcessing.Min` | src/video_processor.py:164 | `min` of a non-empty series is one of its entries and bounds all of them from below |
| `VideoProcessing.Mean` | src/video_processor.py:161-162 | the average times the count equals the sum |
| `VideoProcessing.Summarize` | src/video_processor.py:158-175 | `total_frames` is the series length; an empty series gives zero average, max and min; otherwise max and min are entries bounding the series; resolution and output path are carried over |
| `VideoProcessing.SumBounds` | src/video_processor.py:161-164 | entries between lo and hi give a sum between n·lo and n·hi |
| `VideoProcessing.DivBounds` | src/video_processor.py:161-162 | a sum between n·lo and n·hi, divided by n, lies between lo and hi |
| `VideoProcessing.SummaryOrdered` | src/video_processor.py:161-164 | for a non-empty series, `min_persons <= avg_persons <= max_persons` |
| `VideoProcessing.RunOutcome` | src/video_processor.py:61-156 | each error and its exact condition: input that cannot be opened, zero fps, output that cannot be opened, division by a zero total. Handles are released iff the run returns normally, and a run that fails before the loop writes nothing and calls nothing |
| `VideoProcessing.RunFrameBookkeeping` | src/video_processor.py:102-141 | a run completes iff the zero-total division does not occur, so there is no frame limit and no comparison with the metadata total. On completion `total_frames` equals the frames decoded and the frames written; each written frame keeps its input's pixels and carries three primitives per detection, plus one more for the FPS line |
| `VideoProcessing.OutputFrameShape` | src/video_processor.py:116-132 | the FPS line is drawn only when `show_fps` holds and i > 0, never on the first frame. It is the last primitive, at (10, 30), and its window length is `min(30, i)` |
| `VideoProcessing.RunCallbackCadence` | src/video_processor.py:143-152 | without a callback nothing is called; with one, a completed run of n frames makes n / 30 calls at frames 30, 60, …, in strictly increasing order, each with the metadata total |
| `VideoProcessing.RunZeroTotalDivides` | src/video_processor.py:144-145 | zero metadata total, a callback and at least 30 frames raise the division error at frame 30: 30 frames written, no callback call, no handle released |
| `VideoProcessing.RunEmptyStream` | src/video_processor.py:160-167 | an empty stream completes with zero frames and zero average, max and min, and with nothing written and nothing called |
| `VideoProcessing.RunSummaryOrdered` | src/video_processor.py:161-164 | a completed non-empty run reports `min_persons <= avg_persons <= max_persons` |

## Left out

- YOLO model loading, device selection and inference (`src/detector.py:36-49`, `61-68`) are foreign library calls. They are the abstract function `predict`, whose results already reflect the confidence, IoU and class filters.
- OpenCV decoding, encoding and rasterisation are not modelled. Frames are opaque pixel buffers plus a list of drawing primitives. `getTextSize` is the abstract function `textSize`.
- The writer's codec tag, fps and frame size are not recorded. The model does not check that output frames match the configured size.
- Wall-clock time and every float derived from it are not modelled: `processing_times` values, the FPS overlay's average, `current_fps`, `total_time` and `avg_fps`. The FPS line is modelled by its window length and person count. `processing_times` is modelled by its length.
- Float rounding and string formatting are not modelled. The label `f"{class_name}: {confidence:.2f}"` is the pair (class name, confidence), and the resolution string is the pair (width, height). The progress percentage is an exact rational number rather than an IEEE double.
- The source truncates OpenCV's float metadata with `int()` (`src/video_processor.py:69-72`). The model takes the resulting integers as inputs, so any integer can occur, including an fps of 0 from a fractional fps below 1.
- Console output is not modelled: every `print`, `_print_final_stats` and the duration line. Only the division the duration line performs is kept.
- Creating the output directory (`src/video_processor.py:44-45`) is a filesystem side effect that is left out. Whether a writer can open a path is the set `writable`.
- VideoProcessing.RunOutcome: the FPS overlay's `1.0 / (sum(window) / len(window))` (`src/video_processor.py:120-121`) raises a division error when every timed duration in the window is 0.0; durations are not modelled, so this error is not represented and the listed error conditions are exact only for non-zero durations.
- VideoProcessing.NewVideoProcessor: `mkdir(parents=True, exist_ok=True)` (`src/video_processor.py:45`) raises when the output directory cannot be created (for example when a parent is a regular file); directory creation is not modelled, so construction is modelled as failing only on a missing input path.
- Exceptions raised inside the detector, OpenCV or the callback are not modelled. The only exceptions modelled are the ones the core itself raises or triggers by its own arithmetic.
- The loop body of `process_video` is split across `FrameLoop` and `ProcessFrame` to keep each proof small. The observable effects (the write and the callback) happen in the source's order; the person count is appended after drawing rather than before, which nothing outside the loop can see.
- `get_model_info` (`src/detector.py:170-183`) only returns library attributes, so it is left out.
- `ProcessVideo` has no default arguments: `progress_callback=None` and `show_fps=True` (`src/video_processor.py:48-49`) are always passed explicitly as `hasCallback` and `showFps`.
- `src/main.py` (argument parsing, extension warning, progress-bar printing, exit codes) is not part of this model.
