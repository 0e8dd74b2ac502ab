/*
 * VideoProcessor: construction checks and the per-frame loop of process_video
 * with its progress-callback cadence and summary statistics.
 *
 * The file system and the video codec are the parameter `fs`: the paths that
 * exist, the videos a capture can open (metadata and decoded frames), and the
 * paths a writer can open. The progress callback is recorded as the list of
 * calls it received. Wall-clock time and every float derived from it are not
 * modelled; the rolling duration window is kept by its length only.
 */
module VideoProcessing {
  import opened Detector

  datatype Error =
    | FileNotFound(path: string)
    | CannotOpenInput(path: string)
    | CannotOpenOutput(path: string)
    | ZeroDivision

  datatype Result<T> = Ok(value: T) | Err(error: Error)

  /** Stream metadata, read once after opening (already converted with int()). */
  datatype Metadata = Metadata(fps: int, width: int, height: int, totalFrames: int)

  /** What a capture of one path yields: its metadata and its frames in decode order. */
  datatype VideoSource = VideoSource(meta: Metadata, frames: seq<Frame>)

  /** The environment: existing paths, openable videos, and paths a writer can create. */
  datatype FileSystem = FileSystem(existing: set<string>, videos: map<string, VideoSource>, writable: set<string>)

  datatype VideoProcessor = VideoProcessor(detector: PersonDetector, inputPath: string, outputPath: string)

  /** One progress_callback(progress, current, total, fps) call; fps is not modelled. */
  datatype ProgressEvent = ProgressEvent(percent: real, current: nat, total: int)

  datatype Resolution = Resolution(width: int, height: int)

  /** The stats dictionary, without total_time and avg_fps. */
  datatype Stats = Stats(totalFrames: nat, avgPersons: real, maxPersons: nat, minPersons: nat,
                         resolution: Resolution, outputPath: string)

  /** What an observer of one run sees besides the return value. */
  datatype Trace = Trace(written: seq<Frame>, events: seq<ProgressEvent>, inputReleased: bool, outputReleased: bool)

  /** Frames between progress callbacks. */
  const ProgressInterval: nat := 30
  /** Length of the trailing window of frame durations for the FPS overlay. */
  const FpsWindow: nat := 30
  const FpsOrigin: Point := Point(10, 30)
  const FpsFontScale: real := 0.7
  const FpsColor: Color := Color(255, 255, 255)
  const FpsThickness: int := 2

  // ---------------------------------------------------------------------------
  // Stream handles

  /** A cv2.VideoCapture that opened: it hands out the source's frames in order. */
  class Capture {
    const source: VideoSource
    var position: nat
    var released: bool

    ghost predicate Valid()
      reads this
    {
      position <= |source.frames|
    }

    constructor (source: VideoSource)
      ensures Valid() && this.source == source && position == 0 && !released
    {
      this.source := source;
      position := 0;
      released := false;
    }

    /** cap.read(): the next frame, or no frame once the stream is exhausted. */
    method Read() returns (ok: bool, frame: Frame)
      requires Valid()
      modifies this`position
      ensures Valid()
      ensures ok <==> old(position) < |source.frames|
      ensures ok ==> frame == source.frames[old(position)] && position == old(position) + 1
      ensures !ok ==> position == old(position)
    {
      ok := position < |source.frames|;
      if ok {
        frame := source.frames[position];
        position := position + 1;
      } else {
        frame := Frame([], []);
      }
    }

    method Release()
      modifies this`released
      ensures released
    {
      released := true;
    }
  }

  /** A cv2.VideoWriter that opened: an append-only log of written frames. */
  class Writer {
    const path: string
    var written: seq<Frame>
    var released: bool

    constructor (path: string)
      ensures this.path == path && written == [] && !released
    {
      this.path := path;
      written := [];
      released := false;
    }

    method Write(frame: Frame)
      modifies this`written
      ensures written == old(written) + [frame]
    {
      written := written + [frame];
    }

    method Release()
      modifies this`released
      ensures released
    {
      released := true;
    }
  }

  // ---------------------------------------------------------------------------
  // Construction

  /** VideoProcessor.__init__: fails when the input path does not exist. */
  function NewVideoProcessor(fs: FileSystem, detector: PersonDetector, inputPath: string, outputPath: string)
    : (r: Result<VideoProcessor>)
    ensures r.Ok? <==> inputPath in fs.existing
    ensures r.Ok? ==> r.value.detector == detector && r.value.inputPath == inputPath && r.value.outputPath == outputPath
    ensures r.Err? ==> r.error == FileNotFound(inputPath)
  {
    if inputPath !in fs.existing then Err(FileNotFound(inputPath))
    else Ok(VideoProcessor(detector, inputPath, outputPath))
  }

  // ---------------------------------------------------------------------------
  // Specification of the loop

  function MinNat(a: nat, b: nat): nat {
    if a <= b then a else b
  }

  /** The person count recorded for one frame. */
  function PersonCount(detector: PersonDetector, frame: Frame): nat {
    |Detections(detector.predict(frame))|
  }

  /** The frame written for the frame at decode index i (i frames were timed before it). */
  function OutputFrame(detector: PersonDetector, frame: Frame, i: nat, showFps: bool): Frame {
    var detections := Detections(detector.predict(frame));
    var annotated := frame.(drawn := frame.drawn + AnnotationCommands(detections, detector.textSize,
                                                                      DefaultLineThickness, DefaultFontScale));
    if showFps && i > 0 then
      Draw(annotated, PutText(FpsLabel(MinNat(FpsWindow, i), |detections|), FpsOrigin, FpsFontScale, FpsColor, FpsThickness))
    else annotated
  }

  /** The person-count series for the first n frames. */
  function PersonCounts(detector: PersonDetector, frames: seq<Frame>, n: nat): (counts: seq<nat>)
    requires n <= |frames|
  {
    seq(n, i requires 0 <= i < n => PersonCount(detector, frames[i]))
  }

  /** The output log for the first n frames. */
  function OutputFrames(detector: PersonDetector, frames: seq<Frame>, n: nat, showFps: bool): seq<Frame>
    requires n <= |frames|
  {
    seq(n, i requires 0 <= i < n => OutputFrame(detector, frames[i], i, showFps))
  }

  lemma PersonCountsSnoc(detector: PersonDetector, frames: seq<Frame>, n: nat)
    requires n < |frames|
    ensures PersonCounts(detector, frames, n + 1) == PersonCounts(detector, frames, n) + [PersonCount(detector, frames[n])]
  {
  }

  lemma OutputFramesSnoc(detector: PersonDetector, frames: seq<Frame>, n: nat, showFps: bool)
    requires n < |frames|
    ensures OutputFrames(detector, frames, n + 1, showFps)
         == OutputFrames(detector, frames, n, showFps) + [OutputFrame(detector, frames[n], n, showFps)]
  {
  }

  /** The call made at frame n: percentage n / total * 100, current n, the metadata total. */
  function Progress(n: nat, total: int): ProgressEvent
    requires total != 0
  {
    ProgressEvent(n as real / total as real * 100.0, n, total)
  }

  /** The callback calls made while the frame counter went from 1 to n. */
  function ProgressEvents(n: nat, total: int): seq<ProgressEvent>
    requires total != 0 || n < ProgressInterval
  {
    if n == 0 then []
    else
      ProgressEvents(n - 1, total)
      + (if n % ProgressInterval == 0 then [Progress(n, total)] else [])
  }

  /**
   * Closed form: n / 30 calls, the k-th at frame 30 * (k + 1), each with the
   * metadata total and the percentage current / total * 100.
   */
  lemma {:induction false} ProgressEventsClosedForm(n: nat, total: int)
    requires total != 0 || n < ProgressInterval
    ensures var es := ProgressEvents(n, total);
      |es| == n / ProgressInterval &&
      forall k :: 0 <= k < |es| ==>
        && es[k].current == ProgressInterval * (k + 1)
        && es[k].total == total
        && es[k].percent == es[k].current as real / total as real * 100.0
  {
    if n > 0 {
      ProgressEventsClosedForm(n - 1, total);
    }
  }

  /** No callback call happens before frame 30. */
  lemma {:induction false} NoEventsBeforeFirstInterval(n: nat, total: int)
    requires n < ProgressInterval
    ensures ProgressEvents(n, total) == []
  {
    if n > 0 {
      NoEventsBeforeFirstInterval(n - 1, total);
    }
  }

  /** The callback's current values strictly increase. */
  lemma ProgressEventsIncreasing(n: nat, total: int)
    requires total != 0 || n < ProgressInterval
    ensures var es := ProgressEvents(n, total);
      forall i, j :: 0 <= i < j < |es| ==> es[i].current < es[j].current
  {
    ProgressEventsClosedForm(n, total);
  }

  /** The first positive multiple of m is m itself. */
  lemma FirstMultiple(x: nat, m: nat)
    requires 0 < x <= m && x % m == 0
    ensures x == m
  {
  }

  /** True when the progress computation divides by a zero frame total. */
  predicate CrashesOnProgress(hasCallback: bool, total: int, n: nat) {
    hasCallback && total == 0 && n >= ProgressInterval
  }

  /** Frames processed before the loop ends, normally or by the division error. */
  function FramesProcessed(hasCallback: bool, total: int, n: nat): (p: nat)
    ensures p <= n
  {
    if CrashesOnProgress(hasCallback, total, n) then ProgressInterval else n
  }

  // ---------------------------------------------------------------------------
  // Summary statistics

  function Sum(s: seq<nat>): nat {
    if s == [] then 0 else Sum(s[..|s| - 1]) + s[|s| - 1]
  }

  /** max() of a non-empty series. */
  function Max(s: seq<nat>): (m: nat)
    requires s != []
    ensures m in s
    ensures forall i :: 0 <= i < |s| ==> s[i] <= m
  {
    if |s| == 1 then s[0]
    else
      var rest := Max(s[1..]);
      if s[0] > rest then s[0] else rest
  }

  /** min() of a non-empty series. */
  function Min(s: seq<nat>): (m: nat)
    requires s != []
    ensures m in s
    ensures forall i :: 0 <= i < |s| ==> m <= s[i]
  {
    if |s| == 1 then s[0]
    else
      var rest := Min(s[1..]);
      if s[0] < rest then s[0] else rest
  }

  /** The arithmetic mean of a non-empty series (Python's true division). */
  function Mean(s: seq<nat>): (avg: real)
    requires s != []
    ensures avg * (|s| as real) == Sum(s) as real
  {
    Sum(s) as real / |s| as real
  }

  /** The final stats of a run whose person-count series is `counts`. */
  function Summarize(counts: seq<nat>, meta: Metadata, outputPath: string): (st: Stats)
    ensures st.totalFrames == |counts|
    ensures counts == [] ==> st.avgPersons == 0.0 && st.maxPersons == 0 && st.minPersons == 0
    ensures counts != [] ==> st.avgPersons == Mean(counts)
    ensures counts != [] ==> st.maxPersons in counts && st.minPersons in counts
    ensures forall i :: 0 <= i < |counts| ==> st.minPersons <= counts[i] <= st.maxPersons
    ensures st.resolution == Resolution(meta.width, meta.height) && st.outputPath == outputPath
  {
    if counts == [] then Stats(0, 0.0, 0, 0, Resolution(meta.width, meta.height), outputPath)
    else Stats(|counts|, Mean(counts), Max(counts), Min(counts), Resolution(meta.width, meta.height), outputPath)
  }

  /** The series lies between lo and hi, so its sum lies between n*lo and n*hi. */
  lemma {:induction false} SumBounds(s: seq<nat>, lo: nat, hi: nat)
    requires forall i :: 0 <= i < |s| ==> lo <= s[i] <= hi
    ensures |s| * lo <= Sum(s) <= |s| * hi
  {
    if s != [] {
      var init := s[..|s| - 1];
      SumBounds(init, lo, hi);
      assert |s| * lo == |init| * lo + lo;
      assert |s| * hi == |init| * hi + hi;
    }
  }

  /** Dividing both bounds by a positive count. */
  lemma ScaleBounds(a: real, lo: real, hi: real, n: real)
    requires n > 0.0 && lo * n <= a * n <= hi * n
    ensures lo <= a <= hi
  {
  }

  /** An average of values between lo and hi lies between lo and hi. */
  lemma DivBounds(sum: nat, n: nat, lo: nat, hi: nat)
    requires n > 0 && n * lo <= sum <= n * hi
    ensures lo as real <= sum as real / n as real <= hi as real
  {
    var avg := sum as real / n as real;
    assert avg * n as real == sum as real;
    assert (n * lo) as real == n as real * lo as real;
    assert (n * hi) as real == n as real * hi as real;
    ScaleBounds(avg, lo as real, hi as real, n as real);
  }

  /** For a non-empty run: min_persons <= avg_persons <= max_persons. */
  lemma SummaryOrdered(counts: seq<nat>, meta: Metadata, outputPath: string)
    requires counts != []
    ensures var st := Summarize(counts, meta, outputPath);
      st.minPersons as real <= st.avgPersons <= st.maxPersons as real
  {
    var lo, hi := Min(counts), Max(counts);
    SumBounds(counts, lo, hi);
    DivBounds(Sum(counts), |counts|, lo, hi);
  }

  // ---------------------------------------------------------------------------
  // process_video

  /** No frames written, no callback calls, no handle released. */
  const NoTrace: Trace := Trace([], [], false, false)

  /**
   * The body of process_video's loop for one decoded frame, up to the write:
   * detect, record the count, annotate, and overlay the FPS line once at least
   * one earlier frame was timed (`timedFrames` is len(processing_times)).
   */
  method ProcessFrame(detector: PersonDetector, frame: Frame, timedFrames: nat, showFps: bool)
    returns (persons: nat, outputFrame: Frame)
    ensures persons == PersonCount(detector, frame)
    ensures outputFrame == OutputFrame(detector, frame, timedFrames, showFps)
  {
    var detections := DetectPersons(detector, frame);
    persons := |detections|;
    outputFrame := DrawDetections(detector, frame, detections, DefaultLineThickness, DefaultFontScale);
    if showFps && timedFrames > 0 {
      var window := MinNat(FpsWindow, timedFrames);
      outputFrame := Draw(outputFrame, PutText(FpsLabel(window, |detections|), FpsOrigin, FpsFontScale,
                                               FpsColor, FpsThickness));
    }
  }

  /**
   * The outcome of process_video(progress_callback, show_fps) as a function of
   * its environment: the return value (or the exception) and the trace.
   */
  function Run(vp: VideoProcessor, fs: FileSystem, hasCallback: bool, showFps: bool): (r: (Result<Stats>, Trace))
    ensures r.1.inputReleased == r.0.Ok? && r.1.outputReleased == r.0.Ok?
    ensures r.0.Ok? ==> r.0.value.totalFrames == |r.1.written| && r.0.value.outputPath == vp.outputPath
  {
    if vp.inputPath !in fs.videos then (Err(CannotOpenInput(vp.inputPath)), NoTrace)
    else
      var src := fs.videos[vp.inputPath];
      var total := src.meta.totalFrames;
      if src.meta.fps == 0 then (Err(ZeroDivision), NoTrace)
      else if vp.outputPath !in fs.writable then (Err(CannotOpenOutput(vp.outputPath)), NoTrace)
      else
        var n := FramesProcessed(hasCallback, total, |src.frames|);
        var written := OutputFrames(vp.detector, src.frames, n, showFps);
        if CrashesOnProgress(hasCallback, total, |src.frames|) then
          (Err(ZeroDivision), Trace(written, [], false, false))
        else
          (Ok(Summarize(PersonCounts(vp.detector, src.frames, n), src.meta, vp.outputPath)),
           Trace(written, if hasCallback then ProgressEvents(n, total) else [], true, true))
  }

  /**
   * The `while True` loop of process_video over an opened capture and writer.
   * It ends when the capture yields no frame, or with `divisionByZero` when a
   * progress percentage divides by a zero metadata total.
   */
  method FrameLoop(detector: PersonDetector, cap: Capture, out: Writer, hasCallback: bool, showFps: bool)
    returns (divisionByZero: bool, personCountStats: seq<nat>, events: seq<ProgressEvent>)
    requires cap.Valid() && cap.position == 0 && out.written == []
    modifies cap`position, out`written
    ensures cap.Valid()
    ensures var frames := cap.source.frames;
      var total := cap.source.meta.totalFrames;
      var n := FramesProcessed(hasCallback, total, |frames|);
      && divisionByZero == CrashesOnProgress(hasCallback, total, |frames|)
      && cap.position == n
      && personCountStats == PersonCounts(detector, frames, n)
      && out.written == OutputFrames(detector, frames, n, showFps)
      && events == if hasCallback && !divisionByZero then ProgressEvents(n, total) else []
  {
    ghost var frames := cap.source.frames;
    var total := cap.source.meta.totalFrames;
    var frameCount: nat := 0;
    personCountStats := [];
    var timedFrames: nat := 0;  // len(processing_times)
    events := [];
    divisionByZero := false;

    while true
      invariant cap.Valid() && cap.position == frameCount
      invariant timedFrames == frameCount
      invariant !CrashesOnProgress(hasCallback, total, frameCount)
      invariant personCountStats == PersonCounts(detector, frames, frameCount)
      invariant out.written == OutputFrames(detector, frames, frameCount, showFps)
      invariant hasCallback ==> events == ProgressEvents(frameCount, total)
      invariant !hasCallback ==> events == []
      decreases |frames| - cap.position
    {
      var ret, frame := cap.Read();
      if !ret {
        break;
      }
      var persons, outputFrame := ProcessFrame(detector, frame, timedFrames, showFps);
      personCountStats := personCountStats + [persons];
      PersonCountsSnoc(detector, frames, frameCount);
      OutputFramesSnoc(detector, frames, frameCount, showFps);
      out.Write(outputFrame);
      timedFrames := timedFrames + 1;
      frameCount := frameCount + 1;
      if hasCallback && frameCount % ProgressInterval == 0 {
        if total == 0 {
          // `progress = (frame_count / total_frames) * 100` raises here
          FirstMultiple(frameCount, ProgressInterval);
          NoEventsBeforeFirstInterval(frameCount - 1, total);
          divisionByZero := true;
          assert events == [];
          return;
        }
        events := events + [Progress(frameCount, total)];
      }
    }
  }

  /**
   * process_video(progress_callback, show_fps). `hasCallback` says whether a
   * callback was passed; the callback's calls are returned in `trace.events`.
   */
  method ProcessVideo(vp: VideoProcessor, fs: FileSystem, hasCallback: bool, showFps: bool)
    returns (result: Result<Stats>, trace: Trace)
    ensures (result, trace) == Run(vp, fs, hasCallback, showFps)
  {
    trace := NoTrace;
    if vp.inputPath !in fs.videos {
      return Err(CannotOpenInput(vp.inputPath)), trace;
    }
    var cap := new Capture(fs.videos[vp.inputPath]);
    var meta := cap.source.meta;
    if meta.fps == 0 {
      // the duration line divides total_frames by fps before the writer is created
      return Err(ZeroDivision), trace;
    }
    if vp.outputPath !in fs.writable {
      return Err(CannotOpenOutput(vp.outputPath)), trace;
    }
    var out := new Writer(vp.outputPath);

    var divisionByZero, personCountStats, events := FrameLoop(vp.detector, cap, out, hasCallback, showFps);
    if divisionByZero {
      return Err(ZeroDivision), Trace(out.written, events, false, false);
    }
    cap.Release();
    out.Release();
    result := Ok(Summarize(personCountStats, meta, vp.outputPath));
    trace := Trace(out.written, events, cap.released, out.released);
  }

  // ---------------------------------------------------------------------------
  // Properties of a run

  /** A run opens both streams when the input is a video, its fps is non-zero and the output is writable. */
  predicate Opens(vp: VideoProcessor, fs: FileSystem) {
    vp.inputPath in fs.videos && fs.videos[vp.inputPath].meta.fps != 0 && vp.outputPath in fs.writable
  }

  /**
   * Which error a run raises, and that the handles are released exactly on
   * normal loop exit.
   */
  lemma RunOutcome(vp: VideoProcessor, fs: FileSystem, hasCallback: bool, showFps: bool)
    ensures var (result, trace) := Run(vp, fs, hasCallback, showFps);
      && (result == Err(CannotOpenInput(vp.inputPath)) <==> vp.inputPath !in fs.videos)
      && (result == Err(CannotOpenOutput(vp.outputPath)) <==>
            vp.inputPath in fs.videos && fs.videos[vp.inputPath].meta.fps != 0 && vp.outputPath !in fs.writable)
      && (result == Err(ZeroDivision) <==>
            vp.inputPath in fs.videos &&
            (fs.videos[vp.inputPath].meta.fps == 0 ||
             (vp.outputPath in fs.writable &&
              CrashesOnProgress(hasCallback, fs.videos[vp.inputPath].meta.totalFrames, |fs.videos[vp.inputPath].frames|))))
      && (trace.inputReleased <==> result.Ok?)
      && (trace.outputReleased <==> result.Ok?)
      && (!Opens(vp, fs) ==> trace == NoTrace)
  {
  }

  /**
   * After a normal run, total_frames equals the frames decoded and the frames
   * written, and each written frame is its input annotated; the metadata total
   * plays no part. The person-count series itself is stated by FrameLoop.
   */
  lemma RunFrameBookkeeping(vp: VideoProcessor, fs: FileSystem, hasCallback: bool, showFps: bool)
    requires Opens(vp, fs)
    ensures var (result, trace) := Run(vp, fs, hasCallback, showFps);
      var frames := fs.videos[vp.inputPath].frames;
      && (result.Ok? <==> !CrashesOnProgress(hasCallback, fs.videos[vp.inputPath].meta.totalFrames, |frames|))
      && (result.Ok? ==>
            && result.value.totalFrames == |frames| == |trace.written|
            && (forall i :: 0 <= i < |frames| ==>
                  trace.written[i].pixels == frames[i].pixels &&
                  |trace.written[i].drawn| == |frames[i].drawn| + 3 * PersonCount(vp.detector, frames[i])
                                              + (if showFps && i > 0 then 1 else 0)))
  {
    var frames := fs.videos[vp.inputPath].frames;
    var written := OutputFrames(vp.detector, frames, |frames|, showFps);
    forall i | 0 <= i < |frames|
      ensures written[i].pixels == frames[i].pixels
      ensures |written[i].drawn|
              == |frames[i].drawn| + 3 * PersonCount(vp.detector, frames[i]) + (if showFps && i > 0 then 1 else 0)
    {
      OutputFrameShape(vp.detector, frames[i], i, showFps);
    }
  }

  /**
   * The frame written for decode index i: the input pixels, the annotation of
   * every detection, and the FPS line only when show_fps holds and i > 0,
   * averaging over min(30, i) timed frames.
   */
  lemma OutputFrameShape(detector: PersonDetector, frame: Frame, i: nat, showFps: bool)
    ensures var out := OutputFrame(detector, frame, i, showFps);
      var persons := PersonCount(detector, frame);
      && out.pixels == frame.pixels
      && |out.drawn| == |frame.drawn| + 3 * persons + (if showFps && i > 0 then 1 else 0)
      && (showFps && i > 0 ==>
            var fps := out.drawn[|out.drawn| - 1];
            fps.PutText? && fps.text == FpsLabel(MinNat(FpsWindow, i), persons) && fps.origin == FpsOrigin &&
            fps.text.windowLength <= FpsWindow && fps.text.windowLength <= i &&
            (i < FpsWindow ==> fps.text.windowLength == i))
  {
    var detections := Detections(detector.predict(frame));
    AnnotationLength(detections, detector.textSize, DefaultLineThickness, DefaultFontScale);
  }

  /**
   * With a callback, a completed run of n frames calls it n / 30 times, at
   * frames 30, 60, ..., always with the metadata total and the percentage
   * current / total * 100; without one it is never called.
   */
  lemma RunCallbackCadence(vp: VideoProcessor, fs: FileSystem, hasCallback: bool, showFps: bool)
    requires Opens(vp, fs)
    ensures var (result, trace) := Run(vp, fs, hasCallback, showFps);
      var src := fs.videos[vp.inputPath];
      var total := src.meta.totalFrames;
      var es := trace.events;
      && (!hasCallback ==> es == [])
      && (hasCallback && result.Ok? ==>
            && |es| == |src.frames| / ProgressInterval
            && (forall k :: 0 <= k < |es| ==>
                  es[k].current == ProgressInterval * (k + 1) && es[k].total == total &&
                  es[k].percent == es[k].current as real / total as real * 100.0)
            && (forall j, k :: 0 <= j < k < |es| ==> es[j].current < es[k].current))
  {
    var (result, trace) := Run(vp, fs, hasCallback, showFps);
    var src := fs.videos[vp.inputPath];
    if hasCallback && result.Ok? {
      ProgressEventsClosedForm(|src.frames|, src.meta.totalFrames);
    }
  }

  /**
   * A stream whose metadata reports 0 frames but that yields at least 30
   * frames, run with a callback, raises ZeroDivisionError at frame 30: 30
   * frames were written, the callback was never called, nothing is released.
   */
  lemma RunZeroTotalDivides(vp: VideoProcessor, fs: FileSystem, showFps: bool)
    requires Opens(vp, fs)
    requires fs.videos[vp.inputPath].meta.totalFrames == 0
    requires |fs.videos[vp.inputPath].frames| >= ProgressInterval
    ensures var (result, trace) := Run(vp, fs, true, showFps);
      && result == Err(ZeroDivision)
      && |trace.written| == ProgressInterval
      && trace.events == []
      && !trace.inputReleased && !trace.outputReleased
  {
  }

  /** An empty stream yields zero frames and all-zero person statistics, with no division. */
  lemma RunEmptyStream(vp: VideoProcessor, fs: FileSystem, hasCallback: bool, showFps: bool)
    requires Opens(vp, fs)
    requires fs.videos[vp.inputPath].frames == []
    ensures var (result, trace) := Run(vp, fs, hasCallback, showFps);
      && result.Ok?
      && result.value.totalFrames == 0
      && result.value.avgPersons == 0.0 && result.value.maxPersons == 0 && result.value.minPersons == 0
      && trace.written == [] && trace.events == []
  {
  }

  /** A completed non-empty run reports min_persons <= avg_persons <= max_persons. */
  lemma RunSummaryOrdered(vp: VideoProcessor, fs: FileSystem, hasCallback: bool, showFps: bool)
    requires Opens(vp, fs)
    ensures var (result, trace) := Run(vp, fs, hasCallback, showFps);
      result.Ok? && result.value.totalFrames > 0 ==>
        result.value.minPersons as real <= result.value.avgPersons <= result.value.maxPersons as real
  {
    var (result, trace) := Run(vp, fs, hasCallback, showFps);
    if result.Ok? && result.value.totalFrames > 0 {
      var src := fs.videos[vp.inputPath];
      var n := FramesProcessed(hasCallback, src.meta.totalFrames, |src.frames|);
      SummaryOrdered(PersonCounts(vp.detector, src.frames, n), src.meta, vp.outputPath);
    }
  }
}
