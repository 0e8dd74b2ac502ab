/*
 * PersonDetector: the person-box filter of detect_persons and the draw
 * sequence of draw_detections.
 *
 * The detection model itself (YOLO inference, thresholds, device) is the
 * abstract function `predict`; OpenCV's getTextSize is the abstract function
 * `textSize`. A frame is a value: its decoded pixels plus the list of drawing
 * primitives applied to it, in order.
 */
module Detector {

  datatype Option<T> = None | Some(value: T)

  /** One box as the model reports it: float corners, confidence, class id (a float tensor). */
  datatype RawBox = RawBox(x1: real, y1: real, x2: real, y2: real, conf: real, cls: real)

  /** One element of `model.predict(...)`; `boxes` is None when the result carries no boxes. */
  datatype PredictResult = PredictResult(boxes: Option<seq<RawBox>>)

  /** Integer pixel box `(x1, y1, x2, y2)`. */
  datatype BBox = BBox(x1: int, y1: int, x2: int, y2: int)

  /** The dictionary detect_persons returns for each kept box. */
  datatype Detection = Detection(bbox: BBox, confidence: real, className: string, classId: int)

  datatype Point = Point(x: int, y: int)

  /** BGR colour triple. */
  datatype Color = Color(b: int, g: int, r: int)

  /** What a text primitive writes: a detection caption `"<class>: <conf>"` or the FPS line. */
  datatype Label =
    | DetectionLabel(className: string, confidence: real)
    | FpsLabel(windowLength: nat, persons: nat)

  /** `((text_width, text_height), baseline)` as returned by getTextSize. */
  datatype TextExtent = TextExtent(width: nat, height: nat, baseline: nat)

  /** The OpenCV drawing primitives used: `rectangle` (thickness -1 fills) and `putText`. */
  datatype DrawCommand =
    | Rectangle(corner1: Point, corner2: Point, color: Color, thickness: int)
    | PutText(text: Label, origin: Point, fontScale: real, color: Color, thickness: int)

  /** A frame: decoded pixel buffer plus the primitives drawn onto it so far. */
  datatype Frame = Frame(pixels: seq<bv8>, drawn: seq<DrawCommand>)

  /** The detector: its model's predict call and the font metrics it draws with. */
  datatype PersonDetector = PersonDetector(
    predict: Frame -> seq<PredictResult>,
    textSize: (Label, real, int) -> TextExtent)

  const PersonClassName: string := "person"
  const BBoxColor: Color := Color(0, 255, 0)
  const TextBackgroundColor: Color := Color(0, 255, 0)
  const TextColor: Color := Color(0, 0, 0)
  /** OpenCV's thickness value for a filled rectangle. */
  const Filled: int := -1
  /** Defaults of draw_detections' line_thickness and font_scale. */
  const DefaultLineThickness: int := 2
  const DefaultFontScale: real := 0.6

  // ---------------------------------------------------------------------------
  // detect_persons

  /** Python's int() on a float: truncation toward zero. */
  function Trunc(r: real): (t: int)
    ensures 0.0 <= r ==> 0 <= t && t as real <= r < t as real + 1.0
    ensures r < 0.0 ==> t <= 0 && t as real - 1.0 < r <= t as real
  {
    if r >= 0.0 then r.Floor else -((-r).Floor)
  }

  lemma TruncMonotone(a: real, b: real)
    requires a <= b
    ensures Trunc(a) <= Trunc(b)
  {
  }

  /** The validity test of detect_persons, on the raw float coordinates. */
  predicate IsValidBox(b: RawBox) {
    b.x2 > b.x1 && b.y2 > b.y1
  }

  /** The record detect_persons builds for a kept box. */
  function ToDetection(b: RawBox): Detection {
    Detection(BBox(Trunc(b.x1), Trunc(b.y1), Trunc(b.x2), Trunc(b.y2)), b.conf, PersonClassName, Trunc(b.cls))
  }

  /** The boxes of one result; a missing boxes tensor contributes none. */
  function BoxesOf(r: PredictResult): seq<RawBox> {
    match r.boxes
    case None => []
    case Some(bs) => bs
  }

  /** The detections the inner loop appends for a list of boxes, in order. */
  function Kept(boxes: seq<RawBox>): (ds: seq<Detection>)
    ensures |ds| <= |boxes|
  {
    if boxes == [] then []
    else
      var last := boxes[|boxes| - 1];
      Kept(boxes[..|boxes| - 1]) + (if IsValidBox(last) then [ToDetection(last)] else [])
  }

  /** The detections the outer loop accumulates over a list of results. */
  function Detections(results: seq<PredictResult>): seq<Detection> {
    if results == [] then []
    else Detections(results[..|results| - 1]) + Kept(BoxesOf(results[|results| - 1]))
  }

  /** All boxes of all results, flattened in the order the model yields them. */
  function AllBoxes(results: seq<PredictResult>): seq<RawBox> {
    if results == [] then []
    else AllBoxes(results[..|results| - 1]) + BoxesOf(results[|results| - 1])
  }

  /** Filtering distributes over concatenation: kept boxes stay in input order. */
  lemma {:induction false} KeptAppend(a: seq<RawBox>, b: seq<RawBox>)
    ensures Kept(a + b) == Kept(a) + Kept(b)
  {
    if b == [] {
      assert a + b == a;
    } else {
      var b' := b[..|b| - 1];
      assert (a + b)[..|a + b| - 1] == a + b';
      assert (a + b)[|a + b| - 1] == b[|b| - 1];
      KeptAppend(a, b');
    }
  }

  /** The nested loops equal one filter over the flattened box stream. */
  lemma {:induction false} DetectionsAreKeptBoxes(results: seq<PredictResult>)
    ensures Detections(results) == Kept(AllBoxes(results))
  {
    if results != [] {
      var init := results[..|results| - 1];
      DetectionsAreKeptBoxes(init);
      KeptAppend(AllBoxes(init), BoxesOf(results[|results| - 1]));
    }
  }

  /** A detection is produced exactly for a valid box, and rejected boxes produce nothing. */
  lemma {:induction false} KeptMembership(boxes: seq<RawBox>, d: Detection)
    ensures d in Kept(boxes) <==> exists i :: 0 <= i < |boxes| && IsValidBox(boxes[i]) && ToDetection(boxes[i]) == d
  {
    if boxes != [] {
      var init := boxes[..|boxes| - 1];
      KeptMembership(init, d);
      if d in Kept(init) {
        var i :| 0 <= i < |init| && IsValidBox(init[i]) && ToDetection(init[i]) == d;
        assert boxes[i] == init[i];
      }
      if exists i :: 0 <= i < |boxes| && IsValidBox(boxes[i]) && ToDetection(boxes[i]) == d {
        var i :| 0 <= i < |boxes| && IsValidBox(boxes[i]) && ToDetection(boxes[i]) == d;
        if i < |init| {
          assert init[i] == boxes[i];
        }
      }
    }
  }

  /** Every kept detection is labelled "person" and its truncated box is ordered. */
  lemma {:induction false} KeptFields(boxes: seq<RawBox>)
    ensures forall d :: d in Kept(boxes) ==>
      d.className == PersonClassName && d.bbox.x1 <= d.bbox.x2 && d.bbox.y1 <= d.bbox.y2
  {
    forall d | d in Kept(boxes)
      ensures d.className == PersonClassName && d.bbox.x1 <= d.bbox.x2 && d.bbox.y1 <= d.bbox.y2
    {
      KeptMembership(boxes, d);
      var i :| 0 <= i < |boxes| && IsValidBox(boxes[i]) && ToDetection(boxes[i]) == d;
      TruncMonotone(boxes[i].x1, boxes[i].x2);
      TruncMonotone(boxes[i].y1, boxes[i].y2);
    }
  }

  /**
   * What detect_persons returns for a list of results: one detection per valid
   * box of the flattened stream (results without boxes contribute none), each
   * labelled "person" with an ordered integer box.
   */
  lemma DetectionsCharacterized(results: seq<PredictResult>, d: Detection)
    ensures var boxes := AllBoxes(results);
      && (d in Detections(results) <==>
            exists i :: 0 <= i < |boxes| && IsValidBox(boxes[i]) && ToDetection(boxes[i]) == d)
      && (d in Detections(results) ==>
            d.className == PersonClassName && d.bbox.x1 <= d.bbox.x2 && d.bbox.y1 <= d.bbox.y2)
  {
    DetectionsAreKeptBoxes(results);
    KeptMembership(AllBoxes(results), d);
    KeptFields(AllBoxes(results));
  }

  /** Truncation can collapse a valid raw box: the integer box is ordered, not strictly. */
  lemma DegenerateBoxAfterTruncation()
    ensures var b := RawBox(0.2, 0.2, 0.7, 0.7, 0.9, 0.0);
      IsValidBox(b) && Kept([b]) == [ToDetection(b)] && ToDetection(b).bbox == BBox(0, 0, 0, 0)
  {
    var b := RawBox(0.2, 0.2, 0.7, 0.7, 0.9, 0.0);
    assert Kept([b]) == Kept([]) + [ToDetection(b)];
  }

  /** detect_persons: run the model, keep valid boxes in model order. */
  method DetectPersons(detector: PersonDetector, frame: Frame) returns (detections: seq<Detection>)
    ensures detections == Detections(detector.predict(frame))
  {
    var results := detector.predict(frame);
    detections := [];
    var i := 0;
    while i < |results|
      invariant 0 <= i <= |results|
      invariant detections == Detections(results[..i])
    {
      assert results[..i + 1][..i] == results[..i];
      var result := results[i];
      if result.boxes.None? || |result.boxes.value| == 0 {
        i := i + 1;
        continue;
      }
      var boxes := result.boxes.value;
      ghost var before := detections;
      var j := 0;
      while j < |boxes|
        invariant 0 <= j <= |boxes|
        invariant detections == before + Kept(boxes[..j])
      {
        var box := boxes[j];
        assert boxes[..j + 1][..j] == boxes[..j];
        ghost var step := if IsValidBox(box) then [ToDetection(box)] else [];
        assert Kept(boxes[..j + 1]) == Kept(boxes[..j]) + step;
        if box.x2 > box.x1 && box.y2 > box.y1 {
          detections := detections + [Detection(
            BBox(Trunc(box.x1), Trunc(box.y1), Trunc(box.x2), Trunc(box.y2)),
            box.conf, PersonClassName, Trunc(box.cls))];
        }
        assert detections == before + Kept(boxes[..j]) + step;
        j := j + 1;
      }
      assert boxes[..j] == boxes;
      i := i + 1;
    }
    assert results[..i] == results;
  }

  // ---------------------------------------------------------------------------
  // draw_detections

  /** Draws one primitive onto a frame. */
  function Draw(frame: Frame, c: DrawCommand): Frame {
    frame.(drawn := frame.drawn + [c])
  }

  /** The baseline y of a caption: above the box when there is room, else below its top edge. */
  function LabelY(y1: int, textHeight: nat): (textY: int)
    ensures textY < y1 <==> y1 - 10 > textHeight
    ensures textY != y1
    ensures textY < y1 ==> textY == y1 - 10 && textY - textHeight > 0
    ensures textY > y1 ==> textY == y1 + textHeight + 10
  {
    if y1 - 10 > textHeight then y1 - 10 else y1 + textHeight + 10
  }

  /** The three primitives drawn for one detection. */
  function DetectionCommands(d: Detection, textSize: (Label, real, int) -> TextExtent,
                             lineThickness: int, fontScale: real): seq<DrawCommand>
  {
    var caption := DetectionLabel(d.className, d.confidence);
    var ext := textSize(caption, fontScale, lineThickness);
    var textY := LabelY(d.bbox.y1, ext.height);
    [ Rectangle(Point(d.bbox.x1, d.bbox.y1), Point(d.bbox.x2, d.bbox.y2), BBoxColor, lineThickness),
      Rectangle(Point(d.bbox.x1, textY - ext.height - ext.baseline),
                Point(d.bbox.x1 + ext.width + 4, textY + ext.baseline), TextBackgroundColor, Filled),
      PutText(caption, Point(d.bbox.x1 + 2, textY - 2), fontScale, TextColor, lineThickness) ]
  }

  /** All primitives drawn for a list of detections, in list order. */
  function AnnotationCommands(detections: seq<Detection>, textSize: (Label, real, int) -> TextExtent,
                              lineThickness: int, fontScale: real): seq<DrawCommand>
  {
    if detections == [] then []
    else
      AnnotationCommands(detections[..|detections| - 1], textSize, lineThickness, fontScale)
      + DetectionCommands(detections[|detections| - 1], textSize, lineThickness, fontScale)
  }

  /** Detection k owns commands 3k..3k+2: its box, then a filled caption background, then the caption text. */
  lemma {:induction false} AnnotationAt(detections: seq<Detection>, textSize: (Label, real, int) -> TextExtent,
                                        lineThickness: int, fontScale: real, k: nat)
    requires k < |detections|
    ensures var cs := AnnotationCommands(detections, textSize, lineThickness, fontScale);
      var d := detections[k];
      var caption := DetectionLabel(d.className, d.confidence);
      var ext := textSize(caption, fontScale, lineThickness);
      var textY := LabelY(d.bbox.y1, ext.height);
      |cs| == 3 * |detections| &&
      cs[3 * k] == Rectangle(Point(d.bbox.x1, d.bbox.y1), Point(d.bbox.x2, d.bbox.y2), BBoxColor, lineThickness) &&
      cs[3 * k + 1].Rectangle? && cs[3 * k + 1].thickness == Filled &&
      cs[3 * k + 1].corner1 == Point(d.bbox.x1, textY - ext.height - ext.baseline) &&
      cs[3 * k + 1].corner2 == Point(d.bbox.x1 + ext.width + 4, textY + ext.baseline) &&
      cs[3 * k + 2] == PutText(caption, Point(d.bbox.x1 + 2, textY - 2), fontScale, TextColor, lineThickness)
  {
    AnnotationLength(detections, textSize, lineThickness, fontScale);
    var init := detections[..|detections| - 1];
    if k < |init| {
      AnnotationAt(init, textSize, lineThickness, fontScale, k);
      assert init[k] == detections[k];
    } else {
      AnnotationLength(init, textSize, lineThickness, fontScale);
    }
  }

  lemma {:induction false} AnnotationLength(detections: seq<Detection>, textSize: (Label, real, int) -> TextExtent,
                                            lineThickness: int, fontScale: real)
    ensures |AnnotationCommands(detections, textSize, lineThickness, fontScale)| == 3 * |detections|
  {
    if detections != [] {
      AnnotationLength(detections[..|detections| - 1], textSize, lineThickness, fontScale);
    }
  }

  /** draw_detections: draw onto a copy of the frame; the caller's frame is a value and is never changed. */
  method DrawDetections(detector: PersonDetector, frame: Frame, detections: seq<Detection>,
                        lineThickness: int, fontScale: real) returns (output: Frame)
    ensures output.pixels == frame.pixels
    ensures output.drawn == frame.drawn + AnnotationCommands(detections, detector.textSize, lineThickness, fontScale)
  {
    output := frame;
    var i := 0;
    while i < |detections|
      invariant 0 <= i <= |detections|
      invariant output.pixels == frame.pixels
      invariant output.drawn == frame.drawn + AnnotationCommands(detections[..i], detector.textSize, lineThickness, fontScale)
    {
      assert detections[..i + 1][..i] == detections[..i];
      var d := detections[i];
      var BBox(x1, y1, x2, y2) := d.bbox;
      output := Draw(output, Rectangle(Point(x1, y1), Point(x2, y2), BBoxColor, lineThickness));
      var caption := DetectionLabel(d.className, d.confidence);
      var ext := detector.textSize(caption, fontScale, lineThickness);
      var textY := LabelY(y1, ext.height);
      output := Draw(output, Rectangle(Point(x1, textY - ext.height - ext.baseline),
                                       Point(x1 + ext.width + 4, textY + ext.baseline), TextBackgroundColor, Filled));
      output := Draw(output, PutText(caption, Point(x1 + 2, textY - 2), fontScale, TextColor, lineThickness));
      i := i + 1;
    }
    assert detections[..i] == detections;
  }
}
