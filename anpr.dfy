/**
 * The decision logic of SmartPark's number-plate reader (`ANPRDetector` in
 * plate_reader.py): which detector boxes count as cars, how plate boxes found
 * inside a car crop are moved back into frame coordinates, which OCR candidate
 * is read as the plate, which readings are accepted, and how each accepted
 * reading is numbered and stored.
 *
 * The two detection models and the OCR reader are black boxes: their outputs
 * are inputs here. The frame is represented by the marks drawn on it so far,
 * because `process_frame` draws on the frame it keeps reading from.
 */
module Anpr {
  import opened Optional

  /** COCO class index of `car`. */
  const CAR_CLASS: int := 2
  /** Detector confidence a car must exceed. */
  const CAR_MIN_CONF: real := 0.5
  /** OCR confidence an accepted reading must exceed. */
  const READ_MIN_CONF: real := 0.5
  /** Vertical offset of the label above a plate box. */
  const LABEL_LIFT: int := 10

  /** A box in pixel coordinates: top-left (x1, y1), bottom-right (x2, y2). */
  datatype Box = Box(x1: int, y1: int, x2: int, y2: int)

  /** A detector box as the model gives it, in floating-point coordinates. */
  datatype Corners = Corners(x1: real, y1: real, x2: real, y2: real)

  /** One entry of `result.boxes`: class index, confidence, `xyxy` corners. */
  datatype Detected = Detected(cls: real, conf: real, xyxy: Corners)

  /** One detector call: one result per image, each with boxes or `None`. */
  type DetectorOutput = seq<Option<seq<Detected>>>

  /** One OCR candidate `(polygon, text, confidence)`; the polygon is not used. */
  datatype OcrCandidate = OcrCandidate(text: string, conf: real)

  /** `read_plate_text`'s pair: no text and confidence 0 when OCR found nothing. */
  datatype PlateReading = PlateReading(text: Option<string>, conf: real)

  /** An accepted reading with the boxes it came from. */
  datatype Detection = Detection(plateText: string, conf: real, carBox: Box, plateBox: Box)

  /** A row of anpr_detections.csv. */
  datatype DetectionRecord = DetectionRecord(
    id: int,
    plateNumber: string,
    confidence: real,
    detectionTime: int,
    cameraLocation: string,
    isEmergency: bool,
    processed: bool)

  /** A BGR colour. */
  datatype Colour = Colour(b: int, g: int, r: int)
  const CAR_COLOUR: Colour := Colour(0, 255, 0)
  const PLATE_COLOUR: Colour := Colour(0, 0, 255)

  /** Something drawn on the frame: a rectangle, or a text label at (x, y). */
  datatype Mark = Rect(box: Box, colour: Colour) | Label(text: string, conf: real, x: int, y: int)

  /** The frame's state: the marks drawn on the captured image so far. */
  type Frame = seq<Mark>

  /** The plate model applied to the crop of the current frame under a car box. */
  type PlateModel = (Frame, Box) -> DetectorOutput
  /** The OCR reader applied to the crop of the current frame under a plate box. */
  type Reader = (Frame, Box) -> seq<OcrCandidate>

  // ---------------------------------------------------------------------
  // Detector output
  // ---------------------------------------------------------------------

  /** Python's `int()` on a float: truncation toward zero. */
  function Truncate(v: real): (n: int)
    ensures 0.0 <= v ==> n as real <= v < n as real + 1.0
    ensures v < 0.0 ==> n as real - 1.0 < v <= n as real
  {
    if 0.0 <= v then v.Floor else -((-v).Floor)
  }

  function ToBox(c: Corners): Box {
    Box(Truncate(c.x1), Truncate(c.y1), Truncate(c.x2), Truncate(c.y2))
  }

  /** The boxes of one result; a result whose `boxes` is None contributes none. */
  function BoxesOf(result: Option<seq<Detected>>): seq<Detected> {
    if result.Some? then result.value else []
  }

  /** All boxes of all results, in the order the detector returned them. */
  function Flatten(output: DetectorOutput): seq<Detected> {
    if output == [] then []
    else Flatten(output[..|output| - 1]) + BoxesOf(output[|output| - 1])
  }

  lemma FlattenStep(output: DetectorOutput, i: nat)
    requires i < |output|
    ensures Flatten(output[..i + 1]) == Flatten(output[..i]) + BoxesOf(output[i])
  {
    assert output[..i + 1][..i] == output[..i];
  }

  /** The car filter: class 2 (after truncation) with confidence above 0.5. */
  predicate IsCar(d: Detected) {
    Truncate(d.cls) == CAR_CLASS && d.conf > CAR_MIN_CONF
  }

  /** The boxes of the car detections, in detector order. */
  function CarBoxes(ds: seq<Detected>): (r: seq<Box>)
    ensures |r| <= |ds|
  {
    if ds == [] then []
    else
      var last := ds[|ds| - 1];
      CarBoxes(ds[..|ds| - 1]) + (if IsCar(last) then [ToBox(last.xyxy)] else [])
  }

  /** A box is listed exactly when some detection with that box passes the car filter. */
  lemma {:induction false} CarBoxesMembers(ds: seq<Detected>)
    ensures forall k :: 0 <= k < |ds| && IsCar(ds[k]) ==> ToBox(ds[k].xyxy) in CarBoxes(ds)
    ensures forall b :: b in CarBoxes(ds) ==> exists k :: 0 <= k < |ds| && IsCar(ds[k]) && ToBox(ds[k].xyxy) == b
    decreases |ds|
  {
    if ds != [] {
      var init := ds[..|ds| - 1];
      CarBoxesMembers(init);
      assert forall k :: 0 <= k < |init| ==> init[k] == ds[k];
    }
  }

  /** Filtering commutes with concatenation, so the filter keeps detector order. */
  lemma {:induction false} CarBoxesAppend(a: seq<Detected>, b: seq<Detected>)
    ensures CarBoxes(a + b) == CarBoxes(a) + CarBoxes(b)
    decreases |b|
  {
    if b == [] {
      assert a + b == a;
    } else {
      var init := b[..|b| - 1];
      assert (a + b)[..|a + b| - 1] == a + init;
      CarBoxesAppend(a, init);
    }
  }

  /** One more box of the current result, after the boxes already kept in `before`. */
  lemma CarBoxesStep(before: seq<Box>, boxes: seq<Detected>, j: nat)
    requires j < |boxes|
    ensures before + CarBoxes(boxes[..j + 1]) ==
      before + CarBoxes(boxes[..j]) + (if IsCar(boxes[j]) then [ToBox(boxes[j].xyxy)] else [])
  {
    assert boxes[..j + 1][..j] == boxes[..j];
  }

  /** The car boxes of one more result are those of the results before it, then its own. */
  lemma CarBoxesOfResults(output: DetectorOutput, i: nat)
    requires i < |output|
    ensures CarBoxes(Flatten(output[..i + 1])) == CarBoxes(Flatten(output[..i])) + CarBoxes(BoxesOf(output[i]))
  {
    FlattenStep(output, i);
    CarBoxesAppend(Flatten(output[..i]), BoxesOf(output[i]));
  }

  /** `detect_cars`: the car boxes among all the detector's results, in order. */
  method DetectCars(output: DetectorOutput) returns (carBoxes: seq<Box>)
    ensures carBoxes == CarBoxes(Flatten(output))
  {
    carBoxes := [];
    var i := 0;
    while i < |output|
      invariant 0 <= i <= |output|
      invariant carBoxes == CarBoxes(Flatten(output[..i]))
    {
      CarBoxesOfResults(output, i);
      var boxes := BoxesOf(output[i]);
      ghost var before := carBoxes;
      var j := 0;
      while j < |boxes|
        invariant 0 <= j <= |boxes|
        invariant carBoxes == before + CarBoxes(boxes[..j])
      {
        var box := boxes[j];
        CarBoxesStep(before, boxes, j);
        if IsCar(box) {
          carBoxes := carBoxes + [ToBox(box.xyxy)];
        }
        j := j + 1;
      }
      assert boxes[..j] == boxes;
      i := i + 1;
    }
    assert output[..i] == output;
  }

  /** The crop of `car` contains `p`, in crop coordinates. */
  predicate WithinCrop(car: Box, p: Box) {
    0 <= p.x1 && p.x2 <= car.x2 - car.x1 && 0 <= p.y1 && p.y2 <= car.y2 - car.y1
  }

  /** `b` lies inside `outer`. */
  predicate Inside(b: Box, outer: Box) {
    outer.x1 <= b.x1 && b.x2 <= outer.x2 && outer.y1 <= b.y1 && b.y2 <= outer.y2
  }

  /**
   * A plate box found in the crop of `car`, moved back to frame coordinates by
   * the crop's origin; a box inside the crop lands inside the car box, with
   * its size kept.
   */
  function ToFrame(car: Box, p: Box): (r: Box)
    ensures r.x2 - r.x1 == p.x2 - p.x1 && r.y2 - r.y1 == p.y2 - p.y1
    ensures WithinCrop(car, p) ==> Inside(r, car)
  {
    Box(car.x1 + p.x1, car.y1 + p.y1, car.x1 + p.x2, car.y1 + p.y2)
  }

  /** Every detector box of the car crop, in order, moved to frame coordinates. */
  function PlateBoxes(car: Box, ds: seq<Detected>): (r: seq<Box>)
    ensures |r| == |ds|
    ensures forall k :: 0 <= k < |ds| ==> r[k] == ToFrame(car, ToBox(ds[k].xyxy))
  {
    if ds == [] then []
    else
      var init := ds[..|ds| - 1];
      assert forall k :: 0 <= k < |init| ==> init[k] == ds[k];
      PlateBoxes(car, init) + [ToFrame(car, ToBox(ds[|ds| - 1].xyxy))]
  }

  /** Translating commutes with concatenation. */
  lemma {:induction false} PlateBoxesAppend(car: Box, a: seq<Detected>, b: seq<Detected>)
    ensures PlateBoxes(car, a + b) == PlateBoxes(car, a) + PlateBoxes(car, b)
    decreases |b|
  {
    if b == [] {
      assert a + b == a;
    } else {
      var init := b[..|b| - 1];
      assert (a + b)[..|a + b| - 1] == a + init;
      PlateBoxesAppend(car, a, init);
    }
  }

  /** One more box of the current result, after the boxes already translated in `before`. */
  lemma PlateBoxesStep(car: Box, before: seq<Box>, boxes: seq<Detected>, j: nat)
    requires j < |boxes|
    ensures before + PlateBoxes(car, boxes[..j + 1]) ==
      before + PlateBoxes(car, boxes[..j]) + [ToFrame(car, ToBox(boxes[j].xyxy))]
  {
    assert boxes[..j + 1][..j] == boxes[..j];
  }

  /** The plate boxes of one more result are those of the results before it, then its own. */
  lemma PlateBoxesOfResults(car: Box, output: DetectorOutput, i: nat)
    requires i < |output|
    ensures PlateBoxes(car, Flatten(output[..i + 1])) == PlateBoxes(car, Flatten(output[..i])) + PlateBoxes(car, BoxesOf(output[i]))
  {
    FlattenStep(output, i);
    PlateBoxesAppend(car, Flatten(output[..i]), BoxesOf(output[i]));
  }

  /** `detect_plates_in_car`: every box of the plate model's output, unfiltered, in frame coordinates. */
  method DetectPlatesInCar(car: Box, output: DetectorOutput) returns (plateBoxes: seq<Box>)
    ensures plateBoxes == PlateBoxes(car, Flatten(output))
  {
    plateBoxes := [];
    var i := 0;
    while i < |output|
      invariant 0 <= i <= |output|
      invariant plateBoxes == PlateBoxes(car, Flatten(output[..i]))
    {
      PlateBoxesOfResults(car, output, i);
      var boxes := BoxesOf(output[i]);
      ghost var before := plateBoxes;
      var j := 0;
      while j < |boxes|
        invariant 0 <= j <= |boxes|
        invariant plateBoxes == before + PlateBoxes(car, boxes[..j])
      {
        var p := ToBox(boxes[j].xyxy);
        PlateBoxesStep(car, before, boxes, j);
        plateBoxes := plateBoxes + [ToFrame(car, p)];
        j := j + 1;
      }
      assert boxes[..j] == boxes;
      i := i + 1;
    }
    assert output[..i] == output;
  }

  // ---------------------------------------------------------------------
  // Reading the plate text
  // ---------------------------------------------------------------------

  /** `max(results, key=conf)`: the first candidate whose confidence is maximal. */
  function BestIndex(cs: seq<OcrCandidate>): (k: nat)
    requires |cs| > 0
    ensures k < |cs|
    ensures forall i :: 0 <= i < |cs| ==> cs[i].conf <= cs[k].conf
    ensures forall i :: 0 <= i < k ==> cs[i].conf < cs[k].conf
  {
    if |cs| == 1 then 0
    else
      var best := BestIndex(cs[..|cs| - 1]);
      assert forall i :: 0 <= i < |cs| - 1 ==> cs[..|cs| - 1][i] == cs[i];
      if cs[|cs| - 1].conf > cs[best].conf then |cs| - 1 else best
  }

  /** `text.replace(' ', '')`: only the space character goes; other characters keep their order. */
  function RemoveSpaces(t: string): (r: string)
    ensures ' ' !in r
    ensures |r| <= |t|
    ensures ' ' !in t ==> r == t
  {
    if t == [] then []
    else
      assert t == [t[0]] + t[1..];
      (if t[0] == ' ' then [] else [t[0]]) + RemoveSpaces(t[1..])
  }

  /** Every character other than a space is kept as often as it occurs. */
  lemma {:induction false} RemoveSpacesKeepsOthers(t: string)
    ensures forall c :: c != ' ' ==> multiset(RemoveSpaces(t))[c] == multiset(t)[c]
  {
    if t != [] {
      RemoveSpacesKeepsOthers(t[1..]);
      assert t == [t[0]] + t[1..];
    }
  }

  /** Removing spaces commutes with concatenation: the kept characters stay in order. */
  lemma {:induction false} RemoveSpacesAppend(a: string, b: string)
    ensures RemoveSpaces(a + b) == RemoveSpaces(a) + RemoveSpaces(b)
  {
    if a == [] {
      assert a + b == b;
    } else {
      var head := if a[0] == ' ' then [] else [a[0]];
      assert (a + b)[0] == a[0];
      assert (a + b)[1..] == a[1..] + b;
      RemoveSpacesAppend(a[1..], b);
      assert head + (RemoveSpaces(a[1..]) + RemoveSpaces(b)) == head + RemoveSpaces(a[1..]) + RemoveSpaces(b);
    }
  }

  function UpperChar(c: char): (u: char)
    ensures !('a' <= u <= 'z')
    ensures 'a' <= c <= 'z' ==> u as int == c as int - 32
    ensures !('a' <= c <= 'z') ==> u == c
  {
    if 'a' <= c <= 'z' then (c as int - 32) as char else c
  }

  /** `str.upper()` on ASCII letters; every other character is kept. */
  function Upper(t: string): (r: string)
    ensures |r| == |t|
    ensures forall i :: 0 <= i < |t| ==> r[i] == UpperChar(t[i])
  {
    if t == [] then [] else [UpperChar(t[0])] + Upper(t[1..])
  }

  /** Plate text as stored: spaces removed, then upper-cased. */
  function Normalize(t: string): (r: string)
    ensures ' ' !in r
    ensures forall i :: 0 <= i < |r| ==> !('a' <= r[i] <= 'z')
    ensures |r| == |RemoveSpaces(t)|
  {
    var stripped := RemoveSpaces(t);
    var r := Upper(stripped);
    assert forall i :: 0 <= i < |r| ==> r[i] != ' ' by {
      forall i | 0 <= i < |r| ensures r[i] != ' ' {
        assert stripped[i] in stripped;
      }
    }
    r
  }

  /**
   * `read_plate_text`: no text and confidence 0 without candidates; otherwise
   * the normalised text and the confidence of the first most-confident
   * candidate, which is at least every candidate's confidence.
   */
  function ReadPlateText(cs: seq<OcrCandidate>): (r: PlateReading)
    ensures |cs| == 0 <==> r.text.None?
    ensures |cs| == 0 ==> r.conf == 0.0
    ensures forall i :: 0 <= i < |cs| ==> cs[i].conf <= r.conf
  {
    if |cs| > 0 then
      var best := cs[BestIndex(cs)];
      PlateReading(Some(Normalize(best.text)), best.conf)
    else
      PlateReading(None, 0.0)
  }

  /**
   * With candidates, the reading is that of a candidate: the first one no
   * other candidate beats, its text normalised and its confidence kept.
   */
  lemma ReadPlateTextIsFirstBest(cs: seq<OcrCandidate>)
    requires |cs| > 0
    ensures exists k :: && 0 <= k < |cs|
                        && ReadPlateText(cs) == PlateReading(Some(Normalize(cs[k].text)), cs[k].conf)
                        && (forall i :: 0 <= i < |cs| ==> cs[i].conf <= cs[k].conf)
                        && (forall i :: 0 <= i < k ==> cs[i].conf < cs[k].conf)
  {
    var k := BestIndex(cs);
    assert ReadPlateText(cs) == PlateReading(Some(Normalize(cs[k].text)), cs[k].conf);
  }

  /** `if plate_text and confidence > 0.5`. */
  predicate Accepted(r: PlateReading) {
    r.text.Some? && r.text.value != "" && r.conf > READ_MIN_CONF
  }

  // ---------------------------------------------------------------------
  // Frame processing
  // ---------------------------------------------------------------------

  /** What `process_frame` draws for an accepted detection. */
  function Annotation(d: Detection): seq<Mark> {
    [Rect(d.carBox, CAR_COLOUR), Rect(d.plateBox, PLATE_COLOUR),
     Label(d.plateText, d.conf, d.plateBox.x1, d.plateBox.y1 - LABEL_LIFT)]
  }

  function Annotations(ds: seq<Detection>): seq<Mark> {
    if ds == [] then [] else Annotation(ds[0]) + Annotations(ds[1..])
  }

  /** The frame and the detections `process_frame` returns. */
  datatype FrameResult = FrameResult(frame: Frame, detections: seq<Detection>)

  /**
   * The inner loop over the plates of one car, from plate `j` on: each plate
   * is read from the frame as drawn so far; an accepted reading becomes a
   * detection and is drawn before the next plate is read.
   */
  function ScanPlates(car: Box, plates: seq<Box>, j: nat, frame: Frame, reader: Reader): FrameResult
    requires j <= |plates|
    decreases |plates| - j
  {
    if j == |plates| then FrameResult(frame, [])
    else
      var reading := ReadPlateText(reader(frame, plates[j]));
      if Accepted(reading) then
        var d := Detection(reading.text.value, reading.conf, car, plates[j]);
        var rest := ScanPlates(car, plates, j + 1, frame + Annotation(d), reader);
        FrameResult(rest.frame, [d] + rest.detections)
      else
        ScanPlates(car, plates, j + 1, frame, reader)
  }

  /** The plates the plate model finds in `car`, in frame coordinates. */
  function PlatesOf(car: Box, frame: Frame, plateModel: PlateModel): seq<Box> {
    PlateBoxes(car, Flatten(plateModel(frame, car)))
  }

  /** The outer loop over the cars from car `i` on, each car's plates found in the frame as drawn so far. */
  function ScanCars(cars: seq<Box>, i: nat, frame: Frame, plateModel: PlateModel, reader: Reader): FrameResult
    requires i <= |cars|
    decreases |cars| - i
  {
    if i == |cars| then FrameResult(frame, [])
    else
      var here := ScanPlates(cars[i], PlatesOf(cars[i], frame, plateModel), 0, frame, reader);
      var rest := ScanCars(cars, i + 1, here.frame, plateModel, reader);
      FrameResult(rest.frame, here.detections + rest.detections)
  }

  /** A detection `process_frame` may return: non-empty, normalised text read with confidence above 0.5. */
  predicate WellFormed(d: Detection) {
    && d.plateText != ""
    && d.conf > READ_MIN_CONF
    && ' ' !in d.plateText
    && forall i :: 0 <= i < |d.plateText| ==> !('a' <= d.plateText[i] <= 'z')
  }

  /** Concatenation regrouped, stated once for frames. */
  lemma Regroup(frame: Frame, a: seq<Mark>, b: seq<Mark>)
    ensures frame + a + b == frame + (a + b)
  {
  }

  lemma AnnotationsAppend(a: seq<Detection>, b: seq<Detection>)
    ensures Annotations(a + b) == Annotations(a) + Annotations(b)
  {
    if a == [] {
      assert a + b == b;
    } else {
      assert (a + b)[1..] == a[1..] + b;
      AnnotationsAppend(a[1..], b);
    }
  }

  /**
   * Scanning one car's plates from plate `j` yields no more detections than
   * plates are left, only well-formed ones, all for that car and one of its
   * plates. `ScanPlatesInOrder` proves that each plate yields at most one.
   */
  lemma {:induction false} ScanPlatesSound(car: Box, plates: seq<Box>, j: nat, frame: Frame, reader: Reader)
    requires j <= |plates|
    ensures var r := ScanPlates(car, plates, j, frame, reader);
      && |r.detections| <= |plates| - j
      && (forall d :: d in r.detections ==> WellFormed(d) && d.carBox == car && d.plateBox in plates)
    decreases |plates| - j
  {
    if j < |plates| {
      var reading := ReadPlateText(reader(frame, plates[j]));
      if Accepted(reading) {
        var d := Detection(reading.text.value, reading.conf, car, plates[j]);
        ScanPlatesSound(car, plates, j + 1, frame + Annotation(d), reader);
      } else {
        ScanPlatesSound(car, plates, j + 1, frame, reader);
      }
    }
  }

  /** Scanning one car's plates draws exactly the annotations of its detections, in order. */
  lemma {:induction false} ScanPlatesDraws(car: Box, plates: seq<Box>, j: nat, frame: Frame, reader: Reader)
    requires j <= |plates|
    ensures var r := ScanPlates(car, plates, j, frame, reader);
      r.frame == frame + Annotations(r.detections)
    decreases |plates| - j
  {
    if j < |plates| {
      var reading := ReadPlateText(reader(frame, plates[j]));
      if Accepted(reading) {
        var d := Detection(reading.text.value, reading.conf, car, plates[j]);
        ScanPlatesDraws(car, plates, j + 1, frame + Annotation(d), reader);
        var rest := ScanPlates(car, plates, j + 1, frame + Annotation(d), reader);
        AnnotationsAppend([d], rest.detections);
        assert Annotations([d]) == Annotation(d);
        Regroup(frame, Annotation(d), Annotations(rest.detections));
      } else {
        ScanPlatesDraws(car, plates, j + 1, frame, reader);
      }
    }
  }

  /** `d` is the detection the OCR candidates `cs` for `plate` of `car` yield, and their reading is accepted. */
  predicate Reads(d: Detection, car: Box, plate: Box, cs: seq<OcrCandidate>) {
    var reading := ReadPlateText(cs);
    Accepted(reading) && d == Detection(reading.text.value, reading.conf, car, plate)
  }

  /** `d` is what reading `plate` of `car` from `frame` yields, and that reading is accepted. */
  predicate ReadFrom(d: Detection, car: Box, plate: Box, frame: Frame, reader: Reader) {
    Reads(d, car, plate, reader(frame, plate))
  }

  /**
   * `idx` picks, for each detection of `ds`, the plate it was read from: the
   * plates picked lie at or after `j`, in increasing order, so none twice,
   * and detection `k` is the accepted reading of its plate from the frame with
   * the detections before it drawn.
   */
  predicate PlateIndexes(idx: seq<nat>, ds: seq<Detection>, car: Box, plates: seq<Box>, j: nat, frame: Frame, reader: Reader) {
    && |idx| == |ds|
    && (forall k :: 0 <= k < |idx| ==> j <= idx[k] < |plates|)
    && (forall k, l :: 0 <= k < l < |idx| ==> idx[k] < idx[l])
    && (forall k :: 0 <= k < |idx| ==> ReadFrom(ds[k], car, plates[idx[k]], frame + Annotations(ds[..k]), reader))
  }

  /** The frame before detection `k + 1` of `[d] + rest` is the frame after `d` with `rest`'s first `k` drawn. */
  lemma DrawnBefore(frame: Frame, d: Detection, rest: seq<Detection>, k: nat)
    requires k <= |rest|
    ensures frame + Annotations(([d] + rest)[..k + 1]) == frame + Annotation(d) + Annotations(rest[..k])
  {
    var prefix := ([d] + rest)[..k + 1];
    assert prefix[0] == d && prefix[1..] == rest[..k];
    Regroup(frame, Annotation(d), Annotations(rest[..k]));
  }

  /** An accepted reading of plate `j` put in front of the detections of the plates after it. */
  lemma ConsIndexes(idx: seq<nat>, d: Detection, rest: seq<Detection>, car: Box, plates: seq<Box>, j: nat,
                    frame: Frame, reader: Reader)
    requires j < |plates|
    requires ReadFrom(d, car, plates[j], frame, reader)
    requires PlateIndexes(idx, rest, car, plates, j + 1, frame + Annotation(d), reader)
    ensures PlateIndexes([j] + idx, [d] + rest, car, plates, j, frame, reader)
  {
    var idx', ds := [j] + idx, [d] + rest;
    forall k | 0 <= k < |idx'|
      ensures ReadFrom(ds[k], car, plates[idx'[k]], frame + Annotations(ds[..k]), reader)
    {
      if k == 0 {
        assert ds[..k] == [];
        assert frame + Annotations(ds[..k]) == frame;
      } else {
        assert ds[k] == rest[k - 1] && idx'[k] == idx[k - 1];
        DrawnBefore(frame, d, rest, k - 1);
        assert frame + Annotations(ds[..k]) == frame + Annotation(d) + Annotations(rest[..k - 1]);
      }
    }
  }

  /**
   * Scanning one car's plates from plate `j` yields one detection for each of
   * some plates, in plate order and none twice, each the accepted reading of
   * its own plate from the frame as drawn so far.
   */
  lemma {:induction false} ScanPlatesInOrder(car: Box, plates: seq<Box>, j: nat, frame: Frame, reader: Reader)
    requires j <= |plates|
    ensures exists idx :: PlateIndexes(idx, ScanPlates(car, plates, j, frame, reader).detections, car, plates, j, frame, reader)
    decreases |plates| - j
  {
    if j == |plates| {
      assert ScanPlates(car, plates, j, frame, reader).detections == [];
      assert PlateIndexes([], [], car, plates, j, frame, reader);
    } else {
      var reading := ReadPlateText(reader(frame, plates[j]));
      if Accepted(reading) {
        var d := Detection(reading.text.value, reading.conf, car, plates[j]);
        var after := frame + Annotation(d);
        var rest := ScanPlates(car, plates, j + 1, after, reader).detections;
        ScanPlatesInOrder(car, plates, j + 1, after, reader);
        var idx :| PlateIndexes(idx, rest, car, plates, j + 1, after, reader);
        ConsIndexes(idx, d, rest, car, plates, j, frame, reader);
        assert ScanPlates(car, plates, j, frame, reader).detections == [d] + rest;
        assert PlateIndexes([j] + idx, [d] + rest, car, plates, j, frame, reader);
      } else {
        ScanPlatesInOrder(car, plates, j + 1, frame, reader);
        var idx :| PlateIndexes(idx, ScanPlates(car, plates, j + 1, frame, reader).detections, car, plates, j + 1, frame, reader);
        assert ScanPlates(car, plates, j, frame, reader) == ScanPlates(car, plates, j + 1, frame, reader);
        assert PlateIndexes(idx, ScanPlates(car, plates, j, frame, reader).detections, car, plates, j, frame, reader);
      }
    }
  }

  /** Every detection of a frame is well formed and belongs to one of the car boxes. */
  lemma {:induction false} ScanCarsSound(cars: seq<Box>, i: nat, frame: Frame, plateModel: PlateModel, reader: Reader)
    requires i <= |cars|
    ensures forall d :: d in ScanCars(cars, i, frame, plateModel, reader).detections ==> WellFormed(d) && d.carBox in cars
    decreases |cars| - i
  {
    if i < |cars| {
      var plates := PlatesOf(cars[i], frame, plateModel);
      var here := ScanPlates(cars[i], plates, 0, frame, reader);
      ScanPlatesSound(cars[i], plates, 0, frame, reader);
      ScanCarsSound(cars, i + 1, here.frame, plateModel, reader);
      var rest := ScanCars(cars, i + 1, here.frame, plateModel, reader);
      assert forall d :: d in here.detections + rest.detections ==> d in here.detections || d in rest.detections;
    }
  }

  /**
   * The frame a scan returns is the input frame with exactly the detections'
   * annotations drawn on it, in order.
   */
  lemma {:induction false} ScanCarsDraws(cars: seq<Box>, i: nat, frame: Frame, plateModel: PlateModel, reader: Reader)
    requires i <= |cars|
    ensures var r := ScanCars(cars, i, frame, plateModel, reader);
      r.frame == frame + Annotations(r.detections)
    decreases |cars| - i
  {
    if i < |cars| {
      var plates := PlatesOf(cars[i], frame, plateModel);
      var here := ScanPlates(cars[i], plates, 0, frame, reader);
      ScanPlatesDraws(cars[i], plates, 0, frame, reader);
      ScanCarsDraws(cars, i + 1, here.frame, plateModel, reader);
      var rest := ScanCars(cars, i + 1, here.frame, plateModel, reader);
      AnnotationsAppend(here.detections, rest.detections);
      Regroup(frame, Annotations(here.detections), Annotations(rest.detections));
    }
  }

  // ---------------------------------------------------------------------
  // A reference filter for process_frame
  // ---------------------------------------------------------------------

  /**
   * The plate pairs `process_frame` should report for `car`, stated as a plain
   * filter: one detection per plate whose reading is accepted, in plate order.
   * `rd` gives each plate's OCR candidates, the same whatever has been drawn.
   */
  function Pairs(car: Box, plates: seq<Box>, rd: Box -> seq<OcrCandidate>): seq<Detection> {
    if plates == [] then []
    else
      var reading := ReadPlateText(rd(plates[0]));
      (if Accepted(reading) then [Detection(reading.text.value, reading.conf, car, plates[0])] else [])
      + Pairs(car, plates[1..], rd)
  }

  /** A detection is reported for `car` exactly when some plate's reading is accepted and yields it. */
  lemma {:induction false} PairsMembers(car: Box, plates: seq<Box>, rd: Box -> seq<OcrCandidate>)
    ensures forall d :: d in Pairs(car, plates, rd) <==> exists k :: 0 <= k < |plates| && Reads(d, car, plates[k], rd(plates[k]))
  {
    if plates != [] {
      PairsMembers(car, plates[1..], rd);
      assert forall k :: 1 <= k < |plates| ==> plates[1..][k - 1] == plates[k];
      forall d | exists k :: 0 <= k < |plates| && Reads(d, car, plates[k], rd(plates[k]))
        ensures d in Pairs(car, plates, rd)
      {
        var k :| 0 <= k < |plates| && Reads(d, car, plates[k], rd(plates[k]));
        if k > 0 {
          assert Reads(d, car, plates[1..][k - 1], rd(plates[1..][k - 1]));
        }
      }
    }
  }

  /** The pairs for every car, car by car: the nested filter over cars and their plates. */
  function CarsPairs(cars: seq<Box>, pm: Box -> DetectorOutput, rd: Box -> seq<OcrCandidate>): seq<Detection> {
    if cars == [] then []
    else Pairs(cars[0], PlateBoxes(cars[0], Flatten(pm(cars[0]))), rd) + CarsPairs(cars[1..], pm, rd)
  }

  /** A detection is reported exactly when it is one of the pairs of some car. */
  lemma {:induction false} CarsPairsMembers(cars: seq<Box>, pm: Box -> DetectorOutput, rd: Box -> seq<OcrCandidate>)
    ensures forall d :: d in CarsPairs(cars, pm, rd) <==>
      exists c :: 0 <= c < |cars| && d in Pairs(cars[c], PlateBoxes(cars[c], Flatten(pm(cars[c]))), rd)
  {
    if cars != [] {
      CarsPairsMembers(cars[1..], pm, rd);
      assert forall c :: 1 <= c < |cars| ==> cars[1..][c - 1] == cars[c];
    }
  }

  /**
   * When what the plate model and the reader see does not depend on what has
   * been drawn, one car's plate loop reports exactly the filter of its plates.
   */
  lemma {:induction false} ScanPlatesIsFilter(car: Box, plates: seq<Box>, j: nat, frame: Frame, reader: Reader,
                                              rd: Box -> seq<OcrCandidate>)
    requires j <= |plates|
    requires forall f, b :: reader(f, b) == rd(b)
    ensures ScanPlates(car, plates, j, frame, reader).detections == Pairs(car, plates[j..], rd)
    decreases |plates| - j
  {
    if j < |plates| {
      assert plates[j..][0] == plates[j] && plates[j..][1..] == plates[j + 1..];
      var reading := ReadPlateText(reader(frame, plates[j]));
      if Accepted(reading) {
        var d := Detection(reading.text.value, reading.conf, car, plates[j]);
        ScanPlatesIsFilter(car, plates, j + 1, frame + Annotation(d), reader, rd);
      } else {
        ScanPlatesIsFilter(car, plates, j + 1, frame, reader, rd);
      }
    } else {
      assert plates[j..] == [];
    }
  }

  /**
   * Under the same condition, the car loop reports exactly the nested filter:
   * every car in order, and for each every plate whose reading is accepted.
   */
  lemma {:induction false} ScanCarsIsFilter(cars: seq<Box>, i: nat, frame: Frame, plateModel: PlateModel, reader: Reader,
                                            pm: Box -> DetectorOutput, rd: Box -> seq<OcrCandidate>)
    requires i <= |cars|
    requires forall f, c :: plateModel(f, c) == pm(c)
    requires forall f, b :: reader(f, b) == rd(b)
    ensures ScanCars(cars, i, frame, plateModel, reader).detections == CarsPairs(cars[i..], pm, rd)
    decreases |cars| - i
  {
    if i < |cars| {
      assert cars[i..][0] == cars[i] && cars[i..][1..] == cars[i + 1..];
      var here := ScanPlates(cars[i], PlatesOf(cars[i], frame, plateModel), 0, frame, reader);
      ScanPlatesIsFilter(cars[i], PlatesOf(cars[i], frame, plateModel), 0, frame, reader, rd);
      assert PlatesOf(cars[i], frame, plateModel)[0..] == PlatesOf(cars[i], frame, plateModel);
      ScanCarsIsFilter(cars, i + 1, here.frame, plateModel, reader, pm, rd);
    } else {
      assert cars[i..] == [];
    }
  }

  /** The record `save_detection` writes for a detection under id `id`. */
  function RecordOf(id: int, d: Detection, camera: string, time: int): DetectionRecord {
    DetectionRecord(id, d.plateText, d.conf, time, camera, false, false)
  }

  /** The records saving `ds` in order writes, the first under `firstId`, each next id one higher. */
  function Records(firstId: int, ds: seq<Detection>, camera: string, time: int): (r: seq<DetectionRecord>)
    ensures |r| == |ds|
  {
    if ds == [] then []
    else Records(firstId, ds[..|ds| - 1], camera, time) + [RecordOf(firstId + |ds| - 1, ds[|ds| - 1], camera, time)]
  }

  /**
   * Record `k` of a run of saves carries detection `k`'s plate and confidence
   * under id `firstId + k`: ids are consecutive and in detection order.
   */
  lemma {:induction false} RecordsConsecutive(firstId: int, ds: seq<Detection>, camera: string, time: int)
    ensures forall k :: 0 <= k < |ds| ==> Records(firstId, ds, camera, time)[k] == RecordOf(firstId + k, ds[k], camera, time)
    decreases |ds|
  {
    if ds != [] {
      var init := ds[..|ds| - 1];
      RecordsConsecutive(firstId, init, camera, time);
      assert forall k :: 0 <= k < |init| ==> init[k] == ds[k];
    }
  }

  /** Saving one more detection after the rows `base` appends its record under the next id. */
  lemma RecordsStep(base: seq<DetectionRecord>, firstId: int, ds: seq<Detection>, d: Detection, camera: string, time: int)
    ensures base + Records(firstId, ds + [d], camera, time) ==
      base + Records(firstId, ds, camera, time) + [RecordOf(firstId + |ds|, d, camera, time)]
  {
    assert (ds + [d])[..|ds|] == ds;
  }

  /** Saving `a` and then `b` writes the records of `a + b`, the ids of `b` continuing those of `a`. */
  lemma {:induction false} RecordsAppend(firstId: int, a: seq<Detection>, b: seq<Detection>, camera: string, time: int)
    ensures Records(firstId, a + b, camera, time) ==
      Records(firstId, a, camera, time) + Records(firstId + |a|, b, camera, time)
    decreases |b|
  {
    if b == [] {
      assert a + b == a;
    } else {
      var init := b[..|b| - 1];
      assert (a + b)[..|a + b| - 1] == a + init;
      RecordsAppend(firstId, a, init, camera, time);
    }
  }

  /** A scan result with the detections `done` already found put in front. */
  function After(done: seq<Detection>, r: FrameResult): FrameResult {
    FrameResult(r.frame, done + r.detections)
  }

  /** Reading plate `j` either records one more detection and draws it, or moves on. */
  lemma AfterPlate(done: seq<Detection>, car: Box, plates: seq<Box>, j: nat, frame: Frame, reader: Reader)
    requires j < |plates|
    ensures var reading := ReadPlateText(reader(frame, plates[j]));
      After(done, ScanPlates(car, plates, j, frame, reader)) ==
      if Accepted(reading) then
        var d := Detection(reading.text.value, reading.conf, car, plates[j]);
        After(done + [d], ScanPlates(car, plates, j + 1, frame + Annotation(d), reader))
      else
        After(done, ScanPlates(car, plates, j + 1, frame, reader))
  {
    var reading := ReadPlateText(reader(frame, plates[j]));
    if Accepted(reading) {
      var d := Detection(reading.text.value, reading.conf, car, plates[j]);
      var rest := ScanPlates(car, plates, j + 1, frame + Annotation(d), reader);
      assert done + ([d] + rest.detections) == done + [d] + rest.detections;
    }
  }

  /** Scanning car `i` puts its detections after `done` and hands its frame on to the cars after it. */
  lemma AfterCar(done: seq<Detection>, cars: seq<Box>, i: nat, frame: Frame, plateModel: PlateModel, reader: Reader)
    requires i < |cars|
    ensures var here := ScanPlates(cars[i], PlatesOf(cars[i], frame, plateModel), 0, frame, reader);
      After(done, ScanCars(cars, i, frame, plateModel, reader)) ==
      After(done + here.detections, ScanCars(cars, i + 1, here.frame, plateModel, reader))
  {
    var here := ScanPlates(cars[i], PlatesOf(cars[i], frame, plateModel), 0, frame, reader);
    var rest := ScanCars(cars, i + 1, here.frame, plateModel, reader);
    assert done + (here.detections + rest.detections) == done + here.detections + rest.detections;
  }

  // ---------------------------------------------------------------------
  // The detector object
  // ---------------------------------------------------------------------

  class AnprDetector {
    /** The id the next saved detection gets. */
    var detectionId: int
    /** anpr_detections.csv, oldest row first. */
    var store: seq<DetectionRecord>

    /** The counter starts at 1 whatever the store already holds. */
    constructor (existing: seq<DetectionRecord>)
      ensures detectionId == 1 && store == existing
    {
      detectionId := 1;
      store := existing;
    }

    /** Append one record carrying the current id, then advance the id by one. */
    method SaveDetection(plateText: string, confidence: real, cameraLocation: string, time: int)
      modifies this
      ensures store == old(store) + [DetectionRecord(old(detectionId), plateText, confidence, time, cameraLocation, false, false)]
      ensures detectionId == old(detectionId) + 1
    {
      store := store + [DetectionRecord(detectionId, plateText, confidence, time, cameraLocation, false, false)];
      detectionId := detectionId + 1;
    }

    /**
     * The body of `process_frame`'s plate loop for one plate: read it from the
     * frame as drawn so far; an accepted reading is saved, drawn and appended
     * to the detections of the frame so far. The ghost `base` and `firstId`
     * are the store and the id before the frame.
     */
    method ProcessPlate(car: Box, plate: Box, frame: Frame, detections: seq<Detection>, reader: Reader,
                        cameraLocation: string, time: int, ghost base: seq<DetectionRecord>, ghost firstId: int)
      returns (annotated: Frame, found: seq<Detection>)
      requires detectionId == firstId + |detections|
      requires store == base + Records(firstId, detections, cameraLocation, time)
      modifies this
      ensures var reading := ReadPlateText(reader(frame, plate));
        if Accepted(reading) then
          var d := Detection(reading.text.value, reading.conf, car, plate);
          annotated == frame + Annotation(d) && found == detections + [d]
        else
          annotated == frame && found == detections
      ensures detectionId == firstId + |found|
      ensures store == base + Records(firstId, found, cameraLocation, time)
    {
      annotated, found := frame, detections;
      var reading := ReadPlateText(reader(frame, plate));
      if reading.text.Some? && reading.text.value != "" && reading.conf > READ_MIN_CONF {
        var d := Detection(reading.text.value, reading.conf, car, plate);
        RecordsStep(base, firstId, detections, d, cameraLocation, time);
        SaveDetection(d.plateText, d.conf, cameraLocation, time);
        annotated := annotated + Annotation(d);
        found := found + [d];
      }
    }

    /**
     * The body of `process_frame`'s car loop for one car: find its plates in
     * the frame as drawn so far, then read each plate; an accepted reading is
     * saved, drawn and appended to the detections of the frame so far. The
     * ghost `base` and `firstId` are the store and the id before the frame.
     */
    method ProcessCar(car: Box, frame: Frame, detections: seq<Detection>, plateModel: PlateModel, reader: Reader,
                      cameraLocation: string, time: int, ghost base: seq<DetectionRecord>, ghost firstId: int)
      returns (annotated: Frame, found: seq<Detection>)
      requires detectionId == firstId + |detections|
      requires store == base + Records(firstId, detections, cameraLocation, time)
      modifies this
      ensures FrameResult(annotated, found) ==
        After(detections, ScanPlates(car, PlatesOf(car, frame, plateModel), 0, frame, reader))
      ensures detectionId == firstId + |found|
      ensures store == base + Records(firstId, found, cameraLocation, time)
    {
      var plates := DetectPlatesInCar(car, plateModel(frame, car));
      ghost var total := After(detections, ScanPlates(car, plates, 0, frame, reader));
      annotated, found := frame, detections;
      var j := 0;
      while j < |plates|
        invariant 0 <= j <= |plates|
        invariant After(found, ScanPlates(car, plates, j, annotated, reader)) == total
        invariant detectionId == firstId + |found|
        invariant store == base + Records(firstId, found, cameraLocation, time)
      {
        AfterPlate(found, car, plates, j, annotated, reader);
        annotated, found := ProcessPlate(car, plates[j], annotated, found, reader, cameraLocation, time, base, firstId);
        j := j + 1;
      }
      assert found + [] == found;
    }

    /**
     * `process_frame`'s car loop: each car in turn, its plates found and read in
     * the frame as drawn so far. The records saved are one per returned
     * detection, in the same order, with consecutive ids.
     */
    method ProcessCars(cars: seq<Box>, frame: Frame, plateModel: PlateModel, reader: Reader,
                       cameraLocation: string, time: int)
      returns (annotated: Frame, detections: seq<Detection>)
      modifies this
      ensures FrameResult(annotated, detections) == ScanCars(cars, 0, frame, plateModel, reader)
      ensures detectionId == old(detectionId) + |detections|
      ensures store == old(store) + Records(old(detectionId), detections, cameraLocation, time)
    {
      ghost var total := ScanCars(cars, 0, frame, plateModel, reader);
      annotated, detections := frame, [];
      assert After([], total) == total;
      assert old(store) + Records(old(detectionId), [], cameraLocation, time) == old(store);
      var i := 0;
      while i < |cars|
        invariant 0 <= i <= |cars|
        invariant After(detections, ScanCars(cars, i, annotated, plateModel, reader)) == total
        invariant detectionId == old(detectionId) + |detections|
        invariant store == old(store) + Records(old(detectionId), detections, cameraLocation, time)
      {
        AfterCar(detections, cars, i, annotated, plateModel, reader);
        annotated, detections := ProcessCar(cars[i], annotated, detections, plateModel, reader,
                                            cameraLocation, time, old(store), old(detectionId));
        i := i + 1;
      }
      assert detections + [] == detections;
    }

    /**
     * `process_frame`: cars outer, plates inner; every accepted reading is
     * saved, drawn on the frame and returned. Every detection returned is well
     * formed, the frame returned is the input frame with exactly their
     * annotations drawn, and the records saved are one per detection, in the
     * same order, with consecutive ids.
     */
    method ProcessFrame(frame: Frame, carOutput: DetectorOutput, plateModel: PlateModel, reader: Reader,
                        cameraLocation: string, time: int)
      returns (annotated: Frame, detections: seq<Detection>)
      modifies this
      ensures FrameResult(annotated, detections) == ScanCars(CarBoxes(Flatten(carOutput)), 0, frame, plateModel, reader)
      ensures forall d :: d in detections ==> WellFormed(d)
      ensures annotated == frame + Annotations(detections)
      ensures detectionId == old(detectionId) + |detections|
      ensures store == old(store) + Records(old(detectionId), detections, cameraLocation, time)
    {
      var cars := DetectCars(carOutput);
      annotated, detections := ProcessCars(cars, frame, plateModel, reader, cameraLocation, time);
      ScanCarsSound(cars, 0, frame, plateModel, reader);
      ScanCarsDraws(cars, 0, frame, plateModel, reader);
    }
  }
}
