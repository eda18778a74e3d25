# SmartPark parking core and ANPR decision logic, in Dafny

SmartPark is a small parking-management application. This project models two
parts of it and proves properties of the model.

* **The parking tables** (`web.py`, module `Parking` in `parking.dfy`). The
  `ParkingDatabase` object keeps a spot table and a reservation history, each
  a CSV file. Here each table is a sequence-valued field of the class. The
  model covers seeding forty spots (zones A, B, S, E, ten each, ids `A01` to
  `E10`), appending a reservation numbered one past the history's length, the
  masked overwrite of every spot row with a given id, and the expiry sweep.
  The sweep marks active reservations that ended before "now" as `expired`
  and frees their spots. It writes the history back only when something
  changed. Also covered: the quick reservation, which takes the first
  available spot in table order for an hour, and the shape of the random
  plate it invents.
* **The number-plate reader** (`plate_reader.py`, module `Anpr` in
  `anpr.dfy`). The `ANPRDetector` keeps a detection counter and an
  append-only detections file; here these are the fields `detectionId` and
  `store` of a class. The model covers:
  * filtering car detections (class 2, confidence above 0.5, coordinates
    truncated toward zero);
  * moving plate boxes from car-crop to frame coordinates;
  * picking the first most-confident OCR candidate and normalising its text;
  * saving a detection under the current id;
  * `process_frame`, which runs cars outer and plates inner. Every reading
    with non-empty text and confidence above 0.5 is saved, drawn on the frame
    in place, and returned.

The neural networks and the OCR engine are not modelled. Their outputs are
inputs to the model. The plate model and the OCR reader are function
parameters applied to the frame *as drawn so far*. This keeps a behaviour of
the code: boxes drawn for one plate are visible in the crops read after it.
Timestamps are integers (seconds). An empty `reserved_until` cell is `None`.

The model follows the code in these behaviours, which a reader might not expect:

* `process_frame` draws on the caller's frame, not on a copy.
* `process_frame` saves every accepted detection itself.
* Only the space character is removed from plate text.
* Car boxes keep the detector's order and are not sorted.
* Plate boxes are not filtered by confidence or class.
* The detection counter restarts at 1 on every construction, even when the
  file already holds rows. Ids can therefore repeat across restarts
  (`Anpr.AnprDetector.constructor`).

## Model

| member | source | states |
|---|---|---|
| Parking.TwoDigits | web.py:52 | `:02` formatting: exactly two decimal digits whose numeric value is the input |
| Parking.SpotId | web.py:52 | a spot id is the zone followed by two digits, and the spot number can be read back from it |
| Parking.SeededSpot | web.py:50-57 | (definition) row k of the seeded table: zone k/10, number k%10+1, available, empty plate, holder and expiry |
| Parking.SeededIdsDistinct | web.py:48-57 | no two seeded spots share an id, so a masked update of the seeded table hits one row |
| Parking.ParkingDatabase.InitializeParkingSpots | web.py:47-58 | the spot table becomes exactly the 40 seeded rows, zone by zone, numbers 1 to 10, all available with empty holder fields; the history is untouched |
| Parking.ParkingDatabase.constructor | web.py:11-29 | an existing spot table or history is kept; a missing spot table is seeded; a missing history starts empty |
| Parking.ApplyMask | web.py:86-94 | same row count; every row with the id gets the four new values; every other row is unchanged |
| Parking.Overwritten | web.py:89-92 | (definition) one row after the masked writes: status, plate, holder and expiry replaced, every other column kept |
| Parking.ParkingDatabase.UpdateSpotStatus | web.py:86-94 | the spot table becomes the masked update of the old one; the history is unchanged |
| Parking.ParkingDatabase.AddReservation | web.py:69-84 | appends one active row with id length+1, ending `duration` minutes after now; reserves its spot for that plate and holder until then; keeps ids sequential |
| Parking.Expires | web.py:101 | (definition) the sweep's test: status `active` and end time strictly before now |
| Parking.Freed | web.py:103-109 | (definition) the release the sweep requests: status `available`, empty plate and holder, no expiry |
| Parking.ExpireRows | web.py:100-102 | exactly the active rows with end time before now become `expired`; every other row is unchanged |
| Parking.FreeSpots | web.py:100-109 | after visiting rows in order, a spot is freed exactly when some expiring row names it, and every other spot is untouched |
| Parking.SweepIsIdempotent | web.py:96-112 | a second sweep at the same time changes neither table |
| Parking.ParkingDatabase.SweepRow | web.py:100-110 | one sweep step: the row is expired and its spot freed exactly when it is due |
| Parking.ParkingDatabase.CleanExpiredReservations | web.py:96-112 | the history becomes the expired rows, the spot table becomes the freed spots, and sequential ids are preserved |
| Parking.FirstAvailable | web.py:137-143 | None exactly when no spot is available; otherwise the index of an available spot with no available spot before it |
| Parking.ParkingDatabase.AutoAssign | web.py:137-154 | with no available spot nothing changes; otherwise the first available spot is reserved for an hour under the generated plate with the fixed customer fields, and its id is returned |
| Parking.RandomPlate | web.py:130-133 | a generated plate is three upper-case letters followed by four digits |
| Parking.RandomPlateCoversShape | web.py:130-133 | every plate of that shape is generated by the picks read back from it |
| Anpr.Truncate | plate_reader.py:43-44 | Python `int()` on a float truncates toward zero, for either sign |
| Anpr.IsCar | plate_reader.py:43 | (definition) the car filter: truncated class 2 and confidence strictly above 0.5 |
| Anpr.ToBox | plate_reader.py:44 | (definition) `map(int, box.xyxy[0])`: each corner coordinate truncated toward zero; line 63 uses it the same way |
| Anpr.BoxesOf | plate_reader.py:39-40 | (definition) a result whose `boxes` is None contributes no box; lines 59-60 make the same test |
| Anpr.Flatten | plate_reader.py:38-41 | (definition) every box of every result, results in order and boxes in order within each; lines 58-61 traverse the same way |
| Anpr.CarBoxes | plate_reader.py:38-45 | the car filter keeps at most as many boxes as detections |
| Anpr.CarBoxesMembers | plate_reader.py:43-45 | a box is kept exactly when some detection with that box is class 2 with confidence above 0.5 |
| Anpr.CarBoxesAppend | plate_reader.py:38-47 | the filter commutes with concatenation, so detector order is kept |
| Anpr.DetectCars | plate_reader.py:33-47 | the loop over results and boxes returns the car filter of all boxes, in order; a result without boxes adds none |
| Anpr.ToFrame | plate_reader.py:51-64 | a plate box keeps its size when moved to frame coordinates; a box within the crop lands inside the car box |
| Anpr.PlateBoxes | plate_reader.py:58-64 | one frame box per detector box, position by position, with no filtering |
| Anpr.PlateBoxesAppend | plate_reader.py:58-66 | translating commutes with concatenation |
| Anpr.DetectPlatesInCar | plate_reader.py:49-66 | the loop returns every box of every result, translated, in order |
| Anpr.BestIndex | plate_reader.py:78 | `max` with a key: the candidate's confidence is at least every other's, and every earlier candidate's is strictly lower |
| Anpr.RemoveSpaces | plate_reader.py:79 | no space is left, the text does not grow, and text without spaces is unchanged |
| Anpr.RemoveSpacesKeepsOthers | plate_reader.py:79 | every character other than a space is kept as often as it occurs |
| Anpr.RemoveSpacesAppend | plate_reader.py:79 | removing spaces commutes with concatenation, so the kept characters stay in order |
| Anpr.UpperChar | plate_reader.py:79 | a lower-case ASCII letter becomes its capital; every other character is kept |
| Anpr.Upper | plate_reader.py:79 | ASCII upper-casing keeps the length and maps each character independently |
| Anpr.Normalize | plate_reader.py:79 | normalised text has no space and no lower-case ASCII letter, and is as long as the text without spaces |
| Anpr.ReadPlateText | plate_reader.py:68-83 | no text and confidence 0 exactly when there are no candidates; the confidence returned is at least every candidate's |
| Anpr.ReadPlateTextIsFirstBest | plate_reader.py:76-81 | with candidates, the reading is the normalised text and confidence of the first candidate no other beats |
| Anpr.Accepted | plate_reader.py:118 | (definition) a reading is kept when it has non-empty text and confidence strictly above 0.5 |
| Anpr.Annotation | plate_reader.py:123-126 | (definition) a detection draws the car box in green, the plate box in red and its label 10 pixels above the plate |
| Anpr.Annotations | plate_reader.py:122-126 | (definition) the marks a run of detections draws: each detection's annotation, in order |
| Anpr.ScanPlates | plate_reader.py:114-133 | (definition) the plate loop for one car: each plate read from the frame as drawn so far; an accepted reading is recorded and drawn before the next plate |
| Anpr.PlatesOf | plate_reader.py:112 | (definition) the plates of one car: the plate model run on the frame as drawn so far, its boxes moved to frame coordinates |
| Anpr.ScanCars | plate_reader.py:110-133 | (definition) the car loop: each car's plates found in the frame as drawn so far, its detections before those of later cars |
| Anpr.RecordOf | plate_reader.py:91-99 | (definition) the row saved for a detection: id, text, confidence, time, camera, and both flags false |
| Anpr.Records | plate_reader.py:85-101 | saving a run of detections writes one record per detection |
| Anpr.RecordsConsecutive | plate_reader.py:85-101 | record k carries detection k's text and confidence under id first+k, with the camera and time, and is not flagged |
| Anpr.RecordsStep | plate_reader.py:92-101 | saving one more detection appends its record under the next id |
| Anpr.RecordsAppend | plate_reader.py:92-101 | saving one run and then another equals saving both, with the second run's ids continuing the first's |
| Anpr.AnprDetector.constructor | plate_reader.py:31 | the counter starts at 1 and existing rows are kept |
| Anpr.AnprDetector.SaveDetection | plate_reader.py:85-101 | appends exactly one unflagged record under the current id, then advances the id by one |
| Anpr.ScanPlatesSound | plate_reader.py:114-133 | one car's plate loop yields no more detections than plates left, each well formed, for that car and with a plate box from its plates |
| Anpr.ScanPlatesInOrder | plate_reader.py:114-133 | the plate loop's detections come from distinct plates in plate order, each the accepted reading of its own plate from the frame with the earlier detections drawn |
| Anpr.ScanPlatesDraws | plate_reader.py:118-126 | one car's plate loop draws exactly its detections' boxes and labels, in order, on the frame it was given |
| Anpr.ScanCarsSound | plate_reader.py:110-133 | every detection of a frame is well formed and belongs to one of the car boxes |
| Anpr.ScanCarsDraws | plate_reader.py:110-126 | the returned frame is the input frame with exactly the detections' annotations drawn, in order |
| Anpr.Pairs | plate_reader.py:114-118 | (definition) reference filter: one detection per plate whose reading is accepted, in plate order |
| Anpr.CarsPairs | plate_reader.py:110-118 | (definition) nested reference filter: each car's pairs, car by car |
| Anpr.PairsMembers | plate_reader.py:114-118 | the reference filter reports a detection exactly when some plate's reading is accepted and yields it |
| Anpr.CarsPairsMembers | plate_reader.py:110-118 | the nested reference filter reports a detection exactly when it is reported for some car |
| Anpr.ScanPlatesIsFilter | plate_reader.py:114-133 | when readings do not depend on what is drawn, the plate loop reports exactly the reference filter of the plates, in order |
| Anpr.ScanCarsIsFilter | plate_reader.py:110-133 | when detections and readings do not depend on what is drawn, the car loop reports exactly the nested filter over cars and their plates |
| Anpr.AfterPlate | plate_reader.py:114-133 | reading one plate either records one detection and draws it, or moves on with the frame unchanged |
| Anpr.AfterCar | plate_reader.py:110-133 | one car's detections precede those of the cars after it, which are read in the frame as that car left it |
| Anpr.AnprDetector.ProcessPlate | plate_reader.py:116-133 | an accepted reading is saved under the next id, drawn and appended; any other reading changes nothing |
| Anpr.AnprDetector.ProcessCar | plate_reader.py:112-133 | one car's plates are read in order, and the result and the saved records are those of the plate loop |
| Anpr.AnprDetector.ProcessCars | plate_reader.py:108-135 | the car loop returns the scan of all cars; one record is saved per detection, in order, with consecutive ids |
| Anpr.AnprDetector.ProcessFrame | plate_reader.py:103-135 | returns the scan of the filtered cars; every detection is well formed; the frame gains exactly their annotations; the store gains exactly their records under consecutive ids |

## Left out

- The Streamlit pages, the admin login with its SHA-256 password hash, the dashboard charts and the manual reservation form are user interface, not table logic.
- `admin.py` and `entrypoint.py` are not part of this model.
- The emergency-vehicle and admin-user tables are only created and never updated by the modelled operations.
- The module-level `update_spot_status` (web.py:113-121) is an unreachable copy of the method and is modelled once.
- CSV reading and writing, `os.makedirs` and file-existence checks: each file is a sequence field, and the constructor takes the optional stored tables.
- The fallback of `get_reservations_history` to an empty frame on a read error is not modelled; the history is always readable.
- Clocks: `datetime.now()` and `time.strftime` become an integer `now` or `time` parameter. `ProcessFrame` stamps every record of one frame with one time.
- The `last_updated` and `created_at` stamps are not modelled.
- Anpr.AnprDetector.SaveDetection: does not model `round(confidence, 3)`; the confidence is stored unrounded, because real rounding to decimals is not meaningful over Dafny's exact reals.
- Parking.RandomPlate: the random source is not modelled; the letter and digit picks are parameters.
- YOLO and EasyOCR are not modelled; their outputs are inputs. Image crops are not computed; the models receive the frame drawn so far and the box.
- OpenCV pixels, fonts and line widths: a frame is the sequence of rectangles and labels drawn on it. The label's two-decimal formatting is not modelled; it carries the confidence.
- The default camera name `Camera_1` is not modelled; the camera is always passed.
- `run_camera` and `process_image` (camera capture, windows, file loading) are I/O around `process_frame`.
- Anpr.UpperChar: upper-cases ASCII letters only; Python's full Unicode `upper()` is not modelled.
- Anpr.Upper: inherits the ASCII-only mapping; Python's `upper()` can change the length (`'ß'` becomes `'SS'`), which this model does not.
- Anpr.Normalize: excludes only lower-case ASCII letters from the result, for the same reason.
- Anpr.ScanCarsIsFilter: the equality with the plain nested filter is stated only when the plate model and the reader ignore what has been drawn. Boxes drawn in place can change later reads; for that general case the loops equal ScanCars, and Anpr.ScanPlatesInOrder gives the order and the source of each detection.
- Anpr.AnprDetector.ProcessCar, Anpr.AnprDetector.ProcessPlate, Anpr.AnprDetector.ProcessCars and Parking.ParkingDatabase.SweepRow are the bodies or loops of `process_frame` and `clean_expired_reservations`, written as methods of their own. Their ghost parameters name the state before the frame or sweep.
