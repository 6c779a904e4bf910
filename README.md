# Car tracking analytics, modelled in Dafny

This project models the analytics layer of `Track_and_Detect_Obj.py`, a
script that counts cars and estimates their speeds in a video. An external
detector and tracker (YOLO with BoT-SORT) supplies, for every frame, boxes
with a class and, usually, a persistent track id. On top of that output the
script keeps four pieces of state:

- `track_centroids`: the last centroid x of every id;
- `object_paths`: the list of centroids of every id;
- `unique_ids`: the ids already counted;
- `car_count`: the number of counted ids.

For each detection of the target class that has an id, the script does three
things:

- it appends the box centroid to the id's path;
- it counts the id once, the first time its centroid moves from strictly
  left of a vertical line at half the frame width to on or right of it;
- it draws a live speed, green up to 40 km/h and red above.

At the end it reports, for every id, the distance travelled along its path
in pixels and its average speed. The speed is the distance times the
metres-per-pixel ratio, divided by (path length in frames / fps).

The modules are:

- `Paths` (`paths.dfy`): centroids, path length as the sum of segment
  lengths, and `calculate_object_distances`. It is written as functions, with
  the source's accumulating loops as methods proved equal to them.
- `Speeds` (`speeds.dfy`): the speed formula, `calculate_object_speeds`
  (including its `ZeroDivisionError`), the live km/h value and the colour
  threshold.
- `Counting` (`counting.dfy`): the per-detection update as a transition
  `Step` on a value `State`. It is folded over detections (`Steps`) and over
  frames (`RunFrames`). The invariant `Inv` and the counting and trajectory
  lemmas are here.
- `Tracking` (`tracker.dfy`): the class `Tracker`. It holds the state that
  the source mutates in place. Its methods are proved against `Step`,
  `Steps` and `RunFrames`. `TrackAndCountCars` runs the whole pipeline over
  a sequence of frames and builds the final report.
- `Scenarios` (`scenarios.dfy`): concrete runs. They cover a crossing onto
  the line, a right-to-left move, an oscillating object, and one object
  followed end to end.

`math.hypot` is a parameter `hypot: (int, int) -> real`. Lemmas that need
it assume `NonNegative(hypot)` or `Euclidean(hypot)` (non-negative square
root of dx² + dy²). All other quantities are `real` or unbounded `int`.

## Model

| member | source | states |
|---|---|---|
| `Paths.PathLengthNonNegative` | Track_and_Detect_Obj.py:10-14 | The distance along any path is non-negative when segment lengths are. |
| `Paths.PathLengthAppend` | Track_and_Detect_Obj.py:10-14 | Appending one point raises the distance by exactly the length of the new last segment, so a running sum equals a recomputation. |
| `Paths.PathLengthPrefixMonotone` | Track_and_Detect_Obj.py:10-14 | A path is never shorter than any of its prefixes. |
| `Paths.ShortPathHasNoLength` | Track_and_Detect_Obj.py:10-11 | A path with fewer than two points has distance 0.0. |
| `Paths.EuclideanHorizontal` | Track_and_Detect_Obj.py:14 | Under a Euclidean `hypot`, a step of n pixels along x has length n. |
| `Paths.PathDistance` | Track_and_Detect_Obj.py:10-14 | The accumulating loop returns the sum of consecutive segment lengths (`PathLength`). |
| `Paths.ObjectDistances` | Track_and_Detect_Obj.py:7-16 | The result has exactly the ids of the input, and every path with fewer than two points maps to 0.0. |
| `Paths.ObjectDistancesNonNegative` | Track_and_Detect_Obj.py:9-15 | Every reported distance is non-negative. |
| `Paths.CalculateObjectDistances` | Track_and_Detect_Obj.py:7-16 | The dictionary-building loop returns `ObjectDistances` of its input. |
| `Speeds.Speed` | Track_and_Detect_Obj.py:27-30 | The speed is 0 when the time `frames / fps` is not positive. Otherwise speed × time = distance × ratio. |
| `Speeds.ObjectSpeeds` | Track_and_Detect_Obj.py:19-32 | `ZeroDivisionError` is raised exactly when fps is 0 and there is an id to process. Otherwise the result has exactly the ids of `distances`, each mapped to `Speed` of its distance and path length. |
| `Speeds.CalculateObjectSpeeds` | Track_and_Detect_Obj.py:19-32 | The loop, which raises on its first iteration when fps is 0, returns `ObjectSpeeds`. |
| `Speeds.LiveSpeedKmph` | Track_and_Detect_Obj.py:84-94 | The live value is 0.0 while the path has at most one point. Otherwise it is `Speed` of the whole path × 3.6, computed through one-entry dictionaries. |
| `Speeds.FirstSightingIsGreen` | Track_and_Detect_Obj.py:85-97 | An object seen once shows 0.0 km/h and a green label. |
| `Speeds.SpeedLinearInRatio` | Track_and_Detect_Obj.py:29-30 | Speed scales linearly with the metres-per-pixel ratio. |
| `Speeds.SpeedNonNegative` | Track_and_Detect_Obj.py:28-30 | A non-negative distance and ratio give a non-negative speed. |
| `Speeds.LiveSpeedAgreesWithReport` | Track_and_Detect_Obj.py:86-94 | For an unchanged path, the final report's speed × 3.6 equals the live value, including the one-point case. |
| `Counting.TruncHalf` | Track_and_Detect_Obj.py:69-70 | `int(n / 2)` truncates toward zero: the result has the sign of n and is within one half of n / 2. |
| `Counting.Centroid` | Track_and_Detect_Obj.py:68-70 | The integer centroid lies inside the box. |
| `Counting.Step` | Track_and_Detect_Obj.py:66-82 | An ignored detection changes nothing. The count grows by 0 or 1. Counted ids and path keys only grow. Every existing path is a prefix of its new value. |
| `Counting.InitialInv` | Track_and_Detect_Obj.py:50-53 | The empty start state satisfies the invariant. |
| `Counting.StepCountsIff` | Track_and_Detect_Obj.py:73-78 | The count rises exactly when four conditions hold: the detection is tracked, the id has a previous centroid, `prev_cx < line_x <= cx`, and the id is uncounted. The id is then added to the counted set, which otherwise stays the same. |
| `Counting.FirstSightingNeverCounts` | Track_and_Detect_Obj.py:73-76 | The first detection of an id never counts. |
| `Counting.SentinelIdIsIgnored` | Track_and_Detect_Obj.py:67-72 | A missing id and a tracker id of -1 both leave the state unchanged. |
| `Counting.RightToLeftNeverCounts` | Track_and_Detect_Obj.py:76 | A move that is not strictly-left to on-or-right never counts. |
| `Counting.StepRecords` | Track_and_Detect_Obj.py:72-82 | A tracked detection appends exactly its centroid to its id's path, creating the path if absent. It sets that id's centroid and leaves every other id's path and centroid untouched. Other detections change nothing. |
| `Counting.StepPreservesInv` | Track_and_Detect_Obj.py:72-82 | One update keeps the invariant: count = number of counted ids; only seen ids are counted; paths are non-empty and end at the last centroid; -1 has no path; the insertion order lists each key once. |
| `Counting.StepsPreservesInv` | Track_and_Detect_Obj.py:64-82 | Any sequence of updates keeps the invariant. |
| `Counting.StepsAppend` | Track_and_Detect_Obj.py:55-82 | Processing a + b is processing a and then b. |
| `Counting.RunFramesFlatten` | Track_and_Detect_Obj.py:55-82 | A run over frames equals the run over all their detections in arrival order. |
| `Counting.StepsCountedGrow` | Track_and_Detect_Obj.py:76-78 | Over any run the count never decreases and counted ids stay counted. Only ids that occur tracked become counted. |
| `Counting.StepsCountBound` | Track_and_Detect_Obj.py:76-78 | The count grows by exactly the number of newly counted ids, at most the number of distinct tracked ids seen. |
| `Counting.OneIdCountsAtMostOnce` | Track_and_Detect_Obj.py:76-78 | Detections of a single id add at most 1 to the count, however often it oscillates across the line, and nothing if it was already counted. |
| `Counting.StepsPath` | Track_and_Detect_Obj.py:80-82 | After a run, an id's path is its old path followed by the centroids of its tracked detections, in order. |
| `Counting.DistanceNeverDecreases` | Track_and_Detect_Obj.py:80-87 | The distance along an id's path never decreases during a run. |
| `Tracking.Tracker.constructor` | Track_and_Detect_Obj.py:44-53 | The line is at `int(width * 0.5)` and the state starts empty. |
| `Tracking.Tracker.ProcessDetection` | Track_and_Detect_Obj.py:66-97 | The new state is `Step` of the old one and the invariant holds. A tracked detection yields its id, its live speed and its colour. |
| `Tracking.Tracker.LiveSpeed` | Track_and_Detect_Obj.py:84-94 | The method computing the live speed returns `LiveSpeedKmph`. |
| `Tracking.Tracker.ProcessFrame` | Track_and_Detect_Obj.py:64-65 | The loop over a frame's boxes yields `Steps` of the old state. |
| `Tracking.Tracker.Run` | Track_and_Detect_Obj.py:55-58 | The loop over frames yields `RunFrames` of the old state. |
| `Tracking.Tracker.Report` | Track_and_Detect_Obj.py:113-121 | One entry per path key, in insertion order, each with the path's distance and speed × 3.6, plus the final count. |
| `Tracking.TrackAndCountCars` | Track_and_Detect_Obj.py:35-121 | Over a whole video, the total is the number of distinct ids counted. The report lists every tracked id exactly once, with its distance and speed. |
| `Scenarios.BoundaryIsInclusive` | Track_and_Detect_Obj.py:76 | A move from line_x - 10 to exactly line_x counts once. |
| `Scenarios.RightToLeftIsNotCounted` | Track_and_Detect_Obj.py:76 | A move from line_x + 10 to line_x - 10 does not count. |
| `Scenarios.OscillationCountsOnce` | Track_and_Detect_Obj.py:76-78 | Any sequence of positions of one id counts at most once. |
| `Scenarios.ObjectSevenEndToEnd` | Track_and_Detect_Obj.py:66-82 | Id 7 at x = 90, 100, 110 with the line at 100 is counted on the second frame. It travels 20 pixels, and at 10 fps and 0.01 m per pixel its speed is 2/3 m/s. |

## Left out

- Detection and tracking (YOLO, BoT-SORT) are an external collaborator. Their output is the input: a sequence of frames, each a sequence of detections with an optional id, an integer box and an integer class.
- Video I/O (`cv2.VideoCapture`, `VideoWriter`, reading, writing and releasing) is not modelled. The video is a sequence of frames, and fps and the frame width are parameters.
- All drawing is not modelled: the line, boxes, labels, centroid dots and the "Total Cars" banner. So is the text formatting of the final printout. What the drawing uses (id, live speed, colour) and what the report prints (distance, speed in km/h, count) are modelled.
- `math.hypot` and IEEE floating point are not modelled. The segment length is the parameter `hypot`, and all arithmetic is on exact reals.
- Float-to-int conversion of the tracker's box coordinates (`map(int, box.xyxy[0])`) and of the class value is not modelled. Boxes and classes are integers.
- Tracking.Tracker.constructor: requires fps != 0. With fps = 0 the source raises ZeroDivisionError at an object's second sighting and aborts the run. That error path is modelled only in `Speeds.ObjectSpeeds` and `Speeds.CalculateObjectSpeeds`.
- Speeds.ObjectSpeeds: requires every id of `distances` to have a path. The source raises KeyError otherwise, and both of its call sites meet this requirement.
- Counting.TruncHalf: exact for all integers. The source divides in floating point first, which is exact only below 2^53.
- Identity reuse by the tracker is not de-duplicated, as in the source. A reappearing id continues its old path and stays counted.
- The source validates nothing. It does not reject non-finite coordinates, has no "not found" query for distances, and does not check calibration values. The model follows the code.
