/** The state that track_and_count_cars in Track_and_Detect_Obj.py updates
    in place while it walks the frames of a video, and the end-of-run
    report built from it. */
module Tracking {
  import opened Paths
  import opened Speeds
  import opened Counting

  /** Default class index of the objects to count (target_class). */
  const DefaultTargetClass: int := 0

  /** Default real-world length of one pixel (real_world_length_per_pixel). */
  const DefaultRatio: real := 0.01

  /** What is drawn next to a tracked detection: its id, its live speed in
      km/h and whether the label is green (otherwise red). */
  datatype Annotation = Annotation(id: int, speedKmph: real, green: bool)

  /** One object of the final report: distance in pixels and speed in km/h. */
  datatype ReportEntry = ReportEntry(id: int, distancePixels: real, speedKmph: real)

  /** The mutable analytics context of one run. */
  class Tracker {
    const targetClass: int
    const lineX: int
    const fps: real
    const ratio: real
    const hypot: (int, int) -> real

    var trackCentroids: map<int, int>
    var objectPaths: map<int, seq<Point>>
    var pathOrder: seq<int>   // insertion order of the keys of objectPaths
    var uniqueIds: set<int>
    var carCount: int

    function Cfg(): Config
    {
      Config(targetClass, lineX)
    }

    ghost function Abstract(): State
      reads this
    {
      State(trackCentroids, objectPaths, pathOrder, uniqueIds, carCount)
    }

    ghost predicate Valid()
      reads this
    {
      fps != 0.0 && Inv(Abstract())
    }

    /** The set-up of track_and_count_cars: the counting line at half the
        frame width and empty analytics state. A frame rate of 0 would make
        the source raise ZeroDivisionError at an object's second sighting. */
    constructor (width: int, targetClass: int, fps: real, ratio: real, hypot: (int, int) -> real)
      requires fps != 0.0
      ensures Valid()
      ensures this.targetClass == targetClass && lineX == TruncHalf(width)
      ensures this.fps == fps && this.ratio == ratio && this.hypot == hypot
      ensures Abstract() == Initial()
    {
      this.targetClass := targetClass;
      lineX := TruncHalf(width);
      this.fps := fps;
      this.ratio := ratio;
      this.hypot := hypot;
      trackCentroids := map[];
      objectPaths := map[];
      pathOrder := [];
      uniqueIds := {};
      carCount := 0;
    }

    /** The body of the loop over the boxes of one frame. */
    method ProcessDetection(d: Detection) returns (ann: Option<Annotation>)
      requires Valid()
      modifies this
      ensures Valid()
      ensures Abstract() == Step(Cfg(), old(Abstract()), d)
      ensures !IsTracked(Cfg(), d) ==> ann == None
      ensures IsTracked(Cfg(), d) ==>
        var speedKmph := LiveSpeedKmph(hypot, TrackId(d), objectPaths[TrackId(d)], fps, ratio);
        ann == Some(Annotation(TrackId(d), speedKmph, ShownGreen(speedKmph)))
    {
      ghost var before := Abstract();
      ann := None;
      if d.cls == targetClass {
        var trackId := if d.id.Some? then d.id.value else Absent;
        var c := Centroid(d.box);
        if trackId != Absent {
          var prevCx := if trackId in trackCentroids then Some(trackCentroids[trackId]) else None;
          trackCentroids := trackCentroids[trackId := c.x];
          if prevCx.Some? && prevCx.value < lineX <= c.x && trackId !in uniqueIds {
            carCount := carCount + 1;
            uniqueIds := uniqueIds + {trackId};
          }
          if trackId !in objectPaths {
            objectPaths := objectPaths[trackId := []];
            pathOrder := pathOrder + [trackId];
          }
          objectPaths := objectPaths[trackId := objectPaths[trackId] + [c]];
          assert Abstract() == Step(Cfg(), before, d);
          var speedKmph := LiveSpeed(trackId, objectPaths[trackId]);
          ann := Some(Annotation(trackId, speedKmph, ShownGreen(speedKmph)));
        }
      }
      StepPreservesInv(Cfg(), before, d);
    }

    /** The live speed drawn for `id` once its path has been extended: 0.0
        until the path has two points, then both report functions applied to
        the one-entry dictionaries of `id`, converted to km/h. */
    method LiveSpeed(id: int, path: seq<Point>) returns (speedKmph: real)
      requires fps != 0.0
      ensures speedKmph == LiveSpeedKmph(hypot, id, path, fps, ratio)
    {
      speedKmph := 0.0;
      if |path| > 1 {
        var distances := CalculateObjectDistances(hypot, map[id := path]);
        var speeds := CalculateObjectSpeeds(map[id := distances[id]], map[id := path], fps, ratio);
        speedKmph := speeds.value[id] * KmphPerMps;
      }
    }

    /** The loop over the detections of one frame. */
    method ProcessFrame(boxes: seq<Detection>)
      requires Valid()
      modifies this
      ensures Valid()
      ensures Abstract() == Steps(Cfg(), old(Abstract()), boxes)
    {
      var i := 0;
      while i < |boxes|
        invariant 0 <= i <= |boxes|
        invariant Valid()
        invariant Abstract() == Steps(Cfg(), old(Abstract()), boxes[..i])
      {
        assert boxes[..i + 1][..i] == boxes[..i];
        var _ := ProcessDetection(boxes[i]);
        i := i + 1;
      }
      assert boxes[..i] == boxes;
    }

    /** The loop over the frames of the video, until the source is exhausted. */
    method Run(frames: seq<seq<Detection>>)
      requires Valid()
      modifies this
      ensures Valid()
      ensures Abstract() == RunFrames(Cfg(), old(Abstract()), frames)
    {
      var n := 0;
      while n < |frames|
        invariant 0 <= n <= |frames|
        invariant Valid()
        invariant Abstract() == RunFrames(Cfg(), old(Abstract()), frames[..n])
      {
        assert frames[..n + 1][..n] == frames[..n];
        ProcessFrame(frames[n]);
        n := n + 1;
      }
      assert frames[..n] == frames;
    }

    /** The final report: one entry per object, in the order objects were
        first seen, with its total distance and its speed in km/h, and the
        final count. */
    method Report() returns (entries: seq<ReportEntry>, total: int)
      requires Valid()
      ensures total == carCount
      ensures |entries| == |pathOrder|
      ensures forall i :: 0 <= i < |entries| ==>
        var id := pathOrder[i];
        var distance := PathLength(hypot, objectPaths[id]);
        entries[i] == ReportEntry(id, distance, Speed(distance, |objectPaths[id]|, fps, ratio) * KmphPerMps)
    {
      var distances := CalculateObjectDistances(hypot, objectPaths);
      var speeds := CalculateObjectSpeeds(distances, objectPaths, fps, ratio);
      entries := [];
      var i := 0;
      while i < |pathOrder|
        invariant 0 <= i <= |pathOrder|
        invariant |entries| == i
        invariant forall j :: 0 <= j < i ==>
          var id := pathOrder[j];
          var distance := PathLength(hypot, objectPaths[id]);
          entries[j] == ReportEntry(id, distance, Speed(distance, |objectPaths[id]|, fps, ratio) * KmphPerMps)
      {
        var id := pathOrder[i];
        entries := entries + [ReportEntry(id, distances[id], speeds.value[id] * KmphPerMps)];
        i := i + 1;
      }
      total := carCount;
    }
  }

  /** track_and_count_cars over a video given as its sequence of frames:
      the final report lists every object ever tracked exactly once, in the
      order it was first seen, and the total is the number of distinct
      objects that crossed the line from left to right. */
  method TrackAndCountCars(frames: seq<seq<Detection>>, width: int, targetClass: int, fps: real, ratio: real,
                           hypot: (int, int) -> real)
    returns (entries: seq<ReportEntry>, total: int)
    requires fps != 0.0
    ensures var final := RunFrames(Config(targetClass, TruncHalf(width)), Initial(), frames);
      && total == final.count == |final.counted|
      && |entries| == |final.order|
      && (forall id :: id in final.paths <==> exists i :: 0 <= i < |entries| && entries[i].id == id)
      && (forall i, j :: 0 <= i < j < |entries| ==> entries[i].id != entries[j].id)
      && forall i :: 0 <= i < |entries| ==>
           var path := final.paths[entries[i].id];
           entries[i].distancePixels == PathLength(hypot, path)
           && entries[i].speedKmph == Speed(PathLength(hypot, path), |path|, fps, ratio) * KmphPerMps
  {
    var tracker := new Tracker(width, targetClass, fps, ratio, hypot);
    tracker.Run(frames);
    entries, total := tracker.Report();
    ghost var final := tracker.Abstract();
    assert forall i :: 0 <= i < |entries| ==> entries[i].id == final.order[i];
  }
}
