/** Converting a pixel distance and a frame count into a real-world speed
    (calculate_object_speeds and the live annotation in
    Track_and_Detect_Obj.py). */
module Speeds {
  import opened Paths

  /** Factor from metres per second to kilometres per hour. */
  const KmphPerMps: real := 3.6

  /** Live labels at or below this many km/h are drawn green, above it red. */
  const GreenLimitKmph: real := 40.0

  /** calculate_object_speeds either returns its dictionary or raises
      ZeroDivisionError while dividing a frame count by a frame rate of 0. */
  datatype Result<T> = Ok(value: T) | ZeroDivisionError

  /** Speed of one object: its distance in real units over the time its path
      spans, `numFrames / fps` seconds; 0 when that time is not positive. */
  function Speed(distancePixels: real, numFrames: nat, fps: real, ratio: real): (r: real)
    requires fps != 0.0
    ensures numFrames as real / fps <= 0.0 ==> r == 0.0
    ensures numFrames as real / fps > 0.0 ==> r * (numFrames as real / fps) == distancePixels * ratio
  {
    var time := numFrames as real / fps;
    if time > 0.0 then distancePixels * ratio / time else 0.0
  }

  /** calculate_object_speeds as a value. Every id of `distances` must have a
      path (otherwise the source raises KeyError); a frame rate of 0 raises
      ZeroDivisionError as soon as there is one id to process. */
  function ObjectSpeeds(distances: map<int, real>, paths: map<int, seq<Point>>, fps: real, ratio: real)
    : (r: Result<map<int, real>>)
    requires distances.Keys <= paths.Keys
    ensures r.ZeroDivisionError? <==> fps == 0.0 && distances != map[]
    ensures r.Ok? ==> r.value.Keys == distances.Keys
    ensures r.Ok? ==> forall id :: id in r.value ==>
              fps != 0.0 && r.value[id] == Speed(distances[id], |paths[id]|, fps, ratio)
  {
    if fps == 0.0 then
      if distances == map[] then Ok(map[]) else ZeroDivisionError
    else
      Ok(map id | id in distances :: Speed(distances[id], |paths[id]|, fps, ratio))
  }

  /** The loop of calculate_object_speeds, which raises on its first
      iteration when the frame rate is 0. */
  method CalculateObjectSpeeds(distances: map<int, real>, paths: map<int, seq<Point>>, fps: real, ratio: real)
    returns (r: Result<map<int, real>>)
    requires distances.Keys <= paths.Keys
    ensures r == ObjectSpeeds(distances, paths, fps, ratio)
  {
    var speeds: map<int, real> := map[];
    var remaining := distances.Keys;
    while remaining != {}
      invariant remaining <= distances.Keys
      invariant speeds.Keys == distances.Keys - remaining
      invariant remaining == distances.Keys || fps != 0.0
      invariant forall id :: id in speeds ==> fps != 0.0 && speeds[id] == Speed(distances[id], |paths[id]|, fps, ratio)
      decreases remaining
    {
      ghost var some := MemberOf(remaining);
      var id :| id in remaining;
      var numFrames := |paths[id]|;
      if fps == 0.0 {
        assert distances != map[];
        return ZeroDivisionError;
      }
      var timeSeconds := numFrames as real / fps;
      var distanceRealWorld := distances[id] * ratio;
      var speed := if timeSeconds > 0.0 then distanceRealWorld / timeSeconds else 0.0;
      assert speed == Speed(distances[id], numFrames, fps, ratio);
      speeds := speeds[id := speed];
      remaining := remaining - {id};
    }
    assert speeds.Keys == distances.Keys;
    if fps == 0.0 {
      assert distances == map[];
      assert speeds == map[];
    } else {
      assert forall id :: id in speeds ==>
        speeds[id] == ObjectSpeeds(distances, paths, fps, ratio).value[id];
      assert speeds == ObjectSpeeds(distances, paths, fps, ratio).value;
    }
    r := Ok(speeds);
  }

  /** The live speed in km/h drawn next to a detection: calculate_object_distances
      and calculate_object_speeds applied to the one-entry dictionaries of `id`,
      once its path has at least two points; 0.0 before that. */
  function LiveSpeedKmph(hypot: (int, int) -> real, id: int, path: seq<Point>, fps: real, ratio: real): (r: real)
    requires fps != 0.0
    ensures |path| <= 1 ==> r == 0.0
    ensures |path| > 1 ==> r == Speed(PathLength(hypot, path), |path|, fps, ratio) * KmphPerMps
  {
    if |path| > 1 then
      var distance := ObjectDistances(hypot, map[id := path])[id];
      var speeds := ObjectSpeeds(map[id := distance], map[id := path], fps, ratio);
      speeds.value[id] * KmphPerMps
    else
      0.0
  }

  /** Whether a live label is drawn green. */
  predicate ShownGreen(speedKmph: real)
  {
    speedKmph <= GreenLimitKmph
  }

  /** An object seen once is reported stationary, so its label is green. */
  lemma FirstSightingIsGreen(hypot: (int, int) -> real, id: int, p: Point, fps: real, ratio: real)
    requires fps != 0.0
    ensures LiveSpeedKmph(hypot, id, [p], fps, ratio) == 0.0
    ensures ShownGreen(LiveSpeedKmph(hypot, id, [p], fps, ratio))
  {
  }

  /** Speed scales linearly with the pixel-to-real-distance ratio: doubling
      the ratio doubles the speed. */
  lemma SpeedLinearInRatio(distancePixels: real, numFrames: nat, fps: real, ratio: real, k: real)
    requires fps != 0.0
    ensures Speed(distancePixels, numFrames, fps, k * ratio) == k * Speed(distancePixels, numFrames, fps, ratio)
  {
  }

  /** A non-negative distance and ratio give a non-negative speed. */
  lemma SpeedNonNegative(distancePixels: real, numFrames: nat, fps: real, ratio: real)
    requires fps != 0.0 && distancePixels >= 0.0 && ratio >= 0.0
    ensures Speed(distancePixels, numFrames, fps, ratio) >= 0.0
  {
  }

  /** The live label and the end-of-run report agree: for an object whose
      path has not changed, the report's speed (computed over the whole
      dictionary of paths) times 3.6 is the live speed, also while the
      path has a single point. */
  lemma LiveSpeedAgreesWithReport(hypot: (int, int) -> real, paths: map<int, seq<Point>>, id: int,
                                  fps: real, ratio: real)
    requires fps != 0.0 && id in paths
    ensures ObjectSpeeds(ObjectDistances(hypot, paths), paths, fps, ratio).Ok?
    ensures ObjectSpeeds(ObjectDistances(hypot, paths), paths, fps, ratio).value[id] * KmphPerMps
            == LiveSpeedKmph(hypot, id, paths[id], fps, ratio)
  {
  }
}
