/** The per-detection update of track_and_count_cars in
    Track_and_Detect_Obj.py, as a transition on values: trajectories,
    last centroids and the one-shot, left-to-right line-crossing count. */
module Counting {
  import opened Paths

  datatype Option<T> = None | Some(value: T)

  /** A bounding box (x1, y1, x2, y2) in integer pixel coordinates. */
  datatype Box = Box(x1: int, y1: int, x2: int, y2: int)

  /** One detection handed over by the external tracker; `id` is None when
      the tracker assigned no identity. */
  datatype Detection = Detection(id: Option<int>, box: Box, cls: int)

  /** The id the source substitutes for a missing one; detections carrying
      it are never tracked. */
  const Absent: int := -1

  /** The run's fixed parameters that the update uses. */
  datatype Config = Config(targetClass: int, lineX: int)

  /** The analytics state of one run. */
  datatype State = State(
    centroids: map<int, int>,     // track_centroids: id -> last centroid x
    paths: map<int, seq<Point>>,  // object_paths: id -> centroids in arrival order
    order: seq<int>,              // the keys of object_paths in insertion order
    counted: set<int>,            // unique_ids: the ids already counted
    count: int)                   // car_count

  function Initial(): State
  {
    State(map[], map[], [], {}, 0)
  }

  /** `int(n / 2)` in the source: true division, then truncation toward zero
      (Dafny's own `/` rounds toward negative infinity). */
  function TruncHalf(n: int): (r: int)
    ensures 0 <= n ==> 0 <= r && n - 1 <= 2 * r <= n
    ensures n < 0 ==> r <= 0 && n <= 2 * r <= n + 1
  {
    if n >= 0 then n / 2 else -((-n) / 2)
  }

  /** The integer centroid of a box; it lies inside the box. */
  function Centroid(b: Box): (c: Point)
    ensures b.x1 <= b.x2 ==> b.x1 <= c.x <= b.x2
    ensures b.y1 <= b.y2 ==> b.y1 <= c.y <= b.y2
  {
    Point(TruncHalf(b.x1 + b.x2), TruncHalf(b.y1 + b.y2))
  }

  /** The id as the source sees it: a missing id becomes the sentinel. */
  function TrackId(d: Detection): int
  {
    match d.id
    case Some(k) => k
    case None => Absent
  }

  /** Whether a detection enters the analytics: it has the target class and
      an id other than the sentinel. */
  predicate IsTracked(cfg: Config, d: Detection)
  {
    d.cls == cfg.targetClass && TrackId(d) != Absent
  }

  /** The path recorded for `id`, empty if there is none. */
  function PathOf(paths: map<int, seq<Point>>, id: int): seq<Point>
  {
    if id in paths then paths[id] else []
  }

  /** The crossing rule: a previous centroid exists, it was strictly left of
      the line, the new one is on or right of it, and the id has not been
      counted yet. */
  predicate Fires(prevCx: Option<int>, cx: int, lineX: int, alreadyCounted: bool)
  {
    prevCx.Some? && prevCx.value < lineX <= cx && !alreadyCounted
  }

  /** The effect of one detection on the state. */
  function Step(cfg: Config, s: State, d: Detection): (r: State)
    ensures !IsTracked(cfg, d) ==> r == s
    ensures s.count <= r.count <= s.count + 1
    ensures s.counted <= r.counted && s.paths.Keys <= r.paths.Keys
    ensures forall id :: id in s.paths ==> s.paths[id] <= r.paths[id]
  {
    if !IsTracked(cfg, d) then s
    else
      var id := TrackId(d);
      var c := Centroid(d.box);
      var prevCx := if id in s.centroids then Some(s.centroids[id]) else None;
      var fires := Fires(prevCx, c.x, cfg.lineX, id in s.counted);
      State(
        s.centroids[id := c.x],
        s.paths[id := PathOf(s.paths, id) + [c]],
        if id in s.paths then s.order else s.order + [id],
        if fires then s.counted + {id} else s.counted,
        if fires then s.count + 1 else s.count)
  }

  /** The detections of a sequence, processed one after another. */
  function Steps(cfg: Config, s: State, ds: seq<Detection>): State
    decreases |ds|
  {
    if ds == [] then s else Step(cfg, Steps(cfg, s, ds[..|ds| - 1]), ds[|ds| - 1])
  }

  /** A stream of frames, each a sequence of detections, processed in order. */
  function RunFrames(cfg: Config, s: State, frames: seq<seq<Detection>>): State
    decreases |frames|
  {
    if frames == [] then s else Steps(cfg, RunFrames(cfg, s, frames[..|frames| - 1]), frames[|frames| - 1])
  }

  /** All detections of a stream of frames, in arrival order. */
  function Flatten(frames: seq<seq<Detection>>): seq<Detection>
    decreases |frames|
  {
    if frames == [] then [] else Flatten(frames[..|frames| - 1]) + frames[|frames| - 1]
  }

  /** The ids of the tracked detections of a sequence. */
  function TrackedIds(cfg: Config, ds: seq<Detection>): set<int>
    decreases |ds|
  {
    if ds == [] then {}
    else
      var last := ds[|ds| - 1];
      TrackedIds(cfg, ds[..|ds| - 1]) + if IsTracked(cfg, last) then {TrackId(last)} else {}
  }

  /** The centroids of the tracked detections of `id` in a sequence, in order. */
  function Observed(cfg: Config, ds: seq<Detection>, id: int): seq<Point>
    decreases |ds|
  {
    if ds == [] then []
    else
      var last := ds[|ds| - 1];
      Observed(cfg, ds[..|ds| - 1], id) + if IsTracked(cfg, last) && TrackId(last) == id then [Centroid(last.box)] else []
  }

  /** The invariant the update keeps: the count is the number of counted ids,
      only ids seen before are counted, every path is non-empty and ends at the
      id's last centroid, the sentinel never gets a path, and `order` lists
      every path key exactly once. */
  ghost predicate Inv(s: State)
  {
    && s.count == |s.counted|
    && s.counted <= s.centroids.Keys
    && s.centroids.Keys == s.paths.Keys
    && Absent !in s.paths
    && (forall id :: id in s.paths ==> |s.paths[id]| > 0 && s.paths[id][|s.paths[id]| - 1].x == s.centroids[id])
    && (forall id :: id in s.paths <==> id in s.order)
    && (forall i, j :: 0 <= i < j < |s.order| ==> s.order[i] != s.order[j])
  }

  lemma InitialInv()
    ensures Inv(Initial())
  {
  }

  /** The count goes up by one exactly when the rule fires: a tracked
      detection of an uncounted id that was seen before strictly left of the
      line and now is on or right of it. */
  lemma StepCountsIff(cfg: Config, s: State, d: Detection)
    ensures Step(cfg, s, d).count == s.count + 1 <==>
      && IsTracked(cfg, d)
      && TrackId(d) in s.centroids
      && s.centroids[TrackId(d)] < cfg.lineX <= Centroid(d.box).x
      && TrackId(d) !in s.counted
    ensures Step(cfg, s, d).count == s.count + 1 ==> Step(cfg, s, d).counted == s.counted + {TrackId(d)}
    ensures Step(cfg, s, d).count == s.count ==> Step(cfg, s, d).counted == s.counted
  {
  }

  /** The first sighting of an id never counts. */
  lemma FirstSightingNeverCounts(cfg: Config, s: State, d: Detection)
    requires Inv(s) && TrackId(d) !in s.paths
    ensures Step(cfg, s, d).count == s.count
  {
  }

  /** A tracker id of -1 cannot be told apart from a missing id: such a
      detection is ignored like one without an id. */
  lemma SentinelIdIsIgnored(cfg: Config, s: State, box: Box, cls: int)
    ensures Step(cfg, s, Detection(Some(Absent), box, cls)) == s
    ensures Step(cfg, s, Detection(None, box, cls)) == s
  {
  }

  /** A move from right to left (or staying on one side) never counts. */
  lemma RightToLeftNeverCounts(cfg: Config, s: State, d: Detection)
    requires TrackId(d) in s.centroids
    requires !(s.centroids[TrackId(d)] < cfg.lineX <= Centroid(d.box).x)
    ensures Step(cfg, s, d).count == s.count
  {
  }

  /** A tracked detection appends exactly its centroid to its id's path,
      creating the path if absent, records its centroid, and leaves every
      other id's path and centroid alone; an ignored one changes nothing. */
  lemma StepRecords(cfg: Config, s: State, d: Detection)
    ensures IsTracked(cfg, d) ==>
      && Step(cfg, s, d).paths == s.paths[TrackId(d) := PathOf(s.paths, TrackId(d)) + [Centroid(d.box)]]
      && Step(cfg, s, d).centroids == s.centroids[TrackId(d) := Centroid(d.box).x]
    ensures forall id :: id != TrackId(d) ==>
      && PathOf(Step(cfg, s, d).paths, id) == PathOf(s.paths, id)
      && (id in Step(cfg, s, d).centroids <==> id in s.centroids)
      && (id in s.centroids ==> Step(cfg, s, d).centroids[id] == s.centroids[id])
    ensures !IsTracked(cfg, d) ==> Step(cfg, s, d) == s
  {
  }

  /** One update keeps the invariant. */
  lemma StepPreservesInv(cfg: Config, s: State, d: Detection)
    requires Inv(s)
    ensures Inv(Step(cfg, s, d))
  {
  }

  /** Any sequence of updates keeps the invariant. */
  lemma {:induction false} StepsPreservesInv(cfg: Config, s: State, ds: seq<Detection>)
    requires Inv(s)
    ensures Inv(Steps(cfg, s, ds))
    decreases |ds|
  {
    if ds != [] {
      StepsPreservesInv(cfg, s, ds[..|ds| - 1]);
      StepPreservesInv(cfg, Steps(cfg, s, ds[..|ds| - 1]), ds[|ds| - 1]);
    }
  }

  /** Processing `a` and then `b` is processing `a + b`. */
  lemma {:induction false} StepsAppend(cfg: Config, s: State, a: seq<Detection>, b: seq<Detection>)
    ensures Steps(cfg, s, a + b) == Steps(cfg, Steps(cfg, s, a), b)
    decreases |b|
  {
    if b == [] {
      assert a + b == a;
    } else {
      assert (a + b)[..|a + b| - 1] == a + b[..|b| - 1];
      StepsAppend(cfg, s, a, b[..|b| - 1]);
    }
  }

  /** Frame boundaries do not matter: a run over frames is the run over all
      their detections in order. */
  lemma {:induction false} RunFramesFlatten(cfg: Config, s: State, frames: seq<seq<Detection>>)
    ensures RunFrames(cfg, s, frames) == Steps(cfg, s, Flatten(frames))
    decreases |frames|
  {
    if frames != [] {
      var init := frames[..|frames| - 1];
      RunFramesFlatten(cfg, s, init);
      StepsAppend(cfg, s, Flatten(init), frames[|frames| - 1]);
    }
  }

  /** The count never decreases, a counted id stays counted, and only ids
      that occur tracked in the sequence become counted. */
  lemma {:induction false} StepsCountedGrow(cfg: Config, s: State, ds: seq<Detection>)
    ensures s.count <= Steps(cfg, s, ds).count
    ensures s.counted <= Steps(cfg, s, ds).counted
    ensures Steps(cfg, s, ds).counted - s.counted <= TrackedIds(cfg, ds)
    decreases |ds|
  {
    if ds != [] {
      StepsCountedGrow(cfg, s, ds[..|ds| - 1]);
    }
  }

  /** Each id adds at most one to the count over any run, however often it
      moves back and forth across the line: the count grows by exactly the
      number of newly counted ids, which is at most the number of distinct
      tracked ids in the sequence. */
  lemma StepsCountBound(cfg: Config, s: State, ds: seq<Detection>)
    requires Inv(s)
    ensures Steps(cfg, s, ds).count - s.count == |Steps(cfg, s, ds).counted - s.counted|
    ensures Steps(cfg, s, ds).count - s.count <= |TrackedIds(cfg, ds)|
  {
    var r := Steps(cfg, s, ds);
    StepsPreservesInv(cfg, s, ds);
    StepsCountedGrow(cfg, s, ds);
    assert r.counted == s.counted + (r.counted - s.counted);
    SubsetCardinality(r.counted - s.counted, TrackedIds(cfg, ds));
  }

  lemma {:induction false} SubsetCardinality(a: set<int>, b: set<int>)
    requires a <= b
    ensures |a| <= |b|
    decreases b
  {
    if a != {} {
      var x := MemberOf(a);
      SubsetCardinality(a - {x}, b - {x});
    }
  }

  /** A sequence in which every tracked detection has id k counts at most
      once, and not at all when k was already counted. */
  lemma OneIdCountsAtMostOnce(cfg: Config, s: State, ds: seq<Detection>, k: int)
    requires Inv(s)
    requires forall i :: 0 <= i < |ds| && IsTracked(cfg, ds[i]) ==> TrackId(ds[i]) == k
    ensures Steps(cfg, s, ds).count <= s.count + 1
    ensures k in s.counted ==> Steps(cfg, s, ds).count == s.count
  {
    OnlyIdIsTracked(cfg, ds, k);
    StepsCountBound(cfg, s, ds);
    StepsCountedGrow(cfg, s, ds);
    var newlyCounted := Steps(cfg, s, ds).counted - s.counted;
    SubsetCardinality(newlyCounted, {k});
    if k in s.counted {
      assert newlyCounted == {};
    }
  }

  lemma {:induction false} OnlyIdIsTracked(cfg: Config, ds: seq<Detection>, k: int)
    requires forall i :: 0 <= i < |ds| && IsTracked(cfg, ds[i]) ==> TrackId(ds[i]) == k
    ensures TrackedIds(cfg, ds) <= {k}
    decreases |ds|
  {
    if ds != [] {
      OnlyIdIsTracked(cfg, ds[..|ds| - 1], k);
    }
  }

  /** A path is exactly the sequence of centroids observed for its id, in
      arrival order: it grows by one point per tracked detection of that id
      and is never reordered or truncated. */
  lemma {:induction false} StepsPath(cfg: Config, s: State, ds: seq<Detection>, id: int)
    ensures PathOf(Steps(cfg, s, ds).paths, id) == PathOf(s.paths, id) + Observed(cfg, ds, id)
    decreases |ds|
  {
    if ds != [] {
      var init := ds[..|ds| - 1];
      StepsPath(cfg, s, init, id);
      var t := Steps(cfg, s, init);
      var d := ds[|ds| - 1];
      if IsTracked(cfg, d) && TrackId(d) == id {
        assert PathOf(Step(cfg, t, d).paths, id) == PathOf(t.paths, id) + [Centroid(d.box)];
      } else {
        assert PathOf(Step(cfg, t, d).paths, id) == PathOf(t.paths, id);
      }
    }
  }

  /** The distance travelled along an id's path never decreases during a run. */
  lemma DistanceNeverDecreases(cfg: Config, hypot: (int, int) -> real, s: State, ds: seq<Detection>, id: int)
    requires NonNegative(hypot)
    ensures PathLength(hypot, PathOf(s.paths, id)) <= PathLength(hypot, PathOf(Steps(cfg, s, ds).paths, id))
  {
    StepsPath(cfg, s, ds, id);
    PathLengthPrefixMonotone(hypot, PathOf(s.paths, id), PathOf(Steps(cfg, s, ds).paths, id));
  }
}
