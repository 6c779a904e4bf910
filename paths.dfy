/** Trajectories and the distance an object travels along one
    (calculate_object_distances in Track_and_Detect_Obj.py). */
module Paths {

  /** A centroid in pixel coordinates. */
  datatype Point = Point(x: int, y: int)

  /** The length of the segment from p to q. The source calls math.hypot on
      the coordinate differences; here that collaborator is the parameter
      `hypot`, so that IEEE rounding stays outside the model. */
  function Segment(hypot: (int, int) -> real, p: Point, q: Point): real
  {
    hypot(q.x - p.x, q.y - p.y)
  }

  /** math.hypot never returns a negative length. */
  ghost predicate NonNegative(hypot: (int, int) -> real)
  {
    forall dx, dy :: hypot(dx, dy) >= 0.0
  }

  /** hypot(dx, dy) is the non-negative square root of dx^2 + dy^2. */
  ghost predicate Euclidean(hypot: (int, int) -> real)
  {
    forall dx, dy :: hypot(dx, dy) >= 0.0 && hypot(dx, dy) * hypot(dx, dy) == (dx * dx + dy * dy) as real
  }

  /** Non-negative square roots are unique. */
  lemma SquareRootUnique(r: real, m: real)
    requires r >= 0.0 && m >= 0.0 && r * r == m * m
    ensures r == m
  {
    assert (r - m) * (r + m) == r * r - m * m;
    if r + m > 0.0 {
      assert r - m == (r - m) * (r + m) / (r + m);
    }
  }

  /** Under a Euclidean hypot, a step of n pixels along the x axis has
      length n. */
  lemma EuclideanHorizontal(hypot: (int, int) -> real, n: nat)
    requires Euclidean(hypot)
    ensures hypot(n, 0) == n as real
  {
    assert hypot(n, 0) >= 0.0 && hypot(n, 0) * hypot(n, 0) == (n * n + 0 * 0) as real;
    assert (n * n) as real == (n as real) * (n as real);
    SquareRootUnique(hypot(n, 0), n as real);
  }

  /** Total distance travelled along a path: the sum of the lengths of its
      consecutive segments. */
  function PathLength(hypot: (int, int) -> real, path: seq<Point>): real
    decreases |path|
  {
    if |path| < 2 then 0.0 else Segment(hypot, path[0], path[1]) + PathLength(hypot, path[1..])
  }

  /** A path with fewer than two points has length zero. */
  lemma ShortPathHasNoLength(hypot: (int, int) -> real, path: seq<Point>)
    requires |path| < 2
    ensures PathLength(hypot, path) == 0.0
  {
  }

  /** Lengths are never negative when segment lengths are not. */
  lemma {:induction false} PathLengthNonNegative(hypot: (int, int) -> real, path: seq<Point>)
    requires NonNegative(hypot)
    ensures PathLength(hypot, path) >= 0.0
    decreases |path|
  {
    if |path| >= 2 {
      PathLengthNonNegative(hypot, path[1..]);
      assert Segment(hypot, path[0], path[1]) >= 0.0;
    }
  }

  /** Appending one point raises the length by exactly the new last segment:
      a running sum kept next to the path always equals a recomputation. */
  lemma {:induction false} PathLengthAppend(hypot: (int, int) -> real, path: seq<Point>, q: Point)
    requires |path| > 0
    ensures PathLength(hypot, path + [q]) == PathLength(hypot, path) + Segment(hypot, path[|path| - 1], q)
    decreases |path|
  {
    if |path| == 1 {
      assert path + [q] == [path[0], q];
      assert (path + [q])[1..] == [q];
    } else {
      assert (path + [q])[1..] == path[1..] + [q];
      PathLengthAppend(hypot, path[1..], q);
    }
  }

  /** A path is never shorter than any of its prefixes: the distance reported
      for an object can only grow as its trajectory grows. */
  lemma {:induction false} PathLengthPrefixMonotone(hypot: (int, int) -> real, prefix: seq<Point>, path: seq<Point>)
    requires NonNegative(hypot)
    requires prefix <= path
    ensures PathLength(hypot, prefix) <= PathLength(hypot, path)
    decreases |path|
  {
    if |prefix| < 2 {
      PathLengthNonNegative(hypot, path);
    } else {
      assert prefix[0] == path[0] && prefix[1] == path[1];
      PathLengthPrefixMonotone(hypot, prefix[1..], path[1..]);
    }
  }

  /** The inner loop of calculate_object_distances: accumulates the segment
      lengths of `path` from its second point on. */
  method PathDistance(hypot: (int, int) -> real, path: seq<Point>) returns (total: real)
    ensures total == PathLength(hypot, path)
  {
    total := 0.0;
    var i := 1;
    while i < |path|
      invariant 1 <= i && (|path| > 0 ==> i <= |path|)
      invariant total == PathLength(hypot, path[..if |path| == 0 then 0 else i])
    {
      assert path[..i + 1] == path[..i] + [path[i]];
      PathLengthAppend(hypot, path[..i], path[i]);
      total := total + Segment(hypot, path[i - 1], path[i]);
      i := i + 1;
    }
    assert path[..if |path| == 0 then 0 else i] == path;
  }

  /** calculate_object_distances as a value: every id of `paths` mapped to
      the length of its path. */
  function ObjectDistances(hypot: (int, int) -> real, paths: map<int, seq<Point>>): (r: map<int, real>)
    ensures r.Keys == paths.Keys
    ensures forall id :: id in paths && |paths[id]| < 2 ==> r[id] == 0.0
  {
    map id | id in paths :: PathLength(hypot, paths[id])
  }

  /** Every distance is non-negative when segment lengths are. */
  lemma ObjectDistancesNonNegative(hypot: (int, int) -> real, paths: map<int, seq<Point>>)
    requires NonNegative(hypot)
    ensures forall id :: id in ObjectDistances(hypot, paths) ==> ObjectDistances(hypot, paths)[id] >= 0.0
  {
    forall id | id in paths
      ensures PathLength(hypot, paths[id]) >= 0.0
    {
      PathLengthNonNegative(hypot, paths[id]);
    }
  }

  /** A set that is not empty has a member to pick. */
  lemma MemberOf<T>(s: set<T>) returns (x: T)
    requires s != {}
    ensures x in s
  {
    if forall y :: y !in s {
      assert false;
    }
    x :| x in s;
  }

  /** The dictionary-building loop of calculate_object_distances. */
  method CalculateObjectDistances(hypot: (int, int) -> real, paths: map<int, seq<Point>>)
    returns (distances: map<int, real>)
    ensures distances == ObjectDistances(hypot, paths)
  {
    distances := map[];
    var remaining := paths.Keys;
    while remaining != {}
      invariant remaining <= paths.Keys
      invariant distances.Keys == paths.Keys - remaining
      invariant forall id :: id in distances ==> distances[id] == PathLength(hypot, paths[id])
      decreases remaining
    {
      ghost var some := MemberOf(remaining);
      var id :| id in remaining;
      var total := PathDistance(hypot, paths[id]);
      distances := distances[id := total];
      remaining := remaining - {id};
    }
    assert distances.Keys == paths.Keys;
    assert forall id :: id in distances ==> distances[id] == ObjectDistances(hypot, paths)[id];
  }
}
