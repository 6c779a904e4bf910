/** Concrete runs of the update rule and the speed formula: a crossing at
    the boundary, a move in the wrong direction, an oscillating object and
    one object followed end to end. */
module Scenarios {
  import opened Paths
  import opened Speeds
  import opened Counting

  /** A detection of the target class 0 with id 7 whose box is the single
      point (x, y), so that its centroid is (x, y). */
  function Seven(x: int, y: int): (d: Detection)
    ensures Centroid(d.box) == Point(x, y)
  {
    Detection(Some(7), Box(x, y, x, y), 0)
  }

  /** Two detections processed in order. */
  lemma StepsOfTwo(cfg: Config, s: State, a: Detection, b: Detection)
    ensures Steps(cfg, s, [a, b]) == Step(cfg, Step(cfg, s, a), b)
  {
    assert [a, b][..1] == [a] && [a][..0] == [];
    assert Steps(cfg, s, [a]) == Step(cfg, Steps(cfg, s, []), a);
  }

  /** One frame holding one detection. */
  lemma RunOneMoreFrame(cfg: Config, s: State, frames: seq<seq<Detection>>, d: Detection)
    ensures RunFrames(cfg, s, frames + [[d]]) == Step(cfg, RunFrames(cfg, s, frames), d)
  {
    assert (frames + [[d]])[..|frames|] == frames && [d][..0] == [];
    assert Steps(cfg, RunFrames(cfg, s, frames), [d]) == Step(cfg, Steps(cfg, RunFrames(cfg, s, frames), []), d);
  }

  /** Object 7 moves from strictly left of the line onto it: counted once. */
  lemma BoundaryIsInclusive(lineX: int)
    ensures Steps(Config(0, lineX), Initial(), [Seven(lineX - 10, 0), Seven(lineX, 0)]).count == 1
  {
    var cfg := Config(0, lineX);
    StepsOfTwo(cfg, Initial(), Seven(lineX - 10, 0), Seven(lineX, 0));
    var s1 := Step(cfg, Initial(), Seven(lineX - 10, 0));
    assert TrackId(Seven(lineX - 10, 0)) == 7;
    assert s1.centroids == map[7 := lineX - 10] && s1.counted == {};
  }

  /** Object 7 moves from right to left across the line: not counted. */
  lemma RightToLeftIsNotCounted(lineX: int)
    ensures Steps(Config(0, lineX), Initial(), [Seven(lineX + 10, 0), Seven(lineX - 10, 0)]).count == 0
  {
    var cfg := Config(0, lineX);
    StepsOfTwo(cfg, Initial(), Seven(lineX + 10, 0), Seven(lineX - 10, 0));
    var s1 := Step(cfg, Initial(), Seven(lineX + 10, 0));
    assert TrackId(Seven(lineX + 10, 0)) == 7;
    assert s1.centroids == map[7 := lineX + 10] && s1.count == 0;
  }

  /** Object 7 goes back and forth across the line any number of times: it
      adds at most one to the count. */
  lemma OscillationCountsOnce(lineX: int, xs: seq<int>)
    ensures Steps(Config(0, lineX), Initial(), seq(|xs|, i requires 0 <= i < |xs| => Seven(xs[i], 0))).count <= 1
  {
    var ds := seq(|xs|, i requires 0 <= i < |xs| => Seven(xs[i], 0));
    InitialInv();
    OneIdCountsAtMostOnce(Config(0, lineX), Initial(), ds, 7);
  }

  /** Object 7 observed at (90, 50), (100, 50), (110, 50) in three frames with
      the line at x = 100, 10 frames per second and 0.01 m per pixel: counted
      on the second frame, 20 pixels travelled in 0.3 s, 2/3 m/s. */
  lemma ObjectSevenEndToEnd(hypot: (int, int) -> real)
    requires Euclidean(hypot)
    ensures var cfg := Config(0, 100);
      var frames := [[Seven(90, 50)], [Seven(100, 50)], [Seven(110, 50)]];
      && RunFrames(cfg, Initial(), frames[..1]).count == 0
      && RunFrames(cfg, Initial(), frames[..2]).count == 1
      && RunFrames(cfg, Initial(), frames).count == 1
      && RunFrames(cfg, Initial(), frames).paths == map[7 := [Point(90, 50), Point(100, 50), Point(110, 50)]]
      && PathLength(hypot, [Point(90, 50), Point(100, 50), Point(110, 50)]) == 20.0
      && Speed(20.0, 3, 10.0, 0.01) == 2.0 / 3.0
  {
    var cfg := Config(0, 100);
    var frames := [[Seven(90, 50)], [Seven(100, 50)], [Seven(110, 50)]];
    assert frames[..1] == [] + [[Seven(90, 50)]];
    assert frames[..2] == frames[..1] + [[Seven(100, 50)]];
    assert frames == frames[..2] + [[Seven(110, 50)]];
    RunOneMoreFrame(cfg, Initial(), [], Seven(90, 50));
    RunOneMoreFrame(cfg, Initial(), frames[..1], Seven(100, 50));
    RunOneMoreFrame(cfg, Initial(), frames[..2], Seven(110, 50));
    var s1 := Step(cfg, Initial(), Seven(90, 50));
    assert TrackId(Seven(90, 50)) == 7;
    assert [] + [Point(90, 50)] == [Point(90, 50)];
    assert s1.centroids == map[7 := 90] && s1.counted == {} && s1.paths == map[7 := [Point(90, 50)]];
    var s2 := Step(cfg, s1, Seven(100, 50));
    assert [Point(90, 50)] + [Point(100, 50)] == [Point(90, 50), Point(100, 50)];
    assert s2.counted == {7} && s2.paths == map[7 := [Point(90, 50), Point(100, 50)]];
    assert [Point(90, 50), Point(100, 50)] + [Point(110, 50)] == [Point(90, 50), Point(100, 50), Point(110, 50)];
    EuclideanHorizontal(hypot, 10);
    var path := [Point(90, 50), Point(100, 50), Point(110, 50)];
    assert path[1..][1..] == [Point(110, 50)];
  }
}
