/**
 * The Flask server's speed estimate (app.py): a window of the last ten ball
 * detections, kept as two parallel lists, and the average speed between the
 * oldest and the newest of them.
 */
module BallServer {
  import opened Common

  /** Calibration: pixels per metre of the scene. */
  const PIXELS_PER_METER := 50.0
  /** The window keeps this many detections. */
  const WINDOW := 10

  /**
   * `calculate_speed`: km/h between the first and the last entries, from the
   * pixel distance over PIXELS_PER_METER and the time difference in seconds;
   * `None` when either list has fewer than two entries or the two times are
   * equal.
   */
  function CalculateSpeed(sqrt: real -> real, positions: seq<Point>, times: seq<real>): (speed: Option<real>)
    ensures speed.None? <==> |positions| < 2 || |times| < 2 || times[|times| - 1] == times[0]
  {
    if |positions| < 2 || |times| < 2 then None
    else
      var pixelDistance := sqrt(SqDist(positions[|positions| - 1], positions[0]) as real);
      var realDistance := pixelDistance / PIXELS_PER_METER;
      var timeDiff := times[|times| - 1] - times[0];
      if timeDiff == 0.0 then None
      else
        var speedMps := realDistance / timeDiff;
        Some(speedMps * 3.6)
  }

  /** The estimate reads only the first and the last entry of each list:
      windows that agree on those give the same answer. */
  lemma CalculateSpeedReadsOnlyEnds(sqrt: real -> real, positions: seq<Point>, times: seq<real>,
                                    positions': seq<Point>, times': seq<real>)
    requires 2 <= |positions| && 2 <= |times| && 2 <= |positions'| && 2 <= |times'|
    requires positions[0] == positions'[0] && positions[|positions| - 1] == positions'[|positions'| - 1]
    requires times[0] == times'[0] && times[|times| - 1] == times'[|times'| - 1]
    ensures CalculateSpeed(sqrt, positions, times) == CalculateSpeed(sqrt, positions', times')
  {
  }

  /** The estimate of a window equals that of the two-entry window holding
      only its ends, and is (distance / 50) / elapsed seconds * 3.6. */
  lemma CalculateSpeedOfEnds(sqrt: real -> real, positions: seq<Point>, times: seq<real>)
    requires 2 <= |positions| && 2 <= |times|
    requires times[|times| - 1] != times[0]
    ensures CalculateSpeed(sqrt, positions, times)
         == CalculateSpeed(sqrt, [positions[0], positions[|positions| - 1]], [times[0], times[|times| - 1]])
    ensures CalculateSpeed(sqrt, positions, times)
         == Some(sqrt(SqDist(positions[|positions| - 1], positions[0]) as real) / PIXELS_PER_METER
                 / (times[|times| - 1] - times[0]) * 3.6)
  {
  }

  /** Forward motion in time never gives a negative estimate. */
  lemma CalculateSpeedNonNegative(num: Numerics, positions: seq<Point>, times: seq<real>)
    requires num.Valid()
    requires 2 <= |positions| && 2 <= |times|
    requires times[0] < times[|times| - 1]
    ensures CalculateSpeed(num.sqrt, positions, times).Some?
    ensures 0.0 <= CalculateSpeed(num.sqrt, positions, times).value
  {
  }

  /** The last `WINDOW` entries of `s`, or all of them if there are fewer. */
  function Latest<T>(s: seq<T>): (w: seq<T>)
    ensures |w| <= WINDOW
    ensures |s| <= WINDOW ==> w == s
  {
    if |s| <= WINDOW then s else s[|s| - WINDOW..]
  }

  /** `append` then, past WINDOW entries, `pop(0)`: on a window holding the
      latest detections, the result holds the latest detections again. */
  lemma PushKeepsLatest<T>(history: seq<T>, x: T)
    ensures var w := Latest(history) + [x];
      (if |w| > WINDOW then w[1..] else w) == Latest(history + [x])
  {
  }

  /** The module-level `ball_positions` and `ball_times` lists. */
  class SpeedWindow {
    /** Math.sqrt as `numpy.linalg.norm` uses it. */
    const sqrt: real -> real

    var positions: seq<Point>
    var times: seq<real>

    /** Every detection since the server started, oldest first. */
    ghost var seenPositions: seq<Point>
    ghost var seenTimes: seq<real>

    /** The lists are parallel and hold the latest WINDOW detections. */
    ghost predicate Valid()
      reads this
    {
      && |seenPositions| == |seenTimes|
      && positions == Latest(seenPositions)
      && times == Latest(seenTimes)
    }

    constructor (sqrt: real -> real)
      ensures Valid()
      ensures this.sqrt == sqrt && positions == [] && times == []
    {
      this.sqrt := sqrt;
      positions, times := [], [];
      seenPositions, seenTimes := [], [];
    }

    /**
     * `process_frame` with the detection `detect_ball` made on the frame and
     * the `time.time()` of it. A detection is appended to both lists, and
     * when they grow past WINDOW entries the oldest is dropped from both.
     * The result is the speed drawn on the frame: `None` when there is no
     * estimate or it is 0.0, which Python treats as false.
     */
    method ProcessFrame(detection: Option<Point>, now: real) returns (overlay: Option<real>)
      requires Valid()
      modifies this
      ensures Valid()
      ensures |positions| == |times| <= WINDOW
      // no detection: both lists are unchanged and nothing is drawn
      ensures detection.None? ==>
        && positions == old(positions) && times == old(times) && overlay == None
      // a detection goes to the end; the oldest entry leaves once there are more than WINDOW
      ensures detection.Some? ==>
        && (|old(positions)| < WINDOW ==>
              positions == old(positions) + [detection.value] && times == old(times) + [now])
        && (|old(positions)| == WINDOW ==>
              positions == old(positions)[1..] + [detection.value] && times == old(times)[1..] + [now])
      ensures detection.Some? ==>
        var speed := CalculateSpeed(sqrt, positions, times);
        overlay == if speed.Some? && speed.value != 0.0 then speed else None
    {
      overlay := None;
      if detection.Some? {
        PushKeepsLatest(seenPositions, detection.value);
        PushKeepsLatest(seenTimes, now);
        seenPositions := seenPositions + [detection.value];
        seenTimes := seenTimes + [now];
        positions := positions + [detection.value];
        times := times + [now];
        if |positions| > WINDOW {
          positions := positions[1..];
          times := times[1..];
        }
        var speed := CalculateSpeed(sqrt, positions, times);
        if speed.Some? && speed.value != 0.0 {
          overlay := speed;
        }
      }
    }
  }
}
