/**
 * The page served by the Flask app (simple-trackman/static/js/main.js): no
 * warm-up, no angle correction, no filters and no hold timer. Every frame
 * after the first of a session computes a speed and writes it to the
 * read-out.
 */
module StaticTrackman {
  import opened Common
  import Detector

  /** km/h of a move without angle correction: pixels per second * 0.1. */
  function RawKmh(num: Numerics, from: Point, t0: int, to: Point, t1: int): real
    requires t0 < t1
  {
    PixelsPerSecond(num, from, t0, to, t1) * 0.1
  }

  /** Speeds between observations in increasing time are never negative. */
  lemma RawKmhNonNegative(num: Numerics, from: Point, t0: int, to: Point, t1: int)
    requires num.Valid()
    requires t0 < t1
    ensures 0.0 <= RawKmh(num, from, t0, to, t1)
  {
  }

  /**
   * `calculateSpeed`: the toFixed(2) speed of the move from the previous
   * observation, or `null` when there is none. There is no warm-up.
   */
  function CalculateSpeed(num: Numerics, lastBallPosition: Option<Point>, lastBallTime: Option<int>,
                          currentPosition: Point, currentTime: int): (speed: Option<real>)
    requires lastBallTime.Some? ==> lastBallTime.value < currentTime
    ensures speed.None? <==> lastBallPosition.None? || lastBallTime.None?
    ensures speed.Some? ==>
      speed.value == num.toFixed2(RawKmh(num, lastBallPosition.value, lastBallTime.value, currentPosition, currentTime))
    ensures num.Valid() && speed.Some? ==> 0.0 <= speed.value
  {
    if lastBallPosition.Some? && lastBallTime.Some? then
      var speedKmPerHour := RawKmh(num, lastBallPosition.value, lastBallTime.value, currentPosition, currentTime);
      assert num.Valid() ==> 0.0 <= speedKmPerHour by {
        if num.Valid() {
          RawKmhNonNegative(num, lastBallPosition.value, lastBallTime.value, currentPosition, currentTime);
        }
      }
      Some(num.toFixed2(speedKmPerHour))
    else
      None
  }

  /** The closure state of the page and the read-out it writes. */
  class SpeedMeter {
    /** Math.sqrt and toFixed(2); the cosine is not used on this page. */
    const num: Numerics

    var measuring: bool
    var lastBallPosition: Option<Point>
    var lastBallTime: Option<int>
    var display: Display

    /** The primitives behave, and a speed on the read-out is never negative. */
    ghost predicate Valid()
      reads this
    {
      && num.Valid()
      && (display.Speed? ==> 0.0 <= display.kmh)
    }

    constructor (num: Numerics)
      requires num.Valid()
      ensures Valid()
      ensures this.num == num && !measuring
      ensures lastBallPosition == None && lastBallTime == None
      ensures display == Markup
    {
      this.num := num;
      measuring := false;
      lastBallPosition, lastBallTime := None, None;
      display := Markup;
    }

    /**
     * One animation frame while the video has data (the measuring branch of
     * `processFrame`): detect the ball, show the speed `calculateSpeed` gives
     * (a computed speed, even "0.00", is a non-empty string and so is shown),
     * and make this frame the previous observation.
     */
    method Tick(data: array<byte>, width: nat, height: nat, now: int) returns (ball: Option<Point>)
      requires Valid()
      requires data.Length == 4 * (width * height)
      requires lastBallTime.Some? ==> lastBallTime.value < now
      modifies this
      ensures Valid()
      ensures measuring == old(measuring)
      // a speed on the read-out is never negative
      ensures display.Speed? ==> 0.0 <= display.kmh
      // not measuring: nothing is detected and nothing changes
      ensures !measuring ==> ball == None && unchanged(this)
      // measuring: the brightest pixel becomes the previous observation
      ensures measuring ==>
        && ball == Some(Detector.Brightest(data[..], width, height))
        && lastBallPosition == ball && lastBallTime == Some(now)
      // the read-out is overwritten exactly when a speed was computed
      ensures measuring ==>
        var speed := CalculateSpeed(num, old(lastBallPosition), old(lastBallTime), ball.value, now);
        display == if speed.Some? then Speed(speed.value) else old(display)
    {
      if !measuring {
        return None;
      }
      var p := Detector.DetectBall(data, width, height);
      var speed := CalculateSpeed(num, lastBallPosition, lastBallTime, p, now);
      if speed.Some? {
        display := Speed(speed.value);
      }
      lastBallPosition := Some(p);
      lastBallTime := Some(now);
      ball := Some(p);
    }

    /** The start button: toggles `measuring`; starting forgets the previous
        observation. Nothing else changes: the read-out keeps its last value. */
    method PressStart()
      requires Valid()
      modifies this
      ensures Valid()
      ensures measuring == !old(measuring)
      ensures display == old(display)
      ensures measuring ==> lastBallPosition == None && lastBallTime == None
      ensures !measuring ==> lastBallPosition == old(lastBallPosition) && lastBallTime == old(lastBallTime)
    {
      measuring := !measuring;
      if measuring {
        lastBallPosition := None;
        lastBallTime := None;
      }
    }
  }
}
