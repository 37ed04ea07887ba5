/**
 * The top-level page (script.js): brightest-pixel tracking with a one-second
 * warm-up after start, a 45-degree camera-angle correction, a jump filter
 * against the last shown speed, a 10-pixel distance floor, and a five-second
 * hold after which the read-out falls back to "0".
 */
module Sokudo {
  import opened Common
  import Detector

  /** No speed is computed in the first second after start. */
  const MEASURE_DELAY := 1000
  /** A shown speed falls back to "0" five seconds after it was shown. */
  const SPEED_HOLD_TIME := 5000
  /** Moves shorter than this many pixels are jitter. */
  const MIN_DISTANCE := 10
  /** Largest plausible change, in km/h, from the last shown speed. */
  const MAX_SPEED_CHANGE := 100.0

  /** The jump filter: a previous shown speed exists and the new speed is
      more than 100 km/h away from it. */
  predicate IsJump(lastSpeed: Option<real>, kmh: real)
  {
    lastSpeed.Some? && Abs(kmh - lastSpeed.value) > MAX_SPEED_CHANGE
  }

  /** The distance floor: `Math.sqrt(dx^2 + dy^2) < 10`, stated on the
      squared distance. */
  predicate IsJitter(from: Point, to: Point)
  {
    SqDist(to, from) < MIN_DISTANCE * MIN_DISTANCE
  }

  /** The closure state of the page and the read-out it writes. */
  class SpeedMeter {
    /** Math.sqrt, Math.cos(45 degrees) and toFixed(2). */
    const num: Numerics

    var measuring: bool
    var lastBallPosition: Option<Point>
    var lastBallTime: Option<int>
    /** The last shown speed, as its toFixed(2) text reads back. */
    var lastSpeed: Option<real>
    var lastSpeedUpdateTime: Option<int>
    var startTime: Option<int>
    var display: Display
    /** When the pending `speedHoldTimeout` fires, if one is pending. */
    var holdDeadline: Option<int>

    /** The unrounded speeds shown since the last start, oldest first. */
    ghost var shown: seq<real>

    ghost predicate Valid()
      reads this
    {
      && num.Valid()
      && (measuring ==> startTime.Some?)
      // no shown speed is negative
      && (lastSpeed.Some? ==> 0.0 <= lastSpeed.value)
      && (display.Speed? ==> 0.0 <= display.kmh)
      // lastSpeed and lastSpeedUpdateTime are set together and cleared together
      && (lastSpeed.Some? <==> lastSpeedUpdateTime.Some?)
      && (lastSpeed.Some? <==> shown != [])
      && (lastSpeed.Some? ==> lastSpeed.value == num.toFixed2(shown[|shown| - 1]))
      // while a hold is pending, the read-out shows the last accepted speed,
      // and the hold ends SPEED_HOLD_TIME after that speed was shown
      && (holdDeadline.Some? ==>
            && lastSpeed.Some?
            && display == Speed(lastSpeed.value)
            && holdDeadline.value == lastSpeedUpdateTime.value + SPEED_HOLD_TIME)
      // no shown speed jumps more than MAX_SPEED_CHANGE from the one shown before it
      && (forall i :: 0 < i < |shown| ==> Abs(shown[i] - num.toFixed2(shown[i - 1])) <= MAX_SPEED_CHANGE)
    }

    constructor (num: Numerics)
      requires num.Valid()
      ensures Valid()
      ensures this.num == num && !measuring
      ensures lastBallPosition == None && lastBallTime == None && lastSpeed == None
      ensures lastSpeedUpdateTime == None && startTime == None && holdDeadline == None
      ensures display == Markup
    {
      this.num := num;
      measuring := false;
      lastBallPosition, lastBallTime, lastSpeed := None, None, None;
      lastSpeedUpdateTime, startTime, holdDeadline := None, None, None;
      display := Markup;
      shown := [];
    }

    /** The warm-up test of `calculateAndDisplaySpeed`: there is a previous
        observation and MEASURE_DELAY has passed since start. */
    predicate Settled(now: int)
      reads this
      requires startTime.Some?
    {
      lastBallPosition.Some? && lastBallTime.Some? && now - startTime.value >= MEASURE_DELAY
    }

    /** The speed of the move from the previous observation to `ball` at `now`. */
    function Candidate(ball: Point, now: int): real
      reads this
      requires num.Valid()
      requires lastBallPosition.Some? && lastBallTime.Some? && lastBallTime.value < now
    {
      AngleCorrectedKmh(num, lastBallPosition.value, lastBallTime.value, ball, now)
    }

    /**
     * One animation frame while the video has data (the measuring branch of
     * `processFrame` with `calculateAndDisplaySpeed`): detect the ball, judge
     * the move from the previous observation, and make this frame the
     * previous observation whatever the verdict.
     */
    method Tick(data: array<byte>, width: nat, height: nat, now: int) returns (ball: Option<Point>)
      requires Valid()
      requires data.Length == 4 * (width * height)
      requires lastBallTime.Some? ==> lastBallTime.value < now
      modifies this
      ensures Valid()
      ensures measuring == old(measuring) && startTime == old(startTime)
      // a speed on the read-out is never negative
      ensures display.Speed? ==> 0.0 <= display.kmh
      // not measuring: nothing is detected and nothing changes
      ensures !measuring ==> ball == None && unchanged(this)
      // measuring: the brightest pixel becomes the previous observation
      ensures measuring ==>
        && ball == Some(Detector.Brightest(data[..], width, height))
        && lastBallPosition == ball && lastBallTime == Some(now)
      // warm-up: the read-out, lastSpeed and the hold are untouched
      ensures measuring && !old(Settled(now)) ==>
        && display == old(display) && lastSpeed == old(lastSpeed)
        && lastSpeedUpdateTime == old(lastSpeedUpdateTime) && holdDeadline == old(holdDeadline)
      // jump filter: likewise untouched
      ensures measuring && old(Settled(now)) && IsJump(old(lastSpeed), old(Candidate(ball.value, now))) ==>
        && display == old(display) && lastSpeed == old(lastSpeed)
        && lastSpeedUpdateTime == old(lastSpeedUpdateTime) && holdDeadline == old(holdDeadline)
      // distance floor: likewise untouched
      ensures measuring && old(Settled(now)) && IsJitter(old(lastBallPosition).value, ball.value) ==>
        && display == old(display) && lastSpeed == old(lastSpeed)
        && lastSpeedUpdateTime == old(lastSpeedUpdateTime) && holdDeadline == old(holdDeadline)
      // acceptance: the rounded speed is shown and held for SPEED_HOLD_TIME
      ensures measuring && old(Settled(now))
              && !IsJump(old(lastSpeed), old(Candidate(ball.value, now)))
              && !IsJitter(old(lastBallPosition).value, ball.value) ==>
        var kmh := num.toFixed2(old(Candidate(ball.value, now)));
        && lastSpeed == Some(kmh) && display == Speed(kmh)
        && lastSpeedUpdateTime == Some(now) && holdDeadline == Some(now + SPEED_HOLD_TIME)
    {
      if !measuring {
        return None;
      }
      var p := Detector.DetectBall(data, width, height);
      CalculateAndDisplaySpeed(p, now);
      lastBallPosition := Some(p);
      lastBallTime := Some(now);
      ball := Some(p);
    }

    /** `calculateAndDisplaySpeed`: the warm-up test, the jump filter, the
        distance floor, then the read-out and a fresh hold. */
    method CalculateAndDisplaySpeed(p: Point, now: int)
      requires Valid() && measuring
      requires lastBallTime.Some? ==> lastBallTime.value < now
      modifies this`lastSpeed, this`display, this`lastSpeedUpdateTime, this`holdDeadline, this`shown
      ensures Valid()
      ensures !old(Settled(now)) || IsJump(old(lastSpeed), old(Candidate(p, now)))
              || IsJitter(lastBallPosition.value, p) ==>
        && display == old(display) && lastSpeed == old(lastSpeed)
        && lastSpeedUpdateTime == old(lastSpeedUpdateTime) && holdDeadline == old(holdDeadline)
      ensures old(Settled(now)) && !IsJump(old(lastSpeed), old(Candidate(p, now)))
              && !IsJitter(lastBallPosition.value, p) ==>
        var kmh := num.toFixed2(Candidate(p, now));
        && lastSpeed == Some(kmh) && display == Speed(kmh)
        && lastSpeedUpdateTime == Some(now) && holdDeadline == Some(now + SPEED_HOLD_TIME)
    {
      if lastBallPosition.Some? && lastBallTime.Some? && now - startTime.value >= MEASURE_DELAY {
        var speedKmPerHour := AngleCorrectedKmh(num, lastBallPosition.value, lastBallTime.value, p, now);
        AngleCorrectedKmhNonNegative(num, lastBallPosition.value, lastBallTime.value, p, now);
        if lastSpeed.Some? && Abs(speedKmPerHour - lastSpeed.value) > MAX_SPEED_CHANGE {
          return;
        }
        if SqDist(p, lastBallPosition.value) < MIN_DISTANCE * MIN_DISTANCE {
          return;
        }
        lastSpeed := Some(num.toFixed2(speedKmPerHour));
        display := Speed(lastSpeed.value);
        lastSpeedUpdateTime := Some(now);
        // clearTimeout, then setTimeout: the single pending hold moves
        holdDeadline := Some(now + SPEED_HOLD_TIME);
        shown := shown + [speedKmPerHour];
      }
    }

    /** The hold timer's callback, run by the event loop once its deadline
        has passed: the read-out falls back to "0". */
    method FireHoldTimer(now: int)
      requires Valid()
      modifies this`display, this`holdDeadline
      ensures Valid()
      ensures old(holdDeadline).Some? && old(holdDeadline).value <= now ==>
        display == Zero && holdDeadline == None
      ensures !(old(holdDeadline).Some? && old(holdDeadline).value <= now) ==>
        display == old(display) && holdDeadline == old(holdDeadline)
    {
      if holdDeadline.Some? && holdDeadline.value <= now {
        display := Zero;
        holdDeadline := None;
      }
    }

    /** The start button: toggles `measuring`; starting clears the
        observation and the shown speed and records the start time; both
        starting and stopping cancel the hold and show "0". */
    method PressStart(now: int)
      requires Valid()
      modifies this
      ensures Valid()
      ensures measuring == !old(measuring)
      ensures display == Zero && holdDeadline == None
      ensures measuring ==>
        && startTime == Some(now)
        && lastBallPosition == None && lastBallTime == None
        && lastSpeed == None && lastSpeedUpdateTime == None
      ensures !measuring ==>
        && startTime == old(startTime)
        && lastBallPosition == old(lastBallPosition) && lastBallTime == old(lastBallTime)
        && lastSpeed == old(lastSpeed) && lastSpeedUpdateTime == old(lastSpeedUpdateTime)
    {
      measuring := !measuring;
      if measuring {
        startTime := Some(now);
        lastBallPosition := None;
        lastBallTime := None;
        lastSpeed := None;
        lastSpeedUpdateTime := None;
        holdDeadline := None;
        display := Zero;
        shown := [];
      } else {
        holdDeadline := None;
        display := Zero;
      }
    }
  }
}
