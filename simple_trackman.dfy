/**
 * The simple-trackman page (simple-trackman/script.js): the same warm-up and
 * angle correction as the top-level page, no distance floor and no jump
 * filter, but the read-out is rewritten at most once every 500 ms; a shown
 * speed is held for five seconds and then falls back to "0".
 */
module SimpleTrackman {
  import opened Common
  import Detector

  /** No speed is computed in the first second after start. */
  const MEASURE_DELAY := 1000
  /** A shown speed falls back to "0" five seconds after it was shown. */
  const SPEED_HOLD_TIME := 5000
  /** The read-out is rewritten at most once per this many milliseconds. */
  const SPEED_UPDATE_INTERVAL := 500

  /** Every two consecutive times in `updates` are at least
      SPEED_UPDATE_INTERVAL apart. */
  ghost predicate Spaced(updates: seq<int>)
  {
    forall i :: 0 < i < |updates| ==> updates[i - 1] + SPEED_UPDATE_INTERVAL <= updates[i]
  }

  /** The throttle's test on the time of the last update. */
  predicate MayUpdate(lastSpeedUpdateTime: Option<int>, now: int)
  {
    lastSpeedUpdateTime.None? || now - lastSpeedUpdateTime.value >= SPEED_UPDATE_INTERVAL
  }

  /** Appending a time the throttle lets through keeps a history spaced. */
  lemma ThrottleKeepsSpacing(updates: seq<int>, now: int)
    requires Spaced(updates)
    requires MayUpdate(if updates == [] then None else Some(updates[|updates| - 1]), now)
    ensures Spaced(updates + [now])
  {
  }

  /** The closure state of the page and the read-out it writes. */
  class SpeedMeter {
    /** Math.sqrt, Math.cos(45 degrees) and toFixed(2). */
    const num: Numerics

    var measuring: bool
    var lastBallPosition: Option<Point>
    var lastBallTime: Option<int>
    /** The last shown speed, as its toFixed(2) text reads back. */
    var lastSpeed: Option<real>
    var lastSpeedUpdateTime: Option<int>
    var startTime: Option<int>
    var display: Display
    /** When the pending `speedHoldTimeout` fires, if one is pending. */
    var holdDeadline: Option<int>

    /** The times at which the read-out was rewritten since the last start. */
    ghost var updates: seq<int>

    ghost predicate Valid()
      reads this
    {
      && num.Valid()
      && (measuring ==> startTime.Some?)
      // no shown speed is negative
      && (lastSpeed.Some? ==> 0.0 <= lastSpeed.value)
      && (display.Speed? ==> 0.0 <= display.kmh)
      && (lastSpeed.Some? <==> lastSpeedUpdateTime.Some?)
      // lastSpeedUpdateTime is the latest update of this session
      && (lastSpeedUpdateTime.None? <==> updates == [])
      && (lastSpeedUpdateTime.Some? ==> lastSpeedUpdateTime.value == updates[|updates| - 1])
      // while a hold is pending, the read-out shows the last speed, and the
      // hold ends SPEED_HOLD_TIME after it was shown
      && (holdDeadline.Some? ==>
            && lastSpeed.Some?
            && display == Speed(lastSpeed.value)
            && holdDeadline.value == lastSpeedUpdateTime.value + SPEED_HOLD_TIME)
      // two updates of one session are at least SPEED_UPDATE_INTERVAL apart
      && Spaced(updates)
    }

    constructor (num: Numerics)
      requires num.Valid()
      ensures Valid()
      ensures this.num == num && !measuring
      ensures lastBallPosition == None && lastBallTime == None && lastSpeed == None
      ensures lastSpeedUpdateTime == None && startTime == None && holdDeadline == None
      ensures display == Markup
    {
      this.num := num;
      measuring := false;
      lastBallPosition, lastBallTime, lastSpeed := None, None, None;
      lastSpeedUpdateTime, startTime, holdDeadline := None, None, None;
      display := Markup;
      updates := [];
    }

    /** The warm-up test of `calculateAndDisplaySpeed`: there is a previous
        observation and MEASURE_DELAY has passed since start. */
    predicate Settled(now: int)
      reads this
      requires startTime.Some?
    {
      lastBallPosition.Some? && lastBallTime.Some? && now - startTime.value >= MEASURE_DELAY
    }

    /** The speed of the move from the previous observation to `ball` at `now`. */
    function Candidate(ball: Point, now: int): real
      reads this
      requires num.Valid()
      requires lastBallPosition.Some? && lastBallTime.Some? && lastBallTime.value < now
    {
      AngleCorrectedKmh(num, lastBallPosition.value, lastBallTime.value, ball, now)
    }

    /**
     * One animation frame while the video has data (the measuring branch of
     * `processFrame` with `calculateAndDisplaySpeed`): detect the ball, show
     * its speed unless warming up or throttled, and make this frame the
     * previous observation.
     */
    method Tick(data: array<byte>, width: nat, height: nat, now: int) returns (ball: Option<Point>)
      requires Valid()
      requires data.Length == 4 * (width * height)
      requires lastBallTime.Some? ==> lastBallTime.value < now
      modifies this
      ensures Valid()
      ensures measuring == old(measuring) && startTime == old(startTime)
      // a speed on the read-out is never negative
      ensures display.Speed? ==> 0.0 <= display.kmh
      // not measuring: nothing is detected and nothing changes
      ensures !measuring ==> ball == None && unchanged(this)
      // measuring: the brightest pixel becomes the previous observation
      ensures measuring ==>
        && ball == Some(Detector.Brightest(data[..], width, height))
        && lastBallPosition == ball && lastBallTime == Some(now)
      // warm-up or throttled: the read-out, lastSpeed and the hold are untouched
      ensures measuring && !(old(Settled(now)) && MayUpdate(old(lastSpeedUpdateTime), now)) ==>
        && display == old(display) && lastSpeed == old(lastSpeed)
        && lastSpeedUpdateTime == old(lastSpeedUpdateTime) && holdDeadline == old(holdDeadline)
      // otherwise every speed is shown, whatever its size, and held
      ensures measuring && old(Settled(now)) && MayUpdate(old(lastSpeedUpdateTime), now) ==>
        var kmh := num.toFixed2(old(Candidate(ball.value, now)));
        && lastSpeed == Some(kmh) && display == Speed(kmh)
        && lastSpeedUpdateTime == Some(now) && holdDeadline == Some(now + SPEED_HOLD_TIME)
    {
      if !measuring {
        return None;
      }
      var p := Detector.DetectBall(data, width, height);
      CalculateAndDisplaySpeed(p, now);
      lastBallPosition := Some(p);
      lastBallTime := Some(now);
      ball := Some(p);
    }

    /** `calculateAndDisplaySpeed`: the warm-up test, then the throttle, then
        the read-out and a fresh hold. */
    method CalculateAndDisplaySpeed(p: Point, now: int)
      requires Valid() && measuring
      requires lastBallTime.Some? ==> lastBallTime.value < now
      modifies this`lastSpeed, this`display, this`lastSpeedUpdateTime, this`holdDeadline, this`updates
      ensures Valid()
      ensures !(old(Settled(now)) && MayUpdate(old(lastSpeedUpdateTime), now)) ==>
        && display == old(display) && lastSpeed == old(lastSpeed)
        && lastSpeedUpdateTime == old(lastSpeedUpdateTime) && holdDeadline == old(holdDeadline)
      ensures old(Settled(now)) && MayUpdate(old(lastSpeedUpdateTime), now) ==>
        var kmh := num.toFixed2(Candidate(p, now));
        && lastSpeed == Some(kmh) && display == Speed(kmh)
        && lastSpeedUpdateTime == Some(now) && holdDeadline == Some(now + SPEED_HOLD_TIME)
    {
      if lastBallPosition.Some? && lastBallTime.Some? && now - startTime.value >= MEASURE_DELAY {
        var speedKmPerHour := AngleCorrectedKmh(num, lastBallPosition.value, lastBallTime.value, p, now);
        AngleCorrectedKmhNonNegative(num, lastBallPosition.value, lastBallTime.value, p, now);
        if lastSpeedUpdateTime.None? || now - lastSpeedUpdateTime.value >= SPEED_UPDATE_INTERVAL {
          ThrottleKeepsSpacing(updates, now);
          lastSpeed := Some(num.toFixed2(speedKmPerHour));
          display := Speed(lastSpeed.value);
          lastSpeedUpdateTime := Some(now);
          // clearTimeout, then setTimeout: the single pending hold moves
          holdDeadline := Some(now + SPEED_HOLD_TIME);
          updates := updates + [now];
        }
      }
    }

    /** The hold timer's callback, run by the event loop once its deadline
        has passed: the read-out falls back to "0". */
    method FireHoldTimer(now: int)
      requires Valid()
      modifies this`display, this`holdDeadline
      ensures Valid()
      ensures old(holdDeadline).Some? && old(holdDeadline).value <= now ==>
        display == Zero && holdDeadline == None
      ensures !(old(holdDeadline).Some? && old(holdDeadline).value <= now) ==>
        display == old(display) && holdDeadline == old(holdDeadline)
    {
      if holdDeadline.Some? && holdDeadline.value <= now {
        display := Zero;
        holdDeadline := None;
      }
    }

    /** The start button: toggles `measuring`; starting clears the
        observation, the shown speed and the throttle and records the start
        time; both starting and stopping cancel the hold and show "0". */
    method PressStart(now: int)
      requires Valid()
      modifies this
      ensures Valid()
      ensures measuring == !old(measuring)
      ensures display == Zero && holdDeadline == None
      ensures measuring ==>
        && startTime == Some(now)
        && lastBallPosition == None && lastBallTime == None
        && lastSpeed == None && lastSpeedUpdateTime == None
      ensures !measuring ==>
        && startTime == old(startTime)
        && lastBallPosition == old(lastBallPosition) && lastBallTime == old(lastBallTime)
        && lastSpeed == old(lastSpeed) && lastSpeedUpdateTime == old(lastSpeedUpdateTime)
    {
      measuring := !measuring;
      if measuring {
        startTime := Some(now);
        lastBallPosition := None;
        lastBallTime := None;
        lastSpeed := None;
        lastSpeedUpdateTime := None;
        holdDeadline := None;
        display := Zero;
        updates := [];
      } else {
        holdDeadline := None;
        display := Zero;
      }
    }
  }
}
