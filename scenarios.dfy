/**
 * Sessions of the top-level page and the simple-trackman page driven through
 * their methods, with frames whose brightest pixel is given. What each
 * asserts follows from the method contracts alone.
 */
module Scenarios {
  import opened Common
  import Detector
  import Sokudo
  import SimpleTrackman

  /** Observations 200 ms and 500 ms after start fall in the warm-up: the
      read-out keeps the "0" written on start. */
  method WarmUpShowsNoSpeed(num: Numerics, f1: array<byte>, f2: array<byte>, w: nat, h: nat, t0: int)
    requires num.Valid()
    requires f1.Length == 4 * (w * h) && f2.Length == 4 * (w * h)
  {
    var m := new Sokudo.SpeedMeter(num);
    m.PressStart(t0);
    var b1 := m.Tick(f1, w, h, t0 + 200);
    var b2 := m.Tick(f2, w, h, t0 + 500);
    assert m.display == Zero && m.lastSpeed == None && m.holdDeadline == None;
    assert m.lastBallPosition == b2 && m.lastBallTime == Some(t0 + 500);
  }

  /** A move from (0, 0) to (5, 5), about 7.07 pixels, after the warm-up is
      jitter: nothing is shown, yet the observation advances. */
  method JitterIsIgnored(num: Numerics, f1: array<byte>, f2: array<byte>, w: nat, h: nat, t0: int)
    requires num.Valid()
    requires f1.Length == 4 * (w * h) && f2.Length == 4 * (w * h)
    requires Detector.Brightest(f1[..], w, h) == Point(0, 0)
    requires Detector.Brightest(f2[..], w, h) == Point(5, 5)
  {
    var m := new Sokudo.SpeedMeter(num);
    m.PressStart(t0);
    var b1 := m.Tick(f1, w, h, t0 + 1000);
    var b2 := m.Tick(f2, w, h, t0 + 1100);
    assert SqDist(Point(5, 5), Point(0, 0)) == 50;
    assert m.display == Zero && m.lastSpeed == None;
    assert m.lastBallPosition == Some(Point(5, 5));
  }

  /** (0, 0) then (100, 0) one second apart after the warm-up: 100 pixels/s,
      shown as toFixed(2) of 100 * 0.1 / cos 45 degrees and held for five
      seconds, after which the read-out is "0" again. */
  method KnownSpeedThenHoldExpires(num: Numerics, f1: array<byte>, f2: array<byte>, w: nat, h: nat, t0: int)
    requires num.Valid() && num.sqrt(10000.0) == 100.0
    requires f1.Length == 4 * (w * h) && f2.Length == 4 * (w * h)
    requires Detector.Brightest(f1[..], w, h) == Point(0, 0)
    requires Detector.Brightest(f2[..], w, h) == Point(100, 0)
  {
    var m := new Sokudo.SpeedMeter(num);
    m.PressStart(t0);
    var b1 := m.Tick(f1, w, h, t0 + 1000);
    assert SqDist(Point(100, 0), Point(0, 0)) == 10000;
    assert PixelsPerSecond(num, Point(0, 0), t0 + 1000, Point(100, 0), t0 + 2000) == 100.0;
    var b2 := m.Tick(f2, w, h, t0 + 2000);
    var kmh := num.toFixed2(10.0 / num.cos45);
    assert m.display == Speed(kmh) && m.lastSpeed == Some(kmh);
    assert m.holdDeadline == Some(t0 + 7000);
    m.FireHoldTimer(t0 + 6999);
    assert m.display == Speed(kmh);
    m.FireHoldTimer(t0 + 7000);
    assert m.display == Zero && m.holdDeadline == None;
  }

  /** After stop and start the first frame has no previous observation, so
      nothing is shown, whatever the previous session left behind. */
  method RestartForgetsObservation(num: Numerics, f1: array<byte>, f2: array<byte>, w: nat, h: nat, t0: int)
    requires num.Valid()
    requires f1.Length == 4 * (w * h) && f2.Length == 4 * (w * h)
  {
    var m := new Sokudo.SpeedMeter(num);
    m.PressStart(t0);
    var b1 := m.Tick(f1, w, h, t0 + 5000);
    m.PressStart(t0 + 6000);
    assert !m.measuring && m.display == Zero && m.holdDeadline == None;
    m.PressStart(t0 + 7000);
    var b2 := m.Tick(f2, w, h, t0 + 9000);
    assert m.display == Zero && m.lastSpeed == None;
  }

  /** On the simple-trackman page a frame 300 ms after a shown speed is
      throttled: the read-out keeps the earlier speed. */
  method ThrottleHoldsEarlierSpeed(num: Numerics, f1: array<byte>, f2: array<byte>, f3: array<byte>,
                                   w: nat, h: nat, t0: int)
    requires num.Valid()
    requires f1.Length == 4 * (w * h) && f2.Length == 4 * (w * h) && f3.Length == 4 * (w * h)
  {
    var m := new SimpleTrackman.SpeedMeter(num);
    m.PressStart(t0);
    var b1 := m.Tick(f1, w, h, t0 + 1000);
    var b2 := m.Tick(f2, w, h, t0 + 1100);
    assert m.lastSpeedUpdateTime == Some(t0 + 1100);
    var shown := m.display;
    var b3 := m.Tick(f3, w, h, t0 + 1400);
    assert m.display == shown && m.lastSpeedUpdateTime == Some(t0 + 1100);
  }
}
