/**
 * The brightest-pixel ball detector, `detectBall`, which the three browser
 * pages carry as identical copies. One row-major pass over the RGBA bytes of
 * a `width` x `height` canvas keeps the first pixel whose mean of red, green
 * and blue is strictly brighter than the running maximum, which starts at 0.
 */
module Detector {
  import opened Common

  /** `(data[i] + data[i+1] + data[i+2]) / 3` for the pixel starting at byte
      `i = 4 * p`; the alpha byte is ignored. */
  function Brightness(s: seq<byte>, p: nat): (b: real)
    requires 4 * p + 4 <= |s|
    ensures 0.0 <= b
  {
    (s[4 * p] as int + s[4 * p + 1] as int + s[4 * p + 2] as int) as real / 3.0
  }

  /**
   * The pixel index the scan holds after visiting the first `n` pixels:
   * a pixel replaces the held one only when it is strictly brighter.
   */
  function FirstBrightest(s: seq<byte>, n: nat): (k: nat)
    requires 4 * n <= |s|
    ensures if n == 0 then k == 0 else k < n
  {
    if n == 0 then 0
    else
      var k := FirstBrightest(s, n - 1);
      if Brightness(s, k) < Brightness(s, n - 1) then n - 1 else k
  }

  /** The scan's pick is a brightest pixel, and every pixel before it is
      strictly darker: ties go to the first pixel in row-major order. */
  lemma {:induction false} FirstBrightestIsFirstMaximum(s: seq<byte>, n: nat)
    requires 0 < n && 4 * n <= |s|
    ensures forall p :: 0 <= p < n ==> Brightness(s, p) <= Brightness(s, FirstBrightest(s, n))
    ensures forall p :: 0 <= p < FirstBrightest(s, n) ==> Brightness(s, p) < Brightness(s, FirstBrightest(s, n))
  {
    if n > 1 {
      FirstBrightestIsFirstMaximum(s, n - 1);
    }
  }

  /** Conversely, the first brightest pixel is the only index the scan can
      pick: the result is determined by the frame alone. */
  lemma FirstMaximumIsFirstBrightest(s: seq<byte>, n: nat, k: nat)
    requires k < n && 4 * n <= |s|
    requires forall p :: 0 <= p < n ==> Brightness(s, p) <= Brightness(s, k)
    requires forall p :: 0 <= p < k ==> Brightness(s, p) < Brightness(s, k)
    ensures FirstBrightest(s, n) == k
  {
    FirstBrightestIsFirstMaximum(s, n);
  }

  /** Pixel index `k` of a row-major raster `width` pixels wide as a point:
      `x = k % width`, `y = Math.floor(k / width)`. */
  function PointOf(k: nat, width: nat): Point
    requires 0 < width
  {
    Point(k % width, k / width)
  }

  /** A pixel index inside a `width` x `height` raster names a point inside it. */
  lemma PointOfInRaster(k: nat, width: nat, height: nat)
    requires 0 < width && k < width * height
    ensures 0 <= PointOf(k, width).x < width
    ensures 0 <= PointOf(k, width).y < height
    ensures PointOf(k, width).y * width + PointOf(k, width).x == k
  {
  }

  /** The point `detectBall` returns for the bytes `s` of a `width` x `height`
      canvas: inside the canvas, or (0, 0) for a canvas with no pixels. */
  function Brightest(s: seq<byte>, width: nat, height: nat): (ball: Point)
    requires |s| == 4 * (width * height)
    ensures 0 < width * height ==> 0 <= ball.x < width && 0 <= ball.y < height
    ensures width * height == 0 ==> ball == Point(0, 0)
  {
    if width == 0 then Point(0, 0)
    else
      var k := FirstBrightest(s, width * height);
      assert 0 < width * height ==> 0 <= PointOf(k, width).x < width && 0 <= PointOf(k, width).y < height by {
        if 0 < width * height { PointOfInRaster(k, width, height); }
      }
      PointOf(k, width)
  }

  /** The point `Brightest` names is the first pixel of maximal brightness:
      no pixel is brighter, and every pixel before it in row-major order is
      strictly darker. */
  lemma BrightestIsFirstMaximum(s: seq<byte>, width: nat, height: nat)
    requires |s| == 4 * (width * height)
    requires 0 < width * height
    ensures var ball := Brightest(s, width, height);
      var k := ball.y * width + ball.x;
      && 0 <= k < width * height
      && (forall p :: 0 <= p < width * height ==> Brightness(s, p) <= Brightness(s, k))
      && (forall p :: 0 <= p < k ==> Brightness(s, p) < Brightness(s, k))
  {
    var n := width * height;
    FirstBrightestIsFirstMaximum(s, n);
    PointOfInRaster(FirstBrightest(s, n), width, height);
  }

  /** In a frame with no lit pixel, `detectBall` answers (0, 0). */
  lemma BlackFrameGivesOrigin(s: seq<byte>, width: nat, height: nat)
    requires |s| == 4 * (width * height)
    requires forall p :: 0 <= p < width * height ==> Brightness(s, p) == 0.0
    ensures Brightest(s, width, height) == Point(0, 0)
  {
    if 0 < width * height {
      var k := FirstBrightest(s, width * height);
      FirstBrightestIsFirstMaximum(s, width * height);
      assert Brightness(s, k) == 0.0 == Brightness(s, 0);
    }
  }

  /**
   * `detectBall`: one pass over the bytes, four at a time, keeping the running
   * maximum brightness and the coordinates of the pixel that set it.
   */
  method DetectBall(data: array<byte>, width: nat, height: nat) returns (ball: Point)
    requires data.Length == 4 * (width * height)
    ensures ball == Brightest(data[..], width, height)
    ensures 0 < width * height ==> 0 <= ball.x < width && 0 <= ball.y < height
  {
    ghost var s := data[..];
    ghost var n := width * height;
    var maxBrightness := 0.0;
    var ballX, ballY := 0, 0;
    var i := 0;
    ghost var p := 0;
    while i < data.Length
      invariant 0 <= p <= n && i == 4 * p
      invariant p == 0 ==> maxBrightness == 0.0 && ballX == 0 && ballY == 0
      invariant 0 < p ==> 0 < width
      invariant 0 < p ==>
        var k := FirstBrightest(s, p);
        && maxBrightness == Brightness(s, k)
        && ballX == k % width && ballY == k / width
    {
      assert i / 4 == p;
      var brightness := (data[i] as int + data[i + 1] as int + data[i + 2] as int) as real / 3.0;
      assert brightness == Brightness(s, p);
      if brightness > maxBrightness {
        maxBrightness := brightness;
        ballX := (i / 4) % width;
        ballY := (i / 4) / width;
      }
      i := i + 4;
      p := p + 1;
    }
    ball := Point(ballX, ballY);
  }
}
