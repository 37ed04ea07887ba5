/**
 * Values shared by the three browser pages and the Flask server: optional
 * values (JavaScript `null`, Python `None`), frame bytes, pixel points, the
 * text of the speed read-out, and the floating-point primitives the speed
 * formulas rely on.
 */
module Common {

  /** `null` / `None`, or a value. */
  datatype Option<T> = None | Some(value: T)

  /** One channel of an RGBA pixel, as a canvas `ImageData` holds it. */
  newtype byte = x: int | 0 <= x < 256

  /** A pixel position: column `x`, row `y`. */
  datatype Point = Point(x: int, y: int)

  /**
   * The text of the speed read-out element.
   * `Markup` is whatever the page's markup puts there before any click,
   * `Zero` is the literal "0" the two hold-timer pages write on start, stop
   * and hold expiry, and `Speed(r)` is the `toFixed(2)` text of `r` ("0.00" is
   * `Speed(0.0)`, not `Zero`).
   */
  datatype Display = Markup | Zero | Speed(kmh: real)

  /**
   * The floating-point primitives the speed formulas call, which Dafny's
   * reals do not have: `Math.sqrt` (also `numpy.linalg.norm` of a difference
   * vector), `Math.cos(45 * Math.PI / 180)` and `Number.prototype.toFixed(2)`
   * read back as a number.
   */
  datatype Numerics = Numerics(sqrt: real -> real, cos45: real, toFixed2: real -> real)
  {
    /** What the formulas need of the primitives: a positive cosine, a
        non-negative square root, and a rounding that keeps a non-negative
        number non-negative. */
    ghost predicate Valid()
    {
      && 0.0 < cos45
      && (forall x: real :: 0.0 <= x ==> 0.0 <= sqrt(x))
      && (forall x: real :: 0.0 <= x ==> 0.0 <= toFixed2(x))
    }
  }

  /** Squared Euclidean distance between two pixels:
      `Math.pow(dx, 2) + Math.pow(dy, 2)`. */
  function SqDist(a: Point, b: Point): (d: int)
    ensures 0 <= d
    ensures d == 0 <==> a == b
  {
    var dx, dy := a.x - b.x, a.y - b.y;
    dx * dx + dy * dy
  }

  /** `Math.abs` on reals. */
  function Abs(r: real): real
  {
    if r < 0.0 then -r else r
  }

  /**
   * Pixels per second between two observations whose timestamps are in
   * milliseconds: `distance / ((t1 - t0) / 1000)`.
   */
  function PixelsPerSecond(num: Numerics, from: Point, t0: int, to: Point, t1: int): real
    requires t0 < t1
  {
    num.sqrt(SqDist(to, from) as real) / ((t1 - t0) as real / 1000.0)
  }

  /** A move between two observations in increasing time never has a
      negative rate. */
  lemma PixelsPerSecondNonNegative(num: Numerics, from: Point, t0: int, to: Point, t1: int)
    requires num.Valid()
    requires t0 < t1
    ensures 0.0 <= PixelsPerSecond(num, from, t0, to, t1)
  {
  }

  /** km/h of a move with the 45-degree camera-angle correction of the two
      hold-timer pages: pixels per second * 0.1 / cos 45 degrees. */
  function AngleCorrectedKmh(num: Numerics, from: Point, t0: int, to: Point, t1: int): real
    requires num.Valid()
    requires t0 < t1
  {
    PixelsPerSecond(num, from, t0, to, t1) * 0.1 / num.cos45
  }

  /** The angle correction never makes a speed negative. */
  lemma AngleCorrectedKmhNonNegative(num: Numerics, from: Point, t0: int, to: Point, t1: int)
    requires num.Valid()
    requires t0 < t1
    ensures 0.0 <= AngleCorrectedKmh(num, from, t0, to, t1)
  {
  }
}
