# Ball-speed pipeline of sokudo, modelled in Dafny

sokudo estimates the speed of a ball from a live camera. The repository holds
four copies of the per-frame pipeline, and each behaves differently:

- `script.js`, the top-level page: brightest-pixel detection; a one-second
  warm-up after start; a 45-degree camera-angle correction; a jump filter
  against the last shown speed; a 10-pixel distance floor; and a five-second
  hold after which the read-out returns to "0".
- `simple-trackman/script.js`: the same detection, warm-up, angle correction
  and hold. It has no jump filter and no distance floor. Instead the read-out
  is rewritten at most once every 500 ms.
- `simple-trackman/static/js/main.js`: the same detection. It has no warm-up,
  no angle correction, no filters and no hold. Every frame after the first of
  a session shows a speed.
- `app.py`, the Flask server: keeps a window of the last ten detections in two
  parallel lists. Its estimate is the average speed between the oldest and
  the newest entry.

The model has one module per source file plus two shared modules:

- `Common`: optional values; RGBA bytes; pixel points; the read-out text
  (`Display`); and the floating-point primitives.
- `Detector`: `detectBall`, which is the same in the three pages.
- `Sokudo`: `script.js`.
- `SimpleTrackman`: `simple-trackman/script.js`.
- `StaticTrackman`: `simple-trackman/static/js/main.js`.
- `BallServer`: `app.py`.
- `Scenarios`: drives the two hold-timer pages through whole sessions.
  It covers warm-up, jitter, a known speed with hold expiry, restart and
  throttling.

Each page's closure variables become the fields of a `SpeedMeter` class. The
frame loop becomes `Tick(data, width, height, now)`. The start button becomes
`PressStart`. A `setTimeout`/`clearTimeout` pair becomes a single optional
`holdDeadline`. The timer callback becomes `FireHoldTimer(now)`, which the
event loop runs once the deadline has passed.

Dafny's reals have no square root, cosine or decimal rounding. `Math.sqrt`
(also `numpy.linalg.norm` of a difference), `Math.cos(45 * Math.PI / 180)` and
`toFixed(2)` are therefore the fields of a `Numerics` value given to each
constructor. All that is assumed of them is a positive cosine, a
non-negative square root, and a rounding that keeps non-negative numbers
non-negative.

`detectBall` in the simple-trackman pages (simple-trackman/script.js:43-56,
simple-trackman/static/js/main.js:34-47) is a verbatim copy of
script.js:65-78. The `Detector` rows below cite the latter.

Three behaviours of the code worth noting:

- Stopping does not clear the previous observation or the last shown speed.
  Only starting does (script.js:145-156).
- The jump filter runs before the distance floor (script.js:95-103). Either
  one vetoes the sample, so the order does not change the outcome.
- Nothing guards a zero elapsed time (script.js:87-88).

## Model

| member | source | states |
|---|---|---|
| Common.SqDist | script.js:83-86 | The squared pixel distance is never negative, and it is zero exactly when the two points coincide. |
| Common.PixelsPerSecondNonNegative | script.js:83-88 | Pixels per second between two observations in increasing time is never negative. |
| Common.AngleCorrectedKmhNonNegative | script.js:91 | The angle-corrected km/h (pixels per second * 0.1 / cos 45 degrees) is never negative. |
| Detector.Brightness | script.js:69 | A pixel's brightness, the mean of R, G and B with alpha ignored, is never negative. |
| Detector.FirstBrightest | script.js:68-75 | The pixel index the scan holds after n pixels lies among those n pixels (index 0 before any). |
| Detector.FirstBrightestIsFirstMaximum | script.js:66-74 | No pixel is brighter than the scan's pick, and every earlier pixel is strictly darker: strict `>` makes the first maximum win ties. |
| Detector.FirstMaximumIsFirstBrightest | script.js:70-74 | Conversely, the first maximal pixel is the only possible pick, so the result depends on the frame alone. |
| Detector.PointOfInRaster | script.js:72-73 | `x = k % width`, `y = floor(k / width)` lies inside the canvas and gives back `k` as `y * width + x`. |
| Detector.Brightest | script.js:65-77 | The detected point lies in [0, width) x [0, height), and is (0, 0) for a canvas without pixels. |
| Detector.BrightestIsFirstMaximum | script.js:65-77 | The detected point is the first pixel of maximal brightness in row-major order. |
| Detector.BlackFrameGivesOrigin | script.js:66-67 | A frame with no lit pixel gives (0, 0), because the running maximum starts at 0. |
| Detector.DetectBall | script.js:65-78 | The loop over the bytes, four at a time, returns exactly `Brightest`, which lies inside the canvas. |
| Sokudo.SpeedMeter.constructor | script.js:11-17 | Not measuring, every closure variable null, no hold pending, the read-out as the page's markup left it. |
| Sokudo.SpeedMeter.Tick | script.js:117-138 | When not measuring, nothing changes. When measuring, the brightest pixel and `now` always become the previous observation. The warm-up, the jump filter and the distance floor each leave the read-out, `lastSpeed`, `lastSpeedUpdateTime` and the hold untouched. Otherwise the rounded speed is shown and stored, `lastSpeedUpdateTime` is `now`, and the one pending hold ends at `now + 5000`. A speed on the read-out is never negative. `Valid` is kept: while a hold is pending the read-out shows `lastSpeed`, and no shown speed is more than 100 km/h from the rounded speed shown before it. |
| Sokudo.SpeedMeter.CalculateAndDisplaySpeed | script.js:81-114 | The same verdicts as `Tick` for one candidate speed: a veto leaves all display state alone, and acceptance shows the speed and moves the single hold to `now + 5000`. |
| Sokudo.SpeedMeter.FireHoldTimer | script.js:110-112 | Once the pending hold's deadline has passed, the read-out becomes "0" and no hold is pending. Before the deadline, nothing changes. |
| Sokudo.SpeedMeter.PressStart | script.js:140-157 | Toggles measuring. Both start and stop cancel the hold and show "0". Start records the start time and clears the observation, `lastSpeed` and `lastSpeedUpdateTime`, so the next frame cannot show a speed. Stop keeps them. |
| SimpleTrackman.ThrottleKeepsSpacing | simple-trackman/script.js:72-75 | A read-out update that passes the throttle keeps every two consecutive updates of a session at least 500 ms apart. |
| SimpleTrackman.SpeedMeter.constructor | simple-trackman/script.js:10-16 | Not measuring, every closure variable null, no hold pending. |
| SimpleTrackman.SpeedMeter.Tick | simple-trackman/script.js:86-107 | When not measuring, nothing changes. When measuring, the frame always becomes the previous observation. During the warm-up, or within 500 ms of the last update, the display state is untouched. Otherwise every speed, however large, is shown and held until `now + 5000`. A speed on the read-out is never negative. `Valid` keeps the session's updates at least 500 ms apart. |
| SimpleTrackman.SpeedMeter.CalculateAndDisplaySpeed | simple-trackman/script.js:59-83 | Warm-up and throttle are the only vetoes; there is no distance floor or jump filter. An update cancels the pending hold and arms one at `now + 5000`. |
| SimpleTrackman.SpeedMeter.FireHoldTimer | simple-trackman/script.js:78-80 | Once the pending hold's deadline has passed, the read-out becomes "0" and no hold is pending. |
| SimpleTrackman.SpeedMeter.PressStart | simple-trackman/script.js:109-126 | Toggles measuring. Both start and stop cancel the hold and show "0". Start also clears the observation, `lastSpeed` and the throttle's `lastSpeedUpdateTime`. |
| StaticTrackman.RawKmhNonNegative | simple-trackman/static/js/main.js:52-59 | The uncorrected speed, pixels per second * 0.1, is never negative when time moves forward. |
| StaticTrackman.CalculateSpeed | simple-trackman/static/js/main.js:50-64 | `null` exactly when there is no previous observation; there is no warm-up. Otherwise it is the rounded uncorrected speed, which is never negative. |
| StaticTrackman.SpeedMeter.constructor | simple-trackman/static/js/main.js:9-11 | Not measuring and no previous observation. |
| StaticTrackman.SpeedMeter.Tick | simple-trackman/static/js/main.js:67-93 | When not measuring, nothing changes. Otherwise the read-out is overwritten exactly when `calculateSpeed` gives a speed, "0.00" included, and the frame becomes the previous observation. A speed on the read-out is never negative. |
| StaticTrackman.SpeedMeter.PressStart | simple-trackman/static/js/main.js:95-102 | Toggles measuring. Starting clears only the previous observation. Nothing else changes, and the read-out keeps its value. |
| BallServer.CalculateSpeed | app.py:37-49 | `None` exactly when either list has fewer than two entries or the last time equals the first. |
| BallServer.CalculateSpeedReadsOnlyEnds | app.py:41-43 | Windows that agree on their first and last entries give the same estimate. |
| BallServer.CalculateSpeedOfEnds | app.py:41-49 | The estimate is (pixel distance / 50) / time difference * 3.6, taken between the first and last entries. |
| BallServer.CalculateSpeedNonNegative | app.py:41-49 | When the last time is later than the first, there is an estimate and it is not negative. |
| BallServer.Latest | app.py:57-60 | The window holds at most ten entries, and it is the whole list while the list has ten or fewer. |
| BallServer.PushKeepsLatest | app.py:54-60 | Appending to the latest-ten window, then dropping index 0 once it exceeds ten, gives the latest ten of the extended history. |
| BallServer.SpeedWindow.constructor | app.py:19-20 | Both lists start empty. |
| BallServer.SpeedWindow.ProcessFrame | app.py:51-65 | With no detection, both lists are unchanged and nothing is drawn. Otherwise the detection and its time go to the end of both lists, and index 0 leaves both once they exceed ten. The lists stay parallel and equal to the last ten detections ever made. The drawn speed is the estimate unless it is missing or 0.0. |

## Left out

- Camera acquisition and switching (`setupCamera`, `switchCamera`, `getUserMedia`) are asynchronous browser I/O.
- Canvas drawing and the DOM are not modelled. This covers `drawImage`, `getImageData`, the red circle, button text, background colour, status messages and `console.log`. Only the read-out text is modelled.
- The `readyState` check is not modelled. `Tick` stands for a frame that has data; a frame without data does nothing.
- `requestAnimationFrame` is not modelled; the driver calls `Tick` once per frame.
- Real timer scheduling is not modelled. `FireHoldTimer` may be called at any time after the deadline, or not at all.
- The clock is a parameter: `now` stands for `new Date().getTime()` in the pages and `time.time()` on the server.
- Floating point is not modelled; reals stand in for doubles. `Math.sqrt`, `Math.cos` and `toFixed(2)` are fields of `Numerics`. So the known read-out "14.14" for 100 pixels in one second is shown only as `toFixed2(10 / cos45)`.
- Sokudo.SpeedMeter.Tick and Sokudo.SpeedMeter.CalculateAndDisplaySpeed: require a timestamp later than the previous observation. The page guards neither an equal timestamp, where it divides by zero, nor a wall clock that steps backwards, where the elapsed time is negative and a negative speed can pass the filters and be shown (script.js:87-106). The model does not capture either case.
- SimpleTrackman.SpeedMeter.Tick and SimpleTrackman.SpeedMeter.CalculateAndDisplaySpeed: require a timestamp later than the previous observation, for the same reasons. A backward step would show a negative speed (simple-trackman/script.js:65-76).
- StaticTrackman.SpeedMeter.Tick: requires a timestamp later than the previous observation, for the same reasons. A backward step would show a negative speed (simple-trackman/static/js/main.js:56-60).
- JavaScript truthiness of a stored timestamp is not modelled: 0 would read as "no time". A stored time is treated as present whenever it is set, since `Date` timestamps are positive.
- `detect_ball` in app.py (HSV conversion, `inRange`, `findContours`, `moments`) is OpenCV; its result is the `detection` parameter of `ProcessFrame`.
- The Flask routes, `gen_frames`, JPEG encoding, multipart streaming, `cv2.putText` and `cv2.line` are server and stream I/O. `ProcessFrame` returns the speed it would draw.
- `SPEED_UPDATE_INTERVAL` in script.js:20 is never read.
