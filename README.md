# Interactive OpenCV parameter pickers, modelled in Dafny

The repository holds three small OpenCV scripts: a Canny edge picker, a Hough line picker and
a Hough circle picker. Each one loads a single image, sets up trackbars, and then runs a
`while True` loop. Every turn of that loop does the same things in order:

1. read the trackbar positions;
2. coerce them into arguments that are legal for the detector;
3. run the detector, which is a library call;
4. draw the result on a fresh copy of the image, or show the edge map as it is;
5. show the frame;
6. wait briefly for a key. The first key code other than -1 ends the loop.

This project models the parts the scripts own themselves:

- **Argument sanitisation.** This covers the floor-at-1 clamps, the odd kernel size that is
  at least 1, `dp` read in tenths and floored at 1.0, and the dependent rule on the radius
  pair. Each is a pure function. Lemmas prove its bounds, that it leaves legal inputs alone,
  that it is idempotent, and what ranges it produces for in-range trackbar positions.
- **The poll loop.** It is modelled as a method over a finite sequence of turns. Each turn
  holds a snapshot of the trackbars and the key code `waitKey` returned. The method returns
  what it passed to the detector and the frames it showed. It is proved that:
  - it shows one frame per turn;
  - it stops right after the first turn whose key is not -1;
  - it ends in `Terminated` exactly when such a turn exists;
  - each frame, and each argument vector, depends only on the original image and that
    turn's trackbar positions. Nothing carries over from one turn to the next.
- **Drawing on a copy.** The image is an `array` of BGR pixels, and each turn copies it into
  a fresh array. The loop methods have no `modifies` clause, so the verifier itself
  guarantees that the original image is never written. A drawing call is a command that the
  rasteriser applies to the copy in place. It is proved that:
  - a circle result of n circles issues exactly 2n commands: for each circle, a blue outline
    at its radius with thickness 2, then a red marker of radius 2 with thickness 3, in
    detection order;
  - a line result issues one blue, 1-pixel, anti-aliased segment per line, in order;
  - a `None` result issues no commands, so the shown frame is the original image.

The OpenCV calls are parameters of the model: `HoughCircles`, `HoughLines`, `GaussianBlur`,
`Canny`, the rasteriser behind `cv2.circle` and `cv2.line`, and the line-endpoint geometry.
The greyscale or edge image that each script computes once before its loop is a parameter
of an abstract type.

Modules: `Sliders` (trackbar ranges, the `max(x, 1)` clamp), `Poll` (turns, loop state, how
many turns run), `Drawing` (pixels, draw commands, copy and draw), and one module per
script: `HoughCirclePicker`, `HoughLinePicker`, `CannyEdgePicker`.

Two points about the scripts that are easy to misread:

- `cv2.createTrackbar(name, window, value, count, ...)` takes an initial position and an
  upper end. Every trackbar's range is therefore [0, count]. It is not [initial, count].
  For example, "dp x10" starts at 1, which gives dp = 0.1 before the clamp, and the clamp
  raises it to 1.0.
- The radius rule only fixes a positive `maxRadius` that is strictly below `minRadius`. An
  equal pair passes through unchanged. So the sanitised vector guarantees
  `maxRadius == 0 || maxRadius >= minRadius`, not `maxRadius > minRadius`.

## Model

| member | source | states |
|---|---|---|
| `Sliders.FloorAtOne` | Pertemuan_7/hough_circle_picker.py:52-54 | `max(raw, 1)`: the result is at least 1, equals `raw` when `raw >= 1`, and is 1 otherwise |
| `Sliders.FloorAtOneIdempotent` | Pertemuan_7/hough_line_picker.py:49-51 | clamping an already clamped value changes nothing |
| `Sliders.FloorAtOneInRange` | Pertemuan_7/hough_line_picker.py:31-33 | a position in a trackbar range [0, count] with count >= 1 clamps into [1, count] |
| `Poll.TicksRun` | Pertemuan_7/hough_circle_picker.py:78-82 | the number of turns run is at most the number of turns; every turn before the last has key -1; the last has a key other than -1 exactly when some turn does; with no key, every turn runs |
| `Poll.TicksRunUnique` | Pertemuan_7/hough_line_picker.py:86-90 | a loop that stops after the first turn with a key other than -1, or runs out of input with no key, has run exactly `TicksRun` turns |
| `Drawing.Painted` | Pertemuan_7/hough_circle_picker.py:74-76 | applying draw commands in order keeps the buffer's size, and no commands leave the buffer as it was |
| `Drawing.PaintedConcat` | Pertemuan_7/hough_line_picker.py:68-84 | drawing two batches one after the other is drawing their concatenation: later commands are drawn over earlier ones |
| `Drawing.CopyImage` | Pertemuan_7/hough_circle_picker.py:40 | `img_orig.copy()` gives a freshly allocated buffer with the same pixels, and the source is not written |
| `Drawing.Draw` | Pertemuan_7/hough_line_picker.py:83-84 | one drawing call replaces the buffer's pixels with the rasteriser's result for that command, in place |
| `HoughCirclePicker.FixMaxRadius` | Pertemuan_7/hough_circle_picker.py:56-57 | the upper radius changes exactly when it is positive and below `minRadius`, and then becomes `minRadius + 1`; a non-negative upper radius ends as 0 or at least `minRadius` |
| `HoughCirclePicker.EnforceMinimums` | Pertemuan_7/hough_circle_picker.py:51-57 | `dp` is `max(dp, 1.0)`: exactly 1.0 below 1.0, kept otherwise; `minDist`, `param1` and `param2` are each `max(x, 1)`; `minRadius` is untouched; `maxRadius` follows the radius rule |
| `HoughCirclePicker.Sanitize` | Pertemuan_7/hough_circle_picker.py:43-57 | the detector's `dp` is at least 1.0, exactly 1.0 for any position <= 10, and position/10 from 10 up; `minDist`, `param1` and `param2` are `max(raw, 1)`; `minRadius` is the position read; `maxRadius` is `minRadius + 1` when positive and below it, else as read; for a non-negative upper position the result is 0 or at least `minRadius` |
| `HoughCirclePicker.EnforceMinimumsIdempotent` | Pertemuan_7/hough_circle_picker.py:51-57 | re-applying the minimums and the radius rule to a sanitised vector changes nothing |
| `HoughCirclePicker.SanitizedInRange` | Pertemuan_7/hough_circle_picker.py:31-36 | for in-range positions: dp in [1.0, 3.0], minDist in [1, 300], param1 in [1, 300], param2 in [1, 150], minRadius in [0, 100], maxRadius in [0, 300] and 0 or at least minRadius |
| `HoughCirclePicker.CircleCommands` | Pertemuan_7/hough_circle_picker.py:74-76 | n circles give exactly 2n draw calls; call 2i is circle i's outline (its radius, colour (255,0,0), thickness 2) and call 2i+1 its centre marker (radius 2, colour (0,0,255), thickness 3) |
| `HoughCirclePicker.FrameCommands` | Pertemuan_7/hough_circle_picker.py:72-76 | a `None` result draws nothing; otherwise the circles' commands are drawn |
| `HoughCirclePicker.DrawCircles` | Pertemuan_7/hough_circle_picker.py:72-76 | the buffer afterwards is the old buffer with that turn's circle commands drawn in order |
| `HoughCirclePicker.Run` | Pertemuan_7/hough_circle_picker.py:39-82 | one detector call and one frame per turn, for `TicksRun(ticks)` turns; `Terminated` exactly when a key other than -1 arrives; turn i passes `Sanitize` of its own positions and shows its circles drawn on the unchanged original image |
| `HoughLinePicker.Sanitize` | Pertemuan_7/hough_line_picker.py:42-51 | `rho`, `theta_deg` and `threshold` each equal `max(raw, 1)` (1 for position 0, the position otherwise); `srn` and `stn` pass through unchanged |
| `HoughLinePicker.SanitizeIdempotent` | Pertemuan_7/hough_line_picker.py:49-51 | sanitising an already sanitised vector gives it back |
| `HoughLinePicker.SanitizedInRange` | Pertemuan_7/hough_line_picker.py:31-35 | for in-range positions: rho in [1, 10], theta_deg in [1, 180], threshold in [1, 300], srn and stn in [0, 10] |
| `HoughLinePicker.LineCommands` | Pertemuan_7/hough_line_picker.py:68-84 | n lines give exactly n draw calls; call i is line i's segment (colour (255,0,0), width 1, anti-aliased) |
| `HoughLinePicker.FrameCommands` | Pertemuan_7/hough_line_picker.py:67-68 | a `None` result draws nothing; otherwise the lines' commands are drawn |
| `HoughLinePicker.DrawLines` | Pertemuan_7/hough_line_picker.py:67-84 | the buffer afterwards is the old buffer with that turn's segments drawn in detection order |
| `HoughLinePicker.Run` | Pertemuan_7/hough_line_picker.py:38-90 | one detector call and one frame per turn, for `TicksRun(ticks)` turns; `Terminated` exactly when a key other than -1 arrives; turn i passes `Sanitize` of its own positions and nothing from earlier turns, and shows its lines drawn on the unchanged original image |
| `CannyEdgePicker.FixKernel` | Pertemuan_6/canny_edge_detection_picker.py:41-45 | the kernel size is odd and at least 1; it equals the input exactly when the input is odd and at least 1; for a non-negative input it is the input or the input + 1 |
| `CannyEdgePicker.FixKernelIdempotent` | Pertemuan_6/canny_edge_detection_picker.py:42-45 | fixing a fixed kernel size again changes nothing |
| `CannyEdgePicker.FixKernelInRange` | Pertemuan_6/canny_edge_detection_picker.py:28 | a "Blur Kernel" position in [0, 31] gives a kernel size in [1, 31] |
| `CannyEdgePicker.Sanitize` | Pertemuan_6/canny_edge_detection_picker.py:37-51 | the blur kernel is `FixKernel` of the position: odd and at least 1, kept when already so, an even position raised by one; `tmin` and `tmax` reach Canny exactly as read, with no clamp and no ordering |
| `CannyEdgePicker.Run` | Pertemuan_6/canny_edge_detection_picker.py:35-58 | one frame per turn, for `TicksRun(ticks)` turns; `Terminated` exactly when a key other than -1 arrives; frame i is Canny of the grey image blurred with that turn's fixed kernel, at that turn's thresholds, shown with no overlay |

## Left out

- Argument parsing, image loading and the failed-load paths (`IOError`, `exit(1)`) are I/O.
- Window creation, trackbar creation, the `nothing` callback, `setTrackbarPos`, `imshow` and
  `destroyAllWindows` are UI plumbing. Trackbar positions and key codes are inputs to the loop
  methods, and "shown" means appended to the returned frame sequence.
- The bodies of `cvtColor`, `GaussianBlur`, `Canny`, `HoughLines` and `HoughCircles` are
  foreign library calls. They are function parameters. The pre-loop grey image (with its fixed
  9×9, σ = 1.5 blur) and the pre-loop edge map (`Canny(gray, 50, 200)`) are values of an
  abstract type passed in. The blur's σ = 0 argument is not represented.
- The rasteriser behind `cv2.circle` and `cv2.line` is a function parameter. It is only
  assumed to keep the buffer's size.
- Line endpoint geometry is floating-point trigonometry: `np.cos`, `np.sin`, the ±1000
  extension and the `int()` truncation. It is a function parameter from a detected line to
  its two end points.
- `np.deg2rad(theta_deg)` is floating point. The detector parameter receives the angle step
  in degrees, and the conversion is part of the foreign call.
- `np.uint16(np.around(circles))` rounding and 16-bit wrap-around are float-to-integer
  conversion in a foreign library. Detected circles are integer triples.
- `dp` is an exact Dafny `real`. Python's binary floating-point division by 10.0 is not
  modelled.
- The 30 ms and 1 ms waits of `waitKey` are wall-clock time. Only the returned key code is
  modelled.
- The image is a flat row-major buffer of BGR pixels, not a two-dimensional array.
- The script's drawing loop rebinds its turn-wide `rho` and `theta` to each detected line.
  The model does not represent that rebinding. It is harmless in the script because lines 42
  and 53 assign both names again at the top of the next turn, before any use. The model
  gets the same effect by computing each turn's arguments from that turn's trackbars.
- The source loop never ends without a key. The model runs over a finite sequence of turns
  and ends in `Running` when that input runs out with no key.
