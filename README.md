# FRC ball tracking: verified model of the pipeline logic

The repository turns camera frames into steering signals for an FRC robot.
Two OpenCV pipelines generated by GRIP do the work:

- `GripPipelinePublish` in `new/main.py` resizes, blurs, thresholds in HSV,
  finds contours and filters them.
- `GripPipeline` in `main.py` resizes, blurs and thresholds. main.py's
  `main()` reduces the bounding box of the mask to a heading of -1, 0 or 1.

Almost all of this is OpenCV and robot I/O. This Dafny project models the
three pieces of logic that belong to the repository itself. OpenCV's results
enter as plain inputs.

- **Contour filter** (`PublishPipeline`, `publish_pipeline.dfy`).
  - A contour is the record of what OpenCV measures: bounding width and
    height, area, perimeter, convex-hull area and point count.
  - `FilterContours` is the source's loop, with its early `continue`s.
  - It is proved against `Kept`, the passing contours in input order, and
    against `AnyCrashes`, which says exactly when Python raises
    `ZeroDivisionError`. The hull-area division is reached only after the
    size, area and perimeter checks pass. The height division is reached
    only after the solidity and vertex checks pass as well.
  - Lemmas cover the rest: exact membership, order (subsequence),
    idempotence, monotonicity under tighter bounds (which also never
    introduces a crash), and freedom from crashes under the configured
    bounds for geometrically consistent contours.
- **Blur parameters** (`Blur`, `PublishPipeline.BlurCallFor`,
  `GripPipeline.BlurCallFor`).
  - From the rounded radius `r`: box and median use kernel `2r+1`; the
    Gaussian uses kernel `6r+1` with sigma `r`; the bilateral filter uses
    sigmas `r` and an automatic diameter.
  - Kernels are always odd, and at least 1 exactly when `r >= 0`.
  - The two files use the same rule.
  - Python 3's `round` is modelled exactly (half to even). Both configured
    radii round to 4, giving a Gaussian with a 25-pixel kernel.
- **Heading** (`Steering`, `steering.dfy`).
  - -1 exactly when `0 < center_x < width*left`.
  - 1 exactly when `center_x > width*right`, given ordered thresholds.
  - 0 otherwise, including on the thresholds themselves and for an empty
    box.
  - Non-decreasing in the centre for positive centres.
  - Configured scenarios: 10, 150 and 80 on a 160-pixel screen.

Behaviour of the code worth noting:

- Python 3's `round` rounds halves to the even integer (2.5 gives 2).
- The bilateral filter is given `round(radius)`, not the radius itself, as
  both sigmas.
- A contour with zero hull area that reaches the solidity check raises
  `ZeroDivisionError`. It is not quietly rejected.
- The heading has only the values -1, 0 and 1.

## Model

| member | source | states |
|---|---|---|
| `Blur.RoundHalfEven` | new/main.py:117-121 | the rounded radius is within one half of the radius, and a tie goes to the even integer (Python 3 `round`) |
| `Blur.RoundHalfEvenUnique` | new/main.py:117-121 | any integer within one half of the radius, even on a tie, is the result of `round`, so the rounding is uniquely determined |
| `PublishPipeline.BlurCallFor` | new/main.py:116-126 | the call matches the configured blur kind; box and median kernels are `2r+1`, the Gaussian kernel is three sigmas each side with sigma `r`, the bilateral filter has sigmas `r` and an automatic diameter; every kernel is odd, and positive exactly when `r >= 0` |
| `PublishPipeline.ConfiguredBlurCall` | new/main.py:33-34 | the configured Gaussian blur of radius 4.2042… is a 25-pixel kernel with sigma 4 |
| `PublishPipeline.FilterContours` | new/main.py:159-202 | the loop raises `ZeroDivisionError` exactly when some contour reaches a division by zero; otherwise it returns exactly the passing contours, in input order |
| `PublishPipeline.DivisorsNonZeroWhenNoCrash` | new/main.py:187-199 | on a contour that does not raise, the hull area is non-zero once the size, area and perimeter checks pass, and the height is non-zero once the solidity and vertex checks pass too |
| `PublishPipeline.KeptMembers` | new/main.py:181-201 | a contour is in the output if and only if it is an input contour that passes all seven inclusive checks |
| `PublishPipeline.KeptIsSubsequence` | new/main.py:180-202 | the output is an order-preserving subsequence of the input |
| `PublishPipeline.KeptLength` | new/main.py:180-202 | the output is never longer than the input |
| `PublishPipeline.KeptAppend` | new/main.py:180-202 | filtering two lists one after the other gives the concatenation of the two outputs: each contour is decided alone |
| `PublishPipeline.PassesMonotone` | new/main.py:183-200 | a contour passing tighter bounds passes looser ones |
| `PublishPipeline.KeptAbsorbs` | new/main.py:180-202 | filtering the loose output again with tighter bounds gives the tight output |
| `PublishPipeline.Idempotent` | new/main.py:180-202 | filtering the output again with the same bounds returns the same list |
| `PublishPipeline.RefilterNeverCrashes` | new/main.py:192-198 | filtering the output again with the same bounds cannot divide by zero |
| `PublishPipeline.Monotone` | new/main.py:180-202 | raising any minimum or lowering any maximum yields a subsequence of the original output |
| `PublishPipeline.CrashesMonotone` | new/main.py:183-198 | tightening the bounds never introduces a division by zero |
| `PublishPipeline.ConfiguredNeverCrashes` | new/main.py:51-61 | with the configured bounds (minimum area 5000), contours whose area is at most their hull area and their bounding-box area never reach a division by zero |
| `GripPipeline.BlurCallFor` | main.py:75-85 | the blur in `GripPipeline` makes the same call as in `GripPipelinePublish` for every kind and rounded radius; its kernel is positive exactly when `r >= 0` |
| `GripPipeline.ConfiguredBlurMatchesPublish` | main.py:25-26 | the configured radius 3.847… rounds to the same Gaussian (kernel 25, sigma 4) as the other pipeline's 4.204… |
| `Steering.CenterX` | main.py:136 | the centre is equally far from the box's left and right edges |
| `Steering.Heading` | main.py:138-143 | the heading is always -1, 0 or 1 |
| `Steering.BoxHeading` | main.py:134-147 | the published heading for a bounding box is -1, 0 or 1, and 0 for an all-zero box |
| `Steering.LeftExactly` | main.py:138-139 | the heading is -1 if and only if `0 < center_x < screen_width*left_threshold` |
| `Steering.RightExactly` | main.py:138-141 | with `0 <= screen_width` and `left_threshold <= right_threshold`, the heading is 1 if and only if `center_x > screen_width*right_threshold` |
| `Steering.LeftTestedFirst` | main.py:138-141 | when both tests hold (thresholds out of order), the heading is -1 because the left test comes first |
| `Steering.NonPositiveCenterIsZero` | main.py:136-143 | a centre at or left of 0 gives heading 0 |
| `Steering.ThresholdsAreCentred` | main.py:138-141 | a centre exactly on the left or on the right threshold gives 0: both comparisons are strict |
| `Steering.MonotoneInCenter` | main.py:138-143 | for positive centres the heading is non-decreasing in the centre |
| `Steering.ConfiguredHeadings` | main.py:108-112 | with width 160 and fractions 0.48 and 0.52: centre 10 gives -1, 150 gives 1, 80 gives 0, and an all-zero box gives 0 |

## Left out

- The OpenCV calls (`cv2.resize`, `cvtColor`, `inRange`, the four blur
  filters, `findContours`, `boundingRect`, `contourArea`, `arcLength`,
  `convexHull`). They are foreign pixel and geometry code. Their results
  enter the model as the `Contour` record, the `Rect` box and the `BlurCall`
  value that describes the filter call.
- `__resize_image`, `__hsv_threshold` and `__find_contours` hold no logic of
  their own beyond their OpenCV calls. The only branch is the
  `external_only` choice of retrieval mode, which is not modelled.
- The `process()` methods of both classes only pass OpenCV results from one
  object field to the next in a fixed order.
- Both `main()` loops are left out: camera capture, NetworkTables
  publishing, `print` and the `while True` loops. Only the heading
  computation of main.py is modelled, as `Steering.BoxHeading`.
- The publishing of `output_data[0]` and `output_data[1]` in new/main.py is
  I/O code and is not modelled. It raises `IndexError` unless the filter
  keeps at least two contours. Otherwise `int()` raises `TypeError`, because
  a contour array holds at least two numbers. So this publishing never
  succeeds.
- Floating-point arithmetic: Python ints and floats are modelled as exact
  reals. The rounding of `100*area/hullArea`, `w/h`, `w/2` and
  `screen_width*threshold` is not captured. At the configured scenario
  points the float and real results fall on the same side of each threshold.
- `Blur.RoundHalfEven` takes the radius as an exact real. A radius written
  in decimal that is not exactly representable as a double is rounded from
  its decimal value. This matters only for values within one rounding error
  of a half.
- `PublishPipeline.ConfiguredNeverCrashes` assumes geometric consistency of
  OpenCV's measurements (area at most the hull area and the bounding-box
  area). OpenCV does not promise this for self-intersecting contours.
