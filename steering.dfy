/**
 The heading decision of the control loop in main.py's `main()`: the bounding
 box of the thresholded image is reduced to a heading of -1 (target on the
 left), 1 (target on the right) or 0 (centred, or no target).

 Pixel coordinates are Python ints and the threshold products are floats;
 both are modelled as mathematical reals.
 */
module Steering {

  /** What `cv2.boundingRect` returns: an all-zero box when the image has no foreground. */
  datatype Rect = Rect(x: int, y: int, w: int, h: int)

  const ScreenWidth: real := 160.0
  const LeftThreshold: real := 0.48
  const RightThreshold: real := 0.52

  /** The horizontal centre of a box: the point equally far from its left and right edges. */
  function CenterX(box: Rect): (cx: real)
    ensures cx - box.x as real == (box.x + box.w) as real - cx
  {
    box.x as real + box.w as real / 2.0
  }

  /**
   The heading for a centre `cx` on a screen `screenWidth` wide, with the
   left and right thresholds given as fractions of the width. The left test
   comes first and excludes a centre at or left of 0; both tests are strict.
   */
  function Heading(cx: real, screenWidth: real, left: real, right: real): (heading: int)
    ensures heading == -1 || heading == 0 || heading == 1
  {
    if 0.0 < cx < screenWidth * left then -1
    else if cx > screenWidth * right then 1
    else 0
  }

  /** One step of the control loop: the heading published for the bounding box of the mask. */
  function BoxHeading(box: Rect): (heading: int)
    ensures heading == -1 || heading == 0 || heading == 1
    ensures box.x == 0 && box.w == 0 ==> heading == 0
  {
    Heading(CenterX(box), ScreenWidth, LeftThreshold, RightThreshold)
  }

  /** The thresholds are sensible: a non-negative screen width and the left fraction not above the right. */
  predicate Ordered(screenWidth: real, left: real, right: real) {
    0.0 <= screenWidth && left <= right
  }

  /** Heading is -1 exactly when the centre is strictly between 0 and the left threshold. */
  lemma LeftExactly(cx: real, screenWidth: real, left: real, right: real)
    ensures Heading(cx, screenWidth, left, right) == -1 <==> 0.0 < cx < screenWidth * left
  {
  }

  /**
   Heading is 1 exactly when the centre is strictly right of the right
   threshold, provided that threshold is not left of the left one.
   */
  lemma RightExactly(cx: real, screenWidth: real, left: real, right: real)
    requires Ordered(screenWidth, left, right)
    ensures Heading(cx, screenWidth, left, right) == 1 <==> cx > screenWidth * right
  {
  }

  /** With the thresholds out of order, a centre beyond both is reported as left: the left test wins. */
  lemma LeftTestedFirst(cx: real, screenWidth: real, left: real, right: real)
    requires 0.0 < cx < screenWidth * left && cx > screenWidth * right
    ensures Heading(cx, screenWidth, left, right) == -1
  {
  }

  /** A centre at or left of 0, as for an empty box, gives heading 0. */
  lemma NonPositiveCenterIsZero(cx: real, screenWidth: real, left: real, right: real)
    requires 0.0 <= screenWidth && 0.0 <= right
    requires cx <= 0.0
    ensures Heading(cx, screenWidth, left, right) == 0
  {
  }

  /** A centre exactly on either threshold is not steered towards: both tests are strict. */
  lemma ThresholdsAreCentred(screenWidth: real, left: real, right: real)
    requires Ordered(screenWidth, left, right)
    ensures Heading(screenWidth * left, screenWidth, left, right) == 0
    ensures Heading(screenWidth * right, screenWidth, left, right) == 0
  {
  }

  /** For positive centres, moving the centre right never moves the heading left. */
  lemma MonotoneInCenter(a: real, b: real, screenWidth: real, left: real, right: real)
    requires Ordered(screenWidth, left, right)
    requires 0.0 < a <= b
    ensures Heading(a, screenWidth, left, right) <= Heading(b, screenWidth, left, right)
  {
  }

  /** The configured screen: 10 steers left, 150 steers right, 80 is centred, an empty box is centred. */
  lemma ConfiguredHeadings()
    ensures Heading(10.0, ScreenWidth, LeftThreshold, RightThreshold) == -1
    ensures Heading(150.0, ScreenWidth, LeftThreshold, RightThreshold) == 1
    ensures Heading(80.0, ScreenWidth, LeftThreshold, RightThreshold) == 0
    ensures BoxHeading(Rect(0, 0, 0, 0)) == 0
  {
  }
}
