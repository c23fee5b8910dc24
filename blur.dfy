/**
 The vocabulary shared by the two blur steps of the pipelines: the four blur
 kinds a pipeline can be configured with, the OpenCV call each kind turns into
 (with the integer parameters derived from the radius), and Python 3's
 `round`, which turns the configured floating-point radius into an integer.
 */
module Blur {

  /** The four kinds of the `BlurType` enumeration. */
  datatype BlurType = BoxBlur | GaussianBlur | MedianFilter | BilateralFilter

  /**
   The filter call a blur step makes, holding only the parameters that call
   needs: `cv2.blur` and `cv2.medianBlur` take a kernel size,
   `cv2.GaussianBlur` a kernel size and a sigma, `cv2.bilateralFilter` a
   diameter (-1 asks OpenCV to derive it from the sigmas) and two sigmas.
   */
  datatype BlurCall =
    | Box(ksize: int)
    | Gaussian(ksize: int, sigma: int)
    | Median(ksize: int)
    | Bilateral(diameter: int, sigmaColor: int, sigmaSpace: int)
  {
    /** The blur kind that this call performs. */
    function Kind(): BlurType {
      match this
      case Box(_) => BoxBlur
      case Gaussian(_, _) => GaussianBlur
      case Median(_) => MedianFilter
      case Bilateral(_, _, _) => BilateralFilter
    }

    /** Whether the call takes a square kernel size. */
    predicate HasKernel() {
      !Bilateral?
    }
  }

  /** OpenCV's requirement on a box, median or Gaussian kernel size. */
  predicate IsOddPositive(k: int) {
    k >= 1 && k % 2 == 1
  }

  /**
   Python 3's built-in `round` on a number, evaluated exactly: the nearest
   integer, with a tie going to the even neighbour.
   */
  function RoundHalfEven(x: real): (n: int)
    ensures -0.5 <= x - n as real <= 0.5
    ensures (x - n as real == 0.5 || x - n as real == -0.5) ==> n % 2 == 0
  {
    var f := x.Floor;
    var d := x - f as real;
    if d < 0.5 then f
    else if d > 0.5 then f + 1
    else if f % 2 == 0 then f
    else f + 1
  }

  /** Rounding is determined by its contract: any integer within one half of `x`, even on a tie, is the result. */
  lemma RoundHalfEvenUnique(x: real, n: int)
    requires -0.5 <= x - n as real <= 0.5
    requires (x - n as real == 0.5 || x - n as real == -0.5) ==> n % 2 == 0
    ensures RoundHalfEven(x) == n
  {
  }
}
