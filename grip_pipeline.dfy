/**
 The blur step of `GripPipeline` (main.py), the pipeline that feeds the
 heading decision. It derives its filter parameters from the radius by the
 same rule as `GripPipelinePublish`, as `BlurCallFor` states.
 */
module GripPipeline {
  import opened Blur
  import PublishPipeline

  /**
   The filter call `__blur` makes for a blur kind, given the radius already
   rounded by Python's `round`: the same call as `GripPipelinePublish`
   makes, so its kernel is odd, and positive exactly when `r` is not negative.
   */
  function BlurCallFor(kind: BlurType, r: int): (call: BlurCall)
    ensures call == PublishPipeline.BlurCallFor(kind, r)
    ensures call.HasKernel() ==> (IsOddPositive(call.ksize) <==> r >= 0)
  {
    if kind.BoxBlur? then Box(2 * r + 1)
    else if kind.GaussianBlur? then Gaussian(6 * r + 1, r)
    else if kind.MedianFilter? then Median(2 * r + 1)
    else Bilateral(-1, r, r)
  }

  /** The blur kind and radius this pipeline is configured with. */
  const ConfiguredBlurType: BlurType := GaussianBlur
  const ConfiguredBlurRadius: real := 3.8472440561712458

  /**
   Although the two pipelines are configured with different radii, both round
   to 4, so both blur with the same Gaussian.
   */
  lemma ConfiguredBlurMatchesPublish()
    ensures BlurCallFor(ConfiguredBlurType, RoundHalfEven(ConfiguredBlurRadius))
         == PublishPipeline.BlurCallFor(PublishPipeline.ConfiguredBlurType,
                                        RoundHalfEven(PublishPipeline.ConfiguredBlurRadius))
         == Gaussian(25, 4)
  {
    RoundHalfEvenUnique(ConfiguredBlurRadius, 4);
    PublishPipeline.ConfiguredBlurCall();
  }
}
