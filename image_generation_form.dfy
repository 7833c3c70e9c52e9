/**
 * The image generation form. It keeps no state of its own: the prompt and
 * the aspect ratio are properties, and submitting hands them to the caller.
 */
module ImageGenerationForm {
  import opened Wrappers
  import Text

  /** `ASPECT_RATIOS`: the items of the aspect ratio `Select`, in display order. */
  const AspectRatios: seq<string> := ["1:1", "16:9", "9:16", "4:3", "3:4", "21:9", "2:3", "3:2"]

  /** The aspect ratios offered are eight distinct values. */
  lemma AspectRatiosDistinct()
    ensures |AspectRatios| == 8
    ensures forall i, j :: 0 <= i < j < |AspectRatios| ==> AspectRatios[i] != AspectRatios[j]
  {
  }

  /** The arguments `handleSubmit` passes to `onGenerate`. */
  datatype Submission = Submission(prompt: string, aspectRatio: string)

  /** `handleSubmit`: nothing when the trimmed prompt is shorter than three code units, otherwise one call with the prompt and aspect ratio as given. */
  function SubmitCall(prompt: string, aspectRatio: string): (r: Option<Submission>)
    ensures r.Some? <==> Text.LongEnough(prompt)
    ensures r.Some? ==> r.value.prompt == prompt && r.value.aspectRatio == aspectRatio
  {
    if Text.LongEnough(prompt) then Some(Submission(prompt, aspectRatio)) else None
  }

  /** The submit button's `disabled` flag. */
  predicate SubmitDisabled(isLoading: bool, prompt: string)
    ensures isLoading ==> SubmitDisabled(isLoading, prompt)
    ensures (forall i :: 0 <= i < |prompt| ==> Text.IsTrimmable(prompt[i])) ==> SubmitDisabled(isLoading, prompt)
  {
    Text.TrimEmptyIffBlank(prompt);
    isLoading || !Text.LongEnough(prompt)
  }

  /** The button is enabled exactly when nothing is loading and a submit would call `onGenerate`. */
  lemma EnabledIffSubmits(isLoading: bool, prompt: string, aspectRatio: string)
    ensures !SubmitDisabled(isLoading, prompt) <==> !isLoading && SubmitCall(prompt, aspectRatio).Some?
  {
  }
}
