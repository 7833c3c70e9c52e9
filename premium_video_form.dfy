/**
 * The premium video form. It keeps no state of its own: the prompt and the
 * duration are properties, and submitting hands them to the caller.
 */
module PremiumVideoForm {
  import opened Wrappers
  import Text
  import Slider

  /** The duration slider's bounds, in seconds. */
  const MinDuration: int := 1
  const MaxDuration: int := 10

  /** The arguments `handleSubmit` passes to `onGenerate`. */
  datatype Submission = Submission(prompt: string, duration: int)

  /** `handleSubmit`: nothing when the trimmed prompt is shorter than three code units, otherwise one call with the prompt and duration as given. */
  function SubmitCall(prompt: string, duration: int): (r: Option<Submission>)
    ensures r.Some? <==> Text.LongEnough(prompt)
    ensures r.Some? ==> r.value.prompt == prompt && r.value.duration == duration
  {
    if Text.LongEnough(prompt) then Some(Submission(prompt, duration)) else None
  }

  /** The submit button's `disabled` flag. */
  predicate SubmitDisabled(isLoading: bool, prompt: string)
    ensures isLoading ==> SubmitDisabled(isLoading, prompt)
    ensures (forall i :: 0 <= i < |prompt| ==> Text.IsTrimmable(prompt[i])) ==> SubmitDisabled(isLoading, prompt)
  {
    Text.TrimEmptyIffBlank(prompt);
    isLoading || !Text.LongEnough(prompt)
  }

  /** The button is enabled exactly when nothing is loading and a submit would call `onGenerate`. */
  lemma EnabledIffSubmits(isLoading: bool, prompt: string, duration: int)
    ensures !SubmitDisabled(isLoading, prompt) <==> !isLoading && SubmitCall(prompt, duration).Some?
  {
  }

  /** The durations the slider offers: the whole seconds 1 through 10. */
  function DurationChoices(): (r: seq<int>)
    ensures |r| == 10
    ensures forall i :: 0 <= i < |r| ==> r[i] == i + 1
    ensures forall d :: d in r <==> MinDuration <= d <= MaxDuration
  {
    var r := Slider.Values(MinDuration, MaxDuration);
    assert forall d :: d in r <==> MinDuration <= d <= MaxDuration by {
      forall d ensures d in r <==> MinDuration <= d <= MaxDuration {
        Slider.OfferedIff(MinDuration, MaxDuration, d);
      }
    }
    r
  }
}
