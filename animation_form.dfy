/**
 * The animation form: the user picks a generator, a concept, a number of
 * frames on a slider bounded by the generator's maximum and, for Gemini,
 * an optional reference image; submitting hands these to the page.
 */
module AnimationForm {
  import opened Wrappers
  import opened Browser
  import Text
  import Slider

  /** `AnimationGeneratorType`. */
  datatype Generator = Free | Replicate | Gemini

  /** The generator's id, which the page records as the history item's `subType`. */
  function GeneratorId(g: Generator): (id: string)
    ensures id in {"free", "replicate", "gemini"}
  {
    match g
    case Free => "free"
    case Replicate => "replicate"
    case Gemini => "gemini"
  }

  /** Different generators have different ids. */
  lemma GeneratorIdInjective(g: Generator, h: Generator)
    ensures GeneratorId(g) == GeneratorId(h) <==> g == h
  {
  }

  /** The initial number of frames and the slider's lower bound. */
  const MinFrames: int := 2

  /** The `maxFrames` column of the generator table: six for Free and Replicate, four for Gemini. */
  function MaxFrames(g: Generator): (n: int)
    ensures MinFrames <= n
    ensures n == 4 <==> g == Gemini
    ensures n == 6 <==> g != Gemini
  {
    match g
    case Free => 6
    case Replicate => 6
    case Gemini => 4
  }

  /** The frame count after switching to `g`: lowered to the maximum of `g` when above it, kept otherwise. */
  function ClampFrames(frames: int, g: Generator): (r: int)
    ensures r <= frames && r <= MaxFrames(g)
    ensures r == frames || r == MaxFrames(g)
  {
    if frames > MaxFrames(g) then MaxFrames(g) else frames
  }

  /** The frame counts the slider offers for a generator are exactly 2 through its maximum. */
  lemma SliderOffers(g: Generator, v: int)
    ensures v in Slider.Values(MinFrames, MaxFrames(g)) <==> MinFrames <= v <= MaxFrames(g)
  {
    Slider.OfferedIff(MinFrames, MaxFrames(g), v);
  }

  /** The arguments `handleSubmit` passes to `onGenerate`. */
  datatype Submission = Submission(generator: Generator, concept: string, frames: int, referenceImage: Option<File>)

  /**
   * `handleSubmit`: nothing when the trimmed concept is shorter than three
   * code units; otherwise one call with the generator, the concept as typed,
   * the frame count and the reference image if there is one.
   */
  function SubmitCall(generator: Generator, concept: string, frames: int, referenceImage: Option<File>): (r: Option<Submission>)
    ensures r.Some? <==> Text.LongEnough(concept)
    ensures r.Some? ==>
      && r.value.generator == generator && r.value.concept == concept
      && r.value.frames == frames && r.value.referenceImage == referenceImage
  {
    if Text.LongEnough(concept) then Some(Submission(generator, concept, frames, referenceImage)) else None
  }

  /** The submit button's `disabled` flag. */
  predicate SubmitDisabled(isLoading: bool, concept: string)
    ensures isLoading ==> SubmitDisabled(isLoading, concept)
    ensures (forall i :: 0 <= i < |concept| ==> Text.IsTrimmable(concept[i])) ==> SubmitDisabled(isLoading, concept)
  {
    Text.TrimEmptyIffBlank(concept);
    isLoading || !Text.LongEnough(concept)
  }

  /** The button is enabled exactly when nothing is loading and a submit would call `onGenerate`. */
  lemma EnabledIffSubmits(isLoading: bool, generator: Generator, concept: string, frames: int, referenceImage: Option<File>)
    ensures !SubmitDisabled(isLoading, concept) <==> !isLoading && SubmitCall(generator, concept, frames, referenceImage).Some?
  {
  }

  /** The form's state. */
  class Form {
    var selectedType: Generator
    var concept: string
    var frames: int
    var referenceImage: Option<File>
    var imagePreview: Option<string>

    /** The frame count always lies within the selected generator's slider bounds. */
    ghost predicate Valid()
      reads this
      ensures Valid() ==> frames in Slider.Values(MinFrames, MaxFrames(selectedType))
    {
      SliderOffers(selectedType, frames);
      MinFrames <= frames <= MaxFrames(selectedType)
    }

    constructor ()
      ensures Valid()
      ensures selectedType == Free && concept == "" && frames == MinFrames
      ensures referenceImage == None && imagePreview == None
    {
      selectedType := Free;
      concept := "";
      frames := 2;
      referenceImage := None;
      imagePreview := None;
    }

    /** A generator card's `onClick`: select it and lower the frame count to its maximum when above it. */
    method SelectGenerator(g: Generator)
      requires Valid()
      modifies this
      ensures Valid()
      ensures selectedType == g && frames == ClampFrames(old(frames), g)
      ensures frames <= old(frames)
      ensures concept == old(concept) && referenceImage == old(referenceImage) && imagePreview == old(imagePreview)
    {
      selectedType := g;
      if frames > MaxFrames(g) {
        frames := MaxFrames(g);
      }
    }

    /** The frames slider's `onValueChange`, which only reports values the slider offers. */
    method MoveSlider(value: int)
      requires Valid()
      requires value in Slider.Values(MinFrames, MaxFrames(selectedType))
      modifies this
      ensures Valid()
      ensures frames == value
      ensures selectedType == old(selectedType) && concept == old(concept)
      ensures referenceImage == old(referenceImage) && imagePreview == old(imagePreview)
    {
      SliderOffers(selectedType, value);
      frames := value;
    }

    /** The concept input's `onChange`. */
    method SetConcept(c: string)
      requires Valid()
      modifies this
      ensures Valid()
      ensures concept == c
      ensures selectedType == old(selectedType) && frames == old(frames)
      ensures referenceImage == old(referenceImage) && imagePreview == old(imagePreview)
    {
      concept := c;
    }

    /** `handleImageChange` with a picked file; the data-URL preview arrives later and is not modelled. */
    method ChooseImage(file: File)
      requires Valid()
      modifies this
      ensures Valid()
      ensures referenceImage == Some(file)
      ensures selectedType == old(selectedType) && concept == old(concept)
      ensures frames == old(frames) && imagePreview == old(imagePreview)
    {
      referenceImage := Some(file);
    }

    /** `clearImage`: drop the reference image and its preview. */
    method ClearImage()
      requires Valid()
      modifies this
      ensures Valid()
      ensures referenceImage == None && imagePreview == None
      ensures selectedType == old(selectedType) && concept == old(concept) && frames == old(frames)
    {
      referenceImage := None;
      imagePreview := None;
    }

    /** `handleSubmit` on the current state: the call to `onGenerate` it makes, if any. */
    method Submit() returns (call: Option<Submission>)
      requires Valid()
      ensures call == SubmitCall(selectedType, concept, frames, referenceImage)
      ensures call.Some? ==> MinFrames <= call.value.frames <= MaxFrames(call.value.generator)
    {
      if Text.LongEnough(concept) {
        call := Some(Submission(selectedType, concept, frames, referenceImage));
      } else {
        call := None;
      }
    }
  }
}
