/**
 * The sticker form: the user picks a generator, a prompt, an animation
 * style from the list that generator offers and, for Gemini, an optional
 * reference image; submitting hands these to the page.
 */
module StickerForm {
  import opened Wrappers
  import opened Browser
  import Text

  /** `StickerGeneratorType`. */
  datatype Generator = Free | Replicate | Gemini

  /** The generator's id, which the page records as the history item's `subType`. */
  function GeneratorId(g: Generator): (id: string)
    ensures id in {"free", "replicate", "gemini"}
  {
    match g
    case Free => "free"
    case Replicate => "replicate"
    case Gemini => "gemini"
  }

  /** Different generators have different ids. */
  lemma GeneratorIdInjective(g: Generator, h: Generator)
    ensures GeneratorId(g) == GeneratorId(h) <==> g == h
  {
  }

  /** `freeAnimations`: the `AnimationType` values. */
  const FreeAnimations: seq<string> := ["float", "bounce", "pulse", "wiggle", "static"]

  /** `replicateAnimations`: the `ReplicateAnimationType` values. */
  const ReplicateAnimations: seq<string> := ["bounce", "shake", "pulse", "wiggle", "static"]

  /** The animation styles offered for a generator: Replicate has its own list, the others share the free list. */
  function Animations(g: Generator): (r: seq<string>)
    ensures |r| == 5
    ensures "bounce" in r && "pulse" in r && "wiggle" in r && "static" in r
    ensures "float" in r <==> g != Replicate
    ensures "shake" in r <==> g == Replicate
  {
    if g == Replicate then ReplicateAnimations else FreeAnimations
  }

  /** The style a generator card selects when clicked. */
  function DefaultAnimation(g: Generator): (a: string)
    ensures a in Animations(g)
  {
    if g == Replicate then "bounce" else "float"
  }

  /** The arguments `handleSubmit` passes to `onGenerate`. */
  datatype Submission = Submission(generator: Generator, prompt: string, animation: string, referenceImage: Option<File>)

  /**
   * `handleSubmit`: nothing when the trimmed prompt is shorter than three
   * code units; otherwise one call with the generator, the prompt as typed
   * (untrimmed), the animation and the reference image if there is one.
   */
  function SubmitCall(generator: Generator, prompt: string, animation: string, referenceImage: Option<File>): (r: Option<Submission>)
    ensures r.Some? <==> Text.LongEnough(prompt)
    ensures r.Some? ==>
      && r.value.generator == generator && r.value.prompt == prompt
      && r.value.animation == animation && r.value.referenceImage == referenceImage
  {
    if Text.LongEnough(prompt) then Some(Submission(generator, prompt, animation, referenceImage)) else None
  }

  /** The submit button's `disabled` flag. */
  predicate SubmitDisabled(isLoading: bool, prompt: string)
    ensures isLoading ==> SubmitDisabled(isLoading, prompt)
    ensures (forall i :: 0 <= i < |prompt| ==> Text.IsTrimmable(prompt[i])) ==> SubmitDisabled(isLoading, prompt)
  {
    Text.TrimEmptyIffBlank(prompt);
    isLoading || !Text.LongEnough(prompt)
  }

  /** The button is enabled exactly when nothing is loading and a submit would call `onGenerate`. */
  lemma EnabledIffSubmits(isLoading: bool, generator: Generator, prompt: string, animation: string, referenceImage: Option<File>)
    ensures !SubmitDisabled(isLoading, prompt) <==> !isLoading && SubmitCall(generator, prompt, animation, referenceImage).Some?
  {
  }

  /** The form's state. */
  class Form {
    var selectedType: Generator
    var prompt: string
    var animation: string
    var referenceImage: Option<File>
    var imagePreview: Option<string>

    /** The selected animation is always one the selected generator offers. */
    ghost predicate Valid()
      reads this
      ensures Valid() ==> (animation == "shake" ==> selectedType == Replicate) && (animation == "float" ==> selectedType != Replicate)
    {
      animation in Animations(selectedType)
    }

    constructor ()
      ensures Valid()
      ensures selectedType == Free && prompt == "" && animation == "float"
      ensures referenceImage == None && imagePreview == None
    {
      selectedType := Free;
      prompt := "";
      animation := "float";
      referenceImage := None;
      imagePreview := None;
    }

    /** A generator card's `onClick`: select it and reset the animation to its default. */
    method SelectGenerator(g: Generator)
      requires Valid()
      modifies this
      ensures Valid()
      ensures selectedType == g && animation == DefaultAnimation(g)
      ensures prompt == old(prompt) && referenceImage == old(referenceImage) && imagePreview == old(imagePreview)
    {
      selectedType := g;
      animation := if g == Replicate then "bounce" else "float";
    }

    /** The animation `Select`'s `onValueChange`, which only reports one of the listed items. */
    method ChooseAnimation(a: string)
      requires Valid()
      requires a in Animations(selectedType)
      modifies this
      ensures Valid()
      ensures animation == a
      ensures selectedType == old(selectedType) && prompt == old(prompt)
      ensures referenceImage == old(referenceImage) && imagePreview == old(imagePreview)
    {
      animation := a;
    }

    /** The prompt input's `onChange`. */
    method SetPrompt(p: string)
      requires Valid()
      modifies this
      ensures Valid()
      ensures prompt == p
      ensures selectedType == old(selectedType) && animation == old(animation)
      ensures referenceImage == old(referenceImage) && imagePreview == old(imagePreview)
    {
      prompt := p;
    }

    /** `handleImageChange` with a picked file; the data-URL preview arrives later and is not modelled. */
    method ChooseImage(file: File)
      requires Valid()
      modifies this
      ensures Valid()
      ensures referenceImage == Some(file)
      ensures selectedType == old(selectedType) && prompt == old(prompt)
      ensures animation == old(animation) && imagePreview == old(imagePreview)
    {
      referenceImage := Some(file);
    }

    /** `clearImage`: drop the reference image and its preview. */
    method ClearImage()
      requires Valid()
      modifies this
      ensures Valid()
      ensures referenceImage == None && imagePreview == None
      ensures selectedType == old(selectedType) && prompt == old(prompt) && animation == old(animation)
    {
      referenceImage := None;
      imagePreview := None;
    }

    /** `handleSubmit` on the current state: the call to `onGenerate` it makes, if any. */
    method Submit() returns (call: Option<Submission>)
      requires Valid()
      ensures call == SubmitCall(selectedType, prompt, animation, referenceImage)
      ensures call.Some? ==> call.value.animation in Animations(call.value.generator)
    {
      if Text.LongEnough(prompt) {
        call := Some(Submission(selectedType, prompt, animation, referenceImage));
      } else {
        call := None;
      }
    }
  }

  /** After `clearImage`, a submit passes no reference image. */
  method ClearThenSubmit(form: Form) returns (call: Option<Submission>)
    requires form.Valid()
    modifies form
    ensures call.Some? ==> call.value.referenceImage == None
    ensures call.Some? <==> Text.LongEnough(old(form.prompt))
  {
    form.ClearImage();
    call := form.Submit();
  }
}
