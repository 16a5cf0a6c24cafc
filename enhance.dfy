/** The step-7 enhancement panel: three actions on the final image (a
    story, a sketch, a background removal), each computed at most once and
    then only re-shown, each with its own loading flag; and the preview
    selector that picks which image is displayed. */
module Enhance {
  import opened Common
  import DataUrl

  const StoryFallbackError: string := "Failed to generate story."
  const SketchMissingImageError: string := "Cannot generate sketch: Original image is missing."
  const SketchFallbackError: string := "Failed to convert to sketch."
  const NoBgMissingImageError: string := "Cannot remove background: Original image is missing."
  const NoBgFallbackError: string := "Failed to remove background."

  /** Which image the preview shows. */
  datatype Preview = Original | Sketch | NoBg

  /** What the story call is sent. */
  datatype StoryRequest = StoryRequest(prompt: string, animalName: string)

  class Enhancer {
    // Inputs handed down by the wizard.
    const finalImageUrl: Option<string>
    const originalPrompt: string
    const animalName: string

    var activePreview: Preview
    var sketchResult: Option<string>
    var noBgResult: Option<string>
    var story: string
    var storyLoading: bool
    var sketchLoading: bool
    var noBgLoading: bool
    var storyError: Option<string>
    var effectsError: Option<string>

    /** What every state of the panel satisfies: a flag is up only while
        its result is still missing, so a computed story, sketch or
        background removal is never computed again and a pending call never
        overwrites one; and the two effects are never pending together,
        since both effect buttons are disabled while either is pending. */
    ghost predicate Valid()
      reads this
    {
      && (storyLoading ==> story == "")
      && (sketchLoading ==> !Truthy(sketchResult))
      && (noBgLoading ==> !Truthy(noBgResult))
      && !(sketchLoading && noBgLoading)
    }

    /** Opening step 7: the original image is shown and nothing is computed,
        loading or failed yet. */
    constructor (finalImageUrl: Option<string>, originalPrompt: string, animalName: string)
      ensures this.finalImageUrl == finalImageUrl
      ensures this.originalPrompt == originalPrompt && this.animalName == animalName
      ensures activePreview == Original
      ensures sketchResult == None && noBgResult == None && story == ""
      ensures !storyLoading && !sketchLoading && !noBgLoading
      ensures storyError == None && effectsError == None
      ensures Valid()
    {
      this.finalImageUrl := finalImageUrl;
      this.originalPrompt := originalPrompt;
      this.animalName := animalName;
      activePreview := Original;
      sketchResult, noBgResult, story := None, None, "";
      storyLoading, sketchLoading, noBgLoading := false, false, false;
      storyError, effectsError := None, None;
    }

    /** `previewSources[p]`: the image each preview choice stands for. */
    function PreviewSource(p: Preview): Option<string>
      reads this
    {
      match p
      case Original => finalImageUrl
      case Sketch => sketchResult
      case NoBg => noBgResult
    }

    /** `currentPreviewImage`: the image on display. */
    function CurrentPreviewImage(): Option<string>
      reads this
    {
      PreviewSource(activePreview)
    }

    /** `handleGenerateStory`, up to the story call: nothing at all happens
        once a story exists; otherwise the story's own flag is raised, its
        own error cleared, and the prompt and animal are sent. */
    method BeginStory() returns (request: Option<StoryRequest>)
      requires Valid()
      requires !storyLoading  // the story button is disabled while its call is pending
      modifies this`storyLoading, this`storyError
      ensures Valid()
      ensures old(story) != "" ==> request == None && unchanged(this)
      ensures old(story) == "" ==>
        request == Some(StoryRequest(originalPrompt, animalName)) && storyLoading && storyError == None
    {
      if story != "" {
        return None;
      }
      storyLoading := true;
      storyError := None;
      request := Some(StoryRequest(originalPrompt, animalName));
    }

    /** `handleGenerateStory` once the story call settles: success stores
        the story, failure writes only the story's error slot (never the
        effects slot), and only the story's flag is lowered. */
    method FinishStory(response: Outcome<string>)
      requires Valid()
      requires storyLoading
      modifies this`story, this`storyError, this`storyLoading
      ensures Valid()
      ensures !storyLoading
      ensures response.Success? ==> story == response.payload && storyError == old(storyError)
      ensures response.Failure? ==>
        story == old(story) && storyError == Some(OrElse(response.message, StoryFallbackError))
    {
      match response {
        case Success(text) => story := text;
        case Failure(message) => storyError := Some(OrElse(message, StoryFallbackError));
      }
      storyLoading := false;
    }

    /** `handleConvertToSketch`, up to the sketch call. A sketch already
        made is only switched to, with no call and no change to flags or
        errors; with no final image the effects error says so and no call is
        made; otherwise the sketch flag is raised and the final image is sent
        without its data-URL prefix. */
    method BeginSketch() returns (request: Option<string>)
      requires Valid()
      requires !sketchLoading && !noBgLoading  // both effect buttons are disabled while either effect is pending
      modifies this`activePreview, this`effectsError, this`sketchLoading
      ensures Valid()
      ensures Truthy(sketchResult) ==>
        && request == None && activePreview == Sketch
        && effectsError == old(effectsError) && sketchLoading == old(sketchLoading)
      ensures !Truthy(sketchResult) && !Truthy(finalImageUrl) ==>
        && request == None && activePreview == old(activePreview)
        && effectsError == Some(SketchMissingImageError) && sketchLoading == old(sketchLoading)
      ensures !Truthy(sketchResult) && Truthy(finalImageUrl) ==>
        && request == Some(DataUrl.StripBase64Prefix(finalImageUrl.value))
        && activePreview == old(activePreview)
        && effectsError == None && sketchLoading
    {
      if Truthy(sketchResult) {
        activePreview := Sketch;
        return None;
      }
      if !Truthy(finalImageUrl) {
        effectsError := Some(SketchMissingImageError);
        return None;
      }
      sketchLoading := true;
      effectsError := None;
      request := Some(DataUrl.StripBase64Prefix(finalImageUrl.value));
    }

    /** `handleConvertToSketch` once the sketch call settles: success stores
        the sketch as a PNG data URL and shows it; failure writes only the
        effects error, keeping the cached result and the preview. */
    method FinishSketch(response: Outcome<string>)
      requires Valid()
      requires sketchLoading
      modifies this`sketchResult, this`activePreview, this`effectsError, this`sketchLoading
      ensures Valid()
      ensures !sketchLoading
      ensures response.Success? ==>
        && sketchResult == Some(DataUrl.PngDataUrl(response.payload))
        && activePreview == Sketch
        && CurrentPreviewImage() == sketchResult
        && effectsError == old(effectsError)
      ensures response.Failure? ==>
        && sketchResult == old(sketchResult)
        && activePreview == old(activePreview)
        && effectsError == Some(OrElse(response.message, SketchFallbackError))
    {
      match response {
        case Success(sketchBase64) =>
          sketchResult := Some(DataUrl.PngDataUrl(sketchBase64));
          activePreview := Sketch;
        case Failure(message) =>
          effectsError := Some(OrElse(message, SketchFallbackError));
      }
      sketchLoading := false;
    }

    /** `handleRemoveBackground`, up to the call: the same memo and guard
        rules as the sketch, on the background-removed result. */
    method BeginRemoveBackground() returns (request: Option<string>)
      requires Valid()
      requires !sketchLoading && !noBgLoading
      modifies this`activePreview, this`effectsError, this`noBgLoading
      ensures Valid()
      ensures Truthy(noBgResult) ==>
        && request == None && activePreview == NoBg
        && effectsError == old(effectsError) && noBgLoading == old(noBgLoading)
      ensures !Truthy(noBgResult) && !Truthy(finalImageUrl) ==>
        && request == None && activePreview == old(activePreview)
        && effectsError == Some(NoBgMissingImageError) && noBgLoading == old(noBgLoading)
      ensures !Truthy(noBgResult) && Truthy(finalImageUrl) ==>
        && request == Some(DataUrl.StripBase64Prefix(finalImageUrl.value))
        && activePreview == old(activePreview)
        && effectsError == None && noBgLoading
    {
      if Truthy(noBgResult) {
        activePreview := NoBg;
        return None;
      }
      if !Truthy(finalImageUrl) {
        effectsError := Some(NoBgMissingImageError);
        return None;
      }
      noBgLoading := true;
      effectsError := None;
      request := Some(DataUrl.StripBase64Prefix(finalImageUrl.value));
    }

    /** `handleRemoveBackground` once the call settles. */
    method FinishRemoveBackground(response: Outcome<string>)
      requires Valid()
      requires noBgLoading
      modifies this`noBgResult, this`activePreview, this`effectsError, this`noBgLoading
      ensures Valid()
      ensures !noBgLoading
      ensures response.Success? ==>
        && noBgResult == Some(DataUrl.PngDataUrl(response.payload))
        && activePreview == NoBg
        && CurrentPreviewImage() == noBgResult
        && effectsError == old(effectsError)
      ensures response.Failure? ==>
        && noBgResult == old(noBgResult)
        && activePreview == old(activePreview)
        && effectsError == Some(OrElse(response.message, NoBgFallbackError))
    {
      match response {
        case Success(noBgBase64) =>
          noBgResult := Some(DataUrl.PngDataUrl(noBgBase64));
          activePreview := NoBg;
        case Failure(message) =>
          effectsError := Some(OrElse(message, NoBgFallbackError));
      }
      noBgLoading := false;
    }

    /** The "View ..." buttons: a purely local switch of the preview. */
    method SetActivePreview(p: Preview)
      requires Valid()
      modifies this`activePreview
      ensures Valid()
      ensures activePreview == p
      ensures p == Original ==> CurrentPreviewImage() == finalImageUrl
      ensures p == Sketch ==> CurrentPreviewImage() == sketchResult
      ensures p == NoBg ==> CurrentPreviewImage() == noBgResult
    {
      activePreview := p;
    }
  }
}
