/** Runs of the controllers through several handlers, stating what a user
    sees at the end: they use nothing but the handlers' contracts. */
module Scenarios {
  import opened Common
  import opened Wizard
  import opened Enhance
  import opened Gallery

  /** Suggestions Owl/Fox with prompts A/B and negative prompts X/Y:
      confirming the mask pre-selects the owl, and picking the second
      suggestion selects the fox with prompt B and negative prompt Y on
      step 5. */
  method PickSecondSuggestion() returns (w: WizardState, preselected: string)
    ensures preselected == "Owl"
    ensures w.Valid()
    ensures w.selectedAnimal == "Fox" && w.editedPrompt == "B" && w.editedNegativePrompt == "Y"
    ensures w.currentStep == 5
  {
    w := new WizardState();
    w.BeginConfirmMask();
    assert w.currentStep == 4;
    w.FinishConfirmMask(Success(Suggestions(["Owl", "Fox"], ["A", "B"], ["X", "Y"])));
    preselected := w.selectedAnimal;
    w.SelectAnimal(1);
  }

  /** A suggestion picked from the list always leaves a prompt, so the
      final generation that follows is always sent, moving to step 6; a
      failure of that call brings the wizard back to step 5 with the
      call's message as the error. */
  method PickThenFailGeneration(w: WizardState, index: nat, message: string)
    returns (request: Option<PromptPair>)
    requires w.Valid() && index < |w.suggestions.animals|
    modifies w
    ensures w.Valid() && request.Some?
    ensures w.currentStep == 5 && w.error == message && !w.isLoading
  {
    w.SelectAnimal(index);
    request := w.BeginFinalGeneration();
    assert w.currentStep == 6;
    w.FinishFinalGeneration(Failure(message));
  }

  /** A successful mask leaves a non-empty refined label, so refining
      right after it always sends a call and stays on step 3. */
  method MaskThenRefine(w: WizardState, mask: string, refined: Outcome<string>)
    returns (first: Option<MaskRequest>, second: Option<string>)
    requires w.Valid() && MaskCallAllowed(w.selectedFile, w.objectLabel, w.customLabel)
    modifies w
    ensures w.Valid() && first.Some? && second == Some(first.value.objectLabel)
    ensures w.currentStep == 3
  {
    first := w.GenerateMask(Success(mask));
    second := w.RefineMask(refined);
  }

  /** Two successive sketch requests after a successful first one: the
      first is sent, the second is not, and both end on the sketch
      preview showing the first result. */
  method SketchTwice(e: Enhancer, sketch: string)
    returns (first: Option<string>, second: Option<string>, shownAfterFirst: Option<string>)
    requires !Truthy(e.sketchResult) && Truthy(e.finalImageUrl)
    requires e.Valid() && !e.sketchLoading && !e.noBgLoading
    modifies e
    ensures e.Valid()
    ensures shownAfterFirst == Some(DataUrl.PngDataUrl(sketch))
    ensures first == Some(DataUrl.StripBase64Prefix(e.finalImageUrl.value)) && second == None
    ensures e.activePreview == Sketch
    ensures e.CurrentPreviewImage() == Some(DataUrl.PngDataUrl(sketch))
    ensures !e.sketchLoading
  {
    first := e.BeginSketch();
    e.FinishSketch(Success(sketch));
    shownAfterFirst := e.CurrentPreviewImage();
    assert Truthy(e.sketchResult);
    second := e.BeginSketch();
  }

  /** A story finishing while a sketch is still on its way lowers only the
      story's flag and touches neither the sketch nor the effects error. */
  method StoryDuringSketch(e: Enhancer, story: Outcome<string>)
    requires !Truthy(e.sketchResult) && Truthy(e.finalImageUrl) && e.story == ""
    requires e.Valid() && !e.storyLoading && !e.sketchLoading && !e.noBgLoading
    modifies e
    ensures e.Valid()
    ensures e.sketchLoading && !e.storyLoading
    ensures e.effectsError == None && e.sketchResult == old(e.sketchResult)
    ensures !e.noBgLoading && e.noBgResult == old(e.noBgResult)
    ensures e.activePreview == old(e.activePreview)
  {
    var sketchRequest := e.BeginSketch();
    var storyRequest := e.BeginStory();
    e.FinishStory(story);
  }

  /** Opening an entry with three different images and clicking three
      times shows the final image again, after the original and the
      masked one. */
  method ClickThrough(entry: Entry) returns (m: GalleryModal)
    requires DistinctImages(entry)
    ensures m.curImage == entry.finalImageUrl
  {
    m := new GalleryModal(entry);
    m.ClickImage();
    assert m.curImage == entry.originalImageUrl;
    m.ClickImage();
    assert m.curImage == entry.maskedImageUrl;
    m.ClickImage();
  }
}
