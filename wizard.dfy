/** The seven-step wizard controller of the application's main page: the
    state it keeps between user actions and the handlers that guard their
    inputs, call the image backend and move the current step among 1..7
    (1 Upload, 2 SelectObject, 3 RefineMask, 4 ChooseAnimal, 5 EditPrompt,
    6 Result, 7 Enhance). */
module Wizard {
  import opened Common
  import DataUrl

  const DefaultObjectLabel: string := "Stone"
  /** The object label whose mask is requested with the free-text label. */
  const OtherLabel: string := "Other"
  const DefaultNegativePrompt: string := "blurry, low quality, text, watermark"
  const PhotorealisticPhrase: string := "photorealistic image of a"
  const QualityLead: string := "A high-quality, "

  const NoFileError: string := "Please upload an image first."
  const NoLabelError: string := "Please select or enter an object label."
  const NoRefineLabelError: string := "Please enter a label to refine the mask."
  const EmptyPromptError: string := "Prompt cannot be empty."

  const NotLoggedInToast: string := "You must be logged in to save to the gallery."
  const NoImageToast: string := "No image available to save."
  const NotAuthenticatedToast: string := "User is not authenticated."
  const MissingImageDataToast: string := "Missing image data for saving."
  const SavedToast: string := "Art saved to your gallery successfully!"
  const SaveFailedToast: string := "Failed to save to gallery."

  /** The browser's handle on the file the user picked. */
  datatype FileRef = FileRef(name: string)

  /** Candidate animals with the prompt and negative prompt for each; index
      i of the three sequences describes the same suggestion. */
  datatype Suggestions = Suggestions(animals: seq<string>, prompts: seq<string>, negativePrompts: seq<string>)

  const NoSuggestions: Suggestions := Suggestions([], [], [])

  /** Payload of the custom-prompt call. */
  datatype PromptPair = PromptPair(prompt: string, negativePrompt: string)

  /** What the mask call is sent. */
  datatype MaskRequest = MaskRequest(file: FileRef, objectLabel: string)

  /** What the save-to-gallery call is sent. */
  datatype SaveRequest = SaveRequest(
    uid: string, artName: string, description: string, prompt: string, animal: string,
    originalImageUrl: string, maskedImageUrl: string, finalImageUrl: string)

  /** A notification popped up by a gallery handler. */
  datatype Toast = ErrorToast(text: string) | SuccessToast(text: string)

  /** The label the mask is requested for: the free text when "Other" is
      chosen, the chosen label otherwise. */
  function EffectiveLabel(objectLabel: string, customLabel: string): string {
    if objectLabel == OtherLabel then customLabel else objectLabel
  }

  /** Whether the mask call is issued: a file is selected and the effective
      label is not empty. */
  predicate MaskCallAllowed(file: Option<FileRef>, objectLabel: string, customLabel: string) {
    file.Some? && EffectiveLabel(objectLabel, customLabel) != ""
  }

  function DefaultPrompt(animal: string): string {
    QualityLead + PhotorealisticPhrase + " " + animal + "."
  }

  /** `part` occurs somewhere in `s`. */
  ghost predicate Contains(s: string, part: string) {
    exists k :: OccursAt(s, part, k)
  }

  predicate OccursAt(s: string, part: string, k: int) {
    0 <= k <= |s| - |part| && s[k..k + |part|] == part
  }

  /** The templated prompt names the animal and asks for a photorealistic
      image of it. */
  lemma DefaultPromptNamesAnimal(animal: string)
    ensures Contains(DefaultPrompt(animal), PhotorealisticPhrase)
    ensures Contains(DefaultPrompt(animal), animal)
  {
    var p := DefaultPrompt(animal);
    var k := |QualityLead|;
    var j := k + |PhotorealisticPhrase| + 1;
    assert p[k..k + |PhotorealisticPhrase|] == PhotorealisticPhrase;
    assert p[j..j + |animal|] == animal;
    assert OccursAt(p, PhotorealisticPhrase, k);
    assert OccursAt(p, animal, j);
  }

  /** The prompt chosen with suggestion `index`: the backend's own, or the
      templated default naming the animal when the backend gave none. */
  function PromptFor(s: Suggestions, index: nat): (prompt: string)
    requires index < |s.animals|
    ensures prompt != ""
    ensures index < |s.prompts| && s.prompts[index] != "" ==> prompt == s.prompts[index]
    ensures index >= |s.prompts| || s.prompts[index] == "" ==> prompt == DefaultPrompt(s.animals[index])
  {
    if index < |s.prompts| && s.prompts[index] != "" then s.prompts[index]
    else DefaultPrompt(s.animals[index])
  }

  /** The negative prompt chosen with suggestion `index`, falling back to a
      fixed list of defects. */
  function NegativePromptFor(s: Suggestions, index: nat): (negative: string)
    ensures negative != ""
    ensures index < |s.negativePrompts| && s.negativePrompts[index] != "" ==> negative == s.negativePrompts[index]
    ensures index >= |s.negativePrompts| || s.negativePrompts[index] == "" ==> negative == DefaultNegativePrompt
  {
    if index < |s.negativePrompts| && s.negativePrompts[index] != "" then s.negativePrompts[index]
    else DefaultNegativePrompt
  }

  class WizardState {
    var currentStep: int
    var selectedFile: Option<FileRef>
    var previewUrl: Option<string>
    var maskPreviewUrl: Option<string>
    var finalImageUrl: Option<string>
    var objectLabel: string
    var customLabel: string
    var refinedLabel: string
    var suggestions: Suggestions
    var selectedAnimal: string
    var customAnimal: string
    var editedPrompt: string
    var editedNegativePrompt: string
    var isListening: bool
    var isLoading: bool
    var error: string
    var isOpenModal: bool
    var imageToSave: Option<string>

    /** The step is always one of the seven. */
    ghost predicate Valid()
      reads this
    {
      1 <= currentStep <= 7
    }

    /** What the steps before the current one produced is present: the file
        and its preview from step 1 on step 2 and later, the mask from step 2
        on step 3 and later, the final image on step 7. */
    ghost predicate StepInputsPresent()
      reads this
    {
      && (selectedFile.Some? <==> previewUrl.Some?)
      && (currentStep >= 2 ==> selectedFile.Some?)
      && (currentStep >= 3 ==> Truthy(maskPreviewUrl))
      && (currentStep == 7 ==> Truthy(finalImageUrl))
    }

    /** Every field of a run downstream of the upload is at its default. */
    ghost predicate RunCleared()
      reads this
    {
      && maskPreviewUrl == None
      && finalImageUrl == None
      && objectLabel == DefaultObjectLabel
      && customLabel == ""
      && refinedLabel == ""
      && suggestions == NoSuggestions
      && selectedAnimal == ""
      && customAnimal == ""
      && editedPrompt == ""
      && editedNegativePrompt == ""
      && error == ""
    }

    /** The state of a fresh session, as `handleRestart` restores it. */
    ghost predicate AtStart()
      reads this
    {
      && currentStep == 1
      && selectedFile == None
      && previewUrl == None
      && RunCleared()
      && !isListening
      && !isLoading
    }

    constructor ()
      ensures Valid() && StepInputsPresent()
      ensures AtStart() && !isOpenModal && imageToSave == None
    {
      currentStep := 1;
      selectedFile, previewUrl := None, None;
      maskPreviewUrl, finalImageUrl := None, None;
      objectLabel, customLabel, refinedLabel := DefaultObjectLabel, "", "";
      suggestions := NoSuggestions;
      selectedAnimal, customAnimal := "", "";
      editedPrompt, editedNegativePrompt := "", "";
      isListening, isLoading, error := false, false, "";
      isOpenModal, imageToSave := false, None;
    }

    /** The reset of everything downstream of the upload, shared by
        `handleRestart` and `handleFileChange`. */
    method ClearRun()
      modifies this`maskPreviewUrl, this`finalImageUrl, this`objectLabel, this`customLabel,
        this`refinedLabel, this`suggestions, this`selectedAnimal, this`customAnimal,
        this`editedPrompt, this`editedNegativePrompt, this`error
      ensures RunCleared()
    {
      maskPreviewUrl, finalImageUrl := None, None;
      objectLabel, customLabel, refinedLabel := DefaultObjectLabel, "", "";
      suggestions := NoSuggestions;
      selectedAnimal, customAnimal := "", "";
      editedPrompt, editedNegativePrompt := "", "";
      error := "";
    }

    /** `handleRestart`: back to step 1 with every wizard field at its
        default, from any state. */
    method Restart()
      modifies this`currentStep, this`selectedFile, this`previewUrl, this`maskPreviewUrl,
        this`finalImageUrl, this`objectLabel, this`customLabel, this`refinedLabel,
        this`suggestions, this`selectedAnimal, this`customAnimal, this`editedPrompt,
        this`editedNegativePrompt, this`isListening, this`isLoading, this`error
      ensures Valid() && StepInputsPresent()
      ensures AtStart()
    {
      ClearRun();
      currentStep := 1;
      selectedFile, previewUrl := None, None;
      isListening, isLoading := false, false;
    }

    /** `handleFileChange`: with a file, clears the run, stores the file and
        the object URL the browser made for it, and moves to step 2; without
        one, changes nothing. The loading and dictation flags are kept. */
    method FileChange(file: Option<FileRef>, objectUrl: string)
      requires Valid()
      modifies this`currentStep, this`selectedFile, this`previewUrl, this`maskPreviewUrl,
        this`finalImageUrl, this`objectLabel, this`customLabel, this`refinedLabel,
        this`suggestions, this`selectedAnimal, this`customAnimal, this`editedPrompt,
        this`editedNegativePrompt, this`error
      ensures Valid()
      ensures old(StepInputsPresent()) ==> StepInputsPresent()
      ensures file.None? ==> unchanged(this)
      ensures file.Some? ==>
        && RunCleared()
        && selectedFile == file
        && previewUrl == Some(objectUrl)
        && currentStep == 2
    {
      if file.Some? {
        ClearRun();
        selectedFile := file;
        previewUrl := Some(objectUrl);
        currentStep := 2;
      }
    }

    /** `handleGenerateMask`. Without a file, or with an empty effective
        label, it only sets the error and makes no call. Otherwise it sends
        the file and the effective label; on success the mask preview is the
        returned PNG, the refined label is the label sent, and the step is
        3; on failure the error is the call's message and the step stays. */
    method GenerateMask(response: Outcome<string>) returns (request: Option<MaskRequest>)
      requires Valid()
      modifies this`maskPreviewUrl, this`refinedLabel, this`currentStep, this`isLoading, this`error
      ensures Valid()
      ensures old(StepInputsPresent()) ==> StepInputsPresent()
      ensures request.Some? <==> MaskCallAllowed(selectedFile, objectLabel, customLabel)
      ensures request.Some? ==>
        request.value == MaskRequest(selectedFile.value, EffectiveLabel(objectLabel, customLabel))
      ensures request.None? ==>
        && error == (if selectedFile.None? then NoFileError else NoLabelError)
        && currentStep == old(currentStep)
        && maskPreviewUrl == old(maskPreviewUrl)
        && refinedLabel == old(refinedLabel)
        && isLoading == old(isLoading)
      ensures request.Some? ==> !isLoading
      ensures request.Some? && response.Success? ==>
        && maskPreviewUrl == Some(DataUrl.PngDataUrl(response.payload))
        && refinedLabel == request.value.objectLabel
        && currentStep == 3
        && error == ""
      ensures request.Some? && response.Failure? ==>
        && error == response.message
        && currentStep == old(currentStep)
        && maskPreviewUrl == old(maskPreviewUrl)
        && refinedLabel == old(refinedLabel)
    {
      if selectedFile.None? {
        error := NoFileError;
        return None;
      }
      var labelToUse := EffectiveLabel(objectLabel, customLabel);
      if labelToUse == "" {
        error := NoLabelError;
        return None;
      }
      isLoading := true;
      error := "";
      request := Some(MaskRequest(selectedFile.value, labelToUse));
      match response {
      case Success(maskBase64) =>
        maskPreviewUrl := Some(DataUrl.PngDataUrl(maskBase64));
        refinedLabel := labelToUse;
        currentStep := 3;
      case Failure(message) =>
        error := message;
      }
      isLoading := false;
    }

    /** `handleRefineMask`: never moves the step. An empty refined label
        sets the error without a call; otherwise the refined label is sent,
        and success replaces only the mask preview while failure sets only
        the error. */
    method RefineMask(response: Outcome<string>) returns (request: Option<string>)
      requires Valid()
      modifies this`maskPreviewUrl, this`isLoading, this`error
      ensures Valid()
      ensures old(StepInputsPresent()) ==> StepInputsPresent()
      ensures request == (if refinedLabel == "" then None else Some(refinedLabel))
      ensures request.None? ==>
        error == NoRefineLabelError && maskPreviewUrl == old(maskPreviewUrl) && isLoading == old(isLoading)
      ensures request.Some? ==> !isLoading
      ensures request.Some? && response.Success? ==>
        maskPreviewUrl == Some(DataUrl.PngDataUrl(response.payload)) && error == ""
      ensures request.Some? && response.Failure? ==>
        maskPreviewUrl == old(maskPreviewUrl) && error == response.message
    {
      if refinedLabel == "" {
        error := NoRefineLabelError;
        return None;
      }
      isLoading := true;
      error := "";
      request := Some(refinedLabel);
      match response {
      case Success(maskBase64) =>
        maskPreviewUrl := Some(DataUrl.PngDataUrl(maskBase64));
      case Failure(message) =>
        error := message;
      }
      isLoading := false;
    }

    /** `handleConfirmMask`, up to the suggestions call: there is no guard,
        and the step moves to 4 before the call settles. */
    method BeginConfirmMask()
      requires Valid()
      modifies this`currentStep, this`isLoading, this`error
      ensures Valid()
      ensures old(StepInputsPresent()) && old(currentStep) >= 3 ==> StepInputsPresent()
      ensures currentStep == 4 && isLoading && error == ""
    {
      isLoading := true;
      error := "";
      currentStep := 4;
    }

    /** `handleConfirmMask` once the suggestions call settles: the step
        stays 4 whatever the outcome. Success stores the suggestions and
        pre-selects the first animal when there is one; failure sets only the
        error. */
    method FinishConfirmMask(response: Outcome<Suggestions>)
      requires Valid() && isLoading
      modifies this`suggestions, this`selectedAnimal, this`isLoading, this`error
      ensures Valid()
      ensures old(StepInputsPresent()) ==> StepInputsPresent()
      ensures !isLoading
      ensures response.Success? ==>
        && suggestions == response.payload
        && selectedAnimal == (if |suggestions.animals| > 0 then suggestions.animals[0] else old(selectedAnimal))
        && error == old(error)
      ensures response.Failure? ==>
        && suggestions == old(suggestions)
        && selectedAnimal == old(selectedAnimal)
        && error == response.message
    {
      match response {
      case Success(data) =>
        suggestions := data;
        if |data.animals| > 0 {
          selectedAnimal := data.animals[0];
        }
      case Failure(message) =>
        error := message;
      }
      isLoading := false;
    }

    /** `handleSelectAnimal(index)`: selects the animal at the index, takes
        the prompt and negative prompt at the same index (or their
        defaults), and moves to step 5. */
    method SelectAnimal(index: nat)
      requires Valid() && index < |suggestions.animals|
      modifies this`selectedAnimal, this`editedPrompt, this`editedNegativePrompt, this`currentStep
      ensures Valid()
      ensures old(StepInputsPresent()) && old(currentStep) >= 3 ==> StepInputsPresent()
      ensures selectedAnimal == suggestions.animals[index]
      ensures editedPrompt == PromptFor(suggestions, index)
      ensures editedNegativePrompt == NegativePromptFor(suggestions, index)
      ensures currentStep == 5
    {
      var animal := suggestions.animals[index];
      var prompt := PromptFor(suggestions, index);
      var negativePrompt := NegativePromptFor(suggestions, index);
      selectedAnimal := animal;
      editedPrompt := prompt;
      editedNegativePrompt := negativePrompt;
      currentStep := 5;
    }

    /** `handleCustomAnimal(animalName)`: asks the backend for prompts for a
        free-text animal; success selects it, stores both prompts and moves
        to step 5; failure sets only the error. */
    method CustomAnimal(animalName: string, response: Outcome<PromptPair>) returns (request: string)
      requires Valid()
      modifies this`selectedAnimal, this`editedPrompt, this`editedNegativePrompt, this`currentStep,
        this`isLoading, this`error
      ensures Valid()
      ensures old(StepInputsPresent()) && old(currentStep) >= 3 ==> StepInputsPresent()
      ensures request == animalName
      ensures !isLoading
      ensures response.Success? ==>
        && selectedAnimal == animalName
        && editedPrompt == response.payload.prompt
        && editedNegativePrompt == response.payload.negativePrompt
        && currentStep == 5
        && error == ""
      ensures response.Failure? ==>
        && selectedAnimal == old(selectedAnimal)
        && editedPrompt == old(editedPrompt)
        && editedNegativePrompt == old(editedNegativePrompt)
        && currentStep == old(currentStep)
        && error == response.message
    {
      isLoading := true;
      error := "";
      request := animalName;
      match response {
      case Success(data) =>
        selectedAnimal := animalName;
        editedPrompt := data.prompt;
        editedNegativePrompt := data.negativePrompt;
        currentStep := 5;
      case Failure(message) =>
        error := message;
      }
      isLoading := false;
    }

    /** `handleStartFinalGeneration`, up to the generation call: an empty
        prompt sets the error and makes no call; otherwise the step moves to
        6 before the call settles and both prompts are sent. */
    method BeginFinalGeneration() returns (request: Option<PromptPair>)
      requires Valid()
      modifies this`currentStep, this`isLoading, this`error
      ensures Valid()
      ensures old(StepInputsPresent()) && old(currentStep) >= 3 ==> StepInputsPresent()
      ensures request == (if editedPrompt == "" then None else Some(PromptPair(editedPrompt, editedNegativePrompt)))
      ensures request.None? ==>
        error == EmptyPromptError && currentStep == old(currentStep) && isLoading == old(isLoading)
      ensures request.Some? ==> currentStep == 6 && isLoading && error == ""
    {
      if editedPrompt == "" {
        error := EmptyPromptError;
        return None;
      }
      isLoading := true;
      error := "";
      currentStep := 6;
      request := Some(PromptPair(editedPrompt, editedNegativePrompt));
    }

    /** `handleStartFinalGeneration` once the generation call settles:
        success stores the final image and stays on step 6; failure sets the
        error and rolls back to step 5, the wizard's one backward move. */
    method FinishFinalGeneration(response: Outcome<string>)
      requires Valid() && isLoading && currentStep == 6
      modifies this`finalImageUrl, this`currentStep, this`isLoading, this`error
      ensures Valid()
      ensures old(StepInputsPresent()) ==> StepInputsPresent()
      ensures !isLoading
      ensures response.Success? ==>
        && finalImageUrl == Some(DataUrl.PngDataUrl(response.payload))
        && currentStep == 6
        && error == old(error)
      ensures response.Failure? ==>
        && finalImageUrl == old(finalImageUrl)
        && currentStep == 5
        && error == response.message
    {
      match response {
      case Success(finalBase64) =>
        finalImageUrl := Some(DataUrl.PngDataUrl(finalBase64));
      case Failure(message) =>
        error := message;
        currentStep := 5;
      }
      isLoading := false;
    }

    /** `handleGoToEnhance`: moves to step 7 without a call. */
    method GoToEnhance()
      requires Valid()
      modifies this`currentStep
      ensures Valid()
      ensures old(StepInputsPresent()) && old(currentStep) >= 3 && old(Truthy(finalImageUrl)) ==> StepInputsPresent()
      ensures currentStep == 7
    {
      currentStep := 7;
    }

    /** `handleAddToGallery(imageUrl)`: without a signed-in user or without
        an image it only reports why and opens nothing; otherwise it keeps
        the image to save and opens the save dialog. */
    method AddToGallery(uid: Option<string>, imageUrl: Option<string>) returns (toast: Option<Toast>)
      requires Valid()
      modifies this`imageToSave, this`isOpenModal
      ensures Valid() && (old(StepInputsPresent()) ==> StepInputsPresent())
      ensures !Truthy(uid) ==>
        toast == Some(ErrorToast(NotLoggedInToast)) && unchanged(this)
      ensures Truthy(uid) && !Truthy(imageUrl) ==>
        toast == Some(ErrorToast(NoImageToast)) && unchanged(this)
      ensures Truthy(uid) && Truthy(imageUrl) ==>
        toast == None && imageToSave == imageUrl && isOpenModal
    {
      if !Truthy(uid) {
        return Some(ErrorToast(NotLoggedInToast));
      }
      if !Truthy(imageUrl) {
        return Some(ErrorToast(NoImageToast));
      }
      toast := None;
      imageToSave := imageUrl;
      isOpenModal := true;
    }

    /** `SaveContent(artName, description)`: without a signed-in user, or
        without a preview or an image to save, it only reports why. Otherwise
        the preview is read back as a data URL (`originalRead`) and, if that
        works, the entry is sent (`saved`); either way the dialog then closes
        and the kept image is dropped. */
    method SaveContent(uid: Option<string>, artName: string, description: string,
                       originalRead: Outcome<string>, saved: Outcome<()>)
      returns (request: Option<SaveRequest>, toast: Toast)
      requires Valid()
      modifies this`isLoading, this`isOpenModal, this`imageToSave
      ensures Valid() && (old(StepInputsPresent()) ==> StepInputsPresent())
      ensures !Truthy(uid) ==>
        request == None && toast == ErrorToast(NotAuthenticatedToast) && unchanged(this)
      ensures Truthy(uid) && !(Truthy(previewUrl) && Truthy(old(imageToSave))) ==>
        request == None && toast == ErrorToast(MissingImageDataToast) && unchanged(this)
      ensures Truthy(uid) && Truthy(previewUrl) && Truthy(old(imageToSave)) ==>
        && !isLoading && !isOpenModal && imageToSave == None
        && request == (if originalRead.Failure? then None else Some(SaveRequest(
             uid.value, artName, description, editedPrompt, selectedAnimal,
             originalRead.payload, if Truthy(maskPreviewUrl) then maskPreviewUrl.value else "",
             old(imageToSave).value)))
        && toast == (if originalRead.Failure? then ErrorToast(OrElse(originalRead.message, SaveFailedToast))
                     else if saved.Failure? then ErrorToast(OrElse(saved.message, SaveFailedToast))
                     else SuccessToast(SavedToast))
    {
      if !Truthy(uid) {
        return None, ErrorToast(NotAuthenticatedToast);
      }
      if !Truthy(previewUrl) || !Truthy(imageToSave) {
        return None, ErrorToast(MissingImageDataToast);
      }
      isLoading := true;
      match originalRead {
      case Failure(message) =>
        request := None;
        toast := ErrorToast(OrElse(message, SaveFailedToast));
      case Success(originalDataUrl) =>
        var masked := if Truthy(maskPreviewUrl) then maskPreviewUrl.value else "";
        request := Some(SaveRequest(uid.value, artName, description, editedPrompt, selectedAnimal,
                                    originalDataUrl, masked, imageToSave.value));
        toast := match saved
          case Success(_) => SuccessToast(SavedToast)
          case Failure(message) => ErrorToast(OrElse(message, SaveFailedToast));
      }
      isLoading := false;
      isOpenModal := false;
      imageToSave := None;
    }
  }
}
