# Anything2Image wizard controllers in Dafny

Anything2Image is a browser wizard. The user uploads a photo, has a
backend segment an object in it, picks an animal, edits a prompt and gets
back a generated picture. The picture can then be enhanced (a story, a
sketch, a background removal) and saved to a personal gallery. All image
and AI work runs on remote HTTP services. What the application itself
decides is three small state machines, and this project models them:

- **Wizard controller** (`src/App.tsx`), module `Wizard`. The class
  `WizardState` has the page's state fields and one method per handler.
  Each handler guards its inputs, sets the loading and error fields and
  moves `currentStep` among 1..7. Every remote call becomes an `Outcome`
  argument (`Success(payload)` or `Failure(message)`). Each handler whose
  call may be skipped returns the request it would send, and `None` means
  no call is made. Steps 4 and
  6 move the step before their call settles, so those two handlers are
  split into `Begin…` (up to the call) and `Finish…` (once it settles).
  The other handlers are atomic: while a wizard call is pending, the
  shared `isLoading` flag covers the step's view with a loading overlay,
  so no other step action can come between. Saving to the gallery is the
  exception (see "## Left out").
- **Enhancement panel** (`src/components/steps/Step7_Enhance.tsx`), modules
  `Enhance` and `DataUrl`. The class `Enhancer` has the panel's state. Its
  three actions are split into `Begin…` and `Finish…` because each has its
  own loading flag, and the story may be pending while one effect is. The
  view disables the story button while the story is pending, and both
  effect buttons while either effect is. The `Begin…` methods require
  exactly that. One `Enhancer` object stands for one visit of step 7: the
  panel is mounted only on step 7 (`src/App.tsx:412-423`), and a restart
  unmounts it, which clears its state. Its inputs are the final image,
  the edited prompt and the selected animal, which the wizard hands to it
  when it is mounted; they are the `Enhancer` constructor's arguments. `DataUrl` holds the data-URL
  prefix stripper, its round trip with the `data:image/png;base64,` prefix
  put on every received image, and the `\w+` run it matches.
- **Gallery page** (`src/GalleryPage.tsx`), module `Gallery`. It holds the
  click cycle of the detail dialog's image, as a pure `NextImage` function
  with lemmas, and the classes `GalleryModal` and `GalleryPage` (the
  one-time fetch and the selected entry).

`Common` holds `Option`, `Outcome` and the JavaScript truthiness tests the
handlers use (`!x` on a nullable string, `a || b`). `Scenarios` runs the
controllers through several handlers in a row. It uses only the handlers'
contracts: a run with the suggestions Owl/Fox, a failed generation rolling
back, a memoised sketch, and overlapping enhancement actions.

Invariants proved for every handler: `currentStep` stays in 1..7
(`WizardState.Valid`). `StepInputsPresent` holds whenever a handler is
invoked from a step whose view offers it: the file and preview exist from
step 2 on, a mask from step 3 on, and a final image on step 7. The code
checks only two step inputs: `handleGenerateMask` refuses to run without a
file (`src/App.tsx:167-170`) and `handleStartFinalGeneration` without a
prompt (`src/App.tsx:251-254`). It never checks the mask before step 4
(`handleConfirmMask`, `src/App.tsx:207-211`) or the final image before
step 7 (`handleGoToEnhance`, `src/App.tsx:281-283`); those hold only
because each view offers its handler on one step. On the enhancement
panel, `Enhancer.Valid` holds for every action: a loading flag is up only
while its result is missing, so nothing computed is computed again, and
the two effects are never pending together.

What the code does not check, and other facts about it that the model
keeps as written:
- Story generation has no guard on the prompt or the animal. It only
  checks that no story exists yet.
- `handleConfirmMask` moves to step 4 without checking for a mask, and
  `handleGoToEnhance` moves to step 7 without checking for a final image
  (see `StepInputsPresent` above).
- A failed call sets `error` to the thrown message. The message could be
  empty, and then no error would show. The step-7 actions fall back to a
  fixed message in that case; the wizard handlers do not.
- The step-4 view (`src/components/steps/Step4_ChooseAnimal.tsx:70-118`)
  never calls `handleSelectAnimal` or `handleCustomAnimal`. Its "Generate
  Final Image" button calls a `setCurrentStep` prop that `App` does not
  pass. The two handlers are modelled as written in `src/App.tsx`.

## Model

| member | source | states |
|---|---|---|
| `Common.OrElse` | src/components/steps/Step7_Enhance.tsx:111-114 | the "message or else fallback" of a failed call: a non-empty message is kept, an empty one is replaced by the fallback |
| `DataUrl.WordRun` | src/components/steps/Step7_Enhance.tsx:81 | the length matched by `\w+` at the start of a string: all word characters, followed by a non-word character or the end |
| `DataUrl.StripBase64Prefix` | src/components/steps/Step7_Enhance.tsx:80-81 | `getBase64FromSource`: the result is a suffix of the source, and it differs from the source only when the source is an image data-URL prefix followed by the result |
| `DataUrl.WordRunOfWord` | src/components/steps/Step7_Enhance.tsx:81 | a word followed by `;` is matched by `\w+` exactly up to the `;` |
| `DataUrl.StripDataUrl` | src/components/steps/Step7_Enhance.tsx:80-81 | for any `\w+` subtype and any payload, stripping `data:image/<subtype>;base64,` gives back exactly the payload |
| `DataUrl.PngRoundTrip` | src/components/steps/Step7_Enhance.tsx:176-180 | round trip: stripping the `data:image/png;base64,` prefix put on a received image gives back the base64 the backend sent |
| `DataUrl.StripWithoutPrefix` | src/components/steps/Step7_Enhance.tsx:80-81 | a string that does not start with an image data-URL prefix is returned unchanged |
| `Wizard.PromptFor` | src/App.tsx:225-226 | the prompt for a suggestion is the backend's when that entry exists and is non-empty, otherwise the templated default for that animal; never empty |
| `Wizard.NegativePromptFor` | src/App.tsx:227 | the negative prompt is the backend's when that entry exists and is non-empty, otherwise "blurry, low quality, text, watermark"; never empty |
| `Wizard.DefaultPromptNamesAnimal` | src/App.tsx:226 | the default prompt contains "photorealistic image of a" and the animal's name |
| `Wizard.WizardState.constructor` | src/App.tsx:60-86 | a session starts on step 1 with every field at its default, not loading, no dialog open |
| `Wizard.WizardState.ClearRun` | src/App.tsx:147-158 | the reset shared by restart and file selection: mask, final image, labels (object label "Stone"), suggestions, animal, prompts and error back to their defaults |
| `Wizard.WizardState.Restart` | src/App.tsx:122-142 | from any state: step 1, no file or preview, every run field at its default, dictation, loading and error cleared; dialog state untouched |
| `Wizard.WizardState.FileChange` | src/App.tsx:144-164 | with a file: run cleared, file and its preview stored, step 2 (loading flag kept); without one: nothing changes |
| `Wizard.WizardState.GenerateMask` | src/App.tsx:166-188 | a call is sent iff a file is selected and the effective label ("Other" → custom label) is non-empty; otherwise only the matching error is set; success gives the PNG mask, refined label = label sent, step 3; failure gives error = message, step kept; loading cleared after a call |
| `Wizard.WizardState.RefineMask` | src/App.tsx:190-205 | step never changes; an empty refined label gives an error and no call; success replaces only the mask preview, failure only the error |
| `Wizard.WizardState.BeginConfirmMask` | src/App.tsx:207-211 | optimistic advance: step 4 and loading before the suggestions call settles |
| `Wizard.WizardState.FinishConfirmMask` | src/App.tsx:212-222 | step stays 4 either way; success stores the suggestions and selects `animals[0]` only when there is one; failure sets only the error; loading cleared |
| `Wizard.WizardState.SelectAnimal` | src/App.tsx:224-232 | selects `animals[i]`, takes the prompt and negative prompt for index i (with their defaults), step 5 |
| `Wizard.WizardState.CustomAnimal` | src/App.tsx:234-248 | the name is always sent; success selects it, stores both returned prompts, step 5; failure sets only the error |
| `Wizard.WizardState.BeginFinalGeneration` | src/App.tsx:250-258 | an empty prompt gives an error with no call and no step change; otherwise both prompts are sent and the step is 6 before the call settles |
| `Wizard.WizardState.FinishFinalGeneration` | src/App.tsx:259-267 | success stores the PNG final image on step 6; failure sets the error and rolls back to step 5; loading is false afterwards |
| `Wizard.WizardState.GoToEnhance` | src/App.tsx:281-283 | step 7, no call |
| `Wizard.WizardState.AddToGallery` | src/App.tsx:285-296 | without a user or an image: an error toast, no dialog, kept image unchanged; otherwise the image is kept and the dialog opens |
| `Wizard.WizardState.SaveContent` | src/App.tsx:298-330 | without a user, or without a preview or a kept image: an error toast and no call, nothing changed; otherwise the preview is read and the entry sent with the kept image and the mask (or ""); success or error toast; dialog closed, kept image dropped, loading cleared |
| `Enhance.Enhancer.constructor` | src/components/steps/Step7_Enhance.tsx:48-60 | step 7 opens on the original image with nothing computed, loading or failed, satisfying `Valid` |
| `Enhance.Enhancer.BeginStory` | src/components/steps/Step7_Enhance.tsx:99-108 | an existing story makes it do nothing at all; otherwise the story's own flag is raised, its error cleared, and prompt and animal are sent |
| `Enhance.Enhancer.FinishStory` | src/components/steps/Step7_Enhance.tsx:109-117 | success stores the story; failure writes only the story error (message or fallback); only the story's flag is lowered |
| `Enhance.Enhancer.BeginSketch` | src/components/steps/Step7_Enhance.tsx:159-179 | a cached sketch only switches the preview to it, with no call and no flag or error change; no final image gives the "Cannot generate sketch" error with no call; otherwise the final image is sent without its prefix |
| `Enhance.Enhancer.FinishSketch` | src/components/steps/Step7_Enhance.tsx:180-190 | success stores the sketch with the PNG prefix and displays it; failure changes only the effects error, keeping result and preview; the sketch flag is lowered |
| `Enhance.Enhancer.BeginRemoveBackground` | src/components/steps/Step7_Enhance.tsx:196-215 | the same memo and guard rules for the background-removed result, with the "Cannot remove background" error |
| `Enhance.Enhancer.FinishRemoveBackground` | src/components/steps/Step7_Enhance.tsx:216-226 | success stores the result with the PNG prefix and displays it; failure changes only the effects error; the flag is lowered |
| `Enhance.Enhancer.SetActivePreview` | src/components/steps/Step7_Enhance.tsx:63-68 | the displayed image is `previewSources[activePreview]`: original → final image, sketch → sketch result, no_bg → background-removed result |
| `Gallery.NextImage` | src/GalleryPage.tsx:72 | one click shows one of the entry's three images; from anything that is neither the final nor the original image it goes to the final image |
| `Gallery.ImageCycle` | src/GalleryPage.tsx:54-72 | with pairwise different images, the image after n clicks is final, original, masked for n mod 3 = 0, 1, 2: period 3 |
| `Gallery.ThreeClicksReturn` | src/GalleryPage.tsx:54-72 | three clicks return to the final image iff the images are pairwise different or the original equals the final one |
| `Gallery.OnlyEntryImagesShown` | src/GalleryPage.tsx:54-72 | after any number of clicks the dialog shows one of the entry's own images |
| `Gallery.GalleryModal.constructor` | src/GalleryPage.tsx:53-54 | the dialog opens on the final image |
| `Gallery.GalleryModal.ClickImage` | src/GalleryPage.tsx:72 | a click shows the next image of the cycle |
| `Gallery.GalleryPage.constructor` | src/GalleryPage.tsx:97-101 | the page mounts loading, with no entries and no selection |
| `Gallery.GalleryPage.FetchGallery` | src/GalleryPage.tsx:109-124 | without a user: no call and entries unchanged; success stores the listed entries (none when `gallery` is missing); failure keeps the entries; loading is false afterwards in every case |
| `Gallery.GalleryPage.SelectEntry` | src/GalleryPage.tsx:150 | a card click selects its entry |
| `Gallery.GalleryPage.CloseModal` | src/GalleryPage.tsx:162 | closing the dialog clears the selection |
| `Scenarios.PickSecondSuggestion` | src/App.tsx:207-232 | suggestions Owl/Fox, A/B, X/Y: confirming pre-selects Owl (returned as `preselected`); picking index 1 then gives Fox, B, Y on step 5 |
| `Scenarios.PickThenFailGeneration` | src/App.tsx:224-267 | after picking a suggestion the generation call is always sent; if it fails the wizard is on step 5 with the message as error |
| `Scenarios.MaskThenRefine` | src/App.tsx:166-205 | after a successful mask, refining always sends the label just used, and the step stays 3 |
| `Scenarios.SketchTwice` | src/components/steps/Step7_Enhance.tsx:159-191 | of two sketch requests, where the first succeeds, only the first sends a call; the sketch is displayed after the first (`shownAfterFirst`) and again after the second |
| `Scenarios.StoryDuringSketch` | src/components/steps/Step7_Enhance.tsx:99-191 | a story settling while a sketch is pending lowers only the story flag: the sketch stays pending, and the sketch result, the background-removal flag and result, the effects error and the preview are untouched |
| `Scenarios.ClickThrough` | src/GalleryPage.tsx:54-72 | with three different images, three clicks on a fresh dialog show the final image again |

## Left out

- The HTTP client (`src/services/api.ts`): each call is an `Outcome` argument. The base URL (`apiUrl`) is not modelled because it affects no decision.
- Reading the preview back as a data URL (`blobUrlToDataUrl`, `src/App.tsx:45-54`) uses browser I/O. Its result is the `originalRead` argument of `SaveContent`. The object URL the browser makes for an uploaded file is the `objectUrl` argument of `FileChange`.
- Speech dictation (`src/App.tsx:92-119`): only the `isListening` flag that restart clears is modelled.
- Downloads, clipboard copy, the DOM reset of the file input, console logging and navigation are left out; this includes the gallery page's redirect when nobody is signed in. Toast notifications are modelled only as the `Toast` value a handler returns.
- The plain state setters handed to the views (`setObjectLabel`, `setCustomLabel`, `setRefinedLabel`, `setEditedPrompt`, …) are single assignments. The handlers are proved for any values of those fields.
- The upscale service is passed to step 7 but never called there, so it is not modelled. The demo `App` at the end of `Step7_Enhance.tsx` is mock code and is also not modelled.
- The three service responses are taken as well-formed: the suggestions call returns three sequences, and the custom-prompt call returns two strings. A missing `animals` field (which the code tests for with `data.animals &&`) is not modelled.
- Wizard.WizardState.SelectAnimal: requires `index < |animals|`, the only indices the animal list can offer. An index out of range would store JavaScript's `undefined`, and the model does not represent that.
- Wizard.WizardState.FinishConfirmMask: requires that a call is pending (`isLoading`). FinishFinalGeneration also requires step 6. A user action between the start of a call and its completion is not modelled, because the loading overlay covers the view meanwhile.
- Wizard.WizardState.SaveContent: modelled as one atomic step. The save dialog's button is never disabled (`src/components/ui/AddToGall.tsx:11`, `:59-64`), and the loading overlay of step 6 is hidden once there is a final image (`src/components/steps/Step6_Result.tsx:33`). The kept image is dropped only when the save settles (`src/App.tsx:328`), so a second click while a save is pending sends the entry a second time. The model does not show this double submission: after one call the kept image is gone, and a second call is refused.
- Gallery.GalleryPage.FetchGallery: the effect runs once on mount. The model does not stop the method from being called again.
