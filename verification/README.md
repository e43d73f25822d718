# Ad-generator workflow engine, in Dafny

A model of the ad-concept wizard: a React single-page App that turns one product photo into two finished ad concepts, with copy, image prompts or a video script, and A/B test ideas. The wizard works through twelve stages:

1. upload an image;
2. choose still or video;
3. pick one of the generated trending styles;
4. generate concept ideas and choose two;
5. review and edit the two full concepts;
6. pick a hook and a CTA for each;
7. receive the final outputs.

The project models:

- the App's stage machine and its handlers (`Workflow`). Each handler is a pure function of the state and of the outcome of the model call it makes;
- what the screen offers in each state, and the invariant every reachable state keeps (`WorkflowInvariant`);
- the components that hold real logic:
  - the two-idea selector (`IdeaSelector`);
  - the hook/CTA picker (`HookCtaSelector`);
  - upload validation (`ImageUploader`);
  - the script copier (`ScriptFormat`);
  - the progress bar (`ProgressStepper`);
- the deterministic parts of the service layer:
  - prompt fragments (`Prompts`);
  - the full-concept response schema (`Schema`);
  - reply validation (`Responses`);
- the record types (`Types`), and the closed vocabulary of editable concept fields (`ConceptFields`).

Every call to the generative model is replaced by an `Outcome`. The outcome is either a success carrying the decoded value, or a failure carrying what was thrown: an `Error` with a message, or some other value. Each error text the App shows is derived from that outcome.

A handler that awaits a call is one atomic step. It runs from the click to the moment the outcome has been applied. Writes the App makes before the call stay in place when the call fails:

- the cleared idea list;
- the cleared committed concepts;
- the concepts locked in before the copy request and before the final request;
- the cleared A/B results;
- the advert type and the dropped price tag.

The model follows the code here, not a reading in which a failed step leaves the state as it was.

The background A/B request is a second outcome. It is applied after the final stage is shown. It changes only the A/B results and the in-flight flag.

Four behaviours are modelled as the code has them:

- Selections in the hook/CTA picker are keyed by concept name. Two concepts with the same name therefore share one selection, and both receive the second concept's defaults (`HookCtaSelector.SharedOptionNameCollides`).
- The service checks no field of a reply. The one exception is the video-script step, which checks that every script has a `shots` array.
- No stage guard stops a late reply from being applied.
- The copy, image-prompt and video-script prompts read the second concept unguarded. With a single concept each of those requests fails with the property-read error before any call is made.

## Model

| member | source | states |
|---|---|---|
| Types.ParseFormatLabel | types.ts:24 | a concept format label parses only to a format whose label it is, and both allowed labels parse |
| Types.FormatLabelRoundTrip | types.ts:24 | the two format labels read back as the formats they name, and they are the only labels |
| Types.OverlayPositionsExactlyFive | types.ts:81 | the overlay position type has exactly the five listed values, each once |
| ConceptFields.ParseField | components/ConceptEditor.tsx:58-105 | an editor path is read back only into a field whose path it is; paths outside the vocabulary are rejected |
| ConceptFields.FieldPathRoundTrip | components/ConceptEditor.tsx:58-105 | the path of every editable field, including the nested `technicalSpecs.*` ones, parses back to that field |
| ConceptFields.FieldPathInjective | components/ConceptEditor.tsx:58-105 | distinct fields have distinct edit paths |
| ConceptFields.SetField | App.tsx:173-190 | setting a field makes it read back the new value; every other field and the fields no path reaches (name, hook, CTA, format, duration) are unchanged |
| ConceptFields.SetFieldToCurrentValue | App.tsx:173-190 | writing the value a field already holds leaves the concept unchanged |
| ConceptFields.SetFieldOverwrites | App.tsx:173-190 | a second write to the same field replaces the first |
| ConceptFields.SetFieldCommutes | App.tsx:173-190 | writes to two different fields can be made in either order |
| IdeaSelector.IsIdeaSelected | components/ConceptIdeaSelector.tsx:38-40 | an idea counts as selected iff some selected entry has its title |
| IdeaSelector.RemoveTitle | components/ConceptIdeaSelector.tsx:26-28 | removing a title keeps exactly the entries with a different title, and never lengthens the selection |
| IdeaSelector.HandleSelect | components/ConceptIdeaSelector.tsx:22-35 | after a click the idea is selected iff it was not selected and fewer than two were (nothing changes while loading); the click keeps the selection valid: at most two entries, distinct titles |
| IdeaSelector.RemoveTitlePreservesDistinct | components/ConceptIdeaSelector.tsx:26-28 | filtering out a title keeps titles pairwise distinct |
| IdeaSelector.RemoveAbsentTitle | components/ConceptIdeaSelector.tsx:26-28 | filtering out a title that no entry has changes nothing |
| IdeaSelector.RemoveTitleConcat | components/ConceptIdeaSelector.tsx:26-28 | filtering distributes over concatenation, so the remaining entries keep their order |
| IdeaSelector.SelectAppends | components/ConceptIdeaSelector.tsx:29-31 | selecting an unselected idea below the cap appends it at the end |
| IdeaSelector.SelectAtCapacity | components/ConceptIdeaSelector.tsx:30-34 | selecting an unselected idea with two already selected changes nothing |
| IdeaSelector.DeselectRemovesTitle | components/ConceptIdeaSelector.tsx:26-28 | clicking a selected idea removes every entry with its title and keeps the rest in order |
| IdeaSelector.SelectWhileLoading | components/ConceptIdeaSelector.tsx:23 | a click while loading changes nothing |
| IdeaSelector.ToggleTwiceRestores | components/ConceptIdeaSelector.tsx:26-32 | below the cap, clicking an unselected idea twice restores the original selection |
| IdeaSelector.CanConfirm | components/ConceptIdeaSelector.tsx:42 | a confirmable picker is full, so a click on an unselected idea is ignored, and with distinct titles it holds two different ideas; below the cap such a click appends the idea |
| IdeaSelector.TwoDistinctClicksConfirm | components/ConceptIdeaSelector.tsx:22-42 | from the empty picker one click does not enable confirming, and two clicks on differently titled ideas hold exactly those two and do |
| IdeaSelector.ClicksKeepSelectionValid | components/ConceptIdeaSelector.tsx:22-35 | any run of clicks from a valid selection ends in a valid selection (at most two, distinct titles) |
| HookCtaSelector.FirstOr | components/HookAndCtaSelector.tsx:20-22 | the first element when there is one, else the fallback |
| HookCtaSelector.InitialHook | components/HookAndCtaSelector.tsx:15-21 | the default hook is the set's first hook when the set exists and has one (an empty string counts), else the concept's own hook |
| HookCtaSelector.InitialCta | components/HookAndCtaSelector.tsx:15-22 | the default CTA follows the same rule over the set's CTAs and the concept's CTA |
| HookCtaSelector.Init | components/HookAndCtaSelector.tsx:25-33 | both records are keyed by the two concepts' names; the second key's default always survives, the first's only when the names differ |
| HookCtaSelector.SelectHook | components/HookAndCtaSelector.tsx:73 | changing one concept's hook sets that key and leaves every other key and the CTA record unchanged |
| HookCtaSelector.SelectCta | components/HookAndCtaSelector.tsx:87 | changing one concept's CTA sets that key and leaves every other key and the hook record unchanged |
| HookCtaSelector.Confirm | components/HookAndCtaSelector.tsx:35-43 | nothing while loading; otherwise the concepts in the same order and number, each differing from its source only in hook and CTA, which are the selections for its name |
| HookCtaSelector.InitIsReady | components/HookAndCtaSelector.tsx:25-33 | the initial records hold a selection for every concept |
| HookCtaSelector.SelectionKeepsReady | components/HookAndCtaSelector.tsx:73-87 | changing a dropdown never removes a selection |
| HookCtaSelector.ConfirmDefaults | components/HookAndCtaSelector.tsx:15-43 | confirming untouched defaults with distinct names writes each concept's own defaults |
| HookCtaSelector.SharedOptionNameCollides | components/HookAndCtaSelector.tsx:25-33 | when both concepts share a name, both receive the second concept's default hook and CTA |
| HookCtaSelector.SelectHookThenConfirm | components/HookAndCtaSelector.tsx:35-43 | a changed hook reaches exactly the concepts with that name; the others confirm as before |
| ImageUploader.ProcessFile | components/ImageUploader.tsx:27-44 | no file makes no call; a bad type makes only the type error, an oversized file only the size error; an acceptable file makes exactly one upload call with that file |
| ImageUploader.TypeCheckPrecedesSizeCheck | components/ImageUploader.tsx:31-40 | a file both of the wrong type and too large reports only the type error |
| ImageUploader.SizeBoundIsInclusive | components/ImageUploader.tsx:15 | a file of exactly 10·1024·1024 bytes is accepted; one byte more is refused |
| ImageUploader.AllowedTypesExactly | components/ImageUploader.tsx:14 | exactly PNG, JPEG and WEBP pass the type check |
| ScriptFormat.Blocks | components/VideoScriptDisplay.tsx:15-21 | one block per shot, in shot order |
| ScriptFormat.FormatScriptForCopy | components/VideoScriptDisplay.tsx:11-23 | the appending loop produces the header followed by the blocks of all shots, in order |
| ScriptFormat.ShotBlocksSnoc | components/VideoScriptDisplay.tsx:15-21 | one more shot adds exactly its block at the end |
| ScriptFormat.ShotBlocksAppend | components/VideoScriptDisplay.tsx:15-21 | the blocks of a concatenation are the concatenated blocks |
| ScriptFormat.FormatAppendsShots | components/VideoScriptDisplay.tsx:11-21 | formatting shots xs ++ ys is formatting xs followed by the blocks of ys |
| ScriptFormat.ShotBlocksFirst | components/VideoScriptDisplay.tsx:15 | the first shot's block comes first |
| ScriptFormat.NoShotsIsHeader | components/VideoScriptDisplay.tsx:12-14 | a script without shots renders as exactly the name line, the CTA line and the rule |
| ProgressStepper.StatusOf | components/ProgressStepper.tsx:24-33 | a step is completed iff the current step is past it, active iff equal, and grey iff it lies ahead |
| ProgressStepper.NeverCompletedAndActive | components/ProgressStepper.tsx:24-25 | no step is both completed and active |
| ProgressStepper.StepIdsAreOneToFour | components/ProgressStepper.tsx:7-12 | four steps with ids 1 to 4 in order |
| ProgressStepper.ExactlyOneActive | components/ProgressStepper.tsx:7-12 | for a current step from 1 to 4 exactly one step is active, otherwise none |
| ProgressStepper.ProgressPercentageBounds | components/ProgressStepper.tsx:15 | the fill is 0 at step 1, 100 at step 4, and strictly increasing |
| Prompts.FormatText | services/geminiService.ts:16 | the style and idea prompts say "still image" iff the advert is a still |
| Prompts.ConceptFormatText | services/geminiService.ts:115-116 | the full-concept prompt says the video wording iff the advert is a video |
| Prompts.BudgetText | services/geminiService.ts:117 | the photoshoot budget is announced iff the advert is a still |
| Prompts.FormatWordingsAgree | services/geminiService.ts:16-117 | the two spellings of the format choice agree, and the budget follows the same split |
| Prompts.OrElse | services/geminiService.ts:118 | `value \|\| fallback` on strings: an empty value becomes the fallback ("not provided" for a CTA target, "N/A" for guidelines), a non-empty one is kept, and the result is empty only when both are |
| Prompts.PlaceholdersIdempotent | services/geminiService.ts:118-157 | applying a placeholder twice is applying it once, and the two placeholders never leave a field empty |
| Prompts.ConceptCtaLine | services/geminiService.ts:118 | the full-concept CTA sentence contains both targets, with placeholders |
| Prompts.HooksCtaLine | services/geminiService.ts:216 | the hooks CTA sentence contains both targets, with placeholders |
| Prompts.Quoted | services/geminiService.ts:57 | a quoted style or idea contains its title and its summary |
| Prompts.IdeasPromptFor | services/geminiService.ts:55-76 | the enhancement prompt is chosen iff the user gave a concept, and then it contains that concept; both prompts contain the format, the style's title and summary, and the guidelines or "N/A" |
| Prompts.ConceptsPromptFor | services/geminiService.ts:115-162 | the full-concept prompt carries the budget, the format, the style, the guidelines, both CTA targets, and idea 1 then idea 2 with their titles and summaries |
| Prompts.HooksBlock | services/geminiService.ts:222-232 | a concept's block in the hooks prompt contains its name, its summary and its language |
| Prompts.HooksPromptFor | services/geminiService.ts:216-232 | the builder throws the missing-property error iff there are fewer than two concepts, since line 229 reads the second concept's name; otherwise the hooks prompt pairs the first language with the first concept and the second with the second, after the CTA sentence |
| Prompts.PriceTagFragment | services/geminiService.ts:274 | the price-tag sentence is empty iff there is no price tag, and otherwise contains it |
| Prompts.BrandNameFragment | services/geminiService.ts:338 | the brand-name sentence is empty iff there is no brand name, and otherwise contains it |
| Schema.FormatOf | services/geminiService.ts:137 | the schema asks for the video format iff the advert is a video |
| Schema.ConceptSchemaFor | services/geminiService.ts:120-177 | a tech property is declared iff it is common or the advert is a video and it is video-only; the top-level duration is declared only for a video; the required lists are the fixed ones; the format label parses to the advert's format |
| Schema.VideoOnlyFieldsIffVideo | services/geminiService.ts:120-146 | each video-only tech field is declared exactly when the advert is a video |
| Schema.VideoDurationDeclaredTwice | services/geminiService.ts:124-175 | for a video the duration is declared both inside technicalSpecs and at the top level; for a still, in neither |
| Schema.RequiredAreDeclared | services/geminiService.ts:127-177 | every required name is a declared property, for both advert types |
| Schema.RequiredListsAreFixed | services/geminiService.ts:148-177 | the required lists do not depend on the advert type: eleven concept fields, five tech fields |
| Schema.OptionalTechFieldsAreVideoOnly | services/geminiService.ts:120-148 | the declared-but-optional tech fields are exactly the video-only ones |
| Schema.RequiredSpecsAreMandatory | types.ts:5-16 | the schema's required tech fields are the record's mandatory ones, which always read back a value; the three video-only fields read back as optional |
| Schema.EditableFieldsAreRequired | types.ts:28 | every editable field is a required concept field; the required fields no edit reaches are exactly name, hook, CTA, format and technicalSpecs |
| Responses.InvalidResponseMessage | services/geminiService.ts:42-474 | each structured step has its own non-empty message for an unusable reply |
| Responses.InvalidResponseMessagesDistinct | services/geminiService.ts:42-474 | the messages tell the steps apart |
| Responses.ValidVideoScripts | services/geminiService.ts:401 | a video-script reply passes iff it is an array whose every element is an object with an array under `shots` |
| Responses.AllHaveShots | services/geminiService.ts:401 | the element-wise check holds iff every element has a shots array |
| Responses.ParseResponse | services/geminiService.ts:398-408 | a reply that does not decode fails with the step's message; a decoded reply passes unchanged, except that a video-script reply passes iff it has the checked shape; every failure carries the step's message |
| Responses.EmptyScriptListAccepted | services/geminiService.ts:401-404 | an empty script list passes the shape check |
| Responses.OneBadScriptRejectsAll | services/geminiService.ts:401-407 | one script without a shots array anywhere in the list fails the whole reply |
| Responses.AllHaveShotsAppend | services/geminiService.ts:401 | a concatenation of script lists passes iff both halves do |
| Responses.ShapeCheckOnlyForScripts | services/geminiService.ts:38-43 | a non-array reply never passes the video-script step; every decoded reply passes every other step |
| Workflow.StageAt | App.tsx:21-33 | every position 0..11 names the stage at that position |
| Workflow.StageIndexRoundTrip | App.tsx:21-33 | the twelve stages and the positions 0..11 correspond one to one |
| Workflow.ResetWorkflow | App.tsx:69-88 | back to the upload stage keeping the image, or to the start without it; every generated artefact and the error cleared; the inputs, languages and overlay position kept |
| Workflow.ResetIdempotent | App.tsx:69-88 | resetting twice is resetting once |
| Workflow.ResetForgetsHistory | App.tsx:69-88 | two states that agree on what a reset keeps reset to the same state |
| Workflow.StartOverIsInitialState | App.tsx:572 | "Start New Project" from an untouched form is the mounting state again |
| Workflow.HandleImageUpload | App.tsx:90-95 | a new image lands on the upload stage holding that image, with everything generated cleared |
| Workflow.UploadIdempotent | App.tsx:90-95 | uploading the same file twice is uploading it once |
| Workflow.ApplyUpload | App.tsx:337-342 | no file changes nothing; an acceptable file is an image upload |
| Workflow.RejectedUploadOnlySetsError | components/ImageUploader.tsx:31-40 | a refused file only sets the error, the type error when the type is wrong |
| Workflow.ErrorTextDistinguishesCauses | App.tsx:119 | the shown error text determines the thrown message, and whether an Error was thrown at all, for both wordings |
| Workflow.SelectAdvertType | App.tsx:97-122 | without an image: a full reset, the error set first being wiped; otherwise the type is recorded and a video drops the price tag; success shows the styles, failure returns to the type choice with the error and keeps the old styles; nothing else changes |
| Workflow.SelectStyle | App.tsx:353 | the chosen style is recorded and nothing else changes |
| Workflow.GenerateIdeas | App.tsx:125-149 | a missing image, style or type only sets the error; otherwise non-empty ideas move on holding exactly them, while an empty list or a failure returns to the styles with an error and no ideas |
| Workflow.GenerateFullConcepts | App.tsx:151-171 | a missing image or type, or a selection that is not two, only sets the error; success commits the concepts and an equal editable copy and starts review at the first; failure, including a missing style, returns to the ideas with no committed concepts and the edits and review position untouched |
| Workflow.SelectReviewIndex | App.tsx:489-491 | the review position changes and nothing else |
| Workflow.EditConcept | App.tsx:173-190 | the edited field of the concept under review reads back the value; its other fields, the other concepts, the committed concepts and the stage are unchanged |
| Workflow.EditBackRestores | App.tsx:173-190 | editing a field back to its old value restores the state |
| Workflow.EditsCommute | App.tsx:173-190 | edits of two different fields commute |
| Workflow.EditsLeaveCommittedConcepts | App.tsx:173-190 | any run of edits leaves the committed concepts, the stage, the review position, the other concept and the unreachable fields unchanged |
| Workflow.EnhanceStyling | App.tsx:192-206 | nothing without a concept under review; success changes exactly the styling notes of that concept, leaves the other concepts and every other state field alone, and clears the error; failure only sets the enhancement error |
| Workflow.EnhanceIsStylingEdit | App.tsx:192-206 | a successful enhancement is the same state change as a manual edit of the styling notes after clearing the error |
| Workflow.GenerateHooksAndCtas | App.tsx:208-222 | a no-op without an image or concepts; otherwise the edits are locked in as the committed concepts, even on failure; with two or more concepts, success moves to the picker with the sets and failure returns to review with the error; a single concept always returns to review with the error the prompt builder throws on reading the missing second concept (services/geminiService.ts:229) |
| Workflow.FinalizeOutputs | App.tsx:225-259 | a no-op without an image, a type or concepts; otherwise the chosen copy is committed and the A/B results are cleared; a still sets only the prompts and a video only the scripts; success shows the final screen, failure returns to the picker; a single chosen concept always fails with the error the prompt builders throw on reading the missing second concept (services/geminiService.ts:296 and :357) |
| Workflow.FinalizeAndGenerateOutputs | App.tsx:225-259 | not ready: nothing changes; otherwise the chosen copy is committed; a successful primary call ends on the final screen with no error, the A/B flag down and the variations exactly those of a successful A/B call (none after a failed one); a failed primary call returns to the picker with its error and no variations |
| Workflow.ApplyAbTestOutcome | App.tsx:243-253 | the A/B result is stored on success and swallowed on failure; the flag drops; the stage and the error never change |
| Workflow.AbFailureKeepsOutputs | App.tsx:243-253 | a failed A/B request leaves the final screen with its outputs, no variations and no error |
| Workflow.FailureLandsBeforeSpinner | App.tsx:97-259 | each of the five generation steps, when it fails, lands one stage before its spinner stage |
| Workflow.SuccessLandsAfterSpinner | App.tsx:112-165 | a successful style or full-concept request lands one stage after its spinner stage |
| Workflow.ProgressPhase | App.tsx:278-299 | the progress step is between 1 and 4 and cuts the stage order at positions 4, 7 and 10 |
| Workflow.ProgressPhaseMonotone | App.tsx:278-299 | the projection lands in 1..4, never decreases along the stage order, and maps the first four stages to 1 and the last two to 4 |
| Workflow.OverlayText | App.tsx:301-310 | an overlay is shown iff the concept under review exists during review and the brand name or its CTA is non-empty, and it then shows exactly those two |
| Workflow.EditKeepsOverlay | App.tsx:173-190 | no edit changes the overlay, since no edit path reaches the CTA |
| WorkflowInvariant.Enabled | App.tsx:337-560 | the uploader is always offered; behind a spinner only the overlay move and, while the copy request runs, the review screen's concept switch, editor, Enhance and language pickers stay live, while the copy button needs the review stage proper; the editor offers the video-only spec fields only for a concept in the video format; the type and style choices belong to step 1, confirming ideas (exactly two) to step 2, the review and copy actions to step 3, and starting over to step 4 |
| WorkflowInvariant.EditDuringCopyRequestMissesLockIn | App.tsx:479-501 | an edit made while the copy request runs is offered and lands in the editable copy, but leaves the committed concepts the request already took, and the stage, alone |
| WorkflowInvariant.ChosenCopy | components/HookAndCtaSelector.tsx:35-43 | the picker hands over as many concepts as it was given |
| WorkflowInvariant.InitialStateSatisfiesInv | App.tsx:36-66 | the mounting state satisfies the invariant |
| WorkflowInvariant.StepPreservesInv | App.tsx:337-572 | every action the screen offers keeps the invariant: no spinner stage between actions; the start stage iff no image; and, by stage, a type, a style with ideas, copy sets with at least two committed concepts, the outputs the type asks for; no video holds a price tag; always two copy languages |
| WorkflowInvariant.RunPreservesInv | App.tsx:337-572 | every run of actions keeps the invariant |
| WorkflowInvariant.ReachableStatesAreSettled | App.tsx:243-253 | no reachable state is mid-call, and the copy request always has two languages |
| WorkflowInvariant.OneActiveProgressStep | App.tsx:278-299 | every stage shows exactly one active step on the progress bar |
| WorkflowInvariant.StyleFailureReturnsToTypeChoice | App.tsx:116-121 | a failed style request offers the type choice again, with the error, the chosen type and the old styles |
| WorkflowInvariant.HooksFailureKeepsLockIn | App.tsx:208-222 | a failed copy request returns to a usable review screen with the edits already committed; with a single concept the error is the missing-concept one |
| WorkflowInvariant.FinalFailureReturnsToPicker | App.tsx:225-259 | a failed final request returns to the picker with the chosen copy committed and no A/B results |
| WorkflowInvariant.FinalScreenHasOutputs | App.tsx:233-241 | whenever the final screen is reached it holds the output its advert type asks for |
| WorkflowInvariant.SetupReachesIdeas | App.tsx:90-149 | an accepted image, a still advert, a style and a non-empty idea list reach the idea selection holding those ideas |
| WorkflowInvariant.IdeasReachFinalScreen | App.tsx:151-259 | two confirmed ideas, concepts, copy sets and prompts reach the final screen with the prompts and the A/B variations |
| WorkflowInvariant.HappyPathReachesFinalScreen | App.tsx:90-259 | the whole wizard can be completed when every call succeeds |

## Left out

- The model service itself (SDK, API key, model names, network): each call is an outcome parameter.
- Decoding and trimming the reply text: a reply is modelled as a decoded value or nothing.
- The image file's bytes, FileReader, base64 encoding and the preview URL: an image is its media type and size. The App sets and clears the preview URL together with the file.
- React's state batching, dependency lists and stale closures: each handler is modelled as if it read the latest state.
- Interleaving of in-flight calls with other clicks: each handler is one atomic step. The code has no guard against a late reply, and neither does the model. The review screen's controls are offered at the copy request's spinner stage as the App renders them, but under atomic steps no reachable state rests there.
- The clipboard and the "Copied!" timer.
- The presentational components: Header, Tooltip, AdConceptCard, AbTestDisplay, AdvertTypeSelector, AdvertStyleSelector, ImageGenPromptDisplay and TextOverlay.
- The prose of the prompt templates. A prompt is modelled as its argument-carrying lines, and only what those lines contain is stated.
- The transient "enhancing" spinner flag: it is set and cleared within the one enhancement step.
- The full decoded-value checks that a careful parser would make. The code makes none beyond the video-script `shots` check. The model's outcomes are typed, so it assumes that every decoded reply already has the shape the step expects. The App does not: a reply that decodes to a non-empty string, say, passes the `ideas.length > 0` test at App.tsx:138 and is stored as the idea list.
- Workflow.EditConcept: requires the review position to address a concept. The App indexes without a check and would fail at render for an out-of-range position, which the review buttons can produce with a one-concept list.
- HookCtaSelector.Init: requires at least two concepts. The component reads the second concept's name unguarded.
- HookCtaSelector.Confirm: requires every concept's name to have a selection. The component would otherwise write `undefined` into the concept.
- Workflow.GenerateIdeas: a `null` idea list takes the same branch as an empty one. It is modelled by the empty sequence only.
- Workflow.GenerateFullConcepts: the error text for a missing style is fixed to V8's wording for a null dereference.
- Prompts.IdeasPromptFor: the plain prompt "does not mention" the user concept only in that it has no concept line. The concept is empty on that branch, and an empty string is contained everywhere.
- technicalSpecs.videoDuration: the video schema declares it and the record type has no such field. The App still keeps a reply's value there, since the parsed object and its deep copy carry every key, and forwards it to the later prompts through `JSON.stringify(technicalSpecs)`. The model drops it, because its `TechnicalSpecs` has no such field.
- Prompts.HooksPromptFor: requires two copy languages. The service's parameter is a pair, and the App always passes its two-element language list.
- The idea selector's and copy picker's `isLoading` flags are wired to stages in which those components are not rendered. The model keeps the parameter but never passes `true`.
