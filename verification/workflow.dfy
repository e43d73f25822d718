/**
 The wizard's workflow engine (App.tsx): twelve stages, the domain state the
 App keeps, and one pure transition per handler. Every call into the model
 service is replaced by its outcome, passed in as a parameter; a handler
 that awaits a call is modelled as one atomic step from the state before the
 click to the state after the outcome has been applied, with the writes made
 before the call kept on the failure path, as the App keeps them.
 */
module Workflow {
  import opened Types
  import opened ConceptFields
  import ImageUploader

  datatype Stage =
    | Initial
    | ImageUploaded
    | GeneratingStyles
    | StylesGenerated
    | GeneratingIdeas
    | IdeasGenerated
    | GeneratingFullConcepts
    | ReviewingConcepts
    | GeneratingHooksAndCtas
    | SelectingHooksAndCtas
    | GeneratingFinalOutputs
    | FinalOutputsGenerated

  /** The position of a stage in the wizard's linear order, from 0 to 11. */
  function StageIndex(st: Stage): (r: nat)
    ensures r < 12
  {
    match st
    case Initial => 0
    case ImageUploaded => 1
    case GeneratingStyles => 2
    case StylesGenerated => 3
    case GeneratingIdeas => 4
    case IdeasGenerated => 5
    case GeneratingFullConcepts => 6
    case ReviewingConcepts => 7
    case GeneratingHooksAndCtas => 8
    case SelectingHooksAndCtas => 9
    case GeneratingFinalOutputs => 10
    case FinalOutputsGenerated => 11
  }

  /** The stage at a position of the linear order. */
  function StageAt(i: nat): (r: Stage)
    requires i < 12
    ensures StageIndex(r) == i
  {
    [Initial, ImageUploaded, GeneratingStyles, StylesGenerated, GeneratingIdeas, IdeasGenerated,
     GeneratingFullConcepts, ReviewingConcepts, GeneratingHooksAndCtas, SelectingHooksAndCtas,
     GeneratingFinalOutputs, FinalOutputsGenerated][i]
  }

  /** The order is a bijection between the twelve stages and 0..11. */
  lemma StageIndexRoundTrip(st: Stage)
    ensures StageAt(StageIndex(st)) == st
  {
  }

  /** The five stages that only show a spinner while a call is in flight. */
  predicate IsGenerating(st: Stage)
  {
    st in {GeneratingStyles, GeneratingIdeas, GeneratingFullConcepts, GeneratingHooksAndCtas, GeneratingFinalOutputs}
  }

  /** The free-text campaign inputs of the ideas panel. */
  datatype CampaignInputs = CampaignInputs(
    ctaUrl: string,
    ctaWhatsApp: string,
    priceTag: string,
    brandName: string,
    brandGuidelines: string,
    userConcept: string)

  const EmptyInputs: CampaignInputs := CampaignInputs("", "", "", "", "", "")

  const DefaultLanguages: seq<string> := ["English", "English"]

  /**
   The App's state. `image` stands for the uploaded file together with its
   preview URL, which the App always sets and clears together.
   */
  datatype State = State(
    stage: Stage,
    image: Option<ImageUploader.FileInfo>,
    advertType: Option<AdvertType>,
    inputs: CampaignInputs,
    copyLanguages: seq<string>,
    advertStyles: seq<AdvertStyle>,
    selectedStyle: Option<AdvertStyle>,
    conceptIdeas: seq<ConceptIdea>,
    adConcepts: seq<AdConcept>,
    editableConcepts: seq<AdConcept>,
    reviewIndex: nat,
    hooksAndCtas: Option<seq<HookAndCtaSet>>,
    imageGenPrompts: Option<seq<ImageGenPrompt>>,
    videoScripts: Option<seq<VideoScript>>,
    abTestVariations: Option<seq<AbTestVariation>>,
    error: Option<string>,
    isGeneratingAbTests: bool,
    overlayPosition: OverlayPosition)

  /** The state the App mounts with. */
  const InitialState: State :=
    State(Initial, None, None, EmptyInputs, DefaultLanguages, [], None, [], [], [], 0,
          None, None, None, None, None, false, BottomLeft)

  /** Nothing generated is held: the state resetWorkflow leaves behind. */
  predicate GeneratedCleared(s: State)
  {
    && s.advertType.None?
    && s.advertStyles == []
    && s.selectedStyle.None?
    && s.conceptIdeas == []
    && s.adConcepts == []
    && s.editableConcepts == []
    && s.reviewIndex == 0
    && s.hooksAndCtas.None?
    && s.imageGenPrompts.None?
    && s.videoScripts.None?
    && s.abTestVariations.None?
    && !s.isGeneratingAbTests
  }

  /**
   resetWorkflow(keepImage): back to the upload stage (or the start, dropping
   the image), with every generated artefact and the error cleared; the
   campaign inputs, the copy languages and the overlay position survive.
   */
  function ResetWorkflow(s: State, keepImage: bool): (r: State)
    ensures r.stage == (if keepImage then ImageUploaded else Initial)
    ensures keepImage ==> r.image == s.image
    ensures !keepImage ==> r.image.None?
    ensures GeneratedCleared(r) && r.error.None?
    ensures r.inputs == s.inputs && r.copyLanguages == s.copyLanguages && r.overlayPosition == s.overlayPosition
  {
    State(
      if keepImage then ImageUploaded else Initial,
      if keepImage then s.image else None,
      None, s.inputs, s.copyLanguages, [], None, [], [], [], 0,
      None, None, None, None, None, false, s.overlayPosition)
  }

  /** Resetting twice is resetting once. */
  lemma ResetIdempotent(s: State, keepImage: bool)
    ensures ResetWorkflow(ResetWorkflow(s, keepImage), keepImage) == ResetWorkflow(s, keepImage)
  {
  }

  /** A reset forgets history: it depends only on what it keeps. */
  lemma ResetForgetsHistory(a: State, b: State, keepImage: bool)
    requires a.inputs == b.inputs && a.copyLanguages == b.copyLanguages && a.overlayPosition == b.overlayPosition
    requires keepImage ==> a.image == b.image
    ensures ResetWorkflow(a, keepImage) == ResetWorkflow(b, keepImage)
  {
  }

  /** "Start New Project" from an untouched form returns the App to its mounting state. */
  lemma StartOverIsInitialState(s: State)
    requires s.inputs == EmptyInputs && s.copyLanguages == DefaultLanguages && s.overlayPosition == BottomLeft
    ensures ResetWorkflow(s, false) == InitialState
  {
  }

  /** handleImageUpload: the new image, then a reset that keeps it. */
  function HandleImageUpload(s: State, file: ImageUploader.FileInfo): (r: State)
    ensures r.stage == ImageUploaded && r.image == Some(file)
    ensures GeneratedCleared(r) && r.error.None?
    ensures r.inputs == s.inputs && r.copyLanguages == s.copyLanguages && r.overlayPosition == s.overlayPosition
  {
    ResetWorkflow(s.(image := Some(file)), true)
  }

  /** Uploading the same file twice is uploading it once. */
  lemma UploadIdempotent(s: State, file: ImageUploader.FileInfo)
    ensures HandleImageUpload(HandleImageUpload(s, file), file) == HandleImageUpload(s, file)
  {
  }

  /**
   A file chosen or dropped on the uploader: the uploader's validation runs
   first, and its one callback (if any) reaches the App, an error message
   through setError or a valid file through handleImageUpload.
   */
  function ApplyUpload(s: State, file: Option<ImageUploader.FileInfo>): (r: State)
    ensures file.None? ==> r == s
    ensures (file.Some? && ImageUploader.AcceptableType(file.value) && ImageUploader.AcceptableSize(file.value))
              ==> r == HandleImageUpload(s, file.value)
  {
    var calls := ImageUploader.ProcessFile(file);
    if |calls| == 0 then s
    else
      match calls[0]
      case OnError(m) => s.(error := Some(m))
      case OnImageUpload(f) => HandleImageUpload(s, f)
  }

  /** A rejected file only sets the error, leaving the stage and every artefact as they were. */
  lemma RejectedUploadOnlySetsError(s: State, f: ImageUploader.FileInfo)
    requires !(ImageUploader.AcceptableType(f) && ImageUploader.AcceptableSize(f))
    ensures exists m :: ApplyUpload(s, Some(f)) == s.(error := Some(m))
    ensures !ImageUploader.AcceptableType(f) ==> ApplyUpload(s, Some(f)) == s.(error := Some(ImageUploader.InvalidTypeMessage))
  {
    var m := ImageUploader.ProcessFile(Some(f))[0].message;
    assert ApplyUpload(s, Some(f)) == s.(error := Some(m));
  }

  const ErrorPrefix: string := "An error occurred: "
  const UnknownErrorText: string := "An unknown error occurred."
  const EnhancePrefix: string := "Failed to enhance styling: "
  const UnknownEnhanceErrorText: string := "An unknown error occurred during enhancement."

  /** The error text the generation handlers show for a thrown value. */
  function ErrorText(c: Cause): string
  {
    match c
    case Thrown(m) => ErrorPrefix + m
    case ThrownNonError => UnknownErrorText
  }

  /** The error text of the styling enhancement. */
  function EnhanceErrorText(c: Cause): string
  {
    match c
    case Thrown(m) => EnhancePrefix + m
    case ThrownNonError => UnknownEnhanceErrorText
  }

  /** A shown error text determines the thrown value's message, and whether it was an Error at all. */
  lemma ErrorTextDistinguishesCauses(a: Cause, b: Cause)
    ensures ErrorText(a) == ErrorText(b) ==> a == b
    ensures EnhanceErrorText(a) == EnhanceErrorText(b) ==> a == b
  {
    if a != b {
      if a.Thrown? && b.Thrown? {
        assert ErrorText(a)[|ErrorPrefix|..] == a.message && ErrorText(b)[|ErrorPrefix|..] == b.message;
        assert EnhanceErrorText(a)[|EnhancePrefix|..] == a.message && EnhanceErrorText(b)[|EnhancePrefix|..] == b.message;
      } else {
        FirstLettersOfErrorTexts(a);
        FirstLettersOfErrorTexts(b);
      }
    }
  }

  /** The letters that tell an Error's text from the text for any other thrown value. */
  lemma FirstLettersOfErrorTexts(c: Cause)
    ensures ErrorText(c)[3] == (if c.Thrown? then 'e' else 'u')
    ensures EnhanceErrorText(c)[0] == (if c.Thrown? then 'F' else 'A')
  {
    match c
    case Thrown(m) =>
      assert ErrorPrefix[3] == 'e' && EnhancePrefix[0] == 'F';
    case ThrownNonError =>
      assert UnknownErrorText[3] == 'u';
      assert UnknownEnhanceErrorText == "An unknown error occurred" + " during enhancement.";
  }

  const NoImageMessage: string := "Image not found. Please start over by re-uploading."
  const MissingSelectionMessage: string := "Please ensure an image, advert type, and a trending style are selected."
  const NoIdeasMessage: string := "The AI couldn't generate any ideas for this combination. Please try adjusting your inputs."
  const StartOverMessage: string := "Something went wrong. Please start over."

  /**
   What the full-concept builder throws when no style is selected: it reads
   the style's title through a null reference. The text is the one V8 gives.
   */
  const NullStyleCause: Cause := Thrown("Cannot read properties of null (reading 'title')")

  /**
   handleAdvertTypeSelect. Without an image the error it sets is wiped by the
   reset that follows. Otherwise the type is recorded (a video drops the
   price tag) before the styles are requested, and both survive a failure.
   */
  function SelectAdvertType(s: State, t: AdvertType, styles: Outcome<seq<AdvertStyle>>): (r: State)
    ensures s.image.None? ==> r == ResetWorkflow(s, false)
    ensures s.image.Some? ==> r.advertType == Some(t) && r.image == s.image
    ensures s.image.Some? ==> r.inputs.priceTag == (if t == Video then "" else s.inputs.priceTag)
    ensures s.image.Some? && styles.Success? ==>
              r.stage == StylesGenerated && r.advertStyles == styles.value && r.error.None?
    ensures s.image.Some? && styles.Failure? ==>
              && r.stage == ImageUploaded && r.advertStyles == s.advertStyles
              && r.error == Some(ErrorText(styles.cause))
    ensures s.image.Some? ==>
              r.(advertType := s.advertType, inputs := s.inputs, stage := s.stage,
                 error := s.error, advertStyles := s.advertStyles) == s
    ensures s.image.Some? ==> r.inputs.(priceTag := s.inputs.priceTag) == s.inputs
  {
    if s.image.None? then
      ResetWorkflow(s.(error := Some(NoImageMessage)), false)
    else
      var pending := s.(
        advertType := Some(t),
        inputs := if t == Video then s.inputs.(priceTag := "") else s.inputs,
        stage := GeneratingStyles,
        error := None);
      match styles
      case Success(v) => pending.(advertStyles := v, stage := StylesGenerated)
      case Failure(c) => pending.(error := Some(ErrorText(c)), stage := ImageUploaded)
  }

  /** The style selector's choice. */
  function SelectStyle(s: State, style: AdvertStyle): (r: State)
    ensures r.selectedStyle == Some(style)
    ensures r.(selectedStyle := s.selectedStyle) == s
  {
    s.(selectedStyle := Some(style))
  }

  /** handleGenerateIdeas' precondition: an image, a style and an advert type. */
  predicate IdeasReady(s: State)
  {
    s.image.Some? && s.selectedStyle.Some? && s.advertType.Some?
  }

  /**
   handleGenerateIdeas. The previous ideas are dropped before the call; a
   non-empty list moves on, an empty list or a failure goes back to the style
   stage with an error and no ideas.
   */
  function GenerateIdeas(s: State, ideas: Outcome<seq<ConceptIdea>>): (r: State)
    ensures !IdeasReady(s) ==> r == s.(error := Some(MissingSelectionMessage))
    ensures IdeasReady(s) && ideas.Success? && |ideas.value| > 0 ==>
              r.stage == IdeasGenerated && r.conceptIdeas == ideas.value && r.error.None?
    ensures IdeasReady(s) && ideas.Success? && |ideas.value| == 0 ==>
              r.stage == StylesGenerated && r.conceptIdeas == [] && r.error == Some(NoIdeasMessage)
    ensures IdeasReady(s) && ideas.Failure? ==>
              r.stage == StylesGenerated && r.conceptIdeas == [] && r.error == Some(ErrorText(ideas.cause))
    ensures r.(stage := s.stage, error := s.error, conceptIdeas := s.conceptIdeas) == s
  {
    if !IdeasReady(s) then s.(error := Some(MissingSelectionMessage))
    else
      var pending := s.(stage := GeneratingIdeas, error := None, conceptIdeas := []);
      match ideas
      case Success(v) =>
        if |v| > 0 then pending.(conceptIdeas := v, stage := IdeasGenerated)
        else pending.(error := Some(NoIdeasMessage), stage := StylesGenerated)
      case Failure(c) => pending.(error := Some(ErrorText(c)), stage := StylesGenerated)
  }

  /** handleGenerateFullConcepts' precondition: an image, an advert type and exactly two ideas. */
  predicate FullConceptsReady(s: State, selected: seq<ConceptIdea>)
  {
    s.image.Some? && s.advertType.Some? && |selected| == 2
  }

  /**
   handleGenerateFullConcepts. The committed concepts are dropped before the
   call. On success both the committed and the editable concepts hold the
   result and review starts at the first one; on failure (including the
   missing style the prompt builder trips over) the ideas stage returns.
   */
  function GenerateFullConcepts(s: State, selected: seq<ConceptIdea>, concepts: Outcome<seq<AdConcept>>): (r: State)
    ensures !FullConceptsReady(s, selected) ==> r == s.(error := Some(StartOverMessage))
    ensures FullConceptsReady(s, selected) && s.selectedStyle.Some? && concepts.Success? ==>
              && r.stage == ReviewingConcepts && r.error.None?
              && r.adConcepts == concepts.value && r.editableConcepts == concepts.value && r.reviewIndex == 0
    ensures FullConceptsReady(s, selected) && s.selectedStyle.Some? && concepts.Failure? ==>
              && r.stage == IdeasGenerated && r.adConcepts == [] && r.error == Some(ErrorText(concepts.cause))
              && r.editableConcepts == s.editableConcepts && r.reviewIndex == s.reviewIndex
    ensures FullConceptsReady(s, selected) && s.selectedStyle.None? ==>
              && r.stage == IdeasGenerated && r.adConcepts == [] && r.error == Some(ErrorText(NullStyleCause))
              && r.editableConcepts == s.editableConcepts && r.reviewIndex == s.reviewIndex
    ensures r.(stage := s.stage, error := s.error, adConcepts := s.adConcepts,
               editableConcepts := s.editableConcepts, reviewIndex := s.reviewIndex) == s
  {
    if !FullConceptsReady(s, selected) then s.(error := Some(StartOverMessage))
    else
      var pending := s.(stage := GeneratingFullConcepts, error := None, adConcepts := []);
      var outcome := if s.selectedStyle.None? then Failure(NullStyleCause) else concepts;
      match outcome
      case Success(v) =>
        pending.(adConcepts := v, editableConcepts := v, reviewIndex := 0, stage := ReviewingConcepts)
      case Failure(c) => pending.(error := Some(ErrorText(c)), stage := IdeasGenerated)
  }

  /** The "Concept 1" / "Concept 2" switch of the review screen. */
  function SelectReviewIndex(s: State, i: nat): (r: State)
    ensures r.reviewIndex == i
    ensures r.(reviewIndex := s.reviewIndex) == s
  {
    s.(reviewIndex := i)
  }

  /**
   handleConceptEdit: the field at the edit path of the concept under review
   takes the new value; the other fields, the other concepts, the committed
   concepts and the stage do not change.
   */
  function EditConcept(s: State, f: ConceptField, v: string): (r: State)
    requires s.reviewIndex < |s.editableConcepts|
    ensures |r.editableConcepts| == |s.editableConcepts|
    ensures GetField(r.editableConcepts[s.reviewIndex], f) == Some(v)
    ensures forall g :: g != f ==>
              GetField(r.editableConcepts[s.reviewIndex], g) == GetField(s.editableConcepts[s.reviewIndex], g)
    ensures SameFixedFields(r.editableConcepts[s.reviewIndex], s.editableConcepts[s.reviewIndex])
    ensures forall j :: 0 <= j < |s.editableConcepts| && j != s.reviewIndex ==>
              r.editableConcepts[j] == s.editableConcepts[j]
    ensures r.(editableConcepts := s.editableConcepts) == s
  {
    var i := s.reviewIndex;
    s.(editableConcepts := s.editableConcepts[i := SetField(s.editableConcepts[i], f, v)])
  }

  /** Editing a field back to the value it had restores the state. */
  lemma EditBackRestores(s: State, f: ConceptField, v: string, w: string)
    requires s.reviewIndex < |s.editableConcepts|
    requires GetField(s.editableConcepts[s.reviewIndex], f) == Some(w)
    ensures EditConcept(EditConcept(s, f, v), f, w) == s
  {
    var c := s.editableConcepts[s.reviewIndex];
    SetFieldOverwrites(c, f, v, w);
    SetFieldToCurrentValue(c, f, w);
    assert s.editableConcepts[s.reviewIndex := SetField(c, f, w)] == s.editableConcepts;
  }

  /** Edits of two different fields can be made in either order. */
  lemma EditsCommute(s: State, f: ConceptField, v: string, g: ConceptField, w: string)
    requires s.reviewIndex < |s.editableConcepts| && f != g
    ensures EditConcept(EditConcept(s, f, v), g, w) == EditConcept(EditConcept(s, g, w), f, v)
  {
    SetFieldCommutes(s.editableConcepts[s.reviewIndex], f, v, g, w);
  }

  /** A run of edits, each at the concept under review. */
  function ApplyEdits(s: State, edits: seq<(ConceptField, string)>): State
    requires s.reviewIndex < |s.editableConcepts|
    decreases |edits|
  {
    if |edits| == 0 then s
    else
      var next := EditConcept(s, edits[0].0, edits[0].1);
      ApplyEdits(next, edits[1..])
  }

  /**
   However many edits are made, the committed concepts, the stage, the review
   position, the other concept and the fields no path reaches stay as they were.
   */
  lemma {:induction false} EditsLeaveCommittedConcepts(s: State, edits: seq<(ConceptField, string)>)
    requires s.reviewIndex < |s.editableConcepts|
    ensures var r := ApplyEdits(s, edits);
            && r.adConcepts == s.adConcepts && r.stage == s.stage && r.reviewIndex == s.reviewIndex
            && |r.editableConcepts| == |s.editableConcepts|
            && SameFixedFields(r.editableConcepts[s.reviewIndex], s.editableConcepts[s.reviewIndex])
            && (forall j :: 0 <= j < |s.editableConcepts| && j != s.reviewIndex ==>
                  r.editableConcepts[j] == s.editableConcepts[j])
    decreases |edits|
  {
    if |edits| > 0 {
      var next := EditConcept(s, edits[0].0, edits[0].1);
      EditsLeaveCommittedConcepts(next, edits[1..]);
    }
  }

  /**
   handleEnhanceStyling: nothing without a concept under review; otherwise the
   error is cleared, and the new notes are an edit of stylingNotes, or the
   failure is reported with the enhancement's own wording.
   */
  function EnhanceStyling(s: State, notes: Outcome<string>): (r: State)
    ensures s.reviewIndex >= |s.editableConcepts| ==> r == s
    ensures s.reviewIndex < |s.editableConcepts| && notes.Success? ==>
              && r.error.None?
              && |r.editableConcepts| == |s.editableConcepts|
              && r.editableConcepts[s.reviewIndex].stylingNotes == notes.value
              && r.editableConcepts[s.reviewIndex].(stylingNotes := s.editableConcepts[s.reviewIndex].stylingNotes)
                 == s.editableConcepts[s.reviewIndex]
              && (forall j :: 0 <= j < |s.editableConcepts| && j != s.reviewIndex ==>
                    r.editableConcepts[j] == s.editableConcepts[j])
              && r.(editableConcepts := s.editableConcepts, error := s.error) == s
    ensures s.reviewIndex < |s.editableConcepts| && notes.Failure? ==>
              r == s.(error := Some(EnhanceErrorText(notes.cause)))
    ensures r.stage == s.stage && r.adConcepts == s.adConcepts
  {
    if s.reviewIndex >= |s.editableConcepts| then s
    else
      var cleared := s.(error := None);
      match notes
      case Success(n) =>
        var r := EditConcept(cleared, TopLevel(StylingNotes), n);
        ConceptExtensionality(
          r.editableConcepts[s.reviewIndex].(stylingNotes := s.editableConcepts[s.reviewIndex].stylingNotes),
          s.editableConcepts[s.reviewIndex]);
        r
      case Failure(c) => cleared.(error := Some(EnhanceErrorText(c)))
  }

  /** A successful enhancement is exactly an edit of the styling notes, on a state with the error cleared. */
  lemma EnhanceIsStylingEdit(s: State, notes: string)
    requires s.reviewIndex < |s.editableConcepts|
    ensures EnhanceStyling(s, Success(notes)) == EditConcept(s.(error := None), TopLevel(StylingNotes), notes)
  {
  }

  /**
   handleGenerateHooksAndCtasForSelection: a no-op without an image or
   concepts. Otherwise the edits are locked in as the committed concepts
   before the call, and stay locked in if it fails. With a single concept the
   prompt builder throws (it reads the second concept's name), so the call
   fails whatever the model would have answered.
   */
  function GenerateHooksAndCtas(s: State, sets: Outcome<seq<HookAndCtaSet>>): (r: State)
    ensures s.image.None? || |s.editableConcepts| == 0 ==> r == s
    ensures s.image.Some? && |s.editableConcepts| > 0 ==> r.adConcepts == s.editableConcepts
    ensures s.image.Some? && |s.editableConcepts| >= 2 && sets.Success? ==>
              r.stage == SelectingHooksAndCtas && r.hooksAndCtas == Some(sets.value) && r.error.None?
    ensures s.image.Some? && |s.editableConcepts| >= 2 && sets.Failure? ==>
              r.stage == ReviewingConcepts && r.hooksAndCtas == s.hooksAndCtas && r.error == Some(ErrorText(sets.cause))
    ensures s.image.Some? && |s.editableConcepts| == 1 ==>
              r.stage == ReviewingConcepts && r.hooksAndCtas == s.hooksAndCtas && r.error == Some(ErrorText(MissingConceptCause))
    ensures r.(stage := s.stage, error := s.error, adConcepts := s.adConcepts, hooksAndCtas := s.hooksAndCtas) == s
  {
    if s.image.None? || |s.editableConcepts| == 0 then s
    else
      var pending := s.(adConcepts := s.editableConcepts, stage := GeneratingHooksAndCtas, error := None);
      var outcome := if |s.editableConcepts| < 2 then Failure(MissingConceptCause) else sets;
      match outcome
      case Success(h) => pending.(hooksAndCtas := Some(h), stage := SelectingHooksAndCtas)
      case Failure(c) => pending.(error := Some(ErrorText(c)), stage := ReviewingConcepts)
  }

  /** handleFinalizeAndGenerateOutputs' precondition: an image, an advert type and some concepts. */
  predicate FinalizeReady(s: State, chosen: seq<AdConcept>)
  {
    s.image.Some? && s.advertType.Some? && |chosen| > 0
  }

  /**
   Whether the primary call, the one the advert type picks, succeeds. Both
   prompt builders read the second concept unguarded, so a single concept
   makes either call throw.
   */
  predicate PrimarySucceeds(
    s: State, chosen: seq<AdConcept>, prompts: Outcome<seq<ImageGenPrompt>>, scripts: Outcome<seq<VideoScript>>)
  {
    |chosen| >= 2 && if s.advertType == Some(Still) then prompts.Success? else scripts.Success?
  }

  /** What the primary call threw when it did not succeed. */
  function PrimaryCause(
    s: State, chosen: seq<AdConcept>, prompts: Outcome<seq<ImageGenPrompt>>, scripts: Outcome<seq<VideoScript>>): Cause
    requires !PrimarySucceeds(s, chosen, prompts, scripts)
  {
    if |chosen| < 2 then MissingConceptCause
    else if s.advertType == Some(Still) then prompts.cause
    else scripts.cause
  }

  /**
   The first half of handleFinalizeAndGenerateOutputs: lock in the chosen
   copy and clear the A/B results, then ask for image prompts (a still) or
   video scripts (a video). On success the final stage is shown with the A/B
   request pending; on failure the copy picker returns.
   */
  function FinalizeOutputs(
    s: State, chosen: seq<AdConcept>,
    prompts: Outcome<seq<ImageGenPrompt>>, scripts: Outcome<seq<VideoScript>>): (r: State)
    ensures !FinalizeReady(s, chosen) ==> r == s
    ensures FinalizeReady(s, chosen) ==> r.adConcepts == chosen && r.abTestVariations.None?
    ensures FinalizeReady(s, chosen) && PrimarySucceeds(s, chosen, prompts, scripts) ==>
              r.stage == FinalOutputsGenerated && r.error.None? && r.isGeneratingAbTests
    ensures FinalizeReady(s, chosen) && !PrimarySucceeds(s, chosen, prompts, scripts) ==>
              && r.stage == SelectingHooksAndCtas && r.isGeneratingAbTests == s.isGeneratingAbTests
              && r.error == Some(ErrorText(PrimaryCause(s, chosen, prompts, scripts)))
    ensures FinalizeReady(s, chosen) && |chosen| == 1 ==> r.error == Some(ErrorText(MissingConceptCause))
    ensures s.advertType == Some(Still) ==>
              r.videoScripts == s.videoScripts
              && r.imageGenPrompts ==
                 (if FinalizeReady(s, chosen) && |chosen| >= 2 && prompts.Success? then Some(prompts.value) else s.imageGenPrompts)
    ensures s.advertType == Some(Video) ==>
              r.imageGenPrompts == s.imageGenPrompts
              && r.videoScripts ==
                 (if FinalizeReady(s, chosen) && |chosen| >= 2 && scripts.Success? then Some(scripts.value) else s.videoScripts)
    ensures r.(stage := s.stage, error := s.error, adConcepts := s.adConcepts, abTestVariations := s.abTestVariations,
               imageGenPrompts := s.imageGenPrompts, videoScripts := s.videoScripts,
               isGeneratingAbTests := s.isGeneratingAbTests) == s
  {
    if !FinalizeReady(s, chosen) then s
    else
      var pending := s.(adConcepts := chosen, stage := GeneratingFinalOutputs, error := None, abTestVariations := None);
      var done := pending.(stage := FinalOutputsGenerated, isGeneratingAbTests := true);
      if |chosen| < 2 then pending.(error := Some(ErrorText(MissingConceptCause)), stage := SelectingHooksAndCtas)
      else if s.advertType == Some(Still) then
        match prompts
        case Success(p) => done.(imageGenPrompts := Some(p))
        case Failure(c) => pending.(error := Some(ErrorText(c)), stage := SelectingHooksAndCtas)
      else
        match scripts
        case Success(v) => done.(videoScripts := Some(v))
        case Failure(c) => pending.(error := Some(ErrorText(c)), stage := SelectingHooksAndCtas)
  }

  /**
   The background A/B request, settled after the final stage is shown: a
   result is stored, a failure is swallowed; either way the flag drops and
   neither the stage nor the error changes.
   */
  function ApplyAbTestOutcome(s: State, ab: Outcome<seq<AbTestVariation>>): (r: State)
    ensures !r.isGeneratingAbTests
    ensures ab.Success? ==> r.abTestVariations == Some(ab.value)
    ensures ab.Failure? ==> r.abTestVariations == s.abTestVariations
    ensures r.(abTestVariations := s.abTestVariations, isGeneratingAbTests := s.isGeneratingAbTests) == s
  {
    match ab
    case Success(v) => s.(abTestVariations := Some(v), isGeneratingAbTests := false)
    case Failure(_) => s.(isGeneratingAbTests := false)
  }

  /** The whole handler: the primary call, then, only if it succeeded, the A/B call. */
  function FinalizeAndGenerateOutputs(
    s: State, chosen: seq<AdConcept>,
    prompts: Outcome<seq<ImageGenPrompt>>, scripts: Outcome<seq<VideoScript>>,
    ab: Outcome<seq<AbTestVariation>>): (r: State)
    ensures !FinalizeReady(s, chosen) ==> r == s
    ensures FinalizeReady(s, chosen) ==> r.adConcepts == chosen
    ensures FinalizeReady(s, chosen) && PrimarySucceeds(s, chosen, prompts, scripts) ==>
              && r.stage == FinalOutputsGenerated && r.error.None? && !r.isGeneratingAbTests
              && r.abTestVariations == (if ab.Success? then Some(ab.value) else None)
    ensures FinalizeReady(s, chosen) && !PrimarySucceeds(s, chosen, prompts, scripts) ==>
              && r.stage == SelectingHooksAndCtas && r.abTestVariations.None?
              && r.isGeneratingAbTests == s.isGeneratingAbTests
              && r.error == Some(ErrorText(PrimaryCause(s, chosen, prompts, scripts)))
  {
    var r := FinalizeOutputs(s, chosen, prompts, scripts);
    if FinalizeReady(s, chosen) && PrimarySucceeds(s, chosen, prompts, scripts) then ApplyAbTestOutcome(r, ab) else r
  }

  /** A failed A/B request leaves the final outputs on screen, with no variations and no error. */
  lemma AbFailureKeepsOutputs(
    s: State, chosen: seq<AdConcept>,
    prompts: Outcome<seq<ImageGenPrompt>>, scripts: Outcome<seq<VideoScript>>, c: Cause)
    requires FinalizeReady(s, chosen) && PrimarySucceeds(s, chosen, prompts, scripts)
    ensures var r := FinalizeAndGenerateOutputs(s, chosen, prompts, scripts, Failure(c));
            && r.stage == FinalOutputsGenerated && r.error.None? && r.abTestVariations.None?
            && !r.isGeneratingAbTests && r.adConcepts == chosen
            && (s.advertType == Some(Still) ==> r.imageGenPrompts == Some(prompts.value))
            && (s.advertType == Some(Video) ==> r.videoScripts == Some(scripts.value))
  {
  }

  /**
   Each failed generation step returns to the stage just before its spinner
   stage: the stage the request was made from.
   */
  lemma FailureLandsBeforeSpinner(s: State, selected: seq<ConceptIdea>, c: Cause)
    ensures s.image.Some? ==> SelectAdvertType(s, Still, Failure(c)).stage == ImageUploaded
    ensures IdeasReady(s) ==> GenerateIdeas(s, Failure(c)).stage == StylesGenerated
    ensures FullConceptsReady(s, selected) ==> GenerateFullConcepts(s, selected, Failure(c)).stage == IdeasGenerated
    ensures s.image.Some? && |s.editableConcepts| > 0 ==> GenerateHooksAndCtas(s, Failure(c)).stage == ReviewingConcepts
    ensures FinalizeReady(s, s.adConcepts) ==>
              FinalizeOutputs(s, s.adConcepts, Failure(c), Failure(c)).stage == SelectingHooksAndCtas
    ensures && StageIndex(ImageUploaded) + 1 == StageIndex(GeneratingStyles)
            && StageIndex(StylesGenerated) + 1 == StageIndex(GeneratingIdeas)
            && StageIndex(IdeasGenerated) + 1 == StageIndex(GeneratingFullConcepts)
            && StageIndex(ReviewingConcepts) + 1 == StageIndex(GeneratingHooksAndCtas)
            && StageIndex(SelectingHooksAndCtas) + 1 == StageIndex(GeneratingFinalOutputs)
  {
  }

  /** A successful style or full-concept request lands one stage after its spinner stage. */
  lemma SuccessLandsAfterSpinner(s: State, selected: seq<ConceptIdea>)
    ensures s.image.Some? ==> SelectAdvertType(s, Still, Success([])).stage == StylesGenerated
    ensures FullConceptsReady(s, selected) && s.selectedStyle.Some? ==>
              GenerateFullConcepts(s, selected, Success([])).stage == ReviewingConcepts
    ensures && StageIndex(GeneratingStyles) + 1 == StageIndex(StylesGenerated)
            && StageIndex(GeneratingFullConcepts) + 1 == StageIndex(ReviewingConcepts)
  {
  }

  /**
   getCurrentProgressStage: the twelve stages projected onto the four steps
   of the progress bar (Setup, Ideation, Refinement, Final Output).
   */
  function ProgressPhase(st: Stage): (r: int)
    ensures 1 <= r <= 4
    ensures r == (if StageIndex(st) < 4 then 1 else if StageIndex(st) < 7 then 2
                  else if StageIndex(st) < 10 then 3 else 4)
  {
    match st
    case Initial | ImageUploaded | GeneratingStyles | StylesGenerated => 1
    case GeneratingIdeas | IdeasGenerated | GeneratingFullConcepts => 2
    case ReviewingConcepts | GeneratingHooksAndCtas | SelectingHooksAndCtas => 3
    case GeneratingFinalOutputs | FinalOutputsGenerated => 4
  }

  /**
   The projection lands in 1..4, never moves backwards along the stage order,
   and cuts the order at 4, 7 and 10.
   */
  lemma ProgressPhaseMonotone(a: Stage, b: Stage)
    ensures 1 <= ProgressPhase(a) <= 4
    ensures StageIndex(a) <= StageIndex(b) ==> ProgressPhase(a) <= ProgressPhase(b)
    ensures ProgressPhase(a) == 1 <==> StageIndex(a) < 4
    ensures ProgressPhase(a) == 4 <==> StageIndex(a) >= 10
    ensures ProgressPhase(a) == (if StageIndex(a) < 4 then 1 else if StageIndex(a) < 7 then 2
                                 else if StageIndex(a) < 10 then 3 else 4)
  {
  }

  /** The text drawn over the preview: a product name and a CTA. */
  datatype Overlay = Overlay(productName: string, cta: string)

  /** The concept whose CTA the preview shows: the one under review, while reviewing. */
  predicate ShowsConceptOverlay(s: State)
  {
    (s.stage == ReviewingConcepts || s.stage == GeneratingHooksAndCtas) && s.reviewIndex < |s.editableConcepts|
  }

  /** overlayText: shown while reviewing when the brand name or the concept's CTA is non-empty. */
  function OverlayText(s: State): (r: Option<Overlay>)
    ensures r.Some? <==>
              ShowsConceptOverlay(s) && (s.inputs.brandName != "" || s.editableConcepts[s.reviewIndex].cta != "")
    ensures r.Some? ==> r.value == Overlay(s.inputs.brandName, s.editableConcepts[s.reviewIndex].cta)
  {
    var current := if ShowsConceptOverlay(s) then Some(s.editableConcepts[s.reviewIndex]) else None;
    if current.Some? && (s.inputs.brandName != "" || current.value.cta != "") then
      Some(Overlay(s.inputs.brandName, current.value.cta))
    else None
  }

  /** No edit path reaches the CTA, so editing never changes the overlay. */
  lemma EditKeepsOverlay(s: State, f: ConceptField, v: string)
    requires s.reviewIndex < |s.editableConcepts|
    ensures OverlayText(EditConcept(s, f, v)) == OverlayText(s)
  {
  }
}
