/**
 The App as a closed transition system: the user's actions, when the
 rendered screen offers each of them (App.tsx's conditional rendering), the
 step each one takes, and the facts that hold in every state reachable from
 the mounting state by offered actions.
 */
module WorkflowInvariant {
  import opened Types
  import opened ConceptFields
  import opened Workflow
  import ImageUploader
  import IdeaSelector
  import HookCtaSelector
  import ProgressStepper

  /** One user action, carrying the outcomes of the calls it makes. */
  datatype Intent =
    | Upload(file: Option<ImageUploader.FileInfo>)
    | ChooseAdvertType(advertType: AdvertType, styles: Outcome<seq<AdvertStyle>>)
    | ChooseStyle(style: AdvertStyle)
    | EditInputs(inputs: CampaignInputs)
    | RequestIdeas(ideas: Outcome<seq<ConceptIdea>>)
    | ConfirmIdeas(selected: seq<ConceptIdea>, concepts: Outcome<seq<AdConcept>>)
    | ReviewConcept(index: nat)
    | Edit(field: ConceptField, value: string)
    | Enhance(notes: Outcome<string>)
    | SetLanguage(index: nat, language: string)
    | RequestHooks(sets: Outcome<seq<HookAndCtaSet>>)
    | ConfirmCopy(
        picker: HookCtaSelector.Selector,
        prompts: Outcome<seq<ImageGenPrompt>>,
        scripts: Outcome<seq<VideoScript>>,
        ab: Outcome<seq<AbTestVariation>>)
    | MoveOverlay(position: OverlayPosition)
    | StartOver

  /** The ideas panel (inputs and the generate button) is on screen. */
  predicate IdeasPanelShown(s: State)
  {
    s.selectedStyle.Some? && (s.stage == StylesGenerated || s.stage == IdeasGenerated)
  }

  /** The review screen with a live copy button: review proper, with a concept to show. */
  predicate ReviewShown(s: State)
  {
    s.stage == ReviewingConcepts && |s.editableConcepts| > 0
  }

  /**
   The review screen's switch, editor and language pickers are on screen. The
   App keeps drawing them, live, while the copy request runs; only the copy
   button is disabled then.
   */
  predicate ReviewEditorShown(s: State)
  {
    (s.stage == ReviewingConcepts || s.stage == GeneratingHooksAndCtas) && |s.editableConcepts| > 0
  }

  /**
   Whether the screen rendered for `s` offers the action. The uploader is
   always on screen. Behind a spinner only the review screen's switch, editor
   and language pickers stay live, during the copy request; its copy button
   does not. The editor draws the video-only spec inputs only for a concept
   in the video format. Every other action belongs to the progress phase of
   the screen that shows it.
   */
  function Enabled(s: State, intent: Intent): (r: bool)
    ensures intent.Upload? ==> r
    ensures r && IsGenerating(s.stage) ==>
              || intent.Upload? || intent.MoveOverlay?
              || (&& s.stage == GeneratingHooksAndCtas
                  && (intent.ReviewConcept? || intent.Edit? || intent.Enhance? || intent.SetLanguage?))
    ensures r && intent.RequestHooks? ==> s.stage == ReviewingConcepts
    ensures r && intent.Edit? && VideoOnly(intent.field) ==>
              s.reviewIndex < |s.editableConcepts| && s.editableConcepts[s.reviewIndex].format == ShortVideo
    ensures r && (intent.ChooseAdvertType? || intent.ChooseStyle?) ==> ProgressPhase(s.stage) == 1
    ensures r && intent.ConfirmIdeas? ==> ProgressPhase(s.stage) == 2 && |intent.selected| == 2
    ensures r && (intent.ReviewConcept? || intent.Edit? || intent.Enhance? || intent.SetLanguage? ||
                  intent.RequestHooks? || intent.ConfirmCopy?) ==>
              ProgressPhase(s.stage) == 3
    ensures r && intent.StartOver? ==> ProgressPhase(s.stage) == 4
  {
    match intent
    case Upload(_) => true
    case ChooseAdvertType(_, _) => s.stage == ImageUploaded
    case ChooseStyle(st) => s.stage == StylesGenerated && st in s.advertStyles
    case EditInputs(i) =>
      IdeasPanelShown(s) && (s.advertType != Some(Still) ==> i.priceTag == s.inputs.priceTag)
    case RequestIdeas(_) => IdeasPanelShown(s)
    case ConfirmIdeas(sel, _) =>
      && s.stage == IdeasGenerated
      && IdeaSelector.Valid(sel) && IdeaSelector.CanConfirm(sel)
      && forall k :: 0 <= k < |sel| ==> sel[k] in s.conceptIdeas
    case ReviewConcept(i) => ReviewEditorShown(s) && i < 2
    case Edit(f, _) =>
      && ReviewEditorShown(s) && s.reviewIndex < |s.editableConcepts|
      && EditorOffers(s.editableConcepts[s.reviewIndex], f)
    case Enhance(_) => ReviewEditorShown(s)
    case SetLanguage(i, _) => ReviewEditorShown(s) && i < |s.copyLanguages|
    case RequestHooks(_) => ReviewShown(s)
    case ConfirmCopy(picker, _, _, _) =>
      && s.stage == SelectingHooksAndCtas && s.hooksAndCtas.Some?
      && picker.concepts == s.adConcepts && picker.sets == s.hooksAndCtas.value
      && HookCtaSelector.ConfirmReady(picker)
    case MoveOverlay(_) => OverlayText(s).Some? && s.image.Some?
    case StartOver => s.stage == FinalOutputsGenerated
  }

  /** The concepts the copy picker hands to the App. */
  function ChosenCopy(picker: HookCtaSelector.Selector): (r: seq<AdConcept>)
    requires HookCtaSelector.ConfirmReady(picker)
    ensures |r| == |picker.concepts|
  {
    HookCtaSelector.Confirm(picker, false).value
  }

  /** The App's response to an offered action. */
  function Step(s: State, intent: Intent): State
    requires Enabled(s, intent)
  {
    match intent
    case Upload(f) => ApplyUpload(s, f)
    case ChooseAdvertType(t, styles) => SelectAdvertType(s, t, styles)
    case ChooseStyle(st) => SelectStyle(s, st)
    case EditInputs(i) => s.(inputs := i)
    case RequestIdeas(ideas) => GenerateIdeas(s, ideas)
    case ConfirmIdeas(sel, concepts) => GenerateFullConcepts(s, sel, concepts)
    case ReviewConcept(i) => SelectReviewIndex(s, i)
    case Edit(f, v) => EditConcept(s, f, v)
    case Enhance(notes) => EnhanceStyling(s, notes)
    case SetLanguage(i, l) => s.(copyLanguages := s.copyLanguages[i := l])
    case RequestHooks(sets) => GenerateHooksAndCtas(s, sets)
    case ConfirmCopy(picker, prompts, scripts, ab) =>
      FinalizeAndGenerateOutputs(s, ChosenCopy(picker), prompts, scripts, ab)
    case MoveOverlay(p) => s.(overlayPosition := p)
    case StartOver => ResetWorkflow(s, false)
  }

  /** A sequence of actions; one the screen does not offer changes nothing. */
  function Run(s: State, intents: seq<Intent>): State
    decreases |intents|
  {
    if |intents| == 0 then s
    else
      var next := if Enabled(s, intents[0]) then Step(s, intents[0]) else s;
      Run(next, intents[1..])
  }

  /** What holds between actions in every reachable state. */
  predicate Inv(s: State)
  {
    && !IsGenerating(s.stage)
    && (s.stage == Initial <==> s.image.None?)
    && (s.stage == Initial ==> GeneratedCleared(s))
    && (StageIndex(s.stage) >= StageIndex(StylesGenerated) ==> s.advertType.Some?)
    && (StageIndex(s.stage) >= StageIndex(IdeasGenerated) ==> s.selectedStyle.Some? && |s.conceptIdeas| > 0)
    && (StageIndex(s.stage) >= StageIndex(SelectingHooksAndCtas) ==> s.hooksAndCtas.Some? && |s.adConcepts| >= 2)
    && (s.stage == FinalOutputsGenerated ==>
          && (s.advertType == Some(Still) ==> s.imageGenPrompts.Some?)
          && (s.advertType == Some(Video) ==> s.videoScripts.Some?))
    && !s.isGeneratingAbTests
    && (s.advertType == Some(Video) ==> s.inputs.priceTag == "")
    && |s.copyLanguages| == 2
  }

  lemma InitialStateSatisfiesInv()
    ensures Inv(InitialState)
  {
  }

  /** Every offered action keeps the invariant. */
  lemma StepPreservesInv(s: State, intent: Intent)
    requires Inv(s) && Enabled(s, intent)
    ensures Inv(Step(s, intent))
  {
    if intent.Upload? {
      UploadPreservesInv(s, intent.file);
    } else if intent.ChooseAdvertType? || intent.ChooseStyle? || intent.EditInputs? || intent.RequestIdeas? {
      SetupStepPreservesInv(s, intent);
    } else if intent.ConfirmIdeas? || intent.ReviewConcept? || intent.Edit? || intent.Enhance? || intent.SetLanguage? {
      ReviewStepPreservesInv(s, intent);
    } else if intent.ConfirmCopy? {
      ConfirmCopyPreservesInv(s, intent);
    } else {
      FinishStepPreservesInv(s, intent);
    }
  }

  /** Offering a file, accepted or refused, keeps the invariant. */
  lemma UploadPreservesInv(s: State, f: Option<ImageUploader.FileInfo>)
    requires Inv(s)
    ensures Inv(ApplyUpload(s, f))
  {
    if f.Some? && !(ImageUploader.AcceptableType(f.value) && ImageUploader.AcceptableSize(f.value)) {
      RejectedUploadOnlySetsError(s, f.value);
    }
  }

  /** Choosing the type and the style, editing the inputs and requesting ideas keep the invariant. */
  lemma SetupStepPreservesInv(s: State, intent: Intent)
    requires Inv(s) && Enabled(s, intent)
    requires intent.ChooseAdvertType? || intent.ChooseStyle? || intent.EditInputs? || intent.RequestIdeas?
    ensures Inv(Step(s, intent))
  {
  }

  /** Confirming ideas and the review screen's actions keep the invariant. */
  lemma ReviewStepPreservesInv(s: State, intent: Intent)
    requires Inv(s) && Enabled(s, intent)
    requires intent.ConfirmIdeas? || intent.ReviewConcept? || intent.Edit? || intent.Enhance? || intent.SetLanguage?
    ensures Inv(Step(s, intent))
  {
  }

  /** Confirming the chosen copy, with whatever outcomes, keeps the invariant. */
  lemma ConfirmCopyPreservesInv(s: State, intent: Intent)
    requires Inv(s) && Enabled(s, intent) && intent.ConfirmCopy?
    ensures Inv(Step(s, intent))
  {
    var chosen := ChosenCopy(intent.picker);
    assert |chosen| > 0;
    assert FinalizeReady(s, chosen);
  }

  /** The copy request, moving the overlay and starting over keep the invariant. */
  lemma FinishStepPreservesInv(s: State, intent: Intent)
    requires Inv(s) && Enabled(s, intent)
    requires intent.RequestHooks? || intent.MoveOverlay? || intent.StartOver?
    ensures Inv(Step(s, intent))
  {
  }

  /** Every run of actions from a state satisfying the invariant keeps it. */
  lemma {:induction false} RunPreservesInv(s: State, intents: seq<Intent>)
    requires Inv(s)
    ensures Inv(Run(s, intents))
    decreases |intents|
  {
    if |intents| > 0 {
      var next := if Enabled(s, intents[0]) then Step(s, intents[0]) else s;
      if Enabled(s, intents[0]) {
        StepPreservesInv(s, intents[0]);
      }
      RunPreservesInv(next, intents[1..]);
    }
  }

  /** No reachable state shows a spinner between actions, and the copy request always has two languages. */
  lemma ReachableStatesAreSettled(intents: seq<Intent>)
    ensures var s := Run(InitialState, intents);
            !IsGenerating(s.stage) && !s.isGeneratingAbTests && |s.copyLanguages| == 2
  {
    InitialStateSatisfiesInv();
    RunPreservesInv(InitialState, intents);
  }

  /** In every reachable state the progress bar has exactly one active step. */
  lemma OneActiveProgressStep(s: State)
    ensures ProgressStepper.ActiveCount(ProgressPhase(s.stage), ProgressStepper.Steps) == 1
  {
    ProgressPhaseMonotone(s.stage, s.stage);
    ProgressStepper.ExactlyOneActive(ProgressPhase(s.stage));
  }

  /**
   A failed style request returns to the advert-type choice with the error,
   keeping the chosen type and the previous styles.
   */
  lemma StyleFailureReturnsToTypeChoice(s: State, t: AdvertType, c: Cause)
    requires Inv(s) && s.stage == ImageUploaded
    ensures var r := Step(s, ChooseAdvertType(t, Failure(c)));
            && r.stage == ImageUploaded && r.error == Some(ErrorText(c))
            && r.advertType == Some(t) && r.advertStyles == s.advertStyles
            && Enabled(r, ChooseAdvertType(t, Failure(c)))
  {
  }

  /**
   The editor stays live while the copy request runs, but the request has
   already locked in the committed concepts: an edit made then changes only
   the editable copy, never what the copy picker will receive.
   */
  lemma EditDuringCopyRequestMissesLockIn(s: State, f: ConceptField, v: string)
    requires s.stage == GeneratingHooksAndCtas && s.reviewIndex < |s.editableConcepts|
    requires EditorOffers(s.editableConcepts[s.reviewIndex], f)
    ensures Enabled(s, Edit(f, v))
    ensures var r := Step(s, Edit(f, v));
            && r.stage == GeneratingHooksAndCtas && r.adConcepts == s.adConcepts
            && GetField(r.editableConcepts[s.reviewIndex], f) == Some(v)
  {
  }

  /**
   A failed copy request returns to the review screen with the edits already
   locked in; with a single concept it fails on the missing second one.
   */
  lemma HooksFailureKeepsLockIn(s: State, c: Cause)
    requires Inv(s) && ReviewShown(s)
    ensures var r := Step(s, RequestHooks(Failure(c)));
            && r.stage == ReviewingConcepts && r.adConcepts == s.editableConcepts
            && r.editableConcepts == s.editableConcepts
            && r.error == Some(ErrorText(if |s.editableConcepts| < 2 then MissingConceptCause else c))
            && ReviewShown(r)
  {
  }

  /**
   A failed final request returns to the copy picker, whose concepts are now
   the chosen copy, with the previous A/B results gone.
   */
  lemma FinalFailureReturnsToPicker(
    s: State, picker: HookCtaSelector.Selector,
    prompts: Outcome<seq<ImageGenPrompt>>, scripts: Outcome<seq<VideoScript>>, ab: Outcome<seq<AbTestVariation>>)
    requires Inv(s) && Enabled(s, ConfirmCopy(picker, prompts, scripts, ab))
    requires s.advertType == Some(Still) ==> prompts.Failure?
    requires s.advertType == Some(Video) ==> scripts.Failure?
    ensures var r := Step(s, ConfirmCopy(picker, prompts, scripts, ab));
            && r.stage == SelectingHooksAndCtas && r.error.Some?
            && r.adConcepts == ChosenCopy(picker) && r.abTestVariations.None?
  {
    assert |ChosenCopy(picker)| > 0;
    assert s.advertType.value == Still || s.advertType.value == Video;
    assert !PrimarySucceeds(s, ChosenCopy(picker), prompts, scripts);
  }

  /** The final screen always holds the output its advert type asks for, whatever the A/B request did. */
  lemma FinalScreenHasOutputs(intents: seq<Intent>)
    ensures var s := Run(InitialState, intents);
            s.stage == FinalOutputsGenerated ==>
              && s.advertType.Some?
              && (s.advertType == Some(Still) ==> s.imageGenPrompts.Some?)
              && (s.advertType == Some(Video) ==> s.videoScripts.Some?)
  {
    InitialStateSatisfiesInv();
    RunPreservesInv(InitialState, intents);
  }

  /** Running two lists of actions one after the other is running their concatenation. */
  lemma {:induction false} RunAppend(s: State, a: seq<Intent>, b: seq<Intent>)
    ensures Run(s, a + b) == Run(Run(s, a), b)
    decreases |a|
  {
    if |a| == 0 {
      assert a + b == b;
    } else {
      var next := if Enabled(s, a[0]) then Step(s, a[0]) else s;
      assert (a + b)[0] == a[0];
      assert (a + b)[1..] == a[1..] + b;
      RunAppend(next, a[1..], b);
    }
  }

  /** Running one offered action is taking its step. */
  lemma RunOne(s: State, i: Intent)
    requires Enabled(s, i)
    ensures Run(s, [i]) == Step(s, i)
  {
    assert [i][1..] == [];
  }

  /** Three offered actions in a row are their three steps. */
  lemma RunThree(s: State, i1: Intent, i2: Intent, i3: Intent)
    requires Enabled(s, i1) && Enabled(Step(s, i1), i2) && Enabled(Step(Step(s, i1), i2), i3)
    ensures Run(s, [i1, i2, i3]) == Step(Step(Step(s, i1), i2), i3)
  {
    RunOne(s, i1);
    RunOne(Step(s, i1), i2);
    RunOne(Step(Step(s, i1), i2), i3);
    RunAppend(s, [i1], [i2]);
    assert [i1] + [i2] == [i1, i2];
    RunAppend(s, [i1, i2], [i3]);
    assert [i1, i2] + [i3] == [i1, i2, i3];
  }

  /** The setup half of the wizard: upload, a still advert, a style, then ideas. */
  lemma SetupReachesIdeas(f: ImageUploader.FileInfo, styles: seq<AdvertStyle>, ideas: seq<ConceptIdea>)
    requires ImageUploader.AcceptableType(f) && ImageUploader.AcceptableSize(f)
    requires |styles| > 0 && |ideas| > 0
    ensures var s := Run(InitialState, [
              Upload(Some(f)), ChooseAdvertType(Still, Success(styles)),
              ChooseStyle(styles[0]), RequestIdeas(Success(ideas))]);
            && s.stage == IdeasGenerated && s.conceptIdeas == ideas && s.image == Some(f)
            && s.advertType == Some(Still) && s.selectedStyle == Some(styles[0])
  {
    var i1, i2 := Upload(Some(f)), ChooseAdvertType(Still, Success(styles));
    var i3, i4 := ChooseStyle(styles[0]), RequestIdeas(Success(ideas));
    var s1 := Step(InitialState, i1);
    assert s1.stage == ImageUploaded && s1.image == Some(f);
    var s2 := Step(s1, i2);
    assert s2.stage == StylesGenerated && s2.advertStyles == styles && s2.advertType == Some(Still);
    var s3 := Step(s2, i3);
    assert s3.selectedStyle == Some(styles[0]) && s3.stage == StylesGenerated;
    RunThree(InitialState, i1, i2, i3);
    RunOne(s3, i4);
    RunAppend(InitialState, [i1, i2, i3], [i4]);
    assert [i1, i2, i3] + [i4] == [i1, i2, i3, i4];
  }

  /** The refinement half: two ideas confirmed, copy requested and confirmed, outputs produced. */
  lemma IdeasReachFinalScreen(
    s: State, sel: seq<ConceptIdea>, concepts: seq<AdConcept>, sets: seq<HookAndCtaSet>,
    prompts: seq<ImageGenPrompt>, scripts: Outcome<seq<VideoScript>>, variations: seq<AbTestVariation>)
    requires s.stage == IdeasGenerated && s.image.Some? && s.advertType == Some(Still) && s.selectedStyle.Some?
    requires Enabled(s, ConfirmIdeas(sel, Success(concepts)))
    requires |concepts| == 2
    ensures var picker := HookCtaSelector.Init(concepts, sets);
            var r := Run(s, [
              ConfirmIdeas(sel, Success(concepts)), RequestHooks(Success(sets)),
              ConfirmCopy(picker, Success(prompts), scripts, Success(variations))]);
            && r.stage == FinalOutputsGenerated && r.error.None?
            && r.imageGenPrompts == Some(prompts) && r.abTestVariations == Some(variations)
  {
    var picker := HookCtaSelector.Init(concepts, sets);
    HookCtaSelector.InitIsReady(concepts, sets);
    var i1, i2 := ConfirmIdeas(sel, Success(concepts)), RequestHooks(Success(sets));
    var i3 := ConfirmCopy(picker, Success(prompts), scripts, Success(variations));
    var s1 := GenerateFullConcepts(s, sel, Success(concepts));
    assert s1.stage == ReviewingConcepts && s1.editableConcepts == concepts && s1.image == s.image;
    var s2 := GenerateHooksAndCtas(s1, Success(sets));
    assert s2.stage == SelectingHooksAndCtas && s2.adConcepts == concepts && s2.hooksAndCtas == Some(sets);
    assert s2.advertType == Some(Still) && s2.image.Some?;
    assert Enabled(s2, i3);
    var chosen := ChosenCopy(picker);
    assert FinalizeReady(s2, chosen) && PrimarySucceeds(s2, chosen, Success(prompts), scripts);
    RunThree(s, i1, i2, i3);
  }

  /**
   The wizard can be completed: an accepted image, a still advert with a
   style, two ideas, two concepts and every call succeeding reach the final
   screen with the image prompts and the A/B variations.
   */
  lemma HappyPathReachesFinalScreen(
    f: ImageUploader.FileInfo, styles: seq<AdvertStyle>, ideas: seq<ConceptIdea>,
    concepts: seq<AdConcept>, sets: seq<HookAndCtaSet>, prompts: seq<ImageGenPrompt>,
    scripts: Outcome<seq<VideoScript>>, variations: seq<AbTestVariation>)
    requires ImageUploader.AcceptableType(f) && ImageUploader.AcceptableSize(f)
    requires |styles| > 0 && |ideas| >= 2 && ideas[0].title != ideas[1].title
    requires |concepts| == 2
    ensures var setup := [Upload(Some(f)), ChooseAdvertType(Still, Success(styles)),
                          ChooseStyle(styles[0]), RequestIdeas(Success(ideas))];
            var refine := [ConfirmIdeas([ideas[0], ideas[1]], Success(concepts)), RequestHooks(Success(sets)),
                           ConfirmCopy(HookCtaSelector.Init(concepts, sets), Success(prompts), scripts, Success(variations))];
            var s := Run(InitialState, setup + refine);
            && s.stage == FinalOutputsGenerated && s.error.None?
            && s.imageGenPrompts == Some(prompts) && s.abTestVariations == Some(variations)
  {
    var sel := [ideas[0], ideas[1]];
    var setup := [Upload(Some(f)), ChooseAdvertType(Still, Success(styles)),
                  ChooseStyle(styles[0]), RequestIdeas(Success(ideas))];
    var refine := [ConfirmIdeas(sel, Success(concepts)), RequestHooks(Success(sets)),
                   ConfirmCopy(HookCtaSelector.Init(concepts, sets), Success(prompts), scripts, Success(variations))];
    SetupReachesIdeas(f, styles, ideas);
    var mid := Run(InitialState, setup);
    assert mid.stage == IdeasGenerated && mid.conceptIdeas == ideas;
    assert IdeaSelector.Valid(sel) && IdeaSelector.CanConfirm(sel);
    assert Enabled(mid, refine[0]);
    IdeasReachFinalScreen(mid, sel, concepts, sets, prompts, scripts, variations);
    RunAppend(InitialState, setup, refine);
  }
}
