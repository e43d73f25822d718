/**
 The records and enumerations of the ad generator (types.ts), plus the
 outcome of one call to the generative-AI capability, which the workflow
 takes as an input instead of performing the call.
 */
module Types {

  datatype Option<+T> = None | Some(value: T)

  /** The two kinds of advert the wizard produces ('still' | 'video'). */
  datatype AdvertType = Still | Video

  /** AdConcept.format: exactly 'Still Image' or 'Short Video'. */
  datatype ConceptFormat = StillImage | ShortVideo

  function FormatLabel(f: ConceptFormat): string
  {
    match f
    case StillImage => "Still Image"
    case ShortVideo => "Short Video"
  }

  /** Reads a format label back; any other text is not a format. */
  function ParseFormatLabel(s: string): (r: Option<ConceptFormat>)
    ensures r.Some? ==> FormatLabel(r.value) == s
    ensures s == "Still Image" || s == "Short Video" ==> r.Some?
  {
    if s == "Still Image" then Some(StillImage)
    else if s == "Short Video" then Some(ShortVideo)
    else None
  }

  lemma FormatLabelRoundTrip(f: ConceptFormat)
    ensures ParseFormatLabel(FormatLabel(f)) == Some(f)
    ensures FormatLabel(f) == "Still Image" || FormatLabel(f) == "Short Video"
  {
    match f
    case StillImage =>
    case ShortVideo =>
      assert FormatLabel(f)[1] != "Still Image"[1];
  }

  /** The nested technicalSpecs record: five mandatory fields, three video-only ones. */
  datatype TechnicalSpecs = TechnicalSpecs(
    camera: string,
    lenses: string,
    angles: string,
    specs: string,
    mood: string,
    cameraMovement: Option<string>,
    editingStyle: Option<string>,
    soundDesign: Option<string>)

  /** The fully expanded production plan for one selected idea. */
  datatype AdConcept = AdConcept(
    optionName: string,
    conceptSummary: string,
    shootSetup: string,
    technicalSpecs: TechnicalSpecs,
    stylingNotes: string,
    postProduction: string,
    hookLine: string,
    adCopy: string,
    cta: string,
    trendReasoning: string,
    format: ConceptFormat,
    videoDuration: Option<string>)

  /** EditableAdConceptFields: the six top-level string fields a user may edit. */
  datatype EditableField =
    | ConceptSummary | ShootSetup | StylingNotes | PostProduction | AdCopy | TrendReasoning

  datatype ConceptIdea = ConceptIdea(title: string, summary: string)

  datatype AdvertStyle = AdvertStyle(title: string, summary: string)

  datatype HookAndCtaSet = HookAndCtaSet(hooks: seq<string>, ctas: seq<string>)

  datatype ImageGenPrompt = ImageGenPrompt(conceptName: string, prompt: string, cta: string)

  datatype VideoShot = VideoShot(
    timestamp: string, camera: string, audio: string, narration: string, graphics: string)

  datatype VideoScript = VideoScript(conceptName: string, shots: seq<VideoShot>, cta: string)

  datatype AbVariation = AbVariation(title: string, description: string, suggestion: string)

  datatype AbTestVariation = AbTestVariation(conceptName: string, variations: seq<AbVariation>)

  datatype OverlayPosition = TopLeft | TopRight | BottomLeft | BottomRight | Center

  /** Every overlay position, in declaration order. */
  const AllOverlayPositions: seq<OverlayPosition> :=
    [TopLeft, TopRight, BottomLeft, BottomRight, Center]

  lemma OverlayPositionsExactlyFive(p: OverlayPosition)
    ensures p in AllOverlayPositions
    ensures |AllOverlayPositions| == 5
    ensures forall i, j :: 0 <= i < j < 5 ==> AllOverlayPositions[i] != AllOverlayPositions[j]
  {
  }

  /** What a rejected call threw: an Error instance with its message, or some other value. */
  datatype Cause = Thrown(message: string) | ThrownNonError

  /**
   What a prompt builder throws when it reads `optionName` of a concept the
   list does not have (the second one, for a one-concept list), in V8's wording.
   */
  const MissingConceptCause: Cause := Thrown("Cannot read properties of undefined (reading 'optionName')")

  /** The settled result of one capability call (prompt build, network call and parse together). */
  datatype Outcome<+T> = Success(value: T) | Failure(cause: Cause)
}
