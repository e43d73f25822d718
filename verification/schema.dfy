/**
 The response schema the full-concept request sends to the model
 (services/geminiService.ts): which properties a concept and its
 technicalSpecs object declare, which of them are required, and the format
 label the schema asks for. Only the property names are modelled; the
 per-field descriptions are prose.
 */
module Schema {
  import opened Types
  import opened ConceptFields

  /** The five tech properties every concept declares. */
  const CommonTechProperties: seq<string> := ["camera", "lenses", "angles", "specs", "mood"]

  /** commonVideoProperties: spread into technicalSpecs only for a video. */
  const VideoTechProperties: seq<string> := ["cameraMovement", "editingStyle", "soundDesign", "videoDuration"]

  /** The top-level properties every concept declares, in declaration order. */
  const CommonProperties: seq<string> :=
    ["optionName", "conceptSummary", "shootSetup", "stylingNotes", "postProduction",
     "hookLine", "adCopy", "cta", "trendReasoning", "format", "technicalSpecs"]

  /** The fixed `required` list of a concept: every common property, and never videoDuration. */
  const RequiredFields: seq<string> := CommonProperties

  /** The fixed `required` list of technicalSpecs: the common tech properties, none of the video ones. */
  const RequiredTechFields: seq<string> := CommonTechProperties

  datatype ConceptSchema = ConceptSchema(
    properties: seq<string>,
    required: seq<string>,
    techProperties: seq<string>,
    techRequired: seq<string>,
    formatLabel: string)

  /** The concept format a schema of the given advert type demands. */
  function FormatOf(t: AdvertType): (r: ConceptFormat)
    ensures r == ShortVideo <==> t == Video
  {
    match t
    case Still => StillImage
    case Video => ShortVideo
  }

  /** The item schema of the full-concept request for advert type `t`. */
  function ConceptSchemaFor(t: AdvertType): (r: ConceptSchema)
    ensures r.required == RequiredFields && r.techRequired == RequiredTechFields
    ensures forall p :: p in r.techProperties <==> p in CommonTechProperties || (t == Video && p in VideoTechProperties)
    ensures forall p :: p in r.properties <==> p in CommonProperties || (t == Video && p == "videoDuration")
    ensures ParseFormatLabel(r.formatLabel) == Some(FormatOf(t))
  {
    FormatLabelRoundTrip(FormatOf(t));
    var video := t == Video;
    ConceptSchema(
      CommonProperties + (if video then ["videoDuration"] else []),
      RequiredFields,
      CommonTechProperties + (if video then VideoTechProperties else []),
      RequiredTechFields,
      FormatLabel(FormatOf(t)))
  }

  /** A video-only field is declared, inside technicalSpecs, exactly when the advert is a video. */
  lemma VideoOnlyFieldsIffVideo(t: AdvertType, p: string)
    requires p in VideoTechProperties
    ensures p in ConceptSchemaFor(t).techProperties <==> t == Video
  {
    assert p !in CommonTechProperties by {
      assert p == "cameraMovement" || p == "editingStyle" || p == "soundDesign" || p == "videoDuration";
      assert |p| > 6;
    }
  }

  /** videoDuration is declared twice for a video (top level and inside technicalSpecs) and never for a still. */
  lemma VideoDurationDeclaredTwice(t: AdvertType)
    ensures "videoDuration" in ConceptSchemaFor(t).properties <==> t == Video
    ensures "videoDuration" in ConceptSchemaFor(t).techProperties <==> t == Video
  {
    VideoOnlyFieldsIffVideo(t, "videoDuration");
    assert "videoDuration" !in CommonProperties by {
      assert |"videoDuration"| == 13;
      forall k | 0 <= k < |CommonProperties|
        ensures CommonProperties[k] != "videoDuration"
      {
        assert CommonProperties[k][0] != 'v';
      }
    }
  }

  /** Every required name is a declared property, for both advert types. */
  lemma RequiredAreDeclared(t: AdvertType)
    ensures forall f :: f in ConceptSchemaFor(t).required ==> f in ConceptSchemaFor(t).properties
    ensures forall f :: f in ConceptSchemaFor(t).techRequired ==> f in ConceptSchemaFor(t).techProperties
  {
  }

  /** The required lists do not depend on the advert type: eleven concept fields, five tech fields. */
  lemma RequiredListsAreFixed()
    ensures ConceptSchemaFor(Still).required == ConceptSchemaFor(Video).required
    ensures ConceptSchemaFor(Still).techRequired == ConceptSchemaFor(Video).techRequired
    ensures |RequiredFields| == 11 && |RequiredTechFields| == 5
  {
  }

  /** The declared-but-optional tech fields are exactly the video-only ones. */
  lemma OptionalTechFieldsAreVideoOnly(t: AdvertType, p: string)
    ensures p in ConceptSchemaFor(t).techProperties && p !in ConceptSchemaFor(t).techRequired
            <==> t == Video && p in VideoTechProperties
  {
    if p in VideoTechProperties {
      VideoOnlyFieldsIffVideo(t, p);
    }
  }

  /** The schema's mandatory tech fields are the mandatory fields of TechnicalSpecs; the rest may be absent. */
  lemma RequiredSpecsAreMandatory(s: SpecField, c: AdConcept)
    ensures SpecName(s) in RequiredTechFields <==> !(s.CameraMovement? || s.EditingStyle? || s.SoundDesign?)
    ensures SpecName(s) in RequiredTechFields ==> GetField(c, TechSpec(s)).Some?
    ensures SpecName(s) in VideoTechProperties ==> GetField(c, TechSpec(s)) == match s
              case CameraMovement => c.technicalSpecs.cameraMovement
              case EditingStyle => c.technicalSpecs.editingStyle
              case _ => c.technicalSpecs.soundDesign
  {
    match s
    case CameraMovement =>
      assert SpecName(s) !in RequiredTechFields by { assert |SpecName(s)| > 6; }
    case EditingStyle =>
      assert SpecName(s) !in RequiredTechFields by { assert |SpecName(s)| > 6; }
    case SoundDesign =>
      assert SpecName(s) !in RequiredTechFields by { assert |SpecName(s)| > 6; }
    case _ =>
      assert SpecName(s) !in VideoTechProperties by { assert |SpecName(s)| <= 6; }
  }

  /** Every editable field is a required concept field; the required fields a user cannot edit are exactly five. */
  lemma EditableFieldsAreRequired(e: EditableField, p: string)
    ensures FieldName(e) in RequiredFields
    ensures p in RequiredFields && ParseFieldName(p).None? <==>
              p in ["optionName", "hookLine", "cta", "format", "technicalSpecs"]
  {
  }
}
