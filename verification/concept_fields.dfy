/**
 The closed set of concept fields a user can edit during review, and the
 dot-delimited paths the editor sends for them ("stylingNotes",
 "technicalSpecs.mood", ...). The App's edit handler walks such a path into
 a deep copy of the concept under review and sets the leaf; here the walk is
 a typed setter per field, and the path text is kept only as the field's name.
 */
module ConceptFields {
  import opened Types

  datatype SpecField =
    | Camera | Lenses | Angles | Specs | Mood | CameraMovement | EditingStyle | SoundDesign

  /** A top-level editable field, or a field inside technicalSpecs. */
  datatype ConceptField = TopLevel(field: EditableField) | TechSpec(spec: SpecField)

  const SpecsPrefix: string := "technicalSpecs."

  /** The three spec fields the editor draws only for a concept in the video format. */
  predicate VideoOnly(f: ConceptField)
  {
    f.TechSpec? && (f.spec == CameraMovement || f.spec == EditingStyle || f.spec == SoundDesign)
  }

  /** Whether the editor draws an input for `f` on concept `c` (isVideo is the concept's own format). */
  predicate EditorOffers(c: AdConcept, f: ConceptField)
  {
    !VideoOnly(f) || c.format == ShortVideo
  }

  function FieldName(f: EditableField): string
  {
    match f
    case ConceptSummary => "conceptSummary"
    case ShootSetup => "shootSetup"
    case StylingNotes => "stylingNotes"
    case PostProduction => "postProduction"
    case AdCopy => "adCopy"
    case TrendReasoning => "trendReasoning"
  }

  function SpecName(s: SpecField): string
  {
    match s
    case Camera => "camera"
    case Lenses => "lenses"
    case Angles => "angles"
    case Specs => "specs"
    case Mood => "mood"
    case CameraMovement => "cameraMovement"
    case EditingStyle => "editingStyle"
    case SoundDesign => "soundDesign"
  }

  function ParseFieldName(s: string): Option<EditableField>
  {
    if s == "conceptSummary" then Some(ConceptSummary)
    else if s == "shootSetup" then Some(ShootSetup)
    else if s == "stylingNotes" then Some(StylingNotes)
    else if s == "postProduction" then Some(PostProduction)
    else if s == "adCopy" then Some(AdCopy)
    else if s == "trendReasoning" then Some(TrendReasoning)
    else None
  }

  function ParseSpecName(s: string): Option<SpecField>
  {
    if s == "camera" then Some(Camera)
    else if s == "lenses" then Some(Lenses)
    else if s == "angles" then Some(Angles)
    else if s == "specs" then Some(Specs)
    else if s == "mood" then Some(Mood)
    else if s == "cameraMovement" then Some(CameraMovement)
    else if s == "editingStyle" then Some(EditingStyle)
    else if s == "soundDesign" then Some(SoundDesign)
    else None
  }

  /** The path the concept editor sends for a field. */
  function FieldPath(f: ConceptField): string
  {
    match f
    case TopLevel(e) => FieldName(e)
    case TechSpec(s) => SpecsPrefix + SpecName(s)
  }

  /** Reads an editor path back into a field; paths outside the vocabulary are None. */
  function ParseField(p: string): (r: Option<ConceptField>)
    ensures r.Some? ==> FieldPath(r.value) == p
  {
    if |p| > |SpecsPrefix| && p[..|SpecsPrefix|] == SpecsPrefix then
      match ParseSpecName(p[|SpecsPrefix|..])
      case Some(s) =>
        assert p == SpecsPrefix + p[|SpecsPrefix|..];
        Some(TechSpec(s))
      case None => None
    else
      match ParseFieldName(p)
      case Some(e) => Some(TopLevel(e))
      case None => None
  }

  lemma FieldPathRoundTrip(f: ConceptField)
    ensures ParseField(FieldPath(f)) == Some(f)
  {
    match f
    case TopLevel(e) =>
    case TechSpec(s) =>
      var p := FieldPath(f);
      assert p[..|SpecsPrefix|] == SpecsPrefix;
      assert p[|SpecsPrefix|..] == SpecName(s);
  }

  /** Distinct fields have distinct paths, so a path names at most one field. */
  lemma FieldPathInjective(f: ConceptField, g: ConceptField)
    ensures FieldPath(f) == FieldPath(g) ==> f == g
  {
    if FieldPath(f) == FieldPath(g) {
      FieldPathRoundTrip(f);
      FieldPathRoundTrip(g);
    }
  }

  /** The current value at a field; an optional video field may be absent. */
  function GetField(c: AdConcept, f: ConceptField): Option<string>
  {
    match f
    case TopLevel(ConceptSummary) => Some(c.conceptSummary)
    case TopLevel(ShootSetup) => Some(c.shootSetup)
    case TopLevel(StylingNotes) => Some(c.stylingNotes)
    case TopLevel(PostProduction) => Some(c.postProduction)
    case TopLevel(AdCopy) => Some(c.adCopy)
    case TopLevel(TrendReasoning) => Some(c.trendReasoning)
    case TechSpec(Camera) => Some(c.technicalSpecs.camera)
    case TechSpec(Lenses) => Some(c.technicalSpecs.lenses)
    case TechSpec(Angles) => Some(c.technicalSpecs.angles)
    case TechSpec(Specs) => Some(c.technicalSpecs.specs)
    case TechSpec(Mood) => Some(c.technicalSpecs.mood)
    case TechSpec(CameraMovement) => c.technicalSpecs.cameraMovement
    case TechSpec(EditingStyle) => c.technicalSpecs.editingStyle
    case TechSpec(SoundDesign) => c.technicalSpecs.soundDesign
  }

  /** The fields no edit path reaches: optionName, hookLine, cta, format, videoDuration. */
  predicate SameFixedFields(a: AdConcept, b: AdConcept)
  {
    && a.optionName == b.optionName
    && a.hookLine == b.hookLine
    && a.cta == b.cta
    && a.format == b.format
    && a.videoDuration == b.videoDuration
  }

  /** Two concepts agreeing on every editable field and every fixed field are equal. */
  lemma ConceptExtensionality(a: AdConcept, b: AdConcept)
    requires SameFixedFields(a, b)
    requires forall g :: GetField(a, g) == GetField(b, g)
    ensures a == b
  {
    assert GetField(a, TopLevel(ConceptSummary)) == GetField(b, TopLevel(ConceptSummary));
    assert GetField(a, TopLevel(ShootSetup)) == GetField(b, TopLevel(ShootSetup));
    assert GetField(a, TopLevel(StylingNotes)) == GetField(b, TopLevel(StylingNotes));
    assert GetField(a, TopLevel(PostProduction)) == GetField(b, TopLevel(PostProduction));
    assert GetField(a, TopLevel(AdCopy)) == GetField(b, TopLevel(AdCopy));
    assert GetField(a, TopLevel(TrendReasoning)) == GetField(b, TopLevel(TrendReasoning));
    assert GetField(a, TechSpec(Camera)) == GetField(b, TechSpec(Camera));
    assert GetField(a, TechSpec(Lenses)) == GetField(b, TechSpec(Lenses));
    assert GetField(a, TechSpec(Angles)) == GetField(b, TechSpec(Angles));
    assert GetField(a, TechSpec(Specs)) == GetField(b, TechSpec(Specs));
    assert GetField(a, TechSpec(Mood)) == GetField(b, TechSpec(Mood));
    assert GetField(a, TechSpec(CameraMovement)) == GetField(b, TechSpec(CameraMovement));
    assert GetField(a, TechSpec(EditingStyle)) == GetField(b, TechSpec(EditingStyle));
    assert GetField(a, TechSpec(SoundDesign)) == GetField(b, TechSpec(SoundDesign));
  }

  /** Sets the leaf a path names to `v`; every other field keeps its value. */
  function SetField(c: AdConcept, f: ConceptField, v: string): (r: AdConcept)
    ensures GetField(r, f) == Some(v)
    ensures forall g :: g != f ==> GetField(r, g) == GetField(c, g)
    ensures SameFixedFields(r, c)
  {
    var t := c.technicalSpecs;
    match f
    case TopLevel(ConceptSummary) => c.(conceptSummary := v)
    case TopLevel(ShootSetup) => c.(shootSetup := v)
    case TopLevel(StylingNotes) => c.(stylingNotes := v)
    case TopLevel(PostProduction) => c.(postProduction := v)
    case TopLevel(AdCopy) => c.(adCopy := v)
    case TopLevel(TrendReasoning) => c.(trendReasoning := v)
    case TechSpec(Camera) => c.(technicalSpecs := t.(camera := v))
    case TechSpec(Lenses) => c.(technicalSpecs := t.(lenses := v))
    case TechSpec(Angles) => c.(technicalSpecs := t.(angles := v))
    case TechSpec(Specs) => c.(technicalSpecs := t.(specs := v))
    case TechSpec(Mood) => c.(technicalSpecs := t.(mood := v))
    case TechSpec(CameraMovement) => c.(technicalSpecs := t.(cameraMovement := Some(v)))
    case TechSpec(EditingStyle) => c.(technicalSpecs := t.(editingStyle := Some(v)))
    case TechSpec(SoundDesign) => c.(technicalSpecs := t.(soundDesign := Some(v)))
  }

  /** Writing a field's current value back changes nothing. */
  lemma SetFieldToCurrentValue(c: AdConcept, f: ConceptField, v: string)
    requires GetField(c, f) == Some(v)
    ensures SetField(c, f, v) == c
  {
    ConceptExtensionality(SetField(c, f, v), c);
  }

  /** A second edit of the same field replaces the first. */
  lemma SetFieldOverwrites(c: AdConcept, f: ConceptField, v: string, w: string)
    ensures SetField(SetField(c, f, v), f, w) == SetField(c, f, w)
  {
    ConceptExtensionality(SetField(SetField(c, f, v), f, w), SetField(c, f, w));
  }

  /** Edits of two different fields commute. */
  lemma SetFieldCommutes(c: AdConcept, f: ConceptField, v: string, g: ConceptField, w: string)
    requires f != g
    ensures SetField(SetField(c, f, v), g, w) == SetField(SetField(c, g, w), f, v)
  {
    ConceptExtensionality(SetField(SetField(c, f, v), g, w), SetField(SetField(c, g, w), f, v));
  }
}
