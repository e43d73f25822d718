/**
 The deterministic parts of the prompt builders in services/geminiService.ts:
 the format and budget wording chosen by advert type, the placeholders for
 missing campaign inputs, the branch on the user's own concept, the optional
 price-tag and brand-name sentences, and the argument-carrying lines of the
 concept and copy prompts. A prompt is modelled as the list of its lines that
 carry arguments; the fixed prose around them is shortened.
 */
module Prompts {
  import opened Types

  /** `t` occurs inside `s` starting at position `i`. */
  predicate OccursAt(s: string, t: string, i: int)
  {
    0 <= i <= |s| - |t| && s[i..i + |t|] == t
  }

  /** `t` occurs somewhere inside `s`. */
  ghost predicate Contains(s: string, t: string)
  {
    exists i :: OccursAt(s, t, i)
  }

  /** Some line of `lines` contains `t`. */
  ghost predicate Mentions(lines: seq<string>, t: string)
  {
    exists k :: 0 <= k < |lines| && Contains(lines[k], t)
  }

  lemma ContainsMiddle(a: string, t: string, b: string)
    ensures Contains(a + t + b, t)
  {
    assert (a + t + b)[|a|..|a| + |t|] == t;
    assert OccursAt(a + t + b, t, |a|);
  }

  lemma ContainsSplit(s: string, a: string, t: string, b: string)
    requires s == a + t + b
    ensures Contains(s, t)
  {
    ContainsMiddle(a, t, b);
  }

  /** Containment is transitive: a line holding a quotation holds what the quotation holds. */
  lemma ContainsTrans(s: string, m: string, t: string)
    requires Contains(s, m) && Contains(m, t)
    ensures Contains(s, t)
  {
    var i :| OccursAt(s, m, i);
    var j :| OccursAt(m, t, j);
    forall k | 0 <= k < |t|
      ensures s[i + j + k] == t[k]
    {
      assert s[i + j + k] == s[i..i + |m|][j + k] == m[j + k];
      assert m[j + k] == m[j..j + |t|][k];
    }
    assert s[i + j..i + j + |t|] == t;
    assert OccursAt(s, t, i + j);
  }

  /** `value` between a fixed lead-in and a fixed tail: an argument-carrying line. */
  function Wrap(prefix: string, value: string, suffix: string): (r: string)
    ensures Contains(r, value)
  {
    ContainsMiddle(prefix, value, suffix);
    prefix + value + suffix
  }

  const StillFormat: string := "still image"
  const VideoFormat: string := "short 8-10 second video"

  /** The format wording of the style and idea prompts (`advertType === 'still' ? ...`). */
  function FormatText(t: AdvertType): (r: string)
    ensures r == StillFormat <==> t == Still
  {
    if t == Still then StillFormat else VideoFormat
  }

  /** The format wording of the full-concept prompt, chosen from `isVideo` instead. */
  function ConceptFormatText(t: AdvertType): (r: string)
    ensures r == VideoFormat <==> t == Video
  {
    if t == Video then VideoFormat else StillFormat
  }

  /** The production budget the full-concept prompt announces. */
  const StillBudget: string := "high-end commercial photoshoot"
  const VideoBudget: string := "$300,000 video commercial"

  function BudgetText(t: AdvertType): (r: string)
    ensures r == StillBudget <==> t == Still
  {
    assert |StillBudget| != |VideoBudget|;
    match t
    case Still => StillBudget
    case Video => VideoBudget
  }

  /** The two spellings of the format split agree for both advert types. */
  lemma FormatWordingsAgree(t: AdvertType)
    ensures FormatText(t) == ConceptFormatText(t)
    ensures FormatText(t) == StillFormat <==> BudgetText(t) == StillBudget
  {
  }

  /** The placeholder for a missing CTA target. */
  const NotProvided: string := "not provided"

  /** The placeholder for missing brand guidelines. */
  const NotApplicable: string := "N/A"

  /**
   `value || fallback` on strings: the empty string is the only falsy one,
   so an empty value is replaced and any other is kept.
   */
  function OrElse(v: string, fallback: string): (r: string)
    ensures r == "" <==> v == "" && fallback == ""
    ensures v != "" ==> r == v
    ensures v == "" ==> r == fallback
  {
    if v == "" then fallback else v
  }

  /** A placeholder is applied once: feeding its output back changes nothing. */
  lemma PlaceholdersIdempotent(v: string, fallback: string)
    ensures OrElse(OrElse(v, fallback), fallback) == OrElse(v, fallback)
    ensures OrElse(v, NotProvided) != "" && OrElse(v, NotApplicable) != ""
  {
  }

  /** The CTA-target sentence of the full-concept prompt. */
  function ConceptCtaLine(url: string, whatsapp: string): (r: string)
    ensures Contains(r, OrElse(url, NotProvided)) && Contains(r, OrElse(whatsapp, NotProvided))
  {
    var u := OrElse(url, NotProvided);
    var w := OrElse(whatsapp, NotProvided);
    var tail := "'). The AI should craft a suitable CTA text based on these, like 'Shop Now' or 'Message Us'.";
    var r := "CTA can target a URL ('" + u + "') or WhatsApp ('" + w + tail;
    ContainsSplit(r, "CTA can target a URL ('", u, "') or WhatsApp ('" + w + tail);
    ContainsSplit(r, "CTA can target a URL ('" + u + "') or WhatsApp ('", w, tail);
    r
  }

  /** The CTA-target sentence of the hooks prompt. */
  function HooksCtaLine(url: string, whatsapp: string): (r: string)
    ensures Contains(r, OrElse(url, NotProvided)) && Contains(r, OrElse(whatsapp, NotProvided))
  {
    var u := OrElse(url, NotProvided);
    var w := OrElse(whatsapp, NotProvided);
    var r := "Base the CTAs on these targets: URL ('" + u + "') or WhatsApp ('" + w + "').";
    ContainsSplit(r, "Base the CTAs on these targets: URL ('", u, "') or WhatsApp ('" + w + "').");
    ContainsSplit(r, "Base the CTAs on these targets: URL ('" + u + "') or WhatsApp ('", w, "').");
    r
  }

  /** `"title: summary"`, quoted, as the prompts embed a style or an idea. */
  function Quoted(title: string, summary: string): (r: string)
    ensures Contains(r, title) && Contains(r, summary)
  {
    var r := "\"" + title + ": " + summary + "\"";
    ContainsSplit(r, "\"", title, ": " + summary + "\"");
    ContainsSplit(r, "\"" + title + ": ", summary, "\"");
    r
  }

  /** The concept-idea prompt: an enhancement of the user's own concept, or the plain one. */
  datatype IdeasPrompt = IdeasPrompt(enhancesUserConcept: bool, lines: seq<string>)

  /** A line quoting a style or an idea as `"title: summary"`. */
  function QuotingLine(prefix: string, title: string, summary: string): (r: string)
    ensures Contains(r, title) && Contains(r, summary)
  {
    var q := Quoted(title, summary);
    var r := Wrap(prefix, q, "");
    ContainsTrans(r, q, title);
    ContainsTrans(r, q, summary);
    r
  }

  function IdeasPromptFor(t: AdvertType, style: AdvertStyle, userConcept: string, guidelines: string): (r: IdeasPrompt)
    ensures r.enhancesUserConcept <==> userConcept != ""
    ensures r.enhancesUserConcept ==> Mentions(r.lines, userConcept)
    ensures Mentions(r.lines, style.title) && Mentions(r.lines, style.summary)
    ensures Mentions(r.lines, FormatText(t)) && Mentions(r.lines, OrElse(guidelines, NotApplicable))
    ensures |r.lines| == if userConcept != "" then 5 else 4
  {
    var format := Wrap("a chosen format (", FormatText(t), ")");
    var core := QuotingLine("ad concept IDEAS, all aligned with the chosen ad style: ", style.title, style.summary);
    var styleLine := Wrap("- Chosen Ad Style: \"", style.title, "\"");
    if userConcept != "" then
      var concept := Wrap("- User's Raw Ad Concept to Enhance: \"", userConcept, "\"");
      var guide := Wrap("- Brand Guidelines to consider: \"", OrElse(guidelines, NotApplicable), "\"");
      var lines := [format, core, styleLine, concept, guide];
      assert Contains(lines[0], FormatText(t)) && Contains(lines[1], style.title);
      assert Contains(lines[1], style.summary) && Contains(lines[3], userConcept) && Contains(lines[4], OrElse(guidelines, NotApplicable));
      IdeasPrompt(true, lines)
    else
      var guide := Wrap("- Brand Guidelines: \"", OrElse(guidelines, NotApplicable), "\"");
      var lines := [format, core, styleLine, guide];
      assert Contains(lines[0], FormatText(t)) && Contains(lines[1], style.title);
      assert Contains(lines[1], style.summary) && Contains(lines[3], OrElse(guidelines, NotApplicable));
      IdeasPrompt(false, lines)
  }

  /**
   The input lines of the full-concept prompt: budget, format, style,
   guidelines, CTA targets, then idea 1 and idea 2 in that order.
   */
  datatype ConceptsPrompt = ConceptsPrompt(
    budget: string, format: string, style: string, guidelines: string,
    ctaTargets: string, idea1: string, idea2: string)

  function ConceptsPromptFor(
    t: AdvertType, style: AdvertStyle, guidelines: string, url: string, whatsapp: string,
    ideas: seq<ConceptIdea>): (r: ConceptsPrompt)
    requires |ideas| >= 2
    ensures Contains(r.budget, BudgetText(t)) && Contains(r.format, ConceptFormatText(t))
    ensures Contains(r.style, style.title) && Contains(r.style, style.summary)
    ensures Contains(r.guidelines, OrElse(guidelines, NotApplicable))
    ensures Contains(r.ctaTargets, OrElse(url, NotProvided)) && Contains(r.ctaTargets, OrElse(whatsapp, NotProvided))
    ensures Contains(r.idea1, ideas[0].title) && Contains(r.idea1, ideas[0].summary)
    ensures Contains(r.idea2, ideas[1].title) && Contains(r.idea2, ideas[1].summary)
  {
    ConceptsPrompt(
      Wrap("a full production plan for a ", BudgetText(t), "."),
      Wrap("fully-detailed, professional ", ConceptFormatText(t), " ad concepts"),
      QuotingLine("- Chosen Ad Style: ", style.title, style.summary),
      Wrap("- Brand Guidelines: \"", OrElse(guidelines, NotApplicable), "\""),
      ConceptCtaLine(url, whatsapp),
      QuotingLine("- Concept Idea 1: ", ideas[0].title, ideas[0].summary),
      QuotingLine("- Concept Idea 2: ", ideas[1].title, ideas[1].summary))
  }

  /** One concept's block of the hooks prompt, written in the given language. */
  function HooksBlock(c: AdConcept, language: string): (r: seq<string>)
    ensures Mentions(r, c.optionName) && Mentions(r, c.conceptSummary) && Mentions(r, language)
  {
    var name := Wrap("- Name: \"", c.optionName, "\"");
    var summary := Wrap("- Summary: \"", c.conceptSummary, "\"");
    var r := [name, summary, Wrap("- Target Language: ", language, "")];
    assert Contains(r[0], c.optionName) && Contains(r[1], c.conceptSummary) && Contains(r[2], language);
    r
  }

  /** The hooks prompt: the CTA sentence, then concept 1 with language 1 and concept 2 with language 2. */
  datatype HooksPrompt = HooksPrompt(ctaLine: string, blocks: seq<seq<string>>)

  /**
   generateHooksAndCtas' prompt. The template reads both concepts' names
   unguarded, so a list of fewer than two concepts throws instead.
   */
  function HooksPromptFor(concepts: seq<AdConcept>, url: string, whatsapp: string, languages: seq<string>)
    : (r: Outcome<HooksPrompt>)
    requires |languages| >= 2
    ensures r.Failure? <==> |concepts| < 2
    ensures r.Failure? ==> r.cause == MissingConceptCause
    ensures r.Success? ==> |r.value.blocks| == 2
    ensures r.Success? ==> Mentions(r.value.blocks[0], concepts[0].optionName) && Mentions(r.value.blocks[0], languages[0])
    ensures r.Success? ==> Mentions(r.value.blocks[1], concepts[1].optionName) && Mentions(r.value.blocks[1], languages[1])
    ensures r.Success? ==>
              Contains(r.value.ctaLine, OrElse(url, NotProvided)) && Contains(r.value.ctaLine, OrElse(whatsapp, NotProvided))
  {
    if |concepts| < 2 then Failure(MissingConceptCause)
    else
      var first := HooksBlock(concepts[0], languages[0]);
      var second := HooksBlock(concepts[1], languages[1]);
      Success(HooksPrompt(HooksCtaLine(url, whatsapp), [first, second]))
  }

  /** The price-tag sentence of the image-prompt request: empty exactly when there is no price tag. */
  function PriceTagFragment(priceTag: string): (r: string)
    ensures r == "" <==> priceTag == ""
    ensures priceTag != "" ==> Contains(r, priceTag)
  {
    if priceTag == "" then ""
    else
      var r := "Incorporate a stylish price tag sticker showing \"" + priceTag + "\".";
      ContainsSplit(r, "Incorporate a stylish price tag sticker showing \"", priceTag, "\".");
      r
  }

  /** The brand-name sentence of the video-script request: empty exactly when there is no brand name. */
  function BrandNameFragment(brandName: string): (r: string)
    ensures r == "" <==> brandName == ""
    ensures brandName != "" ==> Contains(r, brandName)
  {
    if brandName == "" then ""
    else
      var tail := "\". This can be used in graphics or narration.";
      var r := "The brand name is \"" + brandName + tail;
      ContainsSplit(r, "The brand name is \"", brandName, tail);
      r
  }
}
