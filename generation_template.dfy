/**
 * The prompt sent to the video-generation provider
 * (src/prompt/generationTemplate.ts, buildVeoPrompt).
 *
 * The prompt is its list of lines joined with newlines; a few entries of the
 * list (the opening line with the optional creative direction, and the
 * feedback block) span several lines themselves.
 */
module GenerationTemplate {
  import opened Wrappers
  import opened Text
  import opened ScorecardTypes

  datatype GenerationContext = GenerationContext(
    brand: BrandKit,
    campaign: CampaignBrief,
    iteration: int,
    previousScorecard: Option<Scorecard>,
    caption: Option<string>)

  const PaletteFallback := "Color palette: use brand-appropriate, modern tones."
  const ToneFallback := "Maintain confident, upbeat tone consistent with the brand."
  const ProhibitedFallback := "Avoid offensive or misleading language."
  const KeywordsFallback := "energetic, trustworthy"
  const FixHeader := "Previous video attempt had issues - PLEASE FIX THESE IN THIS GENERATION:"
  const KeepHeader := "Keep these aspects from previous attempt:"
  const FirstAttemptNote := "No previous critique feedback; this is the first attempt."
  const DirectionHeader := "\U{1F3AC} USER'S CREATIVE DIRECTION:"
  const DirectionFooter := "Follow this creative direction closely while adhering to brand requirements below."

  /** A list that is present and has at least one element (`xs?.length` is truthy). */
  predicate NonEmptyList(xs: Option<seq<string>>) {
    xs.Some? && |xs.value| > 0
  }

  function PaletteLine(palette: Option<seq<string>>): string {
    if NonEmptyList(palette) then "Color palette: " + Join(palette.value, ", ") else PaletteFallback
  }

  function ProhibitedLine(phrases: Option<seq<string>>): string {
    if NonEmptyList(phrases) then "Avoid phrases: " + Join(phrases.value, ", ") else ProhibitedFallback
  }

  /** `toneKeywords.join(', ') || fallback`: the fallback replaces an empty rendering. */
  function KeywordsText(keywords: seq<string>): string {
    var joined := Join(keywords, ", ");
    if joined == "" then KeywordsFallback else joined
  }

  /** The creative-direction block; empty unless the caption is a non-empty string. */
  function UserGuidance(caption: Option<string>): string {
    if caption.Some? && caption.value != "" then
      "\n" + DirectionHeader + "\n" + caption.value + "\n\n" + DirectionFooter
    else ""
  }

  function IterationLabel(iteration: int): string {
    if iteration == 1 then "Initial concept" else "Refinement pass #" + IntToString(iteration)
  }

  /** The scores of `scores` whose status is `status`, in their original order. */
  function WithStatus(scores: seq<AgentScore>, status: Status): (r: seq<AgentScore>)
    ensures |r| <= |scores|
    ensures forall i :: 0 <= i < |r| ==> r[i].status == status && r[i] in scores
    ensures forall i :: 0 <= i < |scores| && scores[i].status == status ==> scores[i] in r
    decreases |scores|
  {
    if |scores| == 0 then []
    else if scores[0].status == status then [scores[0]] + WithStatus(scores[1..], status)
    else WithStatus(scores[1..], status)
  }

  /** Every score is either passing or failing: the two lists partition the scorecard. */
  lemma {:induction false} PartitionCount(scores: seq<AgentScore>)
    ensures |WithStatus(scores, Pass)| + |WithStatus(scores, Fail)| == |scores|
    decreases |scores|
  {
    if |scores| > 0 {
      PartitionCount(scores[1..]);
    }
  }

  /** `- <dimension>: <summary>`. */
  function Bullet(s: AgentScore): string {
    "- " + DimensionName(s.dimension) + ": " + s.evidence.summary
  }

  function Bullets(scores: seq<AgentScore>): (r: seq<string>)
    ensures |r| == |scores| && forall i :: 0 <= i < |scores| ==> r[i] == Bullet(scores[i])
  {
    seq(|scores|, i requires 0 <= i < |scores| => Bullet(scores[i]))
  }

  /** The section listing what passed; empty when nothing passed. */
  function KeepSection(passing: seq<AgentScore>): (r: string)
    ensures r == "" <==> passing == []
    ensures passing != [] ==> StartsWith(r, KeepHeader + "\n")
  {
    if |passing| > 0 then KeepHeader + "\n" + Join(Bullets(passing), "\n") else ""
  }

  /** The feedback carried forward from the previous attempt's scorecard. */
  function Feedback(previous: Option<Scorecard>): string {
    match previous
    case None => FirstAttemptNote
    case Some(card) =>
      FixHeader + "\n" + Join(Bullets(WithStatus(card.scores, Fail)), "\n") + "\n\n"
      + KeepSection(WithStatus(card.scores, Pass))
  }

  /** Line 0: the opening sentence, followed by the creative direction when there is one. */
  function Opening(ctx: GenerationContext): string {
    OpeningSentence(ctx) + UserGuidance(ctx.caption)
  }

  function OpeningSentence(ctx: GenerationContext): string {
    VeoIntro + IterationLabel(ctx.iteration) + " for " + ctx.brand.name + "."
  }

  // Fixed texts of the prompt.
  const VeoIntro := "You are Veo, generating a "
  const AccuracyTitle := "\U{26A0}\U{FE0F} CRITICAL - BRAND NAME ACCURACY:"
  const SpellIntro := "The brand name is \""
  const SpellRule := "\" - spell it EXACTLY as shown."
  const NoAlteration := "Do NOT misspell, modify, or alter the brand name in any way."
  const OverlayCheck := "If showing the brand name in text overlays, double-check the "
  const OverlayMatch := "spelling matches \""
  const OverlayEnd := "\" precisely."
  const Critical1 := "- CRITICAL #1: "
  const ProductIntro := "The PRODUCT ("
  const ProductVisible := ") MUST be physically visible"
  const ProductFail := " in the video. If the product is not shown, this is an automatic FAIL."
  const Critical2 := "- CRITICAL #2: "
  const NameIntro := "The brand name \""
  const NameExact := "\" must be spelled EXACTLY correctly"
  const NameFail := " in any text overlays or voice-over. Any typo or misspelling is an automatic FAIL."
  const ReqShowcase := "- Showcase the product clearly and prominently within the first second."
  const ReqLength := "- Keep video between 5-10 seconds."
  const ReqCta := "- Highlight CTA on screen text near the end."
  const ReqLogo := "- Ensure logo appears cleanly in final frame."
  const ReqNoHallucination := "- Avoid hallucinated text or incorrect brand references."
  const ReqRecognizable := "- The product must be recognizable and clearly visible (not abstract, not implied)."
  const Closing := "Produce cinematic camera motion, crisp lighting, and social-ready composition."

  /** Lines 1-6: the brand-name accuracy block. */
  function BrandBlock(name: string): (r: seq<string>)
    ensures |r| == 6
  {
    [ "",
      AccuracyTitle,
      SpellIntro + name + SpellRule,
      NoAlteration,
      OverlayCheck + (OverlayMatch + name + OverlayEnd),
      "" ]
  }

  /** Lines 7-14: voice, audience, product, call to action, keywords, palette, prohibited phrases, feedback. */
  function BriefBlock(ctx: GenerationContext): (r: seq<string>)
    ensures |r| == 8
  {
    var c := ctx.campaign;
    [ "Brand voice: " + ctx.brand.toneDescription.GetOr(ToneFallback),
      "Target audience: " + c.audience,
      "Product focus: " + c.productDescription,
      "Call to action: " + c.callToAction,
      "Tone keywords: " + KeywordsText(c.toneKeywords),
      PaletteLine(ctx.brand.derivedPaletteHex),
      ProhibitedLine(ctx.brand.prohibitedPhrases),
      Feedback(ctx.previousScorecard) ]
  }

  /** Lines 15-26: the requirement list and the closing direction. */
  function RequirementsBlock(product: string, name: string): (r: seq<string>)
    ensures |r| == 12
  {
    [ "",
      "Requirements:",
      Critical1 + (ProductIntro + product + ProductVisible) + ProductFail,
      Critical2 + (NameIntro + name + NameExact) + NameFail,
      ReqShowcase,
      ReqLength,
      ReqCta,
      ReqLogo,
      ReqNoHallucination,
      ReqRecognizable,
      "",
      Closing ]
  }

  /** The lines of the prompt, in order. */
  function PromptLines(ctx: GenerationContext): (r: seq<string>)
    ensures |r| == 27
  {
    [Opening(ctx)] + BrandBlock(ctx.brand.name) + BriefBlock(ctx)
    + RequirementsBlock(ctx.campaign.productDescription, ctx.brand.name)
  }

  /** buildVeoPrompt. */
  function BuildVeoPrompt(ctx: GenerationContext): string {
    Join(PromptLines(ctx), "\n")
  }

  // ---------------------------------------------------------------------
  // What the prompt says

  /** Text inside a line of one of the blocks is text of the prompt. */
  lemma InOpening(ctx: GenerationContext, t: string)
    requires Contains(Opening(ctx), t)
    ensures Contains(BuildVeoPrompt(ctx), t)
  {
    assert PromptLines(ctx)[0] == Opening(ctx);
    JoinContains(PromptLines(ctx), "\n", 0, t);
  }

  lemma InBrandBlock(ctx: GenerationContext, j: nat, t: string)
    requires j < 6 && Contains(BrandBlock(ctx.brand.name)[j], t)
    ensures Contains(BuildVeoPrompt(ctx), t)
  {
    assert PromptLines(ctx)[1 + j] == BrandBlock(ctx.brand.name)[j];
    JoinContains(PromptLines(ctx), "\n", 1 + j, t);
  }

  lemma InBriefBlock(ctx: GenerationContext, j: nat, t: string)
    requires j < 8 && Contains(BriefBlock(ctx)[j], t)
    ensures Contains(BuildVeoPrompt(ctx), t)
  {
    assert PromptLines(ctx)[7 + j] == BriefBlock(ctx)[j];
    JoinContains(PromptLines(ctx), "\n", 7 + j, t);
  }

  lemma InRequirementsBlock(ctx: GenerationContext, j: nat, t: string)
    requires j < 12 && Contains(RequirementsBlock(ctx.campaign.productDescription, ctx.brand.name)[j], t)
    ensures Contains(BuildVeoPrompt(ctx), t)
  {
    assert PromptLines(ctx)[15 + j] == RequirementsBlock(ctx.campaign.productDescription, ctx.brand.name)[j];
    JoinContains(PromptLines(ctx), "\n", 15 + j, t);
  }

  lemma OpeningNamesAttempt(ctx: GenerationContext)
    ensures Contains(Opening(ctx), IterationLabel(ctx.iteration) + (" for " + ctx.brand.name + "."))
  {
    var attempt := IterationLabel(ctx.iteration);
    var rest := " for " + ctx.brand.name + ".";
    assert Opening(ctx) == VeoIntro + (attempt + rest) + UserGuidance(ctx.caption);
    ContainsWithin(VeoIntro, attempt + rest, UserGuidance(ctx.caption));
  }

  /** The opening sentence names the attempt and the brand; the attempt is labelled "Initial concept"
      on iteration 1 and "Refinement pass #N" otherwise. */
  lemma PromptLabelsAttempt(ctx: GenerationContext)
    ensures Contains(BuildVeoPrompt(ctx), IterationLabel(ctx.iteration) + (" for " + ctx.brand.name + "."))
    ensures ctx.iteration == 1 ==> Contains(BuildVeoPrompt(ctx), "Initial concept")
    ensures ctx.iteration != 1 ==> Contains(BuildVeoPrompt(ctx), "Refinement pass #" + IntToString(ctx.iteration))
  {
    var attempt := IterationLabel(ctx.iteration);
    var rest := " for " + ctx.brand.name + ".";
    OpeningNamesAttempt(ctx);
    InOpening(ctx, attempt + rest);
    ContainsSelf(attempt);
    ContainsLeft(attempt, rest, attempt);
    ContainsTransitive(BuildVeoPrompt(ctx), attempt + rest, attempt);
  }

  /** The brand name appears verbatim in the spelling-accuracy block. */
  lemma PromptSpellsBrand(ctx: GenerationContext)
    ensures Contains(BuildVeoPrompt(ctx), SpellIntro + ctx.brand.name + SpellRule)
    ensures Contains(BuildVeoPrompt(ctx), OverlayMatch + ctx.brand.name + OverlayEnd)
  {
    var name := ctx.brand.name;
    var brand := BrandBlock(name);
    ContainsSelf(brand[2]);
    InBrandBlock(ctx, 2, brand[2]);
    var t4 := OverlayMatch + name + OverlayEnd;
    ContainsSelf(t4);
    ContainsRight(OverlayCheck, t4, t4);
    InBrandBlock(ctx, 4, t4);
  }

  /** The second critical requirement demands the brand name exactly as given. */
  lemma PromptRequiresExactName(ctx: GenerationContext)
    ensures Contains(BuildVeoPrompt(ctx), NameIntro + ctx.brand.name + NameExact)
  {
    var reqs := RequirementsBlock(ctx.campaign.productDescription, ctx.brand.name);
    var t := NameIntro + ctx.brand.name + NameExact;
    ContainsWithin(Critical2, t, NameFail);
    InRequirementsBlock(ctx, 3, t);
  }

  /** Audience, product description and call to action appear verbatim. */
  lemma PromptStatesCampaign(ctx: GenerationContext)
    ensures Contains(BuildVeoPrompt(ctx), "Target audience: " + ctx.campaign.audience)
    ensures Contains(BuildVeoPrompt(ctx), "Product focus: " + ctx.campaign.productDescription)
    ensures Contains(BuildVeoPrompt(ctx), "Call to action: " + ctx.campaign.callToAction)
  {
    var brief := BriefBlock(ctx);
    ContainsSelf(brief[1]);
    InBriefBlock(ctx, 1, brief[1]);
    ContainsSelf(brief[2]);
    InBriefBlock(ctx, 2, brief[2]);
    ContainsSelf(brief[3]);
    InBriefBlock(ctx, 3, brief[3]);
  }

  /** The first critical requirement demands that the product described be visible. */
  lemma PromptRequiresProduct(ctx: GenerationContext)
    ensures Contains(BuildVeoPrompt(ctx), ProductIntro + ctx.campaign.productDescription + ProductVisible)
  {
    var reqs := RequirementsBlock(ctx.campaign.productDescription, ctx.brand.name);
    var t := ProductIntro + ctx.campaign.productDescription + ProductVisible;
    ContainsWithin(Critical1, t, ProductFail);
    InRequirementsBlock(ctx, 2, t);
  }

  /** The palette is listed, every colour of it verbatim, or the fallback is given. */
  lemma PromptStatesPalette(ctx: GenerationContext)
    ensures NonEmptyList(ctx.brand.derivedPaletteHex) ==>
      forall h :: h in ctx.brand.derivedPaletteHex.value ==> Contains(BuildVeoPrompt(ctx), h)
    ensures NonEmptyList(ctx.brand.derivedPaletteHex) ==>
      Contains(BuildVeoPrompt(ctx), "Color palette: " + Join(ctx.brand.derivedPaletteHex.value, ", "))
    ensures !NonEmptyList(ctx.brand.derivedPaletteHex) ==> Contains(BuildVeoPrompt(ctx), PaletteFallback)
  {
    var brief := BriefBlock(ctx);
    ContainsSelf(brief[5]);
    InBriefBlock(ctx, 5, brief[5]);
    if NonEmptyList(ctx.brand.derivedPaletteHex) {
      var hs := ctx.brand.derivedPaletteHex.value;
      assert brief[5] == "Color palette: " + Join(hs, ", ") + "";
      forall h | h in hs ensures Contains(BuildVeoPrompt(ctx), h) {
        var k :| 0 <= k < |hs| && hs[k] == h;
        JoinContainsPart(hs, ", ", k);
        ContainsExtend("Color palette: ", Join(hs, ", "), "", h);
        InBriefBlock(ctx, 5, h);
      }
    }
  }

  /** Tone, keywords and prohibited phrases, each with its fallback. The keyword line carries the
      keywords joined with ", ", or the fallback when that is empty (see KeywordsFallBack). */
  lemma PromptStatesBrandRules(ctx: GenerationContext)
    ensures NonEmptyList(ctx.brand.prohibitedPhrases) ==>
      Contains(BuildVeoPrompt(ctx), "Avoid phrases: " + Join(ctx.brand.prohibitedPhrases.value, ", "))
    ensures !NonEmptyList(ctx.brand.prohibitedPhrases) ==> Contains(BuildVeoPrompt(ctx), ProhibitedFallback)
    ensures ctx.brand.toneDescription.None? ==> Contains(BuildVeoPrompt(ctx), "Brand voice: " + ToneFallback)
    ensures ctx.brand.toneDescription.Some? ==> Contains(BuildVeoPrompt(ctx), "Brand voice: " + ctx.brand.toneDescription.value)
    ensures ctx.campaign.toneKeywords == [] ==> Contains(BuildVeoPrompt(ctx), "Tone keywords: " + KeywordsFallback)
    ensures Contains(BuildVeoPrompt(ctx), "Tone keywords: " + KeywordsText(ctx.campaign.toneKeywords))
  {
    var brief := BriefBlock(ctx);
    ContainsSelf(brief[6]);
    InBriefBlock(ctx, 6, brief[6]);
    ContainsSelf(brief[0]);
    InBriefBlock(ctx, 0, brief[0]);
    ContainsSelf(brief[4]);
    InBriefBlock(ctx, 4, brief[4]);
  }

  /** The keyword line falls back exactly when the keywords render as nothing: no keywords, or a
      single empty one; otherwise it lists them joined with ", ". */
  lemma KeywordsFallBack(keywords: seq<string>)
    ensures (keywords == [] || keywords == [""]) ==> KeywordsText(keywords) == KeywordsFallback
    ensures keywords != [] && keywords != [""] ==> KeywordsText(keywords) == Join(keywords, ", ")
  {
    JoinEmpty(keywords, ", ");
  }

  /** With a previous scorecard, every failing score is listed to be fixed, and every passing score
      is listed under the keep header. Without one, the prompt says this is the first attempt. */
  lemma PromptCarriesFeedback(ctx: GenerationContext)
    ensures ctx.previousScorecard.None? ==> Contains(BuildVeoPrompt(ctx), FirstAttemptNote)
    ensures ctx.previousScorecard.Some? ==> Contains(BuildVeoPrompt(ctx), FixHeader)
    ensures ctx.previousScorecard.Some? ==>
      forall s :: s in WithStatus(ctx.previousScorecard.value.scores, Fail) ==> Contains(BuildVeoPrompt(ctx), Bullet(s))
    ensures ctx.previousScorecard.Some? ==>
      forall s :: s in WithStatus(ctx.previousScorecard.value.scores, Pass) ==>
        Contains(BuildVeoPrompt(ctx), KeepHeader) && Contains(BuildVeoPrompt(ctx), Bullet(s))
  {
    var f := Feedback(ctx.previousScorecard);
    assert BriefBlock(ctx)[7] == f;
    match ctx.previousScorecard {
      case None =>
        ContainsSelf(f);
        InBriefBlock(ctx, 7, f);
      case Some(card) =>
        FeedbackListsFixes(card);
        FeedbackKeepsPassing(card);
        InBriefBlock(ctx, 7, FixHeader);
        forall s | s in WithStatus(card.scores, Fail) ensures Contains(BuildVeoPrompt(ctx), Bullet(s)) {
          InBriefBlock(ctx, 7, Bullet(s));
        }
        forall s | s in WithStatus(card.scores, Pass)
          ensures Contains(BuildVeoPrompt(ctx), KeepHeader) && Contains(BuildVeoPrompt(ctx), Bullet(s))
        {
          InBriefBlock(ctx, 7, KeepHeader);
          InBriefBlock(ctx, 7, Bullet(s));
        }
    }
  }

  /** The feedback block for a previous scorecard opens with the fix header and lists every
      failing score. */
  lemma FeedbackListsFixes(card: Scorecard)
    ensures Contains(Feedback(Some(card)), FixHeader)
    ensures forall s :: s in WithStatus(card.scores, Fail) ==> Contains(Feedback(Some(card)), Bullet(s))
  {
    var failing := WithStatus(card.scores, Fail);
    var head := FixHeader + "\n";
    var fixes := Join(Bullets(failing), "\n");
    var keep := KeepSection(WithStatus(card.scores, Pass));
    assert Feedback(Some(card)) == head + fixes + "\n\n" + keep;
    forall t | Contains(head + fixes, t) ensures Contains(Feedback(Some(card)), t) {
      ContainsLeft(head + fixes, "\n\n", t);
      ContainsLeft(head + fixes + "\n\n", keep, t);
    }
    ContainsSelf(FixHeader);
    ContainsLeft(FixHeader, "\n", FixHeader);
    ContainsLeft(head, fixes, FixHeader);
    forall s | s in failing ensures Contains(head + fixes, Bullet(s)) {
      var k :| 0 <= k < |failing| && failing[k] == s;
      JoinContainsPart(Bullets(failing), "\n", k);
      ContainsRight(head, fixes, Bullet(s));
    }
  }

  /** When some score passed, the feedback block lists every passing score under the keep header. */
  lemma FeedbackKeepsPassing(card: Scorecard)
    ensures WithStatus(card.scores, Pass) != [] ==> Contains(Feedback(Some(card)), KeepHeader)
    ensures forall s :: s in WithStatus(card.scores, Pass) ==> Contains(Feedback(Some(card)), Bullet(s))
  {
    var passing := WithStatus(card.scores, Pass);
    var front := FixHeader + "\n" + Join(Bullets(WithStatus(card.scores, Fail)), "\n") + "\n\n";
    var keep := KeepSection(passing);
    assert Feedback(Some(card)) == front + keep;
    if passing != [] {
      var kept := Join(Bullets(passing), "\n");
      assert keep == KeepHeader + "\n" + kept;
      ContainsSelf(KeepHeader);
      ContainsLeft(KeepHeader, "\n", KeepHeader);
      ContainsLeft(KeepHeader + "\n", kept, KeepHeader);
      ContainsRight(front, keep, KeepHeader);
      forall s | s in passing ensures Contains(Feedback(Some(card)), Bullet(s)) {
        var k :| 0 <= k < |passing| && passing[k] == s;
        JoinContainsPart(Bullets(passing), "\n", k);
        ContainsRight(KeepHeader + "\n", kept, Bullet(s));
        ContainsRight(front, keep, Bullet(s));
      }
    }
  }

  /** The feedback block ends with the keep section, which is empty exactly when no score passed,
      and the failing bullets and passing scores together account for the whole scorecard. */
  lemma FeedbackShape(card: Scorecard)
    ensures StartsWith(Feedback(Some(card)), FixHeader + "\n")
    ensures EndsWith(Feedback(Some(card)), "\n\n" + KeepSection(WithStatus(card.scores, Pass)))
    ensures |Bullets(WithStatus(card.scores, Fail))| + |WithStatus(card.scores, Pass)| == |card.scores|
    ensures KeepSection(WithStatus(card.scores, Pass)) == "" <==>
      forall i :: 0 <= i < |card.scores| ==> card.scores[i].status == Fail
  {
    PartitionCount(card.scores);
    var passing := WithStatus(card.scores, Pass);
    var fixes := Join(Bullets(WithStatus(card.scores, Fail)), "\n");
    var f := Feedback(Some(card));
    assert f == (FixHeader + "\n") + (fixes + "\n\n" + KeepSection(passing));
    assert f == (FixHeader + "\n" + fixes) + ("\n\n" + KeepSection(passing));
    if passing != [] {
      assert passing[0] in card.scores;
    }
  }

  /** With a non-empty caption, the opening line carries the creative direction with the caption
      verbatim; otherwise it is the opening sentence alone. */
  lemma OpeningCarriesCaption(ctx: GenerationContext)
    ensures ctx.caption.Some? && ctx.caption.value != "" ==>
      Contains(Opening(ctx), DirectionHeader + "\n" + ctx.caption.value + "\n")
      && Contains(Opening(ctx), DirectionFooter)
    ensures !(ctx.caption.Some? && ctx.caption.value != "") ==> Opening(ctx) == OpeningSentence(ctx)
  {
    var opening := OpeningSentence(ctx);
    if ctx.caption.Some? && ctx.caption.value != "" {
      var t := DirectionHeader + "\n" + ctx.caption.value + "\n";
      var g := UserGuidance(ctx.caption);
      assert g == "\n" + t + "\n" + DirectionFooter;
      ContainsSelf(t);
      ContainsRight("\n", t, t);
      ContainsLeft("\n" + t, "\n", t);
      ContainsLeft("\n" + t + "\n", DirectionFooter, t);
      ContainsSelf(DirectionFooter);
      ContainsRight("\n" + t + "\n", DirectionFooter, DirectionFooter);
      ContainsRight(opening, g, t);
      ContainsRight(opening, g, DirectionFooter);
    } else {
      assert Opening(ctx) == opening + "";
    }
  }

  /** A non-empty caption reaches the prompt verbatim inside the creative direction. */
  lemma PromptCarriesCaption(ctx: GenerationContext)
    requires ctx.caption.Some? && ctx.caption.value != ""
    ensures Contains(BuildVeoPrompt(ctx), DirectionHeader + "\n" + ctx.caption.value + "\n")
    ensures Contains(BuildVeoPrompt(ctx), DirectionFooter)
  {
    OpeningCarriesCaption(ctx);
    InOpening(ctx, DirectionHeader + "\n" + ctx.caption.value + "\n");
    InOpening(ctx, DirectionFooter);
  }
}
