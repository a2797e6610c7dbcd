/**
 * The prompt sent to each specialist critique agent
 * (src/prompt/critiqueTemplate.ts, buildAgentPrompt).
 *
 * JavaScript renders the score threshold with its own number formatting;
 * that rendering is the parameter `showNumber`.
 */
module CritiqueTemplate {
  import opened Wrappers
  import opened Text
  import opened ScorecardTypes

  datatype CritiqueContext = CritiqueContext(
    brandName: string,
    brandTone: Option<string>,
    targetAudience: Option<string>,
    callToAction: Option<string>,
    prohibitedPhrases: Option<seq<string>>,
    derivedPaletteHex: Option<seq<string>>,
    scoreThreshold: real,
    assetFrames: seq<string>,
    caption: Option<string>)

  datatype AgentPromptConfig = AgentPromptConfig(systemInstruction: string, dimension: Dimension)

  // Fixed texts of the prompt.
  const SpecialistIntro := "You are a specialist agent focused on "
  const PaletteIntro := "Brand palette HEX: "
  const PaletteFallback := "Brand palette not provided; use brand assets to infer."
  const ProhibitedIntro := "Prohibited phrases: "
  const ProhibitedFallback := "Prohibited phrases: none provided."
  const ThresholdIntro := "Score threshold for passing: "
  const OverviewIntro := "You are provided with "
  const OverviewEnd := " chronological frame image(s) from the candidate ad."
  const NoFrames := "No frames were extracted; rely on textual context only."
  const FramesHeader := "Frames for review:"
  const SchemaIntro := "Return JSON strictly matching this schema:"
  const SchemaDimension := "  \"dimension\": \""
  const SchemaScore := "  \"score\": number between 0 and 1,"
  const SchemaStatus := "  \"status\": \"pass\" | \"fail\","
  const SchemaEvidence := "  \"evidence\": {"
  const SchemaSummary := "    \"summary\": string,"
  const SchemaCitations := "    \"citations\"?: string[]"

  /** `Frame <n>: <frame>`, numbered from 1. */
  function FrameLine(index: nat, frame: string): string {
    "Frame " + NatToString(index + 1) + ": " + frame
  }

  function FrameLines(frames: seq<string>): (r: seq<string>)
    ensures |r| == |frames| && forall i :: 0 <= i < |frames| ==> r[i] == FrameLine(i, frames[i])
  {
    seq(|frames|, i requires 0 <= i < |frames| => FrameLine(i, frames[i]))
  }

  /** Lines 0-9: what the agent judges and the brand context. */
  function ContextBlock(ctx: CritiqueContext, dimension: Dimension, showNumber: real -> string): (r: seq<string>)
    ensures |r| == 10
  {
    [ SpecialistIntro + DimensionName(dimension) + ".",
      "Brand: " + ctx.brandName,
      "Tone guidance: " + ctx.brandTone.GetOr("None provided"),
      "Target audience: " + ctx.targetAudience.GetOr("General"),
      "Call to action: " + ctx.callToAction.GetOr("None provided"),
      if ctx.derivedPaletteHex.Some? && |ctx.derivedPaletteHex.value| > 0
      then PaletteIntro + Join(ctx.derivedPaletteHex.value, ", ") else PaletteFallback,
      if ctx.prohibitedPhrases.Some? && |ctx.prohibitedPhrases.value| > 0
      then ProhibitedIntro + Join(ctx.prohibitedPhrases.value, ", ") else ProhibitedFallback,
      ThresholdIntro + showNumber(ctx.scoreThreshold),
      "Caption/transcript: " + ctx.caption.GetOr("N/A"),
      "" ]
  }

  /** The frames section: the numbered frame lines, or N/A when there are none. */
  function FramesSection(frames: seq<string>): string {
    if |frames| > 0 then Join(FrameLines(frames), "\n") else "N/A"
  }

  /** Lines 10-13: the frames handed to the agent. */
  function FramesBlock(frames: seq<string>): (r: seq<string>)
    ensures |r| == 4
  {
    [ if |frames| > 0 then OverviewIntro + NatToString(|frames|) + OverviewEnd else NoFrames,
      FramesHeader,
      FramesSection(frames),
      "" ]
  }

  /** Lines 14-23: the JSON shape the agent must answer with. */
  function SchemaBlock(dimension: Dimension): (r: seq<string>)
    ensures |r| == 10
  {
    [ SchemaIntro,
      "{",
      SchemaDimension + DimensionName(dimension) + "\",",
      SchemaScore,
      SchemaStatus,
      SchemaEvidence,
      SchemaSummary,
      SchemaCitations,
      "  }",
      "}" ]
  }

  function PromptLines(ctx: CritiqueContext, config: AgentPromptConfig, showNumber: real -> string): (r: seq<string>)
    ensures |r| == 25
  {
    ContextBlock(ctx, config.dimension, showNumber) + FramesBlock(ctx.assetFrames)
    + SchemaBlock(config.dimension) + [config.systemInstruction]
  }

  /** buildAgentPrompt. */
  function BuildAgentPrompt(ctx: CritiqueContext, config: AgentPromptConfig, showNumber: real -> string): string {
    Join(PromptLines(ctx, config, showNumber), "\n")
  }

  // ---------------------------------------------------------------------
  // What the prompt says

  lemma InContextBlock(ctx: CritiqueContext, config: AgentPromptConfig, showNumber: real -> string, j: nat, t: string)
    requires j < 10 && Contains(ContextBlock(ctx, config.dimension, showNumber)[j], t)
    ensures Contains(BuildAgentPrompt(ctx, config, showNumber), t)
  {
    assert PromptLines(ctx, config, showNumber)[j] == ContextBlock(ctx, config.dimension, showNumber)[j];
    JoinContains(PromptLines(ctx, config, showNumber), "\n", j, t);
  }

  lemma InFramesBlock(ctx: CritiqueContext, config: AgentPromptConfig, showNumber: real -> string, j: nat, t: string)
    requires j < 4 && Contains(FramesBlock(ctx.assetFrames)[j], t)
    ensures Contains(BuildAgentPrompt(ctx, config, showNumber), t)
  {
    assert PromptLines(ctx, config, showNumber)[10 + j] == FramesBlock(ctx.assetFrames)[j];
    JoinContains(PromptLines(ctx, config, showNumber), "\n", 10 + j, t);
  }

  /** The agent is told its dimension twice: in the opening sentence and as the value the schema
      fixes for the "dimension" field. */
  lemma PromptNamesDimension(ctx: CritiqueContext, config: AgentPromptConfig, showNumber: real -> string)
    ensures Contains(BuildAgentPrompt(ctx, config, showNumber), SpecialistIntro + DimensionName(config.dimension) + ".")
    ensures Contains(BuildAgentPrompt(ctx, config, showNumber), SchemaDimension + DimensionName(config.dimension) + "\",")
  {
    var lines := PromptLines(ctx, config, showNumber);
    assert lines[0] == SpecialistIntro + DimensionName(config.dimension) + ".";
    ContainsSelf(lines[0]);
    JoinContains(lines, "\n", 0, lines[0]);
    assert lines[16] == SchemaBlock(config.dimension)[2];
    ContainsSelf(lines[16]);
    JoinContains(lines, "\n", 16, lines[16]);
  }

  /** The agent's own system instruction closes the prompt. */
  lemma PromptEndsWithInstruction(ctx: CritiqueContext, config: AgentPromptConfig, showNumber: real -> string)
    ensures EndsWith(BuildAgentPrompt(ctx, config, showNumber), "\n" + config.systemInstruction)
  {
    var lines := PromptLines(ctx, config, showNumber);
    assert lines[24] == config.systemInstruction;
    JoinEndsWith(lines, "\n");
  }

  /** Brand, tone, audience, call to action, palette, prohibited phrases, threshold and caption
      appear, each with its fallback when absent. */
  lemma PromptStatesBrandContext(ctx: CritiqueContext, config: AgentPromptConfig, showNumber: real -> string)
    ensures Contains(BuildAgentPrompt(ctx, config, showNumber), "Brand: " + ctx.brandName)
    ensures Contains(BuildAgentPrompt(ctx, config, showNumber), "Tone guidance: " + ctx.brandTone.GetOr("None provided"))
    ensures Contains(BuildAgentPrompt(ctx, config, showNumber), "Target audience: " + ctx.targetAudience.GetOr("General"))
    ensures Contains(BuildAgentPrompt(ctx, config, showNumber), "Call to action: " + ctx.callToAction.GetOr("None provided"))
    ensures Contains(BuildAgentPrompt(ctx, config, showNumber), ThresholdIntro + showNumber(ctx.scoreThreshold))
    ensures Contains(BuildAgentPrompt(ctx, config, showNumber), "Caption/transcript: " + ctx.caption.GetOr("N/A"))
    ensures ctx.derivedPaletteHex.Some? && |ctx.derivedPaletteHex.value| > 0 ==>
      Contains(BuildAgentPrompt(ctx, config, showNumber), PaletteIntro + Join(ctx.derivedPaletteHex.value, ", "))
    ensures !(ctx.derivedPaletteHex.Some? && |ctx.derivedPaletteHex.value| > 0) ==>
      Contains(BuildAgentPrompt(ctx, config, showNumber), PaletteFallback)
    ensures ctx.prohibitedPhrases.Some? && |ctx.prohibitedPhrases.value| > 0 ==>
      Contains(BuildAgentPrompt(ctx, config, showNumber), ProhibitedIntro + Join(ctx.prohibitedPhrases.value, ", "))
    ensures !(ctx.prohibitedPhrases.Some? && |ctx.prohibitedPhrases.value| > 0) ==>
      Contains(BuildAgentPrompt(ctx, config, showNumber), ProhibitedFallback)
  {
    var block := ContextBlock(ctx, config.dimension, showNumber);
    ContainsSelf(block[1]);
    InContextBlock(ctx, config, showNumber, 1, block[1]);
    ContainsSelf(block[2]);
    InContextBlock(ctx, config, showNumber, 2, block[2]);
    ContainsSelf(block[3]);
    InContextBlock(ctx, config, showNumber, 3, block[3]);
    ContainsSelf(block[4]);
    InContextBlock(ctx, config, showNumber, 4, block[4]);
    ContainsSelf(block[5]);
    InContextBlock(ctx, config, showNumber, 5, block[5]);
    ContainsSelf(block[6]);
    InContextBlock(ctx, config, showNumber, 6, block[6]);
    ContainsSelf(block[7]);
    InContextBlock(ctx, config, showNumber, 7, block[7]);
    ContainsSelf(block[8]);
    InContextBlock(ctx, config, showNumber, 8, block[8]);
  }

  /** Every frame is listed, numbered from 1 in order, under a count of the frames; with no frames
      the prompt says so. Right under the frames header come the frame lines in order, one per
      line, or N/A when there are none. */
  lemma PromptListsFrames(ctx: CritiqueContext, config: AgentPromptConfig, showNumber: real -> string)
    ensures |ctx.assetFrames| > 0 ==>
      Contains(BuildAgentPrompt(ctx, config, showNumber), FramesHeader + "\n" + Join(FrameLines(ctx.assetFrames), "\n"))
    ensures |ctx.assetFrames| == 0 ==> Contains(BuildAgentPrompt(ctx, config, showNumber), FramesHeader + "\n" + "N/A")
    ensures forall i :: 0 <= i < |ctx.assetFrames| ==>
      Contains(BuildAgentPrompt(ctx, config, showNumber), FrameLine(i, ctx.assetFrames[i]))
    ensures |ctx.assetFrames| > 0 ==>
      Contains(BuildAgentPrompt(ctx, config, showNumber), OverviewIntro + NatToString(|ctx.assetFrames|) + OverviewEnd)
    ensures |ctx.assetFrames| == 0 ==> Contains(BuildAgentPrompt(ctx, config, showNumber), NoFrames)
  {
    var frames := ctx.assetFrames;
    var block := FramesBlock(frames);
    ContainsSelf(block[0]);
    InFramesBlock(ctx, config, showNumber, 0, block[0]);
    var lines := PromptLines(ctx, config, showNumber);
    assert lines[11] == FramesHeader && lines[12] == FramesSection(frames);
    JoinContainsPair(lines, "\n", 11);
    forall i | 0 <= i < |frames| ensures Contains(BuildAgentPrompt(ctx, config, showNumber), FrameLine(i, frames[i])) {
      JoinContainsPart(FrameLines(frames), "\n", i);
      InFramesBlock(ctx, config, showNumber, 2, FrameLine(i, frames[i]));
    }
  }
}
