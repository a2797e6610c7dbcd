/** The records that flow through the generation and critique loop. */
module ScorecardTypes {
  import opened Wrappers
  import Json

  /** The quality axes a specialist agent may score. */
  datatype Dimension = BrandFit | VisualQuality | Safety | Clarity | TextAccuracy | ProductPresence

  /** The name a dimension has in agent output and in prompts. */
  function DimensionName(d: Dimension): string {
    match d
    case BrandFit => "BrandFit"
    case VisualQuality => "VisualQuality"
    case Safety => "Safety"
    case Clarity => "Clarity"
    case TextAccuracy => "TextAccuracy"
    case ProductPresence => "ProductPresence"
  }

  /** The dimension a name denotes, if it is one of the six names. */
  function DimensionNamed(name: string): (r: Option<Dimension>)
    ensures r.Some? ==> DimensionName(r.value) == name
    ensures forall d :: DimensionName(d) == name ==> r == Some(d)
  {
    if name == "BrandFit" then Some(BrandFit)
    else if name == "VisualQuality" then Some(VisualQuality)
    else if name == "Safety" then Some(Safety)
    else if name == "Clarity" then Some(Clarity)
    else if name == "TextAccuracy" then Some(TextAccuracy)
    else if name == "ProductPresence" then Some(ProductPresence)
    else None
  }

  datatype Status = Pass | Fail

  function StatusName(s: Status): string {
    if s == Pass then "pass" else "fail"
  }

  datatype Evidence = Evidence(summary: string, citations: Option<seq<string>>)

  datatype AgentScore = AgentScore(
    dimension: Dimension,
    score: real,
    status: Status,
    evidence: Evidence,
    metadata: Option<map<string, Json.Value>>)

  datatype Scorecard = Scorecard(
    assetUrl: string,
    iterations: int,
    scores: seq<AgentScore>,
    overallStatus: Status,
    createdAt: string)

  /** A brand kit as the loop reads it (the creation timestamp is left out). */
  datatype BrandKit = BrandKit(
    id: string,
    ownerId: string,
    name: string,
    logoPath: Option<string>,
    paletteAssetPath: Option<string>,
    derivedPaletteHex: Option<seq<string>>,
    toneDescription: Option<string>,
    prohibitedPhrases: Option<seq<string>>,
    targetAudience: Option<string>,
    primaryCallToAction: Option<string>)

  /** A campaign brief as the loop reads it (the creation timestamp is left out).
      `regenLimit` is optional only so that the orchestrator's fallback for a
      missing value can be stated; every stored brief has one. */
  datatype CampaignBrief = CampaignBrief(
    id: string,
    brandKitId: string,
    productDescription: string,
    audience: string,
    callToAction: string,
    toneKeywords: seq<string>,
    productImagePath: string,
    additionalAssets: Option<seq<string>>,
    regenLimit: Option<int>)
}
