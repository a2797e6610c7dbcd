/**
 * Campaign briefs (src/services/campaignService.ts): tone-keyword splitting and
 * the ordered checks of createCampaignBrief.
 *
 * The brand-kit lookup is the predicate `owns`, the generated identifier and
 * the relative paths of the uploaded files are parameters, and the configured
 * default regeneration limit is the parameter `defaultRegenLimit`.
 */
module CampaignService {
  import opened Wrappers
  import opened Text
  import opened ScorecardTypes
  import BrandKitService

  /** parseToneKeywords: the trimmed non-empty comma-separated keywords, none for a missing or empty list. */
  function ParseToneKeywords(raw: Option<string>): seq<string> {
    if raw.None? || raw.value == "" then [] else TrimmedTokens(raw.value, ',')
  }

  /** Tone keywords are split exactly as brand-kit lists are, with an empty list in place of absence. */
  lemma ToneKeywordsAsCommaList(raw: Option<string>)
    ensures ParseToneKeywords(raw) == BrandKitService.ParseCommaSeparated(raw).GetOr([])
  {
  }

  /** Every keyword is non-empty, trimmed and free of commas. */
  lemma ToneKeywordsWellFormed(raw: Option<string>)
    ensures forall k :: k in ParseToneKeywords(raw) ==> k != "" && IsTrimmed(k) && ',' !in k
  {
    if raw.Some? && raw.value != "" {
      TokensWellFormed(raw.value, ',');
    }
  }

  /** Keywords joined with commas split back into the same keywords, in order. */
  lemma ToneKeywordsRoundTrip(ks: seq<string>)
    requires forall i :: 0 <= i < |ks| ==> ks[i] != "" && IsTrimmed(ks[i]) && ',' !in ks[i]
    ensures ParseToneKeywords(Some(Join(ks, ","))) == ks
  {
    if |ks| > 0 {
      BrandKitService.ParseCommaSeparatedRoundTrip(ks);
    } else {
      assert Join(ks, ",") == "";
    }
  }

  /** The fields of the request body (`request.body ?? {}`); multipart fields arrive as strings. */
  datatype CampaignBody = CampaignBody(
    brandKitId: Option<string>,
    productDescription: Option<string>,
    audience: Option<string>,
    callToAction: Option<string>,
    toneKeywords: Option<string>,
    regenLimit: Option<string>)

  const EmptyBody := CampaignBody(None, None, None, None, None, None)

  /** The request: the X-User-Id header, the body, and the relative paths of the first uploaded
      product image and of the additional assets. */
  datatype CampaignRequest = CampaignRequest(
    userId: BrandKitService.Header,
    body: Option<CampaignBody>,
    productImagePath: Option<string>,
    assetPaths: Option<seq<string>>)

  datatype CampaignError =
    | MissingUserId
    | MissingBrandKitId
    | BrandKitNotFound
    | MissingRequiredFields
    | MissingProductImage
    | InvalidRegenLimit

  /** A field JavaScript treats as truthy: present and not the empty string. */
  predicate Given(field: Option<string>) {
    field.Some? && field.value != ""
  }

  /** `regenLimit ? Number.parseInt(regenLimit, 10) : defaultRegenLimit`, None where the result is NaN. */
  function RequestedRegen(raw: Option<string>, defaultRegenLimit: int): Option<int> {
    if Given(raw) then ParseInt(raw.value) else Some(defaultRegenLimit)
  }

  /** createCampaignBrief: the first failing check decides the error; otherwise the brief to store. */
  function CreateCampaignBrief(
    request: CampaignRequest, owns: (string, string) -> bool, id: string, defaultRegenLimit: int)
    : (r: Result<CampaignBrief, CampaignError>)
    ensures var b := request.body.GetOr(EmptyBody);
      var owner := BrandKitService.OwnerOf(request.userId);
      var regen := RequestedRegen(b.regenLimit, defaultRegenLimit);
      && (r == Failure(MissingUserId) <==> owner.None?)
      && (r == Failure(MissingBrandKitId) <==> owner.Some? && !Given(b.brandKitId))
      && (r == Failure(BrandKitNotFound) <==>
            owner.Some? && Given(b.brandKitId) && !owns(owner.value, b.brandKitId.value))
      && (r == Failure(MissingRequiredFields) <==>
            owner.Some? && Given(b.brandKitId) && owns(owner.value, b.brandKitId.value)
            && !(Given(b.productDescription) && Given(b.audience) && Given(b.callToAction)))
      && (r == Failure(MissingProductImage) <==>
            owner.Some? && Given(b.brandKitId) && owns(owner.value, b.brandKitId.value)
            && Given(b.productDescription) && Given(b.audience) && Given(b.callToAction)
            && request.productImagePath.None?)
      && (r.Success? <==>
            owner.Some? && Given(b.brandKitId) && owns(owner.value, b.brandKitId.value)
            && Given(b.productDescription) && Given(b.audience) && Given(b.callToAction)
            && request.productImagePath.Some? && regen.Some? && regen.value > 0)
    ensures r.Success? ==>
      var b := request.body.value;
      && r.value.brandKitId == b.brandKitId.value
      && r.value.productDescription == b.productDescription.value
      && r.value.audience == b.audience.value
      && r.value.callToAction == b.callToAction.value
      && r.value.toneKeywords == ParseToneKeywords(b.toneKeywords)
      && r.value.productImagePath == request.productImagePath.value
      && r.value.regenLimit == RequestedRegen(b.regenLimit, defaultRegenLimit)
      && r.value.regenLimit.value > 0
  {
    var b := request.body.GetOr(EmptyBody);
    match BrandKitService.OwnerOf(request.userId)
    case None => Failure(MissingUserId)
    case Some(owner) =>
      if !Given(b.brandKitId) then Failure(MissingBrandKitId)
      else if !owns(owner, b.brandKitId.value) then Failure(BrandKitNotFound)
      else if !(Given(b.productDescription) && Given(b.audience) && Given(b.callToAction)) then
        Failure(MissingRequiredFields)
      else if request.productImagePath.None? then Failure(MissingProductImage)
      else
        var regen := RequestedRegen(b.regenLimit, defaultRegenLimit);
        if regen.None? || regen.value <= 0 then Failure(InvalidRegenLimit)
        else
          Success(CampaignBrief(
            id, b.brandKitId.value, b.productDescription.value, b.audience.value, b.callToAction.value,
            ParseToneKeywords(b.toneKeywords), request.productImagePath.value, request.assetPaths,
            Some(regen.value)))
  }

  /** A brief accepted with a regeneration limit written as an integer stores that integer, and it
      is positive. */
  lemma RegenLimitStored(
    request: CampaignRequest, owns: (string, string) -> bool, id: string, defaultRegenLimit: int, n: int)
    requires request.body.Some? && CreateCampaignBrief(request, owns, id, defaultRegenLimit).Success?
    requires request.body.value.regenLimit == Some(IntToString(n))
    ensures n > 0 && CreateCampaignBrief(request, owns, id, defaultRegenLimit).value.regenLimit == Some(n)
  {
    ParseIntRendered(n);
    assert IntToString(n) != "" by {
      if n < 0 {
      } else {
        assert |NatToString(n)| >= 1;
      }
    }
  }

  /** A limit that reads as zero or a negative number is refused, whatever the rest of the request. */
  lemma NonPositiveRegenRefused(
    request: CampaignRequest, owns: (string, string) -> bool, id: string, defaultRegenLimit: int, n: int)
    requires request.body.Some? && request.body.value.regenLimit == Some(IntToString(n)) && n <= 0
    ensures CreateCampaignBrief(request, owns, id, defaultRegenLimit).Failure?
  {
    ParseIntRendered(n);
  }

  /** Without a limit in the request, the configured default is accepted exactly when it is positive. */
  lemma DefaultRegenUsed(
    request: CampaignRequest, owns: (string, string) -> bool, id: string, defaultRegenLimit: int)
    requires !Given(request.body.GetOr(EmptyBody).regenLimit)
    requires CreateCampaignBrief(request, owns, id, defaultRegenLimit).Success?
    ensures CreateCampaignBrief(request, owns, id, defaultRegenLimit).value.regenLimit == Some(defaultRegenLimit)
    ensures defaultRegenLimit > 0
  {
  }
}
