# adprompt core, modelled in Dafny

adprompt generates short brand-safe video ads. A brand kit holds:
- the brand name;
- its tone;
- its prohibited phrases;
- a colour palette.

A campaign brief names the product, the audience, the call to action and a regeneration budget. The generation loop does the following:
1. It builds a prompt for the Veo video model from the brand kit, the brief and the previous attempt's scorecard.
2. It has four specialist agents critique the video: BrandFit, VisualQuality, Safety and Clarity.
3. It aggregates the agents' answers into a scorecard against one threshold, 0.8 unless the options give another.
4. It retries with the scorecard's feedback until an attempt passes or the budget is spent.

This project models that core and proves what it promises:

- `score_aggregator.dfy` covers src/services/critique/scoreAggregator.ts:
  - the response schema, validated field by field over a JSON value (`json.dfy`);
  - the status recomputed against the threshold;
  - the `agent` entry added to each score's metadata;
  - the overall verdict.
- `orchestrator.dfy` covers src/services/generation/orchestrator.ts and the two steps it drives: one generation (generationProxy.ts) and one critique (critique/index.ts). It contains:
  - `GenerateWithCritique`, a method whose `while` loop runs attempts 1, 2, ... and feeds each attempt the previous scorecard;
  - `GenerateOnly`;
  - the effective budget and threshold;
  - the critique context.

  The outside world is held in a `Providers` record of functions: the video model, frame extraction, the agents, path relativisation and the clock.
- `generation_template.dfy` (buildVeoPrompt) and `critique_template.dfy` (buildAgentPrompt) build each prompt as a sequence of lines joined by newlines. The lemmas say which texts the prompt contains and which fallback replaces a missing field.
- `brand_kit_service.dfy` covers:
  - `isHexColor` and `normalizeHex`, with the colour-name table as a parameter;
  - `parseCommaSeparated` and `collectManualHex`;
  - the header and name checks and the palette merge of `buildBrandKitPayload`.
- `campaign_service.dfy` covers `parseToneKeywords` and the ordered checks of `createCampaignBrief`. The ownership lookup is a predicate parameter.
- Helpers model the JavaScript built-ins the core uses:
  - `text.dfy`: `join`, `split` on one character, `trim`, ASCII case mapping, integer rendering and `parseInt`;
  - `seqs.dfy`: `Array.from(new Set(...))` and `map` followed by `filter(Boolean)`;
  - `wrappers.dfy`: `Option` and `Result`.

A thrown exception is a `Failure` value: a zod parse error, "Missing required header", a provider error, and so on.

Where the tests and the code disagree, the model follows the code. The generation template renders a failing score as `- <dimension>: <summary>` (src/prompt/generationTemplate.ts:36). One test expects a `Clarity=0.6 (fail)` rendering; the model does not.

Two behaviours of the loop follow the code rather than the natural expectation:
- The caption never reaches the video prompt, because orchestrator.ts:65-70 does not pass it.
- The loop always starts without a previous scorecard, because `GenerateOptions` has no field for one.

## Model

| member | source | states |
|---|---|---|
| ScoreAggregator.ParseAgentScore | src/services/critique/scoreAggregator.ts:8-17 | an accepted agent score came from an object whose dimension, score (within [0, 1]), status and evidence summary are the ones returned |
| ScoreAggregator.ParseAgentResponse | src/services/critique/scoreAggregator.ts:19-22 | an accepted response has a string `agent` and an `output` that passes the score schema |
| ScoreAggregator.ParseEncodedResponse | src/services/critique/scoreAggregator.ts:8-22 | every response with a score in [0, 1], written out as JSON, is accepted and reads back unchanged (schema round trip) |
| ScoreAggregator.ParseEncodedEvidence | src/services/critique/scoreAggregator.ts:12-15 | evidence with or without citations reads back unchanged |
| ScoreAggregator.ParseEncodedScore | src/services/critique/scoreAggregator.ts:8-17 | an agent score in [0, 1] reads back unchanged |
| ScoreAggregator.ParseAll | src/services/critique/scoreAggregator.ts:36 | `responses.map(parse)`: all parsed in order, or the error names the first response that fails the schema |
| ScoreAggregator.AggregateScores | src/services/critique/scoreAggregator.ts:32-58 | fails exactly when some response is invalid, at the first one. Otherwise the scorecard keeps assetUrl, iterations and createdAt and has one score per response, in order. Each score keeps its dimension, score and evidence, passes iff score >= threshold, and its metadata is the input's with `agent` set. The overall status is pass iff every score passes |
| ScoreAggregator.PassIffAllMeetThreshold | src/services/critique/scoreAggregator.ts:39-49 | a scorecard passes iff every validated score reaches the threshold; an empty list passes |
| ScoreAggregator.ScoresPassIff | src/services/critique/scoreAggregator.ts:39-49 | the overall verdict is pass iff each of the scorecard's scores reaches the threshold |
| ScoreAggregator.AggregateNamesAgent | src/services/critique/scoreAggregator.ts:40-44 | when every response names the same agent, every score's metadata records it |
| ScoreAggregator.ClaimIgnored | src/services/critique/scoreAggregator.ts:38-45 | replacing one agent's claimed status by any other leaves the whole scorecard unchanged |
| ScoreAggregator.ClaimParsed | src/services/critique/scoreAggregator.ts:11 | a changed status claim is still valid and changes only the parsed status |
| ScoreAggregator.ParseAllReplace | src/services/critique/scoreAggregator.ts:36 | swapping one valid response for another keeps the validation outcome and changes only that entry |
| Orchestrator.EffectiveRegenLimit | src/services/generation/orchestrator.ts:51 | the options' limit (any number, fractional ones included), else the campaign's, else 5 |
| Orchestrator.AttemptsAllow | src/services/generation/orchestrator.ts:64 | the budget allows attempt i exactly when i <= limit, so a fractional limit such as 2.5 allows attempts 1 and 2 |
| Orchestrator.EffectiveThreshold | src/services/generation/orchestrator.ts:52 | the options' threshold, else SCORE_THRESHOLD = 0.8 |
| Orchestrator.GenerateVideo | src/services/generation/generationProxy.ts:18-73 | succeeds exactly when the model finishes with a video, for the prompt buildVeoPrompt gives. A finished request without a video fails with "no video generated" |
| Orchestrator.InvokeAgents | src/services/critique/index.ts:61-70 | one response per specialist, in specialist order, each wrapping that agent's answer to the prompt buildAgentPrompt gives it, with the model's name as `agent`; succeeds iff every agent answers |
| Orchestrator.AgentResponseOfValid | src/services/critique/geminiAgents.ts:67-77 | invokeAgent's `{agent, output}` response passes the response schema iff the parsed answer passes the score schema, and is then that score attributed to gemini-2.5-flash |
| Orchestrator.CritiqueNamesModel | src/services/critique/geminiAgents.ts:74-77 | every score of a critique records gemini-2.5-flash as its `agent` |
| Orchestrator.CritiqueAnswers | src/services/critique/index.ts:39-70 | a failed frame extraction fails the critique before any agent is asked. Otherwise it succeeds iff every specialist answers, and answer i is specialist i's answer to its prompt with the frame labels |
| Orchestrator.RunCritique | src/services/critique/index.ts:27-80 | the scorecard carries the iteration, the relativised video path and one score per default specialist. It is aggregateScores applied to the specialists' answers in order with the context's threshold, so score i is specialist i's validated answer. The critique fails with the extraction or agent error, or with the first answer that fails validation |
| Orchestrator.CritiquePassIff | src/services/critique/index.ts:72-76 | a critique passes iff every score reaches the context's threshold |
| Orchestrator.Attempt | src/services/generation/orchestrator.ts:65-90 | attempt n has iteration n, carries its scorecard (whose iterations is n) and no job id, and passed iff the scorecard's overall status is pass. Its video is the one generated for attempt n's context with the previous scorecard, and its scorecard is that video's critique. It fails with the generation's fault, or else with the critique's |
| Orchestrator.RetryLoop | src/services/generation/orchestrator.ts:61-101 | for any attempt function, the results are attempts 1..k chained on the previous scorecard, with k at most the integer part of the budget. Every result but the last failed, and the final result is the last one (absent iff none ran). The loop stopped at the first pass or when the budget was spent; a fault ends it after a chain of failed attempts |
| Orchestrator.GenerateWithCritique | src/services/generation/orchestrator.ts:48-102 | the retry-loop outcome above, for this program's attempt and the effective budget |
| Orchestrator.FaultEndsLoop | src/services/generation/orchestrator.ts:65-79 | an attempt that throws after failed attempts ends the loop with its fault |
| Orchestrator.PassEndsLoop | src/services/generation/orchestrator.ts:94-96 | a passing attempt ends the loop and is the final result |
| Orchestrator.BudgetEndsLoop | src/services/generation/orchestrator.ts:101 | when the budget is spent the final result is the last attempt, absent when the budget is below 1 |
| Orchestrator.ChainedExtend | src/services/generation/orchestrator.ts:92-98 | a chain of attempts grows by the attempt fed the last scorecard |
| Orchestrator.ChainsAgree | src/services/generation/orchestrator.ts:64-99 | replaying the loop against the same provider outcomes gives the same attempts wherever the two replays overlap. This is a fact about the model over fixed outcomes, not a claim that the program is deterministic |
| Orchestrator.ChainsAgreeUpTo | src/services/generation/orchestrator.ts:64-99 | as ChainsAgree, for the first n attempts |
| Orchestrator.ChainedNumbering | src/services/generation/orchestrator.ts:83-90 | attempt i is numbered i, its scorecard says iteration i, and it passed iff that scorecard passed |
| Orchestrator.FeedbackCarriedForward | src/services/generation/orchestrator.ts:62-70 | attempt 1's prompt says it is the first attempt. Attempt i+1 is fed attempt i's scorecard, and its prompt lists every failing score of it |
| Orchestrator.AttemptPassIff | src/services/generation/orchestrator.ts:81 | an attempt passes iff every score reaches the effective threshold, whatever the agents claimed |
| Orchestrator.AgentPromptsCarryContext | src/services/generation/orchestrator.ts:15-29 | every specialist prompt carries the brand name, audience, call to action and effective threshold, the same for every iteration |
| Orchestrator.GenerateOnly | src/services/generation/orchestrator.ts:104-120 | one result, iteration 1, not passed, no scorecard, no job id. It succeeds iff the first-attempt generation does, keeps that generation's video, and otherwise fails with its fault |
| Orchestrator.GenerateOnlyMatchesFirstAttempt | src/services/generation/orchestrator.ts:104-111 | generateOnly and the loop's first attempt send the same request: the first-attempt prompt, which carries the first-attempt note. Each keeps the video the model returned for that prompt |
| GenerationTemplate.WithStatus | src/prompt/generationTemplate.ts:35 | the scores with the given status and only those |
| GenerationTemplate.PartitionCount | src/prompt/generationTemplate.ts:34-43 | the failing and passing lists together hold every score once |
| GenerationTemplate.KeepSection | src/prompt/generationTemplate.ts:39-44 | the keep section is empty iff nothing passed, and otherwise opens with its header |
| GenerationTemplate.PromptLabelsAttempt | src/prompt/generationTemplate.ts:47-49 | the opening names the attempt and the brand: "Initial concept" for iteration 1, "Refinement pass #N" otherwise |
| GenerationTemplate.OpeningNamesAttempt | src/prompt/generationTemplate.ts:49 | the opening line holds the label and the brand name |
| GenerationTemplate.PromptSpellsBrand | src/prompt/generationTemplate.ts:52-54 | the brand name appears verbatim in the spelling rule and in the overlay check |
| GenerationTemplate.PromptRequiresExactName | src/prompt/generationTemplate.ts:67 | the second critical requirement quotes the brand name |
| GenerationTemplate.PromptStatesCampaign | src/prompt/generationTemplate.ts:57-59 | audience, product description and call to action appear verbatim |
| GenerationTemplate.PromptRequiresProduct | src/prompt/generationTemplate.ts:66 | the first critical requirement names the product |
| GenerationTemplate.PromptStatesPalette | src/prompt/generationTemplate.ts:18-20 | a non-empty palette is listed joined by ", ", with every colour in the prompt; otherwise the fallback sentence |
| GenerationTemplate.PromptStatesBrandRules | src/prompt/generationTemplate.ts:22-60 | the prohibited phrases or their fallback, the tone or its fallback, and the keyword line: the keywords joined with ", ", or the fallback when they join to nothing |
| GenerationTemplate.KeywordsFallBack | src/prompt/generationTemplate.ts:60 | the keyword fallback is used exactly when the keywords join to the empty string |
| GenerationTemplate.PromptCarriesFeedback | src/prompt/generationTemplate.ts:32-45 | without a previous scorecard the first-attempt note; with one, the fix header and each failing score's line, and each passing score's line under the keep header |
| GenerationTemplate.FeedbackListsFixes | src/prompt/generationTemplate.ts:33-37 | the feedback lists every failing score under the fix header |
| GenerationTemplate.FeedbackKeepsPassing | src/prompt/generationTemplate.ts:39-43 | the feedback lists every passing score under the keep header |
| GenerationTemplate.FeedbackShape | src/prompt/generationTemplate.ts:33-44 | the feedback opens with the fix header and ends with the keep section, which is empty iff every score failed |
| GenerationTemplate.OpeningCarriesCaption | src/prompt/generationTemplate.ts:28-30 | the creative direction with the caption follows the opening iff the caption is non-empty |
| GenerationTemplate.PromptCarriesCaption | src/prompt/generationTemplate.ts:28-30 | a non-empty caption reaches the prompt verbatim inside the creative direction |
| GenerationTemplate.Bullets | src/prompt/generationTemplate.ts:36 | one `- <dimension>: <summary>` line per score, in order |
| CritiqueTemplate.FrameLines | src/prompt/critiqueTemplate.ts:41 | one `Frame i: <label>` line per frame, numbered from 1 in order |
| CritiqueTemplate.PromptNamesDimension | src/prompt/critiqueTemplate.ts:44-60 | the dimension is named in the opening and fixed in the schema |
| CritiqueTemplate.PromptEndsWithInstruction | src/prompt/critiqueTemplate.ts:67-68 | the specialist's system instruction closes the prompt |
| CritiqueTemplate.PromptStatesBrandContext | src/prompt/critiqueTemplate.ts:28-52 | brand, tone, audience, call to action, palette, prohibited phrases, threshold and caption appear, each with its fallback |
| CritiqueTemplate.PromptListsFrames | src/prompt/critiqueTemplate.ts:36-42 | with frames: their count, and under the frames header the numbered frame lines in order. Without frames: the no-frames sentence, and N/A under the header |
| BrandKitService.HexPath | src/services/brandKitService.ts:21-26 | the hexadecimal branch yields '#' and 4 to 6 upper-case hex digits |
| BrandKitService.NormalizeHex | src/services/brandKitService.ts:18-40 | a normalised colour is '#' followed by 4 to 6 upper-case hex digits. The value is dropped iff its trimmed form is neither a hex colour nor, lower-cased, a name in the table |
| BrandKitService.NormalizeTrimsFirst | src/services/brandKitService.ts:19 | surrounding whitespace never changes the result |
| BrandKitService.HexColorTakesHexPath | src/services/brandKitService.ts:16-20 | an optional '#' and 3 to 8 hex digits take the hexadecimal branch, never the name lookup |
| BrandKitService.HexPathAddsHash | src/services/brandKitService.ts:21 | a missing '#' is added before the digits are looked at |
| BrandKitService.HexPathShorthand | src/services/brandKitService.ts:22-24 | the 3-digit branch doubles each digit |
| BrandKitService.ShorthandExpands | src/services/brandKitService.ts:22-24 | #abc and abc both become #AABBCC |
| BrandKitService.HexPathKeepsSixDigits | src/services/brandKitService.ts:26 | other hex values keep at most their first six digits, upper-cased |
| BrandKitService.LongHexKeepsSixDigits | src/services/brandKitService.ts:26 | as HexPathKeepsSixDigits, through normalizeHex: 4 or 5 digits give a short colour, 7 or 8 are truncated |
| BrandKitService.HexBeforeName | src/services/brandKitService.ts:20-29 | "bad" is read as hex (#BBAADD) before any name lookup |
| BrandKitService.HexPathIdentity | src/services/brandKitService.ts:20-26 | the hexadecimal branch leaves a normalised colour unchanged |
| BrandKitService.NormalizeIdempotent | src/services/brandKitService.ts:18-40 | normalising a normalised colour returns it unchanged |
| BrandKitService.NamedColorEncodesChannels | src/services/brandKitService.ts:29-39 | a known name becomes #RRGGBB, whose digit pairs read back as the table's three channels |
| BrandKitService.RgbHexChannels | src/services/brandKitService.ts:36-39 | the digit pairs of #RRGGBB read back as the channels |
| BrandKitService.ChannelRoundTrip | src/services/brandKitService.ts:38 | toString(16) padded to two digits reads back as the channel |
| BrandKitService.RgbHex | src/services/brandKitService.ts:37-39 | a named colour is written as '#' and six upper-case hex digits |
| BrandKitService.ParseCommaSeparatedWellFormed | src/services/brandKitService.ts:57-66 | a present result has at least one entry, each non-empty, trimmed and free of commas |
| BrandKitService.ParseCommaSeparatedRoundTrip | src/services/brandKitService.ts:57-66 | well-formed entries joined by commas parse back to the same entries in order |
| BrandKitService.CollectManualHex | src/services/brandKitService.ts:68-77 | absent for a missing or empty list; a present result is non-empty and holds no colour twice |
| BrandKitService.CollectManualHexMembers | src/services/brandKitService.ts:72-76 | a colour is collected iff some comma-separated piece normalises to it |
| BrandKitService.CollectedHasSource | src/services/brandKitService.ts:72-75 | every collected colour comes from a piece of the list |
| BrandKitService.SourceIsCollected | src/services/brandKitService.ts:72-76 | every piece that normalises contributes its colour |
| BrandKitService.UnknownTokenDropped | src/services/brandKitService.ts:73-75 | a token that names no colour is dropped: appending it changes nothing |
| BrandKitService.DerivedPaletteOrder | src/services/brandKitService.ts:131-143 | the palette is absent iff both lists are empty. Otherwise it holds no colour twice, starts with the distinct manual colours in order, and holds exactly the colours of either list |
| BrandKitService.ManualColorsFirst | src/services/brandKitService.ts:131-133 | distinct manual colours open the merged palette unchanged |
| BrandKitService.OwnerOf | src/services/brandKitService.ts:94-96 | the caller is known iff X-User-Id is a single non-empty string |
| BrandKitService.BuildBrandKitPayload | src/services/brandKitService.ts:91-148 | fails with the missing-header error iff X-User-Id is absent, and otherwise with the missing-name error iff the name is missing or empty. On success it stores the owner, the name, the merged palette of the collected manual colours and the image colours, and the parsed prohibited phrases |
| BrandKitService.PayloadPalette | src/services/brandKitService.ts:126-143 | a stored palette holds no colour twice and opens with the collected manual colours; without a palette image it is exactly those colours |
| BrandKitService.AsWrittenAgreesOnOwnKeys | src/services/brandKitService.ts:29-39 | the as-written lookup agrees with the corrected one except on inherited names |
| BrandKitService.AsWrittenFailsOnSuffix | src/services/brandKitService.ts:73-75 | as written, a throwing last token makes the whole list throw |
| BrandKitService.ThrowingTokenAborts | src/services/brandKitService.ts:68-77 | as written, a throwing token after a comma aborts collectManualHex |
| BrandKitService.InheritedNameThrows | src/services/brandKitService.ts:29-36 | an inherited name is dropped by the corrected lookup and throws as written |
| BrandKitService.ConstructorIsDropped | src/services/brandKitService.ts:29-36 | "constructor" is dropped by the corrected lookup and throws as written |
| BrandKitService.ConstructorTokenThrows | src/services/brandKitService.ts:29-36 | as written, any list ending in ",constructor" throws |
| CampaignService.ToneKeywordsAsCommaList | src/services/campaignService.ts:13-22 | tone keywords split exactly as parseCommaSeparated does, with [] in place of absence |
| CampaignService.ToneKeywordsWellFormed | src/services/campaignService.ts:18-21 | every keyword is non-empty, trimmed and free of commas |
| CampaignService.ToneKeywordsRoundTrip | src/services/campaignService.ts:13-22 | well-formed keywords joined by commas parse back in order; none parse from "" |
| CampaignService.CreateCampaignBrief | src/services/campaignService.ts:24-74 | each error is returned iff its check is the first to fail, in source order: header, brandKitId, ownership, required fields, product image, then regenLimit. On success the brief carries the given fields, the parsed keywords and the positive regeneration limit |
| CampaignService.RegenLimitStored | src/services/campaignService.ts:54-57 | an accepted limit written as an integer is stored as that integer and is positive |
| CampaignService.NonPositiveRegenRefused | src/services/campaignService.ts:54-57 | a limit that reads as zero or less is refused |
| CampaignService.DefaultRegenUsed | src/services/campaignService.ts:54 | without a limit in the request, the configured default is stored, and it was positive |
| Seqs.Dedup | src/services/brandKitService.ts:76 | `Array.from(new Set(xs))`: no repetition, and exactly the elements of xs |
| Seqs.DedupPrefix | src/services/brandKitService.ts:131-133 | de-duplicating a + b starts with the de-duplication of a |
| Seqs.FilterMapDedupMembers | src/services/brandKitService.ts:73-76 | a value survives map, filter(Boolean) and Set iff some element maps to it |
| Text.TokensRoundTrip | src/services/brandKitService.ts:61-64 | split, trim and filter(Boolean) undo joining non-empty trimmed separator-free tokens |
| Text.ParseIntRendered | src/services/campaignService.ts:54 | `Number.parseInt(String(n), 10)` is n |

## Left out

- Video generation I/O (src/services/generation/generationProxy.ts): the Veo SDK call, the 10-second polling and the download form one function, `Providers.veo`. The model covers only its outcome: a video path, no video, or a thrown error.
- `Providers.veo` is a function of the prompt, so two requests with the same prompt get the same outcome in the model. The source makes a fresh request each time and saves each video under a new time- and random-based file name. The model claims no more than that two calls send the same request, as in Orchestrator.GenerateOnlyMatchesFirstAttempt.
- Critique I/O (src/services/critique/index.ts):
  - frame extraction with ffmpeg, the base64 reads and the `finally` cleanup are one function, `Providers.extractFrames`. It gives the number of frames read back, or the error that ends the critique before any agent is asked;
  - the Gemini calls and `JSON.parse` in geminiAgents.ts are `Providers.agent`, which gives the parsed answer or an error;
  - Orchestrator.InvokeAgents wraps each answer as `{agent: "gemini-2.5-flash", output: answer}`, as invokeAgent does. It leaves the schema check to aggregateScores, which repeats it. In the source an answer that fails the schema already rejects inside invokeAgent. In the model it fails the critique with the index of the first invalid answer in specialist order. Either way the critique fails.
- Orchestrator.InvokeAgents: `Promise.all` runs the specialists concurrently and rejects with the first rejection in time. The model takes the first failing specialist in configuration order. The order of the answers, which is what the scorecard uses, is the same either way.
- The specialists' system instructions (agentConfigs.ts) are `Providers.instruction`. The four default dimensions are a constant.
- Persistence is left out: createBrandKit, createCampaign and getBrandKitById. Ownership is the predicate `owns`. The side effect of `ensureUser` is not modelled; its order relative to the name check is, because the header check still comes first.
- Palette extraction with node-vibrant and the choice of multer files are inputs:
  - the uploaded palette image and its colours are `PaletteUpload`;
  - the logo path is a parameter.
- uuid values, `Date` and `path.relative` are parameters: `id`, `Providers.clock` and `Providers.relativize`. The same goes for `env.defaultRegenLimit` (`defaultRegenLimit`).
- The colour-name table of the color-name package is the parameter `table`. Its 148 entries are not enumerated.
- BrandKitService.NormalizeHex, BrandKitService.CollectManualHex, BrandKitService.BuildBrandKitPayload: these follow the corrected colour-name lookup, which reads only the table's own names. As written, the source throws on an inherited name such as "constructor" (see Findings). That behaviour is modelled separately by BrandKitService.NormalizeHexAsWritten and BrandKitService.CollectManualHexAsWritten.
- Text.ToLower and Text.ToUpper map ASCII letters only. JavaScript's `toLowerCase` also folds some non-ASCII letters onto ASCII ones, for example U+212A KELVIN SIGN onto "k". The source therefore accepts "blac\u212A" as black, while the model drops it. Non-ASCII input is not folded.
- The threshold and scores are `real`. `Number.prototype.toString` of the threshold is the parameter `showNumber`. Integers are rendered in decimal.
- Text.ParseInt reads unbounded integers. parseInt's loss of precision beyond 2^53 and its `Infinity` are not modelled, so `Number.isFinite` always holds for a parsed value.
- `rawGeneration` is dropped from generation results. `jobId` is always absent, because generateVideo returns none.
- Express routes, HTTP status codes, env loading and the web app are left out.
- GenerationTemplate.PromptCarriesFeedback: states that each failing and each passing score's line is in the prompt, not the order of those lines. The order is fixed by GenerationTemplate.Bullets and the definition of the feedback block.
- GenerationTemplate.WithStatus: states membership in both directions, not that the original order is kept. It is defined as an order-preserving filter.

## Findings

| source | as written | input that shows it | evidently intended | confidence | as-written member | corrected member |
|---|---|---|---|---|---|---|
| src/services/brandKitService.ts:29-36 | `colorName[key]` also finds properties every object inherits. For "constructor" it yields a function, which is truthy, and `const [r, g, b] = rgb` then throws a TypeError, so brand-kit creation fails | manualHexColors = "#ff0000,constructor" | a token that names no colour is dropped, like any other unknown name | not executed | BrandKitService.ConstructorTokenThrows | BrandKitService.UnknownTokenDropped |
