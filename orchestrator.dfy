/**
 * The generate -> critique -> retry loop (src/services/generation/orchestrator.ts)
 * together with the two steps it drives: one video generation
 * (src/services/generation/generationProxy.ts) and one critique
 * (src/services/critique/index.ts).
 *
 * Everything those steps do outside this program is an oracle held in
 * `Providers`: the video model (with its polling and download), frame
 * extraction, the specialist agents, the working-directory relative path and
 * the clock.
 */
module Orchestrator {
  import opened Wrappers
  import opened Text
  import opened Json
  import opened ScorecardTypes
  import opened ScoreAggregator
  import opened GenerationTemplate
  import opened CritiqueTemplate

  /** SCORE_THRESHOLD. */
  const ScoreThreshold: real := 0.8
  /** The regeneration budget when neither the options nor the campaign give one. */
  const DefaultRegenLimit: int := 5
  /** The number of frames requested from each generated video. */
  const FrameSampleCount: nat := 6
  /** The model every specialist runs on; its name is the `agent` of every response. */
  const AgentModel := "gemini-2.5-flash"
  /** The dimensions of defaultSpecialistConfigs, in order. */
  const DefaultSpecialists: seq<Dimension> := [BrandFit, VisualQuality, Safety, Clarity]

  /** How a generation request ends once the provider reports it done: with the saved path of the
      first generated video, with no video, or with an error thrown by the provider. */
  datatype VeoOutcome = Completed(video: Option<string>) | Errored(reason: string)

  /** Why an attempt could not finish. */
  datatype Fault =
    | NoVideoGenerated
    | ProviderFailure(reason: string)
    | InvalidAgentResponse(index: nat)

  datatype Providers = Providers(
    /** The video model, from the prompt to the downloaded file. */
    veo: string -> VeoOutcome,
    /** The number of frames extracted and read back from a video when `n` are requested, or the
        error ffmpeg or the file system raised. */
    extractFrames: (string, nat) -> Result<nat, string>,
    /** A specialist agent's answer to a prompt about a video, as `JSON.parse` read it, or the
        error the call raised (an empty answer or text that is not JSON included). */
    agent: (string, string) -> Result<Value, string>,
    /** The system instruction of each specialist. */
    instruction: Dimension -> string,
    /** A path made relative to the working directory. */
    relativize: string -> string,
    /** The creation time stamped on the scorecard of an iteration. */
    clock: int -> string,
    /** JavaScript's rendering of a number. */
    showNumber: real -> string)

  datatype GenerateOptions = GenerateOptions(
    brand: BrandKit,
    campaign: CampaignBrief,
    caption: Option<string>,
    regenLimit: Option<real>,
    scoreThreshold: Option<real>)

  /** One attempt. `jobId` is always absent: the generation step returns none. */
  datatype GenerationResult = GenerationResult(
    iteration: int,
    videoPath: string,
    jobId: Option<string>,
    scorecard: Option<Scorecard>,
    passed: bool)

  /** `final` is absent only when no attempt ran. */
  datatype LoopResult = LoopResult(results: seq<GenerationResult>, final: Option<GenerationResult>)

  // ---------------------------------------------------------------------
  // Settings

  /** The options' limit, else the campaign's, else 5. The options' limit is any JSON number the
      request carried, fractional ones included. */
  function EffectiveRegenLimit(o: GenerateOptions): (r: real)
    ensures o.regenLimit.Some? ==> r == o.regenLimit.value
    ensures o.regenLimit.None? && o.campaign.regenLimit.Some? ==> r == o.campaign.regenLimit.value as real
    ensures o.regenLimit.None? && o.campaign.regenLimit.None? ==> r == DefaultRegenLimit as real
  {
    o.regenLimit.GetOr(o.campaign.regenLimit.GetOr(DefaultRegenLimit) as real)
  }

  /** The options' threshold, else 0.8. */
  function EffectiveThreshold(o: GenerateOptions): (r: real)
    ensures o.scoreThreshold.Some? ==> r == o.scoreThreshold.value
    ensures o.scoreThreshold.None? ==> r == ScoreThreshold
  {
    o.scoreThreshold.GetOr(ScoreThreshold)
  }

  /** The number of attempts `iteration <= limit` allows for iteration = 1, 2, ...: none when the
      limit is below 1, otherwise its integer part. */
  function Attempts(limit: real): nat {
    if limit < 1.0 then 0 else limit.Floor
  }

  /** Attempt i runs, as far as the budget goes, exactly when `i <= limit`: a fractional limit such
      as 2.5 allows attempts 1 and 2. */
  lemma AttemptsAllow(limit: real, i: int)
    requires 1 <= i
    ensures i <= Attempts(limit) <==> i as real <= limit
  {
  }

  /** buildCritiqueContext: the brand's and campaign's fields and the threshold; the frames are
      filled in by each critique. */
  function BuildCritiqueContext(brand: BrandKit, campaign: CampaignBrief, threshold: real, caption: Option<string>)
    : CritiqueContext
  {
    CritiqueContext(
      brand.name, brand.toneDescription, Some(campaign.audience), Some(campaign.callToAction),
      brand.prohibitedPhrases, brand.derivedPaletteHex, threshold, [], caption)
  }

  function CritiqueBase(o: GenerateOptions): CritiqueContext {
    BuildCritiqueContext(o.brand, o.campaign, EffectiveThreshold(o), o.caption)
  }

  // ---------------------------------------------------------------------
  // One generation

  /** generateVideo: the prompt goes to the video model; a finished request without a video is an error. */
  function GenerateVideo(p: Providers, ctx: GenerationContext): (r: Result<string, Fault>)
    ensures r.Success? <==> p.veo(BuildVeoPrompt(ctx)).Completed? && p.veo(BuildVeoPrompt(ctx)).video.Some?
    ensures r.Success? ==> r.value == p.veo(BuildVeoPrompt(ctx)).video.value
    ensures p.veo(BuildVeoPrompt(ctx)) == Completed(None) ==> r == Failure(NoVideoGenerated)
  {
    match p.veo(BuildVeoPrompt(ctx))
    case Errored(reason) => Failure(ProviderFailure(reason))
    case Completed(None) => Failure(NoVideoGenerated)
    case Completed(Some(path)) => Success(path)
  }

  /** The context of attempt `n`: no caption, and the previous attempt's scorecard. */
  function AttemptContext(o: GenerateOptions, n: int, previous: Option<Scorecard>): GenerationContext {
    GenerationContext(o.brand, o.campaign, n, previous, None)
  }

  // ---------------------------------------------------------------------
  // One critique

  /** `Extracted frame <n>` for each extracted frame, numbered from 1. */
  function FrameLabels(count: nat): (r: seq<string>)
    ensures |r| == count && forall i :: 0 <= i < count ==> r[i] == "Extracted frame " + NatToString(i + 1)
  {
    seq(count, i requires 0 <= i < count => "Extracted frame " + NatToString(i + 1))
  }

  /** The prompt a specialist receives. */
  function AgentPrompt(p: Providers, ctx: CritiqueContext, d: Dimension): string {
    BuildAgentPrompt(ctx, AgentPromptConfig(p.instruction(d), d), p.showNumber)
  }

  /** invokeAgent's response: the parsed answer as `output`, under the model's name as `agent`. */
  function AgentResponseOf(answer: Value): Value {
    Obj(map["agent" := Str(AgentModel), "output" := answer])
  }

  /** A wrapped answer passes the response schema exactly when the answer passes the score
      schema, and then it is that score, attributed to the model. */
  lemma AgentResponseOfValid(answer: Value)
    ensures ParseAgentResponse(AgentResponseOf(answer)).Some? <==> ParseAgentScore(answer).Some?
    ensures ParseAgentScore(answer).Some? ==>
      ParseAgentResponse(AgentResponseOf(answer)) == Some(AgentResponse(AgentModel, ParseAgentScore(answer).value))
  {
    assert Field(AgentResponseOf(answer), "agent") == Some(Str(AgentModel));
    assert Field(AgentResponseOf(answer), "output") == Some(answer);
  }

  /** Every response is attributed to the model. */
  predicate AttributedToModel(responses: seq<Value>) {
    forall i :: 0 <= i < |responses| ==> Field(responses[i], "agent") == Some(Str(AgentModel))
  }

  /** The specialists' responses, in specialist order; the first specialist that fails fails them all. */
  function InvokeAgents(p: Providers, ctx: CritiqueContext, video: string, dims: seq<Dimension>)
    : (r: Result<seq<Value>, Fault>)
    ensures r.Success? <==> forall i :: 0 <= i < |dims| ==> p.agent(AgentPrompt(p, ctx, dims[i]), video).Success?
    ensures r.Success? ==> (|r.value| == |dims|
      && forall i :: 0 <= i < |dims| ==> r.value[i] == AgentResponseOf(p.agent(AgentPrompt(p, ctx, dims[i]), video).value))
    ensures r.Success? ==> AttributedToModel(r.value)
    decreases |dims|
  {
    if |dims| == 0 then Success([])
    else
      match p.agent(AgentPrompt(p, ctx, dims[0]), video)
      case Failure(reason) => Failure(ProviderFailure(reason))
      case Success(first) =>
        var rest :- InvokeAgents(p, ctx, video, dims[1..]);
        Success([AgentResponseOf(first)] + rest)
  }

  /** The specialists' answers about a video: the frames are extracted and labelled, then every
      default specialist is asked, in order, with the labels in its prompt. Extraction that fails
      fails the critique before any specialist is asked. */
  function CritiqueAnswers(p: Providers, base: CritiqueContext, video: string): (r: Result<seq<Value>, Fault>)
    ensures p.extractFrames(video, FrameSampleCount).Failure? ==>
      r == Failure(ProviderFailure(p.extractFrames(video, FrameSampleCount).error))
    ensures r.Success? ==> AttributedToModel(r.value)
    ensures p.extractFrames(video, FrameSampleCount).Success? ==>
      var ctx := base.(assetFrames := FrameLabels(p.extractFrames(video, FrameSampleCount).value));
      && (r.Success? <==> forall i :: 0 <= i < |DefaultSpecialists| ==>
            p.agent(AgentPrompt(p, ctx, DefaultSpecialists[i]), video).Success?)
      && (r.Success? ==> |r.value| == |DefaultSpecialists| && forall i :: 0 <= i < |DefaultSpecialists| ==>
            r.value[i] == AgentResponseOf(p.agent(AgentPrompt(p, ctx, DefaultSpecialists[i]), video).value))
  {
    match p.extractFrames(video, FrameSampleCount)
    case Failure(reason) => Failure(ProviderFailure(reason))
    case Success(count) => InvokeAgents(p, base.(assetFrames := FrameLabels(count)), video, DefaultSpecialists)
  }

  /** The options aggregateScores receives for a critique. */
  function CritiqueOptions(p: Providers, base: CritiqueContext, video: string, iteration: int): AggregateOptions {
    AggregateOptions(p.relativize(video), iteration, base.scoreThreshold)
  }

  /** runCritique: label the extracted frames, ask every specialist, aggregate against the context's
      threshold. Score i is specialist i's validated answer, reconciled with the threshold; the
      critique fails with the first answer that fails validation. */
  function RunCritique(p: Providers, base: CritiqueContext, video: string, iteration: int): (r: Result<Scorecard, Fault>)
    ensures r.Success? ==>
      && r.value.iterations == iteration
      && r.value.assetUrl == p.relativize(video)
      && |r.value.scores| == |DefaultSpecialists|
    ensures var answers := CritiqueAnswers(p, base, video);
      && (answers.Failure? ==> r == Failure(answers.error))
      && (answers.Success? ==>
            var card := AggregateScores(answers.value, CritiqueOptions(p, base, video, iteration), p.clock(iteration));
            && (card.Success? ==> r == Success(card.value))
            && (card.Failure? ==> r == Failure(InvalidAgentResponse(card.error.index))))
  {
    var responses :- CritiqueAnswers(p, base, video);
    match AggregateScores(responses, CritiqueOptions(p, base, video, iteration), p.clock(iteration))
    case Failure(InvalidResponse(i)) => Failure(InvalidAgentResponse(i))
    case Success(card) => Success(card)
  }

  /** Every score of a critique is attributed to the model the specialists run on. */
  lemma CritiqueNamesModel(p: Providers, base: CritiqueContext, video: string, iteration: int)
    requires RunCritique(p, base, video, iteration).Success?
    ensures var card := RunCritique(p, base, video, iteration).value;
      forall i :: 0 <= i < |card.scores| ==>
        card.scores[i].metadata.Some? && "agent" in card.scores[i].metadata.value
        && card.scores[i].metadata.value["agent"] == Str(AgentModel)
  {
    var answers := CritiqueAnswers(p, base, video).value;
    AggregateNamesAgent(answers, CritiqueOptions(p, base, video, iteration), p.clock(iteration), AgentModel);
  }

  /** A critique passes exactly when every specialist's score reaches the context's threshold,
      whatever the specialists claimed. */
  lemma CritiquePassIff(p: Providers, base: CritiqueContext, video: string, iteration: int)
    requires RunCritique(p, base, video, iteration).Success?
    ensures var card := RunCritique(p, base, video, iteration).value;
      card.overallStatus == Pass <==> forall i :: 0 <= i < |card.scores| ==> card.scores[i].score >= base.scoreThreshold
  {
    var answers := CritiqueAnswers(p, base, video).value;
    ScoresPassIff(answers, CritiqueOptions(p, base, video, iteration), p.clock(iteration));
  }

  // ---------------------------------------------------------------------
  // The loop

  /** Attempt `n`: generate with the previous scorecard, critique, and pass when the scorecard passes. */
  function Attempt(p: Providers, o: GenerateOptions, n: int, previous: Option<Scorecard>)
    : (r: Result<GenerationResult, Fault>)
    ensures r.Success? ==>
      && r.value.iteration == n
      && r.value.scorecard.Some?
      && r.value.scorecard.value.iterations == n
      && r.value.jobId.None?
      && (r.value.passed <==> r.value.scorecard.value.overallStatus == Pass)
    ensures var video := GenerateVideo(p, AttemptContext(o, n, previous));
      && (video.Failure? ==> r == Failure(video.error))
      && (video.Success? ==> var card := RunCritique(p, CritiqueBase(o), video.value, n);
            && (card.Failure? ==> r == Failure(card.error))
            && (card.Success? ==> r.Success? && r.value.videoPath == video.value && r.value.scorecard == Some(card.value)))
  {
    var video :- GenerateVideo(p, AttemptContext(o, n, previous));
    var card :- RunCritique(p, CritiqueBase(o), video, n);
    Success(GenerationResult(n, video, None, Some(card), card.overallStatus == Pass))
  }

  /** The scorecard fed to the next attempt: the last one, or none before the first attempt. */
  function PreviousOf(rs: seq<GenerationResult>): Option<Scorecard> {
    if |rs| == 0 then None else rs[|rs| - 1].scorecard
  }

  /** `rs` are the attempts 1..|rs| as `step` produces them, each fed the scorecard of the one before. */
  ghost predicate ChainedBy(step: (int, Option<Scorecard>) -> Result<GenerationResult, Fault>, rs: seq<GenerationResult>) {
    forall i :: 0 <= i < |rs| ==> step(i + 1, PreviousOf(rs[..i])) == Success(rs[i])
  }

  /** One attempt of the loop, as a function of the iteration number and the previous scorecard. */
  function Step(p: Providers, o: GenerateOptions): (int, Option<Scorecard>) -> Result<GenerationResult, Fault> {
    (n, previous) => Attempt(p, o, n, previous)
  }

  /** `rs` are the attempts 1..|rs| as the providers answer them. */
  ghost predicate Chained(p: Providers, o: GenerateOptions, rs: seq<GenerationResult>) {
    ChainedBy(Step(p, o), rs)
  }

  /** A chain grows by the next attempt. */
  lemma ChainedExtend(step: (int, Option<Scorecard>) -> Result<GenerationResult, Fault>, rs: seq<GenerationResult>, r: GenerationResult)
    requires ChainedBy(step, rs) && step(|rs| + 1, PreviousOf(rs)) == Success(r)
    ensures ChainedBy(step, rs + [r])
  {
    var rs' := rs + [r];
    forall i | 0 <= i < |rs'| ensures step(i + 1, PreviousOf(rs'[..i])) == Success(rs'[i]) {
      assert rs'[..i] == rs[..i];
    }
  }

  /** What the retry loop of generateWithCritique promises, for any way `step` of making one
      attempt and the budget `regenLimit`. On success the results are the attempts 1..|rs| as
      `step` produced them, each fed the previous scorecard, within the budget; every attempt
      but the last failed the critique; the final result is the last attempt, absent only when
      none ran; and the loop stopped at the first passing attempt or when the budget was spent.
      On failure some such chain of failed attempts, within the budget, was followed by an
      attempt that ended with the fault. */
  ghost predicate LoopOutcome(
    step: (int, Option<Scorecard>) -> Result<GenerationResult, Fault>, regenLimit: real,
    out: Result<LoopResult, Fault>)
  {
    && (out.Success? ==>
      var rs := out.value.results;
      && ChainedBy(step, rs)
      && |rs| <= Attempts(regenLimit)
      && (forall i :: 0 <= i < |rs| - 1 ==> !rs[i].passed)
      && (|rs| == 0 <==> out.value.final.None?)
      && (|rs| > 0 ==> out.value.final == Some(rs[|rs| - 1]))
      && ((|rs| > 0 && rs[|rs| - 1].passed) || |rs| == Attempts(regenLimit)))
    && (out.Failure? ==>
      exists rs: seq<GenerationResult> ::
        && ChainedBy(step, rs)
        && |rs| < Attempts(regenLimit)
        && (forall i :: 0 <= i < |rs| ==> !rs[i].passed)
        && step(|rs| + 1, PreviousOf(rs)) == Failure(out.error))
  }

  /** The retry loop of generateWithCritique over any way of making one attempt: run attempts
      1, 2, ... feeding each the previous scorecard, stop at the first that passes, and give up
      when the budget is spent; an attempt that fails ends the loop with its fault. */
  method RetryLoop(attempt: (int, Option<Scorecard>) -> Result<GenerationResult, Fault>, regenLimit: real)
    returns (out: Result<LoopResult, Fault>)
    ensures LoopOutcome(attempt, regenLimit, out)
  {
    var results: seq<GenerationResult> := [];
    var previousScorecard: Option<Scorecard> := None;
    var iteration := 1;
    while iteration as real <= regenLimit
      invariant 1 <= iteration <= Attempts(regenLimit) + 1
      invariant |results| == iteration - 1
      invariant ChainedBy(attempt, results)
      invariant previousScorecard == PreviousOf(results)
      invariant forall i :: 0 <= i < |results| ==> !results[i].passed
      decreases Attempts(regenLimit) + 1 - iteration
    {
      var next := attempt(iteration, previousScorecard);
      if next.Failure? {
        FaultEndsLoop(attempt, regenLimit, results, next.error);
        return Failure(next.error);
      }
      var result := next.value;
      ChainedExtend(attempt, results, result);
      if result.passed {
        PassEndsLoop(attempt, regenLimit, results, result);
        return Success(LoopResult(results + [result], Some(result)));
      }
      results := results + [result];
      previousScorecard := result.scorecard;
      iteration := iteration + 1;
    }
    BudgetEndsLoop(attempt, regenLimit, results);
    return Success(LoopResult(results, if |results| == 0 then None else Some(results[|results| - 1])));
  }

  /** A chain of failed attempts within the budget, followed by an attempt that faults, is an
      outcome of the loop. */
  lemma FaultEndsLoop(
    step: (int, Option<Scorecard>) -> Result<GenerationResult, Fault>, regenLimit: real,
    rs: seq<GenerationResult>, e: Fault)
    requires ChainedBy(step, rs) && |rs| < Attempts(regenLimit)
    requires forall i :: 0 <= i < |rs| ==> !rs[i].passed
    requires step(|rs| + 1, PreviousOf(rs)) == Failure(e)
    ensures LoopOutcome(step, regenLimit, Failure(e))
  {
  }

  /** A chain of failed attempts within the budget, followed by one that passes, is an outcome of
      the loop, with that attempt as the final result. */
  lemma PassEndsLoop(
    step: (int, Option<Scorecard>) -> Result<GenerationResult, Fault>, regenLimit: real,
    rs: seq<GenerationResult>, r: GenerationResult)
    requires ChainedBy(step, rs + [r]) && |rs| < Attempts(regenLimit)
    requires forall i :: 0 <= i < |rs| ==> !rs[i].passed
    requires r.passed
    ensures LoopOutcome(step, regenLimit, Success(LoopResult(rs + [r], Some(r))))
  {
    var rs' := rs + [r];
    assert rs'[|rs'| - 1] == r;
    assert forall i :: 0 <= i < |rs'| - 1 ==> rs'[i] == rs[i];
  }

  /** A chain of failed attempts that spends the whole budget is an outcome of the loop. */
  lemma BudgetEndsLoop(
    step: (int, Option<Scorecard>) -> Result<GenerationResult, Fault>, regenLimit: real,
    rs: seq<GenerationResult>)
    requires ChainedBy(step, rs) && |rs| == Attempts(regenLimit)
    requires forall i :: 0 <= i < |rs| ==> !rs[i].passed
    ensures LoopOutcome(step, regenLimit, Success(LoopResult(rs, if |rs| == 0 then None else Some(rs[|rs| - 1]))))
  {
  }

  /** generateWithCritique: the retry loop over this module's attempt, with the effective budget.
      The critique context is built once and shared by every attempt (see CritiqueBase). */
  method GenerateWithCritique(p: Providers, o: GenerateOptions) returns (out: Result<LoopResult, Fault>)
    ensures LoopOutcome(Step(p, o), EffectiveRegenLimit(o), out)
  {
    out := RetryLoop(Step(p, o), EffectiveRegenLimit(o));
  }

  /** generateOnly: one generation as attempt 1 with no critique; it fails exactly when that
      generation does. */
  function GenerateOnly(p: Providers, o: GenerateOptions): (r: Result<GenerationResult, Fault>)
    ensures r.Success? ==> r.value.iteration == 1 && !r.value.passed && r.value.scorecard.None? && r.value.jobId.None?
    ensures var video := GenerateVideo(p, AttemptContext(o, 1, None));
      && (r.Success? <==> video.Success?)
      && (r.Success? ==> r.value.videoPath == video.value)
      && (r.Failure? ==> r.error == video.error)
  {
    var video :- GenerateVideo(p, AttemptContext(o, 1, None));
    Success(GenerationResult(1, video, None, None, false))
  }

  // ---------------------------------------------------------------------
  // Properties of the loop

  /** Two replays of the loop against the same provider outcomes agree on the attempts they share:
      the results are determined by those outcomes. */
  lemma ChainsAgree(p: Providers, o: GenerateOptions, a: seq<GenerationResult>, b: seq<GenerationResult>)
    requires Chained(p, o, a) && Chained(p, o, b) && |a| <= |b|
    ensures a == b[..|a|]
  {
    ChainsAgreeUpTo(Step(p, o), a, b, |a|);
  }

  lemma {:induction false} ChainsAgreeUpTo(
    step: (int, Option<Scorecard>) -> Result<GenerationResult, Fault>, a: seq<GenerationResult>, b: seq<GenerationResult>, n: nat)
    requires ChainedBy(step, a) && ChainedBy(step, b) && n <= |a| <= |b|
    ensures a[..n] == b[..n]
    decreases n
  {
    if n > 0 {
      ChainsAgreeUpTo(step, a, b, n - 1);
      assert step(n, PreviousOf(a[..n - 1])) == Success(a[n - 1]);
      assert step(n, PreviousOf(b[..n - 1])) == Success(b[n - 1]);
      assert a[..n] == a[..n - 1] + [a[n - 1]];
      assert b[..n] == b[..n - 1] + [b[n - 1]];
    }
  }

  /** Attempts are numbered 1, 2, ... in order, each carries its own scorecard, and it passed
      exactly when that scorecard passed. */
  lemma ChainedNumbering(p: Providers, o: GenerateOptions, rs: seq<GenerationResult>)
    requires Chained(p, o, rs)
    ensures forall i :: 0 <= i < |rs| ==>
      && rs[i].iteration == i + 1
      && rs[i].scorecard.Some? && rs[i].scorecard.value.iterations == i + 1
      && (rs[i].passed <==> rs[i].scorecard.value.overallStatus == Pass)
  {
    forall i | 0 <= i < |rs|
      ensures rs[i].iteration == i + 1
      ensures rs[i].scorecard.Some? && rs[i].scorecard.value.iterations == i + 1
      ensures rs[i].passed <==> rs[i].scorecard.value.overallStatus == Pass
    {
      assert Step(p, o)(i + 1, PreviousOf(rs[..i])) == Success(rs[i]);
      assert Attempt(p, o, i + 1, PreviousOf(rs[..i])) == Success(rs[i]);
    }
  }

  /** Attempt 1 is told it is the first attempt; every later attempt's prompt lists each failing
      score of the attempt before it to be fixed. */
  lemma FeedbackCarriedForward(p: Providers, o: GenerateOptions, rs: seq<GenerationResult>, i: nat)
    requires Chained(p, o, rs) && i < |rs|
    ensures i == 0 ==> Contains(BuildVeoPrompt(AttemptContext(o, 1, PreviousOf(rs[..0]))), FirstAttemptNote)
    ensures i > 0 ==> rs[i - 1].scorecard.Some? && PreviousOf(rs[..i]) == rs[i - 1].scorecard
    ensures i > 0 ==>
      forall s :: s in WithStatus(rs[i - 1].scorecard.value.scores, Fail) ==>
        Contains(BuildVeoPrompt(AttemptContext(o, i + 1, PreviousOf(rs[..i]))), Bullet(s))
  {
    if i > 0 {
      assert Step(p, o)(i, PreviousOf(rs[..i - 1])) == Success(rs[i - 1]);
      assert rs[..i][i - 1] == rs[i - 1];
    }
    PromptCarriesFeedback(AttemptContext(o, i + 1, PreviousOf(rs[..i])));
  }

  /** An attempt passes exactly when every specialist's score reaches the effective threshold,
      whatever the specialists claimed. */
  lemma AttemptPassIff(p: Providers, o: GenerateOptions, n: int, previous: Option<Scorecard>)
    requires Attempt(p, o, n, previous).Success?
    ensures var r := Attempt(p, o, n, previous).value;
      r.passed <==> forall i :: 0 <= i < |r.scorecard.value.scores| ==>
        r.scorecard.value.scores[i].score >= EffectiveThreshold(o)
  {
    var video := GenerateVideo(p, AttemptContext(o, n, previous)).value;
    CritiquePassIff(p, CritiqueBase(o), video, n);
  }

  /** Every specialist prompt of a critique carries the brand name, the audience, the call to
      action and the effective threshold, the same for every iteration. */
  lemma AgentPromptsCarryContext(p: Providers, o: GenerateOptions, frames: seq<string>, d: Dimension)
    ensures var prompt := AgentPrompt(p, CritiqueBase(o).(assetFrames := frames), d);
      && Contains(prompt, "Brand: " + o.brand.name)
      && Contains(prompt, "Target audience: " + o.campaign.audience)
      && Contains(prompt, "Call to action: " + o.campaign.callToAction)
      && Contains(prompt, ThresholdIntro + p.showNumber(EffectiveThreshold(o)))
  {
    var ctx := CritiqueBase(o).(assetFrames := frames);
    PromptStatesBrandContext(ctx, AgentPromptConfig(p.instruction(d), d), p.showNumber);
  }

  /** generateOnly makes the same generation request as attempt 1 of the loop: both send the
      first-attempt prompt, which labels the concept as initial and says there is no earlier
      feedback, and each keeps the video the model returned for it. */
  lemma GenerateOnlyMatchesFirstAttempt(p: Providers, o: GenerateOptions)
    ensures var prompt := BuildVeoPrompt(AttemptContext(o, 1, None));
      && (GenerateOnly(p, o).Success? ==> GenerateOnly(p, o).value.videoPath == p.veo(prompt).video.value)
      && (Attempt(p, o, 1, None).Success? ==> Attempt(p, o, 1, None).value.videoPath == p.veo(prompt).video.value)
    ensures Contains(BuildVeoPrompt(AttemptContext(o, 1, None)), FirstAttemptNote)
  {
    PromptCarriesFeedback(AttemptContext(o, 1, None));
  }
}
