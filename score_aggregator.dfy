/**
 * Validation of specialist-agent responses and their aggregation into one
 * scorecard (src/services/critique/scoreAggregator.ts).
 *
 * An agent's own pass/fail verdict is validated and then discarded: each
 * score's status is recomputed against the one run-level threshold, and the
 * scorecard passes exactly when every score does.
 */
module ScoreAggregator {
  import opened Wrappers
  import opened Json
  import opened ScorecardTypes

  /** A response that passed validation: the agent's name and its single-dimension score. */
  datatype AgentResponse = AgentResponse(agent: string, output: AgentScore)

  datatype AggregateOptions = AggregateOptions(assetUrl: string, iterations: int, threshold: real)

  /** Validation failed for the response at `index` (the first invalid one); no scorecard is built. */
  datatype AggregateError = InvalidResponse(index: nat)

  /** The property `key` of an object; None when absent or when `v` is not an object. */
  function Field(v: Value, key: string): Option<Value> {
    if v.Obj? && key in v.fields then Some(v.fields[key]) else None
  }

  predicate IsStringArray(v: Value) {
    v.Arr? && forall i :: 0 <= i < |v.items| ==> v.items[i].Str?
  }

  function Strings(items: seq<Value>): (r: seq<string>)
    requires forall i :: 0 <= i < |items| ==> items[i].Str?
    ensures |r| == |items| && forall i :: 0 <= i < |items| ==> items[i] == Str(r[i])
  {
    seq(|items|, i requires 0 <= i < |items| => items[i].s)
  }

  // ---------------------------------------------------------------------
  // The response schema, field by field (unknown properties are stripped)

  function DimensionOf(v: Value): Option<Dimension> {
    match Field(v, "dimension")
    case Some(Str(name)) => DimensionNamed(name)
    case _ => None
  }

  function ScoreOf(v: Value): Option<real> {
    match Field(v, "score")
    case Some(Num(x)) => if 0.0 <= x <= 1.0 then Some(x) else None
    case _ => None
  }

  function StatusOf(v: Value): Option<Status> {
    match Field(v, "status")
    case Some(Str(s)) => if s == "pass" then Some(Pass) else if s == "fail" then Some(Fail) else None
    case _ => None
  }

  /** `{ summary: string, citations?: string[] }`. */
  function ParseEvidence(v: Value): Option<Evidence> {
    match Field(v, "summary")
    case Some(Str(summary)) =>
      (match Field(v, "citations")
       case None => Some(Evidence(summary, None))
       case Some(c) => if IsStringArray(c) then Some(Evidence(summary, Some(Strings(c.items)))) else None)
    case _ => None
  }

  function EvidenceOf(v: Value): Option<Evidence> {
    match Field(v, "evidence")
    case Some(e) => ParseEvidence(e)
    case None => None
  }

  /** `metadata?: Record<string, unknown>`: absent, or an object. The outer None means invalid. */
  function MetadataOf(v: Value): Option<Option<map<string, Value>>> {
    match Field(v, "metadata")
    case None => Some(None)
    case Some(Obj(m)) => Some(Some(m))
    case Some(_) => None
  }

  /** The agent-score schema (scoreAggregator.ts:8-17). */
  function ParseAgentScore(v: Value): (r: Option<AgentScore>)
    ensures r.Some? ==> v.Obj?
    ensures r.Some? ==> Field(v, "dimension") == Some(Str(DimensionName(r.value.dimension)))
    ensures r.Some? ==> Field(v, "score") == Some(Num(r.value.score)) && 0.0 <= r.value.score <= 1.0
    ensures r.Some? ==> Field(v, "status") == Some(Str(StatusName(r.value.status)))
    ensures r.Some? ==> Field(v, "evidence").Some?
                        && Field(Field(v, "evidence").value, "summary") == Some(Str(r.value.evidence.summary))
  {
    var dimension :- DimensionOf(v);
    var score :- ScoreOf(v);
    var status :- StatusOf(v);
    var evidence :- EvidenceOf(v);
    var metadata :- MetadataOf(v);
    Some(AgentScore(dimension, score, status, evidence, metadata))
  }

  /** The response schema `{ agent: string, output: AgentScore }` (scoreAggregator.ts:19-22). */
  function ParseAgentResponse(v: Value): (r: Option<AgentResponse>)
    ensures r.Some? ==> Field(v, "agent") == Some(Str(r.value.agent))
    ensures r.Some? ==> Field(v, "output").Some? && ParseAgentScore(Field(v, "output").value) == Some(r.value.output)
  {
    match (Field(v, "agent"), Field(v, "output"))
    case (Some(Str(agent)), Some(output)) =>
      (match ParseAgentScore(output)
       case Some(score) => Some(AgentResponse(agent, score))
       case None => None)
    case _ => None
  }

  // ---------------------------------------------------------------------
  // The JSON an agent is asked to return, for the round trip

  function EncodeEvidence(e: Evidence): Value {
    var base := map["summary" := Str(e.summary)];
    match e.citations
    case None => Obj(base)
    case Some(cs) => Obj(base["citations" := Arr(seq(|cs|, i requires 0 <= i < |cs| => Str(cs[i])))])
  }

  function EncodeAgentScore(s: AgentScore): Value {
    var base := map[
      "dimension" := Str(DimensionName(s.dimension)),
      "score" := Num(s.score),
      "status" := Str(StatusName(s.status)),
      "evidence" := EncodeEvidence(s.evidence)];
    match s.metadata
    case None => Obj(base)
    case Some(m) => Obj(base["metadata" := Obj(m)])
  }

  function EncodeAgentResponse(r: AgentResponse): Value {
    Obj(map["agent" := Str(r.agent), "output" := EncodeAgentScore(r.output)])
  }

  /** Evidence written out as JSON reads back unchanged. */
  lemma ParseEncodedEvidence(e: Evidence)
    ensures ParseEvidence(EncodeEvidence(e)) == Some(e)
  {
    var v := EncodeEvidence(e);
    match e.citations {
      case None =>
      case Some(cs) =>
        assert Field(v, "citations").value.items == seq(|cs|, i requires 0 <= i < |cs| => Str(cs[i]));
        assert Strings(Field(v, "citations").value.items) == cs;
    }
  }

  /** A score in [0, 1], written out as JSON, is accepted and reads back unchanged. */
  lemma ParseEncodedScore(s: AgentScore)
    requires 0.0 <= s.score <= 1.0
    ensures ParseAgentScore(EncodeAgentScore(s)) == Some(s)
  {
    var v := EncodeAgentScore(s);
    assert DimensionOf(v) == Some(s.dimension);
    assert StatusOf(v) == Some(s.status);
    ParseEncodedEvidence(s.evidence);
    assert EvidenceOf(v) == Some(s.evidence);
  }

  /** Every well-formed response, written out as JSON, is accepted and read back unchanged. */
  lemma ParseEncodedResponse(r: AgentResponse)
    requires 0.0 <= r.output.score <= 1.0
    ensures ParseAgentResponse(EncodeAgentResponse(r)) == Some(r)
  {
    ParseEncodedScore(r.output);
  }

  // ---------------------------------------------------------------------
  // Aggregation

  /** `responses.map(parse)`: every response parsed, or the index of the first that fails. */
  function ParseAll(vs: seq<Value>): (r: Result<seq<AgentResponse>, AggregateError>)
    ensures r.Success? ==> |r.value| == |vs|
    ensures r.Success? ==> forall i :: 0 <= i < |vs| ==> ParseAgentResponse(vs[i]) == Some(r.value[i])
    ensures r.Failure? ==> r.error.index < |vs| && ParseAgentResponse(vs[r.error.index]).None?
    ensures r.Failure? ==> forall i :: 0 <= i < r.error.index ==> ParseAgentResponse(vs[i]).Some?
    decreases |vs|
  {
    if |vs| == 0 then Success([])
    else
      match ParseAgentResponse(vs[0])
      case None => Failure(InvalidResponse(0))
      case Some(first) =>
        match ParseAll(vs[1..])
        case Success(rest) => Success([first] + rest)
        case Failure(InvalidResponse(i)) => Failure(InvalidResponse(i + 1))
  }

  /** One score with its status recomputed against the threshold and the agent recorded in its metadata. */
  function Reconcile(response: AgentResponse, threshold: real): AgentScore {
    var output := response.output;
    output.(
      status := if output.score >= threshold then Pass else Fail,
      metadata := Some(output.metadata.GetOr(map[])["agent" := Str(response.agent)]))
  }

  function ReconcileAll(parsed: seq<AgentResponse>, threshold: real): (r: seq<AgentScore>)
    ensures |r| == |parsed| && forall i :: 0 <= i < |parsed| ==> r[i] == Reconcile(parsed[i], threshold)
  {
    seq(|parsed|, i requires 0 <= i < |parsed| => Reconcile(parsed[i], threshold))
  }

  predicate AllPass(scores: seq<AgentScore>) {
    forall i :: 0 <= i < |scores| ==> scores[i].status == Pass
  }

  /** aggregateScores (scoreAggregator.ts:32-58); `createdAt` is the clock reading. */
  function AggregateScores(responses: seq<Value>, options: AggregateOptions, createdAt: string)
    : (r: Result<Scorecard, AggregateError>)
    ensures r.Failure? <==> exists i :: 0 <= i < |responses| && ParseAgentResponse(responses[i]).None?
    ensures r.Failure? ==> var k := r.error.index;
      k < |responses| && ParseAgentResponse(responses[k]).None?
      && forall i :: 0 <= i < k ==> ParseAgentResponse(responses[i]).Some?
    ensures r.Success? ==>
      && r.value.assetUrl == options.assetUrl
      && r.value.iterations == options.iterations
      && r.value.createdAt == createdAt
      && |r.value.scores| == |responses|
    ensures r.Success? ==> forall i :: 0 <= i < |responses| ==>
      var input := ParseAgentResponse(responses[i]).value;
      var s := r.value.scores[i];
      && s.dimension == input.output.dimension
      && s.score == input.output.score
      && s.evidence == input.output.evidence
      && (s.status == Pass <==> input.output.score >= options.threshold)
    ensures r.Success? ==> forall i :: 0 <= i < |responses| ==>
      var input := ParseAgentResponse(responses[i]).value;
      var before := input.output.metadata.GetOr(map[]);
      var m := r.value.scores[i].metadata;
      && m.Some? && "agent" in m.value && m.value["agent"] == Str(input.agent)
      && (forall k :: k != "agent" ==> (k in m.value <==> k in before))
      && (forall k :: k != "agent" && k in before ==> m.value[k] == before[k])
    ensures r.Success? ==>
      (r.value.overallStatus == Pass <==> forall i :: 0 <= i < |r.value.scores| ==> r.value.scores[i].status == Pass)
  {
    var parsed :- ParseAll(responses);
    var scores := ReconcileAll(parsed, options.threshold);
    Success(Scorecard(options.assetUrl, options.iterations, scores, if AllPass(scores) then Pass else Fail, createdAt))
  }

  /** The overall verdict, read off the scorecard's own scores: pass iff each reaches the threshold. */
  lemma ScoresPassIff(responses: seq<Value>, options: AggregateOptions, createdAt: string)
    requires AggregateScores(responses, options, createdAt).Success?
    ensures var card := AggregateScores(responses, options, createdAt).value;
      card.overallStatus == Pass <==> forall i :: 0 <= i < |card.scores| ==> card.scores[i].score >= options.threshold
  {
    var card := AggregateScores(responses, options, createdAt).value;
    if card.overallStatus != Pass {
      var i :| 0 <= i < |card.scores| && card.scores[i].status != Pass;
    }
  }

  /** When every response names the same agent, every score's metadata records that agent. */
  lemma AggregateNamesAgent(responses: seq<Value>, options: AggregateOptions, createdAt: string, agent: string)
    requires AggregateScores(responses, options, createdAt).Success?
    requires forall i :: 0 <= i < |responses| ==> Field(responses[i], "agent") == Some(Str(agent))
    ensures var card := AggregateScores(responses, options, createdAt).value;
      forall i :: 0 <= i < |card.scores| ==>
        card.scores[i].metadata.Some? && "agent" in card.scores[i].metadata.value
        && card.scores[i].metadata.value["agent"] == Str(agent)
  {
  }

  /** A successful aggregation passes exactly when every validated score reaches the threshold. */
  lemma PassIffAllMeetThreshold(responses: seq<Value>, options: AggregateOptions, createdAt: string)
    requires AggregateScores(responses, options, createdAt).Success?
    ensures var card := AggregateScores(responses, options, createdAt).value;
      card.overallStatus == Pass <==>
        forall i :: 0 <= i < |responses| ==> ParseAgentResponse(responses[i]).value.output.score >= options.threshold
  {
    var card := AggregateScores(responses, options, createdAt).value;
    if card.overallStatus != Pass {
      var i :| 0 <= i < |card.scores| && card.scores[i].status != Pass;
      assert ParseAgentResponse(responses[i]).value.output.score < options.threshold;
    }
  }

  /** The same response with the agent's own `status` claim replaced by `claim`. */
  function WithClaim(v: Value, claim: Status): Value
    requires Field(v, "output").Some? && Field(v, "output").value.Obj?
  {
    var output := v.fields["output"];
    Obj(v.fields["output" := Obj(output.fields["status" := Str(StatusName(claim))])])
  }

  /** Replacing the claimed status leaves the response valid, with only its status changed. */
  lemma ClaimParsed(v: Value, claim: Status)
    requires ParseAgentResponse(v).Some?
    ensures Field(v, "output").value.Obj?
    ensures var p := ParseAgentResponse(v).value;
      ParseAgentResponse(WithClaim(v, claim)) == Some(p.(output := p.output.(status := claim)))
  {
    var w := WithClaim(v, claim);
    var p := ParseAgentResponse(v).value;
    var out' := Field(w, "output").value;
    assert StatusOf(out') == Some(claim);
    assert ParseAgentScore(out') == Some(p.output.(status := claim));
  }

  /** Replacing one valid response by another valid one changes only that response's parse. */
  lemma ParseAllReplace(vs: seq<Value>, k: nat, w: Value)
    requires k < |vs| && ParseAgentResponse(vs[k]).Some? && ParseAgentResponse(w).Some?
    ensures ParseAll(vs[k := w]).Success? <==> ParseAll(vs).Success?
    ensures ParseAll(vs[k := w]).Failure? ==> ParseAll(vs[k := w]).error == ParseAll(vs).error
    ensures ParseAll(vs[k := w]).Success? ==>
      ParseAll(vs[k := w]).value == ParseAll(vs).value[k := ParseAgentResponse(w).value]
  {
    var ws := vs[k := w];
    assert forall i :: 0 <= i < |vs| ==> (ParseAgentResponse(ws[i]).Some? <==> ParseAgentResponse(vs[i]).Some?);
    var a := ParseAll(ws);
    var b := ParseAll(vs);
    if a.Failure? {
      assert ParseAgentResponse(vs[a.error.index]).None?;
      assert b.Failure?;
      assert ParseAgentResponse(ws[b.error.index]).None?;
      assert a.error.index == b.error.index;
    } else if b.Success? {
      assert |a.value| == |b.value[k := ParseAgentResponse(w).value]|;
    }
  }

  /** What an agent claims as its status changes nothing in the scorecard. */
  lemma ClaimIgnored(responses: seq<Value>, k: nat, claim: Status, options: AggregateOptions, createdAt: string)
    requires k < |responses| && ParseAgentResponse(responses[k]).Some?
    ensures Field(responses[k], "output").value.Obj?
    ensures AggregateScores(responses[k := WithClaim(responses[k], claim)], options, createdAt)
         == AggregateScores(responses, options, createdAt)
  {
    var w := WithClaim(responses[k], claim);
    ClaimParsed(responses[k], claim);
    ParseAllReplace(responses, k, w);
    var pa := ParseAll(responses[k := w]);
    var pb := ParseAll(responses);
    if pa.Success? {
      assert ReconcileAll(pa.value, options.threshold) == ReconcileAll(pb.value, options.threshold);
    }
  }
}
