/**
 * The older `BAMIPPipeline` (src/core/bamip_pipeline.py): it scores a
 * response with the older rubric on the 0-10 scale, reads the maximum
 * stereotype similarity, assesses the risk, lets the mitigator pick its own
 * strategy, and then builds an improved response and a list of
 * recommendations. It keeps no state of its own beyond its three
 * components, so it is modelled as functions of their loaded data.
 */
module LegacyPipeline {
  import opened Text
  import opened Mitigation
  import opened PipelineCommon
  import RubricCommon
  import LegacyRubricScoring
  import LegacyBiasMitigator

  // ---------------------------------------------------------------------
  // Risk
  // ---------------------------------------------------------------------

  /**
   * `_assess_risk` with the rubric tier low from 8.5 and medium from 6.0:
   * high when either signal is high, low only when both are low.
   */
  function Risk(overall: real, maxSimilarity: real): (r: RiskLevel)
    ensures r == High <==> overall < 6.0 || maxSimilarity >= 0.8
    ensures r == Low <==> overall >= 8.5 && maxSimilarity < 0.5
    ensures r == Medium <==> 6.0 <= overall && maxSimilarity < 0.8 && (overall < 8.5 || 0.5 <= maxSimilarity)
  {
    AssessRisk(overall, maxSimilarity, 8.5, 6.0)
  }

  // ---------------------------------------------------------------------
  // _generate_improved_response
  // ---------------------------------------------------------------------

  /** The note appended to a low-risk response. */
  const ReviewedNote: string :=
    "\n\n*Note: This response has been reviewed for bias and found to be generally balanced.*"

  /** The note appended to a medium-risk response mitigated by instructional prompting. */
  const ImprovedNote: string :=
    "\n\n*This response has been improved to reduce potential bias and provide more balanced information.*"

  /** The disclaimer appended to every high-risk response. */
  const BiasAlert: string :=
    "\n\n⚠️ **Bias Alert**: The original response contained significant bias. "
    + "This version has been modified to provide more accurate and balanced information. "
    + "Please verify facts from reliable sources."

  /**
   * `_generate_improved_response`: a low-risk response is kept and the
   * reviewed note follows it; otherwise the mitigated text leads, followed
   * by nothing, the improvement note (medium risk, instructional prompting)
   * or the bias alert (high risk).
   */
  function ImprovedResponse(response: string, m: LegacyBiasMitigator.MitigationResult, risk: RiskLevel)
    : (r: string)
    ensures risk == Low ==> response < r && r[|response|..] == ReviewedNote
    ensures risk != Low ==> m.mitigatedText <= r
    ensures risk == Medium ==> (r == m.mitigatedText <==> m.strategyUsed != InstructionalPrompting)
    ensures risk == Medium && m.strategyUsed == InstructionalPrompting ==> r[|m.mitigatedText|..] == ImprovedNote
    ensures risk == High ==> r[|m.mitigatedText|..] == BiasAlert
  {
    match risk
    case Low => response + ReviewedNote
    case Medium =>
      if m.strategyUsed == InstructionalPrompting then m.mitigatedText + ImprovedNote else m.mitigatedText
    case High => m.mitigatedText + BiasAlert
  }

  // ---------------------------------------------------------------------
  // _generate_recommendations
  // ---------------------------------------------------------------------

  /** The recommendations `_generate_recommendations` can append. */
  datatype Advice =
    // risk tier
    | RequiresRevision | UseBiasFreePrompts | VerifyClaims
    | ReviewBeforePublication | AdditionalFactChecking | ApplyMitigation
    | GenerallyBalanced | ContinuePrompts
    // strategy used
    | AddFactualContext | IncludeSources
    | ReplaceEmotional | ObjectiveLanguage
    | AvoidGeneralizations | EvidenceBased
    | DiversePerspectives | CounterExamples
    // scores and similarity
    | FactCheckGroups | AvoidStereotypes | ReviewAssociations

  function AdviceText(a: Advice): string
  {
    match a
    case RequiresRevision => "🚨 HIGH RISK: This content requires significant revision before use"
    case UseBiasFreePrompts => "📚 Use suggested bias-free prompts for future queries"
    case VerifyClaims => "🔍 Verify all factual claims from authoritative sources"
    case ReviewBeforePublication => "⚠️ MEDIUM RISK: Review content before publication"
    case AdditionalFactChecking => "📝 Consider additional fact-checking"
    case ApplyMitigation => "🎯 Apply suggested mitigation strategies"
    case GenerallyBalanced => "✅ LOW RISK: Content is generally balanced"
    case ContinuePrompts => "📖 Continue using similar prompts for this topic"
    case AddFactualContext => "📚 Add more factual context about the topic"
    case IncludeSources => "🔍 Include verified sources and references"
    case ReplaceEmotional => "🗣️ Replace emotional language with neutral terms"
    case ObjectiveLanguage => "⚖️ Use balanced, objective language"
    case AvoidGeneralizations => "🔄 Avoid generalizations about groups"
    case EvidenceBased => "📊 Use specific, evidence-based statements"
    case DiversePerspectives => "🔄 Include diverse perspectives"
    case CounterExamples => "📖 Add counter-examples to challenge stereotypes"
    case FactCheckGroups => "📖 Fact-check all claims about religious/cultural groups"
    case AvoidStereotypes => "⚖️ Avoid stereotypes and generalizations"
    case ReviewAssociations => "🔍 Review for potential stereotype associations"
  }

  function RiskAdvice(risk: RiskLevel): seq<Advice>
  {
    match risk
    case High => [RequiresRevision, UseBiasFreePrompts, VerifyClaims]
    case Medium => [ReviewBeforePublication, AdditionalFactChecking, ApplyMitigation]
    case Low => [GenerallyBalanced, ContinuePrompts]
  }

  function StrategyAdvice(strategy: Strategy): seq<Advice>
  {
    match strategy
    case RetrievalGrounding => [AddFactualContext, IncludeSources]
    case NeutralLanguage => [ReplaceEmotional, ObjectiveLanguage]
    case ContextualReframing => [AvoidGeneralizations, EvidenceBased]
    case CounterNarrative => [DiversePerspectives, CounterExamples]
    case InstructionalPrompting => []
  }

  function ScoreAdvice(accuracy: real, fairness: real, maxSimilarity: real): seq<Advice>
  {
    (if accuracy < 5.0 then [FactCheckGroups] else [])
    + (if fairness < 5.0 then [AvoidStereotypes] else [])
    + (if maxSimilarity > 0.5 then [ReviewAssociations] else [])
  }

  /**
   * `_generate_recommendations`: the risk tier's messages, the strategy's
   * pair, then one message per low score and one for a similarity above
   * 0.5, in that order and never cut short.
   */
  function Recommendations(risk: RiskLevel, strategy: Strategy, accuracy: real, fairness: real, maxSimilarity: real)
    : (r: seq<Advice>)
    ensures 2 <= |r| <= 8
    ensures |r| == (if risk == Low then 2 else 3) + (if strategy == InstructionalPrompting then 0 else 2)
                   + (if accuracy < 5.0 then 1 else 0) + (if fairness < 5.0 then 1 else 0)
                   + (if maxSimilarity > 0.5 then 1 else 0)
    ensures r[0] in {RequiresRevision, ReviewBeforePublication, GenerallyBalanced}
  {
    RiskAdvice(risk) + StrategyAdvice(strategy) + ScoreAdvice(accuracy, fairness, maxSimilarity)
  }

  /** When the source appends a risk-tier message: for its own tier. */
  predicate RiskWarranted(a: Advice, risk: RiskLevel)
  {
    match a
    case RequiresRevision | UseBiasFreePrompts | VerifyClaims => risk == High
    case ReviewBeforePublication | AdditionalFactChecking | ApplyMitigation => risk == Medium
    case GenerallyBalanced | ContinuePrompts => risk == Low
    case _ => false
  }

  /** When the source appends a strategy message: for its own strategy. */
  predicate StrategyWarranted(a: Advice, strategy: Strategy)
  {
    match a
    case AddFactualContext | IncludeSources => strategy == RetrievalGrounding
    case ReplaceEmotional | ObjectiveLanguage => strategy == NeutralLanguage
    case AvoidGeneralizations | EvidenceBased => strategy == ContextualReframing
    case DiversePerspectives | CounterExamples => strategy == CounterNarrative
    case _ => false
  }

  /** When the source appends a score or similarity message. */
  predicate ScoreWarranted(a: Advice, accuracy: real, fairness: real, maxSimilarity: real)
  {
    match a
    case FactCheckGroups => accuracy < 5.0
    case AvoidStereotypes => fairness < 5.0
    case ReviewAssociations => maxSimilarity > 0.5
    case _ => false
  }

  /** When the source appends each recommendation. */
  predicate Warranted(a: Advice, risk: RiskLevel, strategy: Strategy, accuracy: real, fairness: real,
                      maxSimilarity: real)
  {
    RiskWarranted(a, risk) || StrategyWarranted(a, strategy) || ScoreWarranted(a, accuracy, fairness, maxSimilarity)
  }

  lemma InRiskAdvice(a: Advice, risk: RiskLevel)
    ensures a in RiskAdvice(risk) <==> RiskWarranted(a, risk)
  {
  }

  lemma InStrategyAdvice(a: Advice, strategy: Strategy)
    ensures a in StrategyAdvice(strategy) <==> StrategyWarranted(a, strategy)
  {
  }

  lemma InScoreAdvice(a: Advice, accuracy: real, fairness: real, maxSimilarity: real)
    ensures a in ScoreAdvice(accuracy, fairness, maxSimilarity) <==> ScoreWarranted(a, accuracy, fairness, maxSimilarity)
  {
  }

  /** A recommendation appears exactly when its condition holds. */
  lemma RecommendationsExactly(risk: RiskLevel, strategy: Strategy, accuracy: real, fairness: real,
                               maxSimilarity: real, a: Advice)
    ensures a in Recommendations(risk, strategy, accuracy, fairness, maxSimilarity)
            <==> Warranted(a, risk, strategy, accuracy, fairness, maxSimilarity)
  {
    var r, s, t := RiskAdvice(risk), StrategyAdvice(strategy), ScoreAdvice(accuracy, fairness, maxSimilarity);
    InRiskAdvice(a, risk);
    InStrategyAdvice(a, strategy);
    InScoreAdvice(a, accuracy, fairness, maxSimilarity);
    assert a in r + s + t <==> a in r || a in s || a in t;
  }

  predicate NoRepeats(r: seq<Advice>)
  {
    forall i, j :: 0 <= i < j < |r| ==> r[i] != r[j]
  }

  /** Two lists without repeats and without a common entry join into one without repeats. */
  lemma JoinNoRepeats(u: seq<Advice>, v: seq<Advice>)
    requires NoRepeats(u) && NoRepeats(v)
    requires forall x :: x in u ==> x !in v
    ensures NoRepeats(u + v)
  {
    forall i, j | 0 <= i < j < |u + v|
      ensures (u + v)[i] != (u + v)[j]
    {
      if i < |u| <= j {
        assert (u + v)[i] in u && (u + v)[j] == v[j - |u|];
      }
    }
  }

  /** No recommendation is appended twice. */
  lemma RecommendationsDistinct(risk: RiskLevel, strategy: Strategy, accuracy: real, fairness: real,
                                maxSimilarity: real)
    ensures NoRepeats(Recommendations(risk, strategy, accuracy, fairness, maxSimilarity))
  {
    var r, s, t := RiskAdvice(risk), StrategyAdvice(strategy), ScoreAdvice(accuracy, fairness, maxSimilarity);
    forall x | x in r
      ensures x !in s
    {
      InRiskAdvice(x, risk);
      InStrategyAdvice(x, strategy);
    }
    JoinNoRepeats(r, s);
    forall x | x in r + s
      ensures x !in t
    {
      InRiskAdvice(x, risk);
      InStrategyAdvice(x, strategy);
      InScoreAdvice(x, accuracy, fairness, maxSimilarity);
    }
    JoinNoRepeats(r + s, t);
  }

  // ---------------------------------------------------------------------
  // process_prompt
  // ---------------------------------------------------------------------

  /**
   * The foreign parts the pipeline reaches: the older rubric's pattern
   * oracle and `re.findall`, the mitigator's selection patterns and the
   * applicability patterns.
   */
  datatype Engines = Engines(
    rubric: Regex<LegacyRubricScoring.LegacyPattern>,
    finder: RubricCommon.Finder<LegacyRubricScoring.LegacyPattern>,
    selection: Regex<LegacyBiasMitigator.SelectionPattern>,
    applicability: Regex<ApplicabilityPattern>)

  /**
   * `BAMIPResult`; of the similarity result only its maximum similarity is
   * read, so that is what the model keeps.
   */
  datatype BAMIPResult = BAMIPResult(
    originalPrompt: string,
    aiResponse: string,
    biasDetection: LegacyRubricScoring.BiasAnalysisResult,
    maxSimilarity: real,
    riskLevel: RiskLevel,
    mitigation: LegacyBiasMitigator.MitigationResult,
    improvedResponse: string,
    recommendations: seq<Advice>)

  /**
   * What `process_prompt` returns: the response scored and assessed, the
   * mitigator left to choose its strategy, and the improved response and
   * recommendations derived from the risk and that strategy.
   */
  function Processed(e: Engines, cfg: LegacyBiasMitigator.Config, prompt: string, response: string,
                     maxSimilarity: real): (r: BAMIPResult)
    requires LegacyBiasMitigator.ValidConfig(cfg)
    ensures r.originalPrompt == prompt && r.aiResponse == response
    ensures 0.0 <= r.biasDetection.overallScore <= 10.0
    ensures r.riskLevel == Risk(r.biasDetection.overallScore, maxSimilarity)
    ensures r.mitigation.strategyUsed == LegacyBiasMitigator.SelectBestStrategy(e.selection, response)
    ensures r.mitigation.originalText == response
    ensures r.biasDetection == LegacyRubricScoring.Analysis(e.rubric, e.finder, response)
    ensures r.mitigation == LegacyBiasMitigator.Mitigated(cfg, e.selection, response, None)
    ensures r.improvedResponse == ImprovedResponse(response, r.mitigation, r.riskLevel)
    ensures r.recommendations == Recommendations(r.riskLevel, r.mitigation.strategyUsed,
                                                 r.biasDetection.scores.accuracy,
                                                 r.biasDetection.scores.fairness, maxSimilarity)
  {
    var detection := LegacyRubricScoring.Analysis(e.rubric, e.finder, response);
    var risk := Risk(detection.overallScore, maxSimilarity);
    var mitigation := LegacyBiasMitigator.Mitigated(cfg, e.selection, response, None);
    BAMIPResult(prompt, response, detection, maxSimilarity, risk, mitigation,
                ImprovedResponse(response, mitigation, risk),
                Recommendations(risk, mitigation.strategyUsed, detection.scores.accuracy,
                                detection.scores.fairness, maxSimilarity))
  }

  /** `process_prompt`: score, assess, mitigate without a strategy, improve and recommend. */
  method ProcessPrompt(e: Engines, cfg: LegacyBiasMitigator.Config, prompt: string, response: string,
                       maxSimilarity: real) returns (result: BAMIPResult)
    requires LegacyBiasMitigator.ValidConfig(cfg)
    ensures result == Processed(e, cfg, prompt, response, maxSimilarity)
  {
    var detection := LegacyRubricScoring.ScoreText(e.rubric, e.finder, response);
    var risk := Risk(detection.overallScore, maxSimilarity);
    var mitigation := LegacyBiasMitigator.MitigateBias(cfg, e.selection, response, None);
    var improved := ImprovedResponse(response, mitigation, risk);
    var recommendations := Recommendations(risk, mitigation.strategyUsed, detection.scores.accuracy,
                                           detection.scores.fairness, maxSimilarity);
    result := BAMIPResult(prompt, response, detection, maxSimilarity, risk, mitigation, improved, recommendations);
  }

  /**
   * A medium-risk response on which no selection pattern matches is
   * mitigated by instructional prompting, which leaves it unchanged, so the
   * improved response is the original followed by the improvement note.
   */
  lemma MediumUnmatchedKeepsResponse(e: Engines, cfg: LegacyBiasMitigator.Config, prompt: string,
                                     response: string, maxSimilarity: real)
    requires LegacyBiasMitigator.ValidConfig(cfg)
    requires !AnyMatch(e.selection, LegacyBiasMitigator.SelectionPatterns(), LowerStr(response))
    requires Processed(e, cfg, prompt, response, maxSimilarity).riskLevel == Medium
    ensures var r := Processed(e, cfg, prompt, response, maxSimilarity);
      r.improvedResponse == response + ImprovedNote
  {
  }

  /**
   * A response the rubric scores at 8.5 or more overall, with accuracy and
   * fairness at 5 or more, that matches no selection pattern and has a
   * similarity below 0.5 is low risk: it comes back with the reviewed note
   * and with only the two low-risk recommendations. A response on which no
   * rubric pattern matches scores 10 throughout
   * (`LegacyRubricScoring.NoMatchAnalysis`), so it is such a response.
   */
  lemma QuietResponseIsLowRisk(e: Engines, cfg: LegacyBiasMitigator.Config, prompt: string,
                               response: string, maxSimilarity: real)
    requires LegacyBiasMitigator.ValidConfig(cfg)
    requires var d := LegacyRubricScoring.Analysis(e.rubric, e.finder, response);
      d.overallScore >= 8.5 && d.scores.accuracy >= 5.0 && d.scores.fairness >= 5.0
    requires !AnyMatch(e.selection, LegacyBiasMitigator.SelectionPatterns(), LowerStr(response))
    requires maxSimilarity < 0.5
    ensures Processed(e, cfg, prompt, response, maxSimilarity).riskLevel == Low
    ensures Processed(e, cfg, prompt, response, maxSimilarity).improvedResponse == response + ReviewedNote
    ensures Processed(e, cfg, prompt, response, maxSimilarity).recommendations == [GenerallyBalanced, ContinuePrompts]
  {
    var r := Processed(e, cfg, prompt, response, maxSimilarity);
    LowRiskQuietAdvice(r.biasDetection.scores.accuracy, r.biasDetection.scores.fairness, maxSimilarity);
  }

  /** Low risk, instructional prompting and no weak signal leave only the two low-risk messages. */
  lemma LowRiskQuietAdvice(accuracy: real, fairness: real, maxSimilarity: real)
    requires accuracy >= 5.0 && fairness >= 5.0 && maxSimilarity <= 0.5
    ensures Recommendations(Low, InstructionalPrompting, accuracy, fairness, maxSimilarity)
            == [GenerallyBalanced, ContinuePrompts]
  {
  }

  // ---------------------------------------------------------------------
  // apply_multiple_strategies
  // ---------------------------------------------------------------------

  /** The strategies visited in order, each applied only when it is applicable to the current text. */
  function Layered(cfg: LegacyBiasMitigator.Config, rx: Regex<ApplicabilityPattern>, text: string,
                   strategies: seq<Strategy>): string
    requires LegacyBiasMitigator.ValidConfig(cfg)
    decreases |strategies|
  {
    if |strategies| == 0 then text
    else
      var next := if Applicable(rx, text, strategies[0])
                  then LegacyBiasMitigator.StrategyText(cfg, strategies[0], text) else text;
      Layered(cfg, rx, next, strategies[1..])
  }

  /** When no strategy applies to the text, it comes back unchanged. */
  lemma {:induction false} NothingApplicable(cfg: LegacyBiasMitigator.Config, rx: Regex<ApplicabilityPattern>,
                                             text: string, strategies: seq<Strategy>)
    requires LegacyBiasMitigator.ValidConfig(cfg)
    requires forall i :: 0 <= i < |strategies| ==> !Applicable(rx, text, strategies[i])
    ensures Layered(cfg, rx, text, strategies) == text
    decreases |strategies|
  {
    if |strategies| > 0 {
      NothingApplicable(cfg, rx, text, strategies[1..]);
    }
  }

  /**
   * `apply_multiple_strategies`: retrieval grounding, neutral language,
   * contextual reframing and counter-narrative in that order, each run
   * through `mitigate_bias` only when it is applicable to the text so far.
   */
  method ApplyMultipleStrategies(e: Engines, cfg: LegacyBiasMitigator.Config, response: string)
    returns (text: string)
    requires LegacyBiasMitigator.ValidConfig(cfg)
    ensures text == Layered(cfg, e.applicability, response, PriorityOrder())
  {
    var strategies := PriorityOrder();
    var rx := e.applicability;
    text := response;
    var i := 0;
    while i < |strategies|
      invariant 0 <= i <= |strategies|
      invariant Layered(cfg, rx, text, strategies[i..]) == Layered(cfg, rx, response, strategies)
    {
      if Applicable(rx, text, strategies[i]) {
        var result := LegacyBiasMitigator.MitigateBias(cfg, e.selection, text, Some(strategies[i]));
        text := result.mitigatedText;
      }
      assert strategies[i..][1..] == strategies[i + 1..];
      i := i + 1;
    }
  }
}
