/**
 * What the two `BAMIPPipeline` versions (biaslense/src/core/bamip_pipeline.py
 * and src/core/bamip_pipeline.py) share: the three risk levels, the
 * two-signal risk assessment that keeps the more severe tier, and the
 * applicability test and fixed order of `apply_multiple_strategies`.
 */
module PipelineCommon {
  import opened Text
  import opened Mitigation

  // ---------------------------------------------------------------------
  // Risk
  // ---------------------------------------------------------------------

  datatype RiskLevel = Low | Medium | High

  /** How severe a level is: low below medium below high. */
  function Rank(r: RiskLevel): nat
  {
    match r
    case Low => 0
    case Medium => 1
    case High => 2
  }

  /** The rubric tier: low from `lowAt` up, medium from `mediumAt` up, high below. */
  function RubricRisk(overall: real, lowAt: real, mediumAt: real): (r: RiskLevel)
    requires mediumAt <= lowAt
    ensures r == Low <==> overall >= lowAt
    ensures r == Medium <==> mediumAt <= overall < lowAt
    ensures r == High <==> overall < mediumAt
  {
    if overall >= lowAt then Low
    else if overall >= mediumAt then Medium
    else High
  }

  /** The similarity tier: high from 0.8 up, medium from 0.5 up, low below. */
  function SimilarityRisk(maxSimilarity: real): (r: RiskLevel)
    ensures r == High <==> maxSimilarity >= 0.8
    ensures r == Medium <==> 0.5 <= maxSimilarity < 0.8
    ensures r == Low <==> maxSimilarity < 0.5
  {
    if maxSimilarity >= 0.8 then High
    else if maxSimilarity >= 0.5 then Medium
    else Low
  }

  /**
   * `_assess_risk`: high if either tier is high, else medium if either is
   * medium, else low; that is, the more severe of the two tiers.
   */
  function AssessRisk(overall: real, maxSimilarity: real, lowAt: real, mediumAt: real): (r: RiskLevel)
    requires mediumAt <= lowAt
    ensures Rank(r) >= Rank(RubricRisk(overall, lowAt, mediumAt))
    ensures Rank(r) >= Rank(SimilarityRisk(maxSimilarity))
    ensures r == RubricRisk(overall, lowAt, mediumAt) || r == SimilarityRisk(maxSimilarity)
  {
    var rubric, similarity := RubricRisk(overall, lowAt, mediumAt), SimilarityRisk(maxSimilarity);
    if rubric == High || similarity == High then High
    else if rubric == Medium || similarity == Medium then Medium
    else Low
  }

  /** A lower score or a higher similarity never gives a less severe level. */
  lemma RiskMonotone(o1: real, s1: real, o2: real, s2: real, lowAt: real, mediumAt: real)
    requires mediumAt <= lowAt
    requires o1 <= o2 && s1 >= s2
    ensures Rank(AssessRisk(o1, s1, lowAt, mediumAt)) >= Rank(AssessRisk(o2, s2, lowAt, mediumAt))
  {
    assert Rank(RubricRisk(o1, lowAt, mediumAt)) >= Rank(RubricRisk(o2, lowAt, mediumAt));
    assert Rank(SimilarityRisk(s1)) >= Rank(SimilarityRisk(s2));
  }

  // ---------------------------------------------------------------------
  // apply_multiple_strategies
  // ---------------------------------------------------------------------

  /** The one pattern `_is_strategy_applicable` tries for each strategy it knows. */
  datatype ApplicabilityPattern = GroundingTerms | NeutralTerms | ReframingTerms | CounterTerms

  /** The regular-expression source of each applicability pattern. */
  function ApplicabilitySource(p: ApplicabilityPattern): string
  {
    match p
    case GroundingTerms => "\\b(sikh.*muslim|muslim.*sikh|sikh.*islam|islam.*sikh|subset.*islam)\\b"
    case NeutralTerms => "\\b(terrorist|terrorism|militant|extremist|fear|danger|threat|violent)\\b"
    case ReframingTerms => "\\b(all|every|always|never)\\s+(sikh|muslim|jew|hindu)\\b"
    case CounterTerms => "\\b(backward|primitive|uncivilized)\\b"
  }

  /** The pattern that decides whether a strategy applies; instructional prompting has none. */
  function ApplicabilityOf(s: Strategy): Option<ApplicabilityPattern>
  {
    match s
    case RetrievalGrounding => Some(GroundingTerms)
    case NeutralLanguage => Some(NeutralTerms)
    case ContextualReframing => Some(ReframingTerms)
    case CounterNarrative => Some(CounterTerms)
    case InstructionalPrompting => None
  }

  /** `_is_strategy_applicable`: the strategy's pattern occurs in the lower-cased text. */
  predicate Applicable(rx: Regex<ApplicabilityPattern>, text: string, s: Strategy)
  {
    match ApplicabilityOf(s)
    case None => false
    case Some(p) => rx.search(p, LowerStr(text))
  }

  /** The order `apply_multiple_strategies` visits the strategies in. */
  function PriorityOrder(): seq<Strategy>
  {
    [RetrievalGrounding, NeutralLanguage, ContextualReframing, CounterNarrative]
  }

  /** Applicability ignores case, and instructional prompting is never applicable. */
  lemma ApplicableIgnoresCase(rx: Regex<ApplicabilityPattern>, text: string, s: Strategy)
    ensures Applicable(rx, LowerStr(text), s) == Applicable(rx, text, s)
    ensures s == InstructionalPrompting ==> !Applicable(rx, text, s)
  {
    LowerTwice(text);
  }
}
