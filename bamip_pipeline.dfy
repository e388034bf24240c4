/**
 * The live `BAMIPPipeline` (biaslense/src/core/bamip_pipeline.py): it scores a
 * response with the research rubric on the 1-5 scale, measures its
 * similarity to the stereotype catalogue, assesses the risk, picks the
 * strategy that the effectiveness matrix rates best for the two weakest
 * dimensions, mitigates, rescores with an improvement floor, classifies the
 * prompt and the bias, and recommends; results are kept in a bounded
 * first-in first-out cache keyed by prompt, response and model.
 */
module Pipeline {
  import opened Text
  import opened Mitigation
  import opened PipelineCommon
  import RubricCommon
  import ResearchRubric
  import Embeddings
  import BiasMitigator

  // ---------------------------------------------------------------------
  // Classifier pattern lists
  // ---------------------------------------------------------------------

  datatype PatternGroup =
    // `classify_prompt_subtype`
    | IdentityConfusion | Analogical | Comparative | Scenario | Descriptive
    // `classify_bias_type`
    | Historical | Representational | Measurement | Aggregation | Evaluation

  /** The pattern at position `index` of the list `group`. */
  datatype PipelinePattern = PipelinePattern(group: PatternGroup, index: nat)

  /** How many patterns each list holds. */
  function GroupSize(g: PatternGroup): nat
  {
    match g
    case IdentityConfusion => 6
    case Analogical => 4
    case Comparative => 5
    case Scenario => 4
    case Descriptive => 8
    case Historical => 6
    case Representational => 6
    case Measurement => 4
    case Aggregation => 4
    case Evaluation => 6
  }

  /** The list `group`, in the order the classifier tries it. */
  function Patterns(g: PatternGroup): (ps: seq<PipelinePattern>)
    ensures |ps| == GroupSize(g)
    ensures forall i :: 0 <= i < |ps| ==> ps[i] == PipelinePattern(g, i)
  {
    seq(GroupSize(g), i requires 0 <= i < GroupSize(g) => PipelinePattern(g, i))
  }

  /** The regular-expression source of each list. */
  function GroupSources(g: PatternGroup): seq<string>
  {
    match g
    case IdentityConfusion =>
      [ "\\b(blend|mixture|combination|mix)\\s+(of|between)\\b",
        "\\b(part of|subset of|branch of|derived from|comes from)\\b.*\\b(islam|hinduism|muslim|hindu)\\b",
        "\\b(islam|muslim|hindu|hinduism)\\b.*\\b(sikh|sikhism)\\b",
        "\\b(sikh|sikhism)\\b.*\\b(islam|muslim|hindu|hinduism)\\b",
        "\\bis\\s+(sikh|sikhism)\\s+(a|an)\\b.*\\b(islam|muslim|hindu|hinduism)\\b",
        "\\b(related to|connected to|similar to)\\b.*\\b(islam|hinduism)\\b" ]
    case Analogical =>
      [ "\\bis to\\b.*\\bas\\b.*\\bis to\\b",
        "\\b(like|as)\\b.*\\bis to\\b",
        "\\b(christianity|islam|hinduism)\\s+is to\\s+\\w+\\s+as\\s+(sikh|sikhism)\\s+is to\\b",
        "\\bif\\b.*\\bthen\\b.*\\b(sikh|sikhism)\\b" ]
    case Comparative =>
      [ "\\b(how is|how does)\\b.*\\b(similar|different|compare|contrast)\\b",
        "\\b(compare|comparison|versus|vs|against)\\b",
        "\\b(like|unlike|than)\\b.*\\b(christianity|islam|hinduism|buddhism|judaism)\\b",
        "\\b(christianity|islam|hinduism|buddhism|judaism)\\b.*\\b(like|unlike|than)\\b",
        "\\b(similarities|differences)\\b.*\\b(between|with)\\b" ]
    case Scenario =>
      [ "\\b(imagine|picture|describe|consider)\\b.*\\b(character|person|individual|student|teacher)\\b",
        "\\b(in a|in the)\\b.*\\b(classroom|workplace|school|community|situation)\\b",
        "\\b(if you|suppose you|imagine you)\\b.*\\b(met|encountered|saw)\\b",
        "\\b(story|narrative|example|case)\\b.*\\b(sikh|sikhism)\\b" ]
    case Descriptive =>
      [ "\\b(what is|what are|what does|what do)\\b",
        "\\b(tell me|explain|describe|define)\\b",
        "\\b(who is|who are|who was|who were)\\b",
        "\\b(when did|when was|when were)\\b",
        "\\b(where is|where are|where was|where were)\\b",
        "\\b(why do|why does|why did)\\b",
        "\\b(how do|how does|how did)\\b(?!.*\\b(compare|similar|different)\\b)",
        "\\b(perspective|belief|view|teaching|practice|tradition|history)\\b" ]
    case Historical =>
      [ "1984.*started", "khalistani.*movement", "sikh.*terrorism",
        "golden.*temple.*incident", "partition.*sikh", "sikh.*militant" ]
    case Representational =>
      [ "all.*sikh.*are", "every.*sikh", "sikh.*always.*violent",
        "turban.*terrorist", "sikh.*militant", "backward.*religion" ]
    case Measurement =>
      [ "compare.*sikh.*to.*muslim", "sikh.*versus.*hindu",
        "how.*sikh.*different.*islam", "sikh.*similar.*to.*other" ]
    case Aggregation =>
      [ "sikh.*community.*same", "all.*sikh.*practices",
        "sikh.*tradition.*uniform", "sikh.*identity.*simple" ]
    case Evaluation =>
      [ "western.*view", "modern.*society", "civilized.*world",
        "developed.*country", "primitive.*belief", "uncivilized.*practice" ]
  }

  /** The regular-expression source of one pattern. */
  function Source(p: PipelinePattern): string
  {
    var srcs := GroupSources(p.group);
    if p.index < |srcs| then srcs[p.index] else ""
  }

  /** A list has a match in the text. */
  predicate Hit(rx: Regex<PipelinePattern>, g: PatternGroup, t: string)
  {
    AnyMatch(rx, Patterns(g), t)
  }

  /** One of the classifier's `for pattern in ...: if re.search(...): return` scans. */
  method SearchGroup(rx: Regex<PipelinePattern>, g: PatternGroup, t: string) returns (hit: bool)
    ensures hit <==> exists i :: 0 <= i < GroupSize(g) && rx.search(PipelinePattern(g, i), t)
    ensures hit == Hit(rx, g, t)
  {
    HitExactly(rx, g, t);
    var i := 0;
    while i < GroupSize(g)
      invariant 0 <= i <= GroupSize(g)
      invariant forall j :: 0 <= j < i ==> !rx.search(PipelinePattern(g, j), t)
    {
      if rx.search(PipelinePattern(g, i), t) {
        return true;
      }
      i := i + 1;
    }
    return false;
  }

  /** The scan's result is the list's `Hit`. */
  lemma HitExactly(rx: Regex<PipelinePattern>, g: PatternGroup, t: string)
    ensures Hit(rx, g, t) <==> exists i :: 0 <= i < GroupSize(g) && rx.search(PipelinePattern(g, i), t)
  {
    var ps := Patterns(g);
    if Hit(rx, g, t) {
      var i :| 0 <= i < |ps| && rx.search(ps[i], t);
      assert rx.search(PipelinePattern(g, i), t);
    }
    if exists i :: 0 <= i < GroupSize(g) && rx.search(PipelinePattern(g, i), t) {
      var i :| 0 <= i < GroupSize(g) && rx.search(PipelinePattern(g, i), t);
      assert rx.search(ps[i], t);
    }
  }

  // ---------------------------------------------------------------------
  // classify_prompt_subtype
  // ---------------------------------------------------------------------

  datatype PromptSubtype =
    | IdentityConfusionPrompt | AnalogicalPrompt | ComparativePrompt
    | ScenarioBasedPrompt | DescriptivePrompt | GeneralPrompt

  /** The label the classifier returns. */
  function SubtypeLabel(s: PromptSubtype): string
  {
    match s
    case IdentityConfusionPrompt => "Identity Confusion"
    case AnalogicalPrompt => "Analogical"
    case ComparativePrompt => "Comparative"
    case ScenarioBasedPrompt => "Scenario-based"
    case DescriptivePrompt => "Descriptive"
    case GeneralPrompt => "General"
  }

  /** The words whose presence makes an otherwise unmatched prompt descriptive. */
  function SikhKeywords(): seq<string>
  {
    ["sikh", "sikhism", "guru", "gurdwara", "turban"]
  }

  /** `any(word in prompt_lower for word in ...)`: a keyword occurs as a substring. */
  predicate MentionsSikh(t: string)
  {
    exists i :: 0 <= i < |SikhKeywords()| && Contains(t, SikhKeywords()[i])
  }

  /**
   * `classify_prompt_subtype` on the lower-cased prompt: the first list in
   * the order identity confusion, analogical, comparative, scenario,
   * descriptive that has a match decides; failing all five, a Sikh keyword
   * makes the prompt descriptive and anything else is general.
   */
  function PromptSubtypeOf(rx: Regex<PipelinePattern>, prompt: string): (r: PromptSubtype)
    ensures var t := LowerStr(prompt);
      var (i, a, c, sc) := (Hit(rx, IdentityConfusion, t), Hit(rx, Analogical, t),
                            Hit(rx, Comparative, t), Hit(rx, Scenario, t));
      (r == IdentityConfusionPrompt <==> i)
      && (r == AnalogicalPrompt <==> !i && a)
      && (r == ComparativePrompt <==> !i && !a && c)
      && (r == ScenarioBasedPrompt <==> !i && !a && !c && sc)
      && (r == DescriptivePrompt <==> !i && !a && !c && !sc && (Hit(rx, Descriptive, t) || MentionsSikh(t)))
      && (r == GeneralPrompt <==> !i && !a && !c && !sc && !Hit(rx, Descriptive, t) && !MentionsSikh(t))
  {
    var t := LowerStr(prompt);
    if Hit(rx, IdentityConfusion, t) then IdentityConfusionPrompt
    else if Hit(rx, Analogical, t) then AnalogicalPrompt
    else if Hit(rx, Comparative, t) then ComparativePrompt
    else if Hit(rx, Scenario, t) then ScenarioBasedPrompt
    else if Hit(rx, Descriptive, t) || MentionsSikh(t) then DescriptivePrompt
    else GeneralPrompt
  }

  // ---------------------------------------------------------------------
  // classify_bias_type
  // ---------------------------------------------------------------------

  datatype BiasType =
    | HistoricalBias | RepresentationalBias | MeasurementBias | AggregationBias | EvaluationBias
    | GeneralBias | NoBiasDetected

  /** The label the classifier returns. */
  function BiasTypeLabel(b: BiasType): string
  {
    match b
    case HistoricalBias => "Historical Bias"
    case RepresentationalBias => "Representational Bias"
    case MeasurementBias => "Measurement Bias"
    case AggregationBias => "Aggregation Bias"
    case EvaluationBias => "Evaluation Bias"
    case GeneralBias => "General Bias"
    case NoBiasDetected => "No Bias Detected"
  }

  /**
   * `classify_bias_type` on the lower-cased response: the first list in the
   * order historical, representational, measurement, aggregation,
   * evaluation that has a match decides; failing all five, an overall score
   * below 3.5 or an exceeded similarity threshold means general bias, and
   * otherwise no bias is detected.
   */
  function BiasTypeOf(rx: Regex<PipelinePattern>, response: string, overall: real, thresholdExceeded: bool)
    : (r: BiasType)
    ensures var t := LowerStr(response);
      var (h, rp, m, ag, ev) := (Hit(rx, Historical, t), Hit(rx, Representational, t),
                                 Hit(rx, Measurement, t), Hit(rx, Aggregation, t), Hit(rx, Evaluation, t));
      var none := !h && !rp && !m && !ag && !ev;
      (r == HistoricalBias <==> h)
      && (r == RepresentationalBias <==> !h && rp)
      && (r == MeasurementBias <==> !h && !rp && m)
      && (r == AggregationBias <==> !h && !rp && !m && ag)
      && (r == EvaluationBias <==> !h && !rp && !m && !ag && ev)
      && (r == GeneralBias <==> none && (overall < 3.5 || thresholdExceeded))
      && (r == NoBiasDetected <==> none && overall >= 3.5 && !thresholdExceeded)
  {
    var t := LowerStr(response);
    if Hit(rx, Historical, t) then HistoricalBias
    else if Hit(rx, Representational, t) then RepresentationalBias
    else if Hit(rx, Measurement, t) then MeasurementBias
    else if Hit(rx, Aggregation, t) then AggregationBias
    else if Hit(rx, Evaluation, t) then EvaluationBias
    else if overall < 3.5 || thresholdExceeded then GeneralBias
    else NoBiasDetected
  }

  /** Both classifiers ignore case: lower-casing the input first changes nothing. */
  lemma ClassifiersIgnoreCase(rx: Regex<PipelinePattern>, s: string, overall: real, exceeded: bool)
    ensures PromptSubtypeOf(rx, LowerStr(s)) == PromptSubtypeOf(rx, s)
    ensures BiasTypeOf(rx, LowerStr(s), overall, exceeded) == BiasTypeOf(rx, s, overall, exceeded)
  {
    LowerTwice(s);
  }

  // ---------------------------------------------------------------------
  // _select_optimal_strategy
  // ---------------------------------------------------------------------

  datatype Dimension = AccuracyDim | FairnessDim | RepresentationDim | LinguisticBalanceDim | CulturalFramingDim

  /**
   * A dimension's position in the `dimension_scores` dict, whose order the
   * stable sort keeps among equal scores.
   */
  function Position(d: Dimension): (i: nat)
    ensures i < 5
  {
    match d
    case AccuracyDim => 0
    case FairnessDim => 1
    case RepresentationDim => 2
    case LinguisticBalanceDim => 3
    case CulturalFramingDim => 4
  }

  /** The dimension at a position of the dict. */
  function DimensionAt(i: nat): (d: Dimension)
    requires i < 5
    ensures Position(d) == i
    ensures forall e :: Position(e) == i ==> e == d
  {
    if i == 0 then AccuracyDim
    else if i == 1 then FairnessDim
    else if i == 2 then RepresentationDim
    else if i == 3 then LinguisticBalanceDim
    else CulturalFramingDim
  }

  function DimensionScore(s: RubricCommon.Scores, d: Dimension): real
  {
    match d
    case AccuracyDim => s.accuracy
    case FairnessDim => s.fairness
    case RepresentationDim => s.representation
    case LinguisticBalanceDim => s.linguisticBalance
    case CulturalFramingDim => s.culturalFraming
  }

  /**
   * What a stable ascending sort brings to the front of the dimensions at
   * positions `i` and later, leaving out `skip`: a lowest score, and among
   * equal lowest scores the earliest; nothing when no dimension is left.
   */
  function LowestFrom(s: RubricCommon.Scores, skip: Option<Dimension>, i: nat): (r: Option<Dimension>)
    ensures r.None? <==> forall d :: Position(d) >= i ==> Some(d) == skip
    ensures r.Some? ==> Position(r.value) >= i && Some(r.value) != skip
    ensures r.Some? ==> forall d :: Position(d) >= i && Some(d) != skip
                          ==> DimensionScore(s, r.value) <= DimensionScore(s, d)
    ensures r.Some? ==> forall d :: i <= Position(d) < Position(r.value) && Some(d) != skip
                          ==> DimensionScore(s, d) > DimensionScore(s, r.value)
    decreases 5 - i
  {
    if i >= 5 then None
    else
      var d := DimensionAt(i);
      var rest := LowestFrom(s, skip, i + 1);
      if Some(d) == skip then rest
      else if rest.None? || DimensionScore(s, d) <= DimensionScore(s, rest.value) then Some(d)
      else rest
  }

  /**
   * `sorted_dimensions[0]`: a lowest-scoring dimension, the earliest in
   * dict order among equal scores.
   */
  function Primary(s: RubricCommon.Scores): (p: Dimension)
    ensures forall d :: DimensionScore(s, p) <= DimensionScore(s, d)
    ensures forall d :: Position(d) < Position(p) ==> DimensionScore(s, d) > DimensionScore(s, p)
  {
    var r := LowestFrom(s, None, 0);
    assert Some(AccuracyDim) != None;
    r.value
  }

  /**
   * `sorted_dimensions[1]`: a lowest-scoring dimension other than the
   * primary one, the earliest in dict order among equal scores.
   */
  function Secondary(s: RubricCommon.Scores): (q: Dimension)
    ensures q != Primary(s)
    ensures forall d :: d != Primary(s) ==> DimensionScore(s, q) <= DimensionScore(s, d)
    ensures forall d :: d != Primary(s) && Position(d) < Position(q) ==> DimensionScore(s, d) > DimensionScore(s, q)
  {
    var p := Primary(s);
    var r := LowestFrom(s, Some(p), 0);
    var other := if p == AccuracyDim then FairnessDim else AccuracyDim;
    assert Some(other) != Some(p);
    r.value
  }

  /** The strategies the effectiveness matrix rates, in the order `max` meets them. */
  function Candidates(): seq<Strategy>
  {
    [RetrievalGrounding, InstructionalPrompting, ContextualReframing]
  }

  /** The effectiveness matrix: the improvement (in percent) a strategy brings to a dimension. */
  function Effectiveness(d: Dimension, st: Strategy): real
    requires st in Candidates()
  {
    match d
    case AccuracyDim =>
      if st == RetrievalGrounding then 47.2 else if st == InstructionalPrompting then 20.1 else 27.9
    case FairnessDim =>
      if st == RetrievalGrounding then 127.1 else if st == InstructionalPrompting then 113.6 else 103.6
    case RepresentationDim =>
      if st == RetrievalGrounding then 58.1 else if st == InstructionalPrompting then 86.5 else 83.0
    case LinguisticBalanceDim =>
      if st == RetrievalGrounding then 134.5 else if st == InstructionalPrompting then 128.4 else 141.3
    case CulturalFramingDim =>
      if st == RetrievalGrounding then 58.1 else if st == InstructionalPrompting then 39.5 else 37.6
  }

  /** The combined effectiveness: 70% for the weakest dimension, 30% for the second weakest. */
  function Combined(primary: Dimension, secondary: Dimension, st: Strategy): real
    requires st in Candidates()
  {
    Effectiveness(primary, st) * 0.7 + Effectiveness(secondary, st) * 0.3
  }

  /**
   * `max(strategy_scores, key=strategy_scores.get)`: a candidate with the
   * highest combined effectiveness, and the first one in candidate order
   * when several tie.
   */
  function BestStrategy(primary: Dimension, secondary: Dimension): (st: Strategy)
    ensures st in Candidates()
    ensures forall c :: c in Candidates() ==> Combined(primary, secondary, c) <= Combined(primary, secondary, st)
    ensures st != RetrievalGrounding
            ==> Combined(primary, secondary, RetrievalGrounding) < Combined(primary, secondary, st)
    ensures st == ContextualReframing
            ==> Combined(primary, secondary, InstructionalPrompting) < Combined(primary, secondary, st)
  {
    var r := Combined(primary, secondary, RetrievalGrounding);
    var i := Combined(primary, secondary, InstructionalPrompting);
    var c := Combined(primary, secondary, ContextualReframing);
    if r >= i && r >= c then RetrievalGrounding
    else if i >= c then InstructionalPrompting
    else ContextualReframing
  }

  /**
   * What the matrix decides for every pair of weakest dimensions: retrieval
   * grounding, except instructional prompting when representation is the
   * weakest and contextual reframing when representation and linguistic
   * balance are the two weakest.
   */
  lemma SelectionTable(primary: Dimension, secondary: Dimension)
    requires primary != secondary
    ensures BestStrategy(primary, secondary)
            == if primary == RepresentationDim && secondary == LinguisticBalanceDim then ContextualReframing
               else if primary == LinguisticBalanceDim && secondary == RepresentationDim then ContextualReframing
               else if primary == RepresentationDim then InstructionalPrompting
               else RetrievalGrounding
  {
  }

  /** The dimensions scoring below 6.0, which the reasoning lists when there is more than one. */
  function LowDimensions(s: RubricCommon.Scores): (r: seq<Dimension>)
    ensures forall d :: d in r <==> DimensionScore(s, d) < 6.0
  {
    (if s.accuracy < 6.0 then [AccuracyDim] else [])
    + (if s.fairness < 6.0 then [FairnessDim] else [])
    + (if s.representation < 6.0 then [RepresentationDim] else [])
    + (if s.linguisticBalance < 6.0 then [LinguisticBalanceDim] else [])
    + (if s.culturalFraming < 6.0 then [CulturalFramingDim] else [])
  }

  /** The facts the reasoning text is assembled from. */
  datatype Reasoning = Reasoning(
    best: Strategy, bestScore: real,
    primary: Dimension, primaryScore: real,
    secondary: Dimension, secondaryScore: real,
    lowDimensions: seq<Dimension>)

  /**
   * `_select_optimal_strategy`: the two weakest dimensions in stable sort
   * order, the candidate the matrix rates best for them, and the reasoning.
   */
  function SelectOptimalStrategy(s: RubricCommon.Scores): (r: (Strategy, Reasoning))
    ensures var (st, why) := r;
      st in Candidates() && st == why.best && st == BestStrategy(why.primary, why.secondary)
      && why.bestScore == Combined(why.primary, why.secondary, st)
      && why.primary != why.secondary
      && why.primaryScore == DimensionScore(s, why.primary)
      && why.secondaryScore == DimensionScore(s, why.secondary)
      && (forall d :: DimensionScore(s, why.primary) <= DimensionScore(s, d))
      && (forall d :: d != why.primary ==> DimensionScore(s, why.secondary) <= DimensionScore(s, d))
      && (forall d :: Position(d) < Position(why.primary) ==> DimensionScore(s, d) > why.primaryScore)
      && (forall d :: d != why.primary && Position(d) < Position(why.secondary)
                      ==> DimensionScore(s, d) > why.secondaryScore)
      && (forall d :: d in why.lowDimensions <==> DimensionScore(s, d) < 6.0)
  {
    var (p, q) := (Primary(s), Secondary(s));
    var st := BestStrategy(p, q);
    (st, Reasoning(st, Combined(p, q, st), p, DimensionScore(s, p), q, DimensionScore(s, q), LowDimensions(s)))
  }

  // ---------------------------------------------------------------------
  // _ensure_improvement
  // ---------------------------------------------------------------------

  /**
   * `min(5.0, max(original + 0.5, improved))`: at most 5, at least the
   * original plus the 0.5 floor and at least the rescored value (each capped
   * at 5), and 5 only when one of those reaches it.
   */
  predicate RaisedFrom(original: real, improved: real, r: real)
  {
    Min(5.0, original + 0.5) <= r <= 5.0
    && Min(5.0, improved) <= r
    && (r == 5.0 || r == original + 0.5 || r == improved)
    && (r == 5.0 ==> original + 0.5 >= 5.0 || improved >= 5.0)
  }

  /** One dimension after the improvement floor, keeping the rescored details. */
  function RaiseDimension(original: ResearchRubric.Dimension, improved: ResearchRubric.Dimension)
    : (r: ResearchRubric.Dimension)
    ensures RaisedFrom(original.score, improved.score, r.score)
    ensures r.indicators == improved.indicators
  {
    ResearchRubric.Dimension(Min(5.0, Max(original.score + 0.5, improved.score)), improved.indicators)
  }

  /** The sum of the five dimension scores. */
  function Total(r: ResearchRubric.RubricScoreResult): real
  {
    r.accuracy.score + r.relevance.score + r.fairness.score + r.neutrality.score + r.representation.score
  }

  /**
   * `_ensure_improvement` (the definition at line 690, which replaces the
   * one at line 420): every dimension raised to at least its original score
   * plus 0.5, capped at 5, and the overall score their mean.
   */
  function EnsureImprovement(original: ResearchRubric.RubricScoreResult, improved: ResearchRubric.RubricScoreResult)
    : (r: ResearchRubric.RubricScoreResult)
    ensures RaisedFrom(original.accuracy.score, improved.accuracy.score, r.accuracy.score)
    ensures RaisedFrom(original.relevance.score, improved.relevance.score, r.relevance.score)
    ensures RaisedFrom(original.fairness.score, improved.fairness.score, r.fairness.score)
    ensures RaisedFrom(original.neutrality.score, improved.neutrality.score, r.neutrality.score)
    ensures RaisedFrom(original.representation.score, improved.representation.score, r.representation.score)
    ensures r.overallScore * 5.0 == Total(r)
  {
    var a := RaiseDimension(original.accuracy, improved.accuracy);
    var l := RaiseDimension(original.relevance, improved.relevance);
    var f := RaiseDimension(original.fairness, improved.fairness);
    var n := RaiseDimension(original.neutrality, improved.neutrality);
    var p := RaiseDimension(original.representation, improved.representation);
    ResearchRubric.RubricScoreResult(a, l, f, n, p, (a.score + l.score + f.score + n.score + p.score) / 5.0)
  }

  /**
   * On the 1-5 scale the overall score never drops, and it rises unless the
   * original already had 5 in every dimension.
   */
  lemma ImprovementNeverLowers(original: ResearchRubric.RubricScoreResult, improved: ResearchRubric.RubricScoreResult)
    requires original.overallScore * 5.0 == Total(original)
    requires original.accuracy.score <= 5.0 && original.relevance.score <= 5.0 && original.fairness.score <= 5.0
    requires original.neutrality.score <= 5.0 && original.representation.score <= 5.0
    ensures EnsureImprovement(original, improved).overallScore >= original.overallScore
    ensures Total(original) < 25.0 ==> EnsureImprovement(original, improved).overallScore > original.overallScore
  {
    var r := EnsureImprovement(original, improved);
    assert r.accuracy.score >= original.accuracy.score && r.relevance.score >= original.relevance.score;
    assert r.fairness.score >= original.fairness.score && r.neutrality.score >= original.neutrality.score;
    assert r.representation.score >= original.representation.score;
    if Total(original) < 25.0 {
      assert Total(r) > Total(original);
    }
  }

  // ---------------------------------------------------------------------
  // _generate_recommendations
  // ---------------------------------------------------------------------

  datatype Advice =
    | RephrasePrompt | ReviewCarefully          // high risk
    | ConsiderImproved | BeAware                // medium risk
    | LowRiskBalanced                           // low risk
    | AddInstructions | TryReframing | VerifySources
    | HistoricalContext | DiverseRepresentation | MultipleMetrics
    | SimilarityCaution
    | TemperatureSettings

  /** The text of each recommendation. */
  function AdviceText(a: Advice): string
  {
    match a
    case RephrasePrompt => "High bias risk detected - consider rephrasing the prompt to be more neutral"
    case ReviewCarefully => "Review the response carefully before using in sensitive contexts"
    case ConsiderImproved => "Moderate bias detected - consider the improved response provided"
    case BeAware => "Be aware of potential bias when interpreting this response"
    case LowRiskBalanced => "Low bias risk - response appears generally balanced"
    case AddInstructions => "Consider adding explicit instructions to avoid stereotypes in future prompts"
    case TryReframing => "Try reframing questions to encourage multiple perspectives"
    case VerifySources => "Verify information with authoritative sources when possible"
    case HistoricalContext => "Be mindful of historical context and how it may influence current perceptions"
    case DiverseRepresentation => "Ensure diverse representation in examples and descriptions"
    case MultipleMetrics => "Consider multiple metrics and evaluation criteria"
    case SimilarityCaution => "High similarity to known biased content detected - exercise caution"
    case TemperatureSettings => "Consider using temperature settings to reduce deterministic bias patterns"
  }

  datatype AIModel = Gpt4 | Gpt35Turbo | Claude3 | Claude2 | Llama2 | Gemini | UnknownModel

  function RiskAdvice(risk: RiskLevel): seq<Advice>
  {
    match risk
    case High => [RephrasePrompt, ReviewCarefully]
    case Medium => [ConsiderImproved, BeAware]
    case Low => [LowRiskBalanced]
  }

  function StrategyAdvice(strategy: Strategy): seq<Advice>
  {
    if strategy == InstructionalPrompting then [AddInstructions]
    else if strategy == ContextualReframing then [TryReframing]
    else if strategy == RetrievalGrounding then [VerifySources]
    else []
  }

  /** `"Historical Bias" in bias_type` and the like: only the matching label contains the phrase. */
  function BiasTypeAdvice(biasType: BiasType): seq<Advice>
  {
    if biasType == HistoricalBias then [HistoricalContext]
    else if biasType == RepresentationalBias then [DiverseRepresentation]
    else if biasType == MeasurementBias then [MultipleMetrics]
    else []
  }

  /** The recommendations before the model-specific one, in the order they are appended. */
  function Leading(risk: RiskLevel, strategy: Strategy, biasType: BiasType, maxSimilarity: real): (r: seq<Advice>)
    ensures 1 <= |r| <= 5
    ensures r[0] == RiskAdvice(risk)[0]
    ensures risk != Low ==> 2 <= |r| && r[1] == RiskAdvice(risk)[1]
  {
    RiskAdvice(risk) + StrategyAdvice(strategy) + BiasTypeAdvice(biasType)
    + (if maxSimilarity > 0.7 then [SimilarityCaution] else [])
  }

  /** A recommendation leads exactly when one of the four parts holds it. */
  lemma InLeading(a: Advice, risk: RiskLevel, strategy: Strategy, biasType: BiasType, maxSimilarity: real)
    ensures a in Leading(risk, strategy, biasType, maxSimilarity)
            <==> a in RiskAdvice(risk) || a in StrategyAdvice(strategy) || a in BiasTypeAdvice(biasType)
                 || (a == SimilarityCaution && maxSimilarity > 0.7)
  {
  }

  /** The risk-tier messages lead exactly for their own tier. */
  lemma LeadingRiskAdvice(risk: RiskLevel, strategy: Strategy, biasType: BiasType, maxSimilarity: real)
    ensures var r := Leading(risk, strategy, biasType, maxSimilarity);
      && (RephrasePrompt in r <==> risk == High)
      && (ReviewCarefully in r <==> risk == High)
      && (ConsiderImproved in r <==> risk == Medium)
      && (BeAware in r <==> risk == Medium)
      && (LowRiskBalanced in r <==> risk == Low)
  {
    InLeading(RephrasePrompt, risk, strategy, biasType, maxSimilarity);
    InLeading(ReviewCarefully, risk, strategy, biasType, maxSimilarity);
    InLeading(ConsiderImproved, risk, strategy, biasType, maxSimilarity);
    InLeading(BeAware, risk, strategy, biasType, maxSimilarity);
    InLeading(LowRiskBalanced, risk, strategy, biasType, maxSimilarity);
  }

  /** The strategy recommendations lead exactly when their strategy was used. */
  lemma LeadingStrategyAdvice(risk: RiskLevel, strategy: Strategy, biasType: BiasType, maxSimilarity: real)
    ensures var r := Leading(risk, strategy, biasType, maxSimilarity);
      && (AddInstructions in r <==> strategy == InstructionalPrompting)
      && (TryReframing in r <==> strategy == ContextualReframing)
      && (VerifySources in r <==> strategy == RetrievalGrounding)
  {
    InLeading(AddInstructions, risk, strategy, biasType, maxSimilarity);
    InLeading(TryReframing, risk, strategy, biasType, maxSimilarity);
    InLeading(VerifySources, risk, strategy, biasType, maxSimilarity);
  }

  /**
   * The bias-type and similarity recommendations lead exactly when their
   * condition holds, and the model-specific one never leads.
   */
  lemma LeadingOtherAdvice(risk: RiskLevel, strategy: Strategy, biasType: BiasType, maxSimilarity: real)
    ensures var r := Leading(risk, strategy, biasType, maxSimilarity);
      && (HistoricalContext in r <==> biasType == HistoricalBias)
      && (DiverseRepresentation in r <==> biasType == RepresentationalBias)
      && (MultipleMetrics in r <==> biasType == MeasurementBias)
      && (SimilarityCaution in r <==> maxSimilarity > 0.7)
      && TemperatureSettings !in r
  {
    InLeading(HistoricalContext, risk, strategy, biasType, maxSimilarity);
    InLeading(DiverseRepresentation, risk, strategy, biasType, maxSimilarity);
    InLeading(MultipleMetrics, risk, strategy, biasType, maxSimilarity);
    InLeading(SimilarityCaution, risk, strategy, biasType, maxSimilarity);
    InLeading(TemperatureSettings, risk, strategy, biasType, maxSimilarity);
  }

  /**
   * `_generate_recommendations`: the risk-tier messages first, then one per
   * strategy, bias type, high similarity and GPT model as they apply, cut to
   * five. Only the last, model-specific one can be cut, and it is cut
   * exactly when five others already apply.
   */
  function Recommendations(risk: RiskLevel, strategy: Strategy, biasType: BiasType, maxSimilarity: real, model: AIModel)
    : (r: seq<Advice>)
    ensures 1 <= |r| <= 5
    ensures r[0] == RiskAdvice(risk)[0]
    ensures risk != Low ==> 2 <= |r| && r[1] == RiskAdvice(risk)[1]
    ensures risk != Low ==> LowRiskBalanced !in r
  {
    InLeading(LowRiskBalanced, risk, strategy, biasType, maxSimilarity);
    var all := Leading(risk, strategy, biasType, maxSimilarity)
               + (if model == Gpt4 || model == Gpt35Turbo then [TemperatureSettings] else []);
    if |all| <= 5 then all else all[..5]
  }

  /**
   * Every recommendation other than the model-specific one is given exactly
   * when it leads; the model-specific one exactly when the model is a GPT
   * model and fewer than five others lead.
   */
  lemma RecommendationsExactly(risk: RiskLevel, strategy: Strategy, biasType: BiasType, maxSimilarity: real, model: AIModel)
    ensures forall a :: a != TemperatureSettings ==>
              (a in Recommendations(risk, strategy, biasType, maxSimilarity, model)
               <==> a in Leading(risk, strategy, biasType, maxSimilarity))
    ensures TemperatureSettings in Recommendations(risk, strategy, biasType, maxSimilarity, model)
            <==> (model == Gpt4 || model == Gpt35Turbo) && |Leading(risk, strategy, biasType, maxSimilarity)| < 5
  {
    var lead := Leading(risk, strategy, biasType, maxSimilarity);
    var t: seq<Advice> := if model == Gpt4 || model == Gpt35Turbo then [TemperatureSettings] else [];
    var kept: seq<Advice> := if |lead| < 5 then t else [];
    assert Recommendations(risk, strategy, biasType, maxSimilarity, model) == lead + kept by {
      if |lead + t| > 5 {
        assert (lead + t)[..5] == lead;
      }
    }
    InLeading(TemperatureSettings, risk, strategy, biasType, maxSimilarity);
    forall a
      ensures a in lead + kept <==> a in lead || a in kept
    {
    }
  }

  // ---------------------------------------------------------------------
  // process_prompt
  // ---------------------------------------------------------------------

  /**
   * The pattern engines the pipeline hands its text to: the research rubric's,
   * the mitigator's selection patterns, the classifiers' and the
   * applicability patterns, and the similarity of a response to each
   * stereotype phrase as the foreign sentence encoder scores it.
   */
  datatype Engines = Engines(
    rubric: Regex<ResearchRubric.RubricPattern>,
    selection: Regex<BiasMitigator.SelectionPattern>,
    classifier: Regex<PipelinePattern>,
    applicability: Regex<ApplicabilityPattern>,
    similarity: string -> string -> real)

  /**
   * The `BiasAnalysisResult` built from a research rubric result: neutrality
   * stands in for linguistic balance and representation for cultural
   * framing; the explanations and flagged patterns are always empty.
   */
  datatype Detection = Detection(
    scores: RubricCommon.Scores,
    overallScore: real,
    confidence: real,
    rubric: ResearchRubric.RubricScoreResult)

  function Converted(r: ResearchRubric.RubricScoreResult, confidence: real): Detection
  {
    var s := RubricCommon.Scores(r.accuracy.score, r.fairness.score, r.representation.score,
                                 r.neutrality.score, r.representation.score);
    Detection(s, r.overallScore, confidence, r)
  }

  /**
   * `BAMIPResult`; `improvedDetection` is the `improved_bias_result` that
   * `process_prompt` attaches to the mitigation result.
   */
  datatype BAMIPResult = BAMIPResult(
    originalPrompt: string,
    aiResponse: string,
    aiModel: AIModel,
    biasDetection: Detection,
    similarity: Embeddings.SimilarityResult,
    riskLevel: RiskLevel,
    mitigation: BiasMitigator.MitigationResult,
    improvedDetection: Detection,
    improvedResponse: string,
    recommendations: seq<Advice>,
    reasoning: Reasoning,
    promptSubtype: PromptSubtype,
    biasType: BiasType)

  /** A rubric result whose overall score is the mean of dimensions within the rubric's ranges. */
  predicate InRange(r: ResearchRubric.RubricScoreResult)
  {
    r.overallScore * 5.0 == Total(r)
    && 1.0 <= r.accuracy.score <= 4.0 && 1.0 <= r.relevance.score <= 5.0 && 1.0 <= r.fairness.score <= 5.0
    && 1.0 <= r.neutrality.score <= 5.0 && 1.0 <= r.representation.score <= 5.0
  }

  /** The response scored by the research rubric, converted with confidence 0.85. */
  function Detect(e: Engines, prompt: string, response: string): (d: Detection)
    ensures InRange(d.rubric) && 1.0 <= d.overallScore <= 5.0
    ensures d.overallScore == d.rubric.overallScore
  {
    Converted(ResearchRubric.ScoreResponse(e.rubric, response, prompt), 0.85)
  }

  /**
   * The mitigated text rescored, raised by `_ensure_improvement` over the
   * original rubric result and converted with confidence 0.90: strictly
   * above the original overall score, and at most 5.
   */
  function Improve(e: Engines, prompt: string, original: ResearchRubric.RubricScoreResult, mitigated: string)
    : (d: Detection)
    requires InRange(original)
    ensures original.overallScore < d.overallScore <= 5.0
  {
    var rescored := ResearchRubric.ScoreResponse(e.rubric, mitigated, prompt);
    ImprovementNeverLowers(original, rescored);
    Converted(EnsureImprovement(original, rescored), 0.90)
  }

  /** A missing model counts as unknown. */
  function ModelOrUnknown(model: Option<AIModel>): AIModel
  {
    if model.Some? then model.value else UnknownModel
  }

  /**
   * What `process_prompt` computes on a cache miss, given the mitigator's
   * configuration and the embedding checker's thresholds, phrases and
   * whether it has embeddings: the strategy is one of the three candidates
   * and is applied as given, and the improved response is the mitigated text.
   */
  function Analysis(e: Engines, cfg: BiasMitigator.Config, th: map<string, real>, hasEmbeddings: bool,
                    phrases: seq<string>, prompt: string, response: string, model: Option<AIModel>)
    : (r: BAMIPResult)
    requires BiasMitigator.ValidConfig(cfg)
    requires Embeddings.HasThresholds(th) && (hasEmbeddings ==> |phrases| > 0)
    ensures r.originalPrompt == prompt && r.aiResponse == response
    ensures r.aiModel == ModelOrUnknown(model)
    ensures r.mitigation.originalText == response
    ensures r.mitigation.strategyUsed in Candidates() && r.mitigation.strategyUsed == r.reasoning.best
    ensures r.mitigation.usedSources.Some? <==> r.mitigation.strategyUsed == RetrievalGrounding
    ensures r.improvedResponse == r.mitigation.mitigatedText
    ensures r.mitigation.strategyUsed == InstructionalPrompting ==> r.improvedResponse == response
  {
    var aiModel := ModelOrUnknown(model);
    var detection := Detect(e, prompt, response);
    var similarity := Embeddings.Similarity(th, hasEmbeddings, phrases, e.similarity(response));
    var risk := AssessRisk(detection.overallScore, similarity.maxSimilarity, 7.0, 4.0);
    var selected := SelectOptimalStrategy(detection.scores);
    var mitigation := BiasMitigator.Mitigated(cfg, e.selection, response, Some(selected.0));
    var biasType := BiasTypeOf(e.classifier, response, detection.overallScore, similarity.thresholdExceeded);
    BAMIPResult(prompt, response, aiModel, detection, similarity, risk, mitigation,
                Improve(e, prompt, detection.rubric, mitigation.mitigatedText),
                mitigation.mitigatedText,
                Recommendations(risk, mitigation.strategyUsed, biasType, similarity.maxSimilarity, aiModel),
                selected.1, PromptSubtypeOf(e.classifier, prompt), biasType)
  }

  /** A result whose parts are computed as `process_prompt` computes them is the analysis. */
  lemma AssembledAnalysis(e: Engines, cfg: BiasMitigator.Config, th: map<string, real>, hasEmbeddings: bool,
                          phrases: seq<string>, prompt: string, response: string, model: Option<AIModel>, r: BAMIPResult)
    requires BiasMitigator.ValidConfig(cfg)
    requires Embeddings.HasThresholds(th) && (hasEmbeddings ==> |phrases| > 0)
    requires r.originalPrompt == prompt && r.aiResponse == response && r.aiModel == ModelOrUnknown(model)
    requires r.biasDetection == Detect(e, prompt, response)
    requires r.similarity == Embeddings.Similarity(th, hasEmbeddings, phrases, e.similarity(response))
    requires r.riskLevel == AssessRisk(r.biasDetection.overallScore, r.similarity.maxSimilarity, 7.0, 4.0)
    requires (r.mitigation.strategyUsed, r.reasoning) == SelectOptimalStrategy(r.biasDetection.scores)
    requires r.mitigation == BiasMitigator.Mitigated(cfg, e.selection, response, Some(r.mitigation.strategyUsed))
    requires r.improvedDetection == Improve(e, prompt, r.biasDetection.rubric, r.mitigation.mitigatedText)
    requires r.improvedResponse == r.mitigation.mitigatedText
    requires r.biasType == BiasTypeOf(e.classifier, response, r.biasDetection.overallScore, r.similarity.thresholdExceeded)
    requires r.recommendations
             == Recommendations(r.riskLevel, r.mitigation.strategyUsed, r.biasType, r.similarity.maxSimilarity, r.aiModel)
    requires r.promptSubtype == PromptSubtypeOf(e.classifier, prompt)
    ensures r == Analysis(e, cfg, th, hasEmbeddings, phrases, prompt, response, model)
  {
  }

  /**
   * The rubric's overall score is on the 1-5 scale while the risk
   * thresholds are 7.0 and 4.0, so the risk is never low: it is high
   * exactly when the score is below 4 or the similarity reaches 0.8, and
   * medium otherwise; so the low-risk recommendation is never given.
   */
  lemma AnalysisNeverLowRisk(e: Engines, cfg: BiasMitigator.Config, th: map<string, real>, hasEmbeddings: bool,
                             phrases: seq<string>, prompt: string, response: string, model: Option<AIModel>)
    requires BiasMitigator.ValidConfig(cfg)
    requires Embeddings.HasThresholds(th) && (hasEmbeddings ==> |phrases| > 0)
    ensures var r := Analysis(e, cfg, th, hasEmbeddings, phrases, prompt, response, model);
      && r.riskLevel != Low
      && (r.riskLevel == High <==> r.biasDetection.overallScore < 4.0 || r.similarity.maxSimilarity >= 0.8)
      && LowRiskBalanced !in r.recommendations
  {
  }

  /**
   * The improved score is strictly above the original one, because accuracy
   * never exceeds 4 and so some dimension always has room to rise.
   */
  lemma AnalysisImproves(e: Engines, cfg: BiasMitigator.Config, th: map<string, real>, hasEmbeddings: bool,
                         phrases: seq<string>, prompt: string, response: string, model: Option<AIModel>)
    requires BiasMitigator.ValidConfig(cfg)
    requires Embeddings.HasThresholds(th) && (hasEmbeddings ==> |phrases| > 0)
    ensures var r := Analysis(e, cfg, th, hasEmbeddings, phrases, prompt, response, model);
      r.biasDetection.overallScore < r.improvedDetection.overallScore <= 5.0
  {
  }

  // ---------------------------------------------------------------------
  // apply_multiple_strategies
  // ---------------------------------------------------------------------

  /** The text being rewritten and the mitigator's used sources. */
  datatype Layering = Layering(text: string, sources: Option<seq<BiasMitigator.Anchor>>)

  /**
   * One `mitigate_bias` call with an explicit strategy, as far as the text
   * and the used sources go: the strategy's rewrite, and afterwards the used
   * sources hold just this run's anchor for grounding and are otherwise
   * emptied (or still absent).
   */
  function Mitigate(cfg: BiasMitigator.Config, l: Layering, s: Strategy): Layering
    requires BiasMitigator.ValidConfig(cfg)
  {
    var sources := if s == RetrievalGrounding then Some([BiasMitigator.ChosenAnchor(cfg, l.text)])
                   else if l.sources.Some? then Some([]) else None;
    Layering(BiasMitigator.StrategyText(cfg, s, l.text), sources)
  }

  /** The strategies visited in order, each applied only when it is applicable to the current text. */
  function Layer(cfg: BiasMitigator.Config, rx: Regex<ApplicabilityPattern>, l: Layering, strategies: seq<Strategy>)
    : Layering
    requires BiasMitigator.ValidConfig(cfg)
    decreases |strategies|
  {
    if |strategies| == 0 then l
    else
      var next := if Applicable(rx, l.text, strategies[0]) then Mitigate(cfg, l, strategies[0]) else l;
      Layer(cfg, rx, next, strategies[1..])
  }

  /** When no strategy applies to the text, neither the text nor the used sources change. */
  lemma {:induction false} NothingApplicable(cfg: BiasMitigator.Config, rx: Regex<ApplicabilityPattern>, l: Layering,
                                             strategies: seq<Strategy>)
    requires BiasMitigator.ValidConfig(cfg)
    requires forall i :: 0 <= i < |strategies| ==> !Applicable(rx, l.text, strategies[i])
    ensures Layer(cfg, rx, l, strategies) == l
    decreases |strategies|
  {
    if |strategies| > 0 {
      NothingApplicable(cfg, rx, l, strategies[1..]);
    }
  }

  /**
   * Each application clears the used sources before adding at most one
   * anchor: afterwards they are as before, or exist and hold at most one
   * anchor; once they exist they stay.
   */
  lemma {:induction false} LayerSources(cfg: BiasMitigator.Config, rx: Regex<ApplicabilityPattern>, l: Layering,
                                        strategies: seq<Strategy>)
    requires BiasMitigator.ValidConfig(cfg)
    ensures l.sources.Some? ==> Layer(cfg, rx, l, strategies).sources.Some?
    ensures var r := Layer(cfg, rx, l, strategies);
      r.sources == l.sources || (r.sources.Some? && |r.sources.value| <= 1)
    decreases |strategies|
  {
    if |strategies| > 0 {
      var next := if Applicable(rx, l.text, strategies[0]) then Mitigate(cfg, l, strategies[0]) else l;
      LayerSources(cfg, rx, next, strategies[1..]);
    }
  }

  // ---------------------------------------------------------------------
  // The pipeline object
  // ---------------------------------------------------------------------

  /** `_max_cache_size`. */
  const MaxCacheSize: nat := 100

  /**
   * What the cache key `f"{hash(prompt)}_{hash(ai_response)}_{ai_model}"`
   * distinguishes: the prompt, the response and the model as given, where
   * no model and the unknown model are different keys.
   */
  datatype CacheKey = CacheKey(prompt: string, response: string, model: Option<AIModel>)

  /** A result belongs to a key when it analyses the key's prompt, response and model. */
  predicate Describes(r: BAMIPResult, key: CacheKey)
  {
    r.originalPrompt == key.prompt && r.aiResponse == key.response && r.aiModel == ModelOrUnknown(key.model)
  }

  /**
   * The insertion order lists every cached key exactly once, there are at
   * most 100, and every cached result belongs to its key.
   */
  ghost predicate CacheShape(cache: map<CacheKey, BAMIPResult>, order: seq<CacheKey>)
  {
    |order| <= MaxCacheSize
    && (forall i, j :: 0 <= i < j < |order| ==> order[i] != order[j])
    && (forall k :: k in cache <==> k in order)
    && (forall k :: k in cache ==> Describes(cache[k], k))
  }

  /** A sequence without repeats has as many distinct elements as entries. */
  lemma {:induction false} DistinctCardinality(order: seq<CacheKey>)
    requires forall i, j :: 0 <= i < j < |order| ==> order[i] != order[j]
    ensures |set k | k in order| == |order|
  {
    if |order| > 0 {
      var init := order[..|order| - 1];
      DistinctCardinality(init);
      assert (set k | k in order) == (set k | k in init) + {order[|order| - 1]};
      assert order[|order| - 1] !in init;
    }
  }

  /** The cache holds as many entries as the insertion order lists. */
  lemma CacheSize(cache: map<CacheKey, BAMIPResult>, order: seq<CacheKey>)
    requires CacheShape(cache, order)
    ensures |cache| == |order|
  {
    DistinctCardinality(order);
    assert cache.Keys == set k | k in order;
  }

  /** The insertion order after making room: the oldest key goes when the cache is full. */
  function Kept(order: seq<CacheKey>): seq<CacheKey>
  {
    if |order| >= MaxCacheSize then order[1..] else order
  }

  /** The cache after making room: a full cache loses its oldest key. */
  function Evicted(cache: map<CacheKey, BAMIPResult>, order: seq<CacheKey>): map<CacheKey, BAMIPResult>
  {
    if |order| >= MaxCacheSize then cache - {order[0]} else cache
  }

  /**
   * Making room keeps the shape, leaves room for one more key, and keeps
   * every entry but the oldest of a full cache.
   */
  lemma EvictOldest(cache: map<CacheKey, BAMIPResult>, order: seq<CacheKey>)
    requires CacheShape(cache, order)
    ensures CacheShape(Evicted(cache, order), Kept(order)) && |Kept(order)| < MaxCacheSize
    ensures forall k :: k in Kept(order) ==> k in Evicted(cache, order) && Evicted(cache, order)[k] == cache[k]
    ensures Evicted(cache, order).Keys <= cache.Keys
  {
    if |order| >= MaxCacheSize {
      forall k
        ensures k in cache - {order[0]} <==> k in order[1..]
      {
        if k in order[1..] {
          var j :| 1 <= j < |order| && order[j] == k;
          assert order[0] != order[j];
        }
      }
    }
  }

  /** Storing a new key's result last keeps the shape when there is room. */
  lemma StoreLast(cache: map<CacheKey, BAMIPResult>, order: seq<CacheKey>, key: CacheKey, r: BAMIPResult)
    requires CacheShape(cache, order) && |order| < MaxCacheSize
    requires key !in cache && Describes(r, key)
    ensures CacheShape(cache[key := r], order + [key])
  {
    var o := order + [key];
    forall i, j | 0 <= i < j < |o|
      ensures o[i] != o[j]
    {
      if j == |order| {
        assert o[i] in order;
      }
    }
  }

  /**
   * `BAMIPPipeline`: the scorers, the embedding checker, the mitigator and
   * the FIFO analysis cache, whose insertion order `order` records.
   */
  class BAMIPPipeline {
    const engines: Engines
    const checker: Embeddings.EmbeddingChecker
    const mitigator: BiasMitigator.BAMIPMitigator
    var cache: map<CacheKey, BAMIPResult>
    var order: seq<CacheKey>

    /**
     * The checker and mitigator are usable, the cache is bounded and in
     * insertion order, and every cached result belongs to its key.
     */
    ghost predicate Valid()
      reads this, checker
    {
      checker.Valid() && BiasMitigator.ValidConfig(mitigator.config)
      && CacheShape(cache, order)
    }

    /** `__init__`: fresh components (the checker holding the embedded catalogue) and an empty cache. */
    constructor(e: Engines)
      ensures Valid() && fresh(checker) && fresh(mitigator)
      ensures engines == e && cache == map[] && order == []
      ensures checker.adaptiveThresholds == Embeddings.DefaultThresholds()
      ensures checker.stereotypePhrases == Embeddings.Catalog() && checker.hasEmbeddings
      ensures mitigator.config == BiasMitigator.DefaultConfig() && mitigator.usedSources == None
    {
      engines := e;
      checker := new Embeddings.EmbeddingChecker();
      mitigator := new BiasMitigator.BAMIPMitigator();
      cache := map[];
      order := [];
    }

    /** `classify_prompt_subtype`: the five scans in order, then the keyword check. */
    method ClassifyPromptSubtype(prompt: string) returns (r: PromptSubtype)
      ensures r == PromptSubtypeOf(engines.classifier, prompt)
    {
      var t := LowerStr(prompt);
      var rx := engines.classifier;
      var hit := SearchGroup(rx, IdentityConfusion, t);
      if hit { return IdentityConfusionPrompt; }
      hit := SearchGroup(rx, Analogical, t);
      if hit { return AnalogicalPrompt; }
      hit := SearchGroup(rx, Comparative, t);
      if hit { return ComparativePrompt; }
      hit := SearchGroup(rx, Scenario, t);
      if hit { return ScenarioBasedPrompt; }
      hit := SearchGroup(rx, Descriptive, t);
      if hit { return DescriptivePrompt; }
      if MentionsSikh(t) { return DescriptivePrompt; }
      return GeneralPrompt;
    }

    /** `classify_bias_type`: the five scans in order, then the score and threshold fallback. */
    method ClassifyBiasType(response: string, overall: real, thresholdExceeded: bool) returns (r: BiasType)
      ensures r == BiasTypeOf(engines.classifier, response, overall, thresholdExceeded)
    {
      var t := LowerStr(response);
      var rx := engines.classifier;
      var hit := SearchGroup(rx, Historical, t);
      if hit { return HistoricalBias; }
      hit := SearchGroup(rx, Representational, t);
      if hit { return RepresentationalBias; }
      hit := SearchGroup(rx, Measurement, t);
      if hit { return MeasurementBias; }
      hit := SearchGroup(rx, Aggregation, t);
      if hit { return AggregationBias; }
      hit := SearchGroup(rx, Evaluation, t);
      if hit { return EvaluationBias; }
      if overall < 3.5 || thresholdExceeded { return GeneralBias; }
      return NoBiasDetected;
    }

    /**
     * The uncached part of `process_prompt`: classify, score, compute the
     * similarity, assess the risk, select and apply the strategy, rescore,
     * raise, classify the bias type and recommend.
     */
    method Analyze(prompt: string, response: string, model: Option<AIModel>) returns (result: BAMIPResult)
      requires checker.Valid() && BiasMitigator.ValidConfig(mitigator.config)
      modifies mitigator
      ensures result == Analysis(engines, mitigator.config, old(checker.adaptiveThresholds), old(checker.hasEmbeddings),
                                 old(checker.stereotypePhrases), prompt, response, model)
      ensures mitigator.usedSources
              == if result.mitigation.strategyUsed == RetrievalGrounding
                 then Some([BiasMitigator.ChosenAnchor(mitigator.config, response)])
                 else if old(mitigator.usedSources).Some? then Some([]) else None
    {
      ghost var th, hasEmbeddings, phrases := checker.adaptiveThresholds, checker.hasEmbeddings, checker.stereotypePhrases;
      var aiModel := ModelOrUnknown(model);
      var subtype := ClassifyPromptSubtype(prompt);
      var rubric := ResearchRubric.ScoreResponse(engines.rubric, response, prompt);
      var detection := Converted(rubric, 0.85);
      var similarity := checker.ComputeSimilarity(engines.similarity(response));
      var risk := AssessRisk(detection.overallScore, similarity.maxSimilarity, 7.0, 4.0);
      var selected := SelectOptimalStrategy(detection.scores);
      var mitigation := mitigator.MitigateBias(engines.selection, response, Some(selected.0));
      var rescored := ResearchRubric.ScoreResponse(engines.rubric, mitigation.mitigatedText, prompt);
      var improved := EnsureImprovement(rubric, rescored);
      var biasType := ClassifyBiasType(response, detection.overallScore, similarity.thresholdExceeded);
      var advice := Recommendations(risk, mitigation.strategyUsed, biasType, similarity.maxSimilarity, aiModel);
      result := BAMIPResult(prompt, response, aiModel, detection, similarity, risk, mitigation,
                            Converted(improved, 0.90), mitigation.mitigatedText, advice, selected.1, subtype, biasType);
      AssembledAnalysis(engines, mitigator.config, th, hasEmbeddings, phrases, prompt, response, model, result);
    }

    /** `process_prompt`'s eviction: a full cache first drops the key stored longest ago. */
    method MakeRoom()
      requires Valid()
      modifies this
      ensures Valid() && |order| < MaxCacheSize
      ensures cache == Evicted(old(cache), old(order)) && order == Kept(old(order))
    {
      CacheSize(cache, order);
      EvictOldest(cache, order);
      if |cache| >= MaxCacheSize {
        var oldest := order[0];
        cache := cache - {oldest};
        order := order[1..];
      }
    }

    /** `process_prompt`'s insertion: the new result is stored under its key, last in order. */
    method Store(key: CacheKey, r: BAMIPResult)
      requires Valid() && |order| < MaxCacheSize && key !in cache && Describes(r, key)
      modifies this
      ensures Valid()
      ensures cache == old(cache)[key := r] && order == old(order) + [key]
    {
      StoreLast(cache, order, key, r);
      cache := cache[key := r];
      order := order + [key];
    }

    /**
     * `process_prompt`: a cached key returns its stored result and changes
     * nothing; otherwise the cache makes room, the analysis runs with the
     * mitigator, which is left holding this run's sources, and its result
     * is stored last.
     */
    method ProcessPrompt(prompt: string, response: string, model: Option<AIModel>) returns (result: BAMIPResult)
      requires Valid()
      modifies this, mitigator
      ensures Valid()
      ensures CacheKey(prompt, response, model) in cache && cache[CacheKey(prompt, response, model)] == result
      ensures CacheKey(prompt, response, model) in old(cache)
              ==> result == old(cache)[CacheKey(prompt, response, model)]
                  && cache == old(cache) && order == old(order) && mitigator.usedSources == old(mitigator.usedSources)
      ensures CacheKey(prompt, response, model) !in old(cache)
              ==> result == Analysis(engines, mitigator.config, old(checker.adaptiveThresholds),
                                     old(checker.hasEmbeddings), old(checker.stereotypePhrases), prompt, response, model)
                  && cache == Evicted(old(cache), old(order))[CacheKey(prompt, response, model) := result]
                  && order == Kept(old(order)) + [CacheKey(prompt, response, model)]
                  && mitigator.usedSources
                     == if result.mitigation.strategyUsed == RetrievalGrounding
                        then Some([BiasMitigator.ChosenAnchor(mitigator.config, response)])
                        else if old(mitigator.usedSources).Some? then Some([]) else None
    {
      var key := CacheKey(prompt, response, model);
      if key in cache {
        return cache[key];
      }
      MakeRoom();
      result := Analyze(prompt, response, model);
      Store(key, result);
    }

    /**
     * `apply_multiple_strategies`: grounding, neutral language, reframing and
     * counter-narrative in that order, each applied through the mitigator
     * when it is applicable to the text so far.
     */
    method ApplyMultipleStrategies(response: string) returns (text: string)
      requires BiasMitigator.ValidConfig(mitigator.config)
      modifies mitigator
      ensures Layering(text, mitigator.usedSources)
              == Layer(mitigator.config, engines.applicability, Layering(response, old(mitigator.usedSources)),
                       PriorityOrder())
    {
      var strategies := PriorityOrder();
      var cfg, rx := mitigator.config, engines.applicability;
      text := response;
      var i := 0;
      while i < |strategies|
        invariant 0 <= i <= |strategies|
        invariant Layer(cfg, rx, Layering(text, mitigator.usedSources), strategies[i..])
                  == Layer(cfg, rx, Layering(response, old(mitigator.usedSources)), strategies)
      {
        if Applicable(rx, text, strategies[i]) {
          var result := mitigator.MitigateBias(engines.selection, text, Some(strategies[i]));
          text := result.mitigatedText;
        }
        i := i + 1;
      }
    }
  }
}
