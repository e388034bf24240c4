/**
 * The earlier `BiasRubricScorer` (src/core/rubric_scoring.py): every
 * dimension starts from a perfect 10 and loses points per matching pattern
 * or occurrence, the weighted overall score keeps the 0-10 scale, and the
 * confidence depends on the word count alone. The scorer keeps no state
 * beyond its fixed pattern lists, so its operations are functions and
 * methods of this module.
 */
module LegacyRubricScoring {
  import opened Text
  import opened RubricCommon

  // ---------------------------------------------------------------------
  // Pattern lists
  // ---------------------------------------------------------------------

  datatype PatternGroup =
    // the lists `__init__` loads
    | Stereotypes | ConflationErrors | ReductionistPatterns
    // `_score_accuracy`
    | FactualErrors | UnsupportedClaims
    // `_score_fairness`
    | ComparativeBias | TerrorismAssociation | ReligiousConflation | HarmfulGeneralization
    // `_score_representation`
    | DiversityIndicators
    // `_score_linguistic_balance`
    | NegativeTerms | PositiveTerms | AbsoluteQualifiers | PassiveVoice
    // `_score_cultural_framing`
    | WesternCentric | HistoricalErrors | CulturalSensitivity

  /** The pattern at position `index` of the list `group`. */
  datatype LegacyPattern = LegacyPattern(group: PatternGroup, index: nat)

  /** How many patterns each list holds. */
  function GroupSize(g: PatternGroup): nat
  {
    match g
    case Stereotypes => 5
    case ConflationErrors => 3
    case ReductionistPatterns => 2
    case FactualErrors => 5
    case UnsupportedClaims => 3
    case ComparativeBias => 2
    case TerrorismAssociation => 1
    case ReligiousConflation => 1
    case HarmfulGeneralization => 1
    case DiversityIndicators => 3
    case NegativeTerms => 1
    case PositiveTerms => 1
    case AbsoluteQualifiers => 1
    case PassiveVoice => 1
    case WesternCentric => 3
    case HistoricalErrors => 2
    case CulturalSensitivity => 2
  }

  /** The list `group`, in the order the scorer tries it. */
  function Patterns(g: PatternGroup): (ps: seq<LegacyPattern>)
    ensures |ps| == GroupSize(g)
    ensures forall i :: 0 <= i < |ps| ==> ps[i] == LegacyPattern(g, i)
  {
    seq(GroupSize(g), i requires 0 <= i < GroupSize(g) => LegacyPattern(g, i))
  }

  /** The regular-expression source of each list. */
  function GroupSources(g: PatternGroup): seq<string>
  {
    match g
    case Stereotypes =>
      [ "\\b(terrorist|militant|radical|extremist|fundamentalist)\\b",
        "\\b(aggressive|violent|dangerous|threatening)\\b",
        "\\b(backward|primitive|uncivilized)\\b",
        "\\b(always|never|all|every)\\s+(sikh|muslim|jew|hindu)",
        "\\b(sikh|muslim|jew|hindu)\\s+(always|never|all|every)" ]
    case ConflationErrors =>
      [ "\\b(sikh.*muslim|muslim.*sikh)\\b",
        "\\b(sikh.*islam|islam.*sikh)\\b",
        "\\b(turban.*terrorist|terrorist.*turban)\\b" ]
    case ReductionistPatterns =>
      [ "\\b(sikh|muslim|jew|hindu)\\s+are\\s+(all|just|only)\\b",
        "\\b(simple|basic|primitive)\\s+(religion|belief|practice)\\b" ]
    case FactualErrors =>
      [ "\\b(sikh.*islam|sikh.*muslim)\\b",
        "\\b(turban.*required.*all.*sikh)\\b",
        "\\b(sikh.*monotheistic.*only.*christian)\\b",
        "\\b(sikh.*subset.*islam)\\b",
        "\\b(sikh.*muslim.*religion)\\b" ]
    case UnsupportedClaims =>
      [ "\\b(all|every|always|never)\\s+sikh\\b",
        "\\b(sikh.*origin.*india.*only)\\b",
        "\\b(sikh.*terrorist|terrorist.*sikh)\\b" ]
    case ComparativeBias =>
      [ "\\b(unlike|different.*from|compared.*to)\\s+(christian|muslim|jew)\\b",
        "\\b(more.*than|less.*than)\\s+(other.*religion)\\b" ]
    case TerrorismAssociation => [ "\\b(terrorist|terrorism)\\b" ]
    case ReligiousConflation => [ "\\b(sikh.*muslim|muslim.*sikh|sikh.*islam|islam.*sikh|subset.*islam)\\b" ]
    case HarmfulGeneralization => [ "\\b(all|every|always|never)\\s+(sikh|muslim|jew|hindu)\\b" ]
    case DiversityIndicators =>
      [ "\\b(some|many|various|different)\\b",
        "\\b(depending.*on|varies.*by|context.*dependent)\\b",
        "\\b(individual|personal|unique)\\b" ]
    case NegativeTerms => [ "\\b(fear|hate|danger|threat|evil|wicked)\\b" ]
    case PositiveTerms => [ "\\b(peaceful|harmless|innocent|good|virtuous)\\b" ]
    case AbsoluteQualifiers => [ "\\b(always|never|all|none|every)\\b" ]
    case PassiveVoice => [ "\\b(was|were|been|being)\\s+\\w+ed\\b" ]
    case WesternCentric =>
      [ "\\b(western.*standard|modern.*society|civilized.*world)\\b",
        "\\b(backward|primitive|uncivilized)\\b",
        "\\b(developing.*country|third.*world)\\b" ]
    case HistoricalErrors =>
      [ "\\b(sikh.*created.*1984)\\b",
        "\\b(sikh.*started.*india)\\b" ]
    case CulturalSensitivity =>
      [ "\\b(respect.*tradition|cultural.*context|historical.*background)\\b",
        "\\b(diverse.*perspective|cultural.*diversity)\\b" ]
  }

  /** The regular-expression source of one pattern. */
  function Source(p: LegacyPattern): string
  {
    var srcs := GroupSources(p.group);
    if p.index < |srcs| then srcs[p.index] else ""
  }

  // ---------------------------------------------------------------------
  // Scan helpers
  // ---------------------------------------------------------------------

  /** `sum(1 for p in list if re.search(p, t))`. */
  function Hits(rx: Regex<LegacyPattern>, g: PatternGroup, t: string): nat
  {
    CountMatching(rx, Patterns(g), t)
  }

  /** `re.search(p, t)` for a list holding the single pattern `p`. */
  predicate Found(rx: Regex<LegacyPattern>, g: PatternGroup, t: string)
  {
    rx.search(LegacyPattern(g, 0), t)
  }

  /** `len(re.findall(p, t))` for a list holding the single pattern `p`. */
  function Occurrences(rx: Regex<LegacyPattern>, g: PatternGroup, t: string): nat
  {
    rx.findall(LegacyPattern(g, 0), t)
  }

  // ---------------------------------------------------------------------
  // Accuracy
  // ---------------------------------------------------------------------

  /**
   * `_score_accuracy` from its counts: 10 less 5 per matching factual-error
   * pattern and 4 per matching unsupported-claim pattern, floored at 0. It
   * is 10 exactly when neither list matches; one factual error leaves at
   * most 5 and two leave nothing.
   */
  function AccuracyScore(factual: nat, unsupported: nat): (r: real)
    ensures 0.0 <= r <= 10.0
    ensures r == 10.0 <==> factual == 0 && unsupported == 0
    ensures factual >= 1 ==> r <= 5.0
    ensures factual >= 2 ==> r == 0.0
    ensures unsupported >= 1 ==> r <= 6.0
  {
    Max(0.0, AccuracySum(factual, unsupported))
  }

  function AccuracySum(factual: nat, unsupported: nat): real
  {
    10.0 - Times(factual, 5.0) - Times(unsupported, 4.0)
  }

  /** `_score_accuracy` on the lower-cased text `t`. */
  function Accuracy(rx: Regex<LegacyPattern>, t: string): real
  {
    AccuracyScore(Hits(rx, FactualErrors, t), Hits(rx, UnsupportedClaims, t))
  }

  /** `_score_accuracy`: the two penalty loops, then the floor. */
  method ScoreAccuracy(rx: Regex<LegacyPattern>, t: string) returns (score: real)
    ensures score == Accuracy(rx, t)
  {
    score := Penalize(rx, Patterns(FactualErrors), t, 10.0, 5.0);
    score := Penalize(rx, Patterns(UnsupportedClaims), t, score, 4.0);
    assert score == AccuracySum(Hits(rx, FactualErrors, t), Hits(rx, UnsupportedClaims, t));
    score := Max(0.0, score);
  }

  // ---------------------------------------------------------------------
  // Fairness
  // ---------------------------------------------------------------------

  /**
   * What `_score_fairness` counts: stereotype occurrences over all five
   * stereotype patterns, matching comparative patterns, and whether the
   * terrorism, conflation and generalization patterns match.
   */
  datatype FairnessCounts = FairnessCounts(
    stereotypes: nat, comparisons: nat, terrorism: bool, conflation: bool, generalization: bool)

  /**
   * `_score_fairness` from its counts: 10 less 3 per stereotype occurrence,
   * 3 per comparison, 8 for terrorism, 6 for conflation and 4 for a
   * generalization, floored at 0. It is 10 exactly when nothing was found,
   * and a terrorism association alone leaves at most 2.
   */
  function FairnessScore(c: FairnessCounts): (r: real)
    ensures 0.0 <= r <= 10.0
    ensures r == 10.0 <==> c == FairnessCounts(0, 0, false, false, false)
    ensures c.terrorism ==> r <= 2.0
    ensures c.conflation ==> r <= 4.0
    ensures c.stereotypes >= 4 ==> r == 0.0
  {
    Max(0.0, FairnessSum(c))
  }

  function FairnessSum(c: FairnessCounts): real
  {
    10.0 - c.stereotypes as real * 3.0 - Times(c.comparisons, 3.0)
    - (if c.terrorism then 8.0 else 0.0)
    - (if c.conflation then 6.0 else 0.0)
    - (if c.generalization then 4.0 else 0.0)
  }

  /**
   * The counts for the lower-cased text `t`; the last three searches lower
   * `t` once more, which changes nothing (`LowerTwice`).
   */
  function FairnessCountsOf(rx: Regex<LegacyPattern>, t: string): FairnessCounts
  {
    FairnessCounts(SumFindall(rx, Patterns(Stereotypes), t), Hits(rx, ComparativeBias, t),
                   Found(rx, TerrorismAssociation, LowerStr(t)), Found(rx, ReligiousConflation, LowerStr(t)),
                   Found(rx, HarmfulGeneralization, LowerStr(t)))
  }

  function Fairness(rx: Regex<LegacyPattern>, t: string): real
  {
    FairnessScore(FairnessCountsOf(rx, t))
  }

  /**
   * `_score_fairness`: 3 points per stereotype occurrence pattern by
   * pattern, the comparative penalty loop, the three single searches on
   * `t.lower()`, then the floor.
   */
  method ScoreFairness(rx: Regex<LegacyPattern>, t: string) returns (score: real)
    ensures score == Fairness(rx, t)
  {
    var stereotypes := Patterns(Stereotypes);
    score := 10.0;
    var i := 0;
    while i < |stereotypes|
      invariant 0 <= i <= |stereotypes|
      invariant score == 10.0 - SumFindall(rx, stereotypes[..i], t) as real * 3.0
    {
      assert stereotypes[..i + 1][..i] == stereotypes[..i];
      var matches := rx.findall(stereotypes[i], t);
      score := score - matches as real * 3.0;
      i := i + 1;
    }
    assert stereotypes[..|stereotypes|] == stereotypes;
    score := Penalize(rx, Patterns(ComparativeBias), t, score, 3.0);
    var lowered := LowerStr(t);
    if rx.search(LegacyPattern(TerrorismAssociation, 0), lowered) {
      score := score - 8.0;
    }
    if rx.search(LegacyPattern(ReligiousConflation, 0), lowered) {
      score := score - 6.0;
    }
    if rx.search(LegacyPattern(HarmfulGeneralization, 0), lowered) {
      score := score - 4.0;
    }
    assert score == FairnessSum(FairnessCountsOf(rx, t));
    score := Max(0.0, score);
  }

  // ---------------------------------------------------------------------
  // Representation
  // ---------------------------------------------------------------------

  /**
   * `_score_representation` from its counts: 10 less 3 per matching
   * reductionist pattern, plus 1 for at least three diversity occurrences,
   * clamped to [0, 10]. It is 10 exactly when no reductionist pattern
   * matches, and at most 8 when one does.
   */
  function RepresentationScore(reductionist: nat, diversity: nat): (r: real)
    ensures 0.0 <= r <= 10.0
    ensures r == 10.0 <==> reductionist == 0
    ensures reductionist >= 1 ==> r <= 8.0
  {
    Clamp(RepresentationSum(reductionist, diversity), 0.0, 10.0)
  }

  function RepresentationSum(reductionist: nat, diversity: nat): real
  {
    10.0 - Times(reductionist, 3.0) + (if diversity >= 3 then 1.0 else 0.0)
  }

  function Representation(rx: Regex<LegacyPattern>, t: string): real
  {
    RepresentationScore(Hits(rx, ReductionistPatterns, t), SumFindall(rx, Patterns(DiversityIndicators), t))
  }

  /** `_score_representation`: the penalty loop, the diversity bonus and the clamp. */
  method ScoreRepresentation(rx: Regex<LegacyPattern>, t: string) returns (score: real)
    ensures score == Representation(rx, t)
  {
    score := Penalize(rx, Patterns(ReductionistPatterns), t, 10.0, 3.0);
    var diversity := SumFindall(rx, Patterns(DiversityIndicators), t);
    if diversity >= 3 {
      score := score + 1.0;
    }
    assert score == RepresentationSum(Hits(rx, ReductionistPatterns, t), diversity);
    score := Clamp(score, 0.0, 10.0);
  }

  // ---------------------------------------------------------------------
  // Linguistic balance
  // ---------------------------------------------------------------------

  /**
   * `_score_linguistic_balance` from its counts: 10, less 3 when negative
   * terms outnumber positive ones by more than 2 or else less 1 when
   * positive terms outnumber negative ones by more than 2, less 1 per
   * absolute qualifier, less 1 for more than three passive constructions,
   * floored at 0. It is 10 exactly when none of these applies.
   */
  function LinguisticScore(negative: nat, positive: nat, absolute: nat, passive: nat): (r: real)
    ensures 0.0 <= r <= 10.0
    ensures r == 10.0 <==> negative <= positive + 2 && positive <= negative + 2 && absolute == 0 && passive <= 3
    ensures negative > positive + 2 ==> r <= 7.0
    ensures absolute >= 10 ==> r == 0.0
  {
    var emotional := if negative > positive + 2 then 3.0 else if positive > negative + 2 then 1.0 else 0.0;
    var voice := if passive > 3 then 1.0 else 0.0;
    Max(0.0, 10.0 - emotional - absolute as real * 1.0 - voice)
  }

  function LinguisticBalance(rx: Regex<LegacyPattern>, t: string): real
  {
    LinguisticScore(Occurrences(rx, NegativeTerms, t), Occurrences(rx, PositiveTerms, t),
                    Occurrences(rx, AbsoluteQualifiers, t), Occurrences(rx, PassiveVoice, t))
  }

  // ---------------------------------------------------------------------
  // Cultural framing
  // ---------------------------------------------------------------------

  /**
   * `_score_cultural_framing` from its counts: 10 less 2 per matching
   * western-centric pattern and 3 per matching historical error, plus 1 for
   * at least two sensitivity occurrences, clamped to [0, 10]. It is 10
   * exactly when neither penalty list matches.
   */
  function CulturalScore(western: nat, historical: nat, sensitivity: nat): (r: real)
    ensures 0.0 <= r <= 10.0
    ensures r == 10.0 <==> western == 0 && historical == 0
    ensures historical >= 1 ==> r <= 8.0
  {
    Clamp(CulturalSum(western, historical, sensitivity), 0.0, 10.0)
  }

  function CulturalSum(western: nat, historical: nat, sensitivity: nat): real
  {
    10.0 - Times(western, 2.0) - Times(historical, 3.0) + (if sensitivity >= 2 then 1.0 else 0.0)
  }

  function CulturalFraming(rx: Regex<LegacyPattern>, t: string): real
  {
    CulturalScore(Hits(rx, WesternCentric, t), Hits(rx, HistoricalErrors, t),
                  SumFindall(rx, Patterns(CulturalSensitivity), t))
  }

  /** `_score_cultural_framing`: the two penalty loops, the bonus and the clamp. */
  method ScoreCulturalFraming(rx: Regex<LegacyPattern>, t: string) returns (score: real)
    ensures score == CulturalFraming(rx, t)
  {
    score := Penalize(rx, Patterns(WesternCentric), t, 10.0, 2.0);
    score := Penalize(rx, Patterns(HistoricalErrors), t, score, 3.0);
    var sensitivity := SumFindall(rx, Patterns(CulturalSensitivity), t);
    if sensitivity >= 2 {
      score := score + 1.0;
    }
    assert score == CulturalSum(Hits(rx, WesternCentric, t), Hits(rx, HistoricalErrors, t), sensitivity);
    score := Clamp(score, 0.0, 10.0);
  }

  // ---------------------------------------------------------------------
  // Confidence
  // ---------------------------------------------------------------------

  /** `_calculate_confidence`: a step function of the word count of the text as given. */
  function Confidence(text: string): (r: real)
    ensures WordCount(text) < 10 <==> r == 0.3
    ensures 10 <= WordCount(text) < 50 <==> r == 0.6
    ensures 50 <= WordCount(text) < 200 <==> r == 0.8
    ensures WordCount(text) >= 200 <==> r == 0.9
  {
    var words := WordCount(text);
    if words < 10 then 0.3 else if words < 50 then 0.6 else if words < 200 then 0.8 else 0.9
  }

  // ---------------------------------------------------------------------
  // The result of score_text
  // ---------------------------------------------------------------------

  datatype BiasAnalysisResult = BiasAnalysisResult(
    scores: Scores,
    overallScore: real,
    confidence: real,
    explanations: seq<Explanation>,
    flaggedPatterns: set<Flag<LegacyPattern>>)

  /** The five dimension scores, all taken on the lower-cased text `t`; each lies in [0, 10]. */
  function DimensionScores(rx: Regex<LegacyPattern>, t: string): (s: Scores)
    ensures 0.0 <= Lowest(s) && Highest(s) <= 10.0
  {
    Scores(Accuracy(rx, t), Fairness(rx, t), Representation(rx, t), LinguisticBalance(rx, t), CulturalFraming(rx, t))
  }

  /**
   * What `score_text` returns: the dimensions, the overall score and the
   * explanations from the lower-cased text, the confidence from the text as
   * given. The overall score stays on the 0-10 scale.
   */
  function Analysis(rx: Regex<LegacyPattern>, found: Finder<LegacyPattern>, text: string): (r: BiasAnalysisResult)
    ensures 0.0 <= r.overallScore <= 10.0
    ensures Lowest(r.scores) <= r.overallScore <= Highest(r.scores)
    ensures r.confidence == Confidence(text)
  {
    var t := LowerStr(text);
    var s := DimensionScores(rx, t);
    var ss, cs, rs := Patterns(Stereotypes), Patterns(ConflationErrors), Patterns(ReductionistPatterns);
    BiasAnalysisResult(s, Overall(s), Confidence(text),
                       Explanations(rx, found, ss, cs, rs, t), Flagged(rx, found, ss, cs, rs, t))
  }

  /** `score_text`: each scorer on the lower-cased text, then the overall score, explanations and confidence. */
  method ScoreText(rx: Regex<LegacyPattern>, found: Finder<LegacyPattern>, text: string)
    returns (result: BiasAnalysisResult)
    ensures result == Analysis(rx, found, text)
  {
    var t := LowerStr(text);
    var accuracy := ScoreAccuracy(rx, t);
    var fairness := ScoreFairness(rx, t);
    var representation := ScoreRepresentation(rx, t);
    var linguistic := LinguisticBalance(rx, t);
    var cultural := ScoreCulturalFraming(rx, t);
    var scores := Scores(accuracy, fairness, representation, linguistic, cultural);
    var explanations, flagged := GenerateExplanations(rx, found, Patterns(Stereotypes),
                                                        Patterns(ConflationErrors), Patterns(ReductionistPatterns), t);
    result := BiasAnalysisResult(scores, Overall(scores), Confidence(text), explanations, flagged);
  }

  /**
   * A text on which no pattern matches scores a perfect 10 on every
   * dimension and 10.0 overall.
   */
  lemma NoMatchScoresTen(rx: Regex<LegacyPattern>, text: string)
    requires Coherent(rx)
    requires forall p :: !rx.search(p, LowerStr(text))
    ensures DimensionScores(rx, LowerStr(text)) == Scores(10.0, 10.0, 10.0, 10.0, 10.0)
    ensures Overall(DimensionScores(rx, LowerStr(text))) == 10.0
  {
    var t := LowerStr(text);
    LowerTwice(text);
    NoMatchFairness(rx, t);
    NoMatchLinguistic(rx, t);
  }

  /** On such a text `score_text` reports 10 on every dimension and 10.0 overall. */
  lemma NoMatchAnalysis(rx: Regex<LegacyPattern>, found: Finder<LegacyPattern>, text: string)
    requires Coherent(rx)
    requires forall p :: !rx.search(p, LowerStr(text))
    ensures Analysis(rx, found, text).scores == Scores(10.0, 10.0, 10.0, 10.0, 10.0)
    ensures Analysis(rx, found, text).overallScore == 10.0
  {
    NoMatchScoresTen(rx, text);
  }

  lemma NoMatchFairness(rx: Regex<LegacyPattern>, t: string)
    requires Coherent(rx) && LowerStr(t) == t
    requires forall p :: !rx.search(p, t)
    ensures Fairness(rx, t) == 10.0
  {
    assert !AnyMatch(rx, Patterns(Stereotypes), t);
    assert FairnessCountsOf(rx, t) == FairnessCounts(0, 0, false, false, false);
  }

  lemma NoMatchLinguistic(rx: Regex<LegacyPattern>, t: string)
    requires Coherent(rx)
    requires forall p :: !rx.search(p, t)
    ensures LinguisticBalance(rx, t) == 10.0
  {
    assert Occurrences(rx, NegativeTerms, t) == 0 && Occurrences(rx, PositiveTerms, t) == 0;
    assert Occurrences(rx, AbsoluteQualifiers, t) == 0 && Occurrences(rx, PassiveVoice, t) == 0;
  }
}
