/**
 * `BiasRubricScorer` (biaslense/src/core/rubric_scoring.py): five dimensions
 * scored by additive penalties and bonuses from a baseline, each clamped,
 * combined with fixed weights, plus explanations and a clamped confidence.
 * Accuracy, relevance and fairness leave a details record on the scorer
 * object, which `score_text` reads back into its result.
 */
module RubricScoring {
  import opened Text
  import opened RubricCommon

  // ---------------------------------------------------------------------
  // Pattern lists
  // ---------------------------------------------------------------------

  datatype PatternGroup =
    // the lists `__init__` loads and `_generate_explanations` reads
    | Stereotypes | ConflationErrors | ReductionistPatterns
    // `_score_accuracy`
    | CriticalErrors | MajorErrors | AccuracyIndicators | MinorErrors
    // `_score_fairness`
    | ExtremeBias | ReligiousConflation | Generalizations | ComparativeBias | Othering
    | FairnessIndicators | InclusiveLanguage
    // `_score_representation`
    | Reductionist | Oversimplification | DiversityIndicators | CommunityDiversity
    // `_score_linguistic_balance`
    | NegativeTerms | PositiveTerms | AbsoluteQualifiers | LoadedLanguage | BalancedLanguage
    // `_score_cultural_framing`
    | WesternCentric | HistoricalErrors | CulturalSensitivity
    // `_calculate_confidence`
    | StrongBias | NeutralIndicators | ContextIndicators

  /** The pattern at position `index` of the list `group`. */
  datatype ScorerPattern = ScorerPattern(group: PatternGroup, index: nat)

  /** How many patterns each list holds. */
  function GroupSize(g: PatternGroup): nat
  {
    match g
    case Stereotypes => 5
    case ConflationErrors => 3
    case ReductionistPatterns => 2
    case CriticalErrors => 7
    case MajorErrors => 5
    case AccuracyIndicators => 6
    case MinorErrors => 2
    case ExtremeBias => 3
    case ReligiousConflation => 5
    case Generalizations => 4
    case ComparativeBias => 5
    case Othering => 3
    case FairnessIndicators => 5
    case InclusiveLanguage => 3
    case Reductionist => 4
    case Oversimplification => 3
    case DiversityIndicators => 4
    case CommunityDiversity => 2
    case NegativeTerms => 1
    case PositiveTerms => 1
    case AbsoluteQualifiers => 1
    case LoadedLanguage => 1
    case BalancedLanguage => 3
    case WesternCentric => 3
    case HistoricalErrors => 2
    case CulturalSensitivity => 2
    case StrongBias => 5
    case NeutralIndicators => 3
    case ContextIndicators => 3
  }

  /** The list `group`, in the order the scorer tries it. */
  function Patterns(g: PatternGroup): (ps: seq<ScorerPattern>)
    ensures |ps| == GroupSize(g)
    ensures forall i :: 0 <= i < |ps| ==> ps[i] == ScorerPattern(g, i)
  {
    seq(GroupSize(g), i requires 0 <= i < GroupSize(g) => ScorerPattern(g, i))
  }

  /** The regular-expression source of each list. */
  function GroupSources(g: PatternGroup): seq<string>
  {
    match g
    case Stereotypes =>
      [ "\\b(terrorist|militant|radical|extremist|fundamentalist)\\b",
        "\\b(aggressive|violent|dangerous|threatening)\\b",
        "\\b(backward|primitive|uncivilized)\\b",
        "\\b(always|never|all|every)\\s+(sikh|muslim|jew|hindu)",
        "\\b(sikh|muslim|jew|hindu)\\s+(always|never|all|every)" ]
    case ConflationErrors =>
      [ "\\b(sikh.*muslim|muslim.*sikh)\\b",
        "\\b(sikh.*islam|islam.*sikh)\\b",
        "\\b(turban.*terrorist|terrorist.*turban)\\b" ]
    case ReductionistPatterns =>
      [ "\\b(sikh|muslim|jew|hindu)\\s+are\\s+(all|just|only)\\b",
        "\\b(simple|basic|primitive)\\s+(religion|belief|practice)\\b" ]
    case CriticalErrors =>
      [ "\\b(sikh.*islam|sikh.*muslim|muslim.*sikh|islam.*sikh)\\b",
        "\\b(sikh.*subset.*islam|subset.*islam.*sikh)\\b",
        "\\b(sikh.*branch.*islam|branch.*islam.*sikh)\\b",
        "\\b(sikh.*derived.*islam|derived.*islam.*sikh)\\b",
        "\\b(sikhism.*part.*islam|islam.*includes.*sikh)\\b",
        "\\b(sikhism.*is.*islam|islam.*is.*sikh)\\b",
        "\\b(sikh.*from.*islam|islam.*created.*sikh)\\b" ]
    case MajorErrors =>
      [ "\\b(turban.*required.*all.*sikh|all.*sikh.*must.*turban)\\b",
        "\\b(sikh.*founded.*islam|islam.*founded.*sikh)\\b",
        "\\b(guru.*nanak.*muslim|muslim.*guru.*nanak)\\b",
        "\\b(sikh.*worship.*allah|allah.*sikh)\\b",
        "\\b(sikh.*follow.*quran|quran.*sikh)\\b" ]
    case AccuracyIndicators =>
      [ "\\b(guru\\s+nanak|founded.*1469|15th.*century)\\b",
        "\\b(monotheistic.*religion|one.*god|waheguru|ik.*onkar)\\b",
        "\\b(punjab|amritsar|golden.*temple|harmandir.*sahib)\\b",
        "\\b(ten.*guru|guru.*gobind.*singh|guru.*granth.*sahib)\\b",
        "\\b(distinct.*religion|separate.*religion|independent.*faith)\\b",
        "\\b(five.*k|panj.*kakar|kesh.*kara.*kanga.*kachera.*kirpan)\\b" ]
    case MinorErrors =>
      [ "\\b(all.*sikh.*wear.*turban|every.*sikh.*turban)\\b",
        "\\b(sikh.*only.*punjab|only.*punjab.*sikh)\\b" ]
    case ExtremeBias =>
      [ "\\b(terrorist|terrorism|militant|extremist)\\b",
        "\\b(dangerous|violent|aggressive|threatening)\\b",
        "\\b(backward|primitive|uncivilized|savage)\\b" ]
    case ReligiousConflation =>
      [ "\\b(sikh.*muslim|muslim.*sikh|sikh.*islam|islam.*sikh)\\b",
        "\\b(subset.*islam|branch.*islam|derived.*islam)\\b",
        "\\b(blend.*islam|mix.*islam|combination.*islam)\\b",
        "\\b(sikh.*hindu|hindu.*sikh|sikh.*christianity|christianity.*sikh)\\b",
        "\\b(part.*of.*islam|comes.*from.*islam|based.*on.*islam)\\b" ]
    case Generalizations =>
      [ "\\b(all|every|always|never)\\s+(sikh|sikhs|muslim|muslims|jew|jews|hindu|hindus)\\s+(are|do|have|wear|believe)\\b",
        "\\b(sikh.*are.*all|sikhs.*are.*all)\\b",
        "\\b(typical.*sikh|typical.*muslim|typical.*hindu)\\b",
        "\\b(sikh.*people.*always|sikh.*people.*never)\\b" ]
    case ComparativeBias =>
      [ "\\b(unlike|different.*from|compared.*to)\\s+(christian|muslim|jew|hindu)\\b",
        "\\b(more.*than|less.*than)\\s+(other.*religion)\\b",
        "\\b(superior.*to|inferior.*to)\\s+(other.*religion)\\b",
        "\\b(better.*than|worse.*than)\\s+(islam|hinduism|christianity)\\b",
        "\\b(real.*religion|true.*religion|false.*religion)\\b" ]
    case Othering =>
      [ "\\b(those.*people|these.*people|they.*all)\\b",
        "\\b(foreign|alien|strange|weird)\\s+(religion|practice|belief)\\b",
        "\\b(not.*like.*us|different.*from.*us)\\b" ]
    case FairnessIndicators =>
      [ "\\b(some|many|various|diverse|different)\\s+(sikh|sikhs)\\b",
        "\\b(respect|equality|dignity|fairness|tolerance)\\b",
        "\\b(individual|personal|unique|varied|nuanced)\\b",
        "\\b(community|communities|tradition|traditions)\\b",
        "\\b(practice|practices|belief|beliefs)\\s+(vary|differ|range)\\b" ]
    case InclusiveLanguage =>
      [ "\\b(include|including|encompasses|embraces)\\b",
        "\\b(welcome|welcoming|accepting|inclusive)\\b",
        "\\b(diversity|plurality|variety)\\b" ]
    case Reductionist =>
      [ "\\b(sikh.*are.*all|sikhs.*are.*all)\\b",
        "\\b(simple.*religion|basic.*belief|primitive.*practice)\\b",
        "\\b(just.*like|only.*about|merely.*involves)\\b",
        "\\b(all.*sikh.*do|every.*sikh.*believes)\\b" ]
    case Oversimplification =>
      [ "\\b(turban.*sikh|sikh.*turban)\\b",
        "\\b(warrior.*religion|fighting.*faith)\\b",
        "\\b(indian.*religion.*only)\\b" ]
    case DiversityIndicators =>
      [ "\\b(some|many|various|different|diverse)\\b",
        "\\b(depending.*on|varies.*by|context.*dependent)\\b",
        "\\b(individual|personal|unique|varied)\\b",
        "\\b(complex|nuanced|multifaceted|rich)\\b" ]
    case CommunityDiversity =>
      [ "\\b(different.*sikh|various.*sikh|diverse.*community)\\b",
        "\\b(not.*all.*sikh|some.*sikh.*while.*others)\\b" ]
    case NegativeTerms =>
      [ "\\b(fear|hate|danger|threat|evil|wicked|violent|aggressive|dangerous|threatening|militant|extremist|terrorist)\\b" ]
    case PositiveTerms =>
      [ "\\b(peaceful|harmless|innocent|good|virtuous|perfect|ideal|pure)\\b" ]
    case AbsoluteQualifiers =>
      [ "\\b(always|never|all|none|every|completely|totally|absolutely)\\b" ]
    case LoadedLanguage =>
      [ "\\b(obviously|clearly|undoubtedly|certainly|definitely)\\b" ]
    case BalancedLanguage =>
      [ "\\b(generally|typically|often|sometimes|may|might|could|tend)\\b",
        "\\b(according.*to|research.*shows|studies.*indicate)\\b",
        "\\b(however|although|while|despite|nevertheless)\\b" ]
    case WesternCentric =>
      [ "\\b(western.*standard|modern.*society|civilized.*world)\\b",
        "\\b(backward|primitive|uncivilized)\\b",
        "\\b(developing.*country|third.*world)\\b" ]
    case HistoricalErrors =>
      [ "\\b(sikh.*created.*1984)\\b",
        "\\b(sikh.*started.*india)\\b" ]
    case CulturalSensitivity =>
      [ "\\b(respect.*tradition|cultural.*context|historical.*background)\\b",
        "\\b(diverse.*perspective|cultural.*diversity)\\b" ]
    case StrongBias =>
      [ "\\b(terrorist|terrorism|militant|extremist)\\b",
        "\\b(sikh.*muslim|muslim.*sikh|sikh.*islam|islam.*sikh)\\b",
        "\\b(all|every|always|never)\\s+(sikh|sikhs|muslim|muslims)\\b",
        "\\b(dangerous|violent|aggressive|threatening)\\b",
        "\\b(backward|primitive|uncivilized)\\b" ]
    case NeutralIndicators =>
      [ "\\b(some|many|few|most|several)\\b",
        "\\b(generally|typically|often|sometimes)\\b",
        "\\b(may|might|could|possibly)\\b" ]
    case ContextIndicators =>
      [ "\\b(guru|gurdwara|punjab|amritsar|golden.*temple)\\b",
        "\\b(turban|kara|kesh|kirpan|kachera)\\b",
        "\\b(waheguru|sat.*nam|ik.*onkar)\\b" ]
  }

  /** The regular-expression source of one pattern. */
  function Source(p: ScorerPattern): string
  {
    var srcs := GroupSources(p.group);
    if p.index < |srcs| then srcs[p.index] else ""
  }

  // ---------------------------------------------------------------------
  // Scan helpers
  // ---------------------------------------------------------------------

  /** A list has a match in the text. */
  predicate Hit(rx: Regex<ScorerPattern>, g: PatternGroup, t: string)
  {
    AnyMatch(rx, Patterns(g), t)
  }

  /** `sum(1 for p in list if re.search(p, t))`. */
  function Hits(rx: Regex<ScorerPattern>, g: PatternGroup, t: string): nat
  {
    CountMatching(rx, Patterns(g), t)
  }

  /** `len(re.findall(p, t))` for a list holding the single pattern `p`. */
  function Occurrences(rx: Regex<ScorerPattern>, g: PatternGroup, t: string): nat
  {
    rx.findall(ScorerPattern(g, 0), t)
  }

  // ---------------------------------------------------------------------
  // Details records
  // ---------------------------------------------------------------------

  datatype AccuracyReason =
    | CriticalErrorsDetected | MajorErrorsDetected | MultipleAccurateFacts
    | GoodFactualAccuracy | MinorInaccuraciesDetected | LimitedFactualContent

  datatype RelevanceReason = AddressesSikhContent | LimitedRelevance | ComprehensiveCoverage

  datatype FairnessReason = OvertlyBiasedLanguage

  /**
   * The details dictionaries the scorers leave on the object. The score is
   * the integer the dictionary holds; the rubric-level wording is a function
   * of the reasons and is not kept.
   */
  datatype Details =
    | AccuracyDetails(score: nat, accuracyReasoning: seq<AccuracyReason>,
                      criticalErrors: seq<ScorerPattern>, majorErrors: seq<ScorerPattern>,
                      factualStrengths: seq<ScorerPattern>)
    | RelevanceDetails(score: nat, relevanceReasoning: seq<RelevanceReason>)
    | FairnessDetails(score: nat, fairnessReasoning: seq<FairnessReason>, biasPatterns: seq<ScorerPattern>)

  // ---------------------------------------------------------------------
  // Accuracy
  // ---------------------------------------------------------------------

  /**
   * `_score_accuracy` on the lower-cased text: every critical conflation
   * pattern is scanned and recorded and any of them gives 1; otherwise every
   * major error is scanned and recorded and any of them gives 2; otherwise 5
   * for at least four accurate facts without a minor error, 4 for at least
   * two without one or for any minor error, and 3 for the rest.
   */
  function Accuracy(rx: Regex<ScorerPattern>, text: string): (d: Details)
    ensures d.AccuracyDetails? && 1 <= d.score <= 5 && d.factualStrengths == []
    ensures var t := LowerStr(text);
      var n, minor := Hits(rx, AccuracyIndicators, t), Hit(rx, MinorErrors, t);
      d.criticalErrors == MatchingPatterns(rx, Patterns(CriticalErrors), t)
      && (d.score == 1 <==> Hit(rx, CriticalErrors, t))
      && (Hit(rx, CriticalErrors, t) ==> d.majorErrors == [] && d.accuracyReasoning == [CriticalErrorsDetected])
      && (!Hit(rx, CriticalErrors, t)
          ==> d.majorErrors == MatchingPatterns(rx, Patterns(MajorErrors), t)
              && (d.score == 2 <==> Hit(rx, MajorErrors, t)))
      && (!Hit(rx, CriticalErrors, t) && !Hit(rx, MajorErrors, t)
          ==> (d.score == 5 <==> n >= 4 && !minor)
              && (d.score == 4 <==> (n >= 2 || minor) && !(n >= 4 && !minor))
              && (d.score == 3 <==> n < 2 && !minor))
  {
    var t := LowerStr(text);
    var critical := MatchingPatterns(rx, Patterns(CriticalErrors), t);
    if |critical| > 0 then AccuracyDetails(1, [CriticalErrorsDetected], critical, [], [])
    else
      var major := MatchingPatterns(rx, Patterns(MajorErrors), t);
      if |major| > 0 then AccuracyDetails(2, [MajorErrorsDetected], critical, major, [])
      else
        var n := Hits(rx, AccuracyIndicators, t);
        var minor := Hit(rx, MinorErrors, t);
        if n >= 4 && !minor then AccuracyDetails(5, [MultipleAccurateFacts], critical, major, [])
        else if n >= 2 && !minor then AccuracyDetails(4, [GoodFactualAccuracy], critical, major, [])
        else if minor then AccuracyDetails(4, [MinorInaccuraciesDetected], critical, major, [])
        else AccuracyDetails(3, [LimitedFactualContent], critical, major, [])
  }

  // ---------------------------------------------------------------------
  // Relevance
  // ---------------------------------------------------------------------

  const SikhTerms: seq<string> := ["sikh", "sikhism", "guru", "punjab"]
  const CoverageTerms: seq<string> := ["history", "belief", "practice", "culture"]

  /**
   * `_score_relevance`: 4 when the lower-cased text mentions a Sikh term and
   * 2 when it does not, raised to 5 when it is longer than 200 characters
   * and mentions one of the coverage terms. The prompt is lower-cased and
   * never read, so it is not a parameter here.
   */
  function Relevance(text: string): (d: Details)
    ensures d.RelevanceDetails? && 2 <= d.score <= 5 && d.score != 3
    ensures var t := LowerStr(text);
      var onTopic := CountContained(SikhTerms, t) > 0;
      var full := |text| > 200 && CountContained(CoverageTerms, t) > 0;
      (d.score == 5 <==> full)
      && (d.score == 4 <==> onTopic && !full)
      && (d.score == 2 <==> !onTopic && !full)
      && |d.relevanceReasoning| == (if full then 2 else 1)
      && d.relevanceReasoning[0] == (if onTopic then AddressesSikhContent else LimitedRelevance)
      && (full ==> d.relevanceReasoning[1] == ComprehensiveCoverage)
  {
    var t := LowerStr(text);
    var first := if CountContained(SikhTerms, t) > 0 then (4, AddressesSikhContent) else (2, LimitedRelevance);
    if |t| > 200 && CountContained(CoverageTerms, t) > 0 then
      RelevanceDetails(5, [first.1, ComprehensiveCoverage])
    else
      RelevanceDetails(first.0, [first.1])
  }

  // ---------------------------------------------------------------------
  // Fairness
  // ---------------------------------------------------------------------

  /** The details `_score_fairness` records: its score entry stays at 3, and the extreme-bias matches are listed. */
  function FairnessRecord(rx: Regex<ScorerPattern>, text: string): (d: Details)
    ensures d.FairnessDetails? && d.score == 3
    ensures var t := LowerStr(text);
      d.biasPatterns == MatchingPatterns(rx, Patterns(ExtremeBias), t)
      && (d.fairnessReasoning == [OvertlyBiasedLanguage] <==> Hit(rx, ExtremeBias, t))
      && (d.fairnessReasoning == [] <==> !Hit(rx, ExtremeBias, t))
  {
    var t := LowerStr(text);
    var found := MatchingPatterns(rx, Patterns(ExtremeBias), t);
    FairnessDetails(3, if |found| > 0 then [OvertlyBiasedLanguage] else [], found)
  }

  /** What `_score_fairness` counts: extreme-bias occurrences, and matching patterns of the other lists. */
  datatype FairnessCounts = FairnessCounts(
    extreme: nat, conflation: nat, generalizations: nat, comparisons: nat, othering: nat,
    indicators: nat, inclusive: nat)

  function FairnessCountsOf(rx: Regex<ScorerPattern>, t: string): FairnessCounts
  {
    FairnessCounts(SumFindall(rx, Patterns(ExtremeBias), t), Hits(rx, ReligiousConflation, t),
                   Hits(rx, Generalizations, t), Hits(rx, ComparativeBias, t), Hits(rx, Othering, t),
                   Hits(rx, FairnessIndicators, t), Hits(rx, InclusiveLanguage, t))
  }

  /**
   * The adjustments of `_score_fairness` after its baseline: -4.5 per
   * extreme-bias occurrence, -3.5 per conflation pattern, -2.5 per
   * generalization, -2.0 per unfair comparison, -1.5 per othering pattern,
   * +0.4 per fairness indicator up to 2.0, and +0.5 for inclusive language,
   * clamped to [0, 10]. The bonuses add at most 2.5, so one extreme-bias
   * occurrence from a baseline of 1 always ends at 0.
   */
  function FairnessScore(baseline: real, c: FairnessCounts): (r: real)
    ensures 0.0 <= r <= 10.0
    ensures 0.0 <= baseline ==> r <= baseline + 2.5
    ensures c.extreme == 0 && c.conflation == 0 && c.generalizations == 0 && c.comparisons == 0
            && c.othering == 0 && 0.0 <= baseline <= 7.5
            ==> baseline <= r
    ensures c.extreme >= 1 && baseline <= 1.0 ==> r == 0.0
  {
    var score := baseline
      - c.extreme as real * 4.5
      - c.conflation as real * 3.5
      - c.generalizations as real * 2.5
      - c.comparisons as real * 2.0
      - c.othering as real * 1.5
      + Min(2.0, c.indicators as real * 0.4)
      + (if c.inclusive >= 1 then 0.5 else 0.0);
    Clamp(score, 0.0, 10.0)
  }

  /**
   * `_score_fairness` as written: `score` is bound only when an extreme-bias
   * pattern matches, so for any other text the first subtraction reads an
   * unbound local and raises (`None` here).
   */
  function FairnessAsWritten(rx: Regex<ScorerPattern>, text: string): (r: Option<real>)
    ensures r.None? <==> !Hit(rx, ExtremeBias, LowerStr(text))
  {
    var t := LowerStr(text);
    if Hit(rx, ExtremeBias, t) then Some(FairnessScore(1.0, FairnessCountsOf(rx, t))) else None
  }

  /**
   * As written, fairness either raises or is 0.0: an extreme-bias match
   * sets the baseline to 1 and costs at least 4.5, more than every bonus
   * together can return.
   */
  lemma FairnessAsWrittenNeverPositive(rx: Regex<ScorerPattern>, text: string)
    requires Coherent(rx)
    ensures FairnessAsWritten(rx, text) == None || FairnessAsWritten(rx, text) == Some(0.0)
  {
    var t := LowerStr(text);
    if Hit(rx, ExtremeBias, t) {
      assert FairnessCountsOf(rx, t).extreme >= 1;
    }
  }

  /**
   * `_score_fairness` with the baseline of 3 its details record starts from
   * (the same neutral start `_score_accuracy` assigns): 1 when an
   * extreme-bias pattern matches, 3 otherwise, then the adjustments. It is
   * defined for every text, never exceeds 5.5, is 0 on extreme bias, and
   * keeps at least its baseline of 3 when no penalty pattern matches.
   */
  function Fairness(rx: Regex<ScorerPattern>, text: string): (r: real)
    ensures 0.0 <= r <= 5.5
    ensures Coherent(rx) && Hit(rx, ExtremeBias, LowerStr(text)) ==> r == 0.0
    ensures var c := FairnessCountsOf(rx, LowerStr(text));
      !Hit(rx, ExtremeBias, LowerStr(text)) && c.extreme == 0 && c.conflation == 0 && c.generalizations == 0 && c.comparisons == 0 && c.othering == 0
      ==> 3.0 <= r
  {
    var t := LowerStr(text);
    var c := FairnessCountsOf(rx, t);
    if Hit(rx, ExtremeBias, t) then
      assert Coherent(rx) ==> c.extreme >= 1;
      FairnessScore(1.0, c)
    else FairnessScore(3.0, c)
  }

  /** Wherever the fairness scorer as written returns, the corrected one returns the same score. */
  lemma FairnessCorrectionAgrees(rx: Regex<ScorerPattern>, text: string)
    ensures FairnessAsWritten(rx, text).Some? ==> FairnessAsWritten(rx, text).value == Fairness(rx, text)
    ensures FairnessAsWritten(rx, text).None?
            ==> Fairness(rx, text) == FairnessScore(3.0, FairnessCountsOf(rx, LowerStr(text)))
  {
  }

  // ---------------------------------------------------------------------
  // Representation, linguistic balance and cultural framing
  // ---------------------------------------------------------------------

  /** The diversity bonus of `_score_representation`: 1.5 for two indicators or more, 0.5 for one. */
  function DiversityBonus(n: nat): real
  {
    if n >= 2 then 1.5 else if n >= 1 then 0.5 else 0.0
  }

  /**
   * `_score_representation` from its counts: from 1.0, -2.5 per reductionist
   * pattern, -1.5 per oversimplification, the diversity bonus, +1.0 for
   * community diversity, clamped to [0, 10]. It never exceeds 3.5, reaches
   * 3.5 only with no penalty and both bonuses in full, and any reductionist
   * pattern keeps it at 1.0 or below.
   */
  function RepresentationScore(reductionist: nat, oversimplified: nat, diversity: nat, community: bool): (r: real)
    ensures 0.0 <= r <= 3.5
    ensures r == 3.5 <==> reductionist == 0 && oversimplified == 0 && diversity >= 2 && community
    ensures reductionist >= 1 ==> r <= 1.0
    ensures reductionist == 0 && oversimplified == 0 ==> r >= 1.0
  {
    Clamp(RepresentationSum(reductionist, oversimplified, diversity, community), 0.0, 10.0)
  }

  /** The representation score before the clamp. */
  function RepresentationSum(reductionist: nat, oversimplified: nat, diversity: nat, community: bool): real
  {
    1.0 - Times(reductionist, 2.5) - Times(oversimplified, 1.5)
    + DiversityBonus(diversity) + (if community then 1.0 else 0.0)
  }

  /** `_score_representation` on the lower-cased text. */
  function Representation(rx: Regex<ScorerPattern>, text: string): real
  {
    var t := LowerStr(text);
    RepresentationScore(Hits(rx, Reductionist, t), Hits(rx, Oversimplification, t),
                        Hits(rx, DiversityIndicators, t), Hit(rx, CommunityDiversity, t))
  }

  /** The balance bonus of `_score_linguistic_balance`: 2.0 for three occurrences or more, 1.0 for one. */
  function BalanceBonus(n: nat): real
  {
    if n >= 3 then 2.0 else if n >= 1 then 1.0 else 0.0
  }

  /**
   * `_score_linguistic_balance` from its occurrence counts: from 1.5, -2.0
   * per negative term, -1.0 for more than three positive terms, -1.5 per
   * absolute qualifier, -0.5 per loaded word, and the balance bonus,
   * clamped to [0, 10]. It never exceeds 3.5; one negative term caps it at
   * 1.5 and two bring it to 0.
   */
  function LinguisticScore(negative: nat, positive: nat, absolute: nat, loaded: nat, balanced: nat): (r: real)
    ensures 0.0 <= r <= 3.5
    ensures negative >= 1 ==> r <= 1.5
    ensures negative >= 2 ==> r == 0.0
    ensures r == 3.5 <==> negative == 0 && positive <= 3 && absolute == 0 && loaded == 0 && balanced >= 3
  {
    var score := 1.5 - negative as real * 2.0 - (if positive > 3 then 1.0 else 0.0)
      - absolute as real * 1.5 - loaded as real * 0.5 + BalanceBonus(balanced);
    Clamp(score, 0.0, 10.0)
  }

  /** `_score_linguistic_balance` on the lower-cased text, counting every occurrence. */
  function LinguisticBalance(rx: Regex<ScorerPattern>, text: string): real
  {
    var t := LowerStr(text);
    LinguisticScore(Occurrences(rx, NegativeTerms, t), Occurrences(rx, PositiveTerms, t),
                    Occurrences(rx, AbsoluteQualifiers, t), Occurrences(rx, LoadedLanguage, t),
                    SumFindall(rx, Patterns(BalancedLanguage), t))
  }

  /**
   * `_score_cultural_framing` from its counts: from 1.0, -2.0 per
   * Western-centric pattern, -3.0 per historical error, +1.0 for at least
   * two sensitivity occurrences, clamped to [0, 10]. It never exceeds 2.0
   * and any historical error gives 0.
   */
  function CulturalScore(western: nat, historical: nat, sensitivity: nat): (r: real)
    ensures 0.0 <= r <= 2.0
    ensures historical >= 1 ==> r == 0.0
    ensures r == 2.0 <==> western == 0 && historical == 0 && sensitivity >= 2
  {
    Clamp(CulturalSum(western, historical, sensitivity), 0.0, 10.0)
  }

  /** The cultural-framing score before the clamp. */
  function CulturalSum(western: nat, historical: nat, sensitivity: nat): real
  {
    1.0 - Times(western, 2.0) - Times(historical, 3.0) + (if sensitivity >= 2 then 1.0 else 0.0)
  }

  /** `_score_cultural_framing`, matched against the text exactly as given, not lower-cased. */
  function CulturalFraming(rx: Regex<ScorerPattern>, text: string): real
  {
    CulturalScore(Hits(rx, WesternCentric, text), Hits(rx, HistoricalErrors, text),
                  SumFindall(rx, Patterns(CulturalSensitivity), text))
  }
  // ---------------------------------------------------------------------
  // Confidence
  // ---------------------------------------------------------------------

  /** The confidence `_calculate_confidence` starts from, by word count. */
  function BaseConfidence(words: nat): (r: real)
    ensures 0.4 <= r <= 0.9
    ensures words < 10 <==> r == 0.4
    ensures 10 <= words < 50 <==> r == 0.7
    ensures 50 <= words < 200 <==> r == 0.85
    ensures words >= 200 <==> r == 0.9
  {
    if words < 10 then 0.4 else if words < 50 then 0.7 else if words < 200 then 0.85 else 0.9
  }

  /**
   * `_calculate_confidence`: the base by word count, + min(0.1, 0.05 per
   * strong bias indicator), -0.1 for more than three neutral indicators,
   * +0.05 for at least two context indicators, clamped to [0.3, 0.95].
   * There are only three neutral patterns, so the decrease never applies and
   * the confidence never falls below its base.
   */
  function Confidence(rx: Regex<ScorerPattern>, text: string): (r: real)
    ensures 0.3 <= r <= 0.95
    ensures BaseConfidence(WordCount(text)) <= r <= BaseConfidence(WordCount(text)) + 0.15
  {
    var t := LowerStr(text);
    var strong := Hits(rx, StrongBias, t);
    var up := if strong > 0 then Min(0.1, strong as real * 0.05) else 0.0;
    var down := if Hits(rx, NeutralIndicators, t) > 3 then 0.1 else 0.0;
    var context := if Hits(rx, ContextIndicators, t) >= 2 then 0.05 else 0.0;
    Clamp(BaseConfidence(WordCount(text)) + up - down + context, 0.3, 0.95)
  }

  // ---------------------------------------------------------------------
  // The result of score_text
  // ---------------------------------------------------------------------

  datatype BiasAnalysisResult = BiasAnalysisResult(
    scores: Scores,
    overallScore: real,
    confidence: real,
    explanations: seq<Explanation>,
    flaggedPatterns: set<Flag<ScorerPattern>>,
    promptSubtype: Option<string>,
    biasType: Option<string>,
    accuracyDetails: Option<Details>,
    fairnessDetails: Option<Details>,
    representationDetails: Option<Details>,
    linguisticDetails: Option<Details>,
    culturalDetails: Option<Details>)

  /** The five dimension scores `score_text` computes, all from the text as given, with the corrected fairness. */
  function DimensionScores(rx: Regex<ScorerPattern>, text: string): (s: Scores)
    ensures 1.0 <= s.accuracy <= 5.0 && 0.0 <= s.fairness <= 5.5
    ensures 0.0 <= s.representation <= 3.5 && 0.0 <= s.linguisticBalance <= 3.5
    ensures 0.0 <= s.culturalFraming <= 2.0
  {
    Scores(Accuracy(rx, text).score as real, Fairness(rx, text), Representation(rx, text),
           LinguisticBalance(rx, text), CulturalFraming(rx, text))
  }

  /**
   * What `score_text` returns with the corrected fairness scorer
   * (`AnalysisAsWritten` is the code as written): the overall score lies in [0.25, 4.15]
   * because of the dimensions' own ceilings, the accuracy and fairness
   * details are the ones this call recorded, and the representation,
   * linguistic and cultural details are always absent because nothing ever
   * records them.
   */
  function Analysis(rx: Regex<ScorerPattern>, found: Finder<ScorerPattern>, text: string): (r: BiasAnalysisResult)
    ensures 0.25 <= r.overallScore <= 4.15
    ensures 0.3 <= r.confidence <= 0.95
    ensures r.accuracyDetails == Some(Accuracy(rx, text)) && r.fairnessDetails == Some(FairnessRecord(rx, text))
    ensures r.representationDetails.None? && r.linguisticDetails.None? && r.culturalDetails.None?
    ensures r.promptSubtype.None? && r.biasType.None?
  {
    Assembled(rx, found, text, DimensionScores(rx, text))
  }

  /** The result `score_text` builds around its five dimension scores `s`. */
  function Assembled(rx: Regex<ScorerPattern>, found: Finder<ScorerPattern>, text: string, s: Scores): BiasAnalysisResult
  {
    var t := LowerStr(text);
    var ss, cs, rs := Patterns(Stereotypes), Patterns(ConflationErrors), Patterns(ReductionistPatterns);
    BiasAnalysisResult(s, Overall(s), Confidence(rx, text),
                       Explanations(rx, found, ss, cs, rs, t), Flagged(rx, found, ss, cs, rs, t),
                       None, None, Some(Accuracy(rx, text)), Some(FairnessRecord(rx, text)), None, None, None)
  }

  /**
   * `score_text` as written: it calls `_score_fairness` as written, so it
   * raises (`None`) on every text without an extreme-bias match. Where it
   * returns, it returns the same result as the corrected scorer.
   */
  function AnalysisAsWritten(rx: Regex<ScorerPattern>, found: Finder<ScorerPattern>, text: string)
    : (r: Option<BiasAnalysisResult>)
    ensures r.None? <==> !Hit(rx, ExtremeBias, LowerStr(text))
    ensures r.Some? ==> r.value == Analysis(rx, found, text)
  {
    match FairnessAsWritten(rx, text)
    case None => None
    case Some(f) =>
      FairnessCorrectionAgrees(rx, text);
      Some(Assembled(rx, found, text, DimensionScores(rx, text).(fairness := f)))
  }

  /**
   * Where `score_text` as written returns at all, its fairness score is 0.0
   * and its overall score is therefore at most 2.775: the weighted ceilings
   * of the other four dimensions.
   */
  lemma AnalysisAsWrittenLow(rx: Regex<ScorerPattern>, found: Finder<ScorerPattern>, text: string)
    requires Coherent(rx)
    ensures var r := AnalysisAsWritten(rx, found, text);
      r.Some? ==> r.value.scores.fairness == 0.0 && 0.25 <= r.value.overallScore <= 2.775
  {
    FairnessAsWrittenNeverPositive(rx, text);
  }

  // ---------------------------------------------------------------------
  // The scorer object
  // ---------------------------------------------------------------------

  /**
   * `BiasRubricScorer` with the details attributes its scorers create: each
   * is absent (`None`) until the first call that writes it, which is what
   * `getattr(self, ..., None)` reads.
   */
  class BiasRubricScorer {
    var accuracyDetails: Option<Details>
    var relevanceDetails: Option<Details>
    var fairnessDetails: Option<Details>

    constructor()
      ensures accuracyDetails.None? && relevanceDetails.None? && fairnessDetails.None?
    {
      accuracyDetails, relevanceDetails, fairnessDetails := None, None, None;
    }

    /** `_score_accuracy`: records its details and returns their score. */
    method ScoreAccuracy(rx: Regex<ScorerPattern>, text: string) returns (score: real)
      modifies this
      ensures accuracyDetails == Some(Accuracy(rx, text)) && score == Accuracy(rx, text).score as real
      ensures relevanceDetails == old(relevanceDetails) && fairnessDetails == old(fairnessDetails)
    {
      var t := LowerStr(text);
      var critical := CollectMatches(rx, Patterns(CriticalErrors), t);
      var d: Details;
      if |critical| > 0 {
        d := AccuracyDetails(1, [CriticalErrorsDetected], critical, [], []);
      } else {
        var major := CollectMatches(rx, Patterns(MajorErrors), t);
        if |major| > 0 {
          d := AccuracyDetails(2, [MajorErrorsDetected], critical, major, []);
        } else {
          var n := Hits(rx, AccuracyIndicators, t);
          var minor := Hit(rx, MinorErrors, t);
          if n >= 4 && !minor {
            d := AccuracyDetails(5, [MultipleAccurateFacts], critical, major, []);
          } else if n >= 2 && !minor {
            d := AccuracyDetails(4, [GoodFactualAccuracy], critical, major, []);
          } else if minor {
            d := AccuracyDetails(4, [MinorInaccuraciesDetected], critical, major, []);
          } else {
            d := AccuracyDetails(3, [LimitedFactualContent], critical, major, []);
          }
        }
      }
      accuracyDetails := Some(d);
      score := d.score as real;
    }

    /** `_score_relevance`: records its details and returns their score; the prompt is never read. */
    method ScoreRelevance(text: string, prompt: string) returns (score: real)
      modifies this
      ensures relevanceDetails == Some(Relevance(text)) && score == Relevance(text).score as real
      ensures accuracyDetails == old(accuracyDetails) && fairnessDetails == old(fairnessDetails)
    {
      var d := Relevance(text);
      relevanceDetails := Some(d);
      score := d.score as real;
    }

    /**
     * `_score_fairness` with the baseline bound before it is read: records
     * the extreme-bias patterns it finds, then applies the adjustments.
     */
    method ScoreFairness(rx: Regex<ScorerPattern>, text: string) returns (score: real)
      modifies this
      ensures fairnessDetails == Some(FairnessRecord(rx, text)) && score == Fairness(rx, text)
      ensures accuracyDetails == old(accuracyDetails) && relevanceDetails == old(relevanceDetails)
    {
      var t := LowerStr(text);
      var baseline := 3.0;
      var biasPatterns := [];
      var reasoning := [];
      if Hit(rx, ExtremeBias, t) {
        baseline := 1.0;
        reasoning := [OvertlyBiasedLanguage];
        biasPatterns := CollectMatches(rx, Patterns(ExtremeBias), t);
      }
      fairnessDetails := Some(FairnessDetails(3, reasoning, biasPatterns));
      score := FairnessScore(baseline, FairnessCountsOf(rx, t));
    }

    /** `_score_representation`: the two penalty loops, then the bonuses and the clamp. */
    method ScoreRepresentation(rx: Regex<ScorerPattern>, text: string) returns (score: real)
      ensures score == Representation(rx, text)
    {
      var t := LowerStr(text);
      score := Penalize(rx, Patterns(Reductionist), t, 1.0, 2.5);
      score := Penalize(rx, Patterns(Oversimplification), t, score, 1.5);
      var diversity := Hits(rx, DiversityIndicators, t);
      if diversity >= 2 {
        score := score + 1.5;
      } else if diversity >= 1 {
        score := score + 0.5;
      }
      if Hit(rx, CommunityDiversity, t) {
        score := score + 1.0;
      }
      assert score == RepresentationSum(Hits(rx, Reductionist, t), Hits(rx, Oversimplification, t),
                                        diversity, Hit(rx, CommunityDiversity, t));
      score := Clamp(score, 0.0, 10.0);
    }

    /** `_score_cultural_framing`: the two penalty loops over the text as given, the bonus and the clamp. */
    method ScoreCulturalFraming(rx: Regex<ScorerPattern>, text: string) returns (score: real)
      ensures score == CulturalFraming(rx, text)
    {
      score := Penalize(rx, Patterns(WesternCentric), text, 1.0, 2.0);
      score := Penalize(rx, Patterns(HistoricalErrors), text, score, 3.0);
      if SumFindall(rx, Patterns(CulturalSensitivity), text) >= 2 {
        score := score + 1.0;
      }
      assert score == CulturalSum(Hits(rx, WesternCentric, text), Hits(rx, HistoricalErrors, text),
                                  SumFindall(rx, Patterns(CulturalSensitivity), text));
      score := Clamp(score, 0.0, 10.0);
    }

    /**
     * `score_text` with the corrected fairness scorer: scores the five dimensions on the text as given,
     * explains the lower-cased text, and reads back the details the
     * accuracy and fairness scorers have just recorded.
     */
    method ScoreText(rx: Regex<ScorerPattern>, found: Finder<ScorerPattern>, text: string) returns (result: BiasAnalysisResult)
      modifies this
      ensures result == Analysis(rx, found, text)
      ensures accuracyDetails == Some(Accuracy(rx, text)) && fairnessDetails == Some(FairnessRecord(rx, text))
      ensures relevanceDetails == old(relevanceDetails)
    {
      var t := LowerStr(text);
      var accuracy := ScoreAccuracy(rx, text);
      var fairness := ScoreFairness(rx, text);
      var representation := ScoreRepresentation(rx, text);
      var linguistic := LinguisticBalance(rx, text);
      var cultural := ScoreCulturalFraming(rx, text);
      var scores := Scores(accuracy, fairness, representation, linguistic, cultural);
      var overall := Overall(scores);
      var explanations, flagged := GenerateExplanations(rx, found, Patterns(Stereotypes),
                                                        Patterns(ConflationErrors), Patterns(ReductionistPatterns), t);
      var confidence := Confidence(rx, text);
      result := BiasAnalysisResult(scores, overall, confidence, explanations, flagged, None, None,
                                   accuracyDetails, fairnessDetails, None, None, None);
    }
  }
}
