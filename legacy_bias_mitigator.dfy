/**
 * The older `BAMIPMitigator` (src/core/bias_mitigator.py). It keeps no state
 * beyond what `__init__` loads, so it is modelled as functions of that
 * loaded data: generalizations first in strategy selection, a single
 * neutral-language pass, grounding on the first anchor, and a reduction
 * ratio without a grounding bonus.
 */
module LegacyBiasMitigator {
  import opened Text
  import opened Words
  import opened Lexicon
  import opened Mitigation

  // ---------------------------------------------------------------------
  // Strategy selection
  // ---------------------------------------------------------------------

  /** The five patterns `_select_best_strategy` tries, in the order it tries them. */
  datatype SelectionPattern = GeneralizationTerms | TerrorismTerms | CulturalTerms | ConflationTerms | EmotionalTerms

  /** The regular expression behind each selection pattern. */
  function SelectionSource(p: SelectionPattern): string
  {
    match p
    case GeneralizationTerms => "\\b(all|every|always|never)\\s+(sikh|muslim|jew|hindu)\\b"
    case TerrorismTerms => "\\b(terrorist|militant|extremist|radical)\\b"
    case CulturalTerms => "\\b(backward|primitive|uncivilized)\\b"
    case ConflationTerms => "\\b(sikh.*muslim|muslim.*sikh|sikh.*islam|islam.*sikh)\\b"
    case EmotionalTerms => "\\b(fear|danger|threat|violent|aggressive)\\b"
  }

  function SelectionPatterns(): seq<SelectionPattern>
  {
    [GeneralizationTerms, TerrorismTerms, CulturalTerms, ConflationTerms, EmotionalTerms]
  }

  function SelectionStrategies(): seq<Strategy>
  {
    [ContextualReframing, NeutralLanguage, CounterNarrative, RetrievalGrounding, NeutralLanguage]
  }

  /**
   * `_select_best_strategy`: on the lower-cased text, generalizations win over
   * terrorism terms, then cultural terms, then religious conflation, then
   * emotional terms; with no match, instructional prompting.
   */
  function SelectBestStrategy(rx: Regex<SelectionPattern>, text: string): (r: Strategy)
    ensures var t := LowerStr(text);
      (r == ContextualReframing <==> rx.search(GeneralizationTerms, t))
      && (r == CounterNarrative
          <==> !rx.search(GeneralizationTerms, t) && !rx.search(TerrorismTerms, t)
               && rx.search(CulturalTerms, t))
      && (r == RetrievalGrounding
          <==> !rx.search(GeneralizationTerms, t) && !rx.search(TerrorismTerms, t)
               && !rx.search(CulturalTerms, t) && rx.search(ConflationTerms, t))
      && (r == NeutralLanguage
          <==> !rx.search(GeneralizationTerms, t)
               && (rx.search(TerrorismTerms, t)
                   || (!rx.search(CulturalTerms, t) && !rx.search(ConflationTerms, t)
                       && rx.search(EmotionalTerms, t))))
      && (r == InstructionalPrompting <==> !AnyMatch(rx, SelectionPatterns(), t))
  {
    var t := LowerStr(text);
    PriorityOfFive(rx, SelectionPatterns(), SelectionStrategies(), t);
    SelectByPriority(rx, SelectionPatterns(), SelectionStrategies(), t)
  }

  // ---------------------------------------------------------------------
  // The data the mitigator loads when it is created
  // ---------------------------------------------------------------------

  /**
   * What `__init__` loads: the instruction templates, the fixed reframing
   * patterns, the factual anchors (plain sentences), the counter-narratives
   * and the neutral-phrase lexicon.
   */
  datatype Config = Config(
    templates: seq<string>,
    reframingRules: seq<Rule>,
    anchors: seq<string>,
    counterNarratives: seq<string>,
    neutralPhrases: seq<Rule>)

  predicate ValidConfig(cfg: Config)
  {
    ValidTable(cfg.reframingRules) && |cfg.anchors| > 0 && |cfg.counterNarratives| > 0
    && ValidTable(cfg.neutralPhrases)
  }

  const FactualAnchors: seq<string> :=
    [ "Sikhism is a monotheistic religion founded in the 15th century",
      "Sikhs believe in equality, service, and honest work",
      "The turban is a religious article of faith, not a weapon",
      "Sikhism promotes peace, tolerance, and community service" ]

  function DefaultConfig(): Config
  {
    Config(InstructionalTemplates, ReframingRules(), FactualAnchors, CounterNarratives, LegacyNeutralPhrases())
  }

  lemma DefaultConfigValid()
    ensures ValidConfig(DefaultConfig())
  {
    ReframingTable();
    LegacyNeutralTable();
  }

  // ---------------------------------------------------------------------
  // Neutral language and grounding
  // ---------------------------------------------------------------------

  /** One substitution pass over the lexicon, in insertion order. */
  function Neutralized(cfg: Config, s: string): string
    requires ValidConfig(cfg)
  {
    Fold(s, cfg.neutralPhrases)
  }

  /** `_apply_neutral_language`: the substitution loop. */
  method ApplyNeutralLanguage(cfg: Config, text: string) returns (mitigated: string)
    requires ValidConfig(cfg)
    ensures mitigated == Neutralized(cfg, text)
  {
    mitigated := ApplyRules(text, cfg.neutralPhrases);
  }

  /**
   * With a lexicon whose one-word keys come from `keys` and whose replacement
   * words come from `values`, a disjoint set, no key is left as a whole word
   * and the only new words are replacement words.
   */
  lemma NeutralizedWords(cfg: Config, keys: set<string>, values: set<string>, s: string)
    requires ValidConfig(cfg)
    requires KeysWithin(cfg.neutralPhrases, keys) && ValuesWithin(cfg.neutralPhrases, values) && keys !! values
    ensures KeysAbsent(Neutralized(cfg, s), cfg.neutralPhrases)
    ensures WordsOf(Neutralized(cfg, s)) <= WordsOf(s) + values
  {
    RemovalBySets(cfg.neutralPhrases, keys, values);
    FoldRemovesKeys(s, cfg.neutralPhrases);
    FoldWords(s, cfg.neutralPhrases, values);
  }

  /** With the shipped lexicon none of the five terrorism terms it lists is left as a whole word. */
  lemma NeutralizedTerrorismTerms(cfg: Config, s: string)
    requires cfg == DefaultConfig()
    ensures ValidConfig(cfg)
    ensures var ws := WordsOf(Neutralized(cfg, s));
      "terrorist" !in ws && "militant" !in ws && "extremist" !in ws
      && "radical" !in ws && "fundamentalist" !in ws
  {
    DefaultConfigValid();
    LegacyNeutralTable();
    NeutralSetsDisjoint();
    NeutralizedWords(cfg, NeutralKeys(), NeutralValues(), s);
    LegacyTerrorismInLegacy();
    KeysAbsentSlice(Neutralized(cfg, s), cfg.neutralPhrases, 4, 9);
    LegacyTerrorismTermsAbsent(Neutralized(cfg, s));
  }

  /** `_apply_retrieval_grounding`: the first anchor, then the text. */
  function Grounded(cfg: Config, text: string): (r: string)
    requires ValidConfig(cfg)
    ensures |r| == |cfg.anchors[0]| + 2 + |text|
    ensures r[..|cfg.anchors[0]|] == cfg.anchors[0]
    ensures r[|r| - |text|..] == text
  {
    var r := cfg.anchors[0] + ". " + text;
    assert r[|r| - |text|..] == text;
    assert r[..|cfg.anchors[0]|] == cfg.anchors[0];
    r
  }

  // ---------------------------------------------------------------------
  // Reduction
  // ---------------------------------------------------------------------

  const BiasTerms: seq<string> :=
    [ "all", "every", "always", "never", "terrorist", "militant",
      "extremist", "radical", "backward", "primitive", "dangerous" ]

  /** How many bias terms occur, as substrings, in the lower-cased text. */
  function BiasTermCount(s: string): nat
  {
    CountContained(BiasTerms, LowerStr(s))
  }

  /**
   * `_calculate_bias_reduction`: 1.0 without bias terms in the original,
   * otherwise the share of terms that went away, clamped to [0, 1].
   */
  function BiasReduction(original: string, mitigated: string): (r: real)
    ensures 0.0 <= r <= 1.0
    ensures BiasTermCount(original) == 0 ==> r == 1.0
    ensures BiasTermCount(original) > 0 && BiasTermCount(mitigated) == 0 ==> r == 1.0
    ensures BiasTermCount(original) > 0 && BiasTermCount(mitigated) >= BiasTermCount(original) ==> r == 0.0
    ensures BiasTermCount(mitigated) < BiasTermCount(original) ==> r > 0.0
  {
    var o, m := BiasTermCount(original), BiasTermCount(mitigated);
    ReductionRatio(o, m, 0.0)
  }

  // ---------------------------------------------------------------------
  // mitigate_bias
  // ---------------------------------------------------------------------

  /** The text `_apply_strategy` returns. */
  function StrategyText(cfg: Config, strategy: Strategy, text: string): string
    requires ValidConfig(cfg)
  {
    match strategy
    case ContextualReframing => Reframed(cfg.reframingRules, text)
    case NeutralLanguage => Neutralized(cfg, text)
    case CounterNarrative => ApplyCounterNarrative(cfg.counterNarratives, text)
    case RetrievalGrounding => Grounded(cfg, text)
    case InstructionalPrompting => text
  }

  /** `_apply_strategy`, with the two substitution loops run as methods. */
  method ApplyStrategy(cfg: Config, text: string, strategy: Strategy) returns (mitigated: string)
    requires ValidConfig(cfg)
    ensures mitigated == StrategyText(cfg, strategy, text)
  {
    match strategy
    case ContextualReframing =>
      mitigated := ApplyContextualReframing(cfg.reframingRules, text);
    case NeutralLanguage =>
      mitigated := ApplyNeutralLanguage(cfg, text);
    case CounterNarrative =>
      mitigated := ApplyCounterNarrative(cfg.counterNarratives, text);
    case RetrievalGrounding =>
      mitigated := Grounded(cfg, text);
    case InstructionalPrompting =>
      mitigated := text;
  }

  datatype MitigationResult = MitigationResult(
    originalText: string,
    mitigatedText: string,
    strategyUsed: Strategy,
    biasReductionScore: real,
    confidence: real,
    explanations: seq<Explanation>,
    suggestedPrompts: seq<string>)

  /** The strategy given, or else the one `_select_best_strategy` picks. */
  function ChosenStrategy(rx: Regex<SelectionPattern>, text: string, strategy: Option<Strategy>): Strategy
  {
    if strategy.Some? then strategy.value else SelectBestStrategy(rx, text)
  }

  /**
   * What `mitigate_bias` returns: the strategy's rewrite, the reduction, the
   * confidence derived from that same reduction, the explanations and the
   * prompts.
   */
  function Mitigated(cfg: Config, rx: Regex<SelectionPattern>, text: string, strategy: Option<Strategy>): (res: MitigationResult)
    requires ValidConfig(cfg)
    ensures res.originalText == text && res.strategyUsed == ChosenStrategy(rx, text, strategy)
    ensures res.mitigatedText == StrategyText(cfg, res.strategyUsed, text)
    ensures res.strategyUsed == InstructionalPrompting ==> res.mitigatedText == text
    ensures res.confidence == MitigationConfidence(res.biasReductionScore)
    ensures 0.0 <= res.biasReductionScore <= 1.0
    ensures res.biasReductionScore == BiasReduction(text, res.mitigatedText)
    ensures res.explanations == Explanations(res.strategyUsed, res.biasReductionScore)
    ensures res.suggestedPrompts == SuggestedPrompts(cfg.templates, res.strategyUsed)
    ensures res.suggestedPrompts == cfg.templates <== res.strategyUsed == InstructionalPrompting
  {
    var s := ChosenStrategy(rx, text, strategy);
    var m := StrategyText(cfg, s, text);
    var reduction := BiasReduction(text, m);
    MitigationResult(text, m, s, reduction, MitigationConfidence(reduction),
                     Explanations(s, reduction), SuggestedPrompts(cfg.templates, s))
  }

  /** `mitigate_bias`, running the strategy through its loops. */
  method MitigateBias(cfg: Config, rx: Regex<SelectionPattern>, text: string, strategy: Option<Strategy>)
    returns (result: MitigationResult)
    requires ValidConfig(cfg)
    ensures result == Mitigated(cfg, rx, text, strategy)
  {
    var chosen := if strategy.Some? then strategy.value else SelectBestStrategy(rx, text);
    var mitigated := ApplyStrategy(cfg, text, chosen);
    var reduction := BiasReduction(text, mitigated);
    var confidence := MitigationConfidence(BiasReduction(text, mitigated));
    var explanations := Explanations(chosen, reduction);
    var prompts := SuggestedPrompts(cfg.templates, chosen);
    result := MitigationResult(text, mitigated, chosen, reduction, confidence, explanations, prompts);
  }

  /** Appending, prepending or keeping the text keeps every bias term it had. */
  lemma AdditiveKeepsTerms(cfg: Config, strategy: Strategy, text: string)
    requires ValidConfig(cfg)
    requires strategy in {CounterNarrative, RetrievalGrounding, InstructionalPrompting}
    ensures BiasTermCount(StrategyText(cfg, strategy, text)) >= BiasTermCount(text)
  {
    AdditiveKeepsCount(cfg, strategy, text, BiasTerms);
  }

  lemma AdditiveKeepsCount(cfg: Config, strategy: Strategy, text: string, terms: seq<string>)
    requires ValidConfig(cfg)
    requires strategy in {CounterNarrative, RetrievalGrounding, InstructionalPrompting}
    ensures CountContained(terms, LowerStr(StrategyText(cfg, strategy, text))) >= CountContained(terms, LowerStr(text))
  {
    var m := StrategyText(cfg, strategy, text);
    if strategy == CounterNarrative {
      CountContainedWithin(terms, text, m, 0);
    } else if strategy == RetrievalGrounding {
      CountContainedWithin(terms, text, m, |m| - |text|);
    }
  }

  /**
   * Without a grounding bonus, the strategies that only add text or change
   * nothing score no reduction at all on a text with a bias term, and so
   * report the lowest confidence.
   */
  lemma AdditiveStrategiesNoReduction(cfg: Config, rx: Regex<SelectionPattern>, text: string, strategy: Option<Strategy>)
    requires ValidConfig(cfg)
    requires BiasTermCount(text) > 0
    requires ChosenStrategy(rx, text, strategy) in {CounterNarrative, RetrievalGrounding, InstructionalPrompting}
    ensures Mitigated(cfg, rx, text, strategy).biasReductionScore == 0.0
    ensures Mitigated(cfg, rx, text, strategy).confidence == 0.5
    ensures |Mitigated(cfg, rx, text, strategy).explanations| == 2
  {
    AdditiveKeepsTerms(cfg, ChosenStrategy(rx, text, strategy), text);
  }
}
