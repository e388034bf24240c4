/**
 * The live `BAMIPMitigator` (biaslense/src/core/bias_mitigator.py): strategy
 * selection by a fixed priority order, the two substitution passes of
 * neutral language, retrieval grounding with its record of used sources,
 * the bias-reduction ratio with its grounding bonus, and `mitigate_bias`.
 */
module BiasMitigator {
  import opened Text
  import opened Words
  import opened Lexicon
  import opened Mitigation

  // ---------------------------------------------------------------------
  // Strategy selection
  // ---------------------------------------------------------------------

  /** The five patterns `_select_best_strategy` tries, most harmful first. */
  datatype SelectionPattern = ConflationTerms | TerrorismTerms | GeneralizationTerms | CulturalTerms | EmotionalTerms

  /** The regular expression behind each selection pattern. */
  function SelectionSource(p: SelectionPattern): string
  {
    match p
    case ConflationTerms => "\\b(sikh.*muslim|muslim.*sikh|sikh.*islam|islam.*sikh|sikh.*subset.*islam)\\b"
    case TerrorismTerms => "\\b(terrorist|terrorism|militant|extremist)\\b"
    case GeneralizationTerms => "\\b(all|every|always|never)\\s+(sikh|muslim|jew|hindu)\\b"
    case CulturalTerms => "\\b(backward|primitive|uncivilized)\\b"
    case EmotionalTerms => "\\b(fear|danger|threat|violent|aggressive)\\b"
  }

  function SelectionPatterns(): seq<SelectionPattern>
  {
    [ConflationTerms, TerrorismTerms, GeneralizationTerms, CulturalTerms, EmotionalTerms]
  }

  function SelectionStrategies(): seq<Strategy>
  {
    [RetrievalGrounding, NeutralLanguage, ContextualReframing, CounterNarrative, NeutralLanguage]
  }

  /**
   * `_select_best_strategy`: on the lower-cased text, conflation wins over
   * terrorism terms, which win over generalizations, then cultural terms,
   * then emotional terms; with no match, instructional prompting.
   */
  function SelectBestStrategy(rx: Regex<SelectionPattern>, text: string): (r: Strategy)
    ensures var t := LowerStr(text);
      (r == RetrievalGrounding <==> rx.search(ConflationTerms, t))
      && (r == ContextualReframing
          <==> !rx.search(ConflationTerms, t) && !rx.search(TerrorismTerms, t)
               && rx.search(GeneralizationTerms, t))
      && (r == CounterNarrative
          <==> !rx.search(ConflationTerms, t) && !rx.search(TerrorismTerms, t)
               && !rx.search(GeneralizationTerms, t) && rx.search(CulturalTerms, t))
      && (r == NeutralLanguage
          <==> !rx.search(ConflationTerms, t)
               && (rx.search(TerrorismTerms, t)
                   || (!rx.search(GeneralizationTerms, t) && !rx.search(CulturalTerms, t)
                       && rx.search(EmotionalTerms, t))))
      && (r == InstructionalPrompting <==> !AnyMatch(rx, SelectionPatterns(), t))
  {
    var t := LowerStr(text);
    PriorityOfFive(rx, SelectionPatterns(), SelectionStrategies(), t);
    SelectByPriority(rx, SelectionPatterns(), SelectionStrategies(), t)
  }

  // ---------------------------------------------------------------------
  // The data the mitigator loads when it is created
  // ---------------------------------------------------------------------

  datatype Anchor = Anchor(text: string, source: string, url: string)

  /**
   * What `__init__` loads: the instruction templates, the fixed reframing
   * patterns, the factual anchors, the counter-narratives, the neutral-phrase
   * lexicon, and the extra terrorism pass of `_apply_neutral_language`.
   */
  datatype Config = Config(
    templates: seq<string>,
    reframingRules: seq<Rule>,
    anchors: seq<Anchor>,
    counterNarratives: seq<string>,
    neutralPhrases: seq<Rule>,
    terrorismRules: seq<Rule>)

  predicate ValidConfig(cfg: Config)
  {
    ValidTable(cfg.reframingRules) && |cfg.anchors| == 5 && |cfg.counterNarratives| > 0
    && ValidTable(cfg.neutralPhrases) && ValidTable(cfg.terrorismRules)
  }

  /** The markers `_calculate_bias_reduction` looks for; the first two anchors carry them. */
  const DistinctMarker := "Sikhism is a distinct"
  const NanakMarker := "Guru Nanak"

  const FactualAnchors: seq<Anchor> :=
    [ Anchor(DistinctMarker + " monotheistic religion founded in the 15th century by " + NanakMarker
             + ", separate from Islam and other religions",
             "Sikh Coalition Educational Resources", "https://www.sikhcoalition.org/about-sikhs/"),
      Anchor("Sikhs believe in equality, service, and honest work as core principles established by " + NanakMarker,
             "Guru Granth Sahib, Ang 1", "https://www.srigurugranth.org/"),
      Anchor("The turban (dastaar) is a religious article of faith representing dignity, commitment, and spiritual discipline",
             "Sikh Research Institute", "https://www.sikhri.org/articles/the-turban"),
      Anchor("Sikhism promotes peace, tolerance, and community service through the concept of seva (selfless service)",
             "World Sikh Organization", "https://www.worldsikh.org/sikh_beliefs"),
      Anchor("Sikhs follow the teachings of the ten Gurus and the Guru Granth Sahib, their eternal living Guru",
             "Shiromani Gurdwara Parbandhak Committee", "https://sgpc.net/sikhism/") ]

  function DefaultConfig(): Config
  {
    Config(InstructionalTemplates, ReframingRules(), FactualAnchors, CounterNarratives,
           NeutralPhrases(), TerrorismPhrases())
  }

  lemma DefaultConfigValid()
    ensures ValidConfig(DefaultConfig())
  {
    ReframingTable();
    NeutralTable();
    TerrorismTable();
  }

  // ---------------------------------------------------------------------
  // Neutral language
  // ---------------------------------------------------------------------

  /** The lexicon pass followed by the terrorism pass. */
  function Neutralized(cfg: Config, s: string): string
    requires ValidConfig(cfg)
  {
    Fold(Fold(s, cfg.neutralPhrases), cfg.terrorismRules)
  }

  /** `_apply_neutral_language`: the two substitution loops. */
  method ApplyNeutralLanguage(cfg: Config, text: string) returns (mitigated: string)
    requires ValidConfig(cfg)
    ensures mitigated == Neutralized(cfg, text)
  {
    mitigated := ApplyRules(text, cfg.neutralPhrases);
    mitigated := ApplyRules(mitigated, cfg.terrorismRules);
  }

  /**
   * The lexicon draws its one-word keys from `keys` and its replacement words
   * from `values`, which do not meet, and the terrorism pass is a run of the
   * lexicon's own one-word rules starting at rule `k`.
   */
  predicate NeutralLexicon(cfg: Config, keys: set<string>, values: set<string>, k: nat)
  {
    ValidConfig(cfg)
    && KeysWithin(cfg.neutralPhrases, keys) && ValuesWithin(cfg.neutralPhrases, values) && keys !! values
    && WordKeys(cfg.terrorismRules)
    && k + |cfg.terrorismRules| <= |cfg.neutralPhrases|
    && cfg.neutralPhrases[k..k + |cfg.terrorismRules|] == cfg.terrorismRules
  }

  /**
   * After neutral language no one-word key of the lexicon (and so none of the
   * terrorism pass) remains as a whole word, the only new words are
   * replacement words, and the terrorism pass finds nothing left to replace.
   */
  lemma NeutralizedWords(cfg: Config, keys: set<string>, values: set<string>, k: nat, s: string)
    requires NeutralLexicon(cfg, keys, values, k)
    ensures KeysAbsent(Neutralized(cfg, s), cfg.neutralPhrases)
    ensures KeysAbsent(Neutralized(cfg, s), cfg.terrorismRules)
    ensures WordsOf(Neutralized(cfg, s)) <= WordsOf(s) + values
    ensures Neutralized(cfg, s) == Fold(s, cfg.neutralPhrases)
  {
    var once := Fold(s, cfg.neutralPhrases);
    RemovalBySets(cfg.neutralPhrases, keys, values);
    FoldRemovesKeys(s, cfg.neutralPhrases);
    KeysAbsentSlice(once, cfg.neutralPhrases, k, k + |cfg.terrorismRules|);
    FoldAbsent(once, cfg.terrorismRules);
    FoldWords(s, cfg.neutralPhrases, values);
  }

  /** The shipped lexicon satisfies `NeutralLexicon`, with the terrorism pass as rules 6 to 11. */
  lemma DefaultLexicon()
    ensures NeutralLexicon(DefaultConfig(), NeutralKeys(), NeutralValues(), 6)
  {
    DefaultConfigValid();
    NeutralTable();
    NeutralSetsDisjoint();
    TerrorismWordKeys();
    TerrorismInNeutral();
  }

  /** With the shipped lexicon none of the six terrorism terms is left as a whole word. */
  lemma NeutralizedTerrorismTerms(cfg: Config, s: string)
    requires cfg == DefaultConfig()
    ensures ValidConfig(cfg)
    ensures var ws := WordsOf(Neutralized(cfg, s));
      "terrorist" !in ws && "terrorism" !in ws && "militant" !in ws
      && "extremist" !in ws && "radical" !in ws && "fundamentalist" !in ws
  {
    DefaultLexicon();
    NeutralizedWords(cfg, NeutralKeys(), NeutralValues(), 6, s);
    TerrorismTermsAbsent(Neutralized(cfg, s));
  }

  // ---------------------------------------------------------------------
  // Retrieval grounding
  // ---------------------------------------------------------------------

  /**
   * The anchor chosen for the lower-cased text: the first keyword pair that
   * occurs decides (turban, then guru, then service, then equality), and
   * anchor 0 is the default.
   */
  function AnchorIndex(lower: string): (i: nat)
    ensures i < 5
    ensures i == 2 <==> Contains(lower, "turban") || Contains(lower, "dastaar")
    ensures i == 4 <==> !(Contains(lower, "turban") || Contains(lower, "dastaar"))
                        && (Contains(lower, "guru") || Contains(lower, "scripture"))
    ensures i == 3 <==> !(Contains(lower, "turban") || Contains(lower, "dastaar"))
                        && !(Contains(lower, "guru") || Contains(lower, "scripture"))
                        && (Contains(lower, "service") || Contains(lower, "seva"))
    ensures i == 1 <==> !(Contains(lower, "turban") || Contains(lower, "dastaar"))
                        && !(Contains(lower, "guru") || Contains(lower, "scripture"))
                        && !(Contains(lower, "service") || Contains(lower, "seva"))
                        && (Contains(lower, "equality") || Contains(lower, "principles"))
  {
    if Contains(lower, "turban") || Contains(lower, "dastaar") then 2
    else if Contains(lower, "guru") || Contains(lower, "scripture") then 4
    else if Contains(lower, "service") || Contains(lower, "seva") then 3
    else if Contains(lower, "equality") || Contains(lower, "principles") then 1
    else 0
  }

  function ChosenAnchor(cfg: Config, text: string): Anchor
    requires ValidConfig(cfg)
  {
    cfg.anchors[AnchorIndex(LowerStr(text))]
  }

  /** `anchor["text"] + ". " + text`: the anchor opens the result and the text is kept whole as a suffix. */
  function Grounded(cfg: Config, text: string): (r: string)
    requires ValidConfig(cfg)
    ensures |r| == |ChosenAnchor(cfg, text).text| + 2 + |text|
    ensures r[|r| - |text|..] == text
    ensures r[..|ChosenAnchor(cfg, text).text|] == ChosenAnchor(cfg, text).text
  {
    var a := ChosenAnchor(cfg, text).text;
    var r := a + ". " + text;
    assert r[|r| - |text|..] == text;
    assert r[..|a|] == a;
    r
  }

  // ---------------------------------------------------------------------
  // Reduction
  // ---------------------------------------------------------------------

  const BiasTerms: seq<string> :=
    [ "all", "every", "always", "never", "terrorist", "terrorism", "militant",
      "extremist", "radical", "backward", "primitive", "dangerous", "violent",
      "aggressive", "fear", "danger", "threat", "sikh muslim", "muslim sikh",
      "sikh islam", "islam sikh", "subset islam" ]

  /** How many bias terms occur, as substrings, in the lower-cased text. */
  function BiasTermCount(s: string): nat
  {
    CountContained(BiasTerms, LowerStr(s))
  }

  /** The grounding markers are looked for, case-sensitively, in the mitigated text. */
  predicate HasGroundingMarker(s: string)
  {
    Contains(s, DistinctMarker) || Contains(s, NanakMarker)
  }

  /**
   * `_calculate_bias_reduction`: 1.0 without bias terms in the original;
   * otherwise the share of terms that went away, plus 0.2 for a grounding
   * marker, clamped to [0, 1].
   */
  function BiasReduction(original: string, mitigated: string): (r: real)
    ensures 0.0 <= r <= 1.0
    ensures BiasTermCount(original) == 0 ==> r == 1.0
    ensures BiasTermCount(original) > 0 && BiasTermCount(mitigated) == 0 ==> r == 1.0
    ensures BiasTermCount(original) > 0 && BiasTermCount(mitigated) >= BiasTermCount(original)
            ==> r <= (if HasGroundingMarker(mitigated) then 0.2 else 0.0)
    ensures BiasTermCount(mitigated) < BiasTermCount(original) ==> r > 0.0
  {
    var o, m := BiasTermCount(original), BiasTermCount(mitigated);
    ReductionRatio(o, m, if HasGroundingMarker(mitigated) then 0.2 else 0.0)
  }

  // ---------------------------------------------------------------------
  // mitigate_bias
  // ---------------------------------------------------------------------

  /** The text `_apply_strategy` returns. */
  function StrategyText(cfg: Config, strategy: Strategy, text: string): string
    requires ValidConfig(cfg)
  {
    match strategy
    case ContextualReframing => Reframed(cfg.reframingRules, text)
    case NeutralLanguage => Neutralized(cfg, text)
    case CounterNarrative => ApplyCounterNarrative(cfg.counterNarratives, text)
    case RetrievalGrounding => Grounded(cfg, text)
    case InstructionalPrompting => text
  }

  datatype MitigationResult = MitigationResult(
    originalText: string,
    mitigatedText: string,
    strategyUsed: Strategy,
    biasReductionScore: real,
    confidence: real,
    explanations: seq<Explanation>,
    suggestedPrompts: seq<string>,
    usedSources: Option<seq<Anchor>>)

  /** The strategy given, or else the one `_select_best_strategy` picks. */
  function ChosenStrategy(rx: Regex<SelectionPattern>, text: string, strategy: Option<Strategy>): Strategy
  {
    if strategy.Some? then strategy.value else SelectBestStrategy(rx, text)
  }

  /**
   * What `mitigate_bias` returns: the strategy's rewrite, the reduction, the
   * confidence, the explanations and prompts, and the sources, reported only
   * for retrieval grounding and then exactly the one anchor chosen.
   */
  function Mitigated(cfg: Config, rx: Regex<SelectionPattern>, text: string, strategy: Option<Strategy>): (res: MitigationResult)
    requires ValidConfig(cfg)
    ensures res.originalText == text && res.strategyUsed == ChosenStrategy(rx, text, strategy)
    ensures res.mitigatedText == StrategyText(cfg, res.strategyUsed, text)
    ensures res.strategyUsed == InstructionalPrompting ==> res.mitigatedText == text
    ensures res.usedSources.Some? <==> res.strategyUsed == RetrievalGrounding
    ensures res.usedSources.Some? ==> res.usedSources.value == [ChosenAnchor(cfg, text)]
    ensures res.confidence == MitigationConfidence(res.biasReductionScore)
    ensures 0.0 <= res.biasReductionScore <= 1.0
    ensures res.biasReductionScore == BiasReduction(text, res.mitigatedText)
    ensures res.explanations == Explanations(res.strategyUsed, res.biasReductionScore)
    ensures res.suggestedPrompts == SuggestedPrompts(cfg.templates, res.strategyUsed)
  {
    var s := ChosenStrategy(rx, text, strategy);
    var m := StrategyText(cfg, s, text);
    var reduction := BiasReduction(text, m);
    MitigationResult(text, m, s, reduction, MitigationConfidence(reduction),
                     Explanations(s, reduction), SuggestedPrompts(cfg.templates, s),
                     if s == RetrievalGrounding then Some([ChosenAnchor(cfg, text)]) else None)
  }

  /**
   * The strategies that only add text (counter-narrative, grounding) or change
   * nothing (instructional) never lower the bias-term count, so for a text with
   * a bias term their reduction is at most the 0.2 grounding bonus and the
   * confidence stays at 0.5.
   */
  lemma AdditiveStrategiesLowConfidence(cfg: Config, rx: Regex<SelectionPattern>, text: string, strategy: Option<Strategy>)
    requires ValidConfig(cfg)
    requires BiasTermCount(text) > 0
    requires ChosenStrategy(rx, text, strategy) in {CounterNarrative, RetrievalGrounding, InstructionalPrompting}
    ensures Mitigated(cfg, rx, text, strategy).biasReductionScore <= 0.2
    ensures Mitigated(cfg, rx, text, strategy).confidence == 0.5
  {
    var s := ChosenStrategy(rx, text, strategy);
    AdditiveKeepsTerms(cfg, s, text);
  }

  /** Appending, prepending or keeping the text keeps every bias term it had. */
  lemma AdditiveKeepsTerms(cfg: Config, strategy: Strategy, text: string)
    requires ValidConfig(cfg)
    requires strategy in {CounterNarrative, RetrievalGrounding, InstructionalPrompting}
    ensures BiasTermCount(StrategyText(cfg, strategy, text)) >= BiasTermCount(text)
  {
    AdditiveKeepsCount(cfg, strategy, text, BiasTerms);
  }

  lemma AdditiveKeepsCount(cfg: Config, strategy: Strategy, text: string, terms: seq<string>)
    requires ValidConfig(cfg)
    requires strategy in {CounterNarrative, RetrievalGrounding, InstructionalPrompting}
    ensures CountContained(terms, LowerStr(StrategyText(cfg, strategy, text))) >= CountContained(terms, LowerStr(text))
  {
    var m := StrategyText(cfg, strategy, text);
    if strategy == CounterNarrative {
      CountContainedWithin(terms, text, m, 0);
    } else if strategy == RetrievalGrounding {
      CountContainedWithin(terms, text, m, |m| - |text|);
    }
  }

  /** With the shipped anchors, grounding on the default or the equality anchor carries a marker. */
  lemma GroundingMarker(text: string)
    requires AnchorIndex(LowerStr(text)) in {0, 1}
    ensures ValidConfig(DefaultConfig()) && HasGroundingMarker(Grounded(DefaultConfig(), text))
  {
    DefaultConfigValid();
    var cfg := DefaultConfig();
    var g := Grounded(cfg, text);
    if AnchorIndex(LowerStr(text)) == 0 {
      var pre := DistinctMarker + " monotheistic religion founded in the 15th century by ";
      var post := ", separate from Islam and other religions" + ". " + text;
      assert g == pre + NanakMarker + post;
      assert OccursAt(NanakMarker, NanakMarker, 0);
      ContainsExtend(pre, NanakMarker, post, NanakMarker);
    } else {
      var pre := "Sikhs believe in equality, service, and honest work as core principles established by ";
      assert g == pre + NanakMarker + (". " + text);
      assert OccursAt(NanakMarker, NanakMarker, 0);
      ContainsExtend(pre, NanakMarker, ". " + text, NanakMarker);
    }
  }

  // ---------------------------------------------------------------------
  // The mitigator object
  // ---------------------------------------------------------------------

  /**
   * `BAMIPMitigator` with the data it loads and its `_used_sources` list,
   * which does not exist until the first grounding run (`hasattr`): `None`
   * models the missing attribute.
   */
  class BAMIPMitigator {
    const config: Config
    var usedSources: Option<seq<Anchor>>

    constructor()
      ensures config == DefaultConfig() && ValidConfig(config)
      ensures usedSources == None
    {
      DefaultConfigValid();
      config := DefaultConfig();
      usedSources := None;
    }

    /** `get_used_sources`: the list, or an empty one when it was never created. */
    function GetUsedSources(): (r: seq<Anchor>)
      reads this
      ensures usedSources.None? ==> r == []
      ensures usedSources.Some? ==> r == usedSources.value
    {
      if usedSources.Some? then usedSources.value else []
    }

    /** `clear_used_sources`: empties the list if it exists, and does not create it. */
    method ClearUsedSources()
      modifies this
      ensures usedSources == if old(usedSources).Some? then Some([]) else None
      ensures GetUsedSources() == []
    {
      if usedSources.Some? {
        usedSources := Some([]);
      }
    }

    /** `_apply_retrieval_grounding`: prepends the chosen anchor and records it. */
    method ApplyRetrievalGrounding(text: string) returns (mitigated: string)
      requires ValidConfig(config)
      modifies this
      ensures mitigated == Grounded(config, text)
      ensures usedSources == Some(old(GetUsedSources()) + [ChosenAnchor(config, text)])
    {
      var lower := LowerStr(text);
      var selected := config.anchors[AnchorIndex(lower)];
      if usedSources.None? {
        usedSources := Some([]);
      }
      usedSources := Some(usedSources.value + [selected]);
      mitigated := selected.text + ". " + text;
    }

    /** `_apply_strategy`: only grounding touches the used sources. */
    method ApplyStrategy(text: string, strategy: Strategy) returns (mitigated: string)
      requires ValidConfig(config)
      modifies this
      ensures mitigated == StrategyText(config, strategy, text)
      ensures strategy == RetrievalGrounding ==> usedSources == Some(old(GetUsedSources()) + [ChosenAnchor(config, text)])
      ensures strategy != RetrievalGrounding ==> usedSources == old(usedSources)
    {
      match strategy
      case ContextualReframing =>
        mitigated := ApplyContextualReframing(config.reframingRules, text);
      case NeutralLanguage =>
        mitigated := ApplyNeutralLanguage(config, text);
      case CounterNarrative =>
        mitigated := ApplyCounterNarrative(config.counterNarratives, text);
      case RetrievalGrounding =>
        mitigated := ApplyRetrievalGrounding(text);
      case InstructionalPrompting =>
        mitigated := text;
    }

    /**
     * `mitigate_bias`: selects a strategy when none is given, clears the used
     * sources, applies the strategy and reports the result; afterwards the
     * used sources are exactly the anchor of this run for grounding, and
     * otherwise empty (or still absent).
     */
    method MitigateBias(rx: Regex<SelectionPattern>, text: string, strategy: Option<Strategy>) returns (result: MitigationResult)
      requires ValidConfig(config)
      modifies this
      ensures result == Mitigated(config, rx, text, strategy)
      ensures result.strategyUsed == RetrievalGrounding ==> usedSources == Some([ChosenAnchor(config, text)])
      ensures result.strategyUsed != RetrievalGrounding
              ==> usedSources == if old(usedSources).Some? then Some([]) else None
    {
      var chosen := if strategy.Some? then strategy.value else SelectBestStrategy(rx, text);
      ClearUsedSources();
      ghost var cleared := GetUsedSources();
      assert cleared == [];
      var mitigated := ApplyStrategy(text, chosen);
      assert chosen == RetrievalGrounding ==> GetUsedSources() == cleared + [ChosenAnchor(config, text)];
      var reduction := BiasReduction(text, mitigated);
      var confidence := MitigationConfidence(BiasReduction(text, mitigated));
      var explanations := Explanations(chosen, reduction);
      var prompts := SuggestedPrompts(config.templates, chosen);
      var sources := if chosen == RetrievalGrounding then Some(GetUsedSources()) else None;
      assert chosen == ChosenStrategy(rx, text, strategy);
      assert mitigated == StrategyText(config, chosen, text);
      assert chosen != RetrievalGrounding ==> sources == None;
      assert chosen == RetrievalGrounding ==> cleared + [ChosenAnchor(config, text)] == [ChosenAnchor(config, text)];
      assert chosen == RetrievalGrounding ==> sources == Some([ChosenAnchor(config, text)]);
      result := MitigationResult(text, mitigated, chosen, reduction, confidence, explanations, prompts, sources);
    }
  }
}
