# BiasLens / BAMIP engine — a Dafny model

BiasLens scores AI-generated text about Sikh identity for bias, and then
rewrites it with one of five BAMIP mitigation strategies:

- retrieval grounding;
- neutral language;
- contextual reframing;
- counter-narrative;
- instructional prompting.

This project models the engine's decision logic and proves what it promises.
The repository contains two copies of the engine, and both are modelled:

- **the live engine** (`biaslense/src/core/`):
  - the research rubric scorer (five dimensions on a 1–5 scale);
  - the rubric scorer with its additive penalties and bonuses;
  - the mitigator, which tracks used sources;
  - the similarity classifier that runs after the embedding call;
  - the pipeline with its prompt and bias-type classifiers, two-signal risk
    assessment, research-matrix strategy selection, improvement floor,
    recommendations and bounded FIFO result cache.
- **the older engine** (`src/core/`):
  - the rubric scorer on a 0–10 scale;
  - the mitigator with its different selection priority;
  - the pipeline with its text-assembly steps and multi-strategy layering.

## Structure

Modules, one per source file, plus shared helpers:

- `Text`:
  - the regular-expression oracle. A pattern is an opaque value of a
    per-module enumeration; `search` and `findall` are parameters, and
    `Coherent` ties them together. Each enumeration's `Source` function
    keeps the pattern's text.
  - ASCII lower-casing;
  - substring counting;
  - first-match and count scans.
- `Words`: whole-word, case-insensitive substitution (`\bterm\b` with
  `re.IGNORECASE`). It works on a concrete token model of ASCII word runs,
  with a proven `Render`/`Tokenize` round trip.
- `Lexicon`: the replacement tables and the facts proved about them.
- `RubricCommon`: what the two `rubric_scoring.py` copies share:
  - the weighted overall score;
  - the penalty loop;
  - explanations and flagged patterns.
- `ResearchRubric`: `research_rubric_scorer.py`.
- `RubricScoring` and `LegacyRubricScoring`: the live and older
  `rubric_scoring.py`.
- `Mitigation`: what the two `bias_mitigator.py` copies share:
  - selection by priority;
  - "all X" to "some X" reframing;
  - the counter-narrative;
  - reduction ratio, confidence, explanations and suggested prompts.
- `BiasMitigator` and `LegacyBiasMitigator`: the two mitigators.
- `Embeddings`: `embedding_checker.py`.
- `PipelineCommon`: what both pipelines share:
  - the risk levels and the two-tier assessment;
  - the applicability test and priority order of `apply_multiple_strategies`.
- `Pipeline` and `LegacyPipeline`: the two `bamip_pipeline.py` copies.

How each kind of source code is modelled:

- **Objects that change state are classes:**
  - the rubric scorer, whose details fields are written by the dimension
    scorers and read back by `score_text`;
  - the mitigator's `_used_sources`;
  - the embedding checker's thresholds and phrase list;
  - the pipeline's cache and insertion order.
- **Loops become methods**, each proved against a specification function:
  - the penalty and collection loops of the rubric scorers;
  - the substitution loops of the mitigators;
  - the score-map and category loops of the embedding checker;
  - `apply_multiple_strategies`.
- **Decision logic is pure functions:** scans, tiers, selection, risk and
  recommendations.

## Model

| member | source | states |
|---|---|---|
| Text.FirstMatch | biaslense/src/core/research_rubric_scorer.py:98-120 | the first pattern of a list that matches, with no earlier one matching; none exactly when no pattern matches |
| Text.CountMatching | biaslense/src/core/rubric_scoring.py:358-359 | `sum(1 for p in pats if re.search(p, t))`: zero exactly when nothing matches, the list length exactly when every pattern matches |
| Text.MatchingPatternsExactly | biaslense/src/core/rubric_scoring.py:342-344 | the collected patterns are exactly the list's patterns that match |
| Text.SumFindall | biaslense/src/core/rubric_scoring.py:346 | the summed `findall` counts are zero exactly when no pattern matches, and at least the number of matching patterns |
| Text.WordCount | src/core/rubric_scoring.py:316 | `len(text.split())` is at most the length and zero exactly when the text is all whitespace |
| Text.CountContained | biaslense/src/core/research_rubric_scorer.py:184-186 | the number of terms occurring as substrings; zero exactly when none occurs |
| Text.Clamp | src/core/rubric_scoring.py:213 | `max(lo, min(hi, x))` lies in the range and is `x` when `x` already does |
| Words.Substitute | biaslense/src/core/bias_mitigator.py:278-280 | one `re.sub(r'\b' + re.escape(key) + r'\b', value, text, flags=re.IGNORECASE)`: the result's tokens are the input's with every whole-word occurrence of the key replaced |
| Words.SubstituteRemovesWord | biaslense/src/core/bias_mitigator.py:278-280 | after substituting a one-word key, none of the key's spellings remains as a word unless the replacement brings it |
| Words.ApplyRules | biaslense/src/core/bias_mitigator.py:277-280 | the substitution loop applies the table's rules in order |
| Words.FoldRemovesKeys | biaslense/src/core/bias_mitigator.py:277-293 | when no rule's replacement contains a key of the table, no one-word key of the table remains as a whole word after the loop |
| Words.FoldWords | biaslense/src/core/bias_mitigator.py:277-293 | the loop introduces no words other than the replacements |
| Words.FoldAbsent | biaslense/src/core/bias_mitigator.py:277-293 | a text holding none of a table's keys passes the loop unchanged |
| Words.RenderTokenize | biaslense/src/core/bias_mitigator.py:278-280 | splitting text into word and separator tokens loses nothing: rendering gives the text back |
| Lexicon.NeutralTable | biaslense/src/core/bias_mitigator.py:131-169 | the live neutral-phrase table never reintroduces one of its own keys, so its substitution loop removes every one-word key |
| Lexicon.LegacyNeutralTable | src/core/bias_mitigator.py:109-125 | the same for the older table: every one-word key is removed |
| Lexicon.TerrorismInNeutral | biaslense/src/core/bias_mitigator.py:142-148 | entries 6 to 11 of the live neutral dictionary are its six terrorism rules |
| Lexicon.TerrorismTermsAbsent | biaslense/src/core/bias_mitigator.py:142-148 | a text without the terrorism keys contains none of "terrorist", "terrorism", "militant", "extremist", "radical", "fundamentalist" as words |
| Lexicon.LegacyTerrorismTermsAbsent | src/core/bias_mitigator.py:109-125 | the same for the older table's five terrorism terms |
| Lexicon.ReframingTable | biaslense/src/core/bias_mitigator.py:256-269 | the reframing rules are well formed and their replacements lie in a fixed word set |
| RubricCommon.Penalize | src/core/rubric_scoring.py:143-156 | the penalty loop lowers the score by the step once per matching pattern |
| RubricCommon.CollectMatches | biaslense/src/core/rubric_scoring.py:175-181 | the collection loop gathers exactly the matching patterns, in list order |
| RubricCommon.Overall | biaslense/src/core/rubric_scoring.py:547-553 | the weights 0.25/0.25/0.2/0.15/0.15 keep the overall score between the lowest and the highest dimension, and equal scores give that score |
| RubricCommon.StereotypeExplanations | biaslense/src/core/rubric_scoring.py:560-567 | at most one stereotype explanation per pattern, each for a pattern with matches |
| RubricCommon.StereotypeMatches | biaslense/src/core/rubric_scoring.py:560-566 | the flagged match texts are exactly what the stereotype patterns' `findall` returns |
| RubricCommon.Explanations | biaslense/src/core/rubric_scoring.py:555-581 | the stereotype explanations come first, then one conflation error per matching conflation pattern, then one reductionist one per matching reductionist pattern |
| RubricCommon.FlaggedTexts | biaslense/src/core/rubric_scoring.py:555-581 | a text is flagged exactly when some stereotype pattern matched it |
| RubricCommon.FlaggedPatterns | src/core/rubric_scoring.py:285-311 | a pattern is flagged exactly when it is a matching conflation or reductionist pattern, and only once (de-duplicated) |
| RubricCommon.GenerateExplanations | biaslense/src/core/rubric_scoring.py:555-581 | the loops produce those explanations and flags |
| ResearchRubric.FirstHit | biaslense/src/core/research_rubric_scorer.py:98-120 | the pattern an early-return scan reports is the first matching one of its list |
| ResearchRubric.CountAccurateFacts | biaslense/src/core/research_rubric_scorer.py:132-136 | the `accurate_count += 1` loop counts, and lists, exactly the matching accurate-fact patterns |
| ResearchRubric.ScoreAccuracy | biaslense/src/core/research_rubric_scorer.py:67-165 | 1 exactly on a critical match, else 2 on a major match, else 4 (≥4 facts, no minor error), 3 (≥2 facts, no minor error) or 2; never 5; the indicator is the first hit |
| ResearchRubric.ScoreRelevance | biaslense/src/core/research_rubric_scorer.py:167-209 | 1 exactly when no topic term occurs, 2 for one, 4 exactly for ≥3 terms in a text over 200 characters, otherwise 3 |
| ResearchRubric.EmptyTextOffTopic | biaslense/src/core/research_rubric_scorer.py:184-188 | the empty text scores 1 for relevance |
| ResearchRubric.ScoreFairness | biaslense/src/core/research_rubric_scorer.py:211-281 | 1 exactly on overt bias, 2 exactly on uneven framing without overt bias, else 5/4/3 for ≥2/1/0 respectful indicators |
| ResearchRubric.ScoreNeutrality | biaslense/src/core/research_rubric_scorer.py:283-351 | 1 exactly on ideological slant, 2 exactly on biased framing without slant, else 5/4/3 for ≥3/2/<2 neutral indicators |
| ResearchRubric.ScoreRepresentation | biaslense/src/core/research_rubric_scorer.py:353-427 | 1 on a stereotype; otherwise the full (diversity, cultural) decision table, each tier an if-and-only-if |
| ResearchRubric.ScoreResponse | biaslense/src/core/research_rubric_scorer.py:39-65 | every dimension is within its scale, and the overall score is exactly the mean of the five, so it lies in [1,5] |
| ResearchRubric.PromptIgnored | biaslense/src/core/research_rubric_scorer.py:39-65 | the prompt argument never changes the result |
| ResearchRubric.CriticalErrorCapsOverall | biaslense/src/core/research_rubric_scorer.py:49-51 | a critical accuracy error caps the overall score at 4.2 |
| RubricScoring.Accuracy | biaslense/src/core/rubric_scoring.py:145-252 | 1 exactly on a critical match; else 2 exactly on a major match; else 5 (≥4 indicators, no minor error), 4 (≥2 indicators or a minor error), or 3; the recorded error lists are the matching patterns |
| RubricScoring.Relevance | biaslense/src/core/rubric_scoring.py:288-317 | 5 exactly for a long text with coverage terms, 4 for a Sikh term otherwise, else 2; never 3; the reasoning is recorded to match |
| RubricScoring.FairnessRecord | biaslense/src/core/rubric_scoring.py:324-344 | the fairness details: the matching extreme-bias patterns, and the overt-bias reasoning exactly when one matches |
| RubricScoring.FairnessScore | biaslense/src/core/rubric_scoring.py:346-417 | the adjusted score is clamped to [0,10], gains at most 2.5 over the baseline, keeps the baseline with no penalty, and is 0 on extreme bias from a baseline of 1 |
| RubricScoring.FairnessAsWritten | biaslense/src/core/rubric_scoring.py:338-347 | as written, fairness is undefined (raises) exactly when no extreme-bias pattern matches |
| RubricScoring.FairnessAsWrittenNeverPositive | biaslense/src/core/rubric_scoring.py:338-347 | as written, fairness either raises or is 0.0 |
| RubricScoring.Fairness | biaslense/src/core/rubric_scoring.py:319-417 | corrected fairness is defined for all text, lies in [0,5.5], is 0 on extreme bias, and is at least 3 with no penalty pattern |
| RubricScoring.FairnessCorrectionAgrees | biaslense/src/core/rubric_scoring.py:338-347 | wherever the code as written returns, the corrected scorer returns the same value |
| RubricScoring.RepresentationScore | biaslense/src/core/rubric_scoring.py:419-470 | starts at 1, lies in [0,3.5], reaches 3.5 exactly with no reductionism or oversimplification, ≥2 diversity indicators and community diversity; a reductionist match caps it at 1; `Representation` feeds it the number of reductionist and of oversimplification patterns that match, the number of diversity-indicator patterns that match, and whether the community-diversity pattern matches, all on the lower-cased text |
| RubricScoring.LinguisticScore | biaslense/src/core/rubric_scoring.py:472-507 | starts at 1.5, lies in [0,3.5], a negative term caps it at 1.5 and two give 0, and it reaches 3.5 exactly with balanced wording; `LinguisticBalance` feeds it the `findall` counts of the negative-term, positive-term, absolute-qualifier and loaded-language patterns and the summed `findall` count of the balanced-language patterns, on the lower-cased text |
| RubricScoring.CulturalScore | biaslense/src/core/rubric_scoring.py:509-545 | lies in [0,2]; a historical error gives 0; 2 exactly with no Western-centric or historical match and ≥2 sensitivity indicators; `CulturalFraming` feeds it the number of Western-centric and of historical-error patterns that match and the summed `findall` count of the sensitivity patterns, on the text as given |
| RubricScoring.BaseConfidence | biaslense/src/core/rubric_scoring.py:588-597 | 0.4/0.7/0.85/0.9 for under 10/50/200 words and above, each an if-and-only-if |
| RubricScoring.Confidence | biaslense/src/core/rubric_scoring.py:583-637 | clamped to [0.3,0.95] and within 0.15 above the word-count base |
| RubricScoring.DimensionScores | biaslense/src/core/rubric_scoring.py:92-143 | with the corrected fairness (see ## Findings), each dimension lies in its reachable range |
| RubricScoring.Analysis | biaslense/src/core/rubric_scoring.py:92-143 | with the corrected fairness (see ## Findings), the overall score lies in [0.25,4.15], confidence in [0.3,0.95]; the accuracy and fairness details are read back, and the representation, linguistic and cultural details are always missing |
| RubricScoring.BiasRubricScorer.constructor | biaslense/src/core/rubric_scoring.py:40-43 | a new scorer has no details recorded |
| RubricScoring.BiasRubricScorer.ScoreAccuracy | biaslense/src/core/rubric_scoring.py:145-252 | records the accuracy details and returns their score, leaving the other details alone |
| RubricScoring.BiasRubricScorer.ScoreRelevance | biaslense/src/core/rubric_scoring.py:288-317 | records the relevance details and returns their score |
| RubricScoring.BiasRubricScorer.ScoreFairness | biaslense/src/core/rubric_scoring.py:319-417 | records the fairness details and returns the corrected fairness score |
| RubricScoring.BiasRubricScorer.ScoreRepresentation | biaslense/src/core/rubric_scoring.py:419-470 | the penalty and bonus loop computes the representation score |
| RubricScoring.BiasRubricScorer.ScoreCulturalFraming | biaslense/src/core/rubric_scoring.py:509-545 | the loop computes the cultural-framing score on the text as given (case-sensitive) |
| RubricScoring.BiasRubricScorer.ScoreText | biaslense/src/core/rubric_scoring.py:92-143 | with the corrected fairness (see ## Findings), returns the analysis, with the details fields it wrote read back into it |
| RubricScoring.AnalysisAsWritten | biaslense/src/core/rubric_scoring.py:92-143 | as written, `score_text` raises exactly when no extreme-bias pattern matches, and otherwise returns the corrected analysis |
| RubricScoring.AnalysisAsWrittenLow | biaslense/src/core/rubric_scoring.py:92-143 | where `score_text` as written returns, fairness is 0.0 and the overall score lies in [0.25,2.775] |
| LegacyRubricScoring.AccuracyScore | src/core/rubric_scoring.py:130-158 | lies in [0,10]; 10 exactly with no factual error or unsupported claim; one factual error caps it at 5, two give 0; `Accuracy` feeds it the number of factual-error and of unsupported-claim patterns that match |
| LegacyRubricScoring.ScoreAccuracy | src/core/rubric_scoring.py:130-158 | the loops lose 5 per factual-error pattern and 4 per unsupported claim |
| LegacyRubricScoring.FairnessScore | src/core/rubric_scoring.py:160-191 | lies in [0,10]; 10 exactly with no penalty; terrorism caps it at 2, conflation at 4; four stereotype matches give 0; `Fairness` feeds it the summed `findall` count of the stereotype patterns, the number of comparative patterns that match, and one search each for terrorism, conflation and generalization on the lower-cased text |
| LegacyRubricScoring.ScoreFairness | src/core/rubric_scoring.py:160-191 | the loops lose 3 per stereotype occurrence and 3 per comparative pattern, then 8, 6 and 4 for terrorism, conflation and generalization |
| LegacyRubricScoring.RepresentationScore | src/core/rubric_scoring.py:193-213 | lies in [0,10]; 10 exactly with no reductionist match; `Representation` feeds it the number of reductionist patterns that match and the summed `findall` count of the diversity patterns |
| LegacyRubricScoring.ScoreRepresentation | src/core/rubric_scoring.py:193-213 | the loop computes the representation score |
| LegacyRubricScoring.LinguisticScore | src/core/rubric_scoring.py:215-238 | lies in [0,10]; 10 exactly when balanced with no absolute qualifier and ≤3 passives; ten absolute qualifiers give 0; `LinguisticBalance` feeds it the `findall` counts of the negative-term, positive-term, absolute-qualifier and passive-voice patterns |
| LegacyRubricScoring.CulturalScore | src/core/rubric_scoring.py:240-275 | lies in [0,10]; 10 exactly with no Western-centric or historical match; `CulturalFraming` feeds it the number of Western-centric and of historical-error patterns that match and the summed `findall` count of the sensitivity patterns |
| LegacyRubricScoring.ScoreCulturalFraming | src/core/rubric_scoring.py:240-275 | the loops compute the cultural-framing score |
| LegacyRubricScoring.Confidence | src/core/rubric_scoring.py:313-325 | a step function of word count alone: 0.3/0.6/0.8/0.9, each an if-and-only-if |
| LegacyRubricScoring.DimensionScores | src/core/rubric_scoring.py:84-128 | every dimension lies in [0,10] |
| LegacyRubricScoring.Analysis | src/core/rubric_scoring.py:84-128 | the overall score lies in [0,10] and between the lowest and highest dimension |
| LegacyRubricScoring.ScoreText | src/core/rubric_scoring.py:84-128 | returns the analysis |
| LegacyRubricScoring.NoMatchScoresTen | src/core/rubric_scoring.py:277-283 | text matching no pattern scores 10 on every dimension and 10.0 overall |
| LegacyRubricScoring.NoMatchAnalysis | src/core/rubric_scoring.py:84-128 | the same, stated of the analysis result |
| LegacyRubricScoring.NoMatchFairness | src/core/rubric_scoring.py:160-191 | no pattern match leaves fairness at 10 |
| LegacyRubricScoring.NoMatchLinguistic | src/core/rubric_scoring.py:215-238 | no pattern match leaves linguistic balance at 10 |
| Mitigation.SelectByPriority | biaslense/src/core/bias_mitigator.py:210-235 | the first matching pattern's strategy, and instructional prompting exactly when nothing matches |
| Mitigation.PriorityOfFive | src/core/bias_mitigator.py:159-181 | a five-entry priority list is the source's if/elif chain |
| Mitigation.ReframeText | biaslense/src/core/bias_mitigator.py:256-262 | "all/every/always/never" followed by a group word becomes "some" and the word as written, and no other word appears |
| Mitigation.ReframeGroupsUnchanged | biaslense/src/core/bias_mitigator.py:256-262 | text without such a generalization is unchanged |
| Mitigation.ApplyContextualReframing | biaslense/src/core/bias_mitigator.py:250-271 | the method's loops compute the reframed text |
| Mitigation.ReframedWords | biaslense/src/core/bias_mitigator.py:250-271 | after reframing, no charged key remains and only "some" and the replacements are new words |
| Mitigation.ApplyCounterNarrative | biaslense/src/core/bias_mitigator.py:297-301 | the original text is an unchanged prefix, followed by the counter-narrative sentence |
| Mitigation.ReductionRatio | biaslense/src/core/bias_mitigator.py:337-359 | clamped to [0,1]; 1 with no original bias term or none left; positive exactly when terms were removed; the plain ratio without bonus |
| Mitigation.MitigationConfidence | biaslense/src/core/bias_mitigator.py:361-372 | 0.9 exactly above 0.5, 0.5 exactly at or below 0.2, else 0.7 |
| Mitigation.ConfidenceMonotone | biaslense/src/core/bias_mitigator.py:361-372 | more reduction never lowers confidence |
| Mitigation.Explanations | biaslense/src/core/bias_mitigator.py:374-386 | the two strategy lines first; a third exactly when reduction is positive |
| Mitigation.SuggestedPrompts | biaslense/src/core/bias_mitigator.py:388-397 | the instruction templates for instructional prompting, the generic prompts otherwise |
| Mitigation.TemplatesOnlyForInstructional | biaslense/src/core/bias_mitigator.py:388-397 | only instructional prompting yields the templates |
| BiasMitigator.SelectBestStrategy | biaslense/src/core/bias_mitigator.py:210-235 | each strategy exactly under its priority condition: conflation, terrorism, generalization, cultural, emotional, otherwise instructional |
| BiasMitigator.DefaultConfigValid | biaslense/src/core/bias_mitigator.py:40-43 | the initial tables are well formed |
| BiasMitigator.ApplyNeutralLanguage | biaslense/src/core/bias_mitigator.py:273-295 | the two substitution loops compute the neutralized text |
| BiasMitigator.NeutralizedWords | biaslense/src/core/bias_mitigator.py:273-295 | no one-word key of either table remains, and only replacement words are new |
| BiasMitigator.DefaultLexicon | biaslense/src/core/bias_mitigator.py:131-169 | the initial tables keep keys and replacements apart |
| BiasMitigator.NeutralizedTerrorismTerms | biaslense/src/core/bias_mitigator.py:282-293 | afterwards none of "terrorist", "terrorism", "militant", "extremist", "radical", "fundamentalist" remains as a word |
| BiasMitigator.AnchorIndex | biaslense/src/core/bias_mitigator.py:308-319 | the anchor is the first keyword hit: turban/dastaar 2, guru/scripture 4, service/seva 3, equality/principles 1, otherwise 0 |
| BiasMitigator.Grounded | biaslense/src/core/bias_mitigator.py:303-326 | the anchor text, then ". ", then the original, which is an unchanged suffix |
| BiasMitigator.BiasReduction | biaslense/src/core/bias_mitigator.py:337-359 | in [0,1]; 1 with no original term or none left; positive when terms were removed; at most the 0.2 grounding bonus when none were |
| BiasMitigator.Mitigated | biaslense/src/core/bias_mitigator.py:171-208 | keeps the original, uses the given or selected strategy, leaves the text unchanged for instructional prompting, reports sources exactly for grounding (the one chosen anchor); the reduction is `BiasReduction` of the original and the mitigated text, the confidence comes from it, the explanations are `Mitigation.Explanations` of the strategy and reduction, and the suggested prompts are `Mitigation.SuggestedPrompts` (the templates exactly for instructional prompting) |
| BiasMitigator.AdditiveStrategiesLowConfidence | biaslense/src/core/bias_mitigator.py:337-372 | adding text never removes bias terms, so those strategies reach at most 0.2 reduction and confidence 0.5 |
| BiasMitigator.AdditiveKeepsTerms | biaslense/src/core/bias_mitigator.py:337-359 | counter-narrative, grounding and instructional prompting never lower the bias-term count |
| BiasMitigator.GroundingMarker | biaslense/src/core/bias_mitigator.py:355-357 | anchors 0 and 1 carry the grounding marker that earns the bonus |
| BiasMitigator.BAMIPMitigator.constructor | biaslense/src/core/bias_mitigator.py:40-43 | the initial tables, and no used-sources attribute yet |
| BiasMitigator.BAMIPMitigator.GetUsedSources | biaslense/src/core/bias_mitigator.py:328-330 | the recorded sources, or empty when none were ever recorded |
| BiasMitigator.BAMIPMitigator.ClearUsedSources | biaslense/src/core/bias_mitigator.py:332-335 | an existing list is emptied; afterwards no source is reported |
| BiasMitigator.BAMIPMitigator.ApplyRetrievalGrounding | biaslense/src/core/bias_mitigator.py:303-326 | returns the grounded text and appends the chosen anchor to the used sources |
| BiasMitigator.BAMIPMitigator.ApplyStrategy | biaslense/src/core/bias_mitigator.py:237-248 | returns the strategy's rewrite; only grounding touches the used sources |
| BiasMitigator.BAMIPMitigator.MitigateBias | biaslense/src/core/bias_mitigator.py:171-208 | returns the mitigation result; the used sources end as exactly this run's anchor after grounding, cleared otherwise |
| LegacyBiasMitigator.SelectBestStrategy | src/core/bias_mitigator.py:159-181 | each strategy exactly under its priority condition: generalization, terrorism, cultural, conflation, emotional, otherwise instructional |
| LegacyBiasMitigator.DefaultConfigValid | src/core/bias_mitigator.py:39-42 | the initial tables are well formed |
| LegacyBiasMitigator.ApplyNeutralLanguage | src/core/bias_mitigator.py:219-227 | the substitution loop computes the neutralized text |
| LegacyBiasMitigator.NeutralizedWords | src/core/bias_mitigator.py:219-227 | no one-word table key remains, and only replacement words are new |
| LegacyBiasMitigator.NeutralizedTerrorismTerms | src/core/bias_mitigator.py:109-125 | afterwards none of "terrorist", "militant", "extremist", "radical", "fundamentalist" remains as a word |
| LegacyBiasMitigator.Grounded | src/core/bias_mitigator.py:235-238 | always the first anchor, then ". ", then the original as an unchanged suffix |
| LegacyBiasMitigator.BiasReduction | src/core/bias_mitigator.py:240-255 | in [0,1]; 1 with no original term or none left; 0 when none were removed (no grounding bonus) |
| LegacyBiasMitigator.ApplyStrategy | src/core/bias_mitigator.py:183-194 | the strategy's rewrite; instructional prompting leaves the text as it is |
| LegacyBiasMitigator.Mitigated | src/core/bias_mitigator.py:127-157 | keeps the original, uses the given or selected strategy, leaves the text unchanged for instructional prompting; the reduction is `BiasReduction` of the original and the mitigated text, the confidence comes from it, the explanations are `Mitigation.Explanations` of the strategy and reduction, and the suggested prompts are `Mitigation.SuggestedPrompts`: the templates for instructional prompting, the generic prompts otherwise |
| LegacyBiasMitigator.MitigateBias | src/core/bias_mitigator.py:127-157 | returns the mitigation result |
| LegacyBiasMitigator.AdditiveKeepsTerms | src/core/bias_mitigator.py:240-255 | additive strategies never lower the bias-term count |
| LegacyBiasMitigator.AdditiveStrategiesNoReduction | src/core/bias_mitigator.py:240-282 | so they score 0 reduction, confidence 0.5 and two explanation lines |
| Embeddings.SeverityOf | biaslense/src/core/embedding_checker.py:182-191 | high, medium, low and none bands, each an if-and-only-if in the thresholds |
| Embeddings.SeverityMonotone | biaslense/src/core/embedding_checker.py:182-191 | a higher score never gets a lower severity |
| Embeddings.DefaultBands | biaslense/src/core/embedding_checker.py:52-59 | with the initial thresholds the bands are ≥0.8, ≥0.65, ≥0.5 and below |
| Embeddings.ScoresOfContents | biaslense/src/core/embedding_checker.py:160-169 | the score map holds exactly the catalog phrases, each with its similarity |
| Embeddings.MaxOver | biaslense/src/core/embedding_checker.py:142 | the maximum is attained by some phrase and bounds all; 0.0 for no phrase |
| Embeddings.Above | biaslense/src/core/embedding_checker.py:143-146 | exactly the phrases scoring strictly above the threshold |
| Embeddings.Similarity | biaslense/src/core/embedding_checker.py:114-158 | without embeddings the fixed fallback (severity low); otherwise the maximum phrase score, the phrases above 'default', severity of the maximum; exceeded exactly when some phrase is above |
| Embeddings.CategoryOf | biaslense/src/core/embedding_checker.py:210-221 | the first keyword group the phrase mentions, and general bias exactly when it mentions none |
| Embeddings.CategorizeStep | biaslense/src/core/embedding_checker.py:207-221 | one more phrase adds one entry to its own bucket only |
| Embeddings.FillCategories | biaslense/src/core/embedding_checker.py:207-221 | the loop builds the categorization |
| Embeddings.CategorizeTotal | biaslense/src/core/embedding_checker.py:207-221 | the buckets together hold one entry per similar phrase |
| Embeddings.CategorizeMember | biaslense/src/core/embedding_checker.py:207-221 | an entry is in a bucket exactly when its phrase is similar, belongs to that category and carries its score |
| Embeddings.InsertKeepsDescending | biaslense/src/core/embedding_checker.py:226-230 | inserting into a descending list keeps it descending |
| Embeddings.SortDescending | biaslense/src/core/embedding_checker.py:226-230 | the sort is descending and a permutation |
| Embeddings.SortedPrefix | biaslense/src/core/embedding_checker.py:226-230 | a prefix of the sorted list is descending and scores at least as high as everything left out |
| Embeddings.TopMatches | biaslense/src/core/embedding_checker.py:226-230 | at most five entries, descending, drawn from the score map without repeats, none beaten by an entry left out, and among equal scores the earliest in insertion order |
| Embeddings.SortStable | biaslense/src/core/embedding_checker.py:226-230 | the sort is stable: the entries of each score keep their order |
| Embeddings.BreakdownOf | biaslense/src/core/embedding_checker.py:193-232 | the breakdown's overall similarity and severity are the similarity result's; its category lists are `Categorize` of the similar phrases (one entry per phrase, in its own category with its score, by `CategorizeMember`), and its top matches are `TopMatches` of the score table (at most five, descending, stable among ties) |
| Embeddings.Catalog | biaslense/src/core/embedding_checker.py:68-112 | the catalog holds 30 phrases |
| Embeddings.OutsideCatalog | biaslense/src/core/embedding_checker.py:68-112 | "Sikhs are outsiders" is not a catalog phrase |
| Embeddings.EmbeddingChecker.constructor | biaslense/src/core/embedding_checker.py:42-50 | the initial thresholds, the catalog, embeddings present |
| Embeddings.EmbeddingChecker.PrecomputeEmbeddings | biaslense/src/core/embedding_checker.py:61-66 | resets the phrases to the catalog, thresholds unchanged |
| Embeddings.EmbeddingChecker.ComputeCosineSimilarities | biaslense/src/core/embedding_checker.py:160-169 | the loop builds the per-phrase score map |
| Embeddings.EmbeddingChecker.ComputeSimilarity | biaslense/src/core/embedding_checker.py:114-158 | returns the similarity result for the current thresholds and phrases |
| Embeddings.EmbeddingChecker.GetSimilarityBreakdown | biaslense/src/core/embedding_checker.py:193-232 | returns the breakdown for the current thresholds and phrases |
| Embeddings.EmbeddingChecker.UpdateThresholds | biaslense/src/core/embedding_checker.py:234-236 | supplied keys take the new values, every other key keeps its old one, nothing else changes |
| Embeddings.EmbeddingChecker.AddStereotypePhrases | biaslense/src/core/embedding_checker.py:238-243 | as written: a non-empty addition leaves just the catalog, so an added phrase outside it is lost |
| Embeddings.EmbeddingChecker.AddStereotypePhrasesKept | biaslense/src/core/embedding_checker.py:238-243 | corrected: the phrases become the old ones followed by the new ones, all kept, thresholds unchanged |
| PipelineCommon.RubricRisk | biaslense/src/core/bamip_pipeline.py:552-557 | the rubric tier: low from the upper cut, medium from the lower, high below, each an if-and-only-if |
| PipelineCommon.SimilarityRisk | biaslense/src/core/bamip_pipeline.py:560-565 | the similarity tier: high from 0.8, medium from 0.5, low below |
| PipelineCommon.AssessRisk | biaslense/src/core/bamip_pipeline.py:549-573 | the more severe of the two tiers: at least as severe as each, and equal to one |
| PipelineCommon.RiskMonotone | biaslense/src/core/bamip_pipeline.py:549-573 | a lower score or higher similarity never lowers the risk |
| PipelineCommon.ApplicableIgnoresCase | biaslense/src/core/bamip_pipeline.py:783-800 | applicability ignores case and is never true for instructional prompting |
| Pipeline.SearchGroup | biaslense/src/core/bamip_pipeline.py:127-151 | an early-return scan reports a hit exactly when some pattern of the list matches |
| Pipeline.PromptSubtypeOf | biaslense/src/core/bamip_pipeline.py:75-151 | the first list matching in the order identity confusion, analogical, comparative, scenario, descriptive; then descriptive on a Sikh keyword, else general; each an if-and-only-if |
| Pipeline.BiasTypeOf | biaslense/src/core/bamip_pipeline.py:153-228 | the first matching list in the order historical, representational, measurement, aggregation, evaluation; otherwise general bias exactly when overall < 3.5 or the threshold was exceeded |
| Pipeline.ClassifiersIgnoreCase | biaslense/src/core/bamip_pipeline.py:127-228 | both classifiers ignore case |
| Pipeline.Primary | biaslense/src/core/bamip_pipeline.py:473-474 | a lowest dimension, the earliest in dict order among ties (stable sort) |
| Pipeline.Secondary | biaslense/src/core/bamip_pipeline.py:473-475 | the lowest other dimension, the earliest among ties |
| Pipeline.BestStrategy | biaslense/src/core/bamip_pipeline.py:509-519 | a candidate with the highest 70/30 combined effectiveness, retrieval grounding winning ties |
| Pipeline.SelectionTable | biaslense/src/core/bamip_pipeline.py:480-519 | the matrix picks contextual reframing for representation with linguistic balance, instructional prompting for representation otherwise, else retrieval grounding |
| Pipeline.LowDimensions | biaslense/src/core/bamip_pipeline.py:540 | exactly the dimensions below 6.0 |
| Pipeline.SelectOptimalStrategy | biaslense/src/core/bamip_pipeline.py:458-547 | the two weakest dimensions (stable order), the best candidate for them, never counter-narrative or neutral language, and the facts behind the reasoning |
| Pipeline.RaiseDimension | biaslense/src/core/bamip_pipeline.py:698-709 | each score becomes min(5, max(original + 0.5, improved)) |
| Pipeline.EnsureImprovement | biaslense/src/core/bamip_pipeline.py:690-744 | every dimension is raised that way and the overall score is their mean |
| Pipeline.ImprovementNeverLowers | biaslense/src/core/bamip_pipeline.py:690-744 | the overall score never drops, and rises unless every dimension was already 5 |
| Pipeline.Leading | biaslense/src/core/bamip_pipeline.py:806-837 | the risk-tier messages lead, two of them unless the risk is low |
| Pipeline.InLeading | biaslense/src/core/bamip_pipeline.py:806-837 | a leading recommendation comes from the risk, strategy, bias-type or similarity part |
| Pipeline.LeadingRiskAdvice | biaslense/src/core/bamip_pipeline.py:809-816 | each risk message appears exactly for its own tier |
| Pipeline.LeadingStrategyAdvice | biaslense/src/core/bamip_pipeline.py:819-825 | each strategy message appears exactly when its strategy was used |
| Pipeline.LeadingOtherAdvice | biaslense/src/core/bamip_pipeline.py:827-841 | the bias-type and similarity messages appear exactly under their conditions |
| Pipeline.Recommendations | biaslense/src/core/bamip_pipeline.py:802-843 | between 1 and 5 items, the risk-tier message first |
| Pipeline.RecommendationsExactly | biaslense/src/core/bamip_pipeline.py:802-843 | every message is present exactly when it applies; the model tip exactly for GPT models when fewer than five others lead |
| Pipeline.Detect | biaslense/src/core/bamip_pipeline.py:335-354 | the converted rubric result is in range and keeps its overall score |
| Pipeline.Improve | biaslense/src/core/bamip_pipeline.py:368-391 | the improved detection scores strictly higher than the original, at most 5 |
| Pipeline.Analysis | biaslense/src/core/bamip_pipeline.py:328-413 | what a cache miss computes: inputs kept, model defaulted to unknown, the selected strategy used and explained, sources exactly for grounding, the improved response is the mitigated text |
| Pipeline.AssembledAnalysis | biaslense/src/core/bamip_pipeline.py:328-413 | a result whose parts are computed as the source computes them is the analysis |
| Pipeline.AnalysisNeverLowRisk | biaslense/src/core/bamip_pipeline.py:335-360 | the 1-5 score against 7.0/4.0 never yields low risk; high exactly when the score is below 4 or similarity reaches 0.8 |
| Pipeline.AnalysisImproves | biaslense/src/core/bamip_pipeline.py:368-391 | the improved score is strictly above the original |
| Pipeline.NothingApplicable | biaslense/src/core/bamip_pipeline.py:762-781 | when no strategy applies, layering changes neither text nor sources |
| Pipeline.LayerSources | biaslense/src/core/bamip_pipeline.py:762-781 | after layering the used sources are as before or hold at most one anchor |
| Pipeline.DistinctCardinality | biaslense/src/core/bamip_pipeline.py:323-326 | an insertion order without repeats counts the distinct keys |
| Pipeline.EvictOldest | biaslense/src/core/bamip_pipeline.py:323-326 | removing the oldest key keeps the cache well shaped, below 100 entries, and every kept entry as it was |
| Pipeline.StoreLast | biaslense/src/core/bamip_pipeline.py:416 | inserting a new key last keeps the cache well shaped |
| Pipeline.BAMIPPipeline.constructor | biaslense/src/core/bamip_pipeline.py:59-73 | fresh components: the checker with the initial thresholds, the 30-phrase catalogue and its embeddings, the mitigator with the initial tables and no used sources; an empty cache |
| Pipeline.BAMIPPipeline.ClassifyPromptSubtype | biaslense/src/core/bamip_pipeline.py:75-151 | the loops compute the prompt subtype |
| Pipeline.BAMIPPipeline.ClassifyBiasType | biaslense/src/core/bamip_pipeline.py:153-228 | the loops compute the bias type |
| Pipeline.BAMIPPipeline.Analyze | biaslense/src/core/bamip_pipeline.py:328-413 | returns the analysis for the checker's state; the used sources end as the mitigator leaves them |
| Pipeline.BAMIPPipeline.MakeRoom | biaslense/src/core/bamip_pipeline.py:323-326 | when the cache is full the oldest entry goes, so fewer than 100 remain |
| Pipeline.BAMIPPipeline.Store | biaslense/src/core/bamip_pipeline.py:416 | the result is cached under its key, last in insertion order |
| Pipeline.BAMIPPipeline.ProcessPrompt | biaslense/src/core/bamip_pipeline.py:301-418 | a hit returns the stored result with no state change; a miss evicts the oldest if full, computes the analysis, leaves the mitigator holding exactly the chosen anchor after grounding (an emptied list or no attribute otherwise), and caches the result last; the cache stays bounded by 100 |
| Pipeline.BAMIPPipeline.ApplyMultipleStrategies | biaslense/src/core/bamip_pipeline.py:762-781 | the loop layers the applicable strategies in priority order, text and used sources |
| LegacyPipeline.Risk | src/core/bamip_pipeline.py:89-114 | high exactly when the score is below 6.0 or similarity reaches 0.8; low exactly at ≥8.5 with similarity below 0.5; medium otherwise |
| LegacyPipeline.ImprovedResponse | src/core/bamip_pipeline.py:116-144 | low: the original with a note appended; medium: the mitigated text, with a note exactly for instructional prompting; high: the mitigated text and the bias alert |
| LegacyPipeline.Recommendations | src/core/bamip_pipeline.py:146-196 | never truncated: 3 or 2 risk items, 2 per non-instructional strategy, one each for low accuracy, low fairness and similarity above 0.5, so between 2 and 8; the risk item first |
| LegacyPipeline.RecommendationsExactly | src/core/bamip_pipeline.py:146-196 | each recommendation is present exactly when its condition holds |
| LegacyPipeline.RecommendationsDistinct | src/core/bamip_pipeline.py:146-196 | no recommendation repeats |
| LegacyPipeline.Processed | src/core/bamip_pipeline.py:46-87 | the result keeps the inputs, uses the mitigator's own selection, and assembles risk, improved response and recommendations from it |
| LegacyPipeline.ProcessPrompt | src/core/bamip_pipeline.py:46-87 | returns that result |
| LegacyPipeline.MediumUnmatchedKeepsResponse | src/core/bamip_pipeline.py:125-131 | at medium risk with no selection match the improved response is the original plus the note |
| LegacyPipeline.QuietResponseIsLowRisk | src/core/bamip_pipeline.py:46-196 | a high-scoring response with no selection match and low similarity is low risk, gets the reviewed note and exactly the two low-risk recommendations |
| LegacyPipeline.LowRiskQuietAdvice | src/core/bamip_pipeline.py:165-196 | low risk with instructional prompting and good scores gives exactly the two low-risk recommendations |
| LegacyPipeline.NothingApplicable | src/core/bamip_pipeline.py:212-231 | when no strategy applies, layering leaves the text unchanged |
| LegacyPipeline.ApplyMultipleStrategies | src/core/bamip_pipeline.py:212-231 | the loop applies each applicable strategy in the fixed priority order to the text rewritten so far |

## Left out

- Regular expressions are not interpreted: each pattern is an opaque value, and `re.search`/`re.findall` are a parameter. The pattern text is kept verbatim beside each pattern. The only concrete text model is whole-word, case-insensitive substitution.
- `str.lower`, `\w` and `\b` are modelled on ASCII only, with no Unicode case folding. The whitespace of `split()` is modelled exactly: it is Python's full `str.isspace` set.
- Floating point is modelled as exact reals. `round(x, 2)` and `round(x, 4)` are dropped.
- The sentence-embedding model, `encode` and the numpy cosine computation are not modelled. The per-phrase similarity is a parameter.
- `src/core/embedding_checker.py` is not part of this model. The older pipeline therefore takes the maximum similarity as a parameter.
- The OpenAI calls of the live `_generate_improved_response`, and the unreachable code after them, are not modelled: that is external I/O.
- The exact wording of explanation, detail and reasoning strings is not modelled, only their presence and order. The older pipeline's recommendation texts and notes are kept verbatim.
- The live pipeline's conversion of a research rubric result always has empty explanations and flagged patterns, so they are not carried.
- `improved_bias_result` is set on the mitigation result object; here it is a field of the pipeline result.
- Pipeline.EnsureImprovement: the shallow `.copy()` of the improved result's details at bamip_pipeline.py:712 and :720 shares their `reasoning` lists with the rescored result `improved_rubric_result`, never with the original result. Line 374 then replaces that rescored result with the return value, so the sharing is not observable and is not modelled.
- Pipeline.BAMIPPipeline.ProcessPrompt: the cache key is modelled as (prompt, response, model as given). Collisions of Python's `hash()` are not modelled.
- Pipeline.BAMIPPipeline.ProcessPrompt: a cached result is not shown to equal a fresh analysis. `update_thresholds` can change the checker after caching, so in the source a cached result can be stale.
- The research-findings and model-profile tables (bamip_pipeline.py:230-299) and the dead lookup at line 545 are not modelled. They never affect selection.
- `get_pipeline_summary` (both pipelines), `process_batch`, `get_analysis_statistics` and `clear_cache` are not modelled. They are reporting and bookkeeping around the modelled operations.
- `get_available_strategies` and `_get_applicable_patterns` in both mitigators are not modelled. They are descriptive listings that nothing else uses.
- The `bias_scorer` the live pipeline constructs is never used.
- The live rubric scorer's `_get_error_description` is not modelled. It only produces description strings.
- RubricScoring.Analysis, RubricScoring.DimensionScores, RubricScoring.BiasRubricScorer.ScoreFairness and RubricScoring.BiasRubricScorer.ScoreText use the corrected fairness. `score_text` as written raises on every text without an extreme-bias match; RubricScoring.AnalysisAsWritten models that behaviour.
- Words.FoldRemovesKeys, Lexicon.NeutralTable, Lexicon.LegacyNeutralTable, BiasMitigator.NeutralizedWords, LegacyBiasMitigator.NeutralizedWords: removal is proved for one-word keys only. A two-word key can survive, because each `re.sub` is a single non-overlapping pass. For example, the live table turns "sikh muslim muslim" into "Sikh muslim", which still holds the key "sikh muslim".
- The older pipeline's `_is_strategy_applicable` is the same as the live one, so both use `PipelineCommon.Applicable`.

## Findings

| source | as written | input that shows it | evidently intended | confidence | as-written member | corrected member |
|---|---|---|---|---|---|---|
| biaslense/src/core/rubric_scoring.py:338-347 | `score` is bound only inside the extreme-bias branch, and line 347 subtracts from it unconditionally. Any text without an extreme-bias match raises `UnboundLocalError`, and text with one always ends at 0.0 | the text `"Sikhs value equality"` (no extreme-bias term) | a baseline of 3 (the details' own starting `'score': 3`), lowered to 1 on extreme bias, then the penalties and bonuses | not executed | RubricScoring.FairnessAsWritten, RubricScoring.FairnessAsWrittenNeverPositive, RubricScoring.AnalysisAsWritten, RubricScoring.AnalysisAsWrittenLow | RubricScoring.Fairness, RubricScoring.FairnessCorrectionAgrees, RubricScoring.BiasRubricScorer.ScoreFairness |
| biaslense/src/core/embedding_checker.py:238-243 | `add_stereotype_phrases` extends the list, then calls `_precompute_embeddings`, which resets the list to the fixed catalog, so the added phrases are dropped | `add_stereotype_phrases(["Sikhs are outsiders"])` | the added phrases stay in the list and are embedded | not executed | Embeddings.EmbeddingChecker.AddStereotypePhrases, Embeddings.OutsideCatalog | Embeddings.EmbeddingChecker.AddStereotypePhrasesKept |
