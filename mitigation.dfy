/**
 * What the two copies of `BAMIPMitigator` (the live one and the older one)
 * have in common: the strategy enumeration, contextual reframing, the
 * counter-narrative rewrite, the reduction ratio, the confidence step
 * function, the explanations and the suggested prompts.
 */
module Mitigation {
  import opened Text
  import opened Words
  import opened Lexicon

  datatype Strategy =
    | InstructionalPrompting
    | ContextualReframing
    | RetrievalGrounding
    | CounterNarrative
    | NeutralLanguage

  /** Ordered priority selection: the strategy paired with the first pattern that matches. */
  function SelectByPriority<P>(rx: Regex<P>, pats: seq<P>, strategies: seq<Strategy>, s: string): (r: Strategy)
    requires |pats| == |strategies|
    ensures !AnyMatch(rx, pats, s) <==> (FirstMatch(rx, pats, s).None? && r == InstructionalPrompting)
    ensures AnyMatch(rx, pats, s) ==>
              exists k :: 0 <= k < |pats| && rx.search(pats[k], s) && r == strategies[k]
                          && forall j :: 0 <= j < k ==> !rx.search(pats[j], s)
  {
    match FirstMatch(rx, pats, s)
    case None => InstructionalPrompting
    case Some(k) => strategies[k]
  }

  /**
   * With five patterns, the priority selection is the chain of tests written
   * out: the first pattern that matches picks its strategy.
   */
  lemma PriorityOfFive<P>(rx: Regex<P>, pats: seq<P>, strategies: seq<Strategy>, s: string)
    requires |pats| == 5 && |strategies| == 5
    ensures SelectByPriority(rx, pats, strategies, s)
            == if rx.search(pats[0], s) then strategies[0]
               else if rx.search(pats[1], s) then strategies[1]
               else if rx.search(pats[2], s) then strategies[2]
               else if rx.search(pats[3], s) then strategies[3]
               else if rx.search(pats[4], s) then strategies[4]
               else InstructionalPrompting
  {
    var p1 := pats[1..];
    var p2 := p1[1..];
    var p3 := p2[1..];
    var p4 := p3[1..];
    assert p4[1..] == [];
    assert FirstMatch(rx, p4[1..], s) == None;
    assert p1[0] == pats[1] && p2[0] == pats[2] && p3[0] == pats[3] && p4[0] == pats[4];
    assert FirstMatch(rx, p4, s) == if rx.search(pats[4], s) then Some(0) else None;
    assert FirstMatch(rx, p3, s) == if rx.search(pats[3], s) then Some(0)
                                    else if rx.search(pats[4], s) then Some(1) else None;
    assert FirstMatch(rx, p2, s) == if rx.search(pats[2], s) then Some(0)
                                    else if rx.search(pats[3], s) then Some(1)
                                    else if rx.search(pats[4], s) then Some(2) else None;
    assert FirstMatch(rx, p1, s) == if rx.search(pats[1], s) then Some(0)
                                    else if rx.search(pats[2], s) then Some(1)
                                    else if rx.search(pats[3], s) then Some(2)
                                    else if rx.search(pats[4], s) then Some(3) else None;
  }

  // ---------------------------------------------------------------------
  // Contextual reframing
  // ---------------------------------------------------------------------

  function Quantifiers(): seq<string>
  {
    ["all", "every", "always", "never"]
  }

  function Groups(): seq<string>
  {
    ["sikh", "muslim", "jew", "hindu"]
  }

  /** Number of whitespace separators at the start of `ts` (the `\s+` of the pattern). */
  function SpaceRun(ts: seq<Token>): (n: nat)
    ensures n <= |ts|
    ensures forall i :: 0 <= i < n ==> ts[i].Sep? && IsSpace(ts[i].c)
    ensures n == |ts| || !(ts[n].Sep? && IsSpace(ts[n].c))
    decreases |ts|
  {
    if |ts| == 0 || !(ts[0].Sep? && IsSpace(ts[0].c)) then 0 else 1 + SpaceRun(ts[1..])
  }

  /**
   * `\b(all|every|always|never)\s+(sikh|muslim|jew|hindu)\b` matches at the
   * start of `ts`, case-insensitively.
   */
  predicate GeneralizationAt(ts: seq<Token>)
  {
    |ts| > 0 && ts[0].Word? && LowerStr(ts[0].text) in Quantifiers()
    && var n := SpaceRun(ts[1..]);
       n > 0 && n + 1 < |ts| && ts[n + 1].Word? && LowerStr(ts[n + 1].text) in Groups()
  }

  /** Every generalization, left to right, becomes "some" followed by the group word as written. */
  function ReframeGroups(ts: seq<Token>): (r: seq<Token>)
    decreases |ts|
  {
    if |ts| == 0 then []
    else if GeneralizationAt(ts) then
      var g := SpaceRun(ts[1..]) + 1;
      [Word("some"), Sep(' '), ts[g]] + ReframeGroups(ts[g + 1..])
    else
      [ts[0]] + ReframeGroups(ts[1..])
  }

  /** Text without a generalization is left exactly as it was. */
  lemma {:induction false} ReframeGroupsUnchanged(ts: seq<Token>)
    requires forall i :: 0 <= i < |ts| ==> !GeneralizationAt(ts[i..])
    ensures ReframeGroups(ts) == ts
    decreases |ts|
  {
    if |ts| > 0 {
      assert ts[0..] == ts;
      forall i | 0 <= i < |ts| - 1 ensures !GeneralizationAt(ts[1..][i..]) {
        assert ts[1..][i..] == ts[i + 1..];
      }
      ReframeGroupsUnchanged(ts[1..]);
    }
  }

  /** The token index of the group word of a generalization at the start of `ts`. */
  function GroupIndex(ts: seq<Token>): (g: nat)
    requires GeneralizationAt(ts)
    ensures 1 < g < |ts| && ts[0].Word? && ts[g].Word?
    ensures ReframeGroups(ts) == [Word("some"), Sep(' '), ts[g]] + ReframeGroups(ts[g + 1..])
  {
    var g := SpaceRun(ts[1..]) + 1;
    assert ts[1..][g - 1] == ts[g];
    g
  }

  lemma {:induction false} ReframeGroupsWF(ts: seq<Token>)
    requires WF(ts)
    ensures WF(ReframeGroups(ts))
    ensures |ts| > 0 ==> |ReframeGroups(ts)| > 0 && (ReframeGroups(ts)[0].Word? <==> ts[0].Word?)
    decreases |ts|
  {
    if |ts| == 0 {
    } else if GeneralizationAt(ts) {
      var g := GroupIndex(ts);
      SuffixWF(ts, g + 1);
      ReframeGroupsWF(ts[g + 1..]);
      if g + 1 < |ts| {
        assert ts[g + 1..][0] == ts[g + 1];
      }
      var head := [Word("some"), Sep(' '), ts[g]];
      assert ValidToken(ts[g]);
      assert WF(head);
      ConcatWF(head, ReframeGroups(ts[g + 1..]));
    } else {
      SuffixWF(ts, 1);
      ReframeGroupsWF(ts[1..]);
      if |ts| > 1 {
        assert ts[1..][0] == ts[1];
      }
      ConsWF(ts[0], ReframeGroups(ts[1..]));
    }
  }

  /** Reframing only ever adds the word "some". */
  lemma {:induction false} ReframeGroupsWords(ts: seq<Token>)
    ensures LowerWords(ReframeGroups(ts)) <= LowerWords(ts) + {"some"}
    decreases |ts|
  {
    if |ts| == 0 {
    } else if GeneralizationAt(ts) {
      var g := GroupIndex(ts);
      ReframeGroupsWords(ts[g + 1..]);
      ReframedHeadWords(ts, g);
    } else {
      ReframeGroupsWords(ts[1..]);
      LowerWordsConcat([ts[0]], ReframeGroups(ts[1..]));
      LowerWordsConcat([ts[0]], ts[1..]);
      assert ts == [ts[0]] + ts[1..];
    }
  }

  lemma ReframedHeadWords(ts: seq<Token>, g: nat)
    requires g < |ts|
    requires LowerWords(ReframeGroups(ts[g + 1..])) <= LowerWords(ts[g + 1..]) + {"some"}
    ensures LowerWords([Word("some"), Sep(' '), ts[g]] + ReframeGroups(ts[g + 1..])) <= LowerWords(ts) + {"some"}
  {
    var r := ReframeGroups(ts[g + 1..]);
    LowerWordsSuffix(ts, g + 1);
    LowerWordsCons(ts[g], r);
    LowerWordsCons(Sep(' '), [ts[g]] + r);
    LowerWordsCons(Word("some"), [Sep(' ')] + ([ts[g]] + r));
    assert [Word("some"), Sep(' '), ts[g]] + r == [Word("some")] + ([Sep(' ')] + ([ts[g]] + r));
    assert LowerStr("some") == "some";
  }

  /** The generalization pass on a string. */
  function ReframeText(s: string): (r: string)
    ensures Tokenize(r) == ReframeGroups(Tokenize(s))
    ensures WordsOf(r) <= WordsOf(s) + {"some"}
  {
    ReframeGroupsWF(Tokenize(s));
    TokenizeRender(ReframeGroups(Tokenize(s)));
    ReframeGroupsWords(Tokenize(s));
    Render(ReframeGroups(Tokenize(s)))
  }

  /** The composed rewrite that `ApplyContextualReframing` performs with the fixed patterns `rules`. */
  function Reframed(rules: seq<Rule>, s: string): string
    requires ValidTable(rules)
  {
    Fold(ReframeText(s), rules)
  }

  /**
   * Contextual reframing: the generalization pass, then each fixed pattern in
   * turn.
   */
  method ApplyContextualReframing(rules: seq<Rule>, text: string) returns (mitigated: string)
    requires ValidTable(rules)
    ensures mitigated == Reframed(rules, text)
  {
    mitigated := ReframeText(text);
    mitigated := ApplyRules(mitigated, rules);
  }

  /**
   * When the fixed patterns draw their alternatives from `keys` and their
   * replacements from `values`, a disjoint set, then after reframing no
   * alternative is left as a whole word, and the only words that can appear
   * are the text's own, "some" and the replacements.
   */
  lemma ReframedWords(rules: seq<Rule>, keys: set<string>, values: set<string>, s: string)
    requires ValidTable(rules) && KeysWithin(rules, keys) && ValuesWithin(rules, values) && keys !! values
    ensures KeysAbsent(Reframed(rules, s), rules)
    ensures WordsOf(Reframed(rules, s)) <= WordsOf(s) + {"some"} + values
  {
    RemovalBySets(rules, keys, values);
    FoldRemovesKeys(ReframeText(s), rules);
    FoldWords(ReframeText(s), rules, values);
  }

  // ---------------------------------------------------------------------
  // Counter-narrative
  // ---------------------------------------------------------------------

  const CounterNarratives: seq<string> :=
    [ "Sikhism promotes universal brotherhood and service to humanity",
      "The Sikh community has a long history of humanitarian work and disaster relief",
      "Sikhs believe in the equality of all human beings regardless of religion, caste, or gender",
      "The turban represents dignity, self-respect, and commitment to Sikh values",
      "Sikhism emphasizes honest work, sharing with others, and remembering God",
      "Sikhs have been at the forefront of civil rights movements and social justice",
      "The Sikh community values education, hard work, and community service" ]

  /** The sentence the counter-narrative strategy appends; it does not depend on the text. */
  function CounterNarrativeTail(narratives: seq<string>): string
    requires |narratives| > 0
  {
    ". " + "It's important to note that " + LowerStr(narratives[0]) + "."
  }

  /**
   * `_apply_counter_narrative`: the text, then the first narrative in lower
   * case as a closing sentence; the text is kept whole as a prefix.
   */
  function ApplyCounterNarrative(narratives: seq<string>, text: string): (r: string)
    requires |narratives| > 0
    ensures |r| > |text| && r[..|text|] == text
    ensures r[|text|..] == CounterNarrativeTail(narratives)
  {
    var counter := "It's important to note that " + LowerStr(narratives[0]);
    text + ". " + counter + "."
  }

  // ---------------------------------------------------------------------
  // Reduction, confidence, explanations, prompts
  // ---------------------------------------------------------------------

  /**
   * `(original_count - mitigated_count) / original_count` plus a bonus,
   * clamped to [0, 1]; 1.0 when the original has no bias term.
   */
  function ReductionRatio(originalCount: nat, mitigatedCount: nat, bonus: real): (r: real)
    ensures 0.0 <= r <= 1.0
    ensures originalCount == 0 ==> r == 1.0
    ensures originalCount > 0 && mitigatedCount == 0 && bonus >= 0.0 ==> r == 1.0
    ensures originalCount > 0 && mitigatedCount >= originalCount && bonus <= 0.0 ==> r == 0.0
    ensures originalCount > 0 && mitigatedCount >= originalCount && 0.0 <= bonus <= 1.0 ==> r <= bonus
    ensures mitigatedCount < originalCount && bonus >= 0.0 ==> r > 0.0
    ensures originalCount > 0 && bonus == 0.0 && mitigatedCount <= originalCount
            ==> r * originalCount as real == (originalCount - mitigatedCount) as real
  {
    if originalCount == 0 then 1.0
    else
      assert originalCount as real / originalCount as real == 1.0;
      Clamp((originalCount as real - mitigatedCount as real) / originalCount as real + bonus, 0.0, 1.0)
  }

  /** `_calculate_mitigation_confidence`: 0.9 above a 0.5 reduction, 0.7 above 0.2, else 0.5. */
  function MitigationConfidence(reduction: real): (c: real)
    ensures c == 0.5 || c == 0.7 || c == 0.9
    ensures c == 0.9 <==> reduction > 0.5
    ensures c == 0.5 <==> reduction <= 0.2
  {
    if reduction > 0.5 then 0.9 else if reduction > 0.2 then 0.7 else 0.5
  }

  /** More reduction never means less confidence. */
  lemma ConfidenceMonotone(r1: real, r2: real)
    requires r1 <= r2
    ensures MitigationConfidence(r1) <= MitigationConfidence(r2)
  {
  }

  /** The explanation lines; their wording is not modelled. */
  datatype Explanation = AppliedStrategy(strategy: Strategy) | StrategyDescription(described: Strategy) | ReducedBias(amount: real)

  function Explanations(strategy: Strategy, reduction: real): (e: seq<Explanation>)
    ensures |e| == 2 || |e| == 3
    ensures e[0] == AppliedStrategy(strategy) && e[1] == StrategyDescription(strategy)
    ensures |e| == 3 <==> reduction > 0.0
    ensures |e| == 3 ==> e[2] == ReducedBias(reduction)
  {
    [AppliedStrategy(strategy), StrategyDescription(strategy)]
    + (if reduction > 0.0 then [ReducedBias(reduction)] else [])
  }

  const InstructionalTemplates: seq<string> :=
    [ "Please provide a factual, unbiased description of {topic} that avoids stereotypes and generalizations.",
      "When discussing {topic}, focus on accurate information and avoid making assumptions about groups.",
      "Provide a balanced perspective on {topic} that respects cultural diversity and individual differences." ]

  const GenericPrompts: seq<string> :=
    [ "Please provide a factual, unbiased description that avoids stereotypes.",
      "Focus on accurate information and avoid making assumptions about groups.",
      "Provide a balanced perspective that respects cultural diversity." ]

  /** Instructional prompting is the only strategy whose suggestions are the templates. */
  function SuggestedPrompts(templates: seq<string>, strategy: Strategy): (p: seq<string>)
    ensures strategy == InstructionalPrompting ==> p == templates
    ensures strategy != InstructionalPrompting ==> p == GenericPrompts
  {
    if strategy == InstructionalPrompting then templates else GenericPrompts
  }

  /** With the shipped templates, instructional prompting is the only strategy whose suggestions are the templates. */
  lemma TemplatesOnlyForInstructional(strategy: Strategy)
    ensures SuggestedPrompts(InstructionalTemplates, strategy) == InstructionalTemplates
            <==> strategy == InstructionalPrompting
  {
    assert |InstructionalTemplates[0]| != |GenericPrompts[0]|;
  }
}
