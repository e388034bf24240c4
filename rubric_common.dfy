/**
 * What the two `BiasRubricScorer` versions (biaslense/src/core/rubric_scoring.py
 * and src/core/rubric_scoring.py) share: penalties that accumulate pattern by
 * pattern, the weighted overall score, and the explanations and flagged
 * patterns drawn from the stereotype, conflation and reductionist lists.
 */
module RubricCommon {
  import opened Text

  // ---------------------------------------------------------------------
  // Scans that accumulate
  // ---------------------------------------------------------------------

  /** `step` added up `n` times: what `n` matching patterns take away at `step` each. */
  function Times(n: nat, step: real): (r: real)
    ensures n == 0 ==> r == 0.0
    ensures step >= 0.0 ==> r >= 0.0
    ensures n >= 1 && step >= 0.0 ==> r >= step
  {
    if n == 0 then 0.0 else Times(n - 1, step) + step
  }

  /**
   * `for pattern in pats: if re.search(pattern, t): score -= step`: the
   * score drops by `step` once per matching pattern.
   */
  method Penalize<P>(rx: Regex<P>, pats: seq<P>, t: string, start: real, step: real)
    returns (score: real)
    ensures score == start - Times(CountMatching(rx, pats, t), step)
  {
    score := start;
    var i := 0;
    while i < |pats|
      invariant 0 <= i <= |pats|
      invariant score == start - Times(CountMatching(rx, pats[..i], t), step)
    {
      assert pats[..i + 1][..i] == pats[..i];
      if rx.search(pats[i], t) {
        score := score - step;
      }
      i := i + 1;
    }
    assert pats[..|pats|] == pats;
  }

  /** `for pattern in pats: if re.search(pattern, t): found.append(pattern)`. */
  method CollectMatches<P>(rx: Regex<P>, pats: seq<P>, t: string)
    returns (found: seq<P>)
    ensures found == MatchingPatterns(rx, pats, t)
  {
    found := [];
    var i := 0;
    while i < |pats|
      invariant 0 <= i <= |pats|
      invariant found == MatchingPatterns(rx, pats[..i], t)
    {
      assert pats[..i + 1][..i] == pats[..i];
      if rx.search(pats[i], t) {
        found := found + [pats[i]];
      }
      i := i + 1;
    }
    assert pats[..|pats|] == pats;
  }

  // ---------------------------------------------------------------------
  // Overall score
  // ---------------------------------------------------------------------

  datatype Scores = Scores(
    accuracy: real, fairness: real, representation: real, linguisticBalance: real, culturalFraming: real)

  function Lowest(s: Scores): real
  {
    Min(Min(Min(Min(s.accuracy, s.fairness), s.representation), s.linguisticBalance), s.culturalFraming)
  }

  function Highest(s: Scores): real
  {
    Max(Max(Max(Max(s.accuracy, s.fairness), s.representation), s.linguisticBalance), s.culturalFraming)
  }

  /**
   * `_calculate_overall_score` with the weights 0.25, 0.25, 0.2, 0.15 and
   * 0.15: the weights are non-negative and sum to 1, so the overall score
   * lies between the lowest and the highest dimension score, and five equal
   * scores give that score back.
   */
  function Overall(s: Scores): (r: real)
    ensures Lowest(s) <= r <= Highest(s)
    ensures s.accuracy == s.fairness == s.representation == s.linguisticBalance == s.culturalFraming
            ==> r == s.accuracy
  {
    s.accuracy * 0.25 + s.fairness * 0.25 + s.representation * 0.2
    + s.linguisticBalance * 0.15 + s.culturalFraming * 0.15
  }

  // ---------------------------------------------------------------------
  // Explanations
  // ---------------------------------------------------------------------

  /**
   * The strings `re.findall` returns for a pattern, each group tuple joined
   * with spaces: the regular-expression engine is foreign.
   */
  type Finder<-P> = (P, string) -> seq<string>

  datatype Explanation =
    | StereotypeUsage(matches: set<string>)
    | ReligiousConflationError
    | ReductionistGeneralization

  /** A flagged pattern: a stereotype match's text, or a conflation or reductionist pattern. */
  datatype Flag<P> = MatchText(text: string) | PatternFlag(pattern: P)

  /** One stereotype explanation per pattern with matches, in list order. */
  function StereotypeExplanations<P>(found: Finder<P>, pats: seq<P>, t: string): (r: seq<Explanation>)
    ensures |r| <= |pats|
    ensures forall i :: 0 <= i < |r| ==> r[i].StereotypeUsage? && r[i].matches != {}
    decreases |pats|
  {
    if |pats| == 0 then []
    else
      var k := |pats| - 1;
      var ms := found(pats[k], t);
      var e := StereotypeUsage(set m | m in ms);
      assert |ms| > 0 ==> ms[0] in e.matches;
      StereotypeExplanations(found, pats[..k], t) + (if |ms| > 0 then [e] else [])
  }

  /** Every stereotype match text, in list order. */
  function StereotypeMatches<P>(found: Finder<P>, pats: seq<P>, t: string): (r: seq<string>)
    ensures forall m :: m in r <==> exists i :: 0 <= i < |pats| && m in found(pats[i], t)
    decreases |pats|
  {
    if |pats| == 0 then []
    else
      var k := |pats| - 1;
      var r := StereotypeMatches(found, pats[..k], t) + found(pats[k], t);
      assert forall i :: 0 <= i < k ==> pats[..k][i] == pats[i];
      r
  }

  /** `n` copies of one explanation. */
  function Repeat(e: Explanation, n: nat): (r: seq<Explanation>)
    ensures |r| == n && forall i :: 0 <= i < n ==> r[i] == e
  {
    if n == 0 then [] else Repeat(e, n - 1) + [e]
  }

  /**
   * The explanations `_generate_explanations` lists for the lower-cased text
   * `t` from the stereotype list `ss`, the conflation list `cs` and the
   * reductionist list `rs`: the stereotype explanations first, then one
   * conflation error per matching conflation pattern, then one reductionist
   * generalization per matching reductionist pattern.
   */
  function Explanations<P>(rx: Regex<P>, found: Finder<P>, ss: seq<P>, cs: seq<P>, rs: seq<P>, t: string)
    : (r: seq<Explanation>)
    ensures |r| <= |ss| + |cs| + |rs|
    ensures var s := StereotypeExplanations(found, ss, t);
      var c := CountMatching(rx, cs, t);
      |r| == |s| + c + CountMatching(rx, rs, t)
      && r[..|s|] == s
      && (forall i :: |s| <= i < |s| + c ==> r[i] == ReligiousConflationError)
      && (forall i :: |s| + c <= i < |r| ==> r[i] == ReductionistGeneralization)
  {
    StereotypeExplanations(found, ss, t)
    + Repeat(ReligiousConflationError, CountMatching(rx, cs, t))
    + Repeat(ReductionistGeneralization, CountMatching(rx, rs, t))
  }

  /** The de-duplicated flags of `_generate_explanations`. */
  function Flagged<P(==)>(rx: Regex<P>, found: Finder<P>, ss: seq<P>, cs: seq<P>, rs: seq<P>, t: string)
    : set<Flag<P>>
  {
    var ms := StereotypeMatches(found, ss, t);
    var ps := MatchingPatterns(rx, cs, t) + MatchingPatterns(rx, rs, t);
    (set m | m in ms :: MatchText(m)) + (set p | p in ps :: PatternFlag(p))
  }

  /** The flagged texts are exactly the texts some stereotype pattern matched. */
  lemma FlaggedTexts<P>(rx: Regex<P>, found: Finder<P>, ss: seq<P>, cs: seq<P>, rs: seq<P>, t: string)
    ensures forall m: string :: (MatchText(m) in Flagged(rx, found, ss, cs, rs, t)
      <==> exists i :: 0 <= i < |ss| && m in found(ss[i], t))
  {
    var ms := StereotypeMatches(found, ss, t);
    forall m: string
      ensures MatchText(m) in Flagged(rx, found, ss, cs, rs, t) <==> m in ms
    {
    }
  }

  /** The flagged patterns are exactly the conflation and reductionist patterns that match, each once. */
  lemma FlaggedPatterns<P>(rx: Regex<P>, found: Finder<P>, ss: seq<P>, cs: seq<P>, rs: seq<P>, t: string)
    ensures forall p: P :: (PatternFlag(p) in Flagged(rx, found, ss, cs, rs, t)
      <==> (p in cs || p in rs) && rx.search(p, t))
  {
    MatchingPatternsExactly(rx, cs, t);
    MatchingPatternsExactly(rx, rs, t);
    var ps := MatchingPatterns(rx, cs, t) + MatchingPatterns(rx, rs, t);
    forall p: P
      ensures PatternFlag(p) in Flagged(rx, found, ss, cs, rs, t) <==> p in ps
    {
    }
  }

  /**
   * `_generate_explanations` on the lower-cased text: one pass over the
   * stereotype list collecting the texts `re.findall` returns, then one
   * pass each over the conflation and reductionist lists, appending
   * explanations as it goes and de-duplicating the flags at the end.
   */
  method GenerateExplanations<P(==)>(rx: Regex<P>, found: Finder<P>, ss: seq<P>, cs: seq<P>, rs: seq<P>, t: string)
    returns (explanations: seq<Explanation>, flagged: set<Flag<P>>)
    ensures explanations == Explanations(rx, found, ss, cs, rs, t)
    ensures flagged == Flagged(rx, found, ss, cs, rs, t)
  {
    explanations := [];
    var texts: seq<string> := [];
    var i := 0;
    while i < |ss|
      invariant 0 <= i <= |ss|
      invariant explanations == StereotypeExplanations(found, ss[..i], t)
      invariant texts == StereotypeMatches(found, ss[..i], t)
    {
      assert ss[..i + 1][..i] == ss[..i];
      var ms := found(ss[i], t);
      if |ms| > 0 {
        texts := texts + ms;
        explanations := explanations + [StereotypeUsage(set m | m in ms)];
      }
      i := i + 1;
    }
    assert ss[..|ss|] == ss;
    var conflations := CollectMatches(rx, cs, t);
    explanations := explanations + Repeat(ReligiousConflationError, |conflations|);
    var reductions := CollectMatches(rx, rs, t);
    explanations := explanations + Repeat(ReductionistGeneralization, |reductions|);
    var ps := conflations + reductions;
    flagged := (set m | m in texts :: MatchText(m)) + (set p | p in ps :: PatternFlag(p));
  }
}
