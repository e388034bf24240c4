/**
 * Whole-word, case-insensitive phrase substitution, as performed by
 * `re.sub(r'\b' + re.escape(key) + r'\b', value, text, flags=re.IGNORECASE)`
 * when `key` and `value` begin and end with word characters.
 *
 * A string is split into tokens: maximal runs of word characters (`Word`)
 * and single non-word characters (`Sep`). A `\b`-delimited match of such a
 * key is then exactly a run of tokens equal to the key's tokens, words
 * compared after lower-casing and separators compared exactly, and the
 * regex engine's left-to-right, non-overlapping scan is `ReplacePhrase`.
 */
module Words {
  import opened Text

  datatype Token = Word(text: string) | Sep(c: char)

  predicate ValidToken(t: Token)
  {
    match t
    case Word(w) => |w| > 0 && forall i :: 0 <= i < |w| ==> IsWordChar(w[i])
    case Sep(c) => !IsWordChar(c)
  }

  /** Every token is valid and no two words are adjacent. */
  predicate WF(ts: seq<Token>)
  {
    (forall i :: 0 <= i < |ts| ==> ValidToken(ts[i]))
    && (forall i :: 0 <= i < |ts| - 1 ==> !(ts[i].Word? && ts[i + 1].Word?))
  }

  /** A replacement: well formed, non-empty, and starting and ending with a word. */
  predicate Phrase(p: seq<Token>)
  {
    |p| > 0 && WF(p) && p[0].Word? && p[|p| - 1].Word?
  }

  /**
   * One element of a key: a whole word that is any of `alts` (a regex
   * alternation `(a|b|c)` between `\b`s), or exactly one separator character.
   * The alternatives are written in lower case, as every key in the source is,
   * so an IGNORECASE match is equality after lower-casing the text.
   */
  datatype TokenPattern = AnyWord(alts: seq<string>) | Char(c: char)

  /** A key starts and ends with a word, as every `\b...\b` key here does. */
  predicate KeyPattern(pat: seq<TokenPattern>)
  {
    |pat| > 0 && pat[0].AnyWord? && pat[|pat| - 1].AnyWord?
  }

  /** The alternatives of a word pattern, as a set. */
  function AltSet(alts: seq<string>): set<string>
  {
    set w | w in alts
  }

  // ---------------------------------------------------------------------
  // Tokenizing and rendering
  // ---------------------------------------------------------------------

  /** Length of the run of word characters at the start of `s`. */
  function WordRun(s: string): (n: nat)
    ensures n <= |s|
    ensures forall i :: 0 <= i < n ==> IsWordChar(s[i])
    ensures n == |s| || !IsWordChar(s[n])
    decreases |s|
  {
    if |s| == 0 || !IsWordChar(s[0]) then 0 else 1 + WordRun(s[1..])
  }

  function Tokenize(s: string): (ts: seq<Token>)
    ensures WF(ts)
    ensures |s| == 0 <==> |ts| == 0
    ensures |s| > 0 ==> (ts[0].Word? <==> IsWordChar(s[0]))
    decreases |s|
  {
    if |s| == 0 then []
    else if IsWordChar(s[0]) then
      var n := WordRun(s);
      var rest := Tokenize(s[n..]);
      ConsWF(Word(s[..n]), rest);
      [Word(s[..n])] + rest
    else
      var rest := Tokenize(s[1..]);
      ConsWF(Sep(s[0]), rest);
      [Sep(s[0])] + rest
  }

  function TokenText(t: Token): string
  {
    match t
    case Word(w) => w
    case Sep(c) => [c]
  }

  function Render(ts: seq<Token>): (s: string)
    ensures |ts| > 0 && ValidToken(ts[0]) ==> |s| > 0 && (IsWordChar(s[0]) <==> ts[0].Word?)
    decreases |ts|
  {
    if |ts| == 0 then "" else TokenText(ts[0]) + Render(ts[1..])
  }

  /** Words of a token list, lower-cased: the whole words a `\b...\b` search can find. */
  function LowerWords(ts: seq<Token>): (ws: set<string>)
    ensures forall i :: 0 <= i < |ts| && ts[i].Word? ==> LowerStr(ts[i].text) in ws
    decreases |ts|
  {
    if |ts| == 0 then {}
    else (if ts[0].Word? then {LowerStr(ts[0].text)} else {}) + LowerWords(ts[1..])
  }

  /** The whole words of a string, lower-cased. */
  function WordsOf(s: string): set<string>
  {
    LowerWords(Tokenize(s))
  }

  // ---------------------------------------------------------------------
  // Well-formedness lemmas
  // ---------------------------------------------------------------------

  lemma ConsWF(t: Token, ts: seq<Token>)
    requires ValidToken(t) && WF(ts)
    requires t.Word? && |ts| > 0 ==> !ts[0].Word?
    ensures WF([t] + ts)
  {
    ConcatWF([t], ts);
  }

  lemma ConcatWF(a: seq<Token>, b: seq<Token>)
    requires WF(a) && WF(b)
    requires |a| > 0 && |b| > 0 && a[|a| - 1].Word? ==> !b[0].Word?
    ensures WF(a + b)
  {
    var c := a + b;
    forall i | 0 <= i < |c| - 1
      ensures !(c[i].Word? && c[i + 1].Word?)
    {
      if i + 1 < |a| {
        assert c[i] == a[i] && c[i + 1] == a[i + 1];
      } else if i >= |a| {
        assert c[i] == b[i - |a|] && c[i + 1] == b[i + 1 - |a|];
      } else {
        assert c[i] == a[|a| - 1] && c[i + 1] == b[0];
      }
    }
  }

  lemma SuffixWF(ts: seq<Token>, k: nat)
    requires WF(ts) && k <= |ts|
    ensures WF(ts[k..])
  {
    var s := ts[k..];
    forall i | 0 <= i < |s| - 1
      ensures !(s[i].Word? && s[i + 1].Word?)
    {
      assert s[i] == ts[k + i] && s[i + 1] == ts[k + i + 1];
    }
  }

  lemma {:induction false} RenderConcat(a: seq<Token>, b: seq<Token>)
    ensures Render(a + b) == Render(a) + Render(b)
    decreases |a|
  {
    if |a| == 0 {
      assert a + b == b;
    } else {
      assert (a + b)[1..] == a[1..] + b;
      RenderConcat(a[1..], b);
    }
  }

  lemma {:induction false} LowerWordsConcat(a: seq<Token>, b: seq<Token>)
    ensures LowerWords(a + b) == LowerWords(a) + LowerWords(b)
    decreases |a|
  {
    if |a| == 0 {
      assert a + b == b;
    } else {
      assert (a + b)[1..] == a[1..] + b;
      LowerWordsConcat(a[1..], b);
    }
  }

  lemma LowerWordsCons(t: Token, ts: seq<Token>)
    ensures LowerWords([t] + ts) == (if t.Word? then {LowerStr(t.text)} else {}) + LowerWords(ts)
  {
    assert ([t] + ts)[1..] == ts;
  }

  /** Every word in `LowerWords(ts)` is the lower-cased text of some word token. */
  lemma {:induction false} LowerWordsFrom(ts: seq<Token>, w: string)
    requires w in LowerWords(ts)
    ensures exists i :: 0 <= i < |ts| && ts[i].Word? && LowerStr(ts[i].text) == w
    decreases |ts|
  {
    if ts[0].Word? && LowerStr(ts[0].text) == w {
    } else {
      LowerWordsFrom(ts[1..], w);
      var i :| 0 <= i < |ts[1..]| && ts[1..][i].Word? && LowerStr(ts[1..][i].text) == w;
      assert ts[i + 1] == ts[1..][i];
    }
  }

  // ---------------------------------------------------------------------
  // Round trips
  // ---------------------------------------------------------------------

  /** Splitting a string into tokens loses nothing. */
  lemma {:induction false} RenderTokenize(s: string)
    ensures Render(Tokenize(s)) == s
    decreases |s|
  {
    if |s| == 0 {
    } else if IsWordChar(s[0]) {
      var n := WordRun(s);
      RenderTokenize(s[n..]);
      RenderCons(Word(s[..n]), Tokenize(s[n..]));
      assert s[..n] + s[n..] == s;
    } else {
      RenderTokenize(s[1..]);
      RenderCons(Sep(s[0]), Tokenize(s[1..]));
      assert [s[0]] + s[1..] == s;
    }
  }

  lemma RenderCons(t: Token, ts: seq<Token>)
    ensures Render([t] + ts) == TokenText(t) + Render(ts)
  {
    assert ([t] + ts)[1..] == ts;
  }

  lemma {:induction false} WordRunOfWord(w: string, rest: string)
    requires |w| > 0 && forall i :: 0 <= i < |w| ==> IsWordChar(w[i])
    requires |rest| == 0 || !IsWordChar(rest[0])
    ensures WordRun(w + rest) == |w|
    decreases |w|
  {
    var s := w + rest;
    assert s[0] == w[0];
    assert WordRun(s) == 1 + WordRun(s[1..]);
    if |w| > 1 {
      assert s[1..] == w[1..] + rest;
      WordRunOfWord(w[1..], rest);
    } else {
      assert s[1..] == rest;
      assert WordRun(rest) == 0;
    }
  }

  /** A well-formed token list is recovered exactly from its text. */
  lemma {:induction false} TokenizeRender(ts: seq<Token>)
    requires WF(ts)
    ensures Tokenize(Render(ts)) == ts
    decreases |ts|
  {
    if |ts| == 0 {
    } else {
      var rest := Render(ts[1..]);
      SuffixWF(ts, 1);
      TokenizeRender(ts[1..]);
      assert ValidToken(ts[0]);
      if |ts| > 1 {
        assert ValidToken(ts[1]);
      }
      match ts[0]
      case Word(w) =>
        assert |ts| > 1 ==> ts[1].Sep?;
        WordRunOfWord(w, rest);
        assert (w + rest)[..|w|] == w && (w + rest)[|w|..] == rest;
      case Sep(c) =>
        assert ([c] + rest)[1..] == rest;
    }
  }

  // ---------------------------------------------------------------------
  // Phrase replacement
  // ---------------------------------------------------------------------

  /** A token of the text matches an element of the key under IGNORECASE. */
  predicate TokenMatches(t: Token, p: TokenPattern)
  {
    match p
    case AnyWord(alts) => t.Word? && LowerStr(t.text) in alts
    case Char(pc) => t == Sep(pc)
  }

  /** The key's tokens occur at the start of `ts`. */
  predicate MatchesAt(ts: seq<Token>, pat: seq<TokenPattern>)
  {
    |pat| <= |ts| && forall k :: 0 <= k < |pat| ==> TokenMatches(ts[k], pat[k])
  }

  /** Left-to-right, non-overlapping replacement of every occurrence of `pat` by `rep`. */
  function ReplacePhrase(ts: seq<Token>, pat: seq<TokenPattern>, rep: seq<Token>): (r: seq<Token>)
    requires |pat| > 0
    decreases |ts|
  {
    if |ts| == 0 then []
    else if MatchesAt(ts, pat) then rep + ReplacePhrase(ts[|pat|..], pat, rep)
    else [ts[0]] + ReplacePhrase(ts[1..], pat, rep)
  }

  /** Text in which the key never occurs is left exactly as it was. */
  lemma {:induction false} ReplaceUnchanged(ts: seq<Token>, pat: seq<TokenPattern>, rep: seq<Token>)
    requires |pat| > 0
    requires forall i :: 0 <= i < |ts| ==> !MatchesAt(ts[i..], pat)
    ensures ReplacePhrase(ts, pat, rep) == ts
    decreases |ts|
  {
    if |ts| > 0 {
      assert ts[0..] == ts;
      forall i | 0 <= i < |ts| - 1 ensures !MatchesAt(ts[1..][i..], pat) {
        assert ts[1..][i..] == ts[i + 1..];
      }
      ReplaceUnchanged(ts[1..], pat, rep);
    }
  }

  /** Replacement keeps the token list well formed, so re-tokenizing its rendering is exact. */
  lemma {:induction false} ReplacePreservesWF(ts: seq<Token>, pat: seq<TokenPattern>, rep: seq<Token>)
    requires WF(ts) && KeyPattern(pat) && Phrase(rep)
    ensures WF(ReplacePhrase(ts, pat, rep))
    ensures |ts| > 0 ==>
              |ReplacePhrase(ts, pat, rep)| > 0 && (ReplacePhrase(ts, pat, rep)[0].Word? <==> ts[0].Word?)
    decreases |ts|
  {
    if |ts| == 0 {
    } else if MatchesAt(ts, pat) {
      var k := |pat|;
      SuffixWF(ts, k);
      ReplacePreservesWF(ts[k..], pat, rep);
      assert TokenMatches(ts[k - 1], pat[k - 1]);
      assert ts[k - 1].Word?;
      if k < |ts| {
        assert ts[k..][0] == ts[k];
      }
      ConcatWF(rep, ReplacePhrase(ts[k..], pat, rep));
      assert TokenMatches(ts[0], pat[0]);
    } else {
      SuffixWF(ts, 1);
      ReplacePreservesWF(ts[1..], pat, rep);
      if |ts| > 1 {
        assert ts[1..][0] == ts[1];
      }
      ConsWF(ts[0], ReplacePhrase(ts[1..], pat, rep));
    }
  }

  /** Replacement introduces no word that is in neither the text nor the replacement. */
  lemma {:induction false} ReplaceWords(ts: seq<Token>, pat: seq<TokenPattern>, rep: seq<Token>)
    requires |pat| > 0
    ensures LowerWords(ReplacePhrase(ts, pat, rep)) <= LowerWords(ts) + LowerWords(rep)
    decreases |ts|
  {
    if |ts| == 0 {
    } else if MatchesAt(ts, pat) {
      ReplaceWords(ts[|pat|..], pat, rep);
      LowerWordsConcat(rep, ReplacePhrase(ts[|pat|..], pat, rep));
      LowerWordsSuffix(ts, |pat|);
    } else {
      ReplaceWords(ts[1..], pat, rep);
      LowerWordsConcat([ts[0]], ReplacePhrase(ts[1..], pat, rep));
    }
  }

  lemma LowerWordsSuffix(ts: seq<Token>, k: nat)
    requires k <= |ts|
    ensures LowerWords(ts[k..]) <= LowerWords(ts)
  {
    assert ts == ts[..k] + ts[k..];
    LowerWordsConcat(ts[..k], ts[k..]);
  }

  /**
   * Replacing a one-word key removes every one of its alternatives: afterwards
   * each word is a word of the text that is not an alternative, or a word of
   * the replacement.
   */
  lemma {:induction false} ReplaceRemovesWord(ts: seq<Token>, alts: seq<string>, rep: seq<Token>)
    ensures LowerWords(ReplacePhrase(ts, [AnyWord(alts)], rep))
         <= (LowerWords(ts) - AltSet(alts)) + LowerWords(rep)
    decreases |ts|
  {
    var pat := [AnyWord(alts)];
    if |ts| == 0 {
    } else {
      ReplaceRemovesWord(ts[1..], alts, rep);
      LowerWordsConcat([ts[0]], ts[1..]);
      assert ts == [ts[0]] + ts[1..];
      if MatchesAt(ts, pat) {
        LowerWordsConcat(rep, ReplacePhrase(ts[1..], pat, rep));
      } else {
        LowerWordsConcat([ts[0]], ReplacePhrase(ts[1..], pat, rep));
        assert !TokenMatches(ts[0], AnyWord(alts));
      }
    }
  }

  // ---------------------------------------------------------------------
  // String-level substitution and substitution tables
  // ---------------------------------------------------------------------

  /** One `re.sub` pass of a whole-word, case-insensitive key over a string. */
  datatype Rule = Rule(key: seq<TokenPattern>, value: seq<Token>)

  predicate ValidRule(r: Rule)
  {
    KeyPattern(r.key) && Phrase(r.value)
  }

  predicate ValidTable(tbl: seq<Rule>)
  {
    forall i :: 0 <= i < |tbl| ==> ValidRule(tbl[i])
  }

  function Substitute(s: string, r: Rule): (t: string)
    requires ValidRule(r)
    ensures Tokenize(t) == ReplacePhrase(Tokenize(s), r.key, r.value)
  {
    var ts := ReplacePhrase(Tokenize(s), r.key, r.value);
    ReplacePreservesWF(Tokenize(s), r.key, r.value);
    TokenizeRender(ts);
    Render(ts)
  }

  /** The rules of `tbl` applied one after another, in table order. */
  function Fold(s: string, tbl: seq<Rule>): string
    requires ValidTable(tbl)
    decreases |tbl|
  {
    if |tbl| == 0 then s
    else Substitute(Fold(s, tbl[..|tbl| - 1]), tbl[|tbl| - 1])
  }

  /** A substitution pass only brings in the words of its replacement. */
  lemma SubstituteWords(s: string, r: Rule)
    requires ValidRule(r)
    ensures WordsOf(Substitute(s, r)) <= WordsOf(s) + LowerWords(r.value)
  {
    ReplaceWords(Tokenize(s), r.key, r.value);
  }

  /** A pass whose key is one word pattern removes each of its alternatives. */
  lemma SubstituteRemovesWord(s: string, r: Rule)
    requires ValidRule(r) && |r.key| == 1
    ensures WordsOf(Substitute(s, r)) <= (WordsOf(s) - AltSet(r.key[0].alts)) + LowerWords(r.value)
  {
    assert r.key == [AnyWord(r.key[0].alts)];
    ReplaceRemovesWord(Tokenize(s), r.key[0].alts, r.value);
  }

  /**
   * If rule `j` of a table has a one-word key with alternative `w` and no rule
   * from `j` on has `w` in its replacement, then `w` is not a whole word of the result.
   */
  lemma {:induction false} FoldRemovesWord(s: string, tbl: seq<Rule>, j: nat, w: string)
    requires ValidTable(tbl) && j < |tbl|
    requires |tbl[j].key| == 1 && w in tbl[j].key[0].alts
    requires forall i :: j <= i < |tbl| ==> w !in LowerWords(tbl[i].value)
    ensures w !in WordsOf(Fold(s, tbl))
    decreases |tbl|
  {
    var n := |tbl| - 1;
    var prefix := tbl[..n];
    assert ValidTable(prefix);
    if j == n {
      SubstituteRemovesWord(Fold(s, prefix), tbl[n]);
    } else {
      assert prefix[j] == tbl[j];
      FoldRemovesWord(s, prefix, j, w);
      SubstituteWords(Fold(s, prefix), tbl[n]);
    }
  }

  /** No replacement brings back a one-word key of its own rule or of an earlier one. */
  predicate RemovalTable(tbl: seq<Rule>)
  {
    ValidTable(tbl)
    && (forall i, j :: 0 <= j <= i < |tbl| && |tbl[j].key| == 1
                       ==> AltSet(tbl[j].key[0].alts) !! LowerWords(tbl[i].value))
  }

  /** No alternative of any one-word key of `tbl` is a whole word of `s`. */
  predicate KeysAbsent(s: string, tbl: seq<Rule>)
  {
    forall j, w :: 0 <= j < |tbl| && |tbl[j].key| == 1 && tbl[j].key[0].AnyWord? && w in tbl[j].key[0].alts
                   ==> w !in WordsOf(s)
  }

  /** After a removal table, no alternative of any of its one-word keys is left as a whole word. */
  lemma FoldRemovesKeys(s: string, tbl: seq<Rule>)
    requires RemovalTable(tbl)
    ensures KeysAbsent(Fold(s, tbl), tbl)
  {
    forall j, w | 0 <= j < |tbl| && |tbl[j].key| == 1 && tbl[j].key[0].AnyWord? && w in tbl[j].key[0].alts
      ensures w !in WordsOf(Fold(s, tbl))
    {
      assert w in AltSet(tbl[j].key[0].alts);
      FoldRemovesWord(s, tbl, j, w);
    }
  }

  /** Every one-word key of `tbl` draws its alternatives from `keys`. */
  predicate KeysWithin(tbl: seq<Rule>, keys: set<string>)
  {
    forall j, w :: 0 <= j < |tbl| && |tbl[j].key| == 1 && tbl[j].key[0].AnyWord? && w in tbl[j].key[0].alts ==> w in keys
  }

  /** Every replacement of `tbl` draws its words from `values`. */
  predicate ValuesWithin(tbl: seq<Rule>, values: set<string>)
  {
    forall i :: 0 <= i < |tbl| ==> LowerWords(tbl[i].value) <= values
  }

  /**
   * A table is a removal table when its one-word keys come from one set and
   * its replacement words from another set that does not meet it.
   */
  lemma RemovalBySets(tbl: seq<Rule>, keys: set<string>, values: set<string>)
    requires ValidTable(tbl) && KeysWithin(tbl, keys) && ValuesWithin(tbl, values)
    requires keys !! values
    ensures RemovalTable(tbl)
  {
  }

  /** Validity and the two word bounds carry over to a concatenation of tables. */
  lemma TableConcat(a: seq<Rule>, b: seq<Rule>, keys: set<string>, values: set<string>)
    requires ValidTable(a) && KeysWithin(a, keys) && ValuesWithin(a, values)
    requires ValidTable(b) && KeysWithin(b, keys) && ValuesWithin(b, values)
    ensures ValidTable(a + b) && KeysWithin(a + b, keys) && ValuesWithin(a + b, values)
  {
    forall i | |a| <= i < |a + b| ensures (a + b)[i] == b[i - |a|] {}
  }

  /** The loop `for pattern, replacement in table: text = re.sub(...)`. */
  method ApplyRules(s: string, tbl: seq<Rule>) returns (t: string)
    requires ValidTable(tbl)
    ensures t == Fold(s, tbl)
  {
    t := s;
    var i := 0;
    while i < |tbl|
      invariant 0 <= i <= |tbl|
      invariant t == Fold(s, tbl[..i])
    {
      assert tbl[..i + 1][..i] == tbl[..i];
      t := Substitute(t, tbl[i]);
      i := i + 1;
    }
    assert tbl[..|tbl|] == tbl;
  }

  /** Every word of a folded text is a word of the input or of some replacement. */
  lemma {:induction false} FoldWords(s: string, tbl: seq<Rule>, values: set<string>)
    requires ValidTable(tbl) && ValuesWithin(tbl, values)
    ensures WordsOf(Fold(s, tbl)) <= WordsOf(s) + values
    decreases |tbl|
  {
    if |tbl| > 0 {
      var n := |tbl| - 1;
      assert ValidTable(tbl[..n]) && ValuesWithin(tbl[..n], values);
      FoldWords(s, tbl[..n], values);
      SubstituteWords(Fold(s, tbl[..n]), tbl[n]);
    }
  }

  /**
   * Words that a first table removed stay removed through a second table
   * whose replacements avoid them.
   */
  lemma FoldKeepsKeysOut(s: string, first: seq<Rule>, second: seq<Rule>, keys: set<string>, values: set<string>)
    requires KeysAbsent(s, first) && KeysWithin(first, keys)
    requires ValidTable(second) && ValuesWithin(second, values) && keys !! values
    ensures KeysAbsent(Fold(s, second), first)
  {
    forall j, w | 0 <= j < |first| && |first[j].key| == 1 && first[j].key[0].AnyWord? && w in first[j].key[0].alts
      ensures w !in WordsOf(Fold(s, second))
    {
      assert w in AltSet(first[j].key[0].alts);
      FoldWords(s, second, values);
    }
  }

  /** Every key of `tbl` is a single word pattern. */
  predicate WordKeys(tbl: seq<Rule>)
  {
    forall i :: 0 <= i < |tbl| ==> |tbl[i].key| == 1 && tbl[i].key[0].AnyWord?
  }

  /** A one-word rule none of whose alternatives is a word of `s` leaves `s` as it is. */
  lemma SubstituteAbsent(s: string, r: Rule)
    requires ValidRule(r) && |r.key| == 1 && r.key[0].AnyWord?
    requires forall w :: w in r.key[0].alts ==> w !in WordsOf(s)
    ensures Substitute(s, r) == s
  {
    var ts := Tokenize(s);
    forall i | 0 <= i < |ts| ensures !MatchesAt(ts[i..], r.key) {
      assert ts[i..][0] == ts[i];
      if ts[i].Word? {
        assert LowerStr(ts[i].text) in WordsOf(s);
      }
    }
    ReplaceUnchanged(ts, r.key, r.value);
    RenderTokenize(s);
  }

  /** A table of one-word rules whose keys are all absent from `s` leaves `s` as it is. */
  lemma {:induction false} FoldAbsent(s: string, tbl: seq<Rule>)
    requires ValidTable(tbl) && WordKeys(tbl) && KeysAbsent(s, tbl)
    ensures Fold(s, tbl) == s
    decreases |tbl|
  {
    if |tbl| > 0 {
      var n := |tbl| - 1;
      assert ValidTable(tbl[..n]) && WordKeys(tbl[..n]);
      assert KeysAbsent(s, tbl[..n]) by {
        forall j | 0 <= j < n ensures tbl[..n][j] == tbl[j] {}
      }
      FoldAbsent(s, tbl[..n]);
      SubstituteAbsent(s, tbl[n]);
    }
  }

  /** Keys absent for a table are absent for any run of its rules. */
  lemma KeysAbsentSlice(s: string, tbl: seq<Rule>, lo: nat, hi: nat)
    requires KeysAbsent(s, tbl) && lo <= hi <= |tbl|
    ensures KeysAbsent(s, tbl[lo..hi])
  {
    forall j | 0 <= j < hi - lo ensures tbl[lo..hi][j] == tbl[lo + j] {}
  }

  /** A table whose replacements avoid `w` never introduces `w`. */
  lemma {:induction false} FoldKeepsOut(s: string, tbl: seq<Rule>, w: string)
    requires ValidTable(tbl) && w !in WordsOf(s)
    requires forall i :: 0 <= i < |tbl| ==> w !in LowerWords(tbl[i].value)
    ensures w !in WordsOf(Fold(s, tbl))
    decreases |tbl|
  {
    if |tbl| > 0 {
      var n := |tbl| - 1;
      assert ValidTable(tbl[..n]);
      FoldKeepsOut(s, tbl[..n], w);
      SubstituteWords(Fold(s, tbl[..n]), tbl[n]);
    }
  }

  // ---------------------------------------------------------------------
  // Building keys and replacements
  // ---------------------------------------------------------------------

  /** The key `re.escape(w)`, a single word. */
  function Key(w: string): seq<TokenPattern>
  {
    [AnyWord([w])]
  }

  /** The key `re.escape(a + " " + b)`: two words and the one space between them. */
  function Key2(a: string, b: string): seq<TokenPattern>
  {
    [AnyWord([a]), Char(' '), AnyWord([b])]
  }

  /** The key `\b(w1|w2|...)\b`. */
  function KeyAny(alts: seq<string>): seq<TokenPattern>
  {
    [AnyWord(alts)]
  }

  /** A non-empty run of word characters. */
  predicate IsWord(w: string)
  {
    |w| > 0 && forall i :: 0 <= i < |w| ==> IsWordChar(w[i])
  }

  /** The replacement text `w`, a single word. */
  function Words1(w: string): seq<Token>
  {
    [Word(w)]
  }

  /** The replacement text `a + " " + b`, as tokens. */
  function Words2(a: string, b: string): seq<Token>
  {
    [Word(a), Sep(' '), Word(b)]
  }

  /** A non-empty run of lower-case letters. */
  predicate LowerWord(w: string)
  {
    |w| > 0 && forall i :: 0 <= i < |w| ==> 'a' <= w[i] <= 'z'
  }

  lemma LowerWordFacts(w: string)
    requires LowerWord(w)
    ensures IsWord(w) && LowerStr(w) == w
  {
  }

  lemma Words1Facts(w: string)
    requires IsWord(w)
    ensures Phrase(Words1(w)) && LowerWords(Words1(w)) == {LowerStr(w)}
  {
    assert [Word(w)][1..] == [];
  }

  lemma Words1Lower(w: string)
    requires LowerWord(w)
    ensures Phrase(Words1(w)) && LowerWords(Words1(w)) == {w}
  {
    LowerWordFacts(w);
    Words1Facts(w);
  }

  lemma Words2Facts(a: string, b: string)
    requires IsWord(a) && IsWord(b)
    ensures Phrase(Words2(a, b)) && LowerWords(Words2(a, b)) == {LowerStr(a), LowerStr(b)}
  {
    var p := Words2(a, b);
    assert p[1..] == [Sep(' '), Word(b)] && p[1..][1..] == [Word(b)] && [Word(b)][1..] == [];
    assert LowerWords(p[1..]) == LowerWords([Word(b)]) == {LowerStr(b)};
  }
}
