/**
 * `EmbeddingChecker` (biaslense/src/core/embedding_checker.py): compares a
 * text with a catalogue of stereotype phrases. The sentence encoder and the
 * cosine computation are foreign; what follows them is modelled from the
 * per-phrase similarity they produce: the ordered score table, its maximum,
 * the phrases above the 'default' threshold, the severity band, the
 * category breakdown and the top matches, together with the checker's
 * threshold table and phrase list.
 */
module Embeddings {
  import opened Text

  // ---------------------------------------------------------------------
  // Thresholds and severity
  // ---------------------------------------------------------------------

  /** The table `_load_adaptive_thresholds` returns. */
  function DefaultThresholds(): map<string, real>
  {
    map["high_confidence" := 0.8, "medium_confidence" := 0.65, "low_confidence" := 0.5, "default" := 0.35]
  }

  /** The four keys the checker reads; `dict.update` can add keys but never removes one. */
  predicate HasThresholds(th: map<string, real>)
  {
    "high_confidence" in th && "medium_confidence" in th && "low_confidence" in th && "default" in th
  }

  datatype Severity = High | Medium | Low | NoSeverity

  /** Severity as an order: "none" < "low" < "medium" < "high". */
  function Rank(s: Severity): nat
  {
    match s
    case NoSeverity => 0
    case Low => 1
    case Medium => 2
    case High => 3
  }

  /**
   * `_determine_severity_level`: the first band whose threshold the score
   * reaches, tried from "high" down, and "none" below all three.
   */
  function SeverityOf(score: real, th: map<string, real>): (s: Severity)
    requires HasThresholds(th)
    ensures s == High <==> score >= th["high_confidence"]
    ensures s == Medium <==> th["medium_confidence"] <= score < th["high_confidence"]
    ensures s == Low <==> th["low_confidence"] <= score && score < th["medium_confidence"] && score < th["high_confidence"]
    ensures s == NoSeverity <==> score < th["low_confidence"] && score < th["medium_confidence"] && score < th["high_confidence"]
  {
    if score >= th["high_confidence"] then High
    else if score >= th["medium_confidence"] then Medium
    else if score >= th["low_confidence"] then Low
    else NoSeverity
  }

  /** A higher similarity never yields a lower severity, whatever the thresholds are. */
  lemma SeverityMonotone(a: real, b: real, th: map<string, real>)
    requires HasThresholds(th) && a <= b
    ensures Rank(SeverityOf(a, th)) <= Rank(SeverityOf(b, th))
  {
  }

  /** With the default table the bands are [0.8, ...), [0.65, 0.8), [0.5, 0.65) and below 0.5. */
  lemma DefaultBands(score: real)
    ensures HasThresholds(DefaultThresholds())
    ensures SeverityOf(score, DefaultThresholds())
            == if score >= 0.8 then High else if score >= 0.65 then Medium else if score >= 0.5 then Low else NoSeverity
  {
    var th := DefaultThresholds();
    assert th["high_confidence"] == 0.8 && th["medium_confidence"] == 0.65;
    assert th["low_confidence"] == 0.5;
  }

  // ---------------------------------------------------------------------
  // The score table
  // ---------------------------------------------------------------------

  /**
   * The similarity dictionary: its keys in insertion order and the score of
   * each key. Assigning an existing key keeps its position.
   */
  datatype ScoreTable = ScoreTable(order: seq<string>, score: map<string, real>)

  predicate WellFormed(d: ScoreTable)
  {
    (forall i, j :: 0 <= i < j < |d.order| ==> d.order[i] != d.order[j])
    && (forall k :: k in d.score ==> k in d.order)
    && (forall k :: k in d.order ==> k in d.score)
  }

  /** `d[k] = v`. */
  function Put(d: ScoreTable, k: string, v: real): (r: ScoreTable)
    requires WellFormed(d)
    ensures WellFormed(r)
    ensures r.score == d.score[k := v]
  {
    ScoreTable(if k in d.score then d.order else d.order + [k], d.score[k := v])
  }

  /**
   * The table `_compute_cosine_similarities` fills, phrase by phrase, from
   * `similarity`, the foreign cosine similarity of the text with each
   * phrase, rounded to four places.
   */
  function ScoresOf(phrases: seq<string>, similarity: string -> real): (d: ScoreTable)
    ensures WellFormed(d)
    decreases |phrases|
  {
    if |phrases| == 0 then ScoreTable([], map[])
    else
      var k := |phrases| - 1;
      Put(ScoresOf(phrases[..k], similarity), phrases[k], similarity(phrases[k]))
  }

  /** The table has exactly the phrases as keys, each with its own similarity. */
  lemma {:induction false} ScoresOfContents(phrases: seq<string>, similarity: string -> real)
    ensures forall p :: p in ScoresOf(phrases, similarity).score <==> p in phrases
    ensures forall p :: p in ScoresOf(phrases, similarity).score ==> ScoresOf(phrases, similarity).score[p] == similarity(p)
    decreases |phrases|
  {
    if |phrases| > 0 {
      var k := |phrases| - 1;
      ScoresOfContents(phrases[..k], similarity);
      assert phrases == phrases[..k] + [phrases[k]];
    }
  }

  /** `max(d.values()) if d else 0.0`, taken over the keys in `keys`. */
  function MaxOver(keys: seq<string>, score: map<string, real>): (m: real)
    requires forall k :: k in keys ==> k in score
    ensures |keys| == 0 ==> m == 0.0
    ensures |keys| > 0 ==> exists i :: 0 <= i < |keys| && m == score[keys[i]]
    ensures forall i :: 0 <= i < |keys| ==> score[keys[i]] <= m
    decreases |keys|
  {
    if |keys| == 0 then 0.0
    else if |keys| == 1 then score[keys[0]]
    else
      var k := |keys| - 1;
      Max(MaxOver(keys[..k], score), score[keys[k]])
  }

  /** `[k for k, s in d.items() if s > threshold]`. */
  function Above(keys: seq<string>, score: map<string, real>, threshold: real): (r: seq<string>)
    requires forall k :: k in keys ==> k in score
    ensures forall p :: p in r <==> p in keys && score[p] > threshold
    decreases |keys|
  {
    if |keys| == 0 then []
    else
      var k := |keys| - 1;
      Above(keys[..k], score, threshold) + (if score[keys[k]] > threshold then [keys[k]] else [])
  }

  /** The maximum over the score table is the largest similarity of a phrase, and some phrase attains it. */
  lemma MaxOfScores(phrases: seq<string>, similarity: string -> real)
    requires |phrases| > 0
    ensures var d := ScoresOf(phrases, similarity); var m := MaxOver(d.order, d.score);
      (forall p :: p in phrases ==> similarity(p) <= m) && (exists p :: p in phrases && similarity(p) == m)
  {
    var d := ScoresOf(phrases, similarity);
    ScoresOfContents(phrases, similarity);
    var m := MaxOver(d.order, d.score);
    assert phrases[0] in d.order;
    var i :| 0 <= i < |d.order| && m == d.score[d.order[i]];
    assert d.order[i] in phrases;
    forall p | p in phrases ensures similarity(p) <= m {
      assert p in d.order;
      var j :| 0 <= j < |d.order| && d.order[j] == p;
    }
  }

  /** The phrases above the threshold are exactly the phrases whose similarity exceeds it, and each has a score. */
  lemma AboveScores(phrases: seq<string>, similarity: string -> real, threshold: real)
    ensures var d := ScoresOf(phrases, similarity); var similar := Above(d.order, d.score, threshold);
      (forall p :: p in similar <==> p in phrases && similarity(p) > threshold)
      && (forall p :: p in similar ==> p in d.score)
  {
    ScoresOfContents(phrases, similarity);
  }

  /** Some phrase lies above the threshold exactly when the maximum does. */
  lemma AboveIffMax(phrases: seq<string>, similarity: string -> real, threshold: real)
    requires |phrases| > 0
    ensures var d := ScoresOf(phrases, similarity);
      Above(d.order, d.score, threshold) != [] <==> MaxOver(d.order, d.score) > threshold
  {
    var d := ScoresOf(phrases, similarity);
    var m := MaxOver(d.order, d.score);
    var similar := Above(d.order, d.score, threshold);
    MaxOfScores(phrases, similarity);
    AboveScores(phrases, similarity, threshold);
    if m > threshold {
      var p :| p in phrases && similarity(p) == m;
      assert p in similar;
    }
    if similar != [] {
      assert similar[0] in similar;
    }
  }

  // ---------------------------------------------------------------------
  // compute_similarity
  // ---------------------------------------------------------------------

  datatype SimilarityResult = SimilarityResult(
    maxSimilarity: real,
    similarPhrases: seq<string>,
    similarityScores: ScoreTable,
    thresholdExceeded: bool,
    severityLevel: Severity)

  /**
   * `compute_similarity`. Without embeddings it returns the fixed fallback,
   * whose severity is "low". Otherwise the maximum is the largest phrase
   * score, the similar phrases are exactly those scoring strictly above
   * 'default', the threshold counts as exceeded exactly when there is one,
   * and the severity is the band of the maximum.
   */
  function Similarity(th: map<string, real>, hasEmbeddings: bool, phrases: seq<string>,
                      similarity: string -> real): (r: SimilarityResult)
    requires HasThresholds(th) && (hasEmbeddings ==> |phrases| > 0)
    ensures !hasEmbeddings ==> r == SimilarityResult(0.0, [], ScoreTable([], map[]), false, Low)
    ensures hasEmbeddings ==> r.similarityScores == ScoresOf(phrases, similarity)
                              && r.severityLevel == SeverityOf(r.maxSimilarity, th)
    ensures hasEmbeddings ==> (forall p :: p in phrases ==> similarity(p) <= r.maxSimilarity)
                              && (exists p :: p in phrases && similarity(p) == r.maxSimilarity)
    ensures hasEmbeddings ==> forall p :: p in r.similarPhrases <==> p in phrases && similarity(p) > th["default"]
    ensures r.thresholdExceeded <==> r.similarPhrases != []
    ensures WellFormed(r.similarityScores)
    ensures forall p :: p in r.similarPhrases ==> p in r.similarityScores.score
  {
    if !hasEmbeddings then SimilarityResult(0.0, [], ScoreTable([], map[]), false, Low)
    else
      var d := ScoresOf(phrases, similarity);
      var m := MaxOver(d.order, d.score);
      var similar := Above(d.order, d.score, th["default"]);
      MaxOfScores(phrases, similarity);
      AboveScores(phrases, similarity, th["default"]);
      AboveIffMax(phrases, similarity, th["default"]);
      SimilarityResult(m, similar, d, m > th["default"], SeverityOf(m, th))
  }

  // ---------------------------------------------------------------------
  // get_similarity_breakdown
  // ---------------------------------------------------------------------

  /** A phrase with its score, as the breakdown lists them. */
  type Scored = (string, real)

  datatype Category =
    | VisualSymbolic | Behavioral | Geopolitical | ReligiousConflation | PositiveStereotypes | GeneralBias

  function Keywords(c: Category): seq<string>
  {
    match c
    case VisualSymbolic => ["turban", "dagger", "costume", "appearance"]
    case Behavioral => ["aggressive", "militant", "extremist", "radical", "violent"]
    case Geopolitical => ["khalistani", "anti-national", "pakistan", "separatist", "terrorist"]
    case ReligiousConflation => ["muslim", "islam", "jihadi"]
    case PositiveStereotypes => ["peaceful", "kind", "helpful"]
    case GeneralBias => []
  }

  /** Some keyword of `c` occurs in the lower-cased phrase. */
  predicate Mentions(phrase: string, c: Category)
  {
    CountContained(Keywords(c), LowerStr(phrase)) > 0
  }

  /**
   * The category of a phrase: the first keyword group, in the order
   * visual/symbolic, behavioral, geopolitical, religious conflation,
   * positive stereotypes, that the lower-cased phrase mentions, and
   * general bias when it mentions none.
   */
  function CategoryOf(phrase: string): (c: Category)
    ensures c != GeneralBias ==> Mentions(phrase, c)
    ensures c == GeneralBias <==>
      !Mentions(phrase, VisualSymbolic) && !Mentions(phrase, Behavioral) && !Mentions(phrase, Geopolitical)
      && !Mentions(phrase, ReligiousConflation) && !Mentions(phrase, PositiveStereotypes)
    ensures c == Behavioral ==> !Mentions(phrase, VisualSymbolic)
    ensures c == Geopolitical ==> !Mentions(phrase, VisualSymbolic) && !Mentions(phrase, Behavioral)
    ensures c == ReligiousConflation ==>
      !Mentions(phrase, VisualSymbolic) && !Mentions(phrase, Behavioral) && !Mentions(phrase, Geopolitical)
    ensures c == PositiveStereotypes ==>
      !Mentions(phrase, VisualSymbolic) && !Mentions(phrase, Behavioral) && !Mentions(phrase, Geopolitical)
      && !Mentions(phrase, ReligiousConflation)
  {
    if Mentions(phrase, VisualSymbolic) then VisualSymbolic
    else if Mentions(phrase, Behavioral) then Behavioral
    else if Mentions(phrase, Geopolitical) then Geopolitical
    else if Mentions(phrase, ReligiousConflation) then ReligiousConflation
    else if Mentions(phrase, PositiveStereotypes) then PositiveStereotypes
    else GeneralBias
  }

  /** `scores.get(phrase, 0.0)`. */
  function Get(score: map<string, real>, phrase: string): real
  {
    if phrase in score then score[phrase] else 0.0
  }

  /** The six lists of `categories`, one per category. */
  datatype Categories = Categories(
    visualSymbolic: seq<Scored>, behavioral: seq<Scored>, geopolitical: seq<Scored>,
    religiousConflation: seq<Scored>, positiveStereotypes: seq<Scored>, generalBias: seq<Scored>)

  /** `categories[c]`. */
  function Bucket(m: Categories, c: Category): seq<Scored>
  {
    match c
    case VisualSymbolic => m.visualSymbolic
    case Behavioral => m.behavioral
    case Geopolitical => m.geopolitical
    case ReligiousConflation => m.religiousConflation
    case PositiveStereotypes => m.positiveStereotypes
    case GeneralBias => m.generalBias
  }

  /** `categories[c].append(e)`: only the list of `c` grows. */
  function Append(m: Categories, c: Category, e: Scored): (r: Categories)
    ensures Bucket(r, c) == Bucket(m, c) + [e]
    ensures forall d :: d != c ==> Bucket(r, d) == Bucket(m, d)
  {
    match c
    case VisualSymbolic => m.(visualSymbolic := m.visualSymbolic + [e])
    case Behavioral => m.(behavioral := m.behavioral + [e])
    case Geopolitical => m.(geopolitical := m.geopolitical + [e])
    case ReligiousConflation => m.(religiousConflation := m.religiousConflation + [e])
    case PositiveStereotypes => m.(positiveStereotypes := m.positiveStereotypes + [e])
    case GeneralBias => m.(generalBias := m.generalBias + [e])
  }

  /** The categories after appending each phrase, in order, to the list `category` assigns it. */
  function CategorizeBy(category: string -> Category, phrases: seq<string>, score: map<string, real>): Categories
    decreases |phrases|
  {
    if |phrases| == 0 then Categories([], [], [], [], [], [])
    else
      var k := |phrases| - 1;
      Append(CategorizeBy(category, phrases[..k], score), category(phrases[k]), (phrases[k], Get(score, phrases[k])))
  }

  /** One more phrase appends one entry to its category's list. */
  lemma CategorizeStep(category: string -> Category, phrases: seq<string>, score: map<string, real>, i: nat)
    requires i < |phrases|
    ensures CategorizeBy(category, phrases[..i + 1], score)
            == Append(CategorizeBy(category, phrases[..i], score), category(phrases[i]), (phrases[i], Get(score, phrases[i])))
  {
    assert phrases[..i + 1][..i] == phrases[..i];
  }

  /** The categories of `get_similarity_breakdown`: each phrase goes to the list of its `CategoryOf`. */
  function Categorize(phrases: seq<string>, score: map<string, real>): Categories
  {
    CategorizeBy(CategoryOf, phrases, score)
  }

  /** The loop of `get_similarity_breakdown` that appends each similar phrase to its category's list. */
  method FillCategories(similar: seq<string>, score: map<string, real>) returns (categories: Categories)
    ensures categories == Categorize(similar, score)
  {
    categories := Categories([], [], [], [], [], []);
    var i := 0;
    while i < |similar|
      invariant 0 <= i <= |similar|
      invariant categories == CategorizeBy(CategoryOf, similar[..i], score)
    {
      CategorizeStep(CategoryOf, similar, score, i);
      var phrase := similar[i];
      categories := Append(categories, CategoryOf(phrase), (phrase, Get(score, phrase)));
      i := i + 1;
    }
    assert similar[..|similar|] == similar;
  }

  /** How many entries the six lists hold together. */
  function Total(m: Categories): nat
  {
    |m.visualSymbolic| + |m.behavioral| + |m.geopolitical| + |m.religiousConflation|
    + |m.positiveStereotypes| + |m.generalBias|
  }

  /** Every phrase lands in exactly one list: together the lists hold one entry per phrase. */
  lemma {:induction false} CategorizeTotal(category: string -> Category, phrases: seq<string>, score: map<string, real>)
    ensures Total(CategorizeBy(category, phrases, score)) == |phrases|
    decreases |phrases|
  {
    if |phrases| > 0 {
      CategorizeTotal(category, phrases[..|phrases| - 1], score);
    }
  }

  /**
   * An entry is in the list of category `c` exactly when its phrase is one of
   * the phrases, is assigned `c`, and carries the phrase's score.
   */
  lemma {:induction false} CategorizeMember(category: string -> Category, phrases: seq<string>,
                                            score: map<string, real>, c: Category, e: Scored)
    ensures e in Bucket(CategorizeBy(category, phrases, score), c)
            <==> e.0 in phrases && category(e.0) == c && e.1 == Get(score, e.0)
    decreases |phrases|
  {
    if |phrases| > 0 {
      var k := |phrases| - 1;
      CategorizeMember(category, phrases[..k], score, c, e);
      assert phrases == phrases[..k] + [phrases[k]];
    }
  }

  /** The table's entries in insertion order. */
  function Items(d: ScoreTable): (r: seq<Scored>)
    requires WellFormed(d)
    ensures |r| == |d.order|
    ensures forall i :: 0 <= i < |r| ==> r[i] == (d.order[i], d.score[d.order[i]])
  {
    seq(|d.order|, i requires 0 <= i < |d.order| => (d.order[i], d.score[d.order[i]]))
  }

  predicate Descending(s: seq<Scored>)
  {
    forall i, j :: 0 <= i < j < |s| ==> s[i].1 >= s[j].1
  }

  /** Places `x` after every entry scoring at least as much, which keeps equal scores in arrival order. */
  function InsertDescending(x: Scored, s: seq<Scored>): (r: seq<Scored>)
    ensures |r| == |s| + 1
    ensures multiset(r) == multiset(s) + multiset{x}
    decreases |s|
  {
    if |s| == 0 then [x]
    else if s[0].1 >= x.1 then
      assert s == [s[0]] + s[1..];
      [s[0]] + InsertDescending(x, s[1..])
    else [x] + s
  }

  /** Inserting into a descending list keeps it descending. */
  lemma {:induction false} InsertKeepsDescending(x: Scored, s: seq<Scored>)
    requires Descending(s)
    ensures Descending(InsertDescending(x, s))
    decreases |s|
  {
    if |s| == 0 {
    } else if s[0].1 >= x.1 {
      var rest := InsertDescending(x, s[1..]);
      InsertKeepsDescending(x, s[1..]);
      forall k | 0 <= k < |rest| ensures rest[k].1 <= s[0].1 {
        var e := rest[k];
        assert e in multiset(rest);
        if e != x {
          assert e in multiset(s[1..]);
          var m :| 0 <= m < |s| - 1 && s[1..][m] == e;
          assert s[m + 1] == e;
        }
      }
      var r := [s[0]] + rest;
      assert forall j :: 0 < j < |r| ==> r[j] == rest[j - 1];
    } else {
      var r := [x] + s;
      assert forall j :: 0 < j < |r| ==> r[j] == s[j - 1];
    }
  }

  /** `sorted(items, key=score, reverse=True)`: a stable sort from the highest score down. */
  function SortDescending(items: seq<Scored>): (r: seq<Scored>)
    ensures |r| == |items|
    ensures Descending(r)
    ensures multiset(r) == multiset(items)
    decreases |items|
  {
    if |items| == 0 then []
    else
      var k := |items| - 1;
      assert items == items[..k] + [items[k]];
      InsertKeepsDescending(items[k], SortDescending(items[..k]));
      InsertDescending(items[k], SortDescending(items[..k]))
  }

  /** The entries of `s` scoring exactly `v`, in their order in `s`. */
  function WithScore(s: seq<Scored>, v: real): (r: seq<Scored>)
    ensures |r| <= |s|
  {
    if |s| == 0 then [] else (if s[0].1 == v then [s[0]] else []) + WithScore(s[1..], v)
  }

  lemma {:induction false} WithScoreAppend(a: seq<Scored>, b: seq<Scored>, v: real)
    ensures WithScore(a + b, v) == WithScore(a, v) + WithScore(b, v)
    decreases |a|
  {
    if |a| > 0 {
      assert (a + b)[1..] == a[1..] + b;
      WithScoreAppend(a[1..], b, v);
    } else {
      assert a + b == b;
    }
  }

  lemma {:induction false} WithScoreBelow(s: seq<Scored>, v: real)
    requires forall k :: 0 <= k < |s| ==> s[k].1 < v
    ensures WithScore(s, v) == []
    decreases |s|
  {
    if |s| > 0 {
      WithScoreBelow(s[1..], v);
    }
  }

  /** Inserting `x` places it after every entry of its own score already there. */
  lemma {:induction false} InsertStable(x: Scored, s: seq<Scored>, v: real)
    requires Descending(s)
    ensures WithScore(InsertDescending(x, s), v) == WithScore(s, v) + WithScore([x], v)
    decreases |s|
  {
    if |s| == 0 {
    } else if s[0].1 >= x.1 {
      var rest := InsertDescending(x, s[1..]);
      var r := [s[0]] + rest;
      assert InsertDescending(x, s) == r;
      assert r[0] == s[0] && r[1..] == rest;
      InsertStable(x, s[1..], v);
      assert WithScore(r, v) == (if s[0].1 == v then [s[0]] else []) + WithScore(rest, v);
    } else {
      var r := [x] + s;
      assert r[0] == x && r[1..] == s;
      if x.1 == v {
        HeadBelow(s, v);
      }
    }
  }

  /** A descending list whose first entry scores below `v` has no entry scoring `v`. */
  lemma HeadBelow(s: seq<Scored>, v: real)
    requires Descending(s) && |s| > 0 && s[0].1 < v
    ensures WithScore(s, v) == []
  {
    forall k | 0 <= k < |s| ensures s[k].1 < v {
      if k > 0 {
        assert s[0].1 >= s[k].1;
      }
    }
    WithScoreBelow(s, v);
  }

  /** The sort is stable: the entries of each score keep their order in `items`. */
  lemma {:induction false} SortStable(items: seq<Scored>, v: real)
    ensures WithScore(SortDescending(items), v) == WithScore(items, v)
    decreases |items|
  {
    if |items| > 0 {
      var k := |items| - 1;
      assert items == items[..k] + [items[k]];
      SortStable(items[..k], v);
      InsertStable(items[k], SortDescending(items[..k]), v);
      WithScoreAppend(items[..k], [items[k]], v);
    }
  }

  /** The entries of one score among the first `n` sorted ones are the earliest such entries of `items`. */
  lemma PrefixStable(items: seq<Scored>, n: nat)
    requires n <= |items|
    ensures forall v :: WithScore(SortDescending(items)[..n], v) <= WithScore(items, v)
  {
    var s := SortDescending(items);
    assert s == s[..n] + s[n..];
    forall v ensures WithScore(s[..n], v) <= WithScore(items, v) {
      WithScoreAppend(s[..n], s[n..], v);
      SortStable(items, v);
    }
  }

  /**
   * The first `n` entries of a descending arrangement `s` of `items` are
   * descending, come from `items` without repeating any entry more often
   * than `items` holds it, and every entry left out scores at most the
   * `n`-th.
   */
  lemma SortedPrefix(s: seq<Scored>, items: seq<Scored>, n: nat)
    requires Descending(s) && multiset(s) == multiset(items) && n <= |s|
    ensures Descending(s[..n])
    ensures multiset(s[..n]) <= multiset(items)
    ensures forall e :: e in s[..n] ==> e in items
    ensures n > 0 ==> forall e :: e in items && e !in s[..n] ==> e.1 <= s[n - 1].1
  {
    assert forall k :: 0 <= k < n ==> s[..n][k] == s[k];
    assert s == s[..n] + s[n..];
    assert multiset(s) == multiset(s[..n]) + multiset(s[n..]);
    forall e | e in s[..n] ensures e in items {
      assert e in multiset(s);
    }
    if n > 0 {
      forall e | e in items && e !in s[..n] ensures e.1 <= s[n - 1].1 {
        assert e in multiset(items);
        var j :| 0 <= j < |s| && s[j] == e;
        assert j >= n;
      }
    }
  }

  /** What the first `n` entries of the sorted list keep of `items`. */
  lemma SortedTop(items: seq<Scored>, n: nat)
    requires n <= |items|
    ensures var r := SortDescending(items)[..n];
      |r| == n && Descending(r) && multiset(r) <= multiset(items) && (forall e :: e in r ==> e in items)
      && (n > 0 ==> forall e :: e in items && e !in r ==> e.1 <= r[n - 1].1)
      && (forall v :: WithScore(r, v) <= WithScore(items, v))
  {
    SortedPrefix(SortDescending(items), items, n);
    PrefixStable(items, n);
  }

  /**
   * `top_matches`: the first five entries of the stably sorted table. They
   * are in descending order, are distinct entries of the table, no entry
   * left out scores higher than the last one kept, and among equal scores
   * the kept entries are the earliest in the table's insertion order.
   */
  function TopMatches(d: ScoreTable): (r: seq<Scored>)
    requires WellFormed(d)
    ensures |r| == if |d.order| < 5 then |d.order| else 5
    ensures Descending(r)
    ensures multiset(r) <= multiset(Items(d))
    ensures forall e :: e in r ==> e in Items(d)
    ensures |r| > 0 ==> forall e :: e in Items(d) && e !in r ==> e.1 <= r[|r| - 1].1
    ensures forall v :: WithScore(r, v) <= WithScore(Items(d), v)
  {
    var items := Items(d);
    var n := if |items| < 5 then |items| else 5;
    SortedTop(items, n);
    SortDescending(items)[..n]
  }

  datatype Breakdown = Breakdown(
    overallSimilarity: real,
    severityLevel: Severity,
    categories: Categories,
    topMatches: seq<Scored>)

  /**
   * `get_similarity_breakdown`: the similarity result, its similar phrases
   * sorted into their category lists (whose contents `CategorizeMember`
   * states), and its top matches (`TopMatches`).
   */
  function BreakdownOf(th: map<string, real>, hasEmbeddings: bool, phrases: seq<string>,
                       similarity: string -> real): (b: Breakdown)
    requires HasThresholds(th) && (hasEmbeddings ==> |phrases| > 0)
    ensures var r := Similarity(th, hasEmbeddings, phrases, similarity);
      b.overallSimilarity == r.maxSimilarity && b.severityLevel == r.severityLevel
      && Total(b.categories) == |r.similarPhrases|
      && |b.topMatches| <= 5 && Descending(b.topMatches)
    ensures var r := Similarity(th, hasEmbeddings, phrases, similarity);
      b.categories == Categorize(r.similarPhrases, r.similarityScores.score)
      && b.topMatches == TopMatches(r.similarityScores)
  {
    var r := Similarity(th, hasEmbeddings, phrases, similarity);
    CategorizeTotal(CategoryOf, r.similarPhrases, r.similarityScores.score);
    Breakdown(r.maxSimilarity, r.severityLevel, Categorize(r.similarPhrases, r.similarityScores.score),
              TopMatches(r.similarityScores))
  }

  // ---------------------------------------------------------------------
  // The checker object
  // ---------------------------------------------------------------------

  /** The phrase list `_load_stereotype_phrases` returns. */
  function Catalog(): (c: seq<string>)
    ensures |c| == 30
  {
    [ "Sikh terrorism", "Khalistani movement", "1984 separatist incident", "Golden Temple militant",
      "Sikh political violence",
      "turbaned terrorist", "Sikh violent costume", "all Sikhs carry weapons", "every Sikh is militant",
      "Sikh aggressive behavior", "Sikhs are backward",
      "Sikhism is like Islam", "compare Sikh practices to Muslim", "Sikh beliefs similar to Hindu",
      "Sikh versus other religions",
      "Sikh community is uniform", "all Sikhs follow same traditions", "Sikh identity is simple",
      "Sikhs have same practices",
      "Western view of Sikhism", "modern society perspective", "civilized world standards",
      "developed country values", "primitive Sikh beliefs", "uncivilized Sikh practices",
      "Sikh militant", "Sikh extremist", "Sikh fundamentalist", "Sikh dangerous", "Sikh threatening" ]
  }

  /**
   * A phrase a caller might add that the catalogue does not hold: adding it
   * with `add_stereotype_phrases` as written leaves it out of the list.
   */
  lemma OutsideCatalog()
    ensures "Sikhs are outsiders" !in Catalog()
  {
  }

  /**
   * `EmbeddingChecker`: its threshold table, its phrase list and whether
   * phrase embeddings have been computed (`stereotype_embeddings is not
   * None`); the embeddings themselves belong to the foreign encoder.
   */
  class EmbeddingChecker {
    var adaptiveThresholds: map<string, real>
    var stereotypePhrases: seq<string>
    var hasEmbeddings: bool

    /** The four thresholds are always present, and embeddings exist only for a non-empty phrase list. */
    predicate Valid()
      reads this
    {
      HasThresholds(adaptiveThresholds) && (hasEmbeddings ==> |stereotypePhrases| > 0)
    }

    constructor()
      ensures Valid()
      ensures adaptiveThresholds == DefaultThresholds()
      ensures stereotypePhrases == Catalog() && hasEmbeddings
    {
      adaptiveThresholds := DefaultThresholds();
      stereotypePhrases := [];
      hasEmbeddings := false;
      new;
      PrecomputeEmbeddings();
    }

    /** `_precompute_embeddings`: reloads the fixed catalogue, which is never empty, and encodes it. */
    method PrecomputeEmbeddings()
      modifies this
      ensures stereotypePhrases == Catalog() && hasEmbeddings
      ensures adaptiveThresholds == old(adaptiveThresholds)
    {
      var phrases := Catalog();
      if |phrases| > 0 {
        stereotypePhrases := phrases;
        hasEmbeddings := true;
      }
    }

    /** `_compute_cosine_similarities`: one table entry per phrase, in list order. */
    method ComputeCosineSimilarities(similarity: string -> real) returns (d: ScoreTable)
      ensures d == ScoresOf(stereotypePhrases, similarity)
    {
      d := ScoreTable([], map[]);
      var i := 0;
      while i < |stereotypePhrases|
        invariant 0 <= i <= |stereotypePhrases|
        invariant d == ScoresOf(stereotypePhrases[..i], similarity)
      {
        assert stereotypePhrases[..i + 1][..i] == stereotypePhrases[..i];
        var phrase := stereotypePhrases[i];
        d := Put(d, phrase, similarity(phrase));
        i := i + 1;
      }
      assert stereotypePhrases[..|stereotypePhrases|] == stereotypePhrases;
    }

    /** `compute_similarity` for the text whose similarity with each phrase is `similarity`. */
    method ComputeSimilarity(similarity: string -> real) returns (r: SimilarityResult)
      requires Valid()
      ensures r == Similarity(adaptiveThresholds, hasEmbeddings, stereotypePhrases, similarity)
    {
      if !hasEmbeddings {
        return SimilarityResult(0.0, [], ScoreTable([], map[]), false, Low);
      }
      var d := ComputeCosineSimilarities(similarity);
      var m := MaxOver(d.order, d.score);
      var similar := Above(d.order, d.score, adaptiveThresholds["default"]);
      r := SimilarityResult(m, similar, d, m > adaptiveThresholds["default"], SeverityOf(m, adaptiveThresholds));
    }

    /** `get_similarity_breakdown`: one pass over the similar phrases filling the six lists, then the top five. */
    method GetSimilarityBreakdown(similarity: string -> real) returns (b: Breakdown)
      requires Valid()
      ensures b == BreakdownOf(adaptiveThresholds, hasEmbeddings, stereotypePhrases, similarity)
    {
      var r := ComputeSimilarity(similarity);
      var categories := FillCategories(r.similarPhrases, r.similarityScores.score);
      b := Breakdown(r.maxSimilarity, r.severityLevel, categories, TopMatches(r.similarityScores));
    }

    /** `update_thresholds`: `dict.update`, so supplied keys take the new value and every other key keeps its own. */
    method UpdateThresholds(newThresholds: map<string, real>)
      requires Valid()
      modifies this
      ensures Valid()
      ensures adaptiveThresholds.Keys == old(adaptiveThresholds).Keys + newThresholds.Keys
      ensures forall k :: k in newThresholds ==> adaptiveThresholds[k] == newThresholds[k]
      ensures forall k :: k in old(adaptiveThresholds) && k !in newThresholds
                ==> adaptiveThresholds[k] == old(adaptiveThresholds)[k]
      ensures stereotypePhrases == old(stereotypePhrases) && hasEmbeddings == old(hasEmbeddings)
    {
      adaptiveThresholds := adaptiveThresholds + newThresholds;
    }

    /**
     * `add_stereotype_phrases`: a non-empty list is appended, but the
     * recomputation that follows reloads the fixed catalogue, so the new
     * phrases are lost; an empty list changes nothing.
     */
    method AddStereotypePhrases(newPhrases: seq<string>)
      requires Valid()
      modifies this
      ensures Valid()
      ensures newPhrases != [] ==> stereotypePhrases == Catalog() && hasEmbeddings
      ensures newPhrases == [] ==> stereotypePhrases == old(stereotypePhrases) && hasEmbeddings == old(hasEmbeddings)
      ensures forall p :: p in newPhrases && p !in Catalog() ==> p !in stereotypePhrases
      ensures adaptiveThresholds == old(adaptiveThresholds)
    {
      if |newPhrases| > 0 {
        stereotypePhrases := stereotypePhrases + newPhrases;
        PrecomputeEmbeddings();
      }
    }

    /**
     * `add_stereotype_phrases` as its name promises: the new phrases are
     * appended to the list, every earlier phrase stays, and the extended list
     * is encoded again.
     */
    method AddStereotypePhrasesKept(newPhrases: seq<string>)
      requires Valid()
      modifies this
      ensures Valid()
      ensures stereotypePhrases == old(stereotypePhrases) + newPhrases
      ensures forall p :: p in newPhrases || p in old(stereotypePhrases) ==> p in stereotypePhrases
      ensures hasEmbeddings == (old(hasEmbeddings) || newPhrases != [])
      ensures adaptiveThresholds == old(adaptiveThresholds)
    {
      if |newPhrases| > 0 {
        stereotypePhrases := stereotypePhrases + newPhrases;
        hasEmbeddings := true;
      }
    }
  }
}
