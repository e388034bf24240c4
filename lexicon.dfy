/**
 * The substitution tables of the two mitigators, as rules over tokens, and
 * the facts the removal properties rest on: every rule is well formed, every
 * one-word key draws from a known set of words, and every replacement draws
 * from a known set that does not meet it.
 *
 * The tables are functions without arguments rather than constants, so that
 * their contents are only unfolded where they are used.
 */
module Lexicon {
  import opened Text
  import opened Words

  // ---------------------------------------------------------------------
  // Contextual reframing (the same in both mitigators)
  // ---------------------------------------------------------------------

  /** The four fixed-replacement patterns of contextual reframing, in dictionary order. */
  function ReframingRules(): seq<Rule>
  {
    [ Rule(KeyAny(["terrorist", "militant", "extremist"]), Words1("individual")),
      Rule(KeyAny(["backward", "primitive", "uncivilized"]), Words1("traditional")),
      Rule(KeyAny(["dangerous", "threatening"]), Words1("distinctive")),
      Rule(KeyAny(["violent", "aggressive"]), Words1("martial")) ]
  }

  function ReframingKeys(): set<string>
  {
    {"terrorist", "militant", "extremist", "backward", "primitive", "uncivilized",
     "dangerous", "threatening", "violent", "aggressive"}
  }

  function ReframingReplacements(): set<string>
  {
    {"individual", "traditional", "distinctive", "martial"}
  }

  lemma ReframingTable()
    ensures ValidTable(ReframingRules()) && ValuesWithin(ReframingRules(), ReframingReplacements())
  {
    SharedWords();
    Words1Lower("individual");
    Words1Lower("traditional");
    Words1Lower("distinctive");
    Words1Lower("martial");
  }

  lemma ReframingKeysBounded()
    ensures KeysWithin(ReframingRules(), ReframingKeys())
  {
  }

  /** Replacement words that several tables use. */
  lemma SharedWords()
    ensures LowerWord("individual") && LowerWord("traditional") && LowerWord("distinctive") && LowerWord("martial")
  {
  }

  // ---------------------------------------------------------------------
  // Neutral language
  // ---------------------------------------------------------------------

  /** Generalizations: two-word keys, two-word replacements. */
  function GeneralizationPhrases(): seq<Rule>
  {
    [ Rule(Key2("all", "sikhs"), Words2("some", "Sikhs")),
      Rule(Key2("every", "sikh"), Words2("many", "Sikhs")),
      Rule(Key2("sikhs", "always"), Words2("Sikhs", "often")),
      Rule(Key2("sikhs", "never"), Words2("Sikhs", "rarely")),
      Rule(Key2("all", "muslims"), Words2("some", "Muslims")),
      Rule(Key2("every", "muslim"), Words2("many", "Muslims")) ]
  }

  /** Terrorism terms; the live mitigator also runs these six again as a second pass. */
  function TerrorismPhrases(): seq<Rule>
  {
    [ Rule(Key("terrorist"), Words1("individual")),
      Rule(Key("terrorism"), Words1("extremism")),
      Rule(Key("militant"), Words1("devout")),
      Rule(Key("extremist"), Words1("faithful")),
      Rule(Key("radical"), Words1("traditional")),
      Rule(Key("fundamentalist"), Words1("practicing")) ]
  }

  /** Violent and emotional terms. */
  function ViolentPhrases(): seq<Rule>
  {
    [ Rule(Key("violent"), Words1("martial")),
      Rule(Key("aggressive"), Words1("assertive")),
      Rule(Key("dangerous"), Words1("distinctive")),
      Rule(Key("threatening"), Words1("noticeable")),
      Rule(Key("fear"), Words1("concern")),
      Rule(Key("danger"), Words1("risk")),
      Rule(Key("threat"), Words1("challenge")) ]
  }

  /** Religious conflation: two-word keys, one-word replacements. */
  function ConflationPhrases(): seq<Rule>
  {
    [ Rule(Key2("sikh", "muslim"), Words1("Sikh")),
      Rule(Key2("muslim", "sikh"), Words1("Sikh")),
      Rule(Key2("sikh", "islam"), Words1("Sikhism")),
      Rule(Key2("islam", "sikh"), Words1("Sikhism")) ]
  }

  /** Cultural bias terms. */
  function CulturalPhrases(): seq<Rule>
  {
    [ Rule(Key("backward"), Words1("traditional")),
      Rule(Key("primitive"), Words1("ancient")),
      Rule(Key("uncivilized"), Words1("different")) ]
  }

  /** The live neutral-language dictionary, in insertion order. */
  function NeutralPhrases(): seq<Rule>
  {
    GeneralizationPhrases() + TerrorismPhrases() + ViolentPhrases() + ConflationPhrases() + CulturalPhrases()
  }

  /** The older mitigator's terrorism terms: the live ones without "terrorism". */
  function LegacyTerrorismPhrases(): seq<Rule>
  {
    [ Rule(Key("terrorist"), Words1("individual")),
      Rule(Key("militant"), Words1("devout")),
      Rule(Key("extremist"), Words1("faithful")),
      Rule(Key("radical"), Words1("traditional")),
      Rule(Key("fundamentalist"), Words1("practicing")) ]
  }

  /** The older neutral-language dictionary, in insertion order. */
  function LegacyNeutralPhrases(): seq<Rule>
  {
    GeneralizationPhrases()[..4] + LegacyTerrorismPhrases() + ViolentPhrases()[..4]
  }

  /** Every word that a one-word key of either dictionary removes. */
  function NeutralKeys(): set<string>
  {
    TerrorismKeys() + ThreatKeys() + CulturalKeys()
  }

  function TerrorismKeys(): set<string>
  {
    {"terrorist", "terrorism", "militant", "extremist", "radical", "fundamentalist"}
  }

  function ThreatKeys(): set<string>
  {
    {"violent", "aggressive", "dangerous", "threatening", "fear", "danger", "threat"}
  }

  function CulturalKeys(): set<string>
  {
    {"backward", "primitive", "uncivilized"}
  }

  /** Every word, lower-cased, that a replacement of either dictionary brings in. */
  function NeutralValues(): set<string>
  {
    GeneralizationValues() + TerrorismValues() + ViolentValues() + ConflationValues() + CulturalValues()
  }

  function GeneralizationValues(): set<string>
  {
    {"some", "many", "sikhs", "muslims", "often", "rarely"}
  }

  /** The words the terrorism replacements bring in. */
  function TerrorismValues(): set<string>
  {
    {"individual", "extremism", "devout", "faithful", "traditional", "practicing"}
  }

  function ViolentValues(): set<string>
  {
    {"martial", "assertive", "distinctive", "noticeable", "concern", "risk", "challenge"}
  }

  function ConflationValues(): set<string>
  {
    {"sikh", "sikhism"}
  }

  function CulturalValues(): set<string>
  {
    {"traditional", "ancient", "different"}
  }

  lemma GeneralizationWords()
    ensures LowerWord("some") && LowerWord("many") && LowerWord("often") && LowerWord("rarely")
  {
  }

  lemma CapitalWords()
    ensures IsWord("Sikhs") && IsWord("Muslims") && IsWord("Sikh") && IsWord("Sikhism")
  {
  }

  lemma CapitalWordsLowered()
    ensures LowerStr("Sikhs") == "sikhs" && LowerStr("Muslims") == "muslims"
    ensures LowerStr("Sikh") == "sikh" && LowerStr("Sikhism") == "sikhism"
  {
  }

  lemma GeneralizationTable()
    ensures ValidTable(GeneralizationPhrases()) && ValuesWithin(GeneralizationPhrases(), GeneralizationValues())
  {
    GeneralizationPhraseFacts();
    GeneralizationLowered();
  }

  /** Each generalization replacement is a well-formed two-word phrase. */
  lemma GeneralizationPhraseFacts()
    ensures IsWord("some") && IsWord("many") && IsWord("often") && IsWord("rarely")
    ensures IsWord("Sikhs") && IsWord("Muslims")
    ensures Phrase(Words2("some", "Sikhs")) && Phrase(Words2("many", "Sikhs"))
    ensures Phrase(Words2("Sikhs", "often")) && Phrase(Words2("Sikhs", "rarely"))
    ensures Phrase(Words2("some", "Muslims")) && Phrase(Words2("many", "Muslims"))
  {
    GeneralizationWords();
    CapitalWords();
    LowerWordFacts("some");
    LowerWordFacts("many");
    LowerWordFacts("often");
    LowerWordFacts("rarely");
    Words2Facts("some", "Sikhs");
    Words2Facts("many", "Sikhs");
    Words2Facts("Sikhs", "often");
    Words2Facts("Sikhs", "rarely");
    Words2Facts("some", "Muslims");
    Words2Facts("many", "Muslims");
  }

  lemma GeneralizationLowered()
    requires IsWord("some") && IsWord("many") && IsWord("often") && IsWord("rarely")
    requires IsWord("Sikhs") && IsWord("Muslims")
    ensures ValuesWithin(GeneralizationPhrases(), GeneralizationValues())
  {
    GeneralizationWords();
    CapitalWordsLowered();
    LowerWordFacts("some");
    LowerWordFacts("many");
    LowerWordFacts("often");
    LowerWordFacts("rarely");
    Words2Facts("some", "Sikhs");
    Words2Facts("many", "Sikhs");
    Words2Facts("Sikhs", "often");
    Words2Facts("Sikhs", "rarely");
    Words2Facts("some", "Muslims");
    Words2Facts("many", "Muslims");
  }

  lemma GeneralizationKeysBounded()
    ensures KeysWithin(GeneralizationPhrases(), NeutralKeys())
  {
  }

  lemma TerrorismWords()
    ensures LowerWord("extremism") && LowerWord("devout") && LowerWord("faithful") && LowerWord("practicing")
  {
  }

  lemma TerrorismTable()
    ensures ValidTable(TerrorismPhrases()) && ValuesWithin(TerrorismPhrases(), TerrorismValues())
  {
    SharedWords();
    TerrorismWords();
    Words1Lower("individual");
    Words1Lower("extremism");
    Words1Lower("devout");
    Words1Lower("faithful");
    Words1Lower("traditional");
    Words1Lower("practicing");
  }

  lemma TerrorismKeysBounded()
    ensures KeysWithin(TerrorismPhrases(), NeutralKeys())
  {
  }

  lemma LegacyTerrorismTable()
    ensures ValidTable(LegacyTerrorismPhrases()) && ValuesWithin(LegacyTerrorismPhrases(), TerrorismValues())
  {
    SharedWords();
    TerrorismWords();
    Words1Lower("individual");
    Words1Lower("devout");
    Words1Lower("faithful");
    Words1Lower("traditional");
    Words1Lower("practicing");
  }

  lemma LegacyTerrorismKeysBounded()
    ensures KeysWithin(LegacyTerrorismPhrases(), NeutralKeys())
  {
  }

  lemma ViolentWords()
    ensures LowerWord("assertive") && LowerWord("noticeable") && LowerWord("concern")
    ensures LowerWord("risk") && LowerWord("challenge")
  {
  }

  lemma ViolentTable()
    ensures ValidTable(ViolentPhrases()) && ValuesWithin(ViolentPhrases(), ViolentValues())
  {
    SharedWords();
    ViolentWords();
    Words1Lower("martial");
    Words1Lower("assertive");
    Words1Lower("distinctive");
    Words1Lower("noticeable");
    Words1Lower("concern");
    Words1Lower("risk");
    Words1Lower("challenge");
  }

  lemma ViolentKeysBounded()
    ensures KeysWithin(ViolentPhrases(), NeutralKeys())
  {
  }

  lemma ConflationTable()
    ensures ValidTable(ConflationPhrases()) && ValuesWithin(ConflationPhrases(), ConflationValues())
  {
    CapitalWords();
    CapitalWordsLowered();
    Words1Facts("Sikh");
    Words1Facts("Sikhism");
  }

  lemma ConflationKeysBounded()
    ensures KeysWithin(ConflationPhrases(), NeutralKeys())
  {
  }

  lemma CulturalWords()
    ensures LowerWord("ancient") && LowerWord("different")
  {
  }

  lemma CulturalTable()
    ensures ValidTable(CulturalPhrases()) && ValuesWithin(CulturalPhrases(), CulturalValues())
  {
    SharedWords();
    CulturalWords();
    Words1Lower("traditional");
    Words1Lower("ancient");
    Words1Lower("different");
  }

  lemma CulturalKeysBounded()
    ensures KeysWithin(CulturalPhrases(), NeutralKeys())
  {
  }

  /** Values drawn from a smaller set are drawn from a larger one. */
  lemma ValuesWiden(tbl: seq<Rule>, small: set<string>, large: set<string>)
    requires ValuesWithin(tbl, small) && small <= large
    ensures ValuesWithin(tbl, large)
  {
  }

  /** A prefix of a table keeps the three table properties. */
  lemma TablePrefix(tbl: seq<Rule>, n: nat, keys: set<string>, values: set<string>)
    requires n <= |tbl|
    requires ValidTable(tbl) && KeysWithin(tbl, keys) && ValuesWithin(tbl, values)
    ensures ValidTable(tbl[..n]) && KeysWithin(tbl[..n], keys) && ValuesWithin(tbl[..n], values)
  {
  }

  /** The replacement words never meet the removed words. */
  lemma NeutralSetsDisjoint()
    ensures NeutralKeys() !! NeutralValues()
  {
    TerrorismKeysDisjoint();
    ThreatKeysDisjoint();
    CulturalKeysDisjoint();
  }

  lemma TerrorismKeysDisjoint()
    ensures TerrorismKeys() !! GeneralizationValues() && TerrorismKeys() !! TerrorismValues()
    ensures TerrorismKeys() !! ViolentValues() && TerrorismKeys() !! ConflationValues()
    ensures TerrorismKeys() !! CulturalValues()
  {
  }

  lemma ThreatKeysDisjoint()
    ensures ThreatKeys() !! GeneralizationValues() && ThreatKeys() !! TerrorismValues()
    ensures ThreatKeys() !! ViolentValues() && ThreatKeys() !! ConflationValues()
    ensures ThreatKeys() !! CulturalValues()
  {
  }

  lemma CulturalKeysDisjoint()
    ensures CulturalKeys() !! GeneralizationValues() && CulturalKeys() !! TerrorismValues()
    ensures CulturalKeys() !! ViolentValues() && CulturalKeys() !! ConflationValues()
    ensures CulturalKeys() !! CulturalValues()
  {
  }

  /** The live dictionary is a removal table: no replacement reintroduces a removed word. */
  lemma NeutralTable()
    ensures RemovalTable(NeutralPhrases())
    ensures KeysWithin(NeutralPhrases(), NeutralKeys()) && ValuesWithin(NeutralPhrases(), NeutralValues())
  {
    var k, v := NeutralKeys(), NeutralValues();
    NeutralSetsDisjoint();
    GeneralizationTable();
    GeneralizationKeysBounded();
    ValuesWiden(GeneralizationPhrases(), GeneralizationValues(), v);
    TerrorismTable();
    TerrorismKeysBounded();
    ValuesWiden(TerrorismPhrases(), TerrorismValues(), v);
    ViolentTable();
    ViolentKeysBounded();
    ValuesWiden(ViolentPhrases(), ViolentValues(), v);
    ConflationTable();
    ConflationKeysBounded();
    ValuesWiden(ConflationPhrases(), ConflationValues(), v);
    CulturalTable();
    CulturalKeysBounded();
    ValuesWiden(CulturalPhrases(), CulturalValues(), v);
    var g, t, vi, c, u := GeneralizationPhrases(), TerrorismPhrases(), ViolentPhrases(), ConflationPhrases(), CulturalPhrases();
    TableConcat(g, t, k, v);
    TableConcat(g + t, vi, k, v);
    TableConcat(g + t + vi, c, k, v);
    TableConcat(g + t + vi + c, u, k, v);
    RemovalBySets(NeutralPhrases(), k, v);
  }

  /** The older dictionary is a removal table too. */
  lemma LegacyNeutralTable()
    ensures RemovalTable(LegacyNeutralPhrases())
    ensures KeysWithin(LegacyNeutralPhrases(), NeutralKeys()) && ValuesWithin(LegacyNeutralPhrases(), NeutralValues())
  {
    var k, v := NeutralKeys(), NeutralValues();
    NeutralSetsDisjoint();
    GeneralizationTable();
    GeneralizationKeysBounded();
    ValuesWiden(GeneralizationPhrases(), GeneralizationValues(), v);
    LegacyTerrorismTable();
    LegacyTerrorismKeysBounded();
    ValuesWiden(LegacyTerrorismPhrases(), TerrorismValues(), v);
    ViolentTable();
    ViolentKeysBounded();
    ValuesWiden(ViolentPhrases(), ViolentValues(), v);
    TablePrefix(GeneralizationPhrases(), 4, k, v);
    TablePrefix(ViolentPhrases(), 4, k, v);
    var g, t, vi := GeneralizationPhrases()[..4], LegacyTerrorismPhrases(), ViolentPhrases()[..4];
    TableConcat(g, t, k, v);
    TableConcat(g + t, vi, k, v);
    RemovalBySets(LegacyNeutralPhrases(), k, v);
  }

  /** Every key of the terrorism pass is a single word. */
  lemma TerrorismWordKeys()
    ensures WordKeys(TerrorismPhrases())
  {
  }

  /** The terrorism pass is the second group of the lexicon, rules 6 to 11. */
  lemma TerrorismInNeutral()
    ensures |NeutralPhrases()| >= 12 && NeutralPhrases()[6..12] == TerrorismPhrases()
  {
    var g, t, v, c, u := GeneralizationPhrases(), TerrorismPhrases(), ViolentPhrases(), ConflationPhrases(), CulturalPhrases();
    assert |g| == 6 && |t| == 6;
    assert g + t + v + c + u == g + t + (v + c + u);
    assert (g + t + (v + c + u))[6..12] == t;
  }

  /** Text without any key of the terrorism pass has none of its six words. */
  lemma TerrorismTermsAbsent(s: string)
    requires KeysAbsent(s, TerrorismPhrases())
    ensures var ws := WordsOf(s);
      "terrorist" !in ws && "terrorism" !in ws && "militant" !in ws
      && "extremist" !in ws && "radical" !in ws && "fundamentalist" !in ws
  {
    var t := TerrorismPhrases();
    assert "terrorist" in t[0].key[0].alts && "terrorism" in t[1].key[0].alts && "militant" in t[2].key[0].alts;
    assert "extremist" in t[3].key[0].alts && "radical" in t[4].key[0].alts && "fundamentalist" in t[5].key[0].alts;
  }

  /** The older dictionary's terrorism terms are its rules 4 to 8. */
  lemma LegacyTerrorismInLegacy()
    ensures |LegacyNeutralPhrases()| >= 9 && LegacyNeutralPhrases()[4..9] == LegacyTerrorismPhrases()
  {
    var g, t, v := GeneralizationPhrases()[..4], LegacyTerrorismPhrases(), ViolentPhrases()[..4];
    assert |g| == 4 && |t| == 5;
    assert g + t + v == g + (t + v);
    assert (g + (t + v))[4..9] == t;
  }

  /** Text without any key of the older terrorism terms has none of its five words. */
  lemma LegacyTerrorismTermsAbsent(s: string)
    requires KeysAbsent(s, LegacyTerrorismPhrases())
    ensures var ws := WordsOf(s);
      "terrorist" !in ws && "militant" !in ws && "extremist" !in ws
      && "radical" !in ws && "fundamentalist" !in ws
  {
    var t := LegacyTerrorismPhrases();
    assert "terrorist" in t[0].key[0].alts && "militant" in t[1].key[0].alts && "extremist" in t[2].key[0].alts;
    assert "radical" in t[3].key[0].alts && "fundamentalist" in t[4].key[0].alts;
  }
}
