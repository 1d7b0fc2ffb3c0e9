/**
 * The worked example of `analyzeIngredientSafety`: the tokens
 * `["Water", "Glycerin", "Methylparaben"]` checked against every key of
 * both fixed tables, one key at a time.
 */
module SafetyExample {
  import opened Text
  import opened Collections
  import opened SafetyScorer

  /** The example's tokens, lower-cased. */
  const Tokens: seq<string> := ["water", "glycerin", "methylparaben"]

  /** A key none of three tokens includes is not mentioned by them. */
  lemma NotMentioned(a: string, b: string, c: string, key: string)
    requires !Includes(a, key) && !Includes(b, key) && !Includes(c, key)
    ensures !Mentions([a, b, c], key)
  {
    forall i | 0 <= i < 3 ensures !Includes([a, b, c][i], key) {
      if i == 0 {} else if i == 1 {} else {}
    }
  }

  /** "bht" does not occur in "methylparaben". */
  lemma MethylparabenLacksBht()
    ensures !Includes("methylparaben", "bht")
  {
    IncludesNeedsCharsAt("methylparaben", "bht", 1, 0, 2);
  }

  /** "bha" does not occur in "methylparaben". */
  lemma MethylparabenLacksBha()
    ensures !Includes("methylparaben", "bha")
  {
    IncludesNeedsCharsAt("methylparaben", "bha", 3, 0, 1);
  }

  // Which keys the example's tokens mention, key by key.

  lemma LacksSodiumLaurylSulfate()
    ensures !Mentions(Tokens, "sodium lauryl sulfate")
  {
    IncludesTooLong("water", "sodium lauryl sulfate");
    IncludesTooLong("glycerin", "sodium lauryl sulfate");
    IncludesTooLong("methylparaben", "sodium lauryl sulfate");
    NotMentioned("water", "glycerin", "methylparaben", "sodium lauryl sulfate");
  }

  lemma LacksSodiumLaurethSulfate()
    ensures !Mentions(Tokens, "sodium laureth sulfate")
  {
    IncludesTooLong("water", "sodium laureth sulfate");
    IncludesTooLong("glycerin", "sodium laureth sulfate");
    IncludesTooLong("methylparaben", "sodium laureth sulfate");
    NotMentioned("water", "glycerin", "methylparaben", "sodium laureth sulfate");
  }

  lemma HasMethylparaben()
    ensures Mentions(Tokens, "methylparaben")
  {
    IncludesAt("methylparaben", "methylparaben", 0);
    assert Includes(Tokens[2], "methylparaben");
  }

  lemma LacksPropylparaben()
    ensures !Mentions(Tokens, "propylparaben")
  {
    IncludesTooLong("water", "propylparaben");
    IncludesTooLong("glycerin", "propylparaben");
    IncludesNeedsCharAt("methylparaben", "propylparaben", 0);
    NotMentioned("water", "glycerin", "methylparaben", "propylparaben");
  }

  lemma LacksButylparaben()
    ensures !Mentions(Tokens, "butylparaben")
  {
    IncludesTooLong("water", "butylparaben");
    IncludesTooLong("glycerin", "butylparaben");
    IncludesNeedsCharAt("methylparaben", "butylparaben", 0);
    NotMentioned("water", "glycerin", "methylparaben", "butylparaben");
  }

  lemma HasEthylparaben()
    ensures Mentions(Tokens, "ethylparaben")
  {
    IncludesAt("methylparaben", "ethylparaben", 1);
    assert Includes(Tokens[2], "ethylparaben");
  }

  lemma LacksFragrance()
    ensures !Mentions(Tokens, "fragrance")
  {
    IncludesTooLong("water", "fragrance");
    IncludesTooLong("glycerin", "fragrance");
    IncludesNeedsCharAt("methylparaben", "fragrance", 0);
    NotMentioned("water", "glycerin", "methylparaben", "fragrance");
  }

  lemma LacksParfum()
    ensures !Mentions(Tokens, "parfum")
  {
    IncludesTooLong("water", "parfum");
    IncludesNeedsCharAt("glycerin", "parfum", 0);
    IncludesNeedsCharAt("methylparaben", "parfum", 3);
    NotMentioned("water", "glycerin", "methylparaben", "parfum");
  }

  lemma LacksFormaldehyde()
    ensures !Mentions(Tokens, "formaldehyde")
  {
    IncludesTooLong("water", "formaldehyde");
    IncludesTooLong("glycerin", "formaldehyde");
    IncludesNeedsCharAt("methylparaben", "formaldehyde", 0);
    NotMentioned("water", "glycerin", "methylparaben", "formaldehyde");
  }

  lemma LacksPhthalate()
    ensures !Mentions(Tokens, "phthalate")
  {
    IncludesTooLong("water", "phthalate");
    IncludesTooLong("glycerin", "phthalate");
    IncludesNeedsCharAt("methylparaben", "phthalate", 0);
    NotMentioned("water", "glycerin", "methylparaben", "phthalate");
  }

  lemma LacksTriclosan()
    ensures !Mentions(Tokens, "triclosan")
  {
    IncludesTooLong("water", "triclosan");
    IncludesTooLong("glycerin", "triclosan");
    IncludesNeedsCharAt("methylparaben", "triclosan", 1);
    NotMentioned("water", "glycerin", "methylparaben", "triclosan");
  }

  lemma LacksToluene()
    ensures !Mentions(Tokens, "toluene")
  {
    IncludesTooLong("water", "toluene");
    IncludesNeedsCharAt("glycerin", "toluene", 0);
    IncludesNeedsCharAt("methylparaben", "toluene", 1);
    NotMentioned("water", "glycerin", "methylparaben", "toluene");
  }

  lemma LacksResorcinol()
    ensures !Mentions(Tokens, "resorcinol")
  {
    IncludesTooLong("water", "resorcinol");
    IncludesTooLong("glycerin", "resorcinol");
    IncludesNeedsCharAt("methylparaben", "resorcinol", 0);
    NotMentioned("water", "glycerin", "methylparaben", "resorcinol");
  }

  lemma LacksHydroquinone()
    ensures !Mentions(Tokens, "hydroquinone")
  {
    IncludesTooLong("water", "hydroquinone");
    IncludesTooLong("glycerin", "hydroquinone");
    IncludesNeedsCharAt("methylparaben", "hydroquinone", 0);
    NotMentioned("water", "glycerin", "methylparaben", "hydroquinone");
  }

  lemma LacksBht()
    ensures !Mentions(Tokens, "bht")
  {
    IncludesNeedsCharAt("water", "bht", 0);
    IncludesNeedsCharAt("glycerin", "bht", 0);
    MethylparabenLacksBht();
    NotMentioned("water", "glycerin", "methylparaben", "bht");
  }

  lemma LacksBha()
    ensures !Mentions(Tokens, "bha")
  {
    IncludesNeedsCharAt("water", "bha", 0);
    IncludesNeedsCharAt("glycerin", "bha", 0);
    MethylparabenLacksBha();
    NotMentioned("water", "glycerin", "methylparaben", "bha");
  }

  lemma LacksPolyethylene()
    ensures !Mentions(Tokens, "polyethylene")
  {
    IncludesTooLong("water", "polyethylene");
    IncludesTooLong("glycerin", "polyethylene");
    IncludesNeedsCharAt("methylparaben", "polyethylene", 0);
    NotMentioned("water", "glycerin", "methylparaben", "polyethylene");
  }

  lemma LacksOxybenzone()
    ensures !Mentions(Tokens, "oxybenzone")
  {
    IncludesTooLong("water", "oxybenzone");
    IncludesTooLong("glycerin", "oxybenzone");
    IncludesNeedsCharAt("methylparaben", "oxybenzone", 0);
    NotMentioned("water", "glycerin", "methylparaben", "oxybenzone");
  }

  lemma LacksOctinoxate()
    ensures !Mentions(Tokens, "octinoxate")
  {
    IncludesTooLong("water", "octinoxate");
    IncludesTooLong("glycerin", "octinoxate");
    IncludesNeedsCharAt("methylparaben", "octinoxate", 0);
    NotMentioned("water", "glycerin", "methylparaben", "octinoxate");
  }

  lemma LacksDmdmHydantoin()
    ensures !Mentions(Tokens, "dmdm hydantoin")
  {
    IncludesTooLong("water", "dmdm hydantoin");
    IncludesTooLong("glycerin", "dmdm hydantoin");
    IncludesTooLong("methylparaben", "dmdm hydantoin");
    NotMentioned("water", "glycerin", "methylparaben", "dmdm hydantoin");
  }

  lemma LacksImidazolidinylUrea()
    ensures !Mentions(Tokens, "imidazolidinyl urea")
  {
    IncludesTooLong("water", "imidazolidinyl urea");
    IncludesTooLong("glycerin", "imidazolidinyl urea");
    IncludesTooLong("methylparaben", "imidazolidinyl urea");
    NotMentioned("water", "glycerin", "methylparaben", "imidazolidinyl urea");
  }

  lemma LacksDiazolidinylUrea()
    ensures !Mentions(Tokens, "diazolidinyl urea")
  {
    IncludesTooLong("water", "diazolidinyl urea");
    IncludesTooLong("glycerin", "diazolidinyl urea");
    IncludesTooLong("methylparaben", "diazolidinyl urea");
    NotMentioned("water", "glycerin", "methylparaben", "diazolidinyl urea");
  }

  lemma LacksQuaternium15()
    ensures !Mentions(Tokens, "quaternium-15")
  {
    IncludesTooLong("water", "quaternium-15");
    IncludesTooLong("glycerin", "quaternium-15");
    IncludesNeedsCharAt("methylparaben", "quaternium-15", 0);
    NotMentioned("water", "glycerin", "methylparaben", "quaternium-15");
  }

  lemma LacksBronopol()
    ensures !Mentions(Tokens, "bronopol")
  {
    IncludesTooLong("water", "bronopol");
    IncludesNeedsCharAt("glycerin", "bronopol", 0);
    IncludesNeedsCharAt("methylparaben", "bronopol", 0);
    NotMentioned("water", "glycerin", "methylparaben", "bronopol");
  }

  lemma LacksAlcoholDenat()
    ensures !Mentions(Tokens, "alcohol denat")
  {
    IncludesTooLong("water", "alcohol denat");
    IncludesTooLong("glycerin", "alcohol denat");
    IncludesNeedsCharAt("methylparaben", "alcohol denat", 0);
    NotMentioned("water", "glycerin", "methylparaben", "alcohol denat");
  }

  lemma LacksIsopropylAlcohol()
    ensures !Mentions(Tokens, "isopropyl alcohol")
  {
    IncludesTooLong("water", "isopropyl alcohol");
    IncludesTooLong("glycerin", "isopropyl alcohol");
    IncludesTooLong("methylparaben", "isopropyl alcohol");
    NotMentioned("water", "glycerin", "methylparaben", "isopropyl alcohol");
  }

  lemma LacksBenzylAlcohol()
    ensures !Mentions(Tokens, "benzyl alcohol")
  {
    IncludesTooLong("water", "benzyl alcohol");
    IncludesTooLong("glycerin", "benzyl alcohol");
    IncludesTooLong("methylparaben", "benzyl alcohol");
    NotMentioned("water", "glycerin", "methylparaben", "benzyl alcohol");
  }

  lemma HasGlycerin()
    ensures Mentions(Tokens, "glycerin")
  {
    IncludesAt("glycerin", "glycerin", 0);
    assert Includes(Tokens[1], "glycerin");
  }

  lemma LacksHyaluronicAcid()
    ensures !Mentions(Tokens, "hyaluronic acid")
  {
    IncludesTooLong("water", "hyaluronic acid");
    IncludesTooLong("glycerin", "hyaluronic acid");
    IncludesTooLong("methylparaben", "hyaluronic acid");
    NotMentioned("water", "glycerin", "methylparaben", "hyaluronic acid");
  }

  lemma LacksSodiumHyaluronate()
    ensures !Mentions(Tokens, "sodium hyaluronate")
  {
    IncludesTooLong("water", "sodium hyaluronate");
    IncludesTooLong("glycerin", "sodium hyaluronate");
    IncludesTooLong("methylparaben", "sodium hyaluronate");
    NotMentioned("water", "glycerin", "methylparaben", "sodium hyaluronate");
  }

  lemma LacksCeramide()
    ensures !Mentions(Tokens, "ceramide")
  {
    IncludesTooLong("water", "ceramide");
    IncludesNeedsCharAt("glycerin", "ceramide", 0);
    IncludesNeedsCharAt("methylparaben", "ceramide", 0);
    NotMentioned("water", "glycerin", "methylparaben", "ceramide");
  }

  lemma LacksNiacinamide()
    ensures !Mentions(Tokens, "niacinamide")
  {
    IncludesTooLong("water", "niacinamide");
    IncludesTooLong("glycerin", "niacinamide");
    IncludesNeedsCharAt("methylparaben", "niacinamide", 0);
    NotMentioned("water", "glycerin", "methylparaben", "niacinamide");
  }

  lemma LacksPanthenol()
    ensures !Mentions(Tokens, "panthenol")
  {
    IncludesTooLong("water", "panthenol");
    IncludesTooLong("glycerin", "panthenol");
    IncludesNeedsCharAt("methylparaben", "panthenol", 0);
    NotMentioned("water", "glycerin", "methylparaben", "panthenol");
  }

  lemma LacksAllantoin()
    ensures !Mentions(Tokens, "allantoin")
  {
    IncludesTooLong("water", "allantoin");
    IncludesTooLong("glycerin", "allantoin");
    IncludesNeedsCharAt("methylparaben", "allantoin", 0);
    NotMentioned("water", "glycerin", "methylparaben", "allantoin");
  }

  lemma LacksAloeVera()
    ensures !Mentions(Tokens, "aloe vera")
  {
    IncludesTooLong("water", "aloe vera");
    IncludesTooLong("glycerin", "aloe vera");
    IncludesNeedsCharAt("methylparaben", "aloe vera", 0);
    NotMentioned("water", "glycerin", "methylparaben", "aloe vera");
  }

  lemma LacksAloeBarbadensis()
    ensures !Mentions(Tokens, "aloe barbadensis")
  {
    IncludesTooLong("water", "aloe barbadensis");
    IncludesTooLong("glycerin", "aloe barbadensis");
    IncludesTooLong("methylparaben", "aloe barbadensis");
    NotMentioned("water", "glycerin", "methylparaben", "aloe barbadensis");
  }

  lemma LacksCentellaAsiatica()
    ensures !Mentions(Tokens, "centella asiatica")
  {
    IncludesTooLong("water", "centella asiatica");
    IncludesTooLong("glycerin", "centella asiatica");
    IncludesTooLong("methylparaben", "centella asiatica");
    NotMentioned("water", "glycerin", "methylparaben", "centella asiatica");
  }

  lemma LacksGreenTea()
    ensures !Mentions(Tokens, "green tea")
  {
    IncludesTooLong("water", "green tea");
    IncludesTooLong("glycerin", "green tea");
    IncludesNeedsCharAt("methylparaben", "green tea", 0);
    NotMentioned("water", "glycerin", "methylparaben", "green tea");
  }

  lemma LacksCamelliaSinensis()
    ensures !Mentions(Tokens, "camellia sinensis")
  {
    IncludesTooLong("water", "camellia sinensis");
    IncludesTooLong("glycerin", "camellia sinensis");
    IncludesTooLong("methylparaben", "camellia sinensis");
    NotMentioned("water", "glycerin", "methylparaben", "camellia sinensis");
  }

  lemma LacksVitaminE()
    ensures !Mentions(Tokens, "vitamin e")
  {
    IncludesTooLong("water", "vitamin e");
    IncludesTooLong("glycerin", "vitamin e");
    IncludesNeedsCharAt("methylparaben", "vitamin e", 0);
    NotMentioned("water", "glycerin", "methylparaben", "vitamin e");
  }

  lemma LacksTocopherol()
    ensures !Mentions(Tokens, "tocopherol")
  {
    IncludesTooLong("water", "tocopherol");
    IncludesTooLong("glycerin", "tocopherol");
    IncludesNeedsCharAt("methylparaben", "tocopherol", 1);
    NotMentioned("water", "glycerin", "methylparaben", "tocopherol");
  }

  lemma LacksVitaminC()
    ensures !Mentions(Tokens, "vitamin c")
  {
    IncludesTooLong("water", "vitamin c");
    IncludesTooLong("glycerin", "vitamin c");
    IncludesNeedsCharAt("methylparaben", "vitamin c", 0);
    NotMentioned("water", "glycerin", "methylparaben", "vitamin c");
  }

  lemma LacksAscorbicAcid()
    ensures !Mentions(Tokens, "ascorbic acid")
  {
    IncludesTooLong("water", "ascorbic acid");
    IncludesTooLong("glycerin", "ascorbic acid");
    IncludesNeedsCharAt("methylparaben", "ascorbic acid", 0);
    NotMentioned("water", "glycerin", "methylparaben", "ascorbic acid");
  }

  lemma LacksSqualane()
    ensures !Mentions(Tokens, "squalane")
  {
    IncludesTooLong("water", "squalane");
    IncludesNeedsCharAt("glycerin", "squalane", 0);
    IncludesNeedsCharAt("methylparaben", "squalane", 0);
    NotMentioned("water", "glycerin", "methylparaben", "squalane");
  }

  lemma LacksJojobaOil()
    ensures !Mentions(Tokens, "jojoba oil")
  {
    IncludesTooLong("water", "jojoba oil");
    IncludesTooLong("glycerin", "jojoba oil");
    IncludesNeedsCharAt("methylparaben", "jojoba oil", 0);
    NotMentioned("water", "glycerin", "methylparaben", "jojoba oil");
  }

  lemma LacksArganOil()
    ensures !Mentions(Tokens, "argan oil")
  {
    IncludesTooLong("water", "argan oil");
    IncludesTooLong("glycerin", "argan oil");
    IncludesNeedsCharAt("methylparaben", "argan oil", 0);
    NotMentioned("water", "glycerin", "methylparaben", "argan oil");
  }

  lemma LacksSheaButter()
    ensures !Mentions(Tokens, "shea butter")
  {
    IncludesTooLong("water", "shea butter");
    IncludesTooLong("glycerin", "shea butter");
    IncludesNeedsCharAt("methylparaben", "shea butter", 0);
    NotMentioned("water", "glycerin", "methylparaben", "shea butter");
  }

  lemma LacksColloidalOatmeal()
    ensures !Mentions(Tokens, "colloidal oatmeal")
  {
    IncludesTooLong("water", "colloidal oatmeal");
    IncludesTooLong("glycerin", "colloidal oatmeal");
    IncludesTooLong("methylparaben", "colloidal oatmeal");
    NotMentioned("water", "glycerin", "methylparaben", "colloidal oatmeal");
  }

  lemma LacksZincOxide()
    ensures !Mentions(Tokens, "zinc oxide")
  {
    IncludesTooLong("water", "zinc oxide");
    IncludesTooLong("glycerin", "zinc oxide");
    IncludesNeedsCharAt("methylparaben", "zinc oxide", 0);
    NotMentioned("water", "glycerin", "methylparaben", "zinc oxide");
  }

  lemma LacksTitaniumDioxide()
    ensures !Mentions(Tokens, "titanium dioxide")
  {
    IncludesTooLong("water", "titanium dioxide");
    IncludesTooLong("glycerin", "titanium dioxide");
    IncludesTooLong("methylparaben", "titanium dioxide");
    NotMentioned("water", "glycerin", "methylparaben", "titanium dioxide");
  }

  lemma LacksBisabolol()
    ensures !Mentions(Tokens, "bisabolol")
  {
    IncludesTooLong("water", "bisabolol");
    IncludesTooLong("glycerin", "bisabolol");
    IncludesNeedsCharAt("methylparaben", "bisabolol", 0);
    NotMentioned("water", "glycerin", "methylparaben", "bisabolol");
  }

  /** Row `k` of the concerning table is found exactly for the two paraben keys. */
  lemma ConcernRow(k: nat)
    requires k < |ConcernKeysInOrder|
    ensures Mentions(Tokens, ConcernKeysInOrder[k]) <==> k == 2 || k == 5
  {
    if k < 7 {
      ConcernRowsA(k);
    } else if k < 14 {
      ConcernRowsB(k);
    } else if k < 21 {
      ConcernRowsC(k);
    } else {
      ConcernRowsD(k);
    }
  }

  lemma ConcernRowsA(k: nat)
    requires 0 <= k < 7 <= |ConcernKeysInOrder|
    ensures Mentions(Tokens, ConcernKeysInOrder[k]) <==> k == 2 || k == 5
  {
    if k == 0 {
      assert ConcernKeysInOrder[0] == "sodium lauryl sulfate";
      LacksSodiumLaurylSulfate();
    } else if k == 1 {
      assert ConcernKeysInOrder[1] == "sodium laureth sulfate";
      LacksSodiumLaurethSulfate();
    } else if k == 2 {
      assert ConcernKeysInOrder[2] == "methylparaben";
      HasMethylparaben();
    } else if k == 3 {
      assert ConcernKeysInOrder[3] == "propylparaben";
      LacksPropylparaben();
    } else if k == 4 {
      assert ConcernKeysInOrder[4] == "butylparaben";
      LacksButylparaben();
    } else if k == 5 {
      assert ConcernKeysInOrder[5] == "ethylparaben";
      HasEthylparaben();
    } else {
      assert ConcernKeysInOrder[6] == "fragrance";
      LacksFragrance();
    }
  }

  lemma ConcernRowsB(k: nat)
    requires 7 <= k < 14 <= |ConcernKeysInOrder|
    ensures Mentions(Tokens, ConcernKeysInOrder[k]) <==> k == 2 || k == 5
  {
    if k == 7 {
      assert ConcernKeysInOrder[7] == "parfum";
      LacksParfum();
    } else if k == 8 {
      assert ConcernKeysInOrder[8] == "formaldehyde";
      LacksFormaldehyde();
    } else if k == 9 {
      assert ConcernKeysInOrder[9] == "phthalate";
      LacksPhthalate();
    } else if k == 10 {
      assert ConcernKeysInOrder[10] == "triclosan";
      LacksTriclosan();
    } else if k == 11 {
      assert ConcernKeysInOrder[11] == "toluene";
      LacksToluene();
    } else if k == 12 {
      assert ConcernKeysInOrder[12] == "resorcinol";
      LacksResorcinol();
    } else {
      assert ConcernKeysInOrder[13] == "hydroquinone";
      LacksHydroquinone();
    }
  }

  lemma ConcernRowsC(k: nat)
    requires 14 <= k < 21 <= |ConcernKeysInOrder|
    ensures Mentions(Tokens, ConcernKeysInOrder[k]) <==> k == 2 || k == 5
  {
    if k == 14 {
      assert ConcernKeysInOrder[14] == "bht";
      LacksBht();
    } else if k == 15 {
      assert ConcernKeysInOrder[15] == "bha";
      LacksBha();
    } else if k == 16 {
      assert ConcernKeysInOrder[16] == "polyethylene";
      LacksPolyethylene();
    } else if k == 17 {
      assert ConcernKeysInOrder[17] == "oxybenzone";
      LacksOxybenzone();
    } else if k == 18 {
      assert ConcernKeysInOrder[18] == "octinoxate";
      LacksOctinoxate();
    } else if k == 19 {
      assert ConcernKeysInOrder[19] == "dmdm hydantoin";
      LacksDmdmHydantoin();
    } else {
      assert ConcernKeysInOrder[20] == "imidazolidinyl urea";
      LacksImidazolidinylUrea();
    }
  }

  lemma ConcernRowsD(k: nat)
    requires 21 <= k < 27 <= |ConcernKeysInOrder|
    ensures Mentions(Tokens, ConcernKeysInOrder[k]) <==> k == 2 || k == 5
  {
    if k == 21 {
      assert ConcernKeysInOrder[21] == "diazolidinyl urea";
      LacksDiazolidinylUrea();
    } else if k == 22 {
      assert ConcernKeysInOrder[22] == "quaternium-15";
      LacksQuaternium15();
    } else if k == 23 {
      assert ConcernKeysInOrder[23] == "bronopol";
      LacksBronopol();
    } else if k == 24 {
      assert ConcernKeysInOrder[24] == "alcohol denat";
      LacksAlcoholDenat();
    } else if k == 25 {
      assert ConcernKeysInOrder[25] == "isopropyl alcohol";
      LacksIsopropylAlcohol();
    } else {
      assert ConcernKeysInOrder[26] == "benzyl alcohol";
      LacksBenzylAlcohol();
    }
  }

  lemma ExampleConcerns()
    ensures FoundConcerns(ConcerningIngredients, Tokens) == [ConcerningIngredients[2], ConcerningIngredients[5]]
  {
    ConcernKeys();
    var f := ConcernIsMentioned(Tokens);
    forall k | 0 <= k < |ConcerningIngredients| ensures f(ConcerningIngredients[k]) <==> k == 2 || k == 5 {
      ConcernRow(k);
    }
    FilterPair(ConcerningIngredients, f, 2, 5);
  }

  /** Row `k` of the beneficial table is found exactly for glycerin. */
  lemma BeneficialRow(k: nat)
    requires k < |BeneficialIngredients|
    ensures Mentions(Tokens, BeneficialIngredients[k]) <==> k == 0
  {
    if k < 7 {
      BeneficialRowsA(k);
    } else if k < 14 {
      BeneficialRowsB(k);
    } else if k < 21 {
      BeneficialRowsC(k);
    } else {
      BeneficialRowsD(k);
    }
  }

  lemma BeneficialRowsA(k: nat)
    requires 0 <= k < 7 <= |BeneficialIngredients|
    ensures Mentions(Tokens, BeneficialIngredients[k]) <==> k == 0
  {
    if k == 0 {
      assert BeneficialIngredients[0] == "glycerin";
      HasGlycerin();
    } else if k == 1 {
      assert BeneficialIngredients[1] == "hyaluronic acid";
      LacksHyaluronicAcid();
    } else if k == 2 {
      assert BeneficialIngredients[2] == "sodium hyaluronate";
      LacksSodiumHyaluronate();
    } else if k == 3 {
      assert BeneficialIngredients[3] == "ceramide";
      LacksCeramide();
    } else if k == 4 {
      assert BeneficialIngredients[4] == "niacinamide";
      LacksNiacinamide();
    } else if k == 5 {
      assert BeneficialIngredients[5] == "panthenol";
      LacksPanthenol();
    } else {
      assert BeneficialIngredients[6] == "allantoin";
      LacksAllantoin();
    }
  }

  lemma BeneficialRowsB(k: nat)
    requires 7 <= k < 14 <= |BeneficialIngredients|
    ensures Mentions(Tokens, BeneficialIngredients[k]) <==> k == 0
  {
    if k == 7 {
      assert BeneficialIngredients[7] == "aloe vera";
      LacksAloeVera();
    } else if k == 8 {
      assert BeneficialIngredients[8] == "aloe barbadensis";
      LacksAloeBarbadensis();
    } else if k == 9 {
      assert BeneficialIngredients[9] == "centella asiatica";
      LacksCentellaAsiatica();
    } else if k == 10 {
      assert BeneficialIngredients[10] == "green tea";
      LacksGreenTea();
    } else if k == 11 {
      assert BeneficialIngredients[11] == "camellia sinensis";
      LacksCamelliaSinensis();
    } else if k == 12 {
      assert BeneficialIngredients[12] == "vitamin e";
      LacksVitaminE();
    } else {
      assert BeneficialIngredients[13] == "tocopherol";
      LacksTocopherol();
    }
  }

  lemma BeneficialRowsC(k: nat)
    requires 14 <= k < 21 <= |BeneficialIngredients|
    ensures Mentions(Tokens, BeneficialIngredients[k]) <==> k == 0
  {
    if k == 14 {
      assert BeneficialIngredients[14] == "vitamin c";
      LacksVitaminC();
    } else if k == 15 {
      assert BeneficialIngredients[15] == "ascorbic acid";
      LacksAscorbicAcid();
    } else if k == 16 {
      assert BeneficialIngredients[16] == "squalane";
      LacksSqualane();
    } else if k == 17 {
      assert BeneficialIngredients[17] == "jojoba oil";
      LacksJojobaOil();
    } else if k == 18 {
      assert BeneficialIngredients[18] == "argan oil";
      LacksArganOil();
    } else if k == 19 {
      assert BeneficialIngredients[19] == "shea butter";
      LacksSheaButter();
    } else {
      assert BeneficialIngredients[20] == "colloidal oatmeal";
      LacksColloidalOatmeal();
    }
  }

  lemma BeneficialRowsD(k: nat)
    requires 21 <= k < 24 <= |BeneficialIngredients|
    ensures Mentions(Tokens, BeneficialIngredients[k]) <==> k == 0
  {
    if k == 21 {
      assert BeneficialIngredients[21] == "zinc oxide";
      LacksZincOxide();
    } else if k == 22 {
      assert BeneficialIngredients[22] == "titanium dioxide";
      LacksTitaniumDioxide();
    } else {
      assert BeneficialIngredients[23] == "bisabolol";
      LacksBisabolol();
    }
  }

  lemma ExampleBeneficial()
    ensures FoundBeneficial(BeneficialIngredients, Tokens) == [BeneficialIngredients[0]]
  {
    var f := KeyIsMentioned(Tokens);
    forall k | 0 <= k < |BeneficialIngredients| ensures f(BeneficialIngredients[k]) <==> k == 0 {
      BeneficialRow(k);
    }
    FilterSingle(BeneficialIngredients, f, 0);
  }

  lemma ParabenRows()
    ensures ConcerningIngredients[2] == ConcerningIngredient(
      "methylparaben", "Preservative with potential endocrine disruption concerns", Medium)
    ensures ConcerningIngredients[5] == ConcerningIngredient(
      "ethylparaben", "Preservative with potential endocrine disruption concerns", Medium)
  {
  }

  /** What the two table scans find in the lower-cased example tokens. */
  lemma ExampleMatches()
    ensures FoundConcerns(ConcerningIngredients, Tokens) == [
      ConcerningIngredient("methylparaben", "Preservative with potential endocrine disruption concerns", Medium),
      ConcerningIngredient("ethylparaben", "Preservative with potential endocrine disruption concerns", Medium)]
    ensures FoundBeneficial(BeneficialIngredients, Tokens) == ["glycerin"]
  {
    ExampleConcerns();
    ParabenRows();
    ExampleBeneficial();
  }

  /** The example's report, for any tables whose scans find what the fixed tables' scans find. */
  lemma AssessExample(concerning: seq<ConcerningIngredient>, beneficial: seq<string>)
    requires FoundConcerns(concerning, Tokens) == [
      ConcerningIngredient("methylparaben", "Preservative with potential endocrine disruption concerns", Medium),
      ConcerningIngredient("ethylparaben", "Preservative with potential endocrine disruption concerns", Medium)]
    requires FoundBeneficial(beneficial, Tokens) == ["glycerin"]
    ensures Assess(concerning, beneficial, ["Water", "Glycerin", "Methylparaben"]) == SafetyReport(
      62,
      ["Preservative with potential endocrine disruption concerns",
       "Preservative with potential endocrine disruption concerns"],
      ["glycerin"],
      ["methylparaben", "ethylparaben"])
  {
    ExampleLowered();
    var paraben := "Preservative with potential endocrine disruption concerns";
    var found := [ConcerningIngredient("methylparaben", paraben, Medium),
                  ConcerningIngredient("ethylparaben", paraben, Medium)];
    assert TotalPenalty(found[..1]) == 5 by {
      assert found[..1][..0] == [] && found[..1][0] == found[0];
    }
    assert TotalPenalty(found) == 10;
    assert Names(found) == ["methylparaben", "ethylparaben"];
    assert ConcernTexts(found) == [paraben, paraben];
  }

  lemma ExampleLowered()
    ensures LowerAll(["Water", "Glycerin", "Methylparaben"]) == Tokens
  {
    assert Lower("Water") == "water";
    assert Lower("Glycerin") == "glycerin";
    assert Lower("Methylparaben") == "methylparaben";
  }

  /**
   * `["Water", "Glycerin", "Methylparaben"]`: glycerin earns 2 points, and
   * "methylparaben" contains both the key "methylparaben" and the key
   * "ethylparaben", so two medium concerns cost 10: the score is 62.
   */
  lemma SafetyWorkedExample()
    ensures Safety(["Water", "Glycerin", "Methylparaben"]) == SafetyReport(
      62,
      ["Preservative with potential endocrine disruption concerns",
       "Preservative with potential endocrine disruption concerns"],
      ["glycerin"],
      ["methylparaben", "ethylparaben"])
  {
    ExampleMatches();
    AssessExample(ConcerningIngredients, BeneficialIngredients);
  }
}
