/**
 * `analyzeIngredientSafety`: the two static ingredient tables, the
 * substring matching of lower-cased tokens against them, and the 0..100
 * safety score.
 */
module SafetyScorer {
  import opened Text
  import opened Collections

  /** How much a concerning ingredient costs the score. */
  datatype Severity = High | Medium | Low

  /** One row of the concerning-ingredient table: match key, concern text, severity. */
  datatype ConcerningIngredient = ConcerningIngredient(name: string, concern: string, severity: Severity)

  /** The scorer's result, with the field names of the object the source returns. */
  datatype SafetyReport = SafetyReport(
    safetyScore: int,
    concerns: seq<string>,
    safeIngredients: seq<string>,
    questionableIngredients: seq<string>)

  /**
   * The 27 concerning ingredients, in table order. The table is written as
   * four blocks of consecutive rows so that proofs about it can take one
   * block at a time.
   */
  const ConcerningIngredients: seq<ConcerningIngredient> :=
    ConcerningRowsA + ConcerningRowsB + ConcerningRowsC + ConcerningRowsD

  const ConcerningRowsA: seq<ConcerningIngredient> := [
    ConcerningIngredient("sodium lauryl sulfate", "Can be irritating to sensitive skin", Medium),
    ConcerningIngredient("sodium laureth sulfate", "Can be irritating to sensitive skin", Medium),
    ConcerningIngredient("methylparaben", "Preservative with potential endocrine disruption concerns", Medium),
    ConcerningIngredient("propylparaben", "Preservative with potential endocrine disruption concerns", Medium),
    ConcerningIngredient("butylparaben", "Preservative with potential endocrine disruption concerns", Medium),
    ConcerningIngredient("ethylparaben", "Preservative with potential endocrine disruption concerns", Medium),
    ConcerningIngredient("fragrance", "Common allergen and irritant", Medium)
  ]

  const ConcerningRowsB: seq<ConcerningIngredient> := [
    ConcerningIngredient("parfum", "Common allergen and irritant", Medium),
    ConcerningIngredient("formaldehyde", "Potential carcinogen", High),
    ConcerningIngredient("phthalate", "Potential endocrine disruptor", High),
    ConcerningIngredient("triclosan", "Antibacterial with potential hormone effects", High),
    ConcerningIngredient("toluene", "Potential neurotoxicity", High),
    ConcerningIngredient("resorcinol", "Potential endocrine disruptor", Medium),
    ConcerningIngredient("hydroquinone", "Potential carcinogen", High)
  ]

  const ConcerningRowsC: seq<ConcerningIngredient> := [
    ConcerningIngredient("bht", "Potential endocrine disruptor", Medium),
    ConcerningIngredient("bha", "Potential endocrine disruptor", Medium),
    ConcerningIngredient("polyethylene", "Microplastic environmental concern", Low),
    ConcerningIngredient("oxybenzone", "Potential hormone disruptor", Medium),
    ConcerningIngredient("octinoxate", "Potential hormone disruptor", Medium),
    ConcerningIngredient("dmdm hydantoin", "Formaldehyde releaser", Medium),
    ConcerningIngredient("imidazolidinyl urea", "Formaldehyde releaser", Medium)
  ]

  const ConcerningRowsD: seq<ConcerningIngredient> := [
    ConcerningIngredient("diazolidinyl urea", "Formaldehyde releaser", Medium),
    ConcerningIngredient("quaternium-15", "Formaldehyde releaser", Medium),
    ConcerningIngredient("bronopol", "Formaldehyde releaser", Medium),
    ConcerningIngredient("alcohol denat", "Can be drying and irritating", Low),
    ConcerningIngredient("isopropyl alcohol", "Can be drying and irritating", Low),
    ConcerningIngredient("benzyl alcohol", "Potential irritant", Low)
  ]

  /** The 24 beneficial ingredients, in table order. */
  const BeneficialIngredients: seq<string> := [
    "glycerin",
    "hyaluronic acid",
    "sodium hyaluronate",
    "ceramide",
    "niacinamide",
    "panthenol",
    "allantoin",
    "aloe vera",
    "aloe barbadensis",
    "centella asiatica",
    "green tea",
    "camellia sinensis",
    "vitamin e",
    "tocopherol",
    "vitamin c",
    "ascorbic acid",
    "squalane",
    "jojoba oil",
    "argan oil",
    "shea butter",
    "colloidal oatmeal",
    "zinc oxide",
    "titanium dioxide",
    "bisabolol"
  ]

  const BaseScore := 70
  const BeneficialPoints := 2
  const MaxBonus := 20

  function Penalty(s: Severity): nat
  {
    match s
    case High => 10
    case Medium => 5
    case Low => 2
  }

  /** `normalized.some(i => i.includes(key))`. */
  predicate Mentions(normalized: seq<string>, key: string)
  {
    exists i :: 0 <= i < |normalized| && Includes(normalized[i], key)
  }

  function ConcernIsMentioned(normalized: seq<string>): ConcerningIngredient -> bool
  {
    (c: ConcerningIngredient) => Mentions(normalized, c.name)
  }

  function KeyIsMentioned(normalized: seq<string>): string -> bool
  {
    (k: string) => Mentions(normalized, k)
  }

  /** The rows of a concerning table that some token mentions, in table order. */
  function FoundConcerns(concerning: seq<ConcerningIngredient>, normalized: seq<string>): seq<ConcerningIngredient>
  {
    Filter(concerning, ConcernIsMentioned(normalized))
  }

  /** The beneficial keys that some token mentions, in table order. */
  function FoundBeneficial(beneficial: seq<string>, normalized: seq<string>): seq<string>
  {
    Filter(beneficial, KeyIsMentioned(normalized))
  }

  function Names(cs: seq<ConcerningIngredient>): (r: seq<string>)
    ensures |r| == |cs| && forall i :: 0 <= i < |cs| ==> r[i] == cs[i].name
  {
    seq(|cs|, i requires 0 <= i < |cs| => cs[i].name)
  }

  function ConcernTexts(cs: seq<ConcerningIngredient>): (r: seq<string>)
    ensures |r| == |cs| && forall i :: 0 <= i < |cs| ==> r[i] == cs[i].concern
  {
    seq(|cs|, i requires 0 <= i < |cs| => cs[i].concern)
  }

  /** The summed penalty of the given rows. */
  function TotalPenalty(cs: seq<ConcerningIngredient>): int
  {
    if cs == [] then 0 else TotalPenalty(cs[..|cs| - 1]) + Penalty(cs[|cs| - 1].severity)
  }

  /** `Math.min(count * 2, 20)`. */
  function Bonus(beneficialCount: nat): int
  {
    if beneficialCount * BeneficialPoints < MaxBonus then beneficialCount * BeneficialPoints else MaxBonus
  }

  /** `Math.max(0, Math.min(100, x))`. */
  function Clamp(x: int): int
  {
    if x > 100 then 100 else if x < 0 then 0 else x
  }

  /**
   * The report the scorer builds from the given tables and tokens. The
   * score is always an integer, so the source's final `Math.round` leaves
   * it unchanged.
   */
  function Assess(concerning: seq<ConcerningIngredient>, beneficial: seq<string>, ingredients: seq<string>): (r: SafetyReport)
    ensures 0 <= r.safetyScore <= 100
    ensures |r.concerns| == |r.questionableIngredients|
  {
    var normalized := LowerAll(ingredients);
    var found := FoundConcerns(concerning, normalized);
    var matched := FoundBeneficial(beneficial, normalized);
    SafetyReport(
      Clamp(BaseScore + Bonus(|matched|) - TotalPenalty(found)),
      ConcernTexts(found),
      matched,
      Names(found))
  }

  /** `analyzeIngredientSafety(ingredients)`: the report against the two fixed tables. */
  function Safety(ingredients: seq<string>): SafetyReport
  {
    Assess(ConcerningIngredients, BeneficialIngredients, ingredients)
  }

  /** The first scan of `analyzeIngredientSafety`: push every concerning row some token mentions. */
  method ScanConcerns(concerning: seq<ConcerningIngredient>, normalized: seq<string>)
    returns (found: seq<ConcerningIngredient>)
    ensures found == FoundConcerns(concerning, normalized)
  {
    var mentioned := ConcernIsMentioned(normalized);
    found := [];
    for i := 0 to |concerning|
      invariant found == Filter(concerning[..i], mentioned)
    {
      var concern := concerning[i];
      assert Filter(concerning[..i + 1], mentioned) == found + Filter([concern], mentioned) by {
        FilterAppend(concerning[..i], [concern], mentioned);
        assert concerning[..i + 1] == concerning[..i] + [concern];
      }
      if Mentions(normalized, concern.name) {
        found := found + [concern];
      }
    }
    assert concerning[..|concerning|] == concerning;
  }

  /** The second scan: push every beneficial key some token mentions. */
  method ScanBeneficial(beneficial: seq<string>, normalized: seq<string>) returns (found: seq<string>)
    ensures found == FoundBeneficial(beneficial, normalized)
  {
    var mentioned := KeyIsMentioned(normalized);
    found := [];
    for i := 0 to |beneficial|
      invariant found == Filter(beneficial[..i], mentioned)
    {
      var key := beneficial[i];
      assert Filter(beneficial[..i + 1], mentioned) == found + Filter([key], mentioned) by {
        FilterAppend(beneficial[..i], [key], mentioned);
        assert beneficial[..i + 1] == beneficial[..i] + [key];
      }
      if Mentions(normalized, key) {
        found := found + [key];
      }
    }
    assert beneficial[..|beneficial|] == beneficial;
  }

  /** The running score: each found row lowers it by its severity's penalty. */
  method ApplyPenalties(score: int, found: seq<ConcerningIngredient>) returns (safetyScore: int)
    ensures safetyScore == score - TotalPenalty(found)
  {
    safetyScore := score;
    for i := 0 to |found|
      invariant safetyScore == score - TotalPenalty(found[..i])
    {
      assert found[..i + 1][..i] == found[..i];
      match found[i].severity
      case High => safetyScore := safetyScore - 10;
      case Medium => safetyScore := safetyScore - 5;
      case Low => safetyScore := safetyScore - 2;
    }
    assert found[..|found|] == found;
  }

  /** The scorer against the given tables: the two scans, the bonus, the penalties, the clamp. */
  method Score(concerning: seq<ConcerningIngredient>, beneficial: seq<string>, ingredients: seq<string>)
    returns (r: SafetyReport)
    ensures r == Assess(concerning, beneficial, ingredients)
  {
    var normalized := LowerAll(ingredients);
    var foundConcerns := ScanConcerns(concerning, normalized);
    var foundBeneficial := ScanBeneficial(beneficial, normalized);
    var safetyScore := BaseScore;
    safetyScore := safetyScore + Bonus(|foundBeneficial|);
    safetyScore := ApplyPenalties(safetyScore, foundConcerns);
    safetyScore := Clamp(safetyScore);
    r := SafetyReport(safetyScore, ConcernTexts(foundConcerns), foundBeneficial, Names(foundConcerns));
  }

  method AnalyzeIngredientSafety(ingredients: seq<string>) returns (r: SafetyReport)
    ensures r == Safety(ingredients)
  {
    r := Score(ConcerningIngredients, BeneficialIngredients, ingredients);
  }

  /** Neither fixed table repeats a key. */
  lemma TablesDistinct()
    ensures NoDuplicates(BeneficialIngredients)
    ensures NoDuplicates(Names(ConcerningIngredients))
  {
    BeneficialDistinct();
    ConcernKeysDistinct();
  }

  /** The beneficial keys in four blocks: each block is duplicate-free and no two blocks share a key. */
  lemma BeneficialDistinct()
    ensures NoDuplicates(BeneficialIngredients)
  {
    BeneficialDistinctBlocks();
    assert BeneficialIngredients ==
      ["glycerin", "hyaluronic acid", "sodium hyaluronate", "ceramide", "niacinamide", "panthenol"] +
      ["allantoin", "aloe vera", "aloe barbadensis", "centella asiatica", "green tea", "camellia sinensis"] +
      ["vitamin e", "tocopherol", "vitamin c", "ascorbic acid", "squalane", "jojoba oil"] +
      ["argan oil", "shea butter", "colloidal oatmeal", "zinc oxide", "titanium dioxide", "bisabolol"];
  }

  lemma BeneficialDistinctBlocks()
    ensures NoDuplicates(["glycerin", "hyaluronic acid", "sodium hyaluronate", "ceramide", "niacinamide", "panthenol"] + ["allantoin", "aloe vera", "aloe barbadensis", "centella asiatica", "green tea", "camellia sinensis"] + ["vitamin e", "tocopherol", "vitamin c", "ascorbic acid", "squalane", "jojoba oil"] + ["argan oil", "shea butter", "colloidal oatmeal", "zinc oxide", "titanium dioxide", "bisabolol"])
  {
    var a, b, c, d :=
      ["glycerin", "hyaluronic acid", "sodium hyaluronate", "ceramide", "niacinamide", "panthenol"],
      ["allantoin", "aloe vera", "aloe barbadensis", "centella asiatica", "green tea", "camellia sinensis"],
      ["vitamin e", "tocopherol", "vitamin c", "ascorbic acid", "squalane", "jojoba oil"],
      ["argan oil", "shea butter", "colloidal oatmeal", "zinc oxide", "titanium dioxide", "bisabolol"];
    BeneficialDistinctPartA(); BeneficialDistinctPartB(); BeneficialDistinctPartC(); BeneficialDistinctPartD();
    BeneficialDistinctApartAB(); BeneficialDistinctApartAC(); BeneficialDistinctApartAD(); BeneficialDistinctApartBC(); BeneficialDistinctApartBD(); BeneficialDistinctApartCD();
    NoDuplicatesConcat(a, b);
    NoDuplicatesConcat(a + b, c);
    NoDuplicatesConcat(a + b + c, d);
  }

  lemma BeneficialDistinctPartA()
    ensures NoDuplicates(["glycerin", "hyaluronic acid", "sodium hyaluronate", "ceramide", "niacinamide", "panthenol"])
  {
  }

  lemma BeneficialDistinctPartB()
    ensures NoDuplicates(["allantoin", "aloe vera", "aloe barbadensis", "centella asiatica", "green tea", "camellia sinensis"])
  {
  }

  lemma BeneficialDistinctPartC()
    ensures NoDuplicates(["vitamin e", "tocopherol", "vitamin c", "ascorbic acid", "squalane", "jojoba oil"])
  {
  }

  lemma BeneficialDistinctPartD()
    ensures NoDuplicates(["argan oil", "shea butter", "colloidal oatmeal", "zinc oxide", "titanium dioxide", "bisabolol"])
  {
  }

  lemma BeneficialDistinctApartAB()
    ensures forall x :: x in ["glycerin", "hyaluronic acid", "sodium hyaluronate", "ceramide", "niacinamide", "panthenol"] ==> x !in ["allantoin", "aloe vera", "aloe barbadensis", "centella asiatica", "green tea", "camellia sinensis"]
  {
  }

  lemma BeneficialDistinctApartAC()
    ensures forall x :: x in ["glycerin", "hyaluronic acid", "sodium hyaluronate", "ceramide", "niacinamide", "panthenol"] ==> x !in ["vitamin e", "tocopherol", "vitamin c", "ascorbic acid", "squalane", "jojoba oil"]
  {
  }

  lemma BeneficialDistinctApartAD()
    ensures forall x :: x in ["glycerin", "hyaluronic acid", "sodium hyaluronate", "ceramide", "niacinamide", "panthenol"] ==> x !in ["argan oil", "shea butter", "colloidal oatmeal", "zinc oxide", "titanium dioxide", "bisabolol"]
  {
  }

  lemma BeneficialDistinctApartBC()
    ensures forall x :: x in ["allantoin", "aloe vera", "aloe barbadensis", "centella asiatica", "green tea", "camellia sinensis"] ==> x !in ["vitamin e", "tocopherol", "vitamin c", "ascorbic acid", "squalane", "jojoba oil"]
  {
  }

  lemma BeneficialDistinctApartBD()
    ensures forall x :: x in ["allantoin", "aloe vera", "aloe barbadensis", "centella asiatica", "green tea", "camellia sinensis"] ==> x !in ["argan oil", "shea butter", "colloidal oatmeal", "zinc oxide", "titanium dioxide", "bisabolol"]
  {
  }

  lemma BeneficialDistinctApartCD()
    ensures forall x :: x in ["vitamin e", "tocopherol", "vitamin c", "ascorbic acid", "squalane", "jojoba oil"] ==> x !in ["argan oil", "shea butter", "colloidal oatmeal", "zinc oxide", "titanium dioxide", "bisabolol"]
  {
  }

  lemma ConcernKeysDistinct()
    ensures NoDuplicates(Names(ConcerningIngredients))
  {
    ConcernKeys();
    KeysInOrderDistinct();
  }

  /** The keys of the concerning table, in order, in the four blocks the distinctness proof uses. */
  ghost const ConcernKeysInOrder: seq<string> :=
    ["sodium lauryl sulfate", "sodium laureth sulfate", "methylparaben", "propylparaben", "butylparaben", "ethylparaben", "fragrance"] +
    ["parfum", "formaldehyde", "phthalate", "triclosan", "toluene", "resorcinol", "hydroquinone"] +
    ["bht", "bha", "polyethylene", "oxybenzone", "octinoxate", "dmdm hydantoin", "imidazolidinyl urea"] +
    ["diazolidinyl urea", "quaternium-15", "bronopol", "alcohol denat", "isopropyl alcohol", "benzyl alcohol"]

  lemma ConcernKeys()
    ensures Names(ConcerningIngredients) == ConcernKeysInOrder
  {
    var a, b, c, d := ConcerningRowsA, ConcerningRowsB, ConcerningRowsC, ConcerningRowsD;
    NamesAppend(a, b);
    NamesAppend(a + b, c);
    NamesAppend(a + b + c, d);
    assert Names(a) == ["sodium lauryl sulfate", "sodium laureth sulfate", "methylparaben", "propylparaben", "butylparaben", "ethylparaben", "fragrance"];
    assert Names(b) == ["parfum", "formaldehyde", "phthalate", "triclosan", "toluene", "resorcinol", "hydroquinone"];
    assert Names(c) == ["bht", "bha", "polyethylene", "oxybenzone", "octinoxate", "dmdm hydantoin", "imidazolidinyl urea"];
    assert Names(d) == ["diazolidinyl urea", "quaternium-15", "bronopol", "alcohol denat", "isopropyl alcohol", "benzyl alcohol"];
  }

  lemma NamesAppend(a: seq<ConcerningIngredient>, b: seq<ConcerningIngredient>)
    ensures Names(a + b) == Names(a) + Names(b)
  {
  }

  /** The concerning keys in four blocks: each block is duplicate-free and no two blocks share a key. */
  lemma KeysInOrderDistinct()
    ensures NoDuplicates(ConcernKeysInOrder)
  {
    KeysInOrderDistinctBlocks();
  }

  lemma KeysInOrderDistinctBlocks()
    ensures NoDuplicates(["sodium lauryl sulfate", "sodium laureth sulfate", "methylparaben", "propylparaben", "butylparaben", "ethylparaben", "fragrance"] + ["parfum", "formaldehyde", "phthalate", "triclosan", "toluene", "resorcinol", "hydroquinone"] + ["bht", "bha", "polyethylene", "oxybenzone", "octinoxate", "dmdm hydantoin", "imidazolidinyl urea"] + ["diazolidinyl urea", "quaternium-15", "bronopol", "alcohol denat", "isopropyl alcohol", "benzyl alcohol"])
  {
    var a, b, c, d :=
      ["sodium lauryl sulfate", "sodium laureth sulfate", "methylparaben", "propylparaben", "butylparaben", "ethylparaben", "fragrance"],
      ["parfum", "formaldehyde", "phthalate", "triclosan", "toluene", "resorcinol", "hydroquinone"],
      ["bht", "bha", "polyethylene", "oxybenzone", "octinoxate", "dmdm hydantoin", "imidazolidinyl urea"],
      ["diazolidinyl urea", "quaternium-15", "bronopol", "alcohol denat", "isopropyl alcohol", "benzyl alcohol"];
    KeysInOrderDistinctPartA(); KeysInOrderDistinctPartB(); KeysInOrderDistinctPartC(); KeysInOrderDistinctPartD();
    KeysInOrderDistinctApartAB(); KeysInOrderDistinctApartAC(); KeysInOrderDistinctApartAD(); KeysInOrderDistinctApartBC(); KeysInOrderDistinctApartBD(); KeysInOrderDistinctApartCD();
    NoDuplicatesConcat(a, b);
    NoDuplicatesConcat(a + b, c);
    NoDuplicatesConcat(a + b + c, d);
  }

  lemma KeysInOrderDistinctPartA()
    ensures NoDuplicates(["sodium lauryl sulfate", "sodium laureth sulfate", "methylparaben", "propylparaben", "butylparaben", "ethylparaben", "fragrance"])
  {
  }

  lemma KeysInOrderDistinctPartB()
    ensures NoDuplicates(["parfum", "formaldehyde", "phthalate", "triclosan", "toluene", "resorcinol", "hydroquinone"])
  {
  }

  lemma KeysInOrderDistinctPartC()
    ensures NoDuplicates(["bht", "bha", "polyethylene", "oxybenzone", "octinoxate", "dmdm hydantoin", "imidazolidinyl urea"])
  {
  }

  lemma KeysInOrderDistinctPartD()
    ensures NoDuplicates(["diazolidinyl urea", "quaternium-15", "bronopol", "alcohol denat", "isopropyl alcohol", "benzyl alcohol"])
  {
  }

  lemma KeysInOrderDistinctApartAB()
    ensures forall x :: x in ["sodium lauryl sulfate", "sodium laureth sulfate", "methylparaben", "propylparaben", "butylparaben", "ethylparaben", "fragrance"] ==> x !in ["parfum", "formaldehyde", "phthalate", "triclosan", "toluene", "resorcinol", "hydroquinone"]
  {
  }

  lemma KeysInOrderDistinctApartAC()
    ensures forall x :: x in ["sodium lauryl sulfate", "sodium laureth sulfate", "methylparaben", "propylparaben", "butylparaben", "ethylparaben", "fragrance"] ==> x !in ["bht", "bha", "polyethylene", "oxybenzone", "octinoxate", "dmdm hydantoin", "imidazolidinyl urea"]
  {
  }

  lemma KeysInOrderDistinctApartAD()
    ensures forall x :: x in ["sodium lauryl sulfate", "sodium laureth sulfate", "methylparaben", "propylparaben", "butylparaben", "ethylparaben", "fragrance"] ==> x !in ["diazolidinyl urea", "quaternium-15", "bronopol", "alcohol denat", "isopropyl alcohol", "benzyl alcohol"]
  {
  }

  lemma KeysInOrderDistinctApartBC()
    ensures forall x :: x in ["parfum", "formaldehyde", "phthalate", "triclosan", "toluene", "resorcinol", "hydroquinone"] ==> x !in ["bht", "bha", "polyethylene", "oxybenzone", "octinoxate", "dmdm hydantoin", "imidazolidinyl urea"]
  {
  }

  lemma KeysInOrderDistinctApartBD()
    ensures forall x :: x in ["parfum", "formaldehyde", "phthalate", "triclosan", "toluene", "resorcinol", "hydroquinone"] ==> x !in ["diazolidinyl urea", "quaternium-15", "bronopol", "alcohol denat", "isopropyl alcohol", "benzyl alcohol"]
  {
  }

  lemma KeysInOrderDistinctApartCD()
    ensures forall x :: x in ["bht", "bha", "polyethylene", "oxybenzone", "octinoxate", "dmdm hydantoin", "imidazolidinyl urea"] ==> x !in ["diazolidinyl urea", "quaternium-15", "bronopol", "alcohol denat", "isopropyl alcohol", "benzyl alcohol"]
  {
  }

  /** The penalty a concerning table gives the first row with the given key (none: 0). */
  function PenaltyIn(concerning: seq<ConcerningIngredient>, name: string): nat
  {
    if concerning == [] then 0
    else if concerning[0].name == name then Penalty(concerning[0].severity)
    else PenaltyIn(concerning[1..], name)
  }

  /** The penalties a concerning table assigns to the given keys, summed. */
  function NamesPenalty(concerning: seq<ConcerningIngredient>, names: seq<string>): int
  {
    if names == [] then 0
    else NamesPenalty(concerning, names[..|names| - 1]) + PenaltyIn(concerning, names[|names| - 1])
  }

  lemma {:induction false} PenaltyInRow(concerning: seq<ConcerningIngredient>, c: ConcerningIngredient)
    requires c in concerning && NoDuplicates(Names(concerning))
    ensures PenaltyIn(concerning, c.name) == Penalty(c.severity)
  {
    if concerning[0] != c {
      assert c in concerning[1..];
      var j :| 0 <= j < |concerning| - 1 && concerning[1..][j] == c;
      assert Names(concerning)[0] != Names(concerning)[j + 1];
      assert NoDuplicates(Names(concerning[1..])) by {
        forall i, k | 0 <= i < k < |concerning| - 1 ensures Names(concerning[1..])[i] != Names(concerning[1..])[k] {
          assert Names(concerning)[i + 1] != Names(concerning)[k + 1];
        }
      }
      PenaltyInRow(concerning[1..], c);
    }
  }

  lemma {:induction false} TotalPenaltyByNames(concerning: seq<ConcerningIngredient>, cs: seq<ConcerningIngredient>)
    requires NoDuplicates(Names(concerning))
    requires forall c :: c in cs ==> c in concerning
    ensures TotalPenalty(cs) == NamesPenalty(concerning, Names(cs))
  {
    if cs != [] {
      var init := cs[..|cs| - 1];
      assert forall c :: c in init ==> c in cs;
      TotalPenaltyByNames(concerning, init);
      assert Names(cs)[..|cs| - 1] == Names(init);
      PenaltyInRow(concerning, cs[|cs| - 1]);
    }
  }

  /**
   * The score in terms of the report's own lists: 70, plus 2 per beneficial
   * key up to 20, minus the penalty of each questionable key, clamped to 0..100.
   */
  lemma AssessScoreFormula(concerning: seq<ConcerningIngredient>, beneficial: seq<string>, ingredients: seq<string>)
    requires NoDuplicates(Names(concerning))
    ensures var r := Assess(concerning, beneficial, ingredients);
      r.safetyScore == Clamp(BaseScore + Bonus(|r.safeIngredients|) - NamesPenalty(concerning, r.questionableIngredients))
  {
    FilterSpec(concerning, ConcernIsMentioned(LowerAll(ingredients)));
    TotalPenaltyByNames(concerning, FoundConcerns(concerning, LowerAll(ingredients)));
  }

  /**
   * The beneficial list: the table's keys in table order, each at most once,
   * and a key is listed exactly when some lower-cased token contains it.
   */
  lemma AssessBeneficialList(concerning: seq<ConcerningIngredient>, beneficial: seq<string>, ingredients: seq<string>)
    requires NoDuplicates(beneficial)
    ensures var r := Assess(concerning, beneficial, ingredients);
      && IsSubseq(r.safeIngredients, beneficial)
      && NoDuplicates(r.safeIngredients)
      && forall k :: k in r.safeIngredients <==> k in beneficial && Mentions(LowerAll(ingredients), k)
  {
    var r := Assess(concerning, beneficial, ingredients);
    FilterSpec(beneficial, KeyIsMentioned(LowerAll(ingredients)));
    SubseqNoDuplicates(r.safeIngredients, beneficial);
  }

  lemma {:induction false} NamesSubseq(a: seq<ConcerningIngredient>, b: seq<ConcerningIngredient>)
    requires IsSubseq(a, b)
    ensures IsSubseq(Names(a), Names(b))
    decreases |b|
  {
    if a != [] && b != [] {
      assert Names(a)[1..] == Names(a[1..]) && Names(b)[1..] == Names(b[1..]);
      if a[0] == b[0] && IsSubseq(a[1..], b[1..]) {
        NamesSubseq(a[1..], b[1..]);
      } else {
        NamesSubseq(a, b[1..]);
      }
    }
  }

  /**
   * The questionable list: concerning keys in table order, each at most
   * once.
   */
  lemma AssessQuestionableOrder(concerning: seq<ConcerningIngredient>, beneficial: seq<string>, ingredients: seq<string>)
    requires NoDuplicates(Names(concerning))
    ensures var r := Assess(concerning, beneficial, ingredients);
      IsSubseq(r.questionableIngredients, Names(concerning)) && NoDuplicates(r.questionableIngredients)
  {
    var found := FoundConcerns(concerning, LowerAll(ingredients));
    FilterSpec(concerning, ConcernIsMentioned(LowerAll(ingredients)));
    NamesSubseq(found, concerning);
    SubseqNoDuplicates(Names(found), Names(concerning));
  }

  /** A concerning key is listed exactly when some lower-cased token contains it. */
  lemma AssessQuestionableMembers(concerning: seq<ConcerningIngredient>, beneficial: seq<string>, ingredients: seq<string>)
    ensures var r := Assess(concerning, beneficial, ingredients);
      forall k :: k in r.questionableIngredients <==> k in Names(concerning) && Mentions(LowerAll(ingredients), k)
  {
    var normalized := LowerAll(ingredients);
    var found := FoundConcerns(concerning, normalized);
    FilterSpec(concerning, ConcernIsMentioned(normalized));
    forall k ensures k in Names(found) <==> k in Names(concerning) && Mentions(normalized, k) {
      if k in Names(found) {
        var i :| 0 <= i < |found| && Names(found)[i] == k;
        assert found[i] in concerning;
      }
      if k in Names(concerning) && Mentions(normalized, k) {
        var j :| 0 <= j < |concerning| && Names(concerning)[j] == k;
        assert concerning[j] in found;
      }
    }
  }

  /**
   * The concern at each position of the report is the text of a table row
   * whose key stands at the same position of the questionable list.
   */
  lemma AssessConcernTexts(concerning: seq<ConcerningIngredient>, beneficial: seq<string>, ingredients: seq<string>)
    ensures var r := Assess(concerning, beneficial, ingredients);
      && |r.concerns| == |r.questionableIngredients|
      && forall i :: 0 <= i < |r.questionableIngredients| ==>
           (exists j :: 0 <= j < |concerning|
              && concerning[j].name == r.questionableIngredients[i]
              && concerning[j].concern == r.concerns[i])
  {
    var found := FoundConcerns(concerning, LowerAll(ingredients));
    var r := Assess(concerning, beneficial, ingredients);
    FilterSpec(concerning, ConcernIsMentioned(LowerAll(ingredients)));
    forall i | 0 <= i < |found|
      ensures exists j :: (0 <= j < |concerning|
        && concerning[j].name == r.questionableIngredients[i]
        && concerning[j].concern == r.concerns[i])
    {
      assert found[i] in concerning;
    }
  }

  /** The three properties above, for the fixed tables. */
  lemma SafetyLists(ingredients: seq<string>)
    ensures var r := Safety(ingredients);
      && r.safetyScore == Clamp(BaseScore + Bonus(|r.safeIngredients|)
                                - NamesPenalty(ConcerningIngredients, r.questionableIngredients))
      && IsSubseq(r.safeIngredients, BeneficialIngredients)
      && NoDuplicates(r.safeIngredients)
      && IsSubseq(r.questionableIngredients, Names(ConcerningIngredients))
      && NoDuplicates(r.questionableIngredients)
  {
    TablesDistinct();
    var r := Safety(ingredients);
    assert r.safetyScore == Clamp(BaseScore + Bonus(|r.safeIngredients|)
                                  - NamesPenalty(ConcerningIngredients, r.questionableIngredients)) by {
      AssessScoreFormula(ConcerningIngredients, BeneficialIngredients, ingredients);
    }
    assert IsSubseq(r.safeIngredients, BeneficialIngredients) && NoDuplicates(r.safeIngredients) by {
      AssessBeneficialList(ConcerningIngredients, BeneficialIngredients, ingredients);
    }
    assert IsSubseq(r.questionableIngredients, Names(ConcerningIngredients)) && NoDuplicates(r.questionableIngredients) by {
      AssessQuestionableOrder(ConcerningIngredients, BeneficialIngredients, ingredients);
    }
  }

  /** No tokens: nothing matches, and the score stays at the neutral 70. */
  lemma AssessOfNoIngredients(concerning: seq<ConcerningIngredient>, beneficial: seq<string>)
    ensures Assess(concerning, beneficial, []) == SafetyReport(70, [], [], [])
  {
    assert forall k :: !Mentions([], k);
    FilterNone(concerning, ConcernIsMentioned([]));
    FilterNone(beneficial, KeyIsMentioned([]));
  }

  /** Whether a key is mentioned depends only on which tokens occur. */
  lemma MentionsByElement(ingredients: seq<string>, key: string)
    ensures Mentions(LowerAll(ingredients), key) <==> exists t :: t in ingredients && Includes(Lower(t), key)
  {
    if exists t :: t in ingredients && Includes(Lower(t), key) {
      var t :| t in ingredients && Includes(Lower(t), key);
      var i :| 0 <= i < |ingredients| && ingredients[i] == t;
      assert Includes(LowerAll(ingredients)[i], key);
    }
  }

  /**
   * The report depends only on which tokens occur, not on their order or
   * how often they repeat.
   */
  lemma AssessDependsOnlyOnElements(concerning: seq<ConcerningIngredient>, beneficial: seq<string>, a: seq<string>, b: seq<string>)
    requires Elements(a) == Elements(b)
    ensures Assess(concerning, beneficial, a) == Assess(concerning, beneficial, b)
  {
    forall k ensures Mentions(LowerAll(a), k) == Mentions(LowerAll(b), k) {
      MentionsByElement(a, k);
      MentionsByElement(b, k);
      assert forall t :: t in a <==> t in b by {
        assert forall t :: t in a <==> t in Elements(a);
        assert forall t :: t in b <==> t in Elements(b);
      }
    }
    FilterCongruent(concerning, ConcernIsMentioned(LowerAll(a)), ConcernIsMentioned(LowerAll(b)));
    FilterCongruent(beneficial, KeyIsMentioned(LowerAll(a)), KeyIsMentioned(LowerAll(b)));
  }
}
