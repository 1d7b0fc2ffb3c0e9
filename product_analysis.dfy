/**
 * The server actions `analyzeProducts`, `getProductRecommendations` and
 * `predictSafetyScore`: where the ingredient strings come from, the two
 * memoising caches, and how a recommendation card and a single-product
 * safety report are assembled from the analysis engine's results.
 */
module ProductAnalysis {
  import opened Text
  import opened Collections
  import opened IngredientParser
  import opened SafetyScorer
  import opened Catalog
  import opened Orchestrator

  // ----- analyzeProducts: where the ingredient strings come from -----

  /** The ingredient list used for the original product when neither the caller nor the dataset has one. */
  const OriginalPlaceholderNames: seq<string> := [
    "Water",
    "Glycerin",
    "Cetearyl Alcohol",
    "Phenoxyethanol",
    "Stearyl Alcohol",
    "Cetyl Alcohol",
    "Peg-40 Stearate",
    "Behentrimonium Methosulfate",
    "Glyceryl Stearate",
    "Polysorbate 20",
    "Ethlhexylglycerin",
    "Potassium Phosphate",
    "Disodium Edta",
    "Dipotassium Phosphate",
    "Sodium Lauroyl Lactylate",
    "Ceramide Np",
    "Ceramide Ap",
    "Phytosphingosine",
    "Cholesterol",
    "Sodium Hyaluronate",
    "Xanthan Gum",
    "Carbomer",
    "Tocopherol",
    "Ceramide Eop"
  ]
  const OriginalPlaceholder := Join(OriginalPlaceholderNames, ", ")

  /** The ingredient list used for the alternative product in the same case. */
  const AlternativePlaceholderNames: seq<string> := [
    "Water",
    "Sodium Laureth Sulfate",
    "Cocamidopropyl Betaine",
    "Glycerin",
    "Sodium Chloride",
    "Fragrance",
    "Citric Acid",
    "Sodium Benzoate",
    "Polyquaternium-10",
    "Disodium EDTA",
    "Sodium Hydroxide",
    "Phenoxyethanol",
    "Methylparaben",
    "Propylparaben",
    "Butylparaben",
    "Yellow 5",
    "Red 40"
  ]
  const AlternativePlaceholder := Join(AlternativePlaceholderNames, ", ")

  /** `${originalProduct}|${alternativeProduct}|${productType}`: the ingredient strings take no part. */
  function ComparisonKey(originalProduct: string, alternativeProduct: string, productType: string): string
  {
    originalProduct + "|" + alternativeProduct + "|" + productType
  }

  /**
   * Because the names are joined with a bare `|`, two different pairs of
   * names can share a key: ("a|b", "c") and ("a", "b|c") under the same type.
   */
  lemma ComparisonKeysCollide()
    ensures ComparisonKey("a|b", "c", "serum") == ComparisonKey("a", "b|c", "serum")
  {
  }

  /**
   * The ingredient string handed on for one product: the supplied string
   * when it is not empty; otherwise the ingredients of the dataset match
   * when there is a match and its ingredients are not empty; otherwise the
   * placeholder. What is handed on is never empty.
   */
  function IngredientSource(supplied: string, datasetMatch: Option<Product>, placeholder: string): (r: string)
    requires placeholder != []
    ensures r != []
    ensures supplied != [] ==> r == supplied
    ensures supplied == [] && datasetMatch.Some? && datasetMatch.value.ingredients != [] ==>
              r == datasetMatch.value.ingredients
    ensures supplied == [] && (datasetMatch == None || datasetMatch.value.ingredients == []) ==> r == placeholder
  {
    if supplied != [] then supplied
    else if datasetMatch.Some? && datasetMatch.value.ingredients != [] then datasetMatch.value.ingredients
    else placeholder
  }

  /** The result `analyzeProducts` computes on a cache miss, over the given dataset. */
  function FreshAnalysis(
    products: seq<Product>,
    originalProduct: string, originalIngredients: string,
    alternativeProduct: string, alternativeIngredients: string,
    productType: string): ComparisonResult
  {
    AnalyzeAndCompare(
      originalProduct,
      IngredientSource(originalIngredients, GetProductByName(products, originalProduct), OriginalPlaceholder),
      alternativeProduct,
      IngredientSource(alternativeIngredients, GetProductByName(products, alternativeProduct), AlternativePlaceholder),
      productType)
  }

  /** Two supplied non-empty strings are used as they are: the dataset takes no part. */
  lemma FreshAnalysisUsesSuppliedStrings(
    products: seq<Product>,
    originalProduct: string, originalIngredients: string,
    alternativeProduct: string, alternativeIngredients: string,
    productType: string)
    requires originalIngredients != [] && alternativeIngredients != []
    ensures FreshAnalysis(products, originalProduct, originalIngredients, alternativeProduct, alternativeIngredients, productType)
         == AnalyzeAndCompare(originalProduct, originalIngredients, alternativeProduct, alternativeIngredients, productType)
  {
  }

  // ----- predictSafetyScore -----

  /** The record `predictSafetyScore` returns. */
  datatype SafetyPrediction = SafetyPrediction(
    safetyScore: int,
    concerns: seq<string>,
    safeIngredients: seq<string>,
    questionableIngredients: seq<string>,
    analysis: string)

  /** The four wordings of the analysis text. */
  datatype Tier = Excellent | Good | Moderate | Concerning

  /** The wording chosen by the score: 90 and up, 70 and up, 50 and up, and below 50. */
  function TierOf(safetyScore: int): (t: Tier)
    ensures t == Excellent <==> safetyScore >= 90
    ensures t == Good <==> 70 <= safetyScore < 90
    ensures t == Moderate <==> 50 <= safetyScore < 70
    ensures t == Concerning <==> safetyScore < 50
  {
    if safetyScore >= 90 then Excellent
    else if safetyScore >= 70 then Good
    else if safetyScore >= 50 then Moderate
    else Concerning
  }

  /** How many beneficial ingredients each wording names. */
  function SafeShown(t: Tier): nat
  {
    match t
    case Excellent => 3
    case Good => 3
    case Moderate => 2
    case Concerning => 0
  }

  /** How many questionable ingredients each wording names. */
  function QuestionableShown(t: Tier): nat
  {
    match t
    case Excellent => 0
    case Good => 2
    case Moderate => 3
    case Concerning => 4
  }

  // The fixed words of the four wordings.
  const ExcellentOpening := " has an excellent safety profile with minimal risk of irritation or adverse reactions. It contains beneficial ingredients like "
  const ExcellentClosing := " and avoids most common irritants."
  const GoodOpening := " has a good safety profile with few concerns. It contains beneficial ingredients like "
  const GoodQuestionable := ", but also includes some potentially questionable ingredients like "
  const ModerateOpening := " has a moderate safety profile with some concerns. While it contains beneficial ingredients like "
  const ModerateProblematic := ", it also contains several potentially problematic ingredients like "
  const ConcerningOpening := " has a concerning safety profile with multiple potentially problematic ingredients like "
  const ConcerningClosing := ". It may not be suitable for sensitive skin or those looking to avoid certain chemicals."

  /** What follows the product's name in the wording of tier `t`, around the two comma-joined lists. */
  function TierWording(t: Tier, safe: string, questionable: string): string
  {
    match t
    case Excellent => ExcellentOpening + safe + ExcellentClosing
    case Good => GoodOpening + safe + GoodQuestionable + questionable + "."
    case Moderate => ModerateOpening + safe + ModerateProblematic + questionable + "."
    case Concerning => ConcerningOpening + questionable + ConcerningClosing
  }

  /** The analysis text for a scorer report: the tier's wording with the first few entries of each list. */
  function AnalysisText(productName: string, safety: SafetyReport): string
  {
    var t := TierOf(safety.safetyScore);
    productName + TierWording(t,
                              Join(Take(safety.safeIngredients, SafeShown(t)), ", "),
                              Join(Take(safety.questionableIngredients, QuestionableShown(t)), ", "))
  }

  /**
   * The text begins with the product's name, and it depends on nothing but
   * the tier and the entries it shows: two reports in the same tier whose
   * first `SafeShown` beneficial and first `QuestionableShown` questionable
   * entries agree give the same text.
   */
  lemma AnalysisTextShowsOnlyLeadingEntries(productName: string, a: SafetyReport, b: SafetyReport)
    requires TierOf(a.safetyScore) == TierOf(b.safetyScore)
    requires Take(a.safeIngredients, SafeShown(TierOf(a.safetyScore)))
          == Take(b.safeIngredients, SafeShown(TierOf(a.safetyScore)))
    requires Take(a.questionableIngredients, QuestionableShown(TierOf(a.safetyScore)))
          == Take(b.questionableIngredients, QuestionableShown(TierOf(a.safetyScore)))
    ensures AnalysisText(productName, a) == AnalysisText(productName, b)
    ensures AnalysisText(productName, a)[..|productName|] == productName
  {
    var t := TierOf(a.safetyScore);
    assert Join(Take(a.safeIngredients, SafeShown(t)), ", ") == Join(Take(b.safeIngredients, SafeShown(t)), ", ");
    assert Join(Take(a.questionableIngredients, QuestionableShown(t)), ", ")
        == Join(Take(b.questionableIngredients, QuestionableShown(t)), ", ");
  }

  /** The analysis text: the wording is chosen down the source's if-chain on the score. */
  method WriteAnalysis(productName: string, safety: SafetyReport) returns (analysis: string)
    ensures analysis == AnalysisText(productName, safety)
  {
    var tier: Tier;
    if safety.safetyScore >= 90 {
      tier := Excellent;
    } else if safety.safetyScore >= 70 {
      tier := Good;
    } else if safety.safetyScore >= 50 {
      tier := Moderate;
    } else {
      tier := Concerning;
    }
    var safe := Join(Take(safety.safeIngredients, SafeShown(tier)), ", ");
    var questionable := Join(Take(safety.questionableIngredients, QuestionableShown(tier)), ", ");
    analysis := productName + TierWording(tier, safe, questionable);
  }

  /**
   * The ingredient string `predictSafetyScore` scores: when the one passed
   * in is empty or white space only and the dataset has a product of that
   * name, that product's ingredients; otherwise the string passed in.
   */
  function PredictionSource(products: seq<Product>, productName: string, ingredients: string): (r: string)
    ensures Trim(ingredients) != [] ==> r == ingredients
    ensures Trim(ingredients) == [] && GetProductByName(products, productName).Some? ==>
              r == GetProductByName(products, productName).value.ingredients
    ensures GetProductByName(products, productName) == None ==> r == ingredients
  {
    if Trim(ingredients) == [] then
      match GetProductByName(products, productName)
      case Some(p) => p.ingredients
      case None => ingredients
    else ingredients
  }

  /**
   * The prediction for an ingredient string: the score and the three lists
   * are the scorer's, unchanged, and the text is the wording of the score's
   * tier.
   */
  function Prediction(productName: string, ingredients: string): (r: SafetyPrediction)
    ensures 0 <= r.safetyScore <= 100
    ensures var s := Safety(ParseIngredients(ingredients));
      && r.safetyScore == s.safetyScore && r.concerns == s.concerns
      && r.safeIngredients == s.safeIngredients && r.questionableIngredients == s.questionableIngredients
      && r.analysis == AnalysisText(productName, s)
  {
    var safety := Safety(ParseIngredients(ingredients));
    SafetyPrediction(safety.safetyScore, safety.concerns, safety.safeIngredients,
                     safety.questionableIngredients, AnalysisText(productName, safety))
  }

  /** Without ingredients anywhere, the score is the neutral 70 and the text is the "good" wording with empty lists. */
  lemma PredictionOfNothing(productName: string)
    ensures Prediction(productName, "") == SafetyPrediction(70, [], [], [], productName + TierWording(Good, "", ""))
  {
    AssessOfNoIngredients(ConcerningIngredients, BeneficialIngredients);
  }

  /** `${productName}|${productType}`: the ingredient string takes no part. */
  function SafetyKey(productName: string, productType: string): string
  {
    productName + "|" + productType
  }

  // ----- getProductRecommendations -----

  /**
   * The skin type read from the user's concerns, by precedence: sensitive,
   * then oily (oily skin or acne), then dry, then combination, else normal.
   */
  function SkinTypeFor(concerns: seq<string>): (t: SkinType)
    ensures t == Sensitive <==> "sensitive-skin" in concerns
    ensures t == Oily <==> "sensitive-skin" !in concerns && ("oily-skin" in concerns || "acne-prone" in concerns)
    ensures t == Dry <==> "sensitive-skin" !in concerns && "oily-skin" !in concerns && "acne-prone" !in concerns
                          && "dry-skin" in concerns
    ensures t == Combination <==> "sensitive-skin" !in concerns && "oily-skin" !in concerns && "acne-prone" !in concerns
                                  && "dry-skin" !in concerns && "combination-skin" in concerns
    ensures t == Normal <==> "sensitive-skin" !in concerns && "oily-skin" !in concerns && "acne-prone" !in concerns
                             && "dry-skin" !in concerns && "combination-skin" !in concerns
  {
    if "sensitive-skin" in concerns then Sensitive
    else if "oily-skin" in concerns || "acne-prone" in concerns then Oily
    else if "dry-skin" in concerns then Dry
    else if "combination-skin" in concerns then Combination
    else Normal
  }

  /** The `let skinType` of the source, reassigned down the if-chain. */
  method DetermineSkinType(concerns: seq<string>) returns (skinType: SkinType)
    ensures skinType == SkinTypeFor(concerns)
  {
    skinType := Normal;
    if "sensitive-skin" in concerns {
      skinType := Sensitive;
    } else if "oily-skin" in concerns || "acne-prone" in concerns {
      skinType := Oily;
    } else if "dry-skin" in concerns {
      skinType := Dry;
    } else if "combination-skin" in concerns {
      skinType := Combination;
    }
  }

  /** One benefit line and the key ingredients any one of which earns it. */
  datatype BenefitRule = BenefitRule(keys: seq<string>, benefit: string)

  // The key ingredients the rules look for, and the lines they earn.
  const HyaluronicAcid := "hyaluronic acid"
  const SodiumHyaluronate := "sodium hyaluronate"
  const Niacinamide := "niacinamide"
  const GlycerinKey := "glycerin"
  const CeramideKey := "ceramide"
  const VitaminC := "vitamin c"
  const AscorbicAcid := "ascorbic acid"
  const VitaminE := "vitamin e"
  const TocopherolKey := "tocopherol"
  const AloeVera := "aloe vera"
  const AloeBarbadensis := "aloe barbadensis"
  const Hydrating := "Hydrating and plumping"
  const EvensTone := "Reduces redness and evens skin tone"
  const Moisturizing := "Moisturizing and hydrating"
  const Barrier := "Strengthens skin barrier"
  const Brightening := "Brightening and antioxidant protection"
  const Antioxidant := "Antioxidant protection"
  const Soothing := "Soothing and calming"
  const SuitsSkinType := "Suitable for your skin type"
  const DailyUse := "Well-formulated for daily use"

  /** The benefit rules, in the order the source tests them. */
  const BenefitRules: seq<BenefitRule> := [
    BenefitRule([HyaluronicAcid, SodiumHyaluronate], Hydrating),
    BenefitRule([Niacinamide], EvensTone),
    BenefitRule([GlycerinKey], Moisturizing),
    BenefitRule([CeramideKey], Barrier),
    BenefitRule([VitaminC, AscorbicAcid], Brightening),
    BenefitRule([VitaminE, TocopherolKey], Antioxidant),
    BenefitRule([AloeVera, AloeBarbadensis], Soothing)
  ]

  /** The two lines added when fewer than two rules fire. */
  const GenericBenefits: seq<string> := [SuitsSkinType, DailyUse]

  /** Some key of the rule is, exactly, one of the key ingredients (`Array.prototype.includes`). */
  predicate AnyIn(keys: seq<string>, keyIngredients: seq<string>)
  {
    exists i :: 0 <= i < |keys| && keys[i] in keyIngredients
  }

  /** The benefit lines of the first `n` rules that fire, in rule order. */
  function FiredBenefits(rules: seq<BenefitRule>, n: nat, keyIngredients: seq<string>): (r: seq<string>)
    requires n <= |rules|
    ensures |r| <= n
  {
    if n == 0 then []
    else
      FiredBenefits(rules, n - 1, keyIngredients)
      + (if AnyIn(rules[n - 1].keys, keyIngredients) then [rules[n - 1].benefit] else [])
  }

  /** The benefits of a product with the given key ingredients. */
  function Benefits(keyIngredients: seq<string>): seq<string>
  {
    var fired := FiredBenefits(BenefitRules, |BenefitRules|, keyIngredients);
    if |fired| < 2 then fired + GenericBenefits else fired
  }

  /** A line is among the fired benefits of the first `n` rules exactly when one of those rules carrying it fires. */
  lemma {:induction false} FiredBenefitsMembers(rules: seq<BenefitRule>, n: nat, keyIngredients: seq<string>, line: string)
    requires n <= |rules|
    ensures line in FiredBenefits(rules, n, keyIngredients) <==>
      exists i :: 0 <= i < n && rules[i].benefit == line && AnyIn(rules[i].keys, keyIngredients)
  {
    if n > 0 {
      FiredBenefitsMembers(rules, n - 1, keyIngredients, line);
    }
  }

  /** No two rules, and no rule and a generic line, share a line. */
  lemma BenefitLinesDistinct()
    ensures forall i, j :: 0 <= i < j < |BenefitRules| ==> BenefitRules[i].benefit != BenefitRules[j].benefit
    ensures forall i :: 0 <= i < |BenefitRules| ==> BenefitRules[i].benefit !in GenericBenefits
  {
  }

  /**
   * There are always at least two benefits; each rule's line is listed
   * exactly when one of its keys is among the key ingredients; the generic
   * lines are listed exactly when fewer than two rules fire, and then last.
   */
  lemma BenefitsSpec(keyIngredients: seq<string>)
    ensures var r := Benefits(keyIngredients);
      && |r| >= 2
      && (forall i :: 0 <= i < |BenefitRules| ==>
            (BenefitRules[i].benefit in r <==> AnyIn(BenefitRules[i].keys, keyIngredients)))
      && (|FiredBenefits(BenefitRules, |BenefitRules|, keyIngredients)| < 2 <==> r[|r| - 2..] == GenericBenefits)
  {
    var fired := FiredBenefits(BenefitRules, |BenefitRules|, keyIngredients);
    var r := Benefits(keyIngredients);
    BenefitLinesDistinct();
    forall i | 0 <= i < |BenefitRules|
      ensures BenefitRules[i].benefit in r <==> AnyIn(BenefitRules[i].keys, keyIngredients)
    {
      FiredBenefitsMembers(BenefitRules, |BenefitRules|, keyIngredients, BenefitRules[i].benefit);
    }
    if |fired| >= 2 {
      FiredBenefitsMembers(BenefitRules, |BenefitRules|, keyIngredients, DailyUse);
      assert r[|r| - 1] in fired;
    }
  }

  /** A rule with one or two keys fires when one of them is among the key ingredients. */
  lemma AnyInKeys(keys: seq<string>, keyIngredients: seq<string>)
    requires 1 <= |keys| <= 2
    ensures AnyIn(keys, keyIngredients) <==>
      keys[0] in keyIngredients || (|keys| == 2 && keys[1] in keyIngredients)
  {
  }

  /**
   * After rule `k` has been tested, the lines pushed so far are the fired
   * benefits of the first `k + 1` rules.
   */
  lemma BenefitStep(keyIngredients: seq<string>, k: nat, before: seq<string>, after: seq<string>)
    requires k < |BenefitRules|
    requires before == FiredBenefits(BenefitRules, k, keyIngredients)
    requires var keys := BenefitRules[k].keys;
      after == before + (if keys[0] in keyIngredients || (|keys| == 2 && keys[1] in keyIngredients)
                         then [BenefitRules[k].benefit] else [])
    ensures after == FiredBenefits(BenefitRules, k + 1, keyIngredients)
  {
    AnyInKeys(BenefitRules[k].keys, keyIngredients);
  }

  /** The benefit lines pushed one rule at a time. */
  method PushRuleBenefits(keyIngredients: seq<string>) returns (benefits: seq<string>)
    ensures benefits == FiredBenefits(BenefitRules, |BenefitRules|, keyIngredients)
  {
    benefits := [];
    ghost var before := benefits;
    benefits := benefits + (if HyaluronicAcid in keyIngredients || SodiumHyaluronate in keyIngredients then [Hydrating] else []);
    BenefitStep(keyIngredients, 0, before, benefits);
    before := benefits;
    benefits := benefits + (if Niacinamide in keyIngredients then [EvensTone] else []);
    BenefitStep(keyIngredients, 1, before, benefits);
    before := benefits;
    benefits := benefits + (if GlycerinKey in keyIngredients then [Moisturizing] else []);
    BenefitStep(keyIngredients, 2, before, benefits);
    before := benefits;
    benefits := benefits + (if CeramideKey in keyIngredients then [Barrier] else []);
    BenefitStep(keyIngredients, 3, before, benefits);
    before := benefits;
    benefits := benefits + (if VitaminC in keyIngredients || AscorbicAcid in keyIngredients then [Brightening] else []);
    BenefitStep(keyIngredients, 4, before, benefits);
    before := benefits;
    benefits := benefits + (if VitaminE in keyIngredients || TocopherolKey in keyIngredients then [Antioxidant] else []);
    BenefitStep(keyIngredients, 5, before, benefits);
    before := benefits;
    benefits := benefits + (if AloeVera in keyIngredients || AloeBarbadensis in keyIngredients then [Soothing] else []);
    BenefitStep(keyIngredients, 6, before, benefits);
  }

  /** The rule lines, then the generic pair when fewer than two were pushed. */
  method BuildBenefits(keyIngredients: seq<string>) returns (benefits: seq<string>)
    ensures benefits == Benefits(keyIngredients)
  {
    benefits := PushRuleBenefits(keyIngredients);
    if |benefits| < 2 {
      benefits := benefits + [SuitsSkinType];
      benefits := benefits + [DailyUse];
    }
  }

  /** The skin types in the order their labels are listed. */
  const SuitableOrder: seq<SkinType> := [Dry, Oily, Combination, Sensitive, Normal]

  function SkinLabel(t: SkinType): string
  {
    match t
    case Dry => "Dry skin"
    case Oily => "Oily skin"
    case Combination => "Combination skin"
    case Sensitive => "Sensitive skin"
    case Normal => "Normal skin"
  }

  function Labels(ts: seq<SkinType>): (r: seq<string>)
    ensures |r| == |ts| && forall i :: 0 <= i < |ts| ==> r[i] == SkinLabel(ts[i])
  {
    seq(|ts|, i requires 0 <= i < |ts| => SkinLabel(ts[i]))
  }

  function FlaggedFor(p: Product): SkinType -> bool
  {
    (t: SkinType) => Flag(p, t)
  }

  /** The labels of the skin types the product is flagged for, in the fixed order. */
  function SuitableFor(p: Product): seq<string>
  {
    Labels(Filter(SuitableOrder, FlaggedFor(p)))
  }

  /** Different skin types have different labels. */
  lemma SkinLabelInjective(a: SkinType, b: SkinType)
    ensures SkinLabel(a) == SkinLabel(b) ==> a == b
  {
  }

  /** Every skin type has its place in the fixed order. */
  lemma SuitableOrderComplete(t: SkinType)
    ensures t in SuitableOrder
  {
    match t
    case Dry => assert SuitableOrder[0] == t;
    case Oily => assert SuitableOrder[1] == t;
    case Combination => assert SuitableOrder[2] == t;
    case Sensitive => assert SuitableOrder[3] == t;
    case Normal => assert SuitableOrder[4] == t;
  }

  /** The five labels in the fixed order are all different. */
  lemma SuitableLabelsDistinct()
    ensures NoDuplicates(Labels(SuitableOrder))
  {
    var ls := Labels(SuitableOrder);
    forall i, j | 0 <= i < j < |ls| ensures ls[i] != ls[j] {
      SkinLabelInjective(SuitableOrder[i], SuitableOrder[j]);
    }
  }

  /** A label is among the labels of `ts` exactly when its skin type is in `ts`. */
  lemma LabelsMembers(ts: seq<SkinType>, t: SkinType)
    ensures SkinLabel(t) in Labels(ts) <==> t in ts
  {
    if SkinLabel(t) in Labels(ts) {
      var i :| 0 <= i < |ts| && Labels(ts)[i] == SkinLabel(t);
      SkinLabelInjective(ts[i], t);
    }
    if t in ts {
      var i :| 0 <= i < |ts| && ts[i] == t;
      assert Labels(ts)[i] == SkinLabel(t);
    }
  }

  /**
   * A label is listed exactly when the product carries that flag, each at
   * most once, in the order dry, oily, combination, sensitive, normal.
   */
  lemma SuitableForSpec(p: Product)
    ensures var r := SuitableFor(p);
      && |r| <= 5
      && IsSubseq(r, Labels(SuitableOrder))
      && NoDuplicates(r)
      && forall t: SkinType :: SkinLabel(t) in r <==> Flag(p, t)
  {
    var kept := Filter(SuitableOrder, FlaggedFor(p));
    FilterSpec(SuitableOrder, FlaggedFor(p));
    LabelsSubseq(kept, SuitableOrder);
    SuitableLabelsDistinct();
    SubseqNoDuplicates(Labels(kept), Labels(SuitableOrder));
    forall t: SkinType ensures SkinLabel(t) in Labels(kept) <==> Flag(p, t) {
      SuitableOrderComplete(t);
      LabelsMembers(kept, t);
    }
  }

  lemma {:induction false} LabelsSubseq(a: seq<SkinType>, b: seq<SkinType>)
    requires IsSubseq(a, b)
    ensures IsSubseq(Labels(a), Labels(b))
    decreases |b|
  {
    if a != [] && b != [] {
      assert Labels(a)[1..] == Labels(a[1..]) && Labels(b)[1..] == Labels(b[1..]);
      if a[0] == b[0] && IsSubseq(a[1..], b[1..]) {
        LabelsSubseq(a[1..], b[1..]);
      } else {
        LabelsSubseq(a, b[1..]);
      }
    }
  }

  /** After the `k`-th flag in the fixed order has been tested, the labels pushed so far are those of the first `k + 1`. */
  lemma SuitableStep(p: Product, k: nat, before: seq<string>, after: seq<string>)
    requires k < |SuitableOrder|
    requires before == Labels(Filter(SuitableOrder[..k], FlaggedFor(p)))
    requires after == before + (if Flag(p, SuitableOrder[k]) then [SkinLabel(SuitableOrder[k])] else [])
    ensures after == Labels(Filter(SuitableOrder[..k + 1], FlaggedFor(p)))
  {
    var f := FlaggedFor(p);
    FilterAppend(SuitableOrder[..k], [SuitableOrder[k]], f);
    assert SuitableOrder[..k + 1] == SuitableOrder[..k] + [SuitableOrder[k]];
    var a, b := Filter(SuitableOrder[..k], f), Filter([SuitableOrder[k]], f);
    assert Labels(a + b) == Labels(a) + Labels(b);
  }

  /** The labels pushed one flag at a time. */
  method BuildSuitableFor(p: Product) returns (suitableFor: seq<string>)
    ensures suitableFor == SuitableFor(p)
  {
    suitableFor := [];
    ghost var before := suitableFor;
    suitableFor := suitableFor + (if p.dry then ["Dry skin"] else []);
    SuitableStep(p, 0, before, suitableFor);
    before := suitableFor;
    suitableFor := suitableFor + (if p.oily then ["Oily skin"] else []);
    SuitableStep(p, 1, before, suitableFor);
    before := suitableFor;
    suitableFor := suitableFor + (if p.combination then ["Combination skin"] else []);
    SuitableStep(p, 2, before, suitableFor);
    before := suitableFor;
    suitableFor := suitableFor + (if p.sensitive then ["Sensitive skin"] else []);
    SuitableStep(p, 3, before, suitableFor);
    before := suitableFor;
    suitableFor := suitableFor + (if p.normal then ["Normal skin"] else []);
    SuitableStep(p, 4, before, suitableFor);
    assert SuitableOrder[..5] == SuitableOrder;
  }

  /** The `ProductRecommendation` record. */
  datatype ProductRecommendation = ProductRecommendation(
    name: string,
    brand: string,
    description: string,
    safetyScore: int,
    keyIngredients: seq<string>,
    benefits: seq<string>,
    price: string,
    whereToFind: string,
    suitableFor: seq<string>)

  const WhereToFind := "Available at major retailers and online stores"

  /** The sentence describing a product. */
  function Description(p: Product, suitableFor: seq<string>, keyIngredients: seq<string>): string
  {
    "A " + p.productType + " suitable for " + Join(suitableFor, ", ")
    + ". Contains beneficial ingredients like " + Join(keyIngredients, ", ") + "."
  }

  /** The card for a product and its scorer report: the first five beneficial keys lead. */
  function Card(p: Product, safety: SafetyReport): (r: ProductRecommendation)
    ensures r.name == p.name && r.brand == p.brand && r.price == p.price
    ensures r.safetyScore == safety.safetyScore
    ensures |r.keyIngredients| == if |safety.safeIngredients| <= 5 then |safety.safeIngredients| else 5
    ensures r.keyIngredients == safety.safeIngredients[..|r.keyIngredients|]
    ensures |r.benefits| >= 2
  {
    var keyIngredients := Take(safety.safeIngredients, 5);
    var suitableFor := SuitableFor(p);
    BenefitsSpec(keyIngredients);
    ProductRecommendation(p.name, p.brand, Description(p, suitableFor, keyIngredients), safety.safetyScore,
                          keyIngredients, Benefits(keyIngredients), p.price, WhereToFind, suitableFor)
  }

  /** The card for one product: its ingredients are parsed and scored. */
  function ToRecommendation(p: Product): ProductRecommendation
  {
    Card(p, Safety(ParseIngredients(p.ingredients)))
  }

  /** The card for one product, built as the source's `map` callback builds it. */
  method ProductToRecommendation(p: Product) returns (r: ProductRecommendation)
    ensures r == ToRecommendation(p)
  {
    var parsedIngredients := ParseIngredients(p.ingredients);
    var safety := AnalyzeIngredientSafety(parsedIngredients);
    var keyIngredients := Take(safety.safeIngredients, 5);
    var benefits := BuildBenefits(keyIngredients);
    var suitableFor := BuildSuitableFor(p);
    r := ProductRecommendation(p.name, p.brand, Description(p, suitableFor, keyIngredients), safety.safetyScore,
                               keyIngredients, benefits, p.price, WhereToFind, suitableFor);
  }

  /** The three budget tiers that filter by price; any other value keeps every product. */
  predicate IsBudgetTier(budget: string)
  {
    budget == "budget" || budget == "mid-range" || budget == "luxury"
  }

  /**
   * Whether a parsed price falls in the tier: under 15, 15 to 30, over 30.
   * `None` stands for a price that does not parse (`NaN`), which fails
   * every comparison.
   */
  predicate PriceFits(budget: string, price: Option<real>)
  {
    match price
    case None => false
    case Some(x) =>
      if budget == "budget" then x < 15.0
      else if budget == "mid-range" then 15.0 <= x <= 30.0
      else if budget == "luxury" then x > 30.0
      else true
  }

  function BudgetTest(budget: string, parsedPrice: Product -> Option<real>): Product -> bool
  {
    (p: Product) => PriceFits(budget, parsedPrice(p))
  }

  /**
   * The products a recommendation is drawn from: those for the skin type
   * and product type; when fewer than three, the same merged with the
   * top-rated products of the type, without repeats, at most five; then,
   * for a budget tier, those whose price fits.
   */
  function Candidates(
    products: seq<Product>, skinType: SkinType, productType: string,
    topRated: seq<Product>, budget: string, parsedPrice: Product -> Option<real>): (r: seq<Product>)
    ensures forall p :: p in r ==>
      && ((p in products && Flag(p, skinType) && TypeMatches(p, Some(productType))) || p in topRated)
      && (IsBudgetTier(budget) ==> PriceFits(budget, parsedPrice(p)))
  {
    var forSkin := GetProductsForSkinType(products, skinType, Some(productType));
    var merged := if |forSkin| < 3 then Take(Dedupe(forSkin + topRated), 5) else forSkin;
    GetProductsForSkinTypeSpec(products, skinType, Some(productType));
    SubseqElements(forSkin, products);
    assert forall p :: p in merged ==> p in forSkin || p in topRated by {
      if |forSkin| < 3 {
        forall p | p in merged ensures p in forSkin || p in topRated {
          assert p in Dedupe(forSkin + topRated);
        }
      }
    }
    FilterSpec(merged, BudgetTest(budget, parsedPrice));
    if IsBudgetTier(budget) then Filter(merged, BudgetTest(budget, parsedPrice)) else merged
  }

  /** `getProductRecommendations(...)` over the given dataset. */
  function Recommendations(
    products: seq<Product>, concerns: seq<string>, productType: string,
    topRated: seq<Product>, budget: string, parsedPrice: Product -> Option<real>): seq<ProductRecommendation>
  {
    Cards(Take(Candidates(products, SkinTypeFor(concerns), productType, topRated, budget, parsedPrice), 3))
  }

  /** One card per product, in order. */
  function Cards(chosen: seq<Product>): (r: seq<ProductRecommendation>)
    ensures |r| == |chosen|
  {
    if chosen == [] then [] else Cards(chosen[..|chosen| - 1]) + [ToRecommendation(chosen[|chosen| - 1])]
  }

  /** The card at each position is the card of the product at that position. */
  lemma {:induction false} CardsAt(chosen: seq<Product>, i: nat)
    requires i < |chosen|
    ensures Cards(chosen)[i] == ToRecommendation(chosen[i])
  {
    if i < |chosen| - 1 {
      CardsAt(chosen[..|chosen| - 1], i);
    }
  }

  lemma CardsSnoc(chosen: seq<Product>, i: nat)
    requires i < |chosen|
    ensures Cards(chosen[..i + 1]) == Cards(chosen[..i]) + [ToRecommendation(chosen[i])]
  {
    assert chosen[..i + 1][..i] == chosen[..i];
  }

  /** The `map` over the chosen products, one card at a time. */
  method BuildCards(chosen: seq<Product>) returns (cards: seq<ProductRecommendation>)
    ensures cards == Cards(chosen)
  {
    cards := [];
    for i := 0 to |chosen|
      invariant cards == Cards(chosen[..i])
    {
      var card := ProductToRecommendation(chosen[i]);
      CardsSnoc(chosen, i);
      cards := cards + [card];
    }
    assert chosen[..|chosen|] == chosen;
  }

  /**
   * At most three cards, each for a product that is flagged for the skin
   * type the concerns select or among the top-rated ones, whose price fits
   * the budget tier; each card's score is the scorer's on that product's
   * parsed ingredients, and each lists at least two benefits.
   */
  lemma RecommendationsSpec(
    products: seq<Product>, concerns: seq<string>, productType: string,
    topRated: seq<Product>, budget: string, parsedPrice: Product -> Option<real>)
    ensures var r := Recommendations(products, concerns, productType, topRated, budget, parsedPrice);
      var chosen := Take(Candidates(products, SkinTypeFor(concerns), productType, topRated, budget, parsedPrice), 3);
      && |r| <= 3 && |r| == |chosen|
      && forall i :: 0 <= i < |r| ==>
           && r[i].name == chosen[i].name
           && r[i].safetyScore == Safety(ParseIngredients(chosen[i].ingredients)).safetyScore
           && |r[i].benefits| >= 2
           && ((chosen[i] in products && Flag(chosen[i], SkinTypeFor(concerns))) || chosen[i] in topRated)
           && (IsBudgetTier(budget) ==> PriceFits(budget, parsedPrice(chosen[i])))
  {
    var cands := Candidates(products, SkinTypeFor(concerns), productType, topRated, budget, parsedPrice);
    var chosen := Take(cands, 3);
    forall i | 0 <= i < |chosen| ensures Cards(chosen)[i] == ToRecommendation(chosen[i]) && chosen[i] in cands {
      CardsAt(chosen, i);
    }
  }

  // ----- the module state: dataset and caches -----

  /**
   * The state the server actions share: the dataset, loaded once, and the
   * two memoising caches, which only ever gain entries.
   */
  class AnalysisService {
    /** The loaded dataset (`productsCache`); its contents are an input to the model. */
    const products: seq<Product>
    /** `comparisonCache`, keyed by `ComparisonKey`. */
    var comparisonCache: map<string, ComparisonResult>
    /** `safetyScoreCache`, keyed by `SafetyKey`. */
    var safetyScoreCache: map<string, SafetyPrediction>

    constructor (products: seq<Product>)
      ensures this.products == products
      ensures comparisonCache == map[] && safetyScoreCache == map[]
    {
      this.products := products;
      comparisonCache := map[];
      safetyScoreCache := map[];
    }

    /**
     * `analyzeProducts(...)`. A stored result under the names and type is
     * returned as it is, whatever the ingredient strings; otherwise the
     * ingredient strings are filled in, the engine runs, and its result is
     * stored under the key. Entries already stored are never changed.
     */
    method AnalyzeProducts(
      originalProduct: string, originalIngredients: string,
      alternativeProduct: string, alternativeIngredients: string,
      productType: string) returns (r: ComparisonResult)
      modifies this`comparisonCache
      ensures var key := ComparisonKey(originalProduct, alternativeProduct, productType);
        && (key in old(comparisonCache) ==> r == old(comparisonCache)[key] && comparisonCache == old(comparisonCache))
        && (key !in old(comparisonCache) ==>
              r == FreshAnalysis(products, originalProduct, originalIngredients, alternativeProduct, alternativeIngredients, productType)
              && comparisonCache == old(comparisonCache)[key := r])
    {
      var cacheKey := ComparisonKey(originalProduct, alternativeProduct, productType);
      if cacheKey in comparisonCache {
        return comparisonCache[cacheKey];
      }
      r := FreshComparison(originalProduct, originalIngredients, alternativeProduct, alternativeIngredients, productType);
      comparisonCache := comparisonCache[cacheKey := r];
    }

    /** What `analyzeProducts` computes on a cache miss. */
    method FreshComparison(
      originalProduct: string, originalIngredients: string,
      alternativeProduct: string, alternativeIngredients: string,
      productType: string) returns (r: ComparisonResult)
      ensures r == FreshAnalysis(products, originalProduct, originalIngredients, alternativeProduct, alternativeIngredients, productType)
    {
      var ingredients1, ingredients2 := ResolveIngredients(originalProduct, originalIngredients, alternativeProduct, alternativeIngredients);
      r := AnalyzeAndCompareProducts(originalProduct, ingredients1, alternativeProduct, ingredients2, productType);
    }

    /**
     * The two ingredient strings `analyzeProducts` hands to the engine: the
     * dataset is consulted when either is empty, and the placeholders fill
     * whatever is still empty.
     */
    method ResolveIngredients(
      originalProduct: string, originalIngredients: string,
      alternativeProduct: string, alternativeIngredients: string)
      returns (ingredients1: string, ingredients2: string)
      ensures ingredients1 == IngredientSource(originalIngredients, GetProductByName(products, originalProduct), OriginalPlaceholder)
      ensures ingredients2 == IngredientSource(alternativeIngredients, GetProductByName(products, alternativeProduct), AlternativePlaceholder)
    {
      ingredients1 := originalIngredients;
      ingredients2 := alternativeIngredients;
      if ingredients1 == [] || ingredients2 == [] {
        var originalMatch := GetProductByName(products, originalProduct);
        var alternativeMatch := GetProductByName(products, alternativeProduct);
        if originalMatch.Some? && ingredients1 == [] { ingredients1 := originalMatch.value.ingredients; }
        if alternativeMatch.Some? && ingredients2 == [] { ingredients2 := alternativeMatch.value.ingredients; }
      }
      if ingredients1 == [] {
        ingredients1 := OriginalPlaceholder;
      }
      if ingredients2 == [] {
        ingredients2 := AlternativePlaceholder;
      }
    }

    /**
     * Two calls with the same names and type: the second returns what the
     * first did, even with other ingredient strings.
     */
    method AnalyzeTwice(
      originalProduct: string, alternativeProduct: string, productType: string,
      firstIngredients: (string, string), secondIngredients: (string, string))
      returns (first: ComparisonResult, second: ComparisonResult)
      modifies this`comparisonCache
      ensures second == first
    {
      first := AnalyzeProducts(originalProduct, firstIngredients.0, alternativeProduct, firstIngredients.1, productType);
      second := AnalyzeProducts(originalProduct, secondIngredients.0, alternativeProduct, secondIngredients.1, productType);
    }

    /**
     * `predictSafetyScore(...)`. A stored prediction under the name and type
     * is returned as it is; otherwise the ingredient string is looked up
     * when it is blank, scored, worded, and stored under the key.
     */
    method PredictSafetyScore(productName: string, ingredients: string, productType: string)
      returns (r: SafetyPrediction)
      modifies this`safetyScoreCache
      ensures var key := SafetyKey(productName, productType);
        && (key in old(safetyScoreCache) ==> r == old(safetyScoreCache)[key] && safetyScoreCache == old(safetyScoreCache))
        && (key !in old(safetyScoreCache) ==>
              r == Prediction(productName, PredictionSource(products, productName, ingredients))
              && safetyScoreCache == old(safetyScoreCache)[key := r])
    {
      var cacheKey := SafetyKey(productName, productType);
      if cacheKey in safetyScoreCache {
        return safetyScoreCache[cacheKey];
      }
      r := Predict(productName, ingredients);
      safetyScoreCache := safetyScoreCache[cacheKey := r];
    }

    /** What `predictSafetyScore` computes on a cache miss. */
    method Predict(productName: string, ingredients: string) returns (r: SafetyPrediction)
      ensures r == Prediction(productName, PredictionSource(products, productName, ingredients))
    {
      var source := ingredients;
      if source == [] || Trim(source) == [] {
        var product := GetProductByName(products, productName);
        if product.Some? {
          source := product.value.ingredients;
        }
      }
      var parsedIngredients := ParseIngredients(source);
      var safety := AnalyzeIngredientSafety(parsedIngredients);
      var analysis := WriteAnalysis(productName, safety);
      r := SafetyPrediction(safety.safetyScore, safety.concerns, safety.safeIngredients,
                            safety.questionableIngredients, analysis);
    }

    /**
     * `getProductRecommendations(...)` with this dataset. `topRated` is what
     * `getTopRatedProducts(productType, 5)` returns and `parsedPrice` what
     * `parseFloat` makes of a product's price without its `$`.
     */
    method GetProductRecommendations(
      concerns: seq<string>, productType: string, topRated: seq<Product>,
      budget: string, parsedPrice: Product -> Option<real>)
      returns (recommendations: seq<ProductRecommendation>)
      ensures recommendations == Recommendations(products, concerns, productType, topRated, budget, parsedPrice)
    {
      var skinType := DetermineSkinType(concerns);
      var candidates := GetProductsForSkinType(products, skinType, Some(productType));
      if |candidates| < 3 {
        candidates := Take(Dedupe(candidates + topRated), 5);
      }
      if IsBudgetTier(budget) {
        candidates := Filter(candidates, BudgetTest(budget, parsedPrice));
      }
      recommendations := BuildCards(Take(candidates, 3));
    }

    /**
     * `getProductSuggestions(skinType, productType)`: the products of this
     * dataset for the skin type and product type, at most ten.
     */
    method GetProductSuggestions(skinType: SkinType, productType: string) returns (r: seq<Product>)
      ensures |r| <= SkinTypeLimit
      ensures IsSubseq(r, products)
      ensures forall p :: p in r ==> Flag(p, skinType) && TypeMatches(p, Some(productType))
      ensures |r| < SkinTypeLimit ==>
        forall p :: p in products && Flag(p, skinType) && TypeMatches(p, Some(productType)) ==> p in r
    {
      r := GetProductsForSkinType(products, skinType, Some(productType));
      GetProductsForSkinTypeSpec(products, skinType, Some(productType));
    }
  }
}
