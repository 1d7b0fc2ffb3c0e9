/**
 * `analyzeAndCompareProducts`: parse both ingredient strings, score both
 * lists, compare them and phrase a recommendation, returned as the
 * `ComparisonResult` record.
 */
module Orchestrator {
  import opened Text
  import opened Collections
  import opened IngredientParser
  import opened SafetyScorer
  import opened Comparator
  import opened Recommender

  datatype ScorePair = ScorePair(original: int, alternative: int)

  datatype IngredientLists = IngredientLists(
    common: seq<string>,
    onlyInOriginal: seq<string>,
    onlyInAlternative: seq<string>)

  datatype ConcernLists = ConcernLists(original: seq<string>, alternative: seq<string>)

  /** The `ComparisonResult` record. */
  datatype ComparisonResult = ComparisonResult(
    matchPercentage: int,
    safetyScore: ScorePair,
    ingredients: IngredientLists,
    concerns: ConcernLists,
    recommendation: string)

  /**
   * The result for two products. `productType` is accepted and, as in the
   * source, does not take part.
   */
  function AnalyzeAndCompare(
    originalProduct: string, originalIngredients: string,
    alternativeProduct: string, alternativeIngredients: string,
    productType: string): (r: ComparisonResult)
    ensures 0 <= r.safetyScore.original <= 100 && 0 <= r.safetyScore.alternative <= 100
    ensures |r.ingredients.common| + |r.ingredients.onlyInOriginal| == |ParseIngredients(originalIngredients)|
  {
    var po := ParseIngredients(originalIngredients);
    var pa := ParseIngredients(alternativeIngredients);
    var so := Safety(po);
    var sa := Safety(pa);
    var c := Compare(po, pa);
    ComparePartition(po, pa);
    ComparisonResult(
      c.matchPercentage,
      ScorePair(so.safetyScore, sa.safetyScore),
      IngredientLists(c.common, c.onlyInOriginal, c.onlyInAlternative),
      ConcernLists(so.concerns, sa.concerns),
      Recommendation(originalProduct, alternativeProduct, so.safetyScore, sa.safetyScore,
                     c.matchPercentage, |c.onlyInOriginal|, |c.onlyInAlternative|))
  }

  /** `analyzeAndCompareProducts(...)`, step by step as the source composes it. */
  method AnalyzeAndCompareProducts(
    originalProduct: string, originalIngredients: string,
    alternativeProduct: string, alternativeIngredients: string,
    productType: string) returns (r: ComparisonResult)
    ensures r == AnalyzeAndCompare(originalProduct, originalIngredients, alternativeProduct, alternativeIngredients, productType)
  {
    var parsedOriginalIngredients := ParseIngredients(originalIngredients);
    var parsedAlternativeIngredients := ParseIngredients(alternativeIngredients);
    var originalSafety := AnalyzeIngredientSafety(parsedOriginalIngredients);
    var alternativeSafety := AnalyzeIngredientSafety(parsedAlternativeIngredients);
    var comparison := Compare(parsedOriginalIngredients, parsedAlternativeIngredients);
    var recommendation := GenerateRecommendation(
      originalProduct, alternativeProduct,
      originalSafety.safetyScore, alternativeSafety.safetyScore,
      comparison.matchPercentage,
      |comparison.common|, |comparison.onlyInOriginal|, |comparison.onlyInAlternative|);
    r := ComparisonResult(
      comparison.matchPercentage,
      ScorePair(originalSafety.safetyScore, alternativeSafety.safetyScore),
      IngredientLists(comparison.common, comparison.onlyInOriginal, comparison.onlyInAlternative),
      ConcernLists(originalSafety.concerns, alternativeSafety.concerns),
      recommendation);
  }

  /** The product type passed in never changes the result. */
  lemma ProductTypeIrrelevant(
    originalProduct: string, originalIngredients: string,
    alternativeProduct: string, alternativeIngredients: string,
    t1: string, t2: string)
    ensures AnalyzeAndCompare(originalProduct, originalIngredients, alternativeProduct, alternativeIngredients, t1)
         == AnalyzeAndCompare(originalProduct, originalIngredients, alternativeProduct, alternativeIngredients, t2)
  {
  }

  /**
   * A consequence of the self-comparison in `compareProducts`: the
   * alternative-unique clause is chosen exactly when the original string
   * yields no tokens and the alternative string yields some.
   */
  lemma AlternativeUniqueIff(
    originalProduct: string, originalIngredients: string,
    alternativeProduct: string, alternativeIngredients: string, productType: string)
    ensures var r := AnalyzeAndCompare(originalProduct, originalIngredients, alternativeProduct, alternativeIngredients, productType);
      UniquenessOf(|r.ingredients.onlyInOriginal|, |r.ingredients.onlyInAlternative|) == AlternativeUnique
      <==> ParseIngredients(originalIngredients) == [] && ParseIngredients(alternativeIngredients) != []
  {
    var po, pa := ParseIngredients(originalIngredients), ParseIngredients(alternativeIngredients);
    OnlyInAlternativeSelfComparison(po, pa);
    ComparePartition(po, pa);
  }

  /**
   * When the original string yields tokens, the original-unique clause is
   * chosen exactly when some original token has no counterpart in the
   * alternative list.
   */
  lemma OriginalUniqueIff(
    originalProduct: string, originalIngredients: string,
    alternativeProduct: string, alternativeIngredients: string, productType: string)
    requires ParseIngredients(originalIngredients) != []
    ensures var r := AnalyzeAndCompare(originalProduct, originalIngredients, alternativeProduct, alternativeIngredients, productType);
      UniquenessOf(|r.ingredients.onlyInOriginal|, |r.ingredients.onlyInAlternative|) == OriginalUnique
      <==> exists t :: t in LowerAll(ParseIngredients(originalIngredients))
                       && !HasCounterpart(LowerAll(ParseIngredients(alternativeIngredients)), t)
  {
    var po, pa := ParseIngredients(originalIngredients), ParseIngredients(alternativeIngredients);
    OnlyInAlternativeSelfComparison(po, pa);
    ComparePartition(po, pa);
    var r := Compare(po, pa);
    if |r.onlyInOriginal| > 0 {
      assert r.onlyInOriginal[0] in r.onlyInOriginal;
    }
  }

  /** Two empty ingredient strings: 0% match, the neutral score twice, empty lists, the "similar" opening. */
  lemma AnalyzeNothing(originalProduct: string, alternativeProduct: string, productType: string)
    ensures AnalyzeAndCompare(originalProduct, "", alternativeProduct, "", productType)
         == ComparisonResult(0, ScorePair(70, 70), IngredientLists([], [], []), ConcernLists([], []),
                             SimilarOpening + OverlapClause(0))
  {
    AssessOfNoIngredients(ConcerningIngredients, BeneficialIngredients);
    assert LowerAll([]) == [];
  }
}
