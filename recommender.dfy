/**
 * `generateRecommendation`: one opening sentence chosen from the two safety
 * scores (with a match-percentage clause when they are close), followed by
 * at most one clause about unique ingredients.
 */
module Recommender {
  import opened Text

  /** Which of the three openings the scores select. */
  datatype Verdict = AlternativeSafer | OriginalSafer | Similar

  function Abs(x: int): nat
  {
    if x < 0 then -x else x
  }

  /**
   * The opening the scores select: the alternative is safer when it scores
   * more than 10 above the original, the original when it scores more than
   * 10 above the alternative, and the two are similar within 10 points.
   */
  function VerdictOf(originalScore: int, alternativeScore: int): (v: Verdict)
    ensures v == AlternativeSafer <==> alternativeScore > originalScore + 10
    ensures v == OriginalSafer <==> originalScore > alternativeScore + 10
    ensures v == Similar <==> Abs(originalScore - alternativeScore) <= 10
  {
    if alternativeScore > originalScore + 10 then AlternativeSafer
    else if originalScore > alternativeScore + 10 then OriginalSafer
    else Similar
  }

  /** How much the two ingredient lists overlap, by the 70 and 30 thresholds. */
  datatype Overlap = Many | Few | Moderate

  function OverlapOf(matchPercentage: int): (b: Overlap)
    ensures b == Many <==> matchPercentage > 70
    ensures b == Few <==> matchPercentage < 30
  {
    if matchPercentage > 70 then Many
    else if matchPercentage < 30 then Few
    else Moderate
  }

  /** The fixed words of the sentences, named once. */
  const SimilarOpening := "Both products have similar safety profiles. "
  const PercentMatch := "% match"
  const SignificantlySaferThan := " appears to be significantly safer than "
  const FewerHarmful := " with fewer potentially harmful ingredients."
  const StayWithCurrent := ". Consider staying with your current product."
  const ManyLead := "They share many common ingredients ("
  const FewLead := "However, they have very different ingredient lists (only "
  const ModerateLead := "They have a moderate ingredient overlap ("
  const ManyTail := "), so you might experience similar results with either product."
  const FewTail := "), so they may provide different benefits."
  const ModerateTail := ")."
  const MoreUniqueAdditional := " contains significantly more unique ingredients, which might offer additional benefits not found in "
  const MoreUnique := " contains significantly more unique ingredients, which might offer benefits not found in "

  /** The words before the percentage in the overlap clause. */
  function OverlapLead(b: Overlap): string
  {
    match b
    case Many => ManyLead
    case Few => FewLead
    case Moderate => ModerateLead
  }

  /** The words after "% match" in the overlap clause. */
  function OverlapTail(b: Overlap): string
  {
    match b
    case Many => ManyTail
    case Few => FewTail
    case Moderate => ModerateTail
  }

  /** The sentence that follows the "similar" opening; `${matchPercentage}` renders the number in decimal. */
  function OverlapClause(matchPercentage: int): string
  {
    var b := OverlapOf(matchPercentage);
    OverlapLead(b) + IntToString(matchPercentage) + PercentMatch + OverlapTail(b)
  }

  function AlternativeSaferSentence(originalName: string, alternativeName: string): string
  {
    alternativeName + SignificantlySaferThan + originalName + FewerHarmful
  }

  function OriginalSaferSentence(originalName: string, alternativeName: string): string
  {
    originalName + SignificantlySaferThan + alternativeName + StayWithCurrent
  }

  function Opening(originalName: string, alternativeName: string, verdict: Verdict, matchPercentage: int): string
  {
    match verdict
    case AlternativeSafer => AlternativeSaferSentence(originalName, alternativeName)
    case OriginalSafer => OriginalSaferSentence(originalName, alternativeName)
    case Similar => SimilarOpening + OverlapClause(matchPercentage)
  }

  /** Which product, if either, has more than twice as many unmatched ingredients as the other. */
  datatype Uniqueness = AlternativeUnique | OriginalUnique | Balanced

  /**
   * The counts are list lengths, so the two guards never hold together and
   * the `else` between them decides nothing.
   */
  function UniquenessOf(onlyInOriginalCount: nat, onlyInAlternativeCount: nat): (u: Uniqueness)
    ensures u == AlternativeUnique <==> onlyInAlternativeCount > onlyInOriginalCount * 2
    ensures u == OriginalUnique <==> onlyInOriginalCount > onlyInAlternativeCount * 2
    ensures u == Balanced <==>
      onlyInAlternativeCount <= onlyInOriginalCount * 2 && onlyInOriginalCount <= onlyInAlternativeCount * 2
  {
    if onlyInAlternativeCount > onlyInOriginalCount * 2 then AlternativeUnique
    else if onlyInOriginalCount > onlyInAlternativeCount * 2 then OriginalUnique
    else Balanced
  }

  function AlternativeUniqueSentence(originalName: string, alternativeName: string): string
  {
    " " + alternativeName + MoreUniqueAdditional + originalName + "."
  }

  function OriginalUniqueSentence(originalName: string, alternativeName: string): string
  {
    " " + originalName + MoreUnique + alternativeName + "."
  }

  function UniqueClause(originalName: string, alternativeName: string, u: Uniqueness): string
  {
    match u
    case AlternativeUnique => AlternativeUniqueSentence(originalName, alternativeName)
    case OriginalUnique => OriginalUniqueSentence(originalName, alternativeName)
    case Balanced => ""
  }

  /** The recommendation text: the selected opening followed by the selected unique-ingredient clause. */
  function Recommendation(
    originalName: string, alternativeName: string,
    originalSafetyScore: int, alternativeSafetyScore: int,
    matchPercentage: int, onlyInOriginalCount: nat, onlyInAlternativeCount: nat): string
  {
    Opening(originalName, alternativeName, VerdictOf(originalSafetyScore, alternativeSafetyScore), matchPercentage)
    + UniqueClause(originalName, alternativeName, UniquenessOf(onlyInOriginalCount, onlyInAlternativeCount))
  }

  /**
   * `generateRecommendation(...)`, which builds the text with `+=`. The
   * third guard of the source, `Math.abs(o - a) <= 10`, is checked as
   * written; `commonCount` is accepted and, as in the source, unused.
   */
  method GenerateRecommendation(
    originalName: string, alternativeName: string,
    originalSafetyScore: int, alternativeSafetyScore: int,
    matchPercentage: int, commonCount: nat, onlyInOriginalCount: nat, onlyInAlternativeCount: nat)
    returns (recommendation: string)
    ensures recommendation == Recommendation(originalName, alternativeName, originalSafetyScore, alternativeSafetyScore,
                                             matchPercentage, onlyInOriginalCount, onlyInAlternativeCount)
  {
    recommendation := "";
    if alternativeSafetyScore > originalSafetyScore + 10 {
      recommendation := AlternativeSaferSentence(originalName, alternativeName);
    } else if originalSafetyScore > alternativeSafetyScore + 10 {
      recommendation := OriginalSaferSentence(originalName, alternativeName);
    } else if Abs(originalSafetyScore - alternativeSafetyScore) <= 10 {
      recommendation := SimilarOpening;
      var band: Overlap;
      if matchPercentage > 70 {
        band := Many;
      } else if matchPercentage < 30 {
        band := Few;
      } else {
        band := Moderate;
      }
      recommendation := recommendation + (OverlapLead(band) + IntToString(matchPercentage) + PercentMatch + OverlapTail(band));
    }
    if onlyInAlternativeCount > onlyInOriginalCount * 2 {
      recommendation := recommendation + AlternativeUniqueSentence(originalName, alternativeName);
    } else if onlyInOriginalCount > onlyInAlternativeCount * 2 {
      recommendation := recommendation + OriginalUniqueSentence(originalName, alternativeName);
    }
  }

  /** Every opening is a non-empty sentence, so no recommendation is empty. */
  lemma RecommendationNotEmpty(
    originalName: string, alternativeName: string,
    originalSafetyScore: int, alternativeSafetyScore: int,
    matchPercentage: int, onlyInOriginalCount: nat, onlyInAlternativeCount: nat)
    ensures |Recommendation(originalName, alternativeName, originalSafetyScore, alternativeSafetyScore,
                            matchPercentage, onlyInOriginalCount, onlyInAlternativeCount)| > 0
  {
    var v := VerdictOf(originalSafetyScore, alternativeSafetyScore);
    match v
    case AlternativeSafer =>
      assert |AlternativeSaferSentence(originalName, alternativeName)| > 0;
    case OriginalSafer =>
      assert |OriginalSaferSentence(originalName, alternativeName)| > 0;
    case Similar =>
      assert |SimilarOpening| > 0;
  }

  /** Only the "similar" opening depends on the match percentage. */
  lemma OpeningIgnoresPercentUnlessSimilar(originalName: string, alternativeName: string, v: Verdict, p: int, q: int)
    requires v != Similar
    ensures Opening(originalName, alternativeName, v, p) == Opening(originalName, alternativeName, v, q)
  {
  }

  /**
   * The "similar" opening starts with the fixed sentence and then carries
   * the decimal percentage, followed by "% match", right after the words
   * of the band the percentage falls in.
   */
  lemma SimilarOpeningCarriesPercent(originalName: string, alternativeName: string, p: int)
    ensures var o := Opening(originalName, alternativeName, Similar, p);
      var at := |SimilarOpening| + |OverlapLead(OverlapOf(p))|;
      && o[..|SimilarOpening|] == SimilarOpening
      && OccursAt(o, IntToString(p) + PercentMatch, at)
  {
    PieceAt(SimilarOpening, OverlapLead(OverlapOf(p)), IntToString(p), PercentMatch, OverlapTail(OverlapOf(p)));
  }

  /** Where the pieces of `a + (b + c + d + e)` sit. */
  lemma PieceAt(a: string, b: string, c: string, d: string, e: string)
    ensures var o := a + (b + c + d + e);
      o[..|a|] == a && OccursAt(o, c + d, |a| + |b|)
  {
    var o := a + (b + c + d + e);
    assert o == (a + b) + (c + d) + e;
  }

  /** The unique-ingredient clause is empty exactly when neither count exceeds twice the other. */
  lemma UniqueClauseEmptyIff(originalName: string, alternativeName: string, onlyInOriginalCount: nat, onlyInAlternativeCount: nat)
    ensures UniqueClause(originalName, alternativeName, UniquenessOf(onlyInOriginalCount, onlyInAlternativeCount)) == [] <==>
      onlyInAlternativeCount <= onlyInOriginalCount * 2 && onlyInOriginalCount <= onlyInAlternativeCount * 2
  {
    var u := UniquenessOf(onlyInOriginalCount, onlyInAlternativeCount);
    match u
    case AlternativeUnique =>
      assert |AlternativeUniqueSentence(originalName, alternativeName)| > 0;
    case OriginalUnique =>
      assert |OriginalUniqueSentence(originalName, alternativeName)| > 0;
    case Balanced =>
  }
}
