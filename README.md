# Cosmetics ingredient analysis — a Dafny model

This project models the engine of a web application that compares two
cosmetic products by their ingredient lists. The engine:

- splits a free-text ingredient list into ingredient names;
- scores each list against fixed tables of concerning and beneficial
  ingredients (a score from 0 to 100, the concerns found, the beneficial
  ingredients found);
- compares the two lists (a match percentage, the ingredients in common,
  and those only in one product);
- writes an English recommendation.

The model also covers the server actions built on that engine:

- `analyzeProducts`, with its ingredient fallbacks and its memoising cache;
- `getProductRecommendations`, which builds recommendation cards for a set
  of skin concerns and a budget;
- `predictSafetyScore`, with its tiered analysis text and its own cache;
- `getProductSuggestions`.

The product dataset is an input: a sequence of `Product` records.

Modules, in dependency order:

| module | file | models |
|---|---|---|
| `Text` | `text.dfy` | the JavaScript string operations used: ASCII `toLowerCase`, `includes`, `trim`, `join`, number formatting |
| `Collections` | `collections.dfy` | `filter`, `slice(0, n)`, `find`, `new Set` de-duplication, subsequences |
| `IngredientParser` | `ingredient_parser.dfy` | `parseIngredients` |
| `SafetyScorer` | `safety_scorer.dfy` | `analyzeIngredientSafety`, its two tables and the score arithmetic |
| `SafetyExample` | `safety_example.dfy` | one worked example of the scorer |
| `Comparator` | `comparator.dfy` | `compareProducts` |
| `Recommender` | `recommender.dfy` | `generateRecommendation` |
| `Catalog` | `catalog.dfy` | the product record, `searchProducts`, `getProductByName`, `getProductsForSkinType` |
| `Orchestrator` | `orchestrator.dfy` | `analyzeAndCompareProducts` and the `ComparisonResult` record |
| `ProductAnalysis` | `product_analysis.dfy` | the server actions; class `AnalysisService` holds the dataset and the two caches as `map` fields |

Operations that change a local variable step by step in the source are
methods:

- the three `forEach` passes of the scorer, and the card-building `map`,
  are loops with invariants;
- the `if`/`push` chains that build the benefit and skin-type lists are
  straight-line sequences of guarded appends;
- the `if` chains that choose a skin type, a recommendation or an analysis
  text.

Each of these methods is proved equal to a specification function. The
properties are proved about those functions.

The server actions are methods of `AnalysisService`:

- `AnalyzeProducts` and `PredictSafetyScore` are specified by the value
  they return and the new state of their cache;
- `GetProductSuggestions` is specified by the properties of its result
  directly.

Behaviours of the code that the model keeps as written:

- **The `onlyInAlternative` test compares each ingredient with itself**
  (`lib/kaggle-data.ts:457`). `ingredient.includes(ingredient)` is always
  true. So `onlyInAlternative` is empty whenever the original list is not
  empty. When the original list is empty, `onlyInAlternative` is the whole
  lower-cased alternative list.
  - `Comparator.OnlyInAlternativeSelfComparison` proves this.
  - `Orchestrator.AlternativeUniqueIff` proves the consequence: the
    "alternative has more unique ingredients" sentence appears exactly when
    the original parses to nothing and the alternative does not.
- **The match percentage can exceed 100.** `common` keeps repeated
  ingredients, but the denominator counts distinct ones
  (`Comparator.MatchPercentageCanExceed100`). It stays within 0..100 when
  the original list has no repeats (`Comparator.MatchPercentageAtMost100`).
- **The scorer matches keys by substring, so one ingredient can match
  several keys.** "methylparaben" contains "ethylparaben". For
  `["Water", "Glycerin", "Methylparaben"]` the score is therefore
  70 + 2 − 5 − 5 = 62 (`SafetyExample.SafetyWorkedExample`). A reading
  that counts one paraben would give 67. The model follows the code.
- **Both cache keys are built by joining with `|`**, so distinct requests
  can share a key and receive each other's cached result
  (`ProductAnalysis.ComparisonKeysCollide`). The ingredient strings are not
  part of the comparison key at all. So a second call with different
  ingredients returns the first result (`ProductAnalysis.AnalysisService.AnalyzeTwice`).
- **`productType` does not affect `analyzeAndCompareProducts`**
  (`Orchestrator.ProductTypeIrrelevant`).

## Model

| member | source | states |
|---|---|---|
| Text.Lower | lib/kaggle-data.ts:375 | `toLowerCase` keeps the length and leaves no ASCII capital. Every other character is kept, and each capital becomes its lower-case letter, 32 code points above it. |
| Text.IncludesSpec | lib/kaggle-data.ts:380 | `s.includes(k)` holds exactly when `k` occurs in `s` at some position |
| Text.IncludesTooLong | lib/kaggle-data.ts:441 | a string never includes a longer one |
| Text.TrimSlice | lib/kaggle-data.ts:290 | `trim()` returns a slice of its input with white space only before and after it; the result has no white space at either end; it is empty exactly when the input is all white space |
| Text.Join | app/actions/product-analysis.ts:208 | joining nothing gives the empty string, joining one string gives that string, and the result starts with the first string |
| Text.DecimalRoundTrip | lib/kaggle-data.ts:496 | the decimal digits printed for a percentage read back as the same number |
| Text.NatToDecimal | lib/kaggle-data.ts:496 | a printed number is a non-empty run of digits with no leading zero |
| IngredientParser.Split | lib/kaggle-data.ts:289 | splitting on `,` `;` `\|` gives at least one piece, and no piece holds a separator |
| IngredientParser.SplitRoundTrip | lib/kaggle-data.ts:289 | the pieces interleaved with the separators found rebuild the input exactly |
| IngredientParser.SplitConcat | lib/kaggle-data.ts:289 | splitting at a separator splits the input into the pieces of each side |
| IngredientParser.ParseIngredients | lib/kaggle-data.ts:284-292 | the empty string gives no ingredients, and every ingredient is non-empty, trimmed and free of separators |
| IngredientParser.ParseIsCleanSplit | lib/kaggle-data.ts:288-291 | parsing is split, then trim each piece, then drop the empty ones |
| IngredientParser.ParseConcat | lib/kaggle-data.ts:288-291 | parsing two lists joined by a separator gives the two parses concatenated |
| IngredientParser.ParseSegment | lib/kaggle-data.ts:288-291 | a separator-free string parses to nothing when blank and to its trimmed self otherwise |
| SafetyScorer.Assess | lib/kaggle-data.ts:375-419 | the score lies in 0..100 and there is one concern text per questionable ingredient |
| SafetyScorer.ScanConcerns | lib/kaggle-data.ts:378-383 | the `forEach` pass keeps exactly the table rows whose key occurs in some lower-cased ingredient, in table order |
| SafetyScorer.ScanBeneficial | lib/kaggle-data.ts:386-391 | the `forEach` pass keeps exactly the beneficial keys that occur in some lower-cased ingredient, in table order |
| SafetyScorer.ApplyPenalties | lib/kaggle-data.ts:401-409 | the loop subtracts 10, 5 or 2 per concern found by severity, i.e. the total penalty |
| SafetyScorer.Score | lib/kaggle-data.ts:375-419 | the imperative scorer returns the specified report for any tables and ingredients |
| SafetyScorer.AnalyzeIngredientSafety | lib/kaggle-data.ts:309-420 | the scorer run over the source's two tables |
| SafetyScorer.TablesDistinct | lib/kaggle-data.ts:316-372 | neither table repeats a key |
| SafetyScorer.AssessScoreFormula | lib/kaggle-data.ts:395-412 | score = clamp(70 + min(2 × beneficial found, 20) − penalties of the questionable keys) |
| SafetyScorer.AssessBeneficialList | lib/kaggle-data.ts:386-391 | the beneficial list is in table order, has no repeats, and holds exactly the keys that some ingredient contains |
| SafetyScorer.AssessQuestionableOrder | lib/kaggle-data.ts:378-383 | the questionable list is in table order and has no repeats |
| SafetyScorer.AssessQuestionableMembers | lib/kaggle-data.ts:378-383 | a key is questionable exactly when it is a concerning key that some lower-cased ingredient contains |
| SafetyScorer.AssessConcernTexts | lib/kaggle-data.ts:416-418 | the i-th concern text is the text of the table row named by the i-th questionable ingredient |
| SafetyScorer.SafetyLists | lib/kaggle-data.ts:309-420 | with the source's tables: the score formula, and both lists duplicate-free and in table order |
| SafetyScorer.AssessOfNoIngredients | lib/kaggle-data.ts:395-419 | no ingredients gives score 70 and three empty lists |
| SafetyScorer.MentionsByElement | lib/kaggle-data.ts:380 | a key is found exactly when some ingredient, lower-cased, contains it |
| SafetyScorer.AssessDependsOnlyOnElements | lib/kaggle-data.ts:375-419 | the report depends only on which ingredients occur, not on their order or repetition |
| SafetyExample.SafetyWorkedExample | lib/kaggle-data.ts:309-420 | Water, Glycerin, Methylparaben scores 62: glycerin is found, and both methylparaben and ethylparaben are flagged |
| Comparator.RoundedPercentSpec | lib/kaggle-data.ts:463 | `Math.round(c / u × 100)` is the integer nearest to 100c/u, rounding halves up |
| Comparator.RoundedPercentAtMost100 | lib/kaggle-data.ts:463 | the rounded percentage of a part of a whole lies in 0..100 |
| Comparator.RoundedPercentOfWhole | lib/kaggle-data.ts:463 | the whole is 100 % |
| Comparator.ComparePartition | lib/kaggle-data.ts:435-451 | `common` and `onlyInOriginal` split the lower-cased original list between them in order, as a multiset. An ingredient is common exactly when some alternative ingredient contains it or is contained in it. |
| Comparator.OnlyInAlternativeSelfComparison | lib/kaggle-data.ts:454-459 | `onlyInAlternative` is empty for any non-empty original, and the whole lower-cased alternative for an empty one |
| Comparator.MatchPercentageCases | lib/kaggle-data.ts:462-463 | two empty lists give 0; otherwise the percentage is `common` over the distinct lower-cased ingredients, rounded |
| Comparator.MatchPercentageAtMost100 | lib/kaggle-data.ts:462-463 | an original list without repeats gives a percentage in 0..100 |
| Comparator.MatchPercentageCanExceed100 | lib/kaggle-data.ts:439-463 | `["a", "a"]` against `["a"]` gives 200 |
| Comparator.CompareWithItself | lib/kaggle-data.ts:425-471 | a repeat-free list compared with itself is a 100 % match with everything common |
| Recommender.VerdictOf | lib/kaggle-data.ts:488-492 | alternative safer exactly when it leads by more than 10; original safer exactly when it leads by more than 10; similar exactly when the scores differ by at most 10 |
| Recommender.OverlapOf | lib/kaggle-data.ts:495-501 | many shared ingredients exactly above 70 %, very different exactly below 30 % |
| Recommender.UniquenessOf | lib/kaggle-data.ts:504-508 | the counts are list lengths, so the two guards exclude each other. The alternative sentence is chosen exactly when its unique count exceeds twice the original's. The original sentence is chosen exactly when the original's exceeds twice the alternative's. No sentence is chosen exactly when neither guard holds. |
| Recommender.GenerateRecommendation | lib/kaggle-data.ts:476-511 | the string built by the `if` chains is the specified recommendation |
| Recommender.RecommendationNotEmpty | lib/kaggle-data.ts:486-510 | every recommendation is non-empty |
| Recommender.OpeningIgnoresPercentUnlessSimilar | lib/kaggle-data.ts:488-492 | when one product is clearly safer, the opening does not depend on the match percentage |
| Recommender.SimilarOpeningCarriesPercent | lib/kaggle-data.ts:493-501 | with similar scores, the text opens with the similar-profiles sentence and quotes the percentage followed by "% match" |
| Recommender.UniqueClauseEmptyIff | lib/kaggle-data.ts:504-508 | no uniqueness sentence is added exactly when neither count exceeds twice the other |
| Catalog.SearchProductsSpec | lib/kaggle-data.ts:232-244 | at most 20 results, in dataset order, each matching the query on name or brand and the type. Fewer than 20 means every matching product is returned. |
| Catalog.SearchProducts | lib/kaggle-data.ts:243 | at most 20 results |
| Catalog.GetProductByNameSpec | lib/kaggle-data.ts:249-261 | the first case-insensitive exact name match if any; otherwise the first partial match; null exactly when no name contains the query |
| Catalog.GetProductsForSkinTypeSpec | lib/kaggle-data.ts:266-279 | at most 10 results, in dataset order, each flagged for the skin type and of the type. Fewer than 10 means all such products. |
| Catalog.GetProductsForSkinType | lib/kaggle-data.ts:278 | at most 10 results |
| Orchestrator.AnalyzeAndCompare | lib/kaggle-data.ts:516-564 | both scores lie in 0..100; `common` and `onlyInOriginal` together are as long as the parsed original list |
| Orchestrator.AnalyzeAndCompareProducts | lib/kaggle-data.ts:516-564 | parse, score, compare and recommend, assembled into the specified result |
| Orchestrator.ProductTypeIrrelevant | lib/kaggle-data.ts:516-564 | the product type never changes the result |
| Orchestrator.AlternativeUniqueIff | lib/kaggle-data.ts:535-544 | the alternative-unique sentence is chosen exactly when the original parses to nothing and the alternative to something |
| Orchestrator.OriginalUniqueIff | lib/kaggle-data.ts:535-544 | for a non-empty original, the original-unique sentence is chosen exactly when some original ingredient has no counterpart in the alternative |
| Orchestrator.AnalyzeNothing | lib/kaggle-data.ts:516-564 | two empty ingredient strings give 0 %, scores 70 and 70, empty lists and the similar-profiles opening |
| ProductAnalysis.ComparisonKeysCollide | app/actions/product-analysis.ts:30 | two different product-name pairs share a cache key |
| ProductAnalysis.IngredientSource | app/actions/product-analysis.ts:38-64 | a supplied list is used as is; else the dataset match's non-empty list; else the placeholder; never empty |
| ProductAnalysis.FreshAnalysisUsesSuppliedStrings | app/actions/product-analysis.ts:38-73 | when both lists are supplied, neither the dataset nor the placeholders are used |
| ProductAnalysis.TierOf | app/actions/product-analysis.ts:298-307 | excellent at 90 and above, good in 70..89, moderate in 50..69, concerning below 50 |
| ProductAnalysis.AnalysisTextShowsOnlyLeadingEntries | app/actions/product-analysis.ts:298-307 | the text starts with the product name and depends only on the tier and the first 3/2/4 entries the tier shows |
| ProductAnalysis.WriteAnalysis | app/actions/product-analysis.ts:297-307 | the `if` chain writes the tier's text |
| ProductAnalysis.PredictionSource | app/actions/product-analysis.ts:283-289 | a non-blank string is used as is; a blank one is replaced by the dataset match's ingredients when there is a match, and kept otherwise |
| ProductAnalysis.Prediction | app/actions/product-analysis.ts:291-315 | the score and the three lists are the scorer's unchanged, the score lies in 0..100, and the text is the tier's text |
| ProductAnalysis.PredictionOfNothing | app/actions/product-analysis.ts:291-315 | an ingredient string that is still empty after the dataset lookup predicts 70, with the good-tier text and empty lists |
| ProductAnalysis.SkinTypeFor | app/actions/product-analysis.ts:115-124 | sensitive first; then oily for oily-skin or acne-prone; then dry; then combination; otherwise normal. Each case holds exactly when its guard does. |
| ProductAnalysis.DetermineSkinType | app/actions/product-analysis.ts:115-124 | the `if` chain chooses that skin type |
| ProductAnalysis.FiredBenefitsMembers | app/actions/product-analysis.ts:169-189 | a benefit line is pushed exactly when one of its rule's keys is among the key ingredients |
| ProductAnalysis.BenefitLinesDistinct | app/actions/product-analysis.ts:169-195 | the seven benefit lines differ from each other and from the two generic lines |
| ProductAnalysis.BenefitsSpec | app/actions/product-analysis.ts:168-195 | at least two benefits. Each rule's line is present exactly when the rule fires. The generic pair ends the list exactly when fewer than two rules fired. |
| ProductAnalysis.PushRuleBenefits | app/actions/product-analysis.ts:168-189 | the seven `if`/`push` steps build the fired benefit lines in order |
| ProductAnalysis.BuildBenefits | app/actions/product-analysis.ts:168-195 | the steps and the generic top-up build the specified benefit list |
| ProductAnalysis.SuitableForSpec | app/actions/product-analysis.ts:198-203 | at most five labels, in the order dry, oily, combination, sensitive, normal, without repeats; a label is present exactly when the product is flagged for that type |
| ProductAnalysis.SuitableLabelsDistinct | app/actions/product-analysis.ts:199-203 | the five labels differ |
| ProductAnalysis.BuildSuitableFor | app/actions/product-analysis.ts:198-203 | the five `if`/`push` steps build the specified label list |
| ProductAnalysis.Card | app/actions/product-analysis.ts:159-215 | name, brand, price and score are copied. The key ingredients are the first min(5, n) beneficial ingredients. There are at least two benefits. |
| ProductAnalysis.ProductToRecommendation | app/actions/product-analysis.ts:159-215 | the `map` callback builds the specified card |
| ProductAnalysis.Candidates | app/actions/product-analysis.ts:127-156 | every candidate is either a dataset product for the skin type and product type or a top-rated product, and fits the budget tier when one is given |
| ProductAnalysis.Cards | app/actions/product-analysis.ts:159 | one card per chosen product |
| ProductAnalysis.CardsAt | app/actions/product-analysis.ts:159-216 | the i-th card is the card of the i-th chosen product |
| ProductAnalysis.BuildCards | app/actions/product-analysis.ts:159-216 | the loop builds one card per chosen product, in order |
| ProductAnalysis.RecommendationsSpec | app/actions/product-analysis.ts:106-218 | at most three cards, one per leading candidate. Each card carries its product's name and score and at least two benefits. Each product fits the skin type or is top-rated, and fits the budget. |
| ProductAnalysis.AnalysisService.constructor | app/actions/product-analysis.ts:15-16 | both caches start empty |
| ProductAnalysis.AnalysisService.AnalyzeProducts | app/actions/product-analysis.ts:21-78 | a cached key returns the stored result and leaves the cache alone. Otherwise the fresh analysis of the resolved ingredient strings is returned and stored under the key, with every other entry kept. |
| ProductAnalysis.AnalysisService.FreshComparison | app/actions/product-analysis.ts:37-73 | the fallbacks, then `analyzeAndCompareProducts` |
| ProductAnalysis.AnalysisService.ResolveIngredients | app/actions/product-analysis.ts:38-64 | each ingredient string is resolved as `IngredientSource` specifies |
| ProductAnalysis.AnalysisService.AnalyzeTwice | app/actions/product-analysis.ts:30-35 | the same three names return the same result whatever ingredients the second call passes |
| ProductAnalysis.AnalysisService.PredictSafetyScore | app/actions/product-analysis.ts:263-320 | a cached key returns the stored prediction unchanged. Otherwise the prediction for the resolved ingredients is returned and stored under the key, with every other entry kept. |
| ProductAnalysis.AnalysisService.Predict | app/actions/product-analysis.ts:283-315 | lookup, parse, score and text give the specified prediction |
| ProductAnalysis.AnalysisService.GetProductRecommendations | app/actions/product-analysis.ts:106-218 | the steps build exactly the cards `RecommendationsSpec` describes |
| ProductAnalysis.AnalysisService.GetProductSuggestions | app/actions/product-analysis.ts:337-348 | at most 10 products of the dataset, in order, each flagged for the skin type and of the product type; fewer than 10 means all such products |

## Left out

- `loadCosmeticProducts` (`lib/kaggle-data.ts:25-227`), which builds ten
  fixed sample products and 40 random ones (`Math.random`, `toFixed`) on its
  first call and caches them in `productsCache`. The dataset is an input:
  the `products` sequence, and the constant field `AnalysisService.products`.
  Because of that cache, every later call sees the same products, so a
  constant field models them.
- The `rank` field and `getTopRatedProducts`, which sort by a floating-point
  rank. `getProductRecommendations` takes the top-rated products as the
  parameter `topRated`.
- `Number.parseFloat(p.price.replace("$", ""))` in the budget filter. It is
  the parameter `parsedPrice`, where `None` stands for `NaN`. A `NaN` price
  fails every comparison, as in the source.
- `currentProduct` and `preferences` of `getProductRecommendations`. The
  source never reads them.
- ProductAnalysis.Candidates: `new Set` removes repeated product objects by
  identity. The model removes repeats by value (`Dedupe`), so two dataset
  records with equal fields count as one.
- Comparator.RoundedPercentSpec: `Math.round` of a floating-point quotient
  is modelled exactly, as the nearest integer with halves rounded up.
  Floating-point error at an exact half is not modelled.
- Text.Lower: `toLowerCase` is modelled for ASCII letters only. Other
  characters are left unchanged.
- Text.TrimSlice: `trim` removes the JavaScript white-space and
  line-terminator code points; no other Unicode handling is modelled.
- `async`/`await`, the `try`/`catch` blocks and their fixed fallback results,
  and `console.error`. The model has no failing steps for them to catch.
- The module-level `Map` caches are fields of one `AnalysisService` object.
  Their lifetime across server requests and concurrent requests is not
  modelled.
- ProductAnalysis.AnalysisService.AnalyzeProducts and
  ProductAnalysis.AnalysisService.PredictSafetyScore: the cache is stated as
  unchanged on a hit and as `old[key := r]` on a miss. The fact that other
  entries are preserved follows from this and is not stated separately.
- `predictSafetyScore`'s cache value type is `any` in the source. The model
  stores the `SafetyPrediction` record it builds.
- The user interface, the data-preparation scripts and the other
  components of the repository are not part of this model.
