# Diagnosis scoring, modelled in Dafny

The repository is a symptom-checker bot. Its deterministic core scores candidate diseases
against what a user reports, and it does so in two independent ways. Both are modelled here.

**The composite weighted-factor scorer** is the `DiagnosisCalculator` class of
`diagnosis_calculator.py`, modelled as module `DiagnosisCalculator`.
- It parses the user's data: severity, age band, duration in days, and the symptom and
  risk-factor lists.
- It gives each candidate condition six sub-scores: symptom coverage, risk factors, severity
  alignment, age appropriateness, duration appropriateness and context. Each lies in [0, 100]
  when the reported items are distinct, the weights are non-negative, the age multipliers are in
  [0, 1] and the typical-duration bounds are non-negative; other condition data can push a
  sub-score outside that range.
- It combines them with weights 0.4, 0.2, 0.15, 0.1, 0.1 and 0.05 and clamps the result to
  [0, 100].
- It attaches a confidence tier with an interval and a set of tiered recommendations.
- It ranks the candidates by (probability, confidence score), drops those below 10, and
  discounts candidates that look much like the top one.

**The combination/additive scorer** is the module-level functions of `symptom_tracker.py`,
modelled as module `SymptomTracker`.
- Diseases collect points in a shared `scores` dictionary from three sources:
  - an exact match of the sorted symptom combination;
  - partial combination matches, weighted by the matched share;
  - per-symptom weights scaled by duration, severity, age and gender modifiers.
- Travel, drug-history and risk-factor tables then add bonuses in place.
- The positive scores are normalised into a probability distribution, sorted, and classified
  into three confidence tiers.

**Supporting modules:**
- `Wrappers`: Option and Result.
- `Seqs`: distinctness, element sets, counts, sums, maps and filtered maps over sequences.
- `Text`: the Python string operations used: `lower`, `strip`, `split`, `join` and substring tests.
- `Dicts`: an insertion-ordered Python dictionary, a key sequence without repeats plus a map.
- `Ranking`: Python's stable `sorted(..., reverse=True)` by a (major, minor) key, and the
  lexicographic sort of strings.
- `Reals`: small facts about quotients and products.
- `Tiers`: the Low/Medium/High level.

**How the source is represented:**
- Numbers are `real`.
- The lookup tables (symptom combinations, symptom weights, travel, drug and risk weights) are
  parameters.
- Code that updates state in place is imperative Dafny:
  - the `ScoreBoard` class holds the shared `scores` dictionary and carries `merge_scores` and the
    three bonus functions;
  - the loops of `calculate_diagnosis`, `_calculate_weighted_symptom_score`,
    `_calculate_risk_score`, `_evaluate_contextual_factors`, `_generate_recommendations`,
    `_adjust_similar_diagnoses`, `find_partial_matches`, `calculate_individual_scores` and
    `calculate_final_results` are methods;
  - each of these methods is proved equal to a specification function.
- The properties are proved about those functions.

One quirk of the source is kept as written:
- **Key-name mismatch.** `_analyze_matching_factors` builds a dictionary with the keys
  `symptom_match`, `risk_factor_match` and `travel_risk_match`. The confidence, recommendation and
  similarity helpers read `primary_symptoms`, `secondary_symptoms` and `risk_factors` instead.
  - `MatchingFactors` therefore has two shapes: `Analyzed`, which is what the pipeline builds, and
    `Categorized`, which is what the helpers read.
  - On the `Analyzed` shape each helper takes its exception fallback.
  - `EvaluatedEntry` and `EvaluatedShortlist` prove that the pipeline as written always yields
    those fallbacks.

The defects listed under "## Findings" are modelled as written in the pipeline. For each, a
corrected member stands beside it with the intended property proved.

## Model

| member | source | states |
|---|---|---|
| DiagnosisCalculator.ParseSeverity | diagnosis_calculator.py:82-98 | the result is in [0.1, 1]; a listed string, case-folded, gives its table value; an unlisted string or a non-string gives 0.5; a missing severity gives 0.6 ('moderate') |
| DiagnosisCalculator.AgeBand | diagnosis_calculator.py:116-124 | Child iff age < 13, Young Adult iff 13-39, Adult iff 40-59, Senior iff 60 or more |
| DiagnosisCalculator.AgeBandMonotone | diagnosis_calculator.py:117-124 | an older age never falls into a younger band |
| DiagnosisCalculator.ParseAgeRange | diagnosis_calculator.py:100-127 | one of the four bands; ints use the numeric thresholds; strings use the exact-key table with default Adult; anything else gives Adult |
| DiagnosisCalculator.ParseDuration | diagnosis_calculator.py:129-141 | the result is in {1, 2, 5, 10, 15}; a listed string, case-folded, gives its table value; everything else gives 2 |
| DiagnosisCalculator.CleanItems | diagnosis_calculator.py:616-618 | the length is the input's minus the number of empty items; every item is lower-case with no surrounding whitespace |
| DiagnosisCalculator.CleanItemsInOrder | diagnosis_calculator.py:616-618 | without empty items, item i of the result is item i of the input, lower-cased and stripped |
| DiagnosisCalculator.CleanItemsMembers | diagnosis_calculator.py:616-618 | a string is in the result iff it is the lower-cased, stripped form of a non-empty input item |
| DiagnosisCalculator.NormalizeList | diagnosis_calculator.py:601-621 | lists are cleaned item by item; strings are split on commas and then cleaned; any other value gives []; every result item is normalised |
| DiagnosisCalculator.NormalizeListMembers | diagnosis_calculator.py:601-621 | a string is in the result iff it is the cleaned form of a non-empty list item, or of a non-empty comma-separated field of a string; a string's fields joined by commas give it back |
| DiagnosisCalculator.CategoryRatioBounds | diagnosis_calculator.py:251-254 | without repeated user symptoms, the matched fraction of a category is in [0, 1] |
| DiagnosisCalculator.ContributionBounds | diagnosis_calculator.py:250-255 | a category adds between 0 and the weight it adds to the total weight |
| DiagnosisCalculator.CoverageSumBounds | diagnosis_calculator.py:249-255 | the weighted score is between 0 and the total counted weight |
| DiagnosisCalculator.SymptomCoverageBounds | diagnosis_calculator.py:238-260 | with non-negative weights and distinct symptoms, the symptom score is in [0, 100] |
| DiagnosisCalculator.SymptomCoverageRepeats | diagnosis_calculator.py:249-257 | as written, the symptoms ["fever", "fever"] against primary ["fever"] with the default weights score 200; counting each symptom once gives 100 |
| DiagnosisCalculator.IntendedSymptomCoverage | diagnosis_calculator.py:238-260 | the corrected score counts each user symptom once; for distinct symptoms it is the score as written |
| DiagnosisCalculator.IntendedSymptomCoverageBounds | diagnosis_calculator.py:238-260 | with non-negative weights the corrected score is in [0, 100] for every symptom list |
| DiagnosisCalculator.WeightedSymptomScore | diagnosis_calculator.py:238-260 | the loop over the category weights computes the symptom coverage score |
| DiagnosisCalculator.RiskWeightSumNonNegative | diagnosis_calculator.py:159-162 | with non-negative weights, the matched weight sum is non-negative |
| DiagnosisCalculator.MatchedShareBounds | diagnosis_calculator.py:154-155 | the matched share of the condition's risk factors is >= 0, and <= 1 for distinct user factors |
| DiagnosisCalculator.RiskMatchBounds | diagnosis_calculator.py:143-168 | the weighted branch is capped at 100; the unweighted branch is non-negative; with non-negative weights and distinct factors the result is in [0, 100] |
| DiagnosisCalculator.RiskScore | diagnosis_calculator.py:143-168 | the accumulating loop computes the risk score; a condition without risk factors scores 0 |
| DiagnosisCalculator.SeverityAlignment | diagnosis_calculator.py:262-268 | the result is in [0, 100]; it is 100 exactly when the severities are equal; it is 0 once they differ by 1 or more |
| DiagnosisCalculator.SeverityAlignmentSymmetric | diagnosis_calculator.py:265-266 | symmetric in its two arguments |
| DiagnosisCalculator.AgeAppropriateness | diagnosis_calculator.py:270-291 | no listed ranges gives 100; without a multiplier: 100 iff in range or no ranges, 50 iff out of range; multipliers in [0, 1] keep the result in [0, 100] |
| DiagnosisCalculator.DurationAppropriateness | diagnosis_calculator.py:293-319 | non-negative; 100 with no typical duration or inside [min, max]; below 100 outside with a positive broken bound; 50 when that bound is 0 (the divide-by-zero fallback) |
| DiagnosisCalculator.ContextScore | diagnosis_calculator.py:321-353 | the result is in (0, 100]; it is 100 iff no sex, drug or travel rule fires; each fired rule caps it at 50, 70 or 80 |
| DiagnosisCalculator.EvaluateContextualFactors | diagnosis_calculator.py:321-353 | the step-by-step multiplication computes the context score |
| DiagnosisCalculator.Clamp | diagnosis_calculator.py:232 | the result is in [0, 100]; values already in range are unchanged |
| DiagnosisCalculator.WeightedSumIsConvex | diagnosis_calculator.py:186-230 | the six weights add up to 1: sub-scores in [lo, hi] give a weighted sum in [lo, hi], and equal sub-scores give that value |
| DiagnosisCalculator.CompositeScore | diagnosis_calculator.py:170-236 | the comprehensive score is in [0, 100] |
| DiagnosisCalculator.CompositeUnclamped | diagnosis_calculator.py:186-232 | when every sub-score is in range, clamping changes nothing and the score is exactly the weighted sum of the six sub-scores |
| DiagnosisCalculator.ComprehensiveScore | diagnosis_calculator.py:170-236 | the running `score +=` computes the composite score, in [0, 100] |
| DiagnosisCalculator.AnalyzeMatchingFactors | diagnosis_calculator.py:355-390 | builds the `Analyzed` shape; symptom matches are the user symptoms listed as primary or secondary; risk matches are the user factors the condition lists; travel is the user's history exactly when the condition is travel-related and the history does not say "no recent travel" (in any case), and "No" otherwise |
| DiagnosisCalculator.LevelOf | diagnosis_calculator.py:407-413 | High iff >= 75, Medium iff in [50, 75), Low iff < 50 |
| DiagnosisCalculator.LevelOfMonotone | diagnosis_calculator.py:408-413 | a higher score never gets a lower tier |
| DiagnosisCalculator.ConfidenceFactors | diagnosis_calculator.py:437-454 | at most five reasons; "Strong primary symptom correlation" iff there are primary symptoms; "Multiple primary symptoms detected" iff there are two or more; "Relevant risk factors present" iff there are risk factors; "Travel history aligns with diagnosis" iff the travel match is non-empty; "Supporting secondary symptoms present" iff there are secondary symptoms |
| DiagnosisCalculator.ConfidenceLevel | diagnosis_calculator.py:392-435 | the `Analyzed` shape gives the fallback; the score is <= 100; the tier is the score's level; the interval lies within [0, 100] and, for a probability in [0, 100], contains it |
| DiagnosisCalculator.RiskAdvice | diagnosis_calculator.py:504-506 | exactly the recommendations tabulated for the given factors |
| DiagnosisCalculator.RiskFactorRecommendations | diagnosis_calculator.py:494-511 | the extending loop collects the tabulated recommendations |
| DiagnosisCalculator.Recommendations | diagnosis_calculator.py:456-492 | the `Analyzed` shape gives the fallback; otherwise exactly the tier's advice plus the risk-factor advice, with the monitor, consult or urgent line by probability |
| DiagnosisCalculator.GenerateRecommendations | diagnosis_calculator.py:456-492 | the appending loop computes the recommendation set |
| DiagnosisCalculator.SimilarityAsWritten | diagnosis_calculator.py:567-599 | the similarity as written is non-negative; it is 0 for the `Analyzed` shape and when the first argument has no factors |
| DiagnosisCalculator.SimilarityAsWrittenAtMostHalf | diagnosis_calculator.py:587-596 | as written the similarity lies in [0, 0.5], so it is never above 0.7 |
| DiagnosisCalculator.OverlapBounds | diagnosis_calculator.py:574-589 | each intersection is no larger than the first argument's matching list |
| DiagnosisCalculator.SimilarityCounterexample | diagnosis_calculator.py:594-596 | a one-symptom condition against itself is 0.5 as written and 1 when corrected |
| DiagnosisCalculator.Similarity | diagnosis_calculator.py:567-599 | the corrected similarity is in [0, 1]; it is 0 for the `Analyzed` shape and when the first argument has no factors |
| DiagnosisCalculator.FullOverlapSimilar | diagnosis_calculator.py:587-596 | when the second matched everything the first did, the corrected similarity is 1 |
| DiagnosisCalculator.Adjusted | diagnosis_calculator.py:538-565 | the adjustment as written: same length; diagnosis, probability and factors are unchanged at every index |
| DiagnosisCalculator.AdjustedProperties | diagnosis_calculator.py:544-562 | as written no entry is a near-duplicate of the top one (the similarity never exceeds 0.7), so the adjustment returns its input unchanged |
| DiagnosisCalculator.AdjustedIntended | diagnosis_calculator.py:538-565 | the adjustment with the corrected similarity: same length; diagnosis, probability and factors are unchanged at every index |
| DiagnosisCalculator.AdjustedIntendedProperties | diagnosis_calculator.py:544-562 | with the corrected similarity: index 0 is unchanged; a later entry becomes Medium with 0.9 of its confidence score exactly when its similarity to the top one exceeds 0.7, and otherwise stays as it is; scores never grow; with only `Analyzed` factors nothing changes |
| DiagnosisCalculator.AdjustedDiffers | diagnosis_calculator.py:558-562 | two High entries with the same one-symptom factors: as written nothing changes, corrected the second becomes Medium |
| DiagnosisCalculator.AdjustSimilarDiagnoses | diagnosis_calculator.py:538-565 | the loop over the candidates after the top one computes the adjustment as written, which returns its input |
| DiagnosisCalculator.KeptMember | diagnosis_calculator.py:527-530 | an entry that survives ranking and filtering came from the input and has probability >= 10 |
| DiagnosisCalculator.ShortlistProperties | diagnosis_calculator.py:519-530 | ranked non-increasing by (probability, confidence score); exactly the entries with probability >= 10, each as often as in the input |
| DiagnosisCalculator.RankedMultiset | diagnosis_calculator.py:520-530 | sorting before filtering keeps exactly the filtered entries |
| DiagnosisCalculator.ApplyDifferentialDiagnosis | diagnosis_calculator.py:513-536 | computes sort, filter and the similarity adjustment as written |
| DiagnosisCalculator.EvaluateAll | diagnosis_calculator.py:45-74 | one result per condition |
| DiagnosisCalculator.EvaluateAllSnoc | diagnosis_calculator.py:46-72 | evaluating one more condition appends its entry |
| DiagnosisCalculator.EvaluatedEntry | diagnosis_calculator.py:57-72 | every evaluated condition has `Analyzed` factors, a probability in [0, 100], the fallback confidence and the fallback recommendation |
| DiagnosisCalculator.EvaluatedShortlist | diagnosis_calculator.py:45-74 | in the pipeline as written the similarity adjustment never changes anything, and every returned entry has probability in [10, 100] with the fallback confidence and recommendation |
| DiagnosisCalculator.ScoreCondition | diagnosis_calculator.py:46-72 | one loop iteration: score, factors, confidence and recommendations of one condition |
| DiagnosisCalculator.ScoreConditions | diagnosis_calculator.py:43-72 | the appending loop evaluates every condition, in order |
| DiagnosisCalculator.CalculateDiagnosis | diagnosis_calculator.py:21-75 | returns the ranked, filtered evaluation of every condition; every entry has probability in [10, 100] and the fallback confidence and recommendation |
| SymptomTracker.Accumulate | symptom_tracker.py:507-511 | afterwards the diseases are the old ones plus those of the table row |
| SymptomTracker.AccumulateLookup | symptom_tracker.py:507-511 | a listed disease's record is its old record (blank if absent) plus its gain; any other disease is unchanged |
| SymptomTracker.ScoreBoard.AddAll | symptom_tracker.py:507-511 | the loop over a table row updates the shared scores as the accumulation says |
| SymptomTracker.ScoreBoard.Merge | symptom_tracker.py:461-472 | the in-place merge leaves the merged scores |
| SymptomTracker.MergeKeys | symptom_tracker.py:463-468 | after a merge the diseases are those of either side |
| SymptomTracker.MergeEffect | symptom_tracker.py:461-472 | a source disease gets the old score (0 if absent) plus the source score, and the union of the symptoms; any other disease is unchanged |
| SymptomTracker.ScoreBoard.ApplyTravelRisks | symptom_tracker.py:502-511 | the in-place update leaves the travel-bonused scores |
| SymptomTracker.TravelBonusEffect | symptom_tracker.py:502-511 | no region, an empty one or an unknown one changes nothing; otherwise every listed disease gains exactly its weight and is tagged with the region, and other diseases are unchanged |
| SymptomTracker.MalariaAfterTravel | travel_risk_factors.py:3 | with the Sub-Saharan Africa row, Malaria gains 2.0 and is tagged with the region |
| SymptomTracker.ScoreBoard.ApplyDrugHistory | symptom_tracker.py:513-527 | the in-place update leaves the drug-bonused scores |
| SymptomTracker.DrugNames | symptom_tracker.py:518-521 | a non-empty string is a one-drug list; a list is itself; None or "" give no drugs |
| SymptomTracker.DrugBonusNoOps | symptom_tracker.py:518-523 | a drug string equals the one-drug list; no history, an empty one or an unknown drug changes nothing |
| SymptomTracker.DrugBonusEffect | symptom_tracker.py:522-527 | a known drug adds exactly its weight to every listed disease and leaves other diseases unchanged |
| SymptomTracker.ScoreBoard.ApplyRiskFactors | symptom_tracker.py:529-542 | the in-place update leaves the risk-bonused scores |
| SymptomTracker.RiskBonusNoOps | symptom_tracker.py:531-535 | None, an empty list or an unknown factor changes nothing |
| SymptomTracker.RiskBonusEffect | symptom_tracker.py:534-542 | a known factor adds exactly its weight to every listed disease and appends the factor to its risk factors; other diseases are unchanged |
| SymptomTracker.FindExactMatches | symptom_tracker.py:401-413 | an absent key gives an empty result; otherwise the diseases of the row, each with the table weight, `is_exact_match` true and the user's symptoms |
| SymptomTracker.FindExactPermutation | symptom_tracker.py:403 | permuting the symptoms leaves the exact matches unchanged |
| SymptomTracker.Pieces | symptom_tracker.py:421 | splitting a combination gives at least one piece |
| SymptomTracker.MatchRatio | symptom_tracker.py:424-425 | the share matched of a qualifying combination is in (0, 1] |
| SymptomTracker.PartialStep | symptom_tracker.py:420-434 | a non-qualifying combination (overlap below min(2, size)) changes nothing; a qualifying one adds weight times ratio to each of its diseases and joins the overlap to their symptoms |
| SymptomTracker.NoQualifyingCombination | symptom_tracker.py:424 | when no combination qualifies there are no partial matches |
| SymptomTracker.FindPartialMatches | symptom_tracker.py:415-436 | the loop over the combinations computes the partial matches |
| SymptomTracker.Modifiers | symptom_tracker.py:493-500 | 1 when none of the four factor tables lists the user's value |
| SymptomTracker.ModifiersBounds | symptom_tracker.py:493-500 | factor tables with values in [0, 1] give a modifier in [0, 1] |
| SymptomTracker.IndividualFoldLookup | symptom_tracker.py:443-459 | each disease's individual score is the sum over the reported symptoms weighing it of weight times modifiers, with exactly those symptoms |
| SymptomTracker.IndividualFoldKeys | symptom_tracker.py:445-452 | a disease is scored iff some reported symptom has a weight for it |
| SymptomTracker.CalculateIndividualScores | symptom_tracker.py:438-459 | the nested loop computes the individual scores |
| SymptomTracker.CalculateCompleteScores | symptom_tracker.py:379-399 | the exact matches, with the partial and then the individual scores merged in |
| SymptomTracker.NormalizeDuration | symptom_tracker.py:474-481 | weeks (any case) give times 7; months give times 30; any other unit gives times 1 |
| SymptomTracker.CategorizeAge | symptom_tracker.py:483-491 | child iff <= 12, adolescent iff 13-18, adult iff 19-65, elderly iff > 65 |
| SymptomTracker.CategorizeAgeMonotone | symptom_tracker.py:485-491 | an older age never gets a younger group |
| SymptomTracker.GetConfidenceLevel | symptom_tracker.py:567-573 | High iff >= 0.7, Medium iff in [0.4, 0.7), Low iff < 0.4 |
| SymptomTracker.GetConfidenceLevelMonotone | symptom_tracker.py:569-573 | a higher probability never gets a lower tier |
| SymptomTracker.Unranked | symptom_tracker.py:552-563 | one result per disease, in dictionary order, with score over total (0 if the total is not positive) |
| SymptomTracker.UnrankedSum | symptom_tracker.py:550-554 | the probabilities add up to the summed scores over the total |
| SymptomTracker.FinalResultsSumToOne | symptom_tracker.py:544-565 | with a positive total the probabilities sum to 1 |
| SymptomTracker.FinalResultsRanked | symptom_tracker.py:544-565 | sorted by non-increasing probability; one result per disease: each names a scored disease and every scored disease is named; a non-positive total gives probability 0 everywhere |
| SymptomTracker.TotalScoreBounds | symptom_tracker.py:550 | with positive scores the total is non-negative and at least each single score |
| SymptomTracker.ShareBounds | symptom_tracker.py:554 | with all scores positive the total is positive and each share is in (0, 1] |
| SymptomTracker.FinalResultsBounds | symptom_tracker.py:544-565 | with all scores positive, every probability is in (0, 1] |
| SymptomTracker.CalculateFinalResults | symptom_tracker.py:544-565 | the appending loop, then the sort, give the final results |
| SymptomTracker.Details | symptom_tracker.py:359-372 | one detail per result, in order |
| SymptomTracker.DescribedDiseases | symptom_tracker.py:359-372 | one detail per disease: each names a scored disease and every scored disease is named |
| SymptomTracker.DetailsDistribution | symptom_tracker.py:359-372 | percentages in (0, 100], non-increasing, summing to 100 |
| SymptomTracker.Report | symptom_tracker.py:346-372 | an error iff no disease has a positive score, and then the "No matching diagnoses" error; otherwise a non-empty list naming exactly the positive-scored diseases |
| SymptomTracker.ReportDistribution | symptom_tracker.py:346-372 | a successful report's percentages are in (0, 100], non-increasing and sum to 100 |
| SymptomTracker.Diagnose | symptom_tracker.py:309-373 | no symptoms iff the "at least one symptom" error; the "No matching diagnoses" error iff no disease scores above 0 after the bonuses; otherwise exactly the diseases scored above 0 |
| SymptomTracker.DiagnoseDistribution | symptom_tracker.py:309-373 | a successful diagnosis's percentages are in (0, 100], non-increasing and sum to 100 |
| SymptomTracker.CalculateDiagnosis | symptom_tracker.py:309-373 | the in-place pipeline computes the diagnosis |
| Seqs.FilterMap | diagnosis_calculator.py:616 | `[f(x) for x in xs if x != skip]` has the input's length minus the skipped items |
| Seqs.FilterMapMembers | diagnosis_calculator.py:616 | the result holds exactly the images of the kept items |
| Seqs.FilterMapInOrder | diagnosis_calculator.py:616 | with nothing to skip, item i of the result is the image of item i |
| Seqs.Dedup | diagnosis_calculator.py:249-257 | a repetition-free list with the same elements; a list without repetitions is unchanged |
| Ranking.SortByRank | diagnosis_calculator.py:520-524 | `sorted(..., reverse=True)`: a non-increasing permutation of the input |
| Ranking.SortStringsPermutation | symptom_tracker.py:403 | `sorted()` of a list of strings depends only on its elements and their multiplicities |

## Left out

- Rounding (`round(...)` of probabilities, confidence scores and percentages) is left out; all
  arithmetic is exact real arithmetic, so Python float rounding error is not modelled either.
  This is not only display: `round(score, 2)` at diagnosis_calculator.py:70 produces the
  `probability` that the `>= 10` filter and the sort key of `_apply_differential_diagnosis` read.
  A score of 9.996 is rounded to 10.0 and kept by the source, but dropped by the model; two
  scores that round to the same value tie in the source but not in the model.
- DiagnosisCalculator.ShortlistProperties, DiagnosisCalculator.KeptMember and
  DiagnosisCalculator.CalculateDiagnosis: the `>= 10` threshold and the order are stated on the
  unrounded score, not on the rounded probability.
- **Tables imported as modules.** `symptom_tracker.py` imports `symptom_combinations`,
  `symptom_weights`, `travel_risk_factors` and `drug_history_weights` as modules
  (symptom_tracker.py:14-19) and then tests `in` against them (symptom_tracker.py:404, 446, 504
  and 523). `in` on a module raises `TypeError`. As written, `find_exact_matches` therefore fails
  for every non-empty symptom list, and `calculate_diagnosis` returns
  `{'error': 'Error calculating diagnosis: ...'}` for every non-empty symptom list
  (symptom_tracker.py:374-376). The model does not capture this. Each table is modelled as the
  dictionary it is evidently meant to be, passed in as a parameter, and every `SymptomTracker`
  result describes that intended behaviour.
- Exceptions are not modelled. The broad `except` handlers appear only as the fallback values
  they return. The catch-all error results of both `calculate_diagnosis` functions are left out:
  `[{"diagnosis": "Error", ...}]` and `{'error': 'Error calculating diagnosis: ...'}`. So are the
  `ValueError`s for a non-list `possible_diagnoses` and a non-dict `user_data`.
- `lower()` and `strip()` are the ASCII ones; Unicode case folding and Unicode whitespace are
  not modelled.
- Ages are integers or strings; a float age given to `_parse_age_range` (truncated by `int()`)
  is not modelled.
- User data values are one of: missing, string, int, list of strings, other. Lists holding
  non-strings, which make the normalisers fall back, are not represented. The `sex`,
  `drug_history` and `travel_history` fields are plain strings, with a missing value read as
  `''` (diagnosis_calculator.py:53-55); other value types for them are not represented.
- Condition dictionaries are given with every key the calculator reads. An absent key is
  modelled as its `.get` default. The name and the per-condition symptom weights are options.
  Values of the wrong type are not represented.
- `_adjust_similar_diagnoses` mutates its confidence dictionaries through a shallow copy, so the
  caller's list is changed too. The model returns a new list and does not capture that aliasing.
- Ranking.SortByRank: the stable tie order of `sorted` is modelled, but only the order and the
  permutation are proved; stability is not stated.
- DiagnosisCalculator.SymptomCoverageBounds and DiagnosisCalculator.RiskMatchBounds require
  distinct user symptoms or factors. With repeats the source's matched fractions can exceed 1, so the
  symptom score and the unweighted risk score can exceed 100; the bounds are not claimed there.
  For the symptom score this is a finding below.
- Condition data is not bounded, so the sub-score bounds carry conditions on it. An age
  multiplier above 1, such as `age_risk_factors = {"Senior": 1.5}`, makes the age score 150
  (diagnosis_calculator.py:287-288). A negative risk weight makes the weighted risk score negative
  (diagnosis_calculator.py:158-163). A negative typical `max` divides a positive excess by a negative
  bound and pushes the duration score above 100 (diagnosis_calculator.py:311-317). The model computes these values as the source
  does. DiagnosisCalculator.AgeAppropriateness, DiagnosisCalculator.RiskMatchBounds and
  DiagnosisCalculator.DurationAppropriateness claim the [0, 100] bound only under those
  conditions; the duration score is bounded from below only. The clamp of the composite score
  keeps the final score in [0, 100] regardless.
- The Telegram conversation handlers of `symptom_tracker.py`, `bot.py`, `health_chat_engine.py`
  and `message_formatter.py` are not part of this model. They are I/O, network calls and
  presentation.
- The data files are not encoded; the tables are parameters. The one example constant is the
  first rows of the Sub-Saharan Africa travel table. The nested dictionaries in
  `risk_factor_weights.py` and the flat symptom list of `diagnosis.py` are not valid tables for
  the scorers and are not encoded.
- The joined `symptom_match` string of the detailed results has the order of a Python `set`,
  which is unspecified. The model keeps the matching symptoms as a set.
- In `symptom_tracker.py`, `matching_symptoms` lists are modelled as sets, since every reader
  applies `set()`.
- `calculate_final_results`'s unused `symptoms` and `factors` arguments are dropped.

## Findings

| source | as written | input that shows it | evidently intended | confidence | as-written member | corrected member |
|---|---|---|---|---|---|---|
| diagnosis_calculator.py:594-596 | the weighted overlap (x0.5, x0.3, x0.2) is divided by the plain number of factors, so the similarity never exceeds 0.5 and the `> 0.7` test at diagnosis_calculator.py:558 can never pass | `primary_symptoms = ["fever"]`, other lists empty, against itself: 0.5 | divide by the weighted number of factors, so identical factors give 1.0 | not executed | DiagnosisCalculator.SimilarityAsWrittenAtMostHalf, DiagnosisCalculator.SimilarityCounterexample, DiagnosisCalculator.AdjustedProperties | DiagnosisCalculator.Similarity, DiagnosisCalculator.FullOverlapSimilar, DiagnosisCalculator.AdjustedIntendedProperties, DiagnosisCalculator.AdjustedDiffers |
| diagnosis_calculator.py:249-257 | `matches` counts every user symptom in the category, repeats included, so the matched fraction can exceed 1 and the symptom score can exceed 100 | symptoms `["fever", "fever"]` against `primary = ["fever"]` with the default weights: 200 | count each reported symptom once, so the score stays in [0, 100] | not executed | DiagnosisCalculator.SymptomCoverageRepeats | DiagnosisCalculator.IntendedSymptomCoverage, DiagnosisCalculator.IntendedSymptomCoverageBounds |
