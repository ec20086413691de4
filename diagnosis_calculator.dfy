/** The composite weighted-factor scorer of diagnosis_calculator.py (class DiagnosisCalculator).
    Each candidate condition gets six sub-scores (symptom coverage, risk factors, severity
    alignment, age, duration, context), each in [0, 100] for distinct reported items, non-negative
    weights, age multipliers in [0, 1] and non-negative duration bounds. They are combined with
    weights 0.4, 0.2, 0.15, 0.1, 0.1 and 0.05 and clamped to [0, 100]; the results are ranked, thresholded at 10 and the near-duplicates
    of the top candidate are discounted. */
module DiagnosisCalculator {
  import opened Wrappers
  import opened Seqs
  import opened Text
  import opened Dicts
  import opened Ranking
  import opened Tiers
  import opened Reals

  // ---------------------------------------------------------------------------------------
  // Data

  /** A value found in the user_data dictionary. `Missing` is a key that is not there; `Other`
      is any value that is neither a string, an int nor a list of strings (None, a dict, ...). */
  datatype Input = Missing | Str(text: string) | Int(n: int) | StrList(items: seq<string>) | Other

  /** The user_data dictionary handed to calculate_diagnosis. The free-text contextual fields
      are strings; a missing one is the empty string, as `user_data.get(key, '')` gives. */
  datatype UserData = UserData(
    symptoms: Input,
    riskFactors: Input,
    severity: Input,
    age: Input,
    duration: Input,
    sex: string,
    drugHistory: string,
    travelHistory: string)

  /** One entry of possible_diagnoses, with every key the calculator reads. An absent key is
      represented by the default the code supplies with `.get` (empty list, empty dict, 0.5,
      False, ''), except the two whose absence changes behaviour: the name ('Unknown') and the
      per-condition symptom weights (the calculator's own table). */
  datatype Condition = Condition(
    name: Option<string>,
    symptoms: map<string, seq<string>>,
    symptomWeights: Option<Dict<real>>,
    riskFactors: seq<string>,
    riskWeights: map<string, real>,
    typicalSeverity: real,
    ageRange: seq<string>,
    ageRiskFactors: map<string, real>,
    typicalDuration: map<string, int>,
    sexSpecific: string,
    drugInteractions: seq<string>,
    travelRelated: bool,
    urgentCareNeeded: bool,
    primaryRecommendations: seq<string>,
    secondaryRecommendations: seq<string>,
    generalRecommendations: seq<string>,
    riskFactorRecommendations: map<string, seq<string>>)

  /** The matching-factors dictionary. `_analyze_matching_factors` builds the `Analyzed` shape
      (keys symptom_match, risk_factor_match, travel_risk_match). The confidence, recommendation
      and similarity helpers read the keys of the `Categorized` shape (primary_symptoms,
      secondary_symptoms, risk_factors); given the `Analyzed` shape they fail on the missing key
      and take their fallback. */
  datatype MatchingFactors =
    | Analyzed(symptomMatch: seq<string>, riskFactorMatch: seq<string>, travelRiskMatch: string)
    | Categorized(primarySymptoms: seq<string>, secondarySymptoms: seq<string>,
                  riskFactors: seq<string>, travelRiskMatch: string)

  datatype Confidence = Confidence(level: Level, score: real, interval: (real, real), factors: seq<string>)

  /** What one condition contributes to the result list. */
  datatype ScoredDiagnosis = ScoredDiagnosis(
    diagnosis: string,
    probability: real,
    confidence: Confidence,
    matchingFactors: MatchingFactors,
    recommendations: set<string>)

  /** The user's data after parsing, as calculate_diagnosis hands it to the sub-scores. */
  datatype Assessment = Assessment(
    symptoms: seq<string>,
    riskFactors: seq<string>,
    severity: real,
    age: string,
    duration: int,
    sex: string,
    drugHistory: string,
    travelHistory: string)

  /** The calculator's own category weights, used when a condition has none. */
  const DefaultSymptomWeights: Dict<real> :=
    DictRep(["primary", "secondary", "tertiary"],
            map["primary" := 0.5, "secondary" := 0.3, "tertiary" := 0.2])

  function WeightsOf(c: Condition): Dict<real> {
    c.symptomWeights.GetOr(DefaultSymptomWeights)
  }

  function NameOf(c: Condition): string {
    c.name.GetOr("Unknown")
  }

  // ---------------------------------------------------------------------------------------
  // Parsers

  const SeverityTable: map<string, real> := map[
    "mild" := 0.3, "moderate" := 0.6, "severe" := 1.0,
    "1 - very mild" := 0.1, "2-3 - mild" := 0.3, "4-5 - moderate" := 0.5,
    "6-7 - severe" := 0.7, "8-9 - very severe" := 0.9, "10 - extremely severe" := 1.0]

  /** `_parse_severity`: a case-insensitive table lookup; anything else (an unlisted string or a
      value without .lower()) is 0.5. A missing severity is 'moderate'. */
  function ParseSeverity(v: Input): (r: real)
    ensures 0.1 <= r <= 1.0
    ensures v.Str? && Lower(v.text) in SeverityTable ==> r == SeverityTable[Lower(v.text)]
    ensures v.Str? && Lower(v.text) !in SeverityTable ==> r == 0.5
    ensures v.Int? || v.StrList? || v.Other? ==> r == 0.5
    ensures v.Missing? ==> r == 0.6
  {
    match v
    case Missing => SeverityTable["moderate"]
    case Str(t) => var k := Lower(t); if k in SeverityTable then SeverityTable[k] else 0.5
    case _ => 0.5
  }

  const AgeRangeTable: map<string, string> := map[
    "0-12" := "Child", "13-19" := "Young Adult", "20-39" := "Young Adult",
    "40-59" := "Adult", "60-79" := "Senior", "80+" := "Senior"]

  /** The age bands in increasing order of age. */
  function AgeBandOrder(band: string): nat {
    if band == "Child" then 0 else if band == "Young Adult" then 1 else if band == "Adult" then 2 else 3
  }

  /** The numeric branch of `_parse_age_range`. */
  function AgeBand(age: int): (r: string)
    ensures r == "Child" <==> age < 13
    ensures r == "Young Adult" <==> 13 <= age < 40
    ensures r == "Adult" <==> 40 <= age < 60
    ensures r == "Senior" <==> age >= 60
  {
    if age < 13 then "Child" else if age < 40 then "Young Adult" else if age < 60 then "Adult" else "Senior"
  }

  /** An older age never falls into a younger band. */
  lemma AgeBandMonotone(a: int, b: int)
    requires a <= b
    ensures AgeBandOrder(AgeBand(a)) <= AgeBandOrder(AgeBand(b))
  {
  }

  /** `_parse_age_range`: strings go through an exact-key table (no case folding, no numeric
      parsing, default "Adult"); ints through the thresholds 13, 40, 60; anything int() rejects
      is "Adult". A missing age is the string 'adult', which the table does not list. */
  function ParseAgeRange(v: Input): (r: string)
    ensures r in {"Child", "Young Adult", "Adult", "Senior"}
    ensures v.Int? ==> r == AgeBand(v.n)
    ensures v.Str? ==> r == if v.text in AgeRangeTable then AgeRangeTable[v.text] else "Adult"
    ensures v.Missing? || v.StrList? || v.Other? ==> r == "Adult"
  {
    match v
    case Str(t) => if t in AgeRangeTable then AgeRangeTable[t] else "Adult"
    case Int(n) => AgeBand(n)
    case _ => "Adult"
  }

  const DurationTable: map<string, int> := map[
    "less than 24 hours" := 1, "1-3 days" := 2, "4-7 days" := 5,
    "1-2 weeks" := 10, "more than 2 weeks" := 15]

  /** `_parse_duration`: a case-insensitive table lookup in days; anything else is 2. */
  function ParseDuration(v: Input): (r: int)
    ensures r in {1, 2, 5, 10, 15}
    ensures v.Str? && Lower(v.text) in DurationTable ==> r == DurationTable[Lower(v.text)]
    ensures !(v.Str? && Lower(v.text) in DurationTable) ==> r == 2
  {
    match v
    case Str(t) => var k := Lower(t); if k in DurationTable then DurationTable[k] else 2
    case _ => 2
  }

  /** [x.lower().strip() for x in xs if x]: the test is on the raw item, so an item of blanks
      survives as the empty string. */
  function CleanItems(xs: seq<string>): (r: seq<string>)
    ensures |r| == |xs| - Count(xs, [""])
    ensures forall y :: y in r ==> Normalized(y)
  {
    var r := FilterMap(xs, "", Clean);
    assert forall y :: y in r ==> Normalized(y) by {
      forall y | y in r ensures Normalized(y) {
        FilterMapMembers(xs, "", Clean, y);
      }
    }
    r
  }

  /** Without empty items, cleaning keeps every item in its place. */
  lemma CleanItemsInOrder(xs: seq<string>)
    requires "" !in xs
    ensures |CleanItems(xs)| == |xs|
    ensures forall i :: 0 <= i < |xs| ==> CleanItems(xs)[i] == Clean(xs[i])
  {
    FilterMapInOrder(xs, "", Clean);
  }

  /** The cleaned items are exactly the cleaned forms of the non-empty input items. */
  lemma CleanItemsMembers(xs: seq<string>, y: string)
    ensures y in CleanItems(xs) <==> exists x :: x in xs && x != "" && y == Clean(x)
  {
    FilterMapMembers(xs, "", Clean, y);
  }

  /** `_normalize_symptoms` and `_normalize_list` (the two have the same body): a list is cleaned
      item by item, a string is first split on commas, anything else gives []. */
  function NormalizeList(v: Input): (r: seq<string>)
    ensures forall y :: y in r ==> Normalized(y)
    ensures v.StrList? ==> r == CleanItems(v.items)
    ensures v.Str? ==> r == CleanItems(Split(v.text, ","))
    ensures v.Missing? || v.Int? || v.Other? ==> r == []
  {
    match v
    case StrList(xs) => CleanItems(xs)
    case Str(t) => CleanItems(Split(t, ","))
    case Missing => CleanItems(Split("", ","))
    case _ => []
  }

  /** What normalising yields: for a list, the cleaned forms of its non-empty items; for a
      string, those of its non-empty comma-separated fields, which together make up the string. */
  lemma NormalizeListMembers(v: Input, y: string)
    ensures v.StrList? ==>
      (y in NormalizeList(v) <==> exists x :: x in v.items && x != "" && y == Clean(x))
    ensures v.Str? ==>
      (y in NormalizeList(v) <==> exists x :: x in Split(v.text, ",") && x != "" && y == Clean(x))
    ensures v.Str? ==> Join(Split(v.text, ","), ",") == v.text
  {
    match v
    case StrList(xs) => CleanItemsMembers(xs, y);
    case Str(t) =>
      CleanItemsMembers(Split(t, ","), y);
      JoinSplit(t, ",");
    case _ =>
  }

  /** The first lines of calculate_diagnosis: parse every field, with the documented defaults. */
  function Parse(u: UserData): Assessment {
    Assessment(
      NormalizeList(u.symptoms), NormalizeList(u.riskFactors), ParseSeverity(u.severity),
      ParseAgeRange(u.age), ParseDuration(u.duration), u.sex, u.drugHistory, u.travelHistory)
  }

  // ---------------------------------------------------------------------------------------
  // Symptom coverage (40%)

  /** A category counts when the condition lists it with at least one symptom. */
  predicate CategoryCounts(cats: map<string, seq<string>>, k: string) {
    k in cats && |cats[k]| > 0
  }

  /** Fraction of a category's symptoms the user reports. */
  function CategoryRatio(user: seq<string>, category: seq<string>): real
    requires |category| > 0
  {
    Count(user, category) as real / |category| as real
  }

  /** What category `k` adds to the running `score`. */
  function Contribution(user: seq<string>, cats: map<string, seq<string>>, w: Dict<real>, k: string): real
    requires k in w.values
  {
    if CategoryCounts(cats, k) then CategoryRatio(user, cats[k]) * w.values[k] else 0.0
  }

  /** What category `k` adds to the running `total_weight`. */
  function CountedWeight(cats: map<string, seq<string>>, w: Dict<real>, k: string): real
    requires k in w.values
  {
    if CategoryCounts(cats, k) then w.values[k] else 0.0
  }

  /** The running `score` of `_calculate_weighted_symptom_score` after the categories `ks`. */
  function CoverageSum(user: seq<string>, cats: map<string, seq<string>>, w: Dict<real>, ks: seq<string>): real
    requires forall k :: k in ks ==> k in w.values
  {
    if ks == [] then 0.0
    else CoverageSum(user, cats, w, ks[..|ks| - 1]) + Contribution(user, cats, w, ks[|ks| - 1])
  }

  /** The running `total_weight` after the categories `ks`. */
  function CoverageWeight(cats: map<string, seq<string>>, w: Dict<real>, ks: seq<string>): real
    requires forall k :: k in ks ==> k in w.values
  {
    if ks == [] then 0.0
    else CoverageWeight(cats, w, ks[..|ks| - 1]) + CountedWeight(cats, w, ks[|ks| - 1])
  }

  /** Symptom coverage: the weighted mean, over the categories the condition lists, of the fraction
      of each category the user reports, as a percentage; 0 when no weighted category is listed. */
  function SymptomCoverage(user: seq<string>, cats: map<string, seq<string>>, w: Dict<real>): real {
    var total := CoverageWeight(cats, w, w.keys);
    if total > 0.0 then CoverageSum(user, cats, w, w.keys) / total * 100.0 else 0.0
  }

  ghost predicate NonNegative(w: Dict<real>) {
    forall k :: k in w.values ==> w.values[k] >= 0.0
  }

  /** Without repeated user symptoms, the covered fraction of a category is at most one. */
  lemma CategoryRatioBounds(user: seq<string>, category: seq<string>)
    requires Distinct(user) && |category| > 0
    ensures 0.0 <= CategoryRatio(user, category) <= 1.0
  {
    CountDistinctBound(user, category);
    QuotientAtMost(Count(user, category) as real, |category| as real, 1.0);
  }

  /** Each category adds at most its own weight, and nothing negative. */
  lemma ContributionBounds(user: seq<string>, cats: map<string, seq<string>>, w: Dict<real>, k: string)
    requires k in w.values && w.values[k] >= 0.0 && Distinct(user)
    ensures 0.0 <= Contribution(user, cats, w, k) <= CountedWeight(cats, w, k)
  {
    if CategoryCounts(cats, k) {
      var ratio, weight := CategoryRatio(user, cats[k]), w.values[k];
      CategoryRatioBounds(user, cats[k]);
      ScaleAtMost(ratio, weight);
      assert Contribution(user, cats, w, k) == ratio * weight;
      assert CountedWeight(cats, w, k) == weight;
    }
  }

  lemma {:induction false} CoverageSumBounds(user: seq<string>, cats: map<string, seq<string>>, w: Dict<real>, ks: seq<string>)
    requires forall k :: k in ks ==> k in w.values
    requires NonNegative(w) && Distinct(user)
    ensures 0.0 <= CoverageSum(user, cats, w, ks) <= CoverageWeight(cats, w, ks)
  {
    if ks != [] {
      var k, prefix := ks[|ks| - 1], ks[..|ks| - 1];
      assert k in ks;
      assert forall j :: j in prefix ==> j in ks;
      CoverageSumBounds(user, cats, w, prefix);
      ContributionBounds(user, cats, w, k);
    }
  }

  /** With non-negative category weights and no symptom reported twice, the coverage is a
      percentage. (A repeated symptom is counted each time, which can push it past 100.) */
  lemma SymptomCoverageBounds(user: seq<string>, cats: map<string, seq<string>>, w: Dict<real>)
    requires NonNegative(w) && Distinct(user)
    ensures 0.0 <= SymptomCoverage(user, cats, w) <= 100.0
  {
    CoverageSumBounds(user, cats, w, w.keys);
    var s, t := CoverageSum(user, cats, w, w.keys), CoverageWeight(cats, w, w.keys);
    if t > 0.0 {
      QuotientAtMost(s, t, 1.0);
    }
  }

  /** The symptom coverage evidently intended: each reported symptom counts once, as if the
      user's list were a set. */
  function IntendedSymptomCoverage(user: seq<string>, cats: map<string, seq<string>>, w: Dict<real>): (r: real)
    ensures Distinct(user) ==> r == SymptomCoverage(user, cats, w)
  {
    SymptomCoverage(Dedup(user), cats, w)
  }

  /** With non-negative category weights the intended coverage is a percentage on every input. */
  lemma IntendedSymptomCoverageBounds(user: seq<string>, cats: map<string, seq<string>>, w: Dict<real>)
    requires NonNegative(w)
    ensures 0.0 <= IntendedSymptomCoverage(user, cats, w) <= 100.0
  {
    SymptomCoverageBounds(Dedup(user), cats, w);
  }

  /** The input that shows the coverage as written leaving [0, 100]: "fever" reported twice
      against a condition whose only category is a one-symptom primary list gives 200. */
  lemma SymptomCoverageRepeats()
    ensures SymptomCoverage(["fever", "fever"], map["primary" := ["fever"]], DefaultSymptomWeights) == 200.0
    ensures IntendedSymptomCoverage(["fever", "fever"], map["primary" := ["fever"]], DefaultSymptomWeights) == 100.0
  {
    var cats := map["primary" := ["fever"]];
    var w := DefaultSymptomWeights;
    var ks := w.keys;
    assert ks[..0] == [] && ks[..1][..0] == [] && ks[..2][..1] == ks[..1] && ks[..3][..2] == ks[..2];
    assert ks[..3] == ks;
    assert Count(["fever", "fever"], ["fever"]) == 2;
    assert CoverageWeight(cats, w, ks[..1]) == 0.5;
    assert CoverageWeight(cats, w, ks) == 0.5;
    assert CoverageSum(["fever", "fever"], cats, w, ks[..1]) == 1.0;
    assert CoverageSum(["fever", "fever"], cats, w, ks) == 1.0;
    var once := Dedup(["fever", "fever"]);
    assert once == ["fever"];
    assert Count(once, ["fever"]) == 1;
    assert CoverageSum(once, cats, w, ks[..1]) == 0.5;
    assert CoverageSum(once, cats, w, ks) == 0.5;
  }

  /** `_calculate_weighted_symptom_score`, accumulating `score` and `total_weight` over the
      weight table in its order. */
  method WeightedSymptomScore(user: seq<string>, cats: map<string, seq<string>>, w: Dict<real>)
    returns (r: real)
    ensures r == SymptomCoverage(user, cats, w)
  {
    var score, totalWeight := 0.0, 0.0;
    for i := 0 to |w.keys|
      invariant score == CoverageSum(user, cats, w, w.keys[..i])
      invariant totalWeight == CoverageWeight(cats, w, w.keys[..i])
    {
      var category := w.keys[i];
      var weight := w.values[category];
      assert w.keys[..i + 1][..i] == w.keys[..i];
      if category in cats {
        var matches := Count(user, cats[category]);
        var totalPossible := |cats[category]|;
        if totalPossible > 0 {
          score := score + (matches as real / totalPossible as real) * weight;
          totalWeight := totalWeight + weight;
        }
      }
    }
    assert w.keys[..|w.keys|] == w.keys;
    r := if totalWeight > 0.0 then score / totalWeight * 100.0 else 0.0;
  }

  // ---------------------------------------------------------------------------------------
  // Risk score (20%)

  /** What one reported risk factor adds to `weighted_score`: its weight (1.0 if unweighted)
      when the condition lists it, otherwise nothing. */
  function RiskWeightOf(u: string, conditionRisks: seq<string>, weights: map<string, real>): real {
    if u in conditionRisks then (if u in weights then weights[u] else 1.0) else 0.0
  }

  function RiskWeightSum(user: seq<string>, conditionRisks: seq<string>, weights: map<string, real>): real {
    if user == [] then 0.0
    else RiskWeightSum(user[..|user| - 1], conditionRisks, weights) + RiskWeightOf(user[|user| - 1], conditionRisks, weights)
  }

  /** The risk score: 0 when the condition lists no risk factor; with per-factor weights, twenty
      points per unit of matched weight capped at 100; otherwise the matched fraction as a percentage. */
  function RiskMatch(user: seq<string>, conditionRisks: seq<string>, weights: map<string, real>): real {
    if |conditionRisks| == 0 then 0.0
    else if |weights| > 0 then
      var weighted := RiskWeightSum(user, conditionRisks, weights) * 20.0;
      if weighted < 100.0 then weighted else 100.0
    else Count(user, conditionRisks) as real / |conditionRisks| as real * 100.0
  }

  ghost predicate NonNegativeWeights(weights: map<string, real>) {
    forall k :: k in weights ==> weights[k] >= 0.0
  }

  lemma {:induction false} RiskWeightSumNonNegative(user: seq<string>, conditionRisks: seq<string>, weights: map<string, real>)
    requires NonNegativeWeights(weights)
    ensures RiskWeightSum(user, conditionRisks, weights) >= 0.0
  {
    if user != [] { RiskWeightSumNonNegative(user[..|user| - 1], conditionRisks, weights); }
  }

  /** The unweighted risk score is a non-negative share of 100, at most 100 when no reported
      factor repeats. */
  lemma MatchedShareBounds(user: seq<string>, conditionRisks: seq<string>)
    requires |conditionRisks| > 0
    ensures Count(user, conditionRisks) as real / |conditionRisks| as real >= 0.0
    ensures Distinct(user) ==> Count(user, conditionRisks) as real / |conditionRisks| as real <= 1.0
  {
    var n, d := Count(user, conditionRisks) as real, |conditionRisks| as real;
    QuotientNonNegative(n, d);
    if Distinct(user) {
      CountDistinctBound(user, conditionRisks);
      QuotientAtMost(n, d, 1.0);
    }
  }

  /** The risk score never exceeds 100 when weights are given, is never negative when they are
      not, and is a percentage when no reported factor repeats and no weight is negative. */
  lemma RiskMatchBounds(user: seq<string>, conditionRisks: seq<string>, weights: map<string, real>)
    ensures |weights| > 0 ==> RiskMatch(user, conditionRisks, weights) <= 100.0
    ensures |weights| == 0 ==> RiskMatch(user, conditionRisks, weights) >= 0.0
    ensures NonNegativeWeights(weights) && Distinct(user) ==>
      0.0 <= RiskMatch(user, conditionRisks, weights) <= 100.0
  {
    if |conditionRisks| > 0 {
      if |weights| > 0 {
        if NonNegativeWeights(weights) {
          RiskWeightSumNonNegative(user, conditionRisks, weights);
        }
      } else {
        MatchedShareBounds(user, conditionRisks);
      }
    }
  }

  /** `_calculate_risk_score`, with the loop that accumulates `weighted_score`. */
  method RiskScore(user: seq<string>, conditionRisks: seq<string>, weights: map<string, real>)
    returns (r: real)
    ensures r == RiskMatch(user, conditionRisks, weights)
    ensures |conditionRisks| == 0 ==> r == 0.0
  {
    if |conditionRisks| == 0 {
      return 0.0;
    }
    var baseScore := Count(user, conditionRisks) as real / |conditionRisks| as real * 100.0;
    if |weights| > 0 {
      var weightedScore := 0.0;
      for i := 0 to |user|
        invariant weightedScore == RiskWeightSum(user[..i], conditionRisks, weights)
      {
        assert user[..i + 1][..i] == user[..i];
        if user[i] in conditionRisks {
          weightedScore := weightedScore + if user[i] in weights then weights[user[i]] else 1.0;
        }
      }
      assert user[..|user|] == user;
      r := if weightedScore * 20.0 < 100.0 then weightedScore * 20.0 else 100.0;
      return;
    }
    r := baseScore;
  }

  // ---------------------------------------------------------------------------------------
  // Severity (15%), age (10%), duration (10%)

  /** `_calculate_severity_alignment`: 100 points minus one point per hundredth of difference. */
  function SeverityAlignment(user: real, typical: real): (r: real)
    ensures 0.0 <= r <= 100.0
    ensures r == 100.0 <==> user == typical
    ensures (user - typical >= 1.0 || typical - user >= 1.0) ==> r == 0.0
  {
    var difference := if user >= typical then user - typical else typical - user;
    var s := 100.0 - difference * 100.0;
    if s > 0.0 then s else 0.0
  }

  lemma SeverityAlignmentSymmetric(a: real, b: real)
    ensures SeverityAlignment(a, b) == SeverityAlignment(b, a)
  {
  }

  /** `_calculate_age_appropriateness`: 100 without age restriction; otherwise 100 inside the
      allowed bands and 50 outside, times the band's risk multiplier (default 1). */
  function AgeAppropriateness(age: string, ranges: seq<string>, multipliers: map<string, real>): (r: real)
    ensures |ranges| == 0 ==> r == 100.0
    ensures age !in multipliers ==> (r == 100.0 <==> |ranges| == 0 || age in ranges)
    ensures age !in multipliers ==> (r == 50.0 <==> |ranges| > 0 && age !in ranges)
    ensures (age in multipliers ==> 0.0 <= multipliers[age] <= 1.0) ==> 0.0 <= r <= 100.0
  {
    if |ranges| == 0 then 100.0
    else
      var base := if age in ranges then 100.0 else 50.0;
      base * (if age in multipliers then multipliers[age] else 1.0)
  }

  /** The lower end of a typical-duration range ('min', default 0). */
  function MinDuration(td: map<string, int>): int {
    if "min" in td then td["min"] else 0
  }

  /** min <= duration <= max, where a missing 'max' is unbounded. */
  predicate WithinTypical(duration: int, td: map<string, int>) {
    MinDuration(td) <= duration && ("max" !in td || duration <= td["max"])
  }

  /** The end of the range a duration outside it falls beyond. */
  function BrokenBound(duration: int, td: map<string, int>): int {
    if duration < MinDuration(td) then MinDuration(td) else if "max" in td then td["max"] else 0
  }

  /** `_calculate_duration_appropriateness`: full marks inside the typical range (or without one);
      outside it, 50 points are lost per relative distance to the broken bound, down to 0. A bound
      of 0 divides by zero, which the code's handler turns into 50. */
  function DurationAppropriateness(duration: int, td: map<string, int>): (r: real)
    ensures r >= 0.0
    ensures (|td| == 0 || WithinTypical(duration, td)) ==> r == 100.0
    ensures |td| > 0 && !WithinTypical(duration, td) && BrokenBound(duration, td) > 0 ==> r < 100.0
    ensures |td| > 0 && !WithinTypical(duration, td) && BrokenBound(duration, td) == 0 ==> r == 50.0
  {
    if |td| == 0 || WithinTypical(duration, td) then 100.0
    else
      var bound := BrokenBound(duration, td);
      if bound == 0 then 50.0
      else
        var distance := if duration < MinDuration(td) then bound - duration else duration - bound;
        var penalty := distance as real / bound as real;
        var s := 100.0 - penalty * 50.0;
        if s > 0.0 then s else 0.0
  }

  // ---------------------------------------------------------------------------------------
  // Contextual factors (5%)

  /** The condition is specific to a sex other than the user's (compared case-insensitively). */
  predicate SexMismatch(c: Condition, sex: string) {
    c.sexSpecific != "" && Lower(sex) != Lower(c.sexSpecific)
  }

  /** Some interacting drug of the condition occurs, as written, inside the lower-cased history. */
  predicate DrugInteracts(c: Condition, drugHistory: string) {
    exists i :: 0 <= i < |c.drugInteractions| && Contains(Lower(drugHistory), c.drugInteractions[i])
  }

  /** A travel-related condition while the history says "no recent travel". */
  predicate TravelRuledOut(c: Condition, travelHistory: string) {
    c.travelRelated && Contains(Lower(travelHistory), "no recent travel")
  }

  /** The contextual score: 100, halved on a sex mismatch, times 0.7 on a drug interaction and
      times 0.8 when a travel-related condition meets "no recent travel". */
  function ContextScore(c: Condition, sex: string, drugHistory: string, travelHistory: string): (r: real)
    ensures 0.0 < r <= 100.0
    ensures r == 100.0 <==>
      !SexMismatch(c, sex) && !DrugInteracts(c, drugHistory) && !TravelRuledOut(c, travelHistory)
    ensures SexMismatch(c, sex) ==> r <= 50.0
    ensures DrugInteracts(c, drugHistory) ==> r <= 70.0
    ensures TravelRuledOut(c, travelHistory) ==> r <= 80.0
  {
    100.0
      * (if SexMismatch(c, sex) then 0.5 else 1.0)
      * (if DrugInteracts(c, drugHistory) then 0.7 else 1.0)
      * (if TravelRuledOut(c, travelHistory) then 0.8 else 1.0)
  }

  /** `_evaluate_contextual_factors`, rule by rule, with its `any(...)` scan over the drugs. */
  method EvaluateContextualFactors(c: Condition, sex: string, drugHistory: string, travelHistory: string)
    returns (r: real)
    ensures r == ContextScore(c, sex, drugHistory, travelHistory)
  {
    var score := 100.0;
    var relevantFactors := 0;
    if c.sexSpecific != "" {
      if Lower(sex) != Lower(c.sexSpecific) {
        score := score * 0.5;
      }
      relevantFactors := relevantFactors + 1;
    }
    if |c.drugInteractions| > 0 {
      var history := Lower(drugHistory);
      var found := false;
      var i := 0;
      while i < |c.drugInteractions| && !found
        invariant 0 <= i <= |c.drugInteractions|
        invariant found <==> exists j :: 0 <= j < i && Contains(history, c.drugInteractions[j])
      {
        found := Contains(history, c.drugInteractions[i]);
        i := i + 1;
      }
      if found {
        score := score * 0.7;
      }
      relevantFactors := relevantFactors + 1;
    }
    if c.travelRelated {
      if Contains(Lower(travelHistory), "no recent travel") {
        score := score * 0.8;
      }
      relevantFactors := relevantFactors + 1;
    }
    r := if relevantFactors > 0 then score else 100.0;
  }

  // ---------------------------------------------------------------------------------------
  // The composite score

  function Clamp(x: real): (r: real)
    ensures 0.0 <= r <= 100.0
    ensures 0.0 <= x <= 100.0 ==> r == x
  {
    if x < 0.0 then 0.0 else if x > 100.0 then 100.0 else x
  }

  /** The six sub-scores weighted 0.4, 0.2, 0.15, 0.1, 0.1 and 0.05. */
  function WeightedSum(symptom: real, risk: real, severity: real, age: real, duration: real, context: real): real {
    symptom * 0.4 + risk * 0.2 + severity * 0.15 + age * 0.1 + duration * 0.1 + context * 0.05
  }

  /** The weights add up to one: the weighted sum of sub-scores in [lo, hi] lies in [lo, hi], so
      clamping only ever cuts off sub-scores that were themselves out of range. */
  lemma WeightedSumIsConvex(symptom: real, risk: real, severity: real, age: real, duration: real, context: real, lo: real, hi: real)
    requires lo <= symptom <= hi && lo <= risk <= hi && lo <= severity <= hi
    requires lo <= age <= hi && lo <= duration <= hi && lo <= context <= hi
    ensures lo <= WeightedSum(symptom, risk, severity, age, duration, context) <= hi
    ensures symptom == risk == severity == age == duration == context ==>
      WeightedSum(symptom, risk, severity, age, duration, context) == symptom
  {
  }

  /** `_calculate_comprehensive_score` as a function of the condition and the parsed data. */
  function CompositeScore(c: Condition, a: Assessment): (r: real)
    ensures 0.0 <= r <= 100.0
  {
    Clamp(WeightedSum(
      SymptomCoverage(a.symptoms, c.symptoms, WeightsOf(c)),
      RiskMatch(a.riskFactors, c.riskFactors, c.riskWeights),
      SeverityAlignment(a.severity, c.typicalSeverity),
      AgeAppropriateness(a.age, c.ageRange, c.ageRiskFactors),
      DurationAppropriateness(a.duration, c.typicalDuration),
      ContextScore(c, a.sex, a.drugHistory, a.travelHistory)))
  }

  /** When the symptom, risk and age sub-scores are percentages (no repeated symptom or risk factor,
      non-negative weights, age multiplier in [0, 1]) and the duration range has positive bounds,
      no clamping happens: the score is exactly the weighted sum. */
  lemma CompositeUnclamped(c: Condition, a: Assessment)
    requires Distinct(a.symptoms) && Distinct(a.riskFactors) && NonNegative(WeightsOf(c))
    requires NonNegativeWeights(c.riskWeights)
    requires a.age in c.ageRiskFactors ==> 0.0 <= c.ageRiskFactors[a.age] <= 1.0
    requires BrokenBound(a.duration, c.typicalDuration) > 0 || WithinTypical(a.duration, c.typicalDuration)
    ensures CompositeScore(c, a) == WeightedSum(
      SymptomCoverage(a.symptoms, c.symptoms, WeightsOf(c)),
      RiskMatch(a.riskFactors, c.riskFactors, c.riskWeights),
      SeverityAlignment(a.severity, c.typicalSeverity),
      AgeAppropriateness(a.age, c.ageRange, c.ageRiskFactors),
      DurationAppropriateness(a.duration, c.typicalDuration),
      ContextScore(c, a.sex, a.drugHistory, a.travelHistory))
  {
    SymptomCoverageBounds(a.symptoms, c.symptoms, WeightsOf(c));
    RiskMatchBounds(a.riskFactors, c.riskFactors, c.riskWeights);
    var d := DurationAppropriateness(a.duration, c.typicalDuration);
    assert 0.0 <= d <= 100.0;
    WeightedSumIsConvex(
      SymptomCoverage(a.symptoms, c.symptoms, WeightsOf(c)),
      RiskMatch(a.riskFactors, c.riskFactors, c.riskWeights),
      SeverityAlignment(a.severity, c.typicalSeverity),
      AgeAppropriateness(a.age, c.ageRange, c.ageRiskFactors),
      d,
      ContextScore(c, a.sex, a.drugHistory, a.travelHistory), 0.0, 100.0);
  }

  /** `_calculate_comprehensive_score`: sub-score by sub-score, then clamped. */
  method ComprehensiveScore(c: Condition, a: Assessment) returns (r: real)
    ensures r == CompositeScore(c, a)
    ensures 0.0 <= r <= 100.0
  {
    var score := 0.0;
    var symptomScore := WeightedSymptomScore(a.symptoms, c.symptoms, WeightsOf(c));
    score := score + symptomScore * 0.4;
    var riskScore := RiskScore(a.riskFactors, c.riskFactors, c.riskWeights);
    score := score + riskScore * 0.2;
    score := score + SeverityAlignment(a.severity, c.typicalSeverity) * 0.15;
    score := score + AgeAppropriateness(a.age, c.ageRange, c.ageRiskFactors) * 0.1;
    score := score + DurationAppropriateness(a.duration, c.typicalDuration) * 0.1;
    var contextScore := EvaluateContextualFactors(c, a.sex, a.drugHistory, a.travelHistory);
    score := score + contextScore * 0.05;
    r := Clamp(score);
  }

  // ---------------------------------------------------------------------------------------
  // Matching factors, confidence, recommendations

  function CategoryOf(c: Condition, k: string): seq<string> {
    if k in c.symptoms then c.symptoms[k] else []
  }

  /** `_analyze_matching_factors`: the user's symptoms the condition lists as primary or secondary,
      the user's risk factors it lists, and the travel history unless the condition is not travel
      related or the history says "no recent travel" (then "No"). */
  function AnalyzeMatchingFactors(c: Condition, a: Assessment): (r: MatchingFactors)
    ensures r.Analyzed?
    ensures forall s :: s in r.symptomMatch <==>
      s in a.symptoms && (s in CategoryOf(c, "primary") || s in CategoryOf(c, "secondary"))
    ensures forall f :: f in r.riskFactorMatch <==> f in a.riskFactors && f in c.riskFactors
    ensures !c.travelRelated || Contains(Lower(a.travelHistory), "no recent travel") ==> r.travelRiskMatch == "No"
    ensures c.travelRelated && !Contains(Lower(a.travelHistory), "no recent travel") ==>
      r.travelRiskMatch == a.travelHistory
  {
    Analyzed(
      KeepIn(a.symptoms, Elems(CategoryOf(c, "primary") + CategoryOf(c, "secondary"))),
      KeepIn(a.riskFactors, Elems(c.riskFactors)),
      if !c.travelRelated || Contains(Lower(a.travelHistory), "no recent travel") then "No" else a.travelHistory)
  }

  /** The confidence tier of a confidence score. */
  function LevelOf(score: real): (l: Level)
    ensures l == High <==> score >= 75.0
    ensures l == Medium <==> 50.0 <= score < 75.0
    ensures l == Low <==> score < 50.0
  {
    if score >= 75.0 then High else if score >= 50.0 then Medium else Low
  }

  lemma LevelOfMonotone(s: real, t: real)
    requires s <= t
    ensures Order(LevelOf(s)) <= Order(LevelOf(t))
  {
  }

  const FallbackConfidence := Confidence(Low, 0.0, (0.0, 0.0), [])

  /** `_analyze_confidence_factors`. A non-empty travel entry counts as a travel match, "No" included. */
  function ConfidenceFactors(mf: MatchingFactors): (r: seq<string>)
    requires mf.Categorized?
    ensures |r| <= 5
    ensures "Strong primary symptom correlation" in r <==> |mf.primarySymptoms| > 0
    ensures "Multiple primary symptoms detected" in r <==> |mf.primarySymptoms| >= 2
    ensures "Relevant risk factors present" in r <==> |mf.riskFactors| > 0
    ensures "Travel history aligns with diagnosis" in r <==> mf.travelRiskMatch != ""
    ensures "Supporting secondary symptoms present" in r <==> |mf.secondarySymptoms| > 0
  {
    (if |mf.primarySymptoms| > 0 then ["Strong primary symptom correlation"] else [])
    + (if |mf.riskFactors| > 0 then ["Relevant risk factors present"] else [])
    + (if mf.travelRiskMatch != "" then ["Travel history aligns with diagnosis"] else [])
    + (if |mf.secondarySymptoms| > 0 then ["Supporting secondary symptoms present"] else [])
    + (if |mf.primarySymptoms| >= 2 then ["Multiple primary symptoms detected"] else [])
  }

  /** `_calculate_confidence_level`. The confidence score is 0.7 points per point of probability,
      10 per matched primary symptom and 5 per matched risk factor, capped at 100; the interval is
      the probability plus or minus a fifth of the missing confidence, cut to [0, 100]. Factors of
      the `Analyzed` shape lack the keys read here, so they give the fallback. */
  function ConfidenceLevel(probability: real, mf: MatchingFactors): (r: Confidence)
    ensures mf.Analyzed? ==> r == FallbackConfidence
    ensures r.score <= 100.0
    ensures r.level == LevelOf(r.score)
    ensures 0.0 <= r.interval.0 && r.interval.1 <= 100.0
    ensures mf.Categorized? && 0.0 <= probability <= 100.0 ==>
      0.0 <= r.score && r.interval.0 <= probability <= r.interval.1
  {
    match mf
    case Analyzed(_, _, _) => FallbackConfidence
    case Categorized(primary, _, risks, _) =>
      var raw := probability * 0.7 + |primary| as real * 10.0 + |risks| as real * 5.0;
      var score := if raw < 100.0 then raw else 100.0;
      var margin := (100.0 - score) * 0.2;
      var lo := if probability - margin > 0.0 then probability - margin else 0.0;
      var hi := if probability + margin < 100.0 then probability + margin else 100.0;
      Confidence(LevelOf(score), score, (lo, hi), ConfidenceFactors(mf))
  }

  const UrgentAdvice := "Seek immediate medical attention"
  const ConsultAdvice := "Consider consulting a healthcare provider"
  const MonitorAdvice := "Monitor symptoms for changes"
  const FallbackAdvice := "Please consult a healthcare provider for accurate diagnosis"

  /** The advice for the probability tier: >= 75 the urgent-care notice (if the condition needs
      it) and the primary list, >= 50 a consultation notice and the secondary list, below that a
      monitoring notice and the general list. */
  function TierAdvice(c: Condition, probability: real): seq<string> {
    if probability >= 75.0 then (if c.urgentCareNeeded then [UrgentAdvice] else []) + c.primaryRecommendations
    else if probability >= 50.0 then [ConsultAdvice] + c.secondaryRecommendations
    else [MonitorAdvice] + c.generalRecommendations
  }

  /** The recommendations tabulated for the given risk factors, in order. */
  function RiskAdvice(table: map<string, seq<string>>, factors: seq<string>): (r: seq<string>)
    ensures forall x :: x in r <==> exists f :: f in factors && f in table && x in table[f]
  {
    if factors == [] then []
    else
      var f := factors[|factors| - 1];
      var prefix := RiskAdvice(table, factors[..|factors| - 1]);
      assert forall g :: g in factors <==> g in factors[..|factors| - 1] || g == f by {
        assert factors == factors[..|factors| - 1] + [f];
      }
      prefix + (if f in table then table[f] else [])
  }

  /** `_get_risk_factor_recommendations`. */
  method RiskFactorRecommendations(c: Condition, factors: seq<string>) returns (r: seq<string>)
    ensures r == RiskAdvice(c.riskFactorRecommendations, factors)
  {
    r := [];
    for i := 0 to |factors|
      invariant r == RiskAdvice(c.riskFactorRecommendations, factors[..i])
    {
      assert factors[..i + 1][..i] == factors[..i];
      if factors[i] in c.riskFactorRecommendations {
        r := r + c.riskFactorRecommendations[factors[i]];
      }
    }
    assert factors[..|factors|] == factors;
  }

  /** The de-duplicated recommendations: the tier's advice plus the advice for every matched risk
      factor; factors of the `Analyzed` shape lack 'risk_factors', so they give the fallback. */
  function Recommendations(c: Condition, probability: real, mf: MatchingFactors): (r: set<string>)
    ensures mf.Analyzed? ==> r == {FallbackAdvice}
    ensures mf.Categorized? ==> forall x :: x in r <==>
      x in TierAdvice(c, probability) ||
      exists f :: f in mf.riskFactors && f in c.riskFactorRecommendations && x in c.riskFactorRecommendations[f]
    ensures mf.Categorized? && probability < 50.0 ==> MonitorAdvice in r
    ensures mf.Categorized? && 50.0 <= probability < 75.0 ==> ConsultAdvice in r
    ensures mf.Categorized? && probability >= 75.0 && c.urgentCareNeeded ==> UrgentAdvice in r
  {
    match mf
    case Analyzed(_, _, _) => {FallbackAdvice}
    case Categorized(_, _, risks, _) =>
      Elems(TierAdvice(c, probability) + RiskAdvice(c.riskFactorRecommendations, risks))
  }

  /** `_generate_recommendations`, appending and extending a list and finally taking its set. */
  method GenerateRecommendations(c: Condition, probability: real, mf: MatchingFactors)
    returns (r: set<string>)
    ensures r == Recommendations(c, probability, mf)
  {
    if mf.Analyzed? {
      return {FallbackAdvice};
    }
    var recommendations: seq<string> := [];
    if probability >= 75.0 {
      if c.urgentCareNeeded {
        recommendations := recommendations + [UrgentAdvice];
      }
      recommendations := recommendations + c.primaryRecommendations;
    } else if probability >= 50.0 {
      recommendations := recommendations + [ConsultAdvice];
      recommendations := recommendations + c.secondaryRecommendations;
    } else {
      recommendations := recommendations + [MonitorAdvice];
      recommendations := recommendations + c.generalRecommendations;
    }
    assert recommendations == TierAdvice(c, probability);
    if |mf.riskFactors| > 0 {
      var extra := RiskFactorRecommendations(c, mf.riskFactors);
      recommendations := recommendations + extra;
    } else {
      assert RiskAdvice(c.riskFactorRecommendations, mf.riskFactors) == [];
      assert recommendations == recommendations + [];
    }
    r := Elems(recommendations);
  }

  // ---------------------------------------------------------------------------------------
  // Differential diagnosis

  /** The sort key (probability, confidence score). */
  function RankOf(d: ScoredDiagnosis): Rank {
    Rank(d.probability, d.confidence.score)
  }

  /** The filter `probability >= 10.0`. */
  predicate Likely(d: ScoredDiagnosis) {
    d.probability >= 10.0
  }

  /** The three factor lists of the `Categorized` shape as sets. */
  function PrimarySet(f: MatchingFactors): set<string> requires f.Categorized? { Elems(f.primarySymptoms) }
  function SecondarySet(f: MatchingFactors): set<string> requires f.Categorized? { Elems(f.secondarySymptoms) }
  function RiskSet(f: MatchingFactors): set<string> requires f.Categorized? { Elems(f.riskFactors) }

  /** `_calculate_similarity` exactly as written: the weighted overlap counts divided by the plain
      number of factors of the first argument; 0 when either side lacks the keys (the fallback) or
      the first has no factors. */
  function SimilarityAsWritten(f1: MatchingFactors, f2: MatchingFactors): (r: real)
    ensures r >= 0.0
    ensures f1.Analyzed? || f2.Analyzed? ==> r == 0.0
    ensures f1.Categorized? && f1.primarySymptoms == f1.secondarySymptoms == f1.riskFactors == [] ==> r == 0.0
  {
    if f1.Analyzed? || f2.Analyzed? then 0.0
    else
      var total := |f1.primarySymptoms| + |f1.secondarySymptoms| + |f1.riskFactors|;
      if total == 0 then 0.0
      else
        QuotientNonNegative(WeightedOverlap(f1, f2), total as real);
        WeightedOverlap(f1, f2) / total as real
  }

  /** Since every overlap count is at most the matching list length and the largest weight is
      0.5, the similarity as written never exceeds 0.5, so it never passes the 0.7 threshold. */
  lemma SimilarityAsWrittenAtMostHalf(f1: MatchingFactors, f2: MatchingFactors)
    ensures 0.0 <= SimilarityAsWritten(f1, f2) <= 0.5
    ensures !(SimilarityAsWritten(f1, f2) > 0.7)
  {
    if f1.Categorized? && f2.Categorized? {
      var total := |f1.primarySymptoms| + |f1.secondarySymptoms| + |f1.riskFactors|;
      if total > 0 {
        OverlapBounds(f1, f2);
        QuotientAtMost(WeightedOverlap(f1, f2), total as real, 0.5);
      }
    }
  }

  lemma OverlapBounds(f1: MatchingFactors, f2: MatchingFactors)
    requires f1.Categorized? && f2.Categorized?
    ensures |PrimarySet(f1) * PrimarySet(f2)| <= |f1.primarySymptoms|
    ensures |SecondarySet(f1) * SecondarySet(f2)| <= |f1.secondarySymptoms|
    ensures |RiskSet(f1) * RiskSet(f2)| <= |f1.riskFactors|
  {
    SubsetCard(PrimarySet(f1) * PrimarySet(f2), PrimarySet(f1));
    SubsetCard(SecondarySet(f1) * SecondarySet(f2), SecondarySet(f1));
    SubsetCard(RiskSet(f1) * RiskSet(f2), RiskSet(f1));
    ElemsCard(f1.primarySymptoms);
    ElemsCard(f1.secondarySymptoms);
    ElemsCard(f1.riskFactors);
  }

  /** The weighted number of factors of `f`, the denominator the similarity evidently intends. */
  function WeightedFactorCount(f: MatchingFactors): real requires f.Categorized? {
    |f.primarySymptoms| as real * 0.5 + |f.secondarySymptoms| as real * 0.3 + |f.riskFactors| as real * 0.2
  }

  /** The similarity with the weighted factor count as denominator: a score in [0, 1] that reaches
      1 when the second condition matched everything the first did. 0 when either side lacks the
      keys or the first has no factors. */
  function Similarity(f1: MatchingFactors, f2: MatchingFactors): (r: real)
    ensures 0.0 <= r <= 1.0
    ensures f1.Analyzed? || f2.Analyzed? ==> r == 0.0
    ensures f1.Categorized? && f1.primarySymptoms == f1.secondarySymptoms == f1.riskFactors == [] ==> r == 0.0
  {
    if f1.Analyzed? || f2.Analyzed? then 0.0
    else
      var total := WeightedFactorCount(f1);
      if total == 0.0 then 0.0
      else
        OverlapBounds(f1, f2);
        QuotientAtMost(WeightedOverlap(f1, f2), total, 1.0);
        WeightedOverlap(f1, f2) / total
  }

  /** The weighted number of factors the two share. */
  function WeightedOverlap(f1: MatchingFactors, f2: MatchingFactors): real
    requires f1.Categorized? && f2.Categorized?
  {
    |PrimarySet(f1) * PrimarySet(f2)| as real * 0.5
      + |SecondarySet(f1) * SecondarySet(f2)| as real * 0.3
      + |RiskSet(f1) * RiskSet(f2)| as real * 0.2
  }

  /** When the second condition matched every factor the first did (no factor listed twice, at
      least one factor), the two are fully similar under the corrected formula, hence above the
      0.7 threshold. In particular a condition is fully similar to itself. */
  lemma FullOverlapSimilar(f1: MatchingFactors, f2: MatchingFactors)
    requires f1.Categorized? && f2.Categorized?
    requires Distinct(f1.primarySymptoms) && Distinct(f1.secondarySymptoms) && Distinct(f1.riskFactors)
    requires f1.primarySymptoms != [] || f1.secondarySymptoms != [] || f1.riskFactors != []
    requires PrimarySet(f1) <= PrimarySet(f2) && SecondarySet(f1) <= SecondarySet(f2) && RiskSet(f1) <= RiskSet(f2)
    ensures Similarity(f1, f2) == 1.0
  {
    CoveredCount(f1.primarySymptoms, PrimarySet(f2));
    CoveredCount(f1.secondarySymptoms, SecondarySet(f2));
    CoveredCount(f1.riskFactors, RiskSet(f2));
    var total := WeightedFactorCount(f1);
    assert WeightedOverlap(f1, f2) == total;
    assert total > 0.0;
    SelfQuotient(total);
    assert Similarity(f1, f2) == WeightedOverlap(f1, f2) / total;
  }

  /** A repetition-free list whose elements all lie in `pool` shares all of them with it. */
  lemma CoveredCount(xs: seq<string>, pool: set<string>)
    requires Distinct(xs) && Elems(xs) <= pool
    ensures |Elems(xs) * pool| == |xs|
  {
    ElemsCard(xs);
    assert Elems(xs) * pool == Elems(xs);
  }

  /** The input that shows the discrepancy: one shared primary symptom. */
  lemma SimilarityCounterexample()
    ensures SimilarityAsWritten(Categorized(["fever"], [], [], ""), Categorized(["fever"], [], [], "")) == 0.5
    ensures Similarity(Categorized(["fever"], [], [], ""), Categorized(["fever"], [], [], "")) == 1.0
  {
    var f := Categorized(["fever"], [], [], "");
    assert PrimarySet(f) == {"fever"};
    assert SecondarySet(f) == {} && RiskSet(f) == {};
    assert |PrimarySet(f) * PrimarySet(f)| == 1;
  }

  /** The discount for a near-duplicate of the top candidate. */
  function Discounted(d: ScoredDiagnosis): ScoredDiagnosis {
    d.(confidence := d.confidence.(level := Medium, score := d.confidence.score * 0.9))
  }

  /** Whether `_adjust_similar_diagnoses` discounts the candidate at position `i`: it is not the
      top candidate and the similarity as written of its factors to the top candidate's exceeds 0.7. */
  predicate NearDuplicate(ranked: seq<ScoredDiagnosis>, i: int)
    requires 0 <= i < |ranked|
  {
    i > 0 && SimilarityAsWritten(ranked[0].matchingFactors, ranked[i].matchingFactors) > 0.7
  }

  /** The ranked list after `_adjust_similar_diagnoses`. As the similarity as written never
      exceeds 0.5, no candidate is ever discounted: the list comes back unchanged. */
  function Adjusted(ranked: seq<ScoredDiagnosis>): (r: seq<ScoredDiagnosis>)
    ensures |r| == |ranked|
    ensures forall i :: 0 <= i < |r| ==>
      && r[i].diagnosis == ranked[i].diagnosis
      && r[i].probability == ranked[i].probability
      && r[i].matchingFactors == ranked[i].matchingFactors
  {
    seq(|ranked|, i requires 0 <= i < |ranked| =>
      if NearDuplicate(ranked, i) then Discounted(ranked[i]) else ranked[i])
  }

  /** The dead branch: the adjustment as written is the identity on every list. */
  lemma AdjustedProperties(ranked: seq<ScoredDiagnosis>)
    ensures forall i :: 0 <= i < |ranked| ==> !NearDuplicate(ranked, i)
    ensures Adjusted(ranked) == ranked
  {
    forall i | 0 <= i < |ranked| ensures !NearDuplicate(ranked, i) {
      SimilarityAsWrittenAtMostHalf(ranked[0].matchingFactors, ranked[i].matchingFactors);
    }
    assert forall i :: 0 <= i < |ranked| ==> Adjusted(ranked)[i] == ranked[i];
  }

  /** The discount rule evidently intended: candidate `i` is discounted when it is not the top
      candidate and the corrected similarity of its factors to the top candidate's exceeds 0.7. */
  predicate NearDuplicateIntended(ranked: seq<ScoredDiagnosis>, i: int)
    requires 0 <= i < |ranked|
  {
    i > 0 && Similarity(ranked[0].matchingFactors, ranked[i].matchingFactors) > 0.7
  }

  /** The ranked list with the near-duplicates of its top candidate discounted by the corrected
      similarity. */
  function AdjustedIntended(ranked: seq<ScoredDiagnosis>): (r: seq<ScoredDiagnosis>)
    ensures |r| == |ranked|
    ensures forall i :: 0 <= i < |r| ==>
      && r[i].diagnosis == ranked[i].diagnosis
      && r[i].probability == ranked[i].probability
      && r[i].matchingFactors == ranked[i].matchingFactors
  {
    seq(|ranked|, i requires 0 <= i < |ranked| =>
      if NearDuplicateIntended(ranked, i) then Discounted(ranked[i]) else ranked[i])
  }

  /** Under the corrected rule the top candidate is never touched; a later one is discounted to
      level Medium and 0.9 of its score exactly when its corrected similarity to the top one
      exceeds 0.7, and is unchanged otherwise; scores never grow; and nothing changes when no
      later candidate carries the keys the similarity reads. */
  lemma AdjustedIntendedProperties(ranked: seq<ScoredDiagnosis>)
    ensures |ranked| > 0 ==> AdjustedIntended(ranked)[0] == ranked[0]
    ensures forall i :: 0 < i < |ranked| ==>
      AdjustedIntended(ranked)[i] ==
        if Similarity(ranked[0].matchingFactors, ranked[i].matchingFactors) > 0.7
        then ranked[i].(confidence := ranked[i].confidence.(level := Medium, score := ranked[i].confidence.score * 0.9))
        else ranked[i]
    ensures forall i :: 0 <= i < |ranked| && ranked[i].confidence.score >= 0.0 ==>
      AdjustedIntended(ranked)[i].confidence.score <= ranked[i].confidence.score
    ensures forall i :: 0 <= i < |ranked| ==>
      (AdjustedIntended(ranked)[i] != ranked[i] ==> AdjustedIntended(ranked)[i].confidence.level == Medium)
    ensures (forall i :: 1 <= i < |ranked| ==> ranked[i].matchingFactors.Analyzed?) ==>
      AdjustedIntended(ranked) == ranked
  {
  }

  /** The two rules part on the smallest case: a second candidate with the same single primary
      symptom as the top one is discounted under the corrected rule and kept as it is as written. */
  lemma AdjustedDiffers(c: Confidence)
    requires c.level == High
    ensures var f := Categorized(["fever"], [], [], "");
      var ranked := [ScoredDiagnosis("A", 50.0, c, f, {}), ScoredDiagnosis("B", 40.0, c, f, {})];
      && Adjusted(ranked) == ranked
      && AdjustedIntended(ranked)[1].confidence.level == Medium
      && AdjustedIntended(ranked)[1] != ranked[1]
  {
    var f := Categorized(["fever"], [], [], "");
    var ranked := [ScoredDiagnosis("A", 50.0, c, f, {}), ScoredDiagnosis("B", 40.0, c, f, {})];
    AdjustedProperties(ranked);
    SimilarityCounterexample();
    assert NearDuplicateIntended(ranked, 1);
  }

  /** `_adjust_similar_diagnoses`, updating the list in place position by position. The list
      comes back unchanged, since the branch that discounts never fires. */
  method AdjustSimilarDiagnoses(results: seq<ScoredDiagnosis>) returns (r: seq<ScoredDiagnosis>)
    ensures r == Adjusted(results)
    ensures r == results
  {
    if results == [] {
      return results;
    }
    var adjusted := results;
    var top := results[0];
    for i := 1 to |adjusted|
      invariant |adjusted| == |results| && adjusted[0] == results[0]
      invariant forall j :: 1 <= j < i ==>
        adjusted[j] == if NearDuplicate(results, j) then Discounted(results[j]) else results[j]
      invariant forall j :: i <= j < |adjusted| ==> adjusted[j] == results[j]
    {
      var similarity := SimilarityAsWritten(top.matchingFactors, adjusted[i].matchingFactors);
      if similarity > 0.7 {
        adjusted := adjusted[i := Discounted(adjusted[i])];
      }
    }
    r := adjusted;
    AdjustedProperties(results);
  }

  /** An entry that survives sorting and filtering came from the input and is likely. */
  lemma KeptMember(results: seq<ScoredDiagnosis>, x: ScoredDiagnosis)
    requires x in KeepWhere(SortByRank(results, RankOf), Likely)
    ensures x in results && Likely(x)
  {
    var sorted := SortByRank(results, RankOf);
    assert multiset(KeepWhere(sorted, Likely))[x] > 0;
    assert multiset(results)[x] == multiset(sorted)[x] > 0;
  }

  /** The candidates `_apply_differential_diagnosis` keeps, before discounting: ranked by
      (probability, confidence score) descending, probabilities of at least 10. */
  function Shortlist(results: seq<ScoredDiagnosis>): seq<ScoredDiagnosis> {
    KeepWhere(SortByRank(results, RankOf), Likely)
  }

  /** The shortlist is ranked, holds only likely candidates, and holds each of them exactly as
      often as the input does. */
  lemma ShortlistProperties(results: seq<ScoredDiagnosis>)
    ensures SortedDesc(Shortlist(results), RankOf)
    ensures multiset(Shortlist(results)) == multiset(KeepWhere(results, Likely))
    ensures forall d :: d in Shortlist(results) ==> d in results && Likely(d)
    ensures |Shortlist(results)| <= |results|
  {
    KeepWhereSorted(SortByRank(results, RankOf), Likely, RankOf);
    RankedMultiset(results);
    forall d | d in Shortlist(results) ensures d in results && Likely(d) {
      KeptMember(results, d);
    }
  }

  /** `_apply_differential_diagnosis`: sort by (probability, confidence score) descending, keep
      probabilities of at least 10, then discount near-duplicates of the top candidate. */
  method ApplyDifferentialDiagnosis(results: seq<ScoredDiagnosis>) returns (r: seq<ScoredDiagnosis>)
    ensures r == Adjusted(Shortlist(results))
  {
    var sorted := SortByRank(results, RankOf);
    var filtered := KeepWhere(sorted, Likely);
    r := AdjustSimilarDiagnoses(filtered);
  }

  // ---------------------------------------------------------------------------------------
  // calculate_diagnosis

  /** The result entry for one condition before the differential stage. */
  function Evaluate(c: Condition, a: Assessment): ScoredDiagnosis {
    var score := CompositeScore(c, a);
    var mf := AnalyzeMatchingFactors(c, a);
    ScoredDiagnosis(NameOf(c), score, ConfidenceLevel(score, mf), mf, Recommendations(c, score, mf))
  }

  function EvaluateAll(cs: seq<Condition>, a: Assessment): (r: seq<ScoredDiagnosis>)
    ensures |r| == |cs|
  {
    Map(cs, c => Evaluate(c, a))
  }

  /** Evaluating one more condition appends its entry. */
  lemma EvaluateAllSnoc(cs: seq<Condition>, i: int, a: Assessment)
    requires 0 <= i < |cs|
    ensures EvaluateAll(cs[..i + 1], a) == EvaluateAll(cs[..i], a) + [Evaluate(cs[i], a)]
  {
    MapPrefix(cs, i, c => Evaluate(c, a));
  }

  /** Every evaluated entry carries the `Analyzed` factors, hence the fallback confidence and
      advice, and a probability in [0, 100]. */
  lemma EvaluatedEntry(cs: seq<Condition>, a: Assessment, d: ScoredDiagnosis)
    requires d in EvaluateAll(cs, a)
    ensures d.matchingFactors.Analyzed? && 0.0 <= d.probability <= 100.0
    ensures d.confidence == FallbackConfidence && d.recommendations == {FallbackAdvice}
  {
    var i :| 0 <= i < |cs| && EvaluateAll(cs, a)[i] == d;
    assert d == Evaluate(cs[i], a);
  }

  /** Filtering after sorting keeps the same entries as filtering alone. */
  lemma RankedMultiset(results: seq<ScoredDiagnosis>)
    ensures multiset(KeepWhere(SortByRank(results, RankOf), Likely)) == multiset(KeepWhere(results, Likely))
  {
    KeepWherePermutation(SortByRank(results, RankOf), results, Likely);
  }

  /** What the differential stage yields for evaluated entries: since none carries the keys the
      similarity reads, nothing is discounted and the result is the shortlist, whose entries have
      the fallback confidence and advice and a probability in [10, 100]. */
  lemma EvaluatedShortlist(cs: seq<Condition>, a: Assessment)
    ensures Adjusted(Shortlist(EvaluateAll(cs, a))) == Shortlist(EvaluateAll(cs, a))
    ensures forall d :: d in Shortlist(EvaluateAll(cs, a)) ==>
      && 10.0 <= d.probability <= 100.0
      && d.confidence == FallbackConfidence
      && d.recommendations == {FallbackAdvice}
  {
    var results := EvaluateAll(cs, a);
    var kept := Shortlist(results);
    ShortlistProperties(results);
    forall d | d in kept
      ensures d.matchingFactors.Analyzed? && 10.0 <= d.probability <= 100.0
      ensures d.confidence == FallbackConfidence && d.recommendations == {FallbackAdvice}
    {
      EvaluatedEntry(cs, a, d);
    }
    AdjustedProperties(kept);
  }

  /** The body of the loop of `calculate_diagnosis`: score one condition, analyse its matching
      factors and collect its confidence and recommendations. */
  method ScoreCondition(c: Condition, a: Assessment) returns (d: ScoredDiagnosis)
    ensures d == Evaluate(c, a)
  {
    var score := ComprehensiveScore(c, a);
    var matchingFactors := AnalyzeMatchingFactors(c, a);
    var recommendations := GenerateRecommendations(c, score, matchingFactors);
    d := ScoredDiagnosis(NameOf(c), score, ConfidenceLevel(score, matchingFactors), matchingFactors, recommendations);
  }

  /** The loop of `calculate_diagnosis`: one entry per condition, in the order given. */
  method ScoreConditions(conditions: seq<Condition>, a: Assessment) returns (results: seq<ScoredDiagnosis>)
    ensures results == EvaluateAll(conditions, a)
  {
    results := [];
    for i := 0 to |conditions|
      invariant results == EvaluateAll(conditions[..i], a)
    {
      var d := ScoreCondition(conditions[i], a);
      EvaluateAllSnoc(conditions, i, a);
      results := results + [d];
    }
    assert conditions[..|conditions|] == conditions;
  }

  /** `calculate_diagnosis`: one entry per condition, then the differential stage. Because the
      matching factors never carry the keys the confidence and recommendation helpers read, every
      returned entry has the fallback confidence and the fallback advice, and no entry is
      discounted: the result is exactly the likely entries, ranked. */
  method CalculateDiagnosis(conditions: seq<Condition>, user: UserData) returns (r: seq<ScoredDiagnosis>)
    ensures r == Shortlist(EvaluateAll(conditions, Parse(user)))
    ensures forall d :: d in r ==>
      && 10.0 <= d.probability <= 100.0
      && d.confidence == FallbackConfidence
      && d.recommendations == {FallbackAdvice}
  {
    var a := Parse(user);
    var results := ScoreConditions(conditions, a);
    r := ApplyDifferentialDiagnosis(results);
    EvaluatedShortlist(conditions, a);
  }
}
