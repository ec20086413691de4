/** The combination/additive scorer of the module-level functions of symptom_tracker.py.
    Diseases collect points from an exact symptom-combination match, from partial combination
    matches and from per-symptom weights scaled by modifiers; travel, drug and risk-factor tables
    add bonuses in place; the positive scores are normalised into a probability distribution. */
module SymptomTracker {
  import opened Wrappers
  import opened Seqs
  import opened Text
  import opened Dicts
  import opened Ranking
  import opened Tiers
  import opened Reals

  // ---------------------------------------------------------------------------------------
  // Data

  /** The per-disease record of the shared `scores` dictionary. Keys a record may lack are given
      their default: no travel tag, no risk factors, not an exact match. The matching-symptom list
      is a set, since every reader of it applies set(). */
  datatype Entry = Entry(
    score: real,
    matchingSymptoms: set<string>,
    isExactMatch: bool,
    travelRisk: Option<string>,
    riskFactors: seq<string>)

  /** {'score': 0, 'matching_symptoms': []}, the record a disease first gets. */
  const Blank := Entry(0.0, {}, false, None, [])

  function Lookup(d: Dict<Entry>, k: string): Entry {
    if k in d.values then d.values[k] else Blank
  }

  /** What one table row adds to one disease: points and matching symptoms. */
  datatype Gain = Gain(amount: real, symptoms: set<string>)

  /** The extra mark a bonus leaves: the travel region, or a risk factor appended. */
  datatype Tag = NoTag | TravelTag(region: string) | RiskTag(factor: string)

  /** One entry of symptom_weights[symptom]: the weight and the four modifier tables. */
  datatype SymptomData = SymptomData(
    weight: real,
    durationFactors: map<int, real>,
    severityFactors: map<string, real>,
    ageFactors: map<string, real>,
    genderFactors: map<string, real>)

  /** The `factors` dictionary handed to calculate_modifiers. */
  datatype Factors = Factors(duration: int, severity: string, ageGroup: string, gender: string)

  /** The five tables the scorer reads, each a dictionary from a key to diseases and weights. */
  datatype Tables = Tables(
    combinations: Dict<Dict<real>>,
    symptomWeights: map<string, Dict<SymptomData>>,
    travelRisks: map<string, Dict<real>>,
    drugWeights: map<string, Dict<real>>,
    riskWeights: map<string, Dict<real>>)

  /** The drug_history argument: None, one drug as a string, or a list of drugs. */
  datatype DrugHistory = NoDrugs | DrugText(text: string) | DrugList(names: seq<string>)

  // ---------------------------------------------------------------------------------------
  // Adding to the scores

  /** The record after one gain: points added, symptoms joined, the tag recorded. */
  function Bump(e: Entry, g: Gain, tag: Tag): Entry {
    Entry(
      e.score + g.amount,
      e.matchingSymptoms + g.symptoms,
      e.isExactMatch,
      if tag.TravelTag? then Some(tag.region) else e.travelRisk,
      if tag.RiskTag? then e.riskFactors + [tag.factor] else e.riskFactors)
  }

  /** The scores after the gains for the diseases `ks`, in that order; a disease not yet scored
      starts from the blank record and is appended. */
  function Accumulate(acc: Dict<Entry>, gains: Dict<Gain>, ks: seq<string>, tag: Tag): (r: Dict<Entry>)
    requires forall k :: k in ks ==> k in gains.values
    ensures forall k :: k in r.values <==> k in acc.values || k in ks
  {
    if ks == [] then acc
    else
      var k, prefix := ks[|ks| - 1], ks[..|ks| - 1];
      assert forall j :: j in ks <==> j in prefix || j == k by {
        assert ks == prefix + [k];
      }
      var prev := Accumulate(acc, gains, prefix, tag);
      Put(prev, k, Bump(Lookup(prev, k), gains.values[k], tag))
  }

  /** Each listed disease gains exactly once when no disease is listed twice; the others are
      left as they were. */
  lemma {:induction false} AccumulateLookup(acc: Dict<Entry>, gains: Dict<Gain>, ks: seq<string>, tag: Tag, k: string)
    requires forall j :: j in ks ==> j in gains.values
    requires Distinct(ks)
    ensures Lookup(Accumulate(acc, gains, ks, tag), k) ==
      if k in ks then Bump(Lookup(acc, k), gains.values[k], tag) else Lookup(acc, k)
  {
    if ks != [] {
      var last, prefix := ks[|ks| - 1], ks[..|ks| - 1];
      assert ks == prefix + [last];
      DistinctPrefix(ks);
      assert forall j :: j in prefix ==> j in ks;
      AccumulateLookup(acc, gains, prefix, tag, k);
    }
  }

  /** One more row of the gains is one more update of the scores. */
  lemma AccumulateNext(acc: Dict<Entry>, gains: Dict<Gain>, i: nat, tag: Tag)
    requires i < |gains.keys|
    ensures var prev := Accumulate(acc, gains, gains.keys[..i], tag);
      Accumulate(acc, gains, gains.keys[..i + 1], tag) ==
        Put(prev, gains.keys[i], Bump(Lookup(prev, gains.keys[i]), gains.values[gains.keys[i]], tag))
  {
    assert gains.keys[..i + 1][..i] == gains.keys[..i];
  }

  /** Every table row gains its weight times `factor`, with `syms` as matching symptoms. */
  function WeightGains(w: Dict<real>, factor: real, syms: set<string>): Dict<Gain> {
    MapValues(w, x => Gain(x * factor, syms))
  }

  /** The shared `scores` dictionary that merge_scores and the bonus functions update in place. */
  class ScoreBoard {
    var scores: Dict<Entry>

    constructor(init: Dict<Entry>)
      ensures scores == init
    {
      scores := init;
    }

    /** The loop shared by every `for disease, weight in table.items()` of the scorer: create the
        blank record if needed, then add the points and the symptoms and set the tag. */
    method AddAll(gains: Dict<Gain>, tag: Tag)
      modifies this
      ensures scores == Accumulate(old(scores), gains, gains.keys, tag)
    {
      ghost var start := scores;
      for i := 0 to |gains.keys|
        invariant scores == Accumulate(start, gains, gains.keys[..i], tag)
      {
        var disease := gains.keys[i];
        AccumulateNext(start, gains, i, tag);
        var entry := Blank;
        if disease in scores.values {
          entry := scores.values[disease];
        }
        scores := Put(scores, disease, Bump(entry, gains.values[disease], tag));
      }
      assert gains.keys[..|gains.keys|] == gains.keys;
    }

    /** `merge_scores(self.scores, source)`. */
    method Merge(source: Dict<Entry>)
      modifies this
      ensures scores == MergeScores(old(scores), source)
    {
      AddAll(EntryGains(source), NoTag);
    }

    /** `apply_travel_risks`. */
    method ApplyTravelRisks(travelRisks: map<string, Dict<real>>, region: Option<string>)
      modifies this
      ensures scores == TravelBonus(old(scores), travelRisks, region)
    {
      if region.None? || region.value == "" || region.value !in travelRisks {
        return;
      }
      AddAll(WeightGains(travelRisks[region.value], 1.0, {}), TravelTag(region.value));
    }

    /** `apply_drug_history`. */
    method ApplyDrugHistory(drugWeights: map<string, Dict<real>>, drugs: DrugHistory)
      modifies this
      ensures scores == DrugBonus(old(scores), drugWeights, drugs)
    {
      if drugs.NoDrugs? || drugs == DrugText("") || drugs == DrugList([]) {
        return;
      }
      var drugList := if drugs.DrugText? then [drugs.text] else drugs.names;
      assert drugList == DrugNames(drugs);
      ghost var start := scores;
      for i := 0 to |drugList|
        invariant scores == DrugFold(start, drugWeights, drugList[..i])
      {
        assert drugList[..i + 1][..i] == drugList[..i];
        var drug := drugList[i];
        if drug in drugWeights {
          AddAll(WeightGains(drugWeights[drug], 1.0, {}), NoTag);
        }
      }
      assert drugList[..|drugList|] == drugList;
    }

    /** `apply_risk_factors`. */
    method ApplyRiskFactors(riskWeights: map<string, Dict<real>>, factors: Option<seq<string>>)
      modifies this
      ensures scores == RiskBonus(old(scores), riskWeights, factors)
    {
      if factors.None? || factors.value == [] {
        return;
      }
      var factorList := factors.value;
      ghost var start := scores;
      for i := 0 to |factorList|
        invariant scores == RiskFold(start, riskWeights, factorList[..i])
      {
        assert factorList[..i + 1][..i] == factorList[..i];
        var factor := factorList[i];
        if factor in riskWeights {
          AddAll(WeightGains(riskWeights[factor], 1.0, {}), RiskTag(factor));
        }
      }
      assert factorList[..|factorList|] == factorList;
    }
  }

  // ---------------------------------------------------------------------------------------
  // merge_scores

  /** What a source record contributes when merged: its score and its matching symptoms. */
  function EntryGains(source: Dict<Entry>): Dict<Gain> {
    MapValues(source, (e: Entry) => Gain(e.score, e.matchingSymptoms))
  }

  /** `merge_scores(target, source)` as a function of the two dictionaries. */
  function MergeScores(target: Dict<Entry>, source: Dict<Entry>): Dict<Entry> {
    Accumulate(target, EntryGains(source), source.keys, NoTag)
  }

  /** After a merge the diseases are those of either side. */
  lemma MergeKeys(target: Dict<Entry>, source: Dict<Entry>)
    ensures forall k :: k in MergeScores(target, source).values <==> k in target.values || k in source.values
  {
  }

  /** A disease of the source has, after the merge, the sum of the two scores (0 for a disease the
      target lacked) and the union of the two symptom sets, its other keys kept from the target;
      a disease absent from the source is unchanged. */
  lemma MergeEffect(target: Dict<Entry>, source: Dict<Entry>, k: string)
    ensures k in source.values ==>
      (Lookup(MergeScores(target, source), k) ==
       Lookup(target, k).(score := Lookup(target, k).score + source.values[k].score,
                          matchingSymptoms := Lookup(target, k).matchingSymptoms + source.values[k].matchingSymptoms))
    ensures k !in source.values ==> Lookup(MergeScores(target, source), k) == Lookup(target, k)
  {
    var gains := EntryGains(source);
    AccumulateLookup(target, gains, source.keys, NoTag, k);
    if k in source.values {
      assert gains.values[k] == Gain(source.values[k].score, source.values[k].matchingSymptoms);
    }
  }

  // ---------------------------------------------------------------------------------------
  // Bonuses

  /** `apply_travel_risks` as a function: no-op without a (known) region, otherwise every disease
      of the region's table gains its weight and is tagged with the region. */
  function TravelBonus(s: Dict<Entry>, travelRisks: map<string, Dict<real>>, region: Option<string>): Dict<Entry> {
    if region.None? || region.value == "" || region.value !in travelRisks then s
    else
      var w := travelRisks[region.value];
      Accumulate(s, WeightGains(w, 1.0, {}), w.keys, TravelTag(region.value))
  }

  lemma TravelBonusEffect(s: Dict<Entry>, travelRisks: map<string, Dict<real>>, region: Option<string>, k: string)
    ensures region.None? || region == Some("") || (region.Some? && region.value !in travelRisks) ==>
      TravelBonus(s, travelRisks, region) == s
    ensures region.Some? && region.value != "" && region.value in travelRisks && k in travelRisks[region.value].values ==>
      Lookup(TravelBonus(s, travelRisks, region), k) ==
        Lookup(s, k).(score := Lookup(s, k).score + travelRisks[region.value].values[k], travelRisk := region)
    ensures region.Some? && region.value != "" && region.value in travelRisks && k !in travelRisks[region.value].values ==>
      Lookup(TravelBonus(s, travelRisks, region), k) == Lookup(s, k)
  {
    if region.Some? && region.value != "" && region.value in travelRisks {
      var w := travelRisks[region.value];
      AccumulateLookup(s, WeightGains(w, 1.0, {}), w.keys, TravelTag(region.value), k);
      assert Lookup(s, k).matchingSymptoms + {} == Lookup(s, k).matchingSymptoms;
    }
  }

  /** The drugs `apply_drug_history` visits: a string is a one-drug list. */
  function DrugNames(drugs: DrugHistory): (r: seq<string>)
    ensures drugs.DrugText? && drugs.text != "" ==> r == [drugs.text]
    ensures drugs.DrugList? ==> r == drugs.names
    ensures drugs.NoDrugs? || drugs == DrugText("") ==> r == []
  {
    match drugs
    case NoDrugs => []
    case DrugText(t) => if t == "" then [] else [t]
    case DrugList(xs) => xs
  }

  /** The scores after the bonuses of the drugs `ds`, in order; unknown drugs add nothing. */
  function DrugFold(s: Dict<Entry>, drugWeights: map<string, Dict<real>>, ds: seq<string>): Dict<Entry> {
    if ds == [] then s
    else
      var prev := DrugFold(s, drugWeights, ds[..|ds| - 1]);
      var d := ds[|ds| - 1];
      if d in drugWeights then Accumulate(prev, WeightGains(drugWeights[d], 1.0, {}), drugWeights[d].keys, NoTag)
      else prev
  }

  function DrugBonus(s: Dict<Entry>, drugWeights: map<string, Dict<real>>, drugs: DrugHistory): Dict<Entry> {
    DrugFold(s, drugWeights, DrugNames(drugs))
  }

  /** A drug history given as a string is the one-drug list; no history, an empty one or an
      unknown drug changes nothing. */
  lemma DrugBonusNoOps(s: Dict<Entry>, drugWeights: map<string, Dict<real>>, drug: string)
    ensures drug != "" ==> DrugBonus(s, drugWeights, DrugText(drug)) == DrugBonus(s, drugWeights, DrugList([drug]))
    ensures DrugBonus(s, drugWeights, NoDrugs) == s && DrugBonus(s, drugWeights, DrugText("")) == s
    ensures DrugBonus(s, drugWeights, DrugList([])) == s
    ensures drug !in drugWeights ==> DrugBonus(s, drugWeights, DrugList([drug])) == s
  {
    assert [drug][..0] == [];
  }

  /** A known drug adds exactly its table weight to each disease it lists and leaves the others alone. */
  lemma DrugBonusEffect(s: Dict<Entry>, drugWeights: map<string, Dict<real>>, drug: string, k: string)
    requires drug in drugWeights
    ensures Lookup(DrugBonus(s, drugWeights, DrugList([drug])), k) ==
      if k in drugWeights[drug].values
      then Lookup(s, k).(score := Lookup(s, k).score + drugWeights[drug].values[k])
      else Lookup(s, k)
  {
    var w := drugWeights[drug];
    var ds := [drug];
    assert ds[..0] == [] && ds[0] == drug;
    assert DrugFold(s, drugWeights, ds) == Accumulate(DrugFold(s, drugWeights, ds[..0]), WeightGains(w, 1.0, {}), w.keys, NoTag);
    assert DrugBonus(s, drugWeights, DrugList([drug])) == Accumulate(s, WeightGains(w, 1.0, {}), w.keys, NoTag);
    AccumulateLookup(s, WeightGains(w, 1.0, {}), w.keys, NoTag, k);
    assert Lookup(s, k).matchingSymptoms + {} == Lookup(s, k).matchingSymptoms;
  }

  /** The scores after the bonuses of the risk factors `fs`, in order; each known factor is
      appended to the risk list of every disease it lists. */
  function RiskFold(s: Dict<Entry>, riskWeights: map<string, Dict<real>>, fs: seq<string>): Dict<Entry> {
    if fs == [] then s
    else
      var prev := RiskFold(s, riskWeights, fs[..|fs| - 1]);
      var f := fs[|fs| - 1];
      if f in riskWeights then Accumulate(prev, WeightGains(riskWeights[f], 1.0, {}), riskWeights[f].keys, RiskTag(f))
      else prev
  }

  function RiskBonus(s: Dict<Entry>, riskWeights: map<string, Dict<real>>, factors: Option<seq<string>>): Dict<Entry> {
    RiskFold(s, riskWeights, factors.GetOr([]))
  }

  /** No risk factors, or an unknown one, change nothing. */
  lemma RiskBonusNoOps(s: Dict<Entry>, riskWeights: map<string, Dict<real>>, factor: string)
    ensures RiskBonus(s, riskWeights, None) == s && RiskBonus(s, riskWeights, Some([])) == s
    ensures factor !in riskWeights ==> RiskBonus(s, riskWeights, Some([factor])) == s
  {
    assert [factor][..0] == [];
  }

  /** A known risk factor adds its weight to each disease it lists and is appended to that
      disease's risk factors; the other diseases are left alone. */
  lemma RiskBonusEffect(s: Dict<Entry>, riskWeights: map<string, Dict<real>>, factor: string, k: string)
    requires factor in riskWeights
    ensures Lookup(RiskBonus(s, riskWeights, Some([factor])), k) ==
      if k in riskWeights[factor].values
      then Lookup(s, k).(score := Lookup(s, k).score + riskWeights[factor].values[k],
                         riskFactors := Lookup(s, k).riskFactors + [factor])
      else Lookup(s, k)
  {
    var w := riskWeights[factor];
    var fs := [factor];
    assert fs[..0] == [] && fs[0] == factor;
    assert RiskFold(s, riskWeights, fs) == Accumulate(RiskFold(s, riskWeights, fs[..0]), WeightGains(w, 1.0, {}), w.keys, RiskTag(factor));
    assert RiskBonus(s, riskWeights, Some([factor])) == Accumulate(s, WeightGains(w, 1.0, {}), w.keys, RiskTag(factor));
    AccumulateLookup(s, WeightGains(w, 1.0, {}), w.keys, RiskTag(factor), k);
    assert Lookup(s, k).matchingSymptoms + {} == Lookup(s, k).matchingSymptoms;
  }

  /** An example row of travel_risk_factors: part of the table for Sub-Saharan Africa. */
  const SubSaharanAfrica: Dict<real> :=
    DictRep(["Malaria", "Tuberculosis", "HIV/AIDS"],
            map["Malaria" := 2.0, "Tuberculosis" := 1.9, "HIV/AIDS" := 1.8])

  /** Travel to Sub-Saharan Africa adds 2 points to malaria and tags it with the region. */
  lemma MalariaAfterTravel(s: Dict<Entry>)
    ensures var travelRisks := map["Sub-Saharan Africa" := SubSaharanAfrica];
      var after := Lookup(TravelBonus(s, travelRisks, Some("Sub-Saharan Africa")), "Malaria");
      after.score == Lookup(s, "Malaria").score + 2.0 && after.travelRisk == Some("Sub-Saharan Africa")
  {
    var travelRisks := map["Sub-Saharan Africa" := SubSaharanAfrica];
    assert "Sub-Saharan Africa" in travelRisks && travelRisks["Sub-Saharan Africa"] == SubSaharanAfrica;
    assert "Malaria" in SubSaharanAfrica.values && SubSaharanAfrica.values["Malaria"] == 2.0;
    TravelBonusEffect(s, travelRisks, Some("Sub-Saharan Africa"), "Malaria");
  }

  // ---------------------------------------------------------------------------------------
  // Exact and partial combination matches

  /** The key `', '.join(sorted(symptoms))`. */
  function ExactKey(symptoms: seq<string>): string {
    Join(SortStrings(symptoms), ", ")
  }

  /** `find_exact_matches`: the row of the combination table for the sorted, joined symptoms,
      each disease scored with its weight, marked as an exact match, with the user's symptoms. */
  function FindExactMatches(combinations: Dict<Dict<real>>, symptoms: seq<string>): (r: Dict<Entry>)
    ensures ExactKey(symptoms) !in combinations.values ==> r.keys == []
    ensures ExactKey(symptoms) in combinations.values ==>
      && r.keys == combinations.values[ExactKey(symptoms)].keys
      && forall k :: k in r.values ==>
           r.values[k] == Entry(combinations.values[ExactKey(symptoms)].values[k], Elems(symptoms), true, None, [])
  {
    var key := ExactKey(symptoms);
    if key in combinations.values then ExactEntries(combinations.values[key], Elems(symptoms))
    else Empty()
  }

  function ExactEntries(w: Dict<real>, syms: set<string>): Dict<Entry> {
    MapValues(w, x => Entry(x, syms, true, None, []))
  }

  /** The exact match depends only on which symptoms are given and how often, not their order. */
  lemma FindExactPermutation(combinations: Dict<Dict<real>>, a: seq<string>, b: seq<string>)
    requires multiset(a) == multiset(b)
    ensures FindExactMatches(combinations, a) == FindExactMatches(combinations, b)
  {
    SortStringsPermutation(a, b);
    assert Elems(a) == Elems(b) by {
      forall x ensures x in a <==> x in b {
        assert x in a <==> x in multiset(a);
        assert x in b <==> x in multiset(b);
      }
    }
  }

  /** The symptoms of a combination key. */
  function Pieces(combination: string): (r: seq<string>)
    ensures |r| >= 1
  {
    Split(combination, ", ")
  }

  /** `[s for s in combination_symptoms if s in symptom_set]`. */
  function Overlap(combination: string, userSet: set<string>): seq<string> {
    KeepIn(Pieces(combination), userSet)
  }

  /** A combination counts when the user has at least two of its symptoms, or all of a
      one-symptom combination. */
  predicate Qualifies(combination: string, userSet: set<string>) {
    |Overlap(combination, userSet)| >= if |Pieces(combination)| < 2 then |Pieces(combination)| else 2
  }

  /** The share of a qualifying combination the user has. */
  function MatchRatio(combination: string, userSet: set<string>): (r: real)
    requires Qualifies(combination, userSet)
    ensures 0.0 < r <= 1.0
  {
    var n, d := |Overlap(combination, userSet)| as real, |Pieces(combination)| as real;
    QuotientPositive(n, d);
    QuotientAtMost(n, d, 1.0);
    n / d
  }

  /** The partial matches after the combinations `cs`, in table order. */
  function PartialFold(combinations: Dict<Dict<real>>, cs: seq<string>, userSet: set<string>): Dict<Entry>
    requires forall c :: c in cs ==> c in combinations.values
  {
    if cs == [] then Empty()
    else
      var c := cs[|cs| - 1];
      assert c in cs;
      var prev := PartialFold(combinations, cs[..|cs| - 1], userSet);
      if Qualifies(c, userSet) then
        var w := combinations.values[c];
        Accumulate(prev, WeightGains(w, MatchRatio(c, userSet), Elems(Overlap(c, userSet))), w.keys, NoTag)
      else prev
  }

  function PartialMatches(combinations: Dict<Dict<real>>, symptoms: seq<string>): Dict<Entry> {
    PartialFold(combinations, combinations.keys, Elems(symptoms))
  }

  /** One more combination changes nothing unless it qualifies; if it does, each disease of its
      row gains weight times the match ratio, and the overlap joins its matching symptoms. */
  lemma PartialStep(combinations: Dict<Dict<real>>, cs: seq<string>, userSet: set<string>, k: string)
    requires cs != [] && forall c :: c in cs ==> c in combinations.values
    ensures var c, prefix := cs[|cs| - 1], cs[..|cs| - 1];
      var before, after := Lookup(PartialFold(combinations, prefix, userSet), k), Lookup(PartialFold(combinations, cs, userSet), k);
      && (!Qualifies(c, userSet) || k !in combinations.values[c].values ==> after == before)
      && (Qualifies(c, userSet) && k in combinations.values[c].values ==>
            after == before.(score := before.score + combinations.values[c].values[k] * MatchRatio(c, userSet),
                             matchingSymptoms := before.matchingSymptoms + Elems(Overlap(c, userSet))))
  {
    var c, prefix := cs[|cs| - 1], cs[..|cs| - 1];
    assert c in cs;
    if Qualifies(c, userSet) {
      var w := combinations.values[c];
      AccumulateLookup(PartialFold(combinations, prefix, userSet),
                       WeightGains(w, MatchRatio(c, userSet), Elems(Overlap(c, userSet))), w.keys, NoTag, k);
    }
  }

  /** When no combination qualifies, there are no partial matches. */
  lemma {:induction false} NoQualifyingCombination(combinations: Dict<Dict<real>>, cs: seq<string>, userSet: set<string>)
    requires forall c :: c in cs ==> c in combinations.values
    requires forall c :: c in cs ==> !Qualifies(c, userSet)
    ensures PartialFold(combinations, cs, userSet).keys == []
  {
    if cs != [] {
      assert cs[|cs| - 1] in cs;
      NoQualifyingCombination(combinations, cs[..|cs| - 1], userSet);
    }
  }

  /** `find_partial_matches`. */
  method FindPartialMatches(combinations: Dict<Dict<real>>, symptoms: seq<string>) returns (r: Dict<Entry>)
    ensures r == PartialMatches(combinations, symptoms)
  {
    var matches := new ScoreBoard(Empty());
    var symptomSet := Elems(symptoms);
    for i := 0 to |combinations.keys|
      invariant matches.scores == PartialFold(combinations, combinations.keys[..i], symptomSet)
    {
      var combination := combinations.keys[i];
      assert combinations.keys[..i + 1][..i] == combinations.keys[..i];
      var diseases := combinations.values[combination];
      var combinationSymptoms := Split(combination, ", ");
      var intersection := KeepIn(combinationSymptoms, symptomSet);
      if |intersection| >= if |combinationSymptoms| < 2 then |combinationSymptoms| else 2 {
        var matchRatio := |intersection| as real / |combinationSymptoms| as real;
        matches.AddAll(WeightGains(diseases, matchRatio, Elems(intersection)), NoTag);
      }
    }
    assert combinations.keys[..|combinations.keys|] == combinations.keys;
    r := matches.scores;
  }

  // ---------------------------------------------------------------------------------------
  // Individual symptoms

  /** `calculate_modifiers`: the product of the four modifier lookups, each 1 when absent. */
  function Modifiers(data: SymptomData, f: Factors): (r: real)
    ensures (f.duration !in data.durationFactors && f.severity !in data.severityFactors
             && f.ageGroup !in data.ageFactors && f.gender !in data.genderFactors) ==> r == 1.0
  {
    (if f.duration in data.durationFactors then data.durationFactors[f.duration] else 1.0)
      * (if f.severity in data.severityFactors then data.severityFactors[f.severity] else 1.0)
      * (if f.ageGroup in data.ageFactors then data.ageFactors[f.ageGroup] else 1.0)
      * (if f.gender in data.genderFactors then data.genderFactors[f.gender] else 1.0)
  }

  /** Modifier tables with entries in [0, 1] can only scale a weight down. */
  lemma ModifiersBounds(data: SymptomData, f: Factors)
    requires forall k :: k in data.durationFactors ==> 0.0 <= data.durationFactors[k] <= 1.0
    requires forall k :: k in data.severityFactors ==> 0.0 <= data.severityFactors[k] <= 1.0
    requires forall k :: k in data.ageFactors ==> 0.0 <= data.ageFactors[k] <= 1.0
    requires forall k :: k in data.genderFactors ==> 0.0 <= data.genderFactors[k] <= 1.0
    ensures 0.0 <= Modifiers(data, f) <= 1.0
  {
    var a := if f.duration in data.durationFactors then data.durationFactors[f.duration] else 1.0;
    var b := if f.severity in data.severityFactors then data.severityFactors[f.severity] else 1.0;
    var c := if f.ageGroup in data.ageFactors then data.ageFactors[f.ageGroup] else 1.0;
    var d := if f.gender in data.genderFactors then data.genderFactors[f.gender] else 1.0;
    UnitProduct(a, b);
    UnitProduct(a * b, c);
    UnitProduct(a * b * c, d);
  }

  /** What one reported symptom gives each disease of its table: weight times modifiers. */
  function SymptomGains(table: Dict<SymptomData>, f: Factors, symptom: string): Dict<Gain> {
    MapValues(table, (d: SymptomData) => Gain(d.weight * Modifiers(d, f), {symptom}))
  }

  /** The individual scores after the symptoms `ss`, in order. */
  function IndividualFold(weights: map<string, Dict<SymptomData>>, ss: seq<string>, f: Factors): Dict<Entry> {
    if ss == [] then Empty()
    else
      var prev := IndividualFold(weights, ss[..|ss| - 1], f);
      var s := ss[|ss| - 1];
      if s in weights then Accumulate(prev, SymptomGains(weights[s], f, s), weights[s].keys, NoTag)
      else prev
  }

  /** Whether symptom `s` has a weight for disease `k`. */
  predicate Weighs(weights: map<string, Dict<SymptomData>>, s: string, k: string) {
    s in weights && k in weights[s].values
  }

  /** The reference definition of a disease's individual score: the sum over the reported
      symptoms that carry a weight for it of weight times modifiers. */
  function IndividualScore(weights: map<string, Dict<SymptomData>>, ss: seq<string>, f: Factors, k: string): real {
    if ss == [] then 0.0
    else
      var s := ss[|ss| - 1];
      IndividualScore(weights, ss[..|ss| - 1], f, k)
        + if Weighs(weights, s, k) then weights[s].values[k].weight * Modifiers(weights[s].values[k], f) else 0.0
  }

  /** The reported symptoms that carry a weight for disease `k`. */
  function WeighingSymptoms(weights: map<string, Dict<SymptomData>>, ss: seq<string>, k: string): (r: set<string>)
    ensures forall s :: s in r <==> s in ss && Weighs(weights, s, k)
  {
    if ss == [] then {}
    else
      var s := ss[|ss| - 1];
      assert forall x :: x in ss <==> x in ss[..|ss| - 1] || x == s by {
        assert ss == ss[..|ss| - 1] + [s];
      }
      WeighingSymptoms(weights, ss[..|ss| - 1], k) + if Weighs(weights, s, k) then {s} else {}
  }

  /** The loop of `calculate_individual_scores` computes, for every disease, exactly the reference
      sum, with the weighing symptoms as matching symptoms. */
  lemma {:induction false} IndividualFoldLookup(weights: map<string, Dict<SymptomData>>, ss: seq<string>, f: Factors, k: string)
    ensures Lookup(IndividualFold(weights, ss, f), k) ==
      Entry(IndividualScore(weights, ss, f, k), WeighingSymptoms(weights, ss, k), false, None, [])
  {
    if ss != [] {
      var prefix, s := ss[..|ss| - 1], ss[|ss| - 1];
      IndividualFoldLookup(weights, prefix, f, k);
      if s in weights {
        AccumulateLookup(IndividualFold(weights, prefix, f), SymptomGains(weights[s], f, s), weights[s].keys, NoTag, k);
      }
    }
  }

  /** A disease is scored iff some reported symptom carries a weight for it. */
  lemma {:induction false} IndividualFoldKeys(weights: map<string, Dict<SymptomData>>, ss: seq<string>, f: Factors, k: string)
    ensures k in IndividualFold(weights, ss, f).values <==> WeighingSymptoms(weights, ss, k) != {}
  {
    if ss != [] {
      var prefix, s := ss[..|ss| - 1], ss[|ss| - 1];
      IndividualFoldKeys(weights, prefix, f, k);
      if Weighs(weights, s, k) {
        assert s in WeighingSymptoms(weights, ss, k);
      }
    }
  }

  function IndividualScores(weights: map<string, Dict<SymptomData>>, symptoms: seq<string>, f: Factors): Dict<Entry> {
    IndividualFold(weights, symptoms, f)
  }

  /** `calculate_individual_scores`. */
  method CalculateIndividualScores(weights: map<string, Dict<SymptomData>>, symptoms: seq<string>, f: Factors)
    returns (r: Dict<Entry>)
    ensures r == IndividualScores(weights, symptoms, f)
  {
    var scores := new ScoreBoard(Empty());
    for i := 0 to |symptoms|
      invariant scores.scores == IndividualFold(weights, symptoms[..i], f)
    {
      var symptom := symptoms[i];
      assert symptoms[..i + 1][..i] == symptoms[..i];
      if symptom in weights {
        scores.AddAll(SymptomGains(weights[symptom], f, symptom), NoTag);
      }
    }
    assert symptoms[..|symptoms|] == symptoms;
    r := scores.scores;
  }

  // ---------------------------------------------------------------------------------------
  // calculate_complete_scores

  function CompleteScores(t: Tables, symptoms: seq<string>, f: Factors): Dict<Entry> {
    MergeScores(
      MergeScores(FindExactMatches(t.combinations, symptoms), PartialMatches(t.combinations, symptoms)),
      IndividualScores(t.symptomWeights, symptoms, f))
  }

  /** `calculate_complete_scores`: the exact match, then the partial and individual scores merged in. */
  method CalculateCompleteScores(t: Tables, symptoms: seq<string>, f: Factors) returns (r: Dict<Entry>)
    ensures r == CompleteScores(t, symptoms, f)
  {
    var exactMatches := FindExactMatches(t.combinations, symptoms);
    var scores := new ScoreBoard(Empty());
    if exactMatches.keys != [] {
      scores.scores := exactMatches;
    }
    assert scores.scores == exactMatches;
    var partialMatches := FindPartialMatches(t.combinations, symptoms);
    scores.Merge(partialMatches);
    var individualScores := CalculateIndividualScores(t.symptomWeights, symptoms, f);
    scores.Merge(individualScores);
    r := scores.scores;
  }

  // ---------------------------------------------------------------------------------------
  // Small classifiers

  /** `normalize_duration`: days, weeks and months (any case) count 1, 7 and 30 days per unit. */
  function NormalizeDuration(duration: int, unit: string): (r: int)
    ensures Lower(unit) == "weeks" ==> r == duration * 7
    ensures Lower(unit) == "months" ==> r == duration * 30
    ensures Lower(unit) != "weeks" && Lower(unit) != "months" ==> r == duration
  {
    var multipliers := map["days" := 1, "weeks" := 7, "months" := 30];
    var u := Lower(unit);
    duration * (if u in multipliers then multipliers[u] else 1)
  }

  /** `categorize_age`. */
  function CategorizeAge(age: int): (r: string)
    ensures r == "child" <==> age <= 12
    ensures r == "adolescent" <==> 12 < age <= 18
    ensures r == "adult" <==> 18 < age <= 65
    ensures r == "elderly" <==> age > 65
  {
    if age <= 12 then "child" else if age <= 18 then "adolescent" else if age <= 65 then "adult" else "elderly"
  }

  function AgeGroupOrder(group: string): nat {
    if group == "child" then 0 else if group == "adolescent" then 1 else if group == "adult" then 2 else 3
  }

  lemma CategorizeAgeMonotone(a: int, b: int)
    requires a <= b
    ensures AgeGroupOrder(CategorizeAge(a)) <= AgeGroupOrder(CategorizeAge(b))
  {
  }

  const HighThreshold := 0.7
  const MediumThreshold := 0.4

  /** `get_confidence_level`. */
  function GetConfidenceLevel(probability: real): (l: Level)
    ensures l == High <==> probability >= HighThreshold
    ensures l == Medium <==> MediumThreshold <= probability < HighThreshold
    ensures l == Low <==> probability < MediumThreshold
  {
    if probability >= HighThreshold then High else if probability >= MediumThreshold then Medium else Low
  }

  lemma GetConfidenceLevelMonotone(p: real, q: real)
    requires p <= q
    ensures Order(GetConfidenceLevel(p)) <= Order(GetConfidenceLevel(q))
  {
  }

  // ---------------------------------------------------------------------------------------
  // calculate_final_results

  datatype FinalResult = FinalResult(
    disease: string,
    probability: real,
    symptoms: set<string>,
    risks: seq<string>,
    travel: Option<string>)

  /** The sum of the scores of the diseases `ks`. */
  function TotalScore(d: Dict<Entry>, ks: seq<string>): real {
    if ks == [] then 0.0 else TotalScore(d, ks[..|ks| - 1]) + Lookup(d, ks[|ks| - 1]).score
  }

  function ResultFor(d: Dict<Entry>, k: string, total: real): FinalResult {
    var e := Lookup(d, k);
    FinalResult(k, if total > 0.0 then e.score / total else 0.0, e.matchingSymptoms, e.riskFactors, e.travelRisk)
  }

  /** The results in dictionary order, before sorting. */
  function Unranked(d: Dict<Entry>, ks: seq<string>, total: real): (r: seq<FinalResult>)
    ensures |r| == |ks|
    ensures forall i :: 0 <= i < |ks| ==> r[i] == ResultFor(d, ks[i], total)
  {
    if ks == [] then [] else Unranked(d, ks[..|ks| - 1], total) + [ResultFor(d, ks[|ks| - 1], total)]
  }

  function ProbabilityKey(r: FinalResult): Rank {
    Rank(r.probability, 0.0)
  }

  function Probability(r: FinalResult): real {
    r.probability
  }

  /** `calculate_final_results`: each score over the total (0 when the total is not positive),
      sorted by probability, highest first. */
  function FinalResults(d: Dict<Entry>): seq<FinalResult> {
    SortByRank(Unranked(d, d.keys, TotalScore(d, d.keys)), ProbabilityKey)
  }

  lemma {:induction false} UnrankedSum(d: Dict<Entry>, ks: seq<string>, total: real)
    requires total > 0.0
    ensures Sum(Unranked(d, ks, total), Probability) == TotalScore(d, ks) / total
  {
    if ks != [] {
      var prefix := ks[..|ks| - 1];
      UnrankedSum(d, prefix, total);
      var u := Unranked(d, ks, total);
      assert u[..|u| - 1] == Unranked(d, prefix, total);
      QuotientSum(TotalScore(d, prefix), Lookup(d, ks[|ks| - 1]).score, total);
    } else {
      assert 0.0 / total == 0.0;
    }
  }

  /** With a positive total the probabilities add up to one. */
  lemma FinalResultsSumToOne(d: Dict<Entry>)
    requires TotalScore(d, d.keys) > 0.0
    ensures Sum(FinalResults(d), Probability) == 1.0
  {
    var total := TotalScore(d, d.keys);
    var u := Unranked(d, d.keys, total);
    SumPermutation(FinalResults(d), u, Probability);
    UnrankedSum(d, d.keys, total);
    SelfQuotient(total);
  }

  /** The results are ranked by probability, one per disease. */
  lemma FinalResultsRanked(d: Dict<Entry>)
    ensures SortedDesc(FinalResults(d), ProbabilityKey)
    ensures |FinalResults(d)| == |d.keys|
    ensures forall r :: r in FinalResults(d) ==> r.disease in d.values
    ensures forall k :: k in d.values ==> exists r :: r in FinalResults(d) && r.disease == k
    ensures TotalScore(d, d.keys) <= 0.0 ==> forall r :: r in FinalResults(d) ==> r.probability == 0.0
  {
    var total := TotalScore(d, d.keys);
    var u := Unranked(d, d.keys, total);
    forall r | r in FinalResults(d)
      ensures r.disease in d.values && (total <= 0.0 ==> r.probability == 0.0)
    {
      assert r in multiset(u);
      var i :| 0 <= i < |u| && u[i] == r;
      assert d.keys[i] in d.keys;
    }
    forall k | k in d.values ensures exists r :: r in FinalResults(d) && r.disease == k {
      var i :| 0 <= i < |d.keys| && d.keys[i] == k;
      assert u[i] in multiset(FinalResults(d));
      assert u[i].disease == k;
    }
  }

  ghost predicate AllPositive(d: Dict<Entry>) {
    forall k :: k in d.values ==> d.values[k].score > 0.0
  }

  lemma {:induction false} TotalScoreBounds(d: Dict<Entry>, ks: seq<string>, k: string)
    requires Distinct(ks) && forall j :: j in ks ==> Lookup(d, j).score > 0.0
    ensures TotalScore(d, ks) >= 0.0
    ensures k in ks ==> Lookup(d, k).score <= TotalScore(d, ks)
  {
    if ks != [] {
      var prefix, last := ks[..|ks| - 1], ks[|ks| - 1];
      assert ks == prefix + [last];
      DistinctPrefix(ks);
      assert last in ks;
      TotalScoreBounds(d, prefix, k);
    }
  }

  /** With every score positive, each disease's share of the total lies in (0, 1]. */
  lemma ShareBounds(d: Dict<Entry>, k: string)
    requires AllPositive(d) && k in d.values
    ensures TotalScore(d, d.keys) > 0.0
    ensures 0.0 < ResultFor(d, k, TotalScore(d, d.keys)).probability <= 1.0
  {
    var total := TotalScore(d, d.keys);
    TotalScoreBounds(d, d.keys, k);
    QuotientPositive(Lookup(d, k).score, total);
    QuotientAtMost(Lookup(d, k).score, total, 1.0);
  }

  /** When every score is positive, every probability lies in (0, 1]. */
  lemma FinalResultsBounds(d: Dict<Entry>)
    requires AllPositive(d)
    ensures d.keys != [] ==> TotalScore(d, d.keys) > 0.0
    ensures forall r :: r in FinalResults(d) ==> 0.0 < r.probability <= 1.0
  {
    var total := TotalScore(d, d.keys);
    var u := Unranked(d, d.keys, total);
    if d.keys != [] {
      assert d.keys[0] in d.values;
      ShareBounds(d, d.keys[0]);
    }
    forall i | 0 <= i < |u| ensures 0.0 < u[i].probability <= 1.0 {
      assert d.keys[i] in d.values;
      ShareBounds(d, d.keys[i]);
    }
    forall r | r in FinalResults(d) ensures 0.0 < r.probability <= 1.0 {
      assert r in multiset(u);
    }
  }

  /** `calculate_final_results`: the loop that appends one result per disease, then the sort. */
  method CalculateFinalResults(scores: Dict<Entry>) returns (r: seq<FinalResult>)
    ensures r == FinalResults(scores)
  {
    var totalScore := TotalScore(scores, scores.keys);
    var results: seq<FinalResult> := [];
    for i := 0 to |scores.keys|
      invariant results == Unranked(scores, scores.keys[..i], totalScore)
    {
      assert scores.keys[..i + 1][..i] == scores.keys[..i];
      var disease := scores.keys[i];
      var data := scores.values[disease];
      var probability := if totalScore > 0.0 then data.score / totalScore else 0.0;
      results := results + [FinalResult(disease, probability, data.matchingSymptoms, data.riskFactors, data.travelRisk)];
    }
    assert scores.keys[..|scores.keys|] == scores.keys;
    r := SortByRank(results, ProbabilityKey);
  }

  // ---------------------------------------------------------------------------------------
  // calculate_diagnosis

  datatype Request = Request(
    symptoms: seq<string>,
    duration: int,
    durationUnit: string,
    severity: string,
    age: int,
    gender: string,
    drugHistory: DrugHistory,
    travelRegion: Option<string>,
    riskFactors: Option<seq<string>>)

  /** One DiagnosisResult: the probability as a percentage (unrounded), the tier, the matched
      symptoms, the joined risk factors and the travel region or 'None'. */
  datatype Detail = Detail(
    diagnosis: string,
    probability: real,
    confidence: Level,
    symptomMatch: set<string>,
    riskFactorMatch: string,
    travelRiskMatch: string)

  const NoSymptoms := "Please select at least one symptom"
  const NoMatch := "No matching diagnoses found for the given symptoms"

  function FactorsOf(req: Request): Factors {
    Factors(NormalizeDuration(req.duration, req.durationUnit), req.severity, CategorizeAge(req.age), req.gender)
  }

  /** The scores after the complete scoring and the three bonuses. */
  function Bonused(t: Tables, req: Request): Dict<Entry> {
    var s := CompleteScores(t, req.symptoms, FactorsOf(req));
    RiskBonus(DrugBonus(TravelBonus(s, t.travelRisks, req.travelRegion), t.drugWeights, req.drugHistory),
              t.riskWeights, req.riskFactors)
  }

  predicate Positive(e: Entry) {
    e.score > 0.0
  }

  function Describe(r: FinalResult): Detail {
    Detail(r.disease, r.probability * 100.0, GetConfidenceLevel(r.probability), r.symptoms,
           Join(r.risks, ", "), if r.travel.Some? && r.travel.value != "" then r.travel.value else "None")
  }

  function Details(results: seq<FinalResult>): (r: seq<Detail>)
    ensures |r| == |results|
    ensures forall i :: 0 <= i < |results| ==> r[i] == Describe(results[i])
  {
    seq(|results|, i requires 0 <= i < |results| => Describe(results[i]))
  }

  /** The end of `calculate_diagnosis`: keep the positively scored diseases, then rank and
      describe them; the second error message when none is left. */
  function Report(scores: Dict<Entry>): (r: Result<seq<Detail>, string>)
    ensures r.Failure? ==> r.error == NoMatch
    ensures r.Failure? <==> forall k :: k in scores.values ==> scores.values[k].score <= 0.0
    ensures r.Success? ==> r.value != [] && forall x :: x in r.value ==>
      x.diagnosis in scores.values && scores.values[x.diagnosis].score > 0.0
    ensures r.Success? ==> forall k :: k in scores.values && scores.values[k].score > 0.0 ==>
      exists x :: x in r.value && x.diagnosis == k
  {
    var filtered := Filter(scores, Positive);
    if filtered.keys == [] then
      assert forall k :: k !in filtered.values;
      Failure(NoMatch)
    else
      DescribedDiseases(filtered);
      Success(Details(FinalResults(filtered)))
  }

  /** Every described result names a disease of the scores, and there is one per disease. */
  lemma DescribedDiseases(d: Dict<Entry>)
    ensures |Details(FinalResults(d))| == |d.keys|
    ensures forall x :: x in Details(FinalResults(d)) ==> x.diagnosis in d.values
    ensures forall k :: k in d.values ==> exists x :: x in Details(FinalResults(d)) && x.diagnosis == k
  {
    var results := FinalResults(d);
    FinalResultsRanked(d);
    forall x | x in Details(results) ensures x.diagnosis in d.values {
      var i :| 0 <= i < |results| && Details(results)[i] == x;
      assert results[i] in results;
    }
    forall k | k in d.values ensures exists x :: x in Details(results) && x.diagnosis == k {
      var r :| r in results && r.disease == k;
      var i :| 0 <= i < |results| && results[i] == r;
      assert Details(results)[i] in Details(results);
    }
  }

  /** Describing a ranked distribution gives a ranked distribution in percent. */
  lemma DetailsDistribution(results: seq<FinalResult>)
    requires forall r :: r in results ==> 0.0 < r.probability <= 1.0
    requires SortedDesc(results, ProbabilityKey)
    requires Sum(results, Probability) == 1.0
    ensures var ds := Details(results);
      && (forall x :: x in ds ==> 0.0 < x.probability <= 100.0)
      && (forall i, j :: 0 <= i < j < |ds| ==> ds[i].probability >= ds[j].probability)
      && Sum(ds, DetailProbability) == 100.0
  {
    var ds := Details(results);
    DetailsSum(results);
    forall x | x in ds ensures 0.0 < x.probability <= 100.0 {
      var i :| 0 <= i < |ds| && ds[i] == x;
      assert results[i] in results;
    }
    forall i, j | 0 <= i < j < |ds| ensures ds[i].probability >= ds[j].probability {
      assert AtLeast(ProbabilityKey(results[i]), ProbabilityKey(results[j]));
    }
  }

  /** A successful report is a ranked distribution: percentages in (0, 100], highest first,
      adding up to 100. */
  lemma ReportDistribution(scores: Dict<Entry>)
    requires Report(scores).Success?
    ensures var ds := Report(scores).value;
      && (forall x :: x in ds ==> 0.0 < x.probability <= 100.0)
      && (forall i, j :: 0 <= i < j < |ds| ==> ds[i].probability >= ds[j].probability)
      && Sum(ds, DetailProbability) == 100.0
  {
    var filtered := Filter(scores, Positive);
    var results := FinalResults(filtered);
    assert Report(scores).value == Details(results);
    assert AllPositive(filtered);
    FinalResultsBounds(filtered);
    FinalResultsRanked(filtered);
    FinalResultsSumToOne(filtered);
    DetailsDistribution(results);
  }

  /** `calculate_diagnosis`: the two error messages, or one detail per positively scored disease. */
  function Diagnose(t: Tables, req: Request): (r: Result<seq<Detail>, string>)
    ensures req.symptoms == [] <==> r == Failure(NoSymptoms)
    ensures r == Failure(NoMatch) <==>
      req.symptoms != [] && forall k :: k in Bonused(t, req).values ==> Bonused(t, req).values[k].score <= 0.0
    ensures r.Success? ==> r.value != [] && forall x :: x in r.value ==>
      x.diagnosis in Bonused(t, req).values && Bonused(t, req).values[x.diagnosis].score > 0.0
    ensures r.Success? ==> forall k :: k in Bonused(t, req).values && Bonused(t, req).values[k].score > 0.0 ==>
      exists x :: x in r.value && x.diagnosis == k
  {
    if req.symptoms == [] then Failure(NoSymptoms) else Report(Bonused(t, req))
  }

  /** A successful diagnosis is a ranked probability distribution in percent. */
  lemma DiagnoseDistribution(t: Tables, req: Request)
    requires Diagnose(t, req).Success?
    ensures var ds := Diagnose(t, req).value;
      && (forall x :: x in ds ==> 0.0 < x.probability <= 100.0)
      && (forall i, j :: 0 <= i < j < |ds| ==> ds[i].probability >= ds[j].probability)
      && Sum(ds, DetailProbability) == 100.0
  {
    ReportDistribution(Bonused(t, req));
  }

  function DetailProbability(x: Detail): real {
    x.probability
  }

  lemma {:induction false} DetailsSum(results: seq<FinalResult>)
    ensures Sum(Details(results), DetailProbability) == Sum(results, Probability) * 100.0
  {
    if results != [] {
      var prefix := results[..|results| - 1];
      DetailsSum(prefix);
      assert Details(results)[..|results| - 1] == Details(prefix);
    }
  }

  /** `calculate_diagnosis`, updating the scores in place with the three bonuses. */
  method CalculateDiagnosis(t: Tables, req: Request) returns (r: Result<seq<Detail>, string>)
    ensures r == Diagnose(t, req)
  {
    if req.symptoms == [] {
      return Failure(NoSymptoms);
    }
    var normalizedDuration := NormalizeDuration(req.duration, req.durationUnit);
    var ageGroup := CategorizeAge(req.age);
    var complete := CalculateCompleteScores(t, req.symptoms, Factors(normalizedDuration, req.severity, ageGroup, req.gender));
    var diagnosisScores := new ScoreBoard(complete);
    diagnosisScores.ApplyTravelRisks(t.travelRisks, req.travelRegion);
    diagnosisScores.ApplyDrugHistory(t.drugWeights, req.drugHistory);
    diagnosisScores.ApplyRiskFactors(t.riskWeights, req.riskFactors);
    var filteredScores := Filter(diagnosisScores.scores, Positive);
    if filteredScores.keys == [] {
      return Failure(NoMatch);
    }
    var results := CalculateFinalResults(filteredScores);
    r := Success(Details(results));
    assert r == Report(diagnosisScores.scores);
  }
}
