/** The rule logic of the CTG backend: the rule-based fallback classifier,
    the recommendation tables, guideline and intervention-algorithm lookup,
    the exact-match patient lookup and the cosine retriever over the case
    corpus. The corpus and the guideline document, which the service loads
    from JSON at start-up, are parameters here. */
module Backend {
  import opened Wrappers
  import PyText
  import Ranking
  import Similarity

  /** CTG feature name to value, as posted by a client or stored with a case. */
  type Features = map<string, real>

  /** `d.get(k, default)`. */
  function Get(d: Features, k: string, default: real): real
  {
    if k in d then d[k] else default
  }

  datatype PatientContext = PatientContext(
    patientId: Option<string>,
    age: int,
    gestationalAgeWeeks: real,
    gravida: int,
    para: int,
    riskFactors: seq<string>)

  // ---- the case corpus ----

  datatype Demographics = Demographics(
    age: Option<int>,
    gestationalAgeWeeks: Option<real>,
    riskFactors: seq<string>)          // [] when absent

  datatype Outcome = Outcome(
    deliveryMode: Option<string>,
    nicuAdmission: bool,
    interventions: seq<string>,        // [] when absent
    maternalComplications: seq<string>,
    neonatalComplications: seq<string>)

  datatype Case = Case(
    caseId: Option<string>,
    ctgFeatures: Features,             // {} when absent
    nspLabel: Option<string>,
    narrative: Option<string>,
    demographics: Demographics,
    outcome: Outcome)

  // ---- the rule-based fallback classifier ----

  const Labels: seq<string> := ["Normal", "Suspect", "Pathological"]
  const FallbackSuffix := " (Rule-based fallback)"

  /** A tier (0 Normal, 1 Suspect, 2 Pathological) and the confidence the
      rules attach to it. */
  datatype Verdict = Verdict(tier: nat, confidence: real)

  /** The fallback rules, with defaults ASTV 50, AC 2 and DP 0. */
  function FallbackVerdict(f: Features): (v: Verdict)
    ensures v.tier < 3
  {
    var variability := Get(f, "ASTV", 50.0);
    var accelerations := Get(f, "AC", 2.0);
    var decelerations := Get(f, "DP", 0.0);
    if variability > 40.0 && accelerations > 0.0 && decelerations == 0.0 then Verdict(0, 0.92)
    else if variability < 30.0 || decelerations > 2.0 then Verdict(2, 0.85)
    else Verdict(1, 0.68)
  }

  /** Which tier the rules choose, as conditions on the defaulted features,
      and the confidence of each tier. */
  lemma FallbackTiers(f: Features)
    ensures var v := FallbackVerdict(f);
      var astv, ac, dp := Get(f, "ASTV", 50.0), Get(f, "AC", 2.0), Get(f, "DP", 0.0);
      && (v.tier == 0 <==> astv > 40.0 && ac > 0.0 && dp == 0.0)
      && (v.tier == 2 <==> !(astv > 40.0 && ac > 0.0 && dp == 0.0) && (astv < 30.0 || dp > 2.0))
      && (v.tier == 1 <==> !(astv > 40.0 && ac > 0.0 && dp == 0.0) && astv >= 30.0 && dp <= 2.0)
      && v.confidence == (if v.tier == 0 then 0.92 else if v.tier == 1 then 0.68 else 0.85)
  {
  }

  /** The Normal rule and the Pathological rule never both hold, so the
      order in which they are tried does not change the verdict. */
  lemma FallbackRulesDisjoint(f: Features)
    requires Get(f, "ASTV", 50.0) > 40.0 && Get(f, "AC", 2.0) > 0.0 && Get(f, "DP", 0.0) == 0.0
    ensures !(Get(f, "ASTV", 50.0) < 30.0 || Get(f, "DP", 0.0) > 2.0)
  {
  }

  /** The request of the prediction smoke test (LB 135, AC 4, DP 0, ASTV 55)
      is classified Normal with confidence 0.92; so is a request without any
      feature, through the defaults. */
  lemma FallbackExamples()
    ensures FallbackVerdict(map["LB" := 135.0, "AC" := 4.0, "FM" := 8.0, "UC" := 5.0,
                                "DL" := 0.0, "DS" := 0.0, "DP" := 0.0, "ASTV" := 55.0,
                                "MSTV" := 1.5, "ALTV" := 12.0, "MLTV" := 10.0]) == Verdict(0, 0.92)
    ensures FallbackVerdict(map[]) == Verdict(0, 0.92)
    ensures FallbackVerdict(map["ASTV" := 25.0]) == Verdict(2, 0.85)
    ensures FallbackVerdict(map["ASTV" := 35.0]) == Verdict(1, 0.68)
  {
    var f := map["LB" := 135.0, "AC" := 4.0, "FM" := 8.0, "UC" := 5.0,
                 "DL" := 0.0, "DS" := 0.0, "DP" := 0.0, "ASTV" := 55.0,
                 "MSTV" := 1.5, "ALTV" := 12.0, "MLTV" := 10.0];
    assert Get(f, "ASTV", 50.0) == 55.0 && Get(f, "AC", 2.0) == 4.0 && Get(f, "DP", 0.0) == 0.0;
  }

  /** The mock probabilities: start from [0.1, 0.2, 0.7], give the predicted
      class the confidence and split the rest evenly over the other two. */
  method SplitProbabilities(prediction: nat, confidence: real) returns (probs: seq<real>)
    requires prediction < 3
    ensures |probs| == 3
    ensures probs[prediction] == confidence
    ensures forall i :: 0 <= i < 3 && i != prediction ==> probs[i] == (1.0 - confidence) / 2.0
    ensures probs[0] + probs[1] + probs[2] == 1.0
  {
    probs := [0.1, 0.2, 0.7];
    probs := probs[prediction := confidence];
    var remaining := (1.0 - confidence) / 2.0;
    for i := 0 to 3
      invariant |probs| == 3
      invariant probs[prediction] == confidence
      invariant forall j :: 0 <= j < i && j != prediction ==> probs[j] == remaining
    {
      if i != prediction {
        probs := probs[i := remaining];
      }
    }
  }

  /** The mock attributions: each of the four rule features against a fixed
      reference point (ASTV 50, LB 130, AC 0, DP 0). */
  function MockShap(f: Features): (m: map<string, real>)
    ensures m.Keys == {"ASTV", "LB", "AC", "DP"}
    ensures m["ASTV"] > 0.0 <==> Get(f, "ASTV", 50.0) > 50.0
    ensures m["LB"] > 0.0 <==> Get(f, "LB", 120.0) > 130.0
    ensures Get(f, "AC", 2.0) >= 0.0 ==> m["AC"] >= 0.0
    ensures Get(f, "DP", 0.0) >= 0.0 ==> m["DP"] <= 0.0
  {
    var baseline := Get(f, "LB", 120.0);
    var variability := Get(f, "ASTV", 50.0);
    var accelerations := Get(f, "AC", 2.0);
    var decelerations := Get(f, "DP", 0.0);
    map["ASTV" := variability - 50.0,
        "LB" := (baseline - 130.0) * 0.1,
        "AC" := accelerations * 5.0,
        "DP" := decelerations * -10.0]
  }

  /** The fallback answer. `probabilities` lists Normal, Suspect and
      Pathological in that order. */
  datatype Response = Response(
    prediction: nat,
    predictionLabel: string,
    confidence: real,
    probabilities: seq<real>,
    shapValues: map<string, real>,
    similarCases: seq<SimilarCase>,
    recommendations: seq<string>,
    guidelines: seq<Guideline>)

  method FallbackPrediction(f: Features, context: Option<PatientContext>, corpus: seq<Case>,
                            table: GuidelineTable) returns (resp: Response)
    ensures var v := FallbackVerdict(f);
      && resp.prediction == v.tier
      && resp.confidence == v.confidence
      && resp.predictionLabel == Labels[v.tier] + FallbackSuffix
    ensures |resp.probabilities| == 3
    ensures resp.probabilities[resp.prediction] == resp.confidence
    ensures forall i :: 0 <= i < 3 && i != resp.prediction ==>
      resp.probabilities[i] == (1.0 - resp.confidence) / 2.0
    ensures resp.probabilities[0] + resp.probabilities[1] + resp.probabilities[2] == 1.0
    ensures resp.shapValues == MockShap(f)
    ensures resp.similarCases == SimilarCases(f, corpus, 3, false)
    ensures Recommendations(resp.prediction, f, context) == Ok(resp.recommendations)
    ensures resp.guidelines == RelevantGuidelines(resp.prediction, table)
  {
    var v := FallbackVerdict(f);
    var probs := SplitProbabilities(v.tier, v.confidence);
    var similar := FindSimilarCases(f, corpus, 3, false);
    var recommendations := GenerateRecommendations(v.tier, f, context);
    resp := Response(v.tier, Labels[v.tier] + FallbackSuffix, v.confidence, probs, MockShap(f),
                     similar, recommendations.value, RelevantGuidelines(v.tier, table));
  }

  // ---- recommendations ----

  /** What Python reports for `labels[prediction]` out of range. */
  const IndexError := "list index out of range"

  const NormalAdvice: seq<string> := [
    "Continue routine fetal monitoring",
    "Reassess in 30 minutes or per protocol",
    "Document normal tracing characteristics"]

  const SuspectAdvice: seq<string> := [
    "⚠️ Category 2 (Indeterminate) pattern detected",
    "Implement conservative measures: maternal repositioning, hydration, oxygen supplementation",
    "Perform fetal scalp stimulation to assess reactivity",
    "Reassess in 15-30 minutes",
    "Notify physician if pattern persists or worsens"]

  const HypertensionNote := "📋 Note: Hypertensive disorder present - lower threshold for intervention"

  const PathologicalAdvice: seq<string> := [
    "🚨 Category 3 (Abnormal) pattern detected - IMMEDIATE ACTION REQUIRED",
    "1. Call for immediate physician evaluation",
    "2. Initiate intrauterine resuscitation: lateral position, oxygen 10L/min, IV fluid bolus",
    "3. Discontinue oxytocin if applicable",
    "4. Prepare for possible expedited delivery",
    "5. Assemble delivery team"]

  const ReducedVariabilityNote := "📊 Reduced variability noted - concerning for fetal compromise"
  const ProlongedDecelerationNote :=
    "📊 Prolonged decelerations detected - assess for cord compression or placental abruption"

  predicate Hypertensive(context: Option<PatientContext>)
  {
    context.Some? && "Hypertension" in context.value.riskFactors
  }

  /** The advice for a tier. Python indexes the label list first, so an index
      outside -3..2 raises, and -3..-1 reach the Pathological branch. */
  function Recommendations(prediction: int, f: Features, context: Option<PatientContext>): Result<seq<string>, string>
  {
    if !(-3 <= prediction < 3) then Err(IndexError)
    else if prediction == 0 then Ok(NormalAdvice)
    else if prediction == 1 then
      Ok(SuspectAdvice + (if Hypertensive(context) then [HypertensionNote] else []))
    else
      Ok(PathologicalAdvice
         + (if Get(f, "ASTV", 50.0) < 30.0 then [ReducedVariabilityNote] else [])
         + (if Get(f, "DP", 0.0) > 0.0 then [ProlongedDecelerationNote] else []))
  }

  method GenerateRecommendations(prediction: int, f: Features, context: Option<PatientContext>)
    returns (r: Result<seq<string>, string>)
    ensures r == Recommendations(prediction, f, context)
  {
    if !(-3 <= prediction < 3) {
      return Err(IndexError);
    }
    var recommendations: seq<string> := [];
    if prediction == 0 {
      for i := 0 to |NormalAdvice|
        invariant recommendations == NormalAdvice[..i]
      {
        recommendations := recommendations + [NormalAdvice[i]];
      }
      assert recommendations == NormalAdvice;
    } else if prediction == 1 {
      for i := 0 to |SuspectAdvice|
        invariant recommendations == SuspectAdvice[..i]
      {
        recommendations := recommendations + [SuspectAdvice[i]];
      }
      assert recommendations == SuspectAdvice;
      if context.Some? && "Hypertension" in context.value.riskFactors {
        recommendations := recommendations + [HypertensionNote];
      }
      assert recommendations == SuspectAdvice + (if Hypertensive(context) then [HypertensionNote] else []);
    } else {
      for i := 0 to |PathologicalAdvice|
        invariant recommendations == PathologicalAdvice[..i]
      {
        recommendations := recommendations + [PathologicalAdvice[i]];
      }
      assert recommendations == PathologicalAdvice;
      if Get(f, "ASTV", 50.0) < 30.0 {
        recommendations := recommendations + [ReducedVariabilityNote];
      }
      if Get(f, "DP", 0.0) > 0.0 {
        recommendations := recommendations + [ProlongedDecelerationNote];
      }
      assert recommendations == PathologicalAdvice
        + (if Get(f, "ASTV", 50.0) < 30.0 then [ReducedVariabilityNote] else [])
        + (if Get(f, "DP", 0.0) > 0.0 then [ProlongedDecelerationNote] else []);
    }
    return Ok(recommendations);
  }

  /** Tier 0 gets exactly the three routine items; tier 1 the five
      Category 2 items and the hypertension note iff the patient has that
      risk factor; tier 2 the six Category 3 items, then the variability
      note iff ASTV < 30 and the deceleration note iff DP > 0, in that
      order. */
  lemma RecommendationTiers(prediction: int, f: Features, context: Option<PatientContext>)
    requires 0 <= prediction < 3
    ensures var r := Recommendations(prediction, f, context);
      && r.Ok?
      && (prediction == 0 ==> |r.value| == 3 && r.value == NormalAdvice)
      && (prediction == 1 ==>
            && r.value[..5] == SuspectAdvice
            && (|r.value| == 6 <==> Hypertensive(context))
            && (|r.value| == 5 <==> !Hypertensive(context))
            && (|r.value| == 6 ==> r.value[5] == HypertensionNote))
      && (prediction == 2 ==>
            && r.value[..6] == PathologicalAdvice
            && (ReducedVariabilityNote in r.value <==> Get(f, "ASTV", 50.0) < 30.0)
            && (ProlongedDecelerationNote in r.value <==> Get(f, "DP", 0.0) > 0.0)
            && |r.value| == 6 + (if Get(f, "ASTV", 50.0) < 30.0 then 1 else 0)
                              + (if Get(f, "DP", 0.0) > 0.0 then 1 else 0)
            && (Get(f, "ASTV", 50.0) < 30.0 ==> r.value[6] == ReducedVariabilityNote)
            && (Get(f, "DP", 0.0) > 0.0 ==> r.value[|r.value| - 1] == ProlongedDecelerationNote))
  {
    var r := Recommendations(prediction, f, context).value;
    if prediction == 2 {
      assert r[..6] == PathologicalAdvice;
      assert ReducedVariabilityNote !in PathologicalAdvice;
      assert ProlongedDecelerationNote !in PathologicalAdvice;
      assert ReducedVariabilityNote != ProlongedDecelerationNote;
    }
  }

  /** An index that is not a position of the label list is an error. */
  lemma RecommendationsOutOfRange(prediction: int, f: Features, context: Option<PatientContext>)
    ensures Recommendations(prediction, f, context).Err? <==> prediction < -3 || prediction >= 3
  {
  }

  // ---- guidelines ----

  datatype Guideline = Guideline(guidelineId: Option<string>, title: string, content: string)
  datatype Algorithm = Algorithm(algorithmId: Option<string>, name: string, steps: seq<string>)

  /** The guideline document; a key that is absent is None, and a document
      with no key at all is the empty dictionary. */
  datatype GuidelineTable = GuidelineTable(
    guidelines: Option<seq<Guideline>>,
    algorithms: Option<seq<Algorithm>>,
    source: Option<string>,
    otherKeys: bool)

  /** `if not GUIDELINES`: a document is truthy iff it holds some key;
      `otherKeys` records keys besides the three modelled ones. */
  predicate Loaded(t: GuidelineTable)
  {
    t.guidelines.Some? || t.algorithms.Some? || t.source.Some? || t.otherKeys
  }

  predicate HasId(g: Guideline, ids: set<string>)
  {
    g.guidelineId.Some? && g.guidelineId.value in ids
  }

  /** `[g for g in s if g.get("guideline_id") in ids]`. */
  function WithIds(s: seq<Guideline>, ids: set<string>): (r: seq<Guideline>)
    ensures |r| <= |s|
  {
    if s == [] then []
    else (if HasId(s[0], ids) then [s[0]] else []) + WithIds(s[1..], ids)
  }

  /** Filtering keeps exactly the entries with a wanted id, each as often as
      `s` holds it. */
  lemma {:induction false} WithIdsContents(s: seq<Guideline>, ids: set<string>)
    ensures forall g :: g in WithIds(s, ids) <==> g in s && HasId(g, ids)
    ensures forall g :: multiset(WithIds(s, ids))[g] == if HasId(g, ids) then multiset(s)[g] else 0
  {
    if s != [] {
      WithIdsContents(s[1..], ids);
      assert s == [s[0]] + s[1..];
      assert multiset(s) == multiset{s[0]} + multiset(s[1..]);
    }
  }

  /** Filtering keeps table order: it distributes over concatenation. */
  lemma {:induction false} WithIdsAppend(a: seq<Guideline>, b: seq<Guideline>, ids: set<string>)
    ensures WithIds(a + b, ids) == WithIds(a, ids) + WithIds(b, ids)
  {
    if a == [] {
      assert a + b == b;
    } else {
      var ab := a + b;
      assert ab[0] == a[0] && ab[1..] == a[1..] + b;
      WithIdsAppend(a[1..], b, ids);
      assert WithIds(ab, ids) == (if HasId(a[0], ids) then [a[0]] else []) + WithIds(ab[1..], ids);
    }
  }

  const ClassificationIds: set<string> := {"CTG-005"}
  const PathologicalIds: set<string> := {"CTG-002", "CTG-004"}

  function AllGuidelines(t: GuidelineTable): seq<Guideline>
  {
    t.guidelines.GetOr([])
  }

  function RelevantGuidelines(prediction: int, t: GuidelineTable): seq<Guideline>
  {
    if !Loaded(t) then []
    else
      var all := AllGuidelines(t);
      WithIds(all, ClassificationIds)
      + (if prediction == 2 then WithIds(all, PathologicalIds) else [])
  }

  /** Nothing without a document; otherwise exactly the CTG-005 entries and,
      for prediction 2 only, the CTG-002/CTG-004 entries, each as often as
      the table holds it, with every CTG-005 entry ahead of the others. */
  lemma RelevantGuidelinesSpec(prediction: int, t: GuidelineTable)
    ensures var r := RelevantGuidelines(prediction, t);
      && (!Loaded(t) ==> r == [])
      && (forall g :: g in r <==>
            g in AllGuidelines(t) && (HasId(g, ClassificationIds) || (prediction == 2 && HasId(g, PathologicalIds))))
      && (forall g :: HasId(g, ClassificationIds) ==> multiset(r)[g] == multiset(AllGuidelines(t))[g])
      && (prediction == 2 ==> forall g :: HasId(g, PathologicalIds) ==> multiset(r)[g] == multiset(AllGuidelines(t))[g])
      && (prediction != 2 ==> forall g :: g in r ==> HasId(g, ClassificationIds))
      && (Loaded(t) ==>
            r == WithIds(AllGuidelines(t), ClassificationIds)
                 + (if prediction == 2 then WithIds(AllGuidelines(t), PathologicalIds) else []))
      && (forall i, j :: 0 <= i < j < |r| && HasId(r[i], PathologicalIds) ==> !HasId(r[j], ClassificationIds))
  {
    var r := RelevantGuidelines(prediction, t);
    var all := AllGuidelines(t);
    WithIdsContents(all, ClassificationIds);
    WithIdsContents(all, PathologicalIds);
    if Loaded(t) {
      var a := WithIds(all, ClassificationIds);
      var b := if prediction == 2 then WithIds(all, PathologicalIds) else [];
      assert r == a + b;
      forall i | 0 <= i < |a| ensures HasId(r[i], ClassificationIds) && !HasId(r[i], PathologicalIds) {
        assert r[i] == a[i] && a[i] in a;
      }
      forall j | |a| <= j < |r| ensures !HasId(r[j], ClassificationIds) {
        assert r[j] == b[j - |a|] && b[j - |a|] in b;
      }
    }
  }

  // ---- intervention algorithms ----

  const AlgorithmMap: map<string, string> := map[
    "category_2" := "INT-001",
    "indeterminate" := "INT-001",
    "category_3" := "INT-002",
    "abnormal" := "INT-002"]

  /** The algorithm id for a CTG pattern category, matched case-insensitively. */
  function AlgorithmFor(category: string): Option<string>
  {
    var key := PyText.Lower(category);
    if key in AlgorithmMap then Some(AlgorithmMap[key]) else None
  }

  /** Category 2 and "indeterminate" lead to INT-001, category 3 and
      "abnormal" to INT-002, and nothing else leads anywhere. */
  lemma AlgorithmForSpec(category: string)
    ensures var key := PyText.Lower(category);
      && (AlgorithmFor(category) == Some("INT-001") <==> key == "category_2" || key == "indeterminate")
      && (AlgorithmFor(category) == Some("INT-002") <==> key == "category_3" || key == "abnormal")
      && (AlgorithmFor(category).None? <==>
            key != "category_2" && key != "indeterminate" && key != "category_3" && key != "abnormal")
  {
  }

  /** A status code and a detail message, as the service reports them. */
  datatype HttpError = HttpError(status: nat, detail: string)

  /** The first algorithm carrying `id`. */
  function FirstAlgorithm(algorithms: seq<Algorithm>, id: string): (r: Option<Algorithm>)
    ensures r.None? <==> forall i :: 0 <= i < |algorithms| ==> algorithms[i].algorithmId != Some(id)
    ensures r.Some? ==> exists i :: (0 <= i < |algorithms| && algorithms[i] == r.value
      && r.value.algorithmId == Some(id)
      && forall j :: 0 <= j < i ==> algorithms[j].algorithmId != Some(id))
  {
    if algorithms == [] then None
    else if algorithms[0].algorithmId == Some(id) then Some(algorithms[0])
    else
      var r := FirstAlgorithm(algorithms[1..], id);
      assert forall i :: 0 < i < |algorithms| ==> algorithms[i] == algorithms[1..][i - 1];
      r
  }

  /** The algorithm for a pattern category: 503 without a document, 400 for
      an unknown category, 404 when the document lacks that algorithm, and
      otherwise the first algorithm of the document carrying the mapped id. */
  function InterventionAlgorithm(category: string, t: GuidelineTable): (r: Result<Algorithm, HttpError>)
    ensures r.Err? && r.error.status == 503 <==> !Loaded(t)
    ensures r.Err? && r.error.status == 400 <==> Loaded(t) && AlgorithmFor(category).None?
    ensures r.Ok? ==> AlgorithmFor(category).Some? && r.value.algorithmId == AlgorithmFor(category)
    ensures r.Ok? ==> r.value in t.algorithms.GetOr([])
    ensures r.Err? && r.error.status == 404 <==>
      Loaded(t) && AlgorithmFor(category).Some?
      && forall i :: 0 <= i < |t.algorithms.GetOr([])| ==> t.algorithms.GetOr([])[i].algorithmId != AlgorithmFor(category)
    ensures r.Ok? ==> exists i :: (0 <= i < |t.algorithms.GetOr([])| && t.algorithms.GetOr([])[i] == r.value
      && forall j :: 0 <= j < i ==> t.algorithms.GetOr([])[j].algorithmId != r.value.algorithmId)
    ensures r.Err? ==> r.error.status in {400, 404, 503}
  {
    if !Loaded(t) then Err(HttpError(503, "Guidelines not loaded"))
    else match AlgorithmFor(category)
      case None => Err(HttpError(400, "Invalid pattern category: " + category))
      case Some(id) =>
        match FirstAlgorithm(t.algorithms.GetOr([]), id)
        case None => Err(HttpError(404, "Algorithm not found for: " + category))
        case Some(a) => Ok(a)
  }

  // ---- exact-match patient lookup ----

  /** Within 1.0 on LB and ASTV and 0.01 on AC, missing values counting as 0. */
  predicate CloseMatch(query: Features, c: Case)
  {
    var ctg := c.ctgFeatures;
    && Ranking.Abs(Get(ctg, "LB", 0.0) - Get(query, "LB", 0.0)) < 1.0
    && Ranking.Abs(Get(ctg, "ASTV", 0.0) - Get(query, "ASTV", 0.0)) < 1.0
    && Ranking.Abs(Get(ctg, "AC", 0.0) - Get(query, "AC", 0.0)) < 0.01
  }

  /** The first case of the corpus that matches the query closely, or None. */
  method FindPatientByCtg(query: Features, corpus: seq<Case>) returns (r: Option<Case>)
    ensures r.None? <==> forall i :: 0 <= i < |corpus| ==> !CloseMatch(query, corpus[i])
    ensures r.Some? ==> exists i :: (0 <= i < |corpus| && corpus[i] == r.value
      && CloseMatch(query, corpus[i])
      && forall j :: 0 <= j < i ==> !CloseMatch(query, corpus[j]))
  {
    if |corpus| == 0 {
      return None;
    }
    var queryLb := Get(query, "LB", 0.0);
    var queryAstv := Get(query, "ASTV", 0.0);
    var queryAc := Get(query, "AC", 0.0);
    for i := 0 to |corpus|
      invariant forall j :: 0 <= j < i ==> !CloseMatch(query, corpus[j])
    {
      var ctg := corpus[i].ctgFeatures;
      var caseLb := Get(ctg, "LB", 0.0);
      var caseAstv := Get(ctg, "ASTV", 0.0);
      var caseAc := Get(ctg, "AC", 0.0);
      if Ranking.Abs(caseLb - queryLb) < 1.0 && Ranking.Abs(caseAstv - queryAstv) < 1.0
         && Ranking.Abs(caseAc - queryAc) < 0.01 {
        return Some(corpus[i]);
      }
    }
    return None;
  }

  // ---- the cosine retriever ----

  /** The vector positions: the query's keys in sorted order. */
  function QueryKeys(f: Features): seq<string>
  {
    Similarity.SortedKeys(f.Keys)
  }

  /** The ranking key of each corpus case against the query: the signed
      square of the cosine similarity, 0 when either vector is zero. */
  function Similarities(f: Features, corpus: seq<Case>): (r: seq<real>)
    ensures |r| == |corpus|
  {
    var keys := QueryKeys(f);
    seq(|corpus|, i requires 0 <= i < |corpus| =>
      Similarity.Key(Similarity.Align(keys, f), Similarity.Align(keys, corpus[i].ctgFeatures)))
  }

  /** Which label-conditioned findings paragraph a case study uses. */
  datatype Template = Reassuring | Equivocal | NonReassuring

  function TemplateFor(nspLabel: Option<string>): Template
  {
    if nspLabel == Some("Normal") then Reassuring
    else if nspLabel == Some("Suspect") then Equivocal
    else NonReassuring
  }

  /** The parts of a case-study essay that vary from case to case: the
      findings and learning-point template, and which optional sentences
      and sections appear. */
  datatype EssayPlan = EssayPlan(
    template: Template,
    riskFactorClause: bool,
    interventionsSentence: bool,
    nicuSentence: bool,
    maternalLine: bool,
    neonatalLine: bool)
  {
    predicate ComplicationsSection() { maternalLine || neonatalLine }
  }

  function EssayPlanOf(c: Case): EssayPlan
  {
    var rf := c.demographics.riskFactors;
    EssayPlan(TemplateFor(c.nspLabel),
              |rf| > 0 && rf[0] != "None",
              |c.outcome.interventions| > 0,
              c.outcome.nicuAdmission,
              |c.outcome.maternalComplications| > 0,
              |c.outcome.neonatalComplications| > 0)
  }

  /** A Normal case is written up with the reassuring template, a Suspect
      case with the equivocal one, and any other case, including one without
      a label, with the non-reassuring template; the complications section
      appears iff the case records a maternal or a neonatal complication;
      the risk factors are mentioned iff the list is non-empty and not
      headed by "None". */
  lemma EssayPlanSpec(c: Case)
    ensures var p := EssayPlanOf(c);
      && (p.template == NonReassuring <==> c.nspLabel != Some("Normal") && c.nspLabel != Some("Suspect"))
      && (p.ComplicationsSection() <==>
            c.outcome.maternalComplications != [] || c.outcome.neonatalComplications != [])
      && (c.nspLabel == Some("Normal") ==> p.template == Reassuring)
      && (c.nspLabel == Some("Suspect") ==> p.template == Equivocal)
      && (p.riskFactorClause <==>
            |c.demographics.riskFactors| > 0 && c.demographics.riskFactors[0] != "None")
  {
  }

  /** One retrieved case. `similarity` is the ranking key of the case (the
      signed square of its cosine similarity to the query). */
  datatype SimilarCase =
    | Compact(caseId: Option<string>, similarity: real, nspLabel: Option<string>, clinicalSummary: string,
              deliveryMode: Option<string>, patientAge: Option<int>, gestationalAge: Option<real>)
    | Full(record: Case, similarity: real, essay: EssayPlan)

  const SummaryLength := 200

  /** The first 200 characters of the narrative (empty when absent), then "...". */
  function ClinicalSummary(c: Case): (s: string)
    ensures 3 <= |s| <= SummaryLength + 3
    ensures s[|s| - 3..] == "..."
    ensures var n := c.narrative.GetOr(""); |n| <= SummaryLength ==> s == n + "..."
    ensures var n := c.narrative.GetOr(""); s[..|s| - 3] <= n
    ensures |c.narrative.GetOr("")| > SummaryLength ==> |s| == SummaryLength + 3
  {
    var n := c.narrative.GetOr("");
    n[..PyText.SliceBound(SummaryLength, |n|)] + "..."
  }

  function Present(c: Case, similarity: real, fullData: bool): SimilarCase
  {
    if fullData then Full(c, similarity, EssayPlanOf(c))
    else Compact(c.caseId, similarity, c.nspLabel, ClinicalSummary(c),
                 c.outcome.deliveryMode, c.demographics.age, c.demographics.gestationalAgeWeeks)
  }

  /** The positions of the retrieved cases: the ranking by similarity,
      truncated as `[:top_k]` truncates. */
  function Retrieved(f: Features, corpus: seq<Case>, topK: int): (r: seq<nat>)
    ensures |r| == PyText.SliceBound(topK, |corpus|)
  {
    Ranking.RankDescSpec(Similarities(f, corpus));
    Ranking.RankDesc(Similarities(f, corpus))[..PyText.SliceBound(topK, |corpus|)]
  }

  function SimilarCases(f: Features, corpus: seq<Case>, topK: int, fullData: bool): (r: seq<SimilarCase>)
    ensures |r| == |Retrieved(f, corpus, topK)|
  {
    var order := Retrieved(f, corpus, topK);
    Ranking.RankDescSpec(Similarities(f, corpus));
    seq(|order|, j requires 0 <= j < |order| =>
      Present(corpus[order[j]], Similarities(f, corpus)[order[j]], fullData))
  }

  /** `similarities` before the sort: each case's score tagged with its position. */
  method ScoreCorpus(f: Features, corpus: seq<Case>) returns (scored: seq<Ranking.Scored>)
    ensures scored == Ranking.Entries(Similarities(f, corpus))
  {
    var keys := QueryKeys(f);
    var query := Similarity.Align(keys, f);
    scored := [];
    for i := 0 to |corpus|
      invariant |scored| == i
      invariant forall j :: 0 <= j < i ==> scored[j] == Ranking.Scored(Similarities(f, corpus)[j], j)
    {
      var vector := Similarity.Align(keys, corpus[i].ctgFeatures);
      var similarity := Similarity.Key(query, vector);
      scored := scored + [Ranking.Scored(similarity, i)];
    }
  }

  method FindSimilarCases(f: Features, corpus: seq<Case>, topK: int, fullData: bool)
    returns (r: seq<SimilarCase>)
    ensures r == SimilarCases(f, corpus, topK, fullData)
  {
    if |corpus| == 0 {
      return [];
    }
    var similarities := ScoreCorpus(f, corpus);
    similarities := Ranking.SortDesc(similarities);
    var m := PyText.SliceBound(topK, |similarities|);
    var top := similarities[..m];
    TopInCorpus(f, corpus, topK, top);
    r := PresentTop(top, corpus, fullData);
    TopPresented(f, corpus, topK, fullData, top, r);
  }

  /** The first min(top_k, |corpus|) records of the sorted scores name
      corpus positions. */
  lemma TopInCorpus(f: Features, corpus: seq<Case>, topK: int, top: seq<Ranking.Scored>)
    requires top == Ranking.SortDesc(Ranking.Entries(Similarities(f, corpus)))[..PyText.SliceBound(topK, |corpus|)]
    ensures forall e :: e in top ==> e.index < |corpus|
  {
    forall e | e in top ensures e.index < |corpus| {
      var j :| 0 <= j < |top| && top[j] == e;
      SortedTop(f, corpus, topK, false, j);
    }
  }

  /** Presenting those records one by one yields the retrieved cases. */
  lemma TopPresented(f: Features, corpus: seq<Case>, topK: int, fullData: bool, top: seq<Ranking.Scored>, r: seq<SimilarCase>)
    requires top == Ranking.SortDesc(Ranking.Entries(Similarities(f, corpus)))[..PyText.SliceBound(topK, |corpus|)]
    requires |r| == |top|
    requires forall j :: 0 <= j < |top| ==> top[j].index < |corpus| && r[j] == Present(corpus[top[j].index], top[j].key, fullData)
    ensures r == SimilarCases(f, corpus, topK, fullData)
  {
    SimilarCasesCount(f, corpus, topK, fullData);
    forall j | 0 <= j < |r| ensures r[j] == SimilarCases(f, corpus, topK, fullData)[j] {
      SortedTop(f, corpus, topK, fullData, j);
    }
  }

  /** The loop over `similarities[:top_k]`. */
  method PresentTop(top: seq<Ranking.Scored>, corpus: seq<Case>, fullData: bool) returns (r: seq<SimilarCase>)
    requires forall e :: e in top ==> e.index < |corpus|
    ensures |r| == |top|
    ensures forall j :: 0 <= j < |top| ==> r[j] == Present(corpus[top[j].index], top[j].key, fullData)
  {
    r := [];
    for j := 0 to |top|
      invariant |r| == j
      invariant forall p :: 0 <= p < j ==> r[p] == Present(corpus[top[p].index], top[p].key, fullData)
    {
      var entry := top[j];
      r := r + [Present(corpus[entry.index], entry.key, fullData)];
    }
  }

  /** The j-th retrieved case is presented from the j-th record of the
      sorted scores. */
  lemma SortedTop(f: Features, corpus: seq<Case>, topK: int, fullData: bool, j: nat)
    requires j < PyText.SliceBound(topK, |corpus|)
    ensures var sorted := Ranking.SortDesc(Ranking.Entries(Similarities(f, corpus)));
      && sorted[j].index < |corpus|
      && SimilarCases(f, corpus, topK, fullData)[j] == Present(corpus[sorted[j].index], sorted[j].key, fullData)
  {
    Ranking.SortedEntry(Similarities(f, corpus), j);
  }

  /** No corpus, no cases; otherwise min(top_k, |corpus|) cases for a
      non-negative top_k, and all but the last -top_k for a negative one. */
  lemma SimilarCasesCount(f: Features, corpus: seq<Case>, topK: int, fullData: bool)
    ensures |corpus| == 0 ==> SimilarCases(f, corpus, topK, fullData) == []
    ensures topK >= 0 ==> |SimilarCases(f, corpus, topK, fullData)| == if topK < |corpus| then topK else |corpus|
    ensures topK < 0 ==> |SimilarCases(f, corpus, topK, fullData)| == if -topK < |corpus| then |corpus| + topK else 0
  {
  }

  /** The retrieved cases are distinct corpus positions in non-increasing
      similarity; equal similarities keep corpus order; and no case left
      out scores above a case kept. */
  lemma RetrievedRanking(f: Features, corpus: seq<Case>, topK: int)
    ensures var order, s := Retrieved(f, corpus, topK), Similarities(f, corpus);
      && (forall p :: 0 <= p < |order| ==> order[p] < |corpus|)
      && (forall p, q :: 0 <= p < q < |order| ==> order[p] != order[q])
      && (forall p, q :: 0 <= p < q < |order| ==> s[order[p]] >= s[order[q]])
      && (forall p, q :: 0 <= p < q < |order| && s[order[p]] == s[order[q]] ==> order[p] < order[q])
      && (forall i, j :: 0 <= i < |corpus| && 0 <= j < |corpus| && i in order && j !in order ==> s[i] >= s[j])
  {
    var s := Similarities(f, corpus);
    Ranking.RankDescSpec(s);
    var m := PyText.SliceBound(topK, |corpus|);
    forall i, j | 0 <= i < |corpus| && 0 <= j < |corpus| && i in Retrieved(f, corpus, topK) && j !in Retrieved(f, corpus, topK)
      ensures s[i] >= s[j]
    {
      Ranking.RankDescPrefixLargest(s, m, i, j);
    }
  }

  /** Each retrieved entry presents the corpus case at its position, scored
      by that case's similarity: a full entry carries the corpus record
      itself, unchanged, and a compact one its id, label, outcome,
      demographics and the clipped narrative. */
  lemma SimilarCasesEntries(f: Features, corpus: seq<Case>, topK: int, fullData: bool, j: nat)
    requires j < |SimilarCases(f, corpus, topK, fullData)|
    ensures var i, e := Retrieved(f, corpus, topK)[j], SimilarCases(f, corpus, topK, fullData)[j];
      && i < |corpus|
      && e.similarity == Similarities(f, corpus)[i]
      && -1.0 <= e.similarity <= 1.0
      && (fullData ==> e.Full? && e.record == corpus[i] && e.essay == EssayPlanOf(corpus[i]))
      && (!fullData ==>
            && e.Compact? && e.caseId == corpus[i].caseId && e.nspLabel == corpus[i].nspLabel
            && e.clinicalSummary == ClinicalSummary(corpus[i])
            && e.deliveryMode == corpus[i].outcome.deliveryMode
            && e.patientAge == corpus[i].demographics.age
            && e.gestationalAge == corpus[i].demographics.gestationalAgeWeeks)
  {
    RetrievedRanking(f, corpus, topK);
    var i := Retrieved(f, corpus, topK)[j];
    var keys := QueryKeys(f);
    Similarity.KeyBounds(Similarity.Align(keys, f), Similarity.Align(keys, corpus[i].ctgFeatures));
  }

  // ---- the multi-case summary ----

  const NoCasesText := "No similar cases available for analysis."

  /** How often `x` occurs in `s`. */
  function Count(s: seq<string>, x: string): nat
  {
    multiset(s)[x]
  }

  /** The position of the first element of `s` whose count is `c`. */
  function FirstWithCount(s: seq<string>, all: seq<string>, c: nat): (i: nat)
    requires exists k :: 0 <= k < |s| && Count(all, s[k]) == c
    ensures i < |s| && Count(all, s[i]) == c
    ensures forall k :: 0 <= k < i ==> Count(all, s[k]) != c
  {
    if Count(all, s[0]) == c then 0
    else
      var k :| 0 <= k < |s| && Count(all, s[k]) == c;
      assert s[1..][k - 1] == s[k];
      1 + FirstWithCount(s[1..], all, c)
  }

  /** The largest count of an element of `s` in `all`. */
  function MaxCount(s: seq<string>, all: seq<string>): (c: nat)
    requires |s| > 0
    ensures exists k :: 0 <= k < |s| && Count(all, s[k]) == c
    ensures forall k :: 0 <= k < |s| ==> Count(all, s[k]) <= c
  {
    if |s| == 1 then Count(all, s[0])
    else
      var rest := MaxCount(s[1..], all);
      assert forall k :: 1 <= k < |s| ==> s[k] == s[1..][k - 1];
      if Count(all, s[0]) >= rest then Count(all, s[0]) else rest
  }

  /** `Counter(labels).most_common(1)[0][0]`: a label with the largest count,
      the earliest one among equals. */
  function MostCommon(labels: seq<string>): string
    requires |labels| > 0
  {
    labels[FirstWithCount(labels, labels, MaxCount(labels, labels))]
  }

  lemma MostCommonSpec(labels: seq<string>)
    requires |labels| > 0
    ensures var m := MostCommon(labels);
      && m in labels
      && (forall x :: x in labels ==> Count(labels, x) <= Count(labels, m))
      && (forall k :: 0 <= k < |labels| && Count(labels, labels[k]) == Count(labels, m) ==>
            exists i :: 0 <= i <= k && labels[i] == m)
  {
    var c := MaxCount(labels, labels);
    var i := FirstWithCount(labels, labels, c);
    forall x | x in labels ensures Count(labels, x) <= c {
      var k :| 0 <= k < |labels| && labels[k] == x;
    }
  }

  /** The parts of the multi-case summary that vary: the predominant label
      and its count, the insights template that label selects, and which
      optional lines and sections appear. */
  datatype SummaryPlan = SummaryPlan(
    caseCount: nat,
    predominant: string,
    predominantCount: nat,
    distributionLine: bool,
    decelerationsLine: bool,
    riskFactorSection: bool,
    interventionSection: bool,
    insights: Template)

  datatype Summary = NoCases(text: string) | Sections(plan: SummaryPlan)

  function NspLabels(cases: seq<Case>): (r: seq<string>)
    ensures |r| == |cases|
  {
    seq(|cases|, i requires 0 <= i < |cases| => cases[i].nspLabel.GetOr("Unknown"))
  }

  /** The sum of one CTG feature over the cases, missing values counting as 0. */
  function FeatureSum(cases: seq<Case>, k: string): real
  {
    if cases == [] then 0.0 else Get(cases[0].ctgFeatures, k, 0.0) + FeatureSum(cases[1..], k)
  }

  predicate AnyRiskFactors(cases: seq<Case>)
  {
    exists i :: 0 <= i < |cases| && |cases[i].demographics.riskFactors| > 0
      && cases[i].demographics.riskFactors[0] != "None"
  }

  predicate AnyInterventions(cases: seq<Case>)
  {
    exists i :: 0 <= i < |cases| && |cases[i].outcome.interventions| > 0
  }

  function CaseStudiesSummary(cases: seq<Case>): (r: Summary)
    ensures r.NoCases? <==> cases == []
    ensures r.NoCases? ==> r.text == NoCasesText
  {
    if cases == [] then NoCases(NoCasesText) else Sections(PlanOf(cases))
  }

  function PlanOf(cases: seq<Case>): SummaryPlan
    requires cases != []
  {
    var labels := NspLabels(cases);
    var n := |cases| as real;
    var top := MostCommon(labels);
    SummaryPlan(
      |cases|, top, Count(labels, top),
      exists i :: 0 <= i < |labels| && labels[i] != labels[0],
      FeatureSum(cases, "DL") / n > 0.0 || FeatureSum(cases, "DS") / n > 0.0,
      AnyRiskFactors(cases),
      AnyInterventions(cases),
      if top == "Normal" then Reassuring else if top == "Suspect" then Equivocal else NonReassuring)
  }

  /** With cases, the predominant label is one that occurs most often (the
      first seen among equals), the insights follow it, and the distribution
      line appears iff the labels are not all the same. The decelerations
      line appears iff a mean of DL or DS is positive, which is iff its sum
      is; the risk-factor section iff some case lists risk factors that do
      not start with "None"; the intervention section iff some case lists an
      intervention. */
  lemma CaseStudiesSummarySpec(cases: seq<Case>)
    requires cases != []
    ensures CaseStudiesSummary(cases) == Sections(PlanOf(cases))
    ensures var p, labels := PlanOf(cases), NspLabels(cases);
      && p.caseCount == |cases|
      && p.predominant == MostCommon(labels)
      && p.predominantCount == Count(labels, p.predominant)
      && (p.distributionLine <==> exists i, j :: 0 <= i < j < |labels| && labels[i] != labels[j])
      && p.insights == TemplateFor(Some(p.predominant))
    ensures var p := PlanOf(cases);
      && (p.decelerationsLine <==> FeatureSum(cases, "DL") > 0.0 || FeatureSum(cases, "DS") > 0.0)
      && (p.riskFactorSection <==>
            exists i :: (0 <= i < |cases| && |cases[i].demographics.riskFactors| > 0
                         && cases[i].demographics.riskFactors[0] != "None"))
      && (p.interventionSection <==> exists i :: 0 <= i < |cases| && cases[i].outcome.interventions != [])
  {
    MixedLabels(NspLabels(cases));
    var n := |cases| as real;
    PositiveMean(FeatureSum(cases, "DL"), n);
    PositiveMean(FeatureSum(cases, "DS"), n);
  }

  /** A mean over n > 0 cases is positive iff the sum is. */
  lemma PositiveMean(sum: real, n: real)
    requires n > 0.0
    ensures sum / n > 0.0 <==> sum > 0.0
  {
    if sum / n > 0.0 {
      assert sum == (sum / n) * n;
    }
  }

  /** Some label differs from the first iff two labels differ. */
  lemma MixedLabels(labels: seq<string>)
    requires |labels| > 0
    ensures (exists i :: 0 <= i < |labels| && labels[i] != labels[0])
        <==> (exists i, j :: 0 <= i < j < |labels| && labels[i] != labels[j])
  {
    if exists i, j :: 0 <= i < j < |labels| && labels[i] != labels[j] {
      var i, j :| 0 <= i < j < |labels| && labels[i] != labels[j];
      if labels[i] == labels[0] {
        assert labels[j] != labels[0];
      } else {
        assert labels[i] != labels[0];
      }
    }
    if exists i :: 0 <= i < |labels| && labels[i] != labels[0] {
      var i :| 0 <= i < |labels| && labels[i] != labels[0];
      assert 0 < i && labels[0] != labels[i];
    }
  }
}
