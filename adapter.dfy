/** Turning raw attribution arrays into the evidence record
    (llm_explainer/adapter.py). */
module Adapter {
  import opened Wrappers
  import opened Evidence
  import opened Ranking
  import PyText

  const Up: string := "↑"
  const Down: string := "↓"
  const Unknown: string := "?"
  const NoRef: string := "—"
  const DefaultK: int := 5
  const LengthMismatch: string := "Lengths of shap_values, feature_names, and instance_values must match."

  /** `float(value)`, failing on anything that is not a number. */
  function AsFloat(v: Scalar): (r: Option<real>)
    ensures r.Some? <==> v.Num?
    ensures v.Num? ==> r.value == v.x
  {
    match v
    case Num(x) => Some(x)
    case _ => None
  }

  /** The direction marker of a value against optional reference bounds. */
  function ArrowFromValue(value: Scalar, low: Option<real>, high: Option<real>): (r: string)
    ensures r == Up || r == Down || r == Unknown
    ensures (!value.Num? || low.None? || high.None?) ==> r == Unknown
    ensures r == Up <==> value.Num? && low.Some? && high.Some? && value.x > high.value
    ensures r == Down <==> value.Num? && low.Some? && high.Some? && !(value.x > high.value) && value.x < low.value
    ensures value.Num? && low.Some? && high.Some? && low.value <= value.x <= high.value ==> r == Unknown
  {
    match AsFloat(value)
    case None => Unknown
    case Some(v) =>
      if low.None? || high.None? then Unknown
      else if v > high.value then Up
      else if v < low.value then Down
      else Unknown
  }

  /** Per-feature display metadata; each key may be missing. */
  datatype GlossaryEntry = GlossaryEntry(
    parentName: Option<string>,
    doctorName: Option<string>,
    parentDesc: Option<string>,
    doctorDesc: Option<string>,
    unit: Option<string>,
    refText: Option<string>)

  /** An explicit reference range; each key may be missing. */
  datatype RefRange = RefRange(refText: Option<string>, low: Option<real>, high: Option<real>)

  /** The optional lookup tables; an absent table is the empty map, which
      Python treats like `None` here. */
  datatype Tables = Tables(
    refRanges: map<string, RefRange>,
    namesParent: map<string, string>,
    namesDoctor: map<string, string>,
    glossary: map<string, GlossaryEntry>)

  /** The option value if present, else the fallback: `d.get(key, fallback)`. */
  function Or(o: Option<string>, fallback: string): string
  {
    if o.Some? then o.value else fallback
  }

  /** Reference specification of one annotated feature, written as the
      precedence the adapter promises: glossary name over the name tables over
      the raw name; ref_ranges text over glossary text over "—"; bounds only
      from ref_ranges. */
  function Annotate(raw: string, shap: real, value: Scalar, t: Tables): FeatureRecord
  {
    var g := if raw in t.glossary then Some(t.glossary[raw]) else None;
    var rr := if raw in t.refRanges then Some(t.refRanges[raw]) else None;
    var tableParent := if raw in t.namesParent then t.namesParent[raw] else raw;
    var tableDoctor := if raw in t.namesDoctor then t.namesDoctor[raw] else raw;
    var glossRef := if g.Some? && g.value.refText.Some? then g.value.refText.value else NoRef;
    FeatureRecord(
      nameRaw := Some(raw),
      nameParent := Some(if g.Some? then Or(g.value.parentName, tableParent) else tableParent),
      nameDoctor := Some(if g.Some? then Or(g.value.doctorName, tableDoctor) else tableDoctor),
      descParent := Some(if g.Some? then Or(g.value.parentDesc, "") else ""),
      descDoctor := Some(if g.Some? then Or(g.value.doctorDesc, "") else ""),
      unit := Some(if g.Some? then Or(g.value.unit, "") else ""),
      value := Some(value),
      refText := Some(if rr.Some? then Or(rr.value.refText, glossRef) else glossRef),
      shap := Some(Num(shap)),
      dir := Some(ArrowFromValue(value,
                                 if rr.Some? then rr.value.low else None,
                                 if rr.Some? then rr.value.high else None)))
  }

  /** `np.argsort(-np.abs(sv))[:k]`: the positions kept, largest magnitude first. */
  function TopIndices(shap: seq<real>, k: int): (r: seq<nat>)
    ensures |r| == PyText.SliceBound(k, |shap|)
  {
    RankDescSpec(Magnitudes(shap));
    RankDesc(Magnitudes(shap))[..PyText.SliceBound(k, |shap|)]
  }

  lemma TopIndicesInRange(shap: seq<real>, k: int)
    ensures forall j :: 0 <= j < |TopIndices(shap, k)| ==> TopIndices(shap, k)[j] < |shap|
  {
    RankDescSpec(Magnitudes(shap));
  }

  /** The ranked, annotated features, as a specification of the adapter's loop. */
  function SelectTop(shap: seq<real>, names: seq<string>, values: seq<Scalar>, t: Tables, k: int): (r: seq<FeatureRecord>)
    requires |shap| == |names| == |values|
  {
    var idx := TopIndices(shap, k);
    TopIndicesInRange(shap, k);
    seq(|idx|, j requires 0 <= j < |idx| => Annotate(names[idx[j]], shap[idx[j]], values[idx[j]], t))
  }

  /** The records built so far are the annotations of the first ranked
      positions, in rank order. */
  predicate AnnotatedUpTo(top: seq<FeatureRecord>, idx: seq<nat>, shap: seq<real>, names: seq<string>,
                          values: seq<Scalar>, t: Tables)
    requires |shap| == |names| == |values|
  {
    && |top| <= |idx|
    && forall p :: 0 <= p < |top| ==>
         idx[p] < |shap| && top[p] == Annotate(names[idx[p]], shap[idx[p]], values[idx[p]], t)
  }

  lemma AnnotatedUpToNil(idx: seq<nat>, shap: seq<real>, names: seq<string>, values: seq<Scalar>, t: Tables)
    requires |shap| == |names| == |values|
    ensures AnnotatedUpTo([], idx, shap, names, values, t)
  {
  }

  lemma AnnotatedUpToSnoc(top: seq<FeatureRecord>, idx: seq<nat>, shap: seq<real>, names: seq<string>,
                          values: seq<Scalar>, t: Tables, record: FeatureRecord)
    requires |shap| == |names| == |values|
    requires AnnotatedUpTo(top, idx, shap, names, values, t)
    requires |top| < |idx| && idx[|top|] < |shap|
    requires record == Annotate(names[idx[|top|]], shap[idx[|top|]], values[idx[|top|]], t)
    ensures AnnotatedUpTo(top + [record], idx, shap, names, values, t)
  {
  }

  lemma AnnotatedUpToAll(top: seq<FeatureRecord>, shap: seq<real>, names: seq<string>, values: seq<Scalar>,
                         t: Tables, k: int)
    requires |shap| == |names| == |values|
    requires AnnotatedUpTo(top, TopIndices(shap, k), shap, names, values, t)
    requires |top| == |TopIndices(shap, k)|
    ensures top == SelectTop(shap, names, values, t, k)
  {
  }

  /** build_evidence_from_arrays: checks the lengths, ranks, and annotates the
      kept features one by one. */
  method BuildEvidenceFromArrays(labelText: string, shapValues: seq<real>, featureNames: seq<string>,
                                 instanceValues: seq<Scalar>, t: Tables, k: int,
                                 modelCard: map<string, string>)
    returns (r: Result<Evidence, string>)
    ensures r.Err? <==> !(|shapValues| == |featureNames| == |instanceValues|)
    ensures r.Err? ==> r.error == LengthMismatch
    ensures r.Ok? ==> r.value == Evidence(Some(labelText),
                                          Features(SelectTop(shapValues, featureNames, instanceValues, t, k)),
                                          if |modelCard| > 0 then Some(modelCard) else None)
  {
    if !(|shapValues| == |featureNames| == |instanceValues|) {
      return Err(LengthMismatch);
    }
    hide AnnotatedUpTo, SelectTop;
    var idx := TopIndices(shapValues, k);
    TopIndicesInRange(shapValues, k);
    var top: seq<FeatureRecord> := [];
    var j := 0;
    AnnotatedUpToNil(idx, shapValues, featureNames, instanceValues, t);
    while j < |idx|
      invariant 0 <= j <= |idx|
      invariant |top| == j
      invariant AnnotatedUpTo(top, idx, shapValues, featureNames, instanceValues, t)
    {
      var i := idx[j];
      var raw := featureNames[i];
      var shapVal := shapValues[i];
      var val := instanceValues[i];

      var parentName := if raw in t.namesParent then t.namesParent[raw] else raw;
      var doctorName := if raw in t.namesDoctor then t.namesDoctor[raw] else raw;
      var parentDesc := "";
      var doctorDesc := "";
      var unit := "";
      var refText := NoRef;
      var low: Option<real> := None;
      var high: Option<real> := None;

      if raw in t.glossary {
        var g := t.glossary[raw];
        parentName := Or(g.parentName, parentName);
        doctorName := Or(g.doctorName, doctorName);
        parentDesc := Or(g.parentDesc, parentDesc);
        doctorDesc := Or(g.doctorDesc, doctorDesc);
        unit := Or(g.unit, unit);
        if g.refText.Some? {
          refText := g.refText.value;
        }
      }

      if raw in t.refRanges {
        refText := Or(t.refRanges[raw].refText, refText);
        low := t.refRanges[raw].low;
        high := t.refRanges[raw].high;
      }

      var direction := ArrowFromValue(val, low, high);
      var record := FeatureRecord(Some(raw), Some(parentName), Some(doctorName), Some(parentDesc),
                                  Some(doctorDesc), Some(unit), Some(val), Some(refText),
                                  Some(Num(shapVal)), Some(direction));
      assert record == Annotate(raw, shapVal, val, t);
      AnnotatedUpToSnoc(top, idx, shapValues, featureNames, instanceValues, t, record);
      top := top + [record];
      j := j + 1;
    }
    AnnotatedUpToAll(top, shapValues, featureNames, instanceValues, t, k);
    r := Ok(Evidence(Some(labelText), Features(top), if |modelCard| > 0 then Some(modelCard) else None));
  }

  // ---- Properties of the ranked features ----

  /** For k >= 0 exactly min(k, n) features are kept. */
  lemma SelectTopCount(shap: seq<real>, names: seq<string>, values: seq<Scalar>, t: Tables, k: int)
    requires |shap| == |names| == |values|
    requires k >= 0
    ensures |SelectTop(shap, names, values, t, k)| == if k < |shap| then k else |shap|
  {
  }

  /** Each kept feature's raw name, value and attribution come from one source
      position, and the kept positions are distinct. */
  lemma SelectTopSameIndex(shap: seq<real>, names: seq<string>, values: seq<Scalar>, t: Tables, k: int)
    requires |shap| == |names| == |values|
    ensures var r, idx := SelectTop(shap, names, values, t, k), TopIndices(shap, k);
      && |r| == |idx|
      && (forall j :: 0 <= j < |r| ==>
            && idx[j] < |shap|
            && r[j].nameRaw == Some(names[idx[j]])
            && r[j].value == Some(values[idx[j]])
            && r[j].shap == Some(Num(shap[idx[j]])))
      && (forall p, q :: 0 <= p < q < |idx| ==> idx[p] != idx[q])
  {
    RankDescSpec(Magnitudes(shap));
  }

  /** Kept features come in non-increasing order of |attribution|. */
  lemma SelectTopOrdered(shap: seq<real>, names: seq<string>, values: seq<Scalar>, t: Tables, k: int)
    requires |shap| == |names| == |values|
    ensures var r := SelectTop(shap, names, values, t, k);
      forall p, q :: 0 <= p < q < |r| ==> Abs(r[p].shap.value.x) >= Abs(r[q].shap.value.x)
  {
    RankDescSpec(Magnitudes(shap));
    var r := SelectTop(shap, names, values, t, k);
    var idx := TopIndices(shap, k);
    var full := RankDesc(Magnitudes(shap));
    forall p, q | 0 <= p < q < |r| ensures Abs(r[p].shap.value.x) >= Abs(r[q].shap.value.x) {
      assert idx[p] == full[p] && idx[q] == full[q];
    }
  }

  /** The kept positions hold the largest magnitudes: no position left out has
      a larger |attribution| than one that was kept. */
  lemma SelectTopLargest(shap: seq<real>, k: int, i: nat, j: nat)
    requires i < |shap| && j < |shap|
    requires i in TopIndices(shap, k) && j !in TopIndices(shap, k)
    ensures Abs(shap[i]) >= Abs(shap[j])
  {
    RankDescPrefixLargest(Magnitudes(shap), PyText.SliceBound(k, |shap|), i, j);
  }

  /** Every input position is considered: when k >= n all of them are kept. */
  lemma SelectTopAllWhenLarge(shap: seq<real>, k: int, i: nat)
    requires k >= |shap| && i < |shap|
    ensures i in TopIndices(shap, k)
  {
    RankDescSpec(Magnitudes(shap));
    assert TopIndices(shap, k) == RankDesc(Magnitudes(shap));
  }

  // ---- Properties of one annotation ----

  /** Name precedence: glossary entry, then name table, then raw name; the raw
      name is always carried through. Descriptions and unit come from the
      glossary entry when it has them, and are "" otherwise. */
  lemma AnnotateNames(raw: string, shap: real, value: Scalar, t: Tables)
    ensures var f := Annotate(raw, shap, value, t);
      && f.nameRaw == Some(raw)
      && f.nameParent == Some(
           if raw in t.glossary && t.glossary[raw].parentName.Some? then t.glossary[raw].parentName.value
           else if raw in t.namesParent then t.namesParent[raw]
           else raw)
      && f.nameDoctor == Some(
           if raw in t.glossary && t.glossary[raw].doctorName.Some? then t.glossary[raw].doctorName.value
           else if raw in t.namesDoctor then t.namesDoctor[raw]
           else raw)
      && f.descParent == Some(
           if raw in t.glossary && t.glossary[raw].parentDesc.Some? then t.glossary[raw].parentDesc.value else "")
      && f.descDoctor == Some(
           if raw in t.glossary && t.glossary[raw].doctorDesc.Some? then t.glossary[raw].doctorDesc.value else "")
      && f.unit == Some(
           if raw in t.glossary && t.glossary[raw].unit.Some? then t.glossary[raw].unit.value else "")
  {
  }

  /** Reference text precedence and the origin of the bounds: without a
      ref_ranges entry the marker is always "?". */
  lemma AnnotateReference(raw: string, shap: real, value: Scalar, t: Tables)
    ensures var f := Annotate(raw, shap, value, t);
      && f.refText == Some(
           if raw in t.refRanges && t.refRanges[raw].refText.Some? then t.refRanges[raw].refText.value
           else if raw in t.glossary && t.glossary[raw].refText.Some? then t.glossary[raw].refText.value
           else NoRef)
      && (raw !in t.refRanges ==> f.dir == Some(Unknown))
      && (raw in t.refRanges ==> f.dir == Some(ArrowFromValue(value, t.refRanges[raw].low, t.refRanges[raw].high)))
  {
  }
}
