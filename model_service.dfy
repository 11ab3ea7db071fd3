/** The model wrapper of the backend: feature alignment, input validation,
    the guard in front of prediction, top-k extraction of SHAP attributions
    and the model summary. The classifier, the scaler and the SHAP explainer
    belong to foreign libraries: they appear as opaque artifacts held in the
    wrapper's fields, and what they compute appears as function parameters. */
module ModelService {
  import opened Wrappers
  import PyText
  import Ranking
  import Similarity

  /** A loaded foreign object, known here only by the file it came from. */
  datatype Artifact = Artifact(path: string)

  /** A value of the metadata document. */
  datatype MetaValue = MetaText(text: string) | MetaNumber(number: real)

  const Unknown := MetaText("Unknown")
  const ClassNames: seq<string> := ["Normal", "Suspect", "Pathological"]
  const NotLoaded := "Model not loaded. Call load() first."

  datatype ModelInfo = ModelInfo(
    loaded: bool,
    modelType: MetaValue,
    version: MetaValue,
    nFeatures: nat,
    testAccuracy: Option<MetaValue>,
    classNames: seq<string>,
    shapAvailable: bool)

  /** The predicted class, the class probabilities and, when the explainer
      produced them, the attributions for the predicted class. */
  datatype Prediction = Prediction(predicted: int, probabilities: seq<real>, shapValues: Option<seq<real>>)

  // ---- insertion-ordered dictionaries ----

  /** A Python dict from feature name to value, in insertion order. */
  type Explanation = seq<(string, real)>

  function KeysOf(d: Explanation): (r: seq<string>)
    ensures |r| == |d|
    ensures forall i :: 0 <= i < |d| ==> r[i] == d[i].0
  {
    seq(|d|, i requires 0 <= i < |d| => d[i].0)
  }

  predicate DistinctKeys(d: Explanation)
  {
    forall i, j :: 0 <= i < j < |d| ==> d[i].0 != d[j].0
  }

  /** `d[k] = v`: a new key goes last; a present key keeps its place and
      takes the new value. */
  function Put(d: Explanation, k: string, v: real): (r: Explanation)
    ensures k !in KeysOf(d) ==> r == d + [(k, v)]
    ensures k in KeysOf(d) ==> |r| == |d| && forall i :: 0 <= i < |d| ==> r[i] == if d[i].0 == k then (k, v) else d[i]
    ensures DistinctKeys(d) ==> DistinctKeys(r)
    ensures forall x :: x in KeysOf(r) <==> x in KeysOf(d) || x == k
    ensures forall p :: 0 <= p < |r| ==>
      && (r[p].0 == k ==> r[p].1 == v)
      && (r[p].0 != k ==> p < |d| && r[p] == d[p])
  {
    if k in KeysOf(d) then
      var r := seq(|d|, i requires 0 <= i < |d| => if d[i].0 == k then (k, v) else d[i]);
      assert forall x :: x in KeysOf(r) ==> x in KeysOf(d) || x == k by {
        forall x | x in KeysOf(r) ensures x in KeysOf(d) || x == k {
          var i :| 0 <= i < |r| && KeysOf(r)[i] == x;
          assert KeysOf(d)[i] == d[i].0;
        }
      }
      assert forall x :: x in KeysOf(d) ==> x in KeysOf(r) by {
        forall x | x in KeysOf(d) ensures x in KeysOf(r) {
          var i :| 0 <= i < |d| && KeysOf(d)[i] == x;
          assert KeysOf(r)[i] == r[i].0;
        }
      }
      r
    else
      assert forall i :: 0 <= i < |d| ==> d[i].0 != k by {
        forall i | 0 <= i < |d| ensures d[i].0 != k {
          assert KeysOf(d)[i] == d[i].0;
        }
      }
      assert KeysOf(d + [(k, v)]) == KeysOf(d) + [k];
      d + [(k, v)]
  }

  // ---- top-k attributions ----

  /** `np.argsort(np.abs(shap))[-top_k:][::-1]`: the positions whose
      magnitude ranks in the top `top_k`, largest first. `top_k` = 0 keeps
      every position, because `[-0:]` is the whole array. */
  function TopShap(shap: seq<real>, topK: int): (r: seq<nat>)
    ensures |r| == |shap| - PyText.SliceBound(-topK, |shap|)
    ensures forall j :: 0 <= j < |r| ==> r[j] < |shap|
  {
    Ranking.RankDescSpec(Ranking.Magnitudes(shap));
    Ranking.RankDesc(Ranking.Magnitudes(shap))[..|shap| - PyText.SliceBound(-topK, |shap|)]
  }

  /** The dictionary the loop builds over the positions `idx`, skipping
      positions past the end of `names`. */
  function ExplanationOf(names: seq<string>, shap: seq<real>, idx: seq<nat>): (d: Explanation)
    requires forall j :: 0 <= j < |idx| ==> idx[j] < |shap|
    ensures DistinctKeys(d)
    ensures |d| <= |idx|
    decreases |idx|
  {
    if idx == [] then []
    else
      var i := idx[|idx| - 1];
      var d := ExplanationOf(names, shap, idx[..|idx| - 1]);
      if i < |names| then Put(d, names[i], shap[i]) else d
  }

  /** `get_shap_explanation`: nothing without attributions, else the
      dictionary over the top positions. */
  function ExplainTop(names: seq<string>, shapValues: Option<seq<real>>, topK: int): Explanation
  {
    match shapValues
    case None => []
    case Some(shap) => ExplanationOf(names, shap, TopShap(shap, topK))
  }

  /** The positions of `idx` that name a feature, in order. */
  function Kept(names: seq<string>, idx: seq<nat>): (r: seq<nat>)
    ensures forall x :: x in r <==> x in idx && x < |names|
    ensures forall j :: 0 <= j < |r| ==> r[j] in idx
    decreases |idx|
  {
    if idx == [] then []
    else
      var i := idx[|idx| - 1];
      var rest := Kept(names, idx[..|idx| - 1]);
      assert forall x :: x in idx <==> x in idx[..|idx| - 1] || x == i;
      if i < |names| then rest + [i] else rest
  }

  /** The keys are the names at the positions visited, and nothing else. */
  lemma {:induction false} ExplanationKeys(names: seq<string>, shap: seq<real>, idx: seq<nat>)
    requires forall j :: 0 <= j < |idx| ==> idx[j] < |shap|
    ensures forall x :: x in KeysOf(ExplanationOf(names, shap, idx)) <==>
      exists j :: 0 <= j < |idx| && idx[j] < |names| && names[idx[j]] == x
    decreases |idx|
  {
    hide ExplanationOf, KeysOf, Put;
    if idx != [] {
      var n := |idx| - 1;
      var prefix := idx[..n];
      ExplanationKeys(names, shap, prefix);
      ExplanationKeysStep(names, shap, idx);
      assert idx == prefix + [idx[n]];
      KeysSnoc(names, prefix, idx[n], ExplanationOf(names, shap, prefix), ExplanationOf(names, shap, idx));
    }
  }

  /** One loop step adds the visited name, if any, to the keys. */
  lemma ExplanationKeysStep(names: seq<string>, shap: seq<real>, idx: seq<nat>)
    requires forall j :: 0 <= j < |idx| ==> idx[j] < |shap|
    requires idx != []
    ensures var i := idx[|idx| - 1];
      forall x :: x in KeysOf(ExplanationOf(names, shap, idx)) <==>
        x in KeysOf(ExplanationOf(names, shap, idx[..|idx| - 1])) || (i < |names| && x == names[i])
  {
    var i := idx[|idx| - 1];
    var d' := ExplanationOf(names, shap, idx[..|idx| - 1]);
    assert ExplanationOf(names, shap, idx) == if i < |names| then Put(d', names[i], shap[i]) else d';
  }

  /** One more visited position adds its name, if it has one, to the keys. */
  lemma KeysSnoc(names: seq<string>, prefix: seq<nat>, i: nat, d': Explanation, d: Explanation)
    requires forall x :: x in KeysOf(d') <==>
      exists j :: 0 <= j < |prefix| && prefix[j] < |names| && names[prefix[j]] == x
    requires forall x :: x in KeysOf(d) <==> x in KeysOf(d') || (i < |names| && x == names[i])
    ensures forall x :: x in KeysOf(d) <==>
      exists j :: 0 <= j < |prefix + [i]| && (prefix + [i])[j] < |names| && names[(prefix + [i])[j]] == x
  {
    hide KeysOf;
    var idx := prefix + [i];
    var n := |prefix|;
    forall x
      ensures x in KeysOf(d) <==> exists j :: 0 <= j < |idx| && idx[j] < |names| && names[idx[j]] == x
    {
      if exists j :: 0 <= j < |idx| && idx[j] < |names| && names[idx[j]] == x {
        var j :| 0 <= j < |idx| && idx[j] < |names| && names[idx[j]] == x;
        if j < n {
          assert prefix[j] < |names| && names[prefix[j]] == x;
          assert x in KeysOf(d');
        } else {
          assert idx[j] == i;
        }
        assert x in KeysOf(d);
      }
      if x in KeysOf(d) {
        if i < |names| && x == names[i] {
          assert idx[n] == i;
        } else {
          assert x in KeysOf(d');
          var j :| 0 <= j < |prefix| && prefix[j] < |names| && names[prefix[j]] == x;
          assert idx[j] == prefix[j];
        }
      }
    }
  }

  /** Each value is the attribution at the last visited position of its
      name: later visits of the same name overwrite earlier ones. */
  lemma {:induction false} ExplanationValues(names: seq<string>, shap: seq<real>, idx: seq<nat>)
    requires forall j :: 0 <= j < |idx| ==> idx[j] < |shap|
    ensures forall p :: 0 <= p < |ExplanationOf(names, shap, idx)| ==>
      LastWrite(names, shap, idx, ExplanationOf(names, shap, idx)[p])
    decreases |idx|
  {
    if idx != [] {
      var n := |idx| - 1;
      var i := idx[n];
      var prefix := idx[..n];
      ExplanationValues(names, shap, prefix);
      var d' := ExplanationOf(names, shap, prefix);
      var d := ExplanationOf(names, shap, idx);
      assert d == if i < |names| then Put(d', names[i], shap[i]) else d';
      forall p | 0 <= p < |d| ensures LastWrite(names, shap, idx, d[p]) {
        if i < |names| && d[p].0 == names[i] {
          assert Writes(names, shap, idx, n, d[p]);
        } else {
          assert p < |d'| && d[p] == d'[p];
          assert LastWrite(names, shap, prefix, d'[p]);
          var j :| 0 <= j < |prefix| && Writes(names, shap, prefix, j, d'[p]);
          assert idx[j] == prefix[j];
          assert forall j' :: j < j' < n ==> idx[j'] == prefix[j'];
          assert Writes(names, shap, idx, j, d[p]);
        }
      }
    }
  }

  /** Visiting position `idx[j]` wrote `entry` and no later visit overwrote it. */
  ghost predicate Writes(names: seq<string>, shap: seq<real>, idx: seq<nat>, j: nat, entry: (string, real))
    requires forall j :: 0 <= j < |idx| ==> idx[j] < |shap|
  {
    && j < |idx| && idx[j] < |names|
    && names[idx[j]] == entry.0 && entry.1 == shap[idx[j]]
    && forall j' :: j < j' < |idx| && idx[j'] < |names| ==> names[idx[j']] != entry.0
  }

  ghost predicate LastWrite(names: seq<string>, shap: seq<real>, idx: seq<nat>, entry: (string, real))
    requires forall j :: 0 <= j < |idx| ==> idx[j] < |shap|
  {
    exists j :: 0 <= j < |idx| && Writes(names, shap, idx, j, entry)
  }

  /** `d` holds one (name, attribution) pair per position of `ks`, in order. */
  predicate PairsAt(names: seq<string>, shap: seq<real>, ks: seq<nat>, d: Explanation)
  {
    && |d| == |ks|
    && forall p :: 0 <= p < |ks| ==> ks[p] < |names| && ks[p] < |shap| && d[p] == (names[ks[p]], shap[ks[p]])
  }

  lemma PairsAtSnoc(names: seq<string>, shap: seq<real>, ks: seq<nat>, d: Explanation, i: nat)
    requires PairsAt(names, shap, ks, d) && i < |names| && i < |shap|
    ensures PairsAt(names, shap, ks + [i], d + [(names[i], shap[i])])
  {
  }

  /** With distinct feature names and distinct positions, the dictionary is
      exactly one (name, attribution) pair per kept position, in visiting
      order. */
  lemma {:induction false} ExplanationDistinct(names: seq<string>, shap: seq<real>, idx: seq<nat>)
    requires forall j :: 0 <= j < |idx| ==> idx[j] < |shap|
    requires forall i, j :: 0 <= i < j < |names| ==> names[i] != names[j]
    requires forall p, q :: 0 <= p < q < |idx| ==> idx[p] != idx[q]
    ensures PairsAt(names, shap, Kept(names, idx), ExplanationOf(names, shap, idx))
    decreases |idx|
  {
    if idx != [] {
      var n := |idx| - 1;
      var i := idx[n];
      var prefix := idx[..n];
      ExplanationDistinct(names, shap, prefix);
      var d' := ExplanationOf(names, shap, prefix);
      var kept' := Kept(names, prefix);
      var d := ExplanationOf(names, shap, idx);
      var kept := Kept(names, idx);
      if i < |names| {
        assert d == Put(d', names[i], shap[i]);
        assert kept == kept' + [i];
        hide ExplanationOf, Kept;
        forall p | 0 <= p < |d'| ensures d'[p].0 != names[i] {
          assert kept'[p] in prefix;
          var j :| 0 <= j < n && prefix[j] == kept'[p];
          assert idx[j] == kept'[p];
        }
        assert names[i] !in KeysOf(d');
        PairsAtSnoc(names, shap, kept', d', i);
      } else {
        assert d == d' && kept == kept';
      }
    }
  }

  /** Which positions are kept: min(top_k, n) of them for a positive top_k,
      all of them for 0, all but -top_k of them for a negative one; they are
      distinct, come in non-increasing |attribution|, and no position left
      out has a larger |attribution| than one kept. */
  lemma TopShapSpec(shap: seq<real>, topK: int)
    ensures var r, n := TopShap(shap, topK), |shap|;
      && (topK > 0 ==> |r| == if topK < n then topK else n)
      && (topK == 0 ==> |r| == n && forall i :: 0 <= i < n ==> i in r)
      && (topK < 0 ==> |r| == if -topK < n then n + topK else 0)
      && (forall p, q :: 0 <= p < q < |r| ==> r[p] != r[q])
      && (forall p, q :: 0 <= p < q < |r| ==> Ranking.Abs(shap[r[p]]) >= Ranking.Abs(shap[r[q]]))
      && (forall i, j :: 0 <= i < n && 0 <= j < n && i in r && j !in r ==> Ranking.Abs(shap[i]) >= Ranking.Abs(shap[j]))
  {
    var mags := Ranking.Magnitudes(shap);
    Ranking.RankDescSpec(mags);
    var r := TopShap(shap, topK);
    var m := |shap| - PyText.SliceBound(-topK, |shap|);
    var full := Ranking.RankDesc(mags);
    assert r == full[..m];
    assert forall p :: 0 <= p < |r| ==> r[p] == full[p];
    if topK == 0 {
      assert r == full;
    }
    forall i, j | 0 <= i < |shap| && 0 <= j < |shap| && i in r && j !in r
      ensures Ranking.Abs(shap[i]) >= Ranking.Abs(shap[j])
    {
      Ranking.RankDescPrefixLargest(mags, m, i, j);
    }
  }

  /** Missing names, in `names` order. */
  function Missing(names: seq<string>, features: map<string, real>): (r: seq<string>)
    ensures forall x :: x in r <==> x in names && x !in features
    ensures |r| <= |names|
    decreases |names|
  {
    if names == [] then []
    else
      var last := names[|names| - 1];
      assert forall x :: x in names <==> x in names[..|names| - 1] || x == last;
      Missing(names[..|names| - 1], features) + (if last in features then [] else [last])
  }

  /** An input that passes validation is aligned with its own values: no
      position falls back to 0. */
  lemma ValidatedInputAligned(names: seq<string>, features: map<string, real>)
    requires Missing(names, features) == []
    ensures forall i :: 0 <= i < |names| ==>
      names[i] in features && Similarity.Align(names, features)[i] == features[names[i]]
  {
    forall i | 0 <= i < |names| ensures names[i] in features {
      assert names[i] in names;
      assert names[i] !in Missing(names, features);
    }
  }

  class CTGenieModel {
    var modelDir: string
    var model: Option<Artifact>
    var scaler: Option<Artifact>
    var featureNames: seq<string>
    var metadata: map<string, MetaValue>
    var classNames: seq<string>
    var explainer: Option<Artifact>

    /** A wrapper with nothing loaded yet. */
    constructor (modelDir: string)
      ensures this.modelDir == modelDir
      ensures model == None && scaler == None && explainer == None
      ensures featureNames == [] && metadata == map[]
      ensures classNames == ClassNames
    {
      this.modelDir := modelDir;
      model := None;
      scaler := None;
      featureNames := [];
      metadata := map[];
      classNames := ClassNames;
      explainer := None;
    }

    /** The input row before scaling: one value per feature name, in
        `featureNames` order, 0.0 where the input lacks the feature. */
    method PreprocessFeatures(features: map<string, real>) returns (row: seq<real>)
      ensures row == Similarity.Align(featureNames, features)
      ensures |row| == |featureNames|
      ensures forall i :: 0 <= i < |featureNames| ==>
        row[i] == if featureNames[i] in features then features[featureNames[i]] else 0.0
    {
      row := [];
      for i := 0 to |featureNames|
        invariant row == Similarity.Align(featureNames[..i], features)
      {
        if featureNames[i] in features {
          row := row + [features[featureNames[i]]];
        } else {
          row := row + [0.0];
        }
      }
      assert featureNames[..|featureNames|] == featureNames;
    }

    /** Refuses to run without a model; otherwise classifies the aligned row
        and asks the explainer, when there is one, for the attributions of
        the predicted class; an explainer failure leaves them out. */
    method Predict(features: map<string, real>,
                   classify: seq<real> -> (int, seq<real>),
                   explain: (seq<real>, int) -> Result<seq<real>, string>)
      returns (r: Result<Prediction, string>)
      ensures r.Err? <==> model.None?
      ensures r.Err? ==> r.error == NotLoaded
      ensures r.Ok? ==>
        var row := Similarity.Align(featureNames, features);
        && r.value.predicted == classify(row).0
        && r.value.probabilities == classify(row).1
        && (r.value.shapValues.Some? <==> explainer.Some? && explain(row, classify(row).0).Ok?)
        && (r.value.shapValues.Some? ==> r.value.shapValues.value == explain(row, classify(row).0).value)
    {
      if model.None? {
        return Err(NotLoaded);
      }
      var row := PreprocessFeatures(features);
      var (prediction, probabilities) := classify(row);
      var shapValues: Option<seq<real>> := None;
      if explainer.Some? {
        var raw := explain(row, prediction);
        if raw.Ok? {
          shapValues := Some(raw.value);
        }
      }
      return Ok(Prediction(prediction, probabilities, shapValues));
    }

    /** The top attributions by magnitude as a name-to-value dictionary. */
    method GetShapExplanation(shapValues: Option<seq<real>>, topK: int) returns (explanation: Explanation)
      ensures explanation == ExplainTop(featureNames, shapValues, topK)
      ensures shapValues.None? ==> explanation == []
      ensures shapValues.Some? ==> |explanation| <= |TopShap(shapValues.value, topK)|
    {
      if shapValues.None? {
        return [];
      }
      var shap := shapValues.value;
      var topIndices := TopShap(shap, topK);
      explanation := [];
      for j := 0 to |topIndices|
        invariant explanation == ExplanationOf(featureNames, shap, topIndices[..j])
      {
        var idx := topIndices[j];
        assert topIndices[..j + 1][..j] == topIndices[..j];
        if idx < |featureNames| {
          explanation := Put(explanation, featureNames[idx], shap[idx]);
        }
      }
      assert topIndices[..|topIndices|] == topIndices;
    }

    /** Valid iff no feature name is missing from the input; `missing`
        lists the missing names in `featureNames` order. */
    method ValidateFeatures(features: map<string, real>) returns (isValid: bool, missing: seq<string>)
      ensures missing == Missing(featureNames, features)
      ensures isValid <==> forall i :: 0 <= i < |featureNames| ==> featureNames[i] in features
      ensures isValid <==> missing == []
    {
      missing := [];
      for i := 0 to |featureNames|
        invariant missing == Missing(featureNames[..i], features)
      {
        assert featureNames[..i + 1][..i] == featureNames[..i];
        if featureNames[i] !in features {
          missing := missing + [featureNames[i]];
        }
      }
      assert featureNames[..|featureNames|] == featureNames;
      isValid := |missing| == 0;
      if !isValid {
        assert missing[0] in missing;
      } else {
        forall i | 0 <= i < |featureNames| ensures featureNames[i] in features {
          assert featureNames[i] in featureNames;
        }
      }
    }

    /** The summary: loaded iff there is a model, SHAP available iff there
        is an explainer, one feature count per name, and the type and
        version from the metadata, "Unknown" where it lacks them. */
    function GetModelInfo(): (info: ModelInfo)
      reads this
      ensures info.loaded <==> model.Some?
      ensures info.shapAvailable <==> explainer.Some?
      ensures info.nFeatures == |featureNames|
      ensures info.classNames == classNames
      ensures info.modelType == if "model_type" in metadata then metadata["model_type"] else Unknown
      ensures info.version == if "version" in metadata then metadata["version"] else Unknown
      ensures info.testAccuracy.Some? <==> "test_accuracy" in metadata
      ensures info.testAccuracy.Some? ==> info.testAccuracy.value == metadata["test_accuracy"]
    {
      ModelInfo(
        model.Some?,
        if "model_type" in metadata then metadata["model_type"] else Unknown,
        if "version" in metadata then metadata["version"] else Unknown,
        |featureNames|,
        if "test_accuracy" in metadata then Some(metadata["test_accuracy"]) else None,
        classNames,
        explainer.Some?)
    }
  }

  /** A fresh wrapper reports nothing loaded, no features, no SHAP and an
      unknown type and version. */
  method FreshModelInfo(modelDir: string) returns (info: ModelInfo)
    ensures !info.loaded && !info.shapAvailable && info.nFeatures == 0
    ensures info.modelType == Unknown && info.version == Unknown && info.testAccuracy.None?
    ensures info.classNames == ClassNames
  {
    var m := new CTGenieModel(modelDir);
    info := m.GetModelInfo();
  }
}
