/** The evidence record handed from the adapter to the validator and the
    prompt renderers. Python passes it around as a dictionary; every key the
    code inspects is an `Option` here, `None` meaning the key is absent. */
module Evidence {
  import opened Wrappers

  /** A value as the evidence dictionary may hold it: a number, something
      `float()` rejects, or Python's `None`. */
  datatype Scalar = Num(x: real) | Text(s: string) | NoneValue

  /** One entry of `top_features`. */
  datatype FeatureRecord = FeatureRecord(
    nameRaw: Option<string>,
    nameParent: Option<string>,
    nameDoctor: Option<string>,
    descParent: Option<string>,
    descDoctor: Option<string>,
    unit: Option<string>,
    value: Option<Scalar>,
    refText: Option<string>,
    shap: Option<Scalar>,
    dir: Option<string>)

  /** What the `top_features` key holds: nothing, something that is not a
      list, or a list of feature entries. */
  datatype TopFeatures = Absent | NotAList | Features(items: seq<FeatureRecord>)

  datatype Evidence = Evidence(
    labelText: Option<string>,
    topFeatures: TopFeatures,
    modelCard: Option<map<string, string>>)
}
