/** The caregiver and clinician requests rendered from an evidence record
    (llm_explainer/prompts.py). Each builder collects lines and joins them
    with line breaks. Numbers are rendered by `show`, the host's `str()` of a
    float. */
module Prompts {
  import opened Wrappers
  import opened Evidence
  import opened PyText

  const ParentSystem: string :=
    "You are a health communication "
    + "assistant. Use only the evidence "
    + "provided. No diagnosis or "
    + "prescriptions. Write for non-experts "
    + "at middle-school reading level. "
    + "Explain why the model produced this "
    + "label and suggest next-step actions "
    + "that should be discussed with a "
    + "clinician. If evidence is "
    + "insufficient, say so."

  const DoctorSystem: string :=
    "You are a clinical decision "
    + "explanation assistant. Use only the "
    + "provided evidence; do not invent "
    + "facts. Be quantitative, traceable, "
    + "and aligned with the given SHAP "
    + "attributions. Discuss potential "
    + "limitations and confounders. No "
    + "prescriptions. Output is for "
    + "clinician review and does not replace "
    + "judgment."

  const ParentInstructions: seq<string> := [
    "Please produce:",
    "1) One-sentence summary of the "
      + "situation (avoid absolute statements).",
    "2) Why the model produced this label "
      + "(map to the factors above using "
      + "everyday language).",
    "3) Next steps the family can take "
      + "(e.g., what to prepare when talking to "
      + "the clinician, harmless lifestyle "
      + "considerations).",
    "4) Closing disclaimer: this is an "
      + "explanation, not a diagnosis; defer to "
      + "clinical judgment."
  ]

  const DoctorInstructions: seq<string> := [
    "Please produce:",
    "1) Interpretation of the discrete "
      + "prediction and the primary drivers "
      + "(factor-by-factor, mechanism "
      + "hypotheses using general, conservative "
      + "clinical knowledge).",
    "2) Potential confounders and model "
      + "limitations (data bias, proxy "
      + "variables, external validity).",
    "3) Suggested verification points for "
      + "clinician review (tests to consider, "
      + "follow-up indicators) without "
      + "prescribing.",
    "4) Disclaimer: explanation based on "
      + "local SHAP; does not replace clinical "
      + "judgment."
  ]

  /** Opening of the clinician request's first line. */
  const PredictionLead := "Discrete prediction " + "(no probability provided): "

  /** The fixed line that introduces the features in each request. */
  const KeyFactorsTitle := "Key factors (ordered by impact, up to 5):"
  const TopFactorsTitle := "Top factors (with SHAP and direction):"

  /** The caregiver prompt lists at most this many features. */
  const ParentLimit: int := 5

  function Or(o: Option<string>, fallback: string): string
  {
    if o.Some? then o.value else fallback
  }

  /** `f"{v}"` */
  function ScalarText(v: Scalar, show: real -> string): string
  {
    match v
    case Num(x) => show(x)
    case Text(s) => s
    case NoneValue => "None"
  }

  /** `f"{d.get(key, 'NA')}"` */
  function FieldText(v: Option<Scalar>, show: real -> string): string
  {
    if v.Some? then ScalarText(v.value, show) else "NA"
  }

  /** `evidence.get("top_features", [])` */
  function FeatureList(t: TopFeatures): seq<FeatureRecord>
  {
    if t.Features? then t.items else []
  }

  function UnitPart(unit: string): string
  {
    if unit != "" then " " + unit else ""
  }

  function DescPart(tag: string, desc: string): string
  {
    if desc != "" then tag + desc else ""
  }

  function ParentName(f: FeatureRecord): string
  {
    Or(f.nameParent, Or(f.nameRaw, "feature"))
  }

  function DoctorName(f: FeatureRecord): string
  {
    Or(f.nameDoctor, Or(f.nameRaw, "feature"))
  }

  /** `, direction {dir}.` and `, dir {dir}.`: the segment before the description. */
  function ParentDirection(f: FeatureRecord): string
  {
    ", direction " + Or(f.dir, "?") + "."
  }

  function DoctorDirection(f: FeatureRecord): string
  {
    ", dir " + Or(f.dir, "?") + "."
  }

  /** Everything in a caregiver line after the display name. */
  /** `{value} (ref {ref})`: the caregiver line's value segment. */
  function ParentValue(f: FeatureRecord, show: real -> string): string
  {
    FieldText(f.value, show) + " (ref " + Or(f.refText, "NA") + ")"
  }

  /** `{value} (ref {ref}), SHAP={shap}`: the clinician line's value segment. */
  function DoctorValue(f: FeatureRecord, show: real -> string): string
  {
    FieldText(f.value, show) + " (ref " + Or(f.refText, "NA") + "), SHAP=" + FieldText(f.shap, show)
  }

  function ParentRest(f: FeatureRecord, show: real -> string): string
  {
    UnitPart(Or(f.unit, ""))
    + ((": value " + ParentValue(f, show)) + ParentDirection(f))
    + DescPart(" Meaning: ", Or(f.descParent, ""))
  }

  /** Everything in a clinician line after the display name. */
  function DoctorRest(f: FeatureRecord, show: real -> string): string
  {
    UnitPart(Or(f.unit, ""))
    + ((" = " + DoctorValue(f, show)) + DoctorDirection(f))
    + DescPart(" Note: ", Or(f.descDoctor, ""))
  }

  function ParentLine(f: FeatureRecord, show: real -> string): string
  {
    "- " + ParentName(f) + ParentRest(f, show)
  }

  function DoctorLine(f: FeatureRecord, show: real -> string): string
  {
    "- " + DoctorName(f) + DoctorRest(f, show)
  }

  function ParentHeader(ev: Evidence): seq<string>
  {
    ["Model label: " + Or(ev.labelText, "UNKNOWN"), KeyFactorsTitle]
  }

  /** `evidence.get("model_card", {}).get(key, fallback)` */
  function CardField(ev: Evidence, key: string, fallback: string): string
  {
    if ev.modelCard.Some? && key in ev.modelCard.value then ev.modelCard.value[key] else fallback
  }

  function DoctorHeader(ev: Evidence): seq<string>
  {
    var name := CardField(ev, "name", "UNKNOWN_MODEL");
    var version := CardField(ev, "version", "v0");
    [PredictionLead + Or(ev.labelText, "UNKNOWN"),
     "Model: " + name + " (" + version + ")",
     TopFactorsTitle]
  }

  /** The features the caregiver prompt shows: `top_features[:5]`. */
  function ParentShown(ev: Evidence): seq<FeatureRecord>
  {
    var fs := FeatureList(ev.topFeatures);
    fs[..SliceBound(ParentLimit, |fs|)]
  }

  /** One caregiver line per feature, in order. */
  function ParentBody(fs: seq<FeatureRecord>, show: real -> string): (r: seq<string>)
    ensures |r| == |fs| && forall j :: 0 <= j < |fs| ==> r[j] == ParentLine(fs[j], show)
  {
    seq(|fs|, j requires 0 <= j < |fs| => ParentLine(fs[j], show))
  }

  /** One clinician line per feature, in order. */
  function DoctorBody(fs: seq<FeatureRecord>, show: real -> string): (r: seq<string>)
    ensures |r| == |fs| && forall j :: 0 <= j < |fs| ==> r[j] == DoctorLine(fs[j], show)
  {
    seq(|fs|, j requires 0 <= j < |fs| => DoctorLine(fs[j], show))
  }

  lemma ParentBodySnoc(fs: seq<FeatureRecord>, i: nat, show: real -> string)
    requires i < |fs|
    ensures ParentBody(fs[..i + 1], show) == ParentBody(fs[..i], show) + [ParentLine(fs[i], show)]
  {
    var b, b' := ParentBody(fs[..i], show), ParentBody(fs[..i + 1], show);
    forall j | 0 <= j < i ensures b'[j] == b[j] {
      assert fs[..i + 1][j] == fs[..i][j];
    }
  }

  lemma DoctorBodySnoc(fs: seq<FeatureRecord>, i: nat, show: real -> string)
    requires i < |fs|
    ensures DoctorBody(fs[..i + 1], show) == DoctorBody(fs[..i], show) + [DoctorLine(fs[i], show)]
  {
    var b, b' := DoctorBody(fs[..i], show), DoctorBody(fs[..i + 1], show);
    forall j | 0 <= j < i ensures b'[j] == b[j] {
      assert fs[..i + 1][j] == fs[..i][j];
    }
  }

  /** Reference definition of the caregiver request, line by line. */
  function ParentLines(ev: Evidence, show: real -> string): seq<string>
  {
    ParentHeader(ev) + ParentBody(ParentShown(ev), show) + [""] + ParentInstructions
  }

  /** Reference definition of the clinician request, line by line. */
  function DoctorLines(ev: Evidence, show: real -> string): seq<string>
  {
    DoctorHeader(ev) + DoctorBody(FeatureList(ev.topFeatures), show) + [""] + DoctorInstructions
  }

  /** The caregiver line as `build_parent_user` assembles it from its parts. */
  lemma ParentLineAssembled(f: FeatureRecord, show: real -> string, name: string, value: string,
                            unit: string, refText: string, direction: string, desc: string)
    requires name == ParentName(f) && value == FieldText(f.value, show) && unit == Or(f.unit, "")
    requires refText == Or(f.refText, "NA") && direction == Or(f.dir, "?") && desc == Or(f.descParent, "")
    ensures "- " + name
      + (UnitPart(unit) + ((": value " + value + " (ref " + refText + ")") + (", direction " + direction + "."))
         + DescPart(" Meaning: ", desc))
      == ParentLine(f, show)
  {
    var lead, r := ": value ", " (ref ";
    Assoc(lead, value + r + refText, ")");
    Assoc(lead, value + r, refText);
    Assoc(lead, value, r);
  }

  /** The clinician line as `build_doctor_user` assembles it from its parts. */
  lemma DoctorLineAssembled(f: FeatureRecord, show: real -> string, name: string, value: string,
                            unit: string, refText: string, shap: string, direction: string, desc: string)
    requires name == DoctorName(f) && value == FieldText(f.value, show) && unit == Or(f.unit, "")
    requires refText == Or(f.refText, "NA") && shap == FieldText(f.shap, show)
    requires direction == Or(f.dir, "?") && desc == Or(f.descDoctor, "")
    ensures "- " + name
      + (UnitPart(unit) + ((" = " + value + " (ref " + refText + "), SHAP=" + shap) + (", dir " + direction + "."))
         + DescPart(" Note: ", desc))
      == DoctorLine(f, show)
  {
    var lead, r, m := " = ", " (ref ", "), SHAP=";
    Assoc(lead, value + r + refText + m, shap);
    Assoc(lead, value + r + refText, m);
    Assoc(lead, value + r, refText);
    Assoc(lead, value, r);
  }

  /** build_parent_user */
  method BuildParentUser(ev: Evidence, show: real -> string) returns (text: string)
    requires !ev.topFeatures.NotAList?
    ensures text == JoinLines(ParentLines(ev, show))
  {
    var lines: seq<string> := [];
    lines := lines + ["Model label: " + Or(ev.labelText, "UNKNOWN")];
    lines := lines + [KeyFactorsTitle];
    var shown := ParentShown(ev);
    var i := 0;
    while i < |shown|
      invariant 0 <= i <= |shown|
      invariant lines == ParentHeader(ev) + ParentBody(shown[..i], show)
    {
      var f := shown[i];
      var name := ParentName(f);
      var value := FieldText(f.value, show);
      var unit := Or(f.unit, "");
      var refText := Or(f.refText, "NA");
      var direction := Or(f.dir, "?");
      var desc := Or(f.descParent, "");
      var unitPart := UnitPart(unit);
      var descPart := DescPart(" Meaning: ", desc);
      var line := "- " + name
        + (unitPart + ((": value " + value + " (ref " + refText + ")") + (", direction " + direction + ".")) + descPart);
      ParentLineAssembled(f, show, name, value, unit, refText, direction, desc);
      ParentBodySnoc(shown, i, show);
      Assoc(ParentHeader(ev), ParentBody(shown[..i], show), [line]);
      lines := lines + [line];
      i := i + 1;
    }
    assert shown[..i] == shown;
    text := JoinLines(lines + [""] + ParentInstructions);
  }

  /** build_doctor_user */
  method BuildDoctorUser(ev: Evidence, show: real -> string) returns (text: string)
    requires !ev.topFeatures.NotAList?
    ensures text == JoinLines(DoctorLines(ev, show))
  {
    var lines: seq<string> := [];
    var labelText := Or(ev.labelText, "UNKNOWN");
    var modelName := CardField(ev, "name", "UNKNOWN_MODEL");
    var modelVer := CardField(ev, "version", "v0");
    lines := lines + [PredictionLead + labelText];
    lines := lines + ["Model: " + modelName + " (" + modelVer + ")"];
    lines := lines + [TopFactorsTitle];
    assert lines == DoctorHeader(ev);
    var fs := FeatureList(ev.topFeatures);
    var i := 0;
    while i < |fs|
      invariant 0 <= i <= |fs|
      invariant lines == DoctorHeader(ev) + DoctorBody(fs[..i], show)
    {
      var f := fs[i];
      var name := DoctorName(f);
      var value := FieldText(f.value, show);
      var unit := Or(f.unit, "");
      var refText := Or(f.refText, "NA");
      var shap := FieldText(f.shap, show);
      var direction := Or(f.dir, "?");
      var desc := Or(f.descDoctor, "");
      var unitPart := UnitPart(unit);
      var descPart := DescPart(" Note: ", desc);
      var line := "- " + name
        + (unitPart + ((" = " + value + " (ref " + refText + "), SHAP=" + shap) + (", dir " + direction + ".")) + descPart);
      DoctorLineAssembled(f, show, name, value, unit, refText, shap, direction, desc);
      DoctorBodySnoc(fs, i, show);
      Assoc(DoctorHeader(ev), DoctorBody(fs[..i], show), [line]);
      lines := lines + [line];
      i := i + 1;
    }
    assert fs[..i] == fs;
    text := JoinLines(lines + [""] + DoctorInstructions);
  }

  // ---- Properties of the rendered requests ----

  predicate EndsWith(s: string, suffix: string)
  {
    |suffix| <= |s| && s[|s| - |suffix|..] == suffix
  }

  /** Caregiver request: two header lines, the lines of the first min(5, n)
      features in evidence order, one blank line, then the five instruction
      lines. */
  lemma ParentLinesShape(ev: Evidence, show: real -> string)
    ensures var ls, fs := ParentLines(ev, show), FeatureList(ev.topFeatures);
      var m := if |fs| < 5 then |fs| else 5;
      && |ls| == 2 + m + 1 + 5
      && ls[..2] == ParentHeader(ev)
      && ls[2..2 + m] == ParentBody(fs[..m], show)
      && ls[2 + m] == ""
      && ls[3 + m..] == ParentInstructions
  {
    var h, b := ParentHeader(ev), ParentBody(ParentShown(ev), show);
    Layout(h, b, "", ParentInstructions);
    assert (h + b + [""] + ParentInstructions)[2..2 + |b|] == b;
  }

  /** Clinician request: three header lines, the lines of every feature (no
      truncation), one blank line, then the five instruction lines. */
  lemma DoctorLinesShape(ev: Evidence, show: real -> string)
    ensures var ls, fs := DoctorLines(ev, show), FeatureList(ev.topFeatures);
      && |ls| == 3 + |fs| + 1 + 5
      && ls[..3] == DoctorHeader(ev)
      && ls[3..3 + |fs|] == DoctorBody(fs, show)
      && ls[3 + |fs|] == ""
      && ls[4 + |fs|..] == DoctorInstructions
  {
    var h, b := DoctorHeader(ev), DoctorBody(FeatureList(ev.topFeatures), show);
    Layout(h, b, "", DoctorInstructions);
    assert (h + b + [""] + DoctorInstructions)[3..3 + |b|] == b;
  }

  lemma EndsWithConcat(a: string, b: string)
    ensures EndsWith(a + b, b)
  {
    assert (a + b)[|a + b| - |b|..] == b;
  }

  predicate StartsWith(s: string, prefix: string)
  {
    |prefix| <= |s| && s[..|prefix|] == prefix
  }

  lemma StartsWithConcat(a: string, b: string)
    ensures StartsWith(a + b, a)
  {
    assert (a + b)[..|a|] == a;
  }

  /** Where the parts of `h + b + [x] + t` sit. */
  lemma Layout<T>(h: seq<T>, b: seq<T>, x: T, t: seq<T>)
    ensures var s := h + b + [x] + t;
      && |s| == |h| + |b| + 1 + |t|
      && s[..|h|] == h
      && (forall j :: 0 <= j < |b| ==> s[|h| + j] == b[j])
      && s[|h| + |b|] == x
      && s[|h| + |b| + 1..] == t
  {
    var s := h + b + [x] + t;
    assert s[..|h|] == h;
    assert s[|h| + |b| + 1..] == t;
  }

  lemma Assoc<T>(a: seq<T>, b: seq<T>, c: seq<T>)
    ensures a + (b + c) == (a + b) + c
  {
  }

  /** How a line is cut up: "- ", the display name, the unit segment (empty
      exactly when the unit is), the fixed text that follows it, and at the end
      either the description segment or, without a description, the direction
      segment. */
  lemma LineSegments(name: string, unit: string, lead: string, middle: string, direction: string, tag: string, desc: string)
    ensures (UnitPart(unit) == "") <==> (unit == "")
    ensures var line := "- " + name + (UnitPart(unit) + ((lead + middle) + direction) + DescPart(tag, desc));
      && StartsWith(line, "- " + name + UnitPart(unit) + lead)
      && (desc != "" ==> EndsWith(line, tag + desc))
      && (desc == "" ==> EndsWith(line, direction))
  {
    var p, u, d := "- " + name, UnitPart(unit), DescPart(tag, desc);
    var head := p + u + lead;
    var front := head + middle + direction;
    Assoc(p, u + ((lead + middle) + direction), d);
    Assoc(p, u, (lead + middle) + direction);
    Assoc(p + u, lead + middle, direction);
    Assoc(p + u, lead, middle);
    // the line is ((((p + u) + lead) + middle) + direction) + d
    Assoc(head, middle, direction);
    Assoc(head, middle + direction, d);
    StartsWithConcat(head, (middle + direction) + d);
    if desc != "" {
      EndsWithConcat(front, tag + desc);
    } else {
      assert front + d == front;
      EndsWithConcat(head + middle, direction);
    }
  }

  /** A caregiver feature line: "- ", the display name, " {unit}" only when
      the unit is non-empty, then ": value "; it ends with " Meaning: {desc}"
      when there is a description and with the direction segment otherwise. */
  lemma ParentLineSegments(f: FeatureRecord, show: real -> string)
    ensures var line, unit, desc := ParentLine(f, show), Or(f.unit, ""), Or(f.descParent, "");
      && (UnitPart(unit) == "" <==> unit == "")
      && StartsWith(line, "- " + ParentName(f) + UnitPart(unit) + ": value ")
      && (desc != "" ==> EndsWith(line, " Meaning: " + desc))
      && (desc == "" ==> EndsWith(line, ", direction " + Or(f.dir, "?") + "."))
  {
    LineSegments(ParentName(f), Or(f.unit, ""), ": value ", ParentValue(f, show),
                 ParentDirection(f), " Meaning: ", Or(f.descParent, ""));
  }

  /** A clinician feature line: "- ", the display name, " {unit}" only when
      the unit is non-empty, then " = "; it ends with " Note: {desc}" when
      there is a description and with the direction segment otherwise. */
  lemma DoctorLineSegments(f: FeatureRecord, show: real -> string)
    ensures var line, unit, desc := DoctorLine(f, show), Or(f.unit, ""), Or(f.descDoctor, "");
      && (UnitPart(unit) == "" <==> unit == "")
      && StartsWith(line, "- " + DoctorName(f) + UnitPart(unit) + " = ")
      && (desc != "" ==> EndsWith(line, " Note: " + desc))
      && (desc == "" ==> EndsWith(line, ", dir " + Or(f.dir, "?") + "."))
  {
    LineSegments(DoctorName(f), Or(f.unit, ""), " = ", DoctorValue(f, show),
                 DoctorDirection(f), " Note: ", Or(f.descDoctor, ""));
  }

  /** A feature entry with no keys renders every field as its default:
      name "feature", value "NA", ref "NA", direction "?", and no unit or
      description segment. */
  lemma EmptyParentFeatureRendered(show: real -> string)
    ensures var empty := FeatureRecord(None, None, None, None, None, None, None, None, None, None);
      ParentLine(empty, show) == "- " + "feature" + ((": value " + ("NA" + " (ref " + "NA" + ")")) + (", direction " + "?" + "."))
  {
    var empty := FeatureRecord(None, None, None, None, None, None, None, None, None, None);
    assert UnitPart(Or(empty.unit, "")) == "";
    assert DescPart(" Meaning: ", Or(empty.descParent, "")) == "";
  }

  /** The same for the clinician line, whose SHAP value also renders as "NA". */
  lemma EmptyDoctorFeatureRendered(show: real -> string)
    ensures var empty := FeatureRecord(None, None, None, None, None, None, None, None, None, None);
      DoctorLine(empty, show) == "- " + "feature" + ((" = " + ("NA" + " (ref " + "NA" + "), SHAP=" + "NA")) + (", dir " + "?" + "."))
  {
    var empty := FeatureRecord(None, None, None, None, None, None, None, None, None, None);
    assert UnitPart(Or(empty.unit, "")) == "";
    assert DescPart(" Note: ", Or(empty.descDoctor, "")) == "";
  }

  /** Evidence without label or model card renders the default label, model
      name and version. */
  lemma EmptyHeaderRendered()
    ensures ParentHeader(Evidence(None, Absent, None))[0] == "Model label: UNKNOWN"
    ensures DoctorHeader(Evidence(None, Absent, None))[0] == PredictionLead + "UNKNOWN"
    ensures DoctorHeader(Evidence(None, Absent, None))[1] == "Model: " + "UNKNOWN_MODEL" + " (" + "v0" + ")"
  {
  }

  /** Name fallbacks: the audience's display name, else the raw name, else "feature". */
  lemma NameFallbacks(f: FeatureRecord)
    ensures f.nameParent.None? && f.nameRaw.Some? ==> ParentName(f) == f.nameRaw.value
    ensures f.nameDoctor.None? && f.nameRaw.Some? ==> DoctorName(f) == f.nameRaw.value
    ensures f.nameParent.Some? ==> ParentName(f) == f.nameParent.value
    ensures f.nameDoctor.Some? ==> DoctorName(f) == f.nameDoctor.value
    ensures f.nameParent.None? && f.nameRaw.None? ==> ParentName(f) == "feature"
    ensures f.nameDoctor.None? && f.nameRaw.None? ==> DoctorName(f) == "feature"
  {
  }

  predicate NoBreak(s: string)
  {
    '\n' !in s
  }

  /** No field the caregiver prompt renders holds a line break. */
  ghost predicate ParentFieldsClean(ev: Evidence, show: real -> string)
  {
    && (forall x :: NoBreak(show(x)))
    && NoBreak(Or(ev.labelText, "UNKNOWN"))
    && forall f :: f in ParentShown(ev) ==>
         NoBreak(ParentName(f)) && NoBreak(Or(f.unit, "")) && NoBreak(FieldText(f.value, show))
         && NoBreak(Or(f.refText, "NA")) && NoBreak(Or(f.dir, "?")) && NoBreak(Or(f.descParent, ""))
  }

  lemma ParentLineHasNoBreak(f: FeatureRecord, show: real -> string)
    requires NoBreak(ParentName(f)) && NoBreak(Or(f.unit, "")) && NoBreak(FieldText(f.value, show))
    requires NoBreak(Or(f.refText, "NA")) && NoBreak(Or(f.dir, "?")) && NoBreak(Or(f.descParent, ""))
    ensures NoBreak(ParentLine(f, show))
  {
    assert NoBreak(UnitPart(Or(f.unit, "")));
    assert NoBreak(DescPart(" Meaning: ", Or(f.descParent, "")));
    assert NoBreak(ParentDirection(f));
  }

  /** No field the clinician prompt renders holds a line break. */
  ghost predicate DoctorFieldsClean(ev: Evidence, show: real -> string)
  {
    && (forall x :: NoBreak(show(x)))
    && NoBreak(Or(ev.labelText, "UNKNOWN"))
    && NoBreak(CardField(ev, "name", "UNKNOWN_MODEL")) && NoBreak(CardField(ev, "version", "v0"))
    && forall f :: f in FeatureList(ev.topFeatures) ==>
         NoBreak(DoctorName(f)) && NoBreak(Or(f.unit, "")) && NoBreak(FieldText(f.value, show))
         && NoBreak(Or(f.refText, "NA")) && NoBreak(FieldText(f.shap, show))
         && NoBreak(Or(f.dir, "?")) && NoBreak(Or(f.descDoctor, ""))
  }

  lemma DoctorLineHasNoBreak(f: FeatureRecord, show: real -> string)
    requires NoBreak(DoctorName(f)) && NoBreak(Or(f.unit, "")) && NoBreak(FieldText(f.value, show))
    requires NoBreak(Or(f.refText, "NA")) && NoBreak(FieldText(f.shap, show))
    requires NoBreak(Or(f.dir, "?")) && NoBreak(Or(f.descDoctor, ""))
    ensures NoBreak(DoctorLine(f, show))
  {
    assert NoBreak(UnitPart(Or(f.unit, "")));
    assert NoBreak(DescPart(" Note: ", Or(f.descDoctor, "")));
    assert NoBreak(DoctorDirection(f));
  }

  /** The fixed text of the header lines holds no line break. */
  lemma FixedTextHasNoBreak()
    ensures NoBreak("Model label: ") && NoBreak(KeyFactorsTitle)
    ensures NoBreak(PredictionLead) && NoBreak("Model: ") && NoBreak(" (") && NoBreak(")")
    ensures NoBreak(TopFactorsTitle)
  {
    assert NoBreak("Discrete prediction ") && NoBreak("(no probability provided): ");
  }

  lemma ParentHeaderHasNoBreak(ev: Evidence)
    requires NoBreak(Or(ev.labelText, "UNKNOWN"))
    ensures forall i :: 0 <= i < 2 ==> NoBreak(ParentHeader(ev)[i])
  {
    FixedTextHasNoBreak();
  }

  lemma DoctorHeaderHasNoBreak(ev: Evidence)
    requires NoBreak(Or(ev.labelText, "UNKNOWN"))
    requires NoBreak(CardField(ev, "name", "UNKNOWN_MODEL")) && NoBreak(CardField(ev, "version", "v0"))
    ensures forall i :: 0 <= i < 3 ==> NoBreak(DoctorHeader(ev)[i])
  {
    FixedTextHasNoBreak();
  }

  lemma ParentBodyHasNoBreak(ev: Evidence, show: real -> string)
    requires ParentFieldsClean(ev, show)
    ensures forall j :: 0 <= j < |ParentShown(ev)| ==> NoBreak(ParentBody(ParentShown(ev), show)[j])
  {
    var shown := ParentShown(ev);
    forall j | 0 <= j < |shown| ensures NoBreak(ParentBody(shown, show)[j]) {
      assert shown[j] in shown;
      ParentLineHasNoBreak(shown[j], show);
    }
  }

  lemma DoctorBodyHasNoBreak(ev: Evidence, show: real -> string)
    requires DoctorFieldsClean(ev, show)
    ensures var fs := FeatureList(ev.topFeatures);
      forall j :: 0 <= j < |fs| ==> NoBreak(DoctorBody(fs, show)[j])
  {
    var fs := FeatureList(ev.topFeatures);
    forall j | 0 <= j < |fs| ensures NoBreak(DoctorBody(fs, show)[j]) {
      assert fs[j] in fs;
      DoctorLineHasNoBreak(fs[j], show);
    }
  }

  /** When no field holds a line break, splitting the caregiver request on
      line breaks gives back its header, one line per shown feature and the
      blank separator, in that order. */
  lemma ParentPromptSplits(ev: Evidence, show: real -> string)
    requires ParentFieldsClean(ev, show)
    ensures var ls, m := ParentLines(ev, show), |ParentShown(ev)|;
      3 + m <= |SplitLines(JoinLines(ls))| && SplitLines(JoinLines(ls))[..3 + m] == ls[..3 + m]
  {
    var ls, shown := ParentLines(ev, show), ParentShown(ev);
    var fs, m := FeatureList(ev.topFeatures), |ParentShown(ev)|;
    ParentLinesShape(ev, show);
    ParentHeaderHasNoBreak(ev);
    ParentBodyHasNoBreak(ev, show);
    assert fs[..m] == shown;
    forall i | 0 <= i < 3 + m ensures NoBreak(ls[i]) {
      if i < 2 {
        assert ls[i] == ls[..2][i];
      } else if i < 2 + m {
        assert ls[i] == ls[2..2 + m][i - 2];
      }
    }
    SplitJoinPrefix(ls, 3 + m);
  }

  /** The same for the clinician request: its three header lines, every
      feature line and the blank separator are recovered. */
  lemma DoctorPromptSplits(ev: Evidence, show: real -> string)
    requires DoctorFieldsClean(ev, show)
    ensures var ls, n := DoctorLines(ev, show), |FeatureList(ev.topFeatures)|;
      4 + n <= |SplitLines(JoinLines(ls))| && SplitLines(JoinLines(ls))[..4 + n] == ls[..4 + n]
  {
    var ls, n := DoctorLines(ev, show), |FeatureList(ev.topFeatures)|;
    DoctorLinesShape(ev, show);
    DoctorHeaderHasNoBreak(ev);
    DoctorBodyHasNoBreak(ev, show);
    forall i | 0 <= i < 4 + n ensures NoBreak(ls[i]) {
      if i < 3 {
        assert ls[i] == ls[..3][i];
      } else if i < 3 + n {
        assert ls[i] == ls[3..3 + n][i - 3];
      }
    }
    SplitJoinPrefix(ls, 4 + n);
  }
}
