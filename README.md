# CTGenie core, modelled in Dafny

CTGenie classifies cardiotocography (CTG) recordings into the three NSP tiers
(Normal, Suspect, Pathological), explains a prediction with SHAP attributions,
and turns that explanation into two chat-completion requests: one for parents
and one for clinicians. This project models the deterministic logic around the
classifier and proves the properties that logic promises:

- the evidence builder (`llm_explainer/adapter.py`): ranking by |SHAP|, the
  name/unit/reference merging, the direction arrow and the length check;
- the two prompt builders (`llm_explainer/prompts.py`), line by line;
- the evidence validator, the configuration read and the ordering of the
  provider calls and message lists of `generate_explanations`
  (`llm_explainer/explain_llm.py`), with the provider, the retriever and the
  environment passed in as parameters;
- the backend rule logic (`ctgenie/backend/main.py`): the rule-based fallback
  classifier and its mock probabilities, the recommendation tables, guideline
  selection, the intervention-algorithm map, the first-match patient lookup,
  the cosine top-k retriever and the shape of the multi-case summary;
- the bookkeeping of the model wrapper class `CTGenieModel`
  (`ctgenie/backend/model_service.py`): feature alignment, missing-feature
  validation, the `predict` guard, top-k SHAP extraction and `get_model_info`.

One module per file:

| file | module | what it holds |
|---|---|---|
| wrappers.dfy | Wrappers | `Option` and `Result` (Python's `None` and raised exceptions) |
| pytext.dfy | PyText | Python slice clamping, `"\n".join`/`split`, `strip`, ASCII `lower`, `str(int)` |
| ranking.dfy | Ranking | one stable descending sort on (key, position) records, shared by the three rankings of the core |
| evidence.dfy | Evidence | the evidence record and its feature entries; an absent dict key is `None` |
| adapter.dfy | Adapter | `_arrow_from_value`, `build_evidence_from_arrays` |
| prompts.dfy | Prompts | the system prompts, `build_parent_user`, `build_doctor_user` |
| explain.dfy | Explain | `_validate_evidence`, `_load_env`, `generate_explanations` |
| similarity.dfy | Similarity | sorted query keys, aligned vectors, the cosine ranking key, Cauchy-Schwarz |
| backend.dfy | Backend | the rule logic of `main.py` |
| model_service.dfy | ModelService | class `CTGenieModel` |

The similarity of two CTG vectors is ranked by the signed square of their
cosine, `dot * |dot| / (|q|^2 * |c|^2)` (0 when either norm is 0), which avoids
the square root: it is strictly increasing in the cosine, so it sorts the
corpus exactly as the cosine does (`Similarity.KeyIsSignedCosine`,
`Similarity.SignedSquareOrder`), and it lies in [-1, 1] (`Similarity.KeyBounds`).

## Model

| member | source | states |
|---|---|---|
| PyText.SplitJoinLines | llm_explainer/prompts.py:52 | splitting a `"\n".join` of break-free lines on "\n" gives the lines back |
| PyText.SplitJoinPrefix | llm_explainer/prompts.py:83 | the first k pieces of a joined text are its first k lines when those hold no break |
| PyText.SplitNoBreak | llm_explainer/prompts.py:52 | a text without a break splits into itself alone |
| PyText.SplitAfterLine | llm_explainer/prompts.py:52 | a break-free first line splits off as the first piece |
| PyText.TrimLeft | llm_explainer/explain_llm.py:32 | removes exactly the leading white space: a suffix of the input, not starting with white space, everything cut was white space |
| PyText.TrimRight | llm_explainer/explain_llm.py:32 | the same at the end of the text |
| PyText.StripEmptyIffBlank | llm_explainer/explain_llm.py:32-33 | `s.strip()` is empty exactly when every character of `s` is white space |
| PyText.Lower | ctgenie/backend/main.py:385 | same length, each character lower-cased |
| PyText.NatToString | llm_explainer/explain_llm.py:58 | `str(i)` of an index: at least one character, all decimal digits |
| PyText.ParseNatToString | llm_explainer/explain_llm.py:58 | the rendered index reads back as the same number |
| Ranking.Abs | llm_explainer/adapter.py:60 | the magnitude is non-negative and equals x or -x |
| Ranking.Insert | ctgenie/backend/main.py:528 | inserting adds exactly one record (multiset) |
| Ranking.SortDesc | ctgenie/backend/main.py:528 | the sort is a permutation of its input (multiset and length) |
| Ranking.InsertOrdered | ctgenie/backend/main.py:528 | insertion of a record with the smallest position keeps the stable descending order |
| Ranking.SortDescOrdered | ctgenie/backend/main.py:528 | sorting records with increasing positions yields keys non-increasing, ties in position order |
| Ranking.SortedEntry | ctgenie/backend/main.py:528 | every sorted record carries a key at its own position |
| Ranking.RankDescSpec | llm_explainer/adapter.py:60 | the ranking lists every position exactly once, keys non-increasing, equal keys in position order |
| Ranking.RankDescPrefixLargest | llm_explainer/adapter.py:60 | every position in a prefix of the ranking has a key at least that of every position left out |
| Adapter.AsFloat | llm_explainer/adapter.py:18-21 | `float(value)` succeeds exactly on numbers and returns that number |
| Adapter.ArrowFromValue | llm_explainer/adapter.py:17-28 | "?" for a non-number or a missing bound; up iff v > high; down iff not v > high and v < low; "?" inside [low, high] |
| Adapter.TopIndices | llm_explainer/adapter.py:60 | `argsort(-abs)[:k]` keeps SliceBound(k, n) positions |
| Adapter.TopIndicesInRange | llm_explainer/adapter.py:60 | every kept position is a position of the input |
| Adapter.BuildEvidenceFromArrays | llm_explainer/adapter.py:37-113 | fails with the length error iff the three arrays differ in length; otherwise the label, the ranked annotated features and the model card key present iff the card is non-empty |
| Adapter.SelectTopCount | llm_explainer/adapter.py:60 | for k >= 0 exactly min(k, n) features are kept |
| Adapter.SelectTopSameIndex | llm_explainer/adapter.py:62-108 | each kept entry's raw name, value and attribution come from one source position, and the entry is its annotation |
| Adapter.SelectTopOrdered | llm_explainer/adapter.py:60 | kept entries come in non-increasing order of absolute attribution |
| Adapter.SelectTopLargest | llm_explainer/adapter.py:60 | no position left out has a larger absolute attribution than a kept one |
| Adapter.SelectTopAllWhenLarge | llm_explainer/adapter.py:60 | with k >= n every position is kept |
| Adapter.AnnotateNames | llm_explainer/adapter.py:67-84 | names: glossary entry, then the name table, then the raw name; unit and descriptions from the glossary entry when it has the key, "" otherwise (no entry, or an entry without the key) |
| Adapter.AnnotateReference | llm_explainer/adapter.py:73-95 | reference text "—", overridden by the glossary, overridden by the range table; bounds only from the range table, so no range entry means dir "?" |
| Prompts.ParentBodySnoc | llm_explainer/prompts.py:44 | each loop step appends exactly the next feature's line |
| Prompts.DoctorBodySnoc | llm_explainer/prompts.py:73-75 | the same for the clinician loop |
| Prompts.ParentLineAssembled | llm_explainer/prompts.py:36-44 | the line the builder concatenates from its looked-up parts is the line of the specification |
| Prompts.DoctorLineAssembled | llm_explainer/prompts.py:64-75 | the same for the clinician line, with the SHAP segment |
| Prompts.BuildParentUser | llm_explainer/prompts.py:31-52 | the caregiver request is the join on "\n" of its reference line list |
| Prompts.BuildDoctorUser | llm_explainer/prompts.py:54-83 | the clinician request is the join on "\n" of its reference line list |
| Prompts.ParentLinesShape | llm_explainer/prompts.py:33-52 | 2 header lines, the lines of the first min(5, n) features, one empty line, the 5 instruction lines |
| Prompts.DoctorLinesShape | llm_explainer/prompts.py:56-83 | 3 header lines, the lines of all n features, one empty line, the 5 instruction lines |
| Prompts.Layout | llm_explainer/prompts.py:52 | where header, body, blank line and instructions sit in the joined line list |
| Prompts.LineSegments | llm_explainer/prompts.py:42-44 | the unit segment is empty iff the unit is; the line is "- " + name + unit segment + value and direction + description segment |
| Prompts.ParentLineSegments | llm_explainer/prompts.py:42-44 | a caregiver line shows " {unit}" iff the unit is non-empty and " Meaning: {desc}" iff the description is non-empty |
| Prompts.DoctorLineSegments | llm_explainer/prompts.py:71-75 | a clinician line shows " {unit}" iff the unit is non-empty and " Note: {desc}" iff the description is non-empty |
| Prompts.EmptyParentFeatureRendered | llm_explainer/prompts.py:36-44 | a feature with no keys renders name "feature", value "NA", ref "NA", direction "?" |
| Prompts.EmptyDoctorFeatureRendered | llm_explainer/prompts.py:64-75 | the same for the clinician line, whose SHAP also renders "NA" |
| Prompts.EmptyHeaderRendered | llm_explainer/prompts.py:33-61 | label "UNKNOWN", model "UNKNOWN_MODEL", version "v0" when absent |
| Prompts.NameFallbacks | llm_explainer/prompts.py:36-64 | the audience's name, else the raw name, else "feature" |
| Prompts.ParentLineHasNoBreak | llm_explainer/prompts.py:44 | a caregiver line built from break-free fields has no break |
| Prompts.DoctorLineHasNoBreak | llm_explainer/prompts.py:73-75 | the same for a clinician line |
| Prompts.FixedTextHasNoBreak | llm_explainer/prompts.py:33-62 | the fixed header text has no break |
| Prompts.ParentHeaderHasNoBreak | llm_explainer/prompts.py:33-34 | the caregiver header lines have no break when the label has none |
| Prompts.DoctorHeaderHasNoBreak | llm_explainer/prompts.py:60-62 | the clinician header lines have no break when the label and model card fields have none |
| Prompts.ParentBodyHasNoBreak | llm_explainer/prompts.py:35-44 | no caregiver feature line has a break when the fields have none |
| Prompts.DoctorBodyHasNoBreak | llm_explainer/prompts.py:63-75 | no clinician feature line has a break when the fields have none |
| Prompts.ParentPromptSplits | llm_explainer/prompts.py:52 | splitting the caregiver request on "\n" gives back its header, feature lines and blank line |
| Prompts.DoctorPromptSplits | llm_explainer/prompts.py:83 | splitting the clinician request on "\n" gives back its header, feature lines and blank line |
| Explain.MessageDistinct | llm_explainer/explain_llm.py:49-63 | distinct failures, including bad entries at distinct indices or with distinct missing keys, raise distinct ValueError texts |
| Explain.IndexedMessageInjective | llm_explainer/explain_llm.py:57-63 | the index and the text after it can be read back from a bad entry's message |
| Explain.FirstBad | llm_explainer/explain_llm.py:56-64 | the first entry at or after a position that fails a check, every entry before it passing; None iff all pass |
| Explain.ValidateEvidence | llm_explainer/explain_llm.py:49-64 | the loop reports exactly the first failing check: label, top_features, non-empty list, then per entry name, value, shap, dir |
| Explain.AcceptedIff | llm_explainer/explain_llm.py:49-64 | evidence passes iff it has a label and a non-empty feature list whose every entry has a name key, value, shap and dir |
| Explain.ReportsFirstFailure | llm_explainer/explain_llm.py:56-64 | a feature failure names the first failing entry and its first missing key |
| Explain.DirContentIgnored | llm_explainer/explain_llm.py:63-64 | changing the content of a present dir never changes the outcome |
| Explain.FirstBadRespects | llm_explainer/explain_llm.py:56-64 | the search depends only on each entry's first defect |
| Explain.NameCheck | llm_explainer/explain_llm.py:57-58 | an entry fails the name check iff all three name keys are absent |
| Explain.AdapterOutputValidates | llm_explainer/explain_llm.py:56-64 | every feature the adapter builds passes the per-entry checks |
| Explain.StripDefaults | llm_explainer/explain_llm.py:32-35 | the defaults "" and "gpt-4o-mini" are unchanged by strip |
| Explain.LoadEnvSpec | llm_explainer/explain_llm.py:30-37 | fails with the missing-key message iff the key is unset or blank; else the stripped key, the stripped model variable (gpt-4o-mini when unset), and the stripped base URL, None iff it is unset or blank |
| Explain.StripClean | llm_explainer/explain_llm.py:32 | text with no white space at either end is unchanged by strip |
| Explain.DoctorStage | llm_explainer/explain_llm.py:103-106 | the clinician stage records both calls in order; its errors are provider errors |
| Explain.AppendContext | llm_explainer/explain_llm.py:93-101 | the retrieval block appends exactly the retrieval messages to the list |
| Explain.GenerateExplanations | llm_explainer/explain_llm.py:66-106 | the run, with its outcome and the provider calls in order, is the reference run of the rendered prompts |
| Explain.ConfigCheckedFirst | llm_explainer/explain_llm.py:75-76 | a failed configuration read is reported before validation and before any call |
| Explain.ValidationBeforeCalls | llm_explainer/explain_llm.py:76 | invalid evidence is reported before any call |
| Explain.ParentRequestShape | llm_explainer/explain_llm.py:79-84 | the first call carries exactly [system parent prompt, user parent request], 700 tokens, temperature 0.2 |
| Explain.DoctorMessagesShape | llm_explainer/explain_llm.py:88-103 | the clinician list starts with the clinician system prompt, ends with the user request, with at most one system message between |
| Explain.RagMessagesSpec | llm_explainer/explain_llm.py:93-101 | at most one message; none unless the directory is set, the retriever present and the directory exists; none for empty passages |
| Explain.ContextAdded | llm_explainer/explain_llm.py:96-98 | non-empty passages add their formatted text as a system message |
| Explain.RetrievalFailureFailsOpen | llm_explainer/explain_llm.py:99-101 | a retrieval failure adds the "[RAG unavailable: …] Proceed with evidence only." note and the clinician call is still made |
| Explain.SuccessfulRun | llm_explainer/explain_llm.py:84-106 | a successful run has exactly the keys parent_text and doctor_text and made two calls, with 700 and 900 tokens at temperature 0.2 |
| Explain.ParentFailureStops | llm_explainer/explain_llm.py:84 | a provider failure on the caregiver call ends the run after that one call |
| Similarity.LexAsymmetric | ctgenie/backend/main.py:508 | string `<` is asymmetric |
| Similarity.LexTotal | ctgenie/backend/main.py:508 | string `<` is total on distinct strings |
| Similarity.LexTransitive | ctgenie/backend/main.py:508 | string `<` is transitive |
| Similarity.LeastExists | ctgenie/backend/main.py:508 | a non-empty key set has a least key |
| Similarity.Least | ctgenie/backend/main.py:508 | the least key is in the set and below every other key |
| Similarity.SortedKeys | ctgenie/backend/main.py:508 | `sorted(keys)`: strictly increasing, holding every key exactly once |
| Similarity.NormSq | ctgenie/backend/main.py:517-518 | the squared norm is non-negative |
| Similarity.NormSqIsDot | ctgenie/backend/main.py:517-518 | the squared norm is the vector's dot product with itself |
| Similarity.CombineNormSq | ctgenie/backend/main.py:516-521 | its squared norm expands as x^2 |b|^2 + y^2 |a|^2 - 2xy (a . b) |
| Similarity.CauchySchwarz | ctgenie/backend/main.py:516-521 | dot^2 <= |a|^2 |b|^2 |
| Similarity.KeyBounds | ctgenie/backend/main.py:520-523 | the ranking key lies in [-1, 1] and is 0 when either norm is 0 |
| Similarity.NonZeroKeyBounds | ctgenie/backend/main.py:520-521 | with both norms positive the key lies in [-1, 1] |
| Similarity.RatioBounds | ctgenie/backend/main.py:521 | with d^2 <= a b the key ratio lies in [-1, 1] |
| Similarity.KeyValue | ctgenie/backend/main.py:520-523 | the key is the signed square of the dot over both squared norms, or 0 |
| Similarity.DotSymmetric | ctgenie/backend/main.py:516 | the dot product is symmetric |
| Similarity.KeySymmetric | ctgenie/backend/main.py:516-523 | the similarity does not depend on which vector is the query |
| Similarity.SignedSquareOrder | ctgenie/backend/main.py:528 | x|x| keeps order and ties, so ranking by it ranks by the cosine |
| Similarity.SignedSquareLess | ctgenie/backend/main.py:528 | x < y iff x|x| < y|y| |
| Similarity.KeyIsSignedCosine | ctgenie/backend/main.py:516-521 | for the positive product of the norms, the key is the signed square of dot / (|q| |c|) |
| Similarity.SelfKey | ctgenie/backend/main.py:516-521 | a non-zero query matched against itself scores 1, and no case of the same length scores more |
| Similarity.CaseOnlyKeysIgnored | ctgenie/backend/main.py:513 | a case key outside the query's keys does not change the case vector |
| Similarity.MissingCountsAsZero | ctgenie/backend/main.py:513 | a key the case lacks counts as 0 |
| Backend.FallbackVerdict | ctgenie/backend/main.py:233-247 | the fallback tier is one of the three labels |
| Backend.FallbackTiers | ctgenie/backend/main.py:233-247 | tier 0 with 0.92 iff ASTV > 40, AC > 0 and DP = 0; else tier 2 with 0.85 iff ASTV < 30 or DP > 2; else tier 1 with 0.68; defaults ASTV 50, AC 2, DP 0 |
| Backend.FallbackRulesDisjoint | ctgenie/backend/main.py:239-244 | the Normal rule excludes the Pathological rule |
| Backend.FallbackExamples | ctgenie/backend/main.py:233-247 | the smoke-test request gives Normal 0.92; an empty request Normal; ASTV 25 Pathological 0.85; ASTV 35 Suspect 0.68 |
| Backend.SplitProbabilities | ctgenie/backend/main.py:251-257 | three probabilities, the predicted class holding the confidence, each other (1 - confidence) / 2, summing to 1 |
| Backend.MockShap | ctgenie/backend/main.py:260-265 | attributions for exactly ASTV, LB, AC and DP, with the sign of each against its reference point |
| Backend.FallbackPrediction | ctgenie/backend/main.py:230-293 | the verdict of the rules, the label with " (Rule-based fallback)", the probability split, the mock attributions, the top 3 similar cases, the recommendations and guidelines of the tier |
| Backend.GenerateRecommendations | ctgenie/backend/main.py:553-589 | the appended list is the recommendation table of the tier, or the index error outside the label list |
| Backend.RecommendationTiers | ctgenie/backend/main.py:560-587 | tier 0: the 3 routine items; tier 1: 5 items plus the hypertension note iff Hypertension is a risk factor; tier 2: 6 items, then the variability note iff ASTV < 30, then the deceleration note iff DP > 0 |
| Backend.RecommendationsOutOfRange | ctgenie/backend/main.py:557-558 | an error iff the prediction is not an index of the three labels (Python accepts -3..2) |
| Backend.WithIds | ctgenie/backend/main.py:600 | filtering never lengthens the table |
| Backend.WithIdsContents | ctgenie/backend/main.py:600-605 | exactly the entries with a wanted id are kept, each as often as in the table |
| Backend.WithIdsAppend | ctgenie/backend/main.py:600-605 | filtering keeps table order: it distributes over concatenation |
| Backend.RelevantGuidelinesSpec | ctgenie/backend/main.py:592-607 | nothing without a document; else the CTG-005 entries in table order, then for prediction 2 only the CTG-002/CTG-004 entries in table order |
| Backend.AlgorithmForSpec | ctgenie/backend/main.py:378-385 | after lower-casing, category_2 and indeterminate give INT-001, category_3 and abnormal give INT-002, anything else None |
| Backend.FirstAlgorithm | ctgenie/backend/main.py:389 | the first algorithm with the id; None iff none has it |
| Backend.InterventionAlgorithm | ctgenie/backend/main.py:372-394 | 503 iff no document; 400 iff the category is not in the map; 404 iff no algorithm of the document has the mapped id; otherwise the first algorithm with that id |
| Backend.FindPatientByCtg | ctgenie/backend/main.py:399-421 | None iff no case lies within 1.0 on LB and ASTV and 0.01 on AC; otherwise the first such case |
| Backend.Similarities | ctgenie/backend/main.py:510-525 | one ranking key per corpus case |
| Backend.EssayPlanSpec | ctgenie/backend/main.py:436-496 | a Normal label picks the reassuring paragraph, Suspect the equivocal one, anything else the non-reassuring one; the risk factors are mentioned iff the list is non-empty and not headed by "None"; a complications section iff either complication list is non-empty |
| Backend.ClinicalSummary | ctgenie/backend/main.py:544 | a prefix of the narrative, then "..."; the whole narrative when it has at most 200 characters, and exactly its first 200 otherwise |
| Backend.Retrieved | ctgenie/backend/main.py:528-531 | `similarities[:top_k]` keeps SliceBound(top_k, n) cases |
| Backend.SimilarCases | ctgenie/backend/main.py:502-550 | one presented case per retrieved position |
| Backend.ScoreCorpus | ctgenie/backend/main.py:510-525 | the loop tags each case's score with its position |
| Backend.FindSimilarCases | ctgenie/backend/main.py:502-550 | the result is the specification's list of presented cases |
| Backend.PresentTop | ctgenie/backend/main.py:531-548 | one presented entry per sorted record, in order |
| Backend.SortedTop | ctgenie/backend/main.py:528-531 | the j-th retrieved case is presented from the j-th record of the sorted scores, with its score |
| Backend.SimilarCasesCount | ctgenie/backend/main.py:504-531 | [] on an empty corpus; min(top_k, n) cases for top_k >= 0 |
| Backend.RetrievedRanking | ctgenie/backend/main.py:528-531 | distinct corpus positions, non-increasing similarity, equal scores in corpus order |
| Backend.SimilarCasesEntries | ctgenie/backend/main.py:531-548 | each entry presents the corpus case at its position with that case's key, in [-1, 1]; a full entry carries the corpus record unchanged and its essay plan; a compact one its id, label, clipped narrative, delivery mode, age and gestational age |
| Backend.FirstWithCount | ctgenie/backend/main.py:667 | the first element whose count is the given one |
| Backend.MaxCount | ctgenie/backend/main.py:667 | the largest count among the elements |
| Backend.MostCommonSpec | ctgenie/backend/main.py:666-667 | the predominant label has the largest count, and is the first such label |
| Backend.NspLabels | ctgenie/backend/main.py:624 | one label per case |
| Backend.CaseStudiesSummary | ctgenie/backend/main.py:620-621 | the no-cases text iff there are no cases |
| Backend.CaseStudiesSummarySpec | ctgenie/backend/main.py:624-731 | the case count, predominant label and its count, a distribution iff two labels differ, the decelerations line iff the DL or DS sum (so its mean) is positive, the risk-factor section iff some case lists risk factors not starting with "None", the intervention section iff some case lists an intervention, the insights of the predominant label |
| Backend.PositiveMean | ctgenie/backend/main.py:686 | a mean over n > 0 cases is positive iff its sum is |
| Backend.MixedLabels | ctgenie/backend/main.py:678 | some label differs from the first iff two labels differ |
| ModelService.Put | ctgenie/backend/model_service.py:211 | `d[k] = v`: a new key goes last, a present key keeps its place with the new value; keys stay distinct |
| ModelService.TopShap | ctgenie/backend/model_service.py:201-204 | the kept positions are positions of the attributions; their number is n minus the start of `[-top_k:]` |
| ModelService.ExplanationOf | ctgenie/backend/model_service.py:207-211 | a dictionary with distinct keys and at most one entry per visited position |
| ModelService.Kept | ctgenie/backend/model_service.py:209 | the visited positions that name a feature |
| ModelService.ExplanationKeys | ctgenie/backend/model_service.py:208-211 | the keys are exactly the names at the visited positions below the name count |
| ModelService.ExplanationValues | ctgenie/backend/model_service.py:208-211 | each value is the attribution at the last visited position of its name |
| ModelService.ExplanationDistinct | ctgenie/backend/model_service.py:208-211 | with distinct names and positions, the entries are exactly (name, attribution) of the kept positions, in visiting order |
| ModelService.TopShapSpec | ctgenie/backend/model_service.py:201-204 | min(top_k, n) distinct positions for top_k > 0, all n for top_k = 0, in non-increasing |shap|, none left out larger than one kept |
| ModelService.Missing | ctgenie/backend/model_service.py:225-228 | a name is listed iff it is a feature name absent from the input |
| ModelService.ValidatedInputAligned | ctgenie/backend/model_service.py:225-231 | an input that passes validation is aligned with its own values |
| ModelService.CTGenieModel.constructor | ctgenie/backend/model_service.py:18-25 | nothing loaded, no feature names, empty metadata, the three class names |
| ModelService.CTGenieModel.PreprocessFeatures | ctgenie/backend/model_service.py:120-127 | one value per feature name, in order, 0.0 for a missing feature |
| ModelService.CTGenieModel.Predict | ctgenie/backend/model_service.py:141-184 | fails with "Model not loaded" iff there is no model; else the class and probabilities of the aligned row, and attributions only with an explainer that succeeds |
| ModelService.CTGenieModel.GetShapExplanation | ctgenie/backend/model_service.py:186-213 | {} without attributions; else the dictionary of the top positions, no larger than them |
| ModelService.CTGenieModel.ValidateFeatures | ctgenie/backend/model_service.py:215-231 | exactly the absent feature names in order; valid iff every name is present iff none is missing |
| ModelService.CTGenieModel.GetModelInfo | ctgenie/backend/model_service.py:233-243 | loaded iff a model, SHAP available iff an explainer, the feature count, class names, metadata values or "Unknown", and the test accuracy iff the metadata has it, with its value |
| ModelService.FreshModelInfo | ctgenie/backend/model_service.py:233-243 | a fresh wrapper reports not loaded, no SHAP, 0 features, "Unknown" type and version, no accuracy |

## Left out

- Web plumbing in `ctgenie/backend/main.py`: the FastAPI app, CORS, the Pydantic request and response schemas, the routes themselves (`/predict`, `/guidelines/{category}`), and the startup loading of the case corpus and the guideline document. The corpus and the guideline document are parameters instead.
- The hard-coded branch of the `/similar-cases` endpoint (`ctgenie/backend/main.py:302-328`): it is a fixed lookup table around `find_patient_by_ctg`.
- `round(…, 3)` on scores and probabilities, and floating-point rounding in general: all arithmetic is on exact reals.
- Backend.Similarities: the `similarity_score` field carries the signed square of the cosine, not the cosine. Dafny has no square root. The key orders the corpus exactly as the cosine does, but its value is not the cosine.
- The rendered text of `generate_case_study_essay` and of the non-empty `generate_case_studies_summary`. Only their plans are modelled: which paragraph, which sections, which label, which counts. That text depends on `:.1f` formatting, `np.mean` and the ordering of `Counter.items()`.
- Backend.CaseStudiesSummarySpec: the mean values themselves are not stated, since they appear only in the rendered text. The decelerations line is stated through the sums of DL and DS, which is equivalent because a mean over at least one case is positive iff its sum is (`Backend.PositiveMean`).
- Model loading (xgboost, joblib, metadata files), the scaler transform and the SHAP TreeExplainer, with its dispatch on the shape of `raw_shap` (`ctgenie/backend/model_service.py:27-107, 133-137, 164-179`). The classifier and the explainer are parameters of `Predict`.
- The `get_model` singleton (`ctgenie/backend/model_service.py:246-255`): module-level state with no logic beyond construction.
- The warnings `print`ed by the model wrapper.
- `_chat`, the OpenAI client, `load_dotenv`, `os.getenv`, `os.path.isdir` and the retriever. They are fields of the `Host` parameter and an environment snapshot map, so their behaviour is whatever the caller supplies.
- The exception text that `str(e)` gives for a retrieval failure is taken from the host.
- Python's `str(float)` rendering of numbers in the prompts is a host function `show`.
- The instruction lines of both prompts are not proved free of line breaks, so the split property covers the header, feature lines and blank line only.
- `llm_explainer/glossary.py` (static data) and `ctgenie/backend/test_api.py` (an HTTP client). One request body from the latter appears as an example in `Backend.FallbackExamples`.
- `_ensure_seq` and the numpy/list conversions of the adapter: inputs are already sequences.
- PyText.Lower: lower-cases ASCII letters only. Python's `str.lower` also maps non-ASCII letters. The algorithm map's keys are ASCII, but a non-ASCII category that Python would lower-case onto one of them is not modelled.
- Ranking.SortDesc: `np.argsort` uses an unstable sort by default. The model sorts stably. The adapter and model-service properties promise only non-increasing magnitude and largest-kept, which hold for any tie order. The backend's `list.sort` is stable, as modelled.
- A JSON key that is present with value `null` and a key that is absent are both `None` in the model. Where the source reads such a key with `.get(key, default)`, Python returns `None` for a present null, but the model takes the default.
- Explain.ValidateEvidence: `_validate_evidence` (`llm_explainer/explain_llm.py:48-63`) tests keys with `in`, so Python accepts a present `null` label, a feature whose only name key is a present `null`, and a present `null` dir. The model has no separate presence flag for `label`, the three name keys or `dir`, so it reports MissingLabel, the name defect or MissingDir on those inputs. Value and shap do keep a present `null` apart (`Scalar.NoneValue`).
- Explain.AcceptedIff: its "has a label", "has a name" and "has a dir" conditions differ from the source on the same present-`null` inputs, for the same reason.
- Guideline document keys other than `guidelines`, `intervention_algorithms` and `source` are not modelled, except that their presence makes the document truthy (`otherKeys`): a document holding only such keys counts as loaded, so the algorithm lookup answers 400 or 404 rather than 503, as `if not GUIDELINES` does.
