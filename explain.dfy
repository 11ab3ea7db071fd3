/** The explanation driver: the evidence validator, the configuration read
    from the environment, and the order in which `generate_explanations`
    checks, renders and calls the completion provider. The provider, the
    retriever, the directory test and number rendering are parameters
    (`Host`), so the model is about the message lists the driver assembles
    and the requests it issues. */
module Explain {
  import opened Wrappers
  import opened Evidence
  import opened PyText
  import Prompts
  import Adapter

  // ---- _validate_evidence ----

  /** The key a feature entry lacks; `NameKey` means none of the three name keys. */
  datatype Field = NameKey | ValueKey | ShapKey | DirKey

  datatype EvidenceError =
    | MissingLabel
    | MissingTopFeatures
    | EmptyOrNotList
    | BadFeature(index: nat, field: Field)

  /** The ValueError message for each failure. */
  function Message(e: EvidenceError): string
  {
    match e
    case MissingLabel => "Evidence missing 'label'."
    case MissingTopFeatures => "Evidence missing 'top_features'."
    case EmptyOrNotList => "'top_features' must be a non-empty list."
    case BadFeature(i, field) => "top_features[" + NatToString(i) + "]" + FieldText(field)
  }

  /** What the message of a bad feature entry says after its index. */
  function FieldText(field: Field): string
  {
    match field
    case NameKey => " must include at least one of " + "name_raw/name_parent/name_doctor."
    case ValueKey => " missing 'value'."
    case ShapKey => " missing 'shap'."
    case DirKey => " missing 'dir' ('↑' or '↓' or '?')."
  }

  /** The message identifies the failure: distinct failures, including bad
      entries at distinct indices, are reported with distinct texts. */
  lemma MessageDistinct(e1: EvidenceError, e2: EvidenceError)
    requires e1 != e2
    ensures Message(e1) != Message(e2)
  {
    if e1.BadFeature? && e2.BadFeature? {
      if Message(e1) == Message(e2) {
        IndexedMessageInjective(e1.index, e2.index, FieldText(e1.field), FieldText(e2.field));
        FieldTextDistinct(e1.field, e2.field);
      }
    } else if e1.BadFeature? {
      assert Message(e1)[0] == 't';
    } else if e2.BadFeature? {
      assert Message(e2)[0] == 't';
    }
  }

  lemma FieldTextDistinct(f: Field, g: Field)
    ensures FieldText(f) == FieldText(g) ==> f == g
  {
    if f != g {
      if f == NameKey || g == NameKey {
        assert FieldText(f)[2] != FieldText(g)[2];
      } else {
        assert FieldText(f)[10] != FieldText(g)[10];
      }
    }
  }

  /** In p + x + "]" + a with x all digits, the first "]" after p is the one
      right after x. */
  lemma BracketAfterIndex(p: string, x: string, a: string)
    requires forall k :: 0 <= k < |x| ==> '0' <= x[k] <= '9'
    ensures (p + x + "]" + a)[|p| + |x|] == ']'
    ensures forall k :: |p| <= k < |p| + |x| ==> (p + x + "]" + a)[k] != ']'
  {
    var m := p + x + "]" + a;
    forall k | |p| <= k < |p| + |x| ensures m[k] != ']' {
      assert m[k] == x[k - |p|];
    }
  }

  /** The index of a bad entry's message is followed by "]", which is no
      digit, so the index and the text after it can be read back. */
  lemma IndexedMessageInjective(i: nat, j: nat, a: string, b: string)
    requires "top_features[" + NatToString(i) + "]" + a == "top_features[" + NatToString(j) + "]" + b
    ensures i == j && a == b
  {
    DigitsThenBracket("top_features[", NatToString(i), a, NatToString(j), b);
    ParseNatToString(i);
    ParseNatToString(j);
  }

  /** Two digit strings each closed by "]" after the same prefix are equal,
      and so are the texts after them. */
  lemma DigitsThenBracket(p: string, x: string, a: string, y: string, b: string)
    requires forall k :: 0 <= k < |x| ==> '0' <= x[k] <= '9'
    requires forall k :: 0 <= k < |y| ==> '0' <= y[k] <= '9'
    requires p + x + "]" + a == p + y + "]" + b
    ensures x == y && a == b
  {
    var m := p + x + "]" + a;
    BracketAfterIndex(p, x, a);
    BracketAfterIndex(p, y, b);
    assert |x| == |y|;
    assert x == m[|p|..|p| + |x|] == y;
    assert a == m[|p| + |x| + 1..] == b;
  }

  /** The first check a single feature entry fails, in the order the
      validator tries them; only key presence is inspected. */
  function FeatureDefect(f: FeatureRecord): Option<Field>
  {
    if f.nameRaw.None? && f.nameParent.None? && f.nameDoctor.None? then Some(NameKey)
    else if f.value.None? then Some(ValueKey)
    else if f.shap.None? then Some(ShapKey)
    else if f.dir.None? then Some(DirKey)
    else None
  }

  /** The first position at or after `from` whose entry fails a check. */
  function FirstBad(fs: seq<FeatureRecord>, from: nat): (r: Option<nat>)
    requires from <= |fs|
    ensures r.Some? ==> from <= r.value < |fs| && FeatureDefect(fs[r.value]).Some?
    ensures r.Some? ==> forall j :: from <= j < r.value ==> FeatureDefect(fs[j]).None?
    ensures r.None? ==> forall j :: from <= j < |fs| ==> FeatureDefect(fs[j]).None?
    decreases |fs| - from
  {
    if from == |fs| then None
    else if FeatureDefect(fs[from]).Some? then Some(from)
    else FirstBad(fs, from + 1)
  }

  /** Reference definition of the validator: the first failing check, if any. */
  function FirstDefect(ev: Evidence): Option<EvidenceError>
  {
    if ev.labelText.None? then Some(MissingLabel)
    else if ev.topFeatures.Absent? then Some(MissingTopFeatures)
    else if ev.topFeatures.NotAList? || |ev.topFeatures.items| == 0 then Some(EmptyOrNotList)
    else
      var fs := ev.topFeatures.items;
      match FirstBad(fs, 0)
      case Some(i) => Some(BadFeature(i, FeatureDefect(fs[i]).value))
      case None => None
  }

  /** `_validate_evidence`: the guards in source order, stopping at the first
      one that fails. */
  method ValidateEvidence(ev: Evidence) returns (err: Option<EvidenceError>)
    ensures err == FirstDefect(ev)
  {
    if ev.labelText.None? {
      return Some(MissingLabel);
    }
    if ev.topFeatures.Absent? {
      return Some(MissingTopFeatures);
    }
    if ev.topFeatures.NotAList? || |ev.topFeatures.items| == 0 {
      return Some(EmptyOrNotList);
    }
    var fs := ev.topFeatures.items;
    var i := 0;
    while i < |fs|
      invariant 0 <= i <= |fs|
      invariant FirstBad(fs, 0) == FirstBad(fs, i)
    {
      var f := fs[i];
      if f.nameRaw.None? && f.nameParent.None? && f.nameDoctor.None? {
        return Some(BadFeature(i, NameKey));
      }
      if f.value.None? {
        return Some(BadFeature(i, ValueKey));
      }
      if f.shap.None? {
        return Some(BadFeature(i, ShapKey));
      }
      if f.dir.None? {
        return Some(BadFeature(i, DirKey));
      }
      i := i + 1;
    }
    return None;
  }

  /** The evidence passes exactly when it has a label, a non-empty list of
      features, and every feature has a name key, a value, a SHAP value and a
      direction. */
  lemma {:induction false} AcceptedIff(ev: Evidence)
    ensures FirstDefect(ev).None? <==>
      && ev.labelText.Some?
      && ev.topFeatures.Features?
      && |ev.topFeatures.items| > 0
      && forall f :: f in ev.topFeatures.items ==>
           (f.nameRaw.Some? || f.nameParent.Some? || f.nameDoctor.Some?)
           && f.value.Some? && f.shap.Some? && f.dir.Some?
  {
    if ev.labelText.Some? && ev.topFeatures.Features? && |ev.topFeatures.items| > 0 {
      var fs := ev.topFeatures.items;
      var r := FirstBad(fs, 0);
      if r.Some? {
        assert fs[r.value] in fs;
      } else {
        forall f | f in fs
          ensures (f.nameRaw.Some? || f.nameParent.Some? || f.nameDoctor.Some?)
                  && f.value.Some? && f.shap.Some? && f.dir.Some?
        {
          var j :| 0 <= j < |fs| && fs[j] == f;
          assert FeatureDefect(fs[j]).None?;
        }
      }
    }
  }

  /** A reported feature failure names the first failing entry, the first
      check it fails, and every earlier entry passes all checks. */
  lemma ReportsFirstFailure(ev: Evidence)
    requires FirstDefect(ev).Some? && FirstDefect(ev).value.BadFeature?
    ensures var e := FirstDefect(ev).value;
      && ev.labelText.Some? && ev.topFeatures.Features?
      && e.index < |ev.topFeatures.items|
      && FeatureDefect(ev.topFeatures.items[e.index]) == Some(e.field)
      && forall j :: 0 <= j < e.index ==> FeatureDefect(ev.topFeatures.items[j]).None?
  {
  }

  /** A feature with any one of the three name keys passes the name check,
      and the direction's text is never inspected: replacing it by any other
      text leaves the outcome unchanged. */
  lemma DirContentIgnored(ev: Evidence, k: nat, d: string)
    requires ev.topFeatures.Features? && k < |ev.topFeatures.items|
    requires ev.topFeatures.items[k].dir.Some?
    ensures var fs := ev.topFeatures.items;
      FirstDefect(ev.(topFeatures := Features(fs[k := fs[k].(dir := Some(d))]))) == FirstDefect(ev)
  {
    var fs := ev.topFeatures.items;
    var gs := fs[k := fs[k].(dir := Some(d))];
    assert forall j :: 0 <= j < |fs| ==> FeatureDefect(gs[j]) == FeatureDefect(fs[j]);
    FirstBadRespects(fs, gs, 0);
  }

  /** `FirstBad` depends only on the defect of each entry. */
  lemma {:induction false} FirstBadRespects(fs: seq<FeatureRecord>, gs: seq<FeatureRecord>, from: nat)
    requires |fs| == |gs| && from <= |fs|
    requires forall j :: 0 <= j < |fs| ==> FeatureDefect(gs[j]) == FeatureDefect(fs[j])
    ensures FirstBad(gs, from) == FirstBad(fs, from)
    decreases |fs| - from
  {
    if from < |fs| {
      FirstBadRespects(fs, gs, from + 1);
    }
  }

  /** The name check: an entry fails it exactly when all three name keys are absent. */
  lemma NameCheck(f: FeatureRecord)
    ensures FeatureDefect(f) == Some(NameKey) <==> f.nameRaw.None? && f.nameParent.None? && f.nameDoctor.None?
  {
  }

  /** What `build_evidence_from_arrays` returns always has every key the
      validator asks for: it is accepted exactly when at least one feature
      was kept, and otherwise rejected as an empty list. */
  lemma AdapterOutputValidates(labelText: string, shap: seq<real>, names: seq<string>, values: seq<Scalar>,
                               t: Adapter.Tables, k: int, card: Option<map<string, string>>)
    requires |shap| == |names| == |values|
    ensures var fs := Adapter.SelectTop(shap, names, values, t, k);
      FirstDefect(Evidence(Some(labelText), Features(fs), card))
      == if |fs| == 0 then Some(EmptyOrNotList) else None
  {
    var fs := Adapter.SelectTop(shap, names, values, t, k);
    var ev := Evidence(Some(labelText), Features(fs), card);
    forall f | f in fs
      ensures (f.nameRaw.Some? || f.nameParent.Some? || f.nameDoctor.Some?)
              && f.value.Some? && f.shap.Some? && f.dir.Some?
    {
      var j :| 0 <= j < |fs| && fs[j] == f;
    }
    AcceptedIff(ev);
  }

  // ---- _load_env ----

  datatype Config = Config(apiKey: string, model: string, baseUrl: Option<string>)

  const MissingKeyMessage := "OPENAI_API_KEY is missing. Create a .env file with your key."

  const DefaultModel := "gpt-4o-mini"

  /** `os.getenv(name, default).strip()` over a snapshot of the environment.
      The defaults used here ("" and gpt-4o-mini) have no surrounding white
      space, so they are returned as they are (`StripDefaults`). */
  function StrippedEnv(env: map<string, string>, name: string, default: string): string
  {
    if name in env then Strip(env[name]) else default
  }

  lemma StripDefaults()
    ensures Strip("") == ""
    ensures Strip(DefaultModel) == DefaultModel
  {
    StripClean(DefaultModel);
  }

  /** `_load_env` after `.env` has been read into `env`. */
  function LoadEnv(env: map<string, string>): (r: Result<Config, string>)
  {
    var key := StrippedEnv(env, "OPENAI_API_KEY", "");
    if key == "" then Err(MissingKeyMessage)
    else
      var base := StrippedEnv(env, "OPENAI_BASE_URL", "");
      Ok(Config(key, StrippedEnv(env, "OPENAI_MODEL", DefaultModel), if base == "" then None else Some(base)))
  }

  /** The configuration fails exactly when the key is unset or all white
      space; otherwise the key is the stripped value, the model is the
      stripped variable or gpt-4o-mini when unset, and the base URL is the
      stripped variable, none when it is unset or all white space. */
  lemma LoadEnvSpec(env: map<string, string>)
    ensures LoadEnv(env).Err? <==>
      ("OPENAI_API_KEY" !in env || forall i :: 0 <= i < |env["OPENAI_API_KEY"]| ==> IsSpace(env["OPENAI_API_KEY"][i]))
    ensures LoadEnv(env).Err? ==> LoadEnv(env).error == MissingKeyMessage
    ensures LoadEnv(env).Ok? ==>
      && LoadEnv(env).value.apiKey == Strip(env["OPENAI_API_KEY"])
      && LoadEnv(env).value.apiKey != ""
      && ("OPENAI_MODEL" !in env ==> LoadEnv(env).value.model == DefaultModel)
      && ("OPENAI_MODEL" in env ==> LoadEnv(env).value.model == Strip(env["OPENAI_MODEL"]))
      && (LoadEnv(env).value.baseUrl.Some? ==> LoadEnv(env).value.baseUrl.value != "")
      && ("OPENAI_BASE_URL" !in env ==> LoadEnv(env).value.baseUrl.None?)
      && ("OPENAI_BASE_URL" in env ==>
            (LoadEnv(env).value.baseUrl.None? <==>
               forall i :: 0 <= i < |env["OPENAI_BASE_URL"]| ==> IsSpace(env["OPENAI_BASE_URL"][i]))
            && (LoadEnv(env).value.baseUrl.Some? ==>
                  LoadEnv(env).value.baseUrl.value == Strip(env["OPENAI_BASE_URL"])))
  {
    if "OPENAI_API_KEY" in env {
      StripEmptyIffBlank(env["OPENAI_API_KEY"]);
    }
    if "OPENAI_BASE_URL" in env {
      StripEmptyIffBlank(env["OPENAI_BASE_URL"]);
    }
  }

  /** Text with no white space at either end is left as it is by `strip`. */
  lemma StripClean(s: string)
    requires |s| > 0 && !IsSpace(s[0]) && !IsSpace(s[|s| - 1])
    ensures Strip(s) == s
  {
    assert TrimLeft(s) == s;
  }

  // ---- generate_explanations ----

  datatype Role = System | User

  datatype ChatMessage = ChatMessage(role: Role, content: string)

  /** One `_chat` call: the messages and the parameters handed to the provider. */
  datatype ChatRequest = ChatRequest(
    messages: seq<ChatMessage>,
    model: string,
    apiKey: string,
    baseUrl: Option<string>,
    temperature: real,
    maxTokens: nat)

  /** What the driver cannot see: the completion provider (an `Err` is the
      exception it raises), whether the retriever module imported, the
      directory test, the retriever and its formatter (an `Err` is the
      exception they raise), and how a number is printed. */
  datatype Host = Host(
    chat: ChatRequest -> Result<string, string>,
    retrieverAvailable: bool,
    isDir: string -> bool,
    retrieve: (string, Evidence, int) -> Result<seq<string>, string>,
    formatContexts: seq<string> -> Result<string, string>,
    show: real -> string)

  datatype ExplainError =
    | ConfigError(message: string)
    | InvalidEvidence(error: EvidenceError)
    | ProviderError(message: string)

  const Temperature: real := 0.2
  const ParentMaxTokens: nat := 700
  const DoctorMaxTokens: nat := 900

  /** `_chat`: the provider's reply with surrounding white space removed. */
  function Chat(host: Host, req: ChatRequest): Result<string, string>
  {
    match host.chat(req)
    case Ok(text) => Ok(Strip(text))
    case Err(e) => Err(e)
  }

  /** The four prompt texts a run sends: the two system prompts and the two
      rendered user prompts. The properties of a run below hold for any
      texts; `Rendered` gives the ones the driver uses. */
  datatype Texts = Texts(parentSystem: string, parentUser: string, doctorSystem: string, doctorUser: string)

  function Rendered(ev: Evidence, show: real -> string): Texts
  {
    Texts(Prompts.ParentSystem, JoinLines(Prompts.ParentLines(ev, show)),
          Prompts.DoctorSystem, JoinLines(Prompts.DoctorLines(ev, show)))
  }

  function ParentMessages(texts: Texts): seq<ChatMessage>
  {
    [ChatMessage(System, texts.parentSystem), ChatMessage(User, texts.parentUser)]
  }

  /** The guard in front of the retriever: a non-empty index directory, an
      imported retriever, and an existing directory. */
  predicate RagEnabled(host: Host, ragDir: Option<string>)
  {
    ragDir.Some? && ragDir.value != "" && host.retrieverAvailable && host.isDir(ragDir.value)
  }

  function RagNote(e: string): string
  {
    "[RAG unavailable: " + e + "] Proceed with evidence only."
  }

  /** The system messages the retrieval step inserts: none, the formatted
      passages, or the fail-open note. */
  function RagMessages(host: Host, ev: Evidence, ragDir: Option<string>, topK: int): seq<ChatMessage>
  {
    if !RagEnabled(host, ragDir) then []
    else
      match host.retrieve(ragDir.value, ev, topK)
      case Err(e) => [ChatMessage(System, RagNote(e))]
      case Ok(contexts) =>
        if |contexts| == 0 then []
        else
          match host.formatContexts(contexts)
          case Ok(text) => [ChatMessage(System, text)]
          case Err(e) => [ChatMessage(System, RagNote(e))]
  }

  function DoctorMessages(host: Host, ev: Evidence, ragDir: Option<string>, topK: int, texts: Texts): seq<ChatMessage>
  {
    [ChatMessage(System, texts.doctorSystem)] + RagMessages(host, ev, ragDir, topK) + [ChatMessage(User, texts.doctorUser)]
  }

  function Request(messages: seq<ChatMessage>, cfg: Config, maxTokens: nat): ChatRequest
  {
    ChatRequest(messages, cfg.model, cfg.apiKey, cfg.baseUrl, Temperature, maxTokens)
  }

  /** The outcome of a run together with the provider calls it made, in order. */
  datatype Run = Run(result: Result<map<string, string>, ExplainError>, requests: seq<ChatRequest>)

  /** Reference definition of `generate_explanations`, given the outcome of
      `_load_env` and the prompt texts. */
  function Explanations(loaded: Result<Config, string>, ev: Evidence, host: Host, ragDir: Option<string>, topK: int,
                        texts: Texts): Run
  {
    match loaded
    case Err(m) => Run(Err(ConfigError(m)), [])
    case Ok(cfg) =>
      match FirstDefect(ev)
      case Some(e) => Run(Err(InvalidEvidence(e)), [])
      case None =>
        var parentReq := Request(ParentMessages(texts), cfg, ParentMaxTokens);
        match Chat(host, parentReq)
        case Err(m) => Run(Err(ProviderError(m)), [parentReq])
        case Ok(parentText) =>
          DoctorStage(host, parentReq, parentText, Request(DoctorMessages(host, ev, ragDir, topK, texts), cfg, DoctorMaxTokens))
  }

  /** The clinician call, once the caregiver call has returned `parentText`. */
  function DoctorStage(host: Host, parentReq: ChatRequest, parentText: string, doctorReq: ChatRequest): (r: Run)
    ensures r.requests == [parentReq, doctorReq]
    ensures r.result.Err? ==> r.result.error.ProviderError?
  {
    match Chat(host, doctorReq)
    case Err(m) => Run(Err(ProviderError(m)), [parentReq, doctorReq])
    case Ok(doctorText) =>
      Run(Ok(map["parent_text" := parentText, "doctor_text" := doctorText]), [parentReq, doctorReq])
  }

  /** The retrieval block of `generate_explanations`: when the guard holds,
      append the formatted passages, or the fail-open note when retrieval or
      formatting raises; append nothing for no passages. */
  method AppendContext(msgs: seq<ChatMessage>, host: Host, ev: Evidence, ragDir: Option<string>, topK: int)
    returns (out: seq<ChatMessage>)
    ensures out == msgs + RagMessages(host, ev, ragDir, topK)
  {
    out := msgs;
    if ragDir.Some? && ragDir.value != "" && host.retrieverAvailable && host.isDir(ragDir.value) {
      var contexts := host.retrieve(ragDir.value, ev, topK);
      if contexts.Err? {
        out := out + [ChatMessage(System, RagNote(contexts.error))];
      } else if |contexts.value| > 0 {
        var ctxText := host.formatContexts(contexts.value);
        if ctxText.Ok? {
          out := out + [ChatMessage(System, ctxText.value)];
        } else {
          out := out + [ChatMessage(System, RagNote(ctxText.error))];
        }
      }
    }
  }

  /** `generate_explanations`: configuration, validation, the caregiver call,
      then the clinician message list built by appends and its call. */
  method GenerateExplanations(env: map<string, string>, ev: Evidence, host: Host, ragDir: Option<string>, topK: int)
    returns (result: Result<map<string, string>, ExplainError>, requests: seq<ChatRequest>)
    ensures Run(result, requests) == Explanations(LoadEnv(env), ev, host, ragDir, topK, Rendered(ev, host.show))
  {
    // Only the shape of the run matters here, not what these compute.
    hide Strip, LoadEnv, RagMessages, Prompts.ParentLines, Prompts.DoctorLines;
    requests := [];
    var loaded := LoadEnv(env);
    if loaded.Err? {
      return Err(ConfigError(loaded.error)), requests;
    }
    var cfg := loaded.value;
    var invalid := ValidateEvidence(ev);
    if invalid.Some? {
      return Err(InvalidEvidence(invalid.value)), requests;
    }

    var parentUser := Prompts.BuildParentUser(ev, host.show);
    var parentMessages := [ChatMessage(System, Prompts.ParentSystem), ChatMessage(User, parentUser)];
    var parentReq := ChatRequest(parentMessages, cfg.model, cfg.apiKey, cfg.baseUrl, Temperature, ParentMaxTokens);
    requests := requests + [parentReq];
    var parentReply := Chat(host, parentReq);
    if parentReply.Err? {
      return Err(ProviderError(parentReply.error)), requests;
    }

    var doctorUser := Prompts.BuildDoctorUser(ev, host.show);
    var doctorMessages := [ChatMessage(System, Prompts.DoctorSystem)];
    doctorMessages := AppendContext(doctorMessages, host, ev, ragDir, topK);
    doctorMessages := doctorMessages + [ChatMessage(User, doctorUser)];
    var doctorReq := ChatRequest(doctorMessages, cfg.model, cfg.apiKey, cfg.baseUrl, Temperature, DoctorMaxTokens);
    requests := requests + [doctorReq];
    var doctorReply := Chat(host, doctorReq);
    if doctorReply.Err? {
      return Err(ProviderError(doctorReply.error)), requests;
    }
    result := Ok(map["parent_text" := parentReply.value, "doctor_text" := doctorReply.value]);
  }

  // ---- Properties of a run ----

  /** Configuration is read first: a failed read is reported before the
      evidence is looked at, and no provider call is made. */
  lemma ConfigCheckedFirst(env: map<string, string>, ev: Evidence, host: Host, ragDir: Option<string>, topK: int, texts: Texts)
    requires LoadEnv(env).Err?
    ensures Explanations(LoadEnv(env), ev, host, ragDir, topK, texts) == Run(Err(ConfigError(MissingKeyMessage)), [])
  {
    LoadEnvSpec(env);
  }

  /** Invalid evidence with a usable configuration is reported as the
      validator's first failure, again before any provider call. */
  lemma ValidationBeforeCalls(cfg: Config, ev: Evidence, host: Host, ragDir: Option<string>, topK: int, texts: Texts)
    requires FirstDefect(ev).Some?
    ensures Explanations(Ok(cfg), ev, host, ragDir, topK, texts) == Run(Err(InvalidEvidence(FirstDefect(ev).value)), [])
  {
  }

  /** Once configuration and evidence pass, the first call is the caregiver
      request: exactly [system prompt, user prompt], never with retrieved
      context, with the configured model and key, at temperature 0.2 and at
      most 700 tokens. */
  lemma ParentRequestShape(cfg: Config, ev: Evidence, host: Host, ragDir: Option<string>, topK: int, texts: Texts)
    requires FirstDefect(ev).None?
    ensures var run := Explanations(Ok(cfg), ev, host, ragDir, topK, texts);
      && 1 <= |run.requests| <= 2
      && run.requests[0].messages == [ChatMessage(System, texts.parentSystem), ChatMessage(User, texts.parentUser)]
      && run.requests[0].temperature == 0.2 && run.requests[0].maxTokens == 700
      && run.requests[0].model == cfg.model && run.requests[0].apiKey == cfg.apiKey
      && run.requests[0].baseUrl == cfg.baseUrl
      && (run.result.Err? ==> run.result.error.ProviderError?)
  {
  }

  /** The clinician message list starts with the clinician system prompt,
      ends with the clinician prompt, and holds at most one system message
      between them. */
  lemma DoctorMessagesShape(host: Host, ev: Evidence, ragDir: Option<string>, topK: int, texts: Texts)
    ensures var ms := DoctorMessages(host, ev, ragDir, topK, texts);
      && 2 <= |ms| <= 3
      && ms[0] == ChatMessage(System, texts.doctorSystem)
      && ms[|ms| - 1] == ChatMessage(User, texts.doctorUser)
      && (|ms| == 3 ==> ms[1].role == System)
  {
  }

  /** The retrieval step adds at most one system message. It adds one
      exactly when the guard holds and retrieval either fails or returns at
      least one passage. */
  lemma RagMessagesSpec(host: Host, ev: Evidence, ragDir: Option<string>, topK: int)
    ensures var rs := RagMessages(host, ev, ragDir, topK);
      && |rs| <= 1
      && (|rs| == 1 ==> rs[0].role == System)
      && (|rs| == 1 <==>
            RagEnabled(host, ragDir)
            && (host.retrieve(ragDir.value, ev, topK).Err? || |host.retrieve(ragDir.value, ev, topK).value| > 0))
  {
  }

  /** With passages that format, the added message is their formatted text. */
  lemma ContextAdded(host: Host, ev: Evidence, ragDir: Option<string>, topK: int)
    requires RagEnabled(host, ragDir)
    requires host.retrieve(ragDir.value, ev, topK).Ok? && |host.retrieve(ragDir.value, ev, topK).value| > 0
    requires host.formatContexts(host.retrieve(ragDir.value, ev, topK).value).Ok?
    ensures RagMessages(host, ev, ragDir, topK)
      == [ChatMessage(System, host.formatContexts(host.retrieve(ragDir.value, ev, topK).value).value)]
  {
  }

  /** A failing retrieval does not stop the run: the note carrying the
      exception's text takes the context's place and the clinician call is
      still made. */
  lemma RetrievalFailureFailsOpen(cfg: Config, ev: Evidence, host: Host, ragDir: Option<string>, topK: int, texts: Texts)
    requires FirstDefect(ev).None?
    requires RagEnabled(host, ragDir) && host.retrieve(ragDir.value, ev, topK).Err?
    requires Chat(host, Request(ParentMessages(texts), cfg, ParentMaxTokens)).Ok?
    ensures var run := Explanations(Ok(cfg), ev, host, ragDir, topK, texts);
      && |run.requests| == 2
      && run.requests[1].messages
         == [ChatMessage(System, texts.doctorSystem),
             ChatMessage(System, RagNote(host.retrieve(ragDir.value, ev, topK).error)),
             ChatMessage(User, texts.doctorUser)]
  {
  }

  /** A successful run returns exactly the keys parent_text and doctor_text,
      holding the stripped replies to the two requests; the clinician call
      allows 900 tokens. */
  lemma SuccessfulRun(loaded: Result<Config, string>, ev: Evidence, host: Host, ragDir: Option<string>, topK: int, texts: Texts)
    requires Explanations(loaded, ev, host, ragDir, topK, texts).result.Ok?
    ensures var run := Explanations(loaded, ev, host, ragDir, topK, texts);
      && loaded.Ok? && FirstDefect(ev).None?
      && |run.requests| == 2
      && run.result.value.Keys == {"parent_text", "doctor_text"}
      && Chat(host, run.requests[0]) == Ok(run.result.value["parent_text"])
      && Chat(host, run.requests[1]) == Ok(run.result.value["doctor_text"])
      && run.requests[1].temperature == 0.2 && run.requests[1].maxTokens == 900
      && run.requests[1].messages == DoctorMessages(host, ev, ragDir, topK, texts)
  {
  }

  /** A provider failure on the caregiver call ends the run there: the
      clinician request is never sent. */
  lemma ParentFailureStops(cfg: Config, ev: Evidence, host: Host, ragDir: Option<string>, topK: int, texts: Texts)
    requires FirstDefect(ev).None?
    requires Chat(host, Request(ParentMessages(texts), cfg, ParentMaxTokens)).Err?
    ensures var run := Explanations(Ok(cfg), ev, host, ragDir, topK, texts);
      run.result.Err? && run.result.error.ProviderError? && |run.requests| == 1
  {
  }
}
