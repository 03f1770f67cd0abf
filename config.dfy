/** The tutor's configuration: a dataclass of twelve settings with defaults,
    overridden from `FAIR_LLM_*` environment variables by `from_env` and
    checked by `validate`. The environment is a map from variable names to
    their values. */
module Config {
  import opened Text

  /** The values of all twelve fields, in declaration order. */
  datatype ConfigValues = ConfigValues(
    modelName: string,
    maxNewTokens: int,
    quantized: bool,
    authToken: string,
    managerMaxSteps: int,
    safetyMaxSteps: int,
    misconceptionMaxSteps: int,
    hintMaxSteps: int,
    collectionName: string,
    chromadbPersistPath: Option<string>,
    ragTopK: int,
    runnerMaxSteps: int)

  /** The dataclass defaults. */
  const Defaults := ConfigValues(
    "Qwen/Qwen2.5-14B-Instruct", 1000, false, "", 15, 5, 10, 10, "course_materials", None, 3, 15)

  /** The fields by name, as `setattr` addresses them. */
  datatype Setting =
    | ModelName | MaxNewTokens | Quantized | AuthToken
    | ManagerMaxSteps | SafetyMaxSteps | MisconceptionMaxSteps | HintMaxSteps
    | CollectionName | ChromadbPersistPath | RagTopK | RunnerMaxSteps

  /** A field's value; `NoValue` is the `None` of the persist path. */
  datatype Value = TextValue(text: string) | IntValue(number: int) | BoolValue(flag: bool) | NoValue

  function Get(c: ConfigValues, s: Setting): Value {
    match s
    case ModelName => TextValue(c.modelName)
    case MaxNewTokens => IntValue(c.maxNewTokens)
    case Quantized => BoolValue(c.quantized)
    case AuthToken => TextValue(c.authToken)
    case ManagerMaxSteps => IntValue(c.managerMaxSteps)
    case SafetyMaxSteps => IntValue(c.safetyMaxSteps)
    case MisconceptionMaxSteps => IntValue(c.misconceptionMaxSteps)
    case HintMaxSteps => IntValue(c.hintMaxSteps)
    case CollectionName => TextValue(c.collectionName)
    case ChromadbPersistPath =>
      if c.chromadbPersistPath.Some? then TextValue(c.chromadbPersistPath.value) else NoValue
    case RagTopK => IntValue(c.ragTopK)
    case RunnerMaxSteps => IntValue(c.runnerMaxSteps)
  }

  /** Whether a value has the kind the field holds. */
  predicate Fits(s: Setting, v: Value) {
    match s
    case ModelName | AuthToken | CollectionName | ChromadbPersistPath => v.TextValue?
    case Quantized => v.BoolValue?
    case _ => v.IntValue?
  }

  /** `setattr(config, attr, value)`: only the named field changes, and it
      then holds the value. */
  function Put(c: ConfigValues, s: Setting, v: Value): (d: ConfigValues)
    requires Fits(s, v)
    ensures Get(d, s) == v
    ensures forall t :: t != s ==> Get(d, t) == Get(c, t)
  {
    match s
    case ModelName => c.(modelName := v.text)
    case MaxNewTokens => c.(maxNewTokens := v.number)
    case Quantized => c.(quantized := v.flag)
    case AuthToken => c.(authToken := v.text)
    case ManagerMaxSteps => c.(managerMaxSteps := v.number)
    case SafetyMaxSteps => c.(safetyMaxSteps := v.number)
    case MisconceptionMaxSteps => c.(misconceptionMaxSteps := v.number)
    case HintMaxSteps => c.(hintMaxSteps := v.number)
    case CollectionName => c.(collectionName := v.text)
    case ChromadbPersistPath => c.(chromadbPersistPath := Some(v.text))
    case RagTopK => c.(ragTopK := v.number)
    case RunnerMaxSteps => c.(runnerMaxSteps := v.number)
  }

  /** Two configurations that agree on every field are the same. */
  lemma Extensionality(a: ConfigValues, b: ConfigValues)
    requires forall s :: Get(a, s) == Get(b, s)
    ensures a == b
  {
    assert Get(a, ModelName) == Get(b, ModelName) && Get(a, MaxNewTokens) == Get(b, MaxNewTokens);
    assert Get(a, Quantized) == Get(b, Quantized) && Get(a, AuthToken) == Get(b, AuthToken);
    assert Get(a, ManagerMaxSteps) == Get(b, ManagerMaxSteps) && Get(a, SafetyMaxSteps) == Get(b, SafetyMaxSteps);
    assert Get(a, MisconceptionMaxSteps) == Get(b, MisconceptionMaxSteps) && Get(a, HintMaxSteps) == Get(b, HintMaxSteps);
    assert Get(a, CollectionName) == Get(b, CollectionName) && Get(a, RagTopK) == Get(b, RagTopK);
    assert Get(a, ChromadbPersistPath) == Get(b, ChromadbPersistPath) && Get(a, RunnerMaxSteps) == Get(b, RunnerMaxSteps);
  }

  // ---------------------------------------------------------------------------
  // from_env
  // ---------------------------------------------------------------------------

  /** The converters of `env_map`: `str`, `int`, and the truthiness test. */
  datatype Converter = Str | Int | Truthy

  /** `v.lower() in ("true", "1", "yes")` */
  predicate IsTruthy(raw: string) {
    Lower(raw) in ["true", "1", "yes"]
  }

  /** `converter(value)`, or None where it raises `ValueError`. */
  function Convert(converter: Converter, raw: string): (v: Option<Value>)
    ensures converter != Int ==> v.Some?
  {
    match converter
    case Str => Some(TextValue(raw))
    case Truthy => Some(BoolValue(IsTruthy(raw)))
    case Int =>
      var n := ParseInt(raw);
      if n.Some? then Some(IntValue(n.value)) else None
  }

  /** `env_map`, in its insertion order: variable, field, converter. */
  const EnvMap: seq<(string, Setting, Converter)> := [
    ("FAIR_LLM_MODEL_NAME", ModelName, Str),
    ("FAIR_LLM_MAX_NEW_TOKENS", MaxNewTokens, Int),
    ("FAIR_LLM_QUANTIZED", Quantized, Truthy),
    ("FAIR_LLM_AUTH_TOKEN", AuthToken, Str),
    ("FAIR_LLM_MANAGER_MAX_STEPS", ManagerMaxSteps, Int),
    ("FAIR_LLM_SAFETY_MAX_STEPS", SafetyMaxSteps, Int),
    ("FAIR_LLM_MISCONCEPTION_MAX_STEPS", MisconceptionMaxSteps, Int),
    ("FAIR_LLM_HINT_MAX_STEPS", HintMaxSteps, Int),
    ("FAIR_LLM_COLLECTION_NAME", CollectionName, Str),
    ("FAIR_LLM_CHROMADB_PERSIST_PATH", ChromadbPersistPath, Str),
    ("FAIR_LLM_RAG_TOP_K", RagTopK, Int),
    ("FAIR_LLM_RUNNER_MAX_STEPS", RunnerMaxSteps, Int)
  ]

  /** Where a field's entry sits in `env_map`. */
  function IndexOf(s: Setting): (k: nat)
    ensures k < |EnvMap| && EnvMap[k].1 == s
  {
    match s
    case ModelName => 0
    case MaxNewTokens => 1
    case Quantized => 2
    case AuthToken => 3
    case ManagerMaxSteps => 4
    case SafetyMaxSteps => 5
    case MisconceptionMaxSteps => 6
    case HintMaxSteps => 7
    case CollectionName => 8
    case ChromadbPersistPath => 9
    case RagTopK => 10
    case RunnerMaxSteps => 11
  }

  /** Every field has exactly one entry, and every converter yields a value
      of the kind its field holds. */
  lemma EnvMapWellFormed()
    ensures forall i :: 0 <= i < |EnvMap| ==> IndexOf(EnvMap[i].1) == i
    ensures forall i, raw :: 0 <= i < |EnvMap| && Convert(EnvMap[i].2, raw).Some?
              ==> Fits(EnvMap[i].1, Convert(EnvMap[i].2, raw).value)
  {
  }

  /** One round of the loop: a present variable whose value converts sets
      its field; a missing variable or a failed conversion changes nothing. */
  function Step(c: ConfigValues, env: map<string, string>, entry: (string, Setting, Converter)): ConfigValues
    requires entry in EnvMap
  {
    EnvMapWellFormed();
    if entry.0 in env then
      var converted := Convert(entry.2, env[entry.0]);
      if converted.Some? then Put(c, entry.1, converted.value) else c
    else c
  }

  /** The loop over the first entries of `env_map`. */
  function ApplyEnv(c: ConfigValues, env: map<string, string>, entries: seq<(string, Setting, Converter)>): ConfigValues
    requires forall i :: 0 <= i < |entries| ==> entries[i] in EnvMap
    decreases |entries|
  {
    if |entries| == 0 then c
    else Step(ApplyEnv(c, env, entries[..|entries| - 1]), env, entries[|entries| - 1])
  }

  /** What `from_env` gives a field: the converted value of its variable when
      that is set and converts, the default otherwise. */
  function EnvValue(env: map<string, string>, s: Setting): Value {
    var entry := EnvMap[IndexOf(s)];
    if entry.0 in env && Convert(entry.2, env[entry.0]).Some? then Convert(entry.2, env[entry.0]).value
    else Get(Defaults, s)
  }

  /** Round j of the loop touches only the field of entry j, and leaves it
      at its environment value if it held its default before. */
  lemma StepGet(c: ConfigValues, env: map<string, string>, j: nat, s: Setting)
    requires j < |EnvMap|
    ensures IndexOf(s) != j ==> Get(Step(c, env, EnvMap[j]), s) == Get(c, s)
    ensures IndexOf(s) == j && Get(c, s) == Get(Defaults, s) ==> Get(Step(c, env, EnvMap[j]), s) == EnvValue(env, s)
  {
    EnvMapWellFormed();
    var entry := EnvMap[j];
    if entry.0 in env && Convert(entry.2, env[entry.0]).Some? {
      assert Fits(entry.1, Convert(entry.2, env[entry.0]).value);
    }
  }

  /** After the first k rounds, a field whose entry was among them holds its
      environment value; every other field still holds its default. */
  lemma {:induction false} ApplyPrefix(env: map<string, string>, s: Setting, k: nat)
    requires k <= |EnvMap|
    ensures Get(ApplyEnv(Defaults, env, EnvMap[..k]), s)
         == if IndexOf(s) < k then EnvValue(env, s) else Get(Defaults, s)
  {
    if k > 0 {
      ApplyPrefix(env, s, k - 1);
      ApplyRound(env, k, s);
    }
  }

  /** Round k, seen from one field: it touches only the field of entry k - 1,
      and moves that field from its default to its environment value. */
  lemma ApplyRound(env: map<string, string>, k: nat, s: Setting)
    requires 0 < k <= |EnvMap|
    ensures var before := Get(ApplyEnv(Defaults, env, EnvMap[..k - 1]), s);
      var after := Get(ApplyEnv(Defaults, env, EnvMap[..k]), s);
      (IndexOf(s) != k - 1 ==> after == before)
      && (IndexOf(s) == k - 1 && before == Get(Defaults, s) ==> after == EnvValue(env, s))
  {
    assert EnvMap[..k][..k - 1] == EnvMap[..k - 1];
    StepGet(ApplyEnv(Defaults, env, EnvMap[..k - 1]), env, k - 1, s);
  }

  /** `TutorConfig.from_env()` on the given environment. */
  function FromEnvValues(env: map<string, string>): ConfigValues {
    ApplyEnv(Defaults, env, EnvMap)
  }

  /** Each field of `from_env`'s result is its environment value: the loop's
      other rounds never touch it. */
  lemma FromEnvField(env: map<string, string>, s: Setting)
    ensures Get(FromEnvValues(env), s) == EnvValue(env, s)
  {
    ApplyPrefix(env, s, |EnvMap|);
    assert EnvMap[..|EnvMap|] == EnvMap;
  }

  /** With none of the variables set, `from_env` gives the defaults. */
  lemma UnsetKeepsDefaults(env: map<string, string>)
    requires forall i :: 0 <= i < |EnvMap| ==> EnvMap[i].0 !in env
    ensures FromEnvValues(env) == Defaults
  {
    forall s ensures Get(FromEnvValues(env), s) == Get(Defaults, s) {
      FromEnvField(env, s);
    }
    Extensionality(FromEnvValues(env), Defaults);
  }

  /** `FAIR_LLM_QUANTIZED` turns quantization on exactly for "true", "1" and
      "yes" in any case, and off for anything else. */
  lemma QuantizedFromEnv(env: map<string, string>)
    requires "FAIR_LLM_QUANTIZED" in env
    ensures FromEnvValues(env).quantized <==> IsTruthy(env["FAIR_LLM_QUANTIZED"])
  {
    FromEnvField(env, Quantized);
  }

  /** A value `int()` rejects leaves its field at the default. */
  lemma FailedConversionKeepsDefault(env: map<string, string>, s: Setting)
    requires EnvMap[IndexOf(s)].2 == Int
    requires EnvMap[IndexOf(s)].0 in env && ParseInt(env[EnvMap[IndexOf(s)].0]).None?
    ensures Get(FromEnvValues(env), s) == Get(Defaults, s)
  {
    FromEnvField(env, s);
  }

  /** An integer field set to the decimal text of n holds n. */
  lemma IntegerFromEnv(env: map<string, string>, s: Setting, n: int)
    requires EnvMap[IndexOf(s)].2 == Int && WithinStrDigits(n)
    requires EnvMap[IndexOf(s)].0 in env && env[EnvMap[IndexOf(s)].0] == IntToString(n)
    ensures Get(FromEnvValues(env), s) == IntValue(n)
  {
    FromEnvField(env, s);
    ParseIntToString(n);
  }

  /** A text field takes its variable's value verbatim. */
  lemma TextFromEnv(env: map<string, string>, s: Setting)
    requires EnvMap[IndexOf(s)].2 == Str && EnvMap[IndexOf(s)].0 in env
    ensures Get(FromEnvValues(env), s) == TextValue(env[EnvMap[IndexOf(s)].0])
  {
    FromEnvField(env, s);
  }

  /** The decimal overrides the configuration tests use, and a value that
      is no number. */
  lemma DecimalOverrides()
    ensures FromEnvValues(map["FAIR_LLM_MAX_NEW_TOKENS" := "2000"]).maxNewTokens == 2000
    ensures FromEnvValues(map["FAIR_LLM_RAG_TOP_K" := "5"]).ragTopK == 5
    ensures FromEnvValues(map["FAIR_LLM_MAX_NEW_TOKENS" := "not_a_number"]).maxNewTokens == 1000
  {
    assert NatToString(2000) == "2000" by {
      assert NatToString(200) == "200";
    }
    IntegerFromEnv(map["FAIR_LLM_MAX_NEW_TOKENS" := "2000"], MaxNewTokens, 2000);
    IntegerFromEnv(map["FAIR_LLM_RAG_TOP_K" := "5"], RagTopK, 5);
    assert ParseInt("not_a_number").None? by {
      ParseIntRejects("not_a_number");
    }
    FailedConversionKeepsDefault(map["FAIR_LLM_MAX_NEW_TOKENS" := "not_a_number"], MaxNewTokens);
  }

  /** A file separator before the digits is whitespace to `strip()` but not
      to `int()`: the conversion fails and max_new_tokens stays 1000. */
  lemma SeparatorKeepsDefault()
    ensures FromEnvValues(map["FAIR_LLM_MAX_NEW_TOKENS" := "\U{1C}5"]).maxNewTokens == 1000
  {
    SeparatorNotInteger();
    FailedConversionKeepsDefault(map["FAIR_LLM_MAX_NEW_TOKENS" := "\U{1C}5"], MaxNewTokens);
  }

  /** Decimal text past `int()`'s digit limit fails the conversion, so
      max_new_tokens stays 1000. */
  lemma LongDigitsKeepDefault()
    ensures FromEnvValues(map["FAIR_LLM_MAX_NEW_TOKENS" := seq(MaxStrDigits + 1, i => '1')]).maxNewTokens == 1000
  {
    TooManyDigits(seq(MaxStrDigits + 1, i => '1'));
    FailedConversionKeepsDefault(map["FAIR_LLM_MAX_NEW_TOKENS" := seq(MaxStrDigits + 1, i => '1')], MaxNewTokens);
  }

  // ---------------------------------------------------------------------------
  // validate
  // ---------------------------------------------------------------------------

  const ModelNameWarning := "model_name is empty"

  /** `f"{name} must be positive, got {value}"` */
  function PositiveWarning(name: string, value: int): (w: string)
    ensures StartsWith(w, name)
  {
    assert (name + " must be positive, got " + IntToString(value))[..|name|] == name;
    name + " must be positive, got " + IntToString(value)
  }

  /** The four checks `validate` makes. */
  predicate Valid(c: ConfigValues) {
    c.modelName != "" && c.maxNewTokens >= 1 && c.ragTopK >= 1 && c.managerMaxSteps >= 1
  }

  /** The warnings, in the order the checks run. */
  function Warnings(c: ConfigValues): seq<string> {
    (if c.modelName == "" then [ModelNameWarning] else [])
    + (if c.maxNewTokens < 1 then [PositiveWarning("max_new_tokens", c.maxNewTokens)] else [])
    + (if c.ragTopK < 1 then [PositiveWarning("rag_top_k", c.ragTopK)] else [])
    + (if c.managerMaxSteps < 1 then [PositiveWarning("manager_max_steps", c.managerMaxSteps)] else [])
  }

  /** One warning per failed check, so never more than four, and none
      exactly when all four checks pass. */
  lemma WarningsCount(c: ConfigValues)
    ensures |Warnings(c)| == (if c.modelName == "" then 1 else 0) + (if c.maxNewTokens < 1 then 1 else 0)
                            + (if c.ragTopK < 1 then 1 else 0) + (if c.managerMaxSteps < 1 then 1 else 0)
    ensures |Warnings(c)| <= 4
    ensures Warnings(c) == [] <==> Valid(c)
  {
  }

  /** The defaults pass validation. */
  lemma DefaultsValid()
    ensures Warnings(Defaults) == []
  {
    assert Valid(Defaults);
    WarningsCount(Defaults);
  }

  /** Every failed check leaves a warning that names its field. */
  lemma WarningNamesField(c: ConfigValues)
    ensures c.modelName == "" ==> exists w :: w in Warnings(c) && Contains(w, "model_name")
    ensures c.maxNewTokens < 1 ==> exists w :: w in Warnings(c) && Contains(w, "max_new_tokens")
    ensures c.ragTopK < 1 ==> exists w :: w in Warnings(c) && Contains(w, "rag_top_k")
    ensures c.managerMaxSteps < 1 ==> exists w :: w in Warnings(c) && Contains(w, "manager_max_steps")
  {
    var ws := Warnings(c);
    if c.modelName == "" {
      assert ModelNameWarning[..10] == "model_name";
      assert Contains(ws[0], "model_name");
    }
    if c.maxNewTokens < 1 {
      var w := PositiveWarning("max_new_tokens", c.maxNewTokens);
      assert w in ws && Contains(w, "max_new_tokens");
    }
    if c.ragTopK < 1 {
      var w := PositiveWarning("rag_top_k", c.ragTopK);
      assert w in ws && Contains(w, "rag_top_k");
    }
    if c.managerMaxSteps < 1 {
      var w := PositiveWarning("manager_max_steps", c.managerMaxSteps);
      assert w in ws && Contains(w, "manager_max_steps");
    }
  }

  /** The fields `validate` does not check never change its answer. */
  lemma UncheckedFieldsIgnored(c: ConfigValues, d: ConfigValues)
    requires c.modelName == d.modelName && c.maxNewTokens == d.maxNewTokens
    requires c.ragTopK == d.ragTopK && c.managerMaxSteps == d.managerMaxSteps
    ensures Warnings(c) == Warnings(d)
  {
  }

  // ---------------------------------------------------------------------------
  // TutorConfig
  // ---------------------------------------------------------------------------

  class TutorConfig {
    var modelName: string
    var maxNewTokens: int
    var quantized: bool
    var authToken: string
    var managerMaxSteps: int
    var safetyMaxSteps: int
    var misconceptionMaxSteps: int
    var hintMaxSteps: int
    var collectionName: string
    var chromadbPersistPath: Option<string>
    var ragTopK: int
    var runnerMaxSteps: int

    function Values(): ConfigValues
      reads this
    {
      ConfigValues(modelName, maxNewTokens, quantized, authToken, managerMaxSteps, safetyMaxSteps,
        misconceptionMaxSteps, hintMaxSteps, collectionName, chromadbPersistPath, ragTopK, runnerMaxSteps)
    }

    /** `TutorConfig(**values)`: the dataclass constructor with every field
        given; `TutorConfig()` is this with `Defaults`. */
    constructor(values: ConfigValues := Defaults)
      ensures Values() == values
    {
      modelName := values.modelName;
      maxNewTokens := values.maxNewTokens;
      quantized := values.quantized;
      authToken := values.authToken;
      managerMaxSteps := values.managerMaxSteps;
      safetyMaxSteps := values.safetyMaxSteps;
      misconceptionMaxSteps := values.misconceptionMaxSteps;
      hintMaxSteps := values.hintMaxSteps;
      collectionName := values.collectionName;
      chromadbPersistPath := values.chromadbPersistPath;
      ragTopK := values.ragTopK;
      runnerMaxSteps := values.runnerMaxSteps;
    }

    /** `setattr(self, attr, value)` */
    method SetAttr(s: Setting, v: Value)
      requires Fits(s, v)
      modifies this
      ensures Values() == Put(old(Values()), s, v)
    {
      match s
      case ModelName => modelName := v.text;
      case MaxNewTokens => maxNewTokens := v.number;
      case Quantized => quantized := v.flag;
      case AuthToken => authToken := v.text;
      case ManagerMaxSteps => managerMaxSteps := v.number;
      case SafetyMaxSteps => safetyMaxSteps := v.number;
      case MisconceptionMaxSteps => misconceptionMaxSteps := v.number;
      case HintMaxSteps => hintMaxSteps := v.number;
      case CollectionName => collectionName := v.text;
      case ChromadbPersistPath => chromadbPersistPath := Some(v.text);
      case RagTopK => ragTopK := v.number;
      case RunnerMaxSteps => runnerMaxSteps := v.number;
    }

    /** `TutorConfig.from_env()`: start from the defaults and, entry by entry
        of `env_map`, set each field whose variable is present and converts. */
    static method FromEnv(env: map<string, string>) returns (config: TutorConfig)
      ensures fresh(config)
      ensures config.Values() == FromEnvValues(env)
    {
      config := new TutorConfig();
      EnvMapWellFormed();
      for k := 0 to |EnvMap|
        invariant config.Values() == ApplyEnv(Defaults, env, EnvMap[..k])
      {
        var entry := EnvMap[k];
        assert EnvMap[..k + 1][..k] == EnvMap[..k];
        if entry.0 in env {
          var converted := Convert(entry.2, env[entry.0]);
          if converted.Some? {
            config.SetAttr(entry.1, converted.value);
          }
        }
      }
      assert EnvMap[..|EnvMap|] == EnvMap;
    }

    /** `validate()`: append one warning per failed check; the fields are
        only read. */
    method Validate() returns (warnings: seq<string>)
      ensures warnings == Warnings(Values())
    {
      warnings := [];
      if modelName == "" {
        warnings := warnings + [ModelNameWarning];
      }
      if maxNewTokens < 1 {
        warnings := warnings + [PositiveWarning("max_new_tokens", maxNewTokens)];
      }
      if ragTopK < 1 {
        warnings := warnings + [PositiveWarning("rag_top_k", ragTopK)];
      }
      if managerMaxSteps < 1 {
        warnings := warnings + [PositiveWarning("manager_max_steps", managerMaxSteps)];
      }
    }
  }
}
