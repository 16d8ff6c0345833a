/** The settings store: a JSON config file holding the API key, the provider,
    the three model choices, the solution language and the window opacity.
    Loading repairs the provider and sanitises the models against a
    per-provider allow-list; updates re-derive the provider from the key. */
module Config {
  import opened Common
  import opened Text

  datatype Config = Config(
    apiKey: string,
    apiProvider: Provider,
    extractionModel: string,
    solutionModel: string,
    debuggingModel: string,
    language: string,
    opacity: real)

  /** `defaultConfig`. */
  const DefaultConfig: Config :=
    Config("", Gemini, "gemini-2.5-flash", "gemini-2.5-flash", "gemini-2.5-flash", "cpp", 1.0)

  /** The object `JSON.parse` yields for config.json: every field may be
      absent, and the provider may be any string. */
  datatype StoredConfig = StoredConfig(
    apiKey: Option<string>,
    apiProvider: Option<string>,
    extractionModel: Option<string>,
    solutionModel: Option<string>,
    debuggingModel: Option<string>,
    language: Option<string>,
    opacity: Option<real>)

  /** The config file: absent, not valid JSON, or a parsed object. */
  datatype ConfigFile = Missing | Unparsable | Parsed(contents: StoredConfig)

  /** What `saveConfig` writes: every field present. */
  function ToStored(c: Config): (s: StoredConfig)
    ensures s.apiProvider.Some? && ParseProvider(s.apiProvider.value) == Some(c.apiProvider)
    ensures s.apiKey == Some(c.apiKey) && s.language == Some(c.language) && s.opacity == Some(c.opacity)
    ensures s.extractionModel == Some(c.extractionModel) && s.solutionModel == Some(c.solutionModel)
            && s.debuggingModel == Some(c.debuggingModel)
  {
    StoredConfig(Some(c.apiKey), Some(ProviderName(c.apiProvider)), Some(c.extractionModel),
                 Some(c.solutionModel), Some(c.debuggingModel), Some(c.language), Some(c.opacity))
  }

  /** The models each provider accepts. */
  function AllowedModels(p: Provider): seq<string> {
    match p
    case OpenAI => ["gpt-5", "gpt-4o", "o4-mini"]
    case Gemini => ["gemini-2.5-pro", "gemini-2.5-flash", "gemini-2.5-flash-lite"]
  }

  /** The model an invalid or reset selection falls back to. */
  function DefaultModel(p: Provider): (m: string)
    ensures m in AllowedModels(p)
  {
    match p
    case OpenAI => "gpt-4o"
    case Gemini => "gemini-2.5-flash"
  }

  /** `sanitizeModelSelection`: keep an allowed model, otherwise fall back to
      the provider's default. */
  function SanitizeModelSelection(model: string, p: Provider): (r: string)
    ensures r in AllowedModels(p)
    ensures model in AllowedModels(p) ==> r == model
    ensures model !in AllowedModels(p) ==> r == DefaultModel(p)
  {
    if model in AllowedModels(p) then model else DefaultModel(p)
  }

  lemma {:induction false} SanitizeIsIdempotent(model: string, p: Provider)
    ensures SanitizeModelSelection(SanitizeModelSelection(model, p), p) == SanitizeModelSelection(model, p)
  {
  }

  /** JavaScript truthiness of an optional string field. */
  predicate Truthy(o: Option<string>) {
    o.Some? && o.value != ""
  }

  /** A provider that is neither "openai" nor "gemini" (absent included) is
      replaced by "openai", not by the default provider. */
  function RepairProvider(stored: Option<string>): (p: Provider)
    ensures stored == Some("gemini") ==> p == Gemini
    ensures stored != Some("gemini") ==> p == OpenAI
  {
    match stored
    case Some(s) => ParseProvider(s).GetOr(OpenAI)
    case None => OpenAI
  }

  /** Only a truthy model field is sanitised. */
  function SanitizeField(field: Option<string>, p: Provider): Option<string> {
    if Truthy(field) then Some(SanitizeModelSelection(field.value, p)) else field
  }

  /** `{ ...defaultConfig, ...config }` after the repairs. */
  function LoadParsed(s: StoredConfig): Config {
    var p := RepairProvider(s.apiProvider);
    Config(
      s.apiKey.GetOr(DefaultConfig.apiKey),
      p,
      SanitizeField(s.extractionModel, p).GetOr(DefaultConfig.extractionModel),
      SanitizeField(s.solutionModel, p).GetOr(DefaultConfig.solutionModel),
      SanitizeField(s.debuggingModel, p).GetOr(DefaultConfig.debuggingModel),
      s.language.GetOr(DefaultConfig.language),
      s.opacity.GetOr(DefaultConfig.opacity))
  }

  /** Loading a parsed file repairs its provider and replaces every truthy
      stored model by one the repaired provider allows. */
  lemma {:induction false} LoadParsedRepairs(s: StoredConfig)
    ensures var c := LoadParsed(s);
            && c.apiProvider == RepairProvider(s.apiProvider)
            && (Truthy(s.extractionModel) ==> c.extractionModel in AllowedModels(c.apiProvider))
            && (Truthy(s.solutionModel) ==> c.solutionModel in AllowedModels(c.apiProvider))
            && (Truthy(s.debuggingModel) ==> c.debuggingModel in AllowedModels(c.apiProvider))
            && (s.apiKey.Some? ==> c.apiKey == s.apiKey.value)
  {
  }

  /** A model field as it comes out of loading: a non-empty stored value is
      sanitised for the provider, an empty one stays empty, a missing one is
      the default config's model. */
  predicate LoadedModel(field: Option<string>, model: string, p: Provider) {
    match field
    case None => model == DefaultConfig.extractionModel
    case Some(v) => if v == "" then model == "" else model == SanitizeModelSelection(v, p)
  }

  /** `loadConfig` as a function of the file's state. */
  function Load(f: ConfigFile): (c: Config)
    ensures !f.Parsed? ==> c == DefaultConfig
    ensures f.Parsed? ==>
      && c.apiProvider == RepairProvider(f.contents.apiProvider)
      && LoadedModel(f.contents.extractionModel, c.extractionModel, c.apiProvider)
      && LoadedModel(f.contents.solutionModel, c.solutionModel, c.apiProvider)
      && LoadedModel(f.contents.debuggingModel, c.debuggingModel, c.apiProvider)
      && (f.contents.apiKey.Some? ==> c.apiKey == f.contents.apiKey.value)
      && (f.contents.apiKey.None? ==> c.apiKey == "")
      && (f.contents.language.Some? ==> c.language == f.contents.language.value)
      && (f.contents.language.None? ==> c.language == "cpp")
      && (f.contents.opacity.Some? ==> c.opacity == f.contents.opacity.value)
      && (f.contents.opacity.None? ==> c.opacity == 1.0)
  {
    match f
    case Parsed(s) => LoadParsed(s)
    case _ => DefaultConfig
  }

  /** A config whose models are each allowed for its provider (or empty). */
  predicate ModelsConsistent(c: Config) {
    && (c.extractionModel == "" || c.extractionModel in AllowedModels(c.apiProvider))
    && (c.solutionModel == "" || c.solutionModel in AllowedModels(c.apiProvider))
    && (c.debuggingModel == "" || c.debuggingModel in AllowedModels(c.apiProvider))
  }

  /** Saving a consistent config and loading it back gives the same config. */
  lemma {:induction false} SaveLoadRoundTrip(c: Config)
    requires ModelsConsistent(c)
    ensures Load(Parsed(ToStored(c))) == c
  {
    ProviderNameParses(c.apiProvider);
  }

  lemma {:induction false} ProviderNameParses(p: Provider)
    ensures RepairProvider(Some(ProviderName(p))) == p
  {
  }

  /** A stored "openai" config with an unknown extraction model loads with the
      provider's default model, never the invalid value. */
  lemma {:induction false} LoadCoercesInvalidModel(s: StoredConfig)
    requires s.apiProvider == Some("openai") && s.extractionModel == Some("bad-model")
    ensures Load(Parsed(s)).extractionModel == "gpt-4o"
  {
  }

  /** A stored "openai" config without an extraction model loads with the
      default config's Gemini model: the merge with the defaults happens after
      sanitising, so that value is not checked against the provider. */
  lemma {:induction false} LoadKeepsDefaultModelForOpenAI(s: StoredConfig)
    requires s.apiProvider == Some("openai") && s.extractionModel.None?
    ensures Load(Parsed(s)).extractionModel == "gemini-2.5-flash"
    ensures !ModelsConsistent(Load(Parsed(s)))
  {
  }

  /** A partial update, as `updateConfig` receives it. */
  datatype ConfigUpdate = ConfigUpdate(
    apiKey: Option<string>,
    apiProvider: Option<Provider>,
    extractionModel: Option<string>,
    solutionModel: Option<string>,
    debuggingModel: Option<string>,
    language: Option<string>,
    opacity: Option<real>)

  /** The provider an update resolves to: an explicit provider wins; a truthy
      key without one decides by its trimmed "sk-" prefix; otherwise the
      current provider stays. */
  function ResolveProvider(current: Config, u: ConfigUpdate): (p: Provider)
    ensures u.apiProvider.Some? ==> p == u.apiProvider.value
    ensures u.apiProvider.None? && Truthy(u.apiKey) ==>
      (p == OpenAI <==> StartsWith(Trim(u.apiKey.value), "sk-"))
    ensures u.apiProvider.None? && !Truthy(u.apiKey) ==> p == current.apiProvider
  {
    if Truthy(u.apiKey) && u.apiProvider.None? then
      (if StartsWith(Trim(u.apiKey.value), "sk-") then OpenAI else Gemini)
    else u.apiProvider.GetOr(current.apiProvider)
  }

  /** The updates after `updateConfig` has rewritten them: the resolved
      provider is always written; a provider change forces all three models to
      its default; the remaining truthy models are sanitised. */
  function ResolveUpdates(current: Config, u: ConfigUpdate): (r: ConfigUpdate)
    ensures r.apiProvider == Some(ResolveProvider(current, u))
    ensures r.apiKey == u.apiKey && r.language == u.language && r.opacity == u.opacity
    ensures r.apiProvider.value != current.apiProvider ==>
      && r.extractionModel == Some(DefaultModel(r.apiProvider.value))
      && r.solutionModel == Some(DefaultModel(r.apiProvider.value))
      && r.debuggingModel == Some(DefaultModel(r.apiProvider.value))
    ensures r.apiProvider.value == current.apiProvider ==>
      && r.extractionModel == SanitizeField(u.extractionModel, current.apiProvider)
      && r.solutionModel == SanitizeField(u.solutionModel, current.apiProvider)
      && r.debuggingModel == SanitizeField(u.debuggingModel, current.apiProvider)
  {
    var p := ResolveProvider(current, u);
    var switched := p != current.apiProvider;
    var em := if switched then Some(DefaultModel(p)) else u.extractionModel;
    var sm := if switched then Some(DefaultModel(p)) else u.solutionModel;
    var dm := if switched then Some(DefaultModel(p)) else u.debuggingModel;
    ConfigUpdate(u.apiKey, Some(p), SanitizeField(em, p), SanitizeField(sm, p), SanitizeField(dm, p),
                 u.language, u.opacity)
  }

  /** `{ ...currentConfig, ...updates }`. */
  function Overlay(current: Config, u: ConfigUpdate): (c: Config)
    ensures u == ConfigUpdate(None, None, None, None, None, None, None) ==> c == current
    ensures (u.apiKey.Some? ==> c.apiKey == u.apiKey.value) && (u.apiKey.None? ==> c.apiKey == current.apiKey)
    ensures u.apiProvider.Some? ==> c.apiProvider == u.apiProvider.value
    ensures u.apiProvider.None? ==> c.apiProvider == current.apiProvider
    ensures u.extractionModel.Some? ==> c.extractionModel == u.extractionModel.value
    ensures u.extractionModel.None? ==> c.extractionModel == current.extractionModel
    ensures u.solutionModel.Some? ==> c.solutionModel == u.solutionModel.value
    ensures u.solutionModel.None? ==> c.solutionModel == current.solutionModel
    ensures u.debuggingModel.Some? ==> c.debuggingModel == u.debuggingModel.value
    ensures u.debuggingModel.None? ==> c.debuggingModel == current.debuggingModel
    ensures (u.language.Some? ==> c.language == u.language.value) && (u.language.None? ==> c.language == current.language)
    ensures (u.opacity.Some? ==> c.opacity == u.opacity.value) && (u.opacity.None? ==> c.opacity == current.opacity)
  {
    Config(
      u.apiKey.GetOr(current.apiKey),
      u.apiProvider.GetOr(current.apiProvider),
      u.extractionModel.GetOr(current.extractionModel),
      u.solutionModel.GetOr(current.solutionModel),
      u.debuggingModel.GetOr(current.debuggingModel),
      u.language.GetOr(current.language),
      u.opacity.GetOr(current.opacity))
  }

  /** The config `updateConfig` returns and saves. */
  function Updated(current: Config, u: ConfigUpdate): (c: Config)
    ensures c.apiProvider == ResolveProvider(current, u)
    ensures (u.apiKey.Some? ==> c.apiKey == u.apiKey.value) && (u.apiKey.None? ==> c.apiKey == current.apiKey)
    ensures (u.language.Some? ==> c.language == u.language.value) && (u.language.None? ==> c.language == current.language)
    ensures (u.opacity.Some? ==> c.opacity == u.opacity.value) && (u.opacity.None? ==> c.opacity == current.opacity)
    ensures c.apiProvider != current.apiProvider ==>
              c.extractionModel == DefaultModel(c.apiProvider) && c.solutionModel == DefaultModel(c.apiProvider)
              && c.debuggingModel == DefaultModel(c.apiProvider)
    ensures Truthy(u.extractionModel) ==> c.extractionModel in AllowedModels(c.apiProvider)
    ensures Truthy(u.solutionModel) ==> c.solutionModel in AllowedModels(c.apiProvider)
    ensures Truthy(u.debuggingModel) ==> c.debuggingModel in AllowedModels(c.apiProvider)
  {
    Overlay(current, ResolveUpdates(current, u))
  }

  /** An update never breaks model/provider consistency: a provider switch
      resets every model to the new provider's default, and without a switch
      every supplied model is sanitised against the unchanged provider. */
  lemma {:induction false} UpdatePreservesConsistency(current: Config, u: ConfigUpdate)
    requires ModelsConsistent(current)
    ensures ModelsConsistent(Updated(current, u))
    ensures Updated(current, u).apiProvider == ResolveProvider(current, u)
  {
    var r := ResolveUpdates(current, u);
    var p := ResolveProvider(current, u);
    var c := Updated(current, u);
    if p != current.apiProvider {
      assert c.extractionModel == DefaultModel(p);
      assert c.solutionModel == DefaultModel(p);
      assert c.debuggingModel == DefaultModel(p);
    } else {
      FieldStaysConsistent(u.extractionModel, current.extractionModel, p);
      FieldStaysConsistent(u.solutionModel, current.solutionModel, p);
      FieldStaysConsistent(u.debuggingModel, current.debuggingModel, p);
    }
  }

  lemma {:induction false} FieldStaysConsistent(field: Option<string>, currentModel: string, p: Provider)
    requires currentModel == "" || currentModel in AllowedModels(p)
    ensures var m := SanitizeField(field, p).GetOr(currentModel); m == "" || m in AllowedModels(p)
  {
  }

  /** An update that names no provider but carries an "sk-" key switches a
      Gemini config to OpenAI and resets its models to "gpt-4o". */
  lemma {:induction false} OpenAIKeySwitchesProvider(current: Config, u: ConfigUpdate)
    requires current.apiProvider == Gemini
    requires u.apiProvider.None? && u.apiKey.Some? && StartsWith(Trim(u.apiKey.value), "sk-")
    ensures Updated(current, u).apiProvider == OpenAI
    ensures Updated(current, u).extractionModel == "gpt-4o"
    ensures Updated(current, u).solutionModel == "gpt-4o"
    ensures Updated(current, u).debuggingModel == "gpt-4o"
  {
  }

  /** `isValidApiKeyFormat`'s provider: the explicit one, or inferred from the
      trimmed key's "sk-" prefix. */
  function KeyProvider(key: string, provider: Option<Provider>): (p: Provider)
    ensures provider.Some? ==> p == provider.value
    ensures provider.None? ==> (p == OpenAI <==> StartsWith(Trim(key), "sk-"))
  {
    match provider
    case Some(p) => p
    case None => if StartsWith(Trim(key), "sk-") then OpenAI else Gemini
  }

  /** Every character is a `\w` character. */
  function AllWordChars(s: string): (r: bool)
    ensures r <==> forall i :: 0 <= i < |s| ==> IsWordChar(s[i])
  {
    s == [] || (IsWordChar(s[0]) && AllWordChars(s[1..]))
  }

  /** No character is a line terminator, so `.*` matches all of `s`. */
  function NoLineTerminator(s: string): (r: bool)
    ensures r <==> forall i :: 0 <= i < |s| ==> !IsLineTerminator(s[i])
  {
    s == [] || (!IsLineTerminator(s[0]) && NoLineTerminator(s[1..]))
  }

  /** `/^sk-\w{48}$/`. */
  function MatchesOpenAIKey(key: string): (r: bool)
    ensures r <==> |key| == 51 && StartsWith(key, "sk-") && forall i :: 3 <= i < 51 ==> IsWordChar(key[i])
  {
    |key| == 51 && StartsWith(key, "sk-") && AllWordChars(key[3..])
  }

  /** `/^AIzaSyB.*$/`. */
  function MatchesGeminiKey(key: string): (r: bool)
    ensures r <==> StartsWith(key, "AIzaSyB") && forall i :: 7 <= i < |key| ==> !IsLineTerminator(key[i])
  {
    StartsWith(key, "AIzaSyB") && NoLineTerminator(key[7..])
  }

  /** `isValidApiKeyFormat`: the shape check of the resolved provider. */
  function IsValidApiKeyFormat(key: string, provider: Option<Provider>): (r: bool)
    ensures KeyProvider(key, provider) == OpenAI ==> (r <==> MatchesOpenAIKey(key))
    ensures KeyProvider(key, provider) == Gemini ==> (r <==> MatchesGeminiKey(key))
  {
    match KeyProvider(key, provider)
    case OpenAI => MatchesOpenAIKey(key)
    case Gemini => MatchesGeminiKey(key)
  }

  /** No key passes both providers' checks: the two shapes exclude each other. */
  lemma {:induction false} KeyFormatsDisjoint(key: string)
    ensures !(MatchesOpenAIKey(key) && MatchesGeminiKey(key))
  {
    if MatchesOpenAIKey(key) {
      assert key[..3] == "sk-";
      assert key[0] == 's';
    }
  }

  /** Without an explicit provider, a well-formed OpenAI key is accepted. */
  lemma {:induction false} InferredOpenAIKeyAccepted(key: string)
    requires MatchesOpenAIKey(key)
    ensures IsValidApiKeyFormat(key, None)
  {
    assert key[0] == 's';
    assert !IsSpace(key[0]);
    assert TrimStart(key) == key;
    var t := TrimEnd(key);
    assert !IsSpace(key[2]);
    assert t[..3] == key[..3];
  }

  /** `hasApiKey`: the key is non-empty once trimmed. */
  predicate KeyConfigured(c: Config) {
    Trim(c.apiKey) != ""
  }

  /** The opacity clamp of `setOpacity`: `min(1.0, max(0.1, x))`. */
  function ClampOpacity(x: real): (r: real)
    ensures 0.1 <= r <= 1.0
    ensures 0.1 <= x <= 1.0 ==> r == x
    ensures x < 0.1 ==> r == 0.1
    ensures x > 1.0 ==> r == 1.0
  {
    var low := if x > 0.1 then x else 0.1;
    if low < 1.0 then low else 1.0
  }

  /** The update `setOpacity` hands to `updateConfig`: only the clamped opacity. */
  function OpacityUpdate(x: real): (u: ConfigUpdate)
    ensures u.opacity == Some(ClampOpacity(x))
    ensures u.apiKey.None? && u.apiProvider.None? && u.language.None?
    ensures u.extractionModel.None? && u.solutionModel.None? && u.debuggingModel.None?
  {
    ConfigUpdate(None, None, None, None, None, None, Some(ClampOpacity(x)))
  }

  /** The outcome of a key test. */
  datatype KeyCheck = KeyCheck(valid: bool, error: Option<string>)

  /** `testApiKey`: OpenAI keys are tried against the vendor (`listOk` is the
      outcome of that request); Gemini keys are accepted without a test. */
  function TestApiKey(key: string, provider: Option<Provider>, listOk: bool): (r: KeyCheck)
    ensures KeyProvider(key, provider) == Gemini ==> r.valid
    ensures KeyProvider(key, provider) == OpenAI ==> (r.valid <==> listOk)
    ensures !r.valid ==> r.error == Some("Invalid API key")
  {
    match KeyProvider(key, provider)
    case OpenAI => if listOk then KeyCheck(true, None) else KeyCheck(false, Some("Invalid API key"))
    case Gemini => KeyCheck(true, None)
  }

  class ConfigManager {
    var file: ConfigFile

    /** The file always exists once the manager is constructed. */
    ghost predicate Valid()
      reads this
    {
      !file.Missing?
    }

    /** `ensureConfigFileExists`: a missing file is created with the defaults. */
    constructor (initial: ConfigFile)
      ensures Valid()
      ensures file == if initial.Missing? then Parsed(ToStored(DefaultConfig)) else initial
    {
      file := if initial.Missing? then Parsed(ToStored(DefaultConfig)) else initial;
    }

    /** `loadConfig`: a missing file is written with the defaults, which are
        returned; an unparsable one yields the defaults. */
    method LoadConfig() returns (c: Config)
      modifies this
      ensures Valid()
      ensures c == Load(old(file))
      ensures file == if old(file).Missing? then Parsed(ToStored(DefaultConfig)) else old(file)
    {
      match file
      case Missing =>
        file := Parsed(ToStored(DefaultConfig));
        c := DefaultConfig;
      case Unparsable =>
        c := DefaultConfig;
      case Parsed(s) =>
        c := LoadParsed(s);
    }

    /** `updateConfig`: the loaded config overlaid with the rewritten updates
        is saved and returned; `notified` tells whether "config-updated" is
        emitted, which it always is since the provider is always written. */
    method UpdateConfig(u: ConfigUpdate) returns (c: Config, notified: bool)
      modifies this
      ensures Valid()
      ensures c == Updated(Load(old(file)), u)
      ensures file == Parsed(ToStored(c))
      ensures notified
    {
      var current := LoadConfig();
      var resolved := ResolveUpdates(current, u);
      c := Overlay(current, resolved);
      file := Parsed(ToStored(c));
      notified := resolved.apiKey.Some? || resolved.apiProvider.Some? || resolved.extractionModel.Some?
                  || resolved.solutionModel.Some? || resolved.debuggingModel.Some? || resolved.language.Some?;
    }

    /** `hasApiKey`. */
    method HasApiKey() returns (b: bool)
      modifies this
      ensures Valid()
      ensures b <==> KeyConfigured(Load(old(file)))
      ensures file == if old(file).Missing? then Parsed(ToStored(DefaultConfig)) else old(file)
    {
      var c := LoadConfig();
      b := c.apiKey != "" && |Trim(c.apiKey)| > 0;
    }

    /** `setOpacity`: the clamped value is written through `updateConfig`. */
    method SetOpacity(x: real)
      modifies this
      ensures Valid()
      ensures file == Parsed(ToStored(Updated(Load(old(file)), OpacityUpdate(x))))
      ensures file.Parsed? && file.contents.opacity == Some(ClampOpacity(x))
      ensures Load(file).opacity == ClampOpacity(x)
    {
      var _, _ := UpdateConfig(OpacityUpdate(x));
    }

    /** `getOpacity`: the loaded opacity (the loaded config always has one). */
    method GetOpacity() returns (x: real)
      modifies this
      ensures Valid()
      ensures x == Load(old(file)).opacity
      ensures file == if old(file).Missing? then Parsed(ToStored(DefaultConfig)) else old(file)
    {
      var c := LoadConfig();
      x := c.opacity;
    }

    /** `getLanguage`: the loaded language, which is "cpp" when the file has
        none, so the "python" fallback is never taken. */
    method GetLanguage() returns (l: string)
      modifies this
      ensures Valid()
      ensures l == Load(old(file)).language
      ensures file == if old(file).Missing? then Parsed(ToStored(DefaultConfig)) else old(file)
    {
      var c := LoadConfig();
      l := c.language;
    }
  }
}
