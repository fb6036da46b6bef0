/**
 * Model and credential resolution, and the catalogue queries over the text-model and
 * image-model tables. Provider SDK constructors are not modelled: a constructed model records
 * only which constructor would be called, with which model id and key.
 */
module Models {
  import opened Wrappers
  import opened ModelsConfig
  import Grouping
  import Text

  /** The provider allow-list. */
  const SupportedProviders: seq<Provider> := ["google", "openrouter", "anthropic", "openai", "runware"]

  function IsProviderSupported(provider: Provider): (b: bool)
    ensures b <==> provider == "google" || provider == "openrouter" || provider == "anthropic"
                   || provider == "openai" || provider == "runware"
  {
    provider in SupportedProviders
  }

  /** Environment variables; an absent variable is `undefined`. */
  type Env = map<string, string>

  /** `process.env[name] || ""` */
  function EnvOrEmpty(env: Env, name: string): string {
    if name in env then env[name] else ""
  }

  /** `if (key)` for an optional string. */
  predicate KeyGiven(key: Option<string>) {
    key.Some? && Text.Truthy(key.value)
  }

  /** Which SDK constructor builds the model. */
  datatype Sdk =
    | GoogleSdk              // createGoogleGenerativeAI(...)(model)
    | OpenRouterChatSdk      // createOpenRouter(...).chat(model)
    | OpenAIStrictSdk        // createOpenAI({compatibility: "strict"})(model)
    | AnthropicSdk           // createAnthropic(...)(model)
    | RunwareImageSdk(maxImagesPerCall: nat)  // createRunware(...).image(model, ...)
    | OpenAIImageSdk         // createOpenAI(...).image(model)

  datatype ProviderModel = ProviderModel(sdk: Sdk, modelId: string, apiKey: string)

  function ByokMessage(modelName: string): string {
    "API key required for " + modelName + ". This model requires bring-your-own-key."
  }

  function NotSetMessage(apiKeyEnv: string): string {
    apiKeyEnv + " is not set"
  }

  function NotSupportedMessage(provider: Provider): string {
    "Provider '" + provider + "' is not currently supported. "
    + "Install the required package: bun add @ai-sdk/" + provider
  }

  function UnsupportedMessage(provider: Provider): string {
    "Unsupported provider: " + provider + ". Make sure to install the required @ai-sdk package."
  }

  /** The key the selection chain settles on (before the emptiness check). */
  function SelectedKey(provided: Option<string>, availableWhen: Option<Availability>, apiKeyEnv: string, env: Env): string {
    if KeyGiven(provided) then provided.value
    else if availableWhen == Some(Always) && Text.Truthy(apiKeyEnv) then EnvOrEmpty(env, apiKeyEnv)
    else ""
  }

  /** The error raised for an empty key. */
  function MissingKeyMessage(provided: Option<string>, availableWhen: Option<Availability>, modelName: string, apiKeyEnv: string): string {
    if availableWhen == Some(Byok) && !KeyGiven(provided) then ByokMessage(modelName) else NotSetMessage(apiKeyEnv)
  }

  /** A provided key is always the one used, whatever the availability policy. */
  lemma ProvidedKeyWins(provided: Option<string>, availableWhen: Option<Availability>, apiKeyEnv: string, env: Env)
    requires KeyGiven(provided)
    ensures SelectedKey(provided, availableWhen, apiKeyEnv, env) == provided.value != ""
  {
  }

  /**
   * Without a provided key, only an "always" model naming an environment variable gets a
   * key (that variable, or "") and everything else resolves to "".
   */
  lemma KeyWithoutProvided(provided: Option<string>, availableWhen: Option<Availability>, apiKeyEnv: string, env: Env)
    requires !KeyGiven(provided)
    ensures availableWhen == Some(Always) && apiKeyEnv != "" ==>
      SelectedKey(provided, availableWhen, apiKeyEnv, env) == (if apiKeyEnv in env then env[apiKeyEnv] else "")
    ensures !(availableWhen == Some(Always) && apiKeyEnv != "") ==> SelectedKey(provided, availableWhen, apiKeyEnv, env) == ""
  {
  }

  /**
   * What `createModel` yields: select the key, reject an empty one, reject a provider outside the
   * allow-list, then construct with the provider's text-model SDK (google, openrouter, openai,
   * anthropic); any other allowed provider has no text SDK.
   */
  function TextModelOutcome(config: ModelConfig, providedApiKey: Option<string>, env: Env): (r: Result<ProviderModel, string>)
    ensures var key := SelectedKey(providedApiKey, config.availableWhen, config.apiKeyEnv, env);
      && (key == "" ==> r == Err(MissingKeyMessage(providedApiKey, config.availableWhen, config.modelName, config.apiKeyEnv)))
      && (key != "" && !IsProviderSupported(config.provider) ==> r == Err(NotSupportedMessage(config.provider)))
      && (key != "" && config.provider == "runware" ==> r == Err(UnsupportedMessage(config.provider)))
      && (r.Ok? <==> key != "" && (config.provider == "google" || config.provider == "openrouter" || config.provider == "openai" || config.provider == "anthropic"))
      && (r.Ok? ==> r.value.apiKey == key && r.value.modelId == config.model)
      && (r.Ok? && config.provider == "google" ==> r.value.sdk == GoogleSdk)
      && (r.Ok? && config.provider == "openrouter" ==> r.value.sdk == OpenRouterChatSdk)
      && (r.Ok? && config.provider == "openai" ==> r.value.sdk == OpenAIStrictSdk)
      && (r.Ok? && config.provider == "anthropic" ==> r.value.sdk == AnthropicSdk)
  {
    var key := SelectedKey(providedApiKey, config.availableWhen, config.apiKeyEnv, env);
    if key == "" then Err(MissingKeyMessage(providedApiKey, config.availableWhen, config.modelName, config.apiKeyEnv))
    else if !IsProviderSupported(config.provider) then Err(NotSupportedMessage(config.provider))
    else if config.provider == "google" then Ok(ProviderModel(GoogleSdk, config.model, key))
    else if config.provider == "openrouter" then Ok(ProviderModel(OpenRouterChatSdk, config.model, key))
    else if config.provider == "openai" then Ok(ProviderModel(OpenAIStrictSdk, config.model, key))
    else if config.provider == "anthropic" then Ok(ProviderModel(AnthropicSdk, config.model, key))
    else Err(UnsupportedMessage(config.provider))
  }

  /** `createModel`, step by step as the source runs it. */
  method CreateModel(config: ModelConfig, providedApiKey: Option<string>, env: Env) returns (r: Result<ProviderModel, string>)
    ensures r == TextModelOutcome(config, providedApiKey, env)
  {
    var apiKey: string;
    if KeyGiven(providedApiKey) {
      apiKey := providedApiKey.value;
    } else if config.availableWhen == Some(Always) && Text.Truthy(config.apiKeyEnv) {
      apiKey := EnvOrEmpty(env, config.apiKeyEnv);
    } else {
      apiKey := "";
    }
    assert apiKey == SelectedKey(providedApiKey, config.availableWhen, config.apiKeyEnv, env);

    if apiKey == "" {
      if config.availableWhen == Some(Byok) && !KeyGiven(providedApiKey) {
        return Err(ByokMessage(config.modelName));
      }
      return Err(NotSetMessage(config.apiKeyEnv));
    }

    if !IsProviderSupported(config.provider) {
      return Err(NotSupportedMessage(config.provider));
    }

    match config.provider
    case "google" => r := Ok(ProviderModel(GoogleSdk, config.model, apiKey));
    case "openrouter" => r := Ok(ProviderModel(OpenRouterChatSdk, config.model, apiKey));
    case "openai" => r := Ok(ProviderModel(OpenAIStrictSdk, config.model, apiKey));
    case "anthropic" => r := Ok(ProviderModel(AnthropicSdk, config.model, apiKey));
    case _ => r := Err(UnsupportedMessage(config.provider));
  }

  /**
   * What `createImageGenModel` yields: the same key selection and allow-list, then construction
   * with an image SDK, which exists only for runware (one image per call) and openai.
   */
  function ImageModelOutcome(config: ImageGenModelConfig, providedApiKey: Option<string>, env: Env): (r: Result<ProviderModel, string>)
    ensures var key := SelectedKey(providedApiKey, config.availableWhen, config.apiKeyEnv, env);
      && (key == "" ==> r == Err(MissingKeyMessage(providedApiKey, config.availableWhen, config.modelName, config.apiKeyEnv)))
      && (key != "" && !IsProviderSupported(config.provider) ==> r == Err(NotSupportedMessage(config.provider)))
      && (key != "" && (config.provider == "google" || config.provider == "openrouter" || config.provider == "anthropic") ==> r == Err(UnsupportedMessage(config.provider)))
      && (r.Ok? <==> key != "" && (config.provider == "runware" || config.provider == "openai"))
      && (r.Ok? ==> r.value.apiKey == key && r.value.modelId == config.model)
      && (r.Ok? && config.provider == "runware" ==> r.value.sdk == RunwareImageSdk(1))
      && (r.Ok? && config.provider == "openai" ==> r.value.sdk == OpenAIImageSdk)
  {
    var key := SelectedKey(providedApiKey, config.availableWhen, config.apiKeyEnv, env);
    if key == "" then Err(MissingKeyMessage(providedApiKey, config.availableWhen, config.modelName, config.apiKeyEnv))
    else if !IsProviderSupported(config.provider) then Err(NotSupportedMessage(config.provider))
    else if config.provider == "runware" then Ok(ProviderModel(RunwareImageSdk(1), config.model, key))
    else if config.provider == "openai" then Ok(ProviderModel(OpenAIImageSdk, config.model, key))
    else Err(UnsupportedMessage(config.provider))
  }

  /** `createImageGenModel`, step by step as the source runs it. */
  method CreateImageGenModel(config: ImageGenModelConfig, providedApiKey: Option<string>, env: Env) returns (r: Result<ProviderModel, string>)
    ensures r == ImageModelOutcome(config, providedApiKey, env)
  {
    var apiKey: string;
    if KeyGiven(providedApiKey) {
      apiKey := providedApiKey.value;
    } else if config.availableWhen == Some(Always) && Text.Truthy(config.apiKeyEnv) {
      apiKey := EnvOrEmpty(env, config.apiKeyEnv);
    } else {
      apiKey := "";
    }
    assert apiKey == SelectedKey(providedApiKey, config.availableWhen, config.apiKeyEnv, env);
    if apiKey == "" {
      if config.availableWhen == Some(Byok) && !KeyGiven(providedApiKey) {
        return Err(ByokMessage(config.modelName));
      }
      return Err(NotSetMessage(config.apiKeyEnv));
    }

    if !IsProviderSupported(config.provider) {
      return Err(NotSupportedMessage(config.provider));
    }

    match config.provider
    case "runware" => r := Ok(ProviderModel(RunwareImageSdk(1), config.model, apiKey));
    case "openai" => r := Ok(ProviderModel(OpenAIImageSdk, config.model, apiKey));
    case _ => r := Err(UnsupportedMessage(config.provider));
  }

  /** What `getModel` returns: the constructed model and two capability flags of its configuration. */
  datatype ResolvedModel = ResolvedModel(model: ProviderModel, canReason: bool, supportsWebSearch: bool)

  /** What `getImageGenModel` returns. */
  datatype ResolvedImageGenModel = ResolvedImageGenModel(model: ProviderModel, modelName: string, provider: Provider)

  /**
   * A property key as JavaScript sees it: an `undefined` key is looked up as "undefined".
   */
  function PropertyKey(key: Option<string>): string {
    if key.Some? then key.value else "undefined"
  }

  /**
   * The key `getModel` looks up: the requested model when it is a non-empty string, else
   * `modelsIds["gemini-2.0-flash"]`.
   */
  function SelectedModelKey(model: Option<string>, ids: Table<string>): string {
    if KeyGiven(model) then model.value else PropertyKey(Lookup(ids, "gemini-2.0-flash"))
  }

  function ConfigNotFoundMessage(key: string): string {
    "Model configuration not found for: " + key
  }

  /**
   * What `getModel` yields: look the model up (defaulting as above), fail when there is no
   * configuration, otherwise construct it and copy `canReason` and `supportsWebSearch` from the
   * configuration. It never yields an empty value: every failure is an error.
   */
  function ModelResolution(model: Option<string>, apiKey: Option<string>, ids: Table<string>, table: Table<ModelConfig>, env: Env)
    : (r: Result<ResolvedModel, string>)
    ensures var key := SelectedModelKey(model, ids);
      && (Lookup(table, key).None? ==> r == Err(ConfigNotFoundMessage(key)))
      && (Lookup(table, key).Some? ==>
            var config := Lookup(table, key).value;
            && (r.Ok? ==> r.value.canReason == config.canReason && r.value.supportsWebSearch == config.supportsWebSearch
                          && r.value.model.modelId == config.model
                          && r.value.model.apiKey == SelectedKey(apiKey, config.availableWhen, config.apiKeyEnv, env))
            && (r.Ok? <==> SelectedKey(apiKey, config.availableWhen, config.apiKeyEnv, env) != ""
                           && (config.provider == "google" || config.provider == "openrouter" || config.provider == "openai" || config.provider == "anthropic"))
            && (SelectedKey(apiKey, config.availableWhen, config.apiKeyEnv, env) == "" ==>
                  r == Err(MissingKeyMessage(apiKey, config.availableWhen, config.modelName, config.apiKeyEnv))))
  {
    var key := SelectedModelKey(model, ids);
    match Lookup(table, key)
    case None => Err(ConfigNotFoundMessage(key))
    case Some(config) =>
      match TextModelOutcome(config, apiKey, env)
      case Err(e) => Err(e)
      case Ok(m) => Ok(ResolvedModel(m, config.canReason, config.supportsWebSearch))
  }

  /** `getModel`, step by step as the source runs it. */
  method GetModel(model: Option<string>, apiKey: Option<string>, ids: Table<string>, table: Table<ModelConfig>, env: Env)
    returns (r: Result<ResolvedModel, string>)
    ensures r == ModelResolution(model, apiKey, ids, table, env)
  {
    var selectedModel := SelectedModelKey(model, ids);
    var config := Lookup(table, selectedModel);
    if config.None? {
      return Err(ConfigNotFoundMessage(selectedModel));
    }
    var created := CreateModel(config.value, apiKey, env);
    if created.Err? {
      return Err(created.error);
    }
    r := Ok(ResolvedModel(created.value, config.value.canReason, config.value.supportsWebSearch));
  }

  /** What `getImageGenModel` yields: the same, over the image table, defaulting to "runware:100@1". */
  function ImageGenModelResolution(model: Option<string>, apiKey: Option<string>, imageTable: Table<ImageGenModelConfig>, env: Env)
    : (r: Result<ResolvedImageGenModel, string>)
    ensures var key := if KeyGiven(model) then model.value else "runware:100@1";
      && (Lookup(imageTable, key).None? ==>
            r == Err("Image generation model configuration not found for: " + key))
      && (Lookup(imageTable, key).Some? ==>
            var config := Lookup(imageTable, key).value;
            && (r.Ok? ==> r.value.modelName == config.modelName && r.value.provider == config.provider
                          && r.value.model.modelId == config.model
                          && r.value.model.apiKey == SelectedKey(apiKey, config.availableWhen, config.apiKeyEnv, env))
            && (r.Ok? <==> SelectedKey(apiKey, config.availableWhen, config.apiKeyEnv, env) != ""
                           && (config.provider == "runware" || config.provider == "openai"))
            && (SelectedKey(apiKey, config.availableWhen, config.apiKeyEnv, env) == "" ==>
                  r == Err(MissingKeyMessage(apiKey, config.availableWhen, config.modelName, config.apiKeyEnv))))
  {
    var key := if KeyGiven(model) then model.value else "runware:100@1";
    match Lookup(imageTable, key)
    case None => Err("Image generation model configuration not found for: " + key)
    case Some(config) =>
      match ImageModelOutcome(config, apiKey, env)
      case Err(e) => Err(e)
      case Ok(m) => Ok(ResolvedImageGenModel(m, config.modelName, config.provider))
  }

  /** `getImageGenModel`, step by step as the source runs it. */
  method GetImageGenModel(model: Option<string>, apiKey: Option<string>, imageTable: Table<ImageGenModelConfig>, env: Env)
    returns (r: Result<ResolvedImageGenModel, string>)
    ensures r == ImageGenModelResolution(model, apiKey, imageTable, env)
  {
    var selectedModel := if KeyGiven(model) then model.value else "runware:100@1";
    var config := Lookup(imageTable, selectedModel);
    if config.None? {
      return Err("Image generation model configuration not found for: " + selectedModel);
    }
    var created := CreateImageGenModel(config.value, apiKey, env);
    if created.Err? {
      return Err(created.error);
    }
    r := Ok(ResolvedImageGenModel(created.value, config.value.modelName, config.value.provider));
  }

  /**
   * With the shipped tables no request can resolve without its own key: the default text model is
   * not among `modelsIds`, and the table's entries declare no availability, so the environment key
   * is never consulted.
   */
  lemma ShippedTableNeedsProvidedKey(model: Option<string>, apiKey: Option<string>, env: Env)
    requires !KeyGiven(apiKey)
    ensures SelectedModelKey(None, ModelsIds) == "undefined"
    ensures Lookup(ModelsConfigTable, SelectedModelKey(None, ModelsIds)).None?
    ensures forall i :: 0 <= i < |ModelsConfigTable| ==>
      var c := ModelsConfigTable[i].1;
      SelectedKey(apiKey, c.availableWhen, c.apiKeyEnv, env) == ""
      && MissingKeyMessage(apiKey, c.availableWhen, c.modelName, c.apiKeyEnv) == NotSetMessage(c.apiKeyEnv)
  {
    assert Lookup(ModelsIds, "gemini-2.0-flash").None?;
  }

  // ---------------------------------------------------------------------------------------------
  // Catalogue queries

  /** `getAvailableModels`: the configuration keys in table order. */
  function GetAvailableModels(table: Table<ModelConfig>): (r: seq<string>)
    ensures |r| == |table|
    ensures forall i :: 0 <= i < |table| ==> r[i] == table[i].0
    ensures UniqueKeys(table) ==> forall i, j :: 0 <= i < j < |r| ==> r[i] != r[j]
  {
    KeysOfTable(table)
  }

  /** One entry of a model picker. */
  datatype CategorizedModel = CategorizedModel(model: string, modelName: string, category: string, icon: Option<string>)

  function CategoryOf(config: ModelConfig): string {
    if config.canReason then "Reasoning" else "General"
  }

  /** `getAvailableModelsWithCategories`: one entry per key, labelled "Reasoning" iff it can reason, else "General". */
  function GetAvailableModelsWithCategories(table: Table<ModelConfig>): (r: seq<CategorizedModel>)
    ensures |r| == |table|
    ensures forall i :: 0 <= i < |table| ==>
      && r[i].model == table[i].0 && r[i].modelName == table[i].1.modelName && r[i].icon == table[i].1.icon
      && (r[i].category == "Reasoning" <==> table[i].1.canReason)
      && (r[i].category == "General" <==> !table[i].1.canReason)
  {
    seq(|table|, i requires 0 <= i < |table| =>
      CategorizedModel(table[i].0, table[i].1.modelName, CategoryOf(table[i].1), table[i].1.icon))
  }

  /** `getAvailableImageGenModelsWithCategories`: one entry per key, all labelled "Image Generation". */
  function GetAvailableImageGenModelsWithCategories(imageTable: Table<ImageGenModelConfig>): (r: seq<CategorizedModel>)
    ensures |r| == |imageTable|
    ensures forall i :: 0 <= i < |imageTable| ==>
      r[i].model == imageTable[i].0 && r[i].modelName == imageTable[i].1.modelName
      && r[i].category == "Image Generation" && r[i].icon == imageTable[i].1.icon
  {
    seq(|imageTable|, i requires 0 <= i < |imageTable| =>
      CategorizedModel(imageTable[i].0, imageTable[i].1.modelName, "Image Generation", imageTable[i].1.icon))
  }

  function TextProviders(table: Table<ModelConfig>): (r: seq<Provider>)
    ensures |r| == |table| && forall i :: 0 <= i < |table| ==> r[i] == table[i].1.provider
  {
    seq(|table|, i requires 0 <= i < |table| => table[i].1.provider)
  }

  function ImageProviders(imageTable: Table<ImageGenModelConfig>): (r: seq<Provider>)
    ensures |r| == |imageTable| && forall i :: 0 <= i < |imageTable| ==> r[i] == imageTable[i].1.provider
  {
    seq(|imageTable|, i requires 0 <= i < |imageTable| => imageTable[i].1.provider)
  }

  /** `set.add(p)` on an insertion-ordered set. */
  function AddToSet(providers: seq<Provider>, p: Provider): seq<Provider> {
    if p in providers then providers else providers + [p]
  }

  /** Adding the next element of `s` to the set built from `prefix` and a prefix of `s`. */
  lemma DistinctAppendStep(prefix: seq<Provider>, s: seq<Provider>, j: nat)
    requires j < |s|
    ensures Grouping.Distinct(prefix + s[..j + 1]) == AddToSet(Grouping.Distinct(prefix + s[..j]), s[j])
  {
    var q := prefix + s[..j];
    assert prefix + s[..j + 1] == q + [s[j]];
    assert (q + [s[j]])[..|q|] == q;
  }

  /** The `forEach(config => providers.add(config.provider))` over the text table. */
  method AddTextProviders(start: seq<Provider>, ghost seen: seq<Provider>, table: Table<ModelConfig>)
    returns (providers: seq<Provider>)
    requires start == Grouping.Distinct(seen)
    ensures providers == Grouping.Distinct(seen + TextProviders(table))
  {
    ghost var text := TextProviders(table);
    providers := start;
    assert seen + text[..0] == seen;
    var i := 0;
    while i < |table|
      invariant 0 <= i <= |table|
      invariant providers == Grouping.Distinct(seen + text[..i])
    {
      DistinctAppendStep(seen, text, i);
      providers := AddToSet(providers, table[i].1.provider);
      i := i + 1;
    }
    assert text[..i] == text;
  }

  /** The same `forEach` over the image table. */
  method AddImageProviders(start: seq<Provider>, ghost seen: seq<Provider>, imageTable: Table<ImageGenModelConfig>)
    returns (providers: seq<Provider>)
    requires start == Grouping.Distinct(seen)
    ensures providers == Grouping.Distinct(seen + ImageProviders(imageTable))
  {
    ghost var image := ImageProviders(imageTable);
    providers := start;
    assert seen + image[..0] == seen;
    var j := 0;
    while j < |imageTable|
      invariant 0 <= j <= |imageTable|
      invariant providers == Grouping.Distinct(seen + image[..j])
    {
      DistinctAppendStep(seen, image, j);
      providers := AddToSet(providers, imageTable[j].1.provider);
      j := j + 1;
    }
    assert image[..j] == image;
  }

  /** The set built from `s` has no duplicates and exactly the members of `s`. */
  lemma DistinctIsSetOf(s: seq<Provider>)
    ensures Grouping.NoDuplicates(Grouping.Distinct(s))
    ensures forall p :: p in Grouping.Distinct(s) <==> p in s
  {
    Grouping.DistinctNoDuplicates(s);
    forall p ensures p in Grouping.Distinct(s) <==> p in s {
      Grouping.DistinctMembers(s, p);
    }
  }

  /**
   * `getAvailableProviders`: each provider of the text table once, in order of first appearance;
   * so exactly the providers that occur in the table.
   */
  method GetAvailableProviders(table: Table<ModelConfig>) returns (providers: seq<Provider>)
    ensures providers == Grouping.Distinct(TextProviders(table))
    ensures Grouping.NoDuplicates(providers)
    ensures forall p :: p in providers <==> p in TextProviders(table)
  {
    providers := AddTextProviders([], [], table);
    assert [] + TextProviders(table) == TextProviders(table);
    DistinctIsSetOf(TextProviders(table));
  }

  /** `getAvailableImageGenProviders`: the same over the image table. */
  method GetAvailableImageGenProviders(imageTable: Table<ImageGenModelConfig>) returns (providers: seq<Provider>)
    ensures providers == Grouping.Distinct(ImageProviders(imageTable))
    ensures Grouping.NoDuplicates(providers)
    ensures forall p :: p in providers <==> p in ImageProviders(imageTable)
  {
    providers := AddImageProviders([], [], imageTable);
    assert [] + ImageProviders(imageTable) == ImageProviders(imageTable);
    DistinctIsSetOf(ImageProviders(imageTable));
  }

  /** Providers of the text table followed by those of the image table. */
  function BothProviders(table: Table<ModelConfig>, imageTable: Table<ImageGenModelConfig>): (r: seq<Provider>)
    ensures |r| == |table| + |imageTable|
    ensures forall i :: 0 <= i < |table| ==> r[i] == table[i].1.provider
    ensures forall j :: 0 <= j < |imageTable| ==> r[|table| + j] == imageTable[j].1.provider
    ensures forall p :: p in r <==> p in TextProviders(table) || p in ImageProviders(imageTable)
  {
    TextProviders(table) + ImageProviders(imageTable)
  }

  /** `getAllAvailableProviders`: the text providers, then the new image providers, each once. */
  method GetAllAvailableProviders(table: Table<ModelConfig>, imageTable: Table<ImageGenModelConfig>) returns (providers: seq<Provider>)
    ensures providers == Grouping.Distinct(BothProviders(table, imageTable))
    ensures Grouping.NoDuplicates(providers)
    ensures forall p :: p in providers <==> p in TextProviders(table) || p in ImageProviders(imageTable)
  {
    providers := AddTextProviders([], [], table);
    assert [] + TextProviders(table) == TextProviders(table);
    providers := AddImageProviders(providers, TextProviders(table), imageTable);
    DistinctIsSetOf(BothProviders(table, imageTable));
  }

  /** `getModelConfig` */
  function GetModelConfig(table: Table<ModelConfig>, model: string): (r: Option<ModelConfig>)
    ensures r.Some? <==> model in KeysOfTable(table)
  {
    Lookup(table, model)
  }

  function ProviderOf(c: ModelConfig): Provider {
    c.provider
  }

  function ImageProviderOf(c: ImageGenModelConfig): Provider {
    c.provider
  }

  /**
   * `getModelsByProvider`: the configurations with that provider, in table order, each as often
   * as it occurs (`ModelsByProviderMembers`, `ModelsByProviderInTableOrder`).
   */
  function GetModelsByProvider(table: Table<ModelConfig>, provider: Provider): (r: seq<ModelConfig>)
    ensures forall j :: 0 <= j < |r| ==> r[j].provider == provider
  {
    var r := Grouping.WithKey(ValuesOfTable(table), ProviderOf, provider);
    Grouping.WithKeyAtPositions(ValuesOfTable(table), ProviderOf, provider);
    r
  }

  /** `getImageGenModelsByProvider`: the image configurations with that provider, in table order, each as often as it occurs. */
  function GetImageGenModelsByProvider(imageTable: Table<ImageGenModelConfig>, provider: Provider): (r: seq<ImageGenModelConfig>)
    ensures forall j :: 0 <= j < |r| ==> r[j].provider == provider
  {
    var r := Grouping.WithKey(ValuesOfTable(imageTable), ImageProviderOf, provider);
    Grouping.WithKeyAtPositions(ValuesOfTable(imageTable), ImageProviderOf, provider);
    r
  }

  /** A configuration is among a provider's text models iff it is in the table with that provider. */
  lemma ModelsByProviderMembers(table: Table<ModelConfig>, provider: Provider, c: ModelConfig)
    ensures c in GetModelsByProvider(table, provider) <==> c in ValuesOfTable(table) && c.provider == provider
  {
    Grouping.WithKeyMembers(ValuesOfTable(table), ProviderOf, provider, c);
  }

  /** The same for image models. */
  lemma ImageModelsByProviderMembers(imageTable: Table<ImageGenModelConfig>, provider: Provider, c: ImageGenModelConfig)
    ensures c in GetImageGenModelsByProvider(imageTable, provider) <==> c in ValuesOfTable(imageTable) && c.provider == provider
  {
    Grouping.WithKeyMembers(ValuesOfTable(imageTable), ImageProviderOf, provider, c);
  }

  /**
   * The text models of a provider keep table order and multiplicity: entry j is the configuration
   * at the j-th table index whose provider matches.
   */
  lemma ModelsByProviderInTableOrder(table: Table<ModelConfig>, provider: Provider)
    ensures var r, p := GetModelsByProvider(table, provider), Grouping.Positions(ValuesOfTable(table), ProviderOf, provider);
      |r| == |p| && forall j :: 0 <= j < |r| ==> r[j] == table[p[j]].1
  {
    Grouping.WithKeyAtPositions(ValuesOfTable(table), ProviderOf, provider);
  }

  /** The same for image models. */
  lemma ImageModelsByProviderInTableOrder(imageTable: Table<ImageGenModelConfig>, provider: Provider)
    ensures var r, p := GetImageGenModelsByProvider(imageTable, provider), Grouping.Positions(ValuesOfTable(imageTable), ImageProviderOf, provider);
      |r| == |p| && forall j :: 0 <= j < |r| ==> r[j] == imageTable[p[j]].1
  {
    Grouping.WithKeyAtPositions(ValuesOfTable(imageTable), ImageProviderOf, provider);
  }

  /** An image table has a model for `p` iff `p` is one of its providers. */
  lemma ImageModelsExistIff(imageTable: Table<ImageGenModelConfig>, p: Provider)
    ensures |GetImageGenModelsByProvider(imageTable, p)| > 0 <==> p in ImageProviders(imageTable)
  {
    var values := ValuesOfTable(imageTable);
    var ms := GetImageGenModelsByProvider(imageTable, p);
    if p in ImageProviders(imageTable) {
      var i :| 0 <= i < |imageTable| && ImageProviders(imageTable)[i] == p;
      assert values[i] in values;
      ImageModelsByProviderMembers(imageTable, p, values[i]);
    }
    if |ms| > 0 {
      assert ms[0] in ms;
      ImageModelsByProviderMembers(imageTable, p, ms[0]);
      var i :| 0 <= i < |values| && values[i] == ms[0];
      assert ImageProviders(imageTable)[i] == p;
    }
  }

  /** Keeps the providers of `ps` that have at least one image model, in order. */
  function WithImageModels(ps: seq<Provider>, imageTable: Table<ImageGenModelConfig>): (r: seq<Provider>)
    ensures forall p :: p in r <==> p in ps && |GetImageGenModelsByProvider(imageTable, p)| > 0
    ensures Grouping.NoDuplicates(ps) ==> Grouping.NoDuplicates(r)
  {
    if |ps| == 0 then []
    else
      var rest := WithImageModels(ps[1..], imageTable);
      assert forall p :: p in ps <==> p == ps[0] || p in ps[1..];
      if |GetImageGenModelsByProvider(imageTable, ps[0]) | > 0 then [ps[0]] + rest else rest
  }

  /**
   * `getImageGenProviders`: the providers of both tables that have an image model; each once,
   * and exactly the providers of the image table.
   */
  method GetImageGenProviders(table: Table<ModelConfig>, imageTable: Table<ImageGenModelConfig>) returns (r: seq<Provider>)
    ensures Grouping.NoDuplicates(r)
    ensures forall p :: p in r <==> p in ImageProviders(imageTable)
  {
    var providers := GetAllAvailableProviders(table, imageTable);
    r := WithImageModels(providers, imageTable);
    forall p ensures p in r <==> p in ImageProviders(imageTable) {
      ImageModelsExistIff(imageTable, p);
    }
  }

  /** One entry of `getAllModelsFromProvider`. */
  datatype ModelSummary = ModelSummary(model: string, modelName: string, provider: Provider, icon: Option<string>)

  function SummaryOfText(c: ModelConfig): ModelSummary {
    ModelSummary(c.model, c.modelName, c.provider, c.icon)
  }

  function SummaryOfImage(c: ImageGenModelConfig): ModelSummary {
    ModelSummary(c.model, c.modelName, c.provider, c.icon)
  }

  /** `getAllModelsFromProvider`: that provider's text models, then its image models. */
  function GetAllModelsFromProvider(table: Table<ModelConfig>, imageTable: Table<ImageGenModelConfig>, provider: Provider)
    : (r: seq<ModelSummary>)
    ensures var text := GetModelsByProvider(table, provider);
      var images := GetImageGenModelsByProvider(imageTable, provider);
      && |r| == |text| + |images|
      && (forall i :: 0 <= i < |text| ==> r[i] == SummaryOfText(text[i]))
      && (forall i :: 0 <= i < |images| ==> r[|text| + i] == SummaryOfImage(images[i]))
      && (forall i :: 0 <= i < |r| ==> r[i].provider == provider)
  {
    var text := GetModelsByProvider(table, provider);
    var images := GetImageGenModelsByProvider(imageTable, provider);
    var a, b := TextSummaries(text), ImageSummaries(images);
    assert forall i :: 0 <= i < |a| ==> a[i].provider == provider by {
      forall i | 0 <= i < |a| ensures a[i].provider == provider {
        assert a[i] == SummaryOfText(text[i]);
      }
    }
    assert forall i :: 0 <= i < |b| ==> b[i].provider == provider by {
      forall i | 0 <= i < |b| ensures b[i].provider == provider {
        assert b[i] == SummaryOfImage(images[i]);
      }
    }
    SummariesConcat(a, b, provider);
    a + b
  }

  lemma SummariesConcat(a: seq<ModelSummary>, b: seq<ModelSummary>, provider: Provider)
    requires forall i :: 0 <= i < |a| ==> a[i].provider == provider
    requires forall i :: 0 <= i < |b| ==> b[i].provider == provider
    ensures forall i :: 0 <= i < |a| ==> (a + b)[i] == a[i]
    ensures forall i :: 0 <= i < |b| ==> (a + b)[|a| + i] == b[i]
    ensures forall i :: 0 <= i < |a + b| ==> (a + b)[i].provider == provider
  {
  }

  function TextSummaries(cs: seq<ModelConfig>): (r: seq<ModelSummary>)
    ensures |r| == |cs| && forall i :: 0 <= i < |cs| ==> r[i] == SummaryOfText(cs[i])
  {
    seq(|cs|, i requires 0 <= i < |cs| => SummaryOfText(cs[i]))
  }

  function ImageSummaries(cs: seq<ImageGenModelConfig>): (r: seq<ModelSummary>)
    ensures |r| == |cs| && forall i :: 0 <= i < |cs| ==> r[i] == SummaryOfImage(cs[i])
  {
    seq(|cs|, i requires 0 <= i < |cs| => SummaryOfImage(cs[i]))
  }
}
