/**
 * The model catalogue: the model id table, the text-model configuration table and the
 * record types the rest of the application reads.
 */
module ModelsConfig {
  import opened Wrappers

  /** A provider name. */
  type Provider = string

  /** The members of the `Provider` union this table is typed by. */
  const ConfigProviders: seq<Provider> := ["google", "openrouter", "openai", "anthropic"]

  /** `availableWhen`: "always" (a server-held key may be used) or "byok" (bring your own key). */
  datatype Availability = Always | Byok

  /**
   * A text model. `availableWhen` and `icon` are read by the model resolution and the pickers but are
   * not declared by this table's type, so for the table below they are absent (`None`).
   */
  datatype ModelConfig = ModelConfig(
    model: string,
    provider: Provider,
    modelName: string,
    canReason: bool,
    apiKeyEnv: string,
    supportsWebSearch: bool,
    availableWhen: Option<Availability>,
    icon: Option<string>)

  /** An image-generation model, as the model resolution reads it. */
  datatype ImageGenModelConfig = ImageGenModelConfig(
    model: string,
    provider: Provider,
    modelName: string,
    apiKeyEnv: string,
    availableWhen: Option<Availability>,
    icon: Option<string>)

  /** An object literal used as a table: its entries in key order. */
  type Table<C> = seq<(string, C)>

  /** Object keys are unique. */
  ghost predicate UniqueKeys<C>(t: Table<C>) {
    forall i, j :: 0 <= i < j < |t| ==> t[i].0 != t[j].0
  }

  function KeysOfTable<C>(t: Table<C>): (r: seq<string>)
    ensures |r| == |t|
    ensures forall i :: 0 <= i < |t| ==> r[i] == t[i].0
  {
    seq(|t|, i requires 0 <= i < |t| => t[i].0)
  }

  function ValuesOfTable<C>(t: Table<C>): (r: seq<C>)
    ensures |r| == |t|
    ensures forall i :: 0 <= i < |t| ==> r[i] == t[i].1
  {
    seq(|t|, i requires 0 <= i < |t| => t[i].1)
  }

  /** `table[key]`: the value stored under `key`, or `undefined`. */
  function Lookup<C>(t: Table<C>, key: string): (r: Option<C>)
    ensures r.Some? <==> exists i :: 0 <= i < |t| && t[i].0 == key
    ensures r.Some? ==> exists i :: 0 <= i < |t| && t[i] == (key, r.value)
  {
    if |t| == 0 then None
    else if t[0].0 == key then Some(t[0].1)
    else
      var r := Lookup(t[1..], key);
      assert forall i :: 1 <= i < |t| ==> t[i] == t[1..][i - 1];
      r
  }

  /** `modelsIds`: each id maps to itself. */
  const ModelsIds: Table<string> := [
    ("gemini-2.5-flash-thinking", "gemini-2.5-flash-thinking"),
    ("gemini-2.5-flash", "gemini-2.5-flash"),
    ("deepseek-r1", "deepseek-r1")
  ]

  /** `modelsConfig`, keyed by the ids above in the same order. */
  const ModelsConfigTable: Table<ModelConfig> := [
    ("gemini-2.5-flash-thinking", ModelConfig(
      "gemini-2.5-flash-thinking", "google", "gemini-2.0-flash-thinking-exp-01-21",
      true, "GOOGLE_API_KEY", true, None, None)),
    ("gemini-2.5-flash", ModelConfig(
      "gemini-2.5-flash", "google", "gemini-2.0-flash-exp",
      false, "GOOGLE_API_KEY", true, None, None)),
    ("deepseek-r1", ModelConfig(
      "deepseek-r1", "openrouter", "deepseek/deepseek-r1-0528-qwen3-8b:free",
      true, "OPENROUTER_API_KEY", false, None, None))
  ]

  /** Three model ids exist, each its own value, and they are exactly the keys of the configuration table. */
  lemma ModelIdsAreConfigKeys()
    ensures |ModelsIds| == 3 && UniqueKeys(ModelsIds)
    ensures forall i :: 0 <= i < |ModelsIds| ==> ModelsIds[i].0 == ModelsIds[i].1
    ensures KeysOfTable(ModelsConfigTable) == KeysOfTable(ModelsIds)
    ensures UniqueKeys(ModelsConfigTable)
  {
  }

  /** Every entry's key is its `model` field and its provider is one of the declared providers. */
  lemma ConfigEntriesWellFormed()
    ensures forall i :: 0 <= i < |ModelsConfigTable| ==>
      ModelsConfigTable[i].0 == ModelsConfigTable[i].1.model
      && ModelsConfigTable[i].1.provider in ConfigProviders
  {
  }

  /**
   * Capability flags: web search for both google entries and not for deepseek-r1;
   * reasoning exactly for gemini-2.5-flash-thinking and deepseek-r1.
   */
  lemma ConfigCapabilities()
    ensures forall i :: 0 <= i < |ModelsConfigTable| ==>
      (ModelsConfigTable[i].1.supportsWebSearch <==> ModelsConfigTable[i].1.provider == "google")
    ensures forall i :: 0 <= i < |ModelsConfigTable| ==>
      (ModelsConfigTable[i].1.canReason <==> ModelsConfigTable[i].0 in {"gemini-2.5-flash-thinking", "deepseek-r1"})
  {
  }
}
