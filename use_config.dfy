/** The persisted client configuration store: provider keys and the selected models. */
module UseConfig {
  import opened Wrappers
  import opened ModelsConfig
  import Models

  const DefaultModel: string := "gemini-2.0-flash-lite"
  const DefaultImageGenModel: string := "runware:100@1"

  class ConfigStore {
    /** `keys`: the API key the user has stored for each provider. */
    var keys: map<Provider, string>
    var selectedModel: string
    var selectedImageGenModel: string

    constructor ()
      ensures keys == map[] && selectedModel == DefaultModel && selectedImageGenModel == DefaultImageGenModel
    {
      keys := map[];
      selectedModel := DefaultModel;
      selectedImageGenModel := DefaultImageGenModel;
    }

    /** `appendKey`: stores `value` under `provider`, replacing an earlier key of that provider only. */
    method AppendKey(provider: Provider, value: string)
      modifies this
      ensures keys == old(keys)[provider := value]
      ensures GetKey(provider) == Some(value)
      ensures forall p :: p != provider ==> GetKey(p) == old(GetKey(p))
      ensures selectedModel == old(selectedModel) && selectedImageGenModel == old(selectedImageGenModel)
    {
      keys := keys[provider := value];
    }

    /** `getKey`: the stored key of a provider, or `undefined`. */
    function GetKey(provider: Provider): (r: Option<string>)
      reads this
      ensures r.Some? <==> provider in keys
      ensures r.Some? ==> r.value == keys[provider]
    {
      if provider in keys then Some(keys[provider]) else None
    }

    /** `setSelectedModel`: accepts a text or an image model id without distinction. */
    method SetSelectedModel(model: string)
      modifies this
      ensures selectedModel == model
      ensures keys == old(keys) && selectedImageGenModel == old(selectedImageGenModel)
    {
      selectedModel := model;
    }

    method SetSelectedImageGenModel(model: string)
      modifies this
      ensures selectedImageGenModel == model
      ensures keys == old(keys) && selectedModel == old(selectedModel)
    {
      selectedImageGenModel := model;
    }
  }

  /** The default model is not one of the configured models, so looking up its provider fails. */
  lemma DefaultModelHasNoConfig()
    ensures Models.GetModelConfig(ModelsConfigTable, DefaultModel).None?
    ensures DefaultModel !in KeysOfTable(ModelsIds)
  {
    ModelIdsAreConfigKeys();
  }
}
