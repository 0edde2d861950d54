/**
 * The user's AI credentials and choice of provider and model.  A provider is
 * named by its tag; the three known tags each own one key field.
 */
module AISettingsStore {
  import opened Wrappers

  const OpenAITag: string := "openai"
  const GoogleTag: string := "google"
  const AnthropicTag: string := "anthropic"

  predicate IsProvider(p: string)
  {
    p == OpenAITag || p == GoogleTag || p == AnthropicTag
  }

  datatype Settings = Settings(
    openaiKey: string,
    googleKey: string,
    anthropicKey: string,
    selectedProvider: string,
    selectedModel: string)

  /** No keys, the OpenAI provider, no model chosen. */
  const InitialSettings: Settings := Settings("", "", "", OpenAITag, "")

  /** The key field that belongs to provider `p`; none for an unknown tag. */
  function KeyFor(s: Settings, p: string): (r: Option<string>)
    ensures r.Some? <==> IsProvider(p)
  {
    if p == OpenAITag then Some(s.openaiKey)
    else if p == GoogleTag then Some(s.googleKey)
    else if p == AnthropicTag then Some(s.anthropicKey)
    else None
  }

  /** `hasKey`: the provider is known and its key is not the empty string. */
  function HasKey(s: Settings, p: string): (b: bool)
    ensures b <==> ((p == OpenAITag && s.openaiKey != "")
                    || (p == GoogleTag && s.googleKey != "")
                    || (p == AnthropicTag && s.anthropicKey != ""))
  {
    match KeyFor(s, p)
    case Some(k) => k != ""
    case None => false
  }

  /** Setting one provider's key decides that provider's answer and leaves the other two alone. */
  lemma SetKeyAffectsOnlyItsProvider(s: Settings, k: string, p: string)
    ensures HasKey(s.(openaiKey := k), OpenAITag) == (k != "")
    ensures HasKey(s.(googleKey := k), GoogleTag) == (k != "")
    ensures HasKey(s.(anthropicKey := k), AnthropicTag) == (k != "")
    ensures p != OpenAITag ==> HasKey(s.(openaiKey := k), p) == HasKey(s, p)
    ensures p != GoogleTag ==> HasKey(s.(googleKey := k), p) == HasKey(s, p)
    ensures p != AnthropicTag ==> HasKey(s.(anthropicKey := k), p) == HasKey(s, p)
  {
  }

  /** Choosing a provider or a model never changes which providers have a key. */
  lemma SelectionDoesNotAffectKeys(s: Settings, provider: string, model: string, p: string)
    ensures HasKey(s.(selectedProvider := provider), p) == HasKey(s, p)
    ensures HasKey(s.(selectedModel := model), p) == HasKey(s, p)
  {
  }

  /** Before any setter runs, no provider has a key. */
  lemma InitiallyNoKeys(p: string)
    ensures !HasKey(InitialSettings, p)
  {
  }

  class Store {
    var openaiKey: string
    var googleKey: string
    var anthropicKey: string
    var selectedProvider: string
    var selectedModel: string

    constructor ()
      ensures Current() == InitialSettings
    {
      openaiKey, googleKey, anthropicKey := "", "", "";
      selectedProvider, selectedModel := OpenAITag, "";
    }

    /** The settings value the store holds (what the AI service is handed). */
    function Current(): Settings
      reads this
    {
      Settings(openaiKey, googleKey, anthropicKey, selectedProvider, selectedModel)
    }

    function HasKeyFor(p: string): (b: bool)
      reads this
      ensures b <==> KeyFor(Current(), p).Some? && KeyFor(Current(), p).value != ""
    {
      HasKey(Current(), p)
    }

    method SetOpenAIKey(key: string)
      modifies this
      ensures Current() == old(Current()).(openaiKey := key)
    {
      openaiKey := key;
    }

    method SetGoogleKey(key: string)
      modifies this
      ensures Current() == old(Current()).(googleKey := key)
    {
      googleKey := key;
    }

    method SetAnthropicKey(key: string)
      modifies this
      ensures Current() == old(Current()).(anthropicKey := key)
    {
      anthropicKey := key;
    }

    method SetSelectedProvider(provider: string)
      modifies this
      ensures Current() == old(Current()).(selectedProvider := provider)
    {
      selectedProvider := provider;
    }

    method SetSelectedModel(model: string)
      modifies this
      ensures Current() == old(Current()).(selectedModel := model)
    {
      selectedModel := model;
    }
  }
}
