/**
 * `AIManager` of `AI.ts`, the dispatcher `httpManager.ts` declares and
 * `services/ServiceManager.ts` wires to the HTTP service: a map from
 * provider name to adapter factory, a `getConfig` accessor assigned by `initialize`,
 * and at most one active adapter.
 */
module AiRegistry {
  import opened Wrappers
  import opened Errors
  import opened ProviderConfigs
  import opened Adapters

  /** `providerMap[name]`: a factory is registered under exactly the five enum members, each for its own provider. */
  function ProviderMap(name: ProviderName): (r: Option<Provider>)
    ensures r.Some? <==> name.Known?
    ensures r.Some? ==> r.value == name.provider
  {
    match name
    case Known(p) => Some(p)
    case Unknown(_) => None
  }

  class AIManager {
    /** Whether `initialize` has assigned `getConfig`. */
    var initialized: bool
    /** The `config` field: the AI configuration last read by `load`. */
    var config: Option<AiConfig>
    /** The `activeProvider` field: the loaded adapter, or `undefined`. */
    var activeProvider: Adapter?

    /** An active adapter is a modular one that still holds its client. */
    ghost predicate Valid()
      reads this, activeProvider
    {
      activeProvider != null ==> activeProvider.sdk.Some? && activeProvider.dialect == Modular
    }

    constructor ()
      ensures Valid() && !initialized && config.None? && activeProvider == null
    {
      initialized := false;
      config := None;
      activeProvider := null;
    }

    /** `initialize()`: assigns `getConfig`; nothing else changes. */
    method Initialize()
      requires Valid()
      modifies this
      ensures Valid() && initialized
      ensures config == old(config) && activeProvider == old(activeProvider)
    {
      initialized := true;
    }

    /**
     * `load()`, with `current` the configuration `getConfig` returns. Before
     * `initialize` it throws; an unknown provider throws after `config` is stored and
     * leaves the adapter as it was; a known one gets a fresh adapter built from its
     * own slot only. A previously active adapter is dropped without being unloaded.
     */
    method Load(current: AiConfig) returns (r: Outcome<Error>)
      requires Valid()
      modifies this
      ensures Valid() && initialized == old(initialized)
      ensures !old(initialized) ==> r == Fail(NotInitialized) && config == old(config) && activeProvider == old(activeProvider)
      ensures old(initialized) ==> config == Some(current)
      ensures old(initialized) && current.apiProvider.Unknown? ==>
        r == Fail(UnsupportedProvider(current.apiProvider.raw)) && activeProvider == old(activeProvider)
      ensures old(initialized) && current.apiProvider.Known? ==>
        && r == Pass
        && activeProvider != null && fresh(activeProvider)
        && activeProvider.config == Slice(current.aiProviderConfig, current.apiProvider.provider)
        && activeProvider.name == current.apiProvider.provider
        && activeProvider.dialect == Modular
        && activeProvider.sdk == Some(Client(BaseUrl(Modular, activeProvider.config), activeProvider.config.apiKey))
      ensures old(activeProvider) != null ==> old(activeProvider).sdk == old(activeProvider.sdk)
    {
      if !initialized {
        return Fail(NotInitialized);
      }
      config := Some(current);
      var cfg := current.aiProviderConfig;
      var provider := ProviderMap(current.apiProvider);
      if provider.None? {
        return Fail(UnsupportedProvider(current.apiProvider.raw));
      }
      activeProvider := new Adapter(Modular, Slice(cfg, provider.value));
      r := Pass;
    }

    /** `chat(messages)`: throws when nothing is loaded, else hands the messages unchanged to the active adapter. */
    method Chat(messages: seq<Message>, net: Network) returns (r: Result<Text, Error>)
      requires Valid()
      ensures activeProvider == null ==> r == Err(NotLoaded)
      ensures activeProvider != null ==> r == activeProvider.Chat(messages, net)
      ensures r != Err(NullClient)
    {
      if activeProvider == null {
        return Err(NotLoaded);
      }
      r := activeProvider.Chat(messages, net);
    }

    /** `unload()`: when loaded, unloads the adapter once and clears the field; otherwise does nothing. */
    method Unload()
      requires Valid()
      modifies this, activeProvider
      ensures Valid() && activeProvider == null
      ensures initialized == old(initialized) && config == old(config)
      ensures old(activeProvider) != null ==> old(activeProvider).sdk.None?
    {
      if activeProvider != null {
        activeProvider.Unload();
        activeProvider := null;
      }
    }
  }

  /** The reply a freshly built modular adapter for configuration `c` gives to `messages`. */
  function FreshReply(c: ProviderConfig, messages: seq<Message>, net: Network): Result<Text, Error>
  {
    match net(CompletionRequest(BaseUrl(Modular, c), c.apiKey, ModelFor(c), messages))
    case None => Err(UpstreamFailure)
    case Some(choices) => ReplyText(Modular, c, choices)
  }

  /**
   * Hot swap: initialize, load provider A, unload, load provider B. A chat while
   * unloaded fails with the not-loaded error, and a chat after the swap is answered
   * by an adapter built from B's configuration alone.
   */
  method SwapProviders(a: AiConfig, b: AiConfig, messages: seq<Message>, net: Network)
    returns (whileUnloaded: Result<Text, Error>, afterSwap: Result<Text, Error>)
    requires a.apiProvider.Known? && b.apiProvider.Known?
    ensures whileUnloaded == Err(NotLoaded)
    ensures afterSwap == FreshReply(Slice(b.aiProviderConfig, b.apiProvider.provider), messages, net)
  {
    var manager := new AIManager();
    manager.Initialize();
    var loaded := manager.Load(a);
    manager.Unload();
    whileUnloaded := manager.Chat(messages, net);
    loaded := manager.Load(b);
    afterSwap := manager.Chat(messages, net);
  }
}
