/**
 * The older `AIManager` of `ai/aiManager.ts` with its own embedded adapters; its
 * IPC registration in `initialize` is left out.
 */
module LegacyAiManager {
  import opened Wrappers
  import opened Errors
  import opened ProviderConfigs
  import opened Adapters

  class AIManager {
    /** The `config` field: the AI configuration last read by `load`. */
    var config: Option<AiConfig>
    /** The `activeProvider` field: the loaded adapter, or `undefined`. */
    var activeProvider: Adapter?

    /** An active adapter is one of the adapters embedded in `ai/aiManager.ts` and still holds its client. */
    ghost predicate Valid()
      reads this, activeProvider
    {
      activeProvider != null ==> activeProvider.sdk.Some? && activeProvider.dialect == LegacyEmbedded
    }

    /** The constructor: receives `getConfig`; nothing is loaded. */
    constructor ()
      ensures Valid() && config.None? && activeProvider == null
    {
      config := None;
      activeProvider := null;
    }

    /**
     * `load()`, with `current` the configuration `getConfig` returns. The switch
     * has a case for each of the five providers, building that provider's adapter
     * from its own slot; any other name throws after `config` is stored and leaves
     * the adapter as it was. A previously active adapter is dropped without being unloaded.
     */
    method Load(current: AiConfig) returns (r: Outcome<Error>)
      requires Valid()
      modifies this
      ensures Valid()
      ensures config == Some(current)
      ensures current.apiProvider.Unknown? ==>
        r == Fail(UnsupportedProvider(current.apiProvider.raw)) && activeProvider == old(activeProvider)
      ensures current.apiProvider.Known? ==>
        && r == Pass
        && activeProvider != null && fresh(activeProvider)
        && activeProvider.config == Slice(current.aiProviderConfig, current.apiProvider.provider)
        && activeProvider.name == current.apiProvider.provider
        && activeProvider.dialect == LegacyEmbedded
        && activeProvider.sdk == Some(Client(BaseUrl(LegacyEmbedded, activeProvider.config), activeProvider.config.apiKey))
      ensures old(activeProvider) != null ==> old(activeProvider).sdk == old(activeProvider.sdk)
    {
      config := Some(current);
      var cfg := current.aiProviderConfig;
      match current.apiProvider {
        case Known(DeepSeek) =>
          activeProvider := new Adapter(LegacyEmbedded, cfg.deepseek);
        case Known(Alibaba) =>
          activeProvider := new Adapter(LegacyEmbedded, cfg.alibaba);
        case Known(Siliconflow) =>
          activeProvider := new Adapter(LegacyEmbedded, cfg.siliconflow);
        case Known(Volcengine) =>
          activeProvider := new Adapter(LegacyEmbedded, cfg.volcengine);
        case Known(Newapi) =>
          activeProvider := new Adapter(LegacyEmbedded, cfg.newapi);
        case Unknown(raw) =>
          return Fail(UnsupportedProvider(raw));
      }
      r := Pass;
    }

    /** `chat(messages)`: throws when nothing is loaded, else hands the messages unchanged to the active adapter. */
    method Chat(messages: seq<Message>, net: Network) returns (r: Result<Text, Error>)
      requires Valid()
      ensures activeProvider == null ==> r == Err(NotLoaded)
      ensures activeProvider != null ==> r == activeProvider.Chat(messages, net)
      ensures r != Err(NullClient)
    {
      if activeProvider == null {
        return Err(NotLoaded);
      }
      r := activeProvider.Chat(messages, net);
    }

    /** `unload()`: when loaded, unloads the adapter once and clears the field; otherwise does nothing. */
    method Unload()
      requires Valid()
      modifies this, activeProvider
      ensures Valid() && activeProvider == null
      ensures config == old(config)
      ensures old(activeProvider) != null ==> old(activeProvider).sdk.None?
    {
      if activeProvider != null {
        activeProvider.Unload();
        activeProvider := null;
      }
    }
  }

  /** The reply a freshly built embedded adapter for configuration `c` gives to `messages`. */
  function FreshReply(c: ProviderConfig, messages: seq<Message>, net: Network): Result<Text, Error>
  {
    match net(CompletionRequest(BaseUrl(LegacyEmbedded, c), c.apiKey, ModelFor(c), messages))
    case None => Err(UpstreamFailure)
    case Some(choices) => ReplyText(LegacyEmbedded, c, choices)
  }

  /**
   * Hot swap: load provider A, unload, load provider B. A chat while
   * unloaded fails with the not-loaded error, and a chat after the swap is answered
   * by an adapter built from B's configuration alone.
   */
  method SwapProviders(a: AiConfig, b: AiConfig, messages: seq<Message>, net: Network)
    returns (whileUnloaded: Result<Text, Error>, afterSwap: Result<Text, Error>)
    requires a.apiProvider.Known? && b.apiProvider.Known?
    ensures whileUnloaded == Err(NotLoaded)
    ensures afterSwap == FreshReply(Slice(b.aiProviderConfig, b.apiProvider.provider), messages, net)
  {
    var manager := new AIManager();
    var loaded := manager.Load(a);
    manager.Unload();
    whileUnloaded := manager.Chat(messages, net);
    loaded := manager.Load(b);
    afterSwap := manager.Chat(messages, net);
  }
}
