/**
 * The provider adapters: thin strategies that fix an endpoint and a model name and
 * read the reply text out of an OpenAI-style chat completion.
 *
 * The repository has three copies of the five adapter classes: the modular files
 * under `adapter/` (used by `AI.ts`), the classes embedded in the services
 * `aiManager.ts`, and those embedded in the older `ai/aiManager.ts`. They differ only
 * in the Newapi adapter, so one class `Adapter` stands for all fifteen: its
 * configuration's constructor names the provider and its `dialect` names the copy.
 */
module Adapters {
  import opened Wrappers
  import opened Errors
  import opened ProviderConfigs

  datatype Role = System | User

  /** A `ChatCompletionMessageParam` as the core builds them: a role and a text. */
  datatype Message = Message(role: Role, content: string)

  /** One completion choice; `content` is `message.content`, which the SDK types as nullable. */
  datatype Choice = Choice(content: Option<string>)

  /** What one upstream `chat.completions.create` call is given. */
  datatype CompletionRequest = CompletionRequest(baseUrl: string, apiKey: string, model: string, messages: seq<Message>)

  /**
   * The upstream service, outside the model: the choice list it answers a request
   * with, or `None` when the SDK call rejects (network error, HTTP error, timeout).
   */
  type Network = CompletionRequest -> Option<seq<Choice>>

  /** The `OpenAI` client an adapter holds in `sdk`: the base URL and key it was built with. */
  datatype Client = Client(baseUrl: string, apiKey: string)

  /** A JavaScript value returned where a string is declared: a string, or `null`. */
  datatype Text = Str(s: string) | Null

  /** Which copy of the adapter classes: the files under `adapter/`, the services `aiManager.ts`, or `ai/aiManager.ts`. */
  datatype Dialect = Modular | ServicesEmbedded | LegacyEmbedded

  const Https: string := "https://"

  /** The `baseURL` each adapter builds its client with: a fixed HTTPS endpoint, or Newapi's configured one. */
  function BaseUrl(d: Dialect, c: ProviderConfig): (url: string)
    ensures !c.NewapiConfig? ==> |Https| < |url| && url[..|Https|] == Https
    ensures c.NewapiConfig? ==> |c.baseUrl| <= |url| && url[..|c.baseUrl|] == c.baseUrl
    ensures c.NewapiConfig? && d != Modular ==> url == c.baseUrl
  {
    match c
    case DeepseekConfig(_, _, _) => Https + "api.deepseek.com"
    case AlibabaConfig(_, _, _) => Https + "dashscope.aliyuncs.com/compatible-mode/v1"
    case SiliconflowConfig(_, _, _) => Https + "api.siliconflow.cn/v1"
    case VolcengineConfig(_, _, _) => Https + "ark.cn-beijing.volces.com/api/v3/"
    case NewapiConfig(baseUrl, _, _, _) => if d == Modular then baseUrl + "/v1" else baseUrl
  }

  /** The `model` each adapter asks for: a boolean switch for DeepSeek, the configured name otherwise. */
  function ModelFor(c: ProviderConfig): (model: string)
    ensures c.DeepseekConfig? ==> (model == "deepseek-reasoner" <==> c.isDeep)
    ensures c.DeepseekConfig? ==> (model == "deepseek-chat" <==> !c.isDeep)
    ensures !c.DeepseekConfig? ==> model == c.modelName
  {
    match c
    case DeepseekConfig(_, isDeep, _) => if isDeep then "deepseek-reasoner" else "deepseek-chat"
    case _ => c.modelName
  }

  /** Whether this copy reads `choices[0].message.content` without `?.` and `?? ''`. */
  predicate Unguarded(d: Dialect, c: ProviderConfig)
  {
    c.NewapiConfig? && d != LegacyEmbedded
  }

  /**
   * The reply text drawn from the choice list. The guarded form yields the first
   * choice's content or `''`; the unguarded Newapi form throws on an empty list and
   * passes a null content through as `null`.
   */
  function ReplyText(d: Dialect, c: ProviderConfig, choices: seq<Choice>): (r: Result<Text, Error>)
    ensures !Unguarded(d, c) ==> r.Ok? && r.value.Str?
    ensures !Unguarded(d, c) && |choices| > 0 && choices[0].content.Some? ==> r == Ok(Str(choices[0].content.value))
    ensures !Unguarded(d, c) && (|choices| == 0 || choices[0].content.None?) ==> r == Ok(Str(""))
    ensures Unguarded(d, c) ==> (r.Err? <==> |choices| == 0)
    ensures Unguarded(d, c) && r.Err? ==> r.error == MissingChoice
    ensures Unguarded(d, c) && |choices| > 0 ==> r == Ok(if choices[0].content.Some? then Str(choices[0].content.value) else Null)
  {
    if Unguarded(d, c) then
      if |choices| == 0 then Err(MissingChoice)
      else
        (match choices[0].content
         case Some(s) => Ok(Str(s))
         case None => Ok(Null))
    else if |choices| > 0 && choices[0].content.Some? then
      Ok(Str(choices[0].content.value))
    else
      Ok(Str(""))
  }

  /** DeepSeek, BaiLian, Siliconflow and Volcengine call a fixed endpoint, whatever their configuration holds and whichever copy. */
  lemma FixedEndpoints(d: Dialect, e: Dialect, c: ProviderConfig, c': ProviderConfig)
    requires ProviderOf(c) == ProviderOf(c') && !c.NewapiConfig?
    ensures BaseUrl(d, c) == BaseUrl(e, c')
  {
  }

  /** Newapi calls the configured base URL: with `/v1` appended in the modular copy, unchanged in both embedded copies. */
  lemma NewapiEndpoint(c: ProviderConfig)
    requires c.NewapiConfig?
    ensures BaseUrl(Modular, c) == c.baseUrl + "/v1"
    ensures BaseUrl(ServicesEmbedded, c) == c.baseUrl && BaseUrl(LegacyEmbedded, c) == c.baseUrl
  {
  }

  /** Apart from Newapi, the three copies of the adapters pick the same endpoint, model and reply text. */
  lemma CopiesAgreeApartFromNewapi(d: Dialect, e: Dialect, c: ProviderConfig, choices: seq<Choice>)
    requires !c.NewapiConfig?
    ensures BaseUrl(d, c) == BaseUrl(e, c)
    ensures ReplyText(d, c, choices) == ReplyText(e, c, choices)
  {
  }

  /** On an empty choice list the modular and services Newapi throw, while the older embedded Newapi returns `''`. */
  lemma NewapiCopiesDisagreeOnNoChoice(c: ProviderConfig)
    requires c.NewapiConfig?
    ensures ReplyText(Modular, c, []) == Err(MissingChoice)
    ensures ReplyText(ServicesEmbedded, c, []) == Err(MissingChoice)
    ensures ReplyText(LegacyEmbedded, c, []) == Ok(Str(""))
  {
  }

  /** One of the adapter classes `DeepSeek`, `BaiLian`, `Siliconflow`, `Volcengine`, `Newapi`. */
  class Adapter {
    const dialect: Dialect
    const config: ProviderConfig
    /** The `name` field: the `aiProvider` member this adapter serves. */
    const name: Provider
    /** The `sdk` field: the client, or `null` once unloaded. */
    var sdk: Option<Client>

    /** The constructor: keeps the config and builds a client for the adapter's fixed endpoint. */
    constructor (dialect: Dialect, config: ProviderConfig)
      ensures this.dialect == dialect && this.config == config
      ensures name == ProviderOf(config)
      ensures sdk == Some(Client(BaseUrl(dialect, config), config.apiKey))
    {
      this.dialect := dialect;
      this.config := config;
      this.name := ProviderOf(config);
      this.sdk := Some(Client(BaseUrl(dialect, config), config.apiKey));
    }

    /** `unload()`: drops the client; calling it again changes nothing more. */
    method Unload()
      modifies this
      ensures sdk.None?
    {
      sdk := None;
    }

    /** The request `chat` sends: the client's endpoint and key, the model rule, the messages unchanged. */
    function Request(messages: seq<Message>): (req: CompletionRequest)
      reads this
      requires sdk.Some?
      ensures req.messages == messages && req.model == ModelFor(config)
      ensures req.baseUrl == sdk.value.baseUrl && req.apiKey == sdk.value.apiKey
    {
      CompletionRequest(sdk.value.baseUrl, sdk.value.apiKey, ModelFor(config), messages)
    }

    /**
     * `chat(messages)`: a chat on an unloaded adapter fails at `sdk!`; otherwise one
     * upstream call and the reply text drawn from its choices.
     */
    function Chat(messages: seq<Message>, net: Network): (r: Result<Text, Error>)
      reads this
      ensures sdk.None? ==> r == Err(NullClient)
      ensures sdk.Some? && net(Request(messages)).None? ==> r == Err(UpstreamFailure)
      ensures sdk.Some? && net(Request(messages)).Some? ==> r == ReplyText(dialect, config, net(Request(messages)).value)
    {
      match sdk
      case None => Err(NullClient)
      case Some(_) =>
        (match net(Request(messages))
         case None => Err(UpstreamFailure)
         case Some(choices) => ReplyText(dialect, config, choices))
    }
  }
}
