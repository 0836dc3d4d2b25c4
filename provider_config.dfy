/**
 * The AI configuration slice the dispatcher reads: which provider is active and
 * one credential/model bag per provider (`AiConfig`, `AiProviderConfig` and the five
 * per-provider config interfaces).
 */
module ProviderConfigs {
  import opened Wrappers

  /** The five members of the `aiProvider` enum. */
  datatype Provider = DeepSeek | Alibaba | Siliconflow | Volcengine | Newapi

  /**
   * The configured `apiProvider`. It is read from a configuration file, so besides
   * the five enum members it may hold any other text. The enum's string values are
   * not part of this model, so a name is either one of the members or something else.
   */
  datatype ProviderName = Known(provider: Provider) | Unknown(raw: string)

  /** One provider's configuration; the constructor says which interface it is. */
  datatype ProviderConfig =
    | DeepseekConfig(apiKey: string, isDeep: bool, internetSearch: bool)
    | AlibabaConfig(apiKey: string, internetSearch: bool, modelName: string)
    | SiliconflowConfig(apiKey: string, internetSearch: bool, modelName: string)
    | VolcengineConfig(apiKey: string, internetSearch: bool, modelName: string)
    | NewapiConfig(baseUrl: string, apiKey: string, internetSearch: bool, modelName: string)

  /** The provider a configuration belongs to. */
  function ProviderOf(c: ProviderConfig): Provider
  {
    match c
    case DeepseekConfig(_, _, _) => DeepSeek
    case AlibabaConfig(_, _, _) => Alibaba
    case SiliconflowConfig(_, _, _) => Siliconflow
    case VolcengineConfig(_, _, _) => Volcengine
    case NewapiConfig(_, _, _, _) => Newapi
  }

  type DeepseekSlot = c: ProviderConfig | c.DeepseekConfig? witness DeepseekConfig("", false, false)
  type AlibabaSlot = c: ProviderConfig | c.AlibabaConfig? witness AlibabaConfig("", false, "")
  type SiliconflowSlot = c: ProviderConfig | c.SiliconflowConfig? witness SiliconflowConfig("", false, "")
  type VolcengineSlot = c: ProviderConfig | c.VolcengineConfig? witness VolcengineConfig("", false, "")
  type NewapiSlot = c: ProviderConfig | c.NewapiConfig? witness NewapiConfig("", "", false, "")

  /** `AiProviderConfig`: one field per enum member, each of its own interface. */
  datatype AiProviderConfig = AiProviderConfig(
    deepseek: DeepseekSlot,
    alibaba: AlibabaSlot,
    siliconflow: SiliconflowSlot,
    volcengine: VolcengineSlot,
    newapi: NewapiSlot)

  /** `AiConfig`: the active provider's name and every provider's configuration. */
  datatype AiConfig = AiConfig(apiProvider: ProviderName, aiProviderConfig: AiProviderConfig)

  /** `cfg[p]`: the configuration slot of provider `p`; it always belongs to `p`. */
  function Slice(cfg: AiProviderConfig, p: Provider): (c: ProviderConfig)
    ensures ProviderOf(c) == p
  {
    match p
    case DeepSeek => cfg.deepseek
    case Alibaba => cfg.alibaba
    case Siliconflow => cfg.siliconflow
    case Volcengine => cfg.volcengine
    case Newapi => cfg.newapi
  }
}
