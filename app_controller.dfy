/**
 * `AppController`: builds the instruction for a question's type, sends a two-message
 * exchange through the services `AIManager`, parses the reply as JSON and stamps it
 * as a successful answer.
 */
module AppController {
  import opened Wrappers
  import opened Errors
  import opened Strings
  import opened JsValues
  import opened CacheSchema
  import opened Adapters
  import opened SearchSchema
  import ServicesAiManager

  /** The shared instruction: answer only with the JSON object `{"anwser": ...}`. */
  const BasePrompt: string := "你是一个题库接口函数,你的输出严格使用此格式回答:{\"anwser\":\"your_anwser_str\"},不回答:“嗯”,“好的”,“我知道了”之类的话。回答只能是json。绝对不要使用自然语言,并且不要使用转义字符。"

  const SingleRule: string := "当前是单选题，直接返回对应选项的内容，不是对应答案字母"
  const MultipleRule: string := "当前是多选题，直接返回对应选项的内容，不是对应答案字母，将内容用#连接"
  const JudgementRule: string := "当前是判断题，直接返回\"对\"或\"错\"的文字，不返回字母"
  const CompletionRule: string := "当前是填空题，直接返回填空内容，多个空使用###连接"

  /** The labels of the user message: question, then options. */
  const TitleLabel: string := "题目："
  const OptionsLabel: string := ",选项："

  /** The `msg` stamped on every answer. */
  const SuccessMessage: string := "答题成功"

  /**
   * `createDeveloperPrompt(type)`: the shared instruction followed by the rule for
   * one of the four types; any other type gets the shared instruction alone.
   */
  function CreateDeveloperPrompt(typeName: string): (prompt: string)
    ensures |BasePrompt| <= |prompt| && prompt[..|BasePrompt|] == BasePrompt
    ensures typeName !in {"single", "multiple", "judgement", "completion"} ==> prompt == BasePrompt
    ensures typeName in {"single", "multiple", "judgement", "completion"} ==> |prompt| > |BasePrompt|
  {
    match typeName
    case "single" => BasePrompt + SingleRule
    case "multiple" => BasePrompt + MultipleRule
    case "judgement" => BasePrompt + JudgementRule
    case "completion" => BasePrompt + CompletionRule
    case _ => BasePrompt
  }

  /** The multiple-choice rule asks for the chosen options' text joined by `#`. */
  lemma MultipleRuleJoinsWithHash()
    ensures Includes(CreateDeveloperPrompt("multiple"), "#")
  {
    var k := |MultipleRule| - 3;
    assert MultipleRule[k] == '#';
    assert MultipleRule[k..k + 1] == "#";
    IncludesAfterPrefix(BasePrompt, MultipleRule, "#", k);
    assert CreateDeveloperPrompt("multiple") == BasePrompt + MultipleRule;
  }

  /** The fill-in-the-blank rule asks for several blanks joined by `###`. */
  lemma CompletionRuleJoinsWithTripleHash()
    ensures Includes(CreateDeveloperPrompt("completion"), "###")
  {
    var k := |CompletionRule| - 5;
    assert CompletionRule[k] == '#' && CompletionRule[k + 1] == '#' && CompletionRule[k + 2] == '#';
    assert CompletionRule[k..k + 3] == "###";
    IncludesAfterPrefix(BasePrompt, CompletionRule, "###", k);
    assert CreateDeveloperPrompt("completion") == BasePrompt + CompletionRule;
  }

  /** The true/false rule asks for the glyph 对 for true rather than a letter. */
  lemma JudgementRuleUsesTrueGlyph()
    ensures Includes(CreateDeveloperPrompt("judgement"), "对")
  {
    assert JudgementRule[12] == '对';
    assert JudgementRule[12..13] == "对";
    IncludesAfterPrefix(BasePrompt, JudgementRule, "对", 12);
    assert CreateDeveloperPrompt("judgement") == BasePrompt + JudgementRule;
  }

  /** The true/false rule asks for the glyph 错 for false rather than a letter. */
  lemma JudgementRuleUsesFalseGlyph()
    ensures Includes(CreateDeveloperPrompt("judgement"), "错")
  {
    assert JudgementRule[16] == '错';
    assert JudgementRule[16..17] == "错";
    IncludesAfterPrefix(BasePrompt, JudgementRule, "错", 16);
    assert CreateDeveloperPrompt("judgement") == BasePrompt + JudgementRule;
  }

  /** The user message: the title alone for `completion`, the title and the options otherwise. */
  function UserContent(data: SearchRequest): (content: string)
    ensures data.questionType == Completion ==> content == TitleLabel + data.title
    ensures data.questionType != Completion ==> content == TitleLabel + data.title + OptionsLabel + data.options
  {
    if data.questionType == Completion then TitleLabel + data.title
    else TitleLabel + data.title + OptionsLabel + data.options
  }

  /** The exchange `search` sends: the instruction for the request's type as `system`, then the question as `user`. */
  function Exchange(data: SearchRequest): (messages: seq<Message>)
    ensures |messages| == 2
    ensures messages[0] == Message(System, CreateDeveloperPrompt(TypeName(data.questionType)))
    ensures messages[1] == Message(User, UserContent(data))
    ensures data.questionType == Completion ==> messages[1].content == TitleLabel + data.title
    ensures data.questionType != Completion ==> messages[1].content == TitleLabel + data.title + OptionsLabel + data.options
    ensures |TitleLabel + data.title| <= |messages[1].content|
    ensures messages[1].content[..|TitleLabel + data.title|] == TitleLabel + data.title
    ensures Includes(messages[1].content, data.options) || data.questionType == Completion
  {
    var content := UserContent(data);
    assert data.questionType != Completion ==> OccursAt(content, data.options, |content| - |data.options|);
    [Message(System, CreateDeveloperPrompt(TypeName(data.questionType))), Message(User, content)]
  }

  /** `JSON.parse` receives the reply coerced to a string: `null` becomes the text `null`. */
  function ReplyString(t: Text): (s: string)
    ensures t.Str? ==> s == t.s
    ensures t.Null? ==> s == "null"
  {
    match t
    case Str(s) => s
    case Null => "null"
  }

  /**
   * What `search` does with the dispatcher's reply: a thrown error propagates, a reply
   * `JSON.parse` rejects propagates (there is no catch), and a parsed object gets
   * `code` = 1 and `msg` = `答题成功` written over whatever it held.
   */
  function Stamp(reply: Result<Text, Error>, parse: string -> Option<Json>): (r: Result<Json, Error>)
    ensures reply.Err? ==> r == Err(reply.error)
    ensures reply.Ok? && parse(ReplyString(reply.value)).None? ==> r == Err(InvalidJson)
    ensures r.Ok? ==> reply.Ok? && parse(ReplyString(reply.value)).Some?
    ensures reply.Ok? && parse(ReplyString(reply.value)).Some? && parse(ReplyString(reply.value)).value.JObject? ==>
      && r.Ok? && r.value.JObject?
      && r.value.fields.Keys == parse(ReplyString(reply.value)).value.fields.Keys + {"code", "msg"}
    ensures reply.Ok? && parse(ReplyString(reply.value)).Some? ==>
      var parsed := parse(ReplyString(reply.value)).value;
      && (parsed.JArray? ==> r == Ok(parsed))
      && (!parsed.JObject? && !parsed.JArray? ==> r == Err(PropertyOnPrimitive))
    ensures r.Ok? && r.value.JObject? ==>
      && "code" in r.value.fields && r.value.fields["code"] == JNumber(1.0)
      && "msg" in r.value.fields && r.value.fields["msg"] == JString(SuccessMessage)
      && parse(ReplyString(reply.value)).value.JObject?
      && forall k :: k in parse(ReplyString(reply.value)).value.fields && k != "code" && k != "msg" ==>
           k in r.value.fields && r.value.fields[k] == parse(ReplyString(reply.value)).value.fields[k]
  {
    match reply
    case Err(e) => Err(e)
    case Ok(text) =>
      match parse(ReplyString(text))
      case None => Err(InvalidJson)
      case Some(parsed) =>
        match parsed
        case JObject(fields) => Ok(JObject(fields["code" := JNumber(1.0)]["msg" := JString(SuccessMessage)]))
        case JArray(_) => Ok(parsed)
        case _ => Err(PropertyOnPrimitive)
  }

  /**
   * A reply in exactly the shape the instruction asks for, `{"anwser": ...}`, keeps
   * that spelling: the stamped object has no `answer` field, although `search`
   * declares one.
   */
  lemma PromptedShapeLacksAnswerField(text: string, s: string, parse: string -> Option<Json>)
    requires parse(text) == Some(JObject(map["anwser" := JString(s)]))
    ensures Stamp(Ok(Str(text)), parse).Ok?
    ensures "answer" !in Stamp(Ok(Str(text)), parse).value.fields
    ensures Stamp(Ok(Str(text)), parse).value.fields["anwser"] == JString(s)
  {
  }

  class AppController {
    const aIManager: ServicesAiManager.AIManager

    constructor (aIManager: ServicesAiManager.AIManager)
      ensures this.aIManager == aIManager
    {
      this.aIManager := aIManager;
    }

    /**
     * `search(data)`: sends the two-message exchange for `data` to the active
     * provider and stamps the parsed reply. The upstream service and `JSON.parse`
     * are the parameters `net` and `parse`.
     */
    method Search(data: SearchRequest, net: Network, parse: string -> Option<Json>) returns (r: Result<Json, Error>)
      requires aIManager.Valid()
      ensures aIManager.activeProvider == null ==> r == Err(NotLoaded)
      ensures aIManager.activeProvider != null ==>
        r == Stamp(aIManager.activeProvider.Chat(Exchange(data), net), parse)
    {
      var developerPrompt := CreateDeveloperPrompt(TypeName(data.questionType));
      var messages := [Message(System, developerPrompt)];
      var userContent := UserContent(data);
      messages := messages + [Message(User, userContent)];
      assert messages == Exchange(data);
      var reply := aIManager.Chat(messages, net);
      r := Stamp(reply, parse);
    }
  }
}
