/** `searchSchema`: the zod object a `/search` request must match before it reaches the controller. */
module SearchSchema {
  import opened Wrappers
  import opened Errors
  import opened JsValues
  import opened CacheSchema

  /** A validated request: `title` and `options` strings and one of the four `type` values. */
  datatype SearchRequest = SearchRequest(title: string, questionType: QuestionType, options: string)

  /** The `type` enum's accepted values. */
  const TypeEnum: seq<string> := ["single", "multiple", "judgement", "completion"]

  predicate IsString(fields: map<string, Json>, key: string)
  {
    key in fields && fields[key].JString?
  }

  /**
   * `searchSchema.parse(input)`: the input must be an object whose `title` and
   * `options` are strings and whose `type` is one of the four enum values; other
   * keys are ignored. Anything else is refused.
   */
  function Parse(input: Json): (r: Result<SearchRequest, Error>)
    ensures r.Ok? <==>
      && input.JObject?
      && IsString(input.fields, "title")
      && IsString(input.fields, "options")
      && IsString(input.fields, "type") && input.fields["type"].s in TypeEnum
    ensures r.Err? ==> r.error == InvalidRequest
    ensures r.Ok? ==>
      && r.value.title == input.fields["title"].s
      && r.value.options == input.fields["options"].s
      && TypeName(r.value.questionType) == input.fields["type"].s
  {
    if !input.JObject? then Err(InvalidRequest)
    else
      var f := input.fields;
      if !IsString(f, "title") || !IsString(f, "options") || !IsString(f, "type") then Err(InvalidRequest)
      else
        match ParseType(f["type"].s)
        case None => Err(InvalidRequest)
        case Some(t) => Ok(SearchRequest(f["title"].s, t, f["options"].s))
  }

  /** A request written out as the JSON object a client sends. */
  function Encode(req: SearchRequest): Json
  {
    JObject(map["title" := JString(req.title), "type" := JString(TypeName(req.questionType)), "options" := JString(req.options)])
  }

  /** Every valid request passes the schema unchanged, whatever extra keys ride along. */
  lemma EncodeThenParse(req: SearchRequest, extra: map<string, Json>)
    ensures Parse(JObject(extra + Encode(req).fields)) == Ok(req)
  {
    TypeNameRoundTrip(req.questionType, req.questionType);
  }

  /** A `type` outside the enum, such as `line` or `fill`, is refused even when the other fields are fine. */
  lemma OtherTypesRefused(title: string, typeName: string, options: string)
    requires typeName !in TypeEnum
    ensures Parse(JObject(map["title" := JString(title), "type" := JString(typeName), "options" := JString(options)])).Err?
  {
  }

  /** `options` is required for every type, `completion` included. */
  lemma OptionsAlwaysRequired(title: string, t: QuestionType)
    ensures Parse(JObject(map["title" := JString(title), "type" := JString(TypeName(t))])).Err?
  {
    assert "options" !in map["title" := JString(title), "type" := JString(TypeName(t))];
  }
}
