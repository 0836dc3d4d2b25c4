/** The `cache` table's row shape and the closed set of question types stored in its `type` column. */
module CacheSchema {
  import opened Wrappers

  /** The `questionType` enum: exactly four members. */
  datatype QuestionType = Single | Multiple | Judgement | Completion

  /** The string value each enum member stands for. */
  function TypeName(t: QuestionType): (s: string)
    ensures s in {"single", "multiple", "judgement", "completion"}
  {
    match t
    case Single => "single"
    case Multiple => "multiple"
    case Judgement => "judgement"
    case Completion => "completion"
  }

  /** Reads a `type` string back into the enum; anything but the four values is refused. */
  function ParseType(s: string): (r: Option<QuestionType>)
    ensures r.Some? ==> TypeName(r.value) == s
    ensures r.None? <==> s !in {"single", "multiple", "judgement", "completion"}
  {
    if s == "single" then Some(Single)
    else if s == "multiple" then Some(Multiple)
    else if s == "judgement" then Some(Judgement)
    else if s == "completion" then Some(Completion)
    else None
  }

  /** Distinct members have distinct string values, and every value reads back as its member. */
  lemma TypeNameRoundTrip(t: QuestionType, u: QuestionType)
    ensures ParseType(TypeName(t)) == Some(t)
    ensures TypeName(t) == TypeName(u) ==> t == u
  {
  }

  /**
   * One row: `id` is the integer autoincrement primary key, `question`, `answer`
   * and `type` are non-null (Dafny strings have no null), `type` (the field `questionType` here, `type` being a Dafny keyword) is a `questionType`.
   * Uniqueness of `question` is a property of the table, see CacheStore.Consistent.
   */
  datatype CacheRow = CacheRow(id: int, question: string, answer: string, questionType: QuestionType)

  /** `typeof cache.$inferInsert` as the core uses it: the row without its generated id. */
  datatype Entry = Entry(question: string, answer: string, questionType: QuestionType)
}
