/**
 * The answer cache: the SQLite `cache` table behind `CacheManager`, as a sequence of
 * rows in ascending id order plus the AUTOINCREMENT counter. The functions give the
 * table's semantics; the class CacheManager updates its fields with them.
 */
module CacheStore {
  import opened Wrappers
  import opened CacheSchema

  /** The table's rows in ascending id order, and the next id AUTOINCREMENT will hand out. */
  datatype Table = Table(rows: seq<CacheRow>, nextId: int)

  /** A freshly created table: no rows, and SQLite's AUTOINCREMENT starts at 1. */
  const Empty := Table([], 1)

  ghost predicate IdsAscending(rows: seq<CacheRow>)
  {
    forall i, j :: 0 <= i < j < |rows| ==> rows[i].id < rows[j].id
  }

  /** The unique index `cache_question_unique` on `question`. */
  ghost predicate QuestionsUnique(rows: seq<CacheRow>)
  {
    forall i, j :: 0 <= i < j < |rows| ==> rows[i].question != rows[j].question
  }

  /** The table invariant: positive ids below the counter, in insertion order, one row per question. */
  ghost predicate Consistent(t: Table)
  {
    && 1 <= t.nextId
    && (forall i :: 0 <= i < |t.rows| ==> 1 <= t.rows[i].id < t.nextId)
    && IdsAscending(t.rows)
    && QuestionsUnique(t.rows)
  }

  ghost predicate HasQuestion(rows: seq<CacheRow>, q: string)
  {
    exists i :: 0 <= i < |rows| && rows[i].question == q
  }

  /** `select ... where question = q`, first result: an exact, case-sensitive match on `question` only. */
  function Find(rows: seq<CacheRow>, q: string): (r: Option<CacheRow>)
    ensures r.Some? ==> r.value in rows && r.value.question == q
    ensures r.None? <==> !HasQuestion(rows, q)
  {
    if rows == [] then None
    else if rows[0].question == q then Some(rows[0])
    else
      var r := Find(rows[1..], q);
      assert HasQuestion(rows, q) ==> HasQuestion(rows[1..], q) by {
        if HasQuestion(rows, q) {
          var i :| 0 <= i < |rows| && rows[i].question == q;
          assert rows[1..][i - 1].question == q;
        }
      }
      r
  }

  /** Under the unique index the match is THE row holding that question. */
  lemma {:induction false} FindIsTheRow(rows: seq<CacheRow>, i: int)
    requires QuestionsUnique(rows) && 0 <= i < |rows|
    ensures Find(rows, rows[i].question) == Some(rows[i])
  {
    if i > 0 {
      assert rows[0].question != rows[i].question;
      assert rows[1..][i - 1] == rows[i];
      FindIsTheRow(rows[1..], i - 1);
    }
  }

  /**
   * `insert ... on conflict do nothing`: a question already present leaves the rows as
   * they were. Either way AUTOINCREMENT uses up one id: SQLite allocates the new row's id
   * before the conflict on the unique index makes it drop the row.
   */
  function Insert(t: Table, e: Entry): (r: Table)
    ensures r.nextId == t.nextId + 1
    ensures HasQuestion(t.rows, e.question) ==> r.rows == t.rows
    ensures !HasQuestion(t.rows, e.question) ==>
      r.rows == t.rows + [CacheRow(t.nextId, e.question, e.answer, e.questionType)] && r.nextId == t.nextId + 1
    ensures Consistent(t) ==> Consistent(r)
    ensures Consistent(t) && !HasQuestion(t.rows, e.question) ==>
      forall i :: 0 <= i < |t.rows| ==> t.rows[i].id < r.rows[|t.rows|].id
  {
    if Find(t.rows, e.question).Some? then Table(t.rows, t.nextId + 1)
    else Table(t.rows + [CacheRow(t.nextId, e.question, e.answer, e.questionType)], t.nextId + 1)
  }

  /** `delete ... where id = id` on the row sequence: every other row stays, in order. */
  function Without(rows: seq<CacheRow>, id: int): (r: seq<CacheRow>)
    ensures forall i :: 0 <= i < |r| ==> r[i].id != id && r[i] in rows
    ensures forall i :: 0 <= i < |rows| && rows[i].id != id ==> rows[i] in r
    ensures (forall i :: 0 <= i < |rows| ==> rows[i].id != id) ==> r == rows
  {
    if rows == [] then []
    else if rows[0].id == id then Without(rows[1..], id)
    else [rows[0]] + Without(rows[1..], id)
  }

  /** Every row left by a delete sits further along in the original rows. */
  lemma {:induction false} WithoutFromTail(rows: seq<CacheRow>, id: int, x: CacheRow)
    requires rows != [] && x in Without(rows[1..], id)
    ensures exists k :: 1 <= k < |rows| && rows[k] == x
  {
    var k :| 0 <= k < |rows[1..]| && rows[1..][k] == x;
    assert rows[k + 1] == x;
  }

  /** Deleting keeps the ids in ascending order. */
  lemma {:induction false} WithoutKeepsIdOrder(rows: seq<CacheRow>, id: int)
    requires IdsAscending(rows)
    ensures IdsAscending(Without(rows, id))
  {
    if rows != [] {
      assert IdsAscending(rows[1..]);
      WithoutKeepsIdOrder(rows[1..], id);
      if rows[0].id != id {
        var r := Without(rows, id);
        forall j | 0 < j < |r| ensures r[0].id < r[j].id {
          WithoutFromTail(rows, id, r[j]);
        }
      }
    }
  }

  /** Deleting keeps the questions distinct. */
  lemma {:induction false} WithoutKeepsQuestionsUnique(rows: seq<CacheRow>, id: int)
    requires QuestionsUnique(rows)
    ensures QuestionsUnique(Without(rows, id))
  {
    if rows != [] {
      assert QuestionsUnique(rows[1..]);
      WithoutKeepsQuestionsUnique(rows[1..], id);
      if rows[0].id != id {
        var r := Without(rows, id);
        forall j | 0 < j < |r| ensures r[0].question != r[j].question {
          WithoutFromTail(rows, id, r[j]);
        }
      }
    }
  }

  /** Deleting an id that only the first row carries leaves the rest. */
  lemma WithoutLeadingId(rows: seq<CacheRow>)
    requires rows != []
    requires forall i :: 0 < i < |rows| ==> rows[i].id != rows[0].id
    ensures Without(rows, rows[0].id) == rows[1..]
  {
    var tail := rows[1..];
    forall i | 0 <= i < |tail|
      ensures tail[i].id != rows[0].id
    {
      assert tail[i] == rows[i + 1];
    }
  }

  /** Deleting an id that only row k carries removes exactly row k and keeps the rest in order. */
  lemma {:induction false} WithoutSoleId(rows: seq<CacheRow>, k: int)
    requires 0 <= k < |rows|
    requires forall i :: 0 <= i < |rows| && i != k ==> rows[i].id != rows[k].id
    ensures Without(rows, rows[k].id) == rows[..k] + rows[k + 1..]
  {
    if k == 0 {
      WithoutLeadingId(rows);
      assert rows[..0] + rows[1..] == rows[1..];
    } else {
      var id, tail := rows[k].id, rows[1..];
      assert tail[k - 1] == rows[k];
      forall i | 0 <= i < |tail| && i != k - 1
        ensures tail[i].id != id
      {
        assert tail[i] == rows[i + 1];
      }
      WithoutSoleId(tail, k - 1);
      assert Without(rows, id) == [rows[0]] + Without(tail, id);
      JoinBehindHead(rows, k);
    }
  }

  /** Cutting row k out of the tail and putting the head back cuts row k out of the whole. */
  lemma JoinBehindHead(rows: seq<CacheRow>, k: int)
    requires 0 < k < |rows|
    ensures [rows[0]] + (rows[1..][..k - 1] + rows[1..][k..]) == rows[..k] + rows[k + 1..]
  {
    assert rows[..k] == [rows[0]] + rows[1..][..k - 1];
    assert rows[k + 1..] == rows[1..][k..];
  }

  /** Deleting by id on a consistent table removes exactly the one row with that id. */
  lemma WithoutRemovesOne(rows: seq<CacheRow>, k: int)
    requires IdsAscending(rows) && 0 <= k < |rows|
    ensures Without(rows, rows[k].id) == rows[..k] + rows[k + 1..]
  {
    WithoutSoleId(rows, k);
  }

  /** `del(id)`: removes the row with that id; the counter is untouched, so ids are not handed out again. */
  function Delete(t: Table, id: int): (r: Table)
    ensures r.nextId == t.nextId
    ensures forall x :: x in r.rows <==> x in t.rows && x.id != id
    ensures (forall i :: 0 <= i < |t.rows| ==> t.rows[i].id != id) ==> r == t
    ensures Consistent(t) ==> Consistent(r)
  {
    var r := Table(Without(t.rows, id), t.nextId);
    assert Consistent(t) ==> Consistent(r) by {
      if Consistent(t) {
        WithoutKeepsIdOrder(t.rows, id);
        WithoutKeepsQuestionsUnique(t.rows, id);
      }
    }
    r
  }

  /** The rows in `order by id desc` order, given rows kept in ascending id order. */
  function NewestFirst(rows: seq<CacheRow>): (r: seq<CacheRow>)
    ensures |r| == |rows|
    ensures forall i :: 0 <= i < |rows| ==> r[i] == rows[|rows| - 1 - i]
  {
    if rows == [] then []
    else
      var r := [rows[|rows| - 1]] + NewestFirst(rows[..|rows| - 1]);
      assert forall i :: 1 <= i < |rows| ==> r[i] == rows[..|rows| - 1][|rows| - 1 - i];
      r
  }

  /** SQLite's treatment of OFFSET: a negative offset counts as zero. */
  function Skip(offset: int): (n: nat)
    ensures offset <= n && (n == 0 || n == offset)
  {
    if offset < 0 then 0 else offset
  }

  /**
   * `order by id desc offset offset limit limit`: the rows newest first, the first
   * `offset` skipped, at most `limit` returned (a negative LIMIT is no limit in SQLite).
   */
  function Page(rows: seq<CacheRow>, offset: int, limit: int): (page: seq<CacheRow>)
    ensures |page| == if Skip(offset) >= |rows| then 0
                      else if limit < 0 || limit > |rows| - Skip(offset) then |rows| - Skip(offset)
                      else limit
    ensures 0 <= limit ==> |page| <= limit
    ensures forall i :: 0 <= i < |page| ==> page[i] == rows[|rows| - 1 - Skip(offset) - i]
    ensures IdsAscending(rows) ==> forall i, j :: 0 <= i < j < |page| ==> page[i].id > page[j].id
  {
    var skip := Skip(offset);
    if skip >= |rows| then []
    else
      var take := if limit < 0 || limit > |rows| - skip then |rows| - skip else limit;
      NewestFirst(rows)[skip..skip + take]
  }

  /** Consecutive pages tile the listing: page `[o, o+a)` followed by page `[o+a, o+a+b)` is page `[o, o+a+b)`. */
  lemma PagesTile(rows: seq<CacheRow>, offset: int, a: int, b: int)
    requires 0 <= offset && 0 <= a && 0 <= b
    ensures Page(rows, offset, a) + Page(rows, offset + a, b) == Page(rows, offset, a + b)
  {
    var p, q, whole := Page(rows, offset, a), Page(rows, offset + a, b), Page(rows, offset, a + b);
    assert |p| + |q| == |whole|;
    forall i | 0 <= i < |whole| ensures (p + q)[i] == whole[i] {
      if i >= |p| {
        assert |p| == a;
        assert (p + q)[i] == q[i - a];
      }
    }
  }

  /** The table operations as a value, to speak of a history of calls. */
  datatype Op = SaveOp(entry: Entry) | DelOp(id: int)

  function Step(t: Table, op: Op): Table
  {
    match op
    case SaveOp(e) => Insert(t, e)
    case DelOp(id) => Delete(t, id)
  }

  function Apply(t: Table, ops: seq<Op>): Table
    decreases |ops|
  {
    if ops == [] then t else Apply(Step(t, ops[0]), ops[1..])
  }

  /**
   * Over any history of saves and deletes the table stays consistent, the counter
   * never goes back, and every row not there at the start has an id at least the
   * starting counter: an id once handed out is never handed out again.
   */
  lemma {:induction false} IdsNeverReused(t: Table, ops: seq<Op>)
    requires Consistent(t)
    ensures Consistent(Apply(t, ops))
    ensures Apply(t, ops).nextId >= t.nextId
    ensures forall x :: x in Apply(t, ops).rows ==> x in t.rows || x.id >= t.nextId
    decreases |ops|
  {
    if ops != [] {
      var s := Step(t, ops[0]);
      IdsNeverReused(s, ops[1..]);
      assert forall x :: x in s.rows ==> x in t.rows || x.id >= t.nextId;
    }
  }

  /** Once a row is deleted, no later history brings its id back. */
  lemma DeletedIdNeverReturns(t: Table, id: int, ops: seq<Op>)
    requires Consistent(t) && id < t.nextId
    ensures forall x :: x in Apply(Delete(t, id), ops).rows ==> x.id != id
  {
    IdsNeverReused(Delete(t, id), ops);
  }

  /**
   * Saving a question that is already cached keeps the first answer and type
   * (insert-if-absent, not upsert); only the counter moves on.
   */
  lemma SecondSaveKeepsFirst(t: Table, first: Entry, second: Entry)
    requires first.question == second.question
    ensures Insert(Insert(t, first), second).rows == Insert(t, first).rows
    ensures Insert(Insert(t, first), second).nextId == t.nextId + 2
  {
    var u := Insert(t, first);
    if !HasQuestion(t.rows, first.question) {
      assert u.rows[|t.rows|].question == second.question;
    }
  }

  /**
   * On a fresh table, saving `a` twice and then `b` stores `a` under id 1 and `b` under
   * id 3: the ignored second save used up id 2.
   */
  lemma IgnoredSaveLeavesGap(a: Entry, b: Entry)
    requires a.question != b.question
    ensures Apply(Empty, [SaveOp(a), SaveOp(a), SaveOp(b)]).rows
      == [CacheRow(1, a.question, a.answer, a.questionType), CacheRow(3, b.question, b.answer, b.questionType)]
  {
    var once := Insert(Empty, a);
    var twice := Insert(once, a);
    assert Apply(Empty, [SaveOp(a), SaveOp(a), SaveOp(b)]) == Apply(once, [SaveOp(a), SaveOp(b)]);
    assert Apply(once, [SaveOp(a), SaveOp(b)]) == Apply(twice, [SaveOp(b)]);
    assert twice == Table([CacheRow(1, a.question, a.answer, a.questionType)], 3);
  }

  /** After a save, a lookup of that question returns the stored row; its type plays no part in the match. */
  lemma SaveThenFind(t: Table, e: Entry)
    requires Consistent(t)
    ensures HasQuestion(t.rows, e.question) ==> Find(Insert(t, e).rows, e.question) == Find(t.rows, e.question)
    ensures !HasQuestion(t.rows, e.question) ==>
      Find(Insert(t, e).rows, e.question) == Some(CacheRow(t.nextId, e.question, e.answer, e.questionType))
  {
    var u := Insert(t, e);
    if !HasQuestion(t.rows, e.question) {
      FindIsTheRow(u.rows, |t.rows|);
    }
  }

  /** The set of questions held in some rows. */
  function Questions(rows: seq<CacheRow>): (qs: set<string>)
    ensures forall q :: q in qs <==> HasQuestion(rows, q)
  {
    if rows == [] then {}
    else
      var qs := {rows[0].question} + Questions(rows[1..]);
      assert forall q :: HasQuestion(rows, q) <==> q == rows[0].question || HasQuestion(rows[1..], q) by {
        forall q ensures HasQuestion(rows, q) ==> q == rows[0].question || HasQuestion(rows[1..], q) {
          if HasQuestion(rows, q) && q != rows[0].question {
            var i :| 0 <= i < |rows| && rows[i].question == q;
            assert rows[1..][i - 1].question == q;
          }
        }
        forall q ensures HasQuestion(rows[1..], q) ==> HasQuestion(rows, q) {
          if HasQuestion(rows[1..], q) {
            var i :| 0 <= i < |rows[1..]| && rows[1..][i].question == q;
            assert rows[i + 1].question == q;
          }
        }
      }
      qs
  }

  /** The set of questions in a sequence of entries. */
  function EntryQuestions(es: seq<Entry>): (qs: set<string>)
    ensures forall e :: e in es ==> e.question in qs
    ensures forall q :: q in qs ==> exists e :: e in es && e.question == q
  {
    if es == [] then {} else {es[0].question} + EntryQuestions(es[1..])
  }

  function Saves(es: seq<Entry>): (ops: seq<Op>)
    ensures |ops| == |es| && forall i :: 0 <= i < |es| ==> ops[i] == SaveOp(es[i])
  {
    seq(|es|, i requires 0 <= i < |es| => SaveOp(es[i]))
  }

  lemma {:induction false} UniqueQuestionsCount(rows: seq<CacheRow>)
    requires QuestionsUnique(rows)
    ensures |Questions(rows)| == |rows|
  {
    if rows != [] {
      var tail := rows[1..];
      assert QuestionsUnique(tail);
      UniqueQuestionsCount(tail);
      assert !HasQuestion(tail, rows[0].question) by {
        forall k | 0 <= k < |tail| ensures tail[k].question != rows[0].question {
          assert rows[k + 1] == tail[k];
        }
      }
    }
  }

  lemma {:induction false} SavesCollectQuestions(t: Table, es: seq<Entry>)
    requires Consistent(t)
    ensures Consistent(Apply(t, Saves(es)))
    ensures Questions(Apply(t, Saves(es)).rows) == Questions(t.rows) + EntryQuestions(es)
    decreases |es|
  {
    if es == [] {
      assert Saves(es) == [];
    } else {
      var u := Insert(t, es[0]);
      InsertAddsQuestion(t, es[0]);
      assert Saves(es)[1..] == Saves(es[1..]);
      assert Apply(t, Saves(es)) == Apply(u, Saves(es[1..]));
      SavesCollectQuestions(u, es[1..]);
    }
  }

  /** A save adds its question to the cached questions, whether or not it adds a row. */
  lemma InsertAddsQuestion(t: Table, e: Entry)
    ensures Questions(Insert(t, e).rows) == Questions(t.rows) + {e.question}
  {
    var u := Insert(t, e);
    if !HasQuestion(t.rows, e.question) {
      forall q ensures HasQuestion(u.rows, q) <==> HasQuestion(t.rows, q) || q == e.question {
        if HasQuestion(t.rows, q) {
          var i :| 0 <= i < |t.rows| && t.rows[i].question == q;
          assert u.rows[i].question == q;
        }
        assert u.rows[|t.rows|].question == e.question;
      }
    }
  }

  /** With no deletes, after any sequence of saves the row count is the number of distinct questions saved. */
  lemma SavesCountDistinctQuestions(es: seq<Entry>)
    ensures |Apply(Empty, Saves(es)).rows| == |EntryQuestions(es)|
  {
    SavesCollectQuestions(Empty, es);
    UniqueQuestionsCount(Apply(Empty, Saves(es)).rows);
  }

  /** `CacheManager`: the table it owns, changed in place by `save` and `del`. */
  class CacheManager {
    var rows: seq<CacheRow>
    var nextId: int

    ghost function State(): Table
      reads this
    {
      Table(rows, nextId)
    }

    ghost predicate Valid()
      reads this
    {
      Consistent(State())
    }

    /** `initialize` on a new database file: the table exists, empty, with its unique index. */
    constructor ()
      ensures Valid() && State() == Empty
    {
      rows := [];
      nextId := 1;
    }

    /** `save(data)`: inserts the entry unless its question is already cached; the counter moves on either way. */
    method Save(data: Entry)
      requires Valid()
      modifies this
      ensures Valid()
      ensures State() == Insert(old(State()), data)
      ensures HasQuestion(old(rows), data.question) ==> rows == old(rows)
      ensures nextId == old(nextId) + 1
    {
      var existing := Find(rows, data.question);
      if existing.None? {
        rows := rows + [CacheRow(nextId, data.question, data.answer, data.questionType)];
      }
      nextId := nextId + 1;
    }

    /** `query(question)`: the row holding exactly this question, or `undefined`. */
    method Query(question: string) returns (r: Option<CacheRow>)
      requires Valid()
      ensures r.Some? ==> r.value in rows && r.value.question == question
      ensures r.None? <==> forall i :: 0 <= i < |rows| ==> rows[i].question != question
      ensures forall i :: 0 <= i < |rows| && rows[i].question == question ==> r == Some(rows[i])
    {
      r := Find(rows, question);
      forall i | 0 <= i < |rows| && rows[i].question == question ensures r == Some(rows[i]) {
        FindIsTheRow(rows, i);
      }
    }

    /** `paginationQuery(offset = 0, limit = 10)`: one page of rows, newest id first. */
    method PaginationQuery(offset: int := 0, limit: int := 10) returns (page: seq<CacheRow>)
      requires Valid()
      ensures page == Page(rows, offset, limit)
      ensures 0 <= limit ==> |page| <= limit
      ensures forall i :: 0 <= i < |page| ==> page[i] == rows[|rows| - 1 - Skip(offset) - i]
      ensures forall i, j :: 0 <= i < j < |page| ==> page[i].id > page[j].id
    {
      page := Page(rows, offset, limit);
    }

    /** `del(id)`: removes the row with that id, if any. */
    method Del(id: int)
      requires Valid()
      modifies this
      ensures Valid()
      ensures State() == Delete(old(State()), id)
      ensures nextId == old(nextId)
    {
      WithoutKeepsIdOrder(rows, id);
      WithoutKeepsQuestionsUnique(rows, id);
      rows := Without(rows, id);
    }
  }
}
