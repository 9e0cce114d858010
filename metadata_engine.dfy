/** The metadata engine of the deep-agent example: schema summaries, table
    lookup by name, vocabulary search, the template catalog listing, and the mock
    SQL and API calls. After construction nothing updates the engine, so it is a
    value. */
module MetadataEngine {
  import opened Wrappers
  import opened Text
  import opened Assets

  datatype Engine = Engine(
    schemas: seq<TableSchema>,          // the name-keyed dictionary, in insertion order
    vocabulary: seq<BusinessVocabulary>,
    templates: seq<QuestionTemplate>)

  /** `SmartDataEngine.__init__`: schemas keyed by name, a later schema with a
      duplicate name overwriting the earlier one; vocabulary and templates kept. */
  function NewEngine(schemas: seq<TableSchema>, vocabulary: seq<BusinessVocabulary>,
                     templates: seq<QuestionTemplate>): (e: Engine)
    ensures UniqueNames(e.schemas)
    ensures forall n :: Lookup(e.schemas, n) == LastNamed(schemas, n)
    ensures Names(e.schemas) == FirstOccurrences(Names(schemas))
    ensures e.vocabulary == vocabulary && e.templates == templates
  {
    IndexByNameCorrect(schemas);
    Engine(IndexByName(schemas), vocabulary, templates)
  }

  function Summaries(d: seq<TableSchema>): (r: seq<string>)
    ensures |r| == |d| && forall k :: 0 <= k < |d| ==> r[k] == Summary(d[k])
  {
    seq(|d|, k requires 0 <= k < |d| => Summary(d[k]))
  }

  /** `list_tables`: every schema summary, joined by newlines. */
  function ListTables(e: Engine): string {
    Join(Summaries(e.schemas), "\n")
  }

  /** What the listing of a freshly built engine shows: one summary per distinct name,
      in order of first occurrence, each of the last schema given under that name. */
  lemma ListTablesAfterInit(schemas: seq<TableSchema>, vocabulary: seq<BusinessVocabulary>,
                            templates: seq<QuestionTemplate>)
    ensures var e := NewEngine(schemas, vocabulary, templates);
      var names := FirstOccurrences(Names(schemas));
      var lines := Summaries(e.schemas);
      && ListTables(e) == Join(lines, "\n")
      && |lines| == |names|
      && forall k :: 0 <= k < |names| ==>
           LastNamed(schemas, names[k]).Some? && lines[k] == Summary(LastNamed(schemas, names[k]).value)
  {
    IndexByNameOrder(schemas);
  }

  const NotFoundSuffix: string := "，请确认表名是否正确。"

  /** `get_table`: the summary of the schema with that name, or the not-found message. */
  function GetTable(e: Engine, name: string): (r: string)
    ensures Lookup(e.schemas, name).None? ==> r == "未找到表 " + name + NotFoundSuffix
    ensures Lookup(e.schemas, name).Some? ==> r == Summary(Lookup(e.schemas, name).value)
  {
    match Lookup(e.schemas, name)
    case None => "未找到表 " + name + NotFoundSuffix
    case Some(s) => Summary(s)
  }

  /** On a freshly built engine, `get_table` shows the last schema given under that name. */
  lemma GetTableAfterInit(schemas: seq<TableSchema>, vocabulary: seq<BusinessVocabulary>,
                          templates: seq<QuestionTemplate>, name: string)
    ensures GetTable(NewEngine(schemas, vocabulary, templates), name)
            == match LastNamed(schemas, name)
               case None => "未找到表 " + name + NotFoundSuffix
               case Some(s) => Summary(s)
  {
  }

  const NoTermsMessage: string := "未匹配到相关术语，可尝试直接描述业务含义。"

  /** One search hit: term, canonical form and synonyms; the field name, or 未知 when
      it is None or empty; and a note suffix only when the note is present. */
  function HitLine(h: BusinessVocabulary): (r: string)
    ensures var shown := if Truthy(h.fieldName) then h.fieldName.value else "未知";
      var stem := "术语: " + h.term + " | 标准表达: " + h.canonical + " | 同义词: " + Join(h.synonyms, ", ")
                  + " | 对应字段: " + shown;
      && |r| >= |stem| && r[..|stem|] == stem
      && (Truthy(h.note) ==> r[|stem|..] == " | 说明: " + h.note.value)
      && (!Truthy(h.note) ==> r == stem)
  {
    "术语: " + h.term + " | 标准表达: " + h.canonical + " | 同义词: " + Join(h.synonyms, ", ")
    + " | 对应字段: " + (if Truthy(h.fieldName) then h.fieldName.value else "未知")
    + (if Truthy(h.note) then " | 说明: " + h.note.value else "")
  }

  function HitLines(hits: seq<BusinessVocabulary>): (r: seq<string>)
    ensures |r| == |hits| && forall k :: 0 <= k < |hits| ==> r[k] == HitLine(hits[k])
  {
    seq(|hits|, k requires 0 <= k < |hits| => HitLine(hits[k]))
  }

  /** `search_terms`: one line per hit, in vocabulary order, joined by newlines; the
      fixed message exactly when nothing matches. */
  function SearchTerms(e: Engine, keyword: string): (r: string)
    ensures r == NoTermsMessage <==> Hits(e.vocabulary, keyword) == []
    ensures Hits(e.vocabulary, keyword) != [] ==> r == Join(HitLines(Hits(e.vocabulary, keyword)), "\n")
  {
    var hits := Hits(e.vocabulary, keyword);
    if hits == [] then NoTermsMessage
    else
      var r := Join(HitLines(hits), "\n");
      assert r != NoTermsMessage by {
        JoinStartsWith(HitLines(hits), "\n");
        assert r[0] == HitLine(hits[0])[0] == '术';
      }
      r
  }

  // ------------------------------------------------------------ template catalog

  function ParamList(ps: seq<string>): string {
    if ps == [] then "无" else Join(ps, ", ")
  }

  /** The six lines describing one template; an empty parameter list and a missing
      or empty example show as 无. */
  function BlockLines(t: QuestionTemplate): (r: seq<string>)
    ensures |r| == 6
    ensures r[3] == "必填参数: " + (if t.requiredParams == [] then "无" else Join(t.requiredParams, ", "))
    ensures r[4] == "可选参数: " + (if t.optionalParams == [] then "无" else Join(t.optionalParams, ", "))
    ensures r[5] == "示例: " + (if Truthy(t.example) then t.example.value else "无")
  {
    ["意图: " + t.intent, "匹配模式: " + t.pattern, "SQL 模板: " + t.sqlTemplate,
     "必填参数: " + ParamList(t.requiredParams), "可选参数: " + ParamList(t.optionalParams),
     "示例: " + (if Truthy(t.example) then t.example.value else "无")]
  }

  function Block(t: QuestionTemplate): string {
    Join(BlockLines(t), "\n")
  }

  function Blocks(ts: seq<QuestionTemplate>): (r: seq<string>)
    ensures |r| == |ts| && forall k :: 0 <= k < |ts| ==> r[k] == Block(ts[k])
  {
    seq(|ts|, k requires 0 <= k < |ts| => Block(ts[k]))
  }

  /** The catalog listing: one block per template, in catalog order, blocks
      separated by a blank line; the empty catalog lists as "". */
  function CatalogText(ts: seq<QuestionTemplate>): (r: string)
    ensures ts == [] ==> r == ""
    ensures |ts| == 1 ==> r == Block(ts[0])
  {
    Join(Blocks(ts), "\n\n")
  }

  /** Listing one more template appends a blank line and its block. */
  lemma CatalogTextSnoc(ts: seq<QuestionTemplate>, t: QuestionTemplate)
    requires ts != []
    ensures CatalogText(ts + [t]) == CatalogText(ts) + "\n\n" + Block(t)
  {
    assert Blocks(ts + [t]) == Blocks(ts) + [Block(t)];
    JoinSnoc(Blocks(ts), Block(t), "\n\n");
  }

  /** `list_question_templates`, accumulating one block per template. */
  method ListQuestionTemplates(e: Engine) returns (text: string)
    ensures text == CatalogText(e.templates)
  {
    var blocks: seq<string> := [];
    for i := 0 to |e.templates|
      invariant blocks == Blocks(e.templates[..i])
    {
      var t := e.templates[i];
      var lines := ["意图: " + t.intent, "匹配模式: " + t.pattern, "SQL 模板: " + t.sqlTemplate,
                    "必填参数: " + (if t.requiredParams != [] then Join(t.requiredParams, ", ") else "无"),
                    "可选参数: " + (if t.optionalParams != [] then Join(t.optionalParams, ", ") else "无"),
                    "示例: " + (if Truthy(t.example) then t.example.value else "无")];
      assert lines == BlockLines(t);
      assert e.templates[..i + 1] == e.templates[..i] + [t];
      blocks := blocks + [Join(lines, "\n")];
    }
    assert e.templates[..|e.templates|] == e.templates;
    text := Join(blocks, "\n\n");
  }

  // ------------------------------------------------------------ mock execution

  const MockNote: string := "已模拟执行，真实环境请替换为数据库连接。"

  /** The mock `execute_sql`: always `success`, echoing the query, with the one fixed row. */
  function ExecuteSql(sql: string): (r: SqlResult)
    ensures r.status == Success && r.sql == sql && r.rows == [MockRow] && r.note == MockNote
  {
    SqlResult(Success, sql, [MockRow], MockNote)
  }

  datatype ApiResult = ApiResult(status: Status, api: string, payload: map<string, Value>, message: string)

  const ApiMessage: string := "已模拟调用业务 API，请在真实环境中接入实际接口。"

  /** The mock `call_api`: always `success`, echoing the API name and the payload unchanged. */
  function CallApi(apiName: string, payload: map<string, Value>): (r: ApiResult)
    ensures r.status == Success && r.api == apiName && r.payload == payload && r.message == ApiMessage
  {
    ApiResult(Success, apiName, payload, ApiMessage)
  }
}
