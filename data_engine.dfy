/** The data engine of the LangGraph example: the same name-keyed schema store and
    vocabulary search as the metadata engine, plus the execute-or-mock decision of
    `execute_sql`. The database is abstract: whether a configuration is given, what
    probing for and importing the driver do, and what connecting, querying and
    closing yield are inputs. */
module DataEngine {
  import opened Wrappers
  import opened Text
  import opened Assets

  datatype Engine = Engine(
    schemas: seq<TableSchema>,           // the name-keyed dictionary, in insertion order
    vocabulary: seq<BusinessVocabulary>,
    templates: seq<QuestionTemplate>,
    dbConfig: Option<map<string, Value>>,
    connectTimeout: int)

  /** `SmartDataEngine.__init__`; the connection timeout defaults to 5 seconds in the source. */
  function NewEngine(schemas: seq<TableSchema>, vocabulary: seq<BusinessVocabulary>,
                     templates: seq<QuestionTemplate>, dbConfig: Option<map<string, Value>>,
                     connectTimeout: int): (e: Engine)
    ensures UniqueNames(e.schemas)
    ensures forall n :: Lookup(e.schemas, n) == LastNamed(schemas, n)
    ensures e.vocabulary == vocabulary && e.templates == templates
    ensures e.dbConfig == dbConfig && e.connectTimeout == connectTimeout
  {
    IndexByNameCorrect(schemas);
    Engine(IndexByName(schemas), vocabulary, templates, dbConfig, connectTimeout)
  }

  /** A configuration counts only when present and non-empty (`not self._db_config`). */
  predicate Configured(e: Engine) {
    e.dbConfig.Some? && e.dbConfig.value != map[]
  }

  // ------------------------------------------------------------ vocabulary search

  const NoTermsMessage: string := "未匹配到相关术语，可尝试直接描述业务含义。"

  /** One search hit in this file's layout: the field part appears only for a non-empty
      field name, the note part only for a non-empty note. */
  function HitLine(h: BusinessVocabulary): (r: string)
    ensures var stem := "术语: " + h.term + " | 标准: " + h.canonical + " | 同义词: " + Join(h.synonyms, ", ");
      var fieldPart := if Truthy(h.fieldName) then " | 字段: " + h.fieldName.value else "";
      var notePart := if Truthy(h.note) then " | 说明: " + h.note.value else "";
      && |r| == |stem| + |fieldPart| + |notePart|
      && r[..|stem|] == stem
      && r[|stem|..|stem| + |fieldPart|] == fieldPart
      && r[|stem| + |fieldPart|..] == notePart
  {
    "术语: " + h.term + " | 标准: " + h.canonical + " | 同义词: " + Join(h.synonyms, ", ")
    + (if Truthy(h.fieldName) then " | 字段: " + h.fieldName.value else "")
    + (if Truthy(h.note) then " | 说明: " + h.note.value else "")
  }

  function HitLines(hits: seq<BusinessVocabulary>): (r: seq<string>)
    ensures |r| == |hits| && forall k :: 0 <= k < |hits| ==> r[k] == HitLine(hits[k])
  {
    seq(|hits|, k requires 0 <= k < |hits| => HitLine(hits[k]))
  }

  /** `search_terms`: one line per hit in vocabulary order; the fixed message exactly
      when nothing matches. */
  function SearchTerms(e: Engine, keyword: string): (r: string)
    ensures r == NoTermsMessage <==> Hits(e.vocabulary, keyword) == []
    ensures Hits(e.vocabulary, keyword) != [] ==> r == Join(HitLines(Hits(e.vocabulary, keyword)), "\n")
  {
    var hits := Hits(e.vocabulary, keyword);
    if hits == [] then NoTermsMessage
    else
      var r := Join(HitLines(hits), "\n");
      assert r != NoTermsMessage by {
        JoinStartsWith(HitLines(hits), "\n");
        assert r[0] == HitLine(hits[0])[0] == '术';
      }
      r
  }

  // ------------------------------------------------------------ execute or mock

  /** What probing for the driver and importing it do. `find_spec("mysql.connector")`
      imports the parent package first, so it raises ModuleNotFoundError when `mysql`
      itself is not installed; it returns None when `mysql` is there without its
      `connector` submodule; once found, `import mysql.connector` may still raise.
      The causes are the exception messages. */
  datatype DriverProbe = PackageMissing(cause: string) | NotFound | ImportFails(cause: string) | Loaded

  /** What the database does when asked: connecting fails, connecting succeeds but the
      query fails, or the query returns rows. The causes are the exception messages. */
  datatype StoreOutcome = ConnectFailed(cause: string) | QueryFailed(cause: string) | Fetched(rows: seq<Row>)

  /** The connection's life: opened with the timeout, queried, and `close()` called. */
  datatype StoreEvent = Opened(timeout: int) | Queried(sql: string) | Closed

  /** The returned dictionary, or the message of the exception that escapes. */
  datatype Execution = Execution(result: Result<SqlResult, string>, events: seq<StoreEvent>)

  const NoConfigNote: string := "未提供数据库配置，已返回模拟结果。"
  const NoDriverNote: string := "未检测到 mysql-connector-python，已返回模拟结果。"
  const FailurePrefix: string := "查询失败，回退到模拟模式: "
  const SuccessNote: string := "已连接 MySQL 返回真实结果。"

  /** The paths on which `execute_sql` raises instead of returning: with a
      configuration, the driver probe or the import raises (both before the `try`), or
      a connection was opened and its `close()` in the `finally` raises, which replaces
      whatever the `try` or `except` returned. */
  predicate Raises(e: Engine, probe: DriverProbe, outcome: StoreOutcome, closeFault: Option<string>) {
    Configured(e)
    && (probe.PackageMissing? || probe.ImportFails?
        || (probe.Loaded? && !outcome.ConnectFailed? && closeFault.Some?))
  }

  /** `execute_sql`. The branches are tried in order: no configuration, the driver
      probe, then the connection attempt, whose `finally` closes a connection that was
      opened. `closeFault` is what that `close()` raises, if anything. */
  function ExecuteSql(e: Engine, sql: string, probe: DriverProbe, outcome: StoreOutcome,
                      closeFault: Option<string>): (x: Execution)
    ensures x.result.Err? <==> Raises(e, probe, outcome, closeFault)
    ensures x.result.Err? && !probe.Loaded? ==> x.result.error == probe.cause
    ensures x.result.Err? && probe.Loaded? ==> x.result.error == closeFault.value
    ensures x.result.Ok? ==> x.result.value.sql == sql
    ensures x.result.Ok? ==> (x.result.value.status == Mock <==> !Configured(e) || probe.NotFound?)
    ensures x.result.Ok? ==> (x.result.value.status == Success <==> Configured(e) && probe.Loaded? && outcome.Fetched?)
    ensures x.result.Ok? ==> (x.result.value.status == Error <==> Configured(e) && probe.Loaded? && !outcome.Fetched?)
    ensures x.result.Ok? && x.result.value.status == Mock ==> x.result.value.rows == [MockRow] && x.events == []
    ensures !Configured(e) ==> x.result.Ok? && x.result.value.note == NoConfigNote
    ensures Configured(e) && probe.NotFound? ==> x.result.Ok? && x.result.value.note == NoDriverNote
    ensures x.result.Ok? && x.result.value.status == Error ==>
      x.result.value.rows == [] && x.result.value.note == FailurePrefix + outcome.cause
    ensures x.result.Ok? && x.result.value.status == Success ==>
      x.result.value.rows == outcome.rows && x.result.value.note == SuccessNote
    ensures x.events != [] <==> Configured(e) && probe.Loaded? && !outcome.ConnectFailed?
    ensures x.events != [] ==> x.events[0] == Opened(e.connectTimeout) && x.events[|x.events| - 1] == Closed
    ensures outcome.Fetched? && x.events != [] ==> x.events == [Opened(e.connectTimeout), Queried(sql), Closed]
  {
    if !Configured(e) then
      Execution(Ok(SqlResult(Mock, sql, [MockRow], NoConfigNote)), [])
    else
      match probe
      case PackageMissing(cause) => Execution(Err(cause), [])
      case NotFound => Execution(Ok(SqlResult(Mock, sql, [MockRow], NoDriverNote)), [])
      case ImportFails(cause) => Execution(Err(cause), [])
      case Loaded =>
        match outcome
        case ConnectFailed(cause) => Execution(Ok(SqlResult(Error, sql, [], FailurePrefix + cause)), [])
        case QueryFailed(cause) =>
          var returned := SqlResult(Error, sql, [], FailurePrefix + cause);
          Execution(if closeFault.Some? then Err(closeFault.value) else Ok(returned), [Opened(e.connectTimeout), Closed])
        case Fetched(rows) =>
          var returned := SqlResult(Success, sql, rows, SuccessNote);
          Execution(if closeFault.Some? then Err(closeFault.value) else Ok(returned),
                    [Opened(e.connectTimeout), Queried(sql), Closed])
  }

  function CountOpened(events: seq<StoreEvent>): nat {
    if events == [] then 0 else (if events[0].Opened? then 1 else 0) + CountOpened(events[1..])
  }

  function CountClosed(events: seq<StoreEvent>): nat {
    if events == [] then 0 else (if events[0].Closed? then 1 else 0) + CountClosed(events[1..])
  }

  /** The connection is released on every path: each opening is followed later by a
      close, as many closes as openings, and nothing happens after the close; a
      returned note is never empty. */
  lemma ConnectionReleased(e: Engine, sql: string, probe: DriverProbe, outcome: StoreOutcome,
                           closeFault: Option<string>)
    ensures var ev := ExecuteSql(e, sql, probe, outcome, closeFault).events;
      && (forall i :: 0 <= i < |ev| && ev[i].Opened? ==> exists j :: i < j < |ev| && ev[j].Closed?)
      && CountOpened(ev) == CountClosed(ev) <= 1
      && (forall i :: 0 <= i < |ev| && ev[i].Closed? ==> i == |ev| - 1)
    ensures var x := ExecuteSql(e, sql, probe, outcome, closeFault).result; x.Ok? ==> x.value.note != ""
  {
    var ev := ExecuteSql(e, sql, probe, outcome, closeFault).events;
    var closed: seq<StoreEvent> := [Closed];
    assert closed[1..] == [];
    assert CountOpened(closed) == 0 && CountClosed(closed) == 1;
    if ev == [Opened(e.connectTimeout), Closed] {
      assert ev[1..] == closed;
    } else if ev != [] {
      assert ev == [Opened(e.connectTimeout), Queried(sql), Closed];
      assert ev[1..][1..] == closed;
      assert ev[1..] == [Queried(sql), Closed];
    }
  }
}
