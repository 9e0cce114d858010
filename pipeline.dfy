/** The five-stage question-answering graph of the LangGraph example: template
    detection and parameter derivation, context enrichment, SQL generation,
    execution and the response line, run in that fixed order. The clock and the
    database are inputs (`Env`). */
module Pipeline {
  import opened Wrappers
  import opened Text
  import opened Calendar
  import opened Patterns
  import opened Formatting
  import opened Assets
  import DataEngine

  // ------------------------------------------------------------ _detect_template

  /** `ts[k]` is the first template, in list order, whose pattern matches `q`. */
  predicate FirstMatchAt(ts: seq<QuestionTemplate>, q: string, k: int) {
    0 <= k < |ts| && Matches(ts[k].pattern, q)
    && forall k' :: 0 <= k' < k ==> !Matches(ts[k'].pattern, q)
  }

  /** The first template at index `i` or later whose pattern matches. */
  function FirstMatchFrom(ts: seq<QuestionTemplate>, q: string, i: nat): (r: Option<QuestionTemplate>)
    requires i <= |ts|
    requires forall k :: 0 <= k < i ==> !Matches(ts[k].pattern, q)
    ensures r.None? <==> forall k :: i <= k < |ts| ==> !Matches(ts[k].pattern, q)
    ensures r.Some? ==> exists k :: FirstMatchAt(ts, q, k) && ts[k] == r.value
    decreases |ts| - i
  {
    if i == |ts| then None
    else if Matches(ts[i].pattern, q) then
      assert FirstMatchAt(ts, q, i);
      Some(ts[i])
    else FirstMatchFrom(ts, q, i + 1)
  }

  /** The value of `_detect_template`: the first matching template, or None exactly
      when no template matches. */
  function FirstMatch(ts: seq<QuestionTemplate>, q: string): (r: Option<QuestionTemplate>)
    ensures r.None? <==> forall k :: 0 <= k < |ts| ==> !Matches(ts[k].pattern, q)
    ensures r.Some? ==> exists k :: FirstMatchAt(ts, q, k) && ts[k] == r.value
  {
    FirstMatchFrom(ts, q, 0)
  }

  /** There is only one first match. */
  lemma FirstMatchUnique(ts: seq<QuestionTemplate>, q: string, k: int, k': int)
    requires FirstMatchAt(ts, q, k) && FirstMatchAt(ts, q, k')
    ensures k == k'
  {
  }

  /** `_detect_template`: scan the templates in order, returning at the first match. */
  method DetectTemplate(q: string, ts: seq<QuestionTemplate>) returns (r: Option<QuestionTemplate>)
    ensures r == FirstMatch(ts, q)
    ensures r.Some? ==> exists k :: FirstMatchAt(ts, q, k) && ts[k] == r.value
    ensures r.None? <==> forall k :: 0 <= k < |ts| ==> !Matches(ts[k].pattern, q)
  {
    for i := 0 to |ts|
      invariant forall k :: 0 <= k < i ==> !Matches(ts[k].pattern, q)
    {
      if Matches(ts[i].pattern, q) {
        assert FirstMatchAt(ts, q, i);
        var k :| FirstMatchAt(ts, q, k) && ts[k] == FirstMatch(ts, q).value;
        FirstMatchUnique(ts, q, i, k);
        return Some(ts[i]);
      }
    }
    return None;
  }

  // ------------------------------------------------------------ _derive_params

  /** The fixed filter for exposed-garbage events, over the four type and text columns. */
  const EventFilter: string :=
    "(SUB_TYPE_NAME LIKE '%暴露垃圾%' OR THIRD_TYPE_NAME LIKE '%暴露垃圾%' "
    + "OR MAX_EVENT_TYPE_NAME LIKE '%暴露垃圾%' OR EVENT_DESC LIKE '%暴露垃圾%')"

  /** The parameters `_derive_params` produces for a question and its template. */
  function DerivedParams(q: string, t: QuestionTemplate, today: Date): (r: map<string, string>)
    requires Supported(today)
    ensures "unit_name" in r <==>
      ("unit_name" in t.requiredParams || "unit_name" in t.optionalParams) && UnitCapture(q).Some?
    ensures "unit_name" in r ==> r["unit_name"] == UnitCapture(q).value
    ensures "event_filter" in r <==> "event_filter" in t.requiredParams
    ensures "event_filter" in r ==> r["event_filter"] == EventFilter
    ensures "time_filter" in r <==> "time_filter" in t.optionalParams
    ensures "time_filter" in r ==> r["time_filter"] == DefaultTimeFilter(today)
    ensures r.Keys <= {"unit_name", "event_filter", "time_filter"}
  {
    var withUnit :=
      if ("unit_name" in t.requiredParams || "unit_name" in t.optionalParams) && UnitCapture(q).Some?
      then map["unit_name" := UnitCapture(q).value] else map[];
    var withEvent := if "event_filter" in t.requiredParams then withUnit["event_filter" := EventFilter] else withUnit;
    if "time_filter" in t.optionalParams then withEvent["time_filter" := DefaultTimeFilter(today)] else withEvent
  }

  /** `_derive_params`, building the dictionary one key at a time. */
  method DeriveParams(q: string, t: QuestionTemplate, today: Date) returns (params: map<string, string>)
    requires Supported(today)
    ensures params == DerivedParams(q, t, today)
  {
    params := map[];
    if "unit_name" in t.requiredParams || "unit_name" in t.optionalParams {
      var m := UnitCapture(q);
      if m.Some? {
        params := params["unit_name" := m.value];
      }
    }
    if "event_filter" in t.requiredParams {
      params := params["event_filter" := EventFilter];
    }
    if "time_filter" in t.optionalParams {
      params := params["time_filter" := DefaultTimeFilter(today)];
    }
  }

  /** A derived `unit_name` is a slice of the question ending in the office suffix, made
      of class characters only, starting at the leftmost possible position. */
  lemma DerivedUnitName(q: string, t: QuestionTemplate, today: Date)
    requires Supported(today)
    requires "unit_name" in DerivedParams(q, t, today)
    ensures var u := DerivedParams(q, t, today)["unit_name"];
      && Contains(q, u)
      && |u| > |OfficeSuffix| && u[|u| - |OfficeSuffix|..] == OfficeSuffix
      && AllUnitChars(u)
      && var i := FindUnit(q).value.0;
      && 0 <= i <= |q| - |u| && q[i..i + |u|] == u
      && forall i', j' :: 0 <= i' < i ==> !UnitMatch(q, i', j')
  {
    UnitCaptureProperties(q);
  }

  // ------------------------------------------------------------ _render_sql

  function Declared(t: QuestionTemplate): seq<string> {
    t.requiredParams + t.optionalParams
  }

  /** Every declared name defaults to "", and supplied values override the default. */
  function Filled(t: QuestionTemplate, params: map<string, string>): (r: map<string, string>)
    ensures r.Keys == (set k | k in Declared(t)) + params.Keys
    ensures forall k :: k in params ==> r[k] == params[k]
    ensures forall k :: k in Declared(t) && k !in params ==> r[k] == ""
  {
    (map k | k in Declared(t) :: "") + params
  }

  /** `_render_sql`: the template text formatted with the filled values; `str.format`
      raises on an unknown name or a stray brace, which is the error case. */
  function Render(t: QuestionTemplate, params: map<string, string>): Result<string, FormatError> {
    Format(t.sqlTemplate, Filled(t, params))
  }

  /** A template whose braces are balanced and whose every placeholder is a declared
      keyword field. */
  predicate WellFormed(t: QuestionTemplate) {
    Placeholders(t.sqlTemplate).Some?
    && forall n :: n in Placeholders(t.sqlTemplate).value ==> n in Declared(t) && !Positional(n)
  }

  /** Rendering fails exactly when the text has a stray brace, a positional field, or
      a placeholder that is neither declared nor supplied; so a well-formed template
      always renders. */
  lemma RenderSucceedsIff(t: QuestionTemplate, params: map<string, string>)
    ensures Render(t, params).Ok? <==>
      Placeholders(t.sqlTemplate).Some?
      && forall n :: n in Placeholders(t.sqlTemplate).value ==> (n in Declared(t) || n in params) && !Positional(n)
    ensures WellFormed(t) ==> Render(t, params).Ok?
  {
    FormatSucceedsIff(t.sqlTemplate, Filled(t, params));
  }

  /** A template without placeholders renders unchanged. */
  lemma RenderNoPlaceholders(t: QuestionTemplate, params: map<string, string>)
    requires NoBraces(t.sqlTemplate)
    ensures Render(t, params) == Ok(t.sqlTemplate)
  {
    NoPlaceholdersUnchanged(t.sqlTemplate, Filled(t, params));
  }

  /** A placeholder renders as the supplied value, or as "" when it is declared but
      not supplied. */
  lemma RenderPlaceholder(t: QuestionTemplate, params: map<string, string>, pre: string, name: string, post: string)
    requires t.sqlTemplate == pre + "{" + name + "}" + post
    requires NoBraces(pre) && NoBraces(name) && !Positional(name)
    requires name in Declared(t) || name in params
    ensures name in params ==>
      Render(t, params) == Prepend(pre + params[name], Format(post, Filled(t, params)))
    ensures name !in params ==>
      Render(t, params) == Prepend(pre, Format(post, Filled(t, params)))
  {
    FormatField(pre, name, post, Filled(t, params));
    assert pre + "" == pre;
  }

  // ------------------------------------------------------------ the graph state

  /** `QAState`: a total=False dictionary, so every key may be absent. */
  datatype QAState = QAState(
    question: Option<string>,
    intent: Option<string>,
    template: Option<QuestionTemplate>,
    params: Option<map<string, string>>,
    sql: Option<string>,
    result: Option<SqlResult>,
    logs: Option<seq<string>>)

  /** What escapes from a stage: `state["question"]` on a state without a question
      (KeyError), the `str.format` error of rendering, or an exception raised by
      `execute_sql` (the driver probe, the import, or closing the connection). */
  datatype Failure = MissingQuestion | RenderFailed(error: FormatError) | ExecuteFailed(cause: string)

  /** The environment of a run: the engine, what probing for the driver does, what
      the database does, what closing the connection raises (if anything), and
      today's date. */
  datatype Env = Env(engine: DataEngine.Engine, probe: DataEngine.DriverProbe, outcome: DataEngine.StoreOutcome,
                     closeFault: Option<string>, today: Date)

  /** The engine's `execute_sql` on `sql` in this environment. */
  function Run(env: Env, sql: string): DataEngine.Execution {
    DataEngine.ExecuteSql(env.engine, sql, env.probe, env.outcome, env.closeFault)
  }

  /** Whether `execute_sql` raises in this environment (whatever the sql). */
  predicate DriverFault(env: Env) {
    DataEngine.Raises(env.engine, env.probe, env.outcome, env.closeFault)
  }

  function Logs(st: QAState): seq<string> {
    st.logs.GetOr([])
  }

  const DetectedLog: string := "完成意图识别"
  const FallbackLog: string := "未匹配到模板，默认统计事件数量。"
  const EnrichedLog: string := "完成上下文补全"
  const FallbackSqlLog: string := "使用兜底 SQL"
  const RenderedLog: string := "完成 SQL 生成"
  const ExecutedLog: string := "完成 SQL 执行"
  const FallbackSql: string := "SELECT COUNT(*) AS 事件数量 FROM pingshan_stat_info"

  // ------------------------------------------------------------ detect_intent

  /** `detect_intent`: log the stage; without a matching template set intent
      `fallback` and log that; otherwise take the template's intent, the template and
      the derived parameters. The question, sql and result are kept. */
  function DetectIntent(st: QAState, ts: seq<QuestionTemplate>, today: Date): (r: Result<QAState, Failure>)
    requires Supported(today)
    ensures r.Err? <==> st.question.None?
    ensures r.Ok? && FirstMatch(ts, st.question.value).None? ==>
      r.value == st.(intent := Some("fallback"), logs := Some(Logs(st) + [DetectedLog, FallbackLog]))
    ensures r.Ok? && FirstMatch(ts, st.question.value).Some? ==>
      var t := FirstMatch(ts, st.question.value).value;
      r.value == st.(intent := Some(t.intent), template := Some(t),
                     params := Some(DerivedParams(st.question.value, t, today)),
                     logs := Some(Logs(st) + [DetectedLog]))
  {
    if st.question.None? then Err(MissingQuestion)
    else
      var q := st.question.value;
      var tpl := FirstMatch(ts, q);
      var logs := Logs(st) + [DetectedLog];
      if tpl.None? then
        assert logs + [FallbackLog] == Logs(st) + [DetectedLog, FallbackLog];
        Ok(st.(logs := Some(logs + [FallbackLog]), intent := Some("fallback")))
      else Ok(st.(intent := Some(tpl.value.intent), template := tpl,
                  params := Some(DerivedParams(q, tpl.value, today)), logs := Some(logs)))
  }

  // ------------------------------------------------------------ enrich_context

  /** The required parameters that are absent or empty, in declared order. */
  function Missing(required: seq<string>, params: map<string, string>): (r: seq<string>)
    ensures forall x :: x in r <==> x in required && (x !in params || params[x] == "")
    ensures |r| <= |required|
  {
    if required == [] then []
    else
      var p := required[0];
      (if p !in params || params[p] == "" then [p] else []) + Missing(required[1..], params)
  }

  /** Missing is a filter: it distributes over concatenation of the required list. */
  lemma {:induction false} MissingConcat(a: seq<string>, b: seq<string>, params: map<string, string>)
    ensures Missing(a + b, params) == Missing(a, params) + Missing(b, params)
  {
    if a == [] {
      assert a + b == b;
    } else {
      assert (a + b)[0] == a[0];
      assert (a + b)[1..] == a[1..] + b;
      MissingConcat(a[1..], b, params);
    }
  }

  function MissingOf(tpl: Option<QuestionTemplate>, params: map<string, string>): seq<string> {
    if tpl.Some? then Missing(tpl.value.requiredParams, params) else []
  }

  /** Python's `repr` of a list of strings, for names without quotes or escapes. */
  function ListRepr(xs: seq<string>): string {
    "[" + Join(seq(|xs|, k requires 0 <= k < |xs| => "'" + xs[k] + "'"), ", ") + "]"
  }

  function MissingLog(missing: seq<string>): string {
    "缺失参数 " + ListRepr(missing) + "，尝试默认填充"
  }

  function EnrichedLogs(logs: seq<string>, missing: seq<string>): seq<string> {
    (if missing != [] then logs + [MissingLog(missing)] else logs) + [EnrichedLog]
  }

  function EnrichedParams(params: map<string, string>, missing: seq<string>, today: Date): map<string, string>
    requires Supported(today)
  {
    if "time_filter" in missing then params["time_filter" := DefaultTimeFilter(today)] else params
  }

  /** `enrich_context` on the state. Only params and logs change; the missing line is
      logged exactly when something is missing; `time_filter` is refilled only when it
      is missing; no parameter is removed and no other one changes; the stage always
      ends with its completion line. */
  function Enrich(st: QAState, today: Date): (r: QAState)
    requires Supported(today)
    ensures r.(params := st.params, logs := st.logs) == st
    ensures var missing := MissingOf(st.template, st.params.GetOr(map[]));
      && r.logs.Some?
      && (missing != [] ==> r.logs.value == Logs(st) + [MissingLog(missing), EnrichedLog])
      && (missing == [] ==> r.logs.value == Logs(st) + [EnrichedLog])
    ensures var p := st.params.GetOr(map[]);
      && r.params.Some?
      && p.Keys <= r.params.value.Keys
      && (forall k :: k in p && k != "time_filter" ==> r.params.value[k] == p[k])
      && ("time_filter" in MissingOf(st.template, p) ==> r.params.value == p["time_filter" := DefaultTimeFilter(today)])
      && ("time_filter" !in MissingOf(st.template, p) ==> r.params.value == p)
  {
    var p := st.params.GetOr(map[]);
    var missing := MissingOf(st.template, p);
    st.(params := Some(EnrichedParams(p, missing, today)), logs := Some(EnrichedLogs(Logs(st), missing)))
  }

  /** The list and dictionary `enrich_context` appends to and updates in place. */
  class StageBuffers {
    var logs: seq<string>
    var params: map<string, string>

    constructor(logs: seq<string>, params: map<string, string>)
      ensures this.logs == logs && this.params == params
    {
      this.logs := logs;
      this.params := params;
    }
  }

  /** The body of `enrich_context`: `logs.append` and `params["time_filter"] = …` on
      the shared buffers. */
  method EnrichInPlace(buf: StageBuffers, tpl: Option<QuestionTemplate>, today: Date)
    requires Supported(today)
    modifies buf
    ensures buf.logs == EnrichedLogs(old(buf.logs), MissingOf(tpl, old(buf.params)))
    ensures buf.params == EnrichedParams(old(buf.params), MissingOf(tpl, old(buf.params)), today)
  {
    if tpl.Some? {
      var missing := Missing(tpl.value.requiredParams, buf.params);
      if missing != [] {
        buf.logs := buf.logs + [MissingLog(missing)];
        if "time_filter" in missing {
          buf.params := buf.params["time_filter" := DefaultTimeFilter(today)];
        }
      }
    }
    buf.logs := buf.logs + [EnrichedLog];
  }

  /** `enrich_context` as a graph node: fetch the buffers (fresh empty ones for absent
      keys), update them in place, and return the state holding them. */
  method EnrichContext(st: QAState, today: Date) returns (r: QAState)
    requires Supported(today)
    ensures r == Enrich(st, today)
  {
    var buf := new StageBuffers(Logs(st), st.params.GetOr(map[]));
    EnrichInPlace(buf, st.template, today);
    r := st.(params := Some(buf.params), logs := Some(buf.logs));
  }

  // ------------------------------------------------------------ build_sql

  /** `build_sql`: without a template the fixed count query; otherwise the rendered
      template. Only sql and logs change. */
  function BuildSql(st: QAState): (r: Result<QAState, Failure>)
    ensures st.template.None? ==>
      r == Ok(st.(sql := Some(FallbackSql), logs := Some(Logs(st) + [FallbackSqlLog])))
    ensures st.template.Some? ==>
      var rendered := Render(st.template.value, st.params.GetOr(map[]));
      && (r.Ok? <==> rendered.Ok?)
      && (r.Ok? ==> r.value == st.(sql := Some(rendered.value), logs := Some(Logs(st) + [RenderedLog])))
      && (r.Err? ==> r.error == RenderFailed(rendered.error))
  {
    if st.template.None? then Ok(st.(sql := Some(FallbackSql), logs := Some(Logs(st) + [FallbackSqlLog])))
    else
      match Render(st.template.value, st.params.GetOr(map[]))
      case Err(e) => Err(RenderFailed(e))
      case Ok(sql) => Ok(st.(sql := Some(sql), logs := Some(Logs(st) + [RenderedLog])))
  }

  // ------------------------------------------------------------ execute and respond

  /** `execute`: run the state's sql ("" when absent) on the engine. An exception of
      `execute_sql` escapes; otherwise only result and logs change, the stored result
      is the engine's answer and echoes the sql that was run. */
  function Execute(st: QAState, env: Env): (r: Result<QAState, Failure>)
    ensures r.Err? <==> DriverFault(env)
    ensures r.Err? ==> r.error == ExecuteFailed(Run(env, st.sql.GetOr("")).result.error)
    ensures r.Ok? ==> r.value.(result := st.result, logs := st.logs) == st
    ensures r.Ok? ==> r.value.result == Some(Run(env, st.sql.GetOr("")).result.value)
    ensures r.Ok? ==> r.value.result.value.sql == st.sql.GetOr("")
    ensures r.Ok? ==> r.value.logs == Some(Logs(st) + [ExecutedLog])
  {
    match Run(env, st.sql.GetOr("")).result
    case Err(cause) => Err(ExecuteFailed(cause))
    case Ok(x) => Ok(st.(result := Some(x), logs := Some(Logs(st) + [ExecutedLog])))
  }

  function ResultLine(status: string, rowCount: nat): string {
    "执行状态: " + status + "。返回 " + NatToString(rowCount) + " 行。"
  }

  /** `respond`: append the status line, with status `mock` and no rows when there is
      no result. Nothing but the logs changes, and the line is the last one. */
  function Respond(st: QAState): (r: QAState)
    ensures r.(logs := st.logs) == st
    ensures r.logs.Some? && |r.logs.value| == |Logs(st)| + 1 && r.logs.value[..|Logs(st)|] == Logs(st)
    ensures st.result.None? ==> r.logs.value[|Logs(st)|] == ResultLine("mock", 0)
    ensures st.result.Some? ==>
      r.logs.value[|Logs(st)|] == ResultLine(st.result.value.status.Name(), |st.result.value.rows|)
  {
    var status := if st.result.Some? then st.result.value.status.Name() else "mock";
    var rows := if st.result.Some? then st.result.value.rows else [];
    st.(logs := Some(Logs(st) + [ResultLine(status, |rows|)]))
  }

  // ------------------------------------------------------------ the chain

  /** The compiled graph: detect_intent → enrich_context → build_sql → execute →
      respond, each stage acting on the state the previous one returned. The
      templates are the engine's catalog. */
  function Answer(init: QAState, env: Env): Result<QAState, Failure>
    requires Supported(env.today)
  {
    var detected :- DetectIntent(init, env.engine.templates, env.today);
    var enriched := Enrich(detected, env.today);
    var built :- BuildSql(enriched);
    var executed :- Execute(built, env);
    Ok(Respond(executed))
  }

  /** One run of the graph, with the looping and in-place stages as methods. */
  method RunGraph(init: QAState, env: Env) returns (out: Result<QAState, Failure>)
    requires Supported(env.today)
    ensures out == Answer(init, env)
  {
    if init.question.None? {
      return Err(MissingQuestion);
    }
    var q := init.question.value;
    var tpl := DetectTemplate(q, env.engine.templates);
    var logs := Logs(init) + [DetectedLog];
    var detected: QAState;
    if tpl.None? {
      detected := init.(logs := Some(logs + [FallbackLog]), intent := Some("fallback"));
    } else {
      var params := DeriveParams(q, tpl.value, env.today);
      detected := init.(intent := Some(tpl.value.intent), template := tpl, params := Some(params), logs := Some(logs));
    }
    var enriched := EnrichContext(detected, env.today);
    var built := BuildSql(enriched);
    if built.Err? {
      return Err(built.error);
    }
    var executed := Execute(built.value, env);
    if executed.Err? {
      return Err(executed.error);
    }
    out := Ok(Respond(executed.value));
  }

  // ------------------------------------------------------------ properties of a run

  function BuildLog(st: QAState): string {
    if st.template.None? then FallbackSqlLog else RenderedLog
  }

  /** The log trail of a successful run shows the stages in order: it extends the
      initial logs with the detection line, and ends with the enrichment, generation,
      execution and response lines; the stored result echoes the sql. */
  lemma RunTrail(init: QAState, env: Env)
    requires Supported(env.today)
    requires Answer(init, env).Ok?
    ensures var r := Answer(init, env).value;
      var logs := r.logs.value;
      var n := |Logs(init)|;
      && r.logs.Some? && r.question == init.question
      && |logs| >= n + 5
      && logs[..n + 1] == Logs(init) + [DetectedLog]
      && logs[|logs| - 4] == EnrichedLog
      && logs[|logs| - 3] == BuildLog(r)
      && logs[|logs| - 2] == ExecutedLog
      && logs[|logs| - 1] == ResultLine(r.result.value.status.Name(), |r.result.value.rows|)
      && r.result.Some? && r.sql.Some? && r.result.value.sql == r.sql.value
  {
    var detected := DetectIntent(init, env.engine.templates, env.today).value;
    var enriched := Enrich(detected, env.today);
    var built := BuildSql(enriched).value;
    var executed := Execute(built, env).value;
    var r := Respond(executed);
    assert Logs(built) == Logs(enriched) + [BuildLog(built)];
    assert Logs(executed) == Logs(built) + [ExecutedLog];
    assert r.logs.value == Logs(executed) + [r.logs.value[|Logs(executed)|]];
    assert Logs(detected)[..|Logs(init)| + 1] == Logs(init) + [DetectedLog];
    assert Logs(enriched)[..|Logs(init)| + 1] == Logs(init) + [DetectedLog];
  }

  /** A question no template matches, asked on a fresh state, in an environment where
      `execute_sql` does not raise: intent becomes `fallback`, the fixed count query
      runs, the engine's answer to it is stored, and the trail records exactly the six
      stage lines. */
  lemma FallbackRun(init: QAState, env: Env)
    requires Supported(env.today)
    requires init.question.Some? && init.template.None?
    requires forall k :: 0 <= k < |env.engine.templates| ==> !Matches(env.engine.templates[k].pattern, init.question.value)
    requires !DriverFault(env)
    ensures Answer(init, env).Ok?
    ensures Answer(init, env).value.intent == Some("fallback")
    ensures Answer(init, env).value.template.None?
    ensures Answer(init, env).value.sql == Some(FallbackSql)
    ensures Answer(init, env).value.result == Some(Run(env, FallbackSql).result.value)
    ensures var x := Run(env, FallbackSql).result.value;
      Answer(init, env).value.logs
      == Some(Logs(init) + [DetectedLog, FallbackLog, EnrichedLog, FallbackSqlLog, ExecutedLog,
                            ResultLine(x.status.Name(), |x.rows|)])
  {
    var detected := DetectIntent(init, env.engine.templates, env.today).value;
    assert detected.template.None?;
    assert Logs(detected) == Logs(init) + [DetectedLog, FallbackLog];
    var enriched := Enrich(detected, env.today);
    assert Logs(enriched) == Logs(init) + [DetectedLog, FallbackLog, EnrichedLog];
    var built := BuildSql(enriched).value;
    assert built.sql == Some(FallbackSql);
    assert Logs(built) == Logs(init) + [DetectedLog, FallbackLog, EnrichedLog, FallbackSqlLog];
    var executed := Execute(built, env).value;
    assert Logs(executed) == Logs(init) + [DetectedLog, FallbackLog, EnrichedLog, FallbackSqlLog, ExecutedLog];
    var x := Run(env, FallbackSql).result.value;
    assert executed.result == Some(x);
    assert Respond(executed).logs.value == Logs(executed) + [ResultLine(x.status.Name(), |x.rows|)];
    assert Answer(init, env) == Ok(Respond(executed));
    assert Logs(executed) + [ResultLine(x.status.Name(), |x.rows|)]
        == Logs(init) + [DetectedLog, FallbackLog, EnrichedLog, FallbackSqlLog, ExecutedLog,
                         ResultLine(x.status.Name(), |x.rows|)];
  }

  /** On a catalog of well-formed templates, and a state whose own template (if any) is
      well formed, a run with a question fails exactly when `execute_sql` raises; in
      particular, with a configuration but without the `mysql` package the driver
      probe's ModuleNotFoundError escapes. */
  lemma FailsOnlyOnDriverFaults(init: QAState, env: Env)
    requires Supported(env.today)
    requires init.question.Some?
    requires forall k :: 0 <= k < |env.engine.templates| ==> WellFormed(env.engine.templates[k])
    requires init.template.Some? ==> WellFormed(init.template.value)
    ensures Answer(init, env).Ok? <==> !DriverFault(env)
    ensures Answer(init, env).Err? ==> Answer(init, env).error.ExecuteFailed?
    ensures DataEngine.Configured(env.engine) && env.probe.PackageMissing? ==>
      Answer(init, env) == Err(ExecuteFailed(env.probe.cause))
  {
    var detected := DetectIntent(init, env.engine.templates, env.today).value;
    var enriched := Enrich(detected, env.today);
    if enriched.template.Some? {
      RenderSucceedsIff(enriched.template.value, enriched.params.GetOr(map[]));
    }
    var built := BuildSql(enriched);
    assert built.Ok?;
  }

  /** A question a template matches: the run takes that template's intent, renders
      its text with the derived (and enriched) parameters, and stores the engine's
      answer to that sql. */
  lemma MatchedRun(init: QAState, env: Env)
    requires Supported(env.today)
    requires init.question.Some?
    requires FirstMatch(env.engine.templates, init.question.value).Some?
    requires Answer(init, env).Ok?
    ensures var t := FirstMatch(env.engine.templates, init.question.value).value;
      var derived := DerivedParams(init.question.value, t, env.today);
      var r := Answer(init, env).value;
      && r.intent == Some(t.intent)
      && r.template == Some(t)
      && r.params == Some(EnrichedParams(derived, Missing(t.requiredParams, derived), env.today))
      && Render(t, r.params.value) == Ok(r.sql.value)
    ensures var r := Answer(init, env).value;
      r.sql.Some? && r.result == Some(Run(env, r.sql.value).result.value)
  {
  }
}
