# Template-driven question answering over the Pingshan event table, in Dafny

This project models the core of two example programs. Both answer business
questions over the `pingshan_stat_info` event table.

- `examples/langgraph_questioning_system.py` answers a question in a fixed chain of
  stages:
  - **detect_intent** picks the first question template whose pattern matches and
    derives its parameters: the `unit_name` capture, the constant `event_filter` and
    the current-month `time_filter`.
  - **enrich_context** logs the missing required parameters, refills only a missing
    `time_filter`, and appends to the log in place.
  - **build_sql** fills the template's placeholders, or falls back to a fixed count
    query.
  - **execute** runs the query, or returns a mock result when no database is
    available.
  - **respond** appends a status line.

  Its data engine also keys table schemas by name and searches the business
  vocabulary.
- `examples/smart_questioning_system.py` holds a metadata engine:
  - schema summaries and lookup by table name;
  - case-insensitive vocabulary search;
  - the listing of the template catalog;
  - mock SQL execution and mock API calls.

The model is organised in these modules:

- **Wrappers**: Option and Result.
- **Text**: join, substring, ASCII lower-casing and zero-padded digits.
- **Calendar**: dates, the 32-day step, `strftime`/`strptime` of `%Y-%m-%d`, and the
  month window.
- **Patterns**: `re.search` for `.*`-separated literal patterns, and the
  `unit_name` capture.
- **Formatting**: the part of `str.format` the templates use.
- **Assets**: the shared records, `summarize`, the name-keyed schema dictionary and
  the vocabulary filter.
- **MetadataEngine**: the smart file's engine.
- **DataEngine**: the LangGraph file's engine.
- **Pipeline**: the five stages and their chaining.
- **Fixtures**, **UnitScenarios**, **DateScenarios** and **PatternScenarios**:
  lemmas about the bundled example data.

The model keeps the shape of the code:

- Loops are methods with loop invariants, proved equal to specification functions:
  - `_detect_template` (`Pipeline.DetectTemplate`);
  - `summarize` (`Assets.Summarize`);
  - `list_question_templates` (`MetadataEngine.ListQuestionTemplates`).
- The three conditional updates of the parameter dictionary in `_derive_params` are a
  method (`Pipeline.DeriveParams`) proved equal to `Pipeline.DerivedParams`.
- The in-place `logs.append` and `params[...] =` of `enrich_context` change a
  `StageBuffers` object (`Pipeline.EnrichInPlace`).
- The expression-style stages are functions on a `QAState` value. In that value
  every key of the `total=False` dictionary is an `Option`.
- An engine is a datatype, because nothing changes its fields after `__init__`.

The clock, the database and the driver probe are inputs:

- today's date, as a `Calendar.Date`;
- what probing for and importing the driver do: `DataEngine.DriverProbe`. The probe
  `find_spec("mysql.connector")` imports the parent package first, so it raises
  when `mysql` is not installed, and returns None when only the `connector`
  submodule is missing;
- what connecting and querying yield: `DataEngine.StoreOutcome`;
- what `connection.close()` in the `finally` raises, if anything.

`_render_sql` is a function, so rendering twice with the same inputs gives the same
string by construction.

Where the code and its description differ, the model follows the code:

- `str.format` raises on a placeholder that is neither declared nor supplied, on a
  positional field such as `{}`, and on a stray brace. So `Pipeline.Render` returns
  a `Result`, and a run of the graph can fail (`Pipeline.Failure`).
- `execute_sql` does not always return a dictionary. With a configuration, it
  raises when the `mysql` package is absent, when the import fails, or when closing
  an opened connection fails. Those exceptions escape the graph
  (`Failure.ExecuteFailed`).
- `Pipeline.FailsOnlyOnDriverFaults` shows that a run with a question fails exactly
  when `execute_sql` raises, provided that every template, including one the
  incoming state already holds, has balanced, declared, keyword-only placeholders,
  and that the date is supported (`Calendar.Supported`).
- `detect_intent` reads `state["question"]`, which raises `KeyError` on a state
  without a question. That is `Failure.MissingQuestion`.
- On the fallback path nothing removes a template or parameters that the incoming
  state already holds. `enrich_context` then stores an empty parameter dictionary
  when none was present.

## Model

| member | source | states |
|---|---|---|
| Pipeline.FirstMatch | examples/langgraph_questioning_system.py:255-259 | None exactly when no template's pattern matches; otherwise the template at the first index, in list order, whose pattern matches |
| Pipeline.DetectTemplate | examples/langgraph_questioning_system.py:255-259 | the scan with early return yields the first matching template in list order, None exactly when none matches, and equals `FirstMatch` |
| Pipeline.FirstMatchUnique | examples/langgraph_questioning_system.py:255-259 | the first matching index is unique |
| Pipeline.DerivedParams | examples/langgraph_questioning_system.py:262-279 | `unit_name` is present iff declared (required or optional) and the capture succeeds, with the capture as its value; `event_filter` iff required, with the fixed OR of four `LIKE '%暴露垃圾%'` tests; `time_filter` iff optional, with the month window; no other key |
| Pipeline.DeriveParams | examples/langgraph_questioning_system.py:262-279 | the step-by-step dictionary equals `DerivedParams` |
| Pipeline.DerivedUnitName | examples/langgraph_questioning_system.py:265-268 | a derived `unit_name` is a slice of the question that ends with 街道办事处, consists only of class characters and starts at the leftmost position where the regex matches |
| Patterns.UnitCapture | examples/langgraph_questioning_system.py:266-268 | the capture is None exactly when no run of class characters followed by 街道办事处 occurs |
| Patterns.UnitCaptureProperties | examples/langgraph_questioning_system.py:266-268 | the capture is a slice of the question ending in the suffix, made of class characters only, starting leftmost, and the longest match from there (greedy `+`) |
| Patterns.FindUnitFrom | examples/langgraph_questioning_system.py:266 | the leftmost start at or after a position and, for it, the largest suffix position; None when nothing matches from there |
| Patterns.Pieces | examples/langgraph_questioning_system.py:257 | a pattern splits into at least one literal piece |
| Patterns.PiecesJoin | examples/langgraph_questioning_system.py:257 | joining the pieces with `.*` gives the pattern back |
| Patterns.PiecesOfJoin | examples/langgraph_questioning_system.py:257 | dot-free literals joined with `.*` split back into exactly those literals |
| Patterns.SearchMeaning | examples/langgraph_questioning_system.py:257 | the backtracking search succeeds exactly when the pieces occur in order without overlap, with newline-free gaps |
| Patterns.MatchesMeaning | examples/langgraph_questioning_system.py:257 | `re.search(pattern, q)` succeeds exactly when the pattern's pieces occur in order in `q`, with newline-free gaps |
| Patterns.InOrderAtPositions | examples/langgraph_questioning_system.py:257 | pieces found at increasing positions with newline-free gaps occur in order |
| Calendar.DefaultTimeFilter | examples/langgraph_questioning_system.py:172-178 | the filter is `CREATE_TIME >= 'Y-M-01' AND CREATE_TIME < '<first day of the next month>'`, computed as the source does (render, truncate, parse, add 32 days, set day 1) |
| Calendar.FirstOfNextMonth | examples/langgraph_questioning_system.py:175-177 | the upper bound is a valid first day that comes after the last day of the month (December goes to January of the next year) |
| Calendar.ThirtyTwoDaysFromFirst | examples/langgraph_questioning_system.py:176 | 32 days after the 1st is day 33 − (days in month) of the next month, so the step never skips a month |
| Calendar.TodayInWindow | examples/langgraph_questioning_system.py:172-178 | today lies in the window: not before the 1st of its month, and before the 1st of the next month |
| Calendar.ParseFormatRoundTrip | examples/langgraph_questioning_system.py:175-176 | `strptime` of the `%Y-%m-%d` text of a date gives the date back |
| Calendar.FormatMonthStart | examples/langgraph_questioning_system.py:174 | `%Y-%m-01` is the `%Y-%m-%d` text of the first day of the month |
| Calendar.AddDaysSplit | examples/langgraph_questioning_system.py:176 | adding a + b days is adding a days and then b days |
| Text.DigitsRoundTrip | examples/langgraph_questioning_system.py:174-177 | zero-padded digits of a number that fits read back as that number |
| Pipeline.Filled | examples/langgraph_questioning_system.py:283 | the keys are the declared names plus the supplied ones; a supplied value wins; a declared, unsupplied name maps to "" |
| Pipeline.RenderSucceedsIff | examples/langgraph_questioning_system.py:282-284 | rendering succeeds exactly when the braces are balanced and every placeholder is declared or supplied; a well-formed template always renders |
| Pipeline.RenderPlaceholder | examples/langgraph_questioning_system.py:282-284 | a placeholder renders as the supplied value, or as "" when it is declared but not supplied |
| Pipeline.RenderNoPlaceholders | examples/langgraph_questioning_system.py:282-284 | a template without braces renders unchanged |
| Formatting.FormatSucceedsIff | examples/langgraph_questioning_system.py:284 | `str.format` succeeds exactly when the placeholders parse and every field is a keyword field with a value |
| Formatting.FormatField | examples/langgraph_questioning_system.py:284 | a keyword field `{name}` is replaced by its value |
| Formatting.PositionalFieldRaises | examples/langgraph_questioning_system.py:284 | `{}` or `{0}` raises whatever keyword values are given, since no positional arguments are passed |
| Formatting.NoPlaceholdersUnchanged | examples/langgraph_questioning_system.py:284 | brace-free text formats to itself |
| Pipeline.DetectIntent | examples/langgraph_questioning_system.py:291-298 | raises exactly when the question is absent; with no match, intent `fallback` and the two log lines are added, and nothing else changes; otherwise the intent, template and derived parameters are set and the detection line is logged |
| Pipeline.Missing | examples/langgraph_questioning_system.py:305 | the missing names are exactly the required names absent from, or empty in, the parameters |
| Pipeline.MissingConcat | examples/langgraph_questioning_system.py:305 | the missing list is a filter of the required list and keeps its declared order |
| Pipeline.Enrich | examples/langgraph_questioning_system.py:300-311 | only params and logs change; the missing line is logged exactly when something is missing; the stage always ends with 完成上下文补全; `time_filter` is refilled only when missing; no parameter is removed or changed otherwise |
| Pipeline.EnrichInPlace | examples/langgraph_questioning_system.py:304-310 | appending to the log and updating the dictionary in place leaves them as `Enrich` describes |
| Pipeline.EnrichContext | examples/langgraph_questioning_system.py:300-311 | the node built on the in-place update returns exactly `Enrich` of its state |
| Pipeline.BuildSql | examples/langgraph_questioning_system.py:313-320 | without a template the fixed `SELECT COUNT(*) AS 事件数量 FROM pingshan_stat_info` and 使用兜底 SQL; otherwise the rendered template and 完成 SQL 生成, failing exactly when rendering fails; only sql and logs change |
| Pipeline.Execute | examples/langgraph_questioning_system.py:322-326 | fails exactly when `execute_sql` raises, with its exception; otherwise only result and logs change, the result is the engine's answer for the state's sql ("" when absent) and echoes it, and 完成 SQL 执行 is logged |
| Pipeline.Respond | examples/langgraph_questioning_system.py:328-334 | only the logs change; one line is appended at the end, `执行状态: {status}。返回 {n} 行。`, with status `mock` and no rows when there is no result |
| Pipeline.RunGraph | examples/langgraph_questioning_system.py:343-348 | running the stages in the fixed order, with the loops and the in-place stage as methods, gives `Answer` |
| Pipeline.RunTrail | examples/langgraph_questioning_system.py:291-348 | a successful run's log extends the initial one with the detection line and ends with the enrichment, generation, execution and status lines in that order; the result echoes the sql |
| Pipeline.FallbackRun | examples/langgraph_questioning_system.py:295-296 | when no template matches, intent is `fallback`, the fixed count query runs, and the log gains exactly the six stage lines |
| Pipeline.MatchedRun | examples/langgraph_questioning_system.py:291-326 | when a template matches, the run takes its intent, enriches the derived parameters, renders the template, and stores the engine's answer to that sql |
| Pipeline.FailsOnlyOnDriverFaults | examples/langgraph_questioning_system.py:119-157 | with a question and well-formed templates, the run fails exactly when `execute_sql` raises; with a configuration and no `mysql` package, the probe's error escapes |
| DataEngine.NewEngine | examples/langgraph_questioning_system.py:84-96 | schemas keyed by name with the last duplicate winning; the other arguments are stored unchanged |
| DataEngine.ExecuteSql | examples/langgraph_questioning_system.py:119-157 | the ordered choice: no configuration gives `mock`; with a configuration, a missing `mysql` package or a failing import raises, a missing `connector` submodule gives `mock`; each mock has the one fixed row and its own note; a failed connect or query gives `error` with no rows; success gives the fetched rows; a failing `close()` of an opened connection raises instead; the sql is always echoed; connections open only when configured, the driver is loaded and connecting succeeds |
| DataEngine.ConnectionReleased | examples/langgraph_questioning_system.py:138-157 | every opened connection has `close()` called later, as many closes as openings, the close is the last event; a returned note is never empty |
| DataEngine.HitLine | examples/langgraph_questioning_system.py:113-115 | the line is the term/standard/synonyms stem, then ` \| 字段: …` only for a non-empty field name, then ` \| 说明: …` only for a non-empty note |
| DataEngine.SearchTerms | examples/langgraph_questioning_system.py:101-117 | the fixed no-match message exactly when there are no hits; otherwise one line per hit joined by newlines |
| Assets.SummaryLines | examples/smart_questioning_system.py:39-50 | name/label, usage and primary-key lines always; the index line only with indexes; the 字段列表: header and one line per field in field order only with fields |
| Assets.Summarize | examples/langgraph_questioning_system.py:39-50 | the accumulating loop returns the summary lines joined by newlines |
| Assets.IndexByNameCorrect | examples/smart_questioning_system.py:89 | names are unique, each maps to the last schema given under it, and keys keep first-occurrence order |
| Assets.IndexByNameOrder | examples/smart_questioning_system.py:89 | entry k is the last schema given under the k-th distinct name |
| Assets.Filter | examples/smart_questioning_system.py:105-111 | the hits are exactly the vocabulary entries mentioning the keyword, as a subsequence |
| Assets.FilterConcat | examples/smart_questioning_system.py:105-111 | hits keep vocabulary order |
| Assets.EmptyKeywordHitsAll | examples/smart_questioning_system.py:104-111 | the empty keyword matches every entry |
| Text.Lower | examples/smart_questioning_system.py:104-110 | lower-casing keeps the length and maps each character |
| MetadataEngine.NewEngine | examples/smart_questioning_system.py:83-92 | names unique, each maps to the last schema given under it, keys in first-occurrence order; vocabulary and templates stored unchanged |
| MetadataEngine.ListTablesAfterInit | examples/smart_questioning_system.py:94-95 | on a freshly built engine the listing has one summary per distinct name, in first-occurrence order, of the last schema given under it |
| MetadataEngine.GetTable | examples/smart_questioning_system.py:97-101 | the summary of the schema stored under the name, or `未找到表 {name}，请确认表名是否正确。` when there is none |
| MetadataEngine.GetTableAfterInit | examples/smart_questioning_system.py:89-101 | on a freshly built engine, `get_table` shows the last schema given under the name |
| MetadataEngine.HitLine | examples/smart_questioning_system.py:114-118 | the field shows 未知 when absent or empty; ` \| 说明: …` appears exactly when the note is non-empty |
| MetadataEngine.SearchTerms | examples/smart_questioning_system.py:103-118 | the fixed no-match message exactly when there are no hits; otherwise one line per hit in vocabulary order, joined by newlines |
| MetadataEngine.BlockLines | examples/smart_questioning_system.py:123-132 | six lines; 无 for an empty required list, an empty optional list, or a missing or empty example |
| MetadataEngine.CatalogText | examples/smart_questioning_system.py:120-135 | the empty catalog lists as ""; a single template lists as its block |
| MetadataEngine.CatalogTextSnoc | examples/smart_questioning_system.py:135 | a further template adds a blank line and its block at the end, so blocks keep catalog order |
| MetadataEngine.ListQuestionTemplates | examples/smart_questioning_system.py:120-135 | the accumulating loop returns `CatalogText` of the catalog |
| MetadataEngine.ExecuteSql | examples/smart_questioning_system.py:138-148 | always `success`, echoes the sql, exactly the one fixed row, the fixed note |
| MetadataEngine.CallApi | examples/smart_questioning_system.py:150-158 | always `success`, echoes the API name and the payload unchanged, the fixed message |
| UnitScenarios.UnitNameOfExample | examples/langgraph_questioning_system.py:266-268 | for 这个月坪山街道办事处处理了多少案件 the capture is 这个月坪山街道办事处, starting at index 0 |
| DateScenarios.DecemberWindow | examples/langgraph_questioning_system.py:172-178 | on 2025-12-15 the window runs from 2025-12-01 to 2026-01-01 |
| PatternScenarios.FirstPatternMatchesExample | examples/langgraph_questioning_system.py:218-227 | the first bundled pattern matches its example question |

## Left out

- The LangGraph `StateGraph` construction, `compile` and `invoke` are a foreign library. The chain is direct composition in `Pipeline.Answer`, with no state-merging machinery.
- The agent glue of the smart file is left out, because it is framework or prompt text: `build_tools`, the tool wrappers, `build_subagents`, `build_system_prompt`, `create_smart_questioning_agent` and `create_deep_agent`.
- `_build_assets` and `DB_CONFIG` are static data. Only the first template's pattern, its example and one date are used, as fixtures.
- The `__main__` blocks and `print` are left out.
- `mysql.connector.connect`, `cursor`, `execute`, `fetchall` and `importlib.util.find_spec` are external I/O.
  - They are inputs: `DataEngine.DriverProbe`, `DataEngine.StoreOutcome`, and what `close()` raises.
  - `connection.cursor(dictionary=True)` raising is folded into `QueryFailed`, since it lies inside the same `try`.
  - `connect_timeout` appears only in the `Opened` event.
  - The exception text is an abstract `cause` string.
- `_dt.date.today()` reads the clock. Today's date is a parameter.
  - The source reads the clock separately in `_derive_params` and in `enrich_context`. The model uses one date for the whole run.
- General Python regular expressions are not modelled. Patterns are only `.*`-separated literal pieces: `Patterns.Matches` treats every other character literally, and the one rule kept for `.` is that it does not match a newline. The `unit_name` capture is its single fixed expression.
- `Text.Lower` folds ASCII letters only. Python's full Unicode `str.lower()` is not modelled.
- `str.format` is modelled only for keyword fields `{name}` and the escapes `{{` and `}}`.
  - Conversions, format specifications, attribute and index fields are not modelled.
  - A field whose name is empty or all digits (`{}`, `{0}`) is an error whatever keys are given, as Python's `IndexError` is. Other numeric forms such as `{-1}` are treated as keyword names.
- `Pipeline.ListRepr` does not model Python's `repr` escaping of names that contain quotes or backslashes.
- `Calendar.ParseDate` models `strptime` for the zero-padded ten-character form only.
- `Calendar.DefaultTimeFilter` requires a date whose year is between 1000 and 9999 and that is not in December 9999 (`Calendar.Supported`).
  - Before year 1000, `%Y` renders fewer than four digits on some platforms and Python versions, so the source's `[:7]` slice breaks.
  - In December 9999, adding 32 days overflows, and the source raises.
- `Pipeline.DerivedParams`, `Pipeline.DeriveParams`, `Pipeline.DetectIntent`, `Pipeline.Enrich`, `Pipeline.EnrichInPlace`, `Pipeline.EnrichContext`, `Pipeline.Answer`, `Pipeline.RunGraph` and the run lemmas require a supported date for the whole run, even on paths that never build a time filter; the source works with any date there.
- Python dictionaries are insertion-ordered. The schema dictionary is a sequence with unique names, where an overwrite keeps the first position.
- The row dictionaries hold only string and integer values (`Assets.Value`).
- The payload of `call_api` is modelled the same way.
- Aliasing is not modelled: `enrich_context` appends to the very list object held by the incoming state. The model's `StageBuffers` starts from a copy, so that earlier state does not change.
