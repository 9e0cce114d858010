/** The catalog records both engines share: table schemas with their summary,
    business vocabulary entries, question templates, and the result records of
    query execution. */
module Assets {
  import opened Wrappers
  import opened Text

  // ------------------------------------------------------------ result records

  /** A row value: the rows are schema-free mappings from column name to value. */
  datatype Value = Str(s: string) | Int(i: int)

  type Row = map<string, Value>

  datatype Status = Success | Mock | Error {
    function Name(): string {
      match this
      case Success => "success"
      case Mock => "mock"
      case Error => "error"
    }
  }

  /** The dictionary `{"status", "sql", "rows", "note"}` an execution returns. */
  datatype SqlResult = SqlResult(status: Status, sql: string, rows: seq<Row>, note: string)

  /** The fixed illustrative row `{"示例字段": "value", "count": 42}`. */
  const MockRow: Row := map["示例字段" := Str("value"), "count" := Int(42)]

  // ------------------------------------------------------------ catalog records

  datatype TableField = TableField(name: string, dtype: string, zhName: string, meaning: string, example: string)

  datatype TableSchema = TableSchema(
    name: string, zhName: string, usage: string, primaryKey: string,
    indexes: seq<string>, fields: seq<TableField>)

  datatype BusinessVocabulary = BusinessVocabulary(
    term: string, canonical: string, synonyms: seq<string>,
    fieldName: Option<string>, note: Option<string>)

  datatype QuestionTemplate = QuestionTemplate(
    intent: string, pattern: string, sqlTemplate: string,
    requiredParams: seq<string>, optionalParams: seq<string>, example: Option<string>)

  /** Python truthiness of an optional string: present and non-empty. */
  predicate Truthy(o: Option<string>) {
    o.Some? && o.value != ""
  }

  // ------------------------------------------------------------ TableSchema.summarize

  function FieldLine(f: TableField): string {
    "- " + f.name + " (" + f.zhName + ", " + f.dtype + "): " + f.meaning + " 示例: " + f.example
  }

  function FieldLines(fs: seq<TableField>): (r: seq<string>)
    ensures |r| == |fs| && forall k :: 0 <= k < |fs| ==> r[k] == FieldLine(fs[k])
  {
    seq(|fs|, k requires 0 <= k < |fs| => FieldLine(fs[k]))
  }

  function HeaderLines(s: TableSchema): seq<string> {
    ["表名: " + s.name + " (" + s.zhName + ")", "用途: " + s.usage, "主键: " + s.primaryKey]
  }

  function IndexLine(s: TableSchema): string {
    "常用索引: " + Join(s.indexes, ", ")
  }

  /** The lines of a schema summary: name/label, usage and primary key always; the
      index line only when there are indexes; a "字段列表:" header and one line per
      field, in field order, only when there are fields. */
  function SummaryLines(s: TableSchema): (lines: seq<string>)
    ensures var idx := if |s.indexes| > 0 then 1 else 0;
      && |lines| == 3 + idx + (if |s.fields| > 0 then 1 + |s.fields| else 0)
      && lines[..3] == HeaderLines(s)
      && (|s.indexes| > 0 ==> lines[3] == IndexLine(s))
      && (|s.fields| > 0 ==> lines[3 + idx] == "字段列表:")
      && (|s.fields| > 0 ==> forall k :: 0 <= k < |s.fields| ==> lines[4 + idx + k] == FieldLine(s.fields[k]))
  {
    HeaderLines(s)
    + (if |s.indexes| > 0 then [IndexLine(s)] else [])
    + (if |s.fields| > 0 then ["字段列表:"] + FieldLines(s.fields) else [])
  }

  /** `schema.summarize()`: the summary lines joined by newlines. */
  function Summary(s: TableSchema): string {
    Join(SummaryLines(s), "\n")
  }

  /** `TableSchema.summarize`, accumulating the lines as the source does. */
  method Summarize(s: TableSchema) returns (text: string)
    ensures text == Summary(s)
  {
    var lines := ["表名: " + s.name + " (" + s.zhName + ")", "用途: " + s.usage];
    lines := lines + ["主键: " + s.primaryKey];
    if |s.indexes| > 0 {
      lines := lines + ["常用索引: " + Join(s.indexes, ", ")];
    }
    ghost var upper := lines;
    assert upper == HeaderLines(s) + (if |s.indexes| > 0 then [IndexLine(s)] else []);
    if |s.fields| > 0 {
      lines := lines + ["字段列表:"];
      ghost var head := lines;
      for i := 0 to |s.fields|
        invariant lines == head + FieldLines(s.fields[..i])
      {
        assert FieldLines(s.fields[..i + 1]) == FieldLines(s.fields[..i]) + [FieldLine(s.fields[i])];
        lines := lines + [FieldLine(s.fields[i])];
      }
      assert s.fields[..|s.fields|] == s.fields;
      assert lines == upper + (["字段列表:"] + FieldLines(s.fields));
    }
    assert lines == SummaryLines(s);
    text := Join(lines, "\n");
  }

  // ------------------------------------------------------------ schemas keyed by name

  /** The first index holding a schema called `name`. */
  function Position(d: seq<TableSchema>, name: string): (r: Option<nat>)
    ensures r.Some? ==> r.value < |d| && d[r.value].name == name
    ensures r.Some? ==> forall k :: 0 <= k < r.value ==> d[k].name != name
    ensures r.None? ==> forall k :: 0 <= k < |d| ==> d[k].name != name
  {
    if d == [] then None
    else if d[0].name == name then Some(0)
    else match Position(d[1..], name)
      case None => None
      case Some(i) => Some(i + 1)
  }

  /** `d[s.name] = s` on an insertion-ordered dictionary: an existing key keeps its
      position and takes the new value; a new key goes last. */
  function Insert(d: seq<TableSchema>, s: TableSchema): seq<TableSchema> {
    match Position(d, s.name)
    case None => d + [s]
    case Some(i) => d[i := s]
  }

  /** `{schema.name: schema for schema in schemas}`, as the ordered list of its values. */
  function IndexByName(ss: seq<TableSchema>): seq<TableSchema>
    decreases |ss|
  {
    if ss == [] then [] else Insert(IndexByName(ss[..|ss| - 1]), ss[|ss| - 1])
  }

  /** `d.get(name)`. */
  function Lookup(d: seq<TableSchema>, name: string): Option<TableSchema> {
    match Position(d, name)
    case None => None
    case Some(i) => Some(d[i])
  }

  /** Reference: the last schema in the input list with the given name. */
  function LastNamed(ss: seq<TableSchema>, name: string): Option<TableSchema>
    decreases |ss|
  {
    if ss == [] then None
    else if ss[|ss| - 1].name == name then Some(ss[|ss| - 1])
    else LastNamed(ss[..|ss| - 1], name)
  }

  predicate UniqueNames(d: seq<TableSchema>) {
    forall i, j :: 0 <= i < j < |d| ==> d[i].name != d[j].name
  }

  function Names(d: seq<TableSchema>): (r: seq<string>)
    ensures |r| == |d| && forall k :: 0 <= k < |d| ==> r[k] == d[k].name
  {
    seq(|d|, k requires 0 <= k < |d| => d[k].name)
  }

  /** Reference: each name at its first occurrence, in input order. */
  function FirstOccurrences(xs: seq<string>): seq<string>
    decreases |xs|
  {
    if xs == [] then []
    else if xs[|xs| - 1] in xs[..|xs| - 1] then FirstOccurrences(xs[..|xs| - 1])
    else FirstOccurrences(xs[..|xs| - 1]) + [xs[|xs| - 1]]
  }

  lemma InsertFacts(d: seq<TableSchema>, s: TableSchema)
    requires UniqueNames(d)
    ensures UniqueNames(Insert(d, s))
    ensures forall n :: Lookup(Insert(d, s), n) == if n == s.name then Some(s) else Lookup(d, n)
    ensures Names(Insert(d, s)) == if s.name in Names(d) then Names(d) else Names(d) + [s.name]
  {
    var r := Insert(d, s);
    match Position(d, s.name)
    case None =>
      forall n ensures Lookup(r, n) == if n == s.name then Some(s) else Lookup(d, n) {
        if n == s.name {
          assert Position(r, n) == Some(|d|) by { PositionUnique(r, |d|); }
        } else {
          PositionPrefix(d, s, n);
        }
      }
      assert Names(r) == Names(d) + [s.name];
    case Some(i) =>
      forall n ensures Lookup(r, n) == if n == s.name then Some(s) else Lookup(d, n) {
        if n == s.name {
          PositionUnique(r, i);
        } else if Position(d, n).Some? {
          PositionUnique(r, Position(d, n).value);
        } else {
          assert forall k :: 0 <= k < |r| ==> r[k].name != n;
        }
      }
      assert s.name in Names(d) by { assert Names(d)[i] == s.name; }
      assert Names(r) == Names(d);
  }

  lemma PositionUnique(d: seq<TableSchema>, i: nat)
    requires UniqueNames(d) && i < |d|
    ensures Position(d, d[i].name) == Some(i)
  {
  }

  lemma PositionPrefix(d: seq<TableSchema>, s: TableSchema, n: string)
    requires n != s.name
    ensures Position(d + [s], n) == Position(d, n)
  {
    if d != [] {
      assert (d + [s])[1..] == d[1..] + [s];
      PositionPrefix(d[1..], s, n);
    }
  }

  /** The engine's schema dictionary: names are unique, each name maps to the LAST
      schema with that name (a later duplicate overwrites an earlier one), and the
      names appear in order of first occurrence. */
  lemma {:induction false} IndexByNameCorrect(ss: seq<TableSchema>)
    ensures UniqueNames(IndexByName(ss))
    ensures forall n :: Lookup(IndexByName(ss), n) == LastNamed(ss, n)
    ensures Names(IndexByName(ss)) == FirstOccurrences(Names(ss))
    decreases |ss|
  {
    if ss != [] {
      var init := ss[..|ss| - 1];
      var s := ss[|ss| - 1];
      IndexByNameCorrect(init);
      InsertFacts(IndexByName(init), s);
      assert Names(ss)[..|ss| - 1] == Names(init);
      assert s.name in Names(IndexByName(init)) <==> s.name in Names(init) by {
        NamesOfIndex(init, s.name);
      }
    }
  }

  /** Entry `k` of the dictionary is the last schema given under the `k`-th distinct name. */
  lemma IndexByNameOrder(ss: seq<TableSchema>)
    ensures var d := IndexByName(ss);
      var names := FirstOccurrences(Names(ss));
      && |d| == |names|
      && forall k :: 0 <= k < |d| ==> d[k].name == names[k] && LastNamed(ss, names[k]) == Some(d[k])
  {
    IndexByNameCorrect(ss);
    var d := IndexByName(ss);
    forall k | 0 <= k < |d|
      ensures LastNamed(ss, d[k].name) == Some(d[k])
    {
      PositionUnique(d, k);
    }
  }

  /** A name is a key of the dictionary exactly when some input schema has it. */
  lemma NamesOfIndex(ss: seq<TableSchema>, n: string)
    requires forall m :: Lookup(IndexByName(ss), m) == LastNamed(ss, m)
    ensures n in Names(IndexByName(ss)) <==> n in Names(ss)
  {
    var d := IndexByName(ss);
    if n in Names(d) {
      var k :| 0 <= k < |d| && Names(d)[k] == n;
      assert Position(d, n).Some?;
      LastNamedIn(ss, n);
    }
    if n in Names(ss) {
      LastNamedFound(ss, n);
      assert Position(d, n).Some?;
      assert Names(d)[Position(d, n).value] == n;
    }
  }

  lemma LastNamedIn(ss: seq<TableSchema>, n: string)
    ensures LastNamed(ss, n).Some? ==> n in Names(ss)
    decreases |ss|
  {
    if ss != [] && ss[|ss| - 1].name != n {
      LastNamedIn(ss[..|ss| - 1], n);
      if LastNamed(ss, n).Some? {
        var k :| 0 <= k < |ss| - 1 && Names(ss[..|ss| - 1])[k] == n;
        assert Names(ss)[k] == n;
      }
    } else if ss != [] {
      assert Names(ss)[|ss| - 1] == n;
    }
  }

  lemma LastNamedFound(ss: seq<TableSchema>, n: string)
    ensures n in Names(ss) ==> LastNamed(ss, n).Some?
    decreases |ss|
  {
    if ss != [] && ss[|ss| - 1].name != n {
      LastNamedFound(ss[..|ss| - 1], n);
      if n in Names(ss) {
        var k :| 0 <= k < |ss| && Names(ss)[k] == n;
        assert k < |ss| - 1 && Names(ss[..|ss| - 1])[k] == n;
      }
    }
  }

  // ------------------------------------------------------------ vocabulary search

  /** The entry mentions the (already lower-cased) keyword in its term, its
      canonical form or one of its synonyms, compared lower-cased. */
  predicate Mentions(v: BusinessVocabulary, kw: string) {
    Contains(Lower(v.term), kw) || Contains(Lower(v.canonical), kw)
    || exists syn :: syn in v.synonyms && Contains(Lower(syn), kw)
  }

  function Filter(vocab: seq<BusinessVocabulary>, kw: string): (r: seq<BusinessVocabulary>)
    ensures |r| <= |vocab|
    ensures forall x :: x in r ==> x in vocab && Mentions(x, kw)
    ensures forall x :: x in vocab && Mentions(x, kw) ==> x in r
    decreases |vocab|
  {
    if vocab == [] then []
    else (if Mentions(vocab[0], kw) then [vocab[0]] else []) + Filter(vocab[1..], kw)
  }

  /** The hits of `search_terms(keyword)`: the entries mentioning `keyword.lower()`. */
  function Hits(vocab: seq<BusinessVocabulary>, keyword: string): seq<BusinessVocabulary> {
    Filter(vocab, Lower(keyword))
  }

  /** Hits keep the vocabulary order: filtering a concatenation concatenates the filtered parts. */
  lemma {:induction false} FilterConcat(a: seq<BusinessVocabulary>, b: seq<BusinessVocabulary>, kw: string)
    ensures Filter(a + b, kw) == Filter(a, kw) + Filter(b, kw)
    decreases |a|
  {
    if a != [] {
      assert (a + b)[0] == a[0] && (a + b)[1..] == a[1..] + b;
      FilterConcat(a[1..], b, kw);
    } else {
      assert a + b == b;
    }
  }

  /** The empty keyword matches every entry. */
  lemma {:induction false} EmptyKeywordHitsAll(vocab: seq<BusinessVocabulary>)
    ensures Hits(vocab, "") == vocab
    decreases |vocab|
  {
    if vocab != [] {
      ContainsEmpty(Lower(vocab[0].term));
      assert Lower("") == "";
      EmptyKeywordHitsAll(vocab[1..]);
    }
  }
}
