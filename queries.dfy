/** The SQL each query operation of the adapter sends, and the dispatch from a
    query kind to its SQL: seven kinds are translated, two are unsupported. */
module QueryTranslator {
  import opened Wrappers
  import opened Strings
  import opened Decimal
  import opened Schema
  import opened DeviceAddressing
  import opened SelectHeads
  import opened ValueFilter
  import opened TimeClauses

  /** `preciseQuery`: the simple head, then the point clause. */
  function PreciseQuerySql(devices: seq<DeviceSchema>, timestamp: Int64): (sql: string)
    requires HasHead(devices)
    ensures var head := SimpleQuerySqlHead(devices); |head| < |sql| && sql[..|head|] == head
  {
    SimpleQuerySqlHead(devices) + TimeEqualsClause(timestamp)
  }

  /** `getRangeQuerySql`, sent by `rangeQuery`: the simple head, then the
      inclusive time range. */
  function RangeQuerySql(devices: seq<DeviceSchema>, start: Int64, end: Int64): (sql: string)
    requires HasHead(devices)
    ensures var head := SimpleQuerySqlHead(devices); |head| <= |sql| && sql[..|head|] == head
  {
    AddWhereTimeClause(SimpleQuerySqlHead(devices), start, end)
  }

  /** `getValueRangeQuerySql`, sent by `valueRangeQuery`: the range query,
      then the value filter. */
  function ValueRangeQuerySql(devices: seq<DeviceSchema>, start: Int64, end: Int64, threshold: Int32): (sql: string)
    requires HasHead(devices)
    ensures var range := RangeQuerySql(devices, start, end); |range| < |sql| && sql[..|range|] == range
  {
    FilterOpensWithAnd(devices, threshold);
    RangeQuerySql(devices, start, end) + ValueFilterClause(devices, threshold)
  }

  /** `aggRangeQuery`: the aggregate head, then the inclusive time range. */
  function AggRangeQuerySql(devices: seq<DeviceSchema>, aggFun: string, start: Int64, end: Int64): (sql: string)
    requires HasHead(devices)
    ensures var head := AggQuerySqlHead(devices, aggFun); |head| <= |sql| && sql[..|head|] == head
  {
    AddWhereTimeClause(AggQuerySqlHead(devices, aggFun), start, end)
  }

  /** The first device's sensors alone already make the filter non-empty. */
  lemma {:induction false} FirstDeviceSensorsCounted(devices: seq<DeviceSchema>)
    requires |devices| >= 1
    ensures TotalSensors(devices) >= |devices[0].sensors|
    decreases |devices|
  {
    if |devices| > 1 {
      var init := devices[..|devices| - 1];
      FirstDeviceSensorsCounted(init);
    }
  }

  lemma FilterOpensWithAnd(devices: seq<DeviceSchema>, threshold: Int32)
    requires HasHead(devices)
    ensures |ValueFilterClause(devices, threshold)| >= 5
    ensures ValueFilterClause(devices, threshold)[..5] == " AND "
  {
    FirstDeviceSensorsCounted(devices);
    ValueFilterClauseIsConjunction(devices, threshold);
  }

  /** `aggValueQuery`: the filter with its first four characters dropped
      (`substring(4)`), behind " WHERE ". */
  function AggValueQuerySql(devices: seq<DeviceSchema>, aggFun: string, threshold: Int32): (sql: string)
    requires HasHead(devices)
    ensures var head := AggQuerySqlHead(devices, aggFun); |head| + 7 < |sql| && sql[..|head|] == head
  {
    FilterOpensWithAnd(devices, threshold);
    AggQuerySqlHead(devices, aggFun) + " WHERE " + ValueFilterClause(devices, threshold)[4..]
  }

  /** `groupByQuery`: the aggregate head, then the group-by clause. */
  function GroupByQuerySql(devices: seq<DeviceSchema>, aggFun: string, start: Int64, end: Int64, granularity: Int64): (sql: string)
    requires HasHead(devices)
    ensures var head := AggQuerySqlHead(devices, aggFun); |head| <= |sql| && sql[..|head|] == head
  {
    AddGroupByClause(AggQuerySqlHead(devices, aggFun), start, end, granularity)
  }

  /** `valueRangeQueryOrderByDesc`: the value-range query, then the
      ordering. */
  function ValueRangeQueryOrderByDescSql(devices: seq<DeviceSchema>, start: Int64, end: Int64, threshold: Int32): (sql: string)
    requires HasHead(devices)
    ensures var asc := ValueRangeQuerySql(devices, start, end, threshold); |asc| < |sql| && sql[..|asc|] == asc
  {
    ValueRangeQuerySql(devices, start, end, threshold) + " order by time desc"
  }

  /** The precise query is the simple head followed by a clause that reads
      back as the timestamp. */
  lemma PreciseQueryDecodes(devices: seq<DeviceSchema>, timestamp: Int64)
    requires HasHead(devices)
    ensures var head, sql := SimpleQuerySqlHead(devices), PreciseQuerySql(devices, timestamp);
      && |head| <= |sql| && sql[..|head|] == head
      && DecodeTimeEquals(sql[|head|..]) == Some(timestamp as int)
  {
    var head := SimpleQuerySqlHead(devices);
    var sql := PreciseQuerySql(devices, timestamp);
    assert sql[..|head|] == head && sql[|head|..] == TimeEqualsClause(timestamp);
    TimeEqualsClauseDecodes(timestamp);
  }

  /** The range query is the simple head followed by an inclusive time range
      that reads back as (start, end). */
  lemma RangeQueryDecodes(devices: seq<DeviceSchema>, start: Int64, end: Int64)
    requires HasHead(devices)
    ensures var head, sql := SimpleQuerySqlHead(devices), RangeQuerySql(devices, start, end);
      && |head| <= |sql| && sql[..|head|] == head
      && DecodeTimeRange(sql[|head|..]) == Some((start as int, end as int))
  {
    WhereTimeClauseDecodes(SimpleQuerySqlHead(devices), start, end);
  }

  /** The aggregate range query is the aggregate head followed by the same
      inclusive time range. */
  lemma AggRangeQueryDecodes(devices: seq<DeviceSchema>, aggFun: string, start: Int64, end: Int64)
    requires HasHead(devices)
    ensures var head, sql := AggQuerySqlHead(devices, aggFun), AggRangeQuerySql(devices, aggFun, start, end);
      && |head| <= |sql| && sql[..|head|] == head
      && DecodeTimeRange(sql[|head|..]) == Some((start as int, end as int))
  {
    WhereTimeClauseDecodes(AggQuerySqlHead(devices, aggFun), start, end);
  }

  /** The group-by query is the aggregate head followed by a half-open
      interval and a granularity that read back as given. */
  lemma GroupByQueryDecodes(devices: seq<DeviceSchema>, aggFun: string, start: Int64, end: Int64, granularity: Int64)
    requires HasHead(devices)
    ensures var head, sql := AggQuerySqlHead(devices, aggFun), GroupByQuerySql(devices, aggFun, start, end, granularity);
      && |head| <= |sql| && sql[..|head|] == head
      && DecodeGroupBy(sql[|head|..]) == Some((start as int, end as int, granularity as int))
  {
    GroupByClauseDecodes(AggQuerySqlHead(devices, aggFun), start, end, granularity);
  }

  /** The value-range query is the range query followed by " AND " and the
      conjunction of one comparison per (device, sensor) pair. */
  lemma ValueRangeQueryShape(devices: seq<DeviceSchema>, start: Int64, end: Int64, threshold: Int32)
    requires HasHead(devices)
    ensures |Comparisons(devices, threshold)| == TotalSensors(devices)
    ensures ValueRangeQuerySql(devices, start, end, threshold)
         == RangeQuerySql(devices, start, end) + " AND " + Join(" AND ", Comparisons(devices, threshold))
  {
    FirstDeviceSensorsCounted(devices);
    ComparisonsCount(devices, threshold);
    ValueFilterClauseIsConjunction(devices, threshold);
  }

  lemma JoinOpensWithFirst(sep: string, parts: seq<string>)
    requires |parts| >= 1
    ensures |parts[0]| <= |Join(sep, parts)| && Join(sep, parts)[..|parts[0]|] == parts[0]
  {
    if |parts| > 1 {
      JoinCons(sep, parts[0], parts[1..]);
      assert parts == [parts[0]] + parts[1..];
    }
  }

  /** The first comparison of the filter is the one for the first sensor of
      the first device, so the conjunction opens with that device's path. */
  lemma ConjunctionOpensWithRoot(devices: seq<DeviceSchema>, threshold: Int32)
    requires HasHead(devices)
    ensures var conj := Join(" AND ", Comparisons(devices, threshold));
      |conj| >= 5 && conj[..5] == "root."
  {
    var cs := Comparisons(devices, threshold);
    ComparisonAt(devices, threshold, 0, 0);
    assert devices[..0] == [];
    var first := Comparison(devices[0], devices[0].sensors[0], threshold);
    assert cs[0] == first;
    JoinOpensWithFirst(" AND ", cs);
    ComparisonOpensWithRoot(devices[0], devices[0].sensors[0], threshold);
    PrefixTransitive("root.", first, Join(" AND ", cs));
  }

  /** The filter with its first four characters dropped is a space followed
      by the comparisons joined with " AND ". */
  lemma StrippedFilter(devices: seq<DeviceSchema>, threshold: Int32)
    requires HasHead(devices)
    ensures |ValueFilterClause(devices, threshold)| >= 4
    ensures ValueFilterClause(devices, threshold)[4..] == " " + Join(" AND ", Comparisons(devices, threshold))
  {
    FirstDeviceSensorsCounted(devices);
    ValueFilterClauseIsConjunction(devices, threshold);
    DropFromPrefix(ValueFilterClause(devices, threshold), " AND ", Join(" AND ", Comparisons(devices, threshold)), 4);
    assert " AND "[4..] == " ";
  }

  /** What follows " WHERE " in the aggregate value query: a space, then the
      comparisons joined with " AND ". After the space comes "root.", the
      start of the first device's path, and so never the conjunction. */
  lemma AggValueQueryPredicate(devices: seq<DeviceSchema>, aggFun: string, threshold: Int32)
    requires HasHead(devices)
    ensures var head, sql := AggQuerySqlHead(devices, aggFun), AggValueQuerySql(devices, aggFun, threshold);
      && |head| + 7 <= |sql| && sql[..|head| + 7] == head + " WHERE "
      && sql[|head| + 7..] == " " + Join(" AND ", Comparisons(devices, threshold))
      && |sql| >= |head| + 13 && sql[|head| + 8..|head| + 13] == "root."
  {
    var head, sql := AggQuerySqlHead(devices, aggFun), AggValueQuerySql(devices, aggFun, threshold);
    var conj := Join(" AND ", Comparisons(devices, threshold));
    StrippedFilter(devices, threshold);
    var w, tail := head + " WHERE ", ValueFilterClause(devices, threshold)[4..];
    assert sql == w + tail;
    assert tail[1..6] == "root." by {
      ConjunctionOpensWithRoot(devices, threshold);
      PrefixAfter(" ", conj, "root.");
    }
    AfterPrefix(w, tail);
    SliceOfAppend(w, tail, 1, 6);
  }

  /** The descending query is the ascending one with " order by time desc"
      appended and nothing else changed. */
  lemma OrderByDescExtendsAscending(devices: seq<DeviceSchema>, start: Int64, end: Int64, threshold: Int32)
    requires HasHead(devices)
    ensures var asc, desc := ValueRangeQuerySql(devices, start, end, threshold),
                             ValueRangeQueryOrderByDescSql(devices, start, end, threshold);
      && |desc| == |asc| + 19 && desc[..|asc|] == asc && desc[|asc|..] == " order by time desc"
  {
  }

  /** The latest-point query is the simple head with "last " put after
      "SELECT ", and no WHERE clause behind it. */
  lemma LatestPointIsSimpleHeadWithLast(devices: seq<DeviceSchema>)
    requires HasHead(devices)
    ensures var simple := SimpleQuerySqlHead(devices);
      && |simple| >= 7 && simple[..7] == "SELECT "
      && LatestPointQuerySql(devices) == "SELECT last " + simple[7..]
  {
    var list := Join(", ", SensorNames(devices[0].sensors));
    var rest := list + FromClause(devices);
    assert SimpleQuerySqlHead(devices) == "SELECT " + rest;
    assert LatestPointQuerySql(devices) == "SELECT last " + rest;
  }

  /** The query kinds the adapter accepts. */
  datatype Query =
    | Precise(devices: seq<DeviceSchema>, timestamp: Int64)
    | Range(devices: seq<DeviceSchema>, start: Int64, end: Int64)
    | ValueRange(devices: seq<DeviceSchema>, start: Int64, end: Int64, threshold: Int32)
    | AggRange(devices: seq<DeviceSchema>, aggFun: string, start: Int64, end: Int64)
    | AggValue(devices: seq<DeviceSchema>, aggFun: string, threshold: Int32)
    | AggRangeValue(devices: seq<DeviceSchema>, aggFun: string, start: Int64, end: Int64, threshold: Int32)
    | GroupBy(devices: seq<DeviceSchema>, aggFun: string, start: Int64, end: Int64, granularity: Int64)
    | LatestPoint(devices: seq<DeviceSchema>)
    | RangeOrderByDesc(devices: seq<DeviceSchema>, start: Int64, end: Int64)
    | ValueRangeOrderByDesc(devices: seq<DeviceSchema>, start: Int64, end: Int64, threshold: Int32)

  /** What a query operation does before any I/O: sends the SQL, returns
      null without a request, or fails on `get(0)` of an empty list. */
  datatype Translation = Sql(text: string) | Unsupported | IndexOutOfBounds

  function Translate(q: Query): (t: Translation)
    ensures t.Unsupported? <==> q.AggRangeValue? || q.RangeOrderByDesc?
    ensures t.IndexOutOfBounds? <==> !t.Unsupported? && !HasHead(q.devices)
  {
    if q.AggRangeValue? || q.RangeOrderByDesc? then Unsupported
    else if !HasHead(q.devices) then IndexOutOfBounds
    else
      match q
      case Precise(ds, t) => Sql(PreciseQuerySql(ds, t))
      case Range(ds, s, e) => Sql(RangeQuerySql(ds, s, e))
      case ValueRange(ds, s, e, v) => Sql(ValueRangeQuerySql(ds, s, e, v))
      case AggRange(ds, f, s, e) => Sql(AggRangeQuerySql(ds, f, s, e))
      case AggValue(ds, f, v) => Sql(AggValueQuerySql(ds, f, v))
      case GroupBy(ds, f, s, e, g) => Sql(GroupByQuerySql(ds, f, s, e, g))
      case LatestPoint(ds) => Sql(LatestPointQuerySql(ds))
      case ValueRangeOrderByDesc(ds, s, e, v) => Sql(ValueRangeQueryOrderByDescSql(ds, s, e, v))
  }

  /** The body of a query request: the SQL inside `{"sql":"..."}`, with no
      escaping, so the SQL sits unchanged between a fixed opening and a fixed
      closing. */
  function QueryRequestBody(sql: string): (json: string)
    ensures |json| == |sql| + 10
    ensures json[..8] == "{\"sql\":\"" && json[|json| - 2..] == "\"}"
    ensures json[8..|json| - 2] == sql
  {
    "{\"sql\":\"" + sql + "\"}"
  }

  /** Reads the SQL back out of a request body; `None` for any text that is
      not shaped like one. */
  function RequestSql(json: string): Option<string> {
    if |json| >= 10 && json[..8] == "{\"sql\":\"" && json[|json| - 2..] == "\"}"
    then Some(json[8..|json| - 2])
    else None
  }

  /** The body carries the statement unchanged: reading it back gives the SQL
      that went in. */
  lemma RequestBodyReadsBack(sql: string)
    ensures RequestSql(QueryRequestBody(sql)) == Some(sql)
  {
  }

  /** The body `cleanup` sends to the non-query endpoint. */
  const CleanupRequestBody: string := "{\"sql\":\"delete database root.**\"}"

  lemma CleanupIsDeleteAll()
    ensures CleanupRequestBody == QueryRequestBody("delete database root.**")
  {
    var body := QueryRequestBody("delete database root.**");
    assert |body| == |CleanupRequestBody|;
    forall k | 0 <= k < |body| ensures body[k] == CleanupRequestBody[k] {
      if k < 8 { assert body[k] == body[..8][k]; }
      else if k < 31 { assert body[k] == body[8..31][k - 8]; }
      else { assert body[k] == body[31..][k - 31]; }
    }
  }

  /** The example device's column list and FROM clause. */
  lemma ExampleHeadParts()
    ensures Join(", ", SensorNames(ExampleDevice.sensors)) == "s0, s1"
    ensures FromClause([ExampleDevice]) == " FROM root.g1.east.d1"
  {
    assert SensorNames(ExampleDevice.sensors) == ["s0", "s1"];
    assert ["s0", "s1"][..1] == ["s0"];
    ExamplePath();
    assert DevicePaths([ExampleDevice]) == ["root.g1.east.d1"];
  }

  lemma ExampleHead()
    ensures SimpleQuerySqlHead([ExampleDevice]) == "SELECT s0, s1 FROM root.g1.east.d1"
  {
    ExampleHeadParts();
  }

  lemma ExampleNumerals()
    ensures IntToString(100) == "100" && IntToString(10) == "10" && IntToString(20) == "20"
  {
    assert NatToString(1) == "1";
    assert NatToString(2) == "2";
    assert NatToString(10) == "10";
  }

  /** Queried at timestamp 100, the example device gives exactly this statement. */
  lemma PreciseQueryExample()
    ensures PreciseQuerySql([ExampleDevice], 100) == "SELECT s0, s1 FROM root.g1.east.d1 WHERE time = 100"
  {
    ExampleHead();
    ExampleNumerals();
  }

  /** Queried over [10, 20], the example device gives exactly this statement. */
  lemma RangeQueryExample()
    ensures RangeQuerySql([ExampleDevice], 10, 20)
         == "SELECT s0, s1 FROM root.g1.east.d1 WHERE time >= 10 AND time <= 20"
  {
    ExampleHead();
    ExampleNumerals();
  }
}
