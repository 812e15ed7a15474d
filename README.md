# IoTDB 1.3 REST adapter of iot-benchmark: SQL translation and insert payloads

The benchmark drives IoTDB 1.3 over its REST interface through the adapter
class `RestAPI`. What this class does beyond HTTP and JSON glue is modelled
here:

- **Device addressing.** A device's path starts with the root label `root`.
  Then come its group, the value of each tag in iteration order, and finally
  its id, all separated by `.`.
- **SQL translation.**
  - The select heads (plain, aggregate and latest-point) take their column
    list from the first device only. They put every device in the FROM list.
  - The time clauses are an inclusive WHERE range, a point `time = t`, and a
    half-open group-by interval with a trailing space.
  - The value filter holds one ` AND <path>.<sensor> > <threshold>` for each
    (device, sensor) pair.
  - The seven implemented query operations each build one statement from
    these parts. Two operations are unsupported and return `null`.
- **Insert payload.** An insert payload holds the device name, the aligned
  flag, the measurement names and their data types in sensor order, the
  timestamps, and the values of the batch turned into columns. A column is
  opened only when some row first reaches that column's position.
- **Request bodies.** The SQL is wrapped in `{"sql":"..."}` with no
  escaping. The fixed body that `cleanup` sends is also modelled.

The model has one module per concern:

- `Wrappers`: the optional result of the decoders and of schema registration.
- `Strings`: join, concat, search, split.
- `Decimal`: Java's decimal rendering of integers, and its parser.
- `Schema`: devices, sensors, the `long`/`int` widths, and `registerSchema`.
- `DeviceAddressing`: `getDevicePath`, with a worked example.
- `SelectHeads`: the heads and the FROM clause.
- `ValueFilter`: `getValueFilterClause`.
- `TimeClauses`: the WHERE and group-by clauses, and decoders that read them
  back.
- `QueryTranslator`: the query operations, the request bodies, and two worked
  statements.
- `PayloadEncoder`: `generatePayload`.

How the Java loops and builders are modelled:

- Each builder loop over a `StringBuilder` is a Dafny `method` with a loop.
  Its postcondition equates the result with a recursive specification
  function, and the properties are lemmas about that function.
- The single-expression builders are functions.
- The transposition loop in `generatePayload` is a method over sequences. Its
  inner loop grows the column sequence one column at a time, opening a column
  when no earlier row reached that position. The Java lists that the loop
  mutates become sequence values that the loop rebinds.

Every builder has a partner:

- Splitting a device path at `.` gives back its components.
- Each time clause has a decoder that recovers the integers it rendered.
- Counting characters in the text recovers the number of aggregate calls and
  of comparisons.
- The request wrapper has a reader that gives back the SQL.
- The transposition is related to the rows entry by entry.

Java's `long` and `int` are the newtypes `Int64` and `Int32`. Rendering goes
through `IntToString`, which matches Java's `x + ""` for every value of both
widths.

The Javadoc of `groupByQuery` (`RestAPI.java:202-204`) describes the interval
as `[{start}, {end}]`. The code builds `[start,end)`, with no space and a
half-open bracket. The model follows the code.

## Model

| member | source | states |
|---|---|---|
| DeviceAddressing.GetDevicePath | iotdb-1.3/src/main/java/cn/edu/tsinghua/iot/benchmark/iotdb130/RestAPI.java:351-359 | the builder loop produces exactly `DevicePath(d)`: the root label, the group, the tag values, then the device id, joined with '.' |
| DeviceAddressing.DevicePathShape | iotdb-1.3/src/main/java/cn/edu/tsinghua/iot/benchmark/iotdb130/RestAPI.java:351-359 | the path is "root." + group, then "." + v for each tag value v in order, then "." + device |
| DeviceAddressing.DevicePathOpensWithRoot | iotdb-1.3/src/main/java/cn/edu/tsinghua/iot/benchmark/iotdb130/RestAPI.java:352-353 | every path opens with "root." |
| DeviceAddressing.DevicePathIgnoresTagKeys | iotdb-1.3/src/main/java/cn/edu/tsinghua/iot/benchmark/iotdb130/RestAPI.java:355-357 | only the tag values reach the path: changing the keys while keeping the values and their order leaves the path unchanged |
| DeviceAddressing.DevicePathSplits | iotdb-1.3/src/main/java/cn/edu/tsinghua/iot/benchmark/iotdb130/RestAPI.java:351-359 | when no component holds '.', splitting the path at '.' gives back root, group, tag values and device in order |
| DeviceAddressing.DevicePathInjective | iotdb-1.3/src/main/java/cn/edu/tsinghua/iot/benchmark/iotdb130/RestAPI.java:351-359 | two '.'-free devices with the same path have the same group, device id and tag values |
| DeviceAddressing.DevicePathAvoids | iotdb-1.3/src/main/java/cn/edu/tsinghua/iot/benchmark/iotdb130/RestAPI.java:351-359 | the path adds no character but '.' to its components: a character that is in no component does not occur in the path |
| SelectHeads.AddFromClause | iotdb-1.3/src/main/java/cn/edu/tsinghua/iot/benchmark/iotdb130/RestAPI.java:343-349 | the builder is extended by " FROM " and the paths of all devices joined with ", ", in device order |
| SelectHeads.AppendNames | iotdb-1.3/src/main/java/cn/edu/tsinghua/iot/benchmark/iotdb130/RestAPI.java:336-339 | the first name and then ", " + name for each later one: the builder is extended by the names joined with ", " |
| SelectHeads.GetSimpleQuerySqlHead | iotdb-1.3/src/main/java/cn/edu/tsinghua/iot/benchmark/iotdb130/RestAPI.java:332-341 | "SELECT " + the first device's sensor names joined with ", " + the FROM clause over all devices |
| SelectHeads.GetAggQuerySqlHead | iotdb-1.3/src/main/java/cn/edu/tsinghua/iot/benchmark/iotdb130/RestAPI.java:267-281 | "SELECT " + fn(s) for each sensor s of the first device, joined with ", ", + the FROM clause |
| SelectHeads.GetLatestPointQuerySql | iotdb-1.3/src/main/java/cn/edu/tsinghua/iot/benchmark/iotdb130/RestAPI.java:295-304 | "SELECT last " + the first device's sensor names joined with ", " + the FROM clause, with no WHERE clause |
| SelectHeads.HeadsIgnoreLaterSensors | iotdb-1.3/src/main/java/cn/edu/tsinghua/iot/benchmark/iotdb130/RestAPI.java:270-271 | the sensors of any device but the first never reach a head: replacing them leaves all three heads unchanged |
| SelectHeads.AggHeadCallCount | iotdb-1.3/src/main/java/cn/edu/tsinghua/iot/benchmark/iotdb130/RestAPI.java:267-281 | when no identifier holds '(', the aggregate head holds one '(' per sensor of the first device, so one call per sensor |
| SelectHeads.PlainHeadsHaveNoCalls | iotdb-1.3/src/main/java/cn/edu/tsinghua/iot/benchmark/iotdb130/RestAPI.java:295-304 | under the same condition, the plain head and the latest-point head hold no '(' at all |
| ValueFilter.ComparisonOpensWithRoot | iotdb-1.3/src/main/java/cn/edu/tsinghua/iot/benchmark/iotdb130/RestAPI.java:311-316 | a single comparison opens with its device's path, and so with "root." |
| ValueFilter.AppendDeviceFilter | iotdb-1.3/src/main/java/cn/edu/tsinghua/iot/benchmark/iotdb130/RestAPI.java:309-317 | the inner loop appends " AND " + comparison for each sensor of one device, in sensor order |
| ValueFilter.GetValueFilterClause | iotdb-1.3/src/main/java/cn/edu/tsinghua/iot/benchmark/iotdb130/RestAPI.java:306-320 | the nested loops produce " AND " + comparison for every (device, sensor) pair, device by device and sensor by sensor within a device |
| ValueFilter.ValueFilterClauseSnoc | iotdb-1.3/src/main/java/cn/edu/tsinghua/iot/benchmark/iotdb130/RestAPI.java:308-318 | one more device adds exactly that device's conjuncts at the end of the filter |
| ValueFilter.ComparisonsCount | iotdb-1.3/src/main/java/cn/edu/tsinghua/iot/benchmark/iotdb130/RestAPI.java:306-320 | there is exactly one comparison per (device, sensor) pair |
| ValueFilter.ComparisonAt | iotdb-1.3/src/main/java/cn/edu/tsinghua/iot/benchmark/iotdb130/RestAPI.java:308-318 | the comparison of sensor j of device i sits after those of all earlier devices and of the first j sensors of device i, and reads "<path of device i>.<sensor j> > <threshold>" |
| ValueFilter.ValueFilterClauseEmpty | iotdb-1.3/src/main/java/cn/edu/tsinghua/iot/benchmark/iotdb130/RestAPI.java:306-320 | the filter is empty if and only if there is no (device, sensor) pair |
| ValueFilter.ValueFilterClauseIsConjunction | iotdb-1.3/src/main/java/cn/edu/tsinghua/iot/benchmark/iotdb130/RestAPI.java:306-320 | a non-empty filter is " AND " followed by all comparisons joined with " AND " |
| ValueFilter.ValueFilterComparisonCount | iotdb-1.3/src/main/java/cn/edu/tsinghua/iot/benchmark/iotdb130/RestAPI.java:306-320 | when no identifier holds '>', the filter text holds exactly one '>' per (device, sensor) pair |
| TimeClauses.AddWhereTimeClause | iotdb-1.3/src/main/java/cn/edu/tsinghua/iot/benchmark/iotdb130/RestAPI.java:322-326 | the prefix is kept unchanged at the front of the result |
| TimeClauses.AddGroupByClause | iotdb-1.3/src/main/java/cn/edu/tsinghua/iot/benchmark/iotdb130/RestAPI.java:328-330 | the prefix is kept unchanged at the front of the result |
| TimeClauses.ReadNumberThenOf | iotdb-1.3/src/main/java/cn/edu/tsinghua/iot/benchmark/iotdb130/RestAPI.java:323-325 | a rendered integer followed by a non-numeral separator reads back as that integer and the text after the separator |
| TimeClauses.TimeEqualsClauseDecodes | iotdb-1.3/src/main/java/cn/edu/tsinghua/iot/benchmark/iotdb130/RestAPI.java:137-138 | " WHERE time = " + t reads back as t |
| TimeClauses.WhereTimeClauseDecodes | iotdb-1.3/src/main/java/cn/edu/tsinghua/iot/benchmark/iotdb130/RestAPI.java:322-326 | behind the prefix, " WHERE time >= s AND time <= e" reads back as (s, e) |
| TimeClauses.GroupByClauseDecodes | iotdb-1.3/src/main/java/cn/edu/tsinghua/iot/benchmark/iotdb130/RestAPI.java:328-330 | behind the prefix, " group by ([s,e),gms) " reads back as (s, e, g), including the trailing "ms) " |
| Decimal.IntToString | iotdb-1.3/src/main/java/cn/edu/tsinghua/iot/benchmark/iotdb130/RestAPI.java:137-138 | Java's decimal rendering of a `long` or an `int` (`x + ""` at lines 137, 323-324 and 329, `append(int)` at line 316). The result is never empty and opens with '-' if and only if the value is negative. It is otherwise all digits, with no leading zero: it starts with '0' only for 0, which renders as "0". A negative value's digits do not start with '0'. `ParseIntToString` is its inverse. |
| Decimal.ParseIntToString | iotdb-1.3/src/main/java/cn/edu/tsinghua/iot/benchmark/iotdb130/RestAPI.java:323-324 | parsing undoes the decimal rendering of every integer, negative values included |
| Decimal.IntToStringChars | iotdb-1.3/src/main/java/cn/edu/tsinghua/iot/benchmark/iotdb130/RestAPI.java:323-324 | every character of a rendered integer is a digit or '-', so none of the separators the SQL uses can occur inside it |
| QueryTranslator.PreciseQuerySql | iotdb-1.3/src/main/java/cn/edu/tsinghua/iot/benchmark/iotdb130/RestAPI.java:136-141 | the statement `preciseQuery` sends; its body is the source's concatenation of the simple head and " WHERE time = " + t. Its contract states that it opens with the simple head and is longer than it. `PreciseQueryDecodes` reads the timestamp back, and `PreciseQueryExample` gives a concrete instance. |
| QueryTranslator.RangeQuerySql | iotdb-1.3/src/main/java/cn/edu/tsinghua/iot/benchmark/iotdb130/RestAPI.java:263-265 | the statement `rangeQuery` sends (lines 144-151); its body is the source's `addWhereTimeClause` on the simple head. Its contract states that it opens with the simple head. `RangeQueryDecodes` reads (start, end) back, and `RangeQueryExample` gives a concrete instance. |
| QueryTranslator.ValueRangeQuerySql | iotdb-1.3/src/main/java/cn/edu/tsinghua/iot/benchmark/iotdb130/RestAPI.java:283-293 | the statement `valueRangeQuery` sends (lines 154-157); its body is the source's concatenation of the range query and the value filter. Its contract states that it opens with the range query and is strictly longer, since the filter is never empty here. `ValueRangeQueryShape` gives the rest exactly. |
| QueryTranslator.AggRangeQuerySql | iotdb-1.3/src/main/java/cn/edu/tsinghua/iot/benchmark/iotdb130/RestAPI.java:167-175 | the statement `aggRangeQuery` sends; its body is the source's `addWhereTimeClause` on the aggregate head. Its contract states that it opens with the aggregate head. `AggRangeQueryDecodes` reads (start, end) back. |
| QueryTranslator.AggValueQuerySql | iotdb-1.3/src/main/java/cn/edu/tsinghua/iot/benchmark/iotdb130/RestAPI.java:184-195 | the statement `aggValueQuery` sends; its body is the source's concatenation of the aggregate head, " WHERE " and the filter without its first four characters. The call to `substring(4)` is shown to be defined. Its contract states that it opens with the aggregate head and runs more than seven characters past it. `AggValueQueryPredicate` gives the rest exactly. |
| QueryTranslator.GroupByQuerySql | iotdb-1.3/src/main/java/cn/edu/tsinghua/iot/benchmark/iotdb130/RestAPI.java:210-221 | the statement `groupByQuery` sends; its body is the source's `addGroupByClause` on the aggregate head. Its contract states that it opens with the aggregate head. `GroupByQueryDecodes` reads (start, end, granularity) back. |
| QueryTranslator.ValueRangeQueryOrderByDescSql | iotdb-1.3/src/main/java/cn/edu/tsinghua/iot/benchmark/iotdb130/RestAPI.java:242-246 | the statement `valueRangeQueryOrderByDesc` sends; its body is the source's concatenation of the value-range query and " order by time desc". Its contract states that it opens with the ascending query and is strictly longer. `OrderByDescExtendsAscending` gives the suffix exactly. |
| QueryTranslator.PreciseQueryDecodes | iotdb-1.3/src/main/java/cn/edu/tsinghua/iot/benchmark/iotdb130/RestAPI.java:136-141 | the precise query is the simple head followed by a clause that reads back as the timestamp |
| QueryTranslator.RangeQueryDecodes | iotdb-1.3/src/main/java/cn/edu/tsinghua/iot/benchmark/iotdb130/RestAPI.java:263-265 | the range query is the simple head followed by an inclusive range that reads back as (start, end) |
| QueryTranslator.AggRangeQueryDecodes | iotdb-1.3/src/main/java/cn/edu/tsinghua/iot/benchmark/iotdb130/RestAPI.java:167-175 | the aggregate range query is the aggregate head followed by the same inclusive range, reading back as (start, end) |
| QueryTranslator.GroupByQueryDecodes | iotdb-1.3/src/main/java/cn/edu/tsinghua/iot/benchmark/iotdb130/RestAPI.java:210-221 | the group-by query is the aggregate head followed by a half-open interval and granularity that read back as given |
| QueryTranslator.ValueRangeQueryShape | iotdb-1.3/src/main/java/cn/edu/tsinghua/iot/benchmark/iotdb130/RestAPI.java:283-293 | the value-range query is the range query, then " AND ", then one comparison per (device, sensor) pair joined with " AND " |
| QueryTranslator.FilterOpensWithAnd | iotdb-1.3/src/main/java/cn/edu/tsinghua/iot/benchmark/iotdb130/RestAPI.java:189-192 | whenever the builders' own requirement holds, the filter is non-empty and starts with " AND ", so `substring(4)` is defined |
| QueryTranslator.StrippedFilter | iotdb-1.3/src/main/java/cn/edu/tsinghua/iot/benchmark/iotdb130/RestAPI.java:189-192 | the filter with its first four characters dropped is a space followed by the comparisons joined with " AND " |
| QueryTranslator.AggValueQueryPredicate | iotdb-1.3/src/main/java/cn/edu/tsinghua/iot/benchmark/iotdb130/RestAPI.java:184-195 | the aggregate value query is the aggregate head, " WHERE ", a space, then the comparisons joined with " AND "; after " WHERE " a space and "root." follow, never "AND" |
| QueryTranslator.OrderByDescExtendsAscending | iotdb-1.3/src/main/java/cn/edu/tsinghua/iot/benchmark/iotdb130/RestAPI.java:242-246 | the descending query is exactly the value-range query followed by " order by time desc" |
| QueryTranslator.LatestPointIsSimpleHeadWithLast | iotdb-1.3/src/main/java/cn/edu/tsinghua/iot/benchmark/iotdb130/RestAPI.java:295-304 | the latest-point query is the simple head with "last " put after "SELECT " |
| QueryTranslator.Translate | iotdb-1.3/src/main/java/cn/edu/tsinghua/iot/benchmark/iotdb130/RestAPI.java:135-246 | a query is unsupported if and only if it is an aggregate range-value query or a descending range query; otherwise it fails on `get(0)` if and only if the device list or the first device's sensor list is empty |
| Schema.RegisterSchema | iotdb-1.3/src/main/java/cn/edu/tsinghua/iot/benchmark/iotdb130/RestAPI.java:78-80 | registration reports no latency (`null`) for any schema list |
| QueryTranslator.QueryRequestBody | iotdb-1.3/src/main/java/cn/edu/tsinghua/iot/benchmark/iotdb130/RestAPI.java:249 | the body is `{"sql":"` + the SQL, unchanged and unescaped, + `"}` |
| QueryTranslator.RequestBodyReadsBack | iotdb-1.3/src/main/java/cn/edu/tsinghua/iot/benchmark/iotdb130/RestAPI.java:249 | reading the SQL back out of a request body gives the statement that went in |
| QueryTranslator.CleanupIsDeleteAll | iotdb-1.3/src/main/java/cn/edu/tsinghua/iot/benchmark/iotdb130/RestAPI.java:64 | the cleanup body is the request body of "delete database root.**" |
| DeviceAddressing.ExamplePath | iotdb-1.3/src/main/java/cn/edu/tsinghua/iot/benchmark/iotdb130/RestAPI.java:351-359 | group g1, tag region=east and id d1 give the path "root.g1.east.d1" |
| QueryTranslator.ExampleHeadParts | iotdb-1.3/src/main/java/cn/edu/tsinghua/iot/benchmark/iotdb130/RestAPI.java:332-349 | for the example device, the column list is "s0, s1" and the FROM clause is " FROM root.g1.east.d1" |
| QueryTranslator.ExampleHead | iotdb-1.3/src/main/java/cn/edu/tsinghua/iot/benchmark/iotdb130/RestAPI.java:332-341 | for the example device, the simple head is "SELECT s0, s1 FROM root.g1.east.d1" |
| QueryTranslator.ExampleNumerals | iotdb-1.3/src/main/java/cn/edu/tsinghua/iot/benchmark/iotdb130/RestAPI.java:323-324 | 100, 10 and 20 render as "100", "10" and "20" |
| QueryTranslator.PreciseQueryExample | iotdb-1.3/src/main/java/cn/edu/tsinghua/iot/benchmark/iotdb130/RestAPI.java:136-141 | timestamp 100 on the example device gives exactly "SELECT s0, s1 FROM root.g1.east.d1 WHERE time = 100" |
| QueryTranslator.RangeQueryExample | iotdb-1.3/src/main/java/cn/edu/tsinghua/iot/benchmark/iotdb130/RestAPI.java:263-265 | the range [10, 20] on the example device gives exactly "SELECT s0, s1 FROM root.g1.east.d1 WHERE time >= 10 AND time <= 20" |
| PayloadEncoder.AppendRow | iotdb-1.3/src/main/java/cn/edu/tsinghua/iot/benchmark/iotdb130/RestAPI.java:115-121 | the inner loop appends position j of the row to column j and opens a column for each position no earlier row reached |
| PayloadEncoder.GeneratePayload | iotdb-1.3/src/main/java/cn/edu/tsinghua/iot/benchmark/iotdb130/RestAPI.java:96-124 | device "root." + the schema's path; the aligned flag as configured; measurements and data types in sensor order; timestamps row by row; values the rows turned into columns |
| PayloadEncoder.MaxWidth | iotdb-1.3/src/main/java/cn/edu/tsinghua/iot/benchmark/iotdb130/RestAPI.java:116-119 | the number of columns is the length of the longest row: no row is longer, and for a non-empty batch some row reaches it |
| PayloadEncoder.TransposedSnoc | iotdb-1.3/src/main/java/cn/edu/tsinghua/iot/benchmark/iotdb130/RestAPI.java:112-123 | one more row changes the columns exactly as one pass of the inner loop does |
| PayloadEncoder.ColumnBeyondWidth | iotdb-1.3/src/main/java/cn/edu/tsinghua/iot/benchmark/iotdb130/RestAPI.java:116-119 | a position no row reaches has no entries |
| PayloadEncoder.ColumnLength | iotdb-1.3/src/main/java/cn/edu/tsinghua/iot/benchmark/iotdb130/RestAPI.java:115-121 | column j has one entry for each row long enough to reach position j |
| PayloadEncoder.NoRowsNoColumns | iotdb-1.3/src/main/java/cn/edu/tsinghua/iot/benchmark/iotdb130/RestAPI.java:116-119 | an empty batch gives an empty column list, not one empty list per sensor |
| PayloadEncoder.TransposedRectangular | iotdb-1.3/src/main/java/cn/edu/tsinghua/iot/benchmark/iotdb130/RestAPI.java:111-124 | when all N >= 1 rows have M values, there are M columns of N entries each, and entry i of column j is value j of row i |

## Left out

- HTTP transport: the OkHttp client and `constructRequest` are not
  modelled. Neither are the network round trips in `cleanup`,
  `insertOneBatch` and `executeQueryAndGetStatus` (`RestAPI.java:50-94`,
  `248-261`). They are I/O. They catch only `IOException` and never look at
  the HTTP status, so the returned `Status` depends only on the transport.
- The result size of `executeQueryAndGetStatus` is not modelled. It is the
  number of timestamps in the server's reply, which depends on the server.
- Gson serialisation of the payload (`RestAPI.java:126`) and Gson parsing of
  the query result (`RestAPI.java:254`) are left out because they are a
  foreign library. The model stops at the payload's field values. Only the
  `{"sql":"..."}` wrapping at line 249 is modelled, as plain concatenation.
- `Status`, `Config` and `DBConfig` are not part of this model. The aligned
  flag of `Config` is a parameter of `GeneratePayload`, and the base URL is
  not used at all.
- The `(int)` cast of the `double` threshold (`RestAPI.java:191`, `291`) is
  floating point. The model starts from the `Int32` the cast produces.
- `DeviceSchema.getDevicePath()` (`RestAPI.java:99`) is defined in a class
  that is not part of this model. It is the string parameter
  `schemaDevicePath` of `GeneratePayload`.
- The values held by a record have types known only at run time (`Object`).
  They are a type parameter `V`, carried into the columns unchanged.
- `init` and `close` are left out because they do nothing. `aggRangeValueQuery`
  and `rangeQueryOrderByDesc` are modelled only as the `Unsupported` outcome
  of `Translate`, because they return `null` without building anything.
- PayloadEncoder.TransposedRectangular: entry-by-entry placement is proved
  only for batches whose rows all have the same width. For ragged rows, only
  column lengths and the row-by-row growth (`ColumnLength`, `TransposedSnoc`)
  are stated.
