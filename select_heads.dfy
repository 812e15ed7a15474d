/** The SELECT ... FROM ... heads of the generated queries. The column list is
    taken from the first device only; the FROM list names every device. */
module SelectHeads {
  import opened Strings
  import opened Schema
  import opened DeviceAddressing

  /** What the builders demand (they call `get(0)` on both lists). */
  predicate HasHead(devices: seq<DeviceSchema>) {
    |devices| >= 1 && |devices[0].sensors| >= 1
  }

  function DevicePaths(devices: seq<DeviceSchema>): (paths: seq<string>)
    ensures |paths| == |devices|
    ensures forall i :: 0 <= i < |devices| ==> paths[i] == DevicePath(devices[i])
  {
    seq(|devices|, i requires 0 <= i < |devices| => DevicePath(devices[i]))
  }

  function FromClause(devices: seq<DeviceSchema>): string
    requires |devices| >= 1
  {
    " FROM " + Join(", ", DevicePaths(devices))
  }

  /** `addFromClause`: appends " FROM " and the comma-separated device paths
      to what the builder holds. */
  method AddFromClause(devices: seq<DeviceSchema>, builder: string) returns (sql: string)
    requires |devices| >= 1
    ensures sql == builder + FromClause(devices)
  {
    var b := builder + " FROM ";
    var first := GetDevicePath(devices[0]);
    b := b + first;
    var i := 1;
    while i < |devices|
      invariant 1 <= i <= |devices|
      invariant b == builder + " FROM " + Join(", ", DevicePaths(devices[..i]))
    {
      var path := GetDevicePath(devices[i]);
      assert DevicePaths(devices[..i + 1]) == DevicePaths(devices[..i]) + [path];
      AppendAfterJoin(builder + " FROM ", ", ", DevicePaths(devices[..i]), path);
      b := b + ", " + path;
      i := i + 1;
    }
    assert devices[..i] == devices;
    sql := b;
  }

  /** Appends ", " + name for every sensor after the first. */
  method AppendNames(builder: string, names: seq<string>) returns (b: string)
    requires |names| >= 1
    ensures b == builder + Join(", ", names)
  {
    b := builder + names[0];
    var i := 1;
    while i < |names|
      invariant 1 <= i <= |names|
      invariant b == builder + Join(", ", names[..i])
    {
      assert names[..i + 1] == names[..i] + [names[i]];
      AppendAfterJoin(builder, ", ", names[..i], names[i]);
      b := b + ", " + names[i];
      i := i + 1;
    }
    assert names[..i] == names;
  }

  function SimpleQuerySqlHead(devices: seq<DeviceSchema>): string
    requires HasHead(devices)
  {
    "SELECT " + Join(", ", SensorNames(devices[0].sensors)) + FromClause(devices)
  }

  /** `getSimpleQuerySqlHead`. */
  method GetSimpleQuerySqlHead(devices: seq<DeviceSchema>) returns (sql: string)
    requires HasHead(devices)
    ensures sql == SimpleQuerySqlHead(devices)
  {
    var b := AppendNames("SELECT ", SensorNames(devices[0].sensors));
    sql := AddFromClause(devices, b);
  }

  /** The column list "fn(s)" for each sensor s. */
  function AggCalls(aggFun: string, sensors: seq<Sensor>): (calls: seq<string>)
    ensures |calls| == |sensors|
    ensures forall i :: 0 <= i < |sensors| ==> calls[i] == aggFun + "(" + sensors[i].name + ")"
  {
    seq(|sensors|, i requires 0 <= i < |sensors| => aggFun + "(" + sensors[i].name + ")")
  }

  function AggQuerySqlHead(devices: seq<DeviceSchema>, aggFun: string): string
    requires HasHead(devices)
  {
    "SELECT " + Join(", ", AggCalls(aggFun, devices[0].sensors)) + FromClause(devices)
  }

  /** `getAggQuerySqlHead`. */
  method GetAggQuerySqlHead(devices: seq<DeviceSchema>, aggFun: string) returns (sql: string)
    requires HasHead(devices)
    ensures sql == AggQuerySqlHead(devices, aggFun)
  {
    var b := AppendNames("SELECT ", AggCalls(aggFun, devices[0].sensors));
    sql := AddFromClause(devices, b);
  }

  function LatestPointQuerySql(devices: seq<DeviceSchema>): string
    requires HasHead(devices)
  {
    "SELECT last " + Join(", ", SensorNames(devices[0].sensors)) + FromClause(devices)
  }

  /** `getLatestPointQuerySql`: no WHERE clause. */
  method GetLatestPointQuerySql(devices: seq<DeviceSchema>) returns (sql: string)
    requires HasHead(devices)
    ensures sql == LatestPointQuerySql(devices)
  {
    var b := AppendNames("SELECT last ", SensorNames(devices[0].sensors));
    sql := AddFromClause(devices, b);
  }

  /** The sensors of every device but the first never reach a head: giving
      device `i >= 1` other sensors changes none of the three heads. */
  lemma HeadsIgnoreLaterSensors(devices: seq<DeviceSchema>, i: nat, sensors: seq<Sensor>, aggFun: string)
    requires HasHead(devices) && 1 <= i < |devices|
    ensures var other := devices[i := devices[i].(sensors := sensors)];
      && SimpleQuerySqlHead(other) == SimpleQuerySqlHead(devices)
      && AggQuerySqlHead(other, aggFun) == AggQuerySqlHead(devices, aggFun)
      && LatestPointQuerySql(other) == LatestPointQuerySql(devices)
  {
    var other := devices[i := devices[i].(sensors := sensors)];
    assert DevicePaths(other) == DevicePaths(devices);
  }

  /** No identifier of the query holds `c`: neither the first device's
      sensor names nor any component of any device path. */
  predicate IdentifiersFree(devices: seq<DeviceSchema>, c: char)
    requires |devices| >= 1
  {
    && (forall j :: 0 <= j < |devices[0].sensors| ==> c !in devices[0].sensors[j].name)
    && (forall i :: 0 <= i < |devices| ==> ComponentsFree(devices[i], c))
  }

  lemma FromClauseAvoids(devices: seq<DeviceSchema>, c: char)
    requires |devices| >= 1 && c != '.' && c !in " FROM , "
    requires forall i :: 0 <= i < |devices| ==> ComponentsFree(devices[i], c)
    ensures multiset(FromClause(devices))[c] == 0
  {
    var paths := DevicePaths(devices);
    forall i | 0 <= i < |paths| ensures multiset(paths[i])[c] == 0 {
      DevicePathAvoids(devices[i], c);
    }
    CountInJoin(", ", paths, c, 0);
  }

  /** The aggregate head applies the function once per sensor of the first
      device: when no identifier and not the function name hold '(', the
      head holds exactly that many '(' characters, one per "fn(". */
  lemma AggHeadCallCount(devices: seq<DeviceSchema>, aggFun: string)
    requires HasHead(devices) && IdentifiersFree(devices, '(') && '(' !in aggFun
    ensures multiset(AggQuerySqlHead(devices, aggFun))['('] == |devices[0].sensors|
  {
    var calls := AggCalls(aggFun, devices[0].sensors);
    forall i | 0 <= i < |calls| ensures multiset(calls[i])['('] == 1 {
      var name := devices[0].sensors[i].name;
      assert calls[i] == aggFun + "(" + name + ")";
      assert multiset(calls[i]) == multiset(aggFun) + multiset("(") + multiset(name) + multiset(")");
    }
    CountInJoin(", ", calls, '(', 1);
    FromClauseAvoids(devices, '(');
    var list, from := Join(", ", calls), FromClause(devices);
    assert multiset("SELECT " + list + from) == multiset("SELECT ") + multiset(list) + multiset(from);
    KeywordsHoldNoParen();
  }

  /** The plain head and the latest-point head apply no function at all. */
  lemma PlainHeadsHaveNoCalls(devices: seq<DeviceSchema>)
    requires HasHead(devices) && IdentifiersFree(devices, '(')
    ensures multiset(SimpleQuerySqlHead(devices))['('] == 0
    ensures multiset(LatestPointQuerySql(devices))['('] == 0
  {
    var names := SensorNames(devices[0].sensors);
    CountInJoin(", ", names, '(', 0);
    FromClauseAvoids(devices, '(');
    var list, from := Join(", ", names), FromClause(devices);
    assert multiset("SELECT " + list + from) == multiset("SELECT ") + multiset(list) + multiset(from);
    assert multiset("SELECT last " + list + from) == multiset("SELECT last ") + multiset(list) + multiset(from);
    KeywordsHoldNoParen();
  }

  lemma KeywordsHoldNoParen()
    ensures multiset("SELECT ")['('] == 0 && multiset("SELECT last ")['('] == 0
  {
  }
}
