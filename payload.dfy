/** The body of an insert request: one device, its measurements and their
    data types, the timestamps of the batch and the recorded values turned
    column-wise, one list per measurement position. */
module PayloadEncoder {
  import opened Schema

  /** One row of a batch: a timestamp and the values recorded at it. The
      values' own type is left open. */
  datatype Record<V> = Record(timestamp: Int64, values: seq<V>)

  /** A batch: the device it belongs to and its rows, in order. */
  datatype Batch<V> = Batch(schema: DeviceSchema, records: seq<Record<V>>)

  /** The fields of the insert payload, before they are serialised. */
  datatype Payload<V> = Payload(
    device: string,
    isAligned: bool,
    measurements: seq<string>,
    dataTypes: seq<string>,
    timestamps: seq<Int64>,
    values: seq<seq<V>>)

  /** The length of the longest row (0 for no rows). */
  function MaxWidth<V>(records: seq<Record<V>>): (w: nat)
    ensures forall i :: 0 <= i < |records| ==> |records[i].values| <= w
    ensures |records| == 0 ==> w == 0
    ensures |records| > 0 ==> exists i :: 0 <= i < |records| && |records[i].values| == w
    decreases |records|
  {
    if |records| == 0 then 0
    else
      var init, last := records[..|records| - 1], records[|records| - 1];
      assert forall i :: 0 <= i < |init| ==> init[i] == records[i];
      var w := MaxWidth(init);
      if w < |last.values| then |last.values| else w
  }

  /** Position `j` of every row that has one, in row order. */
  function Column<V>(records: seq<Record<V>>, j: nat): seq<V>
    decreases |records|
  {
    if |records| == 0 then []
    else
      var last := records[|records| - 1];
      Column(records[..|records| - 1], j) + (if j < |last.values| then [last.values[j]] else [])
  }

  /** The rows turned into columns: column `j` gathers position `j` of
      every row long enough to have it. */
  function Transposed<V>(records: seq<Record<V>>): seq<seq<V>> {
    seq(MaxWidth(records), j requires 0 <= j => Column(records, j))
  }

  function Timestamps<V>(records: seq<Record<V>>): (ts: seq<Int64>)
    ensures |ts| == |records|
    ensures forall i :: 0 <= i < |records| ==> ts[i] == records[i].timestamp
  {
    seq(|records|, i requires 0 <= i < |records| => records[i].timestamp)
  }

  /** The columns after one more row: every existing column keeps its
      values, position `j` of the row goes at the end of column `j`, and a
      column is opened for each position no earlier row reached. */
  function AddRow<V>(columns: seq<seq<V>>, row: seq<V>): (r: seq<seq<V>>)
    ensures |r| == if |columns| < |row| then |row| else |columns|
  {
    seq(if |columns| < |row| then |row| else |columns|,
      k requires 0 <= k =>
        (if k < |columns| then columns[k] else []) + (if k < |row| then [row[k]] else []))
  }

  /** The inner loop of `generatePayload` for one row. */
  method AppendRow<V>(columns: seq<seq<V>>, row: seq<V>) returns (result: seq<seq<V>>)
    ensures result == AddRow(columns, row)
  {
    result := columns;
    var j := 0;
    while j < |row|
      invariant 0 <= j <= |row|
      invariant |result| == if |columns| < j then j else |columns|
      invariant forall k :: 0 <= k < |result| ==>
        result[k] == (if k < |columns| then columns[k] else []) + (if k < j then [row[k]] else [])
    {
      if |result| <= j {
        result := result + [[]];
      }
      result := result[j := result[j] + [row[j]]];
      j := j + 1;
    }
  }

  /** `generatePayload`, apart from the serialisation: the device is the
      schema's path behind "root.", the aligned flag comes from the
      configuration, and measurements, data types, timestamps and columns
      follow the sensors and the rows in order. */
  method GeneratePayload<V>(batch: Batch<V>, schemaDevicePath: string, isAligned: bool)
    returns (p: Payload<V>)
    ensures p.device == "root." + schemaDevicePath
    ensures p.isAligned == isAligned
    ensures p.measurements == SensorNames(batch.schema.sensors)
    ensures p.dataTypes == SensorTypeNames(batch.schema.sensors)
    ensures p.timestamps == Timestamps(batch.records)
    ensures p.values == Transposed(batch.records)
  {
    var sensors := batch.schema.sensors;
    var measurements: seq<string> := [];
    var dataTypes: seq<string> := [];
    var i := 0;
    while i < |sensors|
      invariant 0 <= i <= |sensors|
      invariant measurements == SensorNames(sensors[..i])
      invariant dataTypes == SensorTypeNames(sensors[..i])
    {
      measurements := measurements + [sensors[i].name];
      dataTypes := dataTypes + [sensors[i].typeName];
      i := i + 1;
    }
    assert sensors[..i] == sensors;

    var records := batch.records;
    var timestamps: seq<Int64> := [];
    var values: seq<seq<V>> := [];
    var r := 0;
    assert Transposed(records[..0]) == [];
    while r < |records|
      invariant 0 <= r <= |records|
      invariant timestamps == Timestamps(records[..r])
      invariant values == Transposed(records[..r])
    {
      timestamps := timestamps + [records[r].timestamp];
      values := AppendRow(values, records[r].values);
      assert records[..r + 1] == records[..r] + [records[r]];
      TransposedSnoc(records[..r], records[r]);
      r := r + 1;
    }
    assert records[..r] == records;
    p := Payload("root." + schemaDevicePath, isAligned, measurements, dataTypes, timestamps, values);
  }

  lemma MaxWidthSnoc<V>(records: seq<Record<V>>, last: Record<V>)
    ensures MaxWidth(records + [last])
         == if MaxWidth(records) < |last.values| then |last.values| else MaxWidth(records)
  {
    assert (records + [last])[..|records|] == records;
  }

  lemma ColumnSnoc<V>(records: seq<Record<V>>, last: Record<V>, j: nat)
    ensures Column(records + [last], j)
         == Column(records, j) + (if j < |last.values| then [last.values[j]] else [])
  {
    assert (records + [last])[..|records|] == records;
  }

  /** A column no row reaches is empty. */
  lemma {:induction false} ColumnBeyondWidth<V>(records: seq<Record<V>>, j: nat)
    requires MaxWidth(records) <= j
    ensures Column(records, j) == []
    decreases |records|
  {
    if |records| > 0 {
      var init := records[..|records| - 1];
      assert MaxWidth(init) <= MaxWidth(records) by {
        assert records == init + [records[|records| - 1]];
        MaxWidthSnoc(init, records[|records| - 1]);
      }
      ColumnBeyondWidth(init, j);
    }
  }

  /** Transposing grows row by row exactly as the loop does. */
  lemma TransposedSnoc<V>(records: seq<Record<V>>, last: Record<V>)
    ensures Transposed(records + [last]) == AddRow(Transposed(records), last.values)
  {
    var before, after := Transposed(records), Transposed(records + [last]);
    var grown := AddRow(before, last.values);
    MaxWidthSnoc(records, last);
    assert |after| == |grown|;
    forall k | 0 <= k < |after| ensures after[k] == grown[k] {
      ColumnSnoc(records, last, k);
      if k >= |before| {
        ColumnBeyondWidth(records, k);
      }
    }
  }

  /** No rows, no columns: the columns are opened lazily, so an empty batch
      gives an empty list rather than one empty list per sensor. */
  lemma NoRowsNoColumns<V>(records: seq<Record<V>>)
    requires |records| == 0
    ensures Transposed(records) == []
  {
  }

  /** Column `j` has one entry per row long enough to reach `j`. */
  lemma {:induction false} ColumnLength<V>(records: seq<Record<V>>, j: nat)
    ensures |Column(records, j)| == |(set i | 0 <= i < |records| && j < |records[i].values|)|
    decreases |records|
  {
    if |records| > 0 {
      var n := |records| - 1;
      var init := records[..n];
      ColumnLength(init, j);
      var before := set i | 0 <= i < n && j < |init[i].values|;
      var now := set i | 0 <= i < |records| && j < |records[i].values|;
      if j < |records[n].values| {
        assert now == before + {n};
      } else {
        assert now == before;
      }
    }
  }

  /** When every row has the same width `m`, the columns form an `m` by `n`
      rectangle and entry `i` of column `j` is position `j` of row `i`. */
  lemma {:induction false} TransposedRectangular<V>(records: seq<Record<V>>, m: nat)
    requires |records| >= 1
    requires forall i :: 0 <= i < |records| ==> |records[i].values| == m
    ensures |Transposed(records)| == m
    ensures forall j :: 0 <= j < m ==> |Transposed(records)[j]| == |records|
    ensures forall j, i :: 0 <= j < m && 0 <= i < |records| ==>
      Transposed(records)[j][i] == records[i].values[j]
  {
    forall j | 0 <= j < m
      ensures |Column(records, j)| == |records|
      ensures forall i :: 0 <= i < |records| ==> Column(records, j)[i] == records[i].values[j]
    {
      ColumnOfRectangle(records, m, j);
    }
  }

  lemma {:induction false} ColumnOfRectangle<V>(records: seq<Record<V>>, m: nat, j: nat)
    requires forall i :: 0 <= i < |records| ==> |records[i].values| == m
    requires j < m
    ensures |Column(records, j)| == |records|
    ensures forall i :: 0 <= i < |records| ==> Column(records, j)[i] == records[i].values[j]
    decreases |records|
  {
    if |records| > 0 {
      var n := |records| - 1;
      var init := records[..n];
      ColumnOfRectangle(init, m, j);
    }
  }
}
