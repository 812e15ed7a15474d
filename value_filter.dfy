/** The value filter: one conjunct "<path>.<sensor> > <threshold>" for every
    sensor of every device, each introduced by " AND ". */
module ValueFilter {
  import opened Strings
  import opened Decimal
  import opened Schema
  import opened DeviceAddressing

  /** The comparison for one (device, sensor) pair. */
  function Comparison(d: DeviceSchema, s: Sensor, threshold: Int32): string {
    DevicePath(d) + "." + s.name + " > " + IntToString(threshold as int)
  }

  /** The comparisons of one device, in sensor order. */
  function DeviceComparisons(d: DeviceSchema, threshold: Int32): (cs: seq<string>)
    ensures |cs| == |d.sensors|
    ensures forall j :: 0 <= j < |d.sensors| ==> cs[j] == Comparison(d, d.sensors[j], threshold)
  {
    seq(|d.sensors|, j requires 0 <= j < |d.sensors| => Comparison(d, d.sensors[j], threshold))
  }

  /** The comparisons of all devices, device by device. */
  function Comparisons(devices: seq<DeviceSchema>, threshold: Int32): seq<string>
    decreases |devices|
  {
    if |devices| == 0 then []
    else Comparisons(devices[..|devices| - 1], threshold) + DeviceComparisons(devices[|devices| - 1], threshold)
  }

  function ValueFilterClause(devices: seq<DeviceSchema>, threshold: Int32): string {
    Concat(Prefixed(" AND ", Comparisons(devices, threshold)))
  }

  /** The part of the filter that one device contributes. */
  function DeviceFilter(d: DeviceSchema, threshold: Int32): string {
    Concat(Prefixed(" AND ", DeviceComparisons(d, threshold)))
  }

  /** The filter grows device by device. */
  lemma ValueFilterClauseSnoc(devices: seq<DeviceSchema>, d: DeviceSchema, threshold: Int32)
    ensures ValueFilterClause(devices + [d], threshold)
         == ValueFilterClause(devices, threshold) + DeviceFilter(d, threshold)
  {
    assert (devices + [d])[..|devices|] == devices;
    var before, added := Comparisons(devices, threshold), DeviceComparisons(d, threshold);
    assert Prefixed(" AND ", before + added) == Prefixed(" AND ", before) + Prefixed(" AND ", added);
    ConcatAppend(Prefixed(" AND ", before), Prefixed(" AND ", added));
  }

  /** The text the inner loop appends for one sensor. */
  lemma ConjunctText(d: DeviceSchema, s: Sensor, threshold: Int32)
    ensures " AND " + DevicePath(d) + "." + s.name + " > " + IntToString(threshold as int)
         == " AND " + Comparison(d, s, threshold)
  {
  }

  /** A comparison opens with the device's path, and so with "root.". */
  lemma ComparisonOpensWithRoot(d: DeviceSchema, s: Sensor, threshold: Int32)
    ensures |Comparison(d, s, threshold)| >= 5 && Comparison(d, s, threshold)[..5] == "root."
  {
    var path := DevicePath(d);
    DevicePathOpensWithRoot(d);
    PrefixExtends("root.", path, ".");
    PrefixExtends("root.", path + ".", s.name);
    PrefixExtends("root.", path + "." + s.name, " > ");
    PrefixExtends("root.", path + "." + s.name + " > ", IntToString(threshold as int));
  }

  /** The inner loop of `getValueFilterClause`: one conjunct per sensor of
      one device. */
  method AppendDeviceFilter(builder: string, d: DeviceSchema, threshold: Int32) returns (b: string)
    ensures b == builder + DeviceFilter(d, threshold)
  {
    ghost var added := Prefixed(" AND ", DeviceComparisons(d, threshold));
    b := builder;
    var j := 0;
    while j < |d.sensors|
      invariant 0 <= j <= |d.sensors|
      invariant b == builder + Concat(added[..j])
    {
      var path := GetDevicePath(d);
      var conjunct := " AND " + path + "." + d.sensors[j].name + " > " + IntToString(threshold as int);
      assert conjunct == added[j] by {
        ConjunctText(d, d.sensors[j], threshold);
      }
      ghost var before := b;
      b := b + conjunct;
      assert b == builder + Concat(added[..j + 1]) by {
        assert added[..j + 1] == added[..j] + [conjunct];
        AppendAfterConcat(builder, added[..j], conjunct);
      }
      j := j + 1;
    }
    assert added[..j] == added;
  }

  /** `getValueFilterClause`: a loop over the devices and, inside it, over
      the sensors of each. */
  method GetValueFilterClause(devices: seq<DeviceSchema>, threshold: Int32) returns (clause: string)
    ensures clause == ValueFilterClause(devices, threshold)
  {
    var builder := "";
    var i := 0;
    assert devices[..0] == [];
    while i < |devices|
      invariant 0 <= i <= |devices|
      invariant builder == ValueFilterClause(devices[..i], threshold)
    {
      builder := AppendDeviceFilter(builder, devices[i], threshold);
      assert devices[..i + 1] == devices[..i] + [devices[i]];
      ValueFilterClauseSnoc(devices[..i], devices[i], threshold);
      i := i + 1;
    }
    assert devices[..i] == devices;
    clause := builder;
  }

  /** Exactly one comparison per (device, sensor) pair. */
  lemma {:induction false} ComparisonsCount(devices: seq<DeviceSchema>, threshold: Int32)
    ensures |Comparisons(devices, threshold)| == TotalSensors(devices)
    decreases |devices|
  {
    if |devices| > 0 {
      ComparisonsCount(devices[..|devices| - 1], threshold);
    }
  }

  /** The comparisons come device by device and, within a device, sensor by
      sensor: the one for sensor `j` of device `i` sits after the comparisons
      of all earlier devices and the first `j` of device `i`. */
  lemma {:induction false} ComparisonAt(devices: seq<DeviceSchema>, threshold: Int32, i: nat, j: nat)
    requires i < |devices| && j < |devices[i].sensors|
    ensures TotalSensors(devices[..i]) + j < |Comparisons(devices, threshold)|
    ensures Comparisons(devices, threshold)[TotalSensors(devices[..i]) + j]
         == Comparison(devices[i], devices[i].sensors[j], threshold)
    decreases |devices|
  {
    var init := devices[..|devices| - 1];
    ComparisonsCount(init, threshold);
    if i == |devices| - 1 {
      assert devices[..i] == init;
    } else {
      assert init[..i] == devices[..i];
      ComparisonAt(init, threshold, i, j);
    }
  }

  /** The filter is empty exactly when there is no (device, sensor) pair. */
  lemma ValueFilterClauseEmpty(devices: seq<DeviceSchema>, threshold: Int32)
    ensures ValueFilterClause(devices, threshold) == "" <==> TotalSensors(devices) == 0
  {
    ComparisonsCount(devices, threshold);
    var cs := Comparisons(devices, threshold);
    if |cs| >= 1 {
      ConcatPrefixedIsJoin(" AND ", cs);
    }
  }

  /** A non-empty filter is " AND " followed by the comparisons joined with
      " AND ": the conjuncts form one conjunction. */
  lemma ValueFilterClauseIsConjunction(devices: seq<DeviceSchema>, threshold: Int32)
    requires TotalSensors(devices) >= 1
    ensures ValueFilterClause(devices, threshold)
         == " AND " + Join(" AND ", Comparisons(devices, threshold))
  {
    ComparisonsCount(devices, threshold);
    ConcatPrefixedIsJoin(" AND ", Comparisons(devices, threshold));
  }

  /** No group, tag value, device id or sensor name of any device holds `c`. */
  predicate AllIdentifiersFree(devices: seq<DeviceSchema>, c: char) {
    forall i :: 0 <= i < |devices| ==>
      ComponentsFree(devices[i], c)
      && forall j :: 0 <= j < |devices[i].sensors| ==> c !in devices[i].sensors[j].name
  }

  lemma ConjunctHoldsOneGreater(d: DeviceSchema, s: Sensor, threshold: Int32)
    requires ComponentsFree(d, '>') && '>' !in s.name
    ensures multiset(" AND " + Comparison(d, s, threshold))['>'] == 1
  {
    DevicePathAvoids(d, '>');
    var num := IntToString(threshold as int);
    IntToStringChars(threshold as int);
    assert '>' !in num;
    var path := DevicePath(d);
    assert " AND " + Comparison(d, s, threshold) == " AND " + path + "." + s.name + " > " + num;
    assert multiset(" AND " + path + "." + s.name + " > " + num)
        == multiset(" AND ") + multiset(path) + multiset(".") + multiset(s.name) + multiset(" > ") + multiset(num);
    LiteralGreaterCounts();
  }

  lemma LiteralGreaterCounts()
    ensures multiset(" AND ")['>'] == 0 && multiset(".")['>'] == 0 && multiset(" > ")['>'] == 1
  {
  }

  /** Counted in the text: when no identifier holds '>', the filter holds one
      '>' per (device, sensor) pair, so it has one comparison per pair. */
  lemma {:induction false} ValueFilterComparisonCount(devices: seq<DeviceSchema>, threshold: Int32)
    requires AllIdentifiersFree(devices, '>')
    ensures multiset(ValueFilterClause(devices, threshold))['>'] == TotalSensors(devices)
    decreases |devices|
  {
    if |devices| > 0 {
      var init, d := devices[..|devices| - 1], devices[|devices| - 1];
      assert devices == init + [d];
      ValueFilterComparisonCount(init, threshold);
      ValueFilterClauseSnoc(init, d, threshold);
      var added := Prefixed(" AND ", DeviceComparisons(d, threshold));
      forall j | 0 <= j < |added| ensures multiset(added[j])['>'] == 1 {
        ConjunctHoldsOneGreater(d, d.sensors[j], threshold);
      }
      CountInConcat(added, '>');
    }
  }
}
