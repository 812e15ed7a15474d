/** The hierarchical path of a device: the root label, the group, the value of
    every tag in iteration order, then the device id, separated by '.'. */
module DeviceAddressing {
  import opened Strings
  import opened Schema

  /** The label every path starts with (set in the adapter's constructor). */
  const RootSeriesName: string := "root"

  /** The values of the tags, in order; the keys are dropped. */
  function TagValues(tags: seq<(string, string)>): (values: seq<string>)
    ensures |values| == |tags|
    ensures forall i :: 0 <= i < |tags| ==> values[i] == tags[i].1
  {
    seq(|tags|, i requires 0 <= i < |tags| => tags[i].1)
  }

  /** The components of a device's path, in order. */
  function PathComponents(d: DeviceSchema): seq<string> {
    [RootSeriesName, d.group] + TagValues(d.tags) + [d.device]
  }

  function DevicePath(d: DeviceSchema): string {
    Join(".", PathComponents(d))
  }

  /** `getDevicePath`: appends to a builder that starts with the root label. */
  method GetDevicePath(d: DeviceSchema) returns (path: string)
    ensures path == DevicePath(d)
  {
    ghost var head := [RootSeriesName, d.group];
    var name := RootSeriesName;
    name := name + "." + d.group;
    assert name == Join(".", head) by {
      assert head == [RootSeriesName] + [d.group];
      JoinSnoc(".", [RootSeriesName], d.group);
    }
    var i := 0;
    while i < |d.tags|
      invariant 0 <= i <= |d.tags|
      invariant name == Join(".", head + TagValues(d.tags[..i]))
    {
      ghost var done := head + TagValues(d.tags[..i]);
      assert head + TagValues(d.tags[..i + 1]) == done + [d.tags[i].1];
      JoinSnoc(".", done, d.tags[i].1);
      name := name + "." + d.tags[i].1;
      i := i + 1;
    }
    assert d.tags[..i] == d.tags;
    JoinSnoc(".", head + TagValues(d.tags), d.device);
    name := name + "." + d.device;
    path := name;
  }

  /** Joining `values` behind a '.' each, as the tag loop does. */
  function DottedValues(values: seq<string>): string {
    Concat(Prefixed(".", values))
  }

  lemma {:induction false} JoinHeadAndValues(head: seq<string>, values: seq<string>)
    requires |head| >= 1
    ensures Join(".", head + values) == Join(".", head) + DottedValues(values)
    decreases |values|
  {
    if |values| == 0 {
      assert head + values == head;
    } else {
      var init, last := values[..|values| - 1], values[|values| - 1];
      var left := Join(".", head + init);
      assert head + values == (head + init) + [last];
      JoinSnoc(".", head + init, last);
      assert Join(".", head + values) == left + "." + last;
      JoinHeadAndValues(head, init);
      assert left == Join(".", head) + DottedValues(init);
      assert Prefixed(".", values) == Prefixed(".", init) + ["." + last];
      ConcatSnoc(Prefixed(".", init), "." + last);
      assert DottedValues(values) == DottedValues(init) + ("." + last);
    }
  }

  /** The path is "root." + group, then "." + v for every tag value v in
      order, then "." + device. */
  lemma DevicePathShape(d: DeviceSchema)
    ensures DevicePath(d)
         == "root." + d.group + DottedValues(TagValues(d.tags)) + "." + d.device
  {
    var head := [RootSeriesName, d.group];
    assert Join(".", head) == "root." + d.group by {
      JoinSnoc(".", [RootSeriesName], d.group);
      assert head == [RootSeriesName] + [d.group];
    }
    JoinHeadAndValues(head, TagValues(d.tags));
    JoinSnoc(".", head + TagValues(d.tags), d.device);
  }

  /** Every path opens with the root label and its separator. */
  lemma DevicePathOpensWithRoot(d: DeviceSchema)
    ensures |DevicePath(d)| >= 5 && DevicePath(d)[..5] == "root."
  {
    DevicePathShape(d);
    var p := "root.";
    assert p[..5] == p;
    PrefixExtends(p, p, d.group);
    PrefixExtends(p, p + d.group, DottedValues(TagValues(d.tags)));
    PrefixExtends(p, p + d.group + DottedValues(TagValues(d.tags)), ".");
    PrefixExtends(p, p + d.group + DottedValues(TagValues(d.tags)) + ".", d.device);
  }

  /** Tag keys never contribute: two devices whose tags have the same values
      in the same order have the same path, whatever their keys. */
  lemma DevicePathIgnoresTagKeys(d: DeviceSchema, tags: seq<(string, string)>)
    requires |tags| == |d.tags|
    requires forall i :: 0 <= i < |tags| ==> tags[i].1 == d.tags[i].1
    ensures DevicePath(d.(tags := tags)) == DevicePath(d)
  {
    assert TagValues(tags) == TagValues(d.tags);
  }

  /** No component of the path holds `c`. */
  predicate ComponentsFree(d: DeviceSchema, c: char) {
    c !in RootSeriesName && c !in d.group && c !in d.device
    && forall i :: 0 <= i < |d.tags| ==> c !in d.tags[i].1
  }

  /** As long as no group, tag value or device id holds a '.', splitting the
      path at '.' gives back exactly its components. */
  lemma DevicePathSplits(d: DeviceSchema)
    requires ComponentsFree(d, '.')
    ensures SplitOn(DevicePath(d), '.') == PathComponents(d)
  {
    var parts := PathComponents(d);
    forall i | 0 <= i < |parts| ensures '.' !in parts[i] {
      if 2 <= i < |parts| - 1 {
        assert parts[i] == d.tags[i - 2].1;
      }
    }
    SplitJoin(parts, '.');
  }

  /** Consequently the path determines the group, the tag values and the
      device id. */
  lemma DevicePathInjective(d1: DeviceSchema, d2: DeviceSchema)
    requires ComponentsFree(d1, '.') && ComponentsFree(d2, '.')
    requires DevicePath(d1) == DevicePath(d2)
    ensures d1.group == d2.group && d1.device == d2.device
    ensures TagValues(d1.tags) == TagValues(d2.tags)
  {
    DevicePathSplits(d1);
    DevicePathSplits(d2);
    var p1, p2 := PathComponents(d1), PathComponents(d2);
    assert p1 == p2;
    assert |d1.tags| == |d2.tags|;
    assert TagValues(d1.tags) == p1[2..|p1| - 1];
    assert TagValues(d2.tags) == p2[2..|p2| - 1];
  }

  /** A component-free character does not occur in the path at all. */
  lemma {:induction false} DevicePathAvoids(d: DeviceSchema, c: char)
    requires c != '.' && ComponentsFree(d, c)
    ensures multiset(DevicePath(d))[c] == 0
  {
    var parts := PathComponents(d);
    forall i | 0 <= i < |parts| ensures multiset(parts[i])[c] == 0 {
      if 2 <= i < |parts| - 1 {
        assert parts[i] == d.tags[i - 2].1;
      }
    }
    CountInJoin(".", parts, c, 0);
  }

  /** A worked example: one device of group g1 with tag region=east, id d1
      and sensors s0, s1. */
  const ExampleDevice: DeviceSchema :=
    DeviceSchema("g1", [("region", "east")], "d1", [Sensor("s0", "INT32"), Sensor("s1", "INT32")])

  lemma ExamplePath()
    ensures DevicePath(ExampleDevice) == "root.g1.east.d1"
  {
    assert PathComponents(ExampleDevice) == ["root", "g1", "east", "d1"];
    assert ["root", "g1", "east", "d1"][..3] == ["root", "g1", "east"];
    assert ["root", "g1", "east"][..2] == ["root", "g1"];
    assert ["root", "g1"][..1] == ["root"];
  }
}
