/** The entities the adapter receives from the benchmark: devices with their
    sensors, and the Java integer widths of timestamps and thresholds. */
module Schema {
  import opened Wrappers

  /** Java `long` (timestamps, granularity). */
  newtype Int64 = x: int | -0x8000_0000_0000_0000 <= x < 0x8000_0000_0000_0000

  /** Java `int` (the value threshold after its cast). */
  newtype Int32 = x: int | -0x8000_0000 <= x < 0x8000_0000

  /** A sensor: its name and the name of its declared data type. */
  datatype Sensor = Sensor(name: string, typeName: string)

  /** A device: its group, its tags as (key, value) pairs in the order the
      tag map iterates them, its identifier and its sensors. */
  datatype DeviceSchema = DeviceSchema(
    group: string,
    tags: seq<(string, string)>,
    device: string,
    sensors: seq<Sensor>)

  function SensorNames(sensors: seq<Sensor>): (names: seq<string>)
    ensures |names| == |sensors|
    ensures forall i :: 0 <= i < |sensors| ==> names[i] == sensors[i].name
  {
    seq(|sensors|, i requires 0 <= i < |sensors| => sensors[i].name)
  }

  function SensorTypeNames(sensors: seq<Sensor>): (names: seq<string>)
    ensures |names| == |sensors|
    ensures forall i :: 0 <= i < |sensors| ==> names[i] == sensors[i].typeName
  {
    seq(|sensors|, i requires 0 <= i < |sensors| => sensors[i].typeName)
  }

  /** Number of (device, sensor) pairs in a device list. */
  function TotalSensors(devices: seq<DeviceSchema>): nat
    decreases |devices|
  {
    if |devices| == 0 then 0
    else TotalSensors(devices[..|devices| - 1]) + |devices[|devices| - 1].sensors|
  }

  /** `registerSchema`: no registration and no latency, never a failure. */
  function RegisterSchema(schemas: seq<DeviceSchema>): (latency: Option<real>)
    ensures latency.None?
  {
    None
  }
}
