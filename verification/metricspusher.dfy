/** The metrics pusher (cmd/metricspusher): a Pub/Sub push endpoint that
    checks the attributes of a measurements message and turns every
    measurement into Cloud Monitoring time series, one per reading that
    is not NaN.

    JSON and protobuf decoding are not modelled: the decoded push message
    is the input, and the outcome of `proto.Unmarshal` on its data is the
    parameter `unmarshal`. A timestamp is an integer number of
    nanoseconds. */
module MetricsPusher {
  import opened Wrappers
  import opened Wire
  import opened Api

  type Timestamp = int

  datatype InputMessage = InputMessage(data: seq<byte>, attributes: map<string, string>, publishTime: Timestamp)

  datatype MeasurementMessage = MeasurementMessage(
    deviceId: string,
    deviceRegistryLocation: string,
    projectId: string,
    publishTime: Timestamp,
    measurements: seq<Measurement>)

  datatype PushError =
    | MissingAttribute(attributes: map<string, string>)
    | UnsupportedSubFolder(got: string)
    | BadPublication(reason: string)

  /** A Go map lookup: the empty string when the key is missing. */
  function Attribute(attributes: map<string, string>, key: string): (v: string)
    ensures key in attributes ==> v == attributes[key]
    ensures key !in attributes ==> v == ""
  {
    if key in attributes then attributes[key] else ""
  }

  /** The three attributes a message must carry, each non-empty. */
  predicate HasDeviceAttributes(attributes: map<string, string>) {
    && Attribute(attributes, "deviceId") != ""
    && Attribute(attributes, "deviceRegistryLocation") != ""
    && Attribute(attributes, "projectId") != ""
  }

  /** parsePubsubMessage, after JSON decoding: the device attributes, then
      the sub-folder, then the payload. */
  function ParsePubsubMessage(msg: InputMessage, unmarshal: seq<byte> -> Result<seq<Measurement>, string>)
    : (r: Result<MeasurementMessage, PushError>)
    ensures !HasDeviceAttributes(msg.attributes) ==> r == Failure(MissingAttribute(msg.attributes))
    ensures HasDeviceAttributes(msg.attributes) && Attribute(msg.attributes, "subFolder") != "v1" ==>
      r == Failure(UnsupportedSubFolder(Attribute(msg.attributes, "subFolder")))
    ensures r.Success? <==>
      HasDeviceAttributes(msg.attributes) && Attribute(msg.attributes, "subFolder") == "v1" && unmarshal(msg.data).Success?
    ensures r.Success? ==>
      && r.value.deviceId == msg.attributes["deviceId"]
      && r.value.deviceRegistryLocation == msg.attributes["deviceRegistryLocation"]
      && r.value.projectId == msg.attributes["projectId"]
      && r.value.publishTime == msg.publishTime
      && r.value.measurements == unmarshal(msg.data).value
  {
    var deviceId := Attribute(msg.attributes, "deviceId");
    var location := Attribute(msg.attributes, "deviceRegistryLocation");
    var projectId := Attribute(msg.attributes, "projectId");
    var subFolder := Attribute(msg.attributes, "subFolder");
    if deviceId == "" || location == "" || projectId == "" then Failure(MissingAttribute(msg.attributes))
    else if subFolder != "v1" then Failure(UnsupportedSubFolder(subFolder))
    else
      match unmarshal(msg.data)
      case Failure(reason) => Failure(BadPublication(reason))
      case Success(ms) => Success(MeasurementMessage(deviceId, location, projectId, msg.publishTime, ms))
  }

  /** The attributes of the message in the repository's test: accepted and
      copied, extra attributes ignored. */
  lemma ParsesTestMessage(data: seq<byte>, t: Timestamp, unmarshal: seq<byte> -> Result<seq<Measurement>, string>)
    requires unmarshal(data).Success?
    ensures var attrs := map["deviceId" := "testing-device", "deviceNumId" := "2955148207840174",
                             "deviceRegistryId" := "sensors", "deviceRegistryLocation" := "europe-west1",
                             "projectId" := "some-project-123123", "subFolder" := "v1"];
      ParsePubsubMessage(InputMessage(data, attrs, t), unmarshal)
        == Success(MeasurementMessage("testing-device", "europe-west1", "some-project-123123", t, unmarshal(data).value))
  {
  }

  // ---------------------------------------------------------------------
  // Time series

  datatype MonitoredResource = MonitoredResource(resourceType: string, labels: map<string, string>)

  datatype TimeSeries = TimeSeries(metricType: string, resource: MonitoredResource, endTime: Timestamp, value: real)

  const MetricTypePrefix: string := "custom.googleapis.com/sensor/measurement/"

  /** appendMeasurementTimeSeries: a NaN reading adds nothing; any other
      adds one point at the end. */
  function AppendMeasurementTimeSeries(ts: seq<TimeSeries>, resource: MonitoredResource, dimension: string,
                                       t: Timestamp, value: Float): (r: seq<TimeSeries>)
    ensures value.NaN? ==> r == ts
    ensures value.Num? ==>
      && |r| == |ts| + 1 && r[..|ts|] == ts
      && r[|ts|].metricType == MetricTypePrefix + dimension
      && r[|ts|].resource == resource && r[|ts|].endTime == t && r[|ts|].value == value.value
  {
    if value.NaN? then ts
    else ts + [TimeSeries(MetricTypePrefix + dimension, resource, t, value.value)]
  }

  /** The generic_node resource a measurement's series are written to. */
  function NodeResource(msg: MeasurementMessage, m: Measurement): MonitoredResource {
    MonitoredResource("generic_node", map[
      "project_id" := msg.projectId,
      "location" := msg.deviceRegistryLocation,
      "namespace" := msg.deviceId,
      "node_id" := m.sensorMac])
  }

  /** The series of one measurement, in the order the loop appends them. */
  function MeasurementSeries(ts: seq<TimeSeries>, msg: MeasurementMessage, m: Measurement): seq<TimeSeries> {
    var res := NodeResource(msg, m);
    var ts := AppendMeasurementTimeSeries(ts, res, "temperature", msg.publishTime, m.temperature);
    var ts := AppendMeasurementTimeSeries(ts, res, "humidity", msg.publishTime, m.humidity);
    var ts := AppendMeasurementTimeSeries(ts, res, "pressure", msg.publishTime, m.pressure);
    AppendMeasurementTimeSeries(ts, res, "battery", msg.publishTime, m.batteryVoltage)
  }

  function Dimensions(m: Measurement): seq<(string, Float)> {
    [("temperature", m.temperature), ("humidity", m.humidity), ("pressure", m.pressure),
     ("battery", m.batteryVoltage)]
  }

  /** The readings of a measurement that are not NaN, in order. */
  function Present(readings: seq<(string, Float)>): seq<(string, real)>
    decreases |readings|
  {
    if |readings| == 0 then []
    else
      var rest := Present(readings[1..]);
      if readings[0].1.NaN? then rest else [(readings[0].0, readings[0].1.value)] + rest
  }

  /** Appends the series of a list of readings in order. */
  function AppendAll(ts: seq<TimeSeries>, res: MonitoredResource, t: Timestamp, readings: seq<(string, Float)>)
    : seq<TimeSeries>
    decreases |readings|
  {
    if |readings| == 0 then ts
    else AppendAll(AppendMeasurementTimeSeries(ts, res, readings[0].0, t, readings[0].1), res, t, readings[1..])
  }

  /** Appending a list of readings adds one series per reading that is not
      NaN, in list order, after what was there. */
  lemma {:induction false} AppendAllSpec(ts: seq<TimeSeries>, res: MonitoredResource, t: Timestamp,
                                         readings: seq<(string, Float)>)
    ensures var r := AppendAll(ts, res, t, readings);
      var p := Present(readings);
      && |r| == |ts| + |p| && r[..|ts|] == ts
      && forall i :: 0 <= i < |p| ==> r[|ts| + i] == TimeSeries(MetricTypePrefix + p[i].0, res, t, p[i].1)
    decreases |readings|
  {
    if |readings| > 0 {
      var (dim, v) := readings[0];
      var ts' := AppendMeasurementTimeSeries(ts, res, dim, t, v);
      AppendAllSpec(ts', res, t, readings[1..]);
      var final := AppendAll(ts', res, t, readings[1..]);
      var rest := Present(readings[1..]);
      var p := Present(readings);
      if v.Num? {
        assert final[..|ts|] == final[..|ts'|][..|ts|];
        forall i | 0 <= i < |p|
          ensures final[|ts| + i] == TimeSeries(MetricTypePrefix + p[i].0, res, t, p[i].1)
        {
          if i == 0 {
            assert final[|ts|] == final[..|ts'|][|ts|];
          } else {
            assert final[|ts| + i] == final[|ts'| + (i - 1)];
          }
        }
      }
    }
  }

  lemma MeasurementSeriesAppendsDimensions(ts: seq<TimeSeries>, msg: MeasurementMessage, m: Measurement)
    ensures MeasurementSeries(ts, msg, m) == AppendAll(ts, NodeResource(msg, m), msg.publishTime, Dimensions(m))
  {
    var d := Dimensions(m);
    var res := NodeResource(msg, m);
    var t := msg.publishTime;
    var ts1 := AppendMeasurementTimeSeries(ts, res, "temperature", t, m.temperature);
    var ts2 := AppendMeasurementTimeSeries(ts1, res, "humidity", t, m.humidity);
    var ts3 := AppendMeasurementTimeSeries(ts2, res, "pressure", t, m.pressure);
    var ts4 := AppendMeasurementTimeSeries(ts3, res, "battery", t, m.batteryVoltage);
    assert d[1..][1..][1..][1..] == [];
    assert AppendAll(ts4, res, t, d[1..][1..][1..][1..]) == ts4;
    assert d[1..][1..][1..][0] == ("battery", m.batteryVoltage);
    assert AppendAll(ts3, res, t, d[1..][1..][1..]) == ts4;
    assert d[1..][1..][0] == ("pressure", m.pressure);
    assert AppendAll(ts2, res, t, d[1..][1..]) == ts4;
    assert d[1..][0] == ("humidity", m.humidity);
    assert AppendAll(ts1, res, t, d[1..]) == ts4;
  }

  /** One measurement appends, after what is there, one series per reading
      that is not NaN, in the order temperature, humidity, pressure,
      battery, each on the measurement's node and at the publish time. */
  lemma MeasurementSeriesSpec(ts: seq<TimeSeries>, msg: MeasurementMessage, m: Measurement)
    ensures var r := MeasurementSeries(ts, msg, m);
      var p := Present(Dimensions(m));
      && |r| == |ts| + |p| && r[..|ts|] == ts
      && forall i :: 0 <= i < |p| ==>
           r[|ts| + i] == TimeSeries(MetricTypePrefix + p[i].0, NodeResource(msg, m), msg.publishTime, p[i].1)
  {
    MeasurementSeriesAppendsDimensions(ts, msg, m);
    AppendAllSpec(ts, NodeResource(msg, m), msg.publishTime, Dimensions(m));
  }

  /** All series of a message, measurement by measurement. */
  function AllSeries(msg: MeasurementMessage, ms: seq<Measurement>): seq<TimeSeries>
    decreases |ms|
  {
    if |ms| == 0 then [] else MeasurementSeries(AllSeries(msg, ms[..|ms| - 1]), msg, ms[|ms| - 1])
  }

  /** No measurement contributes more than four series. */
  lemma {:induction false} AllSeriesBound(msg: MeasurementMessage, ms: seq<Measurement>)
    ensures |AllSeries(msg, ms)| <= 4 * |ms|
    decreases |ms|
  {
    if |ms| > 0 {
      AllSeriesBound(msg, ms[..|ms| - 1]);
      MeasurementSeriesSpec(AllSeries(msg, ms[..|ms| - 1]), msg, ms[|ms| - 1]);
      PresentBound(Dimensions(ms[|ms| - 1]));
    }
  }

  lemma {:induction false} PresentBound(readings: seq<(string, Float)>)
    ensures |Present(readings)| <= |readings|
    decreases |readings|
  {
    if |readings| > 0 {
      PresentBound(readings[1..]);
    }
  }

  /** The loop of handlePubSub that collects the series of every
      measurement of the message. */
  method BuildTimeSeries(msg: MeasurementMessage) returns (ts: seq<TimeSeries>)
    ensures ts == AllSeries(msg, msg.measurements)
    ensures |ts| <= 4 * |msg.measurements|
  {
    ts := [];
    var i := 0;
    while i < |msg.measurements|
      invariant 0 <= i <= |msg.measurements|
      invariant ts == AllSeries(msg, msg.measurements[..i])
    {
      var m := msg.measurements[i];
      var res := NodeResource(msg, m);
      ts := AppendMeasurementTimeSeries(ts, res, "temperature", msg.publishTime, m.temperature);
      ts := AppendMeasurementTimeSeries(ts, res, "humidity", msg.publishTime, m.humidity);
      ts := AppendMeasurementTimeSeries(ts, res, "pressure", msg.publishTime, m.pressure);
      ts := AppendMeasurementTimeSeries(ts, res, "battery", msg.publishTime, m.batteryVoltage);
      assert msg.measurements[..i + 1][..i] == msg.measurements[..i];
      i := i + 1;
    }
    assert msg.measurements[..i] == msg.measurements;
    AllSeriesBound(msg, msg.measurements);
  }
}
