/** The daemon's main loop (cmd/gbcsdpd/main.go): every advertisement
    carrying Ruuvi manufacturer data is decoded, flattened into an
    `api.Measurement` and published to every configured sink in order.
    A sink is modelled by the rate limiter in front of it. */
module Daemon {
  import opened Wrappers
  import opened Wire
  import opened Api
  import Ruuvi
  import BleListener
  import RateLimiter

  /** The Bluetooth SIG company identifier of Ruuvi Innovations. */
  const RuuviManufacturerId: uint16 := 0x0499

  /** nilToNaN: an absent reading becomes NaN. */
  function NilToNaN(v: Option<real>): (r: Float)
    ensures r.NaN? <==> v.None?
    ensures v.Some? ==> r == Num(v.value)
  {
    match v
    case None => NaN
    case Some(x) => Num(x)
  }

  /** How a consumer reads a reading back: NaN is absent. */
  function NaNToNil(f: Float): (r: Option<real>)
    ensures r.None? <==> f.NaN?
  {
    match f
    case NaN => None
    case Num(x) => Some(x)
  }

  /** No reading is lost by the NaN encoding. */
  lemma NilToNaNRoundTrip(v: Option<real>)
    ensures NaNToNil(NilToNaN(v)) == v
  {
  }

  // ---------------------------------------------------------------------
  // net.HardwareAddr.String

  const HexDigits: string := "0123456789abcdef"

  function HexByte(b: byte): string {
    [HexDigits[b / 16], HexDigits[b % 16]]
  }

  /** `net.HardwareAddr.String`: two lower-case hex digits per byte,
      separated by colons; the empty address prints as "". */
  function MacToString(a: BleListener.HardwareAddr): (s: string)
    ensures |a| == 0 <==> s == ""
    ensures |a| > 0 ==> |s| == 3 * |a| - 1
    decreases |a|
  {
    if |a| == 0 then ""
    else if |a| == 1 then HexByte(a[0])
    else HexByte(a[0]) + ":" + MacToString(a[1..])
  }

  lemma HexByteInjective(x: byte, y: byte)
    requires HexByte(x) == HexByte(y)
    ensures x == y
  {
    assert HexByte(x)[0] == HexByte(y)[0] && HexByte(x)[1] == HexByte(y)[1];
    assert forall i, j :: 0 <= i < j < |HexDigits| ==> HexDigits[i] != HexDigits[j];
    assert x / 16 == y / 16 && x % 16 == y % 16;
  }

  /** Distinct addresses print differently, so the sensor MAC string
      identifies the sensor. */
  lemma {:induction false} MacToStringInjective(a: BleListener.HardwareAddr, b: BleListener.HardwareAddr)
    requires MacToString(a) == MacToString(b)
    ensures a == b
    decreases |a|
  {
    if |a| > 0 {
      var s := MacToString(a);
      assert |b| == |a|;
      assert HexByte(a[0]) == s[..2] == HexByte(b[0]);
      HexByteInjective(a[0], b[0]);
      if |a| > 1 {
        assert MacToString(a[1..]) == s[3..] == MacToString(b[1..]);
        MacToStringInjective(a[1..], b[1..]);
        assert a == [a[0]] + a[1..] && b == [b[0]] + b[1..];
      }
    }
  }

  lemma MacToStringExample()
    ensures MacToString([0xCB, 0xB8, 0x33, 0x4C, 0x88, 0x4F]) == "cb:b8:33:4c:88:4f"
  {
    assert HexByte(0xCB) == "cb" && HexByte(0xB8) == "b8" && HexByte(0x33) == "33";
    assert HexByte(0x4C) == "4c" && HexByte(0x88) == "88" && HexByte(0x4F) == "4f";
  }

  // ---------------------------------------------------------------------
  // One advertisement

  /** The measurement built from a decoded payload: the address and the
      four readings, everything else dropped. */
  function ToMeasurement(address: BleListener.HardwareAddr, data: Ruuvi.RuuviData): (m: Measurement)
    ensures m.sensorMac == MacToString(address)
    ensures NaNToNil(m.temperature) == data.temperature && NaNToNil(m.humidity) == data.humidity
    ensures NaNToNil(m.pressure) == data.pressure && NaNToNil(m.batteryVoltage) == data.batteryVoltage
  {
    Measurement(MacToString(address), NilToNaN(data.temperature), NilToNaN(data.humidity),
                NilToNaN(data.pressure), NilToNaN(data.batteryVoltage))
  }

  datatype Outcome =
    | NotRuuvi                          // no Ruuvi manufacturer data: skipped
    | Crashed(cause: Ruuvi.ParseError)  // nil pointer dereference: the daemon dies
    | Skipped(cause: Ruuvi.ParseError)  // logged and skipped
    | Publish(m: Measurement)

  /** The loop body as written: after a decode error is logged the fields
      of the nil result are read, which panics. */
  function HandleAdvertisementAsWritten(adv: BleListener.Advertisement): (r: Outcome)
    ensures RuuviManufacturerId !in adv.manufacturerData <==> r.NotRuuvi?
    ensures !r.Skipped?
    ensures r.Crashed? <==>
      RuuviManufacturerId in adv.manufacturerData && Ruuvi.ParseAsWritten(adv.manufacturerData[RuuviManufacturerId]).Failure?
    ensures r.Crashed? ==> r.cause == Ruuvi.ParseAsWritten(adv.manufacturerData[RuuviManufacturerId]).error
    ensures r.Publish? ==>
      r.m == ToMeasurement(adv.address, Ruuvi.ParseAsWritten(adv.manufacturerData[RuuviManufacturerId]).value)
  {
    if RuuviManufacturerId !in adv.manufacturerData then NotRuuvi
    else
      match Ruuvi.ParseAsWritten(adv.manufacturerData[RuuviManufacturerId])
      case Failure(e) => Crashed(e)
      case Success(data) => Publish(ToMeasurement(adv.address, data))
  }

  /** The loop body as evidently intended: a payload that does not decode
      is logged and skipped. */
  function HandleAdvertisement(adv: BleListener.Advertisement): (r: Outcome)
    ensures !r.Crashed?
    ensures RuuviManufacturerId !in adv.manufacturerData <==> r.NotRuuvi?
    ensures r.Skipped? <==>
      RuuviManufacturerId in adv.manufacturerData && Ruuvi.Parse(adv.manufacturerData[RuuviManufacturerId]).Failure?
    ensures r.Publish? ==>
      r.m == ToMeasurement(adv.address, Ruuvi.Parse(adv.manufacturerData[RuuviManufacturerId]).value)
  {
    if RuuviManufacturerId !in adv.manufacturerData then NotRuuvi
    else
      match Ruuvi.Parse(adv.manufacturerData[RuuviManufacturerId])
      case Failure(e) => Skipped(e)
      case Success(data) => Publish(ToMeasurement(adv.address, data))
  }

  /** The two agree on every advertisement that does not crash the
      program as written. */
  lemma HandleAdvertisementAgrees(adv: BleListener.Advertisement)
    requires !HandleAdvertisementAsWritten(adv).Crashed?
    ensures HandleAdvertisement(adv) == HandleAdvertisementAsWritten(adv)
  {
    if RuuviManufacturerId in adv.manufacturerData {
      Ruuvi.ParseAgreesWithAsWritten(adv.manufacturerData[RuuviManufacturerId]);
    }
  }

  /** An advertisement with one Ruuvi byte 0x53 crashes the loop as
      written, and is skipped when corrected. */
  lemma AsWrittenCrashesOnUndecodable()
    ensures var adv := BleListener.Advertisement([1, 2, 3, 4, 5, 6], map[RuuviManufacturerId := [0x53]]);
      && HandleAdvertisementAsWritten(adv) == Crashed(Ruuvi.UnsupportedFormat(0x53))
      && HandleAdvertisement(adv) == Skipped(Ruuvi.UnsupportedFormat(0x53))
  {
  }

  /** A truncated RAWv1 payload crashes the loop as written with the bare
      length error that the decoder returns, and is skipped with the
      error wrapped in its format when corrected. */
  lemma AsWrittenCrashCauseUnwrapped()
    ensures var adv := BleListener.Advertisement([1, 2, 3, 4, 5, 6], map[RuuviManufacturerId := [3, 0, 0]]);
      && HandleAdvertisementAsWritten(adv) == Crashed(Ruuvi.WrongLength(Ruuvi.RAWv1Size))
      && HandleAdvertisement(adv) == Skipped(Ruuvi.InFormat(Ruuvi.RAWv1, Ruuvi.WrongLength(Ruuvi.RAWv1Size)))
  {
  }

  // ---------------------------------------------------------------------
  // Fan-out

  /** Every sink receives the measurement. */
  function Dispatch(sinks: seq<RateLimiter.Limiter>, m: Measurement): seq<RateLimiter.Limiter> {
    seq(|sinks|, i requires 0 <= i < |sinks| => RateLimiter.Publish(sinks[i], m))
  }

  /** The fan-out loop: the sinks are called one after another in list
      order with the same measurement. */
  method PublishToSinks(sinks: seq<RateLimiter.Limiter>, m: Measurement) returns (out: seq<RateLimiter.Limiter>)
    ensures |out| == |sinks|
    ensures forall i :: 0 <= i < |sinks| ==> out[i] == RateLimiter.Publish(sinks[i], m)
  {
    out := [];
    var i := 0;
    while i < |sinks|
      invariant 0 <= i <= |sinks|
      invariant |out| == i
      invariant forall j :: 0 <= j < i ==> out[j] == RateLimiter.Publish(sinks[j], m)
    {
      out := out + [RateLimiter.Publish(sinks[i], m)];
      i := i + 1;
    }
  }

  /** The measurements the corrected loop publishes for a stream of
      advertisements. */
  function Measurements(advs: seq<BleListener.Advertisement>): seq<Measurement>
    decreases |advs|
  {
    if |advs| == 0 then []
    else
      var rest := Measurements(advs[1..]);
      var o := HandleAdvertisement(advs[0]);
      if o.Publish? then [o.m] + rest else rest
  }

  /** The corrected main loop over a stream of advertisements. */
  function Serve(sinks: seq<RateLimiter.Limiter>, advs: seq<BleListener.Advertisement>): (r: seq<RateLimiter.Limiter>)
    ensures |r| == |sinks|
    decreases |advs|
  {
    if |advs| == 0 then sinks
    else
      var o := HandleAdvertisement(advs[0]);
      if o.Publish? then Serve(Dispatch(sinks, o.m), advs[1..]) else Serve(sinks, advs[1..])
  }

  /** Each sink sees exactly the published measurements, in advertisement
      order, as if it alone had been sent them. */
  lemma {:induction false} ServeFansOut(sinks: seq<RateLimiter.Limiter>, advs: seq<BleListener.Advertisement>)
    ensures forall i :: 0 <= i < |sinks| ==>
      Serve(sinks, advs)[i] == RateLimiter.Run(sinks[i], RateLimiter.Publishes(Measurements(advs)))
    decreases |advs|
  {
    if |advs| > 0 {
      var ms := Measurements(advs);
      var o := HandleAdvertisement(advs[0]);
      if o.Publish? {
        var m := o.m;
        var next := Dispatch(sinks, m);
        ServeFansOut(next, advs[1..]);
        assert ms == [m] + Measurements(advs[1..]);
        forall i | 0 <= i < |sinks|
          ensures Serve(sinks, advs)[i] == RateLimiter.Run(sinks[i], RateLimiter.Publishes(ms))
        {
          var evs := RateLimiter.Publishes(ms);
          assert evs[0] == RateLimiter.PublishEvent(m);
          assert evs[1..] == RateLimiter.Publishes(Measurements(advs[1..]));
        }
      } else {
        ServeFansOut(sinks, advs[1..]);
      }
    }
  }
}
