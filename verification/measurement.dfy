/** The `api.Measurement` protobuf message passed from the daemon to the
    sinks and on to the metrics pusher. Its readings are float32 values in
    Go, where NaN marks a missing reading; here a reading is either `NaN`
    or an exact real. */
module Api {

  datatype Float = NaN | Num(value: real)

  datatype Measurement = Measurement(
    sensorMac: string,
    temperature: Float,
    humidity: Float,
    pressure: Float,
    batteryVoltage: Float)
}
