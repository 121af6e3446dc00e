/** The TOML input of the configuration file (pkg/config/config_format.go),
    as `toml.Unmarshal` leaves it: pointer fields are `Option`s (absent
    key), other fields take Go's zero value when the key is absent. */
module ConfigFormat {
  import opened Wrappers
  import opened Backoff

  /** A `max_1_in` string with the value `time.ParseDuration` gives it;
      `None` when the library rejects the text. */
  datatype DurationText = DurationText(text: string, parsed: Option<Duration>)

  datatype FRateLimit = FRateLimit(max1In: DurationText)

  /** `[tls]`: CA file, skip_verify (default false), server_name (default:
      inherited from the enclosing sink). */
  datatype FTLSConfig = FTLSConfig(caCerts: Option<string>, skipVerify: bool, serverName: Option<string>)

  /** The zero value, used when a sink has no `[tls]` table. */
  const NoTLSTable := FTLSConfig(None, false, None)

  datatype FMQTTSink = FMQTTSink(
    name: string,
    rateLimit: Option<FRateLimit>,
    topic: string,
    clientId: string,
    userName: string,
    password: string,
    format: Option<string>,         // default: BINARY
    serverName: string,
    serverPort: Option<int>,        // default: 8883
    enableTls: Option<bool>,        // default: true
    tls: FTLSConfig)

  datatype FGCPSink = FGCPSink(
    name: string,
    rateLimit: Option<FRateLimit>,
    project: string,
    region: string,
    registry: string,
    device: string,
    key: string,
    serverName: Option<string>,     // default: mqtt.googleapis.com
    serverPort: Option<int>,        // default: 8883
    tls: FTLSConfig)

  /** The Cloud Pub/Sub sink table, with the fields pkg/config/config.go reads from it. */
  datatype FCloudPubSubSink = FCloudPubSubSink(
    name: string,
    rateLimit: Option<FRateLimit>,
    project: Option<string>,        // default: detect from the credentials
    topic: string,
    device: string,
    creds: Option<string>)          // default: the environment's default credentials

  datatype FStdoutSink = FStdoutSink(name: string, rateLimit: Option<FRateLimit>)

  datatype FSinks = FSinks(
    mqtt: seq<FMQTTSink>,
    gcp: seq<FGCPSink>,
    cloudPubSub: seq<FCloudPubSubSink>,
    stdout: seq<FStdoutSink>)

  /** The whole file; `adapter` defaults to hci0 and, when no sink is
      defined, a single default stdout sink is created. */
  datatype FConfig = FConfig(adapter: Option<string>, sinks: FSinks)

  /** What unmarshalling an empty document produces. */
  const EmptyConfig := FConfig(None, FSinks([], [], [], []))
}
