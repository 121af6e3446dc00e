# gbcsdpd in Dafny

gbcsdpd is a small daemon. It listens for Bluetooth Low Energy advertisements
from Ruuvi environmental sensors via BlueZ on D-Bus, decodes the Ruuvi
manufacturer data, and publishes one `Measurement` per advertisement to every
configured sink: MQTT, Google Cloud IoT, Cloud Pub/Sub or stdout. Each sink
can sit behind a rate limiter that keeps only the latest reading per sensor
and sends it on a jittered timer. A companion service, the metrics pusher,
receives those publications from Pub/Sub and turns each reading into a Cloud
Monitoring time series.

This project models the core of that system as pure functions over immutable
datatypes and proves properties about them:

- `wire.dfy` (module `Wire`): fixed-width integers, and the big-endian layout
  that `binary.Read` uses.
- `ruuvi.dfy` (module `Ruuvi`): the RAWv1 and RAWv2 decoders. Each has an
  encoder as its partner, with round-trip lemmas and the package's test
  vectors.
- `backoff.dfy` (module `Backoff`): exponential backoff with downward jitter.
- `blelistener.dfy` (module `BleListener`):
  - the advertisement cache as a state machine over D-Bus signals and
    discovery events;
  - the first-error-wins error slot;
  - the cache clear when discovery stops;
  - the StartDiscovery retry loop.
- `ratelimiter.dfy` (module `RateLimiter`): the per-sink rate limiter as a
  state machine. It covers pass-through without a limit, coalescing per
  sensor MAC, deadline delivery and the ±20% wait.
- `config_format.dfy` and `config.dfy` (modules `ConfigFormat` and `Config`):
  - sink validation, defaults and naming;
  - the order in which sinks are assembled;
  - the default stdout sink.
- `measurement.dfy` (module `Api`): the `Measurement` message, where NaN marks
  a missing reading.
- `gbcsdpd.dfy` (module `Daemon`): the daemon's loop. It flattens a decoded
  payload into a measurement (NaN for missing readings, colon-separated MAC
  text) and fans it out to every sink in order.
- `metricspusher.dfy` (module `MetricsPusher`): the attribute checks on a
  Pub/Sub message, and the assembly of time series.

Library results the code depends on are inputs to the model:

- `net.ParseMAC` is a function parameter.
- The outcome of `time.ParseDuration` comes with the duration text.
- File, certificate, key and credential loading are function fields of an
  `Environment`.
- The D-Bus `GetAll` reply is a `Result`.
- The protobuf decoder of the metrics pusher is a function parameter.
- Random draws are parameters.

## Model

| member | source | states |
|---|---|---|
| Wire.AsUint16 | pkg/ruuviparse/ruuviparse.go:82-84 | every int16 field value has an unsigned word whose two's-complement reading is that value |
| Wire.PutUint16BE | pkg/ruuviparse/ruuviparse.go:92-93 | the two bytes emitted for a word read back, big-endian, as that word |
| Wire.PutInt16BE | pkg/ruuviparse/ruuviparse.go:92-93 | the two bytes emitted for a signed value read back, big-endian, as that value |
| Wire.Uint16RoundTrip | pkg/ruuviparse/ruuviparse.go:92-93 | reading two bytes as a big-endian word and writing it again gives the same two bytes |
| Wire.Int16RoundTrip | pkg/ruuviparse/ruuviparse.go:154-155 | the same round trip for signed big-endian words |
| Ruuvi.EncodeRawV1 | pkg/ruuviparse/ruuviparse.go:76-87 | the wire image of the RAWv1 struct is exactly binary.Size of it, 14 bytes |
| Ruuvi.RawV1LayoutRoundTrip | pkg/ruuviparse/ruuviparse.go:76-96 | decoding the wire image of any RAWv1 struct gives that struct back |
| Ruuvi.RawV1BytesRoundTrip | pkg/ruuviparse/ruuviparse.go:87-96 | every 14-byte payload is the wire image of the struct it decodes to, so no bytes are ignored |
| Ruuvi.ParseRAWv1 | pkg/ruuviparse/ruuviparse.go:75-117 | succeeds exactly on 14-byte input, otherwise fails with the expected length; the result is tagged RAWv1, has no RAWv2-only fields, and carries the scaled readings |
| Ruuvi.RAWv1Fields | pkg/ruuviparse/ruuviparse.go:98-117 | temperature is absent exactly when the fraction byte is 100 or more; otherwise it is sign-magnitude whole.fraction; humidity/2, (pressure+50000)/100 and acceleration and battery in thousandths are always present |
| Ruuvi.EncodeRawV2 | pkg/ruuviparse/ruuviparse.go:136-149 | the wire image of the RAWv2 struct is exactly binary.Size of it, 24 bytes |
| Ruuvi.RawV2LayoutRoundTrip | pkg/ruuviparse/ruuviparse.go:136-158 | decoding the wire image of any RAWv2 struct gives that struct back |
| Ruuvi.RawV2BytesRoundTrip | pkg/ruuviparse/ruuviparse.go:149-158 | every 24-byte payload is the wire image of the struct it decodes to |
| Ruuvi.NilInv | pkg/ruuviparse/ruuviparse.go:120-132 | a reading or counter is absent exactly when the raw value equals the sentinel, and otherwise is the given value |
| Ruuvi.ParseRAWv2 | pkg/ruuviparse/ruuviparse.go:135-184 | succeeds exactly on 24-byte input, otherwise fails with the expected length; the result is tagged RAWv2 |
| Ruuvi.RAWv2Sentinels | pkg/ruuviparse/ruuviparse.go:161-183 | each field is absent exactly at its own sentinel: -32768 for temperature and acceleration, 65535 for humidity, pressure and sequence, 2047 for battery, 31 for tx power, 255 for movement, and the all-ones MAC |
| Ruuvi.RAWv2Values | pkg/ruuviparse/ruuviparse.go:169-182 | the scale of each present field: temperature ×0.005, humidity ×0.0025, (pressure+50000)/100, acceleration /1000, the counters unchanged, and the MAC bytes |
| Ruuvi.RAWv2PowerWord | pkg/ruuviparse/ruuviparse.go:166-180 | the battery reading comes from the high 11 bits of the power word ((b+1600)/1000 V) and the tx power from the low 5 bits (2t-40 dBm), each independent of the other |
| Ruuvi.ParseAsWritten | pkg/ruuviparse/ruuviparse.go:50-70 | as written, format 3 returns the bare RAWv1 result, dropping its wrapped error, while format 5 wraps its error with the format |
| Ruuvi.ParseAsWrittenDropsRAWv1Context | pkg/ruuviparse/ruuviparse.go:55-60 | on input [3, 0, 0] the code as written returns the bare length error, while the corrected Parse reports it inside the RAWv1 context |
| Ruuvi.Parse | pkg/ruuviparse/ruuviparse.go:50-69 | empty input and any first byte other than 3 or 5 are errors that name the byte; it succeeds exactly on a 14-byte format-3 or 24-byte format-5 payload, tags the format accordingly, and wraps each length error in its format |
| Ruuvi.ParseAgreesWithAsWritten | pkg/ruuviparse/ruuviparse.go:55-66 | the correction changes only the error value: both versions succeed on the same inputs, with the same data |
| Ruuvi.ParseRAWv2Covers | pkg/ruuviparse/ruuviparse.go:61-65 | a well-formed format-5 payload decodes as the encoding of its own struct |
| Ruuvi.ParseRAWv1Covers | pkg/ruuviparse/ruuviparse.go:55-60 | a well-formed format-3 payload decodes as the encoding of its own struct |
| Ruuvi.RejectsEmptyAndUnknownFormat | pkg/ruuviparse/ruuviparse_test.go:172-189 | the empty payload and the payload 53 7F FF are rejected |
| Ruuvi.ValidVectorReads | pkg/ruuviparse/ruuviparse_test.go:83-94 | the bytes of the "RAWv2 valid" vector read as the raw struct with temperature 4860, humidity 21396, pressure 50044, power word 44086, movement 66 and sequence 205 |
| Ruuvi.ValidVectorScales | pkg/ruuviparse/ruuviparse_test.go:83-94 | that raw struct scales to 24.3 C, 53.49 %, 1000.44 hPa, acceleration (0.004, -0.004, 1.036), 2.977 V and 4 dBm |
| Ruuvi.RAWv2ValidVector | pkg/ruuviparse/ruuviparse_test.go:83-94 | Parse of the "RAWv2 valid" vector yields exactly the expected readings, counters and MAC |
| Ruuvi.RAWv2InvalidVector | pkg/ruuviparse/ruuviparse_test.go:119-122 | Parse of the "RAWv2 invalid" vector yields a RAWv2 result with every field absent |
| Ruuvi.RAWv1ValidVector | pkg/ruuviparse/ruuviparse_test.go:123-130 | Parse of the "RAWv1 valid" vector yields 26.3 C, 20.5 %, 1027.66 hPa, acceleration (-1.0, -1.726, 0.714) and 2.899 V |
| Ruuvi.RAWv2MaximumVector | pkg/ruuviparse/ruuviparse_test.go:95-106 | Parse of the "RAWv2 maximum" vector yields 163.835 C, 163.835 %, 1155.34 hPa, acceleration 32.767 on each axis, 3.646 V, 20 dBm, movement 254, sequence 65534 and the MAC |
| Ruuvi.RAWv2MinimumVector | pkg/ruuviparse/ruuviparse_test.go:107-118 | Parse of the "RAWv2 minimum" vector yields -163.835 C, 0 %, 500 hPa, acceleration -32.767 on each axis, 1.6 V, -40 dBm, movement 0, sequence 0 and the MAC |
| Ruuvi.RAWv1MaximumVector | pkg/ruuviparse/ruuviparse_test.go:131-138 | Parse of the "RAWv1 maximum" vector yields 127.99 C, 127.5 %, 1155.35 hPa, acceleration 32.767 on each axis and 65.535 V |
| Ruuvi.RAWv1MinimumVector | pkg/ruuviparse/ruuviparse_test.go:139-146 | Parse of the "RAWv1 minimum" vector yields -127.99 C, 0 %, 500 hPa, acceleration -32.767 on each axis and 0 V |
| Backoff.PowNonNegative | pkg/backoff/backoff.go:28 | a non-negative factor raised to any power is non-negative |
| Backoff.Trunc | pkg/backoff/backoff.go:30 | the float-to-Duration conversion truncates toward zero: within one of the real value, never past it |
| Backoff.Exponential | pkg/backoff/backoff.go:24-31 | no wait before the first try; afterwards the wait never exceeds maxDelay, is maxDelay once the jittered backoff reaches it, and is otherwise the truncated jittered backoff |
| Backoff.JitterBounds | pkg/backoff/backoff.go:28-29 | for a draw in [0, 1) the jitter keeps more than half, and at most all, of a positive backoff |
| Backoff.ExponentialNonNegative | pkg/backoff/backoff.go:24-31 | with non-negative delays, factor and draw, the wait is never negative |
| BleListener.ParseDeviceMAC | pkg/blelistener/blelistener.go:79-90 | a variant that is not a string gives no address; a string gives exactly what MAC parsing gives |
| BleListener.ParseManufacturerData | pkg/blelistener/blelistener.go:92-106 | fails unless the variant is a dictionary, and fails exactly when some entry is not a byte array; on success the keys are the dictionary's and each value is that entry's bytes |
| BleListener.ParseAdvertisementFromProperties | pkg/blelistener/blelistener.go:108-134 | a missing Address is an error; an unparsable Address gives the zero advertisement and no error; otherwise the address, plus the parsed manufacturer data if the property is present (an error if it does not parse) or else an empty map |
| BleListener.PublishAdvertisement | pkg/blelistener/blelistener.go:154-161 | the advertisement always replaces the cache entry, and is emitted exactly when it has manufacturer data |
| BleListener.SetError | pkg/blelistener/blelistener.go:163-172 | afterwards an error is set: the earlier one if there was one, otherwise the new one; cache and output are unchanged |
| BleListener.HandlePropertiesChanged | pkg/blelistener/blelistener.go:174-212 | a handler error leaves the listener unchanged; the error slot is never touched; a signal for an interface other than Device1 does nothing |
| BleListener.HandleInterfacesAdded | pkg/blelistener/blelistener.go:214-225 | without a Device1 interface nothing happens; otherwise the parsed advertisement is published under the object path, or the parse error is returned with the listener unchanged |
| BleListener.HandleInterfacesRemoved | pkg/blelistener/blelistener.go:286-288 | the removed path leaves the cache and every other entry stays as it was; output and error are unchanged |
| BleListener.Step | pkg/blelistener/blelistener.go:313-334 | once an error is set nothing changes any more; a poll that reports discovery stopped empties the cache and changes nothing else; a poll that reports discovery still on changes nothing |
| BleListener.RunAfterError | pkg/blelistener/blelistener.go:163-172 | once an error is set (the connection closed, the discovery loop returned), any further events leave the listener exactly as it is |
| BleListener.RunStopsAtFirstError | pkg/blelistener/blelistener.go:312-328 | from a listener without an error, the first event that reports an error ends the run: the result equals the run cut off after that event, and its error is that event's |
| BleListener.RunKeepsFirstError | pkg/blelistener/blelistener.go:163-168 | over any event sequence the error slot holds its own error if it had one, else the first error any event reported |
| BleListener.StepEmitsOnlyWithData | pkg/blelistener/blelistener.go:154-161 | one event appends at most one advertisement to the output, and that one has manufacturer data |
| BleListener.RunEmitsOnlyWithData | pkg/blelistener/blelistener.go:154-161 | over any event sequence the output only grows, and only by advertisements that carry manufacturer data |
| BleListener.CacheMissPublishes | pkg/blelistener/blelistener.go:182-210 | on a cache miss the fetched device is published, with the changed manufacturer data applied if there is any |
| BleListener.CacheHitManufacturerDataRepublishes | pkg/blelistener/blelistener.go:195-210 | on a cache hit a changed ManufacturerData that parses re-publishes the cached advertisement with that manufacturer data, and reports no error |
| BleListener.CacheMissFetchFailureReported | pkg/blelistener/blelistener.go:182-186 | on a cache miss a failing GetAll is reported as GetAll failure for that path, with the listener unchanged |
| BleListener.CacheMissBadPropertiesReported | pkg/blelistener/blelistener.go:187-191 | on a cache miss fetched properties that do not parse are reported with their parse error, with the listener unchanged |
| BleListener.BadChangedManufacturerDataReported | pkg/blelistener/blelistener.go:195-199 | once a base advertisement is at hand, a changed ManufacturerData that does not parse is reported with its parse error, with the listener unchanged |
| BleListener.CacheHitRSSIRepublishes | pkg/blelistener/blelistener.go:204-210 | on a cache hit an RSSI change alone re-publishes the cached advertisement |
| BleListener.CacheHitOtherChangeIgnored | pkg/blelistener/blelistener.go:178-211 | on a cache hit with neither ManufacturerData nor RSSI changed, nothing happens |
| BleListener.CacheHitIgnoresFetch | pkg/blelistener/blelistener.go:180-193 | a cache hit never consults GetAll: the outcome is the same whatever the fetch returns |
| BleListener.RemovalForcesRefetch | pkg/blelistener/blelistener.go:286-288 | after a device is removed its next change fetches again, so a failing fetch is reported as GetAll failure |
| BleListener.UnparsableAddressCachedNotEmitted | pkg/blelistener/blelistener.go:116-119 | a device whose Address is not a MAC is cached as the zero advertisement and nothing is emitted |
| BleListener.DiscoveryStopClearsCache | pkg/blelistener/blelistener.go:323-334 | after discovery stops every device is fetched anew on its next change |
| BleListener.CallsMade | pkg/blelistener/blelistener.go:297-307 | from try k at most 6, the loop makes more than k and at most 7 calls in all |
| BleListener.StartDiscoveryWithRetry | pkg/blelistener/blelistener.go:296-309 | between 1 and 7 calls; no wait before the first and the backoff wait before each later one; the result is the last call's; every earlier call failed with "Resource Not Ready"; it stops on success, on another error, or after the seventh call |
| BleListener.StartDiscoveryCallCount | pkg/blelistener/blelistener.go:296-309 | the loop makes exactly CallsMade calls |
| BleListener.CallsMadeCharacterised | pkg/blelistener/blelistener.go:297-307 | CallsMade is the unique count at which the stop condition first holds |
| RateLimiter.NextWaitDuration | pkg/sinks/ratelimiter.go:41-45 | for a non-negative Max1In and a draw in [0, 1), the wait is Max1In moved by (draw·0.4 − 0.2)·Max1In, truncated to whole nanoseconds, and is never negative |
| RateLimiter.NextWaitBounds | pkg/sinks/ratelimiter.go:41-45 | for a draw in [0, 1) the wait before truncation lies in [0.8·Max1In, 1.2·Max1In), and the wait is its truncation |
| RateLimiter.NewRateLimiter | pkg/sinks/ratelimiter.go:69-79 | a new limiter holds nothing; a timer is armed exactly when there is a rate limit, with the jittered wait |
| RateLimiter.Publish | pkg/sinks/ratelimiter.go:33-39 | without a rate limit the measurement is delivered at once as a batch of one; with one it is only queued |
| RateLimiter.Receive | pkg/sinks/ratelimiter.go:52-53 | the received measurement replaces whatever was pending for its sensor MAC; other sensors are untouched |
| RateLimiter.Deadline | pkg/sinks/ratelimiter.go:54-63 | the pending set is delivered as one batch when non-empty, then cleared, and the timer is re-armed |
| RateLimiter.Step | pkg/sinks/ratelimiter.go:47-65 | one Publish call or one turn of the limiter loop: the rate limit never changes, deliveries only grow, by at most one batch, and receiving a measurement delivers nothing |
| RateLimiter.NewRateLimiterValid | pkg/sinks/ratelimiter.go:69-79 | a new limiter satisfies the invariant: pending and delivered batches keyed by sensor MAC, no empty batch delivered, a timer exactly under a rate limit, nothing queued or pending without one |
| RateLimiter.StepValid | pkg/sinks/ratelimiter.go:33-66 | every event preserves that invariant |
| RateLimiter.RunValid | pkg/sinks/ratelimiter.go:33-66 | every event sequence preserves that invariant |
| RateLimiter.PassThrough | pkg/sinks/ratelimiter.go:33-39 | without a rate limit, publishing measurements delivers one single-entry batch per measurement, in order |
| RateLimiter.RateLimitedPublishQueues | pkg/sinks/ratelimiter.go:33-36 | with a rate limit, publishing only queues, in order; nothing is delivered |
| RateLimiter.LastForSpec | pkg/sinks/ratelimiter.go:52-53 | the last reading for a MAC is absent exactly when that MAC never occurs; otherwise it is a reading from that MAC with none after it |
| RateLimiter.LastForPresent | pkg/sinks/ratelimiter.go:52-53 | a MAC has a last reading exactly when it occurs at all |
| RateLimiter.DrainCoalesces | pkg/sinks/ratelimiter.go:50-53 | draining the queue empties it, adds exactly the queued MACs to the pending keys, keeps for each of them only its last queued measurement, and leaves other sensors, deliveries and the timer alone |
| RateLimiter.DrainThenDeadline | pkg/sinks/ratelimiter.go:50-63 | draining a queue and then a deadline delivers exactly one batch: one entry per queued MAC, each that MAC's last measurement |
| RateLimiter.BatchList | pkg/sinks/ratelimiter.go:55-60 | the list handed to the callback has one entry per key of the pending set, each key once, with that key's measurement |
| Config.Utf8Length | pkg/config/config.go:160 | Go's byte length of a string is at least its character count and at most four times it |
| Config.Decimal | pkg/config/config.go:155 | the decimal text of a sink index is a non-empty run of digits |
| Config.DecimalRoundTrip | pkg/config/config.go:155 | reading the decimal text back gives the index |
| Config.ClientIdAlwaysMatches | pkg/config/config.go:101 | the unanchored client-ID pattern matches every string, so the check at lines 165-167 never fails |
| Config.SinkName | pkg/config/config.go:154-158 | a given name is kept, and an empty one becomes unnamed-kind-sink-index |
| Config.UnnamedSinkNamesDistinct | pkg/config/config.go:154-158 | unnamed sinks of one kind at different positions get different names |
| Config.ParseRateLimit | pkg/config/config.go:111-125 | no table means no limit; a table is accepted exactly when its duration parses and is at least one second, and then the limit is that duration |
| Config.ParseTLSConfig | pkg/config/config.go:127-150 | TLS 1.2 minimum, skip-verify copied, the server name is the given one or the default; without a CA file it always succeeds, with no extra roots |
| Config.ParseFormat | pkg/config/config.go:176-182 | BINARY when absent or "BINARY", JSON for "JSON", an error for anything else |
| Config.ParseMQTTSink | pkg/config/config.go:152-209 | a bad topic is refused; on success the topic, credentials and server name satisfy the checks, the port defaults to 8883, and TLS is configured exactly unless disabled |
| Config.MQTTTopicRules | pkg/config/config.go:160-162 | a topic is refused exactly when it is empty, longer than 65535 bytes, starts with '$', or contains '+', '#' or NUL |
| Config.MQTTSinkAccepted | pkg/config/config.go:160-209 | an MQTT sink is accepted exactly when topic, lengths, format, rate limit, server name and (if enabled) TLS all pass; the client ID never refuses one |
| Config.ParseGCPSink | pkg/config/config.go:211-273 | on success project, region, registry and device match their patterns and the key path is non-empty and loaded; the server defaults to mqtt.googleapis.com and the port to 8883; the project is checked first and an empty key path is refused |
| Config.ParseCloudPubSubSink | pkg/config/config.go:275-323 | on success device and topic match the pattern, credentials come from the file or the default, and the project is detected exactly when absent and otherwise must match the project pattern |
| Config.ParseStdoutSink | pkg/config/config.go:325-338 | succeeds exactly when the rate limit does, with the derived name |
| Config.ParseEach | pkg/config/config.go:365-371 | succeeds exactly when every entry parses at its own index; then the values are the entries' in order; otherwise the error is the first failing entry's |
| Config.MQTTSinks | pkg/config/config.go:365-371 | the MQTT table succeeds exactly when every entry does, giving one MQTT sink per entry, in order |
| Config.GCPSinks | pkg/config/config.go:372-378 | the GCP table, likewise |
| Config.CloudPubSubSinks | pkg/config/config.go:379-385 | the Cloud Pub/Sub table, likewise |
| Config.StdoutSinks | pkg/config/config.go:386-392 | the stdout table, likewise |
| Config.BuildConfig | pkg/config/config.go:359-400 | on success the adapter is the given one or hci0, and there is at least one sink |
| Config.Read | pkg/config/config.go:342-401 | an unreadable or unparsable file is an error; otherwise the result, if any, has at least one sink |
| Config.ReadEmpty | pkg/config/config.go:344-398 | without a config file the result is adapter hci0 and one stdout sink named default-sink with no rate limit |
| Config.BuildConfigAccepted | pkg/config/config.go:365-392 | a configuration is accepted exactly when every sink of every kind parses |
| Config.ParseSinksParts | pkg/config/config.go:365-392 | the sink list is the MQTT, GCP, Cloud Pub/Sub and stdout lists concatenated in that order |
| Config.BuildConfigSinkCount | pkg/config/config.go:394-398 | without sinks in the file there is exactly the default stdout sink; otherwise one sink per table entry |
| Config.BuildConfigUsesParsed | pkg/config/config.go:365-398 | with sinks in the file, the sinks are exactly the parsed ones |
| Config.BuildConfigMQTTFirst | pkg/config/config.go:365-371 | the MQTT sinks come first, in file order |
| Config.BuildConfigGCPSecond | pkg/config/config.go:372-378 | the GCP sinks follow the MQTT sinks, in file order |
| Config.BuildConfigCloudPubSubThird | pkg/config/config.go:379-385 | the Cloud Pub/Sub sinks follow the GCP sinks, in file order |
| Config.BuildConfigStdoutLast | pkg/config/config.go:386-392 | the stdout sinks come last, in file order |
| Daemon.NilToNaN | cmd/gbcsdpd/main.go:33-38 | a reading becomes NaN exactly when absent, and is otherwise kept |
| Daemon.NaNToNil | cmd/gbcsdpd/main.go:33-38 | reading back: NaN is exactly the absent reading |
| Daemon.NilToNaNRoundTrip | cmd/gbcsdpd/main.go:33-38 | no reading is lost by the NaN encoding |
| Daemon.MacToString | cmd/gbcsdpd/main.go:80 | the address text is empty exactly for the empty address, and otherwise 3n-1 characters long |
| Daemon.HexByteInjective | cmd/gbcsdpd/main.go:80 | different bytes print as different hex pairs |
| Daemon.MacToStringInjective | cmd/gbcsdpd/main.go:80 | different addresses print differently, so the MAC text identifies the sensor |
| Daemon.MacToStringExample | cmd/gbcsdpd/main.go:80 | the test MAC CB:B8:33:4C:88:4F prints as cb:b8:33:4c:88:4f |
| Daemon.ToMeasurement | cmd/gbcsdpd/main.go:79-85 | the measurement carries the address text and the four readings, each recoverable from the NaN encoding |
| Daemon.HandleAdvertisementAsWritten | cmd/gbcsdpd/main.go:70-85 | as written, on the decoder as written: skipped without Ruuvi data; a crash exactly when the Ruuvi data does not decode, carrying the decoder's own error; otherwise publishes the flattened measurement |
| Daemon.HandleAdvertisement | cmd/gbcsdpd/main.go:70-88 | corrected: never a crash; skipped without Ruuvi data; logged and skipped exactly when the data does not decode; otherwise publishes the flattened measurement |
| Daemon.HandleAdvertisementAgrees | cmd/gbcsdpd/main.go:70-88 | the correction agrees with the code on every advertisement that does not crash it |
| Daemon.AsWrittenCrashCauseUnwrapped | cmd/gbcsdpd/main.go:75-85 | Ruuvi data [3, 0, 0] crashes the loop as written with the bare RAWv1 length error, and is skipped with the error wrapped in its format when corrected |
| Daemon.AsWrittenCrashesOnUndecodable | cmd/gbcsdpd/main.go:75-85 | an advertisement whose Ruuvi data is the single byte 0x53 crashes the loop as written, and is skipped when corrected |
| Daemon.PublishToSinks | cmd/gbcsdpd/main.go:86-88 | every sink receives the measurement, in list order |
| Daemon.Serve | cmd/gbcsdpd/main.go:70-89 | the loop keeps one state per configured sink |
| Daemon.ServeFansOut | cmd/gbcsdpd/main.go:70-89 | each sink ends up as if it alone had been sent the published measurements, in advertisement order |
| MetricsPusher.Attribute | cmd/metricspusher/main.go:61-64 | a missing attribute reads as the empty string |
| MetricsPusher.ParsePubsubMessage | cmd/metricspusher/main.go:56-82 | missing device attributes are refused first, then any subFolder other than v1, then a payload that does not decode; success exactly otherwise, copying the attributes, publish time and measurements |
| MetricsPusher.ParsesTestMessage | cmd/metricspusher/main_test.go:29-87 | the attributes of the repository's test message are accepted and give testing-device, europe-west1 and some-project-123123 |
| MetricsPusher.AppendMeasurementTimeSeries | cmd/metricspusher/main.go:84-110 | a NaN reading adds nothing; any other reading appends one series of type prefix+dimension with the resource, end time and value |
| MetricsPusher.AppendAllSpec | cmd/metricspusher/main.go:164-167 | appending a list of readings keeps what was there and adds one series per non-NaN reading, in order |
| MetricsPusher.MeasurementSeriesAppendsDimensions | cmd/metricspusher/main.go:155-167 | the series of one measurement are temperature, humidity, pressure and battery, appended in that order under the generic_node resource |
| MetricsPusher.MeasurementSeriesSpec | cmd/metricspusher/main.go:155-167 | one measurement adds one series per reading that is not NaN, after the existing ones |
| MetricsPusher.AllSeriesBound | cmd/metricspusher/main.go:152-168 | no measurement contributes more than four series |
| MetricsPusher.PresentBound | cmd/metricspusher/main.go:164-167 | the non-NaN readings are no more than the readings |
| MetricsPusher.BuildTimeSeries | cmd/metricspusher/main.go:152-168 | the loop builds exactly the series of all measurements in order, at most four per measurement |

## Left out

- D-Bus itself is not modelled: connecting, matching signals, `GetManagedObjects`, and decoding signal bodies (whose failures are only logged). The handlers take already-decoded signals. Closing the connection in `setError` is modelled only by its effect: once an error is set, no event is handled any more.
- Signals already buffered in the signal channel (up to 10) when `setError` closes the connection may still be handled by the Go loop; the model handles no event after an error.
- Error texts are not modelled. The `fmt.Errorf` messages, with their sink names, URLs and wrapping prefixes (for example pkg/config/config.go:161-171 and 348-351), are abstracted to the `Ruuvi.ParseError`, `Config.SinkProblem`, `Config.ConfigError`, `BleListener.HandlerError` and `BleListener.ListenerError` datatypes, which keep the kind of failure and the offending value.
- `net.ParseMAC` is a function parameter, not a definition.
- The `GetAll` reply for a device is an input `Result`, not a call.
- Concurrency is not modelled: goroutines, channels, the mutex, `time.Sleep`, `time.After` and the four-minute discovery poll. The listener and the rate limiter are state machines driven by explicit event sequences.
- Readings are exact reals, not float32, so float32 rounding is not modelled. The Ruuvi vectors hold exactly, where the package tests allow 0.0001.
- Backoff.Exponential and RateLimiter.NextWaitDuration compute in exact reals where Go uses float64 (pkg/backoff/backoff.go:28-30, pkg/sinks/ratelimiter.go:42-44), so float64 rounding is not modelled and the truncated Duration can differ from Go's by a nanosecond.
- `rand.Float64` draws are parameters.
- Reading files, PEM/x509 certificate pools, RSA keys and Google credentials is not modelled. Their outcomes are fields of `Config.Environment`.
- `time.ParseDuration` is not modelled. Its outcome is carried by `ConfigFormat.DurationText`.
- TOML decoding of the config file is not modelled. The model starts from the decoded `ConfigFormat.FConfig`.
- In pkg/config/config_format.go the sink tables have no Cloud Pub/Sub entry, although config.go reads one. The model follows config.go and includes it.
- pkg/sinks/sinks.go `NewSink` has no Cloud Pub/Sub case. The daemon would stop at sink creation for such a sink; sink creation (cmd/gbcsdpd/main.go:56-63) is not modelled.
- The sink adapters are not modelled: MQTT, GCP, Pub/Sub and stdout clients, and JSON/proto serialisation. A sink is represented by its rate limiter and the batches it delivers.
- The metrics pusher's HTTP handler is not modelled: method check, body read, status codes, the monitoring client and the INVALID_ARGUMENT case. JSON decoding of the push envelope is not modelled either; the model starts from the decoded message, and proto decoding is a function parameter.
- RateLimiter.BatchList: Go's map iteration order is unspecified, so the contract states the list's contents, not its order.
- StartDiscoveryWithRetry: the loop makes at most seven calls (`retryNum > 5` stops after try 6); the model follows this count.
- `NewAdvListener` is not modelled: checking that the adapter exists and starting the goroutines.

## Findings

| source | as written | input that shows it | evidently intended | confidence | as-written member | corrected member |
|---|---|---|---|---|---|---|
| pkg/ruuviparse/ruuviparse.go:55-60 | the RAWv1 branch builds a wrapped error, then returns a fresh `parseRAWv1(data)`, discarding it | manufacturer data [3, 0, 0]: the error lacks the "failed to parse data in RAWv1 format" context that RAWv2 errors carry | return the wrapped error, as the RAWv2 branch does | not executed | Ruuvi.ParseAsWritten (shown by Ruuvi.ParseAsWrittenDropsRAWv1Context) | Ruuvi.Parse |
| cmd/gbcsdpd/main.go:75-85 | after a decode error is logged, the fields of the nil `ruuviData` are read, a nil dereference that stops the daemon | an advertisement whose Ruuvi manufacturer data (id 0x0499) is the single byte 0x53 | log the error and skip the advertisement | not executed | Daemon.HandleAdvertisementAsWritten (shown by Daemon.AsWrittenCrashesOnUndecodable) | Daemon.HandleAdvertisement |
