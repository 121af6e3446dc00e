/** Configuration validation and defaulting (pkg/config/config.go). File
    reads, PEM/x509/RSA/Google-credential parsing and `time.ParseDuration`
    are external: their outcomes arrive through `Environment` and
    `DurationText`. The regular expressions are modelled by what an
    unanchored `MatchString` accepts. */
module Config {
  import opened Wrappers
  import opened Backoff
  import opened ConfigFormat

  // ---------------------------------------------------------------------
  // Parsed configuration

  datatype RateLimit = RateLimit(max1In: Duration)

  datatype PublicationFormat = BINARY | JSON

  /** Handles for material loaded outside the model. */
  datatype CertPool = CertPool(id: nat)
  datatype PrivateKey = PrivateKey(id: nat)
  datatype Credentials = Credentials(id: nat)

  /** `tls.VersionTLS12`, and the capacity of the LRU session cache. */
  const TLS12: nat := 0x0303
  const SessionCacheCapacity: nat := 10

  datatype TLSConfig = TLSConfig(
    minVersion: nat,
    sessionCacheCapacity: nat,
    insecureSkipVerify: bool,
    rootCAs: Option<CertPool>,
    serverName: string)

  datatype MQTTSink = MQTTSink(
    name: string, topic: string, clientId: string, userName: string, password: string,
    format: PublicationFormat,
    rateLimit: Option<RateLimit>,
    serverName: string,
    serverPort: int,
    tlsConfig: Option<TLSConfig>)

  datatype GCPSink = GCPSink(
    name: string, project: string, region: string, registry: string, device: string,
    key: PrivateKey,
    rateLimit: Option<RateLimit>,
    serverName: string,
    serverPort: int,
    tlsConfig: TLSConfig)

  /** `pubsub.DetectProjectID` or an explicit project. */
  datatype PubSubProject = DetectProjectId | ProjectId(id: string)

  datatype CloudPubSubSink = CloudPubSubSink(
    name: string, project: PubSubProject, topic: string, device: string,
    rateLimit: Option<RateLimit>,
    creds: Credentials)

  datatype StdoutSink = StdoutSink(name: string, rateLimit: Option<RateLimit>)

  /** The Go `Sink` interface values, as a tagged variant. */
  datatype Sink =
    | MQTT(mqtt: MQTTSink)
    | GCP(gcp: GCPSink)
    | CloudPubSub(pubsub: CloudPubSubSink)
    | Stdout(stdout: StdoutSink)

  datatype Config = Config(adapter: string, sinks: seq<Sink>)

  // ---------------------------------------------------------------------
  // External material

  datatype CertLoad = Certs(pool: CertPool) | CertFileUnreadable(reason: string) | NoCertsInFile
  datatype KeyLoad = Key(key: PrivateKey) | KeyFileUnreadable(reason: string) | KeyNotPEM(reason: string)
  datatype CredsLoad = Creds(creds: Credentials) | CredsFileUnreadable(reason: string) | CredsNotJSON(reason: string)

  /** The outcomes of the file reads and library parsers, given the
      directory of the configuration file and the path as written. */
  datatype Environment = Environment(
    caCerts: (string, string) -> CertLoad,
    privateKey: (string, string) -> KeyLoad,
    credentialsFile: (string, string) -> CredsLoad,
    defaultCredentials: Result<Credentials, string>)

  // ---------------------------------------------------------------------
  // Errors

  datatype RateLimitError = DurationUnparsable(text: string) | ShorterThanOneSecond(max1In: Duration)

  datatype SinkProblem =
    | TopicInvalid(topic: string)
    | ClientIdInvalid(clientId: string)
    | CredentialTooLong
    | FormatInvalid(given: string)
    | BadRateLimit(cause: RateLimitError)
    | ServerNameRequired
    | CACertsUnreadable(path: string, reason: string)
    | NoValidCACerts(path: string)
    | ProjectInvalid(given: string)
    | RegionInvalid(given: string)
    | RegistryInvalid(given: string)
    | DeviceInvalid(given: string)
    | KeyPathMissing
    | KeyUnreadable(path: string, reason: string)
    | KeyUnparsable(path: string, reason: string)
    | PubSubTopicInvalid(given: string)
    | NoDefaultCredentials(reason: string)
    | CredsUnreadable(path: string, reason: string)
    | CredsUnparsable(path: string, reason: string)

  datatype SinkKind = MQTTKind | GCPKind | CloudPubSubKind | StdoutKind

  datatype ConfigError =
    | ConfigFileError(reason: string)
    | SinkError(kind: SinkKind, problem: SinkProblem)

  // ---------------------------------------------------------------------
  // Text helpers

  /** Number of bytes of the UTF-8 encoding: Go's `len` of a string. */
  function Utf8Length(s: string): (n: nat)
    ensures n >= |s|
    ensures n <= 4 * |s|
  {
    if |s| == 0 then 0
    else
      var c := s[0] as int;
      (if c < 0x80 then 1 else if c < 0x800 then 2 else if c < 0x1_0000 then 3 else 4)
        + Utf8Length(s[1..])
  }

  /** strings.ContainsAny. */
  predicate ContainsAny(s: string, chars: string) {
    exists i :: 0 <= i < |s| && s[i] in chars
  }

  predicate HasSubstringAt(s: string, sub: string, i: nat) {
    i + |sub| <= |s| && s[i..i + |sub|] == sub
  }

  predicate ContainsSubstring(s: string, sub: string) {
    exists i: nat :: i <= |s| && HasSubstringAt(s, sub, i)
  }

  function DigitChar(d: nat): char
    requires d < 10
  {
    "0123456789"[d]
  }

  function DigitValue(c: char): nat {
    if '0' <= c <= '9' then (c as int - '0' as int) else 0
  }

  /** `%d` of a non-negative int. */
  function Decimal(n: nat): (s: string)
    ensures |s| > 0
    ensures forall i :: 0 <= i < |s| ==> '0' <= s[i] <= '9'
    decreases n
  {
    if n < 10 then [DigitChar(n)] else Decimal(n / 10) + [DigitChar(n % 10)]
  }

  /** Reading a string of decimal digits back. */
  function DecimalValue(s: string): nat {
    if |s| == 0 then 0 else DecimalValue(s[..|s| - 1]) * 10 + DigitValue(s[|s| - 1])
  }

  lemma {:induction false} DecimalRoundTrip(n: nat)
    ensures DecimalValue(Decimal(n)) == n
    decreases n
  {
    if n >= 10 {
      var s := Decimal(n);
      assert s[..|s| - 1] == Decimal(n / 10);
      DecimalRoundTrip(n / 10);
    }
  }

  // ---------------------------------------------------------------------
  // Regular expressions, as unanchored `MatchString`

  predicate ProjectChar(c: char) { c == '-' || 'a' <= c <= 'z' || '0' <= c <= '9' }
  predicate Letter(c: char) { 'a' <= c <= 'z' || 'A' <= c <= 'Z' }
  predicate AlphaNum(c: char) { Letter(c) || '0' <= c <= '9' }
  predicate IdChar(c: char) { AlphaNum(c) || c in "-._+~%" }

  predicate ProjectWindow(s: string, i: nat) {
    i + 6 <= |s| && forall j :: i <= j < i + 6 ==> ProjectChar(s[j])
  }

  /** `[-a-z0-9]{6,30}` finds six project characters in a row somewhere. */
  predicate ProjectIdMatches(s: string) {
    exists i: nat :: i <= |s| && ProjectWindow(s, i)
  }

  predicate IdWindow(s: string, i: nat) {
    i + 3 <= |s| && Letter(s[i]) && IdChar(s[i + 1]) && IdChar(s[i + 2])
  }

  /** `[a-zA-Z][-a-zA-Z0-9._+~%]{2,254}` (registry, device and Pub/Sub topic
      IDs) finds a letter followed by two ID characters somewhere. */
  predicate ResourceIdMatches(s: string) {
    exists i: nat :: i <= |s| && IdWindow(s, i)
  }

  /** `us-central1|europe-west1|asia-east1`. */
  predicate RegionMatches(s: string) {
    ContainsSubstring(s, "us-central1") || ContainsSubstring(s, "europe-west1")
      || ContainsSubstring(s, "asia-east1")
  }

  predicate AlphaNumWindow(s: string, i: nat, n: nat) {
    i + n <= |s| && forall j :: i <= j < i + n ==> AlphaNum(s[j])
  }

  /** `[0-9a-zA-Z]{0,23}`: between 0 and 23 alphanumerics somewhere. */
  predicate ClientIdMatches(s: string) {
    exists i: nat, n: nat :: i <= |s| && n <= 23 && AlphaNumWindow(s, i, n)
  }

  /** The client-ID pattern is unanchored and accepts the empty match, so
      it accepts every string. */
  lemma ClientIdAlwaysMatches(s: string)
    ensures ClientIdMatches(s)
  {
    assert AlphaNumWindow(s, 0, 0);
  }

  // ---------------------------------------------------------------------
  // Sinks

  const DefaultPort: int := 8883
  const DefaultAdapter: string := "hci0"
  const DefaultGCPServer: string := "mqtt.googleapis.com"
  const DefaultSinkName: string := "default-sink"

  function KindLabel(kind: SinkKind): string {
    match kind
    case MQTTKind => "mqtt"
    case GCPKind => "gcp"
    case CloudPubSubKind => "cloud_pubsub"
    case StdoutKind => "stdout"
  }

  /** The name an unnamed sink gets: `unnamed-<kind>-sink-<index>`. */
  function UnnamedSinkName(kind: SinkKind, sinkId: nat): string {
    "unnamed-" + KindLabel(kind) + "-sink-" + Decimal(sinkId)
  }

  function SinkName(kind: SinkKind, sinkId: nat, given: string): (name: string)
    ensures given != "" ==> name == given
    ensures given == "" ==> name == UnnamedSinkName(kind, sinkId)
  {
    if given == "" then UnnamedSinkName(kind, sinkId) else given
  }

  /** Unnamed sinks of one kind get pairwise different names. */
  lemma UnnamedSinkNamesDistinct(kind: SinkKind, i: nat, j: nat)
    requires i != j
    ensures UnnamedSinkName(kind, i) != UnnamedSinkName(kind, j)
  {
    var prefix := "unnamed-" + KindLabel(kind) + "-sink-";
    if UnnamedSinkName(kind, i) == UnnamedSinkName(kind, j) {
      assert UnnamedSinkName(kind, i)[|prefix|..] == Decimal(i);
      assert UnnamedSinkName(kind, j)[|prefix|..] == Decimal(j);
      DecimalRoundTrip(i);
      DecimalRoundTrip(j);
    }
  }

  /** parseRateLimit: no table means no limit; a duration below one second
      is refused. */
  function ParseRateLimit(rateLimit: Option<FRateLimit>): (r: Result<Option<RateLimit>, RateLimitError>)
    ensures rateLimit.None? ==> r == Success(None)
    ensures r.Success? && rateLimit.Some? ==>
      r.value.Some? && rateLimit.value.max1In.parsed == Some(r.value.value.max1In) && r.value.value.max1In >= Second
    ensures rateLimit.Some? ==>
      (r.Success? <==> rateLimit.value.max1In.parsed.Some? && rateLimit.value.max1In.parsed.value >= Second)
  {
    match rateLimit
    case None => Success(None)
    case Some(rl) =>
      match rl.max1In.parsed
      case None => Failure(DurationUnparsable(rl.max1In.text))
      case Some(d) =>
        if d < Second then Failure(ShorterThanOneSecond(d)) else Success(Some(RateLimit(d)))
  }

  /** parseTLSConfig: TLS 1.2 minimum, an optional CA pool, and the server
      name inherited unless the table sets one. */
  function ParseTLSConfig(config: FTLSConfig, defaultServerName: string, basePath: string, env: Environment)
    : (r: Result<TLSConfig, SinkProblem>)
    ensures r.Success? ==> r.value.minVersion == TLS12 && r.value.insecureSkipVerify == config.skipVerify
    ensures r.Success? ==> r.value.serverName == config.serverName.GetOr(defaultServerName)
    ensures config.caCerts.None? ==> r.Success? && r.value.rootCAs.None?
  {
    var pool :- match config.caCerts
      case None => Success(None)
      case Some(path) =>
        match env.caCerts(basePath, path)
        case Certs(p) => Success(Some(p))
        case CertFileUnreadable(reason) => Failure(CACertsUnreadable(path, reason))
        case NoCertsInFile => Failure(NoValidCACerts(path));
    var serverName := if config.serverName.Some? then config.serverName.value else defaultServerName;
    Success(TLSConfig(TLS12, SessionCacheCapacity, config.skipVerify, pool, serverName))
  }

  /** The MQTT topic rule of section 4.7 of MQTT 3.1.1 as the code checks it. */
  predicate MQTTTopicRejected(topic: string) {
    Utf8Length(topic) < 1 || Utf8Length(topic) > 65535 || topic[0] == '$' || ContainsAny(topic, "+#\0")
  }

  function ParseFormat(format: Option<string>): (r: Result<PublicationFormat, SinkProblem>)
    ensures r == Success(BINARY) <==> format.None? || format == Some("BINARY")
    ensures r == Success(JSON) <==> format == Some("JSON")
    ensures r.Failure? <==> format.Some? && format.value != "BINARY" && format.value != "JSON"
  {
    if format.None? || format.value == "BINARY" then Success(BINARY)
    else if format.value == "JSON" then Success(JSON)
    else Failure(FormatInvalid(format.value))
  }

  /** parseMQTTSink: validation in the order of the code, then defaults. */
  function ParseMQTTSink(basePath: string, sinkId: nat, sink: FMQTTSink, env: Environment)
    : (r: Result<MQTTSink, SinkProblem>)
    ensures MQTTTopicRejected(sink.topic) ==> r == Failure(TopicInvalid(sink.topic))
    ensures r.Success? ==>
      && |sink.topic| > 0 && Utf8Length(sink.topic) <= 65535 && sink.topic[0] != '$'
      && (forall i :: 0 <= i < |sink.topic| ==> sink.topic[i] != '+' && sink.topic[i] != '#' && sink.topic[i] != '\0')
      && Utf8Length(sink.userName) <= 65535 && Utf8Length(sink.password) <= 65535
    ensures r.Success? ==>
      && ParseFormat(sink.format) == Success(r.value.format)
      && ParseRateLimit(sink.rateLimit) == Success(r.value.rateLimit)
      && (r.value.tlsConfig.Some? ==> r.value.tlsConfig.value.serverName == sink.tls.serverName.GetOr(sink.serverName))
    ensures r.Success? ==>
      && r.value.name == SinkName(MQTTKind, sinkId, sink.name)
      && r.value.topic == sink.topic && r.value.clientId == sink.clientId
      && r.value.userName == sink.userName && r.value.password == sink.password
      && r.value.serverName == sink.serverName && sink.serverName != ""
      && r.value.serverPort == sink.serverPort.GetOr(DefaultPort)
      && (r.value.tlsConfig.Some? <==> sink.enableTls != Some(false))
  {
    var name := SinkName(MQTTKind, sinkId, sink.name);
    if MQTTTopicRejected(sink.topic) then Failure(TopicInvalid(sink.topic))
    else if !ClientIdMatches(sink.clientId) then Failure(ClientIdInvalid(sink.clientId))
    else if Utf8Length(sink.userName) > 65535 || Utf8Length(sink.password) > 65535 then Failure(CredentialTooLong)
    else
      var format :- ParseFormat(sink.format);
      var rateLimit :- ParseRateLimit(sink.rateLimit).MapFailure(e => BadRateLimit(e));
      if |sink.serverName| == 0 then Failure(ServerNameRequired)
      else
        var port := if sink.serverPort.None? then DefaultPort else sink.serverPort.value;
        var tls :- if sink.enableTls.None? || sink.enableTls.value then
            match ParseTLSConfig(sink.tls, sink.serverName, basePath, env)
            case Success(t) => Success(Some(t))
            case Failure(e) => Failure(e)
          else Success(None);
        Success(MQTTSink(name, sink.topic, sink.clientId, sink.userName, sink.password,
                         format, rateLimit, sink.serverName, port, tls))
  }

  /** A topic is refused exactly for the four reasons the code lists. */
  lemma MQTTTopicRules(topic: string)
    ensures MQTTTopicRejected(topic) <==>
      || |topic| == 0
      || Utf8Length(topic) > 65535
      || topic[0] == '$'
      || (exists i :: 0 <= i < |topic| && (topic[i] == '+' || topic[i] == '#' || topic[i] == '\0'))
  {
  }

  /** Everything an MQTT sink can be refused for; the client ID is never
      among them. */
  lemma MQTTSinkAccepted(basePath: string, sinkId: nat, sink: FMQTTSink, env: Environment)
    ensures ParseMQTTSink(basePath, sinkId, sink, env).Success? <==>
      && !MQTTTopicRejected(sink.topic)
      && Utf8Length(sink.userName) <= 65535 && Utf8Length(sink.password) <= 65535
      && ParseFormat(sink.format).Success?
      && ParseRateLimit(sink.rateLimit).Success?
      && sink.serverName != ""
      && (sink.enableTls == Some(false) || ParseTLSConfig(sink.tls, sink.serverName, basePath, env).Success?)
  {
    ClientIdAlwaysMatches(sink.clientId);
  }

  /** parseGCPSink: pattern checks, the key, then server defaults and TLS. */
  function ParseGCPSink(basePath: string, sinkId: nat, sink: FGCPSink, env: Environment)
    : (r: Result<GCPSink, SinkProblem>)
    ensures r.Success? ==>
      && r.value.name == SinkName(GCPKind, sinkId, sink.name)
      && ProjectIdMatches(sink.project) && RegionMatches(sink.region)
      && ResourceIdMatches(sink.registry) && ResourceIdMatches(sink.device)
      && sink.key != "" && env.privateKey(basePath, sink.key) == Key(r.value.key)
      && r.value.serverName == sink.serverName.GetOr(DefaultGCPServer)
      && r.value.serverPort == sink.serverPort.GetOr(DefaultPort)
      && r.value.tlsConfig.serverName == sink.tls.serverName.GetOr(r.value.serverName)
    ensures !ProjectIdMatches(sink.project) ==> r == Failure(ProjectInvalid(sink.project))
    ensures (ProjectIdMatches(sink.project) && RegionMatches(sink.region) && ResourceIdMatches(sink.registry)
             && ResourceIdMatches(sink.device) && sink.key == "") ==> r == Failure(KeyPathMissing)
  {
    var name := SinkName(GCPKind, sinkId, sink.name);
    if !ProjectIdMatches(sink.project) then Failure(ProjectInvalid(sink.project))
    else if !RegionMatches(sink.region) then Failure(RegionInvalid(sink.region))
    else if !ResourceIdMatches(sink.registry) then Failure(RegistryInvalid(sink.registry))
    else if !ResourceIdMatches(sink.device) then Failure(DeviceInvalid(sink.device))
    else if sink.key == "" then Failure(KeyPathMissing)
    else
      var key :- match env.privateKey(basePath, sink.key)
        case Key(k) => Success(k)
        case KeyFileUnreadable(reason) => Failure(KeyUnreadable(sink.key, reason))
        case KeyNotPEM(reason) => Failure(KeyUnparsable(sink.key, reason));
      var rateLimit :- ParseRateLimit(sink.rateLimit).MapFailure(e => BadRateLimit(e));
      var serverName := if sink.serverName.None? then DefaultGCPServer else sink.serverName.value;
      var port := if sink.serverPort.None? then DefaultPort else sink.serverPort.value;
      var tls :- ParseTLSConfig(sink.tls, serverName, basePath, env);
      Success(GCPSink(name, sink.project, sink.region, sink.registry, sink.device, key,
                      rateLimit, serverName, port, tls))
  }

  /** parseCloudPubSubSink: pattern checks, credentials (explicit file or
      the environment default), then the project (detected when absent). */
  function ParseCloudPubSubSink(basePath: string, sinkId: nat, sink: FCloudPubSubSink, env: Environment)
    : (r: Result<CloudPubSubSink, SinkProblem>)
    ensures r.Success? ==>
      && r.value.name == SinkName(CloudPubSubKind, sinkId, sink.name)
      && ResourceIdMatches(sink.device) && ResourceIdMatches(sink.topic)
      && (sink.creds.None? ==> env.defaultCredentials == Success(r.value.creds))
      && (sink.creds.Some? ==> env.credentialsFile(basePath, sink.creds.value) == Creds(r.value.creds))
      && (sink.project.None? <==> r.value.project == DetectProjectId)
      && (sink.project.Some? ==> r.value.project == ProjectId(sink.project.value) && ProjectIdMatches(sink.project.value))
  {
    var name := SinkName(CloudPubSubKind, sinkId, sink.name);
    if !ResourceIdMatches(sink.device) then Failure(DeviceInvalid(sink.device))
    else if !ResourceIdMatches(sink.topic) then Failure(PubSubTopicInvalid(sink.topic))
    else
      var creds :- match sink.creds
        case None =>
          (match env.defaultCredentials
           case Success(c) => Success(c)
           case Failure(reason) => Failure(NoDefaultCredentials(reason)))
        case Some(path) =>
          (match env.credentialsFile(basePath, path)
           case Creds(c) => Success(c)
           case CredsFileUnreadable(reason) => Failure(CredsUnreadable(path, reason))
           case CredsNotJSON(reason) => Failure(CredsUnparsable(path, reason)));
      var project :- match sink.project
        case None => Success(DetectProjectId)
        case Some(p) => if ProjectIdMatches(p) then Success(ProjectId(p)) else Failure(ProjectInvalid(p));
      var rateLimit :- ParseRateLimit(sink.rateLimit).MapFailure(e => BadRateLimit(e));
      Success(CloudPubSubSink(name, project, sink.topic, sink.device, rateLimit, creds))
  }

  /** parseStdoutSink: a name and an optional rate limit. */
  function ParseStdoutSink(sinkId: nat, sink: FStdoutSink): (r: Result<StdoutSink, SinkProblem>)
    ensures r.Success? <==> ParseRateLimit(sink.rateLimit).Success?
    ensures r.Success? ==>
      r.value == StdoutSink(SinkName(StdoutKind, sinkId, sink.name), ParseRateLimit(sink.rateLimit).value)
  {
    var rateLimit :- ParseRateLimit(sink.rateLimit).MapFailure(e => BadRateLimit(e));
    Success(StdoutSink(SinkName(StdoutKind, sinkId, sink.name), rateLimit))
  }

  // ---------------------------------------------------------------------
  // Read

  /** Parses a list of sinks with their list positions as IDs, stopping at
      the first failure. */
  function ParseEach<T, S>(items: seq<T>, parse: (nat, T) -> Result<S, ConfigError>): (r: Result<seq<S>, ConfigError>)
    ensures r.Success? <==> forall i :: 0 <= i < |items| ==> parse(i, items[i]).Success?
    ensures r.Success? ==>
      |r.value| == |items| && forall i :: 0 <= i < |items| ==> r.value[i] == parse(i, items[i]).value
    ensures r.Failure? ==>
      exists i :: 0 <= i < |items| && parse(i, items[i]) == Failure(r.error)
        && forall j :: 0 <= j < i ==> parse(j, items[j]).Success?
    decreases |items|
  {
    if |items| == 0 then Success([])
    else
      var init :- ParseEach(items[..|items| - 1], parse);
      var last :- parse(|items| - 1, items[|items| - 1]);
      Success(init + [last])
  }

  function MQTTEntry(basePath: string, env: Environment, i: nat, sink: FMQTTSink): Result<Sink, ConfigError> {
    match ParseMQTTSink(basePath, i, sink, env)
    case Success(s) => Success(MQTT(s))
    case Failure(p) => Failure(SinkError(MQTTKind, p))
  }

  function GCPEntry(basePath: string, env: Environment, i: nat, sink: FGCPSink): Result<Sink, ConfigError> {
    match ParseGCPSink(basePath, i, sink, env)
    case Success(s) => Success(GCP(s))
    case Failure(p) => Failure(SinkError(GCPKind, p))
  }

  function CloudPubSubEntry(basePath: string, env: Environment, i: nat, sink: FCloudPubSubSink): Result<Sink, ConfigError> {
    match ParseCloudPubSubSink(basePath, i, sink, env)
    case Success(s) => Success(CloudPubSub(s))
    case Failure(p) => Failure(SinkError(CloudPubSubKind, p))
  }

  function StdoutEntry(i: nat, sink: FStdoutSink): Result<Sink, ConfigError> {
    match ParseStdoutSink(i, sink)
    case Success(s) => Success(Stdout(s))
    case Failure(p) => Failure(SinkError(StdoutKind, p))
  }

  /** The MQTT table: every entry must parse; IDs are list positions. */
  function MQTTSinks(fc: FConfig, basePath: string, env: Environment): (r: Result<seq<Sink>, ConfigError>)
    ensures r.Success? <==>
      forall i :: 0 <= i < |fc.sinks.mqtt| ==> ParseMQTTSink(basePath, i, fc.sinks.mqtt[i], env).Success?
    ensures r.Success? ==> (|r.value| == |fc.sinks.mqtt| &&
      forall i :: 0 <= i < |r.value| ==> r.value[i] == MQTT(ParseMQTTSink(basePath, i, fc.sinks.mqtt[i], env).value))
  {
    var r := ParseEach(fc.sinks.mqtt, (i, s) => MQTTEntry(basePath, env, i, s));
    r
  }

  /** The GCP table: every entry must parse; IDs are list positions. */
  function GCPSinks(fc: FConfig, basePath: string, env: Environment): (r: Result<seq<Sink>, ConfigError>)
    ensures r.Success? <==>
      forall i :: 0 <= i < |fc.sinks.gcp| ==> ParseGCPSink(basePath, i, fc.sinks.gcp[i], env).Success?
    ensures r.Success? ==> (|r.value| == |fc.sinks.gcp| &&
      forall i :: 0 <= i < |r.value| ==> r.value[i] == GCP(ParseGCPSink(basePath, i, fc.sinks.gcp[i], env).value))
  {
    var r := ParseEach(fc.sinks.gcp, (i, s) => GCPEntry(basePath, env, i, s));
    r
  }

  /** The Cloud Pub/Sub table: every entry must parse; IDs are list positions. */
  function CloudPubSubSinks(fc: FConfig, basePath: string, env: Environment): (r: Result<seq<Sink>, ConfigError>)
    ensures r.Success? <==>
      forall i :: 0 <= i < |fc.sinks.cloudPubSub| ==>
        ParseCloudPubSubSink(basePath, i, fc.sinks.cloudPubSub[i], env).Success?
    ensures r.Success? ==> (|r.value| == |fc.sinks.cloudPubSub| &&
      forall i :: 0 <= i < |r.value| ==>
        r.value[i] == CloudPubSub(ParseCloudPubSubSink(basePath, i, fc.sinks.cloudPubSub[i], env).value))
  {
    var r := ParseEach(fc.sinks.cloudPubSub, (i, s) => CloudPubSubEntry(basePath, env, i, s));
    r
  }

  /** The stdout table: every entry must parse; IDs are list positions. */
  function StdoutSinks(fc: FConfig): (r: Result<seq<Sink>, ConfigError>)
    ensures r.Success? <==> forall i :: 0 <= i < |fc.sinks.stdout| ==> ParseStdoutSink(i, fc.sinks.stdout[i]).Success?
    ensures r.Success? ==> (|r.value| == |fc.sinks.stdout| &&
      forall i :: 0 <= i < |r.value| ==> r.value[i] == Stdout(ParseStdoutSink(i, fc.sinks.stdout[i]).value))
  {
    var r := ParseEach(fc.sinks.stdout, (i, s) => StdoutEntry(i, s));
    r
  }

  /** Where the configuration comes from: no path (an empty document), or
      a file with its directory and the outcome of reading and
      unmarshalling it. */
  datatype ConfigSource =
    | NoConfigFile
    | ConfigFile(path: string, dir: string, contents: Result<FConfig, string>)

  /** `path.Dir("")`, the base path used when no file is given. */
  const NoFileDir: string := "."

  function ParseSinks(fc: FConfig, basePath: string, env: Environment): Result<seq<Sink>, ConfigError> {
    var mqtt :- MQTTSinks(fc, basePath, env);
    var gcp :- GCPSinks(fc, basePath, env);
    var pubsub :- CloudPubSubSinks(fc, basePath, env);
    var stdout :- StdoutSinks(fc);
    Success(mqtt + gcp + pubsub + stdout)
  }

  function BuildConfig(fc: FConfig, basePath: string, env: Environment): (r: Result<Config, ConfigError>)
    ensures r.Success? ==> r.value.adapter == fc.adapter.GetOr(DefaultAdapter) && |r.value.sinks| > 0
  {
    var adapter := if fc.adapter.None? then DefaultAdapter else fc.adapter.value;
    var sinks :- ParseSinks(fc, basePath, env);
    if |sinks| == 0 then Success(Config(adapter, [Stdout(StdoutSink(DefaultSinkName, None))]))
    else Success(Config(adapter, sinks))
  }

  /** Read: the adapter defaults to hci0 and at least one sink results. */
  function Read(source: ConfigSource, env: Environment): (r: Result<Config, ConfigError>)
    ensures source.ConfigFile? && source.contents.Failure? ==> r == Failure(ConfigFileError(source.contents.error))
    ensures r.Success? ==> |r.value.sinks| > 0
  {
    match source
    case NoConfigFile => BuildConfig(EmptyConfig, NoFileDir, env)
    case ConfigFile(_, dir, contents) =>
      match contents
      case Failure(reason) => Failure(ConfigFileError(reason))
      case Success(fc) => BuildConfig(fc, dir, env)
  }

  /** Reading without a file yields adapter hci0 and one stdout sink named
      default-sink without a rate limit. */
  lemma ReadEmpty(env: Environment)
    ensures Read(NoConfigFile, env) == Success(Config("hci0", [Stdout(StdoutSink("default-sink", None))]))
  {
  }

  function SinkCount(fc: FConfig): nat {
    |fc.sinks.mqtt| + |fc.sinks.gcp| + |fc.sinks.cloudPubSub| + |fc.sinks.stdout|
  }

  /** A configuration is accepted exactly when every sink of every kind is;
      one bad sink aborts the whole read. */
  lemma BuildConfigAccepted(fc: FConfig, basePath: string, env: Environment)
    ensures BuildConfig(fc, basePath, env).Success? <==>
      && (forall i :: 0 <= i < |fc.sinks.mqtt| ==> ParseMQTTSink(basePath, i, fc.sinks.mqtt[i], env).Success?)
      && (forall i :: 0 <= i < |fc.sinks.gcp| ==> ParseGCPSink(basePath, i, fc.sinks.gcp[i], env).Success?)
      && (forall i :: 0 <= i < |fc.sinks.cloudPubSub| ==>
            ParseCloudPubSubSink(basePath, i, fc.sinks.cloudPubSub[i], env).Success?)
      && (forall i :: 0 <= i < |fc.sinks.stdout| ==> ParseStdoutSink(i, fc.sinks.stdout[i]).Success?)
  {
  }

  /** The parsed sink list is the four per-kind lists concatenated. */
  lemma ParseSinksParts(fc: FConfig, basePath: string, env: Environment)
    requires ParseSinks(fc, basePath, env).Success?
    ensures MQTTSinks(fc, basePath, env).Success? && GCPSinks(fc, basePath, env).Success?
    ensures CloudPubSubSinks(fc, basePath, env).Success? && StdoutSinks(fc).Success?
    ensures ParseSinks(fc, basePath, env).value ==
      MQTTSinks(fc, basePath, env).value + GCPSinks(fc, basePath, env).value
      + CloudPubSubSinks(fc, basePath, env).value + StdoutSinks(fc).value
  {
  }

  /** Without any sink in the file the single default stdout sink is used;
      otherwise there is one sink per table entry. */
  lemma BuildConfigSinkCount(fc: FConfig, basePath: string, env: Environment)
    requires BuildConfig(fc, basePath, env).Success?
    ensures var sinks := BuildConfig(fc, basePath, env).value.sinks;
      && (SinkCount(fc) == 0 ==> sinks == [Stdout(StdoutSink(DefaultSinkName, None))])
      && (SinkCount(fc) > 0 ==> |sinks| == SinkCount(fc))
  {
    ParseSinksParts(fc, basePath, env);
  }

  /** With at least one sink in the file, the sinks read are exactly the
      parsed list. */
  lemma BuildConfigUsesParsed(fc: FConfig, basePath: string, env: Environment)
    requires BuildConfig(fc, basePath, env).Success? && SinkCount(fc) > 0
    ensures ParseSinks(fc, basePath, env).Success?
    ensures BuildConfig(fc, basePath, env).value.sinks == ParseSinks(fc, basePath, env).value
  {
    ParseSinksParts(fc, basePath, env);
  }

  /** Indexing past the first part of a concatenation. */
  lemma ConcatOffset<T>(a: seq<T>, b: seq<T>, i: nat)
    requires i < |b|
    ensures |a| + i < |a + b| && (a + b)[|a| + i] == b[i]
  {
  }

  /** Where each part of a four-way concatenation sits. */
  lemma ConcatParts<T>(all: seq<T>, a: seq<T>, b: seq<T>, c: seq<T>, d: seq<T>)
    requires all == a + b + c + d
    ensures forall i :: 0 <= i < |a| ==> i < |all| && all[i] == a[i]
    ensures forall i :: 0 <= i < |b| ==> |a| + i < |all| && all[|a| + i] == b[i]
    ensures forall i :: 0 <= i < |c| ==> |a| + |b| + i < |all| && all[|a| + |b| + i] == c[i]
    ensures forall i :: 0 <= i < |d| ==> |a| + |b| + |c| + i < |all| && all[|a| + |b| + |c| + i] == d[i]
  {
    forall i | 0 <= i < |b|
      ensures |a| + i < |all| && all[|a| + i] == b[i]
    {
      assert all == a + (b + (c + d));
      ConcatOffset(a, b + (c + d), i);
    }
    forall i | 0 <= i < |c|
      ensures |a| + |b| + i < |all| && all[|a| + |b| + i] == c[i]
    {
      assert all == (a + b) + (c + d);
      ConcatOffset(a + b, c + d, i);
    }
    forall i | 0 <= i < |d|
      ensures |a| + |b| + |c| + i < |all| && all[|a| + |b| + |c| + i] == d[i]
    {
      ConcatOffset(a + b + c, d, i);
    }
  }

  /** The MQTT sinks come first, in file order. */
  lemma BuildConfigMQTTFirst(fc: FConfig, basePath: string, env: Environment)
    requires BuildConfig(fc, basePath, env).Success?
    ensures var sinks := BuildConfig(fc, basePath, env).value.sinks;
      forall i :: 0 <= i < |fc.sinks.mqtt| ==>
        i < |sinks| && sinks[i] == MQTT(ParseMQTTSink(basePath, i, fc.sinks.mqtt[i], env).value)
  {
    ParseSinksParts(fc, basePath, env);
    ConcatParts(ParseSinks(fc, basePath, env).value, MQTTSinks(fc, basePath, env).value,
                GCPSinks(fc, basePath, env).value, CloudPubSubSinks(fc, basePath, env).value, StdoutSinks(fc).value);
    if |fc.sinks.mqtt| > 0 {
      BuildConfigUsesParsed(fc, basePath, env);
    }
  }

  /** The GCP sinks follow the MQTT sinks, in file order. */
  lemma BuildConfigGCPSecond(fc: FConfig, basePath: string, env: Environment)
    requires BuildConfig(fc, basePath, env).Success?
    ensures var sinks := BuildConfig(fc, basePath, env).value.sinks;
      var m := |fc.sinks.mqtt|;
      forall i :: 0 <= i < |fc.sinks.gcp| ==>
        m + i < |sinks| && sinks[m + i] == GCP(ParseGCPSink(basePath, i, fc.sinks.gcp[i], env).value)
  {
    ParseSinksParts(fc, basePath, env);
    ConcatParts(ParseSinks(fc, basePath, env).value, MQTTSinks(fc, basePath, env).value,
                GCPSinks(fc, basePath, env).value, CloudPubSubSinks(fc, basePath, env).value, StdoutSinks(fc).value);
    if |fc.sinks.gcp| > 0 {
      BuildConfigUsesParsed(fc, basePath, env);
    }
  }

  /** The Cloud Pub/Sub sinks follow the MQTT and GCP sinks, in file order. */
  lemma BuildConfigCloudPubSubThird(fc: FConfig, basePath: string, env: Environment)
    requires BuildConfig(fc, basePath, env).Success?
    ensures var sinks := BuildConfig(fc, basePath, env).value.sinks;
      var k := |fc.sinks.mqtt| + |fc.sinks.gcp|;
      forall i :: 0 <= i < |fc.sinks.cloudPubSub| ==>
        k + i < |sinks| &&
        sinks[k + i] == CloudPubSub(ParseCloudPubSubSink(basePath, i, fc.sinks.cloudPubSub[i], env).value)
  {
    ParseSinksParts(fc, basePath, env);
    ConcatParts(ParseSinks(fc, basePath, env).value, MQTTSinks(fc, basePath, env).value,
                GCPSinks(fc, basePath, env).value, CloudPubSubSinks(fc, basePath, env).value, StdoutSinks(fc).value);
    if |fc.sinks.cloudPubSub| > 0 {
      BuildConfigUsesParsed(fc, basePath, env);
    }
  }

  /** The stdout sinks come last, in file order. */
  lemma BuildConfigStdoutLast(fc: FConfig, basePath: string, env: Environment)
    requires BuildConfig(fc, basePath, env).Success?
    ensures var sinks := BuildConfig(fc, basePath, env).value.sinks;
      var k := |fc.sinks.mqtt| + |fc.sinks.gcp| + |fc.sinks.cloudPubSub|;
      forall i :: 0 <= i < |fc.sinks.stdout| ==>
        k + i < |sinks| && sinks[k + i] == Stdout(ParseStdoutSink(i, fc.sinks.stdout[i]).value)
  {
    ParseSinksParts(fc, basePath, env);
    ConcatParts(ParseSinks(fc, basePath, env).value, MQTTSinks(fc, basePath, env).value,
                GCPSinks(fc, basePath, env).value, CloudPubSubSinks(fc, basePath, env).value, StdoutSinks(fc).value);
    if |fc.sinks.stdout| > 0 {
      BuildConfigUsesParsed(fc, basePath, env);
    }
  }
}
