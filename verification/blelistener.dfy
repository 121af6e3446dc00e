/** The BLE advertisement listener (pkg/blelistener). BlueZ reports
    devices over D-Bus; the listener keeps the last advertisement of every
    device object in a cache, emits an advertisement whenever a device's
    manufacturer data or signal strength changes, forgets devices that go
    away and clears the cache when discovery has to be restarted. The
    first fatal error is kept.

    The D-Bus connection is not modelled. Signals arrive as events in
    order; the outcome of the `GetAll` call made on a cache miss travels
    with the event; `net.ParseMAC` is the parameter `parseMAC`; the
    results channel is the `emitted` sequence. */
module BleListener {
  import opened Wrappers
  import opened Wire
  import opened Backoff

  type ObjectPath = string
  type HardwareAddr = seq<byte>
  type ManufacturerData = map<uint16, seq<byte>>

  datatype Advertisement = Advertisement(address: HardwareAddr, manufacturerData: ManufacturerData)

  /** The D-Bus values this code inspects: a string, a byte array, a
      dictionary keyed by 16-bit company IDs, or anything else. */
  datatype Variant =
    | StringVariant(text: string)
    | BytesVariant(bytes: seq<byte>)
    | DictVariant(entries: map<uint16, Variant>)
    | OtherVariant

  type Properties = map<string, Variant>

  const Device1: string := "org.bluez.Device1"

  datatype ManufacturerDataError = NotManufacturerData | NotByteArray
  datatype PropertiesError = MissingAddress | BadManufacturerData(cause: ManufacturerDataError)

  /** Why a signal handler gave up; it is logged and the state is kept. */
  datatype HandlerError =
    | GetAllFailed(path: ObjectPath, reason: string)
    | BadDeviceProperties(cause: PropertiesError)
    | BadChangedManufacturerData(mdCause: ManufacturerDataError)

  /** The errors that stop the listener. */
  datatype ListenerError =
    | SignalMatchFailed(reason: string)
    | DiscoveryFailed(reason: string)
    | DiscoveringUnreadable(reason: string)

  /** parseDeviceMAC: the variant must hold a string that parses as a MAC. */
  function ParseDeviceMAC(v: Variant, parseMAC: string -> Option<HardwareAddr>): (r: Option<HardwareAddr>)
    ensures !v.StringVariant? ==> r.None?
    ensures v.StringVariant? ==> r == parseMAC(v.text)
  {
    match v
    case StringVariant(text) => parseMAC(text)
    case _ => None
  }

  /** parseManufacturerData: a dictionary of byte arrays, copied entry by
      entry; one entry that is not a byte array fails the whole map. */
  function ParseManufacturerData(v: Variant): (r: Result<ManufacturerData, ManufacturerDataError>)
    ensures !v.DictVariant? ==> r == Failure(NotManufacturerData)
    ensures v.DictVariant? ==>
      (r.Success? <==> forall k :: k in v.entries ==> v.entries[k].BytesVariant?)
    ensures r.Success? ==> (r.value.Keys == v.entries.Keys
      && forall k :: k in r.value ==> v.entries[k] == BytesVariant(r.value[k]))
  {
    match v
    case DictVariant(entries) =>
      if forall k :: k in entries ==> entries[k].BytesVariant? then
        Success(map k | k in entries :: entries[k].bytes)
      else Failure(NotByteArray)
    case _ => Failure(NotManufacturerData)
  }

  /** The zero Advertisement: nil address, nil manufacturer data. */
  const NoAdvertisement: Advertisement := Advertisement([], map[])

  /** parseAdvertisementFromProperties. A missing Address is an error; an
      Address that is not a MAC is not: the zero advertisement results. */
  function ParseAdvertisementFromProperties(props: Properties, parseMAC: string -> Option<HardwareAddr>)
    : (r: Result<Advertisement, PropertiesError>)
    ensures "Address" !in props ==> r == Failure(MissingAddress)
    ensures "Address" in props && ParseDeviceMAC(props["Address"], parseMAC).None? ==> r == Success(NoAdvertisement)
    ensures "Address" in props && ParseDeviceMAC(props["Address"], parseMAC).Some? ==>
      var addr := ParseDeviceMAC(props["Address"], parseMAC).value;
      && ("ManufacturerData" !in props ==> r == Success(Advertisement(addr, map[])))
      && ("ManufacturerData" in props ==>
            match ParseManufacturerData(props["ManufacturerData"])
            case Success(md) => r == Success(Advertisement(addr, md))
            case Failure(e) => r == Failure(BadManufacturerData(e)))
  {
    if "Address" !in props then Failure(MissingAddress)
    else
      match ParseDeviceMAC(props["Address"], parseMAC)
      case None => Success(NoAdvertisement)
      case Some(addr) =>
        if "ManufacturerData" in props then
          match ParseManufacturerData(props["ManufacturerData"])
          case Success(md) => Success(Advertisement(addr, md))
          case Failure(e) => Failure(BadManufacturerData(e))
        else Success(Advertisement(addr, map[]))
  }

  datatype Listener = Listener(
    cache: map<ObjectPath, Advertisement>,
    emitted: seq<Advertisement>,
    err: Option<ListenerError>)

  const NewListener: Listener := Listener(map[], [], None)

  /** publishAdvertisement: always cached, emitted only with manufacturer
      data. */
  function PublishAdvertisement(l: Listener, path: ObjectPath, adv: Advertisement): (r: Listener)
    ensures r.cache == l.cache[path := adv] && r.err == l.err
    ensures |adv.manufacturerData| > 0 ==> r.emitted == l.emitted + [adv]
    ensures |adv.manufacturerData| == 0 ==> r.emitted == l.emitted
  {
    l.(cache := l.cache[path := adv],
       emitted := if |adv.manufacturerData| > 0 then l.emitted + [adv] else l.emitted)
  }

  /** setError: the first error is kept. */
  function SetError(l: Listener, e: ListenerError): (r: Listener)
    ensures r.cache == l.cache && r.emitted == l.emitted
    ensures r.err.Some?
    ensures l.err.Some? ==> r.err == l.err
    ensures l.err.None? ==> r.err == Some(e)
  {
    if l.err.None? then l.(err := Some(e)) else l
  }

  datatype PropertiesChangedSignal = PropertiesChangedSignal(
    interfaceName: string,
    changed: Properties,
    invalidated: seq<string>)

  datatype InterfacesAddedSignal = InterfacesAddedSignal(
    objectPath: ObjectPath,
    interfaces: map<string, Properties>)

  datatype HandlerResult = HandlerResult(listener: Listener, error: Option<HandlerError>)

  /** The advertisement a PropertiesChanged signal starts from: the cached
      one, or on a miss the one parsed from the fetched properties (which
      is then always published). */
  function StartingPoint(l: Listener, path: ObjectPath, fetched: Result<Properties, string>,
                         parseMAC: string -> Option<HardwareAddr>): Result<(Advertisement, bool), HandlerError>
  {
    if path in l.cache then Success((l.cache[path], false))
    else
      match fetched
      case Failure(reason) => Failure(GetAllFailed(path, reason))
      case Success(props) =>
        match ParseAdvertisementFromProperties(props, parseMAC)
        case Failure(e) => Failure(BadDeviceProperties(e))
        case Success(adv) => Success((adv, true))
  }

  /** handlePropertiesChanged. */
  function HandlePropertiesChanged(l: Listener, path: ObjectPath, signal: PropertiesChangedSignal,
                                   fetched: Result<Properties, string>,
                                   parseMAC: string -> Option<HardwareAddr>): (r: HandlerResult)
    ensures r.error.Some? ==> r.listener == l
    ensures r.listener.err == l.err
    ensures signal.interfaceName != Device1 ==> r == HandlerResult(l, None)
  {
    if signal.interfaceName != Device1 then HandlerResult(l, None)
    else
      match StartingPoint(l, path, fetched, parseMAC)
      case Failure(e) => HandlerResult(l, Some(e))
      case Success((adv, publish)) =>
        if "ManufacturerData" in signal.changed then
          match ParseManufacturerData(signal.changed["ManufacturerData"])
          case Failure(e) => HandlerResult(l, Some(BadChangedManufacturerData(e)))
          case Success(md) => HandlerResult(PublishAdvertisement(l, path, adv.(manufacturerData := md)), None)
        else if publish || "RSSI" in signal.changed then
          HandlerResult(PublishAdvertisement(l, path, adv), None)
        else HandlerResult(l, None)
  }

  /** handleInterfacesAdded: only Device1 objects are parsed and published. */
  function HandleInterfacesAdded(l: Listener, signal: InterfacesAddedSignal,
                                 parseMAC: string -> Option<HardwareAddr>): (r: HandlerResult)
    ensures Device1 !in signal.interfaces ==> r == HandlerResult(l, None)
    ensures Device1 in signal.interfaces ==>
      match ParseAdvertisementFromProperties(signal.interfaces[Device1], parseMAC)
      case Success(adv) => r == HandlerResult(PublishAdvertisement(l, signal.objectPath, adv), None)
      case Failure(e) => r == HandlerResult(l, Some(BadDeviceProperties(e)))
  {
    if Device1 !in signal.interfaces then HandlerResult(l, None)
    else
      match ParseAdvertisementFromProperties(signal.interfaces[Device1], parseMAC)
      case Success(adv) => HandlerResult(PublishAdvertisement(l, signal.objectPath, adv), None)
      case Failure(e) => HandlerResult(l, Some(BadDeviceProperties(e)))
  }

  /** The InterfacesRemoved branch: that object is forgotten. */
  function HandleInterfacesRemoved(l: Listener, path: ObjectPath): (r: Listener)
    ensures path !in r.cache
    ensures forall p :: p in l.cache && p != path ==> p in r.cache && r.cache[p] == l.cache[p]
    ensures r.cache.Keys <= l.cache.Keys
    ensures r.emitted == l.emitted && r.err == l.err
  {
    l.(cache := l.cache - {path})
  }

  /** What happens to the listener, in the order it happens: the signals
      of the bus, the failure to install a signal match, the outcome of
      starting discovery and each poll of the Discovering property. */
  datatype Event =
    | PropertiesChanged(path: ObjectPath, signal: PropertiesChangedSignal, fetched: Result<Properties, string>)
    | InterfacesAdded(added: InterfacesAddedSignal)
    | InterfacesRemoved(path: ObjectPath)
    | SignalMatchFailure(reason: string)
    | DiscoveryStartFailure(reason: string)
    | DiscoveringPolled(discovering: Result<bool, string>)

  /** One event. Once an error is set the bus connection is closed, which
      ends the signal loop and closes the output, and the discovery loop
      has returned: nothing happens any more. */
  function Step(l: Listener, e: Event, parseMAC: string -> Option<HardwareAddr>): (r: Listener)
    ensures l.err.Some? ==> r == l
    ensures l.err.None? && e.DiscoveringPolled? && e.discovering == Success(false) ==> r == l.(cache := map[])
    ensures e.DiscoveringPolled? && e.discovering == Success(true) ==> r == l
  {
    if l.err.Some? then l
    else
      match e
      case PropertiesChanged(path, signal, fetched) => HandlePropertiesChanged(l, path, signal, fetched, parseMAC).listener
      case InterfacesAdded(added) => HandleInterfacesAdded(l, added, parseMAC).listener
      case InterfacesRemoved(path) => HandleInterfacesRemoved(l, path)
      case SignalMatchFailure(reason) => SetError(l, SignalMatchFailed(reason))
      case DiscoveryStartFailure(reason) => SetError(l, DiscoveryFailed(reason))
      case DiscoveringPolled(discovering) =>
        match discovering
        case Failure(reason) => SetError(l, DiscoveringUnreadable(reason))
        case Success(true) => l
        case Success(false) => l.(cache := map[])
  }

  function Run(l: Listener, events: seq<Event>, parseMAC: string -> Option<HardwareAddr>): Listener
    decreases |events|
  {
    if |events| == 0 then l else Run(Step(l, events[0], parseMAC), events[1..], parseMAC)
  }

  /** The error an event reports, if it reports one. */
  function EventError(e: Event): Option<ListenerError> {
    match e
    case SignalMatchFailure(reason) => Some(SignalMatchFailed(reason))
    case DiscoveryStartFailure(reason) => Some(DiscoveryFailed(reason))
    case DiscoveringPolled(Failure(reason)) => Some(DiscoveringUnreadable(reason))
    case _ => None
  }

  /** The first error reported in a sequence of events. */
  function FirstError(events: seq<Event>): Option<ListenerError>
    decreases |events|
  {
    if |events| == 0 then None
    else if EventError(events[0]).Some? then EventError(events[0])
    else FirstError(events[1..])
  }

  /** The listener's error is its own if it had one, else the first error
      any event reported. */
  lemma {:induction false} RunKeepsFirstError(l: Listener, events: seq<Event>, parseMAC: string -> Option<HardwareAddr>)
    ensures l.err.Some? ==> Run(l, events, parseMAC).err == l.err
    ensures l.err.None? ==> Run(l, events, parseMAC).err == FirstError(events)
    decreases |events|
  {
    if |events| > 0 {
      var l' := Step(l, events[0], parseMAC);
      assert l'.err == (if l.err.Some? then l.err else EventError(events[0]));
      RunKeepsFirstError(l', events[1..], parseMAC);
    }
  }

  /** A stopped listener stays as it is, whatever else arrives. */
  lemma {:induction false} RunAfterError(l: Listener, events: seq<Event>, parseMAC: string -> Option<HardwareAddr>)
    requires l.err.Some?
    ensures Run(l, events, parseMAC) == l
    decreases |events|
  {
    if |events| > 0 {
      RunAfterError(Step(l, events[0], parseMAC), events[1..], parseMAC);
    }
  }

  /** Everything after the first event that reports an error is ignored:
      the listener ends as it was right after that event. */
  lemma {:induction false} RunStopsAtFirstError(l: Listener, events: seq<Event>, k: nat,
                                                parseMAC: string -> Option<HardwareAddr>)
    requires l.err.None?
    requires k < |events| && EventError(events[k]).Some?
    requires forall j :: 0 <= j < k ==> EventError(events[j]).None?
    ensures Run(l, events, parseMAC) == Run(l, events[..k + 1], parseMAC)
    ensures Run(l, events, parseMAC).err == EventError(events[k])
    decreases k
  {
    var l' := Step(l, events[0], parseMAC);
    if k == 0 {
      assert l'.err == EventError(events[0]);
      RunAfterError(l', events[1..], parseMAC);
      RunAfterError(l', events[..1][1..], parseMAC);
    } else {
      assert EventError(events[0]).None?;
      assert l'.err.None?;
      assert events[1..][..k] == events[..k + 1][1..];
      RunStopsAtFirstError(l', events[1..], k - 1, parseMAC);
    }
  }

  /** Only advertisements with manufacturer data are ever emitted. */
  predicate EmitsOnlyWithData(l: Listener) {
    forall i :: 0 <= i < |l.emitted| ==> |l.emitted[i].manufacturerData| > 0
  }

  /** One step emits at most one advertisement, with manufacturer data,
      after the ones already emitted. */
  lemma StepEmitsOnlyWithData(l: Listener, e: Event, parseMAC: string -> Option<HardwareAddr>)
    ensures var r := Step(l, e, parseMAC);
      || r.emitted == l.emitted
      || (|r.emitted| == |l.emitted| + 1 && r.emitted[..|l.emitted|] == l.emitted
          && |r.emitted[|l.emitted|].manufacturerData| > 0)
  {
  }

  lemma {:induction false} RunEmitsOnlyWithData(l: Listener, events: seq<Event>, parseMAC: string -> Option<HardwareAddr>)
    requires EmitsOnlyWithData(l)
    ensures EmitsOnlyWithData(Run(l, events, parseMAC))
    ensures |l.emitted| <= |Run(l, events, parseMAC).emitted|
    ensures Run(l, events, parseMAC).emitted[..|l.emitted|] == l.emitted
    decreases |events|
  {
    if |events| > 0 {
      var l' := Step(l, events[0], parseMAC);
      StepEmitsOnlyWithData(l, events[0], parseMAC);
      assert EmitsOnlyWithData(l') by {
        if l'.emitted != l.emitted {
          forall i | 0 <= i < |l'.emitted|
            ensures |l'.emitted[i].manufacturerData| > 0
          {
            if i < |l.emitted| {
              assert l'.emitted[i] == l'.emitted[..|l.emitted|][i];
            }
          }
        }
      }
      RunEmitsOnlyWithData(l', events[1..], parseMAC);
      var r := Run(l', events[1..], parseMAC);
      assert r == Run(l, events, parseMAC);
      assert r.emitted[..|l.emitted|] == r.emitted[..|l'.emitted|][..|l.emitted|];
    }
  }

  // ---------------------------------------------------------------------
  // PropertiesChanged, case by case

  /** On a miss the fetched device is published, with the changed
      manufacturer data in place of the fetched one when present. */
  lemma CacheMissPublishes(l: Listener, path: ObjectPath, signal: PropertiesChangedSignal, props: Properties,
                           parseMAC: string -> Option<HardwareAddr>)
    requires signal.interfaceName == Device1 && path !in l.cache
    requires ParseAdvertisementFromProperties(props, parseMAC).Success?
    requires "ManufacturerData" in signal.changed ==> ParseManufacturerData(signal.changed["ManufacturerData"]).Success?
    ensures var adv := ParseAdvertisementFromProperties(props, parseMAC).value;
      var published :=
        if "ManufacturerData" in signal.changed
        then adv.(manufacturerData := ParseManufacturerData(signal.changed["ManufacturerData"]).value)
        else adv;
      HandlePropertiesChanged(l, path, signal, Success(props), parseMAC) == HandlerResult(PublishAdvertisement(l, path, published), None)
  {
  }

  /** On a hit, an RSSI change alone re-publishes the cached advertisement
      unchanged. */
  lemma CacheHitRSSIRepublishes(l: Listener, path: ObjectPath, signal: PropertiesChangedSignal,
                                fetched: Result<Properties, string>, parseMAC: string -> Option<HardwareAddr>)
    requires signal.interfaceName == Device1 && path in l.cache
    requires "ManufacturerData" !in signal.changed && "RSSI" in signal.changed
    ensures var r := HandlePropertiesChanged(l, path, signal, fetched, parseMAC);
      && r.error.None?
      && r.listener.cache == l.cache
      && (|l.cache[path].manufacturerData| > 0 ==> r.listener.emitted == l.emitted + [l.cache[path]])
      && (|l.cache[path].manufacturerData| == 0 ==> r.listener.emitted == l.emitted)
  {
    assert l.cache[path := l.cache[path]] == l.cache;
  }

  /** On a hit with neither ManufacturerData nor RSSI changed, nothing
      happens. */
  lemma CacheHitOtherChangeIgnored(l: Listener, path: ObjectPath, signal: PropertiesChangedSignal,
                                   fetched: Result<Properties, string>, parseMAC: string -> Option<HardwareAddr>)
    requires path in l.cache
    requires "ManufacturerData" !in signal.changed && "RSSI" !in signal.changed
    ensures HandlePropertiesChanged(l, path, signal, fetched, parseMAC) == HandlerResult(l, None)
  {
  }

  /** A hit never looks at the fetch: the outcome is the same whatever
      GetAll would have returned. */
  lemma CacheHitIgnoresFetch(l: Listener, path: ObjectPath, signal: PropertiesChangedSignal,
                             f1: Result<Properties, string>, f2: Result<Properties, string>,
                             parseMAC: string -> Option<HardwareAddr>)
    requires path in l.cache
    ensures HandlePropertiesChanged(l, path, signal, f1, parseMAC) == HandlePropertiesChanged(l, path, signal, f2, parseMAC)
  {
  }

  /** After a device is removed the next change of it fetches again: a
      failing fetch is reported and leaves the listener as it was. */
  lemma RemovalForcesRefetch(l: Listener, path: ObjectPath, signal: PropertiesChangedSignal, reason: string,
                             parseMAC: string -> Option<HardwareAddr>)
    requires signal.interfaceName == Device1
    ensures var l' := HandleInterfacesRemoved(l, path);
      HandlePropertiesChanged(l', path, signal, Failure(reason), parseMAC) == HandlerResult(l', Some(GetAllFailed(path, reason)))
  {
  }

  /** A device whose Address is not a MAC is cached with no manufacturer
      data and not emitted. */
  lemma UnparsableAddressCachedNotEmitted(l: Listener, path: ObjectPath, signal: PropertiesChangedSignal,
                                          props: Properties, parseMAC: string -> Option<HardwareAddr>)
    requires signal.interfaceName == Device1 && path !in l.cache
    requires "Address" in props && ParseDeviceMAC(props["Address"], parseMAC).None?
    requires "ManufacturerData" !in signal.changed
    ensures var r := HandlePropertiesChanged(l, path, signal, Success(props), parseMAC);
      && r.error.None?
      && r.listener.cache == l.cache[path := NoAdvertisement]
      && r.listener.emitted == l.emitted
  {
  }

  /** On a hit, changed manufacturer data replaces the cached data and the
      result is published. */
  lemma CacheHitManufacturerDataRepublishes(l: Listener, path: ObjectPath, signal: PropertiesChangedSignal,
                                            fetched: Result<Properties, string>,
                                            parseMAC: string -> Option<HardwareAddr>)
    requires signal.interfaceName == Device1 && path in l.cache
    requires "ManufacturerData" in signal.changed && ParseManufacturerData(signal.changed["ManufacturerData"]).Success?
    ensures var md := ParseManufacturerData(signal.changed["ManufacturerData"]).value;
      HandlePropertiesChanged(l, path, signal, fetched, parseMAC)
        == HandlerResult(PublishAdvertisement(l, path, l.cache[path].(manufacturerData := md)), None)
  {
  }

  /** On a miss a failing GetAll is reported and changes nothing. */
  lemma CacheMissFetchFailureReported(l: Listener, path: ObjectPath, signal: PropertiesChangedSignal, reason: string,
                                      parseMAC: string -> Option<HardwareAddr>)
    requires signal.interfaceName == Device1 && path !in l.cache
    ensures HandlePropertiesChanged(l, path, signal, Failure(reason), parseMAC)
      == HandlerResult(l, Some(GetAllFailed(path, reason)))
  {
  }

  /** On a miss, fetched properties that do not make an advertisement are
      reported and change nothing. */
  lemma CacheMissBadPropertiesReported(l: Listener, path: ObjectPath, signal: PropertiesChangedSignal,
                                       props: Properties, parseMAC: string -> Option<HardwareAddr>)
    requires signal.interfaceName == Device1 && path !in l.cache
    requires ParseAdvertisementFromProperties(props, parseMAC).Failure?
    ensures HandlePropertiesChanged(l, path, signal, Success(props), parseMAC)
      == HandlerResult(l, Some(BadDeviceProperties(ParseAdvertisementFromProperties(props, parseMAC).error)))
  {
  }

  /** Changed manufacturer data that does not parse is reported and
      changes nothing, on a hit or on a miss that fetched a device. */
  lemma BadChangedManufacturerDataReported(l: Listener, path: ObjectPath, signal: PropertiesChangedSignal,
                                           fetched: Result<Properties, string>,
                                           parseMAC: string -> Option<HardwareAddr>)
    requires signal.interfaceName == Device1
    requires path in l.cache ||
      (fetched.Success? && ParseAdvertisementFromProperties(fetched.value, parseMAC).Success?)
    requires "ManufacturerData" in signal.changed && ParseManufacturerData(signal.changed["ManufacturerData"]).Failure?
    ensures HandlePropertiesChanged(l, path, signal, fetched, parseMAC)
      == HandlerResult(l, Some(BadChangedManufacturerData(ParseManufacturerData(signal.changed["ManufacturerData"]).error)))
  {
  }

  /** Discovery stopping forgets every device, so each is fetched anew. */
  lemma DiscoveryStopClearsCache(l: Listener, path: ObjectPath, signal: PropertiesChangedSignal, reason: string,
                                 parseMAC: string -> Option<HardwareAddr>)
    requires l.err.None? && signal.interfaceName == Device1
    ensures var l' := Step(l, DiscoveringPolled(Success(false)), parseMAC);
      && l'.cache == map[]
      && HandlePropertiesChanged(l', path, signal, Failure(reason), parseMAC).error == Some(GetAllFailed(path, reason))
  {
  }

  // ---------------------------------------------------------------------
  // callAdapterStartDiscoveryWithRetry

  const ResourceNotReady: string := "Resource Not Ready"

  /** The wait before call number `retryNum`; `draw` is the jitter drawn. */
  function RetryWait(retryNum: nat, draw: real): Duration {
    Exponential(retryNum, Second, 5 * Second, 2.0, draw)
  }

  /** How many calls the retry loop makes: it stops at the first success,
      the first error other than "Resource Not Ready", or after call 6. */
  function CallsMade(outcome: nat -> Option<string>, retryNum: nat): (n: nat)
    requires retryNum <= 6
    ensures retryNum < n <= 7
    decreases 6 - retryNum
  {
    if outcome(retryNum) != Some(ResourceNotReady) || retryNum > 5 then retryNum + 1
    else CallsMade(outcome, retryNum + 1)
  }

  /** callAdapterStartDiscoveryWithRetry. `outcome(k)` is the error of call
      k (`None` when it succeeds) and `draw(k)` the jitter drawn before
      it. Returns the waits slept before each call and the result. */
  method StartDiscoveryWithRetry(outcome: nat -> Option<string>, draw: nat -> real)
    returns (waits: seq<Duration>, result: Option<string>)
    ensures 1 <= |waits| <= 7
    ensures waits[0] == 0
    ensures forall k :: 0 <= k < |waits| ==> waits[k] == RetryWait(k, draw(k))
    ensures result == outcome(|waits| - 1)
    ensures forall k :: 0 <= k < |waits| - 1 ==> outcome(k) == Some(ResourceNotReady)
    ensures result != Some(ResourceNotReady) || |waits| == 7
  {
    var retryNum: nat := 0;
    waits := [];
    while true
      invariant retryNum <= 6
      invariant |waits| == retryNum
      invariant forall k :: 0 <= k < retryNum ==> waits[k] == RetryWait(k, draw(k))
      invariant forall k :: 0 <= k < retryNum ==> outcome(k) == Some(ResourceNotReady)
      decreases 6 - retryNum
    {
      waits := waits + [RetryWait(retryNum, draw(retryNum))];
      var err := outcome(retryNum);
      if err.None? {
        return waits, None;
      }
      if err != Some(ResourceNotReady) || retryNum > 5 {
        return waits, err;
      }
      retryNum := retryNum + 1;
    }
  }

  /** The loop makes exactly as many calls as `CallsMade` counts. */
  method StartDiscoveryCallCount(outcome: nat -> Option<string>, draw: nat -> real)
    returns (calls: nat)
    ensures calls == CallsMade(outcome, 0)
  {
    var waits, _ := StartDiscoveryWithRetry(outcome, draw);
    calls := |waits|;
    CallsMadeCharacterised(outcome, 0, |waits|);
  }

  /** `CallsMade` from `retryNum` is the `n` past which the loop would not
      have continued. */
  lemma {:induction false} CallsMadeCharacterised(outcome: nat -> Option<string>, retryNum: nat, n: nat)
    requires retryNum < n <= 7
    requires forall k :: retryNum <= k < n - 1 ==> outcome(k) == Some(ResourceNotReady)
    requires outcome(n - 1) != Some(ResourceNotReady) || n == 7
    ensures CallsMade(outcome, retryNum) == n
    decreases n - retryNum
  {
    if retryNum < n - 1 {
      CallsMadeCharacterised(outcome, retryNum + 1, n);
    }
  }
}
