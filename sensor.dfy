/** The sensor platform. Setting up an entry connects a client of its own,
    probes every row of the sensor-type table in order, turns the embedded
    health payload into one sensor per installed temperature entry and one per
    fan entry, adds the power-on-time and power-state sensors, and writes the
    firmware, BIOS and model strings into the device information that all its
    sensors share. Also the legacy YAML platform, which names one sensor per
    configured variable. */
module Sensor {
  import opened Ilo
  import opened Entry

  /** One row of the sensor-type table: its key, display name, and the library
      function that probes it. */
  datatype SensorType = SensorType(key: string, displayName: string, probe: string)

  /** SENSOR_TYPES, in table order. */
  const SensorTypes: seq<SensorType> := [
    SensorType("server_name", "Server Name", "get_server_name"),
    SensorType("server_fqdn", "Server FQDN", "get_server_fqdn"),
    SensorType("server_host_data", "Server Host Data", "get_host_data"),
    SensorType("server_oa_info", "Server Onboard Administrator Info", "get_oa_info"),
    SensorType("server_power_status", "Server Power state", "get_host_power_status"),
    SensorType("server_power_readings", "Server Power readings", "get_power_readings"),
    SensorType("server_power_on_time", "Server Power On time", "get_server_power_on_time"),
    SensorType("server_asset_tag", "Server Asset Tag", "get_asset_tag"),
    SensorType("server_uid_status", "Server UID light", "get_uid_status"),
    SensorType("server_health", "Server Health", "get_embedded_health"),
    SensorType("network_settings", "Network Settings", "get_network_settings")
  ]

  /** `SENSOR_TYPES[key][1]`: the probe function of the row with the given key. */
  function ProbeOf(types: seq<SensorType>, key: string): Option<string>
  {
    if types == [] then None
    else if types[0].key == key then Some(types[0].probe)
    else ProbeOf(types[1..], key)
  }

  /** The lookup finds a row exactly when some row has the key, and then
      returns the probe function of the first such row. */
  lemma {:induction false} ProbeOfFinds(types: seq<SensorType>, key: string)
    ensures ProbeOf(types, key).Some? <==> exists i :: 0 <= i < |types| && types[i].key == key
    ensures ProbeOf(types, key).Some? ==>
      exists i :: (0 <= i < |types| && types[i].key == key && types[i].probe == ProbeOf(types, key).value
                   && forall j :: 0 <= j < i ==> types[j].key != key)
  {
    if types != [] && types[0].key != key {
      ProbeOfFinds(types[1..], key);
      assert forall i :: 1 <= i < |types| ==> types[i] == types[1..][i - 1];
      if ProbeOf(types, key).Some? {
        var i :| 0 <= i < |types[1..]| && types[1..][i].key == key
          && types[1..][i].probe == ProbeOf(types, key).value && forall j :: 0 <= j < i ==> types[1..][j].key != key;
        assert types[i + 1].key == key;
        assert forall j :: 0 <= j < i + 1 ==> types[j].key != key;
      }
    }
  }

  /** What a probe returned, as far as the setup looks at it. */
  datatype ProbeData =
    | HealthData(health: EmbeddedHealth)          // get_embedded_health
    | HostData(records: seq<SmbiosRecord>)        // get_host_data
    | OtherData                                   // any other probe: only logged

  /** Where a sensor's value is read from when it updates. */
  datatype Reading =
    | TemperatureReading(sensorLabel: string)   // temperature[label].currentreading[0]
    | FanSpeedReading(sensorLabel: string)      // fans[label].speed[0]
    | WholeValue                                // the probe's result itself

  datatype Unit = Celsius | Percentage | Seconds
  datatype DeviceClass = TemperatureClass | EnumClass
  datatype StateClass = Measurement

  /** The constant attributes of one `HpIloDeviceSensor`. */
  datatype SensorDescriptor = SensorDescriptor(
    name: string,
    uniqueId: string,
    sensorType: string,
    reading: Reading,
    unit: Option<Unit>,
    deviceClass: Option<DeviceClass>,
    stateClass: Option<StateClass>,
    options: Option<seq<string>>,
    icon: Option<string>)

  /** The sensor a temperature entry yields: named by its label, in Celsius. */
  function TemperatureSensor(entry: ConfigEntry, e: HealthEntry): SensorDescriptor
  {
    SensorDescriptor(e.sensorLabel, EntityUniqueId(entry, e.sensorLabel), "server_health",
      TemperatureReading(e.sensorLabel), Some(Celsius), Some(TemperatureClass), Some(Measurement), None, None)
  }

  /** The sensor a fan entry yields: named by its label, in percent, with the fan icon. */
  function FanSensor(entry: ConfigEntry, e: HealthEntry): SensorDescriptor
  {
    SensorDescriptor(e.sensorLabel, EntityUniqueId(entry, e.sensorLabel), "server_health",
      FanSpeedReading(e.sensorLabel), Some(Percentage), None, None, None, Some("mdi:fan"))
  }

  /** The sensor of the `server_power_on_time` row, named by the row. */
  function PowerOnTimeSensor(entry: ConfigEntry, t: SensorType): SensorDescriptor
  {
    SensorDescriptor(t.displayName, EntityUniqueId(entry, t.displayName), t.key,
      WholeValue, Some(Seconds), None, None, None, None)
  }

  /** The sensor of the `server_power_status` row, named by the row, an enum of ON and OFF. */
  function PowerStatusSensor(entry: ConfigEntry, t: SensorType): SensorDescriptor
  {
    SensorDescriptor(t.displayName, EntityUniqueId(entry, t.displayName), t.key,
      WholeValue, None, Some(EnumClass), None, Some(["ON", "OFF"]), None)
  }

  /** Every descriptor is identified as `<entry data unique_id>_<its name>`. */
  predicate Identified(entry: ConfigEntry, ds: seq<SensorDescriptor>)
  {
    forall k :: 0 <= k < |ds| ==> ds[k].uniqueId == EntityUniqueId(entry, ds[k].name)
  }

  predicate Installed(e: HealthEntry)
  {
    e.status != NotInstalled
  }

  /** The sensors of a `temperature` category, in its order. */
  function TemperatureSensors(entry: ConfigEntry, es: seq<HealthEntry>): seq<SensorDescriptor>
  {
    if es == [] then []
    else
      var e := es[|es| - 1];
      TemperatureSensors(entry, es[..|es| - 1]) + if Installed(e) then [TemperatureSensor(entry, e)] else []
  }

  /** The entries of a category whose status is not "Not Installed", in order. */
  function InstalledEntries(es: seq<HealthEntry>): (r: seq<HealthEntry>)
    ensures forall k :: 0 <= k < |r| ==> Installed(r[k])
    ensures forall e :: e in es && Installed(e) ==> e in r
    ensures forall e :: e in r ==> e in es
    ensures |r| + NotInstalledCount(es) == |es|
  {
    if es == [] then []
    else
      var p := es[..|es| - 1];
      assert forall e :: e in es ==> e in p || e == es[|es| - 1];
      InstalledEntries(p) + if Installed(es[|es| - 1]) then [es[|es| - 1]] else []
  }

  /** Filtering an entry list extended by one entry extends the filtered
      list by that entry exactly when it is installed, so the filter keeps
      payload order. */
  lemma InstalledEntriesAppend(es: seq<HealthEntry>, e: HealthEntry)
    ensures InstalledEntries(es + [e]) == InstalledEntries(es) + if Installed(e) then [e] else []
  {
    assert (es + [e])[..|es|] == es;
  }

  /** How many entries of a category have status "Not Installed". */
  function NotInstalledCount(es: seq<HealthEntry>): nat
  {
    if es == [] then 0
    else NotInstalledCount(es[..|es| - 1]) + if Installed(es[|es| - 1]) then 0 else 1
  }

  /** The sensors of a `fans` category, in its order. */
  function FanSensors(entry: ConfigEntry, es: seq<HealthEntry>): seq<SensorDescriptor>
  {
    if es == [] then [] else FanSensors(entry, es[..|es| - 1]) + [FanSensor(entry, es[|es| - 1])]
  }

  /** The sensors one health category yields: other categories yield none. */
  function CategorySensors(entry: ConfigEntry, c: HealthCategory): seq<SensorDescriptor>
  {
    match c
    case Temperature(es) => TemperatureSensors(entry, es)
    case Fans(es) => FanSensors(entry, es)
    case FirmwareInformation(_) => []
    case OtherCategory(_) => []
  }

  /** The sensors the embedded health payload yields, in its order. */
  function HealthSensors(entry: ConfigEntry, cats: EmbeddedHealth): seq<SensorDescriptor>
  {
    if cats == [] then []
    else HealthSensors(entry, cats[..|cats| - 1]) + CategorySensors(entry, cats[|cats| - 1])
  }

  /** The software version after the health payload has been walked, starting from `sw`. */
  function FirmwareVersion(cats: EmbeddedHealth, sw: Option<string>): Option<string>
  {
    if cats == [] then sw
    else
      var before := FirmwareVersion(cats[..|cats| - 1], sw);
      match cats[|cats| - 1]
      case FirmwareInformation(v) => Some(v)
      case _ => before
  }

  /** The hardware version and model the device information holds. */
  datatype Versions = Versions(hwVersion: Option<string>, model: Option<string>)

  /** What one SMBIOS record writes: type 0 the BIOS family and date, type 1
      the product name; every other type writes nothing. */
  function ApplyRecord(v: Versions, r: SmbiosRecord): Versions
  {
    match r
    case BiosInformation(family, date) => v.(hwVersion := Some(family + " " + date))
    case SystemInformation(product) => v.(model := Some(product))
    case OtherRecord(_) => v
  }

  /** The versions after the host-data records have been walked in order. */
  function HostVersions(records: seq<SmbiosRecord>, v: Versions): Versions
  {
    if records == [] then v
    else ApplyRecord(HostVersions(records[..|records| - 1], v), records[|records| - 1])
  }

  /** What the setup has built after some rows of the table. */
  datatype SetupState = SetupState(
    sensors: seq<SensorDescriptor>,
    swVersion: Option<string>,
    hwVersion: Option<string>,
    model: Option<string>)

  /** What one successfully probed row adds. */
  function ApplyProbe(entry: ConfigEntry, st: SetupState, t: SensorType, d: ProbeData): SetupState
  {
    if t.key == "server_health" && d.HealthData? then
      st.(sensors := st.sensors + HealthSensors(entry, d.health),
          swVersion := FirmwareVersion(d.health, st.swVersion))
    else if t.key == "server_power_on_time" then
      st.(sensors := st.sensors + [PowerOnTimeSensor(entry, t)])
    else if t.key == "server_power_status" then
      st.(sensors := st.sensors + [PowerStatusSensor(entry, t)])
    else if t.key == "server_host_data" && d.HostData? then
      var v := HostVersions(d.records, Versions(st.hwVersion, st.model));
      st.(hwVersion := v.hwVersion, model := v.model)
    else st
  }

  /** One of the two `except` clauses around each probe catches the error,
      and the row is skipped: `IloNotARackServer`, then `IloFeatureNotSupported`. */
  predicate ProbeSkipped(h: Hierarchy, k: ErrorKind)
  {
    IsInstance(h, k, NotARackServer) || IsInstance(h, k, FeatureNotSupported)
  }

  /** Probe `k` raised an error that neither clause catches. */
  predicate ProbeEscapes(h: Hierarchy, probes: seq<Reply<ProbeData>>, k: int)
    requires 0 <= k < |probes|
  {
    probes[k].Err? && !ProbeSkipped(h, probes[k].error.kind)
  }

  /** The setup after the rows `probes` answers, in table order. */
  function SetupFold(h: Hierarchy, entry: ConfigEntry, probes: seq<Reply<ProbeData>>): Outcome<SetupState>
    requires |probes| <= |SensorTypes|
  {
    if probes == [] then Done(SetupState([], None, None, None))
    else
      var i := |probes| - 1;
      var st :- SetupFold(h, entry, probes[..i]);
      match probes[i]
      case Err(e) => if ProbeSkipped(h, e.kind) then Done(st) else Raised(e)
      case Ok(d) => Done(ApplyProbe(entry, st, SensorTypes[i], d))
  }

  /** The probe functions the setup calls, in the order it calls them. */
  function ProbedFunctions(h: Hierarchy, probes: seq<Reply<ProbeData>>): seq<string>
    requires |probes| <= |SensorTypes|
  {
    TableProbes(RunLength(ProbeFlags(h, probes)))
  }

  /** Which probes raise an error no clause catches. */
  function ProbeFlags(h: Hierarchy, probes: seq<Reply<ProbeData>>): (f: seq<bool>)
    ensures |f| == |probes| && forall k :: 0 <= k < |probes| ==> f[k] == ProbeEscapes(h, probes, k)
  {
    seq(|probes|, k requires 0 <= k < |probes| => ProbeEscapes(h, probes, k))
  }

  /** The probe functions of the first `n` rows of the table. */
  function TableProbes(n: nat): (r: seq<string>)
    requires n <= |SensorTypes|
    ensures |r| == n && forall k :: 0 <= k < n ==> r[k] == SensorTypes[k].probe
  {
    seq(n, k requires 0 <= k < n => SensorTypes[k].probe)
  }

  /** When no probe's error escapes, every row's function is called. */
  lemma ProbedAll(h: Hierarchy, probes: seq<Reply<ProbeData>>)
    requires |probes| <= |SensorTypes|
    requires forall j :: 0 <= j < |probes| ==> !ProbeEscapes(h, probes, j)
    ensures ProbedFunctions(h, probes) == TableProbes(|probes|)
  {
    var f := ProbeFlags(h, probes);
    if |f| > 0 {
      assert NoEscapeBefore(f, |f| - 1);
    }
  }

  /** The functions called are those of the rows up to and including the
      first whose error escapes. */
  lemma ProbedThroughEscape(h: Hierarchy, probes: seq<Reply<ProbeData>>, i: nat)
    requires i < |probes| <= |SensorTypes|
    requires forall j :: 0 <= j < i ==> !ProbeEscapes(h, probes, j)
    requires ProbeEscapes(h, probes, i)
    ensures ProbedFunctions(h, probes) == TableProbes(i + 1)
  {
    var f := ProbeFlags(h, probes);
    assert NoEscapeBefore(f, i);
    if i + 1 < |f| {
      assert !NoEscapeBefore(f, i + 1);
    }
  }

  /** The device information every platform's entities point to; this
      platform's setup writes the version strings into it. */
  class DeviceInfo {
    const identity: DeviceIdentity
    var swVersion: Option<string>
    var hwVersion: Option<string>
    var model: Option<string>

    constructor (identity: DeviceIdentity)
      ensures this.identity == identity && swVersion == None && hwVersion == None && model == None
    {
      this.identity := identity;
      swVersion, hwVersion, model := None, None, None;
    }
  }

  /** An `HpIloDeviceSensor`: its attributes and the device information object it holds. */
  datatype DeviceSensor = DeviceSensor(descriptor: SensorDescriptor, device: DeviceInfo)

  /** The entities for the descriptors, all holding the same device information. */
  function Attach(ds: seq<SensorDescriptor>, d: DeviceInfo): (r: seq<DeviceSensor>)
    ensures |r| == |ds| && forall k :: 0 <= k < |ds| ==> r[k] == DeviceSensor(ds[k], d)
  {
    seq(|ds|, k requires 0 <= k < |ds| => DeviceSensor(ds[k], d))
  }

  lemma AttachConcat(a: seq<SensorDescriptor>, b: seq<SensorDescriptor>, d: DeviceInfo)
    ensures Attach(a + b, d) == Attach(a, d) + Attach(b, d)
  {
  }

  /** The device information shows the versions of a setup state. */
  predicate Shows(d: DeviceInfo, st: SetupState)
    reads d
  {
    d.swVersion == st.swVersion && d.hwVersion == st.hwVersion && d.model == st.model
  }

  /** The sensors of a `temperature` category, built one entry at a time. */
  method AddTemperatureSensors(entry: ConfigEntry, device: DeviceInfo, es: seq<HealthEntry>)
    returns (added: seq<DeviceSensor>)
    ensures added == Attach(TemperatureSensors(entry, es), device)
  {
    added := [];
    var i := 0;
    while i < |es|
      invariant 0 <= i <= |es|
      invariant added == Attach(TemperatureSensors(entry, es[..i]), device)
    {
      assert es[..i + 1][..i] == es[..i];
      if es[i].status != NotInstalled {
        AttachConcat(TemperatureSensors(entry, es[..i]), [TemperatureSensor(entry, es[i])], device);
        added := added + [DeviceSensor(TemperatureSensor(entry, es[i]), device)];
      }
      i := i + 1;
    }
    assert es[..i] == es;
  }

  /** The sensors of a `fans` category, built one entry at a time. */
  method AddFanSensors(entry: ConfigEntry, device: DeviceInfo, es: seq<HealthEntry>)
    returns (added: seq<DeviceSensor>)
    ensures added == Attach(FanSensors(entry, es), device)
  {
    added := [];
    var i := 0;
    while i < |es|
      invariant 0 <= i <= |es|
      invariant added == Attach(FanSensors(entry, es[..i]), device)
    {
      assert es[..i + 1][..i] == es[..i];
      AttachConcat(FanSensors(entry, es[..i]), [FanSensor(entry, es[i])], device);
      added := added + [DeviceSensor(FanSensor(entry, es[i]), device)];
      i := i + 1;
    }
    assert es[..i] == es;
  }

  /** Walks the health payload: sensors for temperatures and fans, the
      software version from `firmware_information`. */
  method AddHealthSensors(entry: ConfigEntry, device: DeviceInfo, cats: EmbeddedHealth)
    returns (added: seq<DeviceSensor>)
    modifies device`swVersion
    ensures added == Attach(HealthSensors(entry, cats), device)
    ensures device.swVersion == FirmwareVersion(cats, old(device.swVersion))
  {
    added := [];
    var i := 0;
    while i < |cats|
      invariant 0 <= i <= |cats|
      invariant added == Attach(HealthSensors(entry, cats[..i]), device)
      invariant device.swVersion == FirmwareVersion(cats[..i], old(device.swVersion))
    {
      assert cats[..i + 1][..i] == cats[..i];
      var more: seq<DeviceSensor> := [];
      match cats[i] {
        case Temperature(es) =>
          more := AddTemperatureSensors(entry, device, es);
        case Fans(es) =>
          more := AddFanSensors(entry, device, es);
        case FirmwareInformation(v) =>
          device.swVersion := Some(v);
        case OtherCategory(_) =>
      }
      AttachConcat(HealthSensors(entry, cats[..i]), CategorySensors(entry, cats[i]), device);
      added := added + more;
      i := i + 1;
    }
    assert cats[..i] == cats;
  }

  /** Walks the SMBIOS records, overwriting the hardware version and model. */
  method ApplyHostData(device: DeviceInfo, records: seq<SmbiosRecord>)
    modifies device`hwVersion, device`model
    ensures Versions(device.hwVersion, device.model)
      == HostVersions(records, Versions(old(device.hwVersion), old(device.model)))
  {
    var i := 0;
    while i < |records|
      invariant 0 <= i <= |records|
      invariant Versions(device.hwVersion, device.model)
        == HostVersions(records[..i], Versions(old(device.hwVersion), old(device.model)))
    {
      assert records[..i + 1][..i] == records[..i];
      match records[i] {
        case BiosInformation(family, date) =>
          device.hwVersion := Some(family + " " + date);
        case SystemInformation(product) =>
          device.model := Some(product);
        case OtherRecord(_) =>
      }
      i := i + 1;
    }
    assert records[..i] == records;
  }

  /** The `except (hpilo.IloError, hpilo.IloCommunicationError, hpilo.IloLoginFailed)`
      around creating the client of the legacy data holder. */
  const LegacyConnectCatch: seq<ErrorKind> := [OtherIloError, CommunicationError, LoginFailed]

  /** What creating the legacy `HpIloData(host, port, login, password)` gives. */
  datatype LegacyData =
    | Connected(client: IloClient)
    | InitFailed(message: string)     // raise ValueError(message)
    | ConnectRaised(error: IloError)  // an error no clause catches

  function LegacyConnect(h: Hierarchy, host: string, port: int, login: string, password: string,
                         connect: Option<IloError>): LegacyData
  {
    match connect
    case None => Connected(IloClient(host, login, password, port))
    case Some(e) =>
      if CaughtBy(h, e.kind, LegacyConnectCatch) then InitFailed("Unable to init HP ILO, " + e.message)
      else ConnectRaised(e)
  }

  /** Creating the legacy holder: the client is built from exactly the given
      host, credentials and port when the library raises nothing; an error the
      clause catches becomes ValueError, its message prefixed; any other
      error escapes as raised. */
  lemma LegacyConnectCases(h: Hierarchy, host: string, port: int, login: string, password: string,
                           connect: Option<IloError>)
    ensures var d := LegacyConnect(h, host, port, login, password, connect);
      (d.Connected? <==> connect.None?)
      && (d.Connected? ==> d.client == IloClient(host, login, password, port))
      && (d.InitFailed? <==> connect.Some? && CaughtBy(h, connect.value.kind, LegacyConnectCatch))
      && (d.InitFailed? ==> d.message == "Unable to init HP ILO, " + connect.value.message)
      && (d.ConnectRaised? <==> connect.Some? && !CaughtBy(h, connect.value.kind, LegacyConnectCatch))
      && (d.ConnectRaised? ==> d.error == connect.value)
  {
  }

  /** How the `try` that opens an entry's platform setup ends. */
  datatype Prelude =
    | Ready(client: IloClient)
    | Abandoned                       // ValueError caught: the setup returns, adding nothing
    | PreludeRaised(error: IloError)  // the setup raises

  /** `port = int(entry.data['port'])` and `HpIloData(...)`, inside `except ValueError`. */
  function SetupPrelude(h: Hierarchy, entry: ConfigEntry, connect: Option<IloError>): Prelude
  {
    match ParseInt(entry.data.port)
    case None => Abandoned
    case Some(port) =>
      match LegacyConnect(h, entry.data.host, port, entry.data.username, entry.data.password, connect)
      case Connected(c) => Ready(c)
      case InitFailed(_) => Abandoned
      case ConnectRaised(e) => PreludeRaised(e)
  }

  /** The prelude's three ways out: an unreadable port or a library error the
      legacy holder turns into ValueError abandons the setup; an error it does
      not catch escapes; otherwise the client is created from the entry. */
  lemma PreludeCases(h: Hierarchy, entry: ConfigEntry, connect: Option<IloError>)
    ensures ParseInt(entry.data.port).None? ==> SetupPrelude(h, entry, connect) == Abandoned
    ensures (ParseInt(entry.data.port).Some? && connect.Some?
             && CaughtBy(h, connect.value.kind, LegacyConnectCatch)) ==> SetupPrelude(h, entry, connect) == Abandoned
    ensures (ParseInt(entry.data.port).Some? && connect.Some?
             && !CaughtBy(h, connect.value.kind, LegacyConnectCatch)) ==>
      SetupPrelude(h, entry, connect) == PreludeRaised(connect.value)
    ensures ParseInt(entry.data.port).Some? && connect.None? ==>
      SetupPrelude(h, entry, connect) == Ready(IloClient(entry.data.host, entry.data.username,
                                                         entry.data.password, ParseInt(entry.data.port).value))
  {
  }

  /** The branch of the setup loop for a row whose probe returned `d`. */
  method AddProbedRow(entry: ConfigEntry, device: DeviceInfo, sensors: seq<DeviceSensor>,
                      ghost st: SetupState, t: SensorType, d: ProbeData)
    returns (sensors': seq<DeviceSensor>)
    requires sensors == Attach(st.sensors, device) && Shows(device, st)
    modifies device`swVersion, device`hwVersion, device`model
    ensures sensors' == Attach(ApplyProbe(entry, st, t, d).sensors, device)
    ensures Shows(device, ApplyProbe(entry, st, t, d))
  {
    sensors' := sensors;
    if t.key == "server_health" && d.HealthData? {
      var added := AddHealthSensors(entry, device, d.health);
      AttachConcat(st.sensors, HealthSensors(entry, d.health), device);
      sensors' := sensors + added;
    } else if t.key == "server_power_on_time" {
      AttachConcat(st.sensors, [PowerOnTimeSensor(entry, t)], device);
      sensors' := sensors + [DeviceSensor(PowerOnTimeSensor(entry, t), device)];
    } else if t.key == "server_power_status" {
      AttachConcat(st.sensors, [PowerStatusSensor(entry, t)], device);
      sensors' := sensors + [DeviceSensor(PowerStatusSensor(entry, t), device)];
    } else if t.key == "server_host_data" && d.HostData? {
      ApplyHostData(device, d.records);
    }
  }

  /** What `async_setup_entry` of the sensor platform ends with. */
  datatype SetupResult =
    | NotSetUp                           // returned before adding entities
    | SetupRaised(error: IloError)       // raised; no entities were added
    | Added(sensors: seq<DeviceSensor>, device: DeviceInfo)

  /** `async_setup_entry`: probes each row of the table in order and builds
      the sensors and the shared device information from the answers. */
  method SetupEntry(h: Hierarchy, entry: ConfigEntry, connect: Option<IloError>, probes: seq<Reply<ProbeData>>)
    returns (result: SetupResult, probed: seq<string>)
    requires |probes| == |SensorTypes|
    ensures SetupPrelude(h, entry, connect).Abandoned? ==> result == NotSetUp && probed == []
    ensures SetupPrelude(h, entry, connect).PreludeRaised? ==>
      result == SetupRaised(SetupPrelude(h, entry, connect).error) && probed == []
    ensures SetupPrelude(h, entry, connect).Ready? ==> probed == ProbedFunctions(h, probes)
    ensures SetupPrelude(h, entry, connect).Ready? && SetupFold(h, entry, probes).Raised? ==>
      result == SetupRaised(SetupFold(h, entry, probes).error)
    ensures SetupPrelude(h, entry, connect).Ready? && SetupFold(h, entry, probes).Done? ==>
      result.Added? && fresh(result.device)
      && result.sensors == Attach(SetupFold(h, entry, probes).value.sensors, result.device)
      && result.device.identity == DeviceIdentityFor(entry)
      && Shows(result.device, SetupFold(h, entry, probes).value)
  {
    probed := [];
    var prelude := SetupPrelude(h, entry, connect);
    if prelude.Abandoned? {
      return NotSetUp, probed;
    }
    if prelude.PreludeRaised? {
      return SetupRaised(prelude.error), probed;
    }
    var device := new DeviceInfo(DeviceIdentityFor(entry));
    result, probed := ProbeTable(h, entry, probes, device);
  }

  /** The loop of `async_setup_entry` over the table, on the new device information. */
  method ProbeTable(h: Hierarchy, entry: ConfigEntry, probes: seq<Reply<ProbeData>>, device: DeviceInfo)
    returns (result: SetupResult, probed: seq<string>)
    requires |probes| == |SensorTypes|
    requires device.swVersion == None && device.hwVersion == None && device.model == None
    modifies device`swVersion, device`hwVersion, device`model
    ensures probed == ProbedFunctions(h, probes)
    ensures SetupFold(h, entry, probes).Raised? ==> result == SetupRaised(SetupFold(h, entry, probes).error)
    ensures SetupFold(h, entry, probes).Done? ==>
      result == Added(Attach(SetupFold(h, entry, probes).value.sensors, device), device)
      && Shows(device, SetupFold(h, entry, probes).value)
  {
    probed := [];
    var sensors: seq<DeviceSensor> := [];
    ghost var st := SetupState([], None, None, None);
    var i := 0;
    while i < |probes|
      invariant 0 <= i <= |probes|
      invariant forall j :: 0 <= j < i ==> !ProbeEscapes(h, probes, j)
      invariant probed == TableProbes(i)
      invariant SetupFold(h, entry, probes[..i]) == Done(st)
      invariant sensors == Attach(st.sensors, device) && Shows(device, st)
    {
      probed := probed + [SensorTypes[i].probe];
      assert probed == TableProbes(i + 1);
      var escaped;
      sensors, escaped := ProbeRow(h, entry, probes, i, device, sensors, st);
      if escaped {
        SetupRaisesAtFirstEscape(h, entry, probes, i);
        ProbedThroughEscape(h, probes, i);
        return SetupRaised(probes[i].error), probed;
      }
      st := SetupFold(h, entry, probes[..i + 1]).value;
      i := i + 1;
    }
    assert probes[..i] == probes;
    ProbedAll(h, probes);
    return Added(sensors, device), probed;
  }

  /** One pass of the loop: probe row `i`, skip it when the error is caught,
      raise when it is not, and otherwise add what the row yields. */
  method ProbeRow(h: Hierarchy, entry: ConfigEntry, probes: seq<Reply<ProbeData>>, i: nat,
                  device: DeviceInfo, sensors: seq<DeviceSensor>, ghost st: SetupState)
    returns (sensors': seq<DeviceSensor>, escaped: bool)
    requires i < |probes| == |SensorTypes|
    requires SetupFold(h, entry, probes[..i]) == Done(st)
    requires sensors == Attach(st.sensors, device) && Shows(device, st)
    modifies device`swVersion, device`hwVersion, device`model
    ensures escaped == ProbeEscapes(h, probes, i)
    ensures !escaped ==>
      SetupFold(h, entry, probes[..i + 1]).Done?
      && sensors' == Attach(SetupFold(h, entry, probes[..i + 1]).value.sensors, device)
      && Shows(device, SetupFold(h, entry, probes[..i + 1]).value)
  {
    assert probes[..i + 1][..i] == probes[..i];
    sensors', escaped := sensors, false;
    match probes[i] {
      case Err(e) =>
        escaped := !ProbeSkipped(h, e.kind);
      case Ok(d) =>
        sensors' := AddProbedRow(entry, device, sensors, st, SensorTypes[i], d);
    }
  }

  /** The setup fails exactly at the first probe whose error escapes, with
      that error; when no probe's error escapes, it completes. */
  lemma {:induction false} SetupRaisesAtFirstEscape(h: Hierarchy, entry: ConfigEntry,
                                                    probes: seq<Reply<ProbeData>>, k: int)
    requires |probes| <= |SensorTypes|
    requires 0 <= k < |probes| && ProbeEscapes(h, probes, k)
    requires forall j :: 0 <= j < k ==> !ProbeEscapes(h, probes, j)
    ensures SetupFold(h, entry, probes) == Raised(probes[k].error)
  {
    var i := |probes| - 1;
    if k < i {
      assert forall j :: 0 <= j < i ==> ProbeEscapes(h, probes[..i], j) == ProbeEscapes(h, probes, j);
      SetupRaisesAtFirstEscape(h, entry, probes[..i], k);
    } else {
      assert forall j :: 0 <= j < i ==> ProbeEscapes(h, probes[..i], j) == ProbeEscapes(h, probes, j);
      SetupCompletes(h, entry, probes[..i]);
    }
  }

  lemma {:induction false} SetupCompletes(h: Hierarchy, entry: ConfigEntry, probes: seq<Reply<ProbeData>>)
    requires |probes| <= |SensorTypes|
    requires forall j :: 0 <= j < |probes| ==> !ProbeEscapes(h, probes, j)
    ensures SetupFold(h, entry, probes).Done?
  {
    if probes != [] {
      var i := |probes| - 1;
      assert forall j :: 0 <= j < i ==> ProbeEscapes(h, probes[..i], j) == ProbeEscapes(h, probes, j);
      SetupCompletes(h, entry, probes[..i]);
      assert !ProbeEscapes(h, probes, i);
    }
  }

  /** Each probe that raises `IloNotARackServer` or `IloFeatureNotSupported`
      is skipped: its row adds no sensor and changes no version, and later
      rows are still probed. */
  lemma SkippedProbeAddsNothing(h: Hierarchy, entry: ConfigEntry, probes: seq<Reply<ProbeData>>, k: nat)
    requires k < |probes| <= |SensorTypes|
    requires probes[k].Err? && ProbeSkipped(h, probes[k].error.kind)
    ensures SetupFold(h, entry, probes[..k + 1]) == SetupFold(h, entry, probes[..k])
  {
    assert probes[..k + 1][..k] == probes[..k];
  }

  /** Of a successfully probed row, `server_power_on_time` and
      `server_power_status` add exactly one sensor named by the row,
      `server_health` adds its health sensors and software version,
      `server_host_data` only changes versions, and every other row adds nothing. */
  lemma ProbedRowEffect(entry: ConfigEntry, st: SetupState, k: nat, d: ProbeData)
    requires k < |SensorTypes|
    ensures SensorTypes[k].key == "server_power_on_time" ==>
      ApplyProbe(entry, st, SensorTypes[k], d).sensors == st.sensors + [PowerOnTimeSensor(entry, SensorTypes[k])]
      && PowerOnTimeSensor(entry, SensorTypes[k]).name == "Server Power On time"
    ensures SensorTypes[k].key == "server_power_status" ==>
      ApplyProbe(entry, st, SensorTypes[k], d).sensors == st.sensors + [PowerStatusSensor(entry, SensorTypes[k])]
      && PowerStatusSensor(entry, SensorTypes[k]).name == "Server Power state"
      && PowerStatusSensor(entry, SensorTypes[k]).options == Some(["ON", "OFF"])
    ensures SensorTypes[k].key == "server_host_data" ==>
      ApplyProbe(entry, st, SensorTypes[k], d).sensors == st.sensors
      && ApplyProbe(entry, st, SensorTypes[k], d).swVersion == st.swVersion
    ensures SensorTypes[k].key !in {"server_health", "server_power_on_time", "server_power_status", "server_host_data"}
      ==> ApplyProbe(entry, st, SensorTypes[k], d) == st
  {
  }

  /** Every temperature sensor comes from an entry that is not "Not
      Installed", every such entry yields its sensor, and the sensors number
      exactly the installed entries: the k-th sensor is that of the k-th
      installed entry, so order and multiplicity follow the payload. */
  lemma {:induction false} TemperatureSensorsOfInstalled(entry: ConfigEntry, es: seq<HealthEntry>)
    ensures |TemperatureSensors(entry, es)| == |InstalledEntries(es)|
    ensures forall k :: 0 <= k < |InstalledEntries(es)| ==>
      TemperatureSensors(entry, es)[k] == TemperatureSensor(entry, InstalledEntries(es)[k])
    ensures forall s :: s in TemperatureSensors(entry, es) ==>
      exists k :: 0 <= k < |es| && Installed(es[k]) && s == TemperatureSensor(entry, es[k])
    ensures forall k :: 0 <= k < |es| && Installed(es[k]) ==> TemperatureSensor(entry, es[k]) in TemperatureSensors(entry, es)
    ensures |TemperatureSensors(entry, es)| + NotInstalledCount(es) == |es|
  {
    if es != [] {
      var p := es[..|es| - 1];
      TemperatureSensorsOfInstalled(entry, p);
      assert forall k :: 0 <= k < |p| ==> p[k] == es[k];
    }
  }

  /** Each fan entry yields exactly one sensor, in order, with no status filter. */
  lemma {:induction false} FanSensorsOnePerEntry(entry: ConfigEntry, es: seq<HealthEntry>)
    ensures |FanSensors(entry, es)| == |es|
    ensures forall k :: 0 <= k < |es| ==> FanSensors(entry, es)[k] == FanSensor(entry, es[k])
  {
    if es != [] {
      var p := es[..|es| - 1];
      FanSensorsOnePerEntry(entry, p);
      assert forall k :: 0 <= k < |p| ==> p[k] == es[k];
    }
  }

  /** The health payload's sensors are those of its categories in payload order. */
  lemma {:induction false} HealthSensorsConcat(entry: ConfigEntry, a: EmbeddedHealth, b: EmbeddedHealth)
    ensures HealthSensors(entry, a + b) == HealthSensors(entry, a) + HealthSensors(entry, b)
  {
    if b != [] {
      var p := b[..|b| - 1];
      assert (a + b)[..|a + b| - 1] == a + p;
      HealthSensorsConcat(entry, a, p);
    } else {
      assert a + b == a;
    }
  }

  /** The software version is the `'iLO'` value of the last `firmware_information`. */
  lemma {:induction false} FirmwareVersionLastWins(cats: EmbeddedHealth, sw: Option<string>, k: nat)
    requires k < |cats| && cats[k].FirmwareInformation?
    requires forall j :: k < j < |cats| ==> !cats[j].FirmwareInformation?
    ensures FirmwareVersion(cats, sw) == Some(cats[k].iloVersion)
  {
    if k < |cats| - 1 {
      FirmwareVersionLastWins(cats[..|cats| - 1], sw, k);
    }
  }

  /** Without a `firmware_information` category the software version is unchanged. */
  lemma {:induction false} FirmwareVersionKept(cats: EmbeddedHealth, sw: Option<string>)
    requires forall j :: 0 <= j < |cats| ==> !cats[j].FirmwareInformation?
    ensures FirmwareVersion(cats, sw) == sw
  {
    if cats != [] {
      FirmwareVersionKept(cats[..|cats| - 1], sw);
    }
  }

  /** The hardware version is "<Family> <Date>" of the last type-0 record. */
  lemma {:induction false} BiosVersionLastWins(records: seq<SmbiosRecord>, v: Versions, k: nat)
    requires k < |records| && records[k].BiosInformation?
    requires forall j :: k < j < |records| ==> !records[j].BiosInformation?
    ensures HostVersions(records, v).hwVersion == Some(records[k].family + " " + records[k].date)
  {
    if k < |records| - 1 {
      BiosVersionLastWins(records[..|records| - 1], v, k);
    }
  }

  /** The model is the Product Name of the last type-1 record. */
  lemma {:induction false} ModelLastWins(records: seq<SmbiosRecord>, v: Versions, k: nat)
    requires k < |records| && records[k].SystemInformation?
    requires forall j :: k < j < |records| ==> !records[j].SystemInformation?
    ensures HostVersions(records, v).model == Some(records[k].productName)
  {
    if k < |records| - 1 {
      ModelLastWins(records[..|records| - 1], v, k);
    }
  }

  /** Walking two lists of records is walking the first and then the second. */
  lemma {:induction false} HostVersionsConcat(a: seq<SmbiosRecord>, b: seq<SmbiosRecord>, v: Versions)
    ensures HostVersions(a + b, v) == HostVersions(b, HostVersions(a, v))
  {
    if b == [] {
      assert a + b == a;
    } else {
      assert (a + b)[..|a + b| - 1] == a + b[..|b| - 1];
      HostVersionsConcat(a, b[..|b| - 1], v);
    }
  }

  /** A record of a type other than 0 and 1 changes nothing, wherever it
      stands among the others. */
  lemma {:induction false} OtherRecordChangesNothing(a: seq<SmbiosRecord>, t: OtherRecordType, b: seq<SmbiosRecord>, v: Versions)
    ensures HostVersions(a + [OtherRecord(t)] + b, v) == HostVersions(a + b, v)
  {
    HostVersionsConcat(a + [OtherRecord(t)], b, v);
    HostVersionsConcat(a, [OtherRecord(t)], v);
    HostVersionsConcat(a, b, v);
    assert [OtherRecord(t)][..0] == [];
  }

  /** A list made only of records of other types changes nothing. */
  lemma {:induction false} OtherRecordsChangeNothing(records: seq<SmbiosRecord>, v: Versions)
    requires forall j :: 0 <= j < |records| ==> records[j].OtherRecord?
    ensures HostVersions(records, v) == v
  {
    if records != [] {
      OtherRecordsChangeNothing(records[..|records| - 1], v);
    }
  }

  /** Without a type-0 record the hardware version stays as it was, whatever
      type-1 and other records there are. */
  lemma {:induction false} BiosVersionKept(records: seq<SmbiosRecord>, v: Versions)
    requires forall j :: 0 <= j < |records| ==> !records[j].BiosInformation?
    ensures HostVersions(records, v).hwVersion == v.hwVersion
  {
    if records != [] {
      BiosVersionKept(records[..|records| - 1], v);
    }
  }

  /** Without a type-1 record the model stays as it was, whatever type-0 and
      other records there are. */
  lemma {:induction false} ModelKept(records: seq<SmbiosRecord>, v: Versions)
    requires forall j :: 0 <= j < |records| ==> !records[j].SystemInformation?
    ensures HostVersions(records, v).model == v.model
  {
    if records != [] {
      ModelKept(records[..|records| - 1], v);
    }
  }

  /** Every sensor a setup creates has the unique id `<entry data unique_id>_<its name>`. */
  lemma {:induction false} SetupSensorsIdentified(h: Hierarchy, entry: ConfigEntry, probes: seq<Reply<ProbeData>>)
    requires |probes| <= |SensorTypes|
    requires SetupFold(h, entry, probes).Done?
    ensures Identified(entry, SetupFold(h, entry, probes).value.sensors)
  {
    if probes != [] {
      var i := |probes| - 1;
      SetupSensorsIdentified(h, entry, probes[..i]);
      if probes[i].Ok? && probes[i].value.HealthData? {
        HealthSensorsIdentified(entry, probes[i].value.health);
      }
    }
  }

  lemma {:induction false} HealthSensorsIdentified(entry: ConfigEntry, cats: EmbeddedHealth)
    ensures Identified(entry, HealthSensors(entry, cats))
  {
    if cats != [] {
      HealthSensorsIdentified(entry, cats[..|cats| - 1]);
      match cats[|cats| - 1]
      case Temperature(es) => TemperatureSensorsIdentified(entry, es);
      case Fans(es) => FanSensorsOnePerEntry(entry, es);
      case FirmwareInformation(_) =>
      case OtherCategory(_) =>
    }
  }

  lemma {:induction false} TemperatureSensorsIdentified(entry: ConfigEntry, es: seq<HealthEntry>)
    ensures Identified(entry, TemperatureSensors(entry, es))
  {
    if es != [] {
      TemperatureSensorsIdentified(entry, es[..|es| - 1]);
    }
  }

  /** The payload of the repository's test fixture: two installed temperature
      sensors, two fans, the firmware table and some categories left alone. */
  const FixtureHealth: EmbeddedHealth := [
    OtherCategory("health_at_a_glance"),
    Fans([HealthEntry("Fan 1", "OK"), HealthEntry("Fan 2", "OK")]),
    Temperature([HealthEntry("01-Inlet Ambient", "OK"), HealthEntry("02-CPU 1", "OK")]),
    OtherCategory("power_supplies"),
    FirmwareInformation("2.53 Feb 17 2017"),
    OtherCategory("glance-seperator")
  ]

  /** The fixture yields the two fan sensors and then the two temperature
      sensors, and sets the software version to the iLO firmware string;
      a "Not Installed" temperature entry added to it would yield nothing. */
  lemma FixtureHealthSensors(entry: ConfigEntry)
    ensures HealthSensors(entry, FixtureHealth) == [
      FanSensor(entry, HealthEntry("Fan 1", "OK")),
      FanSensor(entry, HealthEntry("Fan 2", "OK")),
      TemperatureSensor(entry, HealthEntry("01-Inlet Ambient", "OK")),
      TemperatureSensor(entry, HealthEntry("02-CPU 1", "OK"))]
    ensures FirmwareVersion(FixtureHealth, None) == Some("2.53 Feb 17 2017")
    ensures TemperatureSensors(entry, [HealthEntry("01-Inlet Ambient", "OK"), HealthEntry("Battery", NotInstalled)])
      == [TemperatureSensor(entry, HealthEntry("01-Inlet Ambient", "OK"))]
  {
    var fan1, fan2 := HealthEntry("Fan 1", "OK"), HealthEntry("Fan 2", "OK");
    var t1, t2 := HealthEntry("01-Inlet Ambient", "OK"), HealthEntry("02-CPU 1", "OK");
    FixtureCategories(entry);
    var f := FixtureHealth;
    assert f[..1] == [f[0]] && f[..1][..0] == [];
    assert HealthSensors(entry, f[..1]) == [] && FirmwareVersion(f[..1], None) == None;
    assert f[..2][..1] == f[..1];
    assert HealthSensors(entry, f[..2]) == [FanSensor(entry, fan1), FanSensor(entry, fan2)];
    assert f[..3][..2] == f[..2];
    assert HealthSensors(entry, f[..3]) == [FanSensor(entry, fan1), FanSensor(entry, fan2),
                                            TemperatureSensor(entry, t1), TemperatureSensor(entry, t2)];
    assert FirmwareVersion(f[..3], None) == None;
    assert f[..4][..3] == f[..3];
    assert f[..5][..4] == f[..4];
    assert HealthSensors(entry, f[..5]) == HealthSensors(entry, f[..3]);
    assert FirmwareVersion(f[..5], None) == Some("2.53 Feb 17 2017");
    assert f[..5] == f[..|f| - 1];
  }

  lemma FixtureCategories(entry: ConfigEntry)
    ensures FanSensors(entry, [HealthEntry("Fan 1", "OK"), HealthEntry("Fan 2", "OK")])
      == [FanSensor(entry, HealthEntry("Fan 1", "OK")), FanSensor(entry, HealthEntry("Fan 2", "OK"))]
    ensures TemperatureSensors(entry, [HealthEntry("01-Inlet Ambient", "OK"), HealthEntry("02-CPU 1", "OK")])
      == [TemperatureSensor(entry, HealthEntry("01-Inlet Ambient", "OK")),
          TemperatureSensor(entry, HealthEntry("02-CPU 1", "OK"))]
    ensures TemperatureSensors(entry, [HealthEntry("01-Inlet Ambient", "OK"), HealthEntry("Battery", NotInstalled)])
      == [TemperatureSensor(entry, HealthEntry("01-Inlet Ambient", "OK"))]
  {
    var fan1, fan2 := HealthEntry("Fan 1", "OK"), HealthEntry("Fan 2", "OK");
    var t1, t2 := HealthEntry("01-Inlet Ambient", "OK"), HealthEntry("02-CPU 1", "OK");
    assert [fan1, fan2][..1] == [fan1] && [fan1][..0] == [];
    assert FanSensors(entry, [fan1]) == [FanSensor(entry, fan1)];
    assert [t1, t2][..1] == [t1] && [t1][..0] == [];
    assert TemperatureSensors(entry, [t1]) == [TemperatureSensor(entry, t1)];
    assert [t1, HealthEntry("Battery", NotInstalled)][..1] == [t1];
  }

  /** One configured variable of the legacy YAML platform. */
  datatype MonitoredVariable = MonitoredVariable(name: string, sensorType: string)

  /** The validated YAML configuration; the schema fills in the name "HP ILO"
      when none is configured. */
  datatype PlatformConfig = PlatformConfig(
    host: string, port: int, username: string, password: string,
    name: string, monitored: seq<MonitoredVariable>)

  /** An `HpIloSensor` of the legacy platform: its name and its probe function. */
  datatype LegacySensor = LegacySensor(name: string, probe: string)

  /** The sensor a configured variable yields: named `<config name> <variable
      name>`, probing the function its type's row names. */
  function LegacySensorFor(config: PlatformConfig, v: MonitoredVariable): LegacySensor
    requires ProbeOf(SensorTypes, v.sensorType).Some?
  {
    LegacySensor(config.name + " " + v.name, ProbeOf(SensorTypes, v.sensorType).value)
  }

  datatype PlatformResult =
    | PlatformNotSetUp                   // ValueError logged, nothing added
    | PlatformRaised(error: IloError)
    | PlatformAdded(sensors: seq<LegacySensor>)

  /** `setup_platform`: one sensor per configured variable, in order, named
      `<config name> <variable name>` and probing its type's function. */
  method SetupPlatform(h: Hierarchy, config: PlatformConfig, connect: Option<IloError>)
    returns (result: PlatformResult)
    requires forall k :: 0 <= k < |config.monitored| ==> ProbeOf(SensorTypes, config.monitored[k].sensorType).Some?
    ensures LegacyConnect(h, config.host, config.port, config.username, config.password, connect).InitFailed?
      ==> result == PlatformNotSetUp
    ensures LegacyConnect(h, config.host, config.port, config.username, config.password, connect).ConnectRaised?
      ==> result == PlatformRaised(connect.value)
    ensures connect.None? ==>
      result.PlatformAdded? && |result.sensors| == |config.monitored|
      && forall k :: 0 <= k < |config.monitored| ==> result.sensors[k] == LegacySensorFor(config, config.monitored[k])
  {
    var data := LegacyConnect(h, config.host, config.port, config.username, config.password, connect);
    if data.InitFailed? {
      return PlatformNotSetUp;
    }
    if data.ConnectRaised? {
      return PlatformRaised(data.error);
    }
    var devices := LegacySensors(config);
    return PlatformAdded(devices);
  }

  /** The loop of `setup_platform` over the configured variables. */
  method LegacySensors(config: PlatformConfig) returns (devices: seq<LegacySensor>)
    requires forall k :: 0 <= k < |config.monitored| ==> ProbeOf(SensorTypes, config.monitored[k].sensorType).Some?
    ensures |devices| == |config.monitored|
    ensures forall k :: 0 <= k < |config.monitored| ==> devices[k] == LegacySensorFor(config, config.monitored[k])
  {
    devices := [];
    var i := 0;
    while i < |config.monitored|
      invariant 0 <= i <= |config.monitored|
      invariant |devices| == i
      invariant forall k :: 0 <= k < i ==> devices[k] == LegacySensorFor(config, config.monitored[k])
    {
      var v := config.monitored[i];
      devices := devices + [LegacySensorFor(config, v)];
      i := i + 1;
    }
  }
}
