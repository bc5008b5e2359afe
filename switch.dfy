/** The switch platform: one power-control switch over a client of its own,
    created when reading the power status works. It polls the power status,
    and turning it on or off sends `set_host_power`. */
module Switch {
  import opened Ilo
  import opened Entry
  import Sensor
  import Coordinator
  import BinarySensor

  const SwitchSuffix: string := "set_host_power"
  const SwitchName: string := "Server Power Control"

  /** `except (hpilo.IloError, hpilo.IloCommunicationError)` of `update`,
      `async_turn_on` and `async_turn_off`. */
  const CommandCatch: seq<ErrorKind> := [OtherIloError, CommunicationError]

  /** `except (hpilo.IloError, hpilo.IloFeatureNotSupported)` around the probe of the setup. */
  const SetupCatch: seq<ErrorKind> := [OtherIloError, FeatureNotSupported]

  /** How a call of the integration's own code ends. */
  datatype CallResult =
    | Completed
    | ValueErrorRaised(message: string)   // from recreating the client
    | IloRaised(error: IloError)

  /** The switch state after `update`, and how `update` ended. */
  datatype UpdateStep = UpdateStep(isOn: Option<bool>, result: CallResult)

  /** `update`: `refresh` is None when the throttle skipped recreating the
      client, and otherwise what recreating it raised (None when it worked).
      A failed refresh escapes and leaves the state alone; a read power
      status sets the state; a read error the clause catches is logged and
      leaves the state alone; any other read error escapes. */
  function AfterUpdate(h: Hierarchy, client: IloClient, isOn: Option<bool>,
                       refresh: Option<Option<IloError>>, reply: Reply<string>): UpdateStep
  {
    var data := if refresh.None? then Sensor.Connected(client)
                else Sensor.LegacyConnect(h, client.hostname, client.port, client.login, client.password, refresh.value);
    match data
    case InitFailed(m) => UpdateStep(isOn, ValueErrorRaised(m))
    case ConnectRaised(e) => UpdateStep(isOn, IloRaised(e))
    case Connected(_) =>
      match reply
      case Ok(status) => UpdateStep(Some(status == "ON"), Completed)
      case Err(e) =>
        if CaughtBy(h, e.kind, CommandCatch) then UpdateStep(isOn, Completed) else UpdateStep(isOn, IloRaised(e))
  }

  /** `HpIloPowerSwitch`, disabled by default. */
  class HpIloPowerSwitch {
    const client: IloClient   // `hp_ilo_data.data`
    const deviceInfo: DeviceIdentity
    const name: string
    const uniqueId: string
    const enabledByDefault: bool
    var isOn: Option<bool>

    constructor (entry: ConfigEntry, client: IloClient)
      ensures this.client == client && deviceInfo == DeviceIdentityFor(entry)
      ensures name == SwitchName && uniqueId == EntityUniqueId(entry, SwitchSuffix)
      ensures !enabledByDefault && isOn == None
    {
      this.client := client;
      deviceInfo := DeviceIdentityFor(entry);
      name := SwitchName;
      uniqueId := EntityUniqueId(entry, SwitchSuffix);
      enabledByDefault := false;
      isOn := None;
    }

    /** The `is_on` property: the stored state itself. */
    function IsOn(): (on: Option<bool>)
      reads this
      ensures on == isOn
    {
      isOn
    }

    method Update(h: Hierarchy, refresh: Option<Option<IloError>>, reply: Reply<string>) returns (r: CallResult)
      modifies this`isOn
      ensures UpdateStep(isOn, r) == AfterUpdate(h, client, old(isOn), refresh, reply)
    {
      if refresh.Some? {
        var data := Sensor.LegacyConnect(h, client.hostname, client.port, client.login, client.password, refresh.value);
        if data.InitFailed? {
          return ValueErrorRaised(data.message);
        } else if data.ConnectRaised? {
          return IloRaised(data.error);
        }
      }
      match reply {
        case Ok(status) =>
          isOn := Some(status == "ON");
          r := Completed;
        case Err(e) =>
          r := if CaughtBy(h, e.kind, CommandCatch) then Completed else IloRaised(e);
      }
    }

    /** `async_turn_on`: sends `set_host_power(True)`; on success the switch
        is on, and on failure the error is re-raised and the state kept. */
    method TurnOn(log: EffectLog, outcome: Option<IloError>) returns (raised: Option<IloError>)
      modifies this`isOn, log
      ensures log.events == old(log.events) + [Issued(SetHostPower(true), client)]
      ensures raised == outcome
      ensures isOn == if outcome.None? then Some(true) else old(isOn)
    {
      log.events := log.events + [Issued(SetHostPower(true), client)];
      raised := outcome;
      if outcome.None? {
        isOn := Some(true);
      }
    }

    /** `async_turn_off`: sends `set_host_power(False)`; on success the switch
        is off, and on failure the error is re-raised and the state kept. */
    method TurnOff(log: EffectLog, outcome: Option<IloError>) returns (raised: Option<IloError>)
      modifies this`isOn, log
      ensures log.events == old(log.events) + [Issued(SetHostPower(false), client)]
      ensures raised == outcome
      ensures isOn == if outcome.None? then Some(false) else old(isOn)
    {
      log.events := log.events + [Issued(SetHostPower(false), client)];
      raised := outcome;
      if outcome.None? {
        isOn := Some(false);
      }
    }
  }

  /** A power status read through a working client sets the state: on
      exactly for "ON", off for anything else. */
  lemma UpdateReadsPowerStatus(h: Hierarchy, client: IloClient, isOn: Option<bool>, status: string)
    ensures AfterUpdate(h, client, isOn, None, Ok(status)) == UpdateStep(Some(status == "ON"), Completed)
    ensures AfterUpdate(h, client, isOn, Some(None), Ok(status)) == UpdateStep(Some(status == "ON"), Completed)
    ensures AfterUpdate(h, client, isOn, None, Ok(status)).isOn == Some(true) <==> status == "ON"
  {
  }

  /** A failed read, or a failed refresh of the client (which raises before
      the read), never changes the state. A failed read after a working or
      skipped refresh is swallowed exactly when the clause catches it. A
      failed refresh escapes as ValueError when the legacy holder catches it. */
  lemma UpdateErrorsKeepState(h: Hierarchy, client: IloClient, isOn: Option<bool>,
                              refresh: Option<Option<IloError>>, reply: Reply<string>)
    ensures (reply.Err? || (refresh.Some? && refresh.value.Some?)) ==>
      AfterUpdate(h, client, isOn, refresh, reply).isOn == isOn
    ensures ((refresh.None? || refresh == Some(None)) && reply.Err?) ==>
      (AfterUpdate(h, client, isOn, refresh, reply).result == Completed <==> CaughtBy(h, reply.error.kind, CommandCatch))
    ensures (refresh.Some? && refresh.value.Some? && CaughtBy(h, refresh.value.value.kind, Sensor.LegacyConnectCatch)) ==>
      AfterUpdate(h, client, isOn, refresh, reply).result
        == ValueErrorRaised("Unable to init HP ILO, " + refresh.value.value.message)
  {
  }

  /** Polling twice with the same answers leaves the state the first poll left. */
  lemma UpdateIdempotent(h: Hierarchy, client: IloClient, isOn: Option<bool>,
                         refresh: Option<Option<IloError>>, reply: Reply<string>)
    ensures var first := AfterUpdate(h, client, isOn, refresh, reply);
      AfterUpdate(h, client, first.isOn, refresh, reply) == first
  {
  }

  /** The switch, after reading a power status, shows what the binary sensor
      shows for a coordinator snapshot holding the same status. */
  lemma SwitchAgreesWithBinarySensor(h: Hierarchy, client: IloClient, isOn: Option<bool>,
                                     data: Coordinator.Snapshot, status: string)
    requires data.powerStatus == Some(status)
    ensures AfterUpdate(h, client, isOn, None, Ok(status)).isOn == BinarySensor.PowerState(Some(data))
  {
  }

  /** What `async_setup_entry` of the switch platform ends with. */
  datatype SwitchSetup =
    | SwitchNotSetUp
    | SwitchSetupRaised(error: IloError)
    | SwitchesAdded(switches: seq<HpIloPowerSwitch>)

  /** `async_setup_entry`: after the same prelude as the sensor platform,
      one switch when `get_host_power_status` answers, none when it raises
      an error the clause catches, and the error otherwise. */
  method SetupEntry(h: Hierarchy, entry: ConfigEntry, connect: Option<IloError>, probe: Reply<string>)
    returns (r: SwitchSetup)
    ensures Sensor.SetupPrelude(h, entry, connect).Abandoned? ==> r == SwitchNotSetUp
    ensures Sensor.SetupPrelude(h, entry, connect).PreludeRaised? ==>
      r == SwitchSetupRaised(Sensor.SetupPrelude(h, entry, connect).error)
    ensures Sensor.SetupPrelude(h, entry, connect).Ready? && probe.Err? ==>
      r == if CaughtBy(h, probe.error.kind, SetupCatch) then SwitchesAdded([]) else SwitchSetupRaised(probe.error)
    ensures Sensor.SetupPrelude(h, entry, connect).Ready? && probe.Ok? ==>
      r.SwitchesAdded? && |r.switches| == 1 && fresh(r.switches[0])
      && r.switches[0].client == Sensor.SetupPrelude(h, entry, connect).client
      && r.switches[0].uniqueId == EntityUniqueId(entry, SwitchSuffix)
      && r.switches[0].deviceInfo == DeviceIdentityFor(entry)
      && r.switches[0].isOn == None && !r.switches[0].enabledByDefault
  {
    var prelude := Sensor.SetupPrelude(h, entry, connect);
    match prelude {
      case Abandoned => r := SwitchNotSetUp;
      case PreludeRaised(e) => r := SwitchSetupRaised(e);
      case Ready(client) =>
        match probe {
          case Ok(_) =>
            var s := new HpIloPowerSwitch(entry, client);
            r := SwitchesAdded([s]);
          case Err(e) =>
            r := if CaughtBy(h, e.kind, SetupCatch) then SwitchesAdded([]) else SwitchSetupRaised(e);
        }
    }
  }
}
