/** The binary-sensor platform: one power-state sensor that reads the
    coordinator's latest snapshot, created only when that snapshot holds a
    power status. */
module BinarySensor {
  import opened Ilo
  import opened Entry
  import Coordinator

  const PowerSuffix: string := "server_power"
  const PowerName: string := "Server Power"
  /** `BinarySensorDeviceClass`; the platform uses only POWER. */
  datatype BinarySensorDeviceClass = PowerClass

  /** `_update_state`: unknown without data or without a power status, and
      otherwise on exactly when the controller reported "ON". */
  function PowerState(data: Option<Coordinator.Snapshot>): (s: Option<bool>)
    ensures s.None? <==> data.None? || data.value.powerStatus.None?
    ensures s == Some(true) <==> data.Some? && data.value.powerStatus == Some("ON")
    ensures s == Some(false) <==>
      data.Some? && data.value.powerStatus.Some? && data.value.powerStatus.value != "ON"
  {
    match data
    case None => None
    case Some(d) =>
      match d.powerStatus
      case None => None
      case Some(status) => Some(status == "ON")
  }

  /** `HpIloPowerStatusBinarySensor`, a coordinator entity of device class POWER. */
  class HpIloPowerStatusBinarySensor {
    const coordinator: Coordinator.HpIloDataUpdateCoordinator
    const deviceInfo: DeviceIdentity
    const name: string
    const uniqueId: string
    const deviceClass: BinarySensorDeviceClass
    var isOn: Option<bool>

    /** Sets the initial state from the coordinator's data. */
    constructor (coordinator: Coordinator.HpIloDataUpdateCoordinator, entry: ConfigEntry)
      ensures this.coordinator == coordinator && deviceInfo == DeviceIdentityFor(entry)
      ensures name == PowerName && uniqueId == EntityUniqueId(entry, PowerSuffix)
      ensures deviceClass == PowerClass
      ensures isOn == PowerState(coordinator.data)
    {
      this.coordinator := coordinator;
      deviceInfo := DeviceIdentityFor(entry);
      name := PowerName;
      uniqueId := EntityUniqueId(entry, PowerSuffix);
      deviceClass := PowerClass;
      isOn := PowerState(coordinator.data);
    }

    /** `_handle_coordinator_update`: the new state depends on the
        coordinator's data alone, not on the previous state. */
    method HandleCoordinatorUpdate()
      modifies this`isOn
      ensures isOn == PowerState(coordinator.data)
    {
      var data := coordinator.data;
      if data.None? || data.value.powerStatus.None? {
        isOn := None;
      } else {
        isOn := Some(data.value.powerStatus.value == "ON");
      }
    }
  }

  /** `async_setup_entry`: at most one sensor, present exactly when the
      coordinator's data holds a power status. */
  method SetupEntry(coordinator: Coordinator.HpIloDataUpdateCoordinator, entry: ConfigEntry)
    returns (sensors: seq<HpIloPowerStatusBinarySensor>)
    ensures |sensors| <= 1
    ensures |sensors| == 1 <==> coordinator.data.Some? && coordinator.data.value.powerStatus.Some?
    ensures forall s :: s in sensors ==>
      fresh(s) && s.coordinator == coordinator && s.deviceInfo == DeviceIdentityFor(entry)
      && s.uniqueId == EntityUniqueId(entry, PowerSuffix) && s.isOn == PowerState(coordinator.data)
  {
    sensors := [];
    if coordinator.data.Some? && coordinator.data.value.powerStatus.Some? {
      var s := new HpIloPowerStatusBinarySensor(coordinator, entry);
      sensors := [s];
    }
  }

  /** A sensor that is created has a known state: on or off, never unknown. */
  lemma CreatedSensorIsKnown(data: Option<Coordinator.Snapshot>)
    requires data.Some? && data.value.powerStatus.Some?
    ensures PowerState(data).Some?
    ensures PowerState(data).value <==> data.value.powerStatus.value == "ON"
  {
  }
}
