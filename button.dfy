/** The button platform: three command buttons (press the power button, hold
    it, reset the server) that send their command through the client of the
    coordinator's latest snapshot and then ask the coordinator for a refresh. */
module Button {
  import opened Ilo
  import opened Entry
  import Coordinator

  /** `HpIloPowerButton`, `HpIloPowerButtonHold` and `HpIloResetButton`,
      which differ only in these constants and the command they send. */
  datatype ButtonKind = PowerPress | PowerHold | Reset

  function CommandOf(kind: ButtonKind): Command
  {
    match kind
    case PowerPress => PressPowerButton
    case PowerHold => HoldPowerButton
    case Reset => ResetServer
  }

  function SuffixOf(kind: ButtonKind): string
  {
    match kind
    case PowerPress => "press_pwr_btn"
    case PowerHold => "power_button_hold"
    case Reset => "reset_server"
  }

  function NameOf(kind: ButtonKind): string
  {
    match kind
    case PowerPress => "Power Button"
    case PowerHold => "Power Button Hold (Force Off)"
    case Reset => "Reset Server"
  }

  function IconOf(kind: ButtonKind): string
  {
    match kind
    case PowerPress => "mdi:power"
    case PowerHold => "mdi:power-cycle"
    case Reset => "mdi:restart"
  }

  /** The snapshot holds a client to send commands through. */
  predicate Connected(data: Option<Coordinator.Snapshot>)
  {
    data.Some? && data.value.ilo.Some?
  }

  /** What `async_press` leaves behind: nothing without a client; otherwise
      the command through the snapshot's client, followed by a refresh
      request only when the command returned. */
  function PressEffects(kind: ButtonKind, data: Option<Coordinator.Snapshot>, outcome: Option<IloError>): seq<Effect>
  {
    if !Connected(data) then []
    else [Issued(CommandOf(kind), data.value.ilo.value)] + if outcome.None? then [RefreshRequested] else []
  }

  /** What `async_press` raises: the command's error, re-raised. */
  function PressRaises(data: Option<Coordinator.Snapshot>, outcome: Option<IloError>): Option<IloError>
  {
    if Connected(data) then outcome else None
  }

  class HpIloButton {
    const kind: ButtonKind
    const coordinator: Coordinator.HpIloDataUpdateCoordinator
    const deviceInfo: DeviceIdentity
    const name: string
    const uniqueId: string
    const icon: string
    const enabledByDefault: bool

    constructor (kind: ButtonKind, coordinator: Coordinator.HpIloDataUpdateCoordinator, entry: ConfigEntry)
      ensures this.kind == kind && this.coordinator == coordinator && deviceInfo == DeviceIdentityFor(entry)
      ensures name == NameOf(kind) && uniqueId == EntityUniqueId(entry, SuffixOf(kind))
      ensures icon == IconOf(kind) && !enabledByDefault
    {
      this.kind := kind;
      this.coordinator := coordinator;
      deviceInfo := DeviceIdentityFor(entry);
      name := NameOf(kind);
      uniqueId := EntityUniqueId(entry, SuffixOf(kind));
      icon := IconOf(kind);
      enabledByDefault := false;
    }

    /** `async_press`; `outcome` is what the command call raised, if anything. */
    method Press(log: EffectLog, outcome: Option<IloError>) returns (raised: Option<IloError>)
      modifies log
      ensures log.events == old(log.events) + PressEffects(kind, coordinator.data, outcome)
      ensures raised == PressRaises(coordinator.data, outcome)
    {
      var data := coordinator.data;
      if data.None? || data.value.ilo.None? {
        return None;
      }
      log.events := log.events + [Issued(CommandOf(kind), data.value.ilo.value)];
      if outcome.Some? {
        return outcome;
      }
      log.events := log.events + [RefreshRequested];
      raised := None;
    }
  }

  /** `async_setup_entry`: the three buttons, in order, sharing the
      coordinator and the device identity. */
  method SetupEntry(coordinator: Coordinator.HpIloDataUpdateCoordinator, entry: ConfigEntry)
    returns (buttons: seq<HpIloButton>)
    ensures |buttons| == 3
    ensures buttons[0].kind == PowerPress && buttons[1].kind == PowerHold && buttons[2].kind == Reset
    ensures forall b :: b in buttons ==>
      fresh(b) && b.coordinator == coordinator && b.deviceInfo == DeviceIdentityFor(entry)
      && b.uniqueId == EntityUniqueId(entry, SuffixOf(b.kind)) && b.name == NameOf(b.kind) && !b.enabledByDefault
  {
    var press := new HpIloButton(PowerPress, coordinator, entry);
    var hold := new HpIloButton(PowerHold, coordinator, entry);
    var reset := new HpIloButton(Reset, coordinator, entry);
    buttons := [press, hold, reset];
  }

  /** Without data or without a client, pressing does nothing and raises nothing. */
  lemma PressWithoutConnection(kind: ButtonKind, data: Option<Coordinator.Snapshot>, outcome: Option<IloError>)
    requires !Connected(data)
    ensures PressEffects(kind, data, outcome) == [] && PressRaises(data, outcome).None?
  {
  }

  /** With a client, pressing sends exactly one command, the button's own,
      through the snapshot's client, before anything else. */
  lemma PressSendsOneCommand(kind: ButtonKind, data: Option<Coordinator.Snapshot>, outcome: Option<IloError>)
    requires Connected(data)
    ensures var effects := PressEffects(kind, data, outcome);
      |effects| > 0 && effects[0] == Issued(CommandOf(kind), data.value.ilo.value)
      && forall i :: 1 <= i < |effects| ==> !effects[i].Issued?
  {
  }

  /** A refresh is requested exactly when the command was sent and returned,
      and then it comes after the command; a failed command is re-raised. */
  lemma RefreshOnlyAfterSuccess(kind: ButtonKind, data: Option<Coordinator.Snapshot>, outcome: Option<IloError>)
    ensures RefreshRequested in PressEffects(kind, data, outcome) <==> Connected(data) && outcome.None?
    ensures RefreshRequested in PressEffects(kind, data, outcome) ==>
      PressEffects(kind, data, outcome) == [Issued(CommandOf(kind), data.value.ilo.value), RefreshRequested]
    ensures Connected(data) && outcome.Some? ==> PressRaises(data, outcome) == outcome
  {
  }

  /** The three buttons send three different commands and get three
      different unique ids. */
  lemma ButtonsDistinct(entry: ConfigEntry, a: ButtonKind, b: ButtonKind)
    requires a != b
    ensures CommandOf(a) != CommandOf(b)
    ensures EntityUniqueId(entry, SuffixOf(a)) != EntityUniqueId(entry, SuffixOf(b))
  {
    EntityUniqueIdInjective(entry, SuffixOf(a), SuffixOf(b));
  }
}
