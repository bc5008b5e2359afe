# HP iLO integration: a Dafny model of its decision logic

This project models the parts of the `hp_ilo` home-automation integration that
make decisions: the polling coordinator, the sensor platform, the binary-sensor
platform, the power switch and the three command buttons. These platforms talk
to an HP Integrated Lights-Out (iLO) management controller through the `hpilo`
library. The model states and proves what each platform promises about the data
it reads and the state it keeps.

The model has seven modules:

- `Ilo` (`ilo.dfy`) holds the shared vocabulary:
  - the library's error classes;
  - how an `except` tuple matches an error, given the class hierarchy as a parameter (`Hierarchy`);
  - the outcome of one library call (`Reply`) and of a step of the integration's own code (`Outcome`);
  - the client handle, and the datatypes of the embedded-health and SMBIOS host-data payloads;
  - an effect log of commands sent and refreshes requested.
  - `RunLength` gives the meaning of a sequence of statements that each can raise: every statement up to and including the first one that raises is run.
- `Entry` (`entry.dfy`) covers the config entry and the identity strings every platform builds:
  - the device identity and its `https://host:port` configuration URL;
  - entity unique ids;
  - the port text read as Python's `int()` reads a decimal literal.
- `Coordinator` (`coordinator.dfy`) models `HpIloData` and `HpIloDataUpdateCoordinator`.
  - `FetchData` builds an `HpIloData` object field by field in five guarded steps.
  - It is specified by the pure cycle `Fetch` and by the query trace `IssuedQueries`.
  - `AsyncUpdateData` classifies what escapes the cycle, first match wins.
- `Sensor` (`sensor.dfy`) models the sensor-type table, setting up a config entry, and the legacy YAML `setup_platform`.
  - The setup methods loop over the table, the health categories, the temperature and fan entries and the SMBIOS records.
  - They write the version strings into one shared `DeviceInfo` object.
  - Each loop is proved against a specification function read right to left (`SetupFold`, `HealthSensors`, `FirmwareVersion`, `HostVersions`).
- `BinarySensor` (`binary_sensor.dfy`) models the power-state sensor over the coordinator's snapshot.
- `Switch` (`switch.dfy`) models the power switch, a small state machine over its `isOn` field.
  - `update`, `async_turn_on` and `async_turn_off` change the field, or leave it alone on failure.
  - The `is_on` property is `HpIloPowerSwitch.IsOn`, which returns the field itself.
- `Button` (`button.dfy`) models the three buttons. Each press is a guard, one command appended to the effect log, and then a refresh request.

Calls into the library and the host framework become parameters:

- Each library call is given as the `Reply` it produced, or as the error it raised (`Option<IloError>`).
- Which library classes are subclasses of which is the `Hierarchy` parameter.
- The coordinator's latest data is the `data` field of the coordinator object. The host framework stores each `Updated` snapshot there.

The model adds no behaviour the code does not have:

- Readings stay text: templates only look values up, and nothing parses numbers.
- An authentication or communication failure of one query is tolerated like any other caught error, when the hierarchy makes it an `IloError`. It does not abort the remaining queries.
- There is no session lock and no coalescing of refreshes.

## Model

| member | source | states |
|---|---|---|
| Ilo.RunLength | custom_components/hp_ilo/coordinator.py:105-133 | the number of sequential guarded steps that run is the length of the longest prefix with no escaping error, plus the step that raised, if any |
| Entry.DeviceUniqueId | custom_components/hp_ilo/sensor.py:278-280 | the device is registered under the entry's unique id, and under its entry id when the unique id is None |
| Entry.DeviceIdentityFor | custom_components/hp_ilo/sensor.py:282-293 | the device identity carries the entry's name, the fixed manufacturer, the single identifier and the single UPnP connection under `DeviceUniqueId`, and a configuration URL from which host and port read back unchanged |
| Entry.ConfigurationUrlRoundTrip | custom_components/hp_ilo/sensor.py:284 | `https://<host>:<port>` splits back at its last ':' into exactly the host and the port |
| Entry.EntityUniqueIdInjective | custom_components/hp_ilo/sensor.py:254 | `<entry data unique_id>_<suffix>` ids of one entry are equal exactly when their suffixes are equal |
| Entry.ParseInt | custom_components/hp_ilo/sensor.py:272 | `int()` accepts one or more ASCII digits after an optional '+' or '-' and gives their decimal value with that sign (so "+443" and "0443" read as 443, "-5" as -5); it rejects the empty text, a lone sign and any stray non-digit |
| Entry.ParseDecimalString | custom_components/hp_ilo/sensor.py:272 | a port stored as the decimal text of a number is read back as that number |
| Coordinator.SettingsForDecimalPort | custom_components/hp_ilo/coordinator.py:58-62 | the coordinator takes host, username and password from the entry and the port as the number its text denotes, and the cycle's client is built from exactly these |
| Coordinator.HpIloData.constructor | custom_components/hp_ilo/coordinator.py:99 | a new data holder has the cycle's client and all five data fields None |
| Coordinator.AllGuardedCases | custom_components/hp_ilo/coordinator.py:106-133 | each of the five guarded queries raises exactly when its error escapes `(IloError, IloFeatureNotSupported)`, and then raises that same error; the escape flags are listed in query order |
| Coordinator.FetchCarriesClient | custom_components/hp_ilo/coordinator.py:92-99 | every snapshot a cycle returns holds the client created at the start of that cycle |
| Coordinator.FetchFieldsIsolated | custom_components/hp_ilo/coordinator.py:99-133 | in a returned snapshot every field holds its own query's result when that query answered and None when it failed, independently of the other queries |
| Coordinator.FetchSucceedsIffNothingEscapes | custom_components/hp_ilo/coordinator.py:92-136 | a cycle returns a snapshot exactly when the client is created and no query's error escapes its clause |
| Coordinator.QueriesRun | custom_components/hp_ilo/coordinator.py:106-133 | the number of queries issued is one past the first query whose error escapes, or all five |
| Coordinator.IssuedFollowsQueryOrder | custom_components/hp_ilo/coordinator.py:106-133 | queries are issued as a prefix of health, power status, power-on time, server name, host data; a query is issued exactly when no earlier one escaped; a cycle raises exactly when the last issued query escaped, with its error |
| Coordinator.AllQueriesCaught | custom_components/hp_ilo/coordinator.py:99-136 | when every query fails with a caught error, all five are still issued, and the cycle returns a snapshot with all data fields None, which the update reports as data and not as a failure |
| Coordinator.FirstHandler | custom_components/hp_ilo/coordinator.py:80-85 | the chosen `except` clause is the first whose class the error is an instance of, and none is chosen when no clause matches |
| Coordinator.UpdateFailedMessages | custom_components/hp_ilo/coordinator.py:77-85 | an escaping error becomes UpdateFailed with "Authentication failed: ", else "Communication error: ", else "iLO error: " before its text, first match wins; any other error propagates unchanged |
| Coordinator.HpIloDataUpdateCoordinator.constructor | custom_components/hp_ilo/coordinator.py:52-69 | a new coordinator keeps its settings and has no data yet |
| Coordinator.HpIloDataUpdateCoordinator.FetchData | custom_components/hp_ilo/coordinator.py:87-136 | `_fetch_data` issues exactly `IssuedQueries`, raises exactly when `Fetch` does and with the same error, and otherwise returns a new holder whose value is `Fetch`'s snapshot |
| Coordinator.HpIloDataUpdateCoordinator.AsyncUpdateData | custom_components/hp_ilo/coordinator.py:71-85 | `_async_update_data` ends as `UpdateResult` of the cycle: the snapshot, an UpdateFailed message, or the unhandled error |
| Sensor.ProbeOfFinds | custom_components/hp_ilo/sensor.py:167 | the `SENSOR_TYPES` lookup finds a row exactly when one has the key, and returns the probe function of the first such row |
| Sensor.ProbedAll | custom_components/hp_ilo/sensor.py:297-301 | when no probe raises an uncaught error, every row's function is called, in table order |
| Sensor.ProbedThroughEscape | custom_components/hp_ilo/sensor.py:297-307 | the functions called are exactly those of the rows up to and including the first whose error is not caught |
| Sensor.SetupRaisesAtFirstEscape | custom_components/hp_ilo/sensor.py:297-307 | the setup raises exactly the error of the first probe that neither `IloNotARackServer` nor `IloFeatureNotSupported` catches |
| Sensor.SetupCompletes | custom_components/hp_ilo/sensor.py:297-307 | when every probe answers or is skipped, the setup completes |
| Sensor.SkippedProbeAddsNothing | custom_components/hp_ilo/sensor.py:300-307 | a skipped probe adds no sensor and changes no version string, and the setup goes on with the next row |
| Sensor.ProbedRowEffect | custom_components/hp_ilo/sensor.py:349-393 | `server_power_on_time` and `server_power_status` each add exactly one sensor named by the row, the latter with options ON and OFF; `server_host_data` adds no sensor and keeps the software version; every other row outside the four changes nothing |
| Sensor.TemperatureSensorsOfInstalled | custom_components/hp_ilo/sensor.py:311-327 | one Celsius sensor per entry whose status is not "Not Installed", in payload order: the k-th sensor is that of the k-th installed entry, and the sensors plus the "Not Installed" entries number exactly the entries |
| Sensor.InstalledEntries | custom_components/hp_ilo/sensor.py:312-313 | the entries kept are exactly the entries of the category whose status is not "Not Installed", and they plus the "Not Installed" ones number all entries |
| Sensor.InstalledEntriesAppend | custom_components/hp_ilo/sensor.py:312-313 | the filter keeps payload order: an entry appended to the category is appended to the kept entries exactly when it is installed |
| Sensor.FanSensorsOnePerEntry | custom_components/hp_ilo/sensor.py:328-344 | the k-th fan sensor is the percent sensor of the k-th fan entry, named by its label with the fan icon, with no status filter |
| Sensor.HealthSensorsConcat | custom_components/hp_ilo/sensor.py:310-348 | the sensors of a health payload are those of its categories, in payload order |
| Sensor.FirmwareVersionLastWins | custom_components/hp_ilo/sensor.py:345-347 | the software version is the `iLO` value of the last `firmware_information` category |
| Sensor.FirmwareVersionKept | custom_components/hp_ilo/sensor.py:345-348 | without a `firmware_information` category the software version is left as it was |
| Sensor.BiosVersionLastWins | custom_components/hp_ilo/sensor.py:383-385 | the hardware version is "Family Date" of the last type-0 record |
| Sensor.ModelLastWins | custom_components/hp_ilo/sensor.py:386-387 | the model is the Product Name of the last type-1 record |
| Sensor.OtherRecordsChangeNothing | custom_components/hp_ilo/sensor.py:388-391 | a list made only of records of types other than 0 and 1 changes neither string |
| Sensor.HostVersionsConcat | custom_components/hp_ilo/sensor.py:383-391 | the records are walked in order: walking two lists is walking the first, then the second |
| Sensor.OtherRecordChangesNothing | custom_components/hp_ilo/sensor.py:388-391 | a record of type 4, 17 or any type other than 0 and 1 changes nothing wherever it stands among mixed records |
| Sensor.BiosVersionKept | custom_components/hp_ilo/sensor.py:383-385 | without a type-0 record the hardware version stays as it was, whatever other records there are |
| Sensor.ModelKept | custom_components/hp_ilo/sensor.py:386-387 | without a type-1 record the model stays as it was, whatever other records there are |
| Sensor.SetupSensorsIdentified | custom_components/hp_ilo/sensor.py:254 | every sensor a setup creates has the unique id `<entry data unique_id>_<its name>` |
| Sensor.FixtureHealthSensors | tests/const.py:56-124 | the repository's embedded-health fixture yields the two fan sensors and then the two temperature sensors, and software version "2.53 Feb 17 2017"; a "Not Installed" temperature entry yields nothing |
| Sensor.LegacyConnectCases | custom_components/hp_ilo/sensor.py:193-225 | creating the legacy holder builds the client from exactly the given host, credentials and port when the library raises nothing; an `(IloError, IloCommunicationError, IloLoginFailed)` error becomes ValueError "Unable to init HP ILO, <message>"; any other error escapes unchanged |
| Sensor.PreludeCases | custom_components/hp_ilo/sensor.py:270-276 | the setup stops without entities when the port is not an integer or the legacy holder turns a library error into ValueError; an error the holder does not catch escapes; otherwise the client is built from the entry |
| Sensor.DeviceInfo.constructor | custom_components/hp_ilo/sensor.py:288-293 | the shared device information has the entry's identity and no version strings yet |
| Sensor.AddTemperatureSensors | custom_components/hp_ilo/sensor.py:311-327 | the loop over a temperature category yields `TemperatureSensors`, each sensor holding the shared device information |
| Sensor.AddFanSensors | custom_components/hp_ilo/sensor.py:328-344 | the loop over a fan category yields `FanSensors`, each sensor holding the shared device information |
| Sensor.AddHealthSensors | custom_components/hp_ilo/sensor.py:309-348 | the loop over the health payload yields `HealthSensors` and writes `FirmwareVersion` into the shared device information |
| Sensor.ApplyHostData | custom_components/hp_ilo/sensor.py:381-391 | the loop over the SMBIOS records leaves the shared hardware version and model as `HostVersions` says, and the software version untouched |
| Sensor.AddProbedRow | custom_components/hp_ilo/sensor.py:309-393 | the branch for an answered row adds the sensors and writes the versions of `ApplyProbe` |
| Sensor.ProbeRow | custom_components/hp_ilo/sensor.py:300-393 | one row reports an escape exactly when its error is not caught, and otherwise extends the sensors and versions as `SetupFold` says |
| Sensor.ProbeTable | custom_components/hp_ilo/sensor.py:297-395 | the loop over the table calls `ProbedFunctions`, raises `SetupFold`'s error when it raises, and otherwise returns `SetupFold`'s sensors all on the one device information, which shows `SetupFold`'s versions |
| Sensor.SetupEntry | custom_components/hp_ilo/sensor.py:260-395 | `async_setup_entry` adds nothing when the prelude abandons, raises the prelude's error when it raises, and otherwise does what `ProbeTable` does on new device information with the entry's identity |
| Sensor.SetupPlatform | custom_components/hp_ilo/sensor.py:107-143 | `setup_platform` adds nothing when creating the legacy holder raises ValueError, propagates any other error, and otherwise creates one sensor per configured variable, in order |
| Sensor.LegacySensors | custom_components/hp_ilo/sensor.py:129-141 | the k-th legacy sensor is named `<config name> <variable name>` and probes its type's function |
| BinarySensor.PowerState | custom_components/hp_ilo/binary_sensor.py:90-96 | the state is unknown exactly when there is no data or no power status, on exactly when the status is "ON", and off exactly for any other status |
| BinarySensor.HpIloPowerStatusBinarySensor.constructor | custom_components/hp_ilo/binary_sensor.py:66-83 | the sensor is named "Server Power", has device class power and unique id `<entry data unique_id>_server_power`, and starts in the state the coordinator's data gives |
| BinarySensor.HpIloPowerStatusBinarySensor.HandleCoordinatorUpdate | custom_components/hp_ilo/binary_sensor.py:85-96 | after an update the state is `PowerState` of the current data, whatever it was before, so repeated updates with the same data agree |
| BinarySensor.SetupEntry | custom_components/hp_ilo/binary_sensor.py:50-63 | at most one sensor is created, and one exactly when the coordinator has data with a power status |
| BinarySensor.CreatedSensorIsKnown | custom_components/hp_ilo/binary_sensor.py:53-96 | a created sensor starts in a known state, on exactly when the status is "ON" |
| Switch.HpIloPowerSwitch.IsOn | custom_components/hp_ilo/switch.py:107-110 | the `is_on` property reports the stored state, unknown until the first successful read or power command |
| Switch.HpIloPowerSwitch.constructor | custom_components/hp_ilo/switch.py:78-105 | the switch is named "Server Power Control", disabled by default, has unique id `<entry data unique_id>_set_host_power`, and starts with an unknown state (the state right after construction; `async_add_entities(switches, True)` at switch.py:75 has the framework poll once before adding it, which is `Update`) |
| Switch.HpIloPowerSwitch.Update | custom_components/hp_ilo/switch.py:112-120 | `update` leaves the state and result `AfterUpdate` gives |
| Switch.HpIloPowerSwitch.TurnOn | custom_components/hp_ilo/switch.py:122-133 | `async_turn_on` sends `set_host_power(True)`; on success the state is on, on failure it is unchanged and the error is re-raised |
| Switch.HpIloPowerSwitch.TurnOff | custom_components/hp_ilo/switch.py:135-150 | `async_turn_off` sends `set_host_power(False)`; on success the state is off, on failure it is unchanged and the error is re-raised |
| Switch.UpdateReadsPowerStatus | custom_components/hp_ilo/switch.py:114-118 | a read power status sets the state, on exactly for "ON", whether or not the client was recreated first |
| Switch.UpdateErrorsKeepState | custom_components/hp_ilo/switch.py:112-120 | a failed read, or a failed client refresh whatever the read would answer, leaves the state unchanged; after a skipped or working refresh a read error is swallowed exactly when `(IloError, IloCommunicationError)` catches it; a refresh error the legacy holder catches escapes as "Unable to init HP ILO, " ValueError |
| Switch.UpdateIdempotent | custom_components/hp_ilo/switch.py:112-120 | polling twice with the same answers leaves the state of the first poll |
| Switch.SwitchAgreesWithBinarySensor | custom_components/hp_ilo/switch.py:116-118 | after reading a status the switch shows what the binary sensor shows for a snapshot with the same status |
| Switch.SetupEntry | custom_components/hp_ilo/switch.py:21-75 | the switch setup adds nothing when the prelude abandons; it adds one new unknown-state switch over the setup's client when `get_host_power_status` answers, none when `(IloError, IloFeatureNotSupported)` catches its error, and raises otherwise |
| Button.HpIloButton.constructor | custom_components/hp_ilo/button.py:80-93 | a button has its kind's name, icon and unique id `<entry data unique_id>_<suffix>`, and is disabled by default |
| Button.HpIloButton.Press | custom_components/hp_ilo/button.py:95-113 | `async_press` appends exactly `PressEffects` to the effect log and raises exactly `PressRaises` |
| Button.SetupEntry | custom_components/hp_ilo/button.py:21-66 | setup creates exactly three new buttons, power press, power hold and reset, sharing the coordinator and the device identity |
| Button.PressWithoutConnection | custom_components/hp_ilo/button.py:97-99 | with no data or no client, a press sends nothing, requests no refresh and raises nothing |
| Button.PressSendsOneCommand | custom_components/hp_ilo/button.py:101-104 | with a client, a press sends exactly one command, the button's own, through the snapshot's client, before anything else |
| Button.RefreshOnlyAfterSuccess | custom_components/hp_ilo/button.py:105-113 | a refresh is requested exactly when the command was sent and returned, and then right after it; a failed command is re-raised |
| Button.ButtonsDistinct | custom_components/hp_ilo/button.py:93-189 | the three buttons send three different commands and have three different unique ids |

## Left out

- Network calls of the `hpilo` library, the executor hand-off and `async_request_refresh` are not modelled. Each call is a given `Reply` or raised error, and a refresh request is an effect in the log.
- The library's exception hierarchy is not known here. It is the `Hierarchy` parameter, and every `except` clause is matched through it.
- `HpIloData.update`'s `@Throttle` is left out, as time-based framework machinery. The switch's `update` takes as a parameter whether the client was recreated and what that raised.
- The coordinator's update interval and scheduling are left out. The framework's storing of each `Updated` snapshot into the coordinator's `data` field is also left out.
- `HpIloSensor.update` and template rendering are left out, because they produce display values only. A sensor keeps the lookup path its template reads (`Reading`).
- Logging is left out.
- Device classes, state classes and icons are constants on the entities. The few named in the contracts are modelled.
- `config_flow.py` and `__init__.py` are not part of this model. They are framework flow and lifecycle code.
- Python dictionaries of the health payload are modelled as sequences of tagged categories in the dictionary's iteration order. A repeated key is thus representable, although a dictionary cannot hold one.
- Payload entries always carry the fields the code indexes (`label`, `status`, `type`). The code would raise on a missing field, and the model has no such case.
- The three button classes are one class with a `ButtonKind`.
- Entry.ParseInt: accepts only an optional sign and ASCII digits. It does not model surrounding whitespace, the underscores or the non-ASCII Unicode decimal digits that Python's `int()` also accepts.
- The entry data is assumed to hold every key the platforms index, with the port as text. The user config flow (config_flow.py:115-119, 154-155) never stores `unique_id`, so the entity constructors' `entry.data['unique_id']` would raise KeyError. The SSDP flow (config_flow.py:72) stores the port as an int or None, and `int(None)` raises TypeError, which the setups' `except ValueError` does not catch. Neither case is modelled.
- The comment on the coordinator's `power_on_time` field speaks of minutes, while the sensor declares seconds. The model keeps the integer as returned and records the sensor's unit as seconds.
- Sensor.SetupEntry: a probe that returns a payload of the wrong shape for its row adds nothing in the model. The library does not return such payloads.
