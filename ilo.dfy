/** Vocabulary shared by every platform of the HP iLO integration: the controller
    library's errors and how an `except` clause matches them, the outcome of one
    call into the library, the client handle, the shapes of the health and
    host-data payloads, and the effects a command leaves on the outside world. */
module Ilo {

  datatype Option<+T> = None | Some(value: T)

  /** The exception classes of the controller library that the integration names
      in its `except` clauses. */
  datatype ErrorKind =
    | LoginFailed          // hpilo.IloLoginFailed
    | CommunicationError   // hpilo.IloCommunicationError
    | OtherIloError        // hpilo.IloError itself
    | FeatureNotSupported  // hpilo.IloFeatureNotSupported
    | NotARackServer       // hpilo.IloNotARackServer

  /** The library's class hierarchy is not part of this model, so it is a
      parameter: a pair (sub, super) says that `sub` is a subclass of `super`. */
  type Hierarchy = set<(ErrorKind, ErrorKind)>

  /** An error of class `k` is an instance of class `c`. */
  predicate IsInstance(h: Hierarchy, k: ErrorKind, c: ErrorKind)
  {
    k == c || (k, c) in h
  }

  /** An `except (c0, c1, ...)` tuple catches an error of class `k`. */
  predicate CaughtBy(h: Hierarchy, k: ErrorKind, clause: seq<ErrorKind>)
  {
    exists i :: 0 <= i < |clause| && IsInstance(h, k, clause[i])
  }

  /** A raised library error: its class and the text `str(err)` gives. */
  datatype IloError = IloError(kind: ErrorKind, message: string)

  /** What one call into the controller library did: returned a value or raised. */
  datatype Reply<+T> = Ok(value: T) | Err(error: IloError)

  /** The result of a step of the integration's own code: it returned a value or
      an exception escaped from it. Failure-compatible, so `:-` propagates. */
  datatype Outcome<+T> = Done(value: T) | Raised(error: IloError)
  {
    predicate IsFailure() { Raised? }

    function PropagateFailure<U>(): Outcome<U>
      requires Raised?
    {
      Raised(error)
    }

    function Extract(): T
      requires Done?
    {
      value
    }
  }

  /** The handle `hpilo.Ilo(hostname=..., login=..., password=..., port=...)`. */
  datatype IloClient = IloClient(hostname: string, login: string, password: string, port: int)

  /** One entry of the `temperature` or `fans` category of the embedded health
      payload, with the fields the integration indexes. */
  datatype HealthEntry = HealthEntry(sensorLabel: string, status: string)

  const NotInstalled: string := "Not Installed"

  /** A category key of the embedded health payload that the integration does not treat. */
  type OtherCategoryKey = k: string
    | k != "temperature" && k != "fans" && k != "firmware_information"
    witness "health_at_a_glance"

  /** One `key: value` pair of the embedded health mapping, tagged by its key. */
  datatype HealthCategory =
    | Temperature(temperatures: seq<HealthEntry>)   // key "temperature"
    | Fans(fans: seq<HealthEntry>)                  // key "fans"
    | FirmwareInformation(iloVersion: string)       // key "firmware_information", its 'iLO' value
    | OtherCategory(key: OtherCategoryKey)

  /** The embedded health mapping, in the mapping's iteration order. */
  type EmbeddedHealth = seq<HealthCategory>

  /** An SMBIOS record type other than 0 (BIOS) and 1 (System). */
  type OtherRecordType = t: int | t != 0 && t != 1 witness 4

  /** One SMBIOS record of the host data, tagged by its `type` field. */
  datatype SmbiosRecord =
    | BiosInformation(family: string, date: string)   // type 0
    | SystemInformation(productName: string)          // type 1
    | OtherRecord(recordType: OtherRecordType)        // type 4, 17 or any other

  /** Commands the integration sends to the controller. */
  datatype Command =
    | PressPowerButton   // press_pwr_btn
    | HoldPowerButton    // hold_pwr_btn
    | ResetServer        // reset_server
    | SetHostPower(on: bool)

  /** What a command path leaves behind: a command sent through a client, or a
      refresh requested from the coordinator. */
  datatype Effect = Issued(command: Command, client: IloClient) | RefreshRequested

  /** The outside world as the command paths see it, in the order things happened. */
  class EffectLog {
    var events: seq<Effect>

    constructor ()
      ensures events == []
    {
      events := [];
    }
  }

  /** No step before step `i` raised. */
  predicate NoEscapeBefore(escapes: seq<bool>, i: int)
    requires 0 <= i <= |escapes|
  {
    forall j :: 0 <= j < i ==> !escapes[j]
  }

  /** How many steps of a sequence of statements run when step `i` raises
      exactly if `escapes[i]`: every step up to and including the first one
      that raises. */
  function RunLength(escapes: seq<bool>): (n: nat)
    ensures n <= |escapes|
    ensures forall i :: 0 <= i < |escapes| ==> (i < n <==> NoEscapeBefore(escapes, i))
    ensures n < |escapes| ==> 0 < n && escapes[n - 1]
  {
    if escapes == [] then 0
    else if escapes[0] then 1
    else
      var n := 1 + RunLength(escapes[1..]);
      assert forall i :: 1 <= i <= |escapes| ==>
        (NoEscapeBefore(escapes, i) <==> NoEscapeBefore(escapes[1..], i - 1));
      n
  }
}
