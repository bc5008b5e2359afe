/** The polling coordinator. One refresh cycle creates a client, runs five
    queries against it in a fixed order, each of which may fail on its own, and
    returns the snapshot every entity then reads; an error that escapes the
    cycle is classified, first match wins, into an UpdateFailed message. */
module Coordinator {
  import opened Ilo
  import opened Entry

  /** What the coordinator reads from the entry when it is created. */
  datatype Settings = Settings(host: string, port: int, username: string, password: string)

  /** The coordinator's settings; `None` when `int(entry.data["port"])` raises
      ValueError, in which case creating the coordinator fails. */
  function SettingsFor(entry: ConfigEntry): Option<Settings>
  {
    match ParseInt(entry.data.port)
    case None => None
    case Some(port) => Some(Settings(entry.data.host, port, entry.data.username, entry.data.password))
  }

  /** A port stored as decimal text becomes the coordinator's port number, and
      the cycle's client is created with the entry's host and credentials. */
  lemma SettingsForDecimalPort(entry: ConfigEntry, port: nat)
    requires entry.data.port == DecimalString(port)
    ensures SettingsFor(entry) == Some(Settings(entry.data.host, port, entry.data.username, entry.data.password))
    ensures ClientFor(SettingsFor(entry).value)
      == IloClient(entry.data.host, entry.data.username, entry.data.password, port)
  {
    ParseDecimalString(port);
  }

  /** The value of an `HpIloData` once the cycle that built it has returned it. */
  datatype Snapshot = Snapshot(
    health: Option<EmbeddedHealth>,
    powerStatus: Option<string>,
    powerOnTime: Option<int>,
    serverName: Option<string>,
    hostData: Option<seq<SmbiosRecord>>,
    ilo: Option<IloClient>)

  /** All data fetched in one cycle, filled in field by field. */
  class HpIloData {
    var health: Option<EmbeddedHealth>
    var powerStatus: Option<string>
    var powerOnTime: Option<int>
    var serverName: Option<string>
    var hostData: Option<seq<SmbiosRecord>>
    var ilo: Option<IloClient>

    function View(): Snapshot
      reads this
    {
      Snapshot(health, powerStatus, powerOnTime, serverName, hostData, ilo)
    }

    /** `HpIloData(ilo=ilo)`: the client is set, every data field is None. */
    constructor (ilo: IloClient)
      ensures View() == Snapshot(None, None, None, None, None, Some(ilo))
    {
      health, powerStatus, powerOnTime, serverName, hostData := None, None, None, None, None;
      this.ilo := Some(ilo);
    }
  }

  /** The queries of one cycle. */
  datatype Query = GetEmbeddedHealth | GetHostPowerStatus | GetServerPowerOnTime | GetServerName | GetHostData

  /** The order the cycle runs them in. */
  const QueryOrder: seq<Query> :=
    [GetEmbeddedHealth, GetHostPowerStatus, GetServerPowerOnTime, GetServerName, GetHostData]

  /** What the controller library does during one cycle: whether creating the
      client raises, and the reply to each query. */
  datatype CycleReplies = CycleReplies(
    connect: Option<IloError>,
    health: Reply<EmbeddedHealth>,
    powerStatus: Reply<string>,
    powerOnTime: Reply<int>,
    serverName: Reply<string>,
    hostData: Reply<seq<SmbiosRecord>>)

  /** The `except (hpilo.IloError, hpilo.IloFeatureNotSupported)` around each query. */
  const QueryCatch: seq<ErrorKind> := [OtherIloError, FeatureNotSupported]

  /** The reply is an error that the per-query `except` does not catch. */
  predicate Escapes<T>(h: Hierarchy, r: Reply<T>)
  {
    r.Err? && !CaughtBy(h, r.error.kind, QueryCatch)
  }

  /** What one guarded query leaves in its field: its value, None when its
      error is caught, or the error that escapes. */
  function Guarded<T>(h: Hierarchy, r: Reply<T>): Outcome<Option<T>>
  {
    match r
    case Ok(v) => Done(Some(v))
    case Err(e) => if CaughtBy(h, e.kind, QueryCatch) then Done(None) else Raised(e)
  }

  /** The value a reply puts in its field when the cycle completes. */
  function Stored<T>(r: Reply<T>): Option<T>
  {
    if r.Ok? then Some(r.value) else None
  }

  /** A guarded query raises exactly when its error escapes, and otherwise
      leaves its stored value. */
  lemma GuardedCases<T>(h: Hierarchy, r: Reply<T>)
    ensures Guarded(h, r).Raised? <==> Escapes(h, r)
    ensures Guarded(h, r).Raised? ==> Guarded(h, r).error == r.error
    ensures Guarded(h, r).Done? ==> Guarded(h, r).value == Stored(r)
  {
  }

  /** The five guarded queries of one cycle behave as `GuardedCases` says. */
  lemma AllGuardedCases(c: CycleReplies, h: Hierarchy)
    ensures Guarded(h, c.health).Raised? <==> Escapes(h, c.health)
    ensures Guarded(h, c.powerStatus).Raised? <==> Escapes(h, c.powerStatus)
    ensures Guarded(h, c.powerOnTime).Raised? <==> Escapes(h, c.powerOnTime)
    ensures Guarded(h, c.serverName).Raised? <==> Escapes(h, c.serverName)
    ensures Guarded(h, c.hostData).Raised? <==> Escapes(h, c.hostData)
    ensures Guarded(h, c.health).Raised? ==> Guarded(h, c.health).error == c.health.error
    ensures Guarded(h, c.powerStatus).Raised? ==> Guarded(h, c.powerStatus).error == c.powerStatus.error
    ensures Guarded(h, c.powerOnTime).Raised? ==> Guarded(h, c.powerOnTime).error == c.powerOnTime.error
    ensures Guarded(h, c.serverName).Raised? ==> Guarded(h, c.serverName).error == c.serverName.error
    ensures Guarded(h, c.hostData).Raised? ==> Guarded(h, c.hostData).error == c.hostData.error
    ensures EscapeFlags(h, c) == [Escapes(h, c.health), Escapes(h, c.powerStatus),
      Escapes(h, c.powerOnTime), Escapes(h, c.serverName), Escapes(h, c.hostData)]
  {
    GuardedCases(h, c.health);
    GuardedCases(h, c.powerStatus);
    GuardedCases(h, c.powerOnTime);
    GuardedCases(h, c.serverName);
    GuardedCases(h, c.hostData);
  }

  /** The error of each reply, in query order. */
  function ReplyErrors(c: CycleReplies): seq<Option<IloError>>
  {
    [ErrorOf(c.health), ErrorOf(c.powerStatus), ErrorOf(c.powerOnTime), ErrorOf(c.serverName), ErrorOf(c.hostData)]
  }

  function ErrorOf<T>(r: Reply<T>): Option<IloError>
  {
    if r.Err? then Some(r.error) else None
  }

  /** Which queries raise out of the cycle, in query order. */
  function EscapeFlags(h: Hierarchy, c: CycleReplies): seq<bool>
  {
    [Escapes(h, c.health), Escapes(h, c.powerStatus), Escapes(h, c.powerOnTime),
     Escapes(h, c.serverName), Escapes(h, c.hostData)]
  }

  /** The client a cycle creates from the settings. */
  function ClientFor(s: Settings): IloClient
  {
    IloClient(s.host, s.username, s.password, s.port)
  }

  /** The value of `_fetch_data`: the snapshot it returns, or the error that escapes it. */
  function Fetch(s: Settings, c: CycleReplies, h: Hierarchy): Outcome<Snapshot>
  {
    if c.connect.Some? then Raised(c.connect.value)
    else
      var health :- Guarded(h, c.health);
      var powerStatus :- Guarded(h, c.powerStatus);
      var powerOnTime :- Guarded(h, c.powerOnTime);
      var serverName :- Guarded(h, c.serverName);
      var hostData :- Guarded(h, c.hostData);
      Done(Snapshot(health, powerStatus, powerOnTime, serverName, hostData, Some(ClientFor(s))))
  }

  /** The queries a cycle sends, in the order it sends them. */
  function IssuedQueries(c: CycleReplies, h: Hierarchy): seq<Query>
  {
    if c.connect.Some? then [] else QueryOrder[..RunLength(EscapeFlags(h, c))]
  }

  /** Every snapshot a cycle returns carries the client created at its start. */
  lemma FetchCarriesClient(s: Settings, c: CycleReplies, h: Hierarchy)
    ensures Fetch(s, c, h).Done? ==> Fetch(s, c, h).value.ilo == Some(ClientFor(s))
  {
  }

  /** In a snapshot the cycle returns, each field holds exactly its own query's
      value, or None when that query's error was caught; no reply affects
      another query's field. */
  lemma FetchFieldsIsolated(s: Settings, c: CycleReplies, h: Hierarchy)
    requires Fetch(s, c, h).Done?
    ensures Fetch(s, c, h).value == Snapshot(
      Stored(c.health), Stored(c.powerStatus), Stored(c.powerOnTime),
      Stored(c.serverName), Stored(c.hostData), Some(ClientFor(s)))
  {
  }

  /** No query's error escapes the per-query catch. */
  predicate NothingEscapes(h: Hierarchy, c: CycleReplies)
  {
    !Escapes(h, c.health) && !Escapes(h, c.powerStatus) && !Escapes(h, c.powerOnTime)
    && !Escapes(h, c.serverName) && !Escapes(h, c.hostData)
  }

  /** A cycle returns a snapshot exactly when the client is created and no
      query's error escapes the per-query catch. */
  lemma FetchSucceedsIffNothingEscapes(s: Settings, c: CycleReplies, h: Hierarchy)
    ensures Fetch(s, c, h).Done? <==> c.connect.None? && NothingEscapes(h, c)
  {
    AllGuardedCases(c, h);
  }

  /** How many queries one cycle runs: all up to the first whose error escapes. */
  lemma QueriesRun(c: CycleReplies, h: Hierarchy)
    ensures RunLength(EscapeFlags(h, c)) ==
      if Escapes(h, c.health) then 1
      else if Escapes(h, c.powerStatus) then 2
      else if Escapes(h, c.powerOnTime) then 3
      else if Escapes(h, c.serverName) then 4
      else 5
  {
    var f := EscapeFlags(h, c);
    var n := RunLength(f);
    assert |f| == 5 && NoEscapeBefore(f, 0);
    if !f[0] {
      assert NoEscapeBefore(f, 1);
      if !f[1] {
        assert NoEscapeBefore(f, 2);
        if !f[2] {
          assert NoEscapeBefore(f, 3);
          if !f[3] {
            assert NoEscapeBefore(f, 4);
          } else {
            assert !NoEscapeBefore(f, 4);
          }
        } else {
          assert !NoEscapeBefore(f, 3);
        }
      } else {
        assert !NoEscapeBefore(f, 2);
      }
    } else {
      assert !NoEscapeBefore(f, 1);
    }
  }

  /** The cycle sends the queries in the fixed order and stops at the first
      query whose error escapes: that query is the last one sent and its error
      is the one the cycle raises. */
  lemma {:induction false} IssuedFollowsQueryOrder(s: Settings, c: CycleReplies, h: Hierarchy)
    requires c.connect.None?
    ensures IssuedQueries(c, h) == QueryOrder[..|IssuedQueries(c, h)|]
    ensures forall i :: 0 <= i < |QueryOrder| ==>
      (QueryOrder[i] in IssuedQueries(c, h) <==> NoEscapeBefore(EscapeFlags(h, c), i))
    ensures Fetch(s, c, h).Raised? <==>
      |IssuedQueries(c, h)| > 0 && EscapeFlags(h, c)[|IssuedQueries(c, h)| - 1]
    ensures Fetch(s, c, h).Raised? ==>
      ReplyErrors(c)[|IssuedQueries(c, h)| - 1] == Some(Fetch(s, c, h).error)
  {
    var f := EscapeFlags(h, c);
    var n := RunLength(f);
    AllGuardedCases(c, h);
    QueriesRun(c, h);
    assert IssuedQueries(c, h) == QueryOrder[..n];
    forall i | 0 <= i < |QueryOrder|
      ensures QueryOrder[i] in IssuedQueries(c, h) <==> i < n
    {
      if QueryOrder[i] in QueryOrder[..n] {
        var j :| 0 <= j < n && QueryOrder[..n][j] == QueryOrder[i];
        assert i == j;
      }
    }
  }

  /** When every query fails and every error is caught, the cycle still sends
      all five queries and returns a snapshot that holds only the client, and
      the host framework receives it as an update rather than a failure. */
  lemma AllQueriesCaught(s: Settings, c: CycleReplies, h: Hierarchy)
    requires c.connect.None?
    requires c.health.Err? && c.powerStatus.Err? && c.powerOnTime.Err?
    requires c.serverName.Err? && c.hostData.Err?
    requires NothingEscapes(h, c)
    ensures IssuedQueries(c, h) == QueryOrder
    ensures Fetch(s, c, h) == Done(Snapshot(None, None, None, None, None, Some(ClientFor(s))))
    ensures UpdateResult(h, Fetch(s, c, h)) == Updated(Fetch(s, c, h).value)
  {
    AllGuardedCases(c, h);
    QueriesRun(c, h);
  }

  /** What `_async_update_data` gives the host framework. */
  datatype UpdateOutcome =
    | Updated(snapshot: Snapshot)
    | UpdateFailed(message: string)   // raise UpdateFailed(message)
    | Unhandled(error: IloError)      // the error escapes unchanged

  /** One `except C as err: raise UpdateFailed(f"{prefix}: {err}")` clause. */
  datatype Handler = Handler(catches: ErrorKind, prefix: string)

  /** The clauses of `_async_update_data`, in the order Python tries them. */
  const UpdateHandlers: seq<Handler> := [
    Handler(LoginFailed, "Authentication failed"),
    Handler(CommunicationError, "Communication error"),
    Handler(OtherIloError, "iLO error")
  ]

  /** The first clause that catches an error of class `k`. */
  function FirstHandler(h: Hierarchy, k: ErrorKind, handlers: seq<Handler>): (r: Option<nat>)
    ensures r.Some? ==> r.value < |handlers| && IsInstance(h, k, handlers[r.value].catches)
    ensures r.Some? ==> forall j :: 0 <= j < r.value ==> !IsInstance(h, k, handlers[j].catches)
    ensures r.None? ==> forall j :: 0 <= j < |handlers| ==> !IsInstance(h, k, handlers[j].catches)
  {
    if handlers == [] then None
    else if IsInstance(h, k, handlers[0].catches) then Some(0)
    else
      match FirstHandler(h, k, handlers[1..])
      case None => None
      case Some(i) => Some(i + 1)
  }

  /** `_async_update_data`: a returned snapshot is the update; an escaping
      error becomes UpdateFailed with the prefix of the first clause that
      catches it, or escapes unchanged when none does. */
  function UpdateResult(h: Hierarchy, fetched: Outcome<Snapshot>): UpdateOutcome
  {
    match fetched
    case Done(snapshot) => Updated(snapshot)
    case Raised(e) =>
      match FirstHandler(h, e.kind, UpdateHandlers)
      case None => Unhandled(e)
      case Some(i) => UpdateFailed(UpdateHandlers[i].prefix + ": " + e.message)
  }

  /** The messages of UpdateFailed, first match first: a login failure is an
      authentication failure even when it is also a communication error, and
      so on down the clauses. */
  lemma UpdateFailedMessages(h: Hierarchy, e: IloError)
    ensures IsInstance(h, e.kind, LoginFailed) ==>
      UpdateResult(h, Raised(e)) == UpdateFailed("Authentication failed: " + e.message)
    ensures !IsInstance(h, e.kind, LoginFailed) && IsInstance(h, e.kind, CommunicationError) ==>
      UpdateResult(h, Raised(e)) == UpdateFailed("Communication error: " + e.message)
    ensures (!IsInstance(h, e.kind, LoginFailed) && !IsInstance(h, e.kind, CommunicationError)
      && IsInstance(h, e.kind, OtherIloError)) ==>
      UpdateResult(h, Raised(e)) == UpdateFailed("iLO error: " + e.message)
    ensures (!IsInstance(h, e.kind, LoginFailed) && !IsInstance(h, e.kind, CommunicationError)
      && !IsInstance(h, e.kind, OtherIloError)) ==>
      UpdateResult(h, Raised(e)) == Unhandled(e)
  {
    var r := FirstHandler(h, e.kind, UpdateHandlers);
    assert UpdateHandlers[0].catches == LoginFailed;
    assert UpdateHandlers[1].catches == CommunicationError;
    assert UpdateHandlers[2].catches == OtherIloError;
    if r.Some? {
      assert r.value == 0 || r.value == 1 || r.value == 2;
    }
  }

  /** The coordinator of one config entry. */
  class HpIloDataUpdateCoordinator {
    const settings: Settings
    /** The latest snapshot; the host framework stores each Updated snapshot here. */
    var data: Option<Snapshot>

    constructor (settings: Settings)
      ensures this.settings == settings && data == None
    {
      this.settings := settings;
      data := None;
    }

    /** `_fetch_data`: creates the client, then runs each query in its own
        `try`, storing a value in that query's field only. */
    method FetchData(c: CycleReplies, h: Hierarchy) returns (result: Outcome<HpIloData>, issued: seq<Query>)
      ensures issued == IssuedQueries(c, h)
      ensures result.Raised? <==> Fetch(settings, c, h).Raised?
      ensures result.Raised? ==> result.error == Fetch(settings, c, h).error
      ensures result.Done? ==> fresh(result.value) && result.value.View() == Fetch(settings, c, h).value
    {
      QueriesRun(c, h);
      AllGuardedCases(c, h);
      issued := [];
      if c.connect.Some? {
        return Raised(c.connect.value), issued;
      }
      var data := new HpIloData(ClientFor(settings));

      issued := issued + [GetEmbeddedHealth];
      match c.health {
        case Ok(v) => data.health := Some(v);
        case Err(e) =>
          if !CaughtBy(h, e.kind, QueryCatch) {
            return Raised(e), issued;
          }
      }

      issued := issued + [GetHostPowerStatus];
      match c.powerStatus {
        case Ok(v) => data.powerStatus := Some(v);
        case Err(e) =>
          if !CaughtBy(h, e.kind, QueryCatch) {
            return Raised(e), issued;
          }
      }

      issued := issued + [GetServerPowerOnTime];
      match c.powerOnTime {
        case Ok(v) => data.powerOnTime := Some(v);
        case Err(e) =>
          if !CaughtBy(h, e.kind, QueryCatch) {
            return Raised(e), issued;
          }
      }

      issued := issued + [GetServerName];
      match c.serverName {
        case Ok(v) => data.serverName := Some(v);
        case Err(e) =>
          if !CaughtBy(h, e.kind, QueryCatch) {
            return Raised(e), issued;
          }
      }

      issued := issued + [GetHostData];
      match c.hostData {
        case Ok(v) => data.hostData := Some(v);
        case Err(e) =>
          if !CaughtBy(h, e.kind, QueryCatch) {
            return Raised(e), issued;
          }
      }

      return Done(data), issued;
    }

    /** `_async_update_data`: runs one cycle and classifies what escapes it. */
    method AsyncUpdateData(c: CycleReplies, h: Hierarchy) returns (u: UpdateOutcome)
      ensures u == UpdateResult(h, Fetch(settings, c, h))
    {
      var fetched, _ := FetchData(c, h);
      match fetched {
        case Done(data) =>
          u := Updated(data.View());
        case Raised(e) =>
          var i := FirstHandler(h, e.kind, UpdateHandlers);
          if i.Some? {
            u := UpdateFailed(UpdateHandlers[i.value].prefix + ": " + e.message);
          } else {
            u := Unhandled(e);
          }
      }
    }
  }
}
