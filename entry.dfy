/** The configuration entry each platform is set up from, and the identity
    strings the platforms derive from it: the device identity, the
    configuration URL, entity unique ids, and the port number as Python's
    `int()` reads it from the stored text. */
module Entry {
  import opened Ilo

  const Domain: string := "hp_ilo"
  const Manufacturer: string := "Hewlett Packard Enterprise"
  const ConnectionUpnp: string := "upnp"

  /** The `data` mapping of a config entry, with the keys the platforms index. */
  datatype EntryData = EntryData(
    host: string,
    port: string,
    username: string,
    password: string,
    name: string,
    uniqueId: string)   // entry.data['unique_id']

  /** A config entry: its id, its optional unique id, and its data. */
  datatype ConfigEntry = ConfigEntry(entryId: string, uniqueId: Option<string>, data: EntryData)

  /** The id the device is registered under: the entry's unique id, or its
      entry id when the config flow left the unique id unset. */
  function DeviceUniqueId(entry: ConfigEntry): (id: string)
    ensures entry.uniqueId.Some? ==> id == entry.uniqueId.value
    ensures entry.uniqueId.None? ==> id == entry.entryId
  {
    match entry.uniqueId
    case Some(u) => u
    case None => entry.entryId
  }

  /** `f"https://{host}:{port}"`. */
  function ConfigurationUrl(host: string, port: string): string
  {
    "https://" + host + ":" + port
  }

  /** The position of the last ':' in `s`. */
  function LastColon(s: string): (r: Option<nat>)
    ensures r.Some? ==> r.value < |s| && s[r.value] == ':' && ':' !in s[r.value + 1..]
    ensures r.None? ==> ':' !in s
  {
    if s == [] then None
    else if s[|s| - 1] == ':' then Some(|s| - 1)
    else
      var r := LastColon(s[..|s| - 1]);
      assert s == s[..|s| - 1] + [s[|s| - 1]];
      if r.Some? then
        assert s[r.value + 1..] == s[..|s| - 1][r.value + 1..] + [s[|s| - 1]];
        r
      else r
  }

  /** Reads host and port back out of an `https://host:port` URL, splitting
      at the last ':'. */
  function SplitUrl(url: string): Option<(string, string)>
  {
    if |url| < 8 || url[..8] != "https://" then None
    else
      var rest := url[8..];
      match LastColon(rest)
      case None => None
      case Some(i) => Some((rest[..i], rest[i + 1..]))
  }

  /** The configuration URL names the entry's host and port: both can be read
      back from it whenever the port text has no ':' in it. */
  lemma {:induction false} ConfigurationUrlRoundTrip(host: string, port: string)
    requires ':' !in port
    ensures SplitUrl(ConfigurationUrl(host, port)) == Some((host, port))
  {
    var url := ConfigurationUrl(host, port);
    var rest := host + ":" + port;
    assert url[..8] == "https://" && url[8..] == rest;
    assert ':' in rest by { assert rest[|host|] == ':'; }
    var i := LastColon(rest).value;
    assert forall k :: i < k < |rest| ==> rest[k] == rest[i + 1..][k - i - 1];
    assert forall k :: |host| < k < |rest| ==> rest[k] == port[k - |host| - 1];
    assert rest[|host|] == ':';
    assert i == |host|;
    assert rest[..|host|] == host && rest[|host| + 1..] == port;
  }

  /** The device-info mapping every platform builds for the entry. */
  datatype DeviceIdentity = DeviceIdentity(
    name: string,
    manufacturer: string,
    configurationUrl: string,
    connections: set<(string, string)>,
    identifiers: set<(string, string)>)

  /** The device identity of the entry: named by the entry, registered under
      `DeviceUniqueId` both as a UPnP connection and as an `hp_ilo` identifier,
      pointing at the controller's web interface. */
  function DeviceIdentityFor(entry: ConfigEntry): (d: DeviceIdentity)
    ensures d.name == entry.data.name && d.manufacturer == Manufacturer
    ensures d.identifiers == {(Domain, DeviceUniqueId(entry))}
    ensures d.connections == {(ConnectionUpnp, DeviceUniqueId(entry))}
    ensures ':' !in entry.data.port ==>
      SplitUrl(d.configurationUrl) == Some((entry.data.host, entry.data.port))
  {
    var id := DeviceUniqueId(entry);
    var d := DeviceIdentity(
      entry.data.name,
      Manufacturer,
      ConfigurationUrl(entry.data.host, entry.data.port),
      {(ConnectionUpnp, id)},
      {(Domain, id)});
    if ':' in entry.data.port then d
    else ConfigurationUrlRoundTrip(entry.data.host, entry.data.port); d
  }

  /** `f"{entry.data['unique_id']}_{suffix}"`, the unique id of an entity. */
  function EntityUniqueId(entry: ConfigEntry, suffix: string): string
  {
    entry.data.uniqueId + "_" + suffix
  }

  /** Two entities of one entry get the same unique id only if their suffixes
      (sensor names, fixed entity suffixes) are equal. */
  lemma {:induction false} EntityUniqueIdInjective(entry: ConfigEntry, a: string, b: string)
    ensures EntityUniqueId(entry, a) == EntityUniqueId(entry, b) <==> a == b
  {
    var p := entry.data.uniqueId + "_";
    if EntityUniqueId(entry, a) == EntityUniqueId(entry, b) {
      assert (p + a)[|p|..] == a;
      assert (p + b)[|p|..] == b;
    }
  }

  predicate IsDigit(c: char)
  {
    '0' <= c <= '9'
  }

  /** Text made of ASCII decimal digits only. */
  predicate AllDigits(s: string)
  {
    forall i :: 0 <= i < |s| ==> IsDigit(s[i])
  }

  /** The value of a string of decimal digits. */
  function DigitsValue(s: string): nat
    requires AllDigits(s)
  {
    if s == [] then 0
    else
      assert IsDigit(s[|s| - 1]);
      DigitsValue(s[..|s| - 1]) * 10 + (s[|s| - 1] as int - '0' as int)
  }

  /** `int(s)` for a plain decimal literal: an optional sign followed by one or
      more ASCII digits; anything else raises ValueError, which is `None` here. */
  function ParseInt(s: string): (r: Option<int>)
    ensures s == [] ==> r.None?
    ensures (s == "+" || s == "-") ==> r.None?
    ensures (exists i :: 0 <= i < |s| && !IsDigit(s[i]) && (i > 0 || (s[i] != '+' && s[i] != '-')))
      ==> r.None?
    ensures r.Some? && (s[0] != '-') ==> r.value >= 0
    ensures s != [] && AllDigits(s) ==> r == Some(DigitsValue(s))
    ensures |s| > 1 && s[0] == '+' && AllDigits(s[1..]) ==> r == Some(DigitsValue(s[1..]))
    ensures |s| > 1 && s[0] == '-' && AllDigits(s[1..]) ==> r == Some(-(DigitsValue(s[1..]) as int))
  {
    if s == [] then None
    else
      var sign := if s[0] == '-' then -1 else 1;
      var digits := if s[0] == '+' || s[0] == '-' then s[1..] else s;
      if digits == [] || !AllDigits(digits) then None
      else
        assert forall i :: 1 <= i < |s| ==> s[i] == s[1..][i - 1];
        Some(sign * DigitsValue(digits))
  }

  /** `str(n)`, the decimal text of a natural number. */
  function DecimalString(n: nat): (s: string)
    ensures s != [] && AllDigits(s)
  {
    var last := [('0' as int + n % 10) as char];
    if n < 10 then last else DecimalString(n / 10) + last
  }

  /** `int(str(n)) == n`: a port stored as its decimal text is read back unchanged. */
  lemma {:induction false} ParseDecimalString(n: nat)
    ensures ParseInt(DecimalString(n)) == Some(n)
  {
    DigitsOfDecimal(n);
  }

  lemma {:induction false} DigitsOfDecimal(n: nat)
    ensures DigitsValue(DecimalString(n)) == n
  {
    var s := DecimalString(n);
    if n >= 10 {
      assert s[..|s| - 1] == DecimalString(n / 10);
      DigitsOfDecimal(n / 10);
    } else {
      assert s[..|s| - 1] == [];
    }
  }
}
