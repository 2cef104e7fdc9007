/**
 * The serial device base server: it resolves its port through the registry, finds the
 * serial server running on its node, and holds at most one serial connection, which
 * server-connected and server-disconnected events re-open and drop.
 */
module SerialDevice {
  import opened Wrappers
  import opened Text
  import opened Seqs
  import opened LabradRegistry

  /** The exceptions the base server raises or lets through. */
  datatype SerialError =
    | SerialDeviceError(message: string)     // SerialDeviceError(value)
    | SerialConnectionError(code: int)       // SerialConnectionError(code)
    | PortRegError(code: int)                // PortRegError(code), a SerialConnectionError subclass
    | RegistryError(code: int)               // a labrad.types.Error passed through unchanged
    | ServerLookupError(server: string)      // client.servers has no server of that name
    | AttributeError(attribute: string)      // an attribute the server class never defines

  /** PortRegError derives from SerialConnectionError, so one except clause catches both. */
  predicate IsConnectionError(e: SerialError)
  {
    e.SerialConnectionError? || e.PortRegError?
  }

  /** SerialConnectionError.errorDict: what str(e) gives per code; an unknown code has no text. */
  function ConnectionErrorText(code: int): Option<string>
  {
    if code == 0 then Some("Could not find serial server in list")
    else if code == 1 then Some("Serial server not connected")
    else if code == 2 then Some("Attempting to use serial connection when not connected")
    else None
  }

  /** PortRegError.errorDict. */
  function PortRegErrorText(code: int): Option<string>
  {
    if code == 0 then Some("Registry not properly configured")
    else if code == 1 then Some("Key not found in registry")
    else if code == 2 then Some("No keys in registry")
    else None
  }

  const MissingAttributes := "Must define regKey & serNode attributes"
  const NameMissing := "name attribute is None"

  /** The class attributes a subclass sets and the base server reads. */
  datatype Config = Config(
    name: Option<string>,
    regKey: Option<string>,
    serNode: Option<string>,
    timeout: Option<nat>,      // in milliseconds
    hasBaudrate: bool,         // the base class itself never defines `baudrate`
    baudrate: Option<nat>)

  /** Both attributes initServer insists on are set and non-empty. */
  predicate Configured(cfg: Config)
  {
    Truthy(cfg.regKey) && Truthy(cfg.serNode)
  }

  /** The timeout initSerial passes on when its caller gives none: self.timeout, if truthy. */
  function DefaultTimeout(cfg: Config): Option<nat>
  {
    if cfg.timeout.Some? && cfg.timeout.value != 0 then cfg.timeout else None
  }

  // ----- Port lookup in the registry -----

  /** What getPortFromReg returns or raises, given the registry's directories. */
  function PortLookup(dirs: map<seq<string>, Directory>, key: Option<string>, name: Option<string>,
                      dirCode: int): (r: Result<string, SerialError>)
    requires PortsPath in dirs ==> WellFormed(dirs[PortsPath])
    ensures r.Success? ==> PortsPath in dirs &&
                           exists k :: k in dirs[PortsPath].keys && r.value == dirs[PortsPath].values[k]
    ensures r.Failure? ==> r.error == PortRegError(0) || r.error == PortRegError(1) ||
                           r.error == SerialDeviceError(NameMissing) ||
                           (r.error.RegistryError? && r.error.code != DirectoryNotFound)
  {
    if PortsPath !in dirs then
      Failure(if dirCode == DirectoryNotFound then PortRegError(0) else RegistryError(dirCode))
    else
      match SearchKey(key, name)
      case None => Failure(SerialDeviceError(NameMissing))
      case Some(sub) =>
        match FirstKeyContaining(dirs[PortsPath].keys, sub)
        case None => Failure(PortRegError(1))
        case Some(k) => Success(dirs[PortsPath].values[k])
  }

  /** The two exits that are not registry errors skip the restore and leave the cursor in Ports. */
  predicate LeavesCursorInPorts(r: Result<string, SerialError>)
  {
    r.Failure? && (r.error.SerialDeviceError? || r.error == PortRegError(1))
  }

  /** The port is the value of the first listed key containing the search key; none is PortRegError 1. */
  lemma PortLookupFirstKey(dirs: map<seq<string>, Directory>, key: Option<string>, name: Option<string>,
                           dirCode: int)
    requires PortsPath in dirs && WellFormed(dirs[PortsPath])
    requires SearchKey(key, name).Some?
    ensures var keys, sub := dirs[PortsPath].keys, SearchKey(key, name).value;
            var r := PortLookup(dirs, key, name, dirCode);
            (r.Success? <==> exists i :: 0 <= i < |keys| && Contains(keys[i], sub)) &&
            (r.Success? ==> exists i :: 0 <= i < |keys| && Contains(keys[i], sub) &&
                                        r.value == dirs[PortsPath].values[keys[i]] &&
                                        forall j :: 0 <= j < i ==> !Contains(keys[j], sub)) &&
            (r.Failure? ==> r.error == PortRegError(1))
  {
  }

  /** A missing Ports directory is PortRegError 0 for code 17 and the registry error itself otherwise. */
  lemma PortLookupMissingPorts(dirs: map<seq<string>, Directory>, key: Option<string>, name: Option<string>,
                               dirCode: int)
    requires PortsPath !in dirs
    ensures dirCode == 17 ==> PortLookup(dirs, key, name, dirCode) == Failure(PortRegError(0))
    ensures dirCode != 17 ==> PortLookup(dirs, key, name, dirCode) == Failure(RegistryError(dirCode))
  {
  }

  /** A two-key Ports registry: the first key containing "HV500" wins. */
  lemma PortLookupExamples(name: Option<string>, dirCode: int)
    ensures var ports := Directory([], ["HV500_HV264", "OTHER_KEY"],
                                   map["HV500_HV264" := "COM3", "OTHER_KEY" := "COM4"]);
            PortLookup(map[PortsPath := ports], Some("HV500"), name, dirCode) == Success("COM3")
  {
    var keys := ["HV500_HV264", "OTHER_KEY"];
    assert Contains(keys[0], "HV500");
    assert FirstIndex(keys, KeyMatcher("HV500")) == Some(0);
  }

  /** An empty Ports, a missing Ports and a missing name each fail with their own error. */
  lemma PortLookupFailureExamples(name: Option<string>, dirCode: int)
    ensures PortLookup(map[PortsPath := Directory([], [], map[])], Some("HV500"), name, dirCode)
            == Failure(PortRegError(1))
    ensures PortLookup(map[[""] := Directory([], [], map[])], Some("HV500"), name, 17) == Failure(PortRegError(0))
    ensures PortLookup(map[PortsPath := Directory([], [], map[])], None, None, dirCode)
            == Failure(SerialDeviceError(NameMissing))
  {
  }

  /** Without a key the search uses the name's first four letters, lower-cased: "HV500 server" finds "hv50". */
  lemma PortLookupDefaultKey(dirCode: int)
    ensures var ports := Directory([], ["hv500_a"], map["hv500_a" := "COM7"]);
            PortLookup(map[PortsPath := ports], Some(""), Some("HV500 server"), dirCode) == Success("COM7")
  {
    assert LowerStr(Take("HV500 server", 4)) == "hv50";
    assert Contains("hv500_a", "hv50");
    assert FirstIndex(["hv500_a"], KeyMatcher("hv50")) == Some(0);
  }

  // ----- Finding the serial server -----

  const SerialMarker := "serial"

  /** _matchSerial: the name contains "serial" and the node name, both compared lower-cased. */
  predicate MatchSerial(serNode: string, potMatch: string): (r: bool)
    ensures r <==> (exists i: nat :: OccursAt(LowerStr(potMatch), SerialMarker, i)) &&
                   (exists j: nat :: OccursAt(LowerStr(potMatch), LowerStr(serNode), j))
  {
    ContainsIffOccurs(LowerStr(potMatch), SerialMarker);
    ContainsIffOccurs(LowerStr(potMatch), LowerStr(serNode));
    Contains(LowerStr(potMatch), SerialMarker) && Contains(LowerStr(potMatch), LowerStr(serNode))
  }

  function SerialMatcher(serNode: string): string -> bool
  {
    name => MatchSerial(serNode, name)
  }

  lemma LowerIdempotent(s: string)
    ensures LowerStr(LowerStr(s)) == LowerStr(s)
  {
  }

  /** The match ignores letter case on both sides. */
  lemma MatchSerialIgnoresCase(serNode: string, potMatch: string)
    ensures MatchSerial(serNode, potMatch) == MatchSerial(LowerStr(serNode), LowerStr(potMatch))
  {
    LowerIdempotent(serNode);
    LowerIdempotent(potMatch);
  }

  lemma MatchSerialExample()
    ensures MatchSerial("Lab1", "lab1 Serial Server")
  {
    var name := LowerStr("lab1 Serial Server");
    assert name[5..11] == "serial";
    assert OccursAt(name, SerialMarker, 5);
    ContainsIffOccurs(name, SerialMarker);
    assert name[..4] == LowerStr("Lab1");
  }

  /** The second component of each (ID, name) pair, in order. */
  function ServerNames(servers: seq<(int, string)>): (names: seq<string>)
    ensures |names| == |servers|
    ensures forall i :: 0 <= i < |servers| ==> names[i] == servers[i].1
  {
    seq(|servers|, i requires 0 <= i < |servers| => servers[i].1)
  }

  /** findSerial: the first listed server name that matches the node, or SerialConnectionError 0. */
  function FindSerial(servers: seq<(int, string)>, serNode: string): (r: Result<string, SerialError>)
    ensures match FirstIndex(ServerNames(servers), SerialMatcher(serNode))
            case None => r == Failure(SerialConnectionError(0))
            case Some(i) => r == Success(servers[i].1)
  {
    match FirstMatch(ServerNames(servers), SerialMatcher(serNode))
    case None => Failure(SerialConnectionError(0))
    case Some(name) => Success(name)
  }

  // ----- Serial servers and connections -----

  /** A serial server known to the manager: its ID, its name, and the ports it can open. */
  datatype ServerInfo = ServerInfo(id: int, name: string, ports: set<string>)

  /** The servers the LabRAD manager knows of, in listing order. */
  datatype Network = Network(servers: seq<ServerInfo>)

  /** manager.servers(): (ID, name) pairs. */
  function Listing(net: Network): (l: seq<(int, string)>)
    ensures |l| == |net.servers|
    ensures forall i :: 0 <= i < |l| ==> l[i] == (net.servers[i].id, net.servers[i].name)
  {
    seq(|net.servers|, i requires 0 <= i < |net.servers| => (net.servers[i].id, net.servers[i].name))
  }

  function NameIs(name: string): ServerInfo -> bool
  {
    (s: ServerInfo) => s.name == name
  }

  /** client.servers[name]. */
  function ServerNamed(net: Network, name: string): Option<ServerInfo>
  {
    FirstMatch(net.servers, NameIs(name))
  }

  /** An open SerialConnection: the serial server's ID and name, the port, and the settings applied. */
  datatype Connection = Connection(id: int, server: string, port: string, timeout: Option<nat>,
                                   baudrate: Option<nat>, closed: bool)

  /** Building a SerialConnection: look the server up, then open the port, which fails with code 1. */
  function Connect(net: Network, serStr: string, port: string, timeout: Option<nat>, baudrate: Option<nat>)
    : (r: Result<Connection, SerialError>)
    ensures r.Success? ==> r.value.server == serStr && r.value.port == port && r.value.timeout == timeout &&
                           r.value.baudrate == baudrate && !r.value.closed
    ensures r.Success? ==> exists i :: 0 <= i < |net.servers| && net.servers[i].name == serStr &&
                                       net.servers[i].id == r.value.id && port in net.servers[i].ports
    ensures r.Failure? ==> r.error == ServerLookupError(serStr) || r.error == SerialConnectionError(1)
  {
    match ServerNamed(net, serStr)
    case None => Failure(ServerLookupError(serStr))
    case Some(s) =>
      if port in s.ports then Success(Connection(s.id, s.name, port, timeout, baudrate, false))
      else Failure(SerialConnectionError(1))
  }

  /** initSerial's effect on `ser`: set on success, cleared when opening fails, untouched by a failed lookup. */
  function InitSerialEffect(attempt: Result<Connection, SerialError>, before: Option<Connection>)
    : (Outcome<SerialError>, Option<Connection>)
  {
    match attempt
    case Success(c) => (Pass, Some(c))
    case Failure(e) => (Fail(e), if e.ServerLookupError? then before else None)
  }

  /** The try/except of initServer once the port is known: find, then open; codes 0 and 1 are swallowed. */
  function StartupConnect(cfg: Config, net: Network, port: string, before: Option<Connection>)
    : (r: (Outcome<SerialError>, Option<Connection>))
    requires cfg.serNode.Some?
    ensures r.0.Fail? ==> r.0.error == AttributeError("baudrate") || r.0.error.ServerLookupError?
    ensures r.0.Fail? ==> r.1 == before
    ensures r.1.Some? && r.1 != before ==> r.1.value.port == port && !r.1.value.closed
  {
    var tried :=
      match FindSerial(Listing(net), cfg.serNode.value)
      case Failure(e) => (Fail(e), before)
      case Success(serStr) =>
        if !cfg.hasBaudrate then (Fail(AttributeError("baudrate")), before)
        else InitSerialEffect(Connect(net, serStr, port, DefaultTimeout(cfg), cfg.baudrate), before);
    if tried.0.Fail? && IsConnectionError(tried.0.error) then
      (if tried.0.error.code == 0 || tried.0.error.code == 1 then Pass else tried.0, None)
    else tried
  }

  /** With the first name in the listing, client.servers finds that very server. */
  lemma ServerNamedFirst(net: Network, i: nat)
    requires i < |net.servers|
    requires forall j :: 0 <= j < i ==> net.servers[j].name != net.servers[i].name
    ensures ServerNamed(net, net.servers[i].name) == Some(net.servers[i])
  {
    var p := NameIs(net.servers[i].name);
    assert p(net.servers[i]);
  }

  /**
   * Startup never raises a connection error: without a matching serial server, or when the port
   * will not open, the server starts with no connection; otherwise it holds a connection to the
   * first matching server, on the resolved port, with the configured timeout and baud rate.
   */
  lemma StartupConnectsFirstSerialServer(cfg: Config, net: Network, port: string,
                                         before: Option<Connection>)
    requires cfg.serNode.Some? && cfg.hasBaudrate
    ensures var (r, after) := StartupConnect(cfg, net, port, before);
            match FirstIndex(ServerNames(Listing(net)), SerialMatcher(cfg.serNode.value))
            case None => r == Pass && after == None
            case Some(i) =>
              r == Pass &&
              after == if port in net.servers[i].ports
                       then Some(Connection(net.servers[i].id, net.servers[i].name, port, DefaultTimeout(cfg),
                                            cfg.baudrate, false))
                       else None
  {
    match FirstIndex(ServerNames(Listing(net)), SerialMatcher(cfg.serNode.value))
    case None =>
    case Some(i) =>
      forall j | 0 <= j < i
        ensures net.servers[j].name != net.servers[i].name
      {
        assert !SerialMatcher(cfg.serNode.value)(ServerNames(Listing(net))[j]);
      }
      ServerNamedFirst(net, i);
  }

  /** Every connection error the base server raises has a message in its class's table. */
  lemma RaisedCodesHaveText(dirs: map<seq<string>, Directory>, key: Option<string>, name: Option<string>,
                            dirCode: int, servers: seq<(int, string)>, serNode: string)
    requires PortsPath in dirs ==> WellFormed(dirs[PortsPath])
    ensures var r := PortLookup(dirs, key, name, dirCode);
            r.Failure? && r.error.PortRegError? ==> PortRegErrorText(r.error.code).Some?
    ensures var f := FindSerial(servers, serNode);
            f.Failure? ==> f.error.SerialConnectionError? && ConnectionErrorText(f.error.code).Some?
  {
  }

  /** What initServer returns or raises, given the registry and the servers the manager lists. */
  function InitServerOutcome(cfg: Config, dirs: map<seq<string>, Directory>, dirCode: int, net: Network,
                             before: Option<Connection>): Outcome<SerialError>
    requires PortsPath in dirs ==> WellFormed(dirs[PortsPath])
  {
    if !Configured(cfg) then Fail(SerialDeviceError(MissingAttributes))
    else
      match PortLookup(dirs, cfg.regKey, cfg.name, dirCode)
      case Failure(e) => Fail(e)
      case Success(p) => StartupConnect(cfg, net, p, before).0
  }

  /** A listed server is always found by client.servers. */
  lemma ServerNamedListed(net: Network, i: nat)
    requires i < |net.servers|
    ensures ServerNamed(net, net.servers[i].name).Some?
  {
    assert NameIs(net.servers[i].name)(net.servers[i]);
  }

  /**
   * For a server class that defines its baud rate, a configured server fails to start only when
   * its port cannot be resolved: a missing or unopenable serial server leaves it disconnected.
   */
  lemma StartupFailsOnlyOnPortLookup(cfg: Config, dirs: map<seq<string>, Directory>, dirCode: int,
                                     net: Network, before: Option<Connection>)
    requires PortsPath in dirs ==> WellFormed(dirs[PortsPath])
    requires Configured(cfg) && cfg.hasBaudrate
    ensures var r := InitServerOutcome(cfg, dirs, dirCode, net, before);
            var lookup := PortLookup(dirs, cfg.regKey, cfg.name, dirCode);
            r.Fail? <==> lookup.Failure?
    ensures var r := InitServerOutcome(cfg, dirs, dirCode, net, before);
            var lookup := PortLookup(dirs, cfg.regKey, cfg.name, dirCode);
            r.Fail? ==> r.error == lookup.error
  {
    match PortLookup(dirs, cfg.regKey, cfg.name, dirCode)
    case Failure(e) =>
    case Success(p) =>
      StartupPassesWithBaudrate(cfg, net, p, before);
  }

  /** With a baud rate defined, connecting at startup never raises, whatever the manager lists. */
  lemma StartupPassesWithBaudrate(cfg: Config, net: Network, port: string, before: Option<Connection>)
    requires cfg.serNode.Some? && cfg.hasBaudrate
    ensures StartupConnect(cfg, net, port, before).0.Pass?
  {
    match FirstIndex(ServerNames(Listing(net)), SerialMatcher(cfg.serNode.value))
    case None =>
    case Some(i) =>
      ServerNamedListed(net, i);
  }

  /** Should a server-connected event re-open the connection? */
  predicate ShouldReconnect(cfg: Config, ser: Option<Connection>, port: Option<string>, name: string): (r: bool)
    ensures r ==> ser.None? && port.Some? && cfg.serNode.Some?
    ensures r ==> exists i: nat :: OccursAt(LowerStr(name), SerialMarker, i)
    ensures r ==> exists j: nat :: OccursAt(LowerStr(name), LowerStr(cfg.serNode.value), j)
  {
    ser.None? && port.Some? && cfg.serNode.Some? && MatchSerial(cfg.serNode.value, name)
  }

  class SerialDeviceServer {
    const cfg: Config
    /** self.client.registry. */
    const reg: Registry
    var port: Option<string>
    /** The connection, None while disconnected. */
    var ser: Option<Connection>

    constructor (cfg: Config, reg: Registry, port: Option<string>)
      ensures this.cfg == cfg && this.reg == reg && this.port == port && ser == None
    {
      this.cfg := cfg;
      this.reg := reg;
      this.port := port;
      ser := None;
    }

    /**
     * getPortFromReg: the value of the first Ports key containing the search key. A missing Ports
     * directory and a missing key are PortRegError 0 and 1. The cursor is restored, except on the
     * two exits that are not registry errors.
     */
    method GetPortFromReg(key: Option<string>) returns (r: Result<string, SerialError>)
      requires reg.Valid()
      modifies reg
      ensures reg.Valid()
      ensures r == PortLookup(reg.dirs, key, cfg.name, reg.missingDirCode)
      ensures reg.cwd == if LeavesCursorInPorts(r) then PortsPath else old(reg.cwd)
    {
      var saved := reg.Pwd();
      var moved := reg.Cd(PortsPath);
      if moved.Fail? {
        var restored := reg.Cd(saved);
        if moved.error == DirectoryNotFound {
          return Failure(PortRegError(0));
        }
        return Failure(RegistryError(moved.error));
      }
      var subdirs, keys := reg.Dir();
      var sub := SearchKey(key, cfg.name);
      if sub.None? {
        return Failure(SerialDeviceError(NameMissing));
      }
      var hit := FirstKeyContaining(keys, sub.value);
      if hit.None? {
        return Failure(PortRegError(1));
      }
      var value := reg.Get(hit.value);
      var restored := reg.Cd(saved);
      return Success(value);
    }

    /**
     * initSerial: open the named serial server's port. Success sets `ser`; a port that will not
     * open clears `ser` and raises SerialConnectionError 1.
     */
    method InitSerial(net: Network, serStr: string, p: string, baudrate: Option<nat>)
      returns (r: Outcome<SerialError>)
      modifies this`ser
      ensures (r, ser) == InitSerialEffect(Connect(net, serStr, p, DefaultTimeout(cfg), baudrate), old(ser))
    {
      var server := ServerNamed(net, serStr);
      if server.None? {
        return Fail(ServerLookupError(serStr));
      }
      if p in server.value.ports {
        ser := Some(Connection(server.value.id, server.value.name, p, DefaultTimeout(cfg), baudrate, false));
        r := Pass;
      } else {
        ser := None;
        r := Fail(SerialConnectionError(1));
      }
    }

    /**
     * initServer: refuse to start without regKey and serNode, before touching the registry; look the
     * port up (its errors propagate); then find the serial server and connect, starting disconnected
     * when either step fails.
     */
    method InitServer(net: Network) returns (r: Outcome<SerialError>)
      requires reg.Valid()
      modifies this, reg
      ensures reg.Valid()
      ensures r == InitServerOutcome(cfg, reg.dirs, reg.missingDirCode, net, old(ser))
      ensures !Configured(cfg) ==>
                r == Fail(SerialDeviceError(MissingAttributes)) && port == old(port) && ser == old(ser) &&
                reg.cwd == old(reg.cwd)
      ensures Configured(cfg) ==>
                var lookup := PortLookup(reg.dirs, cfg.regKey, cfg.name, reg.missingDirCode);
                reg.cwd == (if LeavesCursorInPorts(lookup) then PortsPath else old(reg.cwd)) &&
                (lookup.Failure? ==> r == Fail(lookup.error) && port == old(port) && ser == old(ser)) &&
                (lookup.Success? ==> port == Some(lookup.value) &&
                                     (r, ser) == StartupConnect(cfg, net, lookup.value, old(ser)))
    {
      if !Truthy(cfg.regKey) || !Truthy(cfg.serNode) {
        return Fail(SerialDeviceError(MissingAttributes));
      }
      var found := GetPortFromReg(cfg.regKey);
      if found.Failure? {
        return Fail(found.error);
      }
      port := Some(found.value);
      var attempt: Outcome<SerialError>;
      var serStr := FindSerial(Listing(net), cfg.serNode.value);
      if serStr.Failure? {
        attempt := Fail(serStr.error);
      } else if !cfg.hasBaudrate {
        attempt := Fail(AttributeError("baudrate"));
      } else {
        attempt := InitSerial(net, serStr.value, found.value, cfg.baudrate);
      }
      if attempt.Fail? && IsConnectionError(attempt.error) {
        ser := None;
        if attempt.error.code == 0 || attempt.error.code == 1 {
          attempt := Pass;
        }
      }
      r := attempt;
    }

    /** checkConnection: SerialConnectionError 2 exactly when there is no connection. */
    method CheckConnection() returns (r: Outcome<SerialError>)
      ensures r.Fail? <==> ser.None?
      ensures r.Fail? ==> r.error == SerialConnectionError(2)
    {
      if ser.None? {
        return Fail(SerialConnectionError(2));
      }
      return Pass;
    }

    /**
     * serverConnected: re-open, without a new registry lookup, only when disconnected, with port and
     * node known, and the new server's name matching the node.
     */
    method ServerConnected(net: Network, id: int, name: string) returns (r: Outcome<SerialError>)
      modifies this`ser
      ensures !ShouldReconnect(cfg, old(ser), port, name) ==> r == Pass && ser == old(ser)
      ensures ShouldReconnect(cfg, old(ser), port, name) ==>
                (r, ser) == InitSerialEffect(Connect(net, name, port.value, DefaultTimeout(cfg), None), old(ser))
    {
      r := Pass;
      if ShouldReconnect(cfg, ser, port, name) {
        r := InitSerial(net, name, port.value, None);
      }
    }

    /** serverDisconnected: drop the connection only if it is to the server that went away. */
    method ServerDisconnected(id: int, name: string)
      modifies this`ser
      ensures ser == if old(ser).Some? && old(ser).value.id == id then None else old(ser)
    {
      if ser.Some? && ser.value.id == id {
        ser := None;
      }
    }

    /** stopServer: close the connection if there is one; `ser` itself stays set. */
    method StopServer()
      modifies this`ser
      ensures ser == if old(ser).Some? then Some(old(ser).value.(closed := true)) else None
    {
      if ser.Some? {
        ser := Some(ser.value.(closed := true));
      }
    }
  }
}
