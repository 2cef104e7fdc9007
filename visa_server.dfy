/**
 * The VISA base server: it opens the first configured link whose address the bus enumerates,
 * and resolves its port through the registry with the same search-key rule as the serial base.
 */
module Visa {
  import opened Wrappers
  import opened Text
  import opened Seqs
  import opened LabradRegistry

  datatype VisaError =
    | ConfigError(message: string)     // Exception raised by loadConfigInfo
    | AttributeError(attribute: string) // the handler reads `code` from an Exception that has none
    | RegistryError(code: int)         // a registry error re-raised by the handler

  const RegKeyMissing := "self.regKey must be defined to find the port!"

  /** The instrument bus: the resources it enumerates (none when enumeration fails) and those that open. */
  datatype Bus = Bus(resources: Option<seq<string>>, openable: set<string>)

  /** `address in self.instruments` for a (name, address) link. */
  function LinkMatcher(instruments: seq<string>): ((string, string)) -> bool
  {
    (link: (string, string)) => link.1 in instruments
  }

  /** The address initServer's loop settles on: the first enumerated link's, or "" when none is. */
  predicate IsFirstLinkAddress(links: seq<(string, string)>, instruments: seq<string>, address: string)
  {
    match FirstIndex(links, LinkMatcher(instruments))
    case None => address == ""
    case Some(i) => address == links[i].1
  }

  /** The search loop of initServer: the first link, in list order, whose address is enumerated. */
  method SelectAddress(links: seq<(string, string)>, instruments: seq<string>) returns (address: string)
    ensures address != "" ==> exists i :: 0 <= i < |links| && links[i].1 == address && address in instruments
    ensures IsFirstLinkAddress(links, instruments, address)
  {
    address := "";
    var i := 0;
    while i < |links|
      invariant 0 <= i <= |links|
      invariant forall j :: 0 <= j < i ==> links[j].1 !in instruments
    {
      if links[i].1 in instruments {
        address := links[i].1;
        assert LinkMatcher(instruments)(links[i]);
        return;
      }
      i := i + 1;
    }
  }

  /**
   * What the VISA getPortFromReg returns or raises. Success(None) is the None it returns when the
   * handler meets registry code 17 and builds, but does not raise, an exception. Its own
   * exceptions (no name, no matching key) carry no `code`, so reading it raises AttributeError.
   */
  function VisaPortLookup(dirs: map<seq<string>, Directory>, key: Option<string>, name: Option<string>,
                          dirCode: int): (r: Result<Option<string>, VisaError>)
    requires PortsPath in dirs ==> WellFormed(dirs[PortsPath])
    ensures r == Success(None) <==> PortsPath !in dirs && dirCode == DirectoryNotFound
    ensures r.Success? && r.value.Some? ==>
              PortsPath in dirs && exists k :: k in dirs[PortsPath].keys && r.value.value == dirs[PortsPath].values[k]
    ensures r.Failure? ==> r.error == AttributeError("code") ||
                           (r.error.RegistryError? && r.error.code != DirectoryNotFound)
  {
    if PortsPath !in dirs then
      (if dirCode == DirectoryNotFound then Success(None) else Failure(RegistryError(dirCode)))
    else
      match SearchKey(key, name)
      case None => Failure(AttributeError("code"))
      case Some(sub) =>
        match FirstKeyContaining(dirs[PortsPath].keys, sub)
        case None => Failure(AttributeError("code"))
        case Some(k) => Success(Some(dirs[PortsPath].values[k]))
  }

  /** The port is the value of the first listed key containing the search key. */
  lemma VisaPortLookupFirstKey(dirs: map<seq<string>, Directory>, key: Option<string>, name: Option<string>,
                               dirCode: int)
    requires PortsPath in dirs && WellFormed(dirs[PortsPath])
    requires SearchKey(key, name).Some?
    ensures var keys, sub := dirs[PortsPath].keys, SearchKey(key, name).value;
            var r := VisaPortLookup(dirs, key, name, dirCode);
            (r.Success? <==> exists i :: 0 <= i < |keys| && Contains(keys[i], sub)) &&
            (r.Success? ==> r.value.Some? &&
                            exists i :: 0 <= i < |keys| && Contains(keys[i], sub) &&
                                        r.value.value == dirs[PortsPath].values[keys[i]] &&
                                        forall j :: 0 <= j < i ==> !Contains(keys[j], sub))
  {
  }

  class VisaServer {
    const name: Option<string>
    const regKey: Option<string>
    /** self.client.registry. */
    const reg: Registry
    var instruments: Option<seq<string>>
    /** None until initServer assigns it. */
    var address: Option<string>
    /** The address of the opened resource, None until one is opened. */
    var device: Option<string>
    var port: Option<string>
    var usbLinks: map<string, Option<string>>

    constructor (name: Option<string>, regKey: Option<string>, reg: Registry)
      ensures this.name == name && this.regKey == regKey && this.reg == reg
      ensures instruments == None && address == None && device == None && port == None && usbLinks == map[]
    {
      this.name := name;
      this.regKey := regKey;
      this.reg := reg;
      instruments, address, device, port, usbLinks := None, None, None, None, map[];
    }

    /**
     * initServer: enumerate the bus; with at least one instrument, select the first link whose
     * address is enumerated and open it, and open nothing when there is none. A bus error leaves
     * everything as it was.
     */
    method InitServer(bus: Bus, links: seq<(string, string)>)
      modifies this`instruments, this`address, this`device
      ensures bus.resources.None? ==>
                instruments == old(instruments) && address == old(address) && device == old(device)
      ensures bus.resources.Some? ==> instruments == bus.resources
      ensures bus.resources == Some([]) ==> address == old(address) && device == old(device)
      ensures bus.resources.Some? && bus.resources.value != [] ==>
                address.Some? && IsFirstLinkAddress(links, bus.resources.value, address.value) &&
                device == if address.value != "" && address.value in bus.openable
                          then Some(address.value) else old(device)
    {
      if bus.resources.None? {
        return;
      }
      instruments := bus.resources;
      if |bus.resources.value| == 0 {
        return;
      }
      var selected := SelectAddress(links, bus.resources.value);
      address := Some(selected);
      if selected != "" && selected in bus.openable {
        device := Some(selected);
      }
    }

    /** getPortFromReg: like the serial lookup, but every exception restores the cursor. */
    method GetPortFromReg(key: Option<string>) returns (r: Result<Option<string>, VisaError>)
      requires reg.Valid()
      modifies reg
      ensures reg.Valid() && reg.cwd == old(reg.cwd)
      ensures r == VisaPortLookup(reg.dirs, key, name, reg.missingDirCode)
    {
      var saved := reg.Pwd();
      var moved := reg.Cd(PortsPath);
      if moved.Fail? {
        var restored := reg.Cd(saved);
        if moved.error == DirectoryNotFound {
          return Success(None);
        }
        return Failure(RegistryError(moved.error));
      }
      var subdirs, keys := reg.Dir();
      var sub := SearchKey(key, name);
      if sub.None? {
        var restored := reg.Cd(saved);
        return Failure(AttributeError("code"));
      }
      var hit := FirstKeyContaining(keys, sub.value);
      if hit.None? {
        var restored := reg.Cd(saved);
        return Failure(AttributeError("code"));
      }
      var value := reg.Get(hit.value);
      var restored := reg.Cd(saved);
      return Success(Some(value));
    }

    /** loadConfigInfo: needs regKey; then the port, and usb_links as the single pair regKey -> port. */
    method LoadConfigInfo() returns (r: Outcome<VisaError>)
      requires reg.Valid()
      modifies this`port, this`usbLinks, reg
      ensures reg.Valid() && reg.cwd == old(reg.cwd)
      ensures !Truthy(regKey) ==>
                r == Fail(ConfigError(RegKeyMissing)) && port == old(port) && usbLinks == old(usbLinks)
      ensures Truthy(regKey) ==>
                var lookup := VisaPortLookup(reg.dirs, regKey, name, reg.missingDirCode);
                (lookup.Failure? ==> r == Fail(lookup.error) && port == old(port) && usbLinks == old(usbLinks)) &&
                (lookup.Success? ==> r == Pass && port == lookup.value && usbLinks == map[regKey.value := lookup.value])
    {
      if !Truthy(regKey) {
        return Fail(ConfigError(RegKeyMissing));
      }
      var found := GetPortFromReg(regKey);
      if found.Failure? {
        return Fail(found.error);
      }
      port := found.value;
      usbLinks := map[regKey.value := found.value];
      r := Pass;
    }
  }
}
