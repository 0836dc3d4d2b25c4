/**
 * `HttpManager`: starts and stops the HTTP answer service. Starting loads the AI
 * dispatcher and listens either on the machine's LAN address or on `localhost`;
 * stopping unloads the dispatcher and drops the server.
 */
module HttpManager {
  import opened Wrappers
  import opened Errors
  import opened Strings
  import opened ProviderConfigs
  import AiRegistry
  import Adapters

  /** One entry of `os.networkInterfaces()[name]`. */
  datatype NetInfo = NetInfo(address: string, family: string, internal: bool)

  /** One `[name, entries]` pair of `os.networkInterfaces()`; the entry list may be `undefined`. */
  datatype Interface = Interface(name: string, entries: Option<seq<NetInfo>>)

  /** The `network` part of the user configuration. */
  datatype NetworkConfig = NetworkConfig(port: int, isLAN: bool)

  /** A listening server: the host and port it was started on. */
  datatype Server = Server(host: string, port: int)

  /** The address `getLocalIP` falls back to. */
  const Loopback: string := "127.0.0.1"

  /** `value || []`: an undefined entry list is read as empty. */
  function Entries(iface: Interface): (es: seq<NetInfo>)
    ensures iface.entries.None? ==> es == []
    ensures iface.entries.Some? ==> es == iface.entries.value
  {
    match iface.entries
    case None => []
    case Some(es) => es
  }

  /** The name fragments `getLocalIP` treats as virtual adapters, in the order it tests them. */
  const Markers: seq<string> := ["docker", "vmnet", "virtual", "VMware", "veth", "br-", "virbr"]

  /**
   * Whether `getLocalIP` passes over an interface: its name contains one of the
   * virtual-adapter markers, compared case-sensitively.
   */
  function Skipped(name: string): (r: bool)
    ensures r <==> exists k :: 0 <= k < |Markers| && Includes(name, Markers[k])
  {
    Includes(name, Markers[0]) || Includes(name, Markers[1]) || Includes(name, Markers[2]) || Includes(name, Markers[3])
    || Includes(name, Markers[4]) || Includes(name, Markers[5]) || Includes(name, Markers[6])
  }

  /** Docker, libvirt and VMware bridges are skipped. */
  lemma BridgesSkipped()
    ensures Skipped("docker0") && Skipped("br-5e1f") && Skipped("virbr0") && Skipped("vmnet8")
  {
  }

  /** A name that lacks the first letter of every marker is not skipped. */
  lemma NoMarkerInitial(name: string)
    requires 'd' !in name && 'v' !in name && 'V' !in name && 'b' !in name
    ensures !Skipped(name)
  {
    LacksFirstChar(name, "docker");
    LacksFirstChar(name, "vmnet");
    LacksFirstChar(name, "virtual");
    LacksFirstChar(name, "VMware");
    LacksFirstChar(name, "veth");
    LacksFirstChar(name, "br-");
    LacksFirstChar(name, "virbr");
  }

  /** An ordinary adapter is kept, and the comparison is case-sensitive: `Docker0` is kept. */
  lemma OrdinaryNamesKept()
    ensures !Skipped("eth0") && !Skipped("Docker0")
  {
    NoMarkerInitial("eth0");
    NoMarkerInitial("Docker0");
  }

  /** An entry `getLocalIP` accepts: an IPv4 address that is not internal. */
  predicate Eligible(n: NetInfo)
  {
    n.family == "IPv4" && !n.internal
  }

  /** Entry `j` of interface `i` is one `getLocalIP` would accept. */
  ghost predicate EligibleAt(ifaces: seq<Interface>, i: int, j: int)
  {
    0 <= i < |ifaces| && !Skipped(ifaces[i].name) && 0 <= j < |Entries(ifaces[i])| && Eligible(Entries(ifaces[i])[j])
  }

  /** Entry `j` of interface `i` is acceptable and no acceptable entry comes before it in iteration order. */
  ghost predicate FirstEligibleAt(ifaces: seq<Interface>, i: int, j: int)
  {
    && EligibleAt(ifaces, i, j)
    && forall i', j' :: EligibleAt(ifaces, i', j') ==> i < i' || (i == i' && j <= j')
  }

  /**
   * What `getLocalIP` may answer: the address of the first acceptable entry, or the
   * loopback address when there is none.
   */
  ghost predicate ChosenAddress(ifaces: seq<Interface>, ip: string)
  {
    || (exists i, j :: FirstEligibleAt(ifaces, i, j) && Entries(ifaces[i])[j].address == ip)
    || ((forall i, j :: !EligibleAt(ifaces, i, j)) && ip == Loopback)
  }

  /** `getLocalIP()`, given the interfaces `os.networkInterfaces()` lists, in its order. */
  method GetLocalIP(ifaces: seq<Interface>) returns (ip: string)
    ensures ChosenAddress(ifaces, ip)
  {
    var i := 0;
    while i < |ifaces|
      invariant 0 <= i <= |ifaces|
      invariant forall i', j' :: EligibleAt(ifaces, i', j') ==> i <= i'
    {
      if Skipped(ifaces[i].name) {
        i := i + 1;
        continue;
      }
      var entries := Entries(ifaces[i]);
      var j := 0;
      while j < |entries|
        invariant 0 <= j <= |entries|
        invariant forall i', j' :: EligibleAt(ifaces, i', j') ==> i < i' || (i == i' && j <= j')
      {
        if Eligible(entries[j]) {
          assert FirstEligibleAt(ifaces, i, j);
          return entries[j].address;
        }
        j := j + 1;
      }
      i := i + 1;
    }
    return Loopback;
  }

  /** The first acceptable entry is a single position. */
  lemma FirstEligibleUnique(ifaces: seq<Interface>, i: int, j: int, k: int, l: int)
    requires FirstEligibleAt(ifaces, i, j) && FirstEligibleAt(ifaces, k, l)
    ensures i == k && j == l
  {
    assert EligibleAt(ifaces, k, l);
    assert EligibleAt(ifaces, i, j);
  }

  /** `getLocalIP` is deterministic: the interface list decides its answer. */
  lemma ChosenAddressUnique(ifaces: seq<Interface>, a: string, b: string)
    requires ChosenAddress(ifaces, a) && ChosenAddress(ifaces, b)
    ensures a == b
  {
    if exists i, j :: EligibleAt(ifaces, i, j) {
      var i, j :| FirstEligibleAt(ifaces, i, j) && Entries(ifaces[i])[j].address == a;
      var k, l :| FirstEligibleAt(ifaces, k, l) && Entries(ifaces[k])[l].address == b;
      FirstEligibleUnique(ifaces, i, j, k, l);
    }
  }

  /** Behind a leading interface, positions shift by one. */
  lemma EligibleAfterHead(x: Interface, ifaces: seq<Interface>, i: int, j: int)
    requires Skipped(x.name)
    ensures EligibleAt([x] + ifaces, i + 1, j) <==> EligibleAt(ifaces, i, j)
  {
    var all := [x] + ifaces;
    assert |all| == |ifaces| + 1;
    if 0 <= i < |ifaces| {
      assert all[i + 1] == ifaces[i];
    }
  }

  /** With a skipped interface in front, every acceptable position is a shifted one. */
  lemma EligibleBehindSkipped(x: Interface, ifaces: seq<Interface>)
    requires Skipped(x.name)
    ensures forall i, j :: EligibleAt([x] + ifaces, i, j) <==> i >= 1 && EligibleAt(ifaces, i - 1, j)
  {
    forall i, j
      ensures EligibleAt([x] + ifaces, i, j) <==> i >= 1 && EligibleAt(ifaces, i - 1, j)
    {
      assert ([x] + ifaces)[0] == x;
      EligibleAfterHead(x, ifaces, i - 1, j);
    }
  }

  /** With a skipped interface in front, the first acceptable position is the shifted first one. */
  lemma FirstBehindSkipped(x: Interface, ifaces: seq<Interface>, i: int, j: int)
    requires Skipped(x.name)
    ensures FirstEligibleAt([x] + ifaces, i + 1, j) <==> FirstEligibleAt(ifaces, i, j)
  {
    var all := [x] + ifaces;
    EligibleBehindSkipped(x, ifaces);
    if FirstEligibleAt(all, i + 1, j) {
      forall i', j' | EligibleAt(ifaces, i', j')
        ensures i < i' || (i == i' && j <= j')
      {
        assert EligibleAt(all, i' + 1, j');
      }
    }
    if FirstEligibleAt(ifaces, i, j) {
      forall i', j' | EligibleAt(all, i', j')
        ensures i + 1 < i' || (i + 1 == i' && j <= j')
      {
        assert EligibleAt(ifaces, i' - 1, j');
      }
    }
  }

  /** A choice among the interfaces is still the choice once a skipped interface is put in front. */
  lemma ChoiceKeptBehindSkipped(x: Interface, ifaces: seq<Interface>, ip: string)
    requires Skipped(x.name) && ChosenAddress(ifaces, ip)
    ensures ChosenAddress([x] + ifaces, ip)
  {
    var all := [x] + ifaces;
    EligibleBehindSkipped(x, ifaces);
    if k, l :| FirstEligibleAt(ifaces, k, l) && Entries(ifaces[k])[l].address == ip {
      FirstBehindSkipped(x, ifaces, k, l);
      assert all[k + 1] == ifaces[k];
      assert FirstEligibleAt(all, k + 1, l) && Entries(all[k + 1])[l].address == ip;
    } else {
      assert forall i, j :: !EligibleAt(all, i, j);
    }
  }

  /** A choice behind a skipped interface is the choice among the remaining interfaces. */
  lemma ChoiceFoundBehindSkipped(x: Interface, ifaces: seq<Interface>, ip: string)
    requires Skipped(x.name) && ChosenAddress([x] + ifaces, ip)
    ensures ChosenAddress(ifaces, ip)
  {
    var all := [x] + ifaces;
    EligibleBehindSkipped(x, ifaces);
    if k, l :| FirstEligibleAt(all, k, l) && Entries(all[k])[l].address == ip {
      FirstBehindSkipped(x, ifaces, k - 1, l);
      assert all[k] == ifaces[k - 1];
      assert FirstEligibleAt(ifaces, k - 1, l) && Entries(ifaces[k - 1])[l].address == ip;
    } else {
      forall i, j
        ensures !EligibleAt(ifaces, i, j)
      {
        EligibleAfterHead(x, ifaces, i, j);
      }
    }
  }

  /** An interface with a virtual-adapter name placed first does not change the answer. */
  lemma SkippedInterfaceIgnored(x: Interface, ifaces: seq<Interface>, ip: string)
    requires Skipped(x.name)
    ensures ChosenAddress([x] + ifaces, ip) <==> ChosenAddress(ifaces, ip)
  {
    if ChosenAddress(ifaces, ip) {
      ChoiceKeptBehindSkipped(x, ifaces, ip);
    }
    if ChosenAddress([x] + ifaces, ip) {
      ChoiceFoundBehindSkipped(x, ifaces, ip);
    }
  }

  /**
   * The HTTP service: the dispatcher it loads and unloads, the server while it
   * listens, and the network settings last read by `start`.
   */
  class HttpManager {
    const aIManager: AiRegistry.AIManager
    /** The `server` field: the listening server, or `null`. */
    var server: Option<Server>
    /** The `config` field: unset until the first `start`. */
    var config: Option<NetworkConfig>

    ghost predicate Valid()
      reads this, aIManager, aIManager.activeProvider
    {
      aIManager.Valid()
    }

    /** The constructor: nothing listens yet. */
    constructor (aIManager: AiRegistry.AIManager)
      requires aIManager.Valid()
      ensures Valid() && this.aIManager == aIManager
      ensures server.None? && config.None?
    {
      this.aIManager := aIManager;
      server := None;
      config := None;
    }

    /** `isRunning()`: whether a server is held. */
    function IsRunning(): (r: bool)
      reads this
      ensures r <==> server.Some?
    {
      server.Some?
    }

    /**
     * `start()`, given the network settings and AI configuration the configuration
     * manager returns and the interfaces the operating system lists. The network
     * settings are stored first. A running service is left alone: no second load, no
     * second listen. Otherwise the dispatcher is loaded; when that throws nothing
     * listens; else the server listens on the configured port, on the LAN address
     * when `isLAN` is set and on `localhost` otherwise.
     */
    method Start(network: NetworkConfig, current: ProviderConfigs.AiConfig, ifaces: seq<Interface>) returns (r: Outcome<Error>)
      requires Valid()
      modifies this, aIManager
      ensures Valid() && config == Some(network)
      ensures aIManager.initialized == old(aIManager.initialized)
      ensures old(server).Some? ==>
        r == Pass && server == old(server)
        && aIManager.activeProvider == old(aIManager.activeProvider) && aIManager.config == old(aIManager.config)
      ensures old(server).None? && !old(aIManager.initialized) ==>
        && r == Fail(NotInitialized) && server.None?
        && aIManager.activeProvider == old(aIManager.activeProvider) && aIManager.config == old(aIManager.config)
      ensures old(server).None? && old(aIManager.initialized) ==> aIManager.config == Some(current)
      ensures old(server).None? && old(aIManager.initialized) && current.apiProvider.Unknown? ==>
        && r == Fail(UnsupportedProvider(current.apiProvider.raw)) && server.None?
        && aIManager.activeProvider == old(aIManager.activeProvider)
      ensures old(server).None? && old(aIManager.initialized) && current.apiProvider.Known? ==>
        && r == Pass && server.Some? && server.value.port == network.port
        && (network.isLAN ==> ChosenAddress(ifaces, server.value.host))
        && (!network.isLAN ==> server.value.host == "localhost")
        && aIManager.activeProvider != null && fresh(aIManager.activeProvider)
        && aIManager.activeProvider.name == current.apiProvider.provider
        && aIManager.activeProvider.config == Slice(current.aiProviderConfig, current.apiProvider.provider)
        && aIManager.activeProvider.dialect == Adapters.Modular
        && aIManager.activeProvider.sdk
           == Some(Adapters.Client(Adapters.BaseUrl(Adapters.Modular, aIManager.activeProvider.config), aIManager.activeProvider.config.apiKey))
    {
      config := Some(network);
      if server.Some? && IsRunning() {
        return Pass;
      }
      r := aIManager.Load(current);
      if r.Fail? {
        return r;
      }
      var host;
      if network.isLAN {
        host := GetLocalIP(ifaces);
      } else {
        host := "localhost";
      }
      server := Some(Server(host, network.port));
    }

    /**
     * `stop()`: when nothing listens it does nothing, and the dispatcher stays loaded;
     * otherwise it unloads the dispatcher and drops the server.
     */
    method Stop()
      requires Valid()
      modifies this, aIManager, aIManager.activeProvider
      ensures Valid() && !IsRunning() && config == old(config)
      ensures aIManager.initialized == old(aIManager.initialized) && aIManager.config == old(aIManager.config)
      ensures old(server).None? ==>
        aIManager.activeProvider == old(aIManager.activeProvider)
        && (aIManager.activeProvider != null ==> aIManager.activeProvider.sdk == old(aIManager.activeProvider.sdk))
      ensures old(server).Some? ==>
        aIManager.activeProvider == null
        && (old(aIManager.activeProvider) != null ==> old(aIManager.activeProvider).sdk.None?)
    {
      if server.None? {
        return;
      }
      aIManager.Unload();
      server := None;
    }
  }

  /**
   * Stopping a running service and starting it again with a known provider succeeds:
   * `unload` leaves the dispatcher initialized, so the second `load` goes through.
   */
  method StopThenStart(h: HttpManager, network: NetworkConfig, current: AiConfig, ifaces: seq<Interface>)
    returns (r: Outcome<Error>)
    requires h.Valid() && h.aIManager.initialized && current.apiProvider.Known?
    modifies h, h.aIManager, h.aIManager.activeProvider
    ensures r == Pass && h.IsRunning() && h.aIManager.activeProvider != null
    ensures h.aIManager.activeProvider.name == current.apiProvider.provider
    ensures h.aIManager.activeProvider.config == Slice(current.aiProviderConfig, current.apiProvider.provider)
    ensures h.aIManager.activeProvider.sdk
      == Some(Adapters.Client(Adapters.BaseUrl(Adapters.Modular, h.aIManager.activeProvider.config), h.aIManager.activeProvider.config.apiKey))
  {
    h.Stop();
    r := h.Start(network, current, ifaces);
  }
}
