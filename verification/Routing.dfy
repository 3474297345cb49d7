/** Where a request for a host ends up: nginx tables, server socket, namespace, first DNAT rule. */
module Routing {
  import opened Basics
  import opened Config
  import opened Addressing
  import opened Forwarding
  import opened Iptables

  datatype Delivery =
    | ToBackend(network: u16, backend: Sock)  // through the namespace of this network
    | ToGateway(port: u16)                    // the gateway's own bridge address
    | Direct(sock: Sock)                      // outside the bridge network
    | Lost                                    // no namespace or no rule takes it

  // The network whose veth interface carries this address.
  function Owner(networks: seq<NetworkState>, ip: u32): Option<NetworkState>
  {
    if networks == [] then None
    else if VethAddr(networks[0].listenPort) == ip then Some(networks[0])
    else Owner(networks[1..], ip)
  }

  // What becomes of a connection that nginx opens to a server socket.
  function Deliver(networks: seq<NetworkState>, s: Sock): Delivery
  {
    if !InBridgeNet(s.ip) then Direct(s)
    else if s.ip == BRIDGE_ADDR then ToGateway(s.port)
    else
      match Owner(networks, s.ip)
      case None => Lost
      case Some(n) =>
        match FirstDnat(RulesOf(PortConfigOf(n)), VethName(n.listenPort), s.port)
        case None => Lost
        case Some(backend) => ToBackend(n.listenPort, backend)
  }

  function DeliverAll(networks: seq<NetworkState>, socks: seq<Sock>): seq<Delivery>
  {
    seq(|socks|, i requires 0 <= i < |socks| => Deliver(networks, socks[i]))
  }

  // Everything that requests for a host are sent to, in the order nginx lists the servers.
  function Route(networks: seq<NetworkState>, custom: seq<Entry>, scheme: Scheme, host: Host): seq<Delivery>
  {
    DeliverAll(networks, Resolve(TablesOf(networks, custom), scheme, host))
  }

  /*** What the configuration asks for, without ports, tables or rules ***/

  function Picks(url: Url, scheme: Scheme, host: Host): bool
  {
    HasScheme(url, scheme) && url.host == host
  }

  function CustomSockets(custom: seq<Entry>, scheme: Scheme, host: Host): seq<Delivery>
  {
    if custom == [] then []
    else
      (if Picks(custom[0].url, scheme, host) then [Direct(custom[0].sock)] else [])
        + CustomSockets(custom[1..], scheme, host)
  }

  // All backends of the URLs that match, as the proxy settings list them.
  function ProxyBackends(network: u16, proxy: seq<Proxied>, scheme: Scheme, host: Host): seq<Delivery>
  {
    if proxy == [] then []
    else
      (if Picks(proxy[0].url, scheme, host) then Delivered(network, proxy[0].backends) else [])
        + ProxyBackends(network, proxy[1..], scheme, host)
  }

  function Delivered(network: u16, socks: seq<Sock>): seq<Delivery>
  {
    seq(|socks|, i requires 0 <= i < |socks| => ToBackend(network, socks[i]))
  }

  function ConfiguredBackends(networks: seq<NetworkState>, scheme: Scheme, host: Host): seq<Delivery>
  {
    if networks == [] then []
    else ProxyBackends(networks[0].listenPort, networks[0].proxy, scheme, host)
         + ConfiguredBackends(networks[1..], scheme, host)
  }

  function Configured(networks: seq<NetworkState>, custom: seq<Entry>, scheme: Scheme, host: Host): seq<Delivery>
  {
    ConfiguredBackends(networks, scheme, host) + CustomSockets(custom, scheme, host)
  }

  // The network listening on port 1 has the bridge's own address; its mapped ports lead to the gateway itself.
  const OWN_ADDRESS_PORT: u16 := 1

  ghost predicate UsesOwnAddress(networks: seq<NetworkState>, scheme: Scheme, host: Host)
  {
    exists i, j | 0 <= i < |networks| && 0 <= j < |networks[i].proxy| ::
      networks[i].listenPort == OWN_ADDRESS_PORT && HasBackend(networks[i].proxy[j], scheme, host)
  }

  predicate HasBackend(p: Proxied, scheme: Scheme, host: Host) { Picks(p.url, scheme, host) && p.backends != [] }

  // How many backends the proxy settings list.
  function BackendCount(proxy: seq<Proxied>): nat
  {
    if proxy == [] then 0 else |proxy[0].backends| + BackendCount(proxy[1..])
  }

  // Beyond this many mappings of one network, mapped ports wrap to 0 and on.
  const MAX_MAPPINGS: nat := U16 - PORT_MAPPING_START

  ghost predicate WithinPortRange(networks: seq<NetworkState>)
  {
    forall i | 0 <= i < |networks| :: BackendCount(networks[i].proxy) <= MAX_MAPPINGS
  }

  ghost predicate CustomOutside(custom: seq<Entry>)
  {
    forall i | 0 <= i < |custom| :: !InBridgeNet(custom[i].sock.ip)
  }

  /*** Proof ***/

  lemma {:induction false} BackendsCounted(proxy: seq<Proxied>)
    ensures |Backends(proxy)| == BackendCount(proxy)
  {
    if proxy != [] { BackendsCounted(proxy[1..]); }
  }

  // The same backends, from the flat list that ports are numbered by.
  function NetworkBackends(network: u16, backends: seq<Backend>, scheme: Scheme, host: Host): seq<Delivery>
  {
    if backends == [] then []
    else
      (if Picks(backends[0].url, scheme, host) then [ToBackend(network, backends[0].sock)] else [])
        + NetworkBackends(network, backends[1..], scheme, host)
  }

  lemma {:induction false} BackendsSplit(network: u16, a: seq<Backend>, b: seq<Backend>, scheme: Scheme, host: Host)
    ensures NetworkBackends(network, a + b, scheme, host)
      == NetworkBackends(network, a, scheme, host) + NetworkBackends(network, b, scheme, host)
  {
    if a == [] {
      assert a + b == b;
    } else {
      assert (a + b)[0] == a[0] && (a + b)[1..] == a[1..] + b;
      BackendsSplit(network, a[1..], b, scheme, host);
    }
  }

  lemma {:induction false} OneUrl(network: u16, backends: seq<Backend>, url: Url, socks: seq<Sock>, scheme: Scheme, host: Host)
    requires |backends| == |socks| && forall i | 0 <= i < |socks| :: backends[i] == Backend(url, socks[i])
    ensures NetworkBackends(network, backends, scheme, host) == if Picks(url, scheme, host) then Delivered(network, socks) else []
    decreases |backends|
  {
    if backends != [] {
      OneUrl(network, backends[1..], url, socks[1..], scheme, host);
      assert backends[0] == Backend(url, socks[0]);
      assert Delivered(network, socks) == [ToBackend(network, socks[0])] + Delivered(network, socks[1..]);
    }
  }

  lemma {:induction false} FlatBackends(network: u16, proxy: seq<Proxied>, scheme: Scheme, host: Host)
    ensures NetworkBackends(network, Backends(proxy), scheme, host) == ProxyBackends(network, proxy, scheme, host)
  {
    if proxy != [] {
      var url, socks := proxy[0].url, proxy[0].backends;
      var first := seq(|socks|, i requires 0 <= i < |socks| => Backend(url, socks[i]));
      assert Backends(proxy) == first + Backends(proxy[1..]);
      BackendsSplit(network, first, Backends(proxy[1..]), scheme, host);
      OneUrl(network, first, url, socks, scheme, host);
      FlatBackends(network, proxy[1..], scheme, host);
    }
  }

  lemma {:induction false} OwnerFound(networks: seq<NetworkState>, k: nat)
    requires k < |networks| && DistinctPorts(networks)
    ensures Owner(networks, VethAddr(networks[k].listenPort)) == Some(networks[k])
  {
    if k > 0 {
      VethAddrExact(networks[0].listenPort);
      VethAddrExact(networks[k].listenPort);
      assert networks[1..][k - 1] == networks[k];
      OwnerFound(networks[1..], k - 1);
    }
  }

  // The socket of mapping i leads to the backend of mapping i.
  lemma DeliverMapping(networks: seq<NetworkState>, k: nat, i: nat)
    requires k < |networks| && DistinctPorts(networks) && WithinPortRange(networks)
    requires i < |PortMappings(networks[k])|
    ensures var n := networks[k];
      Deliver(networks, Sock(VethAddr(n.listenPort), MappedPort(i)))
        == if n.listenPort == OWN_ADDRESS_PORT then ToGateway(MappedPort(i)) else ToBackend(n.listenPort, PortMappings(n)[i].sock)
  {
    VethAddrExact(networks[k].listenPort);
    OwnerFound(networks, k);
    BackendsCounted(networks[k].proxy);
    ForwardPath(networks[k], i);
  }

  // The same list with the deliveries of the network on port 1 made to the gateway's own address.
  ghost predicate DiffersOnlyAtOwn(actual: seq<Delivery>, configured: seq<Delivery>)
  {
    && |actual| == |configured|
    && forall i | 0 <= i < |actual| ::
         if configured[i].ToBackend? && configured[i].network == OWN_ADDRESS_PORT then actual[i].ToGateway?
         else actual[i] == configured[i]
  }

  lemma DeliverSplit(networks: seq<NetworkState>, a: seq<Sock>, b: seq<Sock>)
    ensures DeliverAll(networks, a + b) == DeliverAll(networks, a) + DeliverAll(networks, b)
  {
  }

  lemma DifferSplit(a: seq<Delivery>, b: seq<Delivery>, c: seq<Delivery>, d: seq<Delivery>)
    requires DiffersOnlyAtOwn(a, c) && DiffersOnlyAtOwn(b, d)
    ensures DiffersOnlyAtOwn(a + b, c + d)
  {
  }

  lemma {:induction false} NetworkRouted(networks: seq<NetworkState>, k: nat, from: nat, scheme: Scheme, host: Host)
    requires k < |networks| && DistinctPorts(networks) && WithinPortRange(networks)
    requires from <= |PortMappings(networks[k])|
    ensures DiffersOnlyAtOwn(
      DeliverAll(networks, Listed(NetworkEntries(networks[k])[from..], scheme, host)),
      NetworkBackends(networks[k].listenPort, Backends(networks[k].proxy)[from..], scheme, host))
    decreases |PortMappings(networks[k])| - from
  {
    var n := networks[k];
    var entries, backends := NetworkEntries(n), Backends(n.proxy);
    if from < |entries| {
      NetworkRouted(networks, k, from + 1, scheme, host);
      assert entries[from..][0] == entries[from] && entries[from..][1..] == entries[from + 1..];
      assert backends[from..][0] == backends[from] && backends[from..][1..] == backends[from + 1..];
      var socks := Listed(entries[from + 1..], scheme, host);
      var rest := NetworkBackends(n.listenPort, backends[from + 1..], scheme, host);
      if Picks(entries[from].url, scheme, host) {
        var sock, delivery := entries[from].sock, ToBackend(n.listenPort, backends[from].sock);
        assert Listed(entries[from..], scheme, host) == [sock] + socks;
        assert NetworkBackends(n.listenPort, backends[from..], scheme, host) == [delivery] + rest;
        DeliverMapping(networks, k, from);
        DeliverSplit(networks, [sock], socks);
        DifferSplit(DeliverAll(networks, [sock]), DeliverAll(networks, socks), [delivery], rest);
      } else {
        assert Listed(entries[from..], scheme, host) == socks;
        assert NetworkBackends(n.listenPort, backends[from..], scheme, host) == rest;
      }
    }
  }

  lemma {:induction false} NetworksRouted(networks: seq<NetworkState>, k: nat, scheme: Scheme, host: Host)
    requires k <= |networks| && DistinctPorts(networks) && WithinPortRange(networks)
    ensures DiffersOnlyAtOwn(
      DeliverAll(networks, Listed(AllEntries(networks[k..]), scheme, host)),
      ConfiguredBackends(networks[k..], scheme, host))
    decreases |networks| - k
  {
    if k < |networks| {
      var n := networks[k];
      assert networks[k..][0] == n && networks[k..][1..] == networks[k + 1..];
      NetworksRouted(networks, k + 1, scheme, host);
      NetworkRouted(networks, k, 0, scheme, host);
      assert NetworkEntries(n)[0..] == NetworkEntries(n) && Backends(n.proxy)[0..] == Backends(n.proxy);
      var own, others := Listed(NetworkEntries(n), scheme, host), Listed(AllEntries(networks[k + 1..]), scheme, host);
      assert Listed(AllEntries(networks[k..]), scheme, host) == own + others by {
        ListedSplit(NetworkEntries(n), AllEntries(networks[k + 1..]), scheme, host);
      }
      DeliverSplit(networks, own, others);
      FlatBackends(n.listenPort, n.proxy, scheme, host);
      DifferSplit(DeliverAll(networks, own), DeliverAll(networks, others),
        ProxyBackends(n.listenPort, n.proxy, scheme, host),
        ConfiguredBackends(networks[k + 1..], scheme, host));
    }
  }

  lemma {:induction false} CustomRouted(networks: seq<NetworkState>, custom: seq<Entry>, scheme: Scheme, host: Host)
    requires CustomOutside(custom)
    ensures DeliverAll(networks, Listed(custom, scheme, host)) == CustomSockets(custom, scheme, host)
  {
    if custom != [] {
      var rest := custom[1..];
      assert CustomOutside(rest) by { assert forall i | 0 <= i < |rest| :: rest[i] == custom[i + 1]; }
      CustomRouted(networks, rest, scheme, host);
      var sock, socks := custom[0].sock, Listed(rest, scheme, host);
      assert Deliver(networks, sock) == Direct(sock);
      if Picks(custom[0].url, scheme, host) {
        assert Listed(custom, scheme, host) == [sock] + socks;
        DeliverSplit(networks, [sock], socks);
        assert DeliverAll(networks, [sock]) == [Direct(sock)];
      } else {
        assert Listed(custom, scheme, host) == socks;
      }
    }
  }

  lemma {:induction false} CustomAreDirect(custom: seq<Entry>, scheme: Scheme, host: Host)
    ensures forall d | d in CustomSockets(custom, scheme, host) :: d.Direct?
  {
    if custom != [] {
      CustomAreDirect(custom[1..], scheme, host);
    }
  }

  lemma Routed(networks: seq<NetworkState>, custom: seq<Entry>, scheme: Scheme, host: Host)
    requires DistinctPorts(networks) && WithinPortRange(networks) && CustomOutside(custom)
    ensures DiffersOnlyAtOwn(Route(networks, custom, scheme, host), Configured(networks, custom, scheme, host))
  {
    var own, others := Listed(AllEntries(networks), scheme, host), Listed(custom, scheme, host);
    assert Resolve(TablesOf(networks, custom), scheme, host) == own + others by {
      TablesMeaning(networks, custom, scheme, host);
      ListedSplit(AllEntries(networks), custom, scheme, host);
    }
    DeliverSplit(networks, own, others);
    assert networks[0..] == networks;
    NetworksRouted(networks, 0, scheme, host);
    CustomRouted(networks, custom, scheme, host);
    CustomAreDirect(custom, scheme, host);
    var configured, direct := ConfiguredBackends(networks, scheme, host), CustomSockets(custom, scheme, host);
    assert DiffersOnlyAtOwn(DeliverAll(networks, others), direct) by {
      forall i | 0 <= i < |direct| ensures direct[i].Direct? { assert direct[i] in direct; }
    }
    DifferSplit(DeliverAll(networks, own), DeliverAll(networks, others), configured, direct);
  }

  lemma {:induction false} BackendsOfProxy(network: u16, proxy: seq<Proxied>, scheme: Scheme, host: Host)
    ensures forall d | d in ProxyBackends(network, proxy, scheme, host) :: d.ToBackend? && d.network == network
    ensures ProxyBackends(network, proxy, scheme, host) != []
      <==> exists j | 0 <= j < |proxy| :: HasBackend(proxy[j], scheme, host)
  {
    if proxy != [] {
      BackendsOfProxy(network, proxy[1..], scheme, host);
      if j :| 0 <= j < |proxy| && HasBackend(proxy[j], scheme, host) {
        if j > 0 { assert proxy[1..][j - 1] == proxy[j]; }
      }
      if ProxyBackends(network, proxy[1..], scheme, host) != [] {
        var j :| 0 <= j < |proxy[1..]| && HasBackend(proxy[1..][j], scheme, host);
        assert proxy[j + 1] == proxy[1..][j];
      }
      if HasBackend(proxy[0], scheme, host) { assert |Delivered(network, proxy[0].backends)| > 0; }
    }
  }

  // Some backend that the configuration lists is behind the bridge's own address.
  ghost predicate ListsOwn(ds: seq<Delivery>) { exists d :: d in ds && d.ToBackend? && d.network == OWN_ADDRESS_PORT }

  lemma ListsOwnSplit(a: seq<Delivery>, b: seq<Delivery>)
    ensures ListsOwn(a + b) <==> ListsOwn(a) || ListsOwn(b)
  {
    if ListsOwn(a) {
      var d :| d in a && d.ToBackend? && d.network == OWN_ADDRESS_PORT;
      assert d in a + b;
    }
    if ListsOwn(b) {
      var d :| d in b && d.ToBackend? && d.network == OWN_ADDRESS_PORT;
      assert d in a + b;
    }
  }

  lemma UsesOwnFront(n: NetworkState, rest: seq<NetworkState>, scheme: Scheme, host: Host)
    ensures UsesOwnAddress([n] + rest, scheme, host) <==> UsesOwnAddress([n], scheme, host) || UsesOwnAddress(rest, scheme, host)
  {
    var all := [n] + rest;
    assert all[0] == n && [n][0] == n;
    assert forall i | 0 <= i < |rest| :: rest[i] == all[i + 1];
    if UsesOwnAddress(rest, scheme, host) {
      var i, j :| 0 <= i < |rest| && 0 <= j < |rest[i].proxy|
        && rest[i].listenPort == OWN_ADDRESS_PORT && HasBackend(rest[i].proxy[j], scheme, host);
      assert all[i + 1] == rest[i];
    }
  }

  lemma OneUsesOwn(n: NetworkState, scheme: Scheme, host: Host)
    ensures ListsOwn(ProxyBackends(n.listenPort, n.proxy, scheme, host)) <==> UsesOwnAddress([n], scheme, host)
  {
    var own := ProxyBackends(n.listenPort, n.proxy, scheme, host);
    BackendsOfProxy(n.listenPort, n.proxy, scheme, host);
    if own != [] { assert own[0] in own; }
    assert [n][0] == n;
  }

  lemma {:induction false} OwnAddressListed(networks: seq<NetworkState>, scheme: Scheme, host: Host)
    ensures ListsOwn(ConfiguredBackends(networks, scheme, host)) <==> UsesOwnAddress(networks, scheme, host)
  {
    if networks != [] {
      var n, rest := networks[0], networks[1..];
      OwnAddressListed(rest, scheme, host);
      ListsOwnSplit(ProxyBackends(n.listenPort, n.proxy, scheme, host), ConfiguredBackends(rest, scheme, host));
      OneUsesOwn(n, scheme, host);
      UsesOwnFront(n, rest, scheme, host);
      assert networks == [n] + rest;
    }
  }

  /** Requests for a host reach exactly the backends that the networks list for it, in order, then the custom
      sockets, if and only if no backend for it is listed by the network that has the bridge's own address. */
  lemma RoutingPreserved(networks: seq<NetworkState>, custom: seq<Entry>, scheme: Scheme, host: Host)
    requires DistinctPorts(networks) && WithinPortRange(networks) && CustomOutside(custom)
    ensures Route(networks, custom, scheme, host) == Configured(networks, custom, scheme, host)
      <==> !UsesOwnAddress(networks, scheme, host)
  {
    var actual, configured := Route(networks, custom, scheme, host), Configured(networks, custom, scheme, host);
    Routed(networks, custom, scheme, host);
    OwnAddressListed(networks, scheme, host);
    CustomAreDirect(custom, scheme, host);
    if UsesOwnAddress(networks, scheme, host) {
      var d :| d in ConfiguredBackends(networks, scheme, host) && d.ToBackend? && d.network == OWN_ADDRESS_PORT;
      var i :| 0 <= i < |ConfiguredBackends(networks, scheme, host)| && ConfiguredBackends(networks, scheme, host)[i] == d;
      assert configured[i] == d && actual[i].ToGateway?;
    } else {
      forall i | 0 <= i < |actual|
        ensures actual[i] == configured[i]
      {
        assert configured[i] in ConfiguredBackends(networks, scheme, host) || configured[i] in CustomSockets(custom, scheme, host);
      }
    }
  }
}
