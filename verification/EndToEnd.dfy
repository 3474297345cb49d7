/** After a successful run the system itself, read from its NAT texts, addresses and nginx tables, sends requests
    where the configuration says. */
module EndToEnd {
  import opened Basics
  import opened Config
  import opened Addressing
  import opened Forwarding
  import opened Iptables
  import opened Cleaning
  import opened Routing
  import opened Kernel
  import opened Reconciler
  import opened Effects
  import opened NetworkEffect
  import opened Convergence
  import opened Invariants

  predicate HasAddr(l: Link, ip: u32) { exists a :: a in l.addrs && a.addr == ip }

  // Some interface outside the namespaces has the address, so the gateway itself answers.
  predicate Local(k: Kernel, ip: u32) { exists l :: l in k.root && HasAddr(k.root[l], ip) }

  // A veth pair that is up joins the namespace to the bridge.
  predicate Attached(k: Kernel, ns: string)
  {
    exists l :: l in k.root && k.root[l].peer == Some(ns) && k.root[l].master == Some(BRIDGE) && !k.root[l].down
  }

  // How many addresses share a prefix of this length.
  function Width(prefix: nat): (w: nat)
    ensures w > 0
    decreases 32 - prefix
  {
    if prefix >= 32 then 1 else 2 * Width(prefix + 1)
  }

  // The interface that has this address takes the other one to be on its link.
  predicate Covers(a: IpNet, ip: u32) { a.addr / Width(a.prefix) == ip / Width(a.prefix) }

  // The gateway looks for the address on the bridge.
  predicate OnBridge(k: Kernel, ip: u32)
  {
    BRIDGE in k.root && !k.root[BRIDGE].down && exists a :: a in k.root[BRIDGE].addrs && Covers(a, ip)
  }

  // The interface has the address, and finds the bridge's own on its link.
  predicate AddrFacesBridge(l: Link, ip: u32) { exists a :: a in l.addrs && a.addr == ip && Covers(a, BRIDGE_ADDR) }

  // The address is looked for on the bridge, the namespace is on it too, and some interface of it that is up has the
  // address and can answer the gateway.
  predicate Answers(k: Kernel, ns: string, ip: u32)
  {
    && OnBridge(k, ip) && ns in k.spaces && Attached(k, ns)
    && exists l :: l in k.spaces[ns].links && !k.spaces[ns].links[l].down && AddrFacesBridge(k.spaces[ns].links[l], ip)
  }

  lemma BridgeWidth()
    ensures Width(16) == 65536
  {
    assert Width(31) == 2;
    assert Width(29) == 8;
    assert Width(27) == 32;
    assert Width(25) == 128;
    assert Width(23) == 512;
    assert Width(21) == 2048;
    assert Width(19) == 8192;
    assert Width(17) == 32768;
  }

  // Addresses of the bridge network are on one link.
  lemma BridgeCovers(a: u32, ip: u32)
    requires InBridgeNet(a) && InBridgeNet(ip)
    ensures Covers(IpNet(a, BRIDGE_PREFIX), ip)
  {
    BridgeWidth();
  }

  // The saved NAT rules of the port's namespace send connections to this port to the backend.
  ghost predicate Rewrites(env: Env, k: Kernel, port: u16, dport: u16, backend: Sock)
    requires NetnsName(port) in k.spaces
  {
    exists rules ::
      Holds(env.dump(k.spaces[NetnsName(port)].rules), rules) && FirstDnat(rules, VethName(port), dport) == Some(backend)
  }

  // What may become of a connection to this socket, read from the kernel alone.
  ghost predicate Delivers(env: Env, k: Kernel, s: Sock, d: Delivery)
  {
    if !InBridgeNet(s.ip) then d == Direct(s)
    else if Local(k, s.ip) then d == ToGateway(s.port)
    else
      match d
      case ToBackend(port, backend) => Answers(k, NetnsName(port), s.ip) && Rewrites(env, k, port, s.port, backend)
      case Lost => forall ns | Answers(k, ns, s.ip) :: Ignores(env, k, ns, s.port)
      case _ => false
  }

  // The namespace is a port's, and its rules leave connections to this port alone.
  ghost predicate Ignores(env: Env, k: Kernel, ns: string, dport: u16)
    requires ns in k.spaces
  {
    exists port: u16 :: ns == NetnsName(port) && forall backend :: !Rewrites(env, k, port, dport, backend)
  }

  lemma {:induction false} OwnerIs(networks: seq<NetworkState>, ip: u32)
    ensures match Owner(networks, ip)
      case Some(n) => n in networks && VethAddr(n.listenPort) == ip
      case None => forall i | 0 <= i < |networks| :: VethAddr(networks[i].listenPort) != ip
  {
    if networks != [] { OwnerIs(networks[1..], ip); }
  }

  // The networks are carried, and nothing is out of place.
  ghost predicate Carries(env: Env, k: Kernel, networks: seq<NetworkState>) { Carried(env, networks, k) && Sane(k) }

  lemma LocalIsBridge(k: Kernel, ip: u32)
    requires Sane(k) && BridgeSettled(k) && InBridgeNet(ip)
    ensures Local(k, ip) <==> ip == BRIDGE_ADDR
  {
    if Local(k, ip) {
      var l :| l in k.root && HasAddr(k.root[l], ip);
      assert RootSane(l, k.root[l]);
    }
    if ip == BRIDGE_ADDR {
      assert BRIDGE_NET in k.root[BRIDGE].addrs;
      assert HasAddr(k.root[BRIDGE], ip);
    }
  }

  lemma AnswersOwn(k: Kernel, ns: string, ip: u32)
    requires Sane(k) && InBridgeNet(ip) && Answers(k, ns, ip)
    ensures ns == NetnsName(ip % U16)
  {
    var l :| l in k.spaces[ns].links && !k.spaces[ns].links[l].down && AddrFacesBridge(k.spaces[ns].links[l], ip);
    assert SpaceSane(ns, k.spaces[ns]);
    assert LinkAddrs(Some(ns), k.spaces[ns].links[l]);
  }

  lemma SettledAnswers(env: Env, k: Kernel, n: NetworkState)
    requires Settled(env, n, k) && Sane(k) && BridgeSettled(k)
    ensures Answers(k, NetnsName(n.listenPort), VethAddr(n.listenPort))
  {
    var ns, veth := NetnsName(n.listenPort), VethName(n.listenPort);
    SaneMeans(k);
    assert k.root[veth].peer == Some(ns);
    assert VethNet(n.listenPort) in k.spaces[ns].links[veth].addrs;
    VethAddrExact(n.listenPort);
    BridgeCovers(VethAddr(n.listenPort), BRIDGE_ADDR);
    BridgeCovers(BRIDGE_ADDR, VethAddr(n.listenPort));
    assert AddrFacesBridge(k.spaces[ns].links[veth], VethAddr(n.listenPort));
  }

  lemma PortOwned(networks: seq<NetworkState>, p: u16)
    requires NetnsName(p) in NetnsNames(networks)
    ensures var owner := Owner(networks, VethAddr(p)); owner.Some? && owner.value.listenPort == p
  {
    var i :| 0 <= i < |networks| && NetnsName(p) == NetnsName(networks[i].listenPort);
    if networks[i].listenPort != p { NamesDiffer(networks[i].listenPort, p); }
    OwnerIs(networks, VethAddr(p));
    VethAddrExact(p);
    VethAddrExact(Owner(networks, VethAddr(p)).value.listenPort);
  }

  lemma BridgeAddrs(ip: u32)
    requires InBridgeNet(ip)
    ensures VethAddr(ip % U16) == ip
  {
  }

  lemma AnsweredIsOwned(env: Env, k: Kernel, networks: seq<NetworkState>, ns: string, ip: u32)
    requires Carries(env, k, networks) && InBridgeNet(ip) && Answers(k, ns, ip)
    ensures Owner(networks, ip).Some? && ns == NetnsName(Owner(networks, ip).value.listenPort)
  {
    var p: u16 := ip % U16;
    BridgeAddrs(ip);
    AnswersOwn(k, ns, ip);
    assert Managed(ns) && NetnsName(p) in NetnsNames(networks);
    PortOwned(networks, p);
  }

  // Only the namespace of the network that owns an address answers for it.
  lemma AnswersOwner(env: Env, k: Kernel, networks: seq<NetworkState>, ns: string, ip: u32)
    requires Carries(env, k, networks) && InBridgeNet(ip)
    ensures Answers(k, ns, ip) <==> Owner(networks, ip).Some? && ns == NetnsName(Owner(networks, ip).value.listenPort)
  {
    if Answers(k, ns, ip) { AnsweredIsOwned(env, k, networks, ns, ip); }
    if Owner(networks, ip).Some? {
      OwnerIs(networks, ip);
      var i :| 0 <= i < |networks| && networks[i] == Owner(networks, ip).value;
      assert Settled(env, networks[i], k);
      SettledAnswers(env, k, networks[i]);
    }
  }

  // The NAT text of a settled network holds its rules.
  lemma RewritesAsConfigured(env: Env, k: Kernel, n: NetworkState, dport: u16, backend: Sock)
    requires Settled(env, n, k)
    ensures Rewrites(env, k, n.listenPort, dport, backend)
      <==> FirstDnat(RulesOf(PortConfigOf(n)), VethName(n.listenPort), dport) == Some(backend)
  {
    var saved, own := env.dump(k.spaces[NetnsName(n.listenPort)].rules), RulesOf(PortConfigOf(n));
    NetworkRulesPlain(n);
    ReadRender(own);
    assert Holds(saved, own);
  }

  lemma OwnedBackend(env: Env, k: Kernel, networks: seq<NetworkState>, n: NetworkState, s: Sock, port: u16, backend: Sock)
    requires Carries(env, k, networks) && InBridgeNet(s.ip) && Owner(networks, s.ip) == Some(n)
    ensures Answers(k, NetnsName(port), s.ip) && Rewrites(env, k, port, s.port, backend)
      <==> port == n.listenPort && FirstDnat(RulesOf(PortConfigOf(n)), VethName(n.listenPort), s.port) == Some(backend)
  {
    AnswersOwner(env, k, networks, NetnsName(port), s.ip);
    if port != n.listenPort { NamesDiffer(port, n.listenPort); }
    OwnerIs(networks, s.ip);
    assert Settled(env, n, k) by {
      var i :| 0 <= i < |networks| && networks[i] == n;
    }
    RewritesAsConfigured(env, k, n, s.port, backend);
  }

  // The namespace of the owner ignores a port exactly when its rules have no backend for it.
  lemma OwnedIgnores(env: Env, k: Kernel, networks: seq<NetworkState>, n: NetworkState, s: Sock)
    requires Carries(env, k, networks) && InBridgeNet(s.ip) && Owner(networks, s.ip) == Some(n)
    ensures (forall ns | Answers(k, ns, s.ip) :: Ignores(env, k, ns, s.port))
      <==> FirstDnat(RulesOf(PortConfigOf(n)), VethName(n.listenPort), s.port).None?
  {
    var ns, first := NetnsName(n.listenPort), FirstDnat(RulesOf(PortConfigOf(n)), VethName(n.listenPort), s.port);
    AnswersOwner(env, k, networks, ns, s.ip);
    if first.Some? {
      OwnedBackend(env, k, networks, n, s, n.listenPort, first.value);
      if Ignores(env, k, ns, s.port) {
        var port: u16 :| ns == NetnsName(port) && forall backend :: !Rewrites(env, k, port, s.port, backend);
        if port != n.listenPort { NamesDiffer(port, n.listenPort); }
      }
    } else {
      forall backend ensures !Rewrites(env, k, n.listenPort, s.port, backend) {
        OwnedBackend(env, k, networks, n, s, n.listenPort, backend);
      }
      assert Ignores(env, k, ns, s.port);
      forall other | Answers(k, other, s.ip) ensures other == ns { AnswersOwner(env, k, networks, other, s.ip); }
    }
  }

  lemma DeliversOwned(env: Env, k: Kernel, networks: seq<NetworkState>, n: NetworkState, s: Sock, d: Delivery)
    requires Carries(env, k, networks) && InBridgeNet(s.ip) && s.ip != BRIDGE_ADDR && Owner(networks, s.ip) == Some(n)
    ensures Delivers(env, k, s, d) <==> d == Deliver(networks, s)
  {
    LocalIsBridge(k, s.ip);
    match d
    case ToBackend(port, backend) => OwnedBackend(env, k, networks, n, s, port, backend);
    case Lost => OwnedIgnores(env, k, networks, n, s);
    case Direct(_) =>
    case ToGateway(_) =>
  }

  /** On a kernel that carries the configuration a connection has one fate, the one that the routing function
      computes from the configuration. */
  lemma DeliversAsComputed(env: Env, k: Kernel, networks: seq<NetworkState>, s: Sock, d: Delivery)
    requires Carries(env, k, networks)
    ensures Delivers(env, k, s, d) <==> d == Deliver(networks, s)
  {
    if InBridgeNet(s.ip) {
      LocalIsBridge(k, s.ip);
      if s.ip != BRIDGE_ADDR {
        var owner := Owner(networks, s.ip);
        if owner.Some? {
          DeliversOwned(env, k, networks, owner.value, s, d);
        } else {
          forall ns ensures !Answers(k, ns, s.ip) { AnswersOwner(env, k, networks, ns, s.ip); }
        }
      }
    }
  }

  // Requests for a host, through the tables nginx serves, end up as listed.
  ghost predicate Serves(env: Env, k: Kernel, scheme: Scheme, host: Host, ds: seq<Delivery>)
  {
    && k.nginx.live.Some?
    && DeliversAll(env, k, ResolveSide(if scheme.Https? then k.nginx.live.value.0 else k.nginx.live.value.1, host), ds)
  }

  ghost predicate DeliversAll(env: Env, k: Kernel, socks: seq<Sock>, ds: seq<Delivery>)
  {
    |ds| == |socks| && forall i | 0 <= i < |ds| :: Delivers(env, k, socks[i], ds[i])
  }

  lemma DeliversAllAsComputed(env: Env, k: Kernel, networks: seq<NetworkState>, socks: seq<Sock>, ds: seq<Delivery>)
    requires Carries(env, k, networks)
    ensures DeliversAll(env, k, socks, ds) <==> ds == DeliverAll(networks, socks)
  {
    if |ds| == |socks| {
      forall i | 0 <= i < |ds| ensures Delivers(env, k, socks[i], ds[i]) <==> ds[i] == Deliver(networks, socks[i]) {
        DeliversAsComputed(env, k, networks, socks[i], ds[i]);
      }
    }
  }

  lemma ServesAsComputed(env: Env, k: Kernel, c: Networks, scheme: Scheme, host: Host, ds: seq<Delivery>)
    requires Converged(env, c, k) && Sane(k)
    ensures Serves(env, k, scheme, host, ds) <==> ds == Route(Keyed(c), env.custom, scheme, host)
  {
    var tables := TablesOf(Keyed(c), env.custom);
    DeliversAllAsComputed(env, k, Keyed(c), Resolve(tables, scheme, host), ds);
  }

  /** From any sane state, leftovers of failed runs included, a successful run leaves the system serving each host
      with exactly the configured backends, in order, then the custom sockets, if and only if no backend for the
      host is listed by the network that has the bridge's own address. */
  lemma AppliedServesConfigured(env: Env, w: World, c: Networks, scheme: Scheme, host: Host)
    requires FaithfulDump(env) && ListsSets(env) && Sane(w.kernel) && AllOutside(c)
    requires WithinPortRange(Keyed(c)) && CustomOutside(env.custom)
    requires Apply(env, w, c).Done?
    ensures Serves(env, Apply(env, w, c).world.kernel, scheme, host, Configured(Keyed(c), env.custom, scheme, host))
      <==> !UsesOwnAddress(Keyed(c), scheme, host)
  {
    SaneMeans(w.kernel);
    ApplyConverges(env, w, c);
    ApplyKept(env, w, c);
    ServesAsComputed(env, Apply(env, w, c).world.kernel, c, scheme, host, Configured(Keyed(c), env.custom, scheme, host));
    KeyedDistinct(c);
    RoutingPreserved(Keyed(c), env.custom, scheme, host);
  }
}
