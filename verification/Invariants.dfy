/** What every run keeps, whether or not it succeeds: links and addresses stay where they belong, and no network is
    left with half a veth pair. */
module Invariants {
  import opened Basics
  import opened Config
  import opened Addressing
  import opened Cleaning
  import opened Kernel
  import opened Reconciler
  import opened NetworkEffect

  // An outer veth end named after a port belongs to that port's namespace.
  ghost predicate Wired(k: Kernel)
  {
    forall p: u16 | VethName(p) in k.root :: k.root[VethName(p)].peer == Some(NetnsName(p))
  }

  // The bridge is not the end of a veth pair into a namespace.
  ghost predicate BridgeFree(k: Kernel) { BRIDGE in k.root ==> k.root[BRIDGE].peer.None? }

  // An address of the bridge network belongs to the namespace of the port it is made from.
  predicate OwnAddr(ns: string, ip: u32) { InBridgeNet(ip) ==> ns == NetnsName(ip % U16) }

  // Outside the namespaces, the bridge network has no address but the bridge's own.
  predicate RootAddr(ip: u32) { InBridgeNet(ip) ==> ip == BRIDGE_ADDR }

  predicate AddrOk(at: Option<string>, ip: u32) { if at.Some? then OwnAddr(at.value, ip) else RootAddr(ip) }

  ghost predicate LinkAddrs(at: Option<string>, l: Link) { forall a | a in l.addrs :: AddrOk(at, a.addr) }

  ghost predicate SpaceSane(ns: string, s: Space) { forall l | l in s.links :: LinkAddrs(Some(ns), s.links[l]) }

  ghost predicate PeerSane(name: string, peer: Option<string>)
  {
    && (forall p: u16 | name == VethName(p) :: peer == Some(NetnsName(p)))
    && (name == BRIDGE ==> peer.None?)
  }

  ghost predicate RootSane(name: string, l: Link) { LinkAddrs(None, l) && PeerSane(name, l.peer) }

  /** Outer veth ends belong to their own namespaces, the bridge to none, and no interface anywhere has an address
      of the bridge network that belongs elsewhere. */
  ghost predicate Sane(k: Kernel)
  {
    && (forall ns | ns in k.spaces :: SpaceSane(ns, k.spaces[ns]))
    && (forall l | l in k.root :: RootSane(l, k.root[l]))
  }

  lemma SaneMeans(k: Kernel)
    requires Sane(k)
    ensures Wired(k) && BridgeFree(k)
  {
    forall p: u16 | VethName(p) in k.root ensures k.root[VethName(p)].peer == Some(NetnsName(p)) {
      assert RootSane(VethName(p), k.root[VethName(p)]);
    }
    if BRIDGE in k.root { assert RootSane(BRIDGE, k.root[BRIDGE]); }
  }

  // The links of a port's namespace, none if it does not exist.
  function PortLinks(k: Kernel, p: u16): map<string, Link>
  {
    if NetnsName(p) in k.spaces then k.spaces[NetnsName(p)].links else map[]
  }

  // The port has both ends of its veth pair or neither, and its WireGuard interface shows an MTU.
  predicate WholePort(k: Kernel, p: u16)
  {
    && (VethName(p) in PortLinks(k, p) <==> VethName(p) in k.root)
    && (WgName(p) in PortLinks(k, p) ==> PortLinks(k, p)[WgName(p)].mtu.Some?)
  }

  ghost predicate Whole(k: Kernel) { forall p: u16 :: WholePort(k, p) }

  // The networks' own addresses are not in the bridge network.
  ghost predicate Outside(n: NetworkState) { forall i | 0 <= i < |n.address| :: !InBridgeNet(n.address[i].addr) }

  ghost predicate AllOutside(c: Networks) { forall p | p in c :: Outside(c[p]) }

  ghost predicate PartialOutside(c: Partial) { forall p | p in c && c[p].Some? :: Outside(c[p].value) }

  ghost predicate Kept(k: Kernel, after: Kernel)
  {
    && (Sane(k) ==> Sane(after))
    && (Sane(k) && Whole(k) ==> Whole(after))
  }

  /*** Changes of one link ***/

  lemma NoVeth(p: u16)
    ensures forall q: u16 :: WgName(p) != VethName(q) && BRIDGE != VethName(q)
  {
    forall q: u16 ensures WgName(p) != VethName(q) && BRIDGE != VethName(q) {
      assert WgName(p)[0] == 'w' && VethName(q)[0] == 'v' && BRIDGE[0] == 'e';
    }
  }

  lemma SetLinkSane(k: Kernel, at: Option<string>, name: string, link: Link)
    requires HasSpace(k, at) && Sane(k) && LinkAddrs(at, link) && (at.None? ==> PeerSane(name, link.peer))
    ensures Sane(SetLink(k, at, name, link))
  {
    var next := SetLink(k, at, name, link);
    forall ns | ns in next.spaces ensures SpaceSane(ns, next.spaces[ns]) {
      assert SpaceSane(ns, k.spaces[ns]);
    }
    forall l | l in next.root ensures RootSane(l, next.root[l]) {
      if l in k.root { assert RootSane(l, k.root[l]); }
    }
  }

  // Replacing a link that exists.
  lemma UpdateKept(k: Kernel, at: Option<string>, name: string, link: Link)
    requires HasLink(k, at, name)
    requires var was := LinkAt(k, at, name);
      && link.peer == was.peer && (was.mtu.Some? ==> link.mtu.Some?)
      && forall a | a in link.addrs :: a in was.addrs || AddrOk(at, a.addr)
    ensures Kept(k, SetLink(k, at, name, link))
  {
    var next := SetLink(k, at, name, link);
    if Sane(k) {
      match at {
        case None => assert RootSane(name, k.root[name]);
        case Some(ns) => assert SpaceSane(ns, k.spaces[ns]);
      }
      SetLinkSane(k, at, name, link);
    }
    forall p: u16 | WholePort(k, p) ensures WholePort(next, p) {
    }
  }

  lemma UpKept(env: Env, w: World, at: Option<string>, name: string)
    ensures Kept(w.kernel, ApplyInterfaceUp(env, w, at, name).world.kernel)
  {
    if HasLink(w.kernel, at, name) {
      UpdateKept(w.kernel, at, name, LinkAt(w.kernel, at, name).(down := false));
    }
  }

  lemma MasterKept(env: Env, w: World, at: Option<string>, name: string, master: string)
    ensures Kept(w.kernel, ApplyLinkMaster(env, w, at, name, master).world.kernel)
  {
    if HasLink(w.kernel, at, name) {
      UpdateKept(w.kernel, at, name, LinkAt(w.kernel, at, name).(master := Some(master)));
    }
  }

  lemma MtuKept(env: Env, w: World, at: Option<string>, name: string, mtu: nat)
    ensures Kept(w.kernel, InterfaceMtu(env, w, at, name, mtu).world.kernel)
  {
    if HasLink(w.kernel, at, name) {
      UpdateKept(w.kernel, at, name, LinkAt(w.kernel, at, name).(mtu := Some(mtu)));
    }
  }

  lemma AddrKept(env: Env, w: World, at: Option<string>, name: string, addr: IpNet)
    requires AddrOk(at, addr.addr)
    ensures Kept(w.kernel, AddrAdd(env, w, at, name, addr).world.kernel)
  {
    if HasLink(w.kernel, at, name) {
      var l := LinkAt(w.kernel, at, name);
      UpdateKept(w.kernel, at, name, l.(addrs := l.addrs + {addr}));
    }
  }

  lemma {:induction false} AddMissingKept(env: Env, w: World, at: Option<string>, name: string, current: set<IpNet>, target: seq<IpNet>)
    requires forall i | 0 <= i < |target| :: AddrOk(at, target[i].addr)
    ensures Kept(w.kernel, AddMissing(env, w, at, name, current, target).world.kernel)
    decreases |target|
  {
    if target != [] {
      var first := if target[0] in current then Done(w, ()) else AddrAdd(env, w, at, name, target[0]);
      AddrKept(env, w, at, name, target[0]);
      if first.Done? { AddMissingKept(env, first.world, at, name, current, target[1..]); }
    }
  }

  lemma ApplyAddrKept(env: Env, w: World, at: Option<string>, name: string, target: seq<IpNet>)
    requires forall i | 0 <= i < |target| :: AddrOk(at, target[i].addr)
    ensures Kept(w.kernel, ApplyAddr(env, w, at, name, target).world.kernel)
  {
    var show := InterfaceShow(env, w, at, name);
    if show.Done? { AddMissingKept(env, show.world, at, name, show.value.addrs, target); }
  }

  /*** New links and namespaces, and namespaces removed ***/

  lemma BridgeAddKept(env: Env, w: World)
    ensures Kept(w.kernel, LinkAdd(env, w, None, BRIDGE, NEW_BRIDGE).world.kernel)
  {
    NoVeth(0);
    if Sane(w.kernel) { SetLinkSane(w.kernel, None, BRIDGE, NEW_BRIDGE); }
    forall p: u16 | WholePort(w.kernel, p) ensures WholePort(SetLink(w.kernel, None, BRIDGE, NEW_BRIDGE), p) {
    }
  }

  lemma WireguardAddKept(env: Env, w: World, p: u16)
    ensures Kept(w.kernel, LinkAdd(env, w, Some(NetnsName(p)), WgName(p), NEW_WIREGUARD).world.kernel)
  {
    var at := Some(NetnsName(p));
    if HasSpace(w.kernel, at) {
      var next := SetLink(w.kernel, at, WgName(p), NEW_WIREGUARD);
      NoVeth(p);
      if Sane(w.kernel) { SetLinkSane(w.kernel, at, WgName(p), NEW_WIREGUARD); }
      forall q: u16 | WholePort(w.kernel, q) ensures WholePort(next, q) {
        if q != p { NamesDiffer(p, q); }
      }
    }
  }

  lemma VethPeer(p: u16)
    ensures PeerSane(VethName(p), Some(NetnsName(p)))
  {
    LinkNamesDiffer(p);
    forall q: u16 | VethName(p) == VethName(q) ensures NetnsName(p) == NetnsName(q) {
      if p != q { NamesDiffer(p, q); }
    }
  }

  lemma VethAddKept(env: Env, w: World, p: u16)
    ensures Kept(w.kernel, VethAdd(env, w, NetnsName(p), VethName(p), VethName(p)).world.kernel)
  {
    var k, ns, veth := w.kernel, NetnsName(p), VethName(p);
    if ns in k.spaces {
      var mid := SetLink(k, Some(ns), veth, NewVeth(None));
      var next := SetLink(mid, None, veth, NewVeth(Some(ns)));
      if Sane(k) {
        SetLinkSane(k, Some(ns), veth, NewVeth(None));
        VethPeer(p);
        SetLinkSane(mid, None, veth, NewVeth(Some(ns)));
      }
      NoVeth(p);
      forall q: u16 | WholePort(k, q) ensures WholePort(next, q) {
        if q != p { NamesDiffer(p, q); }
      }
    }
  }

  lemma NetnsAddKept(env: Env, w: World, ns: string)
    ensures Kept(w.kernel, NetnsAdd(env, w, ns).world.kernel)
  {
    if ns !in w.kernel.spaces {
      var next := w.kernel.(spaces := w.kernel.spaces[ns := NEW_SPACE]);
      forall p: u16 | WholePort(w.kernel, p) ensures WholePort(next, p) {
      }
    }
  }

  lemma NetnsDelKept(env: Env, w: World, ns: string)
    ensures Kept(w.kernel, NetnsDel(env, w, ns).world.kernel)
  {
    var k := w.kernel;
    var next := DropSpace(k, ns);
    if Sane(k) {
      SaneMeans(k);
      forall p: u16 | WholePort(k, p) ensures WholePort(next, p) {
      }
    }
  }

  // Kernels with the same links.
  lemma SameLinksKept(k: Kernel, after: Kernel)
    requires after.root == k.root && after.spaces.Keys == k.spaces.Keys
    requires forall ns | ns in k.spaces :: after.spaces[ns].links == k.spaces[ns].links
    ensures Kept(k, after)
  {
    if Sane(k) {
      forall ns | ns in after.spaces ensures SpaceSane(ns, after.spaces[ns]) { assert SpaceSane(ns, k.spaces[ns]); }
    }
    forall p: u16 | WholePort(k, p) ensures WholePort(after, p) {
    }
  }

  /*** Stages ***/

  lemma BridgeKept(env: Env, w: World)
    ensures Kept(w.kernel, ApplyBridge(env, w).world.kernel)
  {
    var a := LinkExists(env, w, None, BRIDGE);
    if a.Done? {
      var b := if a.value then Done(a.world, ()) else LinkAdd(env, a.world, None, BRIDGE, NEW_BRIDGE);
      BridgeAddKept(env, a.world);
      if b.Done? {
        ApplyAddrKept(env, b.world, None, BRIDGE, [BRIDGE_NET]);
        var c := ApplyAddr(env, b.world, None, BRIDGE, [BRIDGE_NET]);
        if c.Done? { UpKept(env, c.world, None, BRIDGE); }
      }
    }
  }

  lemma FinishWireguardKept(env: Env, w: World, n: NetworkState)
    requires Outside(n)
    ensures Kept(w.kernel, FinishWireguard(env, w, n).world.kernel)
  {
    var ns, wg := NetnsName(n.listenPort), WgName(n.listenPort);
    UpKept(env, w, Some(ns), wg);
    var a := ApplyInterfaceUp(env, w, Some(ns), wg);
    if a.Done? {
      var b := NetnsWriteFile(env, a.world, ns, wg, env.wgText(n));
      SameLinksKept(a.world.kernel, b.world.kernel);
      if b.Done? {
        ApplyAddrKept(env, b.world, Some(ns), wg, n.address);
        var c := ApplyAddr(env, b.world, Some(ns), wg, n.address);
        if c.Done? { SameLinksKept(c.world.kernel, WireguardSync(env, c.world, ns, wg).world.kernel); }
      }
    }
  }

  lemma WireguardKept(env: Env, w: World, n: NetworkState)
    requires Outside(n)
    ensures Kept(w.kernel, ApplyWireguard(env, w, n).world.kernel)
  {
    var ns, wg := NetnsName(n.listenPort), WgName(n.listenPort);
    var a := LinkExists(env, w, Some(ns), wg);
    if a.Done? {
      var b := if a.value then Done(a.world, ()) else LinkAdd(env, a.world, Some(ns), wg, NEW_WIREGUARD);
      WireguardAddKept(env, a.world, n.listenPort);
      if b.Done? {
        var c := InterfaceShow(env, b.world, Some(ns), wg);
        if c.Done? && c.value.mtu.Some? {
          MtuKept(env, c.world, Some(ns), wg, n.mtu);
          var d := if c.value.mtu != Some(n.mtu) then InterfaceMtu(env, c.world, Some(ns), wg, n.mtu) else Done(c.world, ());
          if d.Done? { FinishWireguardKept(env, d.world, n); }
        }
      }
    }
  }

  lemma FinishVethKept(env: Env, w: World, n: NetworkState)
    ensures Kept(w.kernel, FinishVeth(env, w, n).world.kernel)
  {
    var ns, veth := NetnsName(n.listenPort), VethName(n.listenPort);
    VethAddrExact(n.listenPort);
    ApplyAddrKept(env, w, Some(ns), veth, [VethNet(n.listenPort)]);
    var a := ApplyAddr(env, w, Some(ns), veth, [VethNet(n.listenPort)]);
    if a.Done? {
      MasterKept(env, a.world, None, veth, BRIDGE);
      var b := ApplyLinkMaster(env, a.world, None, veth, BRIDGE);
      if b.Done? {
        UpKept(env, b.world, Some(ns), veth);
        var c := ApplyInterfaceUp(env, b.world, Some(ns), veth);
        if c.Done? { UpKept(env, c.world, None, veth); }
      }
    }
  }

  lemma VethKept(env: Env, w: World, n: NetworkState)
    ensures Kept(w.kernel, ApplyVeth(env, w, n).world.kernel)
  {
    var ns, veth := NetnsName(n.listenPort), VethName(n.listenPort);
    var a := LinkExists(env, w, Some(ns), veth);
    if a.Done? {
      var b := if a.value then Done(a.world, ()) else VethAdd(env, a.world, ns, veth, veth);
      VethAddKept(env, a.world, n.listenPort);
      if b.Done? { FinishVethKept(env, b.world, n); }
    }
  }

  lemma NetnsKept(env: Env, w: World, n: NetworkState)
    ensures Kept(w.kernel, ApplyNetns(env, w, n).world.kernel)
  {
    var a := NetnsExists(env, w, NetnsName(n.listenPort));
    if a.Done? { NetnsAddKept(env, a.world, NetnsName(n.listenPort)); }
  }

  lemma RestoreKept(env: Env, w: World, ns: string, text: string)
    ensures Kept(w.kernel, IptablesRestore(env, w, ns, text).world.kernel)
  {
    SameLinksKept(w.kernel, IptablesRestore(env, w, ns, text).world.kernel);
  }

  lemma ForwardingKept(env: Env, w: World, n: NetworkState)
    ensures Kept(w.kernel, ApplyForwarding(env, w, n).world.kernel)
  {
    var a := IptablesSave(env, w, NetnsName(n.listenPort));
    RestoreKept(env, a.world, NetnsName(n.listenPort), Clean(RulesText(n)));
  }

  lemma NetworkKept(env: Env, w: World, n: NetworkState)
    requires Outside(n)
    ensures Kept(w.kernel, ApplyNetwork(env, w, n).world.kernel)
  {
    NetnsKept(env, w, n);
    var a := ApplyNetns(env, w, n);
    if a.Done? {
      WireguardKept(env, a.world, n);
      var b := ApplyWireguard(env, a.world, n);
      if b.Done? {
        VethKept(env, b.world, n);
        var c := ApplyVeth(env, b.world, n);
        if c.Done? { ForwardingKept(env, c.world, n); }
      }
    }
  }

  lemma NginxKept(env: Env, w: World, networks: seq<NetworkState>)
    ensures Kept(w.kernel, ApplyNginx(env, w, networks).world.kernel)
  {
    SameLinksKept(w.kernel, ApplyNginx(env, w, networks).world.kernel);
  }

  /*** Whole runs ***/

  lemma {:induction false} DeleteAllKept(env: Env, w: World, names: seq<string>)
    ensures Kept(w.kernel, DeleteAll(env, w, names).world.kernel)
    decreases |names|
  {
    if names != [] {
      var first := if Managed(names[0]) then NetnsDel(env, w, names[0]) else Done(w, ());
      NetnsDelKept(env, w, names[0]);
      if first.Done? { DeleteAllKept(env, first.world, names[1..]); }
    }
  }

  lemma {:induction false} NetworksKept(env: Env, w: World, networks: seq<NetworkState>)
    requires forall i | 0 <= i < |networks| :: Outside(networks[i])
    ensures Kept(w.kernel, ApplyNetworks(env, w, networks).world.kernel)
    decreases |networks|
  {
    if networks != [] {
      assert Outside(networks[0]);
      NetworkKept(env, w, networks[0]);
      var first := ApplyNetwork(env, w, networks[0]);
      if first.Done? { NetworksKept(env, first.world, networks[1..]); }
    }
  }

  lemma KeyedOutside(c: Networks)
    requires AllOutside(c)
    ensures forall i | 0 <= i < |Keyed(c)| :: Outside(Keyed(c)[i])
  {
    forall i | 0 <= i < |Keyed(c)| ensures Outside(Keyed(c)[i]) {
      assert Outside(c[AscendingPorts(c.Keys)[i]]);
    }
  }

  /** Every whole update, failed or not, keeps the system sane, and keeps veth pairs whole. */
  lemma ApplyKept(env: Env, w: World, c: Networks)
    requires AllOutside(c)
    ensures Kept(w.kernel, Apply(env, w, c).world.kernel)
  {
    var networks := Keyed(c);
    KeyedOutside(c);
    BridgeKept(env, w);
    var a := ApplyBridge(env, w);
    if a.Done? {
      var list := NetnsList(env, a.world);
      if list.Done? {
        var names := env.order(list.value - NetnsNames(networks));
        DeleteAllKept(env, list.world, names);
        var b := DeleteAll(env, list.world, names);
        if b.Done? {
          NetworksKept(env, b.world, networks);
          var d := ApplyNetworks(env, b.world, networks);
          if d.Done? { NginxKept(env, d.world, networks); }
        }
      }
    }
  }

  lemma {:induction false} EntriesKept(env: Env, w: World, stored: Networks, partial: Partial, ports: seq<u16>, listed: set<string>)
    requires PartialOutside(partial) && forall p | p in ports :: p in partial
    ensures Kept(w.kernel, ApplyEntries(env, w, stored, partial, ports, listed).run.world.kernel)
    decreases |ports|
  {
    if ports != [] {
      assert ports[0] in ports;
      var entry := partial[ports[0]];
      var first := ApplyEntry(env, w, stored, ports[0], entry, listed);
      match entry {
        case None => NetnsDelKept(env, w, NetnsName(ports[0]));
        case Some(n) => NetworkKept(env, w, n);
      }
      if first.run.Done? { EntriesKept(env, first.run.world, first.stored, partial, ports[1..], listed); }
    }
  }

  /** So does every partial update. */
  lemma PartialKept(env: Env, w: World, stored: Networks, partial: Partial)
    requires PartialOutside(partial)
    ensures Kept(w.kernel, ApplyPartial(env, w, stored, partial).run.world.kernel)
  {
    BridgeKept(env, w);
    var a := ApplyBridge(env, w);
    if a.Done? {
      var list := NetnsList(env, a.world);
      if list.Done? {
        var ports := AscendingPorts(partial.Keys);
        EntriesKept(env, list.world, stored, partial, ports, list.value);
        var b := ApplyEntries(env, list.world, stored, partial, ports, list.value);
        if b.run.Done? { NginxKept(env, b.run.world, Stored(b.stored)); }
      }
    }
  }
}
