/** Driving the system to a configuration, from a whole one or from a partial update (src/gateway.rs). */
module Reconciler {
  import opened Basics
  import opened Config
  import opened Addressing
  import opened Forwarding
  import opened Iptables
  import opened Cleaning
  import opened Kernel

  const BRIDGE := "ensbr0"
  const BRIDGE_NET := IpNet(BRIDGE_ADDR, BRIDGE_PREFIX)

  function RulesText(n: NetworkState): string { Render(RulesOf(PortConfigOf(n))) }

  function VethNet(port: u16): IpNet { IpNet(VethAddr(port), BRIDGE_PREFIX) }

  function AddMissing(env: Env, w: World, at: Option<string>, name: string, current: set<IpNet>, target: seq<IpNet>): Run<()>
    decreases |target|
  {
    if target == [] then Done(w, ())
    else
      var (w1, _) :- if target[0] in current then Done(w, ()) else AddrAdd(env, w, at, name, target[0]);
      AddMissing(env, w1, at, name, current, target[1..])
  }

  // Addresses are only added, never removed.
  function ApplyAddr(env: Env, w: World, at: Option<string>, name: string, target: seq<IpNet>): Run<()>
  {
    var (w1, link) :- InterfaceShow(env, w, at, name);
    AddMissing(env, w1, at, name, link.addrs, target)
  }

  function ApplyInterfaceUp(env: Env, w: World, at: Option<string>, name: string): Run<()>
  {
    var (w1, link) :- InterfaceShow(env, w, at, name);
    if link.down then InterfaceUp(env, w1, at, name) else Done(w1, ())
  }

  function ApplyLinkMaster(env: Env, w: World, at: Option<string>, name: string, master: string): Run<()>
  {
    var (w1, link) :- InterfaceShow(env, w, at, name);
    if link.master != Some(master) then LinkSetMaster(env, w1, at, name, master) else Done(w1, ())
  }

  function ApplyBridge(env: Env, w: World): Run<()>
  {
    var (w1, exists_) :- LinkExists(env, w, None, BRIDGE);
    var (w2, _) :- if exists_ then Done(w1, ()) else LinkAdd(env, w1, None, BRIDGE, NEW_BRIDGE);
    var (w3, _) :- ApplyAddr(env, w2, None, BRIDGE, [BRIDGE_NET]);
    ApplyInterfaceUp(env, w3, None, BRIDGE)
  }

  function ApplyNetns(env: Env, w: World, n: NetworkState): Run<()>
  {
    var ns := NetnsName(n.listenPort);
    var (w1, exists_) :- NetnsExists(env, w, ns);
    if exists_ then Done(w1, ()) else NetnsAdd(env, w1, ns)
  }

  function ApplyWireguard(env: Env, w: World, n: NetworkState): Run<()>
  {
    var ns, wg := NetnsName(n.listenPort), WgName(n.listenPort);
    var (w1, exists_) :- LinkExists(env, w, Some(ns), wg);
    var (w2, _) :- if exists_ then Done(w1, ()) else LinkAdd(env, w1, Some(ns), wg, NEW_WIREGUARD);
    var (w3, link) :- InterfaceShow(env, w2, Some(ns), wg);
    if link.mtu.None? then Failed(w3)
    else
      var (w4, _) :- if link.mtu != Some(n.mtu) then InterfaceMtu(env, w3, Some(ns), wg, n.mtu) else Done(w3, ());
      FinishWireguard(env, w4, n)
  }

  // The second half of applying WireGuard, once the interface exists and has its MTU.
  function FinishWireguard(env: Env, w: World, n: NetworkState): Run<()>
  {
    var ns, wg := NetnsName(n.listenPort), WgName(n.listenPort);
    var (w1, _) :- ApplyInterfaceUp(env, w, Some(ns), wg);
    var (w2, _) :- NetnsWriteFile(env, w1, ns, wg, env.wgText(n));
    var (w3, _) :- ApplyAddr(env, w2, Some(ns), wg, n.address);
    WireguardSync(env, w3, ns, wg)
  }

  function ApplyVeth(env: Env, w: World, n: NetworkState): Run<()>
  {
    var ns, veth := NetnsName(n.listenPort), VethName(n.listenPort);
    var (w1, exists_) :- LinkExists(env, w, Some(ns), veth);
    var (w2, _) :- if exists_ then Done(w1, ()) else VethAdd(env, w1, ns, veth, veth);
    FinishVeth(env, w2, n)
  }

  // The second half of applying the veth pair, once it exists.
  function FinishVeth(env: Env, w: World, n: NetworkState): Run<()>
  {
    var ns, veth := NetnsName(n.listenPort), VethName(n.listenPort);
    var (w1, _) :- ApplyAddr(env, w, Some(ns), veth, [VethNet(n.listenPort)]);
    var (w2, _) :- ApplyLinkMaster(env, w1, None, veth, BRIDGE);
    var (w3, _) :- ApplyInterfaceUp(env, w2, Some(ns), veth);
    ApplyInterfaceUp(env, w3, None, veth)
  }

  function ApplyForwarding(env: Env, w: World, n: NetworkState): Run<()>
  {
    var ns := NetnsName(n.listenPort);
    var savefile := Clean(RulesText(n));
    var (w1, current) :- IptablesSave(env, w, ns);
    if savefile != Clean(current) then IptablesRestore(env, w1, ns, savefile) else Done(w1, ())
  }

  function ApplyNetwork(env: Env, w: World, n: NetworkState): Run<()>
  {
    var (w1, _) :- ApplyNetns(env, w, n);
    var (w2, _) :- ApplyWireguard(env, w1, n);
    var (w3, _) :- ApplyVeth(env, w2, n);
    ApplyForwarding(env, w3, n)
  }

  function ApplyNginx(env: Env, w: World, networks: seq<NetworkState>): Run<()>
  {
    var tables := TablesOf(networks, env.custom);
    var (w1, _) :- WriteStream(env, w, tables.https);
    var (w2, _) :- WriteSite(env, w1, tables.http);
    NginxReload(env, w2)
  }

  function DeleteAll(env: Env, w: World, names: seq<string>): Run<()>
    decreases |names|
  {
    if names == [] then Done(w, ())
    else
      var (w1, _) :- if Managed(names[0]) then NetnsDel(env, w, names[0]) else Done(w, ());
      DeleteAll(env, w1, names[1..])
  }

  function ApplyNetworks(env: Env, w: World, networks: seq<NetworkState>): Run<()>
    decreases |networks|
  {
    if networks == [] then Done(w, ())
    else
      var (w1, _) :- ApplyNetwork(env, w, networks[0]);
      ApplyNetworks(env, w1, networks[1..])
  }

  // The networks in port order, each listening on its key.
  function Keyed(c: Networks): (r: seq<NetworkState>)
    ensures |r| == |AscendingPorts(c.Keys)|
    ensures forall i | 0 <= i < |r| ::
      AscendingPorts(c.Keys)[i] in c && r[i] == c[AscendingPorts(c.Keys)[i]].(listenPort := AscendingPorts(c.Keys)[i])
  {
    var ports := AscendingPorts(c.Keys);
    assert forall i | 0 <= i < |ports| :: ports[i] in ports;
    seq(|ports|, i requires 0 <= i < |ports| => c[ports[i]].(listenPort := ports[i]))
  }

  // The networks in port order, as stored.
  function Stored(c: Networks): (r: seq<NetworkState>)
    ensures |r| == |AscendingPorts(c.Keys)|
    ensures forall i | 0 <= i < |r| :: AscendingPorts(c.Keys)[i] in c && r[i] == c[AscendingPorts(c.Keys)[i]]
  {
    var ports := AscendingPorts(c.Keys);
    assert forall i | 0 <= i < |ports| :: ports[i] in ports;
    seq(|ports|, i requires 0 <= i < |ports| => c[ports[i]])
  }

  function NetnsNames(networks: seq<NetworkState>): set<string>
  {
    set i | 0 <= i < |networks| :: NetnsName(networks[i].listenPort)
  }

  function Apply(env: Env, w: World, c: Networks): Run<()>
  {
    var networks := Keyed(c);
    var (w1, _) :- ApplyBridge(env, w);
    var (w2, listed) :- NetnsList(env, w1);
    var (w3, _) :- DeleteAll(env, w2, env.order(listed - NetnsNames(networks)));
    var (w4, _) :- ApplyNetworks(env, w3, networks);
    ApplyNginx(env, w4, networks)
  }

  // The stored configuration changes along with the system.
  datatype Progress = Progress(stored: Networks, run: Run<()>)

  function ApplyEntry(env: Env, w: World, stored: Networks, port: u16, entry: Option<NetworkState>, listed: set<string>): Progress
  {
    match entry
    case None =>
      Progress(stored - {port}, if NetnsName(port) in listed then NetnsDel(env, w, NetnsName(port)) else Done(w, ()))
    case Some(network) =>
      var run := ApplyNetwork(env, w, network);
      Progress(if run.Done? then stored[port := network] else stored, run)
  }

  function ApplyEntries(env: Env, w: World, stored: Networks, partial: Partial, ports: seq<u16>, listed: set<string>): Progress
    requires forall p | p in ports :: p in partial
    decreases |ports|
  {
    if ports == [] then Progress(stored, Done(w, ()))
    else
      assert ports[0] in ports;
      var first := ApplyEntry(env, w, stored, ports[0], partial[ports[0]], listed);
      if first.run.Failed? then first
      else ApplyEntries(env, first.run.world, first.stored, partial, ports[1..], listed)
  }

  function ApplyPartial(env: Env, w: World, stored: Networks, partial: Partial): Progress
  {
    var bridge := ApplyBridge(env, w);
    if bridge.Failed? then Progress(stored, bridge)
    else
      var list := NetnsList(env, bridge.world);
      if list.Failed? then Progress(stored, Failed(list.world))
      else
        var entries := ApplyEntries(env, list.world, stored, partial, AscendingPorts(partial.Keys), list.value);
        if entries.run.Failed? then entries
        else Progress(entries.stored, ApplyNginx(env, entries.run.world, Stored(entries.stored)))
  }
}
