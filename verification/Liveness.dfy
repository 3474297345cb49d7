/** When a run in which no call fails succeeds: exactly. */
module Liveness {
  import opened Basics
  import opened Config
  import opened Addressing
  import opened Kernel
  import opened Reconciler
  import opened Effects
  import opened NetworkEffect
  import opened Invariants
  import opened Convergence
  import opened Incremental

  ghost predicate Faultless(env: Env) { forall i :: !env.fault(i) }

  // The iteration over a hash set lists each element once.
  ghost predicate ListsOnce(env: Env)
  {
    forall s, i, j | 0 <= i < j < |env.order(s)| :: env.order(s)[i] != env.order(s)[j]
  }

  /*** Calls ***/

  lemma {:induction false} AddMissingProceeds(env: Env, w: World, at: Option<string>, name: string, current: set<IpNet>, target: seq<IpNet>)
    requires Faultless(env) && HasLink(w.kernel, at, name)
    ensures AddMissing(env, w, at, name, current, target).Done?
    decreases |target|
  {
    if target != [] {
      var first := if target[0] in current then Done(w, ()) else AddrAdd(env, w, at, name, target[0]);
      AddMissingProceeds(env, first.world, at, name, current, target[1..]);
    }
  }

  lemma ApplyAddrProceeds(env: Env, w: World, at: Option<string>, name: string, target: seq<IpNet>)
    requires Faultless(env) && HasLink(w.kernel, at, name)
    ensures ApplyAddr(env, w, at, name, target).Done?
    ensures var k := ApplyAddr(env, w, at, name, target).world.kernel; SameNames(w.kernel, k)
  {
    var show := InterfaceShow(env, w, at, name);
    AddMissingProceeds(env, show.world, at, name, show.value.addrs, target);
    ApplyAddrDone(env, w, at, name, target);
  }

  // The same namespaces and links, whatever their settings.
  predicate SameNames(k: Kernel, after: Kernel)
  {
    && after.root.Keys == k.root.Keys && after.spaces.Keys == k.spaces.Keys
    && forall ns | ns in k.spaces :: after.spaces[ns].links.Keys == k.spaces[ns].links.Keys
  }

  lemma UpProceeds(env: Env, w: World, at: Option<string>, name: string)
    requires Faultless(env)
    ensures ApplyInterfaceUp(env, w, at, name).Done? <==> HasLink(w.kernel, at, name)
    ensures SameNames(w.kernel, ApplyInterfaceUp(env, w, at, name).world.kernel)
  {
  }

  lemma MasterProceeds(env: Env, w: World, name: string)
    requires Faultless(env) && BRIDGE in w.kernel.root
    ensures ApplyLinkMaster(env, w, None, name, BRIDGE).Done? <==> name in w.kernel.root
    ensures SameNames(w.kernel, ApplyLinkMaster(env, w, None, name, BRIDGE).world.kernel)
  {
  }

  /*** Stages ***/

  lemma BridgeProceeds(env: Env, w: World)
    requires Faultless(env)
    ensures ApplyBridge(env, w).Done?
  {
    var a := LinkExists(env, w, None, BRIDGE);
    var b := if a.value then Done(a.world, ()) else LinkAdd(env, a.world, None, BRIDGE, NEW_BRIDGE);
    ApplyAddrProceeds(env, b.world, None, BRIDGE, [BRIDGE_NET]);
    UpProceeds(env, ApplyAddr(env, b.world, None, BRIDGE, [BRIDGE_NET]).world, None, BRIDGE);
  }

  lemma FinishWireguardProceeds(env: Env, w: World, n: NetworkState)
    requires Faultless(env) && HasLink(w.kernel, Some(NetnsName(n.listenPort)), WgName(n.listenPort))
    ensures FinishWireguard(env, w, n).Done?
  {
    var ns, wg := NetnsName(n.listenPort), WgName(n.listenPort);
    UpProceeds(env, w, Some(ns), wg);
    var a := ApplyInterfaceUp(env, w, Some(ns), wg);
    var b := NetnsWriteFile(env, a.world, ns, wg, env.wgText(n));
    ApplyAddrProceeds(env, b.world, Some(ns), wg, n.address);
    ApplyAddrDone(env, b.world, Some(ns), wg, n.address);
  }

  lemma WireguardProceeds(env: Env, w: World, n: NetworkState)
    requires Faultless(env) && NetnsName(n.listenPort) in w.kernel.spaces
    ensures var links, wg := w.kernel.spaces[NetnsName(n.listenPort)].links, WgName(n.listenPort);
      ApplyWireguard(env, w, n).Done? <==> (wg in links ==> links[wg].mtu.Some?)
  {
    var ns, wg := NetnsName(n.listenPort), WgName(n.listenPort);
    var a := LinkExists(env, w, Some(ns), wg);
    var b := if a.value then Done(a.world, ()) else LinkAdd(env, a.world, Some(ns), wg, NEW_WIREGUARD);
    var c := InterfaceShow(env, b.world, Some(ns), wg);
    if c.value.mtu.Some? {
      var d := if c.value.mtu != Some(n.mtu) then InterfaceMtu(env, c.world, Some(ns), wg, n.mtu) else Done(c.world, ());
      FinishWireguardProceeds(env, d.world, n);
    }
  }

  lemma FinishVethProceeds(env: Env, w: World, n: NetworkState)
    requires Faultless(env) && BRIDGE in w.kernel.root && HasLink(w.kernel, Some(NetnsName(n.listenPort)), VethName(n.listenPort))
    ensures FinishVeth(env, w, n).Done? <==> VethName(n.listenPort) in w.kernel.root
  {
    var ns, veth := NetnsName(n.listenPort), VethName(n.listenPort);
    ApplyAddrProceeds(env, w, Some(ns), veth, [VethNet(n.listenPort)]);
    var a := ApplyAddr(env, w, Some(ns), veth, [VethNet(n.listenPort)]);
    MasterProceeds(env, a.world, veth);
    var b := ApplyLinkMaster(env, a.world, None, veth, BRIDGE);
    if b.Done? {
      UpProceeds(env, b.world, Some(ns), veth);
      UpProceeds(env, ApplyInterfaceUp(env, b.world, Some(ns), veth).world, None, veth);
    }
  }

  lemma VethProceeds(env: Env, w: World, n: NetworkState)
    requires Faultless(env) && BRIDGE in w.kernel.root && NetnsName(n.listenPort) in w.kernel.spaces
    ensures var veth := VethName(n.listenPort);
      ApplyVeth(env, w, n).Done? <==> (veth in w.kernel.spaces[NetnsName(n.listenPort)].links <==> veth in w.kernel.root)
  {
    var ns, veth := NetnsName(n.listenPort), VethName(n.listenPort);
    var a := LinkExists(env, w, Some(ns), veth);
    if a.value {
      FinishVethProceeds(env, a.world, n);
    } else if veth !in w.kernel.root {
      FinishVethProceeds(env, VethAdd(env, a.world, ns, veth, veth).world, n);
    }
  }

  lemma RestProceeds(env: Env, w: World, n: NetworkState)
    requires Faultless(env) && NetnsName(n.listenPort) in w.kernel.spaces
    ensures ApplyForwarding(env, w, n).Done?
  {
  }

  // What the WireGuard stage leaves for the veth stage to find.
  lemma WireguardLeaves(env: Env, w: World, n: NetworkState)
    requires ApplyWireguard(env, w, n).Done?
    ensures var k, ns, veth := ApplyWireguard(env, w, n).world.kernel, NetnsName(n.listenPort), VethName(n.listenPort);
      && k.root == w.kernel.root && ns in w.kernel.spaces && ns in k.spaces
      && (veth in k.spaces[ns].links <==> veth in w.kernel.spaces[ns].links)
  {
    WireguardDone(env, w, n);
    LinkNamesDiffer(n.listenPort);
  }

  lemma VethLeaves(env: Env, w: World, n: NetworkState)
    requires ApplyVeth(env, w, n).Done?
    ensures NetnsName(n.listenPort) in ApplyVeth(env, w, n).world.kernel.spaces
  {
    VethDone(env, w, n);
  }

  /** While no call fails, a network is applied if and only if its port has both ends of its veth pair or neither,
      and its WireGuard interface shows an MTU. */
  lemma NetworkProceeds(env: Env, w: World, n: NetworkState)
    requires Faultless(env) && BRIDGE in w.kernel.root
    ensures ApplyNetwork(env, w, n).Done? <==> WholePort(w.kernel, n.listenPort)
  {
    var a := ApplyNetns(env, w, n);
    NetnsDone(env, w, n);
    WireguardProceeds(env, a.world, n);
    var b := ApplyWireguard(env, a.world, n);
    if b.Done? {
      WireguardLeaves(env, a.world, n);
      VethProceeds(env, b.world, n);
      var c := ApplyVeth(env, b.world, n);
      if c.Done? {
        VethLeaves(env, b.world, n);
        RestProceeds(env, c.world, n);
      }
    }
  }

  lemma EffectElsewhere(env: Env, n: NetworkState, k: Kernel, p: u16)
    requires p != n.listenPort
    ensures var after := Effect(env, n, k);
      PortLinks(after, p) == PortLinks(k, p) && (VethName(p) in after.root <==> VethName(p) in k.root)
  {
    NamesDiffer(p, n.listenPort);
  }

  lemma EffectWhole(env: Env, n: NetworkState, k: Kernel, p: u16)
    requires p != n.listenPort
    ensures WholePort(Effect(env, n, k), p) == WholePort(k, p)
  {
    EffectElsewhere(env, n, k, p);
  }

  lemma {:induction false} NetworksProceed(env: Env, w: World, networks: seq<NetworkState>)
    requires Faultless(env) && BRIDGE in w.kernel.root && DistinctPorts(networks)
    ensures ApplyNetworks(env, w, networks).Done? <==> forall i | 0 <= i < |networks| :: WholePort(w.kernel, networks[i].listenPort)
    decreases |networks|
  {
    if networks != [] {
      var n, rest := networks[0], networks[1..];
      NetworkProceeds(env, w, n);
      var first := ApplyNetwork(env, w, n);
      if first.Done? {
        NetworkDone(env, w, n);
        NetworksProceed(env, first.world, rest);
        forall i | 0 <= i < |rest|
          ensures WholePort(first.world.kernel, rest[i].listenPort) == WholePort(w.kernel, networks[i + 1].listenPort)
        {
          EffectWhole(env, n, w.kernel, rest[i].listenPort);
        }
        RestWhole(w.kernel, first.world.kernel, networks);
      }
    }
  }

  lemma RestWhole(k: Kernel, after: Kernel, networks: seq<NetworkState>)
    requires networks != [] && WholePort(k, networks[0].listenPort)
    requires forall i | 0 <= i < |networks[1..]| :: WholePort(after, networks[1..][i].listenPort) == WholePort(k, networks[i + 1].listenPort)
    ensures (forall i | 0 <= i < |networks[1..]| :: WholePort(after, networks[1..][i].listenPort))
      <==> (forall i | 0 <= i < |networks| :: WholePort(k, networks[i].listenPort))
  {
    var rest := networks[1..];
    if forall i | 0 <= i < |rest| :: WholePort(after, rest[i].listenPort) {
      forall i | 0 <= i < |networks| ensures WholePort(k, networks[i].listenPort) {
        if i > 0 { assert WholePort(after, rest[i - 1].listenPort); }
      }
    }
  }

  lemma {:induction false} DeleteAllProceeds(env: Env, w: World, names: seq<string>)
    requires Faultless(env) && (forall i, j | 0 <= i < j < |names| :: names[i] != names[j])
    requires forall i | 0 <= i < |names| :: names[i] in w.kernel.spaces
    ensures DeleteAll(env, w, names).Done?
    decreases |names|
  {
    if names != [] {
      var first := if Managed(names[0]) then NetnsDel(env, w, names[0]) else Done(w, ());
      DeleteAllProceeds(env, first.world, names[1..]);
    }
  }

  // Clearing surplus namespaces does not touch the ports that stay.
  lemma ClearedWhole(k: Kernel, names: set<string>, p: u16)
    requires Wired(k) && NetnsName(p) !in names
    ensures WholePort(DropAll(BridgeEffect(k), names), p) == WholePort(k, p)
  {
    NoVeth(p);
  }

  lemma ClearedKeepsBridge(k: Kernel, names: set<string>)
    requires BridgeFree(k)
    ensures BRIDGE in DropAll(BridgeEffect(k), names).root
  {
  }

  lemma SurplusListed(env: Env, listed: set<string>, wanted: set<string>)
    requires ListsSets(env) && ListsOnce(env)
    ensures var names := env.order(listed - wanted);
      && (forall i, j | 0 <= i < j < |names| :: names[i] != names[j])
      && (forall i | 0 <= i < |names| :: names[i] in listed)
      && ManagedIn(names) !! wanted
  {
    var names := env.order(listed - wanted);
    forall i | 0 <= i < |names| ensures names[i] in listed { assert names[i] in names; }
  }

  lemma KeyedWhole(c: Networks, k: Kernel)
    ensures (forall i | 0 <= i < |Keyed(c)| :: WholePort(k, Keyed(c)[i].listenPort)) <==> (forall p | p in c :: WholePort(k, p))
  {
    var ports := AscendingPorts(c.Keys);
    forall p | p in c ensures exists i :: 0 <= i < |Keyed(c)| && Keyed(c)[i].listenPort == p {
      assert p in ports;
      var i :| 0 <= i < |ports| && ports[i] == p;
      assert Keyed(c)[i].listenPort == p;
    }
  }

  // What the networks find after the clearing is what was there before.
  lemma ClearedNetworks(k: Kernel, names: set<string>, networks: seq<NetworkState>)
    requires Wired(k) && names !! NetnsNames(networks)
    ensures forall i | 0 <= i < |networks| ::
      WholePort(DropAll(BridgeEffect(k), names), networks[i].listenPort) == WholePort(k, networks[i].listenPort)
  {
    forall i | 0 <= i < |networks|
      ensures WholePort(DropAll(BridgeEffect(k), names), networks[i].listenPort) == WholePort(k, networks[i].listenPort)
    {
      assert NetnsName(networks[i].listenPort) in NetnsNames(networks);
      ClearedWhole(k, names, networks[i].listenPort);
    }
  }

  /** From a sane state, a whole update in which no call fails succeeds if and only if every port of the
      configuration has both ends of its veth pair or neither, and no WireGuard interface without an MTU. */
  lemma ApplyProceeds(env: Env, w: World, c: Networks)
    requires Faultless(env) && ListsSets(env) && ListsOnce(env) && Sane(w.kernel)
    ensures Apply(env, w, c).Done? <==> forall p | p in c :: WholePort(w.kernel, p)
  {
    var networks := Keyed(c);
    SaneMeans(w.kernel);
    BridgeProceeds(env, w);
    BridgeDone(env, w);
    var list := NetnsList(env, ApplyBridge(env, w).world);
    var names := env.order(list.value - NetnsNames(networks));
    SurplusListed(env, list.value, NetnsNames(networks));
    DeleteAllProceeds(env, list.world, names);
    DeleteAllDone(env, list.world, names);
    var cleared := DeleteAll(env, list.world, names);
    ClearedKeepsBridge(w.kernel, ManagedIn(names));
    KeyedDistinct(c);
    NetworksProceed(env, cleared.world, networks);
    ClearedNetworks(w.kernel, ManagedIn(names), networks);
    KeyedWhole(c, w.kernel);
    NginxProceeds(env, ApplyNetworks(env, cleared.world, networks).world, networks);
  }

  lemma NginxProceeds(env: Env, w: World, networks: seq<NetworkState>)
    requires Faultless(env)
    ensures ApplyNginx(env, w, networks).Done?
  {
  }

  /*** Partial updates ***/

  // What the entries of other ports find unchanged.
  ghost predicate Undisturbed(k: Kernel, after: Kernel, port: u16)
  {
    && Wired(after) && BridgeFree(after) && BRIDGE in after.root
    && forall q: u16 | q != port ::
         WholePort(after, q) == WholePort(k, q) && (NetnsName(q) in after.spaces <==> NetnsName(q) in k.spaces)
  }

  lemma EffectUndisturbed(env: Env, n: NetworkState, k: Kernel)
    requires Wired(k) && BridgeFree(k) && BRIDGE in k.root
    ensures Undisturbed(k, Effect(env, n, k), n.listenPort)
  {
    EffectKeepsWired(env, n, k);
    LinkNamesDiffer(n.listenPort);
    forall q: u16 | q != n.listenPort
      ensures WholePort(Effect(env, n, k), q) == WholePort(k, q)
      ensures NetnsName(q) in Effect(env, n, k).spaces <==> NetnsName(q) in k.spaces
    {
      EffectWhole(env, n, k, q);
      NamesDiffer(q, n.listenPort);
    }
  }

  lemma DropUndisturbed(k: Kernel, port: u16)
    requires Wired(k) && BridgeFree(k) && BRIDGE in k.root
    ensures Undisturbed(k, DropSpace(k, NetnsName(port)), port)
  {
    forall q: u16 | q != port
      ensures WholePort(DropSpace(k, NetnsName(port)), q) == WholePort(k, q)
      ensures NetnsName(q) in DropSpace(k, NetnsName(port)).spaces <==> NetnsName(q) in k.spaces
    {
      NamesDiffer(q, port);
    }
  }

  lemma EntryProceeds(env: Env, w: World, stored: Networks, port: u16, entry: Option<NetworkState>, listed: set<string>)
    requires Faultless(env) && Wired(w.kernel) && BridgeFree(w.kernel) && BRIDGE in w.kernel.root
    requires (entry.Some? ==> entry.value.listenPort == port) && (NetnsName(port) in listed ==> NetnsName(port) in w.kernel.spaces)
    ensures var run := ApplyEntry(env, w, stored, port, entry, listed).run;
      && (run.Done? <==> (entry.Some? ==> WholePort(w.kernel, port)))
      && (run.Done? ==> Undisturbed(w.kernel, run.world.kernel, port))
  {
    match entry
    case Some(n) =>
      NetworkProceeds(env, w, n);
      NetworkDone(env, w, n);
      EffectUndisturbed(env, n, w.kernel);
    case None => DropUndisturbed(w.kernel, port);
  }

  // The ports whose networks the entries bring are whole.
  ghost predicate BroughtWhole(k: Kernel, partial: Partial, ports: seq<u16>)
  {
    forall p | p in ports && Brought(partial, p) :: WholePort(k, p)
  }

  lemma BroughtFront(k: Kernel, after: Kernel, partial: Partial, port: u16, rest: seq<u16>)
    requires Undisturbed(k, after, port) && port !in rest && (Brought(partial, port) ==> WholePort(k, port))
    ensures BroughtWhole(after, partial, rest) <==> BroughtWhole(k, partial, [port] + rest)
  {
    assert port in [port] + rest && forall p | p in rest :: p in [port] + rest && p != port;
  }

  lemma {:induction false} EntriesProceed(env: Env, w: World, stored: Networks, partial: Partial, ports: seq<u16>, listed: set<string>)
    requires Faultless(env) && Wired(w.kernel) && BridgeFree(w.kernel) && BRIDGE in w.kernel.root
    requires KeyedPartial(partial) && Distinct(ports)
    requires forall p | p in ports :: p in partial && (NetnsName(p) in listed ==> NetnsName(p) in w.kernel.spaces)
    ensures ApplyEntries(env, w, stored, partial, ports, listed).run.Done? <==> BroughtWhole(w.kernel, partial, ports)
    decreases |ports|
  {
    if ports != [] {
      var port, rest := ports[0], ports[1..];
      assert ports == [port] + rest && port in ports && port !in rest;
      var first := ApplyEntry(env, w, stored, port, partial[port], listed);
      EntryProceeds(env, w, stored, port, partial[port], listed);
      if first.run.Done? {
        EntriesProceed(env, first.run.world, first.stored, partial, rest, listed);
        BroughtFront(w.kernel, first.run.world.kernel, partial, port, rest);
      }
    }
  }

  lemma BridgedWhole(k: Kernel, p: u16)
    ensures WholePort(BridgeEffect(k), p) == WholePort(k, p)
  {
    NoVeth(p);
  }

  /** From a sane state, a partial update in which no call fails and whose networks listen on their keys succeeds if
      and only if every port whose network it brings, new or known, has both ends of its veth pair or neither, and no
      WireGuard interface without an MTU. */
  lemma PartialProceeds(env: Env, w: World, stored: Networks, partial: Partial)
    requires Faultless(env) && Sane(w.kernel) && KeyedPartial(partial)
    ensures ApplyPartial(env, w, stored, partial).run.Done?
      <==> forall p | p in partial && partial[p].Some? :: WholePort(w.kernel, p)
  {
    var ports := AscendingPorts(partial.Keys);
    SaneMeans(w.kernel);
    BridgeProceeds(env, w);
    BridgeDone(env, w);
    BridgeKeepsWired(w.kernel);
    var list := NetnsList(env, ApplyBridge(env, w).world);
    EntriesProceed(env, list.world, stored, partial, ports, list.value);
    forall p: u16 ensures WholePort(list.world.kernel, p) == WholePort(w.kernel, p) { BridgedWhole(w.kernel, p); }
    var entries := ApplyEntries(env, list.world, stored, partial, ports, list.value);
    if entries.run.Done? { NginxProceeds(env, entries.run.world, Stored(entries.stored)); }
  }
}
