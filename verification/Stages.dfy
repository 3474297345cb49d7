/** In what order a network is applied, as far as runs that fail half-way show it (src/gateway.rs). */
module Stages {
  import opened Basics
  import opened Config
  import opened Addressing
  import opened Kernel
  import opened Reconciler
  import opened NetworkEffect

  // In the namespace and the root only these links may differ, and the NAT rules are the same.
  ghost predicate LinksOnly(k: Kernel, after: Kernel, ns: string, inner: set<string>, outer: set<string>)
  {
    && ns in k.spaces && ns in after.spaces && after.spaces[ns].rules == k.spaces[ns].rules
    && (forall l | l !in inner :: Lookup(after.spaces[ns].links, l) == Lookup(k.spaces[ns].links, l))
    && (forall l | l !in inner :: Lookup(after.spaces[ns].wireguard, l) == Lookup(k.spaces[ns].wireguard, l))
    && (forall l | l !in outer :: Lookup(after.root, l) == Lookup(k.root, l))
  }

  predicate Among(at: Option<string>, name: string, ns: string, inner: set<string>, outer: set<string>)
  {
    if at.Some? then at.value == ns && name in inner else name in outer
  }

  lemma SetOnly(k: Kernel, at: Option<string>, name: string, link: Link, ns: string, inner: set<string>, outer: set<string>)
    requires ns in k.spaces && Among(at, name, ns, inner, outer)
    ensures LinksOnly(k, SetLink(k, at, name, link), ns, inner, outer)
  {
  }

  lemma UpdateOnly(env: Env, w: World, at: Option<string>, name: string, ok: bool, update: Link -> Link, ns: string, inner: set<string>,
                   outer: set<string>)
    requires ns in w.kernel.spaces && Among(at, name, ns, inner, outer)
    ensures LinksOnly(w.kernel, LinkSet(env, w, at, name, ok, update).world.kernel, ns, inner, outer)
  {
    if HasLink(w.kernel, at, name) {
      SetOnly(w.kernel, at, name, update(LinkAt(w.kernel, at, name)), ns, inner, outer);
    }
  }

  lemma UpOnly(env: Env, w: World, at: Option<string>, name: string, ns: string, inner: set<string>, outer: set<string>)
    requires ns in w.kernel.spaces && Among(at, name, ns, inner, outer)
    ensures LinksOnly(w.kernel, ApplyInterfaceUp(env, w, at, name).world.kernel, ns, inner, outer)
  {
    var show := InterfaceShow(env, w, at, name);
    UpdateOnly(env, show.world, at, name, true, (l: Link) => l.(down := false), ns, inner, outer);
  }

  lemma MasterOnly(env: Env, w: World, name: string, master: string, ns: string, inner: set<string>, outer: set<string>)
    requires ns in w.kernel.spaces && name in outer
    ensures LinksOnly(w.kernel, ApplyLinkMaster(env, w, None, name, master).world.kernel, ns, inner, outer)
  {
    var show := InterfaceShow(env, w, None, name);
    UpdateOnly(env, show.world, None, name, HasLink(show.world.kernel, None, master), (l: Link) => l.(master := Some(master)),
      ns, inner, outer);
  }

  lemma {:induction false} AddMissingOnly(env: Env, w: World, at: Option<string>, name: string, current: set<IpNet>, target: seq<IpNet>,
                                          ns: string, inner: set<string>, outer: set<string>)
    requires ns in w.kernel.spaces && Among(at, name, ns, inner, outer)
    ensures LinksOnly(w.kernel, AddMissing(env, w, at, name, current, target).world.kernel, ns, inner, outer)
    decreases |target|
  {
    if target != [] {
      var first := if target[0] in current then Done(w, ()) else AddrAdd(env, w, at, name, target[0]);
      UpdateOnly(env, w, at, name, true, (l: Link) => l.(addrs := l.addrs + {target[0]}), ns, inner, outer);
      if first.Done? { AddMissingOnly(env, first.world, at, name, current, target[1..], ns, inner, outer); }
    }
  }

  lemma AddrOnly(env: Env, w: World, at: Option<string>, name: string, target: seq<IpNet>, ns: string, inner: set<string>, outer: set<string>)
    requires ns in w.kernel.spaces && Among(at, name, ns, inner, outer)
    ensures LinksOnly(w.kernel, ApplyAddr(env, w, at, name, target).world.kernel, ns, inner, outer)
  {
    var show := InterfaceShow(env, w, at, name);
    if show.Done? { AddMissingOnly(env, show.world, at, name, show.value.addrs, target, ns, inner, outer); }
  }

  lemma SyncOnly(env: Env, w: World, ns: string, wg: string)
    requires ns in w.kernel.spaces
    ensures LinksOnly(w.kernel, WireguardSync(env, w, ns, wg).world.kernel, ns, {wg}, {})
  {
  }

  lemma FinishWireguardOnly(env: Env, w: World, n: NetworkState, ns: string, wg: string)
    requires ns == NetnsName(n.listenPort) && wg == WgName(n.listenPort) && ns in w.kernel.spaces
    ensures LinksOnly(w.kernel, FinishWireguard(env, w, n).world.kernel, ns, {wg}, {})
  {
    UpOnly(env, w, Some(ns), wg, ns, {wg}, {});
    var a := ApplyInterfaceUp(env, w, Some(ns), wg);
    if a.Done? {
      var b := NetnsWriteFile(env, a.world, ns, wg, env.wgText(n));
      if b.Done? {
        AddrOnly(env, b.world, Some(ns), wg, n.address, ns, {wg}, {});
        var c := ApplyAddr(env, b.world, Some(ns), wg, n.address);
        if c.Done? { SyncOnly(env, c.world, ns, wg); }
      }
    }
  }

  lemma WireguardOnly(env: Env, w: World, n: NetworkState, ns: string, wg: string)
    requires ns == NetnsName(n.listenPort) && wg == WgName(n.listenPort) && ns in w.kernel.spaces
    ensures LinksOnly(w.kernel, ApplyWireguard(env, w, n).world.kernel, ns, {wg}, {})
  {
    var a := LinkExists(env, w, Some(ns), wg);
    if a.Done? {
      var b := if a.value then Done(a.world, ()) else LinkAdd(env, a.world, Some(ns), wg, NEW_WIREGUARD);
      SetOnly(a.world.kernel, Some(ns), wg, NEW_WIREGUARD, ns, {wg}, {});
      if b.Done? {
        var c := InterfaceShow(env, b.world, Some(ns), wg);
        if c.Done? && c.value.mtu.Some? {
          UpdateOnly(env, c.world, Some(ns), wg, true, (l: Link) => l.(mtu := Some(n.mtu)), ns, {wg}, {});
          var d := if c.value.mtu != Some(n.mtu) then InterfaceMtu(env, c.world, Some(ns), wg, n.mtu) else Done(c.world, ());
          if d.Done? { FinishWireguardOnly(env, d.world, n, ns, wg); }
        }
      }
    }
  }

  lemma FinishVethOnly(env: Env, w: World, n: NetworkState, ns: string, veth: string)
    requires ns == NetnsName(n.listenPort) && veth == VethName(n.listenPort) && ns in w.kernel.spaces
    ensures LinksOnly(w.kernel, FinishVeth(env, w, n).world.kernel, ns, {veth}, {veth})
  {
    AddrOnly(env, w, Some(ns), veth, [VethNet(n.listenPort)], ns, {veth}, {veth});
    var a := ApplyAddr(env, w, Some(ns), veth, [VethNet(n.listenPort)]);
    if a.Done? {
      MasterOnly(env, a.world, veth, BRIDGE, ns, {veth}, {veth});
      var b := ApplyLinkMaster(env, a.world, None, veth, BRIDGE);
      if b.Done? {
        UpOnly(env, b.world, Some(ns), veth, ns, {veth}, {veth});
        var c := ApplyInterfaceUp(env, b.world, Some(ns), veth);
        if c.Done? { UpOnly(env, c.world, None, veth, ns, {veth}, {veth}); }
      }
    }
  }

  lemma VethOnly(env: Env, w: World, n: NetworkState, ns: string, veth: string)
    requires ns == NetnsName(n.listenPort) && veth == VethName(n.listenPort) && ns in w.kernel.spaces
    ensures LinksOnly(w.kernel, ApplyVeth(env, w, n).world.kernel, ns, {veth}, {veth})
  {
    var a := LinkExists(env, w, Some(ns), veth);
    if a.Done? {
      var b := if a.value then Done(a.world, ()) else VethAdd(env, a.world, ns, veth, veth);
      var mid := SetLink(a.world.kernel, Some(ns), veth, NewVeth(None));
      SetOnly(a.world.kernel, Some(ns), veth, NewVeth(None), ns, {veth}, {veth});
      SetOnly(mid, None, veth, NewVeth(Some(ns)), ns, {veth}, {veth});
      if b.Done? { FinishVethOnly(env, b.world, n, ns, veth); }
    }
  }

  // Nothing is done yet; or there is the namespace and perhaps part of its WireGuard interface; or all of that and
  // perhaps part of its veth pair; or all but the NAT rules.
  ghost predicate HalfWay(env: Env, n: NetworkState, k: Kernel, after: Kernel)
  {
    var ns, wg, veth := NetnsName(n.listenPort), WgName(n.listenPort), VethName(n.listenPort);
    var created := NetnsEffect(n, k);
    var configured := WireguardEffect(env, n, created);
    || after == k
    || LinksOnly(created, after, ns, {wg}, {})
    || LinksOnly(configured, after, ns, {veth}, {veth})
    || after == VethEffect(n, configured)
  }

  lemma FailedRules(env: Env, w: World, n: NetworkState)
    requires ApplyForwarding(env, w, n).Failed?
    ensures ApplyForwarding(env, w, n).world.kernel == w.kernel
  {
  }

  lemma FailedNetns(env: Env, w: World, n: NetworkState)
    requires ApplyNetns(env, w, n).Failed?
    ensures ApplyNetns(env, w, n).world.kernel == w.kernel
  {
  }

  /** Wherever applying a network fails, the stages before are done and those after are not begun: namespace,
      WireGuard, veth pair, NAT rules. */
  lemma NetworkStages(env: Env, w: World, n: NetworkState)
    requires ApplyNetwork(env, w, n).Failed?
    ensures HalfWay(env, n, w.kernel, ApplyNetwork(env, w, n).world.kernel)
  {
    var ns := NetnsName(n.listenPort);
    var a := ApplyNetns(env, w, n);
    if a.Failed? {
      FailedNetns(env, w, n);
    } else {
      NetnsDone(env, w, n);
      WireguardOnly(env, a.world, n, ns, WgName(n.listenPort));
      var b := ApplyWireguard(env, a.world, n);
      if b.Done? {
        WireguardDone(env, a.world, n);
        VethOnly(env, b.world, n, ns, VethName(n.listenPort));
        var c := ApplyVeth(env, b.world, n);
        if c.Done? {
          VethDone(env, b.world, n);
          FailedRules(env, c.world, n);
        }
      }
    }
  }
}
