/** What a run leaves alone, whether or not it succeeds: namespaces and links of others, and the nginx tables until
    every network is in place. */
module Isolation {
  import opened Basics
  import opened Config
  import opened Addressing
  import opened Forwarding
  import opened Cleaning
  import opened Kernel
  import opened Reconciler
  import opened Effects
  import opened NetworkEffect
  import opened Invariants
  import opened Convergence
  import opened Incremental

  predicate Into(l: Option<Link>, spaces: set<string>) { l.Some? && l.value.peer.Some? && l.value.peer.value in spaces }

  /** Only these namespaces may differ, and outside them only these links and the veth ends that lead into them; what
      nginx has is the same. */
  ghost predicate Within(k: Kernel, after: Kernel, spaces: set<string>, links: set<string>)
  {
    && (forall ns | ns !in spaces :: Lookup(after.spaces, ns) == Lookup(k.spaces, ns))
    && (forall l | l !in links && !Into(Lookup(k.root, l), spaces) :: Lookup(after.root, l) == Lookup(k.root, l))
    && after.nginx == k.nginx
  }

  predicate Allowed(at: Option<string>, name: string, spaces: set<string>, links: set<string>)
  {
    if at.Some? then at.value in spaces else name in links
  }

  lemma SetWithin(k: Kernel, at: Option<string>, name: string, link: Link, spaces: set<string>, links: set<string>)
    requires HasSpace(k, at) && Allowed(at, name, spaces, links)
    ensures Within(k, SetLink(k, at, name, link), spaces, links)
  {
  }

  lemma UpdateWithin(env: Env, w: World, at: Option<string>, name: string, ok: bool, update: Link -> Link, spaces: set<string>, links: set<string>)
    requires Allowed(at, name, spaces, links)
    ensures Within(w.kernel, LinkSet(env, w, at, name, ok, update).world.kernel, spaces, links)
  {
    if HasLink(w.kernel, at, name) {
      SetWithin(w.kernel, at, name, update(LinkAt(w.kernel, at, name)), spaces, links);
    }
  }

  lemma UpWithin(env: Env, w: World, at: Option<string>, name: string, spaces: set<string>, links: set<string>)
    requires Allowed(at, name, spaces, links)
    ensures Within(w.kernel, ApplyInterfaceUp(env, w, at, name).world.kernel, spaces, links)
  {
    var show := InterfaceShow(env, w, at, name);
    UpdateWithin(env, show.world, at, name, true, (l: Link) => l.(down := false), spaces, links);
  }

  lemma MasterWithin(env: Env, w: World, name: string, master: string, spaces: set<string>, links: set<string>)
    requires name in links
    ensures Within(w.kernel, ApplyLinkMaster(env, w, None, name, master).world.kernel, spaces, links)
  {
    var show := InterfaceShow(env, w, None, name);
    UpdateWithin(env, show.world, None, name, HasLink(show.world.kernel, None, master), (l: Link) => l.(master := Some(master)), spaces, links);
  }

  lemma {:induction false} AddMissingWithin(env: Env, w: World, at: Option<string>, name: string, current: set<IpNet>, target: seq<IpNet>,
                                            spaces: set<string>, links: set<string>)
    requires Allowed(at, name, spaces, links)
    ensures Within(w.kernel, AddMissing(env, w, at, name, current, target).world.kernel, spaces, links)
    decreases |target|
  {
    if target != [] {
      var first := if target[0] in current then Done(w, ()) else AddrAdd(env, w, at, name, target[0]);
      UpdateWithin(env, w, at, name, true, (l: Link) => l.(addrs := l.addrs + {target[0]}), spaces, links);
      if first.Done? { AddMissingWithin(env, first.world, at, name, current, target[1..], spaces, links); }
    }
  }

  lemma AddrWithin(env: Env, w: World, at: Option<string>, name: string, target: seq<IpNet>, spaces: set<string>, links: set<string>)
    requires Allowed(at, name, spaces, links)
    ensures Within(w.kernel, ApplyAddr(env, w, at, name, target).world.kernel, spaces, links)
  {
    var show := InterfaceShow(env, w, at, name);
    if show.Done? { AddMissingWithin(env, show.world, at, name, show.value.addrs, target, spaces, links); }
  }

  lemma BridgeWithin(env: Env, w: World, spaces: set<string>, links: set<string>)
    requires BRIDGE in links
    ensures Within(w.kernel, ApplyBridge(env, w).world.kernel, spaces, links)
  {
    var a := LinkExists(env, w, None, BRIDGE);
    if a.Done? {
      var b := if a.value then Done(a.world, ()) else LinkAdd(env, a.world, None, BRIDGE, NEW_BRIDGE);
      SetWithin(a.world.kernel, None, BRIDGE, NEW_BRIDGE, spaces, links);
      if b.Done? {
        AddrWithin(env, b.world, None, BRIDGE, [BRIDGE_NET], spaces, links);
        var c := ApplyAddr(env, b.world, None, BRIDGE, [BRIDGE_NET]);
        if c.Done? { UpWithin(env, c.world, None, BRIDGE, spaces, links); }
      }
    }
  }

  lemma FinishWireguardWithin(env: Env, w: World, n: NetworkState, spaces: set<string>, links: set<string>)
    requires NetnsName(n.listenPort) in spaces
    ensures Within(w.kernel, FinishWireguard(env, w, n).world.kernel, spaces, links)
  {
    var ns, wg := NetnsName(n.listenPort), WgName(n.listenPort);
    UpWithin(env, w, Some(ns), wg, spaces, links);
    var a := ApplyInterfaceUp(env, w, Some(ns), wg);
    if a.Done? {
      var b := NetnsWriteFile(env, a.world, ns, wg, env.wgText(n));
      if b.Done? { AddrWithin(env, b.world, Some(ns), wg, n.address, spaces, links); }
    }
  }

  lemma WireguardWithin(env: Env, w: World, n: NetworkState, spaces: set<string>, links: set<string>)
    requires NetnsName(n.listenPort) in spaces
    ensures Within(w.kernel, ApplyWireguard(env, w, n).world.kernel, spaces, links)
  {
    var ns, wg := NetnsName(n.listenPort), WgName(n.listenPort);
    var a := LinkExists(env, w, Some(ns), wg);
    if a.Done? {
      var b := if a.value then Done(a.world, ()) else LinkAdd(env, a.world, Some(ns), wg, NEW_WIREGUARD);
      SetWithin(a.world.kernel, Some(ns), wg, NEW_WIREGUARD, spaces, links);
      if b.Done? {
        var c := InterfaceShow(env, b.world, Some(ns), wg);
        if c.Done? && c.value.mtu.Some? {
          UpdateWithin(env, c.world, Some(ns), wg, true, (l: Link) => l.(mtu := Some(n.mtu)), spaces, links);
          var d := if c.value.mtu != Some(n.mtu) then InterfaceMtu(env, c.world, Some(ns), wg, n.mtu) else Done(c.world, ());
          if d.Done? { FinishWireguardWithin(env, d.world, n, spaces, links); }
        }
      }
    }
  }

  lemma FinishVethWithin(env: Env, w: World, n: NetworkState, spaces: set<string>, links: set<string>)
    requires NetnsName(n.listenPort) in spaces && VethName(n.listenPort) in links
    ensures Within(w.kernel, FinishVeth(env, w, n).world.kernel, spaces, links)
  {
    var ns, veth := NetnsName(n.listenPort), VethName(n.listenPort);
    AddrWithin(env, w, Some(ns), veth, [VethNet(n.listenPort)], spaces, links);
    var a := ApplyAddr(env, w, Some(ns), veth, [VethNet(n.listenPort)]);
    if a.Done? {
      MasterWithin(env, a.world, veth, BRIDGE, spaces, links);
      var b := ApplyLinkMaster(env, a.world, None, veth, BRIDGE);
      if b.Done? {
        UpWithin(env, b.world, Some(ns), veth, spaces, links);
        var c := ApplyInterfaceUp(env, b.world, Some(ns), veth);
        if c.Done? { UpWithin(env, c.world, None, veth, spaces, links); }
      }
    }
  }

  lemma VethWithin(env: Env, w: World, n: NetworkState, spaces: set<string>, links: set<string>)
    requires NetnsName(n.listenPort) in spaces && VethName(n.listenPort) in links
    ensures Within(w.kernel, ApplyVeth(env, w, n).world.kernel, spaces, links)
  {
    var ns, veth := NetnsName(n.listenPort), VethName(n.listenPort);
    var a := LinkExists(env, w, Some(ns), veth);
    if a.Done? {
      var b := if a.value then Done(a.world, ()) else VethAdd(env, a.world, ns, veth, veth);
      var mid := SetLink(a.world.kernel, Some(ns), veth, NewVeth(None));
      SetWithin(a.world.kernel, Some(ns), veth, NewVeth(None), spaces, links);
      SetWithin(mid, None, veth, NewVeth(Some(ns)), spaces, links);
      if b.Done? { FinishVethWithin(env, b.world, n, spaces, links); }
    }
  }

  lemma RestoreWithin(env: Env, w: World, ns: string, text: string, spaces: set<string>, links: set<string>)
    requires ns in spaces
    ensures Within(w.kernel, IptablesRestore(env, w, ns, text).world.kernel, spaces, links)
  {
  }

  lemma ForwardingWithin(env: Env, w: World, n: NetworkState, spaces: set<string>, links: set<string>)
    requires NetnsName(n.listenPort) in spaces
    ensures Within(w.kernel, ApplyForwarding(env, w, n).world.kernel, spaces, links)
  {
    var a := IptablesSave(env, w, NetnsName(n.listenPort));
    RestoreWithin(env, a.world, NetnsName(n.listenPort), Clean(RulesText(n)), spaces, links);
  }

  lemma NetnsWithin(env: Env, w: World, n: NetworkState, spaces: set<string>, links: set<string>)
    requires NetnsName(n.listenPort) in spaces
    ensures Within(w.kernel, ApplyNetns(env, w, n).world.kernel, spaces, links)
  {
  }

  /** Applying a network, also when it fails anywhere, changes nothing but its own namespace and its outer veth end. */
  lemma NetworkWithin(env: Env, w: World, n: NetworkState, spaces: set<string>, links: set<string>)
    requires NetnsName(n.listenPort) in spaces && VethName(n.listenPort) in links
    ensures Within(w.kernel, ApplyNetwork(env, w, n).world.kernel, spaces, links)
  {
    NetnsWithin(env, w, n, spaces, links);
    var a := ApplyNetns(env, w, n);
    if a.Done? {
      WireguardWithin(env, a.world, n, spaces, links);
      var b := ApplyWireguard(env, a.world, n);
      if b.Done? {
        VethWithin(env, b.world, n, spaces, links);
        var c := ApplyVeth(env, b.world, n);
        if c.Done? { ForwardingWithin(env, c.world, n, spaces, links); }
      }
    }
  }

  // Other links and interface configurations are the same, and no link loses an address, its peer or its master.
  ghost predicate OthersKept(was: Space, now: Space, wg: string, veth: string)
  {
    && (forall l | l != wg && l != veth :: Lookup(now.links, l) == Lookup(was.links, l))
    && (forall l | l != wg :: Lookup(now.wireguard, l) == Lookup(was.wireguard, l))
    && (forall l | l in was.links :: l in now.links && was.links[l].addrs <= now.links[l].addrs
          && now.links[l].peer == was.links[l].peer && now.links[l].master == was.links[l].master)
  }

  lemma OthersKeptTwice(was: Space, mid: Space, now: Space, wg: string, veth: string)
    requires OthersKept(was, mid, wg, veth) && OthersKept(mid, now, wg, veth)
    ensures OthersKept(was, now, wg, veth)
  {
  }

  lemma WireguardFrame(env: Env, n: NetworkState, was: Space, wg: string, veth: string)
    requires wg == WgName(n.listenPort)
    ensures OthersKept(was, WithWireguard(env, n, was), wg, veth)
  {
  }

  lemma VethFrame(env: Env, n: NetworkState, was: Space, wg: string, veth: string)
    requires veth == VethName(n.listenPort)
    ensures OthersKept(was, WithRules(env, n, WithVeth(n, was)), wg, veth)
  {
  }

  lemma SpaceFrame(env: Env, n: NetworkState, was: Space, wg: string, veth: string)
    requires wg == WgName(n.listenPort) && veth == VethName(n.listenPort)
    ensures OthersKept(was, SpaceEffect(env, n, was), wg, veth)
  {
    var mid := WithWireguard(env, n, was);
    WireguardFrame(env, n, was, wg, veth);
    VethFrame(env, n, mid, wg, veth);
    OthersKeptTwice(was, mid, WithRules(env, n, WithVeth(n, mid)), wg, veth);
  }

  /** Inside its namespace a network's effect leaves every other link and interface configuration alone, removes no
      address, and keeps the NAT rules unless they differ. */
  lemma EffectFrame(env: Env, n: NetworkState, k: Kernel)
    requires NetnsName(n.listenPort) in k.spaces
    ensures var was, now := k.spaces[NetnsName(n.listenPort)], Effect(env, n, k).spaces[NetnsName(n.listenPort)];
      && OthersKept(was, now, WgName(n.listenPort), VethName(n.listenPort))
      && (Clean(env.dump(was.rules)) == RulesText(n) ==> now.rules == was.rules)
  {
    RulesTextIsClean(n);
    SpaceFrame(env, n, k.spaces[NetnsName(n.listenPort)], WgName(n.listenPort), VethName(n.listenPort));
  }

  // The link's addresses, of which there are none before it exists.
  function AddrsOf(links: map<string, Link>, name: string): set<IpNet> { if name in links then links[name].addrs else {} }

  lemma SpaceAddrs(env: Env, n: NetworkState, was: Space, wg: string, veth: string)
    requires wg == WgName(n.listenPort) && veth == VethName(n.listenPort)
    ensures var now := SpaceEffect(env, n, was).links;
      && wg in now && AddrsOf(now, wg) == AddrsOf(was.links, wg) + set a | a in n.address
      && veth in now && AddrsOf(now, veth) == AddrsOf(was.links, veth) + {IpNet(VethAddr(n.listenPort), 16)}
  {
    LinkNamesDiffer(n.listenPort);
    var wired := WithWireguard(env, n, was);
    assert AddrsOf(wired.links, veth) == AddrsOf(was.links, veth);
    assert AddrsOf(WithVeth(n, wired).links, wg) == AddrsOf(wired.links, wg);
  }

  /** The network's own links get exactly the addresses that are asked for on top of what they have. */
  lemma EffectAddrs(env: Env, n: NetworkState, k: Kernel)
    ensures var ns, wg, veth := NetnsName(n.listenPort), WgName(n.listenPort), VethName(n.listenPort);
      var was, now := SpaceBefore(n, k).links, Effect(env, n, k).spaces[ns].links;
      && wg in now && AddrsOf(now, wg) == AddrsOf(was, wg) + set a | a in n.address
      && veth in now && AddrsOf(now, veth) == AddrsOf(was, veth) + {IpNet(VethAddr(n.listenPort), 16)}
  {
    SpaceAddrs(env, n, SpaceBefore(n, k), WgName(n.listenPort), VethName(n.listenPort));
  }

  /*** Whole runs ***/

  lemma DropWithin(k: Kernel, ns: string, spaces: set<string>, links: set<string>)
    requires ns in spaces
    ensures Within(k, DropSpace(k, ns), spaces, links)
  {
  }

  lemma {:induction false} DeleteAllWithin(env: Env, w: World, names: seq<string>, spaces: set<string>, links: set<string>)
    requires ManagedIn(names) <= spaces
    ensures Within(w.kernel, DeleteAll(env, w, names).world.kernel, spaces, links)
    decreases |names|
  {
    if names != [] {
      var first := if Managed(names[0]) then NetnsDel(env, w, names[0]) else Done(w, ());
      assert Managed(names[0]) ==> names[0] in ManagedIn(names);
      if Managed(names[0]) { DropWithin(w.kernel, names[0], spaces, links); }
      assert ManagedIn(names[1..]) <= ManagedIn(names);
      if first.Done? { DeleteAllWithin(env, first.world, names[1..], spaces, links); }
    }
  }

  lemma {:induction false} NetworksWithin(env: Env, w: World, networks: seq<NetworkState>, spaces: set<string>, links: set<string>)
    requires NetnsNames(networks) <= spaces && VethNames(networks) <= links
    ensures Within(w.kernel, ApplyNetworks(env, w, networks).world.kernel, spaces, links)
    decreases |networks|
  {
    if networks != [] {
      NamesFront(networks);
      NetworkWithin(env, w, networks[0], spaces, links);
      var first := ApplyNetwork(env, w, networks[0]);
      if first.Done? { NetworksWithin(env, first.world, networks[1..], spaces, links); }
    }
  }

  // The networks before number i had their effect, and number i failed.
  ghost predicate StopsAt(env: Env, k: Kernel, end: World, networks: seq<NetworkState>, i: nat, at: World)
  {
    && i < |networks| && at.kernel == EffectAll(env, k, networks[..i])
    && ApplyNetwork(env, at, networks[i]).Failed? && end == ApplyNetwork(env, at, networks[i]).world
  }

  lemma PrefixEffect(env: Env, k: Kernel, n: NetworkState, rest: seq<NetworkState>, i: nat)
    requires i < |rest|
    ensures EffectAll(env, k, ([n] + rest)[..i + 1]) == EffectAll(env, Effect(env, n, k), rest[..i])
    ensures ([n] + rest)[i + 1] == rest[i]
  {
    assert ([n] + rest)[..i + 1] == [n] + rest[..i];
    assert ([n] + rest[..i])[1..] == rest[..i];
  }

  lemma StopsLater(env: Env, k: Kernel, end: World, n: NetworkState, rest: seq<NetworkState>, i: nat, at: World)
    requires StopsAt(env, Effect(env, n, k), end, rest, i, at)
    ensures StopsAt(env, k, end, [n] + rest, i + 1, at)
  {
    PrefixEffect(env, k, n, rest, i);
  }

  lemma StopsNow(env: Env, w: World, n: NetworkState, rest: seq<NetworkState>)
    requires ApplyNetwork(env, w, n).Failed?
    ensures StopsAt(env, w.kernel, ApplyNetwork(env, w, n).world, [n] + rest, 0, w)
  {
    assert ([n] + rest)[..0] == [];
  }

  /** At the first network that fails, the ones before it have had their effect, and none after it is touched. */
  lemma {:induction false} NetworksStop(env: Env, w: World, networks: seq<NetworkState>) returns (i: nat, at: World)
    requires ApplyNetworks(env, w, networks).Failed?
    ensures StopsAt(env, w.kernel, ApplyNetworks(env, w, networks).world, networks, i, at)
    decreases |networks|
  {
    var n, rest := networks[0], networks[1..];
    assert networks == [n] + rest;
    var first := ApplyNetwork(env, w, n);
    if first.Failed? {
      i, at := 0, w;
      StopsNow(env, w, n, rest);
    } else {
      NetworkDone(env, w, n);
      i, at := NetworksStop(env, first.world, rest);
      StopsLater(env, w.kernel, ApplyNetworks(env, first.world, rest).world, n, rest, i, at);
      i := i + 1;
    }
  }

  // The namespaces and links that an update to these networks may change.
  function Reach(k: Kernel, networks: seq<NetworkState>): set<string>
  {
    NetnsNames(networks) + set ns | ns in k.spaces && Surplus(k, networks, ns)
  }

  function OuterReach(networks: seq<NetworkState>): set<string> { VethNames(networks) + {BRIDGE} }

  // How far the nginx tables have got: the stream file is written first, then the site file, and then both are loaded.
  predicate NginxStage(was: Nginx, now: Nginx, t: Tables)
  {
    || now == was || now == was.(stream := Some(t.https)) || now == was.(stream := Some(t.https), site := Some(t.http))
    || now == Nginx(Some(t.https), Some(t.http), Some((t.https, t.http)))
  }

  // The run up to nginx, and whether it got that far.
  ghost predicate BeforeNginx(k: Kernel, run: Run<()>, applied: Kernel, t: Tables, spaces: set<string>, links: set<string>)
  {
    var after := run.world.kernel;
    && (run.Done? ==> after.(nginx := k.nginx) == applied)
    && Within(k, after.(nginx := k.nginx), spaces, links)
    && (after.nginx != k.nginx ==> after.(nginx := k.nginx) == applied)
    && NginxStage(k.nginx, after.nginx, t)
  }

  lemma NginxAfter(env: Env, k: Kernel, w: World, networks: seq<NetworkState>, spaces: set<string>, links: set<string>)
    requires Within(k, w.kernel, spaces, links)
    ensures BeforeNginx(k, ApplyNginx(env, w, networks), w.kernel, TablesOf(networks, env.custom), spaces, links)
  {
    SameButNginx(env, w, networks);
  }

  lemma SameButNginx(env: Env, w: World, networks: seq<NetworkState>)
    ensures ApplyNginx(env, w, networks).world.kernel.(nginx := w.kernel.nginx) == w.kernel
    ensures NginxStage(w.kernel.nginx, ApplyNginx(env, w, networks).world.kernel.nginx, TablesOf(networks, env.custom))
  {
  }

  lemma FailedBefore(k: Kernel, w: World, applied: Kernel, t: Tables, spaces: set<string>, links: set<string>)
    requires Within(k, w.kernel, spaces, links)
    ensures BeforeNginx(k, Failed(w), applied, t, spaces, links)
  {
    assert w.kernel.(nginx := k.nginx) == w.kernel;
  }

  lemma SurplusWithin(env: Env, k: Kernel, networks: seq<NetworkState>)
    requires ListsSets(env)
    ensures ManagedIn(env.order(k.spaces.Keys - NetnsNames(networks))) <= Reach(k, networks)
  {
  }

  // What a whole update does after the bridge is up and the namespaces are listed.
  function Rest(env: Env, w: World, networks: seq<NetworkState>, names: seq<string>): Run<()>
  {
    var (w1, _) :- DeleteAll(env, w, names);
    var (w2, _) :- ApplyNetworks(env, w1, networks);
    ApplyNginx(env, w2, networks)
  }

  lemma RestWithin(env: Env, k: Kernel, w: World, networks: seq<NetworkState>, names: seq<string>, spaces: set<string>, links: set<string>)
    requires Within(k, w.kernel, spaces, links)
    requires ManagedIn(names) <= spaces && NetnsNames(networks) <= spaces && VethNames(networks) <= links
    ensures BeforeNginx(k, Rest(env, w, networks, names), EffectAll(env, DropAll(w.kernel, ManagedIn(names)), networks),
                        TablesOf(networks, env.custom), spaces, links)
  {
    var applied, t := EffectAll(env, DropAll(w.kernel, ManagedIn(names)), networks), TablesOf(networks, env.custom);
    var rest := DeleteAll(env, w, names);
    DeleteAllWithin(env, w, names, spaces, links);
    DeleteAllDone(env, w, names);
    FailedBefore(k, rest.world, applied, t, spaces, links);
    if rest.Done? {
      var all := ApplyNetworks(env, rest.world, networks);
      NetworksWithin(env, rest.world, networks, spaces, links);
      ApplyNetworksDone(env, rest.world, networks);
      FailedBefore(k, all.world, applied, t, spaces, links);
      if all.Done? { NginxAfter(env, k, all.world, networks, spaces, links); }
    }
  }

  // The system with all networks of a whole update in place, and nginx as it was.
  function InPlace(env: Env, k: Kernel, networks: seq<NetworkState>): Kernel
  {
    EffectAll(env, Cleared(env, BridgeEffect(k), networks), networks)
  }

  lemma ApplyIsRest(env: Env, w: World, c: Networks)
    ensures var bridge := ApplyBridge(env, w);
      var list := NetnsList(env, bridge.world);
      Apply(env, w, c) ==
        if bridge.Failed? then bridge
        else if list.Failed? then Failed(list.world)
        else Rest(env, list.world, Keyed(c), env.order(list.value - NetnsNames(Keyed(c))))
  {
  }

  /** A whole update, failed or not, changes nothing but its networks' and the surplus managed namespaces, the outer
      veth ends and the bridge; and nginx gets nothing new before all networks are in place. */
  lemma ApplyWithin(env: Env, w: World, c: Networks)
    requires ListsSets(env)
    ensures BeforeNginx(w.kernel, Apply(env, w, c), InPlace(env, w.kernel, Keyed(c)), TablesOf(Keyed(c), env.custom),
                        Reach(w.kernel, Keyed(c)), OuterReach(Keyed(c)))
  {
    var networks := Keyed(c);
    var spaces, links, applied := Reach(w.kernel, networks), OuterReach(networks), InPlace(env, w.kernel, networks);
    var t, bridge := TablesOf(networks, env.custom), ApplyBridge(env, w);
    ApplyIsRest(env, w, c);
    BridgeWithin(env, w, spaces, links);
    FailedBefore(w.kernel, bridge.world, applied, t, spaces, links);
    if bridge.Done? {
      var list := NetnsList(env, bridge.world);
      FailedBefore(w.kernel, list.world, applied, t, spaces, links);
      if list.Done? {
        BridgeDone(env, w);
        SurplusWithin(env, w.kernel, networks);
        RestWithin(env, w.kernel, list.world, networks, env.order(list.value - NetnsNames(networks)), spaces, links);
      }
    }
  }

  function SurplusNames(k: Kernel, networks: seq<NetworkState>): set<string> { set ns | ns in k.spaces && Surplus(k, networks, ns) }

  // Nothing is touched yet but surplus namespaces and the bridge, or no surplus namespace is left.
  ghost predicate ClearsFirst(k: Kernel, after: Kernel, networks: seq<NetworkState>)
  {
    || Within(k, after.(nginx := k.nginx), SurplusNames(k, networks), {BRIDGE})
    || forall ns | ns in after.spaces && "network-" <= ns :: ns in NetnsNames(networks)
  }

  lemma DeletedAll(env: Env, k: Kernel, networks: seq<NetworkState>, cleared: Kernel)
    requires ListsSets(env)
    requires cleared == DropAll(k, ManagedIn(env.order(k.spaces.Keys - NetnsNames(networks))))
    ensures forall ns | ns in cleared.spaces && "network-" <= ns :: ns in NetnsNames(networks)
  {
  }

  lemma NamesStay(mid: Kernel, after: Kernel, networks: seq<NetworkState>)
    requires Within(mid, after, NetnsNames(networks), VethNames(networks))
    requires forall ns | ns in mid.spaces && "network-" <= ns :: ns in NetnsNames(networks)
    ensures forall ns | ns in after.spaces && "network-" <= ns :: ns in NetnsNames(networks)
  {
    forall ns | ns in after.spaces && "network-" <= ns ensures ns in NetnsNames(networks) {
      assert ns in NetnsNames(networks) || Lookup(after.spaces, ns) == Lookup(mid.spaces, ns);
    }
  }

  lemma RestClearsFirst(env: Env, k: Kernel, w: World, networks: seq<NetworkState>, names: seq<string>)
    requires ListsSets(env) && Within(k, w.kernel, {}, {BRIDGE}) && w.kernel.spaces == k.spaces
    requires names == env.order(k.spaces.Keys - NetnsNames(networks))
    ensures ClearsFirst(k, Rest(env, w, networks, names).world.kernel, networks)
  {
    var rest := DeleteAll(env, w, names);
    assert ManagedIn(names) <= SurplusNames(k, networks);
    DeleteAllWithin(env, w, names, SurplusNames(k, networks), {BRIDGE});
    assert rest.world.kernel.(nginx := k.nginx) == rest.world.kernel;
    if rest.Done? {
      DeleteAllDone(env, w, names);
      DeletedAll(env, w.kernel, networks, rest.world.kernel);
      var all := ApplyNetworks(env, rest.world, networks);
      NetworksWithin(env, rest.world, networks, NetnsNames(networks), VethNames(networks));
      NamesStay(rest.world.kernel, all.world.kernel, networks);
      if all.Done? { SameButNginx(env, all.world, networks); }
    }
  }

  /** Wherever a whole update fails, no network is touched before all surplus namespaces are gone. */
  lemma ClearedBeforeApplied(env: Env, w: World, c: Networks)
    requires ListsSets(env)
    ensures ClearsFirst(w.kernel, Apply(env, w, c).world.kernel, Keyed(c))
  {
    var networks := Keyed(c);
    var bridge := ApplyBridge(env, w);
    ApplyIsRest(env, w, c);
    BridgeWithin(env, w, {}, {BRIDGE});
    WithinNames(w.kernel, bridge.world.kernel, networks);
    if bridge.Done? {
      BridgeDone(env, w);
      var list := NetnsList(env, bridge.world);
      if list.Done? { RestClearsFirst(env, w.kernel, list.world, networks, env.order(list.value - NetnsNames(networks))); }
    }
  }

  lemma WithinNames(k: Kernel, after: Kernel, networks: seq<NetworkState>)
    requires Within(k, after, {}, {BRIDGE})
    ensures ClearsFirst(k, after, networks)
  {
    assert after.(nginx := k.nginx) == after;
    assert Within(k, after, SurplusNames(k, networks), {BRIDGE});
  }

  /*** Partial updates ***/

  // An entry may change the namespace of its key if it removes it, and that of its network's port otherwise.
  predicate EntryAllowed(port: u16, entry: Option<NetworkState>, spaces: set<string>, links: set<string>)
  {
    match entry
    case None => NetnsName(port) in spaces
    case Some(n) => NetnsName(n.listenPort) in spaces && VethName(n.listenPort) in links
  }

  lemma EntryWithin(env: Env, w: World, stored: Networks, port: u16, entry: Option<NetworkState>, listed: set<string>,
                    spaces: set<string>, links: set<string>)
    requires EntryAllowed(port, entry, spaces, links)
    ensures Within(w.kernel, ApplyEntry(env, w, stored, port, entry, listed).run.world.kernel, spaces, links)
  {
    match entry
    case None => DropWithin(w.kernel, NetnsName(port), spaces, links);
    case Some(n) => NetworkWithin(env, w, n, spaces, links);
  }

  lemma {:induction false} EntriesWithin(env: Env, w: World, stored: Networks, partial: Partial, ports: seq<u16>, listed: set<string>,
                                         spaces: set<string>, links: set<string>)
    requires forall p | p in ports :: p in partial && EntryAllowed(p, partial[p], spaces, links)
    ensures Within(w.kernel, ApplyEntries(env, w, stored, partial, ports, listed).run.world.kernel, spaces, links)
    decreases |ports|
  {
    if ports != [] {
      assert ports[0] in ports;
      var first := ApplyEntry(env, w, stored, ports[0], partial[ports[0]], listed);
      EntryWithin(env, w, stored, ports[0], partial[ports[0]], listed, spaces, links);
      if first.run.Done? { EntriesWithin(env, first.run.world, first.stored, partial, ports[1..], listed, spaces, links); }
    }
  }

  /** The same for a partial update and whatever namespaces and links its entries may change; nginx gets nothing new
      before all entries are handled. */
  lemma PartialWithin(env: Env, w: World, stored: Networks, partial: Partial, spaces: set<string>, links: set<string>)
    requires BRIDGE in links && forall p | p in partial :: EntryAllowed(p, partial[p], spaces, links)
    ensures var after := ApplyPartial(env, w, stored, partial).run.world.kernel;
      && Within(w.kernel, after.(nginx := w.kernel.nginx), spaces, links)
      && (after.nginx != w.kernel.nginx ==> ApplyPartial(env, w, stored, partial).stored == Override(stored, partial))
      && NginxStage(w.kernel.nginx, after.nginx, TablesOf(Stored(Override(stored, partial)), env.custom))
  {
    var ports := AscendingPorts(partial.Keys);
    var bridge := ApplyBridge(env, w);
    BridgeWithin(env, w, spaces, links);
    assert bridge.world.kernel.(nginx := w.kernel.nginx) == bridge.world.kernel;
    if bridge.Done? {
      var list := NetnsList(env, bridge.world);
      if list.Done? {
        var entries := ApplyEntries(env, list.world, stored, partial, ports, list.value);
        EntriesWithin(env, list.world, stored, partial, ports, list.value, spaces, links);
        EntriesStored(env, list.world, stored, partial, ports, list.value);
        AnyOrderOverrides(stored, partial, ports);
        assert entries.run.world.kernel.(nginx := w.kernel.nginx) == entries.run.world.kernel;
        if entries.run.Done? { SameButNginx(env, entries.run.world, Stored(entries.stored)); }
      }
    }
  }
}
