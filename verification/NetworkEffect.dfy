/** The effect of applying one network: what it sets, what it leaves alone, and when it does nothing. */
module NetworkEffect {
  import opened Basics
  import opened Config
  import opened Addressing
  import opened Iptables
  import opened Cleaning
  import opened Kernel
  import opened Reconciler
  import opened Effects

  /*** Targets ***/

  function WgTarget(n: NetworkState, l: Link): Link
  {
    l.(mtu := Some(n.mtu), down := false, addrs := l.addrs + Elements(n.address))
  }

  function InnerTarget(n: NetworkState, l: Link): Link
  {
    l.(addrs := l.addrs + {VethNet(n.listenPort)}, down := false)
  }

  function OuterTarget(l: Link): Link { l.(master := Some(BRIDGE), down := false) }

  function SpaceBefore(n: NetworkState, k: Kernel): Space
  {
    if NetnsName(n.listenPort) in k.spaces then k.spaces[NetnsName(n.listenPort)] else NEW_SPACE
  }

  function NetnsEffect(n: NetworkState, k: Kernel): Kernel
  {
    k.(spaces := k.spaces[NetnsName(n.listenPort) := SpaceBefore(n, k)])
  }

  function WithWireguard(env: Env, n: NetworkState, s: Space): Space
  {
    var wg := WgName(n.listenPort);
    s.(links := s.links[wg := WgTarget(n, Existing(s.links, wg, NEW_WIREGUARD))],
       wireguard := s.wireguard[wg := env.wgText(n)])
  }

  function WireguardEffect(env: Env, n: NetworkState, k: Kernel): Kernel
    requires NetnsName(n.listenPort) in k.spaces
  {
    var ns := NetnsName(n.listenPort);
    k.(spaces := k.spaces[ns := WithWireguard(env, n, k.spaces[ns])],
       files := k.files[(ns, WgName(n.listenPort)) := env.wgText(n)])
  }

  function WithVeth(n: NetworkState, s: Space): Space
  {
    var veth := VethName(n.listenPort);
    s.(links := s.links[veth := InnerTarget(n, Existing(s.links, veth, NewVeth(None)))])
  }

  function OuterBefore(n: NetworkState, k: Kernel): Link
  {
    Existing(k.root, VethName(n.listenPort), NewVeth(Some(NetnsName(n.listenPort))))
  }

  function VethEffect(n: NetworkState, k: Kernel): Kernel
    requires NetnsName(n.listenPort) in k.spaces
  {
    var ns := NetnsName(n.listenPort);
    k.(spaces := k.spaces[ns := WithVeth(n, k.spaces[ns])],
       root := k.root[VethName(n.listenPort) := OuterTarget(OuterBefore(n, k))])
  }

  function WithRules(env: Env, n: NetworkState, s: Space): Space
  {
    if Clean(env.dump(s.rules)) == Clean(RulesText(n)) then s else s.(rules := Clean(RulesText(n)))
  }

  function ForwardingEffect(env: Env, n: NetworkState, k: Kernel): Kernel
    requires NetnsName(n.listenPort) in k.spaces
  {
    var ns := NetnsName(n.listenPort);
    k.(spaces := k.spaces[ns := WithRules(env, n, k.spaces[ns])])
  }

  function SpaceEffect(env: Env, n: NetworkState, s: Space): Space
  {
    WithRules(env, n, WithVeth(n, WithWireguard(env, n, s)))
  }

  /** Everything a successful application of one network does. */
  function Effect(env: Env, n: NetworkState, k: Kernel): Kernel
  {
    var ns := NetnsName(n.listenPort);
    k.(spaces := k.spaces[ns := SpaceEffect(env, n, SpaceBefore(n, k))],
       root := k.root[VethName(n.listenPort) := OuterTarget(OuterBefore(n, k))],
       files := k.files[(ns, WgName(n.listenPort)) := env.wgText(n)])
  }

  /*** Success means the effect ***/

  lemma NetnsDone(env: Env, w: World, n: NetworkState)
    ensures ApplyNetns(env, w, n).Done? ==> ApplyNetns(env, w, n).world.kernel == NetnsEffect(n, w.kernel)
  {
    var ns := NetnsName(n.listenPort);
    if ns in w.kernel.spaces { assert w.kernel.spaces[ns := w.kernel.spaces[ns]] == w.kernel.spaces; }
  }

  // This space, and the network's configuration file.
  function WithWgSpace(env: Env, n: NetworkState, k: Kernel, s: Space): Kernel
  {
    var ns := NetnsName(n.listenPort);
    k.(spaces := k.spaces[ns := s], files := k.files[(ns, WgName(n.listenPort)) := env.wgText(n)])
  }

  // Writing the file and syncing it, after the link has been set.
  lemma WireguardTail(env: Env, k: Kernel, n: NetworkState, a: Link, b: Link)
    requires NetnsName(n.listenPort) in k.spaces
    ensures var ns, wg := NetnsName(n.listenPort), WgName(n.listenPort);
      var x := SetLink(k, Some(ns), wg, a).(files := k.files[(ns, wg) := env.wgText(n)]);
      var y := SetLink(x, Some(ns), wg, b);
      var s := y.spaces[ns];
      y.(spaces := y.spaces[ns := s.(wireguard := s.wireguard[wg := env.wgText(n)])])
        == WithWgSpace(env, n, k, Space(k.spaces[ns].links[wg := b], k.spaces[ns].wireguard[wg := env.wgText(n)], k.spaces[ns].rules))
  {
    var ns, wg := NetnsName(n.listenPort), WgName(n.listenPort);
    var x := SetLink(k, Some(ns), wg, a).(files := k.files[(ns, wg) := env.wgText(n)]);
    SetLinkTwice(k.(files := x.files), Some(ns), wg, a, b);
    assert SetLink(k, Some(ns), wg, a).(files := x.files) == SetLink(k.(files := x.files), Some(ns), wg, a);
    var s := k.spaces[ns].(links := k.spaces[ns].links[wg := b]);
    var t := s.(wireguard := s.wireguard[wg := env.wgText(n)]);
    assert k.spaces[ns := s][ns := t] == k.spaces[ns := t];
  }

  lemma WireguardDone(env: Env, w: World, n: NetworkState)
    ensures ApplyWireguard(env, w, n).Done? ==> NetnsName(n.listenPort) in w.kernel.spaces
    ensures ApplyWireguard(env, w, n).Done? ==> ApplyWireguard(env, w, n).world.kernel == WireguardEffect(env, n, w.kernel)
  {
    var k := w.kernel;
    var ns, wg := NetnsName(n.listenPort), WgName(n.listenPort);
    var a := LinkExists(env, w, Some(ns), wg);
    if a.Done? && ApplyWireguard(env, w, n).Done? {
      var l0 := Existing(k.spaces[ns].links, wg, NEW_WIREGUARD);
      var b := if a.value then Done(a.world, ()) else LinkAdd(env, a.world, Some(ns), wg, NEW_WIREGUARD);
      assert b.world.kernel == SetLink(k, Some(ns), wg, l0) by { if a.value { SetLinkSame(k, Some(ns), wg); } }
      SetLinkGet(k, Some(ns), wg, l0);
      var c := InterfaceShow(env, b.world, Some(ns), wg);
      var l1 := l0.(mtu := Some(n.mtu));
      var d := if l0.mtu != Some(n.mtu) then InterfaceMtu(env, c.world, Some(ns), wg, n.mtu) else Done(c.world, ());
      assert d.world.kernel == SetLink(k, Some(ns), wg, l1) by { SetLinkTwice(k, Some(ns), wg, l0, l1); }
      SetLinkGet(k, Some(ns), wg, l1);
      FinishWireguardDone(env, d.world, n, k, l1);
    }
  }

  lemma FinishWireguardDone(env: Env, w: World, n: NetworkState, k: Kernel, l: Link)
    requires NetnsName(n.listenPort) in k.spaces
    requires w.kernel == SetLink(k, Some(NetnsName(n.listenPort)), WgName(n.listenPort), l)
    ensures FinishWireguard(env, w, n).Done? ==>
      FinishWireguard(env, w, n).world.kernel == WithWgSpace(env, n, k, Space(
        k.spaces[NetnsName(n.listenPort)].links[WgName(n.listenPort) := l.(down := false, addrs := l.addrs + Elements(n.address))],
        k.spaces[NetnsName(n.listenPort)].wireguard[WgName(n.listenPort) := env.wgText(n)],
        k.spaces[NetnsName(n.listenPort)].rules))
  {
    var ns, wg := NetnsName(n.listenPort), WgName(n.listenPort);
    SetLinkGet(k, Some(ns), wg, l);
    ApplyUpDone(env, w, Some(ns), wg);
    var m := l.(down := false);
    SetLinkTwice(k, Some(ns), wg, l, m);
    SetLinkGet(k, Some(ns), wg, m);
    var up := ApplyInterfaceUp(env, w, Some(ns), wg);
    if up.Done? {
      var file := NetnsWriteFile(env, up.world, ns, wg, env.wgText(n));
      if file.Done? {
        ApplyAddrDone(env, file.world, Some(ns), wg, n.address);
        WireguardTail(env, k, n, m, m.(addrs := m.addrs + Elements(n.address)));
      }
    }
  }

  lemma VethLinksDone(env: Env, w: World, n: NetworkState, k: Kernel, inner: Link, outer: Link)
    requires NetnsName(n.listenPort) in k.spaces
    requires w.kernel == Pair(k, NetnsName(n.listenPort), VethName(n.listenPort), inner, outer)
    ensures FinishVeth(env, w, n).Done? ==>
      FinishVeth(env, w, n).world.kernel
        == Pair(k, NetnsName(n.listenPort), VethName(n.listenPort), InnerTarget(n, inner), OuterTarget(outer))
  {
    var ns, veth := NetnsName(n.listenPort), VethName(n.listenPort);
    var at := Some(ns);
    var i1 := inner.(addrs := inner.addrs + {VethNet(n.listenPort)});
    var o1 := outer.(master := Some(BRIDGE));
    assert Elements([VethNet(n.listenPort)]) == {VethNet(n.listenPort)};
    var a := ApplyAddr(env, w, at, veth, [VethNet(n.listenPort)]);
    if a.Done? {
      ApplyAddrDone(env, w, at, veth, [VethNet(n.listenPort)]);
      assert a.world.kernel == Pair(k, ns, veth, i1, outer) by { PairInner(k, ns, veth, inner, outer, i1); }
      var b := ApplyLinkMaster(env, a.world, None, veth, BRIDGE);
      if b.Done? {
        ApplyMasterDone(env, a.world, None, veth, BRIDGE);
        assert b.world.kernel == Pair(k, ns, veth, i1, o1) by { PairOuter(k, ns, veth, i1, outer, o1); }
        var c := ApplyInterfaceUp(env, b.world, at, veth);
        if c.Done? {
          ApplyUpDone(env, b.world, at, veth);
          assert c.world.kernel == Pair(k, ns, veth, i1.(down := false), o1) by { PairInner(k, ns, veth, i1, o1, i1.(down := false)); }
          ApplyUpDone(env, c.world, None, veth);
          PairOuter(k, ns, veth, i1.(down := false), o1, o1.(down := false));
        }
      }
    }
  }

  // Both ends of a veth pair set.
  function Pair(k: Kernel, ns: string, veth: string, inner: Link, outer: Link): Kernel
    requires ns in k.spaces
  {
    SetLink(SetLink(k, Some(ns), veth, inner), None, veth, outer)
  }

  lemma PairInner(k: Kernel, ns: string, veth: string, inner: Link, outer: Link, next: Link)
    requires ns in k.spaces
    ensures HasLink(Pair(k, ns, veth, inner, outer), Some(ns), veth) && LinkAt(Pair(k, ns, veth, inner, outer), Some(ns), veth) == inner
    ensures SetLink(Pair(k, ns, veth, inner, outer), Some(ns), veth, next) == Pair(k, ns, veth, next, outer)
  {
    SetLinkTwice(k, Some(ns), veth, inner, next);
    assert SetLink(Pair(k, ns, veth, inner, outer), Some(ns), veth, next)
        == SetLink(SetLink(SetLink(k, Some(ns), veth, inner), Some(ns), veth, next), None, veth, outer);
  }

  lemma PairOuter(k: Kernel, ns: string, veth: string, inner: Link, outer: Link, next: Link)
    requires ns in k.spaces
    ensures HasLink(Pair(k, ns, veth, inner, outer), None, veth) && LinkAt(Pair(k, ns, veth, inner, outer), None, veth) == outer
    ensures SetLink(Pair(k, ns, veth, inner, outer), None, veth, next) == Pair(k, ns, veth, inner, next)
  {
    SetLinkTwice(SetLink(k, Some(ns), veth, inner), None, veth, outer, next);
  }

  lemma VethDone(env: Env, w: World, n: NetworkState)
    ensures ApplyVeth(env, w, n).Done? ==> NetnsName(n.listenPort) in w.kernel.spaces
    ensures ApplyVeth(env, w, n).Done? ==> ApplyVeth(env, w, n).world.kernel == VethEffect(n, w.kernel)
  {
    var k := w.kernel;
    var ns, veth := NetnsName(n.listenPort), VethName(n.listenPort);
    var a := LinkExists(env, w, Some(ns), veth);
    if a.Done? && ApplyVeth(env, w, n).Done? {
      var b := if a.value then Done(a.world, ()) else VethAdd(env, a.world, ns, veth, veth);
      var inner := Existing(k.spaces[ns].links, veth, NewVeth(None));
      if a.value {
        FinishVethNeedsOuter(env, a.world, n);
        SetLinkSame(k, Some(ns), veth);
        SetLinkSame(k, None, veth);
      }
      var outer := OuterBefore(n, k);
      assert b.world.kernel == Pair(k, ns, veth, inner, outer);
      VethLinksDone(env, b.world, n, k, inner, outer);
    }
  }

  lemma FinishVethNeedsOuter(env: Env, w: World, n: NetworkState)
    ensures FinishVeth(env, w, n).Done? ==> VethName(n.listenPort) in w.kernel.root
  {
    var ns, veth := NetnsName(n.listenPort), VethName(n.listenPort);
    ApplyAddrDone(env, w, Some(ns), veth, [VethNet(n.listenPort)]);
  }

  lemma ForwardingDone(env: Env, w: World, n: NetworkState)
    ensures ApplyForwarding(env, w, n).Done? ==> NetnsName(n.listenPort) in w.kernel.spaces
    ensures ApplyForwarding(env, w, n).Done? ==> ApplyForwarding(env, w, n).world.kernel == ForwardingEffect(env, n, w.kernel)
  {
    var ns := NetnsName(n.listenPort);
    if ns in w.kernel.spaces {
      assert w.kernel.spaces[ns := w.kernel.spaces[ns]] == w.kernel.spaces;
    }
  }

  /** A successful application of a network has exactly its effect. */
  lemma NetworkDone(env: Env, w: World, n: NetworkState)
    ensures ApplyNetwork(env, w, n).Done? ==> ApplyNetwork(env, w, n).world.kernel == Effect(env, n, w.kernel)
  {
    NetnsDone(env, w, n);
    var a := ApplyNetns(env, w, n);
    if a.Done? {
      WireguardDone(env, a.world, n);
      var b := ApplyWireguard(env, a.world, n);
      if b.Done? {
        VethDone(env, b.world, n);
        var c := ApplyVeth(env, b.world, n);
        if c.Done? {
          ForwardingDone(env, c.world, n);
          EffectsCompose(env, n, w.kernel);
        }
      }
    }
  }

  lemma EffectsCompose(env: Env, n: NetworkState, k: Kernel)
    ensures ForwardingEffect(env, n, VethEffect(n, WireguardEffect(env, n, NetnsEffect(n, k)))) == Effect(env, n, k)
  {
    var ns := NetnsName(n.listenPort);
    var s0 := SpaceBefore(n, k);
    var s1 := WithWireguard(env, n, s0);
    var k2 := WireguardEffect(env, n, NetnsEffect(n, k));
    assert k2.spaces == k.spaces[ns := s1] by { SpaceTwice(k.spaces, ns, s0, s1); }
    var s2 := WithVeth(n, s1);
    var k3 := VethEffect(n, k2);
    assert k3.spaces == k.spaces[ns := s2] by { SpaceTwice(k.spaces, ns, s1, s2); }
    SpaceTwice(k.spaces, ns, s2, WithRules(env, n, s2));
  }

  lemma SpaceTwice(m: map<string, Space>, ns: string, a: Space, b: Space)
    ensures m[ns := a][ns := b] == m[ns := b]
  {
  }

  /*** Nothing left to do ***/

  ghost predicate SpaceSettled(env: Env, n: NetworkState, s: Space)
  {
    var wg, veth := WgName(n.listenPort), VethName(n.listenPort);
    && wg in s.links && s.links[wg].mtu == Some(n.mtu) && !s.links[wg].down && Elements(n.address) <= s.links[wg].addrs
    && wg in s.wireguard && s.wireguard[wg] == env.wgText(n)
    && veth in s.links && !s.links[veth].down && VethNet(n.listenPort) in s.links[veth].addrs
    && Clean(env.dump(s.rules)) == RulesText(n)
  }

  /** The namespace has its MTU, configuration, addresses, NAT rules and up flags, and its veth is on the bridge. */
  ghost predicate Settled(env: Env, n: NetworkState, k: Kernel)
  {
    var ns, wg, veth := NetnsName(n.listenPort), WgName(n.listenPort), VethName(n.listenPort);
    && ns in k.spaces && SpaceSettled(env, n, k.spaces[ns])
    && (ns, wg) in k.files && k.files[(ns, wg)] == env.wgText(n)
    && veth in k.root && k.root[veth].master == Some(BRIDGE) && !k.root[veth].down
  }

  // After a network's NAT rules are restored, saving them prints a text that cleans to theirs.
  ghost predicate FaithfulDump(env: Env) { forall n: NetworkState :: Clean(env.dump(RulesText(n))) == RulesText(n) }

  lemma RulesTextIsClean(n: NetworkState)
    ensures Clean(RulesText(n)) == RulesText(n)
  {
    NetworkRulesPlain(n);
    RenderIsClean(RulesOf(PortConfigOf(n)));
  }

  lemma LinkNamesDiffer(port: u16)
    ensures WgName(port) != VethName(port) && VethName(port) != BRIDGE
  {
    assert WgName(port)[0] == 'w' && VethName(port)[0] == 'v' && BRIDGE[0] == 'e';
  }

  lemma SpaceEffectSettles(env: Env, n: NetworkState, s: Space)
    requires FaithfulDump(env)
    ensures SpaceSettled(env, n, SpaceEffect(env, n, s))
  {
    LinkNamesDiffer(n.listenPort);
    RulesTextIsClean(n);
    var t := WithVeth(n, WithWireguard(env, n, s));
    assert Clean(env.dump(Clean(RulesText(n)))) == RulesText(n);
  }

  lemma EffectSettles(env: Env, n: NetworkState, k: Kernel)
    requires FaithfulDump(env)
    ensures Settled(env, n, Effect(env, n, k))
  {
    SpaceEffectSettles(env, n, SpaceBefore(n, k));
  }

  /** Applying another network leaves a settled one settled. */
  lemma EffectKeepsOthers(env: Env, n: NetworkState, m: NetworkState, k: Kernel)
    requires n.listenPort != m.listenPort && Settled(env, m, k)
    ensures Settled(env, m, Effect(env, n, k))
  {
    NamesDiffer(n.listenPort, m.listenPort);
  }

  lemma WithWireguardFixed(env: Env, n: NetworkState, s: Space)
    requires SpaceSettled(env, n, s)
    ensures WithWireguard(env, n, s) == s
  {
    var wg := WgName(n.listenPort);
    assert s.links[wg].addrs + Elements(n.address) == s.links[wg].addrs;
    assert s.links[wg := s.links[wg]] == s.links;
    assert s.wireguard[wg := s.wireguard[wg]] == s.wireguard;
  }

  lemma WithVethFixed(env: Env, n: NetworkState, s: Space)
    requires SpaceSettled(env, n, s)
    ensures WithVeth(n, s) == s
  {
    var veth := VethName(n.listenPort);
    assert s.links[veth].addrs + {VethNet(n.listenPort)} == s.links[veth].addrs;
    assert s.links[veth := s.links[veth]] == s.links;
  }

  lemma SpaceEffectFixed(env: Env, n: NetworkState, s: Space)
    requires SpaceSettled(env, n, s)
    ensures SpaceEffect(env, n, s) == s
  {
    WithWireguardFixed(env, n, s);
    WithVethFixed(env, n, s);
    assert WithRules(env, n, s) == s by { RulesTextIsClean(n); }
  }

  lemma SettledFixed(env: Env, n: NetworkState, k: Kernel)
    requires Settled(env, n, k)
    ensures Effect(env, n, k) == k
  {
    var ns, wg, veth := NetnsName(n.listenPort), WgName(n.listenPort), VethName(n.listenPort);
    SpaceEffectFixed(env, n, k.spaces[ns]);
    SameUpdate(k.spaces, ns);
    assert OuterTarget(k.root[veth]) == k.root[veth];
    SameUpdate(k.root, veth);
    SameUpdate(k.files, (ns, wg));
  }

  lemma SameUpdate<K, V>(m: map<K, V>, x: K)
    requires x in m
    ensures m[x := m[x]] == m
  {
  }

  lemma WireguardQuiet(env: Env, w: World, n: NetworkState)
    requires Settled(env, n, w.kernel)
    ensures Quiet(w, ApplyWireguard(env, w, n).world)
  {
    var k := w.kernel;
    var ns, wg := NetnsName(n.listenPort), WgName(n.listenPort);
    assert k.files[(ns, wg) := k.files[(ns, wg)]] == k.files;
    var a := LinkExists(env, w, Some(ns), wg);
    if a.Done? {
      var b := InterfaceShow(env, a.world, Some(ns), wg);
      if b.Done? {
        FinishWireguardQuiet(env, b.world, n);
      }
    }
  }

  lemma FinishWireguardQuiet(env: Env, w: World, n: NetworkState)
    requires Settled(env, n, w.kernel)
    ensures Quiet(w, FinishWireguard(env, w, n).world)
  {
    var k := w.kernel;
    var ns, wg := NetnsName(n.listenPort), WgName(n.listenPort);
    assert k.files[(ns, wg) := k.files[(ns, wg)]] == k.files;
    var up := ApplyInterfaceUp(env, w, Some(ns), wg);
    if up.Done? {
      var file := NetnsWriteFile(env, up.world, ns, wg, env.wgText(n));
      if file.Done? {
        assert file.world.kernel == k;
        ApplyAddrQuiet(env, file.world, Some(ns), wg, n.address);
        var s := k.spaces[ns];
        assert s.wireguard[wg := s.wireguard[wg]] == s.wireguard;
        assert k.spaces[ns := s] == k.spaces;
      }
    }
  }

  lemma VethQuiet(env: Env, w: World, n: NetworkState)
    requires Settled(env, n, w.kernel)
    ensures Quiet(w, ApplyVeth(env, w, n).world)
  {
    var ns, veth := NetnsName(n.listenPort), VethName(n.listenPort);
    var a := LinkExists(env, w, Some(ns), veth);
    if a.Done? {
      assert Elements([VethNet(n.listenPort)]) == {VethNet(n.listenPort)};
      ApplyAddrQuiet(env, a.world, Some(ns), veth, [VethNet(n.listenPort)]);
    }
  }

  /** On a settled network, applying it again changes nothing, even when it fails half-way. */
  lemma NetworkQuiet(env: Env, w: World, n: NetworkState)
    requires Settled(env, n, w.kernel)
    ensures Quiet(w, ApplyNetwork(env, w, n).world)
  {
    var a := ApplyNetns(env, w, n);
    if a.Done? {
      WireguardQuiet(env, a.world, n);
      var b := ApplyWireguard(env, a.world, n);
      if b.Done? {
        VethQuiet(env, b.world, n);
        RulesTextIsClean(n);
      }
    }
  }
}
